/** Suspend and resume as a round trip: what comes back, what stays, and exactly when. */
module Suspension {
  import opened ByteCodec
  import opened Sequences
  import opened SensorTypes
  import opened ClientInfos
  import opened SensorManagers
  import opened SensorPowerPolicies
  import opened SensorServices
  import opened Arbitration

  /** Every HDI call succeeds. */
  ghost predicate HdiOk(env: Env) {
    forall n: nat :: env.hdi(n)
  }

  function Config(info: Info): (b: Batch) {
    Batch(info.period, info.delay)
  }

  /** What a suspend records for sensor `d`: an entry saved earlier wins. */
  function Recorded(s: Sys, pid: Int32, acc: Saved, d: Desc): (b: Batch)
    requires Has(s.clients, d, pid)
  {
    if d in acc then acc[d] else Config(s.clients[d][pid])
  }

  ghost predicate AllFixed(env: Env, acc: Saved) {
    forall d <- acc :: Fixed(env, d, acc[d])
  }

  lemma SuspendOneKeeps(env: Env, s: Sys, pid: Int32, d: Desc, acc: Saved)
    requires Inv(env, s) && Has(s.clients, d, pid) && AllFixed(env, acc)
    ensures var r := SuspendOne(env, s, pid, d, acc);
            Inv(env, r.0) && Local(s, r.0, d, pid) && r.0.saved == s.saved && AllFixed(env, r.1)
    ensures var r := SuspendOne(env, s, pid, d, acc);
            if Freezing(d) then r.0 == s && r.1 == acc
            else Subs(r.0.clients, d) == Subs(s.clients, d) - {pid} && r.1 == acc[d := Recorded(s, pid, acc, d)]
                 && (HdiOk(env) ==> (d in r.0.dev.on <==> Subs(s.clients, d).Keys != {pid}))
    ensures HdiOk(env) ==> SuspendOne(env, s, pid, d, acc).2
  {
    hide Freezing, AfterSetBatch;
    var r := SuspendOne(env, s, pid, d, acc);
    SameAtRefl(s, s, d, pid);
    if !Freezing(d) {
      var m := Subs(s.clients, d);
      assert InvAt(env, s, d) && SoundRecord(env, d, pid, m[pid]);
      assert Fixed(env, d, Recorded(s, pid, acc, d));
      hide Fixed;
      YieldKeeps(env, s, d, pid);
      hide Yield;
      if m.Keys == {pid} {
        assert m - {pid} == map[];
      }
      LocalKeeps(env, s, r.0, d, pid);
    }
  }

  /** The whole Suspend loop keeps the invariant and the other clients. */
  lemma {:induction false} SuspendEachKeeps(env: Env, s: Sys, pid: Int32, order: seq<Desc>, acc: Saved, all: bool)
    requires Inv(env, s) && AllFixed(env, acc) && Distinct(order) && forall d <- order :: Has(s.clients, d, pid)
    ensures var r := SuspendEach(env, s, pid, order, acc, all);
            Inv(env, r.0) && OthersKept(s.clients, r.0.clients, pid) && r.0.saved == s.saved && AllFixed(env, r.1)
    ensures HdiOk(env) ==> SuspendEach(env, s, pid, order, acc, all).2 == all
    decreases |order|
  {
    hide Fixed, SuspendOne, AllFixed;
    if order != [] {
      var d := order[0];
      var t := SuspendOne(env, s, pid, d, acc);
      SuspendOneKeeps(env, s, pid, d, acc);
      LocalKeeps(env, s, t.0, d, pid);
      forall e <- order[1..] ensures Has(t.0.clients, e, pid) {
        assert e in order && e != d && SameAt(s, t.0, e);
      }
      SuspendEachKeeps(env, t.0, pid, order[1..], t.1, all && t.2);
      var r := SuspendEach(env, s, pid, order, acc, all);
      OthersKeptTrans(s.clients, t.0.clients, r.0.clients, pid);
    }
  }

  /** The Suspend loop, seen from one sensor. */
  ghost predicate SuspendedAt(env: Env, s: Sys, t: Sys, pid: Int32, acc: Saved, acc': Saved, d: Desc, active: bool) {
    if !active then SameAt(s, t, d) && (d in acc <==> d in acc') && (d in acc ==> acc'[d] == acc[d])
    else
      Has(s.clients, d, pid) && Subs(t.clients, d) == Subs(s.clients, d) - {pid}
      && d in acc' && acc'[d] == Recorded(s, pid, acc, d)
      && (HdiOk(env) ==> (d in t.dev.on <==> Subs(s.clients, d).Keys != {pid}))
  }

  lemma {:induction false} SuspendEachAt(env: Env, s: Sys, pid: Int32, order: seq<Desc>, acc: Saved, all: bool, e: Desc)
    requires Inv(env, s) && AllFixed(env, acc) && Distinct(order) && forall d <- order :: Has(s.clients, d, pid)
    ensures var r := SuspendEach(env, s, pid, order, acc, all);
            SuspendedAt(env, s, r.0, pid, acc, r.1, e, e in order && !Freezing(e))
    decreases |order|
  {
    hide Fixed, SuspendOne, AllFixed, Freezing;
    if order != [] {
      var d := order[0];
      var t := SuspendOne(env, s, pid, d, acc);
      SuspendOneKeeps(env, s, pid, d, acc);
      hide Inv;
      forall x <- order[1..] ensures Has(t.0.clients, x, pid) {
        assert x in order && x != d && SameAt(s, t.0, x);
      }
      SuspendEachAt(env, t.0, pid, order[1..], t.1, all && t.2, e);
      assert e in order <==> e == d || e in order[1..];
      if e == d {
        assert e !in order[1..];
      } else {
        assert SameAt(s, t.0, e);
      }
    }
  }

  // ----- what a suspend answers, whatever the hardware does

  /** The client is the only user of `d`, so that suspending it is to switch the sensor off. */
  predicate SoleUse(cm: ClientMap, d: Desc, pid: Int32) {
    !Freezing(d) && Subs(cm, d).Keys == {pid}
  }

  ghost predicate SwitchedOff(s: Sys, t: Sys, pid: Int32, order: seq<Desc>) {
    forall d <- order :: SoleUse(s.clients, d, pid) ==> d !in t.dev.on
  }

  lemma SuspendOneAnswers(env: Env, s: Sys, pid: Int32, d: Desc, acc: Saved)
    requires Inv(env, s) && Has(s.clients, d, pid)
    ensures var r := SuspendOne(env, s, pid, d, acc);
            r.2 <==> (SoleUse(s.clients, d, pid) ==> d !in r.0.dev.on)
  {
    hide Freezing, Fixed;
    assert InvAt(env, s, d);
    YieldKeeps(env, s, d, pid);
    hide Yield;
  }

  lemma {:induction false} SuspendEachAnswers(env: Env, s: Sys, pid: Int32, order: seq<Desc>, acc: Saved, all: bool)
    requires Inv(env, s) && AllFixed(env, acc) && Distinct(order) && forall d <- order :: Has(s.clients, d, pid)
    ensures var r := SuspendEach(env, s, pid, order, acc, all);
            r.2 <==> all && SwitchedOff(s, r.0, pid, order)
    decreases |order|
  {
    hide Fixed, SuspendOne, AllFixed, Freezing, SoleUse;
    if order != [] {
      var d, tail := order[0], order[1..];
      var t := SuspendOne(env, s, pid, d, acc);
      SuspendOneKeeps(env, s, pid, d, acc);
      SuspendOneAnswers(env, s, pid, d, acc);
      forall e <- tail
        ensures Has(t.0.clients, e, pid) && (SoleUse(t.0.clients, e, pid) <==> SoleUse(s.clients, e, pid))
      {
        assert e in order && e != d && SameAt(s, t.0, e);
        SoleUseOf(s.clients, t.0.clients, e, pid);
      }
      SuspendEachAnswers(env, t.0, pid, tail, t.1, all && t.2);
      SuspendEachAt(env, t.0, pid, tail, t.1, all && t.2, d);
      hide Inv;
      assert d !in tail;
      assert forall e <- order :: e == d || e in tail;
      assert forall e <- tail :: e in order;
    }
  }

  lemma SoleUseOf(a: ClientMap, b: ClientMap, d: Desc, pid: Int32)
    requires Subs(a, d) == Subs(b, d)
    ensures SoleUse(a, d, pid) <==> SoleUse(b, d, pid)
  {
  }

  /** Suspending, with or without an earlier saved entry and whatever HDI calls fail: every record
      of the client goes but those of pedometers, an earlier entry stays as it is, and the answer is
      success exactly when every sensor that only the client used is off. */
  lemma SuspendAnswersIff(env: Env, s: Sys, pid: Int32, order: seq<Desc>)
    requires Inv(env, s) && Enumerates(order, SensorsOf(s.clients, pid))
    ensures var r := SuspendSensorsStep(env, s, pid, order);
            var off := forall d <- SensorsOf(s.clients, pid) ::
              !Freezing(d) && Subs(s.clients, d).Keys == {pid} ==> d !in r.0.dev.on;
            r.1 == (if off then ErrOk else SuspendErr)
            && (forall d: Desc :: Subs(r.0.clients, d)
                 == if Freezing(d) then Subs(s.clients, d) else Subs(s.clients, d) - {pid})
            && (order == [] || pid in s.saved ==> r.0.saved == s.saved)
  {
    hide Fixed, Freezing, SoleUse;
    var r := SuspendSensorsStep(env, s, pid, order);
    OrderIsOwn(env, s, pid, order);
    var acc: Saved := if pid in s.saved then s.saved[pid] else map[];
    SavedFixed(env, acc);
    SuspendEachKeeps(env, s, pid, order, acc, true);
    SuspendEachAnswers(env, s, pid, order, acc, true);
    forall d: Desc
      ensures Subs(r.0.clients, d) == if Freezing(d) then Subs(s.clients, d) else Subs(s.clients, d) - {pid}
    {
      SuspendEachAt(env, s, pid, order, acc, true, d);
      assert d in order <==> Has(s.clients, d, pid);
      assert pid !in Subs(s.clients, d) ==> Subs(s.clients, d) - {pid} == Subs(s.clients, d);
      hide SuspendEach, Inv, AllFixed;
    }
    hide SuspendEach, Inv, AllFixed, Enumerates;
    assert forall d: Desc :: SoleUse(s.clients, d, pid) <==> !Freezing(d) && Subs(s.clients, d).Keys == {pid} by {
      SoleUseIs(s.clients, pid);
    }
  }

  lemma SoleUseIs(cm: ClientMap, pid: Int32)
    ensures forall d: Desc :: SoleUse(cm, d, pid) <==> !Freezing(d) && Subs(cm, d).Keys == {pid}
  {
  }

  /** A saved configuration the service will take back: it passes Resume's own test, and the
      clamp does not refuse it. */
  ghost predicate Resumable(env: Env, d: Desc, b: Batch) {
    Admissible(d, b) && GetSensorInfo(env.sensors, d, b.period, b.delay).state
  }

  lemma ResumeOkIff(env: Env, s: Sys, d: Desc, pid: Int32, b: Batch)
    requires HdiOk(env) && pid > INVALID_PID
    ensures Resume(env, s, d, pid, b).1 <==> Resumable(env, d, b)
    ensures !Resumable(env, d, b) ==> Resume(env, s, d, pid, b).0 == s
  {
    if Resumable(env, d, b) {
      assert Granted(env.sensors, d, pid, b.period, b.delay);
    }
  }

  function Thawed(b: Batch): (info: Info) {
    Info(b.period, b.delay, true, true)
  }

  ghost predicate OrderOk(env: Env, order: seq<(Desc, Batch)>) {
    (forall i :: 0 <= i < |order| ==> Fixed(env, order[i].0, order[i].1))
    && forall i, j :: 0 <= i < j < |order| ==> order[i].0 != order[j].0
  }

  lemma OrderOkTail(env: Env, order: seq<(Desc, Batch)>)
    requires order != [] && OrderOk(env, order)
    ensures OrderOk(env, order[1..]) && Fixed(env, order[0].0, order[0].1)
    ensures forall b: Batch :: (order[0].0, b) !in order[1..]
  {
    hide Fixed;
  }

  lemma {:induction false} ResumeEachKeeps(env: Env, s: Sys, pid: Int32, order: seq<(Desc, Batch)>, all: bool)
    requires Inv(env, s) && OrderOk(env, order)
    ensures var r := ResumeEach(env, s, pid, order, all);
            Inv(env, r.0) && OthersKept(s.clients, r.0.clients, pid) && r.0.saved == s.saved
            && (r.1 ==> all)
    decreases |order|
  {
    hide Fixed, Resume, OrderOk;
    if order != [] {
      var d, b := order[0].0, order[0].1;
      OrderOkTail(env, order);
      var t := Resume(env, s, d, pid, b);
      ResumeKeeps(env, s, d, pid, b);
      LocalKeeps(env, s, t.0, d, pid);
      ResumeEachKeeps(env, t.0, pid, order[1..], all && t.1);
      OthersKeptTrans(s.clients, t.0.clients, ResumeEach(env, s, pid, order, all).0.clients, pid);
    }
  }

  /** The Resume loop, seen from one saved configuration: an overall success restores it. */
  lemma {:induction false} ResumeEachAt(env: Env, s: Sys, pid: Int32, order: seq<(Desc, Batch)>, all: bool,
      e: Desc, b: Batch)
    requires Inv(env, s) && OrderOk(env, order) && pid > INVALID_PID
    ensures var r := ResumeEach(env, s, pid, order, all);
            ((e, b) in order && (r.1 || (HdiOk(env) && Resumable(env, e, b))) ==>
               Subs(r.0.clients, e) == Subs(s.clients, e)[pid := Thawed(b)] && e in r.0.dev.on)
            && ((e, b) in order && HdiOk(env) && !Resumable(env, e, b) ==> SameAt(s, r.0, e) && !r.1)
            && ((forall c: Batch :: (e, c) !in order) ==> SameAt(s, r.0, e))
    decreases |order|
  {
    hide Fixed, Resume, OrderOk, Resumable;
    if order != [] {
      var d, c := order[0].0, order[0].1;
      OrderOkTail(env, order);
      var t := Resume(env, s, d, pid, c);
      ResumeKeeps(env, s, d, pid, c);
      if HdiOk(env) {
        ResumeOkIff(env, s, d, pid, c);
      }
      ResumeEachKeeps(env, t.0, pid, order[1..], all && t.1);
      ResumeEachAt(env, t.0, pid, order[1..], all && t.1, e, b);
      assert (e, b) in order <==> (e, b) == order[0] || (e, b) in order[1..];
      assert order[0] in order;
      hide Inv;
      if e != d {
        assert SameAt(s, t.0, e);
        assert forall x: Batch :: (e, x) in order ==> (e, x) in order[1..];
      }
    }
  }

  lemma {:induction false} ResumeEachOkIff(env: Env, s: Sys, pid: Int32, order: seq<(Desc, Batch)>, all: bool)
    requires HdiOk(env) && pid > INVALID_PID
    ensures ResumeEach(env, s, pid, order, all).1 <==> all && forall x <- order :: Resumable(env, x.0, x.1)
    decreases |order|
  {
    hide Resume, Resumable;
    if order != [] {
      ResumeOkIff(env, s, order[0].0, pid, order[0].1);
      var t := Resume(env, s, order[0].0, pid, order[0].1);
      ResumeEachOkIff(env, t.0, pid, order[1..], all && t.1);
      assert forall x <- order :: x == order[0] || x in order[1..];
    }
  }

  /** Nothing is ever resumed for an invalid pid. */
  lemma {:induction false} ResumeNeedsPid(env: Env, s: Sys, pid: Int32, order: seq<(Desc, Batch)>, all: bool)
    ensures ResumeEach(env, s, pid, order, all).1 ==> all && (pid > INVALID_PID || order == [])
    decreases |order|
  {
    hide SetBest, GetSensorInfo, Admissible;
    if order != [] {
      var t := Resume(env, s, order[0].0, pid, order[0].1);
      assert pid <= INVALID_PID ==> !t.1;
      ResumeNeedsPid(env, t.0, pid, order[1..], all && t.1);
    }
  }

  /** Whatever the hardware does: a configuration is back exactly when it is resumable and its
      record is there. */
  lemma ResumeOneAnswers(env: Env, s: Sys, d: Desc, pid: Int32, b: Batch)
    requires Inv(env, s)
    ensures var t := Resume(env, s, d, pid, b);
            t.1 <==> Resumable(env, d, b) && Has(t.0.clients, d, pid)
  {
    hide Fixed, SetBest;
    OnlyUserIff(env, s, d, pid);
  }

  lemma {:induction false} ResumeEachAnswers(env: Env, s: Sys, pid: Int32, order: seq<(Desc, Batch)>, all: bool)
    requires Inv(env, s) && OrderOk(env, order)
    ensures var r := ResumeEach(env, s, pid, order, all);
            r.1 <==> all && forall x <- order :: Resumable(env, x.0, x.1) && Has(r.0.clients, x.0, pid)
    decreases |order|
  {
    hide Fixed, Resume, OrderOk, Resumable;
    if order != [] {
      var d, b, tail := order[0].0, order[0].1, order[1..];
      OrderOkTail(env, order);
      var t := Resume(env, s, d, pid, b);
      ResumeKeeps(env, s, d, pid, b);
      ResumeOneAnswers(env, s, d, pid, b);
      ResumeEachAnswers(env, t.0, pid, tail, all && t.1);
      OthersStay(env, t.0, pid, tail, all && t.1, d);
      hide Inv;
      assert forall x <- order :: x == order[0] || x in tail;
    }
  }

  /** The loop leaves alone the sensors it has no entry for. */
  lemma {:induction false} OthersStay(env: Env, s: Sys, pid: Int32, order: seq<(Desc, Batch)>, all: bool, e: Desc)
    requires Inv(env, s) && OrderOk(env, order) && forall c: Batch :: (e, c) !in order
    ensures SameAt(s, ResumeEach(env, s, pid, order, all).0, e)
    decreases |order|
  {
    hide Fixed, Resume, OrderOk;
    if order != [] {
      var t := Resume(env, s, order[0].0, pid, order[0].1);
      OrderOkTail(env, order);
      ResumeKeeps(env, s, order[0].0, pid, order[0].1);
      assert (order[0].0, order[0].1) in order;
      assert SameAt(s, t.0, e);
      OthersStay(env, t.0, pid, order[1..], all && t.1, e);
      hide Inv;
    }
  }

  /** What a resume answers, whatever HDI calls fail: success exactly when every saved configuration
      is resumable and its record is there afterwards. */
  lemma ResumeAnswersIff(env: Env, s: Sys, pid: Int32, order: seq<(Desc, Batch)>)
    requires Inv(env, s) && pid in s.saved && Enumerates(order, s.saved[pid].Items)
    ensures var r := ResumeSensorsStep(env, s, pid, order);
            var back := forall d <- s.saved[pid] ::
              Resumable(env, d, s.saved[pid][d]) && Has(r.0.clients, d, pid);
            r.1 == if back then ErrOk else ResumeErr
  {
    hide Fixed, Resumable;
    var m := s.saved[pid];
    SavedFixed(env, m);
    EntriesOk(env, m, order);
    ResumeEachAnswers(env, s, pid, order, true);
    hide ResumeEach, AllFixed, OrderOk, Enumerates, Inv;
    assert forall x <- order :: (x.0, x.1) in order;
    assert forall d <- m :: (d, m[d]) in order;
  }

  /** A sensor that a client disables while it is suspended is forgotten: a later resume of the
      client leaves it as it is. */
  lemma DisabledStaysDown(env: Env, s: Sys, d: Desc, pid: Int32, order: seq<(Desc, Batch)>)
    requires Inv(env, s) && DisableStep(env, s, d, pid).1 == ErrOk
    requires var t := DisableStep(env, s, d, pid).0; pid in t.saved && Enumerates(order, t.saved[pid].Items)
    ensures var t := DisableStep(env, s, d, pid).0;
            var u := ResumeSensorsStep(env, t, pid, order).0;
            !Has(t.clients, d, pid) && !Has(u.clients, d, pid) && SameAt(t, u, d)
  {
    hide Fixed, Forget;
    DisableKeeps(env, s, d, pid);
    ForgetDropsOne(s.saved, d, pid);
    var t := DisableStep(env, s, d, pid).0;
    hide DisableStep;
    var m := t.saved[pid];
    assert d in m ==> IsSaved(t.saved, pid, d, m[d]);
    SavedFixed(env, m);
    EntriesOk(env, m, order);
    OthersStay(env, t, pid, order, true, d);
    hide ResumeEach;
  }

  lemma EntriesOk(env: Env, m: Saved, order: seq<(Desc, Batch)>)
    requires AllFixed(env, m) && Enumerates(order, m.Items)
    ensures OrderOk(env, order)
    ensures forall d: Desc, b: Batch :: (d, b) in order <==> d in m && m[d] == b
  {
    hide Fixed;
    forall i | 0 <= i < |order| ensures order[i].0 in m && m[order[i].0] == order[i].1 {
      assert order[i] in order;
    }
  }

  /** A resume that reports success has restored every saved configuration and dropped the entry;
      one that reports an error has kept them all for a later try. */
  lemma ResumeRestores(env: Env, s: Sys, pid: Int32, order: seq<(Desc, Batch)>)
    requires Inv(env, s) && pid in s.saved && Enumerates(order, s.saved[pid].Items)
    ensures var r := ResumeSensorsStep(env, s, pid, order);
            Inv(env, r.0) && OthersKept(s.clients, r.0.clients, pid)
            && (r.1 == ErrOk ==> r.0.saved == s.saved - {pid} && forall d <- s.saved[pid] ::
                  Subs(r.0.clients, d) == Subs(s.clients, d)[pid := Thawed(s.saved[pid][d])] && d in r.0.dev.on)
            && (r.1 != ErrOk ==> r.0.saved == s.saved)
  {
    hide Fixed, Resumable;
    var m := s.saved[pid];
    assert AllFixed(env, m);
    EntriesOk(env, m, order);
    ResumeEachKeeps(env, s, pid, order, true);
    ResumeKeepsSaved(env, s, pid, order);
    var r := ResumeEach(env, s, pid, order, true);
    ResumeNeedsPid(env, s, pid, order, true);
    forall d <- m | r.1 ensures Subs(r.0.clients, d) == Subs(s.clients, d)[pid := Thawed(m[d])] && d in r.0.dev.on {
      assert (d, m[d]) in order;
      ResumeEachAt(env, s, pid, order, true, d, m[d]);
    }
    hide OrderOk, ResumeEach, AllFixed;
    var t := ResumeSensorsStep(env, s, pid, order);
    assert forall d: Desc :: InvAt(env, r.0, d) ==> InvAt(env, t.0, d);
  }

  /** Sensor `d` after suspend and resume: back as before if it may be resumed (its permission
      state reset to granted), otherwise without the client's record; pedometers and sensors of
      others are untouched. */
  ghost predicate RoundTripAt(env: Env, s: Sys, t: Sys, pid: Int32, d: Desc) {
    var m := Subs(s.clients, d);
    if pid !in m || Freezing(d) then SameAt(s, t, d)
    else if Resumable(env, d, Config(m[pid])) then
      Subs(t.clients, d) == m[pid := m[pid].(perm := true)] && d in s.dev.on && d in t.dev.on
    else Subs(t.clients, d) == m - {pid} && (d in t.dev.on <==> m.Keys != {pid})
  }

  ghost predicate AllResumable(env: Env, cm: ClientMap, pid: Int32) {
    forall d <- SensorsOf(cm, pid) :: !Freezing(d) ==> Resumable(env, d, Config(cm[d][pid]))
  }

  /** A suspend, seen from one sensor: the client's record moves into the saved entry. */
  lemma SuspendMoves(env: Env, s: Sys, pid: Int32, order: seq<Desc>, d: Desc)
    requires Inv(env, s) && pid !in s.saved && Enumerates(order, SensorsOf(s.clients, pid)) && order != []
    ensures var r := SuspendSensorsStep(env, s, pid, order);
            var t := r.0;
            Inv(env, t) && OthersKept(s.clients, t.clients, pid) && pid in t.saved && t.saved - {pid} == s.saved
            && AllFixed(env, t.saved[pid])
            && SuspendedAt(env, s, t, pid, map[], t.saved[pid], d, Has(s.clients, d, pid) && !Freezing(d))
            && (HdiOk(env) ==> r.1 == ErrOk)
  {
    hide Fixed, Freezing;
    OrderIsOwn(env, s, pid, order);
    SuspendEachKeeps(env, s, pid, order, map[], true);
    SuspendEachAt(env, s, pid, order, map[], true, d);
    assert d in order <==> Has(s.clients, d, pid);
    hide SuspendEach, AllFixed;
    var u := SuspendEach(env, s, pid, order, map[], true);
    var t := SuspendSensorsStep(env, s, pid, order).0;
    assert t == u.0.(saved := s.saved[pid := u.1]);
    SavedFixed(env, u.1);
    InvIgnoresSaved(env, u.0, t);
  }

  lemma SavedFixed(env: Env, acc: Saved)
    ensures AllFixed(env, acc) <==> forall e <- acc :: Fixed(env, e, acc[e])
  {
    hide Fixed;
  }

  /** A resume, seen from one sensor, when the hardware cooperates. */
  lemma ResumeMoves(env: Env, s: Sys, pid: Int32, order: seq<(Desc, Batch)>, d: Desc)
    requires Inv(env, s) && HdiOk(env) && pid > INVALID_PID && pid in s.saved && Enumerates(order, s.saved[pid].Items)
    ensures var t := ResumeSensorsStep(env, s, pid, order).0;
            var m := s.saved[pid];
            if d in m && Resumable(env, d, m[d]) then
              Subs(t.clients, d) == Subs(s.clients, d)[pid := Thawed(m[d])] && d in t.dev.on
            else SameAt(s, t, d)
  {
    hide Fixed, Resumable;
    var m := s.saved[pid];
    SavedFixed(env, m);
    EntriesOk(env, m, order);
    var b := if d in m then m[d] else Batch(0, 0);
    ResumeEachAt(env, s, pid, order, true, d, b);
    hide ResumeEach, OrderOk, AllFixed;
    var u := ResumeEach(env, s, pid, order, true).0;
    var t := ResumeSensorsStep(env, s, pid, order).0;
    assert t.clients == u.clients && t.dev == u.dev;
  }

  /** The round trip, sensor by sensor. */
  lemma RoundTrip(env: Env, s: Sys, pid: Int32, order: seq<Desc>, order': seq<(Desc, Batch)>, d: Desc)
    requires Inv(env, s) && HdiOk(env) && pid !in s.saved && Enumerates(order, SensorsOf(s.clients, pid)) && order != []
    requires var s1 := SuspendSensorsStep(env, s, pid, order).0;
             pid in s1.saved && Enumerates(order', s1.saved[pid].Items)
    ensures var s1 := SuspendSensorsStep(env, s, pid, order).0;
            var r := ResumeSensorsStep(env, s1, pid, order');
            RoundTripAt(env, s, r.0, pid, d)
  {
    hide Fixed, Freezing, Resumable;
    var s1 := SuspendSensorsStep(env, s, pid, order).0;
    OrderIsOwn(env, s, pid, order);
    SuspendMoves(env, s, pid, order, d);
    ResumeMoves(env, s1, pid, order', d);
    hide SuspendSensorsStep, ResumeSensorsStep, AllFixed, HdiOk, OthersKept;
    var m := Subs(s.clients, d);
    if pid in m && !Freezing(d) {
      assert InvAt(env, s, d) && SoundRecord(env, d, pid, m[pid]);
      var b := Config(m[pid]);
      assert (m - {pid})[pid := Thawed(b)] == m[pid := m[pid].(perm := true)];
    }
  }

  lemma ResumeCodeIff(env: Env, s: Sys, pid: Int32, order: seq<(Desc, Batch)>)
    requires Inv(env, s) && HdiOk(env) && pid > INVALID_PID && pid in s.saved && Enumerates(order, s.saved[pid].Items)
    ensures ResumeSensorsStep(env, s, pid, order).1 == ErrOk
        <==> forall d <- s.saved[pid] :: Resumable(env, d, s.saved[pid][d])
  {
    hide Fixed, Resumable, ResumeEach;
    var m := s.saved[pid];
    SavedFixed(env, m);
    EntriesOk(env, m, order);
    ResumeEachOkIff(env, s, pid, order, true);
    hide Enumerates;
    if forall d <- m :: Resumable(env, d, m[d]) {
      forall x <- order ensures Resumable(env, x.0, x.1) {
        assert (x.0, x.1) in order;
      }
    }
    if forall x <- order :: Resumable(env, x.0, x.1) {
      forall d <- m ensures Resumable(env, d, m[d]) {
        assert (d, m[d]) in order;
      }
    }
  }

  /** What a suspend saves: the configuration of every sensor of the client but pedometers. */
  ghost predicate SavesActive(s: Sys, m: Saved, pid: Int32) {
    forall d: Desc ::
      if Has(s.clients, d, pid) && !Freezing(d) then d in m && m[d] == Config(s.clients[d][pid]) else d !in m
  }

  lemma SuspendSaves(env: Env, s: Sys, pid: Int32, order: seq<Desc>)
    requires Inv(env, s) && pid !in s.saved && Enumerates(order, SensorsOf(s.clients, pid)) && order != []
    ensures var r := SuspendSensorsStep(env, s, pid, order);
            Inv(env, r.0) && OthersKept(s.clients, r.0.clients, pid) && pid > INVALID_PID
            && pid in r.0.saved && r.0.saved - {pid} == s.saved && SavesActive(s, r.0.saved[pid], pid)
            && (HdiOk(env) ==> r.1 == ErrOk)
  {
    var t := SuspendSensorsStep(env, s, pid, order).0;
    OrderIsOwn(env, s, pid, order);
    SuspendMoves(env, s, pid, order, order[0]);
    hide SuspendSensorsStep, Inv, OthersKept, Enumerates, AllFixed, HdiOk;
    forall d: Desc
      ensures if Has(s.clients, d, pid) && !Freezing(d) then d in t.saved[pid]
              && t.saved[pid][d] == Config(s.clients[d][pid])
              else d !in t.saved[pid]
    {
      SuspendMoves(env, s, pid, order, d);
    }
  }

  lemma ActiveResumableIff(env: Env, s: Sys, m: Saved, pid: Int32)
    requires SavesActive(s, m, pid)
    ensures (forall d <- m :: Resumable(env, d, m[d])) <==> AllResumable(env, s.clients, pid)
  {
    hide Resumable, Freezing;
    if forall d <- m :: Resumable(env, d, m[d]) {
      forall d <- SensorsOf(s.clients, pid) | !Freezing(d) ensures Resumable(env, d, Config(s.clients[d][pid])) {
        assert Has(s.clients, d, pid);
        assert d in m;
      }
    }
    if AllResumable(env, s.clients, pid) {
      forall d <- m ensures Resumable(env, d, m[d]) {
        assert Has(s.clients, d, pid) && !Freezing(d);
        assert d in SensorsOf(s.clients, pid);
      }
    }
  }

  /** The round trip as a whole. The resume reports success exactly when every suspended record
      is resumable, which is exactly when every record of the client is back; then the saved
      entry is gone and every sensor is on or off as before. Nobody else's records ever moved. */
  lemma RoundTripRestoresIff(env: Env, s: Sys, pid: Int32, order: seq<Desc>, order': seq<(Desc, Batch)>)
    requires Inv(env, s) && HdiOk(env) && pid !in s.saved && Enumerates(order, SensorsOf(s.clients, pid)) && order != []
    requires var s1 := SuspendSensorsStep(env, s, pid, order).0;
             pid in s1.saved && Enumerates(order', s1.saved[pid].Items)
    ensures var s1 := SuspendSensorsStep(env, s, pid, order).0;
            var r := ResumeSensorsStep(env, s1, pid, order');
            OthersKept(s.clients, r.0.clients, pid)
            && (r.1 == ErrOk <==> AllResumable(env, s.clients, pid))
            && (r.1 == ErrOk <==> forall d <- SensorsOf(s.clients, pid) :: RecordBack(s, r.0, pid, d))
            && (r.1 == ErrOk ==> r.0.saved == s.saved && r.0.dev.on == s.dev.on)
  {
    var s1 := SuspendSensorsStep(env, s, pid, order).0;
    var r := ResumeSensorsStep(env, s1, pid, order');
    SuspendSaves(env, s, pid, order);
    ActiveResumableIff(env, s, s1.saved[pid], pid);
    ResumeCodeIff(env, s1, pid, order');
    ResumeRestores(env, s1, pid, order');
    OthersKeptTrans(s.clients, s1.clients, r.0.clients, pid);
    forall d: Desc ensures RoundTripAt(env, s, r.0, pid, d) {
      RoundTrip(env, s, pid, order, order', d);
    }
    hide SuspendSensorsStep, ResumeSensorsStep, HdiOk, OthersKept, Enumerates, SavesActive;
    BackIffResumable(env, s, r.0, pid);
    if r.1 == ErrOk {
      OnAsBefore(env, s, r.0, pid);
    }
  }

  lemma BackIffResumable(env: Env, s: Sys, t: Sys, pid: Int32)
    requires forall d: Desc :: RoundTripAt(env, s, t, pid, d)
    ensures AllResumable(env, s.clients, pid) <==> forall d <- SensorsOf(s.clients, pid) :: RecordBack(s, t, pid, d)
  {
    hide Resumable, Freezing;
    forall d <- SensorsOf(s.clients, pid)
      ensures RecordBack(s, t, pid, d) <==> Freezing(d) || Resumable(env, d, Config(s.clients[d][pid]))
    {
      assert RoundTripAt(env, s, t, pid, d);
    }
  }

  /** The whole record is back, the permission included. */
  ghost predicate WholeRecordBack(s: Sys, t: Sys, pid: Int32, d: Desc)
    requires Has(s.clients, d, pid)
  {
    Has(t.clients, d, pid) && t.clients[d][pid] == s.clients[d][pid]
  }

  /** A suspended record comes back unchanged exactly if it is resumable and was permitted: the
      permission is not saved, and a resumed record is permitted. */
  lemma WholeRecordBackIff(env: Env, s: Sys, pid: Int32, order: seq<Desc>, order': seq<(Desc, Batch)>, d: Desc)
    requires Inv(env, s) && HdiOk(env) && pid !in s.saved && Enumerates(order, SensorsOf(s.clients, pid)) && order != []
    requires var s1 := SuspendSensorsStep(env, s, pid, order).0;
             pid in s1.saved && Enumerates(order', s1.saved[pid].Items)
    requires Has(s.clients, d, pid) && !Freezing(d)
    ensures var s1 := SuspendSensorsStep(env, s, pid, order).0;
            var t, info := ResumeSensorsStep(env, s1, pid, order').0, s.clients[d][pid];
            (WholeRecordBack(s, t, pid, d) <==> Resumable(env, d, Config(info)) && info.perm)
            && (Resumable(env, d, Config(info)) ==> Has(t.clients, d, pid) && t.clients[d][pid] == info.(perm := true))
  {
    RoundTrip(env, s, pid, order, order', d);
    hide Inv, HdiOk, Resumable, SuspendSensorsStep, ResumeSensorsStep, Enumerates, Freezing;
    var t := ResumeSensorsStep(env, SuspendSensorsStep(env, s, pid, order).0, pid, order').0;
    assert pid in Subs(t.clients, d) <==> Has(t.clients, d, pid);
  }

  /** A revoked record, in a sound state, that comes back permitted. */
  lemma RevokedRecordExists() returns (env: Env, s: Sys, d: Desc, pid: Int32)
    ensures Inv(env, s) && HdiOk(env) && s.saved == map[] && SensorsOf(s.clients, pid) == {d} && !Freezing(d)
    ensures Resumable(env, d, Config(s.clients[d][pid])) && !s.clients[d][pid].perm
  {
    d, pid := Desc(0, 1, 0, 1), 1;
    env := Env({d}, map[], (n: nat) => true);
    s := Sys(map[d := map[1 := Info(10, 10, true, false)]], map[], Device({d}, map[d := Batch(10, 10)], 0));
    assert InvAt(env, s, d);
    assert forall e: Desc :: e != d ==> Subs(s.clients, e) == map[];
  }

  lemma OnAsBefore(env: Env, s: Sys, t: Sys, pid: Int32)
    requires AllResumable(env, s.clients, pid) && forall d: Desc :: RoundTripAt(env, s, t, pid, d)
    ensures t.dev.on == s.dev.on
  {
    hide Resumable, Freezing;
    forall d: Desc ensures d in s.dev.on <==> d in t.dev.on {
      assert RoundTripAt(env, s, t, pid, d);
      if Has(s.clients, d, pid) {
        assert d in SensorsOf(s.clients, pid);
      }
    }
  }

  /** The client's configuration of `d` is what it was. */
  ghost predicate RecordBack(s: Sys, t: Sys, pid: Int32, d: Desc)
    requires Has(s.clients, d, pid)
  {
    Has(t.clients, d, pid) && Config(t.clients[d][pid]) == Config(s.clients[d][pid])
  }

  lemma OrderIsOwn(env: Env, s: Sys, pid: Int32, order: seq<Desc>)
    requires Inv(env, s) && Enumerates(order, SensorsOf(s.clients, pid))
    ensures Distinct(order) && forall d <- order :: Has(s.clients, d, pid)
    ensures order != [] ==> pid > INVALID_PID
    ensures AllFixed(env, map[])
  {
    hide Fixed;
    if order != [] {
      var d := order[0];
      assert d in order && InvAt(env, s, d);
      assert SoundRecord(env, d, pid, Subs(s.clients, d)[pid]);
    }
  }

  lemma InvIgnoresSaved(env: Env, s: Sys, t: Sys)
    requires (forall d: Desc :: InvAt(env, s, d)) && t.clients == s.clients && t.dev == s.dev && SavedOk(env, t.saved)
    ensures Inv(env, t)
  {
    hide Fixed;
    assert forall d: Desc :: InvAt(env, s, d) ==> InvAt(env, t, d);
  }
}
