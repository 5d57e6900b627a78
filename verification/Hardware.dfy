/** What the hardware does for the subscribers over whole runs: which sensors are on, and at which
    rate. Throughout, HDI calls succeed. */
module Hardware {
  import opened ByteCodec
  import opened Sequences
  import opened SensorTypes
  import opened ClientInfos
  import opened SensorManagers
  import opened SensorPowerPolicies
  import opened SensorServices
  import opened BlockPolicies
  import opened Arbitration
  import opened Suspension
  import opened RateExactness
  import opened ServiceRuns

  /** The sensor is on exactly if somebody is subscribed. */
  ghost predicate PowerAt(s: Sys, d: Desc) {
    d in s.dev.on <==> Subs(s.clients, d) != map[]
  }

  /** `pid` alone is off the sensor, which is on exactly if others are left, and at exactly their rate
      if the rate was exact before. */
  ghost predicate GivenUp(s: Sys, t: Sys, e: Desc, pid: Int32) {
    Subs(t.clients, e) == Subs(s.clients, e) - {pid} && PowerAt(t, e) && (ExactAt(s, e) ==> ExactAt(t, e))
  }

  lemma SameAtTidy(s: Sys, t: Sys, e: Desc)
    requires SameAt(s, t, e)
    ensures PowerAt(s, e) <==> PowerAt(t, e)
    ensures ExactAt(s, e) <==> ExactAt(t, e)
  {
  }

  // ----- one sensor given up

  lemma DisableGivesUp(env: Env, s: Sys, d: Desc, pid: Int32)
    requires Inv(env, s) && HdiOk(env) && Has(s.clients, d, pid)
    ensures DisableStep(env, s, d, pid).1 == ErrOk && GivenUp(s, DisableStep(env, s, d, pid).0, d, pid)
  {
    hide DisableStep, ExactAt, Fixed;
    if ExactAt(s, d) {
      DisableExact(env, s, d, pid);
    }
    DisableKeeps(env, s, d, pid);
    DisablePower(env, s, d, pid);
    hide Inv;
  }

  lemma DisablePower(env: Env, s: Sys, d: Desc, pid: Int32)
    requires Inv(env, s) && HdiOk(env) && Has(s.clients, d, pid)
    ensures DisableStep(env, s, d, pid).1 == ErrOk && PowerAt(DisableStep(env, s, d, pid).0, d)
  {
    assert InvAt(env, s, d);
    assert SoundRecord(env, d, pid, Subs(s.clients, d)[pid]);
    EnabledMeansSubscribed(env, s, d);
    YieldKeeps(env, s, d, pid);
    RestIsEmptyIff(Subs(s.clients, d), pid);
    hide Fixed, Yield, Forget, InvAt;
  }

  lemma RestIsEmptyIff(m: PidMap, pid: Int32)
    requires pid in m
    ensures m - {pid} == map[] <==> m.Keys == {pid}
  {
    if m.Keys != {pid} {
      var q :| q in m && q != pid;
      assert q in m - {pid};
    }
  }

  lemma SuspendGivesUp(env: Env, s: Sys, d: Desc, pid: Int32, acc: Saved)
    requires Inv(env, s) && HdiOk(env) && Has(s.clients, d, pid) && AllFixed(env, acc) && !Freezing(d)
    ensures GivenUp(s, SuspendOne(env, s, pid, d, acc).0, d, pid)
  {
    var t := SuspendOne(env, s, pid, d, acc).0;
    SuspendOneKeeps(env, s, pid, d, acc);
    RestIsEmptyIff(Subs(s.clients, d), pid);
    assert InvAt(env, s, d);
    OnlyUserIff(env, s, d, pid);
    ClearPidSubs(s.clients, d, pid);
    hide Fixed, Freezing, Inv, InvAt, AllFixed;
  }

  // ----- the loops, seen from one sensor

  lemma {:induction false} DisableEachAt(env: Env, s: Sys, pid: Int32, order: seq<Desc>, e: Desc)
    requires Inv(env, s) && HdiOk(env) && Distinct(order) && forall d <- order :: Has(s.clients, d, pid)
    ensures var t := DisableEach(env, s, pid, order);
            if e in order then GivenUp(s, t, e, pid) else SameAt(s, t, e)
    decreases |order|
  {
    hide Fixed, DisableStep, ExactAt;
    if order != [] {
      var d, tail := order[0], order[1..];
      var t := DisableStep(env, s, d, pid).0;
      DisableKeeps(env, s, d, pid);
      DisableGivesUp(env, s, d, pid);
      hide Inv;
      forall x <- tail ensures Has(t.clients, x, pid) {
        assert x in order && x != d && SameAt(s, t, x);
      }
      DisableEachAt(env, t, pid, tail, e);
      assert e in order <==> e == d || e in tail;
      assert d !in tail;
      var u := DisableEach(env, s, pid, order);
      if e == d {
        SameAtTidy(t, u, e);
      } else {
        SameAtTidy(s, t, e);
      }
    }
  }

  lemma {:induction false} SuspendEachGivesUp(env: Env, s: Sys, pid: Int32, order: seq<Desc>, acc: Saved, all: bool,
      e: Desc)
    requires Inv(env, s) && HdiOk(env) && AllFixed(env, acc) && Distinct(order)
    requires forall d <- order :: Has(s.clients, d, pid)
    ensures var t := SuspendEach(env, s, pid, order, acc, all).0;
            if e in order && !Freezing(e) then GivenUp(s, t, e, pid) else SameAt(s, t, e)
    decreases |order|
  {
    hide Fixed, SuspendOne, ExactAt, Freezing, AllFixed;
    if order != [] {
      var d, tail := order[0], order[1..];
      var t := SuspendOne(env, s, pid, d, acc);
      SuspendOneKeeps(env, s, pid, d, acc);
      if !Freezing(d) {
        SuspendGivesUp(env, s, d, pid, acc);
      }
      hide Inv;
      forall x <- tail ensures Has(t.0.clients, x, pid) {
        assert x in order && x != d && SameAt(s, t.0, x);
      }
      SuspendEachGivesUp(env, t.0, pid, tail, t.1, all && t.2, e);
      assert e in order <==> e == d || e in tail;
      assert d !in tail;
      var u := SuspendEach(env, s, pid, order, acc, all).0;
      if e == d {
        SameAtTidy(t.0, u, e);
      } else {
        SameAtTidy(s, t.0, e);
      }
    }
  }

  // ----- the death of a client

  /** Death, in terms of the state before it alone: every sensor of the client is on exactly if
      somebody else is subscribed, at exactly the others' rate if the rate was exact before; every
      other sensor keeps its subscribers, power and rate. */
  lemma DeathSwitchesOff(env: Env, h: Hub, client: nat, order: seq<Desc>, e: Desc)
    requires Inv(env, h.sys) && HdiOk(env) && Possible(h, Death(client, order))
    requires client in h.clientPids && h.clientPids[client] >= 0
    ensures var s, t, pid := h.sys, Apply(env, h, Death(client, order)).sys, h.clientPids[client];
            if Has(s.clients, e, pid) then GivenUp(s, t, e, pid) else SameAt(s, t, e)
  {
    hide Fixed;
    var pid := h.clientPids[client];
    var s := h.sys.(saved := h.sys.saved - {pid});
    InvIgnoresSaved(env, h.sys, s);
    OrderIsOwn(env, s, pid, order);
    DisableEachAt(env, s, pid, order, e);
    assert e in order <==> Has(s.clients, e, pid);
    hide DisableEach, Inv, Enumerates;
    var u := DisableEach(env, s, pid, order);
    var t := Apply(env, h, Death(client, order)).sys;
    assert t.clients == ClearClient(u.clients, pid) && t.dev == u.dev;
    ClearClientSubs(u.clients, pid, e);
    assert pid !in Subs(u.clients, e) ==> Subs(u.clients, e) - {pid} == Subs(u.clients, e);
    hide Apply, ClearClient;
    SameAtTidy(u, t, e);
    SameAtTidy(h.sys, s, e);
  }

  lemma ClearClientSubs(cm: ClientMap, pid: Int32, e: Desc)
    ensures Subs(ClearClient(cm, pid), e) == Subs(cm, e) - {pid}
  {
    if e in cm && e !in ClearClient(cm, pid) {
      assert cm[e] - {pid} == map[];
    }
  }

  // ----- the other calls, seen from one sensor

  /** Enable: only a slow-down of the caller's own record leaves the hardware too fast. */
  lemma EnableAt(env: Env, s: Sys, d: Desc, pid: Int32, b: Batch, granted: bool, e: Desc)
    requires Inv(env, s) && HdiOk(env)
    ensures var t := EnableStep(env, s, d, pid, b, granted).0;
            (PowerAt(s, e) ==> PowerAt(t, e))
            && (ExactAt(s, e) ==> (ExactAt(t, e) <==> !(e == d && SlowsOwn(env, s, d, pid, b, granted))))
  {
    var t := EnableStep(env, s, d, pid, b, granted);
    EnableKeeps(env, s, d, pid, b, granted);
    EnableEffect(env, s, d, pid, b, granted);
    if t.1 != ErrOk {
      EnableRefused(env, s, d, pid, b, granted);
    } else if ExactAt(s, d) {
      EnableExactIff(env, s, d, pid, b);
    }
    assert InvAt(env, s, d);
    EnabledMeansSubscribed(env, s, d);
    hide EnableStep, ExactAt, Inv, InvAt, SlowsDown, ParametersOk, GetSensorInfo, Best, Skips, Put;
    if e != d {
      assert SameAt(s, t.0, e);
      SameAtTidy(s, t.0, e);
    } else if t.1 != ErrOk {
      SameAtTidy(s, t.0, e);
    }
  }

  ghost predicate SlowsOwn(env: Env, s: Sys, d: Desc, pid: Int32, b: Batch, granted: bool) {
    granted && ParametersOk(env, d, b) && Granted(env.sensors, d, pid, b.period, b.delay)
    && SlowsDown(env, s, d, pid, b)
  }

  lemma DisableAt(env: Env, s: Sys, d: Desc, pid: Int32, e: Desc)
    requires Inv(env, s) && HdiOk(env)
    ensures var t := DisableStep(env, s, d, pid).0;
            (PowerAt(s, e) ==> PowerAt(t, e)) && (ExactAt(s, e) ==> ExactAt(t, e))
  {
    var t := DisableStep(env, s, d, pid).0;
    DisableKeeps(env, s, d, pid);
    if e != d {
      hide DisableStep, Inv;
      assert SameAt(s, t, e);
      SameAtTidy(s, t, e);
    } else if Has(s.clients, d, pid) {
      DisableGivesUp(env, s, d, pid);
    } else {
      DisableOfNobody(env, s, d, pid);
      hide DisableStep, Inv;
    }
  }

  lemma DisableOfNobody(env: Env, s: Sys, d: Desc, pid: Int32)
    requires Inv(env, s) && HdiOk(env) && !Has(s.clients, d, pid)
    ensures var t := DisableStep(env, s, d, pid).0;
            (PowerAt(s, d) ==> PowerAt(t, d)) && (ExactAt(s, d) ==> ExactAt(t, d))
  {
    if ExactAt(s, d) {
      DisableExact(env, s, d, pid);
    }
    assert InvAt(env, s, d);
    YieldKeeps(env, s, d, pid);
    hide Yield, Forget, Fixed, ExactAt, InvAt;
    assert Subs(s.clients, d) - {pid} == Subs(s.clients, d);
  }

  lemma SuspendAt(env: Env, s: Sys, pid: Int32, order: seq<Desc>, e: Desc)
    requires Inv(env, s) && HdiOk(env) && Enumerates(order, SensorsOf(s.clients, pid))
    ensures var t := SuspendSensorsStep(env, s, pid, order).0;
            (PowerAt(s, e) ==> PowerAt(t, e)) && (ExactAt(s, e) ==> ExactAt(t, e))
  {
    hide Fixed, Freezing;
    OrderIsOwn(env, s, pid, order);
    var acc: Saved := if pid in s.saved then s.saved[pid] else map[];
    SavedFixed(env, acc);
    SuspendEachGivesUp(env, s, pid, order, acc, true, e);
    hide SuspendEach, Inv, AllFixed, Enumerates;
    var u := SuspendEach(env, s, pid, order, acc, true).0;
    var t := SuspendSensorsStep(env, s, pid, order).0;
    if !(e in order && !Freezing(e)) {
      SameAtTidy(s, u, e);
    }
    assert order != [] ==> t.clients == u.clients && t.dev == u.dev;
  }

  /** A resumed configuration, like an enable: the hardware is exact but for a slow-down. */
  lemma ResumeOneAt(env: Env, s: Sys, d: Desc, pid: Int32, b: Batch)
    requires Inv(env, s) && HdiOk(env) && Fixed(env, d, b) && pid > INVALID_PID && Resumable(env, d, b)
    ensures var t := Resume(env, s, d, pid, b).0;
            PowerAt(t, d) && (ExactAt(s, d) ==> (ExactAt(t, d) <==> !SlowsDown(env, s, d, pid, b)))
  {
    ResumeOkIff(env, s, d, pid, b);
    ResumeKeeps(env, s, d, pid, b);
    var t := Resume(env, s, d, pid, b).0;
    assert pid in Subs(t.clients, d);
    if ExactAt(s, d) {
      ResumeBatch(env, s, d, pid, b);
      hide Resume, Inv, Fixed, Resumable;
      StoredExactIff(env, s, t, d, pid, b);
    }
  }

  lemma ResumeBatch(env: Env, s: Sys, d: Desc, pid: Int32, b: Batch)
    requires HdiOk(env) && Fixed(env, d, b) && pid > INVALID_PID && Resumable(env, d, b)
    ensures var t, info := Resume(env, s, d, pid, b).0, GetSensorInfo(env.sensors, d, b.period, b.delay);
            var cm := Put(s.clients, d, pid, info);
            t.clients == cm && Config(info) == b
            && t.dev.batch == if Skips(cm, d, b) then s.dev.batch else s.dev.batch[d := Best(cm, d)]
  {
    var info := GetSensorInfo(env.sensors, d, b.period, b.delay);
    var cm := Put(s.clients, d, pid, info);
    SkipsIff(s.clients, d, pid, info);
    SetBestBatch(cm, s.dev, env.hdi, d, b);
    hide SetBest, Skips, Best, Enabled, GetSensorInfo, Put;
  }

  lemma SetBestBatch(cm: ClientMap, dev: Device, hdi: Oracle, d: Desc, b: Batch)
    requires (forall n: nat :: hdi(n)) && d.sensorType != INVALID_SENSOR_ID
    requires Least(b.period, Best(cm, d).period) == Best(cm, d).period
    requires Least(b.delay, Best(cm, d).delay) == Best(cm, d).delay
    ensures var r := SetBest(cm, dev, hdi, d, b);
            r.1 && r.0.batch == if Skips(cm, d, b) then dev.batch else dev.batch[d := Best(cm, d)]
  {
    hide Skips, Best;
  }

  /** Storing a record and arbitrating for it, from exact hardware. */
  lemma StoredExactIff(env: Env, s: Sys, t: Sys, d: Desc, pid: Int32, b: Batch)
    requires var info := GetSensorInfo(env.sensors, d, b.period, b.delay);
             var cm := Put(s.clients, d, pid, info);
             t.clients == cm && Config(info) == b
             && t.dev.batch == if Skips(cm, d, b) then s.dev.batch else s.dev.batch[d := Best(cm, d)]
    requires ExactAt(s, d) && d.sensorType != INVALID_SENSOR_ID
    ensures ExactAt(t, d) <==> !SlowsDown(env, s, d, pid, b)
  {
    var info := GetSensorInfo(env.sensors, d, b.period, b.delay);
    var m: PidMap := Subs(s.clients, d);
    var others: PidMap := m - {pid};
    var cm := Put(s.clients, d, pid, info);
    SkipsIff(s.clients, d, pid, info);
    LeastWith(m, pid, info);
    LeastWithout(m, pid);
    assert Subs(cm, d) == m[pid := info];
    SkipNeedsOthers(others, info);
    assert others == map[] || m != map[];
    hide GetSensorInfo, Skips, LeastPeriod, LeastDelay, Put;
  }

  lemma {:induction false} ResumeEachExact(env: Env, s: Sys, pid: Int32, order: seq<(Desc, Batch)>, all: bool, e: Desc,
      b: Batch)
    requires Inv(env, s) && HdiOk(env) && OrderOk(env, order) && pid > INVALID_PID
    requires (e, b) in order && Resumable(env, e, b)
    ensures var t := ResumeEach(env, s, pid, order, all).0;
            PowerAt(t, e) && (ExactAt(s, e) ==> (ExactAt(t, e) <==> !SlowsDown(env, s, e, pid, b)))
    decreases |order|
  {
    hide Fixed, Resume, OrderOk, Resumable, ExactAt, SlowsDown;
    var d, c, tail := order[0].0, order[0].1, order[1..];
    OrderOkTail(env, order);
    var t := Resume(env, s, d, pid, c);
    var u := ResumeEach(env, s, pid, order, all).0;
    ResumeKeeps(env, s, d, pid, c);
    if (e, b) in tail {
      ResumeEachExact(env, t.0, pid, tail, all && t.1, e, b);
      assert e != d;
      assert SameAt(s, t.0, e);
      SameAtTidy(s, t.0, e);
      SameSlowDown(env, s, t.0, e, pid, b);
    } else {
      assert order[0] == (e, b);
      ResumeOneAt(env, s, e, pid, b);
      OthersStay(env, t.0, pid, tail, all && t.1, e);
      SameAtTidy(t.0, u, e);
    }
  }

  lemma SameSlowDown(env: Env, s: Sys, t: Sys, d: Desc, pid: Int32, b: Batch)
    requires Subs(s.clients, d) == Subs(t.clients, d)
    ensures SlowsDown(env, s, d, pid, b) <==> SlowsDown(env, t, d, pid, b)
  {
  }

  /** The saved configuration of `d`, on its way back, replaces a faster one of the same client. */
  ghost predicate ResumeSlows(env: Env, s: Sys, pid: Int32, d: Desc) {
    pid in s.saved && d in s.saved[pid] && Resumable(env, d, s.saved[pid][d])
    && SlowsDown(env, s, d, pid, s.saved[pid][d])
  }

  lemma ResumeAt(env: Env, s: Sys, pid: Int32, order: seq<(Desc, Batch)>, e: Desc)
    requires Inv(env, s) && HdiOk(env) && (pid in s.saved ==> Enumerates(order, s.saved[pid].Items))
    ensures var t := ResumeSensorsStep(env, s, pid, order).0;
            (PowerAt(s, e) ==> PowerAt(t, e))
            && (ExactAt(s, e) ==> (ExactAt(t, e) <==> !ResumeSlows(env, s, pid, e)))
  {
    hide Fixed, Resumable, SlowsDown, ExactAt, PowerAt;
    if pid in s.saved {
      var m := s.saved[pid];
      SavedFixed(env, m);
      EntriesOk(env, m, order);
      var u, t := ResumeEach(env, s, pid, order, true).0, ResumeSensorsStep(env, s, pid, order).0;
      assert t.clients == u.clients && t.dev == u.dev;
      SameAsCopy(u, t, e);
      if pid <= INVALID_PID {
        NoSuchSubscriber(env, s, pid, e);
        NothingResumed(env, s, pid, order, true);
        SameAtTidy(s, u, e);
      } else if e in m && Resumable(env, e, m[e]) {
        assert (e, m[e]) in order;
        ResumeEachExact(env, s, pid, order, true, e, m[e]);
      } else {
        ResumeMoves(env, s, pid, order, e);
        SameAtTidy(s, t, e);
      }
    }
  }

  lemma SameAsCopy(s: Sys, t: Sys, e: Desc)
    requires s.clients == t.clients && s.dev == t.dev
    ensures (PowerAt(s, e) <==> PowerAt(t, e)) && (ExactAt(s, e) <==> ExactAt(t, e))
  {
  }

  lemma NoSuchSubscriber(env: Env, s: Sys, pid: Int32, d: Desc)
    requires Inv(env, s) && pid <= INVALID_PID
    ensures forall b: Batch :: !SlowsDown(env, s, d, pid, b)
  {
    hide Fixed;
    OnlyUserIff(env, s, d, pid);
  }

  lemma {:induction false} NothingResumed(env: Env, s: Sys, pid: Int32, order: seq<(Desc, Batch)>, all: bool)
    requires pid <= INVALID_PID
    ensures ResumeEach(env, s, pid, order, all).0 == s
    decreases |order|
  {
    hide SetBest, GetSensorInfo, Admissible;
    if order != [] {
      NothingResumed(env, s, pid, order[1..], all && Resume(env, s, order[0].0, pid, order[0].1).1);
    }
  }

  /** Some resume of the reset slows down its client. */
  ghost predicate ResetSlows(env: Env, s: Sys, pids: seq<Int32>, orders: seq<seq<(Desc, Batch)>>)
    requires |pids| == |orders|
    decreases |pids|
  {
    if pids == [] then false
    else
      var n := |pids| - 1;
      ResetSlows(env, s, pids[..n], orders[..n])
      || exists d: Desc :: ResumeSlows(env, ResetEach(env, s, pids[..n], orders[..n]).0, pids[n], d)
  }

  lemma {:induction false} ResetAt(env: Env, s: Sys, pids: seq<Int32>, orders: seq<seq<(Desc, Batch)>>, e: Desc)
    requires Inv(env, s) && HdiOk(env) && Distinct(pids) && OrdersFor(s.saved, pids, orders)
    ensures var t := ResetEach(env, s, pids, orders).0;
            (PowerAt(s, e) ==> PowerAt(t, e)) && (ExactAt(s, e) && !ResetSlows(env, s, pids, orders) ==> ExactAt(t, e))
    decreases |pids|
  {
    hide Fixed, ResumeSensorsStep, Inv, ResumeSlows, PowerAt, ExactAt;
    if pids != [] {
      var n := |pids| - 1;
      var pid, earlier := pids[n], pids[..n];
      assert forall i :: 0 <= i < n ==> earlier[i] == pids[i];
      ResetAt(env, s, earlier, orders[..n], e);
      ServiceRuns.ResetKeeps(env, s, earlier, orders[..n]);
      var t := ResetEach(env, s, earlier, orders[..n]).0;
      assert pid !in earlier && pid in t.saved && t.saved[pid] == s.saved[pid];
      ResumeAt(env, t, pid, orders[n], e);
    }
  }

  /** A client that leaves set the pace: without it the others ask for less. */
  ghost predicate SetsPace(m: PidMap, pid: Int32) {
    var others: PidMap := m - {pid};
    pid in m && others != map[]
    && (m[pid].period < LeastPeriod(others) || m[pid].delay < LeastDelay(others))
  }

  /** Leaving touches no hardware: a sensor only the leaver used stays on, and one it set the pace
      of stays too fast. */
  lemma LeaveAt(env: Env, s: Sys, pid: Int32, e: Desc)
    requires Inv(env, s)
    ensures var t := s.(clients := ClearClient(s.clients, pid));
            (PowerAt(s, e) ==> (PowerAt(t, e) <==> Subs(s.clients, e).Keys != {pid}))
            && (ExactAt(s, e) ==> (ExactAt(t, e) <==> !SetsPace(Subs(s.clients, e), pid)))
  {
    var m: PidMap := Subs(s.clients, e);
    ClearClientSubs(s.clients, pid, e);
    LeastWithout(m, pid);
    if pid in m {
      RestIsEmptyIff(m, pid);
      assert InvAt(env, s, e) && SoundRecord(env, e, pid, m[pid]);
    } else {
      assert m - {pid} == m;
    }
    hide Fixed, Inv, LeastPeriod, LeastDelay, ClearClient;
  }

  lemma SetPermAt(s: Sys, pid: Int32, sensorType: int, state: bool, e: Desc)
    ensures var t := s.(clients := SetPerm(s.clients, pid, sensorType, state));
            (PowerAt(s, e) <==> PowerAt(t, e)) && (ExactAt(s, e) <==> ExactAt(t, e))
  {
    var m: PidMap, m': PidMap := Subs(s.clients, e), Subs(SetPerm(s.clients, pid, sensorType, state), e);
    forall q: Int32 ensures (q in m <==> q in m') && (q in m ==> Config(m[q]) == Config(m'[q])) {
      SetPermIs(s.clients, pid, sensorType, state, e, q);
    }
    hide SetPerm;
    SameLeast(m, m');
    assert m == map[] <==> m' == map[] by {
      assert m.Keys == m'.Keys;
    }
  }

  lemma SameLeast(m: PidMap, m': PidMap)
    requires forall q: Int32 :: (q in m <==> q in m') && (q in m ==> Config(m[q]) == Config(m'[q]))
    ensures LeastPeriod(m) == LeastPeriod(m') && LeastDelay(m) == LeastDelay(m')
  {
    var p, r := LeastPeriod(m), LeastDelay(m);
    if p != INT64_MAX {
      var q :| q in m && p == m[q].period;
      assert p == m'[q].period;
    }
    if r != INT64_MAX {
      var q :| q in m && r == m[q].delay;
      assert r == m'[q].delay;
    }
    LeastUnique(m', p, r);
  }

  // ----- every call, and every run

  ghost predicate AllPowered(s: Sys) {
    forall e: Desc :: PowerAt(s, e)
  }

  ghost predicate AllExact(s: Sys) {
    forall e: Desc :: ExactAt(s, e)
  }

  /** A client leaves a sensor behind that only it used. */
  ghost predicate StrandsAt(h: Hub, c: Call, e: Desc) {
    c.Leave? && c.pid > INVALID_PID && Subs(h.sys.clients, e).Keys == {c.pid}
  }

  ghost predicate Strands(h: Hub, c: Call) {
    exists e: Desc :: StrandsAt(h, c, e)
  }

  /** The call leaves the sensor faster than its subscribers need: an enable or a resume that slows
      its own client down, or the departure of a client that set the pace. */
  ghost predicate DisturbsAt(env: Env, h: Hub, c: Call, e: Desc) {
    match c
    case Enable(d, pid, b, granted) => e == d && SlowsOwn(env, h.sys, d, pid, b, granted)
    case ResumeSensors(pid, _) => ResumeSlows(env, h.sys, pid, e)
    case Leave(_, pid) => pid > INVALID_PID && SetsPace(Subs(h.sys.clients, e), pid)
    case _ => false
  }

  ghost predicate Disturbs(env: Env, h: Hub, c: Call)
    requires Possible(h, c)
  {
    if c.ResetSensors? then ResetSlows(env, h.sys, c.pids, c.orders) else exists e: Desc :: DisturbsAt(env, h, c, e)
  }

  /** How a call changes one sensor: `stranded` and `disturbed` say whether it breaks the two rules. */
  ghost predicate Kept(s: Sys, t: Sys, e: Desc, stranded: bool, disturbed: bool) {
    (PowerAt(s, e) ==> (PowerAt(t, e) <==> !stranded)) && (ExactAt(s, e) ==> (ExactAt(t, e) <==> !disturbed))
  }

  lemma CallAt(env: Env, h: Hub, c: Call, e: Desc)
    requires Inv(env, h.sys) && ChannelsOk(h) && HdiOk(env) && Possible(h, c) && !c.ResetSensors?
    ensures Kept(h.sys, Apply(env, h, c).sys, e, StrandsAt(h, c, e), DisturbsAt(env, h, c, e))
  {
    hide Inv, HdiOk, EnableStep, DisableStep, SuspendSensorsStep, ResumeSensorsStep, ResetEach, ConnectStep, DeathStep;
    hide SetPerm, Register, PowerAt, ExactAt, Enumerates, ApplyBlockOp, SlowsOwn, ResumeSlows, SetsPace, ClearClient;
    var s, t := h.sys, Apply(env, h, c).sys;
    match c
    case Enable(d, pid, b, granted) => EnableAt(env, s, d, pid, b, granted, e);
    case Disable(d, pid) => DisableAt(env, s, d, pid, e);
    case SuspendSensors(pid, order) => SuspendAt(env, s, pid, order, e);
    case ResumeSensors(pid, entries) => ResumeAt(env, s, pid, entries, e);
    case Leave(client, pid) => LeaveAt(env, s, pid, e);
    case SetPermission(pid, sensorType, state) => SetPermAt(s, pid, sensorType, state, e);
    case Death(client, order) => DeathAt(env, h, client, order, e);
    case Connect(client, pid, app, channel) => ConnectKeeps(h, client, pid, app, channel);
    case OpenSocket(client, pid) => TableKeeps(h, client, pid);
    case CloseSocket(client) => TableKeeps(h, client, 0);
    case _ =>
  }

  lemma DeathAt(env: Env, h: Hub, client: nat, order: seq<Desc>, e: Desc)
    requires Inv(env, h.sys) && ChannelsOk(h) && HdiOk(env) && Possible(h, Death(client, order))
    ensures Kept(h.sys, Apply(env, h, Death(client, order)).sys, e, false, false)
  {
    if client in h.clientPids {
      DeathSwitchesOff(env, h, client, order, e);
      hide Apply, PowerAt, ExactAt, Inv;
      if !Has(h.sys.clients, e, h.clientPids[client]) {
        SameAtTidy(h.sys, Apply(env, h, Death(client, order)).sys, e);
      }
    }
  }

  lemma ResetCallKeeps(env: Env, h: Hub, c: Call)
    requires Inv(env, h.sys) && HdiOk(env) && Possible(h, c) && c.ResetSensors?
    ensures AllPowered(h.sys) ==> AllPowered(Apply(env, h, c).sys)
    ensures AllExact(h.sys) && !Disturbs(env, h, c) ==> AllExact(Apply(env, h, c).sys)
  {
    EnumeratesDistinct(c.pids, h.sys.saved.Keys);
    hide Inv, HdiOk, ResetEach, PowerAt, ExactAt, Enumerates, ResetSlows;
    forall e: Desc ensures PowerAt(h.sys, e) ==> PowerAt(Apply(env, h, c).sys, e)
      ensures ExactAt(h.sys, e) && !Disturbs(env, h, c) ==> ExactAt(Apply(env, h, c).sys, e)
    {
      ResetAt(env, h.sys, c.pids, c.orders, e);
    }
  }

  /** Power, call by call: where every sensor was on exactly for its subscribers it stays so, unless
      a client leaves behind a sensor that only it used. */
  lemma CallPowerIff(env: Env, h: Hub, c: Call)
    requires Inv(env, h.sys) && ChannelsOk(h) && HdiOk(env) && Possible(h, c) && AllPowered(h.sys)
    ensures AllPowered(Apply(env, h, c).sys) <==> !Strands(h, c)
  {
    hide Inv, HdiOk, PowerAt, ExactAt, Apply, Possible, DisturbsAt;
    if c.ResetSensors? {
      ResetCallKeeps(env, h, c);
    } else {
      forall e: Desc ensures PowerAt(Apply(env, h, c).sys, e) <==> !StrandsAt(h, c, e) {
        assert PowerAt(h.sys, e);
        CallAt(env, h, c, e);
      }
      hide StrandsAt;
    }
  }

  /** Rates, call by call: where every sensor ran at exactly the fastest rate asked for it stays so,
      unless the call disturbs it; a reset can disturb a sensor and put it right again. */
  lemma CallExactIff(env: Env, h: Hub, c: Call)
    requires Inv(env, h.sys) && ChannelsOk(h) && HdiOk(env) && Possible(h, c) && AllExact(h.sys)
    ensures !Disturbs(env, h, c) ==> AllExact(Apply(env, h, c).sys)
    ensures Disturbs(env, h, c) && !c.ResetSensors? ==> !AllExact(Apply(env, h, c).sys)
  {
    hide Inv, HdiOk, PowerAt, ExactAt, Apply, Possible, SlowsOwn, ResumeSlows, SetsPace, ResetSlows;
    if c.ResetSensors? {
      ResetCallKeeps(env, h, c);
    } else {
      forall e: Desc ensures ExactAt(Apply(env, h, c).sys, e) <==> !DisturbsAt(env, h, c, e) {
        assert ExactAt(h.sys, e);
        CallAt(env, h, c, e);
      }
      hide DisturbsAt;
    }
  }

  /** After every call of the run each sensor is on exactly if somebody is subscribed. */
  ghost predicate PoweredThroughout(env: Env, h: Hub, calls: seq<Call>)
    requires PossibleRun(env, h, calls)
    decreases |calls|
  {
    AllPowered(h.sys) && (calls == [] || PoweredThroughout(env, Apply(env, h, calls[0]), calls[1..]))
  }

  ghost predicate NeverStrands(env: Env, h: Hub, calls: seq<Call>)
    requires PossibleRun(env, h, calls)
    decreases |calls|
  {
    calls == [] || (!Strands(h, calls[0]) && NeverStrands(env, Apply(env, h, calls[0]), calls[1..]))
  }

  /** Over whole runs of all calls, no HDI call failing, a sensor is on exactly while somebody is
      subscribed if and only if no client ever leaves a sensor that only it used. */
  lemma {:induction false} PoweredThroughoutIff(env: Env, h: Hub, calls: seq<Call>)
    requires Inv(env, h.sys) && ChannelsOk(h) && HdiOk(env) && PossibleRun(env, h, calls) && AllPowered(h.sys)
    ensures PoweredThroughout(env, h, calls) <==> NeverStrands(env, h, calls)
    decreases |calls|
  {
    hide Inv, ChannelsOk, HdiOk, Apply, Possible, AllPowered, Strands;
    if calls != [] {
      CallPowerIff(env, h, calls[0]);
      CallKeeps(env, h, calls[0]);
      if !Strands(h, calls[0]) {
        PoweredThroughoutIff(env, Apply(env, h, calls[0]), calls[1..]);
      }
    }
  }

  ghost predicate NeverDisturbs(env: Env, h: Hub, calls: seq<Call>)
    requires PossibleRun(env, h, calls)
    decreases |calls|
  {
    calls == [] || (!Disturbs(env, h, calls[0]) && NeverDisturbs(env, Apply(env, h, calls[0]), calls[1..]))
  }

  /** In a run in which no HDI call fails and nothing disturbs a rate, the hardware of every
      subscribed sensor runs at exactly the fastest rate and shortest delay asked for. */
  lemma {:induction false} SteadyRunsAreExact(env: Env, h: Hub, calls: seq<Call>)
    requires Inv(env, h.sys) && ChannelsOk(h) && HdiOk(env) && PossibleRun(env, h, calls)
    requires AllExact(h.sys) && NeverDisturbs(env, h, calls)
    ensures AllExact(Run(env, h, calls).sys)
    decreases |calls|
  {
    hide Inv, ChannelsOk, HdiOk, Apply, Possible, AllExact, Disturbs;
    if calls != [] {
      CallExactIff(env, h, calls[0]);
      CallKeeps(env, h, calls[0]);
      SteadyRunsAreExact(env, Apply(env, h, calls[0]), calls[1..]);
    }
  }

  /** A sole user leaves without disabling: the sensor stays on with nobody subscribed. */
  lemma LeaverLeavesSensorOn() returns (env: Env, h: Hub, d: Desc)
    ensures Inv(env, h.sys) && ChannelsOk(h) && HdiOk(env) && AllPowered(h.sys)
    ensures var t := Apply(env, h, Leave(0, 1)).sys; d in t.dev.on && Subs(t.clients, d) == map[]
  {
    var s, pid;
    env, s, d, pid := SoleUser();
    h := Hub(s, map[1 := 0], map[], map[0 := 1], {}, map[]);
    ClearClientSubs(s.clients, 1, d);
    hide Inv, ClearClient;
    assert Subs(s.clients, d) - {1} == map[];
    LeaveIs(env, h, s);
  }

  lemma SoleUser() returns (env: Env, s: Sys, d: Desc, pid: Int32)
    ensures Inv(env, s) && HdiOk(env) && AllPowered(s) && d in s.dev.on && Subs(s.clients, d).Keys == {1}
  {
    d, pid := Desc(0, 1, 0, 1), 1;
    env := Env({d}, map[], (n: nat) => true);
    s := Sys(map[d := map[1 := Info(10, 10, true, true)]], map[], Device({d}, map[d := Batch(10, 10)], 0));
    assert InvAt(env, s, d);
    assert 1 in Subs(s.clients, d);
    assert forall e: Desc :: e != d ==> Subs(s.clients, e) == map[];
  }

  /** The faster of two subscribers leaves: the hardware stays faster than the other needs. */
  lemma LeaverLeavesHardwareFast() returns (env: Env, h: Hub, d: Desc)
    ensures Inv(env, h.sys) && ChannelsOk(h) && HdiOk(env) && ExactAt(h.sys, d)
    ensures !ExactAt(Apply(env, h, Leave(0, 1)).sys, d)
  {
    var s, pid, b;
    env, s, d, pid, b := SlowDownState();
    h := Hub(s, map[1 := 0], map[], map[0 := 1], {}, map[]);
    SlowerSetsPace(env, s, d, b);
    LeaveAt(env, s, 1, d);
    hide Inv, ClearClient, ExactAt, SlowsDown, SetsPace, HdiOk;
    LeaveIs(env, h, s);
  }

  lemma SlowerSetsPace(env: Env, s: Sys, d: Desc, b: Batch)
    requires SlowsDown(env, s, d, 1, b)
    ensures SetsPace(Subs(s.clients, d), 1)
  {
    SkipNeedsOthers(Subs(s.clients, d) - {1}, GetSensorInfo(env.sensors, d, b.period, b.delay));
  }

  lemma LeaveIs(env: Env, h: Hub, s: Sys)
    requires h.sys == s
    ensures Apply(env, h, Leave(0, 1)).sys == s.(clients := ClearClient(s.clients, 1))
  {
    hide ClearClient;
  }
}
