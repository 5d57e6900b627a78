/** What every service call keeps: stored records are sound, their sensors are on, the hardware
    is fast enough for each of them, and a call made for one pid leaves the others alone. */
module Arbitration {
  import opened ByteCodec
  import opened SensorTypes
  import opened ClientInfos
  import opened SensorManagers
  import opened SensorPowerPolicies
  import opened SensorServices

  /** Clamping the configuration again changes nothing, unless it is now refused. */
  ghost predicate Fixed(env: Env, d: Desc, b: Batch) {
    var info := GetSensorInfo(env.sensors, d, b.period, b.delay);
    info.state ==> Batch(info.period, info.delay) == b
  }

  ghost predicate SoundRecord(env: Env, d: Desc, pid: Int32, info: Info) {
    info.state && d.sensorType != INVALID_SENSOR_ID && pid > INVALID_PID
        && Fixed(env, d, Batch(info.period, info.delay))
  }

  /** The hardware batch of `d` is at least as fast as the record asks. */
  ghost predicate Served(dev: Device, d: Desc, info: Info) {
    d in dev.batch && dev.batch[d].period <= info.period && dev.batch[d].delay <= info.delay
  }

  ghost predicate InvAt(env: Env, s: Sys, d: Desc) {
    var m := Subs(s.clients, d);
    forall q <- m :: SoundRecord(env, d, q, m[q]) && Served(s.dev, d, m[q]) && d in s.dev.on
  }

  ghost predicate SavedOk(env: Env, saved: SavedMap) {
    forall p <- saved, d <- saved[p] :: Fixed(env, d, saved[p][d])
  }

  ghost predicate Inv(env: Env, s: Sys) {
    (forall d: Desc :: InvAt(env, s, d)) && SavedOk(env, s.saved)
  }

  /** No record of a pid other than `pid` appears, disappears or changes. */
  ghost predicate OthersKept(a: ClientMap, b: ClientMap, pid: Int32) {
    forall d: Desc, q: Int32 :: q != pid ==> SameRecord(a, b, d, q)
  }

  ghost predicate SameRecord(a: ClientMap, b: ClientMap, d: Desc, q: Int32) {
    (Has(a, d, q) <==> Has(b, d, q)) && (Has(a, d, q) && Has(b, d, q) ==> a[d][q] == b[d][q])
  }

  /** Sensor `d` looks the same in both states: subscribers, power, batch. */
  ghost predicate SameAt(s: Sys, t: Sys, d: Desc) {
    Subs(s.clients, d) == Subs(t.clients, d) && (d in s.dev.on <==> d in t.dev.on)
    && (d in s.dev.batch <==> d in t.dev.batch) && (d in s.dev.batch ==> t.dev.batch[d] == s.dev.batch[d])
  }

  /** A step concerns only sensor `d` and only subscriber `pid`. */
  ghost predicate Local(s: Sys, t: Sys, d: Desc, pid: Int32) {
    (forall e: Desc :: e != d ==> SameAt(s, t, e))
    && forall q: Int32 :: q != pid ==> SameRecord(s.clients, t.clients, d, q)
  }

  lemma LocalKeeps(env: Env, s: Sys, t: Sys, d: Desc, pid: Int32)
    requires Local(s, t, d, pid)
    ensures OthersKept(s.clients, t.clients, pid)
    ensures (forall e: Desc :: InvAt(env, s, e)) && InvAt(env, t, d) ==> forall e: Desc :: InvAt(env, t, e)
  {
    hide Fixed;
    forall e: Desc, q: Int32 | q != pid ensures SameRecord(s.clients, t.clients, e, q) {
      if e != d {
        assert SameAt(s, t, e);
      }
    }
    if forall e: Desc :: InvAt(env, s, e) {
      forall e: Desc | e != d && InvAt(env, s, e) ensures InvAt(env, t, e) {
        assert SameAt(s, t, e);
      }
    }
  }

  lemma OthersKeptTrans(a: ClientMap, b: ClientMap, c: ClientMap, pid: Int32)
    requires OthersKept(a, b, pid) && OthersKept(b, c, pid)
    ensures OthersKept(a, c, pid)
  {
    forall d: Desc, q: Int32 | q != pid ensures SameRecord(a, c, d, q) {
      assert SameRecord(a, b, d, q) && SameRecord(b, c, d, q);
    }
  }

  /** What the clamp grants, it grants again unchanged or refuses. */
  lemma GrantedIsFixed(env: Env, d: Desc, period: Int64, delay: Int64)
    ensures var info := GetSensorInfo(env.sensors, d, period, delay);
            info.state ==> Fixed(env, d, Batch(info.period, info.delay))
  {
    if d in env.sensors {
      var sensor := env.sensors[d];
      var info := GetSensorInfo(env.sensors, d, period, delay);
      if info.state && GetSensorInfo(env.sensors, d, info.period, info.delay).state {
        SupportFits(sensor.fifoMax, period);
        SupportFits(sensor.fifoMax, info.period);
        if period > 0 {
          ProductMonotone(period, info.period, sensor.fifoMax);
        } else {
          NegativeNeedsNoFifo(sensor.fifoMax, period);
        }
      }
    }
  }

  lemma ProductMonotone(a: int, b: int, n: int)
    requires a <= b && n >= 0
    ensures a * n <= b * n
  {
  }

  lemma NegativeNeedsNoFifo(fifoMax: Capacity, period: Int64)
    requires period < 0 && fifoMax <= Quot(INT64_MAX, period)
    ensures fifoMax == 0
  {
    assert Quot(INT64_MAX, period) == -(INT64_MAX / -(period as int)) <= 0;
  }

  /** After arbitration for a record just stored: on success every subscriber is served, on
      failure the batch is as before. */
  lemma Arbitrated(cm: ClientMap, dev: Device, hdi: Oracle, d: Desc, pid: Int32, b: Batch)
    requires d.sensorType != INVALID_SENSOR_ID && Has(cm, d, pid) && Batch(cm[d][pid].period, cm[d][pid].delay) == b
    requires forall q <- cm[d] :: q != pid ==> Served(dev, d, cm[d][q])
    ensures var r := SetBest(cm, dev, hdi, d, b);
            r.0.on == dev.on && (forall e: Desc :: e != d ==> (e in dev.batch <==> e in r.0.batch))
            && (forall e <- dev.batch :: e != d ==> r.0.batch[e] == dev.batch[e])
            && (r.1 ==> forall q <- cm[d] :: Served(r.0, d, cm[d][q]))
            && (!r.1 ==> r.0.batch == dev.batch)
  {
    var m, best := cm[d], Best(cm, d);
    if Skips(cm, d, b) {
      var q0 :| q0 in m && m[q0].period == best.period;
      var q1 :| q1 in m && m[q1].delay == best.delay;
      assert Served(dev, d, m[q0]) && Served(dev, d, m[q1]);
    }
  }

  /** Enabled, in a state that satisfies the invariant, means: somebody is subscribed. */
  lemma EnabledMeansSubscribed(env: Env, s: Sys, d: Desc)
    requires InvAt(env, s, d)
    ensures Enabled(s.clients, d) <==> Subs(s.clients, d) != map[]
  {
    var m := Subs(s.clients, d);
    if m != map[] {
      var q :| q in m;
      assert m[q].state && SoundRecord(env, d, q, m[q]);
    }
  }

  /** Storing a record and arbitrating for it: shared by enable and resume. */
  lemma StoreAndArbitrate(env: Env, s: Sys, d: Desc, pid: Int32, info: Info) returns (t: Sys, ok: bool)
    requires InvAt(env, s, d) && SoundRecord(env, d, pid, info)
    ensures var cm, b := Put(s.clients, d, pid, info), Batch(info.period, info.delay);
            var best := SetBest(cm, s.dev, env.hdi, d, b);
            ok == best.1 && t == s.(clients := if ok then cm else Remove(cm, d, pid), dev := best.0)
    ensures Local(s, t, d, pid) && t.dev.on == s.dev.on
    ensures Subs(t.clients, d) == if ok then Subs(s.clients, d)[pid := info] else Subs(s.clients, d) - {pid}
    ensures forall q <- Subs(t.clients, d) ::
              SoundRecord(env, d, q, Subs(t.clients, d)[q]) && Served(t.dev, d, Subs(t.clients, d)[q])
    ensures !ok ==> InvAt(env, t, d)
    ensures d in s.dev.on ==> InvAt(env, t, d)
  {
    hide Fixed, SetBest;
    var cm, b := Put(s.clients, d, pid, info), Batch(info.period, info.delay);
    Arbitrated(cm, s.dev, env.hdi, d, pid, b);
    var best := SetBest(cm, s.dev, env.hdi, d, b);
    ok := best.1;
    t := s.(clients := if ok then cm else Remove(cm, d, pid), dev := best.0);
    assert Subs(cm, d) - {pid} == Subs(s.clients, d) - {pid};
  }

  /** Under the invariant, "only user" is what it says. */
  lemma OnlyUserIff(env: Env, s: Sys, d: Desc, pid: Int32)
    requires InvAt(env, s, d)
    ensures OnlyUser(s.clients, d, pid) <==> Subs(s.clients, d).Keys == {pid}
    ensures pid <= INVALID_PID || d.sensorType == INVALID_SENSOR_ID ==> pid !in Subs(s.clients, d)
  {
    hide Fixed;
    EnabledMeansSubscribed(env, s, d);
    var m := Subs(s.clients, d);
    assert forall q <- m :: m[q].state && SoundRecord(env, d, q, m[q]);
    if m.Keys == {pid} {
      assert pid in m;
    }
  }

  lemma ClearPidSubs(cm: ClientMap, d: Desc, pid: Int32)
    requires pid <= INVALID_PID || d.sensorType == INVALID_SENSOR_ID ==> pid !in Subs(cm, d)
    ensures Subs(ClearPid(cm, d, pid), d) == Subs(cm, d) - {pid}
    ensures forall e: Desc :: e != d ==> Subs(ClearPid(cm, d, pid), e) == Subs(cm, e)
  {
    assert pid !in Subs(cm, d) ==> Subs(cm, d) - {pid} == Subs(cm, d);
  }

  /** Taking `pid` off sensor `d` and resetting its batch to what the rest need. */
  lemma ResetKeeps(env: Env, s: Sys, t: Sys, d: Desc, pid: Int32)
    requires InvAt(env, s, d) && Subs(t.clients, d) == Subs(s.clients, d) - {pid}
    requires t.dev.on == s.dev.on
    requires t.dev.batch == s.dev.batch
             || (d.sensorType != INVALID_SENSOR_ID && t.dev.batch == s.dev.batch[d := Best(t.clients, d)])
    ensures InvAt(env, t, d)
  {
    hide SoundRecord;
    var m := Subs(t.clients, d);
    assert forall q <- m :: m[q] == Subs(s.clients, d)[q];
  }

  lemma ResetIsLocal(s: Sys, t: Sys, d: Desc, pid: Int32, best: Batch)
    requires Subs(t.clients, d) == Subs(s.clients, d) - {pid}
    requires forall e: Desc :: e != d ==> Subs(t.clients, e) == Subs(s.clients, e)
    requires t.dev.on == s.dev.on && (t.dev.batch == s.dev.batch || t.dev.batch == s.dev.batch[d := best])
    ensures Local(s, t, d, pid)
  {
  }

  /** Giving up a record: the others are reset to what they need, or keep what they had. */
  lemma YieldKeeps(env: Env, s: Sys, d: Desc, pid: Int32)
    requires InvAt(env, s, d)
    ensures var r := Yield(s.clients, s.dev, env.hdi, d, pid);
            var t := s.(clients := r.0, dev := r.1);
            if r.2 then Local(s, t, d, pid) && InvAt(env, t, d) && t.dev.on == s.dev.on
                        && Subs(t.clients, d) == Subs(s.clients, d) - {pid}
            else t == s
    ensures Yield(s.clients, s.dev, env.hdi, d, pid).2 <==> Subs(s.clients, d).Keys != {pid}
  {
    OnlyUserIff(env, s, d, pid);
    ClearPidSubs(s.clients, d, pid);
    hide InvAt, OnlyUser, ClearPid, Best, Local;
    var r := Yield(s.clients, s.dev, env.hdi, d, pid);
    if r.2 {
      var t := s.(clients := r.0, dev := r.1);
      ResetKeeps(env, s, t, d, pid);
      ResetIsLocal(s, t, d, pid, Best(t.clients, d));
    }
  }

  lemma SameAtRefl(s: Sys, t: Sys, d: Desc, pid: Int32)
    requires t.clients == s.clients && t.dev.on == s.dev.on && t.dev.batch == s.dev.batch
    ensures Local(s, t, d, pid) && (forall env: Env :: InvAt(env, s, d) ==> InvAt(env, t, d))
  {
    hide Fixed;
  }

  lemma LocalTrans(s: Sys, t: Sys, u: Sys, d: Desc, pid: Int32)
    requires Local(s, t, d, pid) && Local(t, u, d, pid)
    ensures Local(s, u, d, pid)
  {
    forall e: Desc | e != d ensures SameAt(s, u, e) {
      assert SameAt(s, t, e) && SameAt(t, u, e);
    }
    forall q: Int32 | q != pid ensures SameRecord(s.clients, u.clients, d, q) {
      assert SameRecord(s.clients, t.clients, d, q) && SameRecord(t.clients, u.clients, d, q);
    }
  }

  /** Switching the sensor on after its first subscriber was stored, or taking the record back. */
  lemma SwitchOn(env: Env, s: Sys, d: Desc, pid: Int32) returns (t: Sys, ok: bool)
    requires d.sensorType != INVALID_SENSOR_ID
    requires forall q <- Subs(s.clients, d) ::
               SoundRecord(env, d, q, Subs(s.clients, d)[q]) && Served(s.dev, d, Subs(s.clients, d)[q])
    requires Subs(s.clients, d).Keys <= {pid}
    ensures ok == env.hdi(s.dev.calls)
    ensures t == s.(clients := if ok then s.clients else Remove(s.clients, d, pid),
                    dev := AfterEnable(s.dev, env.hdi, d))
    ensures Local(s, t, d, pid) && InvAt(env, t, d)
    ensures Subs(t.clients, d) == if ok then Subs(s.clients, d) else map[]
    ensures t.dev.on == if ok then s.dev.on + {d} else s.dev.on
  {
    hide Fixed;
    ok := env.hdi(s.dev.calls);
    t := s.(clients := if ok then s.clients else Remove(s.clients, d, pid), dev := AfterEnable(s.dev, env.hdi, d));
    assert !ok ==> Subs(t.clients, d) == Subs(s.clients, d) - {pid} == map[];
  }

  /** EnableSensor: the invariant is kept, the call is local to `d` and `pid`, a success stores
      exactly the clamped request, and a refused or failed call leaves no new record behind. */
  lemma EnableKeeps(env: Env, s: Sys, d: Desc, pid: Int32, b: Batch, granted: bool)
    requires Inv(env, s)
    ensures var t := EnableStep(env, s, d, pid, b, granted);
            Inv(env, t.0) && Local(s, t.0, d, pid) && t.0.saved == s.saved
            && Subs(t.0.clients, d) == match t.1 {
                 case ErrOk => Subs(s.clients, d)[pid := GetSensorInfo(env.sensors, d, b.period, b.delay)]
                 case PermissionDenied => Subs(s.clients, d)
                 case ErrNoInit => Subs(s.clients, d)
                 case UpdateSensorInfoErr => if Enabled(s.clients, d) then Subs(s.clients, d) else map[]
                 case _ => Subs(s.clients, d) - {pid} }
            && (t.1 == ErrOk ==> d in t.0.dev.on && (Enabled(s.clients, d) ==> t.0.dev.on == s.dev.on))
  {
    hide Fixed, SetBest;
    var t := EnableStep(env, s, d, pid, b, granted);
    assert InvAt(env, s, d);
    EnabledMeansSubscribed(env, s, d);
    SameAtRefl(s, s, d, pid);
    if granted && ParametersOk(env, d, b) {
      if Granted(env.sensors, d, pid, b.period, b.delay) {
        var info := GetSensorInfo(env.sensors, d, b.period, b.delay);
        GrantedIsFixed(env, d, b.period, b.delay);
        var u, ok := StoreAndArbitrate(env, s, d, pid, info);
        assert SaveSubscriberStep(env, s, d, pid, b) == (u, if ok then ErrOk else SetSensorConfigErr);
        if Enabled(s.clients, d) {
          assert t.0 == u;
        } else if ok {
          var v, on := SwitchOn(env, u, d, pid);
          assert t.0 == v;
          LocalTrans(s, u, v, d, pid);
        } else {
          assert Subs(u.clients, d) == map[];
          assert t.0 == u;
        }
      } else {
        assert Remove(s.clients, d, pid) == s.clients || Enabled(s.clients, d);
      }
    }
    LocalKeeps(env, s, t.0, d, pid);
  }

  /** DisableSensor: the invariant is kept and the call is local; unless the hardware refuses,
      exactly the caller's record goes, although a whole entry may be erased. */
  lemma DisableKeeps(env: Env, s: Sys, d: Desc, pid: Int32)
    requires Inv(env, s)
    ensures var t := DisableStep(env, s, d, pid);
            Inv(env, t.0) && Local(s, t.0, d, pid)
            && Subs(t.0.clients, d) == (if t.1 == ErrOk then Subs(s.clients, d) - {pid} else Subs(s.clients, d))
            && (t.1 == ErrOk && d in env.known && pid in Subs(s.clients, d)
                ==> (d in t.0.dev.on <==> Subs(t.0.clients, d) != map[]))
            && t.0.saved == if t.1 == ErrNoInit || t.1 == ClientPidInvalidErr then s.saved else Forget(s.saved, d, pid)
  {
    hide Fixed, Forget;
    var t := DisableStep(env, s, d, pid);
    assert InvAt(env, s, d);
    SameAtRefl(s, s, d, pid);
    ForgetKeepsFixed(env, s.saved, d, pid);
    if (d in env.known || Enabled(s.clients, d)) && pid >= 0 {
      DisableTakesOff(env, s, d, pid);
    }
    hide DisableStep;
    LocalKeeps(env, s, t.0, d, pid);
  }

  /** The same at sensor `d`, for a call that passes the checks. */
  lemma DisableTakesOff(env: Env, s: Sys, d: Desc, pid: Int32)
    requires Inv(env, s) && (d in env.known || Enabled(s.clients, d)) && pid >= 0
    ensures var t := DisableStep(env, s, d, pid);
            InvAt(env, t.0, d) && Local(s, t.0, d, pid) && t.0.saved == Forget(s.saved, d, pid)
            && Subs(t.0.clients, d) == (if t.1 == ErrOk then Subs(s.clients, d) - {pid} else Subs(s.clients, d))
            && (t.1 == ErrOk && d in env.known && pid in Subs(s.clients, d)
                ==> (d in t.0.dev.on <==> Subs(t.0.clients, d) != map[]))
  {
    hide Fixed, Forget;
    assert InvAt(env, s, d);
    EnabledMeansSubscribed(env, s, d);
    YieldKeeps(env, s, d, pid);
    hide Yield;
    var m := Subs(s.clients, d);
    assert (m - {pid}).Keys == m.Keys - {pid};
    var r := Yield(s.clients, s.dev, env.hdi, d, pid);
    if r.2 {
      if pid in m {
        var q :| q in m && q != pid;
        assert q in m - {pid};
      }
    } else {
      assert pid in m && SoundRecord(env, d, pid, m[pid]);
    }
  }

  lemma ForgetKeepsFixed(env: Env, saved: SavedMap, d: Desc, pid: Int32)
    requires SavedOk(env, saved)
    ensures SavedOk(env, Forget(saved, d, pid))
  {
    hide Fixed;
  }

  /** A configuration that Fixed vouches for is stored as it is. */
  lemma GrantedFixed(env: Env, d: Desc, pid: Int32, b: Batch)
    requires Fixed(env, d, b) && Granted(env.sensors, d, pid, b.period, b.delay)
    ensures GetSensorInfo(env.sensors, d, b.period, b.delay) == Info(b.period, b.delay, true, true)
  {
  }

  /** One saved configuration brought back: success stores it unchanged and leaves the sensor on. */
  lemma ResumeKeeps(env: Env, s: Sys, d: Desc, pid: Int32, b: Batch)
    requires Inv(env, s) && Fixed(env, d, b)
    ensures var t := Resume(env, s, d, pid, b);
            Inv(env, t.0) && Local(s, t.0, d, pid) && t.0.saved == s.saved
            && (t.1 ==>
                  Subs(t.0.clients, d) == Subs(s.clients, d)[pid := Info(b.period, b.delay, true, true)]
                  && d in t.0.dev.on)
            && (!t.1 ==>
                  Subs(t.0.clients, d) == Subs(s.clients, d) || Subs(t.0.clients, d) == Subs(s.clients, d) - {pid})
  {
    hide SetBest;
    var t := Resume(env, s, d, pid, b);
    assert InvAt(env, s, d);
    EnabledMeansSubscribed(env, s, d);
    SameAtRefl(s, s, d, pid);
    if Admissible(d, b) && Granted(env.sensors, d, pid, b.period, b.delay) {
      var info := GetSensorInfo(env.sensors, d, b.period, b.delay);
      GrantedFixed(env, d, pid, b);
      hide Fixed;
      var u, ok := StoreAndArbitrate(env, s, d, pid, info);
      assert Restore(env, s, d, pid, b) == (u, ok);
      if ok && !Enabled(s.clients, d) {
        var v, on := SwitchOn(env, u, d, pid);
        assert t == (v, on);
        LocalTrans(s, u, v, d, pid);
      }
    }
    LocalKeeps(env, s, t.0, d, pid);
  }
}
