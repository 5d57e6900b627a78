/** When the hardware runs at exactly the fastest subscribed rate, and when it stays faster. */
module RateExactness {
  import opened ByteCodec
  import opened SensorTypes
  import opened ClientInfos
  import opened SensorManagers
  import opened SensorPowerPolicies
  import opened SensorServices
  import opened Arbitration
  import opened Suspension

  /** With a subscriber present, the hardware batch is the minimum over the subscribers. */
  ghost predicate ExactAt(s: Sys, d: Desc) {
    Subs(s.clients, d) != map[] ==> d in s.dev.batch && s.dev.batch[d] == Best(s.clients, d)
  }

  lemma LeastWith(m: PidMap, pid: Int32, info: Info)
    ensures LeastPeriod(m[pid := info]) == Least(info.period, LeastPeriod(m - {pid}))
    ensures LeastDelay(m[pid := info]) == Least(info.delay, LeastDelay(m - {pid}))
  {
    var all: PidMap, others: PidMap := m[pid := info], m - {pid};
    var p, r := Least(info.period, LeastPeriod(others)), Least(info.delay, LeastDelay(others));
    assert all[pid] == info && forall q <- others :: q in all && all[q] == others[q];
    assert forall q <- all :: q == pid || q in others;
    if p != INT64_MAX {
      if p == info.period {
        assert p == all[pid].period;
      } else {
        var q :| q in others && p == others[q].period;
        assert p == all[q].period;
      }
    }
    if r != INT64_MAX {
      if r == info.delay {
        assert r == all[pid].delay;
      } else {
        var q :| q in others && r == others[q].delay;
        assert r == all[q].delay;
      }
    }
    LeastUnique(all, p, r);
  }

  lemma LeastWithout(m: PidMap, pid: Int32)
    ensures if pid in m then
              LeastPeriod(m) == Least(m[pid].period, LeastPeriod(m - {pid}))
              && LeastDelay(m) == Least(m[pid].delay, LeastDelay(m - {pid}))
            else LeastPeriod(m) == LeastPeriod(m - {pid}) && LeastDelay(m) == LeastDelay(m - {pid})
  {
    if pid in m {
      LeastWith(m, pid, m[pid]);
      assert m[pid := m[pid]] == m;
    } else {
      assert m - {pid} == m;
    }
  }

  /** A re-enable the arbitration skips although the caller's old record set the pace: the guard
      of SetBestSensorParams taken by a subscriber that was itself the fastest in some respect. */
  ghost predicate SlowsDown(env: Env, s: Sys, d: Desc, pid: Int32, b: Batch) {
    var m: PidMap := Subs(s.clients, d);
    var others: PidMap := m - {pid};
    var info := GetSensorInfo(env.sensors, d, b.period, b.delay);
    pid in m && info.period > LeastPeriod(others) && info.delay > LeastDelay(others)
    && (m[pid].period < LeastPeriod(others) || m[pid].delay < LeastDelay(others))
  }

  lemma SkipsIff(cm: ClientMap, d: Desc, pid: Int32, info: Info)
    requires d.sensorType != INVALID_SENSOR_ID
    ensures var others: PidMap := Subs(cm, d) - {pid};
            Skips(Put(cm, d, pid, info), d, Config(info))
            <==> info.period > LeastPeriod(others) && info.delay > LeastDelay(others)
    ensures var best := Best(Put(cm, d, pid, info), d);
            Least(info.period, best.period) == best.period && Least(info.delay, best.delay) == best.delay
  {
    LeastWith(Subs(cm, d), pid, info);
  }

  /** With cooperating hardware, the parameters alone decide whether an enable succeeds, and the
      device ends at the new minimum or, when the arbitration skips, where it was. */
  lemma EnableEffect(env: Env, s: Sys, d: Desc, pid: Int32, b: Batch, granted: bool)
    requires HdiOk(env)
    ensures var info := GetSensorInfo(env.sensors, d, b.period, b.delay);
            var t := EnableStep(env, s, d, pid, b, granted);
            (t.1 == ErrOk <==> granted && ParametersOk(env, d, b) && Acceptable(d, pid, info))
            && (t.1 == ErrOk ==>
                  var cm := Put(s.clients, d, pid, info);
                  t.0.clients == cm
                  && t.0.dev.batch == if Skips(cm, d, Config(info)) then s.dev.batch else s.dev.batch[d := Best(cm, d)])
  {
    var info := GetSensorInfo(env.sensors, d, b.period, b.delay);
    if Acceptable(d, pid, info) {
      SkipsIff(s.clients, d, pid, info);
    }
    hide Skips, Best, Enabled;
  }

  /** The exact condition. From exact hardware, a successful enable ends with exact hardware
      unless it is such a slow-down, and then it never does. */
  lemma EnableExactIff(env: Env, s: Sys, d: Desc, pid: Int32, b: Batch)
    requires Inv(env, s) && HdiOk(env) && ExactAt(s, d)
    requires EnableStep(env, s, d, pid, b, true).1 == ErrOk
    ensures ExactAt(EnableStep(env, s, d, pid, b, true).0, d) <==> !SlowsDown(env, s, d, pid, b)
  {
    EnableEffect(env, s, d, pid, b, true);
    var info := GetSensorInfo(env.sensors, d, b.period, b.delay);
    var t := EnableStep(env, s, d, pid, b, true).0;
    var m: PidMap := Subs(s.clients, d);
    var others: PidMap := m - {pid};
    var cm := Put(s.clients, d, pid, info);
    SkipsIff(s.clients, d, pid, info);
    LeastWith(m, pid, info);
    LeastWithout(m, pid);
    assert Subs(cm, d) == m[pid := info];
    SkipNeedsOthers(others, info);
    assert others == map[] || m != map[];
    hide EnableStep, Inv, HdiOk, GetSensorInfo, Skips, LeastPeriod, LeastDelay, Put;
  }

  /** Nothing is slower than INT64_MAX, so a skip needs somebody else's record. */
  lemma SkipNeedsOthers(others: PidMap, info: Info)
    ensures info.period > LeastPeriod(others) ==> others != map[]
  {
  }

  /** Disabling keeps the hardware exact. */
  lemma DisableExact(env: Env, s: Sys, d: Desc, pid: Int32)
    requires Inv(env, s) && HdiOk(env) && ExactAt(s, d)
    ensures ExactAt(DisableStep(env, s, d, pid).0, d)
  {
    hide Fixed;
    assert InvAt(env, s, d);
    OnlyUserIff(env, s, d, pid);
    ClearPidSubs(s.clients, d, pid);
    var t := DisableStep(env, s, d, pid).0;
  }

  /** A slow-down exists: one fast and one slow subscriber, and the fast one re-enables slower;
      every call succeeds, and the hardware is left faster than anybody needs. */
  lemma SlowDownLeavesHardwareFast() returns (env: Env, s: Sys, d: Desc, pid: Int32, b: Batch)
    ensures HdiOk(env) && Inv(env, s) && ExactAt(s, d) && EnableStep(env, s, d, pid, b, true).1 == ErrOk
    ensures !ExactAt(EnableStep(env, s, d, pid, b, true).0, d)
  {
    env, s, d, pid, b := SlowDownState();
    EnableEffect(env, s, d, pid, b, true);
    EnableExactIff(env, s, d, pid, b);
  }

  lemma SlowDownState() returns (env: Env, s: Sys, d: Desc, pid: Int32, b: Batch)
    ensures HdiOk(env) && Inv(env, s) && ExactAt(s, d) && SlowsDown(env, s, d, pid, b)
    ensures ParametersOk(env, d, b) && Acceptable(d, pid, GetSensorInfo(env.sensors, d, b.period, b.delay)) && pid == 1
  {
    d, pid, b := Desc(0, 1, 0, 1), 1, Batch(30, 30);
    env := Env({d}, map[], (n: nat) => true);
    var m: PidMap := map[1 := Info(10, 10, true, true), 2 := Info(20, 20, true, true)];
    s := Sys(map[d := m], map[], Device({d}, map[d := Batch(10, 10)], 0));
    TwoSubscribers(m);
    assert GetSensorInfo(env.sensors, d, b.period, b.delay) == Info(30, 30, true, true);
    hide LeastPeriod, LeastDelay;
    assert InvAt(env, s, d) by {
      assert forall q <- m :: SoundRecord(env, d, q, m[q]) && Served(s.dev, d, m[q]);
    }
    hide SoundRecord, Served;
    assert forall e: Desc :: e != d ==> Subs(s.clients, e) == map[];
  }

  lemma TwoSubscribers(m: PidMap)
    requires m == map[1 := Info(10, 10, true, true), 2 := Info(20, 20, true, true)]
    ensures LeastPeriod(m) == 10 && LeastDelay(m) == 10
    ensures LeastPeriod(m - {1}) == 20 && LeastDelay(m - {1}) == 20
  {
    assert 1 in m && m[1].period == 10 && m[1].delay == 10;
    LeastUnique(m, 10, 10);
    var others: PidMap := m - {1};
    assert 2 in others && others[2].period == 20 && others[2].delay == 20;
    LeastUnique(others, 20, 20);
  }
}
