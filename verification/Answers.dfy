/** What the service answers, in a caller's terms and whatever the hardware does. */
module Answers {
  import opened ByteCodec
  import opened Sequences
  import opened SensorTypes
  import opened ClientInfos
  import opened SensorManagers
  import opened SensorPowerPolicies
  import opened SensorServices
  import opened Arbitration
  import opened Suspension
  import opened Clamp
  import opened ServiceRuns

  /** At most 1000 periods fit into the delay, counted without division. */
  predicate DelayFits(period: int, delay: int) {
    period == 0 || delay == 0 || (if period > 0 then delay < 1001 * period else -delay < 1001 * -period)
  }

  /** The sensor's limits admit the period; a sensor without limits takes any. */
  predicate PeriodFits(sensors: map<Desc, Sensor>, d: Desc, period: int) {
    d !in sensors || (period > 0 && period * sensors[d].fifoMax <= INT64_MAX)
    || (period == INT64_MIN && sensors[d].fifoMax == 0)
  }

  lemma QuotientLimit(a: int, b: int)
    requires b != 0
    ensures Quot(a, b) <= 1000 <==> if b > 0 then a < 1001 * b else -a < 1001 * -b
  {
    if b > 0 && a >= 0 {
      FloorLimit(a, b, a / b);
    } else if b < 0 && a < 0 {
      FloorLimit(-a, -b, (-a) / (-b));
    }
  }

  lemma FloorLimit(a: int, b: int, q: int)
    requires a >= 0 && b > 0 && q == a / b
    ensures q <= 1000 <==> a < 1001 * b
  {
    QuotientFloor(a, b);
    if q <= 1000 {
      ProductMonotone(q + 1, 1001, b);
    } else {
      ProductMonotone(1001, q, b);
    }
  }

  lemma ParametersOkIff(env: Env, d: Desc, b: Batch)
    ensures ParametersOk(env, d, b) <==> d in env.known && DelayFits(b.period, b.delay)
  {
    if b.period != 0 {
      QuotientLimit(b.delay, b.period);
    }
  }

  lemma GrantedIff(sensors: map<Desc, Sensor>, d: Desc, pid: Int32, b: Batch)
    ensures Granted(sensors, d, pid, b.period, b.delay)
        <==> d.sensorType != -1 && pid >= 0 && PeriodFits(sensors, d, b.period)
    ensures d !in sensors ==> GetSensorInfo(sensors, d, b.period, b.delay) == Info(b.period, b.delay, true, true)
  {
    if d in sensors {
      ClampGrants(sensors, d, b.period, b.delay);
    }
  }

  /** EnableSensor: which check refuses a call; behind the checks, success is exactly that the
      record is there, and only the hardware can prevent it. */
  lemma EnableAnswersIff(env: Env, s: Sys, d: Desc, pid: Int32, b: Batch, granted: bool)
    requires Inv(env, s)
    ensures var t := EnableStep(env, s, d, pid, b, granted);
            if !granted then t == (s, PermissionDenied)
            else if d !in env.known || !DelayFits(b.period, b.delay) then t == (s, ErrNoInit)
            else if d.sensorType == -1 || pid < 0 || !PeriodFits(env.sensors, d, b.period) then
              t.1 == UpdateSensorInfoErr && t.0.dev == s.dev
            else (t.1 == ErrOk <==> Has(t.0.clients, d, pid)) && (HdiOk(env) ==> t.1 == ErrOk)
                 && (t.1 != ErrOk ==> t.1 == SetSensorConfigErr || t.1 == EnableSensorErr)
  {
    EnableKeeps(env, s, d, pid, b, granted);
    ParametersOkIff(env, d, b);
    GrantedIff(env.sensors, d, pid, b);
    hide GetSensorInfo, SetBest, Inv, DelayFits, PeriodFits, ParametersOk, Granted;
  }

  /** DisableSensor: which check refuses a call; behind the checks it fails exactly if the client
      is the only user of a known sensor that the hardware keeps on. */
  lemma DisableAnswersIff(env: Env, s: Sys, d: Desc, pid: Int32)
    requires Inv(env, s)
    ensures var t, m := DisableStep(env, s, d, pid), Subs(s.clients, d);
            t.1 == if d !in env.known && m == map[] then ErrNoInit
                   else if pid < 0 then ClientPidInvalidErr
                   else if m.Keys == {pid} && d in env.known && d in t.0.dev.on then DisableSensorErr
                   else ErrOk
  {
    assert InvAt(env, s, d);
    hide Fixed;
    EnabledMeansSubscribed(env, s, d);
    YieldKeeps(env, s, d, pid);
    hide Yield, Forget;
  }

  /** ResetSensors: success is exactly that no saved entry is left. */
  lemma {:induction false} ResetAnswersIff(env: Env, s: Sys, pids: seq<Int32>, orders: seq<seq<(Desc, Batch)>>)
    requires Inv(env, s) && Distinct(pids) && OrdersFor(s.saved, pids, orders)
    ensures var r := ResetEach(env, s, pids, orders);
            r.1 <==> forall pid <- pids :: pid !in r.0.saved
    decreases |pids|
  {
    hide Fixed, ResumeSensorsStep, Inv;
    if pids != [] {
      var n := |pids| - 1;
      var pid, earlier := pids[n], pids[..n];
      assert forall i :: 0 <= i < n ==> earlier[i] == pids[i];
      ResetAnswersIff(env, s, earlier, orders[..n]);
      ServiceRuns.ResetKeeps(env, s, earlier, orders[..n]);
      var t := ResetEach(env, s, earlier, orders[..n]).0;
      assert pid !in earlier && pid in t.saved;
      ResumeKeepsSaved(env, t, pid, orders[n]);
      assert forall q <- pids :: q == pid || q in earlier;
      assert forall q <- earlier :: q in pids;
    }
  }

  /** TransferDataChannel, for a channel not seen before: success is exactly that it is the pid's
      channel now; a refusal leaves everything, or everything but the application, as it was. */
  lemma ConnectAnswersIff(h: Hub, client: nat, pid: Int32, app: AppThread, channel: nat)
    requires channel !in h.channels.Values
    ensures var t, code := ConnectStep(h, client, pid, app, channel), ConnectCode(h, pid, app);
            (code == ErrOk <==> pid in t.channels && t.channels[pid] == channel)
            && (code == UpdateUidErr ==> t == h)
            && (code == UpdateSensorChannelErr ==> t == h.(apps := h.apps[pid := app]) && pid !in h.channels)
            && (code == ErrOk || code == UpdateUidErr || code == UpdateSensorChannelErr)
  {
  }
}
