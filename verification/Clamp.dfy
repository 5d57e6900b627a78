/** What the clamp of a request guarantees, and which granted requests survive a suspend. */
module Clamp {
  import opened ByteCodec
  import opened SensorTypes
  import opened ClientInfos
  import opened SensorManagers
  import opened SensorPowerPolicies
  import opened SensorServices
  import opened Suspension
  import opened Arbitration
  import opened RateExactness

  lemma CancelPositive(p: int, x: int)
    requires p > 0 && p * x > 0
    ensures x > 0
  {
  }

  lemma DivisionMonotone(a: int, b: int, p: int, q: int)
    requires 0 <= a <= b && 0 < q <= p
    ensures a / p <= b / q
  {
    var x, y := a / p, b / q;
    assert a == p * x + a % p && b == q * y + b % q;
    ProductMonotone(q, p, x);
    assert q * (y + 1 - x) == q * y + q - q * x;
    CancelPositive(q, y + 1 - x);
  }

  lemma QuotientAtMost(a: int, p: int, n: int)
    requires p > 0 && a <= p * n
    ensures a / p <= n
  {
    var q := a / p;
    assert a == p * q + a % p;
    assert p * (n + 1 - q) == p * n + p - p * q;
    CancelPositive(p, n + 1 - q);
  }

  lemma QuotientFits(p: int, n: int)
    requires p > 0 && n >= 0
    ensures n <= INT64_MAX / p <==> p * n <= INT64_MAX
  {
    var q := INT64_MAX / p;
    assert INT64_MAX == p * q + INT64_MAX % p;
    if n <= q {
      assert p * n <= p * q;
    } else {
      assert p * n >= p * (q + 1) == p * q + p;
    }
  }

  lemma OnlyLeastNegative(fifoMax: Capacity, period: Int64)
    requires period < 0
    ensures fifoMax <= Quot(INT64_MAX, period) <==> period == INT64_MIN && fifoMax == 0
  {
    assert period != INT64_MIN ==> INT64_MAX / -(period as int) > 0;
  }

  /** A request for a known sensor is granted exactly when the period is positive and the FIFO's
      span at that period fits an int64 -- or the period is the least int64 and there is no FIFO;
      the grant is never faster than asked or than the sensor can go, and its delay never exceeds
      the FIFO. */
  lemma ClampGrants(sensors: map<Desc, Sensor>, d: Desc, period: Int64, delay: Int64)
    requires d in sensors
    ensures var info, sensor := GetSensorInfo(sensors, d, period, delay), sensors[d];
            (info.state <==> (period > 0 && period * sensor.fifoMax <= INT64_MAX)
                             || (period == INT64_MIN && sensor.fifoMax == 0))
            && (info.state ==>
                  info.period >= period && info.period >= sensor.minPeriod
                  && (info.period == period || info.period == sensor.minPeriod)
                  && info.delay <= delay && info.delay <= period * sensor.fifoMax
                  && (info.delay == delay || info.delay == period * sensor.fifoMax))
  {
    if period > 0 {
      QuotientFits(period, sensors[d].fifoMax);
    } else if period < 0 {
      OnlyLeastNegative(sensors[d].fifoMax, period);
    }
  }

  /** A granted configuration is granted again, unchanged, exactly when its period is positive (or
      still the least int64) and the FIFO's span fits at that period. */
  lemma ClampIdempotentIff(sensors: map<Desc, Sensor>, d: Desc, period: Int64, delay: Int64)
    requires d in sensors && GetSensorInfo(sensors, d, period, delay).state
    ensures var info := GetSensorInfo(sensors, d, period, delay);
            GetSensorInfo(sensors, d, info.period, info.delay) == info
            <==> (info.period > 0 || info.period == INT64_MIN) && info.period * sensors[d].fifoMax <= INT64_MAX
  {
    var info, n := GetSensorInfo(sensors, d, period, delay), sensors[d].fifoMax;
    ClampGrants(sensors, d, period, delay);
    ClampGrants(sensors, d, info.period, info.delay);
    ProductMonotone(period, info.period, n);
  }

  /** A client waits for more events than the sensor's FIFO holds only if its granted period is
      negative and its granted delay no greater. */
  lemma FifoCountBoundedIff(sensors: map<Desc, Sensor>, cm: ClientMap, d: Desc, pid: Int32, period: Int64, delay: Int64)
    requires d in sensors && Granted(sensors, d, pid, period, delay)
    ensures var info := GetSensorInfo(sensors, d, period, delay);
            FifoCount(SaveRecord(cm, sensors, d, pid, period, delay), d, pid) <= sensors[d].fifoMax
            <==> info.period >= 0 || info.delay > info.period
  {
    var info, n := GetSensorInfo(sensors, d, period, delay), sensors[d].fifoMax;
    ClampGrants(sensors, d, period, delay);
    ProductMonotone(period, info.period, n);
    var after := SaveRecord(cm, sensors, d, pid, period, delay);
    assert Current(after, d, pid) == Config(info);
    hide GetSensorInfo, Granted, SaveRecord, Current;
    if info.period < 0 {
      assert n == 0 && info.delay <= 0;
      QuotOfNegatives(info.delay, info.period);
    } else if info.period > 0 && info.delay > 0 {
      QuotientAtMost(info.delay, info.period, n);
    } else if info.period > 0 {
      QuotNotPositive(info.delay, info.period);
    }
  }

  lemma QuotOfNegatives(a: int, p: int)
    requires a <= 0 && p < 0
    ensures Quot(a, p) <= 0 <==> a > p
  {
    assert -a == (-p) * ((-a) / (-p)) + (-a) % (-p);
  }

  /** Every request EnableSensor's parameter check lets through and the clamp grants passes
      Resume's admission test exactly when the granted period is positive. A sensor known to the
      service but not to the manager is granted as asked, so it can fail. */
  lemma AdmittedIsAdmissibleIff(env: Env, d: Desc, pid: Int32, b: Batch)
    requires ParametersOk(env, d, b) && Granted(env.sensors, d, pid, b.period, b.delay)
    ensures var info := GetSensorInfo(env.sensors, d, b.period, b.delay);
            Admissible(d, Config(info)) <==> info.period > 0
  {
    var info := GetSensorInfo(env.sensors, d, b.period, b.delay);
    GrantShape(env, d, pid, b);
    hide GetSensorInfo, Granted;
    if info.period > 0 && info.delay > 0 {
      DivisionMonotone(info.delay, b.delay, info.period, b.period);
    } else if info.period > 0 {
      QuotNotPositive(info.delay, info.period);
    }
  }

  lemma QuotNotPositive(a: int, p: int)
    requires a <= 0 < p
    ensures Quot(a, p) <= 0
  {
  }

  /** A grant only slows down and shortens; a positive grant of a non-positive request has no delay. */
  lemma GrantShape(env: Env, d: Desc, pid: Int32, b: Batch)
    requires Granted(env.sensors, d, pid, b.period, b.delay)
    ensures var info := GetSensorInfo(env.sensors, d, b.period, b.delay);
            info.delay <= b.delay && info.period >= b.period && d.sensorType != INVALID_SENSOR_ID
            && (info.period > 0 && info.delay > 0 ==> b.period > 0)
  {
    if d in env.sensors {
      SupportFits(env.sensors[d].fifoMax, b.period);
      if b.period < 0 {
        NegativeNeedsNoFifo(env.sensors[d].fifoMax, b.period);
      }
    }
  }

  /** The condition of the suspend-resume round trip in a caller's terms: the granted period is
      positive and, for a sensor the manager knows, the FIFO's span at that period fits. */
  lemma AdmittedIsResumableIff(env: Env, d: Desc, pid: Int32, b: Batch)
    requires ParametersOk(env, d, b) && Granted(env.sensors, d, pid, b.period, b.delay)
    ensures var info := GetSensorInfo(env.sensors, d, b.period, b.delay);
            Resumable(env, d, Config(info))
            <==> info.period > 0 && (d in env.sensors ==> info.period * env.sensors[d].fifoMax <= INT64_MAX)
  {
    var info := GetSensorInfo(env.sensors, d, b.period, b.delay);
    AdmittedIsAdmissibleIff(env, d, pid, b);
    if d in env.sensors && info.period > 0 {
      ClampGrants(env.sensors, d, info.period, info.delay);
    }
  }

  /** A granted request the service will not take back: the sensor's minimal period stretches the
      FIFO's span beyond 64 bits. */
  lemma LongSpanIsRefused() returns (env: Env, d: Desc, b: Batch)
    ensures HdiOk(env) && ParametersOk(env, d, b) && !Freezing(d)
    ensures Granted(env.sensors, d, 1, b.period, b.delay)
    ensures !Resumable(env, d, Config(GetSensorInfo(env.sensors, d, b.period, b.delay)))
  {
    d, b := Desc(0, 1, 0, 1), Batch(1, 0);
    env := Env({d}, map[d := Sensor(0x4000_0000_0000_0000, 4)], (n: nat) => true);
    ClampGrants(env.sensors, d, 1, 0);
    AdmittedIsResumableIff(env, d, 1, b);
  }

  /** Another one: a sensor that only the service knows, asked for with period 0. */
  lemma UnclampedPeriodIsRefused() returns (env: Env, d: Desc, b: Batch)
    ensures HdiOk(env) && ParametersOk(env, d, b) && !Freezing(d)
    ensures Granted(env.sensors, d, 1, b.period, b.delay)
    ensures !Resumable(env, d, Config(GetSensorInfo(env.sensors, d, b.period, b.delay)))
  {
    d, b := Desc(0, 1, 0, 1), Batch(0, 0);
    env := Env({d}, map[], (n: nat) => true);
  }

  /** What becomes of such a request: enabled with success, it is gone after a suspend and resume,
      although no HDI call fails. */
  lemma RoundTripLosesRefused(env: Env, dev: Device, d: Desc, pid: Int32, b: Batch, order: seq<(Desc, Batch)>)
    requires HdiOk(env) && ParametersOk(env, d, b) && !Freezing(d) && Granted(env.sensors, d, pid, b.period, b.delay)
    requires !Resumable(env, d, Config(GetSensorInfo(env.sensors, d, b.period, b.delay)))
    requires var s := EnableStep(env, Sys(map[], map[], dev), d, pid, b, true).0;
             var s1 := SuspendSensorsStep(env, s, pid, [d]).0;
             pid in s1.saved && Enumerates(order, s1.saved[pid].Items)
    ensures var s := EnableStep(env, Sys(map[], map[], dev), d, pid, b, true);
            var s1 := SuspendSensorsStep(env, s.0, pid, [d]);
            var r := ResumeSensorsStep(env, s1.0, pid, order);
            s.1 == ErrOk && Has(s.0.clients, d, pid) && s1.1 == ErrOk && r.1 == ResumeErr && !Has(r.0.clients, d, pid)
  {
    var s0 := Sys(map[], map[], dev);
    var t := EnableStep(env, s0, d, pid, b, true);
    EnableKeeps(env, s0, d, pid, b, true);
    EnableEffect(env, s0, d, pid, b, true);
    var s := t.0;
    hide EnableStep, GetSensorInfo, Resumable, Inv, Best, Fixed;
    assert s.clients.Keys == {d} && s.clients[d].Keys == {pid};
    assert SensorsOf(s.clients, pid) == {d};
    hide SuspendSensorsStep, ResumeSensorsStep, Freezing;
    SuspendSaves(env, s, pid, [d]);
    RoundTripRestoresIff(env, s, pid, [d], order);
    RoundTrip(env, s, pid, [d], order, d);
    assert d in SensorsOf(s.clients, pid);
    ResumeCodes(env, SuspendSensorsStep(env, s, pid, [d]).0, pid, order);
  }

  lemma ResumeCodes(env: Env, s: Sys, pid: Int32, order: seq<(Desc, Batch)>)
    ensures var code := ResumeSensorsStep(env, s, pid, order).1; code == ErrOk || code == ResumeErr
  {
  }
}
