/** SensorManager and the HDI device below it: clamping a request, and keeping the hardware
    batch at the fastest request. Functions state each operation's effect on the client map
    and the device; the classes carry it out. */
module SensorManagers {
  import opened ByteCodec
  import opened SensorTypes
  import opened ClientInfos

  /** GetSensorInfo: the request as granted. Rejected requests have `state` false. Every result
      is an int64, so no step overflows. */
  function GetSensorInfo(sensors: map<Desc, Sensor>, d: Desc, period: Int64, delay: Int64): (info: Info)
    ensures info.perm
  {
    if d !in sensors then Info(period, delay, true, true)
    else
      var sensor := sensors[d];
      var cur := if period < sensor.minPeriod then sensor.minPeriod else period;
      if period == 0 || sensor.fifoMax > Quot(INT64_MAX, period) then Info(0, 0, false, true)
      else
        SupportFits(sensor.fifoMax, period);
        var support: Int64 := period * sensor.fifoMax;
        Info(cur, if delay > support then support else delay, true, true)
  }

  /** The guard makes the product fit: for a negative period only a zero capacity passes. */
  lemma SupportFits(fifoMax: Capacity, period: Int64)
    requires period != 0 && fifoMax <= Quot(INT64_MAX, period)
    ensures 0 <= period * fifoMax <= INT64_MAX
  {
    if period > 0 {
      DivisionBound(period, fifoMax);
    } else {
      assert Quot(INT64_MAX, period) == -(INT64_MAX / -(period as int)) <= 0;
    }
  }

  lemma DivisionBound(p: int, n: int)
    requires p > 0 && 0 <= n <= INT64_MAX / p
    ensures 0 <= p * n <= INT64_MAX
  {
    var q := INT64_MAX / p;
    assert p * q <= INT64_MAX;
    assert p * n <= p * q;
  }

  function Granted(sensors: map<Desc, Sensor>, d: Desc, pid: Int32, period: Int64, delay: Int64): (ok: bool) {
    Acceptable(d, pid, GetSensorInfo(sensors, d, period, delay))
  }

  function SaveRecord(cm: ClientMap, sensors: map<Desc, Sensor>, d: Desc, pid: Int32, period: Int64, delay: Int64)
    : (r: ClientMap)
  {
    if Granted(sensors, d, pid, period, delay) then Put(cm, d, pid, GetSensorInfo(sensors, d, period, delay)) else cm
  }

  /** The device after an HDI call; a failed call leaves it unchanged. */
  function AfterSetBatch(dev: Device, hdi: Oracle, d: Desc, b: Batch): (r: Device) {
    if hdi(dev.calls) then dev.(batch := dev.batch[d := b], calls := dev.calls + 1) else dev.(calls := dev.calls + 1)
  }

  function AfterEnable(dev: Device, hdi: Oracle, d: Desc): (r: Device) {
    if hdi(dev.calls) then dev.(on := dev.on + {d}, calls := dev.calls + 1) else dev.(calls := dev.calls + 1)
  }

  function AfterDisable(dev: Device, hdi: Oracle, d: Desc): (r: Device) {
    if hdi(dev.calls) then dev.(on := dev.on - {d}, calls := dev.calls + 1) else dev.(calls := dev.calls + 1)
  }

  /** SetBestSensorParams does not touch the device: the request is slower in both respects. */
  ghost predicate Skips(cm: ClientMap, d: Desc, b: Batch) {
    b.period > Best(cm, d).period && b.delay > Best(cm, d).delay
  }

  /** SetBestSensorParams: whether it succeeds, and the device after it. */
  ghost function SetBest(cm: ClientMap, dev: Device, hdi: Oracle, d: Desc, b: Batch): (r: (Device, bool)) {
    if d.sensorType == INVALID_SENSOR_ID then (dev, false)
    else if Skips(cm, d, b) then (dev, true)
    else
      var best := Best(cm, d);
      (AfterSetBatch(dev, hdi, d, Batch(Least(b.period, best.period), Least(b.delay, best.delay))), hdi(dev.calls))
  }

  /** IsOtherClientUsingSensor: unless `pid` is the only user, its record goes and the hardware
      is reset to what the others need, whether or not that call succeeds. */
  ghost function Yield(cm: ClientMap, dev: Device, hdi: Oracle, d: Desc, pid: Int32): (r: (ClientMap, Device, bool)) {
    if OnlyUser(cm, d, pid) then (cm, dev, false)
    else
      var rest := ClearPid(cm, d, pid);
      (rest, if d.sensorType == INVALID_SENSOR_ID then dev else AfterSetBatch(dev, hdi, d, Best(rest, d)), true)
  }

  /** The stored events once `d` is switched off: a listed proximity sensor then says "far". */
  function FarStored(events: map<Desc, StoredEvent>, d: Desc, listed: bool): (r: map<Desc, StoredEvent>)
    ensures forall e <- events :: e in r && (r[e] != events[e] ==> e == d)
    ensures r.Keys == events.Keys
    ensures d in events ==> r[d].others == events[d].others
    ensures d in events && d.sensorType == PROXIMITY_SENSOR_ID && listed ==> r[d].first == PROXIMITY_FAR
    ensures d in events && !(d.sensorType == PROXIMITY_SENSOR_ID && listed) ==> r[d] == events[d]
  {
    if d.sensorType == PROXIMITY_SENSOR_ID && d in events && listed
    then events[d := events[d].(first := PROXIMITY_FAR)] else events
  }

  class SensorHdi {
    var device: Device
    const outcome: Oracle
    /** What GetSensorList answers: a sensor is listed whatever its location; a failing query lists none. */
    var listed: set<(Int32, Int32, Int32)>

    constructor (initial: Device, answers: Oracle, sensors: set<(Int32, Int32, Int32)>)
      ensures device == initial && outcome == answers && listed == sensors
    {
      device, outcome, listed := initial, answers, sensors;
    }

    predicate Lists(d: Desc)
      reads this`listed
    {
      (d.deviceId, d.sensorType, d.sensorId) in listed
    }

    method SetBatch(d: Desc, b: Batch) returns (ok: bool)
      modifies this`device
      ensures device == AfterSetBatch(old(device), outcome, d, b) && ok == outcome(old(device.calls))
    {
      ok := outcome(device.calls);
      if ok {
        device := device.(batch := device.batch[d := b]);
      }
      device := device.(calls := device.calls + 1);
    }

    method EnableSensor(d: Desc) returns (ok: bool)
      modifies this`device
      ensures device == AfterEnable(old(device), outcome, d) && ok == outcome(old(device.calls))
    {
      ok := outcome(device.calls);
      if ok {
        device := device.(on := device.on + {d});
      }
      device := device.(calls := device.calls + 1);
    }

    method DisableSensor(d: Desc) returns (ok: bool)
      modifies this`device
      ensures device == AfterDisable(old(device), outcome, d) && ok == outcome(old(device.calls))
    {
      ok := outcome(device.calls);
      if ok {
        device := device.(on := device.on - {d});
      }
      device := device.(calls := device.calls + 1);
    }
  }

  class SensorManager {
    const clientInfo: ClientInfo
    const hdi: SensorHdi
    const sensorMap: map<Desc, Sensor>

    constructor (clients: ClientInfo, connection: SensorHdi, sensors: map<Desc, Sensor>)
      ensures clientInfo == clients && hdi == connection && sensorMap == sensors
    {
      clientInfo, hdi, sensorMap := clients, connection, sensors;
    }

    method SaveSubscriber(d: Desc, pid: Int32, period: Int64, delay: Int64) returns (ok: bool)
      modifies clientInfo`clientMap
      ensures ok == Granted(sensorMap, d, pid, period, delay)
      ensures clientInfo.clientMap == SaveRecord(old(clientInfo.clientMap), sensorMap, d, pid, period, delay)
    {
      var info := GetSensorInfo(sensorMap, d, period, delay);
      ok := clientInfo.UpdateSensorInfo(d, pid, info);
    }

    method SetBestSensorParams(d: Desc, b: Batch) returns (ok: bool)
      modifies hdi`device
      ensures (hdi.device, ok) == SetBest(clientInfo.clientMap, old(hdi.device), hdi.outcome, d, b)
    {
      if d.sensorType == INVALID_SENSOR_ID {
        return false;
      }
      var best := clientInfo.GetBestSensorInfo(d);
      if b.period > best.period && b.delay > best.delay {
        return true;
      }
      var bestSamplingPeriodNs := if b.period < best.period then b.period else best.period;
      var bestReportDelayNs := if b.delay < best.delay then b.delay else best.delay;
      ok := hdi.SetBatch(d, Batch(bestSamplingPeriodNs, bestReportDelayNs));
    }

    method ResetBestSensorParams(d: Desc) returns (ok: bool)
      modifies hdi`device
      ensures d.sensorType == INVALID_SENSOR_ID ==> hdi.device == old(hdi.device) && !ok
      ensures d.sensorType != INVALID_SENSOR_ID ==>
                hdi.device == AfterSetBatch(old(hdi.device), hdi.outcome, d, Best(clientInfo.clientMap, d))
                && ok == hdi.outcome(old(hdi.device.calls))
    {
      if d.sensorType == INVALID_SENSOR_ID {
        return false;
      }
      var best := clientInfo.GetBestSensorInfo(d);
      ok := hdi.SetBatch(d, best);
    }

    method IsOtherClientUsingSensor(d: Desc, pid: Int32) returns (other: bool)
      modifies clientInfo`clientMap, hdi`device
      ensures (clientInfo.clientMap, hdi.device, other)
           == Yield(old(clientInfo.clientMap), old(hdi.device), hdi.outcome, d, pid)
    {
      var only := clientInfo.OnlyCurPidSensorEnabled(d, pid);
      if only {
        return false;
      }
      clientInfo.ClearCurPidSensorInfo(d, pid);
      var ok := ResetBestSensorParams(d);
      other := true;
    }

    /** The sensor's whole entry goes; a proximity sensor's stored event, if the HDI still lists
        the sensor, now says "far". */
    method AfterDisableSensor(d: Desc)
      modifies clientInfo`clientMap, clientInfo`storedEvent
      ensures clientInfo.clientMap == ClearSensor(old(clientInfo.clientMap), d)
      ensures clientInfo.storedEvent == FarStored(old(clientInfo.storedEvent), d, hdi.Lists(d))
    {
      clientInfo.ClearSensorInfo(d);
      if d.sensorType == PROXIMITY_SENSOR_ID && d in clientInfo.storedEvent {
        var sensorData := clientInfo.storedEvent[d];
        clientInfo.StoreEvent(d, sensorData.(first := PROXIMITY_FAR), hdi.Lists(d));
      }
    }
  }
}
