/** The entities of the subscription side: sensors, subscription records, the device. */
module SensorTypes {
  import opened ByteCodec

  const INVALID_SENSOR_ID: int := -1
  const INVALID_PID: int := -1
  const SENSOR_TYPE_ID_PEDOMETER_DETECTION: int := 265
  const SENSOR_TYPE_ID_PEDOMETER: int := 266
  const MAX_EVENT_COUNT: int := 1000
  const PROXIMITY_SENSOR_ID: int := 50331904
  const PROXIMITY_FAR: int := 5

  datatype Desc = Desc(deviceId: Int32, sensorType: Int32, sensorId: Int32, location: Int32)

  /** SensorBasicInfo: one pid's subscription to one sensor. */
  datatype Info = Info(period: Int64, delay: Int64, state: bool, perm: bool)

  /** What the service knows of a sensor; a FIFO capacity is not negative. */
  datatype Sensor = Sensor(minPeriod: Int64, fifoMax: Capacity)
  type Capacity = x: int | 0 <= x < 0x8000_0000

  /** A sampling period and a report delay, as SetBatch takes them. */
  datatype Batch = Batch(period: Int64, delay: Int64)

  /** The last event of a sensor: its first data element, and the rest of it. */
  datatype StoredEvent = StoredEvent(first: int, others: int)

  type PidMap = map<Int32, Info>
  type ClientMap = map<Desc, PidMap>
  type SavedMap = map<Int32, map<Desc, Batch>>

  /** The hardware behind the HDI: which sensors are on, and the last accepted batch of each.
      `calls` numbers the HDI calls made so far. */
  datatype Device = Device(on: set<Desc>, batch: map<Desc, Batch>, calls: nat)

  /** Whether the n-th HDI call succeeds. */
  type Oracle = nat -> bool

  datatype Code = ErrOk | ErrNoInit | PermissionDenied | ClientPidInvalidErr | UpdateSensorInfoErr
                | SetSensorConfigErr | EnableSensorErr | DisableSensorErr | SuspendErr | ResumeErr | ResetErr
                | UpdateUidErr | UpdateSensorChannelErr

  /** C++ integer division: truncates toward zero. */
  function Quot(a: int, b: int): (q: int)
    requires b != 0
  {
    if a >= 0 && b > 0 then a / b
    else if a < 0 && b > 0 then -((-a) / b)
    else if a >= 0 then -(a / (-b))
    else (-a) / (-b)
  }

  /** CheckFreezingSensor: pedometers are never suspended. */
  predicate Freezing(d: Desc) {
    d.sensorType == SENSOR_TYPE_ID_PEDOMETER_DETECTION || d.sensorType == SENSOR_TYPE_ID_PEDOMETER
  }

  function Least(a: int, b: int): (m: int) {
    if a < b then a else b
  }

  /** The smallest sampling period in a pid map, INT64_MAX when there is none. */
  ghost function LeastPeriod(m: PidMap): (p: Int64)
    ensures forall q <- m :: p <= m[q].period
    ensures p == INT64_MAX || exists q <- m :: p == m[q].period
    decreases |m|
  {
    if m == map[] then INT64_MAX
    else
      var k :| k in m;
      var others := m - {k};
      assert |others| < |m| by { assert others.Keys == m.Keys - {k}; assert |others.Keys| == |m.Keys| - 1; }
      assert forall q <- m :: q == k || (q in others && others[q] == m[q]);
      Least(m[k].period, LeastPeriod(others))
  }

  ghost function LeastDelay(m: PidMap): (p: Int64)
    ensures forall q <- m :: p <= m[q].delay
    ensures p == INT64_MAX || exists q <- m :: p == m[q].delay
    decreases |m|
  {
    if m == map[] then INT64_MAX
    else
      var k :| k in m;
      var others := m - {k};
      assert |others| < |m| by { assert others.Keys == m.Keys - {k}; assert |others.Keys| == |m.Keys| - 1; }
      assert forall q <- m :: q == k || (q in others && others[q] == m[q]);
      Least(m[k].delay, LeastDelay(others))
  }

  /** The minimum is determined by its two properties. */
  lemma LeastUnique(m: PidMap, p: Int64, r: Int64)
    requires forall q <- m :: p <= m[q].period && r <= m[q].delay
    requires p == INT64_MAX || exists q <- m :: p == m[q].period
    requires r == INT64_MAX || exists q <- m :: r == m[q].delay
    ensures LeastPeriod(m) == p && LeastDelay(m) == r
  {
  }

  /** An order in which a loop visits the elements of a set: each once. */
  ghost predicate Enumerates<T(!new)>(order: seq<T>, elements: set<T>) {
    (forall x :: x in order <==> x in elements) && forall i, j :: 0 <= i < j < |order| ==> order[i] != order[j]
  }
}
