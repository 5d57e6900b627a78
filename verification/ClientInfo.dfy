/** ClientInfo: who subscribes to which sensor, through which channel. */
module ClientInfos {
  import opened ByteCodec
  import opened SensorTypes

  /** The subscriptions to one sensor; a missing entry is an empty one. */
  function Subs(cm: ClientMap, d: Desc): (m: PidMap) {
    if d in cm then cm[d] else map[]
  }

  predicate Has(cm: ClientMap, d: Desc, pid: Int32) {
    pid in Subs(cm, d)
  }

  ghost predicate AnyActive(m: PidMap) {
    exists q <- m :: m[q].state
  }

  ghost predicate Enabled(cm: ClientMap, d: Desc) {
    d.sensorType != INVALID_SENSOR_ID && AnyActive(Subs(cm, d))
  }

  /** The fastest rate and the shortest delay any subscriber asked for. */
  ghost function Best(cm: ClientMap, d: Desc): (b: Batch) {
    if d.sensorType == INVALID_SENSOR_ID then Batch(INT64_MAX, INT64_MAX)
    else Batch(LeastPeriod(Subs(cm, d)), LeastDelay(Subs(cm, d)))
  }

  /** Somebody has the sensor enabled, and nobody but `pid` does. */
  ghost predicate OnlyUser(cm: ClientMap, d: Desc, pid: Int32) {
    var m := Subs(cm, d);
    pid > INVALID_PID && Enabled(cm, d) && forall q <- m :: m[q].state ==> q == pid
  }

  function Current(cm: ClientMap, d: Desc, pid: Int32): (b: Batch) {
    if d.sensorType == INVALID_SENSOR_ID || pid <= INVALID_PID || !Has(cm, d, pid) then Batch(INT64_MAX, INT64_MAX)
    else Batch(cm[d][pid].period, cm[d][pid].delay)
  }

  predicate Acceptable(d: Desc, pid: Int32, info: Info) {
    d.sensorType != INVALID_SENSOR_ID && pid > INVALID_PID && info.state
  }

  function Put(cm: ClientMap, d: Desc, pid: Int32, info: Info): (r: ClientMap) {
    cm[d := Subs(cm, d)[pid := info]]
  }

  /** RemoveSubscriber: an entry that becomes empty stays. */
  function Remove(cm: ClientMap, d: Desc, pid: Int32): (r: ClientMap) {
    if Has(cm, d, pid) then cm[d := cm[d] - {pid}] else cm
  }

  /** ClearCurPidSensorInfo: an entry that becomes empty goes. */
  function ClearPid(cm: ClientMap, d: Desc, pid: Int32): (r: ClientMap) {
    if d.sensorType == INVALID_SENSOR_ID || pid <= INVALID_PID || !Has(cm, d, pid) then cm
    else if cm[d] - {pid} == map[] then cm - {d}
    else cm[d := cm[d] - {pid}]
  }

  function ClearSensor(cm: ClientMap, d: Desc): (r: ClientMap) {
    if d.sensorType == INVALID_SENSOR_ID then cm else cm - {d}
  }

  /** DestroySensorChannel's sweep: every record of `pid` goes, emptied entries with it. */
  function ClearClient(cm: ClientMap, pid: Int32): (r: ClientMap) {
    map d | d in cm && (pid in cm[d] ==> cm[d] - {pid} != map[]) :: cm[d] - {pid}
  }

  function SensorsOf(cm: ClientMap, pid: Int32): (s: set<Desc>) {
    set d | d in cm && pid in cm[d]
  }

  /** UpdatePermState. */
  function SetPerm(cm: ClientMap, pid: Int32, sensorType: int, state: bool): (r: ClientMap) {
    map d | d in cm :: if d.sensorType == sensorType then Permit(cm[d], pid, state) else cm[d]
  }

  function Permit(m: PidMap, pid: Int32, state: bool): (r: PidMap) {
    if pid in m then m[pid := m[pid].(perm := state)] else m
  }

  /** `pid` owns the channel, or nobody does and `pid` is the default. */
  ghost predicate OwnsOr(channels: map<Int32, nat>, channel: nat, pid: Int32, default: Int32) {
    if exists q <- channels :: channels[q] == channel then pid in channels && channels[pid] == channel
    else pid == default
  }

  ghost function PeriodCount(cm: ClientMap, d: Desc, pid: Int32): (n: nat) {
    var best, cur := Best(cm, d).period, Current(cm, d, pid).period;
    if d.sensorType == INVALID_SENSOR_ID || best == 0 || Quot(cur, best) <= 0 then 0 else Quot(cur, best)
  }

  function FifoCount(cm: ClientMap, d: Desc, pid: Int32): (n: nat) {
    var cur := Current(cm, d, pid);
    if d.sensorType == INVALID_SENSOR_ID || cur.period == 0 || Quot(cur.delay, cur.period) <= 0 then 0
    else Quot(cur.delay, cur.period)
  }

  /** A subscriber is served every P-th hardware event, P the quotient of its period and the
      fastest one: at least 1, and within one hardware period of the request. Nobody is served at
      a hardware period that is not positive, but a subscriber that set a negative one. */
  lemma PeriodCountBrackets(cm: ClientMap, d: Desc, pid: Int32)
    requires d.sensorType != INVALID_SENSOR_ID && pid > INVALID_PID && Has(cm, d, pid)
    ensures var P, best: int, cur: int := PeriodCount(cm, d, pid), LeastPeriod(cm[d]), cm[d][pid].period;
            best <= cur
            && (best > 0 ==> P >= 1 && P * best <= cur < (P + 1) * best)
            && (best == 0 ==> P == 0)
            && (best < 0 ==> P == if cur == best then 1 else 0)
  {
    var best: int, cur: int, P := LeastPeriod(cm[d]), cm[d][pid].period, PeriodCount(cm, d, pid);
    CountBrackets(cur, best, P);
    hide Quot, LeastPeriod;
    if best < 0 && cur <= 0 {
      AtMostOnce(P, -best, -cur);
    }
  }

  /** Batches have the size the request implies: the delay counted in periods. */
  lemma FifoCountBrackets(cm: ClientMap, d: Desc, pid: Int32)
    requires d.sensorType != INVALID_SENSOR_ID && pid > INVALID_PID && Has(cm, d, pid)
    ensures var n: int, period: int, delay: int := FifoCount(cm, d, pid), cm[d][pid].period, cm[d][pid].delay;
            (period > 0 && delay >= 0 ==> n * period <= delay < (n + 1) * period)
            && (period < 0 && delay <= 0 ==> n * -period <= -delay < (n + 1) * -period)
            && (period == 0 || (period > 0 && delay < 0) || (period < 0 && delay > 0) ==> n == 0)
  {
    CountBrackets(cm[d][pid].delay, cm[d][pid].period, FifoCount(cm, d, pid));
  }

  /** Whoever has no record counts as one with the longest period and delay. */
  lemma CountsWithoutRecord(cm: ClientMap, d: Desc, pid: Int32)
    requires pid <= INVALID_PID || !Has(cm, d, pid)
    ensures FifoCount(cm, d, pid) == if d.sensorType == INVALID_SENSOR_ID then 0 else 1
    ensures d.sensorType == INVALID_SENSOR_ID || LeastPeriod(Subs(cm, d)) <= 0 ==> PeriodCount(cm, d, pid) == 0
  {
    var best: int := LeastPeriod(Subs(cm, d));
    if best < 0 {
      assert Quot(INT64_MAX, best) <= 0;
    }
  }

  /** A quotient as both counts take it: truncated, 0 where it is not positive. */
  lemma CountBrackets(a: int, b: int, n: int)
    requires n == if b == 0 || Quot(a, b) <= 0 then 0 else Quot(a, b)
    ensures b > 0 && a >= 0 ==> n * b <= a < (n + 1) * b
    ensures b < 0 && a <= 0 ==> n * -b <= -a < (n + 1) * -b
    ensures b == 0 || (b > 0 && a < 0) || (b < 0 && a > 0) ==> n == 0
  {
    if b > 0 && a >= 0 {
      QuotientFloor(a, b);
    } else if b < 0 && a <= 0 {
      QuotientFloor(-a, -b);
    }
  }

  lemma QuotientFloor(a: int, b: int)
    requires a >= 0 && b > 0
    ensures a / b >= 0 && (a / b) * b <= a < (a / b + 1) * b
  {
    var q := a / b;
    assert a == q * b + a % b;
    assert (q + 1) * b == q * b + b;
  }

  lemma AtMostOnce(n: nat, b: int, a: int)
    requires 0 <= a <= b && b > 0 && n * b <= a < (n + 1) * b
    ensures n == if a == b then 1 else 0
  {
    assert n >= 2 ==> n * b >= 2 * b;
  }

  /** A permission change sets the permission of the pid's records of that type, and nothing else. */
  lemma SetPermIs(cm: ClientMap, pid: Int32, sensorType: int, state: bool, d: Desc, q: Int32)
    ensures Has(SetPerm(cm, pid, sensorType, state), d, q) <==> Has(cm, d, q)
    ensures Has(cm, d, q) ==>
              SetPerm(cm, pid, sensorType, state)[d][q]
              == if q == pid && d.sensorType == sensorType then cm[d][q].(perm := state) else cm[d][q]
    ensures SetPerm(cm, pid, sensorType, state).Keys == cm.Keys
  {
  }

  lemma ClearClientStep(cm: ClientMap, d: Desc, pid: Int32)
    requires Has(cm, d, pid)
    ensures var m := cm[d] - {pid};
            ClearClient(if m == map[] then cm - {d} else cm[d := m], pid) == ClearClient(cm, pid)
  {
    var m := cm[d] - {pid};
    assert m - {pid} == m;
    var r := if m == map[] then cm - {d} else cm[d := m];
    assert ClearClient(r, pid).Keys == ClearClient(cm, pid).Keys;
  }

  lemma ClearClientDone(cm: ClientMap, pid: Int32)
    requires forall d <- cm :: pid !in cm[d]
    ensures ClearClient(cm, pid) == cm
  {
    assert forall d <- cm :: cm[d] - {pid} == cm[d];
  }

  lemma SetPermStep(cm: ClientMap, d: Desc, pid: Int32, state: bool)
    requires d in cm
    ensures SetPerm(cm[d := Permit(cm[d], pid, state)], pid, d.sensorType, state)
            == SetPerm(cm, pid, d.sensorType, state)
  {
    var m := Permit(cm[d], pid, state);
    assert Permit(m, pid, state) == m;
  }

  lemma SetPermDone(cm: ClientMap, pid: Int32, sensorType: int, state: bool)
    requires forall d <- cm :: d.sensorType == sensorType && pid in cm[d] ==> cm[d][pid].perm == state
    ensures SetPerm(cm, pid, sensorType, state) == cm
  {
    forall d <- cm ensures SetPerm(cm, pid, sensorType, state)[d] == cm[d] {
      if d.sensorType == sensorType && pid in cm[d] {
        assert cm[d][pid := cm[d][pid].(perm := state)] == cm[d];
      }
    }
  }

  const MAX_SUPPORT_CHANNEL: nat := 200
  const INVALID_UID: int := -1

  datatype AppThread = AppThread(uid: int, token: nat)

  class ClientInfo {
    var clientMap: ClientMap
    var channelMap: map<Int32, nat>
    var appThreadInfoMap: map<Int32, AppThread>
    var clientPidMap: map<nat, Int32>
    var activeInfoCBPidSet: set<Int32>
    var storedEvent: map<Desc, StoredEvent>

    constructor ()
      ensures clientMap == map[] && channelMap == map[] && appThreadInfoMap == map[]
      ensures clientPidMap == map[] && activeInfoCBPidSet == {} && storedEvent == map[]
    {
      clientMap, channelMap, appThreadInfoMap, clientPidMap := map[], map[], map[], map[];
      activeInfoCBPidSet, storedEvent := {}, map[];
    }

    method GetSensorState(d: Desc) returns (r: bool)
      ensures r <==> Enabled(clientMap, d)
    {
      if d.sensorType == INVALID_SENSOR_ID || d !in clientMap {
        return false;
      }
      var m := clientMap[d];
      var pids := m.Keys;
      while pids != {}
        invariant pids <= m.Keys
        invariant forall q <- m :: q !in pids ==> !m[q].state
        decreases |pids|
      {
        var q :| q in pids;
        if m[q].state {
          return true;
        }
        pids := pids - {q};
      }
      r := false;
    }

    method GetBestSensorInfo(d: Desc) returns (b: Batch)
      ensures b == Best(clientMap, d)
    {
      var minSamplingPeriodNs: Int64, minReportDelayNs: Int64 := INT64_MAX, INT64_MAX;
      if d.sensorType == INVALID_SENSOR_ID {
        return Batch(minSamplingPeriodNs, minReportDelayNs);
      }
      if d !in clientMap {
        LeastUnique(map[], INT64_MAX, INT64_MAX);
        return Batch(minSamplingPeriodNs, minReportDelayNs);
      }
      var m := clientMap[d];
      var pids := m.Keys;
      while pids != {}
        invariant pids <= m.Keys
        invariant forall q <- m :: q !in pids ==> minSamplingPeriodNs <= m[q].period && minReportDelayNs <= m[q].delay
        invariant minSamplingPeriodNs == INT64_MAX || exists q <- m :: minSamplingPeriodNs == m[q].period
        invariant minReportDelayNs == INT64_MAX || exists q <- m :: minReportDelayNs == m[q].delay
        decreases |pids|
      {
        var q :| q in pids;
        minSamplingPeriodNs := if m[q].period < minSamplingPeriodNs then m[q].period else minSamplingPeriodNs;
        minReportDelayNs := if m[q].delay < minReportDelayNs then m[q].delay else minReportDelayNs;
        pids := pids - {q};
      }
      LeastUnique(m, minSamplingPeriodNs, minReportDelayNs);
      b := Batch(minSamplingPeriodNs, minReportDelayNs);
    }

    method OnlyCurPidSensorEnabled(d: Desc, pid: Int32) returns (r: bool)
      ensures r <==> OnlyUser(clientMap, d, pid)
    {
      if d.sensorType == INVALID_SENSOR_ID || pid <= INVALID_PID || d !in clientMap {
        return false;
      }
      var m := clientMap[d];
      var pids := m.Keys;
      r := false;
      while pids != {}
        invariant pids <= m.Keys
        invariant forall q <- m :: q !in pids && m[q].state ==> q == pid
        invariant r <==> exists q <- m :: q !in pids && m[q].state
        decreases |pids|
      {
        var q :| q in pids;
        pids := pids - {q};
        if !m[q].state {
          continue;
        }
        if q != pid {
          return false;
        }
        r := true;
      }
    }

    method UpdateSensorInfo(d: Desc, pid: Int32, info: Info) returns (ok: bool)
      modifies this`clientMap
      ensures ok <==> Acceptable(d, pid, info)
      ensures clientMap == if ok then Put(old(clientMap), d, pid, info) else old(clientMap)
    {
      if d.sensorType == INVALID_SENSOR_ID || pid <= INVALID_PID || !info.state {
        return false;
      }
      if d !in clientMap {
        clientMap := clientMap[d := map[pid := info]];
      } else {
        var pidMap: PidMap := clientMap[d];
        clientMap := clientMap[d := pidMap[pid := info]];
      }
      ok := true;
    }

    method RemoveSubscriber(d: Desc, pid: Int32)
      modifies this`clientMap
      ensures clientMap == Remove(old(clientMap), d, pid)
    {
      if d in clientMap && pid in clientMap[d] {
        clientMap := clientMap[d := clientMap[d] - {pid}];
      }
    }

    method ClearSensorInfo(d: Desc)
      modifies this`clientMap
      ensures clientMap == ClearSensor(old(clientMap), d)
    {
      if d.sensorType == INVALID_SENSOR_ID {
        return;
      }
      clientMap := clientMap - {d};
    }

    method ClearCurPidSensorInfo(d: Desc, pid: Int32)
      modifies this`clientMap
      ensures clientMap == ClearPid(old(clientMap), d, pid)
    {
      if d.sensorType == INVALID_SENSOR_ID || pid <= INVALID_PID {
        return;
      }
      if d !in clientMap || pid !in clientMap[d] {
        return;
      }
      clientMap := clientMap[d := clientMap[d] - {pid}];
      if clientMap[d] == map[] {
        clientMap := clientMap - {d};
      }
    }

    function GetCurPidSensorInfo(d: Desc, pid: Int32): (b: Batch)
      reads this
      ensures b == Current(clientMap, d, pid)
    {
      if d.sensorType == INVALID_SENSOR_ID || pid <= INVALID_PID then Batch(INT64_MAX, INT64_MAX)
      else if d !in clientMap || pid !in clientMap[d] then Batch(INT64_MAX, INT64_MAX)
      else Batch(clientMap[d][pid].period, clientMap[d][pid].delay)
    }

    method GetSensorIdByPid(pid: Int32) returns (list: seq<Desc>)
      ensures Enumerates(list, SensorsOf(clientMap, pid))
    {
      list := [];
      var descs := clientMap.Keys;
      while descs != {}
        invariant descs <= clientMap.Keys
        invariant forall d :: d in list <==> d in SensorsOf(clientMap, pid) && d !in descs
        invariant forall i, j :: 0 <= i < j < |list| ==> list[i] != list[j]
        decreases |descs|
      {
        var d :| d in descs;
        descs := descs - {d};
        if pid in clientMap[d] {
          list := list + [d];
        }
      }
    }

    /** Sweeps the client's records, its app-thread entry and its channel. */
    method DestroySensorChannel(pid: Int32) returns (ok: bool)
      modifies this`clientMap, this`appThreadInfoMap, this`channelMap
      ensures ok <==> pid > INVALID_PID
      ensures clientMap == if ok then ClearClient(old(clientMap), pid) else old(clientMap)
      ensures appThreadInfoMap == if ok then old(appThreadInfoMap) - {pid} else old(appThreadInfoMap)
      ensures channelMap == if ok then old(channelMap) - {pid} else old(channelMap)
    {
      if pid <= INVALID_PID {
        return false;
      }
      var descs := clientMap.Keys;
      while descs != {}
        modifies this`clientMap
        invariant descs <= clientMap.Keys
        invariant ClearClient(clientMap, pid) == ClearClient(old(clientMap), pid)
        invariant forall d <- clientMap :: d !in descs ==> pid !in clientMap[d]
        decreases |descs|
      {
        var d :| d in descs;
        descs := descs - {d};
        var pidMap: PidMap := clientMap[d];
        if pid !in pidMap {
          continue;
        }
        ClearClientStep(clientMap, d, pid);
        pidMap := pidMap - {pid};
        clientMap := clientMap[d := pidMap];
        if pidMap != map[] {
          continue;
        }
        clientMap := clientMap - {d};
      }
      ClearClientDone(clientMap, pid);
      appThreadInfoMap := appThreadInfoMap - {pid};
      channelMap := channelMap - {pid};
      ok := true;
    }

    /** UpdateAppThreadInfo: a new pid is refused when the table is full. */
    method UpdateAppThreadInfo(pid: Int32, app: AppThread) returns (ok: bool)
      modifies this`appThreadInfoMap
      ensures ok <==> app.uid != INVALID_UID && pid > INVALID_PID
                      && (pid in old(appThreadInfoMap) || |old(appThreadInfoMap)| != MAX_SUPPORT_CHANNEL)
      ensures appThreadInfoMap == if ok then old(appThreadInfoMap)[pid := app] else old(appThreadInfoMap)
    {
      if app.uid == INVALID_UID || pid <= INVALID_PID {
        return false;
      }
      if pid !in appThreadInfoMap && |appThreadInfoMap| == MAX_SUPPORT_CHANNEL {
        return false;
      }
      appThreadInfoMap := appThreadInfoMap[pid := app];
      ok := true;
    }

    method UpdateSensorChannel(pid: Int32, channel: nat) returns (ok: bool)
      modifies this`channelMap
      ensures ok <==> pid > INVALID_PID && (pid in old(channelMap) || |old(channelMap)| != MAX_SUPPORT_CHANNEL)
      ensures channelMap == if ok then old(channelMap)[pid := channel] else old(channelMap)
    {
      if pid <= INVALID_PID {
        return false;
      }
      if pid !in channelMap && |channelMap| == MAX_SUPPORT_CHANNEL {
        return false;
      }
      channelMap := channelMap[pid := channel];
      ok := true;
    }

    method SaveClientPid(client: nat, pid: Int32) returns (ok: bool)
      modifies this`clientPidMap
      ensures ok <==> client in old(clientPidMap) || |old(clientPidMap)| < MAX_SUPPORT_CHANNEL
      ensures clientPidMap == if ok then old(clientPidMap)[client := pid] else old(clientPidMap)
    {
      if client !in clientPidMap && |clientPidMap| >= MAX_SUPPORT_CHANNEL {
        return false;
      }
      clientPidMap := clientPidMap[client := pid];
      ok := true;
    }

    function FindClientPid(client: nat): (pid: Int32)
      reads this
    {
      if client in clientPidMap then clientPidMap[client] else INVALID_PID
    }

    method DestroyClientPid(client: nat)
      modifies this`clientPidMap
      ensures clientPidMap == old(clientPidMap) - {client}
    {
      clientPidMap := clientPidMap - {client};
    }

    method AddActiveInfoCBPid(pid: Int32) returns (ok: bool)
      modifies this`activeInfoCBPidSet
      ensures ok <==> pid !in old(activeInfoCBPidSet)
      ensures activeInfoCBPidSet == old(activeInfoCBPidSet) + {pid}
    {
      ok := pid !in activeInfoCBPidSet;
      activeInfoCBPidSet := activeInfoCBPidSet + {pid};
    }

    method DelActiveInfoCBPid(pid: Int32) returns (ok: bool)
      modifies this`activeInfoCBPidSet
      ensures ok <==> pid in old(activeInfoCBPidSet)
      ensures activeInfoCBPidSet == old(activeInfoCBPidSet) - {pid}
    {
      ok := pid in activeInfoCBPidSet;
      activeInfoCBPidSet := activeInfoCBPidSet - {pid};
    }

    /** True when nothing of the service needs the pid any more. */
    predicate CallingService(pid: Int32)
      reads this
    {
      pid !in channelMap && pid !in activeInfoCBPidSet
    }

    /** StoreEvent keeps the event of a sensor that the HDI lists. */
    method StoreEvent(d: Desc, e: StoredEvent, listed: bool)
      modifies this`storedEvent
      ensures storedEvent == if listed then old(storedEvent)[d := e] else old(storedEvent)
    {
      if listed {
        storedEvent := storedEvent[d := e];
      }
    }

    /** The pid a channel belongs to, by a scan of the channel map; the last match wins. */
    method FindChannelPid(channel: nat, notFound: Int32) returns (pid: Int32)
      ensures if exists q <- channelMap :: channelMap[q] == channel
              then pid in channelMap && channelMap[pid] == channel else pid == notFound
    {
      pid := notFound;
      var left := channelMap.Keys;
      while left != {}
        invariant left <= channelMap.Keys
        invariant if exists q <- channelMap :: q !in left && channelMap[q] == channel
                  then pid in channelMap && channelMap[pid] == channel else pid == notFound
        decreases |left|
      {
        var q :| q in left;
        left := left - {q};
        if channelMap[q] == channel {
          pid := q;
        }
      }
    }

    /** How many hardware periods make one of the channel's: 0 when there is no telling. */
    method ComputeBestPeriodCount(d: Desc, channel: nat) returns (count: nat)
      ensures exists owner: Int32 ::
                OwnsOr(channelMap, channel, owner, INVALID_PID) && count == PeriodCount(clientMap, d, owner)
    {
      var pid := FindChannelPid(channel, INVALID_PID);
      assert OwnsOr(channelMap, channel, pid, INVALID_PID);
      if d.sensorType == INVALID_SENSOR_ID {
        return 0;
      }
      var best := GetBestSensorInfo(d);
      var cur := GetCurPidSensorInfo(d, pid);
      if best.period == 0 {
        return 0;
      }
      var ret := Quot(cur.period, best.period);
      count := if ret <= 0 then 0 else ret;
    }

    method ComputeBestFifoCount(d: Desc, channel: nat) returns (count: nat)
      ensures exists owner: Int32 ::
                OwnsOr(channelMap, channel, owner, INVALID_PID) && count == FifoCount(clientMap, d, owner)
    {
      var pid := FindChannelPid(channel, INVALID_PID);
      assert OwnsOr(channelMap, channel, pid, INVALID_PID);
      if d.sensorType == INVALID_SENSOR_ID {
        return 0;
      }
      var cur := GetCurPidSensorInfo(d, pid);
      if cur.period == 0 {
        return 0;
      }
      var ret := Quot(cur.delay, cur.period);
      count := if ret <= 0 then 0 else ret;
    }

    method UpdatePermState(pid: Int32, sensorType: int, state: bool)
      modifies this`clientMap
      ensures clientMap == SetPerm(old(clientMap), pid, sensorType, state)
    {
      var descs := clientMap.Keys;
      while descs != {}
        modifies this`clientMap
        invariant descs <= clientMap.Keys
        invariant SetPerm(clientMap, pid, sensorType, state) == SetPerm(old(clientMap), pid, sensorType, state)
        invariant forall d <- clientMap :: d !in descs && d.sensorType == sensorType && pid in clientMap[d]
                    ==> clientMap[d][pid].perm == state
        decreases |descs|
      {
        var d :| d in descs;
        descs := descs - {d};
        if d.sensorType == sensorType {
          SetPermStep(clientMap, d, pid, state);
          clientMap := clientMap[d := Permit(clientMap[d], pid, state)];
        }
      }
      SetPermDone(clientMap, pid, sensorType, state);
    }
  }
}
