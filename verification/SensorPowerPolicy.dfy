/** SensorPowerPolicy: freezing a client's sensors and thawing them. */
module SensorPowerPolicies {
  import opened ByteCodec
  import opened Sequences
  import opened SensorTypes
  import opened ClientInfos
  import opened SensorManagers

  /** What never changes while the service runs: the sensors it accepts, their limits, and the
      outcome of every HDI call. */
  datatype Env = Env(known: set<Desc>, sensors: map<Desc, Sensor>, hdi: Oracle)

  /** The arbitration state: subscriptions, configurations saved by a suspend, the device. */
  datatype Sys = Sys(clients: ClientMap, saved: SavedMap, dev: Device)

  type Saved = map<Desc, Batch>

  /** RestoreSensorInfo: saves the record, then arbitrates with the values as given. */
  ghost function Restore(env: Env, s: Sys, d: Desc, pid: Int32, b: Batch): (r: (Sys, bool)) {
    if !Granted(env.sensors, d, pid, b.period, b.delay) then (s, false)
    else
      var cm := SaveRecord(s.clients, env.sensors, d, pid, b.period, b.delay);
      var best := SetBest(cm, s.dev, env.hdi, d, b);
      if best.1 then (s.(clients := cm, dev := best.0), true)
      else (s.(clients := Remove(cm, d, pid), dev := best.0), false)
  }

  /** The admission test at the head of Resume. */
  predicate Admissible(d: Desc, b: Batch) {
    d.sensorType != INVALID_SENSOR_ID && b.period > 0 && Quot(b.delay, b.period) <= MAX_EVENT_COUNT
  }

  ghost function Resume(env: Env, s: Sys, d: Desc, pid: Int32, b: Batch): (r: (Sys, bool)) {
    if !Admissible(d, b) then (s, false)
    else
      var t := Restore(env, s, d, pid, b);
      if !t.1 then (t.0, false)
      else if Enabled(s.clients, d) then (t.0, true)
      else
        var dev := AfterEnable(t.0.dev, env.hdi, d);
        if env.hdi(t.0.dev.calls) then (t.0.(dev := dev), true)
        else (t.0.(clients := Remove(t.0.clients, d, pid), dev := dev), false)
  }

  /** The loop of ResumeSensors over the entries of the saved map, in the given order. */
  ghost function ResumeEach(env: Env, s: Sys, pid: Int32, order: seq<(Desc, Batch)>, all: bool): (r: (Sys, bool))
    decreases |order|
  {
    if order == [] then (s, all)
    else
      var t := Resume(env, s, order[0].0, pid, order[0].1);
      ResumeEach(env, t.0, pid, order[1..], all && t.1)
  }

  ghost function ResumeSensorsStep(env: Env, s: Sys, pid: Int32, order: seq<(Desc, Batch)>): (r: (Sys, Code)) {
    if pid !in s.saved then (s, ErrOk)
    else
      var t := ResumeEach(env, s, pid, order, true);
      if t.1 then (t.0.(saved := t.0.saved - {pid}), ErrOk) else (t.0, ResumeErr)
  }

  /** One turn of the Suspend loop; the saved map is a std::map insert, which keeps old entries. */
  ghost function SuspendOne(env: Env, s: Sys, pid: Int32, d: Desc, acc: Saved): (r: (Sys, Saved, bool)) {
    if Freezing(d) then (s, acc, true)
    else
      var kept := if d in acc then acc else acc[d := Current(s.clients, d, pid)];
      var t := Yield(s.clients, s.dev, env.hdi, d, pid);
      if t.2 then (s.(clients := t.0, dev := t.1), kept, true)
      else (s.(clients := ClearSensor(t.0, d), dev := AfterDisable(t.1, env.hdi, d)), kept, env.hdi(t.1.calls))
  }

  ghost function SuspendEach(env: Env, s: Sys, pid: Int32, order: seq<Desc>, acc: Saved, all: bool)
    : (r: (Sys, Saved, bool))
    decreases |order|
  {
    if order == [] then (s, acc, all)
    else
      var t := SuspendOne(env, s, pid, order[0], acc);
      SuspendEach(env, t.0, pid, order[1..], t.1, all && t.2)
  }

  /** With an entry already saved, the loop fills a copy of it that is then dropped. */
  ghost function SuspendSensorsStep(env: Env, s: Sys, pid: Int32, order: seq<Desc>): (r: (Sys, Code)) {
    if order == [] then (s, ErrOk)
    else
      var t := SuspendEach(env, s, pid, order, if pid in s.saved then s.saved[pid] else map[], true);
      (if pid in s.saved then t.0 else t.0.(saved := t.0.saved[pid := t.1]), if t.2 then ErrOk else SuspendErr)
  }

  /** DeleteDisablePidSensorInfo. */
  function Forget(saved: SavedMap, d: Desc, pid: Int32): (r: SavedMap) {
    if pid !in saved then saved
    else
      var m := saved[pid] - {d};
      if m == map[] then saved - {pid} else saved[pid := m]
  }

  predicate IsSaved(saved: SavedMap, pid: Int32, d: Desc, b: Batch) {
    pid in saved && d in saved[pid] && saved[pid][d] == b
  }

  /** Exactly that configuration is forgotten, and an entry goes with its last one. */
  lemma ForgetDropsOne(saved: SavedMap, d: Desc, pid: Int32)
    ensures forall p: Int32, e: Desc, b: Batch ::
              IsSaved(Forget(saved, d, pid), p, e, b) <==> IsSaved(saved, p, e, b) && !(p == pid && e == d)
    ensures pid in Forget(saved, d, pid) <==> pid in saved && exists e <- saved[pid] :: e != d
    ensures forall p: Int32 :: p != pid ==> (p in Forget(saved, d, pid) <==> p in saved)
  {
    if pid in saved {
      var m := saved[pid] - {d};
      assert m != map[] <==> exists e <- saved[pid] :: e != d by {
        if e :| e in saved[pid] && e != d {
          assert e in m;
        }
        if m != map[] {
          var e :| e in m;
        }
      }
    }
  }

  /** The loop of ResetSensors over the pids visited so far. */
  ghost function ResetEach(env: Env, s: Sys, pids: seq<Int32>, orders: seq<seq<(Desc, Batch)>>): (r: (Sys, bool))
    requires |pids| == |orders|
    decreases |pids|
  {
    if pids == [] then (s, true)
    else
      var n := |pids| - 1;
      var t := ResetEach(env, s, pids[..n], orders[..n]);
      var u := ResumeSensorsStep(env, t.0, pids[n], orders[n]);
      (u.0, t.1 && u.1 == ErrOk)
  }

  /** Each visited pid's saved entry was walked in the order recorded for it. */
  ghost predicate OrdersFor(saved: SavedMap, pids: seq<Int32>, orders: seq<seq<(Desc, Batch)>>) {
    |pids| == |orders|
    && forall k :: 0 <= k < |pids| ==> pids[k] in saved && Enumerates(orders[k], saved[pids[k]].Items)
  }

  lemma OrdersForSnoc(saved: SavedMap, pids: seq<Int32>, orders: seq<seq<(Desc, Batch)>>, pid: Int32,
      order: seq<(Desc, Batch)>)
    requires OrdersFor(saved, pids, orders) && pid in saved && Enumerates(order, saved[pid].Items)
    ensures OrdersFor(saved, pids + [pid], orders + [order])
  {
    hide Enumerates;
  }

  lemma ResetStarts(env: Env, s: Sys, pids: seq<Int32>)
    requires Enumerates(pids, s.saved.Keys)
    ensures Waiting(pids, s.saved, s.saved) && OrdersFor(s.saved, [], []) && ResetEach(env, s, [], []) == (s, true)
  {
  }

  lemma ResetEachSnoc(env: Env, s: Sys, pids: seq<Int32>, orders: seq<seq<(Desc, Batch)>>, pid: Int32,
      order: seq<(Desc, Batch)>)
    requires |pids| == |orders|
    ensures var t := ResetEach(env, s, pids, orders);
            var u := ResumeSensorsStep(env, t.0, pid, order);
            ResetEach(env, s, pids + [pid], orders + [order]) == (u.0, t.1 && u.1 == ErrOk)
  {
    hide ResumeSensorsStep;
    assert (pids + [pid])[..|pids|] == pids && (orders + [order])[..|pids|] == orders;
  }

  class SensorPowerPolicy {
    const clientInfo: ClientInfo
    const manager: SensorManager
    const hdi: SensorHdi
    ghost const env: Env
    var pidSensorInfoMap: SavedMap

    ghost predicate Valid()
    {
      manager.clientInfo == clientInfo && manager.hdi == hdi
      && env.sensors == manager.sensorMap && env.hdi == hdi.outcome
    }

    ghost function Abs(): (s: Sys)
      reads this, clientInfo, hdi
    {
      Sys(clientInfo.clientMap, pidSensorInfoMap, hdi.device)
    }

    constructor (sensorManager: SensorManager, ghost known: set<Desc>)
      ensures Valid() && manager == sensorManager && pidSensorInfoMap == map[]
      ensures env == Env(known, sensorManager.sensorMap, sensorManager.hdi.outcome)
    {
      manager := sensorManager;
      clientInfo := sensorManager.clientInfo;
      hdi := sensorManager.hdi;
      env := Env(known, sensorManager.sensorMap, sensorManager.hdi.outcome);
      pidSensorInfoMap := map[];
    }

    method Suspend(pid: Int32, sensorDescList: seq<Desc>, acc: Saved) returns (isAllSuspend: bool, sensorInfoMap: Saved)
      requires Valid()
      modifies clientInfo`clientMap, clientInfo`storedEvent, hdi
      ensures (Abs(), sensorInfoMap, isAllSuspend) == SuspendEach(env, old(Abs()), pid, sensorDescList, acc, true)
    {
      isAllSuspend, sensorInfoMap := true, acc;
      assert sensorDescList[0..] == sensorDescList;
      for i := 0 to |sensorDescList|
        invariant SuspendEach(env, Abs(), pid, sensorDescList[i..], sensorInfoMap, isAllSuspend)
               == SuspendEach(env, old(Abs()), pid, sensorDescList, acc, true)
      {
        assert sensorDescList[i..][1..] == sensorDescList[i + 1..];
        var one;
        one, sensorInfoMap := SuspendSensor(pid, sensorDescList[i], sensorInfoMap);
        isAllSuspend := isAllSuspend && one;
      }
    }

    /** The body of Suspend's loop; a failing HDI disable is noted, and the entry goes all the same. */
    method SuspendSensor(pid: Int32, d: Desc, acc: Saved) returns (suspended: bool, sensorInfoMap: Saved)
      requires Valid()
      modifies clientInfo`clientMap, clientInfo`storedEvent, hdi
      ensures (Abs(), sensorInfoMap, suspended) == SuspendOne(env, old(Abs()), pid, d, acc)
      ensures clientInfo.storedEvent
           == if !Freezing(d) && OnlyUser(old(clientInfo.clientMap), d, pid)
              then FarStored(old(clientInfo.storedEvent), d, old(hdi.Lists(d))) else old(clientInfo.storedEvent)
    {
      suspended, sensorInfoMap := true, acc;
      if Freezing(d) {
        return;
      }
      var sensorInfo := clientInfo.GetCurPidSensorInfo(d, pid);
      if d !in sensorInfoMap {
        sensorInfoMap := sensorInfoMap[d := sensorInfo];
      }
      var other := manager.IsOtherClientUsingSensor(d, pid);
      if other {
        return;
      }
      suspended := hdi.DisableSensor(d);
      manager.AfterDisableSensor(d);
    }

    method SuspendSensors(pid: Int32) returns (code: Code, ghost order: seq<Desc>)
      requires Valid()
      modifies this`pidSensorInfoMap, clientInfo`clientMap, clientInfo`storedEvent, hdi
      ensures Enumerates(order, SensorsOf(old(clientInfo.clientMap), pid))
      ensures (Abs(), code) == SuspendSensorsStep(env, old(Abs()), pid, order)
    {
      var sensorDescList := clientInfo.GetSensorIdByPid(pid);
      order := sensorDescList;
      if sensorDescList == [] {
        return ErrOk, order;
      }
      var ok, sensorInfoMap;
      if pid in pidSensorInfoMap {
        ok, sensorInfoMap := Suspend(pid, sensorDescList, pidSensorInfoMap[pid]);
        return if ok then ErrOk else SuspendErr, order;
      }
      ok, sensorInfoMap := Suspend(pid, sensorDescList, map[]);
      pidSensorInfoMap := pidSensorInfoMap[pid := sensorInfoMap];
      code := if ok then ErrOk else SuspendErr;
    }

    method RestoreSensorInfo(pid: Int32, d: Desc, b: Batch) returns (ok: bool)
      requires Valid()
      modifies clientInfo`clientMap, hdi
      ensures (Abs(), ok) == Restore(env, old(Abs()), d, pid, b)
    {
      ok := manager.SaveSubscriber(d, pid, b.period, b.delay);
      if !ok {
        return;
      }
      ok := manager.SetBestSensorParams(d, b);
      if !ok {
        clientInfo.RemoveSubscriber(d, pid);
      }
    }

    method ResumeSensor(pid: Int32, d: Desc, b: Batch) returns (ok: bool)
      requires Valid()
      modifies clientInfo`clientMap, hdi
      ensures (Abs(), ok) == Resume(env, old(Abs()), d, pid, b)
    {
      if d.sensorType == INVALID_SENSOR_ID || b.period <= 0 || Quot(b.delay, b.period) > MAX_EVENT_COUNT {
        return false;
      }
      var enabled := clientInfo.GetSensorState(d);
      ok := RestoreSensorInfo(pid, d, b);
      if enabled || !ok {
        return;
      }
      ok := hdi.EnableSensor(d);
      if !ok {
        clientInfo.RemoveSubscriber(d, pid);
      }
    }

    method ResumeSensors(pid: Int32) returns (code: Code, ghost order: seq<(Desc, Batch)>)
      requires Valid()
      modifies this`pidSensorInfoMap, clientInfo`clientMap, hdi
      ensures pid in old(pidSensorInfoMap) ==> Enumerates(order, old(pidSensorInfoMap)[pid].Items)
      ensures (Abs(), code) == ResumeSensorsStep(env, old(Abs()), pid, order)
    {
      if pid !in pidSensorInfoMap {
        return ErrOk, [];
      }
      var sensorInfoMap: Saved := pidSensorInfoMap[pid];
      var visit := VisitEntries(sensorInfoMap);
      order := visit;
      var isAllResume := true;
      assert visit[0..] == visit;
      for i := 0 to |visit|
        invariant ResumeEach(env, Abs(), pid, visit[i..], isAllResume) == ResumeEach(env, old(Abs()), pid, visit, true)
        invariant pidSensorInfoMap == old(pidSensorInfoMap)
      {
        assert visit[i..][1..] == visit[i + 1..];
        var ok := ResumeSensor(pid, visit[i].0, visit[i].1);
        if !ok {
          isAllResume := false;
        } else {
          sensorInfoMap := sensorInfoMap - {visit[i].0};
        }
      }
      if !isAllResume {
        return ResumeErr, order;
      }
      pidSensorInfoMap := pidSensorInfoMap - {pid};
      code := ErrOk;
    }

    /** An order in which an unordered map may be walked. */
    static method VisitEntries(m: Saved) returns (visit: seq<(Desc, Batch)>)
      ensures Enumerates(visit, m.Items)
    {
      visit := [];
      var left := m.Items;
      while left != {}
        invariant left <= m.Items
        invariant forall e :: e in visit <==> e in m.Items && e !in left
        invariant forall i, j :: 0 <= i < j < |visit| ==> visit[i] != visit[j]
        decreases |left|
      {
        var e :| e in left;
        left := left - {e};
        visit := visit + [e];
      }
    }

    method GetSuspendPidList() returns (pids: seq<Int32>)
      ensures Enumerates(pids, pidSensorInfoMap.Keys)
    {
      pids := [];
      var left: set<Int32> := pidSensorInfoMap.Keys;
      while left != {}
        invariant left <= pidSensorInfoMap.Keys
        invariant forall p: Int32 :: p in pids <==> p in pidSensorInfoMap && p !in left
        invariant forall i, j :: 0 <= i < j < |pids| ==> pids[i] != pids[j]
        decreases |left|
      {
        var p :| p in left;
        left := left - {p};
        pids := pids + [p];
      }
    }

    method ResetSensors() returns (code: Code, ghost pids: seq<Int32>, ghost orders: seq<seq<(Desc, Batch)>>)
      requires Valid()
      modifies this`pidSensorInfoMap, clientInfo`clientMap, hdi
      ensures |pids| == |orders| && Enumerates(pids, old(pidSensorInfoMap.Keys))
      ensures OrdersFor(old(pidSensorInfoMap), pids, orders)
      ensures var r := ResetEach(env, old(Abs()), pids, orders);
              Abs() == r.0 && code == if r.1 then ErrOk else ResetErr
    {
      hide ResumeSensorsStep, ResetEach, Waiting, OrdersFor, Enumerates;
      var suspendPidList := GetSuspendPidList();
      ghost var start := Abs();
      ghost var visited: seq<Int32> := [];
      pids, orders := suspendPidList, [];
      var resetStatus := true;
      ghost var left := pids;
      ResetStarts(env, start, pids);
      for i := 0 to |suspendPidList|
        invariant visited + left == pids && |orders| == |visited| == i && |left| == |pids| - i
        invariant ResetEach(env, start, visited, orders) == (Abs(), resetStatus)
        invariant OrdersFor(start.saved, visited, orders)
        invariant Waiting(left, pidSensorInfoMap, start.saved)
      {
        ghost var pid, tail, before := suspendPidList[i], left[1..], Abs();
        assert left == [pid] + tail;
        ghost var order;
        var ret;
        WaitingStep(left, pidSensorInfoMap, start.saved);
        ret, order := ResumeSensors(suspendPidList[i]);
        ResumeKeepsSaved(env, before, pid, order);
        OrdersForSnoc(start.saved, visited, orders, pid, order);
        ResetEachSnoc(env, start, visited, orders, pid, order);
        Assoc(visited, [pid], tail);
        visited, orders, left := visited + [pid], orders + [order], tail;
        if ret != ErrOk {
          resetStatus := false;
        }
      }
      assert visited == pids;
      code := if resetStatus then ErrOk else ResetErr;
    }

    method DeleteDeathPidSensorInfo(pid: Int32)
      modifies this`pidSensorInfoMap
      ensures pidSensorInfoMap == old(pidSensorInfoMap) - {pid}
    {
      pidSensorInfoMap := pidSensorInfoMap - {pid};
    }

    method DeleteDisablePidSensorInfo(d: Desc, pid: Int32)
      modifies this`pidSensorInfoMap
      ensures pidSensorInfoMap == Forget(old(pidSensorInfoMap), d, pid)
    {
      if pid !in pidSensorInfoMap {
        return;
      }
      var m: Saved := pidSensorInfoMap[pid] - {d};
      pidSensorInfoMap := if m == map[] then pidSensorInfoMap - {pid} else pidSensorInfoMap[pid := m];
    }
  }

  /** The pids still to visit are distinct, and their entries are as they were. */
  ghost predicate Waiting(pids: seq<Int32>, saved: SavedMap, before: SavedMap) {
    (forall k :: 0 <= k < |pids| ==> pids[k] in saved && pids[k] in before && saved[pids[k]] == before[pids[k]])
    && forall i, j :: 0 <= i < j < |pids| ==> pids[i] != pids[j]
  }

  lemma WaitingStep(pids: seq<Int32>, saved: SavedMap, before: SavedMap)
    requires pids != [] && Waiting(pids, saved, before)
    ensures pids[0] in saved && pids[0] in before && saved[pids[0]] == before[pids[0]]
    ensures Waiting(pids[1..], saved, before) && Waiting(pids[1..], saved - {pids[0]}, before)
  {
  }

  lemma ResumeOneKeepsSaved(env: Env, s: Sys, d: Desc, pid: Int32, b: Batch)
    ensures Resume(env, s, d, pid, b).0.saved == s.saved
  {
    hide SetBest, SaveRecord, Granted, Remove, AfterEnable, Enabled, Admissible;
  }

  lemma {:induction false} ResumeEachKeepsSaved(env: Env, s: Sys, pid: Int32, order: seq<(Desc, Batch)>, all: bool)
    ensures ResumeEach(env, s, pid, order, all).0.saved == s.saved
    decreases |order|
  {
    hide Resume;
    if order != [] {
      var t := Resume(env, s, order[0].0, pid, order[0].1);
      ResumeOneKeepsSaved(env, s, order[0].0, pid, order[0].1);
      ResumeEachKeepsSaved(env, t.0, pid, order[1..], all && t.1);
    }
  }

  /** A resume loses no saved configuration unless it succeeds, and never another pid's. */
  lemma ResumeKeepsSaved(env: Env, s: Sys, pid: Int32, order: seq<(Desc, Batch)>)
    ensures var r := ResumeSensorsStep(env, s, pid, order);
            r.0.saved == if r.1 == ErrOk then s.saved - {pid} else s.saved
  {
    if pid in s.saved {
      ResumeEachKeepsSaved(env, s, pid, order, true);
    }
  }
}
