/** SensorService: the calls a client makes, and the cleanup when it dies. Each call is one
    atomic step under the service lock. */
module SensorServices {
  import opened ByteCodec
  import opened SensorTypes
  import opened ClientInfos
  import opened SensorManagers
  import opened SensorPowerPolicies
  import opened BlockPolicies

  /** The parameter half of CheckAuthAndParameter. */
  predicate ParametersOk(env: Env, d: Desc, b: Batch) {
    d in env.known && !(b.delay != 0 && b.period != 0 && Quot(b.delay, b.period) > MAX_EVENT_COUNT)
  }

  /** SaveSubscriber: a refused batch takes the record back out. */
  ghost function SaveSubscriberStep(env: Env, s: Sys, d: Desc, pid: Int32, b: Batch): (r: (Sys, Code)) {
    if !Granted(env.sensors, d, pid, b.period, b.delay) then (s, UpdateSensorInfoErr)
    else
      var cm := SaveRecord(s.clients, env.sensors, d, pid, b.period, b.delay);
      var best := SetBest(cm, s.dev, env.hdi, d, Current(cm, d, pid));
      if best.1 then (s.(clients := cm, dev := best.0), ErrOk)
      else (s.(clients := Remove(cm, d, pid), dev := best.0), SetSensorConfigErr)
  }

  ghost function EnableStep(env: Env, s: Sys, d: Desc, pid: Int32, b: Batch, granted: bool): (r: (Sys, Code)) {
    if !granted then (s, PermissionDenied)
    else if !ParametersOk(env, d, b) then (s, ErrNoInit)
    else
      var t := SaveSubscriberStep(env, s, d, pid, b);
      if Enabled(s.clients, d) then t
      else if t.1 != ErrOk then (t.0.(clients := Remove(t.0.clients, d, pid)), t.1)
      else
        var dev := AfterEnable(t.0.dev, env.hdi, d);
        if env.hdi(t.0.dev.calls) then (t.0.(dev := dev), ErrOk)
        else (t.0.(clients := Remove(t.0.clients, d, pid), dev := dev), EnableSensorErr)
  }

  ghost function DisableStep(env: Env, s: Sys, d: Desc, pid: Int32): (r: (Sys, Code)) {
    if d !in env.known && !Enabled(s.clients, d) then (s, ErrNoInit)
    else if pid < 0 then (s, ClientPidInvalidErr)
    else
      var saved := Forget(s.saved, d, pid);
      var t := Yield(s.clients, s.dev, env.hdi, d, pid);
      if t.2 then (Sys(t.0, saved, t.1), ErrOk)
      else
        var dev := AfterDisable(t.1, env.hdi, d);
        if !env.hdi(t.1.calls) && d in env.known then (Sys(t.0, saved, dev), DisableSensorErr)
        else (Sys(ClearSensor(t.0, d), saved, dev), ErrOk)
  }

  ghost function DisableEach(env: Env, s: Sys, pid: Int32, order: seq<Desc>): (r: Sys)
    decreases |order|
  {
    if order == [] then s else DisableEach(env, DisableStep(env, s, order[0], pid).0, pid, order[1..])
  }

  /** All of the service's state that a client's death touches. Channels are numbered. */
  datatype Hub = Hub(sys: Sys, channels: map<Int32, nat>, apps: map<Int32, AppThread>,
                     clientPids: map<nat, Int32>, activeCb: set<Int32>, policies: Policies)

  /** RegisterClientDeathRecipient: a full table takes no new client. */
  predicate HasRoom(h: Hub, client: nat) {
    client in h.clientPids || |h.clientPids| < MAX_SUPPORT_CHANNEL
  }

  function Register(h: Hub, client: nat, pid: Int32): (r: Hub) {
    if HasRoom(h, client) then h.(clientPids := h.clientPids[client := pid]) else h
  }

  /** UnregisterClientDeathRecipient: a client is let go once its pid has neither a channel nor an
      active-info callback. */
  predicate LetsGo(h: Hub, client: nat) {
    client in h.clientPids
    && var pid := h.clientPids[client]; pid != INVALID_PID && pid !in h.channels && pid !in h.activeCb
  }

  function Release(h: Hub, client: nat): (r: Hub) {
    if LetsGo(h, client) then h.(clientPids := h.clientPids - {client}) else h
  }

  function ConnectCode(h: Hub, pid: Int32, app: AppThread): (code: Code) {
    if app.uid == INVALID_UID || pid <= INVALID_PID || (pid !in h.apps && |h.apps| == MAX_SUPPORT_CHANNEL) then
      UpdateUidErr
    else if pid !in h.channels && |h.channels| == MAX_SUPPORT_CHANNEL then UpdateSensorChannelErr
    else ErrOk
  }

  /** TransferDataChannel: a client registers its pid and a new channel. A full table refuses the
      newcomer, keeping what was stored before the refusal. */
  function ConnectStep(h: Hub, client: nat, pid: Int32, app: AppThread, channel: nat): (r: Hub) {
    var code, known := ConnectCode(h, pid, app), h.(apps := h.apps[pid := app]);
    if code == UpdateUidErr then h
    else if code == UpdateSensorChannelErr then known
    else Register(known.(channels := h.channels[pid := channel]), client, pid)
  }

  /** ClientInfo::DestroySensorChannel: the pid's records, application and channel go. */
  function ForgetClient(h: Hub, pid: Int32): (r: Hub) {
    h.(sys := h.sys.(clients := ClearClient(h.sys.clients, pid)), apps := h.apps - {pid},
       channels := h.channels - {pid})
  }

  /** DestroySensorChannel: a client leaves on its own. */
  function LeaveStep(h: Hub, client: nat, pid: Int32): (r: Hub) {
    if pid <= INVALID_PID then h else Release(ForgetClient(h, pid), client)
  }

  ghost function DeathStep(env: Env, h: Hub, client: nat, order: seq<Desc>): (r: Hub) {
    var pid := if client in h.clientPids then h.clientPids[client] else INVALID_PID;
    if pid == INVALID_PID then h
    else
      var sys := DisableEach(env, h.sys.(saved := h.sys.saved - {pid}), pid, order);
      var t := h.(sys := sys, policies := ApplyBlockOp(h.policies, ClearIssued(pid)), activeCb := h.activeCb - {pid});
      (if pid <= INVALID_PID then t else ForgetClient(t, pid)).(clientPids := h.clientPids - {client})
  }

  class SensorService {
    const clientInfo: ClientInfo
    const manager: SensorManager
    const policy: SensorPowerPolicy
    const hdi: SensorHdi
    const blockPolicy: SensorDataBlockPolicy
    const sensorMap: set<Desc>

    ghost predicate Valid() {
      policy.Valid() && policy.clientInfo == clientInfo && policy.manager == manager && policy.hdi == hdi
      && policy.env.known == sensorMap
    }

    ghost function Abs(): (h: Hub)
      requires Valid()
      reads clientInfo, hdi, policy, blockPolicy
    {
      Hub(policy.Abs(), clientInfo.channelMap, clientInfo.appThreadInfoMap, clientInfo.clientPidMap,
          clientInfo.activeInfoCBPidSet, blockPolicy.blockPolicies)
    }

    constructor (power: SensorPowerPolicy, blocks: SensorDataBlockPolicy, known: set<Desc>)
      requires power.Valid() && power.env.known == known
      ensures Valid() && policy == power && blockPolicy == blocks
    {
      clientInfo, manager, hdi := power.clientInfo, power.manager, power.hdi;
      policy, blockPolicy, sensorMap := power, blocks, known;
    }

    method SaveSubscriber(d: Desc, pid: Int32, b: Batch) returns (code: Code)
      requires Valid()
      modifies clientInfo`clientMap, hdi
      ensures (policy.Abs(), code) == SaveSubscriberStep(policy.env, old(policy.Abs()), d, pid, b)
    {
      var ok := manager.SaveSubscriber(d, pid, b.period, b.delay);
      if !ok {
        return UpdateSensorInfoErr;
      }
      var sensorInfo := clientInfo.GetCurPidSensorInfo(d, pid);
      ok := manager.SetBestSensorParams(d, sensorInfo);
      if !ok {
        clientInfo.RemoveSubscriber(d, pid);
        return SetSensorConfigErr;
      }
      code := ErrOk;
    }

    method EnableSensor(d: Desc, pid: Int32, b: Batch, granted: bool) returns (code: Code)
      requires Valid()
      modifies clientInfo`clientMap, hdi
      ensures (policy.Abs(), code) == EnableStep(policy.env, old(policy.Abs()), d, pid, b, granted)
    {
      if !granted {
        return PermissionDenied;
      }
      if d !in sensorMap || (b.delay != 0 && b.period != 0 && Quot(b.delay, b.period) > MAX_EVENT_COUNT) {
        return ErrNoInit;
      }
      var enabled := clientInfo.GetSensorState(d);
      if enabled {
        code := SaveSubscriber(d, pid, b);
        return;
      }
      code := SaveSubscriber(d, pid, b);
      if code != ErrOk {
        clientInfo.RemoveSubscriber(d, pid);
        return;
      }
      var ok := hdi.EnableSensor(d);
      if !ok {
        clientInfo.RemoveSubscriber(d, pid);
        return EnableSensorErr;
      }
    }

    method DisableSensor(d: Desc, pid: Int32) returns (code: Code)
      requires Valid()
      modifies clientInfo`clientMap, clientInfo`storedEvent, hdi, policy`pidSensorInfoMap
      ensures (policy.Abs(), code) == DisableStep(policy.env, old(policy.Abs()), d, pid)
      ensures clientInfo.storedEvent
           == if code == ErrOk && OnlyUser(old(clientInfo.clientMap), d, pid)
              then FarStored(old(clientInfo.storedEvent), d, old(hdi.Lists(d))) else old(clientInfo.storedEvent)
    {
      if d !in sensorMap {
        var enabled := clientInfo.GetSensorState(d);
        if !enabled {
          return ErrNoInit;
        }
      }
      if pid < 0 {
        return ClientPidInvalidErr;
      }
      policy.DeleteDisablePidSensorInfo(d, pid);
      var other := manager.IsOtherClientUsingSensor(d, pid);
      if other {
        return ErrOk;
      }
      var ok := hdi.DisableSensor(d);
      if !ok && d in sensorMap {
        return DisableSensorErr;
      }
      manager.AfterDisableSensor(d);
      code := ErrOk;
    }

    method RegisterClientDeathRecipient(client: nat, pid: Int32)
      requires Valid()
      modifies clientInfo`clientPidMap
      ensures Abs() == Register(old(Abs()), client, pid)
    {
      var saved := clientInfo.SaveClientPid(client, pid);
    }

    method UnregisterClientDeathRecipient(client: nat)
      requires Valid()
      modifies clientInfo`clientPidMap
      ensures Abs() == Release(old(Abs()), client)
    {
      var pid := clientInfo.FindClientPid(client);
      if pid == INVALID_PID {
        return;
      }
      if !clientInfo.CallingService(pid) {
        return;
      }
      clientInfo.DestroyClientPid(client);
    }

    method TransferDataChannel(client: nat, pid: Int32, app: AppThread, channel: nat) returns (code: Code)
      requires Valid()
      modifies clientInfo
      ensures code == ConnectCode(old(Abs()), pid, app)
      ensures Abs() == ConnectStep(old(Abs()), client, pid, app, channel)
    {
      var ok := clientInfo.UpdateAppThreadInfo(pid, app);
      if !ok {
        return UpdateUidErr;
      }
      ok := clientInfo.UpdateSensorChannel(pid, channel);
      if !ok {
        return UpdateSensorChannelErr;
      }
      RegisterClientDeathRecipient(client, pid);
      code := ErrOk;
    }

    /** The client object is let go with the channel, unless an active-info callback holds it. */
    method DestroySensorChannel(client: nat, pid: Int32) returns (code: Code)
      requires Valid()
      modifies clientInfo
      ensures code == if pid <= INVALID_PID then ClientPidInvalidErr else ErrOk
      ensures Abs() == LeaveStep(old(Abs()), client, pid)
    {
      if pid < 0 {
        return ClientPidInvalidErr;
      }
      var ok := clientInfo.DestroySensorChannel(pid);
      UnregisterClientDeathRecipient(client);
      code := ErrOk;
    }

    /** CreateSocketChannel; `made` is false when the caller is no native token or no socket
        pair could be made. */
    method CreateSocketChannel(client: nat, pid: Int32, made: bool)
      requires Valid()
      modifies clientInfo`clientPidMap
      ensures Abs() == if made then Register(old(Abs()), client, pid) else old(Abs())
    {
      if made {
        RegisterClientDeathRecipient(client, pid);
      }
    }

    method DestroySocketChannel(client: nat, native: bool)
      requires Valid()
      modifies clientInfo`clientPidMap
      ensures Abs() == if native then Release(old(Abs()), client) else old(Abs())
    {
      if native {
        UnregisterClientDeathRecipient(client);
      }
    }

    method EnableActiveInfoCB(pid: Int32, native: bool) returns (ok: bool)
      requires Valid()
      modifies clientInfo`activeInfoCBPidSet
      ensures ok <==> native && pid !in old(Abs()).activeCb
      ensures Abs() == if native then old(Abs()).(activeCb := old(Abs()).activeCb + {pid}) else old(Abs())
    {
      if !native {
        return false;
      }
      ok := clientInfo.AddActiveInfoCBPid(pid);
    }

    method DisableActiveInfoCB(pid: Int32, native: bool) returns (ok: bool)
      requires Valid()
      modifies clientInfo`activeInfoCBPidSet
      ensures ok <==> native && pid in old(Abs()).activeCb
      ensures Abs() == if native then old(Abs()).(activeCb := old(Abs()).activeCb - {pid}) else old(Abs())
    {
      if !native {
        return false;
      }
      ok := clientInfo.DelActiveInfoCBPid(pid);
    }

    /** ProcessDeathObserver. A DisableSensor that fails is only logged. */
    method ProcessDeathObserver(client: nat) returns (ghost order: seq<Desc>)
      requires Valid()
      modifies clientInfo, hdi, policy`pidSensorInfoMap, blockPolicy
      ensures client in old(clientInfo.clientPidMap) ==>
                Enumerates(order, SensorsOf(old(clientInfo.clientMap), old(clientInfo.clientPidMap)[client]))
      ensures Abs() == DeathStep(policy.env, old(Abs()), client, order)
    {
      order := [];
      var pid := clientInfo.FindClientPid(client);
      if pid == INVALID_PID {
        var none := clientInfo.GetSensorIdByPid(pid);
        order := none;
        return;
      }
      policy.DeleteDeathPidSensorInfo(pid);
      blockPolicy.ClearBlockPolicyByClient(pid);
      var activeSensors := clientInfo.GetSensorIdByPid(pid);
      order := activeSensors;
      ghost var start := policy.Abs();
      assert activeSensors[0..] == activeSensors;
      for i := 0 to |activeSensors|
        modifies clientInfo`clientMap, clientInfo`storedEvent, hdi, policy`pidSensorInfoMap
        invariant DisableEach(policy.env, policy.Abs(), pid, activeSensors[i..])
               == DisableEach(policy.env, start, pid, activeSensors)
      {
        assert activeSensors[i..][1..] == activeSensors[i + 1..];
        var code := DisableSensor(activeSensors[i], pid);
      }
      var listening := clientInfo.DelActiveInfoCBPid(pid);
      var ok := clientInfo.DestroySensorChannel(pid);
      clientInfo.DestroyClientPid(client);
    }
  }
}
