/** The event filter: which channels an event of a sensor is handed to. */
module EventFilters {
  import opened ByteCodec
  import opened Sequences
  import opened SensorTypes
  import opened ClientInfos
  import opened SensorPowerPolicies
  import opened SensorServices
  import opened BlockPolicies
  import opened Arbitration
  import opened ServiceRuns

  const SHAKE_CONTROL_SENSORS: set<int> := {1, 6, 2, 257, 258, 259, 262, 263, 277}

  /** What the filter asks about channels outside this model: `active` ones have their sensor
      status set, `shaken` ones are under shake control. */
  datatype Gate = Gate(active: set<nat>, shaken: set<nat>)

  /** `pid` is to get events of `d`: subscribed, connected, permitted, and held back by nothing. */
  ghost predicate Passes(cm: ClientMap, channels: map<Int32, nat>, p: Policies, gate: Gate, d: Desc, pid: Int32) {
    d.sensorType != INVALID_SENSOR_ID && Has(cm, d, pid) && cm[d][pid].perm && pid in channels
    && channels[pid] in gate.active
    && !(d.sensorType in SHAKE_CONTROL_SENSORS && channels[pid] in gate.shaken)
    && !(pid > 0 && Blocked(p, pid, d.sensorType))
  }

  /** The half of SensorDataProcesser that picks the channels of an event. */
  class EventRouter {
    const clientInfo: ClientInfo
    const blockPolicy: SensorDataBlockPolicy

    constructor (clients: ClientInfo, blocks: SensorDataBlockPolicy)
      ensures clientInfo == clients && blockPolicy == blocks
    {
      clientInfo, blockPolicy := clients, blocks;
    }

    /** ClientInfo::GetSensorChannel: the connected channels of permitted subscribers. */
    method GetSensorChannel(d: Desc) returns (list: seq<nat>)
      ensures forall ch :: ch in list <==>
                exists pid: Int32 :: Has(clientInfo.clientMap, d, pid)
                  && d.sensorType != INVALID_SENSOR_ID && clientInfo.clientMap[d][pid].perm
                  && pid in clientInfo.channelMap && clientInfo.channelMap[pid] == ch
      ensures Injective(clientInfo.channelMap) ==> Distinct(list)
    {
      list := [];
      if d.sensorType == INVALID_SENSOR_ID || d !in clientInfo.clientMap {
        return;
      }
      var m := clientInfo.clientMap[d];
      var left := m.Keys;
      while left != {}
        invariant left <= m.Keys
        invariant forall ch :: ch in list <==>
                    exists pid <- m :: pid !in left && m[pid].perm && pid in clientInfo.channelMap
                        && clientInfo.channelMap[pid] == ch
        invariant Injective(clientInfo.channelMap) ==> Distinct(list)
        decreases |left|
      {
        var pid :| pid in left;
        left := left - {pid};
        if pid !in clientInfo.channelMap {
          continue;
        }
        if !m[pid].perm {
          continue;
        }
        assert Injective(clientInfo.channelMap) ==> clientInfo.channelMap[pid] !in list;
        list := list + [clientInfo.channelMap[pid]];
      }
      assert forall pid: Int32 :: Has(clientInfo.clientMap, d, pid) <==> pid in m;
    }

    /** A channel that no pid owns is not blocked. */
    method IsBlockSensorData(channel: nat, sensorType: Int32) returns (blocked: bool)
      requires Injective(clientInfo.channelMap)
      ensures blocked <==> exists pid <- clientInfo.channelMap :: clientInfo.channelMap[pid] == channel && pid > 0
                             && Blocked(blockPolicy.blockPolicies, pid, sensorType)
    {
      var pid := clientInfo.FindChannelPid(channel, 0);
      if pid > 0 {
        blocked := blockPolicy.IsSensorDataBlocked(pid, sensorType);
        return;
      }
      blocked := false;
    }

    /** EventFilter: the channels SendEvents is called for, each once. */
    method EventFilter(d: Desc, gate: Gate) returns (served: seq<nat>)
      requires Injective(clientInfo.channelMap)
      ensures Distinct(served)
      ensures forall ch :: ch in served <==>
                exists pid: Int32 :: pid in clientInfo.channelMap && clientInfo.channelMap[pid] == ch
                  && Passes(clientInfo.clientMap, clientInfo.channelMap, blockPolicy.blockPolicies, gate, d, pid)
    {
      var channelList := GetSensorChannel(d);
      served := [];
      for i := 0 to |channelList|
        invariant forall ch :: ch in served <==> ch in channelList[..i] && Open(gate, d, ch)
        invariant Distinct(served)
      {
        var channel := channelList[i];
        assert channelList[..i + 1] == channelList[..i] + [channel];
        if channel !in gate.active {
          continue;
        }
        if d.sensorType in SHAKE_CONTROL_SENSORS && channel in gate.shaken {
          continue;
        }
        assert channel in channelList;
        var blocked := IsBlockSensorData(channel, d.sensorType);
        if blocked {
          continue;
        }
        assert forall k :: 0 <= k < i ==> channelList[k] != channel;
        assert channel !in channelList[..i] && channel !in served;
        served := served + [channel];
      }
      assert channelList[..|channelList|] == channelList;
    }

    /** The filter in any state any run reaches: the channels served are those of the pids entitled
        to the event by the run's calls alone, each once. */
    method FilterAfterRun(ghost env: Env, ghost h: Hub, ghost calls: seq<Call>, d: Desc, gate: Gate)
        returns (served: seq<nat>)
      requires Initial(h) && PossibleRun(env, h, calls)
      requires var t := Run(env, h, calls);
               clientInfo.clientMap == t.sys.clients && clientInfo.channelMap == t.channels
               && blockPolicy.blockPolicies == t.policies
      ensures Distinct(served)
      ensures var t := Run(env, h, calls);
              forall ch :: ch in served <==>
                exists pid <- t.channels :: t.channels[pid] == ch
                    && Entitled(t, BlockHistory(env, h, calls), gate, d, pid)
    {
      ghost var t, history := Run(env, h, calls), BlockHistory(env, h, calls);
      InitialInv(env, h);
      RunKeeps(env, h, calls);
      hide Entitled, Passes;
      served := EventFilter(d, gate);
      forall pid <- t.channels
        ensures Passes(t.sys.clients, t.channels, t.policies, gate, d, pid) <==> Entitled(t, history, gate, d, pid)
      {
        EventPassesIff(env, h, calls, gate, d, pid);
      }
    }

    /** The filter's tests of one listed channel. */
    ghost predicate Open(gate: Gate, d: Desc, channel: nat)
      reads clientInfo, blockPolicy
    {
      channel in gate.active && !(d.sensorType in SHAKE_CONTROL_SENSORS && channel in gate.shaken)
      && forall pid <- clientInfo.channelMap :: clientInfo.channelMap[pid] == channel ==>
           !(pid > 0 && Blocked(blockPolicy.blockPolicies, pid, d.sensorType))
    }
  }

  /** The block operations a run performs, a client's death clearing what it issued. */
  function BlockOpsOf(h: Hub, c: Call): (ops: seq<BlockOp>) {
    match c
    case BlockData(op) => [op]
    case Death(client, _) => if ClientPid(h, client) == INVALID_PID then [] else [ClearIssued(ClientPid(h, client))]
    case _ => []
  }

  ghost function BlockHistory(env: Env, h: Hub, calls: seq<Call>): (ops: seq<BlockOp>)
    requires PossibleRun(env, h, calls)
    decreases |calls|
  {
    if calls == [] then [] else BlockOpsOf(h, calls[0]) + BlockHistory(env, Apply(env, h, calls[0]), calls[1..])
  }

  lemma PoliciesAfterCall(env: Env, h: Hub, c: Call, before: seq<BlockOp>)
    requires Possible(h, c) && h.policies == RunBlockOps(before)
    ensures Apply(env, h, c).policies == RunBlockOps(before + BlockOpsOf(h, c))
  {
    hide RunBlockOps;
    var ops := BlockOpsOf(h, c);
    CallPolicies(env, h, c);
    hide Apply, BlockOpsOf;
    if ops == [] {
      assert before + ops == before;
    } else {
      assert ops == [ops[0]];
      RunOneMore(before, ops[0]);
    }
  }

  lemma RunOneMore(before: seq<BlockOp>, op: BlockOp)
    ensures RunBlockOps(before + [op]) == ApplyBlockOp(RunBlockOps(before), op)
  {
    assert (before + [op])[..|before|] == before;
    hide ApplyBlockOp;
  }

  lemma CallPolicies(env: Env, h: Hub, c: Call)
    requires Possible(h, c)
    ensures var ops := BlockOpsOf(h, c);
            |ops| <= 1
            && Apply(env, h, c).policies == if ops == [] then h.policies else ApplyBlockOp(h.policies, ops[0])
  {
    hide ApplyBlockOp, EnableStep, DisableStep, SuspendSensorsStep, ResumeSensorsStep, ResetEach, DeathStep;
    hide ConnectStep, SetPerm, LeaveStep, Enumerates, OrdersFor, Register, Release;
    match c
    case Death(client, order) => DeathPolicies(env, h, client, order);
    case Connect(client, pid, app, channel) => TablePolicies(h, client, pid, app, channel);
    case Leave(client, pid) => LeavePolicies(h, client, pid);
    case OpenSocket(client, pid) => RegisterPolicies(h, client, pid);
    case CloseSocket(client) => RegisterPolicies(h, client, 0);
    case _ =>
  }

  lemma DeathPolicies(env: Env, h: Hub, client: nat, order: seq<Desc>)
    ensures var pid := ClientPid(h, client);
            DeathStep(env, h, client, order).policies
            == if pid == INVALID_PID then h.policies else ApplyBlockOp(h.policies, ClearIssued(pid))
  {
    hide ApplyBlockOp, DisableEach, ClearClient;
  }

  lemma TablePolicies(h: Hub, client: nat, pid: Int32, app: AppThread, channel: nat)
    ensures ConnectStep(h, client, pid, app, channel).policies == h.policies
  {
  }

  lemma LeavePolicies(h: Hub, client: nat, pid: Int32)
    ensures LeaveStep(h, client, pid).policies == h.policies
  {
    hide ClearClient, LetsGo;
  }

  lemma RegisterPolicies(h: Hub, client: nat, pid: Int32)
    ensures Register(h, client, pid).policies == h.policies && Release(h, client).policies == h.policies
  {
    hide LetsGo, HasRoom;
  }

  /** The block policies of a reached state are those of the run's block history. */
  lemma {:induction false} PoliciesFollowHistory(env: Env, h: Hub, calls: seq<Call>, before: seq<BlockOp>)
    requires PossibleRun(env, h, calls) && h.policies == RunBlockOps(before)
    ensures Run(env, h, calls).policies == RunBlockOps(before + BlockHistory(env, h, calls))
    decreases |calls|
  {
    hide Apply, Possible, RunBlockOps, BlockOpsOf;
    if calls == [] {
      assert before + [] == before;
    } else {
      var t, ops := Apply(env, h, calls[0]), BlockOpsOf(h, calls[0]);
      PoliciesAfterCall(env, h, calls[0], before);
      PoliciesFollowHistory(env, t, calls[1..], before + ops);
      Assoc(before, ops, BlockHistory(env, t, calls[1..]));
    }
  }

  /** `pid` has a permitted record of `d`, its channel is connected, active and not shake-controlled,
      and no client's block of that type for that pid is outstanding in the history. */
  ghost predicate Entitled(t: Hub, history: seq<BlockOp>, gate: Gate, d: Desc, pid: Int32) {
    Has(t.sys.clients, d, pid) && t.sys.clients[d][pid].perm && pid in t.channels
    && t.channels[pid] in gate.active
    && !(d.sensorType in SHAKE_CONTROL_SENSORS && t.channels[pid] in gate.shaken)
    && forall client: Int32 :: !Outstanding(history, pid, client, d.sensorType)
  }

  /** In any state any run reaches, an event passes to exactly the pids entitled to it. */
  lemma EventPassesIff(env: Env, h: Hub, calls: seq<Call>, gate: Gate, d: Desc, pid: Int32)
    requires Initial(h) && PossibleRun(env, h, calls)
    ensures var t := Run(env, h, calls);
            Passes(t.sys.clients, t.channels, t.policies, gate, d, pid)
            <==> Entitled(t, BlockHistory(env, h, calls), gate, d, pid)
  {
    PoliciesFollowHistory(env, h, calls, []);
    var history := BlockHistory(env, h, calls);
    assert [] + history == history;
    BlockedIffOutstanding(history, pid, d.sensorType);
    forall client: Int32 ensures Outstanding(history, pid, client, d.sensorType) ==> pid > 0 {
      PolicyIsOutstanding(history, pid, client, d.sensorType);
    }
    InitialInv(env, h);
    RunKeeps(env, h, calls);
    var t := Run(env, h, calls);
    hide RunBlockOps, Run, BlockHistory, Outstanding;
    assert InvAt(env, t.sys, d);
    if Has(t.sys.clients, d, pid) {
      assert SoundRecord(env, d, pid, t.sys.clients[d][pid]);
    }
  }
}
