/** A revoked permission over whole runs: the client gets no event until it is granted anew. */
module Revocation {
  import opened ByteCodec
  import opened SensorTypes
  import opened ClientInfos
  import opened SensorPowerPolicies
  import opened SensorServices
  import opened BlockPolicies
  import opened Arbitration
  import opened Suspension
  import opened ServiceRuns
  import opened EventFilters

  /** No record of the pid for a sensor of that type is permitted. */
  ghost predicate Revoked(cm: ClientMap, pid: Int32, sensorType: int) {
    forall d: Desc :: d.sensorType == sensorType && Has(cm, d, pid) ==> !cm[d][pid].perm
  }

  /** The calls that grant anew: the pid enables a sensor of that type, is resumed, or the permission
      is given back. */
  predicate Grants(h: Hub, c: Call, pid: Int32, sensorType: int) {
    match c
    case Enable(d, p, _, _) => p == pid && d.sensorType == sensorType
    case ResumeSensors(p, _) => p == pid
    case ResetSensors(_, _) => pid in h.sys.saved
    case SetPermission(p, t, state) => p == pid && t == sensorType && state
    case _ => false
  }

  ghost predicate NeverGrants(env: Env, h: Hub, calls: seq<Call>, pid: Int32, sensorType: int)
    requires PossibleRun(env, h, calls)
    decreases |calls|
  {
    calls == []
    || (!Grants(h, calls[0], pid, sensorType) && NeverGrants(env, Apply(env, h, calls[0]), calls[1..], pid, sensorType))
  }

  /** Fewer records, or the same ones. */
  ghost predicate Within(a: ClientMap, b: ClientMap, d: Desc, pid: Int32) {
    Has(b, d, pid) ==> Has(a, d, pid) && a[d][pid].perm == b[d][pid].perm
  }

  lemma SubsWithin(a: ClientMap, b: ClientMap, d: Desc, pid: Int32)
    requires Subs(b, d) == Subs(a, d) || Subs(b, d) == Subs(a, d) - {pid}
    ensures Within(a, b, d, pid)
  {
  }

  lemma KeptWithin(a: ClientMap, b: ClientMap, d: Desc, pid: Int32)
    requires KeptFor(a, b, pid)
    ensures Within(a, b, d, pid)
  {
    assert SameRecord(a, b, d, pid);
  }

  lemma OwnCall(env: Env, h: Hub, c: Call, pid: Int32, sensorType: int, d: Desc)
    requires Inv(env, h.sys) && ChannelsOk(h) && Possible(h, c) && !Grants(h, c, pid, sensorType)
    requires pid in Concerned(h, c) && !c.SetPermission? && d.sensorType == sensorType
    ensures Within(h.sys.clients, Apply(env, h, c).sys.clients, d, pid)
  {
    hide Inv, EnableStep, DisableStep, SuspendSensorsStep, ResumeSensorsStep, ResetEach, ConnectStep, DeathStep;
    hide SetPerm, Register, Enumerates, ApplyBlockOp, ClearClient, Within, OthersKept;
    var a, b := h.sys.clients, Apply(env, h, c).sys.clients;
    match c
    case Enable(e, _, batch, granted) =>
      EnableKeeps(env, h.sys, e, pid, batch, granted);
      assert SameAt(h.sys, EnableStep(env, h.sys, e, pid, batch, granted).0, d);
      SubsWithin(a, b, d, pid);
    case Disable(e, _) =>
      DisableKeeps(env, h.sys, e, pid);
      if e != d {
        assert SameAt(h.sys, DisableStep(env, h.sys, e, pid).0, d);
      }
      SubsWithin(a, b, d, pid);
    case SuspendSensors(_, order) =>
      SuspendAnswersIff(env, h.sys, pid, order);
      SubsWithin(a, b, d, pid);
    case Leave(client, _) =>
      LeaveKeeps(env, h.sys, pid);
      NoneWithin(a, b, d, pid);
    case Death(client, order) =>
      if client in h.clientPids {
        DeathCleansUp(env, h, client, order);
        NoneWithin(a, b, d, pid);
      } else {
        DeathOfNobody(env, h, client, order);
        NoneWithin(a, b, d, pid);
      }
    case _ =>
  }

  lemma DeathOfNobody(env: Env, h: Hub, client: nat, order: seq<Desc>)
    requires client !in h.clientPids && Possible(h, Death(client, order))
    ensures Apply(env, h, Death(client, order)) == h
  {
    hide DisableEach, ForgetClient, ApplyBlockOp;
  }

  lemma NoneWithin(a: ClientMap, b: ClientMap, d: Desc, pid: Int32)
    requires SensorsOf(b, pid) == {} || b == a
    ensures Within(a, b, d, pid)
  {
    assert Has(b, d, pid) ==> d in SensorsOf(b, pid);
  }

  lemma CallKeepsRevoked(env: Env, h: Hub, c: Call, pid: Int32, sensorType: int)
    requires Inv(env, h.sys) && ChannelsOk(h) && Possible(h, c) && !Grants(h, c, pid, sensorType)
    requires Revoked(h.sys.clients, pid, sensorType)
    ensures Revoked(Apply(env, h, c).sys.clients, pid, sensorType)
  {
    var a, t := h.sys.clients, Apply(env, h, c);
    CallKeeps(env, h, c);
    hide Inv, ChannelsOk, Possible, KeptFor;
    forall d: Desc | d.sensorType == sensorType && Has(t.sys.clients, d, pid) ensures !t.sys.clients[d][pid].perm {
      if c.SetPermission? {
        SetPermIs(a, c.pid, c.sensorType, c.state, d, pid);
        hide SetPerm;
      } else {
        hide Apply;
        if pid in Concerned(h, c) {
          OwnCall(env, h, c, pid, sensorType, d);
        } else {
          KeptWithin(a, t.sys.clients, d, pid);
        }
      }
    }
  }

  lemma {:induction false} RevokedStays(env: Env, h: Hub, calls: seq<Call>, pid: Int32, sensorType: int)
    requires Inv(env, h.sys) && ChannelsOk(h) && PossibleRun(env, h, calls)
    requires Revoked(h.sys.clients, pid, sensorType) && NeverGrants(env, h, calls, pid, sensorType)
    ensures Revoked(Run(env, h, calls).sys.clients, pid, sensorType)
    decreases |calls|
  {
    hide Inv, ChannelsOk, Apply, Possible, Revoked, Grants;
    if calls != [] {
      CallKeeps(env, h, calls[0]);
      CallKeepsRevoked(env, h, calls[0], pid, sensorType);
      RevokedStays(env, Apply(env, h, calls[0]), calls[1..], pid, sensorType);
    }
  }

  /** Once the permission of a type is taken from a pid, no event of that type passes to it, through
      any calls of anybody, until a call grants it anew. */
  lemma RevocationHolds(env: Env, h: Hub, calls: seq<Call>, pid: Int32, d: Desc, gate: Gate)
    requires Inv(env, h.sys) && ChannelsOk(h)
    requires var revoked := Apply(env, h, SetPermission(pid, d.sensorType, false));
             PossibleRun(env, revoked, calls) && NeverGrants(env, revoked, calls, pid, d.sensorType)
    ensures var t := Run(env, Apply(env, h, SetPermission(pid, d.sensorType, false)), calls);
            !Passes(t.sys.clients, t.channels, t.policies, gate, d, pid)
  {
    var c := SetPermission(pid, d.sensorType, false);
    var revoked := Apply(env, h, c);
    CallKeeps(env, h, c);
    forall e: Desc | e.sensorType == d.sensorType && Has(revoked.sys.clients, e, pid)
      ensures !revoked.sys.clients[e][pid].perm
    {
      SetPermIs(h.sys.clients, pid, d.sensorType, false, e, pid);
    }
    hide Inv, ChannelsOk, Apply, SetPerm;
    RevokedStays(env, revoked, calls, pid, d.sensorType);
  }
}
