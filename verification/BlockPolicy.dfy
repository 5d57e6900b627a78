/** SensorDataBlockPolicy: which client has blocked which sensor types of which target. */
module BlockPolicies {
  import opened ByteCodec

  /** Target pid to issuing client pid to blocked sensor types. */
  type Policies = map<Int32, map<Int32, set<Int32>>>

  function TypesOf(p: Policies, target: Int32, client: Int32): (s: set<Int32>) {
    if target in p && client in p[target] then p[target][client] else {}
  }

  ghost predicate Blocked(p: Policies, target: Int32, sensorType: Int32) {
    exists client: Int32 :: sensorType in TypesOf(p, target, client)
  }

  /** The operations of the policy, as recorded in a history. */
  datatype BlockOp =
    | Block(target: Int32, types: seq<Int32>, client: Int32)
    | Unblock(client: Int32, target: Int32)
    | ClearIssued(client: Int32)
    | ClearAll

  /** The parameter check of BlockSensorDataByPid. */
  predicate Accepted(op: BlockOp) {
    op.Block? && op.target > 0 && op.client > 0 && op.types != []
  }

  function Elements(s: seq<Int32>): (r: set<Int32>) {
    set x | x in s
  }

  /** The effect of one operation; rejected ones have none. */
  function ApplyBlockOp(p: Policies, op: BlockOp): (r: Policies) {
    match op
    case Block(target, types, client) =>
      if !Accepted(op) then p
      else
        var clients: map<Int32, set<Int32>> := if target in p then p[target] else map[];
        p[target := clients[client := TypesOf(p, target, client) + Elements(types)]]
    case Unblock(client, target) =>
      if client <= 0 || target <= 0 || target !in p || client !in p[target] then p
      else if p[target] - {client} == map[] then p - {target}
      else p[target := p[target] - {client}]
    case ClearIssued(client) => map t | t in p && p[t] - {client} != map[] :: p[t] - {client}
    case ClearAll => map[]
  }

  function RunBlockOps(history: seq<BlockOp>): (p: Policies) {
    if history == [] then map[] else ApplyBlockOp(RunBlockOps(history[..|history| - 1]), history[|history| - 1])
  }

  predicate Issues(op: BlockOp, target: Int32, client: Int32, sensorType: Int32) {
    op.Block? && op.target == target && op.client == client && target > 0 && client > 0 && sensorType in op.types
  }

  predicate Cancels(op: BlockOp, target: Int32, client: Int32) {
    match op
    case Block(_, _, _) => false
    case Unblock(c, t) => c == client && t == target
    case ClearIssued(c) => c == client
    case ClearAll => true
  }

  /** In this history `client` blocked the type for `target`, and nothing took it back since. */
  ghost predicate Outstanding(history: seq<BlockOp>, target: Int32, client: Int32, sensorType: Int32) {
    exists i :: 0 <= i < |history| && Issues(history[i], target, client, sensorType)
      && forall j :: i < j < |history| ==> !Cancels(history[j], target, client)
  }

  lemma OutstandingStep(history: seq<BlockOp>, op: BlockOp, target: Int32, client: Int32, sensorType: Int32)
    ensures Outstanding(history + [op], target, client, sensorType)
        <==> Issues(op, target, client, sensorType)
             || (Outstanding(history, target, client, sensorType) && !Cancels(op, target, client))
  {
    var h := history + [op];
    var n := |history|;
    assert h[n] == op;
    if Issues(op, target, client, sensorType) {
      assert Issues(h[n], target, client, sensorType);
    } else if Outstanding(history, target, client, sensorType) && !Cancels(op, target, client) {
      var i :| 0 <= i < n && Issues(history[i], target, client, sensorType)
        && forall j :: i < j < n ==> !Cancels(history[j], target, client);
      assert Issues(h[i], target, client, sensorType);
      assert forall j :: i < j < n ==> h[j] == history[j];
    }
    if Outstanding(h, target, client, sensorType) {
      var i :| 0 <= i < |h| && Issues(h[i], target, client, sensorType)
        && forall j :: i < j < |h| ==> !Cancels(h[j], target, client);
      if i < n {
        assert Issues(history[i], target, client, sensorType);
        assert forall j :: i < j < n ==> history[j] == h[j];
      }
    }
  }

  lemma PolicyStep(p: Policies, op: BlockOp, target: Int32, client: Int32, sensorType: Int32)
    requires sensorType in TypesOf(p, target, client) ==> target > 0 && client > 0
    ensures sensorType in TypesOf(ApplyBlockOp(p, op), target, client)
        <==> Issues(op, target, client, sensorType)
             || (sensorType in TypesOf(p, target, client) && !Cancels(op, target, client))
  {
    var q := ApplyBlockOp(p, op);
    match op
    case Block(t, types, c) =>
      assert sensorType in Elements(types) <==> sensorType in types;
      if Accepted(op) {
        assert TypesOf(q, t, c) == TypesOf(p, t, c) + Elements(types);
        if t == target && c != client {
          assert t in p ==> (client in q[t] <==> client in p[t]);
          assert t !in p ==> client !in q[t];
        }
      }
    case Unblock(c, t) =>
      if q != p {
        assert TypesOf(q, t, c) == {};
        assert t == target && c != client && client in p[t] ==> client in p[t] - {c};
      }
    case ClearIssued(c) =>
      assert c != client && target in p && client in p[target] ==> p[target] - {c} != map[] by {
        if c != client && target in p && client in p[target] {
          assert client in p[target] - {c};
        }
      }
      assert TypesOf(q, target, client) == if c == client then {} else TypesOf(p, target, client);
    case ClearAll =>
  }

  /** The policy map holds exactly the outstanding blocks of its history. */
  lemma {:induction false} PolicyIsOutstanding(history: seq<BlockOp>, target: Int32, client: Int32, sensorType: Int32)
    ensures sensorType in TypesOf(RunBlockOps(history), target, client)
        <==> Outstanding(history, target, client, sensorType)
    ensures Outstanding(history, target, client, sensorType) ==> target > 0 && client > 0
    decreases |history|
  {
    if history != [] {
      var n := |history| - 1;
      var before, op := history[..n], history[n];
      PolicyIsOutstanding(before, target, client, sensorType);
      assert history == before + [op];
      OutstandingStep(before, op, target, client, sensorType);
      PolicyStep(RunBlockOps(before), op, target, client, sensorType);
    }
  }

  /** Data of a type is withheld from a target exactly while somebody's block is outstanding. */
  lemma BlockedIffOutstanding(history: seq<BlockOp>, target: Int32, sensorType: Int32)
    ensures Blocked(RunBlockOps(history), target, sensorType)
        <==> exists client: Int32 :: Outstanding(history, target, client, sensorType)
  {
    forall client: Int32
      ensures sensorType in TypesOf(RunBlockOps(history), target, client)
          <==> Outstanding(history, target, client, sensorType)
    {
      PolicyIsOutstanding(history, target, client, sensorType);
    }
  }

  /** No empty policy and no target without a policy lingers. */
  ghost predicate Tidy(p: Policies) {
    (forall t <- p :: p[t] != map[]) && forall t <- p, c <- p[t] :: p[t][c] != {}
  }

  lemma {:induction false} PoliciesStayTidy(history: seq<BlockOp>)
    ensures Tidy(RunBlockOps(history))
    decreases |history|
  {
    if history != [] {
      var n := |history| - 1;
      PoliciesStayTidy(history[..n]);
      var op := history[n];
      if Accepted(op) {
        assert op.types[0] in Elements(op.types);
        assert op.client in RunBlockOps(history)[op.target];
      }
    }
  }

  class SensorDataBlockPolicy {
    var blockPolicies: Policies

    constructor ()
      ensures blockPolicies == map[]
    {
      blockPolicies := map[];
    }

    method BlockSensorDataByPid(target: Int32, sensorTypes: seq<Int32>, client: Int32) returns (ok: bool)
      modifies this
      ensures ok == Accepted(Block(target, sensorTypes, client))
      ensures blockPolicies == ApplyBlockOp(old(blockPolicies), Block(target, sensorTypes, client))
    {
      if target <= 0 || client <= 0 {
        return false;
      }
      if sensorTypes == [] {
        return false;
      }
      var types: set<Int32> := {};
      if target in blockPolicies && client in blockPolicies[target] {
        types := blockPolicies[target][client];
      }
      ghost var before := types;
      for i := 0 to |sensorTypes|
        invariant types == before + Elements(sensorTypes[..i])
      {
        assert sensorTypes[..i + 1] == sensorTypes[..i] + [sensorTypes[i]];
        types := types + {sensorTypes[i]};
      }
      assert sensorTypes[..|sensorTypes|] == sensorTypes;
      var clients: map<Int32, set<Int32>> := if target in blockPolicies then blockPolicies[target] else map[];
      blockPolicies := blockPolicies[target := clients[client := types]];
      ok := true;
    }

    method UnblockSensorDataByClient(client: Int32, target: Int32) returns (ok: bool)
      modifies this
      ensures ok <==> client > 0 && target > 0
      ensures blockPolicies == ApplyBlockOp(old(blockPolicies), Unblock(client, target))
    {
      if client <= 0 || target <= 0 {
        return false;
      }
      if target !in blockPolicies {
        return true;
      }
      var clients: map<Int32, set<Int32>> := blockPolicies[target];
      if client !in clients {
        return true;
      }
      clients := clients - {client};
      blockPolicies := blockPolicies[target := clients];
      if clients == map[] {
        blockPolicies := blockPolicies - {target};
      }
      ok := true;
    }

    method IsSensorDataBlocked(target: Int32, sensorType: Int32) returns (blocked: bool)
      ensures blocked <==> Blocked(blockPolicies, target, sensorType)
    {
      if target !in blockPolicies {
        return false;
      }
      var clients := blockPolicies[target];
      var left := clients.Keys;
      while left != {}
        invariant left <= clients.Keys
        invariant forall c <- clients :: c !in left ==> sensorType !in clients[c]
        decreases |left|
      {
        var c :| c in left;
        left := left - {c};
        if sensorType in clients[c] {
          assert sensorType in TypesOf(blockPolicies, target, c);
          return true;
        }
      }
      blocked := false;
    }

    method ClearBlockPolicyByClient(client: Int32)
      modifies this
      ensures blockPolicies == ApplyBlockOp(old(blockPolicies), ClearIssued(client))
    {
      var left := blockPolicies.Keys;
      while left != {}
        invariant left <= blockPolicies.Keys
        invariant ApplyBlockOp(blockPolicies, ClearIssued(client))
                  == ApplyBlockOp(old(blockPolicies), ClearIssued(client))
        invariant forall t <- blockPolicies :: t !in left ==> client !in blockPolicies[t] && blockPolicies[t] != map[]
        decreases |left|
      {
        var t :| t in left;
        left := left - {t};
        ClearClientTurn(blockPolicies, t, client);
        var clients: map<Int32, set<Int32>> := blockPolicies[t] - {client};
        if clients == map[] {
          blockPolicies := blockPolicies - {t};
        } else {
          blockPolicies := blockPolicies[t := clients];
        }
      }
      ClearClientEnd(blockPolicies, client);
    }

    method GetBlockedSensorTypes(target: Int32) returns (types: seq<Int32>)
      ensures forall x: Int32 :: x in types <==> Blocked(blockPolicies, target, x)
    {
      types := [];
      if target !in blockPolicies {
        return;
      }
      var clients := blockPolicies[target];
      var left := clients.Keys;
      while left != {}
        invariant left <= clients.Keys
        invariant forall x: Int32 :: x in types <==> exists c <- clients :: c !in left && x in clients[c]
        decreases |left|
      {
        var c :| c in left;
        left := left - {c};
        var some := ListTypes(clients[c]);
        types := types + some;
      }
      forall x: Int32 ensures x in types <==> Blocked(blockPolicies, target, x) {
        if x in types {
          var c :| c in clients && x in clients[c];
          assert x in TypesOf(blockPolicies, target, c);
        }
      }
    }

    static method ListTypes(s: set<Int32>) returns (types: seq<Int32>)
      ensures forall x: Int32 :: x in types <==> x in s
    {
      types := [];
      var left := s;
      while left != {}
        invariant left <= s && forall x: Int32 :: x in types <==> x in s && x !in left
        decreases |left|
      {
        var x :| x in left;
        left := left - {x};
        types := types + [x];
      }
    }

    method ClearAllBlockPolicies()
      modifies this
      ensures blockPolicies == ApplyBlockOp(old(blockPolicies), ClearAll)
    {
      blockPolicies := map[];
    }
  }

  lemma ClearClientTurn(p: Policies, t: Int32, client: Int32)
    requires t in p
    ensures var m := p[t] - {client};
            ApplyBlockOp(if m == map[] then p - {t} else p[t := m], ClearIssued(client))
                == ApplyBlockOp(p, ClearIssued(client))
  {
    var m := p[t] - {client};
    assert m - {client} == m;
    var r := if m == map[] then p - {t} else p[t := m];
    assert ApplyBlockOp(r, ClearIssued(client)).Keys == ApplyBlockOp(p, ClearIssued(client)).Keys;
  }

  lemma ClearClientEnd(p: Policies, client: Int32)
    requires forall t <- p :: client !in p[t] && p[t] != map[]
    ensures ApplyBlockOp(p, ClearIssued(client)) == p
  {
    assert forall t <- p :: p[t] - {client} == p[t];
  }
}
