/** Whole runs of the service: any sequence of calls by any clients, with HDI calls failing at
    will. */
module ServiceRuns {
  import opened ByteCodec
  import opened Sequences
  import opened SensorTypes
  import opened ClientInfos
  import opened SensorManagers
  import opened SensorPowerPolicies
  import opened SensorServices
  import opened BlockPolicies
  import opened Arbitration
  import opened Suspension
  import opened RateExactness

  /** A service call. Where the service walks an unordered map, the call carries the order. */
  datatype Call =
    | Enable(d: Desc, pid: Int32, b: Batch, granted: bool)
    | Disable(d: Desc, pid: Int32)
    | SuspendSensors(pid: Int32, order: seq<Desc>)
    | ResumeSensors(pid: Int32, entries: seq<(Desc, Batch)>)
    | ResetSensors(pids: seq<Int32>, orders: seq<seq<(Desc, Batch)>>)
    | Connect(client: nat, pid: Int32, app: AppThread, channel: nat)
    | Leave(client: nat, pid: Int32)
    | OpenSocket(client: nat, pid: Int32)
    | CloseSocket(client: nat)
    | ListenActiveInfo(pid: Int32, on: bool)
    | Death(client: nat, order: seq<Desc>)
    | SetPermission(pid: Int32, sensorType: int, state: bool)
    | BlockData(op: BlockOp)

  function ClientPid(h: Hub, client: nat): (pid: Int32) {
    if client in h.clientPids then h.clientPids[client] else INVALID_PID
  }

  /** The orders are walks of the maps they claim to be, a channel object is new, and the pid of a
      calling process is not negative. */
  ghost predicate Possible(h: Hub, c: Call) {
    match c
    case SuspendSensors(pid, order) => Enumerates(order, SensorsOf(h.sys.clients, pid))
    case ResumeSensors(pid, entries) => pid in h.sys.saved ==> Enumerates(entries, h.sys.saved[pid].Items)
    case ResetSensors(pids, orders) => Enumerates(pids, h.sys.saved.Keys) && OrdersFor(h.sys.saved, pids, orders)
    case Death(client, order) => Enumerates(order, SensorsOf(h.sys.clients, ClientPid(h, client)))
    case Connect(_, _, _, channel) => channel !in h.channels.Values
    case OpenSocket(_, pid) => pid >= 0
    case BlockData(op) => !op.ClearIssued?
    case _ => true
  }

  ghost function Apply(env: Env, h: Hub, c: Call): (r: Hub)
    requires Possible(h, c)
  {
    match c
    case Enable(d, pid, b, granted) => h.(sys := EnableStep(env, h.sys, d, pid, b, granted).0)
    case Disable(d, pid) => h.(sys := DisableStep(env, h.sys, d, pid).0)
    case SuspendSensors(pid, order) => h.(sys := SuspendSensorsStep(env, h.sys, pid, order).0)
    case ResumeSensors(pid, entries) => h.(sys := ResumeSensorsStep(env, h.sys, pid, entries).0)
    case ResetSensors(pids, orders) => h.(sys := ResetEach(env, h.sys, pids, orders).0)
    case Connect(client, pid, app, channel) => ConnectStep(h, client, pid, app, channel)
    case Leave(client, pid) => LeaveStep(h, client, pid)
    case OpenSocket(client, pid) => Register(h, client, pid)
    case CloseSocket(client) => Release(h, client)
    case ListenActiveInfo(pid, on) => h.(activeCb := if on then h.activeCb + {pid} else h.activeCb - {pid})
    case Death(client, order) => DeathStep(env, h, client, order)
    case SetPermission(pid, sensorType, state) =>
      h.(sys := h.sys.(clients := SetPerm(h.sys.clients, pid, sensorType, state)))
    case BlockData(op) => h.(policies := ApplyBlockOp(h.policies, op))
  }

  /** The pids whose records a call may change. */
  function Concerned(h: Hub, c: Call): (s: set<Int32>) {
    match c
    case Enable(_, pid, _, _) => {pid}
    case Disable(_, pid) => {pid}
    case SuspendSensors(pid, _) => {pid}
    case ResumeSensors(pid, _) => {pid}
    case ResetSensors(_, _) => h.sys.saved.Keys
    case Connect(_, _, _, _) => {}
    case Leave(_, pid) => {pid}
    case OpenSocket(_, _) => {}
    case CloseSocket(_) => {}
    case ListenActiveInfo(_, _) => {}
    case Death(client, _) => {ClientPid(h, client)}
    case SetPermission(pid, _, _) => {pid}
    case BlockData(_) => {}
  }

  ghost predicate KeptFor(a: ClientMap, b: ClientMap, q: Int32) {
    forall d: Desc :: SameRecord(a, b, d, q)
  }

  lemma OthersAreKept(a: ClientMap, b: ClientMap, pid: Int32)
    requires OthersKept(a, b, pid)
    ensures forall q: Int32 :: q != pid ==> KeptFor(a, b, q)
  {
  }

  lemma KeptTrans(a: ClientMap, b: ClientMap, c: ClientMap, q: Int32)
    requires KeptFor(a, b, q) && KeptFor(b, c, q)
    ensures KeptFor(a, c, q)
  {
    forall d: Desc ensures SameRecord(a, c, d, q) {
      assert SameRecord(a, b, d, q) && SameRecord(b, c, d, q);
    }
  }

  lemma SuspendCallKeeps(env: Env, s: Sys, pid: Int32, order: seq<Desc>)
    requires Inv(env, s) && Enumerates(order, SensorsOf(s.clients, pid))
    ensures var t := SuspendSensorsStep(env, s, pid, order).0;
            Inv(env, t) && OthersKept(s.clients, t.clients, pid)
  {
    hide Fixed;
    OrderIsOwn(env, s, pid, order);
    if order != [] {
      var acc: Saved := if pid in s.saved then s.saved[pid] else map[];
      SavedFixed(env, acc);
      SuspendEachKeeps(env, s, pid, order, acc, true);
      hide SuspendEach;
      var u := SuspendEach(env, s, pid, order, acc, true);
      SavedFixed(env, u.1);
      InvIgnoresSaved(env, u.0, SuspendSensorsStep(env, s, pid, order).0);
    }
  }

  lemma ResumeCallKeeps(env: Env, s: Sys, pid: Int32, entries: seq<(Desc, Batch)>)
    requires Inv(env, s) && (pid in s.saved ==> Enumerates(entries, s.saved[pid].Items))
    ensures var t := ResumeSensorsStep(env, s, pid, entries).0;
            Inv(env, t) && OthersKept(s.clients, t.clients, pid)
  {
    hide Fixed;
    if pid in s.saved {
      SavedFixed(env, s.saved[pid]);
      EntriesOk(env, s.saved[pid], entries);
      ResumeEachKeeps(env, s, pid, entries, true);
      hide ResumeEach, OrderOk, AllFixed;
      InvIgnoresSaved(env, ResumeEach(env, s, pid, entries, true).0, ResumeSensorsStep(env, s, pid, entries).0);
    }
  }

  /** ResetSensors keeps the invariant and everybody without a saved entry; it loses only the
      saved entries whose resume succeeded. */
  lemma {:induction false} ResetKeeps(env: Env, s: Sys, pids: seq<Int32>, orders: seq<seq<(Desc, Batch)>>)
    requires Inv(env, s) && Distinct(pids) && OrdersFor(s.saved, pids, orders)
    ensures var t := ResetEach(env, s, pids, orders).0;
            Inv(env, t) && (forall q: Int32 :: q !in pids ==> KeptFor(s.clients, t.clients, q))
            && forall q <- s.saved :: q !in pids ==> q in t.saved && t.saved[q] == s.saved[q]
    decreases |pids|
  {
    hide Fixed, ResumeSensorsStep, Inv;
    if pids != [] {
      var n := |pids| - 1;
      assert forall i :: 0 <= i < n ==> pids[..n][i] == pids[i];
      ResetKeeps(env, s, pids[..n], orders[..n]);
      var t := ResetEach(env, s, pids[..n], orders[..n]).0;
      assert pids[n] in t.saved && t.saved[pids[n]] == s.saved[pids[n]];
      ResumeCallKeeps(env, t, pids[n], orders[n]);
      ResumeKeepsSaved(env, t, pids[n], orders[n]);
      var u := ResumeSensorsStep(env, t, pids[n], orders[n]).0;
      OthersAreKept(t.clients, u.clients, pids[n]);
      forall q: Int32 | q !in pids ensures KeptFor(s.clients, u.clients, q) {
        assert pids[n] in pids && q !in pids[..n];
        KeptTrans(s.clients, t.clients, u.clients, q);
      }
    }
  }

  /** A ResetSensors that reports success has restored every saved configuration of every suspended
      client, with the sensor on, and left no saved entry of theirs. */
  lemma {:induction false} ResetRestoresAll(env: Env, s: Sys, pids: seq<Int32>, orders: seq<seq<(Desc, Batch)>>)
    requires Inv(env, s) && Distinct(pids) && OrdersFor(s.saved, pids, orders) && ResetEach(env, s, pids, orders).1
    ensures var t := ResetEach(env, s, pids, orders).0;
            Inv(env, t) && forall pid <- pids :: pid !in t.saved && AllThawed(t, pid, s.saved[pid])
    decreases |pids|
  {
    hide Fixed, ResumeSensorsStep, Inv, AllThawed;
    if pids != [] {
      var n := |pids| - 1;
      var pid, earlier := pids[n], pids[..n];
      assert forall i :: 0 <= i < n ==> earlier[i] == pids[i];
      ResetRestoresAll(env, s, earlier, orders[..n]);
      ResetKeeps(env, s, earlier, orders[..n]);
      var t := ResetEach(env, s, earlier, orders[..n]).0;
      assert pid !in earlier && pid in t.saved && t.saved[pid] == s.saved[pid];
      ResumeRestores(env, t, pid, orders[n]);
      var u := ResumeSensorsStep(env, t, pid, orders[n]).0;
      RestoredIsThawed(env, t, u, pid);
      forall q <- pids ensures q !in u.saved && AllThawed(u, q, s.saved[q]) {
        if q != pid {
          assert q in earlier && q !in t.saved;
          StaysThawed(env, t, u, pid, q, s.saved[q]);
        }
      }
    }
  }

  /** The pid holds exactly these configurations, permitted, with their sensors on. */
  ghost predicate AllThawed(t: Sys, pid: Int32, m: Saved) {
    forall d <- m :: Has(t.clients, d, pid) && t.clients[d][pid] == Thawed(m[d]) && d in t.dev.on
  }

  lemma RestoredIsThawed(env: Env, s: Sys, t: Sys, pid: Int32)
    requires pid in s.saved && forall d <- s.saved[pid] ::
      Subs(t.clients, d) == Subs(s.clients, d)[pid := Thawed(s.saved[pid][d])] && d in t.dev.on
    ensures AllThawed(t, pid, s.saved[pid])
  {
    forall d <- s.saved[pid] ensures Has(t.clients, d, pid) && t.clients[d][pid] == Thawed(s.saved[pid][d]) {
      assert pid in Subs(t.clients, d);
    }
  }

  /** Another client's resume leaves them so. */
  lemma StaysThawed(env: Env, s: Sys, t: Sys, pid: Int32, q: Int32, m: Saved)
    requires q != pid && OthersKept(s.clients, t.clients, pid) && Inv(env, t) && AllThawed(s, q, m)
    ensures AllThawed(t, q, m)
  {
    hide Fixed, SavedOk;
    forall d <- m ensures Has(t.clients, d, q) && t.clients[d][q] == Thawed(m[d]) && d in t.dev.on {
      assert SameRecord(s.clients, t.clients, d, q) && InvAt(env, t, d);
      assert q in Subs(t.clients, d);
    }
  }

  /** Dropping all records of a client leaves a sound state. */
  lemma LeaveKeeps(env: Env, s: Sys, pid: Int32)
    requires Inv(env, s)
    ensures var t := s.(clients := ClearClient(s.clients, pid));
            Inv(env, t) && OthersKept(s.clients, t.clients, pid) && SensorsOf(t.clients, pid) == {}
  {
    hide Fixed;
    var t := s.(clients := ClearClient(s.clients, pid));
    forall d: Desc ensures Subs(t.clients, d) == Subs(s.clients, d) - {pid} && InvAt(env, t, d) {
      assert InvAt(env, s, d);
      if d in s.clients && d !in t.clients {
        assert s.clients[d] - {pid} == map[];
      }
    }
  }

  lemma SetPermKeeps(env: Env, s: Sys, pid: Int32, sensorType: int, state: bool)
    requires Inv(env, s)
    ensures var t := s.(clients := SetPerm(s.clients, pid, sensorType, state));
            Inv(env, t) && OthersKept(s.clients, t.clients, pid)
  {
    hide Fixed;
    var t := s.(clients := SetPerm(s.clients, pid, sensorType, state));
    forall d: Desc ensures InvAt(env, t, d) {
      assert InvAt(env, s, d);
      var m, m' := Subs(s.clients, d), Subs(t.clients, d);
      assert m'.Keys == m.Keys;
      forall q <- m' ensures SoundRecord(env, d, q, m'[q]) && Served(t.dev, d, m'[q]) {
        assert m'[q] == m[q] || m'[q] == m[q].(perm := state);
        assert SoundRecord(env, d, q, m[q]) && Served(s.dev, d, m[q]);
      }
    }
  }

  lemma {:induction false} DisableEachKeeps(env: Env, s: Sys, pid: Int32, order: seq<Desc>)
    requires Inv(env, s) && pid !in s.saved
    ensures var t := DisableEach(env, s, pid, order);
            Inv(env, t) && OthersKept(s.clients, t.clients, pid) && t.saved == s.saved
    decreases |order|
  {
    hide Fixed, DisableStep, Inv;
    if order != [] {
      var t := DisableStep(env, s, order[0], pid).0;
      DisableKeeps(env, s, order[0], pid);
      LocalKeeps(env, s, t, order[0], pid);
      DisableEachKeeps(env, t, pid, order[1..]);
      OthersKeptTrans(s.clients, t.clients, DisableEach(env, s, pid, order).clients, pid);
    }
  }

  /** Death, whichever DisableSensor calls fail: nothing of the client is left, and nobody else
      loses anything. */
  lemma DeathCleansUp(env: Env, h: Hub, client: nat, order: seq<Desc>)
    requires Inv(env, h.sys) && client in h.clientPids && h.clientPids[client] >= 0
    ensures var pid := h.clientPids[client];
            var t := DeathStep(env, h, client, order);
            Inv(env, t.sys)
            && pid !in t.sys.saved && SensorsOf(t.sys.clients, pid) == {} && pid !in t.channels && pid !in t.apps
            && pid !in t.activeCb && client !in t.clientPids
            && (forall target: Int32 :: TypesOf(t.policies, target, pid) == {})
            && OthersKept(h.sys.clients, t.sys.clients, pid) && t.sys.saved == h.sys.saved - {pid}
            && t.channels == h.channels - {pid} && t.apps == h.apps - {pid} && t.activeCb == h.activeCb - {pid}
            && t.clientPids == h.clientPids - {client}
            && forall target: Int32, issuer: Int32 :: issuer != pid ==>
                 TypesOf(t.policies, target, issuer) == TypesOf(h.policies, target, issuer)
  {
    hide Fixed;
    var pid := h.clientPids[client];
    var s := h.sys.(saved := h.sys.saved - {pid});
    InvIgnoresSaved(env, h.sys, s);
    DisableEachKeeps(env, s, pid, order);
    var u := DisableEach(env, s, pid, order);
    LeaveKeeps(env, u, pid);
    OthersKeptTrans(h.sys.clients, u.clients, ClearClient(u.clients, pid), pid);
    hide Inv, OthersKept, DisableEach, ClearClient;
    ClearedIssuer(h.policies, pid);
  }

  lemma ClearedIssuer(p: Policies, pid: Int32)
    ensures var r := ApplyBlockOp(p, ClearIssued(pid));
            (forall target: Int32 :: TypesOf(r, target, pid) == {})
            && forall target: Int32, issuer: Int32 :: issuer != pid ==>
                 TypesOf(r, target, issuer) == TypesOf(p, target, issuer)
  {
    var r := ApplyBlockOp(p, ClearIssued(pid));
    forall target: Int32, issuer: Int32 | issuer != pid
      ensures TypesOf(r, target, issuer) == TypesOf(p, target, issuer)
    {
      if target in p && issuer in p[target] {
        assert issuer in p[target] - {pid};
      }
    }
  }

  /** No two pids share a channel. */
  ghost predicate Injective(channels: map<Int32, nat>) {
    forall p <- channels, q <- channels :: channels[p] == channels[q] ==> p == q
  }

  /** No two clients share a channel, and registered pids are real. */
  ghost predicate ChannelsOk(h: Hub) {
    Injective(h.channels) && forall c <- h.clientPids :: h.clientPids[c] >= 0
  }

  /** One call: the invariant is kept, and only the pids it concerns see their records change. */
  lemma CallKeeps(env: Env, h: Hub, c: Call)
    requires Inv(env, h.sys) && ChannelsOk(h) && Possible(h, c)
    ensures var t := Apply(env, h, c);
            Inv(env, t.sys) && ChannelsOk(t)
            && forall q: Int32 :: q !in Concerned(h, c) ==> KeptFor(h.sys.clients, t.sys.clients, q)
  {
    hide Inv, EnableStep, DisableStep, SuspendSensorsStep, ResumeSensorsStep, ResetEach, ConnectStep, LeaveStep;
    hide DeathStep, SetPerm, Register, Release, OthersKept, KeptFor, Enumerates, ApplyBlockOp;
    var t := Apply(env, h, c);
    KeptRefl(h.sys.clients);
    match c
    case Enable(d, pid, b, granted) =>
      EnableKeeps(env, h.sys, d, pid, b, granted);
      LocalKeeps(env, h.sys, t.sys, d, pid);
      OthersAreKept(h.sys.clients, t.sys.clients, pid);
    case Disable(d, pid) =>
      DisableKeeps(env, h.sys, d, pid);
      LocalKeeps(env, h.sys, t.sys, d, pid);
      OthersAreKept(h.sys.clients, t.sys.clients, pid);
    case SuspendSensors(pid, order) =>
      SuspendCallKeeps(env, h.sys, pid, order);
      OthersAreKept(h.sys.clients, t.sys.clients, pid);
    case ResumeSensors(pid, entries) =>
      ResumeCallKeeps(env, h.sys, pid, entries);
      OthersAreKept(h.sys.clients, t.sys.clients, pid);
    case ResetSensors(pids, orders) =>
      EnumeratesDistinct(pids, h.sys.saved.Keys);
      ResetKeeps(env, h.sys, pids, orders);
    case Connect(client, pid, app, channel) => ConnectKeeps(h, client, pid, app, channel);
    case Leave(client, pid) =>
      LeaveCallKeeps(env, h, client, pid);
      OthersAreKept(h.sys.clients, t.sys.clients, pid);
    case OpenSocket(client, pid) => TableKeeps(h, client, pid);
    case CloseSocket(client) => TableKeeps(h, client, 0);
    case ListenActiveInfo(_, _) =>
    case Death(client, order) =>
      DeathCallKeeps(env, h, client, order);
      OthersAreKept(h.sys.clients, t.sys.clients, ClientPid(h, client));
    case SetPermission(pid, sensorType, state) =>
      SetPermKeeps(env, h.sys, pid, sensorType, state);
      OthersAreKept(h.sys.clients, t.sys.clients, pid);
    case BlockData(op) =>
  }

  lemma TableKeeps(h: Hub, client: nat, pid: Int32)
    requires ChannelsOk(h) && pid >= 0
    ensures ChannelsOk(Register(h, client, pid)) && Register(h, client, pid).sys == h.sys
    ensures ChannelsOk(Release(h, client)) && Release(h, client).sys == h.sys
  {
  }

  lemma LeaveCallKeeps(env: Env, h: Hub, client: nat, pid: Int32)
    requires Inv(env, h.sys) && ChannelsOk(h)
    ensures var t := LeaveStep(h, client, pid);
            Inv(env, t.sys) && ChannelsOk(t) && OthersKept(h.sys.clients, t.sys.clients, pid)
  {
    LeaveKeeps(env, h.sys, pid);
    hide Inv, ClearClient;
  }

  lemma DeathCallKeeps(env: Env, h: Hub, client: nat, order: seq<Desc>)
    requires Inv(env, h.sys) && ChannelsOk(h)
    ensures var t := DeathStep(env, h, client, order);
            Inv(env, t.sys) && ChannelsOk(t) && OthersKept(h.sys.clients, t.sys.clients, ClientPid(h, client))
  {
    if client in h.clientPids {
      DeathCleansUp(env, h, client, order);
      hide Inv, DeathStep, OthersKept;
    }
  }

  lemma KeptRefl(a: ClientMap)
    ensures forall q: Int32 :: KeptFor(a, a, q)
  {
  }

  lemma EnumeratesDistinct(pids: seq<Int32>, s: set<Int32>)
    requires Enumerates(pids, s)
    ensures Distinct(pids) && forall q: Int32 :: q in pids <==> q in s
  {
  }

  lemma ConnectKeeps(h: Hub, client: nat, pid: Int32, app: AppThread, channel: nat)
    requires ChannelsOk(h) && channel !in h.channels.Values
    ensures var t := ConnectStep(h, client, pid, app, channel);
            ChannelsOk(t) && t.sys == h.sys && t.policies == h.policies
  {
  }

  /** A run: every call possible when it is made. */
  ghost predicate PossibleRun(env: Env, h: Hub, calls: seq<Call>)
    decreases |calls|
  {
    calls == [] || (Possible(h, calls[0]) && PossibleRun(env, Apply(env, h, calls[0]), calls[1..]))
  }

  ghost function Run(env: Env, h: Hub, calls: seq<Call>): (r: Hub)
    requires PossibleRun(env, h, calls)
    decreases |calls|
  {
    if calls == [] then h else Run(env, Apply(env, h, calls[0]), calls[1..])
  }

  /** The service as it starts: nobody connected, the device in whatever state it is. */
  predicate Initial(h: Hub) {
    h == Hub(Sys(map[], map[], h.sys.dev), map[], map[], map[], {}, map[])
  }

  /** In every state any run reaches, whatever HDI calls fail: each stored record is enabled,
      valid, its sensor is on, and the hardware is at least as fast as the record asks. */
  lemma EveryRunKeepsInvariant(env: Env, h: Hub, calls: seq<Call>)
    requires Initial(h) && PossibleRun(env, h, calls)
    ensures var t := Run(env, h, calls);
            forall d: Desc, pid: Int32 :: Has(t.sys.clients, d, pid) ==>
              var info := t.sys.clients[d][pid];
              info.state && d in t.sys.dev.on && d in t.sys.dev.batch
              && t.sys.dev.batch[d].period <= info.period && t.sys.dev.batch[d].delay <= info.delay
  {
    InitialInv(env, h);
    RunKeeps(env, h, calls);
    var t := Run(env, h, calls);
    forall d: Desc, pid: Int32 | Has(t.sys.clients, d, pid)
      ensures SoundRecord(env, d, pid, t.sys.clients[d][pid]) && Served(t.sys.dev, d, t.sys.clients[d][pid])
              && d in t.sys.dev.on
    {
      assert InvAt(env, t.sys, d);
    }
  }

  lemma InitialInv(env: Env, h: Hub)
    requires Initial(h)
    ensures Inv(env, h.sys) && ChannelsOk(h)
  {
  }

  lemma {:induction false} RunKeeps(env: Env, h: Hub, calls: seq<Call>)
    requires Inv(env, h.sys) && ChannelsOk(h) && PossibleRun(env, h, calls)
    ensures Inv(env, Run(env, h, calls).sys) && ChannelsOk(Run(env, h, calls))
    decreases |calls|
  {
    hide Inv, Apply, Possible, ChannelsOk;
    if calls != [] {
      CallKeeps(env, h, calls[0]);
      RunKeeps(env, Apply(env, h, calls[0]), calls[1..]);
    }
  }

  ghost predicate Bystander(env: Env, h: Hub, calls: seq<Call>, q: Int32)
    requires PossibleRun(env, h, calls)
    decreases |calls|
  {
    calls == [] || (q !in Concerned(h, calls[0]) && Bystander(env, Apply(env, h, calls[0]), calls[1..], q))
  }

  /** A client whose pid no call concerns keeps every one of its records through the whole run. */
  lemma {:induction false} BystandersKeepEverything(env: Env, h: Hub, calls: seq<Call>, q: Int32)
    requires Inv(env, h.sys) && ChannelsOk(h) && PossibleRun(env, h, calls) && Bystander(env, h, calls, q)
    ensures KeptFor(h.sys.clients, Run(env, h, calls).sys.clients, q)
    decreases |calls|
  {
    hide Inv, Apply, Possible, ChannelsOk, KeptFor;
    if calls == [] {
      KeptRefl(h.sys.clients);
    } else {
      var t := Apply(env, h, calls[0]);
      CallKeeps(env, h, calls[0]);
      BystandersKeepEverything(env, t, calls[1..], q);
      KeptTrans(h.sys.clients, t.sys.clients, Run(env, h, calls).sys.clients, q);
    }
  }

  /** The calls that may drop parts of a saved entry on purpose: the client disables or dies. */
  predicate GivesUp(h: Hub, c: Call, pid: Int32) {
    match c
    case Disable(_, p) => p == pid
    case Death(client, _) => ClientPid(h, client) == pid
    case _ => false
  }

  /** Any other call keeps a saved entry whole, or removes it by a successful resume. */
  lemma SavedKept(env: Env, h: Hub, c: Call, pid: Int32)
    requires Inv(env, h.sys) && ChannelsOk(h) && Possible(h, c) && pid in h.sys.saved && !GivesUp(h, c, pid)
    requires pid in Apply(env, h, c).sys.saved
    ensures Apply(env, h, c).sys.saved[pid] == h.sys.saved[pid]
  {
    hide Inv, ChannelsOk, EnableStep, DisableStep, SuspendSensorsStep, ResumeSensorsStep, ResetEach, OthersKept;
    hide ConnectStep, DeathStep, SetPerm, ClearClient, Enumerates, ApplyBlockOp;
    match c
    case Connect(client, p, app, channel) => ConnectKeeps(h, client, p, app, channel);
    case Enable(d, p, b, granted) => EnableKeeps(env, h.sys, d, p, b, granted);
    case Disable(d, p) => DisableKeeps(env, h.sys, d, p);
    case SuspendSensors(p, order) => SuspendKeepsSaved(env, h.sys, p, order);
    case ResumeSensors(p, entries) => ResumeKeepsSaved(env, h.sys, p, entries);
    case ResetSensors(pids, orders) => ResetKeepsSaved(env, h.sys, pids, orders);
    case Death(client, order) => DeathKeepsSaved(env, h, client, order);
    case _ =>
  }

  lemma DeathKeepsSaved(env: Env, h: Hub, client: nat, order: seq<Desc>)
    requires Inv(env, h.sys) && ChannelsOk(h)
    ensures var t := DeathStep(env, h, client, order).sys.saved;
            forall q <- t :: q in h.sys.saved && t[q] == h.sys.saved[q]
  {
    if client in h.clientPids {
      DeathCleansUp(env, h, client, order);
    }
  }

  lemma SuspendKeepsSaved(env: Env, s: Sys, p: Int32, order: seq<Desc>)
    requires Inv(env, s) && Enumerates(order, SensorsOf(s.clients, p))
    ensures forall q <- s.saved :: q in SuspendSensorsStep(env, s, p, order).0.saved
                                   && SuspendSensorsStep(env, s, p, order).0.saved[q] == s.saved[q]
  {
    hide Fixed;
    OrderIsOwn(env, s, p, order);
    if order != [] {
      var acc: Saved := if p in s.saved then s.saved[p] else map[];
      SavedFixed(env, acc);
      SuspendEachKeeps(env, s, p, order, acc, true);
      hide SuspendEach;
    }
  }

  lemma {:induction false} ResetKeepsSaved(env: Env, s: Sys, pids: seq<Int32>, orders: seq<seq<(Desc, Batch)>>)
    requires |pids| == |orders|
    ensures var t := ResetEach(env, s, pids, orders).0; forall x <- t.saved :: x in s.saved && t.saved[x] == s.saved[x]
    decreases |pids|
  {
    hide ResumeSensorsStep;
    if pids != [] {
      var n := |pids| - 1;
      ResetKeepsSaved(env, s, pids[..n], orders[..n]);
      ResumeKeepsSaved(env, ResetEach(env, s, pids[..n], orders[..n]).0, pids[n], orders[n]);
    }
  }

  /** The client never gives up during the run, and its entry is there after every call. */
  ghost predicate StaysSaved(env: Env, h: Hub, calls: seq<Call>, pid: Int32)
    requires PossibleRun(env, h, calls)
    decreases |calls|
  {
    pid in h.sys.saved
    && (calls == [] || (!GivesUp(h, calls[0], pid) && StaysSaved(env, Apply(env, h, calls[0]), calls[1..], pid)))
  }

  lemma {:induction false} SavedSurvives(env: Env, h: Hub, calls: seq<Call>, pid: Int32)
    requires Inv(env, h.sys) && ChannelsOk(h) && PossibleRun(env, h, calls) && StaysSaved(env, h, calls, pid)
    ensures var t := Run(env, h, calls);
            Inv(env, t.sys) && pid in t.sys.saved && t.sys.saved[pid] == h.sys.saved[pid]
    decreases |calls|
  {
    hide Inv, Apply, Possible, ChannelsOk, GivesUp;
    if calls != [] {
      assert StaysSaved(env, Apply(env, h, calls[0]), calls[1..], pid);
      CallKeeps(env, h, calls[0]);
      SavedKept(env, h, calls[0], pid);
      SavedSurvives(env, Apply(env, h, calls[0]), calls[1..], pid);
    }
  }

  /** No saved configuration is lost: whatever happens in between, other clients' calls and failed
      resumes included, the first resume that succeeds restores all of it. */
  lemma LaterResumeRestoresAll(env: Env, h: Hub, calls: seq<Call>, pid: Int32, entries: seq<(Desc, Batch)>)
    requires Inv(env, h.sys) && ChannelsOk(h) && PossibleRun(env, h, calls) && StaysSaved(env, h, calls, pid)
    requires var t := Run(env, h, calls).sys; pid in t.saved && Enumerates(entries, t.saved[pid].Items)
    ensures var r := ResumeSensorsStep(env, Run(env, h, calls).sys, pid, entries);
            r.1 == ErrOk ==> pid !in r.0.saved && forall d <- h.sys.saved[pid] ::
              Has(r.0.clients, d, pid) && r.0.clients[d][pid] == Thawed(h.sys.saved[pid][d]) && d in r.0.dev.on
  {
    SavedSurvives(env, h, calls, pid);
    var t := Run(env, h, calls).sys;
    ResumeRestores(env, t, pid, entries);
    hide Inv, ChannelsOk, ResumeSensorsStep, Run, PossibleRun, StaysSaved;
    var r := ResumeSensorsStep(env, t, pid, entries);
    if r.1 == ErrOk {
      forall d <- h.sys.saved[pid]
        ensures Has(r.0.clients, d, pid) && r.0.clients[d][pid] == Thawed(h.sys.saved[pid][d])
      {
        assert Subs(r.0.clients, d) == Subs(t.clients, d)[pid := Thawed(t.saved[pid][d])];
        assert pid in Subs(r.0.clients, d);
      }
    }
  }

  /** A refused enable, with cooperating hardware, touches neither the device nor other sensors. */
  lemma EnableRefused(env: Env, s: Sys, d: Desc, pid: Int32, b: Batch, granted: bool)
    requires HdiOk(env) && EnableStep(env, s, d, pid, b, granted).1 != ErrOk
    ensures EnableStep(env, s, d, pid, b, granted).0.dev == s.dev
  {
    EnableEffect(env, s, d, pid, b, granted);
    var info := GetSensorInfo(env.sensors, d, b.period, b.delay);
    hide SetBest, Best, Enabled;
  }
}
