/** What a client's death clears: exactly what is left of a client that is still registered. */
module Departures {
  import opened ByteCodec
  import opened Sequences
  import opened SensorTypes
  import opened ClientInfos
  import opened SensorPowerPolicies
  import opened SensorServices
  import opened BlockPolicies
  import opened Arbitration
  import opened ServiceRuns
  import opened EventFilters

  // ----- when a client object is let go

  /** CloseSocket: the client object stays while its pid has a channel or listens for active-info
      reports; otherwise exactly that one goes. */
  lemma CloseReleasesIff(env: Env, h: Hub, client: nat)
    requires ChannelsOk(h) && client in h.clientPids
    ensures var t, pid := Apply(env, h, CloseSocket(client)), h.clientPids[client];
            t == if pid in h.channels || pid in h.activeCb then h else h.(clientPids := h.clientPids - {client})
  {
  }

  /** Leave: the caller's channel is gone first; then the same. */
  lemma LeaveReleasesIff(env: Env, h: Hub, client: nat, pid: Int32)
    requires ChannelsOk(h) && client in h.clientPids && pid >= 0
    ensures var t, own := Apply(env, h, Leave(client, pid)), h.clientPids[client];
            t.clientPids == (if own in h.channels - {pid} || own in h.activeCb then h.clientPids
                             else h.clientPids - {client})
            && t.channels == h.channels - {pid} && t.apps == h.apps - {pid} && t.activeCb == h.activeCb
            && t.policies == h.policies && t.sys.saved == h.sys.saved && t.sys.dev == h.sys.dev
  {
    hide ClearClient;
  }

  // ----- the tables as what the calls of a run amount to

  /** What a call tells about the clients. */
  datatype Mark =
    | Known(pid: Int32, app: AppThread)
    | Connected(pid: Int32, channel: nat)
    | Joined(client: nat, pid: Int32)
    | Left(client: nat, pid: Int32)
    | Closed(client: nat)
    | Listens(pid: Int32, on: bool)
    | Died(client: nat)

  /** The source's own tests of the ids and of the three tables of 200 entries. */
  function MarksOf(h: Hub, c: Call): (r: seq<Mark>) {
    match c
    case Connect(client, pid, app, channel) =>
      if app.uid == -1 || pid < 0 || (pid !in h.apps && |h.apps| == 200) then []
      else if pid !in h.channels && |h.channels| == 200 then [Known(pid, app)]
      else [Known(pid, app), Connected(pid, channel)] + Joins(h, client, pid)
    case OpenSocket(client, pid) => Joins(h, client, pid)
    case Leave(client, pid) => if pid >= 0 then [Left(client, pid)] else []
    case CloseSocket(client) => [Closed(client)]
    case ListenActiveInfo(pid, on) => [Listens(pid, on)]
    case Death(client, _) => [Died(client)]
    case _ => []
  }

  function Joins(h: Hub, client: nat, pid: Int32): (r: seq<Mark>) {
    if client in h.clientPids || |h.clientPids| < 200 then [Joined(client, pid)] else []
  }

  ghost function MarksOfRun(env: Env, h: Hub, calls: seq<Call>): (r: seq<Mark>)
    requires PossibleRun(env, h, calls)
    decreases |calls|
  {
    if calls == [] then [] else MarksOf(h, calls[0]) + MarksOfRun(env, Apply(env, h, calls[0]), calls[1..])
  }

  /** The client joined for `pid`, and since then neither joined again, nor died, nor left or closed
      its socket while the pid was neither connected nor listening. */
  ghost predicate Registered(m: seq<Mark>, client: nat, pid: Int32)
    decreases |m|, 1
  {
    m != [] && var n := |m| - 1;
    match m[n]
    case Joined(c, p) => if c == client then p == pid else Registered(m[..n], client, pid)
    case Died(c) => c != client && Registered(m[..n], client, pid)
    case Left(c, _) => Registered(m[..n], client, pid) && (c == client ==> Held(m, pid))
    case Closed(c) => Registered(m[..n], client, pid) && (c == client ==> Held(m, pid))
    case _ => Registered(m[..n], client, pid)
  }

  ghost predicate Held(m: seq<Mark>, pid: Int32)
    decreases |m|, 0
  {
    Listening(m, pid) || exists channel: nat :: ConnectedTo(m, pid, channel)
  }

  /** The pid's last connection, with no departure of it since, nor the death of its client. */
  ghost predicate ConnectedTo(m: seq<Mark>, pid: Int32, channel: nat)
    decreases |m|, -1
  {
    m != [] && var n := |m| - 1;
    match m[n]
    case Connected(p, ch) => if p == pid then ch == channel else ConnectedTo(m[..n], pid, channel)
    case Left(_, p) => p != pid && ConnectedTo(m[..n], pid, channel)
    case Died(c) => ConnectedTo(m[..n], pid, channel) && !Registered(m[..n], c, pid)
    case _ => ConnectedTo(m[..n], pid, channel)
  }

  ghost predicate KnownAs(m: seq<Mark>, pid: Int32, app: AppThread)
    decreases |m|, -1
  {
    m != [] && var n := |m| - 1;
    match m[n]
    case Known(p, a) => if p == pid then a == app else KnownAs(m[..n], pid, app)
    case Left(_, p) => p != pid && KnownAs(m[..n], pid, app)
    case Died(c) => KnownAs(m[..n], pid, app) && !Registered(m[..n], c, pid)
    case _ => KnownAs(m[..n], pid, app)
  }

  /** The pid turned its callback on last, and its client did not die since. */
  ghost predicate Listening(m: seq<Mark>, pid: Int32)
    decreases |m|, -1
  {
    m != [] && var n := |m| - 1;
    match m[n]
    case Listens(p, on) => if p == pid then on else Listening(m[..n], pid)
    case Died(c) => Listening(m[..n], pid) && !Registered(m[..n], c, pid)
    case _ => Listening(m[..n], pid)
  }

  datatype Tables = Tables(clientPids: map<nat, Int32>, channels: map<Int32, nat>, apps: map<Int32, AppThread>,
                           activeCb: set<Int32>)

  function TablesOf(h: Hub): (t: Tables) {
    Tables(h.clientPids, h.channels, h.apps, h.activeCb)
  }

  predicate Maps<K, V(==)>(m: map<K, V>, k: K, v: V) {
    k in m && m[k] == v
  }

  /** The tables say what the marks say. */
  ghost predicate Follows(t: Tables, m: seq<Mark>) {
    (forall client: nat, pid: Int32 :: Maps(t.clientPids, client, pid) <==> Registered(m, client, pid))
    && (forall pid: Int32, channel: nat :: Maps(t.channels, pid, channel) <==> ConnectedTo(m, pid, channel))
    && (forall pid: Int32, app: AppThread :: Maps(t.apps, pid, app) <==> KnownAs(m, pid, app))
    && forall pid: Int32 :: pid in t.activeCb <==> Listening(m, pid)
  }

  function LetGo(t: Tables, client: nat): (r: Tables) {
    if client in t.clientPids && t.clientPids[client] !in t.channels && t.clientPids[client] !in t.activeCb
    then t.(clientPids := t.clientPids - {client}) else t
  }

  function Update(t: Tables, m: Mark): (r: Tables) {
    match m
    case Known(pid, app) => t.(apps := t.apps[pid := app])
    case Connected(pid, channel) => t.(channels := t.channels[pid := channel])
    case Joined(client, pid) => t.(clientPids := t.clientPids[client := pid])
    case Left(client, pid) => LetGo(t.(channels := t.channels - {pid}, apps := t.apps - {pid}), client)
    case Closed(client) => LetGo(t, client)
    case Listens(pid, on) => t.(activeCb := if on then t.activeCb + {pid} else t.activeCb - {pid})
    case Died(client) =>
      if client !in t.clientPids then t
      else
        var pid := t.clientPids[client];
        Tables(t.clientPids - {client}, t.channels - {pid}, t.apps - {pid}, t.activeCb - {pid})
  }

  function UpdateAll(t: Tables, marks: seq<Mark>): (r: Tables)
    decreases |marks|
  {
    if marks == [] then t else UpdateAll(Update(t, marks[0]), marks[1..])
  }

  lemma FollowsStep(t: Tables, m: seq<Mark>, a: Mark)
    requires Follows(t, m)
    ensures Follows(Update(t, a), m + [a])
  {
    var all, u := m + [a], Update(t, a);
    assert all[..|m|] == m && all[|m|] == a;
    hide LetGo;
    forall pid: Int32 ensures pid in u.activeCb <==> Listening(all, pid) {
      ListeningStep(t, m, a, pid);
    }
    forall pid: Int32, channel: nat ensures Maps(u.channels, pid, channel) <==> ConnectedTo(all, pid, channel) {
      ConnectedStep(t, m, a, pid, channel);
    }
    forall pid: Int32, app: AppThread ensures Maps(u.apps, pid, app) <==> KnownAs(all, pid, app) {
      KnownStep(t, m, a, pid, app);
    }
    forall client: nat, pid: Int32 ensures Maps(u.clientPids, client, pid) <==> Registered(all, client, pid) {
      RegisteredStep(t, m, a, client, pid);
    }
  }

  lemma ListeningStep(t: Tables, m: seq<Mark>, a: Mark, pid: Int32)
    requires Follows(t, m)
    ensures pid in Update(t, a).activeCb <==> Listening(m + [a], pid)
  {
    assert (m + [a])[..|m|] == m && (m + [a])[|m|] == a;
    assert a.Died? ==> (Maps(t.clientPids, a.client, pid) <==> Registered(m, a.client, pid));
    hide Registered, ConnectedTo, KnownAs;
  }

  lemma ConnectedStep(t: Tables, m: seq<Mark>, a: Mark, pid: Int32, channel: nat)
    requires Follows(t, m)
    ensures Maps(Update(t, a).channels, pid, channel) <==> ConnectedTo(m + [a], pid, channel)
  {
    assert (m + [a])[..|m|] == m && (m + [a])[|m|] == a;
    assert a.Died? ==> (Maps(t.clientPids, a.client, pid) <==> Registered(m, a.client, pid));
    assert Maps(t.channels, pid, channel) <==> ConnectedTo(m, pid, channel);
    hide Registered, Listening, KnownAs;
  }

  lemma KnownStep(t: Tables, m: seq<Mark>, a: Mark, pid: Int32, app: AppThread)
    requires Follows(t, m)
    ensures Maps(Update(t, a).apps, pid, app) <==> KnownAs(m + [a], pid, app)
  {
    assert (m + [a])[..|m|] == m && (m + [a])[|m|] == a;
    assert a.Died? ==> (Maps(t.clientPids, a.client, pid) <==> Registered(m, a.client, pid));
    assert Maps(t.apps, pid, app) <==> KnownAs(m, pid, app);
    hide Registered, Listening, ConnectedTo;
  }

  lemma RegisteredStep(t: Tables, m: seq<Mark>, a: Mark, client: nat, pid: Int32)
    requires Follows(t, m)
    ensures Maps(Update(t, a).clientPids, client, pid) <==> Registered(m + [a], client, pid)
  {
    var all, u := m + [a], Update(t, a);
    assert all[..|m|] == m && all[|m|] == a;
    assert Maps(t.clientPids, client, pid) <==> Registered(m, client, pid);
    HeldStep(t, m, a, pid);
    hide ConnectedTo, Listening, KnownAs, Held, Follows;
  }

  lemma HeldStep(t: Tables, m: seq<Mark>, a: Mark, pid: Int32)
    requires Follows(t, m)
    ensures var u := Update(t, a);
            Held(m + [a], pid) <==> pid in u.channels || pid in u.activeCb
  {
    var u := Update(t, a);
    ListeningStep(t, m, a, pid);
    forall channel: nat ensures Maps(u.channels, pid, channel) <==> ConnectedTo(m + [a], pid, channel) {
      ConnectedStep(t, m, a, pid, channel);
    }
    hide Update, ConnectedTo, Listening, Follows;
    if pid in u.channels {
      assert Maps(u.channels, pid, u.channels[pid]);
    }
  }

  lemma {:induction false} FollowsAll(t: Tables, m: seq<Mark>, marks: seq<Mark>)
    requires Follows(t, m)
    ensures Follows(UpdateAll(t, marks), m + marks)
    decreases |marks|
  {
    hide Follows, Update;
    if marks == [] {
      assert m + marks == m;
    } else {
      FollowsStep(t, m, marks[0]);
      FollowsAll(Update(t, marks[0]), m + [marks[0]], marks[1..]);
      assert m + marks == m + [marks[0]] + marks[1..];
    }
  }

  lemma UpdateOne(t: Tables, a: Mark)
    ensures UpdateAll(t, []) == t && UpdateAll(t, [a]) == Update(t, a)
  {
    hide Update;
    assert [a][1..] == [];
  }

  lemma UpdateTwo(t: Tables, a: Mark, b: Mark, more: seq<Mark>)
    ensures UpdateAll(t, [a, b] + more) == UpdateAll(Update(Update(t, a), b), more)
  {
    hide Update;
    assert ([a, b] + more)[1..] == [b] + more && ([b] + more)[1..] == more;
  }

  lemma ConnectUpdates(h: Hub, client: nat, pid: Int32, app: AppThread, channel: nat)
    ensures TablesOf(ConnectStep(h, client, pid, app, channel))
         == UpdateAll(TablesOf(h), MarksOf(h, Connect(client, pid, app, channel)))
  {
    var t, known, connected, joined := TablesOf(h), Known(pid, app), Connected(pid, channel), Joined(client, pid);
    var u := Update(Update(t, known), connected);
    UpdateOne(t, known);
    UpdateTwo(t, known, connected, Joins(h, client, pid));
    UpdateOne(u, joined);
    hide UpdateAll;
  }

  /** One call: the tables change as its marks say. */
  lemma CallUpdates(env: Env, h: Hub, c: Call)
    requires ChannelsOk(h) && Possible(h, c)
    ensures TablesOf(Apply(env, h, c)) == UpdateAll(TablesOf(h), MarksOf(h, c))
  {
    hide EnableStep, DisableStep, SuspendSensorsStep, ResumeSensorsStep, ResetEach, DisableEach, ApplyBlockOp;
    hide SetPerm, ClearClient, Enumerates, OrdersFor, ConnectStep;
    match c
    case Connect(client, pid, app, channel) => ConnectUpdates(h, client, pid, app, channel);
    case Leave(client, pid) =>
      UpdateOne(TablesOf(h), Left(client, pid));
      LeaveUpdates(h, client, pid);
      hide UpdateAll, Update, LeaveStep;
    case OpenSocket(client, pid) =>
      UpdateOne(TablesOf(h), Joined(client, pid));
      hide UpdateAll;
    case CloseSocket(client) =>
      UpdateOne(TablesOf(h), Closed(client));
      hide UpdateAll;
    case ListenActiveInfo(pid, on) =>
      UpdateOne(TablesOf(h), Listens(pid, on));
      hide UpdateAll;
    case Death(client, order) =>
      UpdateOne(TablesOf(h), Died(client));
      DeathUpdates(env, h, client, order);
      hide UpdateAll, Update, DeathStep;
    case _ =>
  }

  lemma LeaveUpdates(h: Hub, client: nat, pid: Int32)
    requires ChannelsOk(h)
    ensures TablesOf(LeaveStep(h, client, pid))
         == if pid >= 0 then Update(TablesOf(h), Left(client, pid)) else TablesOf(h)
  {
    hide ClearClient;
  }

  lemma DeathUpdates(env: Env, h: Hub, client: nat, order: seq<Desc>)
    requires ChannelsOk(h)
    ensures TablesOf(DeathStep(env, h, client, order)) == Update(TablesOf(h), Died(client))
  {
    hide ClearClient, DisableEach, ApplyBlockOp;
  }

  lemma {:induction false} TablesFollowRun(env: Env, h: Hub, calls: seq<Call>, before: seq<Mark>)
    requires Inv(env, h.sys) && ChannelsOk(h) && PossibleRun(env, h, calls) && Follows(TablesOf(h), before)
    ensures Follows(TablesOf(Run(env, h, calls)), before + MarksOfRun(env, h, calls))
    decreases |calls|
  {
    hide Inv, ChannelsOk, Apply, Possible, MarksOf, Follows, TablesOf;
    if calls == [] {
      assert before + [] == before;
    } else {
      var t, marks := Apply(env, h, calls[0]), MarksOf(h, calls[0]);
      CallKeeps(env, h, calls[0]);
      CallUpdates(env, h, calls[0]);
      FollowsAll(TablesOf(h), before, marks);
      TablesFollowRun(env, t, calls[1..], before + marks);
      Assoc(before, marks, MarksOfRun(env, t, calls[1..]));
    }
  }

  lemma NothingFollows(t: Tables)
    requires t == Tables(map[], map[], map[], {})
    ensures Follows(t, [])
  {
  }

  /** In the state any run reaches, the tables of clients, channels, applications and listeners hold
      exactly what the calls of the run amount to. */
  lemma TablesFollow(env: Env, h: Hub, calls: seq<Call>)
    requires Initial(h) && PossibleRun(env, h, calls)
    ensures Inv(env, Run(env, h, calls).sys) && ChannelsOk(Run(env, h, calls))
    ensures Follows(TablesOf(Run(env, h, calls)), MarksOfRun(env, h, calls))
  {
    InitialInv(env, h);
    RunKeeps(env, h, calls);
    NothingFollows(TablesOf(h));
    hide Follows, Initial, Inv, ChannelsOk, Run, PossibleRun, TablesOf, MarksOfRun;
    TablesFollowRun(env, h, calls, []);
    assert [] + MarksOfRun(env, h, calls) == MarksOfRun(env, h, calls);
  }

  /** Something of the pid outlives it unless it is cleared: blocks it issued, a saved entry. */
  ghost predicate LeavesTraces(h: Hub, pid: Int32) {
    pid in h.sys.saved || exists target: Int32 :: TypesOf(h.policies, target, pid) != {}
  }

  /** After any run, the death of a client clears the blocks a pid issued and its saved entry if and
      only if the client is still registered for that pid. */
  lemma DeathClearsIff(env: Env, h: Hub, calls: seq<Call>, client: nat, order: seq<Desc>, pid: Int32)
    requires Initial(h) && PossibleRun(env, h, calls)
    requires LeavesTraces(Run(env, h, calls), pid)
    ensures var t := Run(env, h, calls);
            !LeavesTraces(DeathStep(env, t, client, order), pid)
            <==> Registered(MarksOfRun(env, h, calls), client, pid)
  {
    TablesFollow(env, h, calls);
    var t, marks := Run(env, h, calls), MarksOfRun(env, h, calls);
    assert Maps(t.clientPids, client, pid) <==> Registered(marks, client, pid);
    if client in t.clientPids {
      DeathCleansUp(env, t, client, order);
    }
    hide Run, PossibleRun, MarksOfRun, Registered, Follows, Inv, OthersKept;
    if client in t.clientPids && t.clientPids[client] != pid {
      var u := DeathStep(env, t, client, order);
      assert forall target: Int32 :: TypesOf(u.policies, target, pid) == TypesOf(t.policies, target, pid);
      hide DeathStep, TypesOf;
    } else {
      hide TypesOf;
    }
  }

  /** A client that listens for active-info reports is still known after it leaves: its death then
      clears what it issued and saved. */
  lemma ListenerIsCleared(env: Env, h: Hub, calls: seq<Call>, client: nat, order: seq<Desc>, pid: Int32)
    requires Initial(h) && PossibleRun(env, h, calls)
    requires Registered(MarksOfRun(env, h, calls), client, pid) && Listening(MarksOfRun(env, h, calls), pid)
    ensures var t := Apply(env, Run(env, h, calls), Leave(client, pid));
            client in t.clientPids && !LeavesTraces(DeathStep(env, t, client, order), pid)
  {
    TablesFollow(env, h, calls);
    var s := Run(env, h, calls);
    assert Maps(s.clientPids, client, pid) && pid in s.activeCb;
    hide Run, PossibleRun, MarksOfRun, Registered, Listening, Follows, Inv;
    LeaveReleasesIff(env, s, client, pid);
    LeaveCallKeeps(env, s, client, pid);
    var t := Apply(env, s, Leave(client, pid));
    assert t == LeaveStep(s, client, pid);
    hide Apply, LeaveStep;
    DeathCleansUp(env, t, client, order);
    hide DeathStep, TypesOf;
  }

  /** A client that leaves and then dies takes nothing more with it: no death clears the blocks it
      issued or its saved entry. Only an active-info callback keeps it registered. */
  lemma LeaverIsForgotten(env: Env, h: Hub, client: nat, order: seq<Desc>)
    requires client in h.clientPids && h.clientPids[client] > INVALID_PID && h.clientPids[client] !in h.activeCb
    ensures var t := LeaveStep(h, client, h.clientPids[client]);
            DeathStep(env, t, client, order) == t && t.policies == h.policies && t.sys.saved == h.sys.saved
  {
  }

  /** A run and its block history, call by call. */
  lemma RunStarts(env: Env, h: Hub, c: Call, rest: seq<Call>)
    requires Possible(h, c) && PossibleRun(env, Apply(env, h, c), rest)
    ensures PossibleRun(env, h, [c] + rest)
    ensures Run(env, h, [c] + rest) == Run(env, Apply(env, h, c), rest)
    ensures BlockHistory(env, h, [c] + rest) == BlockOpsOf(h, c) + BlockHistory(env, Apply(env, h, c), rest)
  {
    assert ([c] + rest)[1..] == rest;
    hide Apply, Possible, BlockOpsOf;
  }

  /** The shortest such run: connect, block, leave, die. The block is still outstanding. */
  lemma LeaverKeepsItsBlocks(env: Env, h: Hub, pid: Int32, app: AppThread, target: Int32, sensorType: Int32)
    returns (calls: seq<Call>)
    requires Initial(h) && pid > 0 && target > 0 && app.uid != INVALID_UID
    ensures calls == [Connect(0, pid, app, 0), BlockData(Block(target, [sensorType], pid)), Leave(0, pid), Death(0, [])]
    ensures PossibleRun(env, h, calls)
    ensures Outstanding(BlockHistory(env, h, calls), target, pid, sensorType)
    ensures Blocked(Run(env, h, calls).policies, target, sensorType)
  {
    hide Apply, Possible, BlockOpsOf;
    var op := Block(target, [sensorType], pid);
    var connect, block, leave, death := Connect(0, pid, app, 0), BlockData(op), Leave(0, pid), Death(0, []);
    var h1, h2, h3 := ShortLife(env, h, pid, app, op);
    calls := [connect, block, leave, death];
    assert RunIs(env, h3, [death], h3, []) by {
      RunStarts(env, h3, death, []);
      assert [death] == [death] + [];
    }
    hide Run, BlockHistory, PossibleRun;
    assert RunIs(env, h2, [leave, death], h3, []) by { RunStarts(env, h2, leave, [death]); }
    assert RunIs(env, h1, [block, leave, death], h3, [op]) by { RunStarts(env, h1, block, [leave, death]); }
    RunStarts(env, h, connect, [block, leave, death]);
    assert calls == [connect] + [block, leave, death];
    assert Issues([op][0], target, pid, sensorType);
    assert Outstanding([op], target, pid, sensorType);
    PoliciesFollowHistory(env, h, calls, []);
    assert [] + [op] == [op];
    BlockedIffOutstanding([op], target, sensorType);
  }

  ghost predicate RunIs(env: Env, h: Hub, calls: seq<Call>, t: Hub, ops: seq<BlockOp>) {
    PossibleRun(env, h, calls) && Run(env, h, calls) == t && BlockHistory(env, h, calls) == ops
  }

  /** `t` is the state after the possible call `c`, which performed the block operations `ops`. */
  ghost predicate CallIs(env: Env, h: Hub, c: Call, t: Hub, ops: seq<BlockOp>) {
    Possible(h, c) && Apply(env, h, c) == t && BlockOpsOf(h, c) == ops
  }

  lemma ShortLife(env: Env, h: Hub, pid: Int32, app: AppThread, op: BlockOp) returns (h1: Hub, h2: Hub, h3: Hub)
    requires Initial(h) && pid > 0 && app.uid != INVALID_UID && !op.ClearIssued?
    ensures CallIs(env, h, Connect(0, pid, app, 0), h1, []) && CallIs(env, h1, BlockData(op), h2, [op])
    ensures CallIs(env, h2, Leave(0, pid), h3, []) && CallIs(env, h3, Death(0, []), h3, [])
  {
    h1 := h.(apps := map[pid := app], channels := map[pid := 0], clientPids := map[0 := pid]);
    h2 := h1.(policies := ApplyBlockOp(h.policies, op));
    h3 := h.(policies := h2.policies);
    FirstConnects(env, h, pid, app);
    assert CallIs(env, h1, BlockData(op), h2, [op]);
    hide CallIs, ApplyBlockOp;
    OnlyOneLeaves(env, h2, h3, pid);
    UnknownDies(env, h3);
  }

  lemma FirstConnects(env: Env, h: Hub, pid: Int32, app: AppThread)
    requires Initial(h) && pid > 0 && app.uid != INVALID_UID
    ensures CallIs(env, h, Connect(0, pid, app, 0),
                   h.(apps := map[pid := app], channels := map[pid := 0], clientPids := map[0 := pid]), [])
  {
  }

  lemma OnlyOneLeaves(env: Env, h: Hub, t: Hub, pid: Int32)
    requires h.sys.clients == map[] && h.channels.Keys == {pid} && h.apps.Keys == {pid}
    requires h.clientPids == map[0 := pid] && h.activeCb == {} && pid > INVALID_PID
    requires t == h.(apps := map[], channels := map[], clientPids := map[])
    ensures CallIs(env, h, Leave(0, pid), t, [])
  {
    LeaveEmpties(h, 0, pid);
    hide LeaveStep;
  }

  lemma UnknownDies(env: Env, h: Hub)
    requires 0 !in h.clientPids && h.sys.clients == map[]
    ensures CallIs(env, h, Death(0, []), h, [])
  {
  }

  lemma LeaveEmpties(h: Hub, client: nat, pid: Int32)
    requires h.sys.clients == map[] && h.channels.Keys == {pid} && h.apps.Keys == {pid}
    requires h.clientPids == map[client := pid] && h.activeCb == {} && pid > INVALID_PID
    ensures LeaveStep(h, client, pid) == h.(apps := map[], channels := map[], clientPids := map[])
  {
    assert ClearClient(map[], pid) == map[];
  }
}
