/** The order of one subscriber's events when some of them wait in an unfinished batch. */
module BatchOrder {
  import opened Sequences
  import opened SensorTypes
  import opened Deliveries
  import opened DeliveryTheorems
  import opened Batching

  function PendingOf(w: World, id: nat, d: Desc): (r: seq<Event>) {
    Pending(Find(CellsOf(w.counts, d), id))
  }

  /** Delivered so far, then what waits for a retry, then what waits in the batch. */
  function Line(w: World, id: nat, d: Desc): (r: seq<Event>) {
    Outgoing(w, id, d) + PendingOf(w, id, d)
  }

  /** The event is sent at once and on its own, past the batch: something is cached on the channel,
      its mode is on-change, or batches are off at the moment and its turn has come. */
  predicate GoesAlone(w: World, known: set<Desc>, s: Deal) {
    ChanOf(w, s.id).cache != map[]
    || (s.e.desc in known && OnChange(s.e.mode))
    || (s.P != 0 && s.F <= 1 && TurnNone(Find(CellsOf(w.counts, s.e.desc), s.id), s.id, s.P).1)
  }

  /** An event goes past earlier ones of its own sensor. */
  predicate Overtakes(w: World, known: set<Desc>, s: Deal, id: nat, d: Desc) {
    Mine(s, id, d) && PendingOf(w, id, d) != [] && GoesAlone(w, known, s)
  }

  /** What one event of the channel does to the line. */
  ghost predicate LineMoves(w: World, t: World, known: set<Desc>, s: Deal, id: nat, d: Desc) {
    var sent, out, out' := SentOf(ChanOf(w, id).sent, d), Outgoing(w, id, d), Outgoing(t, id, d);
    var batch, batch' := PendingOf(w, id, d), PendingOf(t, id, d);
    if GoesAlone(w, known, s) then batch' == batch && (out' == out + [s.e] || out' == sent + [s.e])
    else if out' == out then batch' == batch || batch' == batch + [s.e]
    else batch' == [] && (out' == out + (batch + [s.e]) || out' == out + [s.e])
  }

  lemma OwnBatch(w: World, outcomes: Outcomes, known: set<Desc>, s: Deal, id: nat, d: Desc)
    requires WorldOk(w) && OneEach(CellsOf(w.counts, d)) && Mine(s, id, d) && id in s.live
    requires !GoesAlone(w, known, s) && s.P > 0 && s.F > 1
    ensures LineMoves(w, Step(w, outcomes, known, s), known, s, id, d)
  {
    hide OneEach, ScanNone, ScanFifo, CellsOk, OnChange, CacheEvent, Due, SentOf, Of;
    var cells, ch := CellsOf(w.counts, d), ChanOf(w, id);
    ScanFifoIsTurn(cells, s.live, id, s.e, s.P, s.F, false);
    EmptyOk(d);
    ScanFifoOk(cells, s.live, id, s.e, s.P, s.F, false);
    var batch := ScanFifo(cells, s.live, id, s.e, s.P, s.F, false).1;
    OfUniform(batch, d, d);
    SentSnoc(ch.sent, batch, d);
    assert SentOf(ch.sent, d) + [] == SentOf(ch.sent, d);
    if batch != [] {
      assert batch[|batch| - 1] == s.e;
      assert SentOf(ch.sent, d) + batch + [] == SentOf(ch.sent, d) + batch;
    }
  }

  lemma OwnAlone(w: World, outcomes: Outcomes, known: set<Desc>, s: Deal, id: nat, d: Desc)
    requires WorldOk(w) && Mine(s, id, d)
    requires ChanOf(w, id).cache != map[] || (d in known && OnChange(s.e.mode)) || s.P == 0
    ensures LineMoves(w, Step(w, outcomes, known, s), known, s, id, d)
  {
    hide ScanNone, ScanFifo, CellsOk, OnChange, CacheEvent, SentOf, SendRaw, Find, TurnNone;
    var ch := ChanOf(w, id);
    assert ChanOk(ch);
    if ch.cache != map[] {
      CacheEventOne(ch, outcomes(id), s.e, d);
    } else if d in known && OnChange(s.e.mode) {
      SendRawOne(ch, outcomes(id), s.e, d);
      assert SentOf(ch.sent, d) + [s.e] + [] == SentOf(ch.sent, d) + [] + [s.e];
    }
  }

  lemma OwnThinned(w: World, outcomes: Outcomes, known: set<Desc>, s: Deal, id: nat, d: Desc)
    requires OneEach(CellsOf(w.counts, d)) && Mine(s, id, d) && id in s.live
    requires ChanOf(w, id).cache == map[] && !(d in known && OnChange(s.e.mode)) && s.P > 0 && s.F <= 1
    ensures LineMoves(w, Step(w, outcomes, known, s), known, s, id, d)
  {
    hide OneEach, ScanNone, ScanFifo, OnChange, CacheEvent, Due, SentOf, SendRaw;
    var ch := ChanOf(w, id);
    SendRawOne(ch, outcomes(id), s.e, d);
    ScanNoneIsTurn(CellsOf(w.counts, d), s.live, id, s.P, false);
    assert SentOf(ch.sent, d) + [s.e] + [] == SentOf(ch.sent, d) + [] + [s.e];
  }

  lemma OwnMove(w: World, outcomes: Outcomes, known: set<Desc>, s: Deal, id: nat, d: Desc)
    requires WorldOk(w) && OneEach(CellsOf(w.counts, d)) && Mine(s, id, d) && id in s.live
    ensures LineMoves(w, Step(w, outcomes, known, s), known, s, id, d)
  {
    hide WorldOk, OneEach, Step, LineMoves, OnChange, TurnNone;
    if ChanOf(w, id).cache != map[] || (d in known && OnChange(s.e.mode)) || s.P == 0 {
      OwnAlone(w, outcomes, known, s, id, d);
    } else if s.F <= 1 {
      OwnThinned(w, outcomes, known, s, id, d);
    } else {
      OwnBatch(w, outcomes, known, s, id, d);
    }
  }

  /** A step that overtakes nothing keeps the line in arrival order, whatever fails. */
  lemma MoveKeepsOrder(w: World, t: World, known: set<Desc>, s: Deal, id: nat, d: Desc, arrived: seq<Event>)
    requires Mine(s, id, d) && LineMoves(w, t, known, s, id, d) && !Overtakes(w, known, s, id, d)
    requires Subseq(Line(w, id, d), arrived)
    ensures Subseq(Line(t, id, d), arrived + [s.e])
  {
    hide SentOf, Subseq, GoesAlone;
    var sent, c := SentOf(ChanOf(w, id).sent, d), CachedOf(ChanOf(w, id), d);
    var out, batch := Outgoing(w, id, d), PendingOf(w, id, d);
    SubseqSnoc(out + batch, arrived, s.e);
    SubseqPrefix(out, batch, arrived);
    SubseqSnoc(out, arrived, s.e);
    SubseqPrefix(sent, c, arrived);
    SubseqSnoc(sent, arrived, s.e);
    Assoc(out, batch, [s.e]);
    var out', batch' := Outgoing(t, id, d), PendingOf(t, id, d);
    assert batch' == [] ==> out' + batch' == out';
  }

  /** A step that does overtake breaks it, when events can be told apart. */
  lemma OvertakingBreaksOrder(w: World, t: World, known: set<Desc>, s: Deal, id: nat, d: Desc, arrived: seq<Event>)
    requires LineMoves(w, t, known, s, id, d) && Overtakes(w, known, s, id, d)
    requires Subseq(Line(w, id, d), arrived) && s.e !in arrived
    ensures !Subseq(Line(t, id, d), arrived + [s.e])
  {
    hide SentOf, Subseq, GoesAlone, Outgoing;
    var batch, all := PendingOf(w, id, d), arrived + [s.e];
    var n := |batch| - 1;
    assert batch[n] in Line(w, id, d);
    SubseqIn(Line(w, id, d), arrived, batch[n]);
    var line := Line(t, id, d);
    assert line[|line| - 1] == batch[n] && s.e in line[..|line| - 1] by {
      var out := Outgoing(t, id, d);
      assert out[|out| - 1] == s.e && line[|out| - 1] == s.e;
    }
    if Subseq(line, all) {
      LastIsElsewhere(line, arrived, s.e);
      SubseqIn(line, arrived, s.e);
    }
  }

  lemma LastIsElsewhere<T>(xs: seq<T>, ys: seq<T>, a: T)
    requires Subseq(xs, ys + [a]) && (xs != [] ==> xs[|xs| - 1] != a)
    ensures Subseq(xs, ys)
  {
    assert (ys + [a])[..|ys|] == ys;
  }

  /** After n calls. */
  function After(outcomes: Outcomes, known: set<Desc>, deals: seq<Deal>, n: nat): (w: World)
    requires n <= |deals|
  {
    Run(outcomes, known, deals[..n])
  }

  ghost predicate OrderedAfter(outcomes: Outcomes, known: set<Desc>, deals: seq<Deal>, id: nat, d: Desc, n: nat)
    requires n <= |deals|
  {
    Subseq(Line(After(outcomes, known, deals, n), id, d), ArrivedFor(deals[..n], id, d))
  }

  lemma AfterStep(outcomes: Outcomes, known: set<Desc>, deals: seq<Deal>, id: nat, d: Desc, n: nat)
    requires n < |deals|
    ensures After(outcomes, known, deals, n + 1) == Step(After(outcomes, known, deals, n), outcomes, known, deals[n])
    ensures var a := ArrivedFor(deals[..n], id, d);
            ArrivedFor(deals[..n + 1], id, d) == if Mine(deals[n], id, d) then a + [deals[n].e] else a
  {
    hide Step;
    assert deals[..n + 1][..n] == deals[..n];
  }

  lemma {:induction false} ArrivedGrows(deals: seq<Deal>, id: nat, d: Desc, n: nat, m: nat)
    requires n <= m <= |deals|
    ensures ArrivedFor(deals[..n], id, d) <= ArrivedFor(deals[..m], id, d)
    decreases m - n
  {
    if n < m {
      ArrivedGrows(deals, id, d, n, m - 1);
      assert deals[..m][..m - 1] == deals[..m - 1];
    }
  }

  /** One call: order survives it exactly when it overtakes nothing. */
  lemma OrderStep(outcomes: Outcomes, known: set<Desc>, deals: seq<Deal>, id: nat, d: Desc, n: nat)
    requires n < |deals| && AllServed(deals) && OrderedAfter(outcomes, known, deals, id, d, n)
    ensures !Overtakes(After(outcomes, known, deals, n), known, deals[n], id, d)
        ==> OrderedAfter(outcomes, known, deals, id, d, n + 1)
    ensures Overtakes(After(outcomes, known, deals, n), known, deals[n], id, d) && Distinct(ArrivedFor(deals, id, d))
        ==> !OrderedAfter(outcomes, known, deals, id, d, n + 1)
  {
    hide Step, SentOf, Subseq, GoesAlone, LineMoves, WorldOk, OneEach, Run;
    var before, s := deals[..n], deals[n];
    var w, arrived := After(outcomes, known, deals, n), ArrivedFor(before, id, d);
    assert s.id in s.live && AllServed(before);
    AfterStep(outcomes, known, deals, id, d, n);
    RunOk(outcomes, known, before);
    ReachedOneEach(outcomes, known, before, d);
    var t := Step(w, outcomes, known, s);
    if Mine(s, id, d) {
      OwnMove(w, outcomes, known, s, id, d);
      if Overtakes(w, known, s, id, d) {
        if Distinct(ArrivedFor(deals, id, d)) {
          NewEvent(deals, id, d, n);
          OvertakingBreaksOrder(w, t, known, s, id, d, arrived);
        }
      } else {
        MoveKeepsOrder(w, t, known, s, id, d, arrived);
      }
    } else {
      OthersMove(w, outcomes, known, s, id, d, arrived);
    }
  }

  /** An event of another channel or sensor leaves the line, or the cell of a dead channel goes. */
  lemma OthersMove(w: World, outcomes: Outcomes, known: set<Desc>, s: Deal, id: nat, d: Desc, arrived: seq<Event>)
    requires WorldOk(w) && OneEach(CellsOf(w.counts, d)) && !Mine(s, id, d) && s.id in s.live
    requires Subseq(Line(w, id, d), arrived)
    ensures Subseq(Line(Step(w, outcomes, known, s), id, d), arrived)
  {
    hide Step, SentOf, Subseq, WorldOk, OneEach, Outgoing;
    StepOutgoing(w, outcomes, known, s, id, d);
    StepKeepsOthersCells(w, outcomes, known, s, id, d);
    SubseqPrefix(Outgoing(w, id, d), PendingOf(w, id, d), arrived);
    assert Outgoing(w, id, d) + [] == Outgoing(w, id, d);
  }

  lemma NewEvent(deals: seq<Deal>, id: nat, d: Desc, n: nat)
    requires n < |deals| && Mine(deals[n], id, d) && Distinct(ArrivedFor(deals, id, d))
    ensures deals[n].e !in ArrivedFor(deals[..n], id, d)
  {
    var a, all := ArrivedFor(deals[..n], id, d), ArrivedFor(deals, id, d);
    ArrivedGrows(deals, id, d, n + 1, |deals|);
    assert deals[..|deals|] == deals && deals[..n + 1][..n] == deals[..n];
    var b := a + [deals[n].e];
    assert b == ArrivedFor(deals[..n + 1], id, d) && b <= all;
    forall i | 0 <= i < |a| ensures a[i] != deals[n].e {
      assert a[i] == b[i] == all[i] && deals[n].e == b[|a|] == all[|a|];
    }
  }

  lemma {:induction false} OrderUpTo(outcomes: Outcomes, known: set<Desc>, deals: seq<Deal>, id: nat, d: Desc, m: nat)
    requires m <= |deals| && AllServed(deals)
    requires forall n :: 0 <= n < m ==> !Overtakes(After(outcomes, known, deals, n), known, deals[n], id, d)
    ensures forall n :: 0 <= n <= m ==> OrderedAfter(outcomes, known, deals, id, d, n)
  {
    hide Overtakes, OrderedAfter, After;
    if m == 0 {
      NothingIsOrdered(outcomes, known, deals, id, d);
    } else {
      OrderUpTo(outcomes, known, deals, id, d, m - 1);
      OrderStep(outcomes, known, deals, id, d, m - 1);
    }
  }

  lemma NothingIsOrdered(outcomes: Outcomes, known: set<Desc>, deals: seq<Deal>, id: nat, d: Desc)
    ensures OrderedAfter(outcomes, known, deals, id, d, 0)
  {
    EmptySubseq<Event>();
    assert deals[..0] == [] && Line(World(map[], map[]), id, d) == [];
  }

  /** Order, for every subscriber, at any and changing rates and batch sizes, whatever sends fail:
      what was delivered, waits for a retry and waits in the batch is always in arrival order if
      and only if no event is ever sent on its own past a batch that is not empty. */
  lemma OrderKeptIff(outcomes: Outcomes, known: set<Desc>, deals: seq<Deal>, id: nat, d: Desc)
    requires AllServed(deals) && Distinct(ArrivedFor(deals, id, d))
    ensures (forall n :: 0 <= n <= |deals| ==> OrderedAfter(outcomes, known, deals, id, d, n))
        <==> forall n :: 0 <= n < |deals| ==> !Overtakes(After(outcomes, known, deals, n), known, deals[n], id, d)
  {
    hide Overtakes, OrderedAfter, After;
    if forall n :: 0 <= n < |deals| ==> !Overtakes(After(outcomes, known, deals, n), known, deals[n], id, d) {
      OrderUpTo(outcomes, known, deals, id, d, |deals|);
    } else {
      var n :| 0 <= n < |deals| && Overtakes(After(outcomes, known, deals, n), known, deals[n], id, d);
      if OrderedAfter(outcomes, known, deals, id, d, n) {
        OrderStep(outcomes, known, deals, id, d, n);
      }
    }
  }

  // ----- a run that delivers out of order

  /** The channel's first send fails, all later ones succeed. */
  const FIRST_FAILS: Outcomes := id => n => n > 0

  /** One cell of `d` with this batch; the channel after these sends, `x` waiting or not. */
  function Scene(d: Desc, batch: seq<Event>, waiting: map<Desc, Event>, sent: seq<seq<Event>>, sends: nat): (w: World) {
    World(map[d := [Cell(0, 0, batch)]], map[0 := Chan(waiting, sent, sends)])
  }

  /** Events of `d` in batches of two, with events of the on-change sensor x in between. */
  function Interleaved(e0: Event, e1: Event, e2: Event, e3: Event, x1: Event, x2: Event): (deals: seq<Deal>) {
    [Deal(0, e0, {0}, 1, 2), Deal(0, e1, {0}, 1, 2), Deal(0, x1, {0}, 1, 2), Deal(0, e2, {0}, 1, 2),
     Deal(0, x2, {0}, 1, 2), Deal(0, e3, {0}, 1, 2)]
  }

  /** The state after n events of that run. */
  function SceneAt(d: Desc, e1: Event, e2: Event, e3: Event, x1: Event, x2: Event, n: nat): (w: World) {
    match n
    case 0 => World(map[], map[])
    case 1 => Scene(d, [], map[], [], 0)
    case 2 => Scene(d, [e1], map[], [], 0)
    case 3 => Scene(d, [e1], map[x1.desc := x1], [], 1)
    case 4 => Scene(d, [e1], map[x1.desc := x1], [[e2]], 2)
    case 5 => Scene(d, [e1], map[], [[e2], [x1], [x2]], 4)
    case _ => Scene(d, [], map[], [[e2], [x1], [x2], [e1, e3]], 5)
  }

  lemma SceneOpens(known: set<Desc>, d: Desc, e0: Event, e1: Event)
    requires d !in known && e0.desc == d && e1.desc == d
    ensures Step(World(map[], map[]), FIRST_FAILS, known, Deal(0, e0, {0}, 1, 2)) == Scene(d, [], map[], [], 0)
    ensures Step(Scene(d, [], map[], [], 0), FIRST_FAILS, known, Deal(0, e1, {0}, 1, 2)) == Scene(d, [e1], map[], [], 0)
  {
    assert ScanFifo([], {0}, 0, e1, 1, 2, true) == ([], []);
    assert ScanFifo([Cell(0, 0, [])], {0}, 0, e1, 1, 2, false) == ([Cell(0, 0, [e1])], []) by {
      assert [] + [e1] == [e1] && [Cell(0, 0, [e1])] + [] == [Cell(0, 0, [e1])];
    }
  }

  lemma OnChangeFails(known: set<Desc>, d: Desc, e1: Event, x1: Event)
    requires x1.desc in known && OnChange(x1.mode)
    ensures Step(Scene(d, [e1], map[], [], 0), FIRST_FAILS, known, Deal(0, x1, {0}, 1, 2))
         == Scene(d, [e1], map[x1.desc := x1], [], 1)
  {
  }

  lemma BatchIsPassed(known: set<Desc>, d: Desc, e1: Event, e2: Event, x1: Event)
    requires e2.desc == d && x1.desc != d
    ensures Step(Scene(d, [e1], map[x1.desc := x1], [], 1), FIRST_FAILS, known, Deal(0, e2, {0}, 1, 2))
         == Scene(d, [e1], map[x1.desc := x1], [[e2]], 2)
  {
    assert [] + [[e2]] == [[e2]] && x1.desc in map[x1.desc := x1];
  }

  lemma CacheClears(known: set<Desc>, d: Desc, e1: Event, e2: Event, x1: Event, x2: Event)
    requires x1.desc == x2.desc
    ensures Step(Scene(d, [e1], map[x1.desc := x1], [[e2]], 2), FIRST_FAILS, known, Deal(0, x2, {0}, 1, 2))
         == Scene(d, [e1], map[], [[e2], [x1], [x2]], 4)
  {
    var waiting := map[x1.desc := x1];
    assert x1.desc in waiting && waiting - {x1.desc} == map[];
    assert [[e2]] + [[x1]] + [[x2]] == [[e2], [x1], [x2]];
  }

  lemma BatchFollows(known: set<Desc>, d: Desc, e1: Event, e3: Event, sent: seq<seq<Event>>)
    requires d !in known && e3.desc == d
    ensures Step(Scene(d, [e1], map[], sent, 4), FIRST_FAILS, known, Deal(0, e3, {0}, 1, 2))
         == Scene(d, [], map[], sent + [[e1, e3]], 5)
  {
    assert ScanFifo([Cell(0, 0, [e1])], {0}, 0, e3, 1, 2, false) == ([Cell(0, 0, [])], [e1, e3]) by {
      assert [e1] + [e3] == [e1, e3] && [Cell(0, 0, [])] + [] == [Cell(0, 0, [])];
    }
  }

  lemma StartsEmpty(known: set<Desc>)
    ensures Run(FIRST_FAILS, known, []) == World(map[], map[])
  {
  }

  lemma SceneStep(known: set<Desc>, d: Desc, e0: Event, e1: Event, e2: Event, e3: Event, x1: Event, x2: Event, n: nat)
    requires d !in known && x1.desc == x2.desc && x1.desc in known && OnChange(x1.mode) && n < 6
    requires e0.desc == d && e1.desc == d && e2.desc == d && e3.desc == d
    ensures Step(SceneAt(d, e1, e2, e3, x1, x2, n), FIRST_FAILS, known, Interleaved(e0, e1, e2, e3, x1, x2)[n])
         == SceneAt(d, e1, e2, e3, x1, x2, n + 1)
  {
    hide Step, Scene, OnChange;
    match n
    case 0 => SceneOpens(known, d, e0, e1);
    case 1 => SceneOpens(known, d, e0, e1);
    case 2 => OnChangeFails(known, d, e1, x1);
    case 3 => BatchIsPassed(known, d, e1, e2, x1);
    case 4 => CacheClears(known, d, e1, e2, x1, x2);
    case 5 =>
      BatchFollows(known, d, e1, e3, [[e2], [x1], [x2]]);
      assert [[e2], [x1], [x2]] + [[e1, e3]] == [[e2], [x1], [x2], [e1, e3]];
  }

  /** How many of the first n events are of the batched sensor. */
  function Batched(n: nat): (k: nat)
    requires n <= 6
    ensures k <= 4
  {
    match n case 0 => 0 case 1 => 1 case 2 => 2 case 3 => 2 case 4 => 3 case 5 => 3 case 6 => 4
  }

  lemma {:induction false} RunIsScene(known: set<Desc>, d: Desc, e0: Event, e1: Event, e2: Event, e3: Event, x1: Event,
      x2: Event, n: nat)
    requires d !in known && x1.desc == x2.desc && x1.desc in known && OnChange(x1.mode) && n <= 6
    requires e0.desc == d && e1.desc == d && e2.desc == d && e3.desc == d
    ensures var deals := Interleaved(e0, e1, e2, e3, x1, x2);
            Run(FIRST_FAILS, known, deals[..n]) == SceneAt(d, e1, e2, e3, x1, x2, n)
            && ArrivedFor(deals[..n], 0, d) == [e0, e1, e2, e3][..Batched(n)]
  {
    var deals := Interleaved(e0, e1, e2, e3, x1, x2);
    hide Step, Scene, OnChange;
    if n == 0 {
      StartsEmpty(known);
      assert deals[..0] == [];
    } else {
      RunIsScene(known, d, e0, e1, e2, e3, x1, x2, n - 1);
      SceneStep(known, d, e0, e1, e2, e3, x1, x2, n - 1);
      AfterStep(FIRST_FAILS, known, deals, 0, d, n - 1);
      hide Run, ArrivedFor, SceneAt;
    }
  }

  lemma SentOfScene(d: Desc, e1: Event, e2: Event, e3: Event, x1: Event, x2: Event)
    requires e1.desc == d && e2.desc == d && e3.desc == d && x1.desc != d && x2.desc != d
    ensures SentOf([[e2], [x1], [x2], [e1, e3]], d) == [e2, e1, e3]
  {
    hide SentOf, Of;
    SentSnoc([], [e2], d);
    SentSnoc([[e2]], [x1], d);
    SentSnoc([[e2], [x1]], [x2], d);
    SentSnoc([[e2], [x1], [x2]], [e1, e3], d);
    NothingSent(d);
    OfOne(e2, d);
    OfOne(x1, d);
    OfOne(x2, d);
    OfUniform([e1, e3], d, d);
    assert [] + [[e2]] == [[e2]] && [[e2]] + [[x1]] == [[e2], [x1]] && [[e2], [x1]] + [[x2]] == [[e2], [x1], [x2]];
    assert [[e2], [x1], [x2]] + [[e1, e3]] == [[e2], [x1], [x2], [e1, e3]];
  }

  lemma SecondBeforeFirst(e0: Event, e1: Event, e2: Event, e3: Event)
    requires Distinct([e0, e1, e2, e3])
    ensures !Subseq([e2, e1, e3], [e0, e1, e2, e3])
  {
    var all, n := [e0, e1, e2, e3], 4;
    assert all[0] != all[2] && all[1] != all[2] && all[1] != all[3];
    hide Subseq;
    if Subseq([e2, e1, e3], all) {
      assert [e2, e1] + [e3] == [e2, e1, e3] && [e0, e1, e2] + [e3] == all && [e0, e1] + [e2] == [e0, e1, e2];
      SubseqPrefix([e2, e1], [e3], all);
      LastIsElsewhere([e2, e1], [e0, e1, e2], e3);
      LastIsElsewhere([e2, e1], [e0, e1], e2);
      SubseqIn([e2, e1], [e0, e1], e2);
    }
  }

  /** An on-change event of another sensor fails once, no batch ever does; still the second event
      of `d` is delivered before the first one. */
  lemma DeliveredOutOfOrder(known: set<Desc>, d: Desc, e0: Event, e1: Event, e2: Event, e3: Event, x1: Event, x2: Event)
    requires d !in known && x1.desc == x2.desc && x1.desc in known && OnChange(x1.mode)
    requires e0.desc == d && e1.desc == d && e2.desc == d && e3.desc == d && Distinct([e0, e1, e2, e3])
    ensures var deals := Interleaved(e0, e1, e2, e3, x1, x2);
            var sent := ChanOf(Run(FIRST_FAILS, known, deals), 0).sent;
            AllServed(deals) && sent == [[e2], [x1], [x2], [e1, e3]]
            && ArrivedFor(deals, 0, d) == [e0, e1, e2, e3] && SentOf(sent, d) == [e2, e1, e3]
            && !Subseq(SentOf(sent, d), ArrivedFor(deals, 0, d))
  {
    var deals := Interleaved(e0, e1, e2, e3, x1, x2);
    assert deals[..6] == deals;
    hide Run, Step, OnChange, Subseq, SentOf, ArrivedFor, Scene;
    RunIsScene(known, d, e0, e1, e2, e3, x1, x2, 6);
    SentOfScene(d, e1, e2, e3, x1, x2);
    SecondBeforeFirst(e0, e1, e2, e3);
  }
}
