/** What a subscriber with batches of F >= 2 events receives, when its sends succeed. */
module Batching {
  import opened Sequences
  import opened SensorTypes
  import opened Deliveries
  import opened DeliveryTheorems

  /** A sent batch is of other sensors only, or consists of exactly F events of `d`. */
  ghost predicate Whole(batch: seq<Event>, d: Desc, F: nat) {
    Of(batch, d) == [] || (|batch| == F && Of(batch, d) == batch)
  }

  ghost predicate AllWhole(sent: seq<seq<Event>>, d: Desc, F: nat) {
    forall batch <- sent :: Whole(batch, d, F)
  }

  function Pending(c: Option<Cell>): (r: seq<Event>) {
    match c case None => [] case Some(cell) => cell.cache
  }

  /** Channel `id` after the events `arrived` of sensor `d`: what was sent, then what waits in the
      cell, are the events at the indices P, 2P, 3P, ... */
  ghost predicate Conserved(w: World, id: nat, d: Desc, arrived: seq<Event>, P: nat, F: nat)
    requires P > 0
  {
    var ch, c := ChanOf(w, id), Find(CellsOf(w.counts, d), id);
    ThinCell(c, |arrived|, P)
    && SentOf(ch.sent, d) + Pending(c) == Every(arrived, P, 1)
    && |Pending(c)| < F
    && AllWhole(ch.sent, d, F)
  }

  lemma AllWholeSnoc(sent: seq<seq<Event>>, batch: seq<Event>, d: Desc, F: nat)
    requires AllWhole(sent, d, F) && Whole(batch, d, F)
    ensures AllWhole(sent + [batch], d, F)
  {
  }

  /** An event of another sensor: at most one batch goes out, and it holds nothing of `d`. */
  lemma OtherBatches(w: World, outcomes: Outcomes, known: set<Desc>, s: Deal, id: nat, d: Desc, F: nat)
    requires WorldOk(w) && !Mine(s, id, d) && ChanOf(w, id).cache == map[] && AllWhole(ChanOf(w, id).sent, d, F)
    ensures AllWhole(ChanOf(Step(w, outcomes, known, s), id).sent, d, F)
  {
    hide ScanNone, ScanFifo, CellsOk, OnChange, Of, Whole, AllWhole;
    if s.id == id {
      var ch, cells := ChanOf(w, id), CellsOf(w.counts, s.e.desc);
      OfOne(s.e, d);
      WholeOther([s.e], d, F);
      AllWholeSnoc(ch.sent, [s.e], d, F);
      if s.P > 0 {
        EmptyOk(s.e.desc);
        ScanFifoOk(cells, s.live, id, s.e, s.P, s.F, false);
        var batch := ScanFifo(cells, s.live, id, s.e, s.P, s.F, false).1;
        OfUniform(batch, d, s.e.desc);
        WholeOther(batch, d, F);
        AllWholeSnoc(ch.sent, batch, d, F);
      }
    }
  }

  lemma WholeOther(batch: seq<Event>, d: Desc, F: nat)
    requires Of(batch, d) == []
    ensures Whole(batch, d, F)
  {
  }

  /** The channel's own event: skipped, put into the batch, or sent with the full batch. */
  lemma FifoTurn(w: World, outcomes: Outcomes, known: set<Desc>, s: Deal, id: nat, d: Desc, arrived: seq<Event>,
      P: nat, F: nat)
    requires P > 0 && F >= 2 && Mine(s, id, d) && SteadyDeal(known, s, id, d, P, F)
    requires WorldOk(w) && OneEach(CellsOf(w.counts, d)) && ChanOf(w, id).cache == map[]
             && forall k: nat :: outcomes(id)(k)
    requires Conserved(w, id, d, arrived, P, F)
    ensures Conserved(Step(w, outcomes, known, s), id, d, arrived + [s.e], P, F)
  {
    hide OneEach, ScanNone, ScanFifo, CellsOk, OnChange, CacheEvent, Due, SentOf, Of, Counter, Every, AllWhole;
    var cells, ch := CellsOf(w.counts, d), ChanOf(w, id);
    var c, n := Find(cells, id), |arrived|;
    ScanFifoIsTurn(cells, s.live, id, s.e, P, F, false);
    EmptyOk(d);
    ScanFifoOk(cells, s.live, id, s.e, P, F, false);
    EverySnoc(arrived, s.e, P, 1);
    if n == 0 {
      FirstCounter(P);
    } else {
      CounterStep(n, P);
      var batch := Pending(c) + [s.e];
      assert SentOf(ch.sent, d) + batch == SentOf(ch.sent, d) + Pending(c) + [s.e];
      if Due(c.value.count, P) && |batch| == F {
        OfUniform(batch, d, d);
        SentSnoc(ch.sent, batch, d);
        AllWholeSnoc(ch.sent, batch, d, F);
      }
    }
    assert Every(arrived, P, 1) + [] == Every(arrived, P, 1);
  }

  /** Conservation, with everybody else's events interleaved: of the events at the indices
      P, 2P, 3P, ... none is lost, reordered or sent twice, and only full batches go out. */
  lemma {:induction false} BatchesConserveEvents(outcomes: Outcomes, known: set<Desc>, deals: seq<Deal>, id: nat,
      d: Desc, P: nat, F: nat)
    requires F >= 2 && Steady(outcomes, known, deals, id, d, P, F)
    ensures var w := Run(outcomes, known, deals);
            Conserved(w, id, d, ArrivedFor(deals, id, d), P, F)
            && OneEach(CellsOf(w.counts, d)) && ChanOf(w, id).cache == map[]
    decreases |deals|
  {
    hide Step, SteadyDeal, Conserved;
    if deals == [] {
      NothingConserved(id, d, P, F);
    } else {
      var before, s := deals[..|deals| - 1], deals[|deals| - 1];
      SteadyInit(outcomes, known, deals, id, d, P, F);
      BatchesConserveEvents(outcomes, known, before, id, d, P, F);
      RunOk(outcomes, known, before);
      var w, arrived := Run(outcomes, known, before), ArrivedFor(before, id, d);
      LiveInSteady(known, s, id, d, P, F);
      StepKeepsOthersCells(w, outcomes, known, s, id, d);
      NothingCached(w, outcomes, known, s, id);
      if Mine(s, id, d) {
        FifoTurn(w, outcomes, known, s, id, d, arrived, P, F);
      } else {
        ConservedElsewhere(w, outcomes, known, s, id, d, arrived, P, F);
        assert arrived + [] == arrived;
      }
    }
  }

  lemma NothingConserved(id: nat, d: Desc, P: nat, F: nat)
    requires P > 0 && F > 0
    ensures Conserved(World(map[], map[]), id, d, [], P, F)
  {
  }

  lemma ConservedElsewhere(w: World, outcomes: Outcomes, known: set<Desc>, s: Deal, id: nat, d: Desc,
      arrived: seq<Event>, P: nat, F: nat)
    requires P > 0 && Conserved(w, id, d, arrived, P, F) && id in s.live && s.id in s.live && !Mine(s, id, d)
    requires WorldOk(w) && OneEach(CellsOf(w.counts, d)) && ChanOf(w, id).cache == map[]
             && forall k: nat :: outcomes(id)(k)
    ensures Conserved(Step(w, outcomes, known, s), id, d, arrived, P, F)
  {
    hide Step, ThinCell, AllWhole, SentOf, Every;
    StepKeepsOthersCells(w, outcomes, known, s, id, d);
    StepElsewhere(w, outcomes, known, s, id, d);
    OtherBatches(w, outcomes, known, s, id, d, F);
  }

  // ----- a batch size that changed

  /** At a due event: a batch short of one event goes out, a shorter one grows below the size, and
      one that already has the size grows past it. */
  lemma DueTurn(c: Cell, id: nat, e: Event, P: nat, F: nat)
    requires P > 0 && F >= 2 && Due(c.count, P)
    ensures var t := TurnFifo(Some(c), id, e, P, F);
            (t.1 != [] <==> |c.cache| + 1 == F) && (t.1 != [] ==> t.1 == c.cache + [e] && t.0.cache == [])
            && (t.1 == [] ==> t.0.cache == c.cache + [e])
            && (|t.0.cache| < F <==> |c.cache| < F)
  {
  }

  /** One event of the channel, from a cell whose counter is `count`. */
  lemma BatchOnce(w: World, outcomes: Outcomes, known: set<Desc>, s: Deal, id: nat, d: Desc, P: nat, F: nat, c: Cell)
    requires P > 0 && F >= 2 && Mine(s, id, d) && SteadyDeal(known, s, id, d, P, F) && Calm(w, id, d)
    requires (forall k: nat :: outcomes(id)(k)) && Find(CellsOf(w.counts, d), id) == Some(c)
    ensures var t, turn := Step(w, outcomes, known, s), TurnFifo(Some(c), id, s.e, P, F);
            Find(CellsOf(t.counts, d), id) == Some(turn.0)
            && SentOf(ChanOf(t, id).sent, d) == SentOf(ChanOf(w, id).sent, d) + turn.1
  {
    hide OneEach, ScanNone, ScanFifo, CellsOk, OnChange, CacheEvent, Due, SentOf, Of;
    var cells, ch := CellsOf(w.counts, d), ChanOf(w, id);
    ScanFifoIsTurn(cells, s.live, id, s.e, P, F, false);
    EmptyOk(d);
    ScanFifoOk(cells, s.live, id, s.e, P, F, false);
    var batch := ScanFifo(cells, s.live, id, s.e, P, F, false).1;
    OfUniform(batch, d, d);
    SentSnoc(ch.sent, batch, d);
    assert SentOf(ch.sent, d) + [] == SentOf(ch.sent, d);
  }

  /** The cell `c` after events of which it took `taken`, `sent` of them having gone out. */
  ghost predicate Resized(c: Cell, t: Cell, count: nat, taken: seq<Event>, sent: seq<Event>, F: nat) {
    t.count == count && sent + t.cache == c.cache + taken
    && (|t.cache| < F <==> |c.cache| < F) && (|c.cache| >= F ==> sent == [])
  }

  lemma ResizedTurn(c: Cell, t: Cell, count: nat, taken: seq<Event>, sent: seq<Event>, id: nat, e: Event, P: nat,
      F: nat)
    requires P > 0 && F >= 2 && Resized(c, t, count, taken, sent, F)
    ensures var turn := TurnFifo(Some(t), id, e, P, F);
            Resized(c, turn.0, Counted(count, P, 1), if Due(count, P) then taken + [e] else taken, sent + turn.1, F)
  {
    hide Due;
    assert sent + [] == sent && Counted(count, P, 0) == count;
    if Due(count, P) {
      DueTurn(t, id, e, P, F);
      Assoc(sent, t.cache, [e]);
      Assoc(c.cache, taken, [e]);
      assert sent + (t.cache + [e]) + [] == sent + (t.cache + [e]);
    }
  }

  /** From any state, at a size that need not be the one the pending batch was begun at: the events
      at which the counter comes due are conserved, and the batch stays below the size if and only
      if it was below it to begin with. If it was not, nothing goes out any more. */
  lemma {:induction false} BatchStaysBelowIff(w: World, outcomes: Outcomes, known: set<Desc>, deals: seq<Deal>, id: nat,
      d: Desc, P: nat, F: nat, c: Cell) returns (more: seq<Event>)
    requires F >= 2 && Steady(outcomes, known, deals, id, d, P, F) && Calm(w, id, d)
    requires Find(CellsOf(w.counts, d), id) == Some(c)
    ensures var t, arrived := RunFrom(w, outcomes, known, deals), ArrivedFor(deals, id, d);
            var cell, sent := Find(CellsOf(t.counts, d), id), SentOf(ChanOf(w, id).sent, d);
            Calm(t, id, d) && cell.Some? && SentOf(ChanOf(t, id).sent, d) == sent + more
            && Resized(c, cell.value, Counted(c.count, P, |arrived|), Taken(c.count, P, arrived), more, F)
    decreases |deals|
  {
    hide Step, SteadyDeal, Calm, SentOf, Due, TurnFifo, Resized, Counted;
    var sent := SentOf(ChanOf(w, id).sent, d);
    if deals == [] {
      NothingResized(c, P, F);
      more := [];
      assert sent + more == sent;
    } else {
      var before, s := deals[..|deals| - 1], deals[|deals| - 1];
      SteadyInit(outcomes, known, deals, id, d, P, F);
      more := BatchStaysBelowIff(w, outcomes, known, before, id, d, P, F, c);
      var u, arrived := RunFrom(w, outcomes, known, before), ArrivedFor(before, id, d);
      var cell := Find(CellsOf(u.counts, d), id).value;
      CalmElsewhere(u, outcomes, known, s, id, d, P, F);
      if Mine(s, id, d) {
        BatchOnce(u, outcomes, known, s, id, d, P, F, cell);
        ResizedTurn(c, cell, Counted(c.count, P, |arrived|), Taken(c.count, P, arrived), more, id, s.e, P, F);
        CountedOnce(c.count, P, |arrived|);
        TakenSnoc(c.count, P, arrived, s.e);
        var batch := TurnFifo(Some(cell), id, s.e, P, F).1;
        Assoc(sent, more, batch);
        more := more + batch;
      } else {
        assert arrived + [] == arrived;
      }
    }
  }

  lemma NothingResized(c: Cell, P: nat, F: nat)
    requires P > 0
    ensures Resized(c, c, Counted(c.count, P, 0), [], [], F)
  {
  }

  const ALWAYS: Outcomes := id => n => true

  function Alone(d: Desc, cell: Cell): (w: World) {
    World(map[d := [cell]], map[0 := Chan(map[], [], 0)])
  }

  lemma QuietStep(known: set<Desc>, d: Desc, e: Event, batch: seq<Event>)
    requires d !in known && e.desc == d && |batch| < 2
    ensures Step(Alone(d, Cell(0, 0, batch)), ALWAYS, known, Deal(0, e, {0}, 1, 3)) == Alone(d, Cell(0, 0, batch + [e]))
  {
    var grown := Cell(0, 0, batch + [e]);
    assert ScanFifo([], {0}, 0, e, 1, 3, true) == ([], []);
    assert ScanFifo([Cell(0, 0, batch)], {0}, 0, e, 1, 3, false) == ([grown], []) by {
      assert [grown] + [] == [grown];
    }
  }

  lemma FirstStep(known: set<Desc>, d: Desc, e: Event)
    requires d !in known && e.desc == d
    ensures Step(World(map[], map[]), ALWAYS, known, Deal(0, e, {0}, 1, 3)) == Alone(d, Cell(0, 0, []))
  {
  }

  lemma TwoPending(known: set<Desc>, d: Desc, e: Event, s: Deal)
    requires d !in known && e.desc == d && s == Deal(0, e, {0}, 1, 3)
    ensures Run(ALWAYS, known, [s, s, s]) == Alone(d, Cell(0, 0, [e, e]))
  {
    hide Step, Alone;
    assert [s, s, s][..2] == [s, s] && [s, s][..1] == [s] && [s][..0] == [];
    FirstStep(known, d, e);
    assert Run(ALWAYS, known, [s]) == Alone(d, Cell(0, 0, []));
    QuietStep(known, d, e, []);
    assert [] + [e] == [e] && [e] + [e] == [e, e];
    assert Run(ALWAYS, known, [s, s]) == Alone(d, Cell(0, 0, [e]));
    QuietStep(known, d, e, [e]);
  }

  lemma {:induction false} AllTaken(events: seq<Event>)
    ensures Counted(0, 1, |events|) == 0 && Taken(0, 1, events) == events
    decreases |events|
  {
    if events != [] {
      var n := |events| - 1;
      AllTaken(events[..n]);
      assert events == events[..n] + [events[n]];
    }
  }

  /** The deals that bring these events to channel 0, in batches of two. */
  function Pairwise(events: seq<Event>): (deals: seq<Deal>) {
    if events == [] then []
    else
      var n := |events| - 1;
      Pairwise(events[..n]) + [Deal(0, events[n], {0}, 1, 2)]
  }

  lemma {:induction false} PairwiseBrings(known: set<Desc>, d: Desc, events: seq<Event>)
    requires d !in known && forall e <- events :: e.desc == d
    ensures ArrivedFor(Pairwise(events), 0, d) == events && Steady(ALWAYS, known, Pairwise(events), 0, d, 1, 2)
    decreases |events|
  {
    if events != [] {
      var n := |events| - 1;
      PairwiseBrings(known, d, events[..n]);
      var before, s := Pairwise(events[..n]), Deal(0, events[n], {0}, 1, 2);
      assert events == events[..n] + [events[n]] && (before + [s])[..|before|] == before;
      assert events[n] in events;
    }
  }

  /** A subscriber served every event in batches of three has two pending when the size becomes
      two. From then on nothing is delivered, and the batch takes every event, however many come. */
  lemma ShrunkSizeDeliversNothing(known: set<Desc>, d: Desc, e: Event, later: seq<Event>)
    requires d !in known && e.desc == d && forall x <- later :: x.desc == d
    ensures var s := Deal(0, e, {0}, 1, 3);
            var t := RunFrom(Run(ALWAYS, known, [s, s, s]), ALWAYS, known, Pairwise(later));
            SentOf(ChanOf(t, 0).sent, d) == [] && Pending(Find(CellsOf(t.counts, d), 0)) == [e, e] + later
  {
    hide Calm, Steady, Pairwise, Run, RunFrom, Taken, Counted, SentOf, ALWAYS;
    var s, c := Deal(0, e, {0}, 1, 3), Cell(0, 0, [e, e]);
    TwoPendingIsCalm(known, d, e, s);
    PairwiseBrings(known, d, later);
    AllTaken(later);
    var more := BatchStaysBelowIff(Run(ALWAYS, known, [s, s, s]), ALWAYS, known, Pairwise(later), 0, d, 1, 2, c);
  }

  lemma TwoPendingIsCalm(known: set<Desc>, d: Desc, e: Event, s: Deal)
    requires d !in known && e.desc == d && s == Deal(0, e, {0}, 1, 3)
    ensures var w := Run(ALWAYS, known, [s, s, s]);
            Calm(w, 0, d) && Find(CellsOf(w.counts, d), 0) == Some(Cell(0, 0, [e, e]))
            && SentOf(ChanOf(w, 0).sent, d) == []
  {
    hide WorldOk, OneEach;
    TwoPending(known, d, e, s);
    RunOk(ALWAYS, known, [s, s, s]);
    ReachedOneEach(ALWAYS, known, [s, s, s], d);
    hide Run;
  }
}
