/** What each subscriber receives, over whole runs with many channels and sensors interleaved. */
module DeliveryTheorems {
  import opened Sequences
  import opened SensorTypes
  import opened Deliveries

  /** All sensors' cells and all channels. */
  datatype World = World(counts: Counts, chans: map<nat, Chan>)

  /** One SendEvents call: for channel `id`, while the channels `live` still exist, at the channel's
      current period count and batch size. */
  datatype Deal = Deal(id: nat, e: Event, live: set<nat>, P: nat, F: nat)

  type Outcomes = nat -> Outcome

  function ChanOf(w: World, id: nat): (ch: Chan) {
    if id in w.chans then w.chans[id] else Chan(map[], [], 0)
  }

  function Step(w: World, outcomes: Outcomes, known: set<Desc>, s: Deal): (r: World) {
    var p := SendEvents(Pipe(w.counts, ChanOf(w, s.id)), outcomes(s.id), known, s.live, s.id, s.e, s.P, s.F);
    World(p.counts, w.chans[s.id := p.ch])
  }

  function Run(outcomes: Outcomes, known: set<Desc>, deals: seq<Deal>): (w: World) {
    if deals == [] then World(map[], map[])
    else Step(Run(outcomes, known, deals[..|deals| - 1]), outcomes, known, deals[|deals| - 1])
  }

  function Of(events: seq<Event>, d: Desc): (r: seq<Event>) {
    if events == [] then []
    else
      var n := |events| - 1;
      Of(events[..n], d) + if events[n].desc == d then [events[n]] else []
  }

  /** The events of sensor `d` among all successful sends, in sending order. */
  function SentOf(sent: seq<seq<Event>>, d: Desc): (r: seq<Event>) {
    if sent == [] then [] else SentOf(sent[..|sent| - 1], d) + Of(sent[|sent| - 1], d)
  }

  predicate Mine(s: Deal, id: nat, d: Desc) {
    s.id == id && s.e.desc == d
  }

  /** The events of `d` that were to go to channel `id`, in arrival order. */
  function ArrivedFor(deals: seq<Deal>, id: nat, d: Desc): (r: seq<Event>) {
    if deals == [] then []
    else
      var n := |deals| - 1;
      ArrivedFor(deals[..n], id, d) + if Mine(deals[n], id, d) then [deals[n].e] else []
  }

  lemma SentSnoc(sent: seq<seq<Event>>, batch: seq<Event>, d: Desc)
    ensures SentOf(sent + [batch], d) == SentOf(sent, d) + Of(batch, d)
  {
    assert (sent + [batch])[..|sent|] == sent;
  }

  lemma OfOne(e: Event, d: Desc)
    ensures Of([e], d) == if e.desc == d then [e] else []
  {
    assert [e][..0] == [];
  }

  lemma {:induction false} OfUniform(events: seq<Event>, d: Desc, k: Desc)
    requires forall x <- events :: x.desc == k
    ensures Of(events, d) == if d == k then events else []
  {
    if events != [] {
      var n := |events| - 1;
      OfUniform(events[..n], d, k);
      assert events[n] in events;
      assert events == events[..n] + [events[n]];
    }
  }

  // ----- every cell and cache holds events of its own sensor only

  ghost predicate CellsOk(cells: seq<Cell>, d: Desc) {
    forall i, k :: 0 <= i < |cells| && 0 <= k < |cells[i].cache| ==> cells[i].cache[k].desc == d
  }

  ghost predicate CountsOk(counts: Counts) {
    forall d <- counts :: CellsOk(counts[d], d)
  }

  ghost predicate ChanOk(ch: Chan) {
    forall d <- ch.cache :: ch.cache[d].desc == d
  }

  lemma CellsOkCons(c: Cell, t: seq<Cell>, d: Desc)
    ensures CellsOk([c] + t, d) <==> CellsOk(t, d) && forall k :: 0 <= k < |c.cache| ==> c.cache[k].desc == d
  {
    var all := [c] + t;
    if CellsOk(all, d) {
      assert all[0] == c;
      forall i, k | 0 <= i < |t| && 0 <= k < |t[i].cache| ensures t[i].cache[k].desc == d {
        assert all[i + 1] == t[i];
      }
    }
  }

  lemma {:induction false} ScanNoneOk(cells: seq<Cell>, live: set<nat>, id: nat, P: nat, exist: bool, d: Desc)
    requires CellsOk(cells, d)
    ensures CellsOk(ScanNone(cells, live, id, P, exist).0, d)
    decreases |cells|
  {
    hide Due;
    if cells != [] {
      var c, tail := cells[0], cells[1..];
      assert cells == [c] + tail;
      CellsOkCons(c, tail, d);
      ScanNoneOk(tail, live, id, P, exist || (c.channel in live && c.channel == id), d);
      var t := ScanNone(tail, live, id, P, exist || (c.channel in live && c.channel == id)).0;
      var r := ScanNone(cells, live, id, P, exist).0;
      if c.channel in live {
        CellsOkCons(r[0], t, d);
        CellsOkCons(r[0], tail, d);
        assert r == [r[0]] + t || r == [r[0]] + tail;
      }
    }
  }

  lemma {:induction false} ScanFifoOk(cells: seq<Cell>, live: set<nat>, id: nat, e: Event, P: nat, F: nat, exist: bool)
    requires P > 0 && CellsOk(cells, e.desc)
    ensures CellsOk(ScanFifo(cells, live, id, e, P, F, exist).0, e.desc)
    ensures forall x <- ScanFifo(cells, live, id, e, P, F, exist).1 :: x.desc == e.desc
    decreases |cells|
  {
    hide Due;
    if cells != [] {
      var c, tail := cells[0], cells[1..];
      assert cells == [c] + tail;
      CellsOkCons(c, tail, e.desc);
      ScanFifoOk(tail, live, id, e, P, F, exist || (c.channel in live && c.channel == id));
      var t := ScanFifo(tail, live, id, e, P, F, exist || (c.channel in live && c.channel == id)).0;
      var r := ScanFifo(cells, live, id, e, P, F, exist).0;
      if c.channel in live {
        CellsOkCons(r[0], t, e.desc);
        CellsOkCons(r[0], tail, e.desc);
        assert r == [r[0]] + t || r == [r[0]] + tail;
      }
    }
  }

  ghost predicate WorldOk(w: World) {
    CountsOk(w.counts) && forall id: nat :: ChanOk(ChanOf(w, id))
  }

  lemma StepOk(w: World, outcomes: Outcomes, known: set<Desc>, s: Deal)
    requires WorldOk(w)
    ensures WorldOk(Step(w, outcomes, known, s))
  {
    hide ScanNone, ScanFifo, CellsOk, OnChange;
    var cells, d := CellsOf(w.counts, s.e.desc), s.e.desc;
    EmptyOk(d);
    ScanNoneOk(cells, s.live, s.id, s.P, false, d);
    if s.P > 0 {
      ScanFifoOk(cells, s.live, s.id, s.e, s.P, s.F, false);
    }
    var t := Step(w, outcomes, known, s);
    forall id: nat ensures ChanOk(ChanOf(t, id)) {
      assert ChanOk(ChanOf(w, id));
    }
  }

  lemma EmptyOk(d: Desc)
    ensures CellsOk([], d)
  {
  }

  lemma {:induction false} RunOk(outcomes: Outcomes, known: set<Desc>, deals: seq<Deal>)
    ensures WorldOk(Run(outcomes, known, deals))
    decreases |deals|
  {
    hide Step;
    if deals != [] {
      RunOk(outcomes, known, deals[..|deals| - 1]);
      StepOk(Run(outcomes, known, deals[..|deals| - 1]), outcomes, known, deals[|deals| - 1]);
    }
  }

  // ----- order under failing sends

  function CachedOf(ch: Chan, d: Desc): (r: seq<Event>) {
    if d in ch.cache then [ch.cache[d]] else []
  }

  /** Delivered so far, then what waits for a retry. */
  function Outgoing(w: World, id: nat, d: Desc): (r: seq<Event>) {
    SentOf(ChanOf(w, id).sent, d) + CachedOf(ChanOf(w, id), d)
  }

  lemma SendRawOne(ch: Chan, outcome: Outcome, e: Event, d: Desc)
    ensures var r := SendRaw(ch, outcome, [e]);
            if e.desc != d then SentOf(r.sent, d) == SentOf(ch.sent, d) && CachedOf(r, d) == CachedOf(ch, d)
            else if outcome(ch.sends) then
              SentOf(r.sent, d) == SentOf(ch.sent, d) + [e] && CachedOf(r, d) == CachedOf(ch, d)
            else SentOf(r.sent, d) == SentOf(ch.sent, d) && CachedOf(r, d) == [e]
  {
    hide SentOf, Of;
    SentSnoc(ch.sent, [e], d);
    OfOne(e, d);
    assert SentOf(ch.sent, d) + [] == SentOf(ch.sent, d);
  }

  lemma SendRawBatch(ch: Chan, outcome: Outcome, batch: seq<Event>, k: Desc, d: Desc)
    requires k != d && forall x <- batch :: x.desc == k
    ensures var r := SendRaw(ch, outcome, batch);
            SentOf(r.sent, d) == SentOf(ch.sent, d) && CachedOf(r, d) == CachedOf(ch, d)
  {
    SentSnoc(ch.sent, batch, d);
    OfUniform(batch, d, k);
    if batch != [] {
      assert batch[|batch| - 1] in batch;
    }
  }

  lemma CacheEventOne(ch: Chan, outcome: Outcome, e: Event, d: Desc)
    requires ChanOk(ch)
    ensures var r := CacheEvent(ch, outcome, e);
            var sent, c := SentOf(ch.sent, d), CachedOf(ch, d);
            if e.desc != d then SentOf(r.sent, d) == sent && CachedOf(r, d) == c
            else
              SentOf(r.sent, d) + CachedOf(r, d) == sent + [e] || SentOf(r.sent, d) + CachedOf(r, d) == sent + c + [e]
  {
    hide SentOf, Of;
    var t := if e.desc in ch.cache then SendData(ch, outcome, [ch.cache[e.desc]]).0 else ch;
    OfOne(e, d);
    if e.desc in ch.cache {
      SentSnoc(ch.sent, [ch.cache[e.desc]], d);
      OfOne(ch.cache[e.desc], d);
    }
    SentSnoc(t.sent, [e], d);
    assert SentOf(t.sent, d) == SentOf(ch.sent, d)
        || (e.desc == d && SentOf(t.sent, d) == SentOf(ch.sent, d) + CachedOf(ch, d));
    var r := CacheEvent(ch, outcome, e);
    var sent := SentOf(t.sent, d);
    if e.desc == d {
      assert SentOf(r.sent, d) + CachedOf(r, d) == sent + [e] by {
        assert sent + [e] + [] == sent + [e];
      }
    }
  }

  /** An event this channel gets one by one: on-change or one-shot, or not batched. */
  predicate OneByOne(s: Deal, known: set<Desc>) {
    s.F <= 1 || (s.e.desc in known && OnChange(s.e.mode))
  }

  /** One call: events of other channels and sensors change nothing here; an event of this one is
      thinned out, or joins what was sent, behind or instead of the event that waited. */
  ghost predicate Advances(w: World, t: World, known: set<Desc>, s: Deal, id: nat, d: Desc) {
    var sent, out, out' := SentOf(ChanOf(w, id).sent, d), Outgoing(w, id, d), Outgoing(t, id, d);
    if !Mine(s, id, d) then out' == out
    else out' == out + [s.e] || out' == sent + [s.e] || (out' == out && !(s.e.desc in known && OnChange(s.e.mode)))
  }

  lemma StepOutgoing(w: World, outcomes: Outcomes, known: set<Desc>, s: Deal, id: nat, d: Desc)
    requires WorldOk(w) && (Mine(s, id, d) ==> OneByOne(s, known))
    ensures Advances(w, Step(w, outcomes, known, s), known, s, id, d)
  {
    hide ScanNone, ScanFifo, CellsOk, OnChange, CacheEvent, SendRaw, SentOf;
    if s.id == id {
      var ch, outcome := ChanOf(w, id), outcomes(id);
      var sent := SentOf(ch.sent, d);
      assert ChanOk(ch);
      if ch.cache == map[] {
        assert sent + [] == sent && sent + [s.e] + [] == sent + [s.e];
        SendRawOne(ch, outcome, s.e, d);
        if s.P > 0 && s.F > 1 && s.e.desc != d {
          var cells := CellsOf(w.counts, s.e.desc);
          EmptyOk(s.e.desc);
          ScanFifoOk(cells, s.live, id, s.e, s.P, s.F, false);
          SendRawBatch(ch, outcome, ScanFifo(cells, s.live, id, s.e, s.P, s.F, false).1, s.e.desc, d);
        }
      } else {
        CacheEventOne(ch, outcome, s.e, d);
      }
    }
  }

  lemma AdvanceKeepsOrder(w: World, t: World, known: set<Desc>, s: Deal, id: nat, d: Desc, arrived: seq<Event>)
    requires Advances(w, t, known, s, id, d) && Subseq(Outgoing(w, id, d), arrived)
    ensures Subseq(Outgoing(t, id, d), if Mine(s, id, d) then arrived + [s.e] else arrived)
  {
    hide SentOf, Subseq;
    if Mine(s, id, d) {
      var sent, c := SentOf(ChanOf(w, id).sent, d), CachedOf(ChanOf(w, id), d);
      SubseqSnoc(Outgoing(w, id, d), arrived, s.e);
      if c == [] {
        assert sent + c == sent;
      } else {
        SubseqPrefix(sent, c, arrived);
      }
      SubseqSnoc(sent, arrived, s.e);
    }
  }

  /** However sends fail, what channel `id` receives of sensor `d`, and the one event it may hold
      for a retry, are arrivals in arrival order, none twice. */
  lemma {:induction false} DeliveryKeepsOrder(outcomes: Outcomes, known: set<Desc>, deals: seq<Deal>, id: nat, d: Desc)
    requires forall s <- deals :: Mine(s, id, d) ==> OneByOne(s, known)
    ensures Subseq(Outgoing(Run(outcomes, known, deals), id, d), ArrivedFor(deals, id, d))
    decreases |deals|
  {
    hide Step, Advances, Subseq, OneByOne;
    if deals == [] {
      EmptySubseq<Event>();
      assert Outgoing(World(map[], map[]), id, d) == [];
    } else {
      var before, s := deals[..|deals| - 1], deals[|deals| - 1];
      DeliveryKeepsOrder(outcomes, known, before, id, d);
      RunOk(outcomes, known, before);
      var w := Run(outcomes, known, before);
      StepOutgoing(w, outcomes, known, s, id, d);
      AdvanceKeepsOrder(w, Step(w, outcomes, known, s), known, s, id, d, ArrivedFor(before, id, d));
      assert ArrivedFor(before, id, d) + [] == ArrivedFor(before, id, d);
    }
  }

  lemma EmptySubseq<T>()
    ensures Subseq<T>([], [])
  {
  }

  ghost predicate EndsAlike(arrived: seq<Event>, out: seq<Event>) {
    arrived != [] ==> out != [] && out[|out| - 1] == arrived[|arrived| - 1]
  }

  lemma AdvanceEndsAlike(w: World, t: World, known: set<Desc>, s: Deal, id: nat, d: Desc, arrived: seq<Event>)
    requires Advances(w, t, known, s, id, d) && EndsAlike(arrived, Outgoing(w, id, d))
    requires Mine(s, id, d) ==> d in known && OnChange(s.e.mode)
    ensures EndsAlike(if Mine(s, id, d) then arrived + [s.e] else arrived, Outgoing(t, id, d))
  {
    hide SentOf, Outgoing, OnChange;
  }

  /** For an on-change sensor nothing is thinned: the newest arrival is always the last one
      delivered, or the one held for a retry. */
  lemma {:induction false} NewestIsDeliveredOrHeld(outcomes: Outcomes, known: set<Desc>, deals: seq<Deal>, id: nat,
      d: Desc)
    requires d in known && forall s <- deals :: Mine(s, id, d) ==> OnChange(s.e.mode)
    ensures EndsAlike(ArrivedFor(deals, id, d), Outgoing(Run(outcomes, known, deals), id, d))
    decreases |deals|
  {
    hide Step, OnChange, Advances, Outgoing, EndsAlike;
    if deals == [] {
      NothingEnds(Outgoing(World(map[], map[]), id, d));
    } else {
      var before, s := deals[..|deals| - 1], deals[|deals| - 1];
      var w, arrived := Run(outcomes, known, before), ArrivedFor(before, id, d);
      NewestIsDeliveredOrHeld(outcomes, known, before, id, d);
      RunOk(outcomes, known, before);
      StepOutgoing(w, outcomes, known, s, id, d);
      AdvanceEndsAlike(w, Step(w, outcomes, known, s), known, s, id, d, arrived);
      assert arrived + [] == arrived;
    }
  }

  lemma NothingEnds(out: seq<Event>)
    ensures EndsAlike([], out)
  {
  }

  // ----- what failing sends cost an on-change sensor

  /** The event that waits is tried once more, then the new one: exactly what each outcome does. */
  lemma RetryOnce(ch: Chan, outcome: Outcome, e: Event)
    requires ChanOk(ch) && e.desc in ch.cache
    ensures var r, sent := CacheEvent(ch, outcome, e), SentOf(ch.sent, e.desc);
            var first, second := outcome(ch.sends), outcome(ch.sends + 1);
            SentOf(r.sent, e.desc) == (if first then sent + [ch.cache[e.desc]] else sent) + (if second then [e] else [])
            && CachedOf(r, e.desc) == if second then [] else [e]
  {
    hide SentOf, Of;
    var waiting := ch.cache[e.desc];
    var t := SendData(ch, outcome, [waiting]).0;
    SentSnoc(ch.sent, [waiting], e.desc);
    OfOne(waiting, e.desc);
    SentSnoc(t.sent, [e], e.desc);
    OfOne(e, e.desc);
    assert SentOf(t.sent, e.desc) + [] == SentOf(t.sent, e.desc);
  }

  /** The call gives up the waiting event: its second send fails too. */
  predicate Loses(w: World, outcomes: Outcomes, s: Deal, id: nat, d: Desc) {
    Mine(s, id, d) && d in ChanOf(w, id).cache && !outcomes(id)(ChanOf(w, id).sends)
  }

  function Losses(outcomes: Outcomes, known: set<Desc>, deals: seq<Deal>, id: nat, d: Desc): (n: nat) {
    if deals == [] then 0
    else
      var before, s := deals[..|deals| - 1], deals[|deals| - 1];
      Losses(outcomes, known, before, id, d) + if Loses(Run(outcomes, known, before), outcomes, s, id, d) then 1 else 0
  }

  lemma StepLoses(w: World, outcomes: Outcomes, known: set<Desc>, s: Deal, id: nat, d: Desc)
    requires WorldOk(w) && Mine(s, id, d) && d in known && OnChange(s.e.mode)
    ensures var out' := Outgoing(Step(w, outcomes, known, s), id, d);
            if Loses(w, outcomes, s, id, d) then out' == SentOf(ChanOf(w, id).sent, d) + [s.e]
            else out' == Outgoing(w, id, d) + [s.e]
  {
    hide OnChange, CacheEvent, SendRaw, SentOf;
    var ch := ChanOf(w, id);
    var sent := SentOf(ch.sent, d);
    assert ChanOk(ch);
    assert sent + [] == sent && sent + [s.e] + [] == sent + [s.e];
    if ch.cache == map[] {
      SendRawOne(ch, outcomes(id), s.e, d);
    } else if d in ch.cache {
      RetryOnce(ch, outcomes(id), s.e);
      assert sent + [ch.cache[d]] + [] + [s.e] == sent + [ch.cache[d]] + [s.e];
      assert sent + [ch.cache[d]] + [s.e] + [] == sent + [ch.cache[d]] + [s.e];
      assert sent + [] + [s.e] == sent + [s.e];
    } else {
      CacheEventOne(ch, outcomes(id), s.e, d);
    }
  }

  /** Every arrival of an on-change sensor is delivered, held for its retry, or was lost by failing
      twice; nothing else is ever lost. */
  lemma {:induction false} OnChangeIsAccountedFor(outcomes: Outcomes, known: set<Desc>, deals: seq<Deal>, id: nat,
      d: Desc)
    requires d in known && forall s <- deals :: Mine(s, id, d) ==> OnChange(s.e.mode)
    ensures var out, arrived := Outgoing(Run(outcomes, known, deals), id, d), ArrivedFor(deals, id, d);
            |out| + Losses(outcomes, known, deals, id, d) == |arrived|
            && (out == arrived <==> Losses(outcomes, known, deals, id, d) == 0)
    decreases |deals|
  {
    hide Step, OnChange, SentOf, Loses;
    if deals == [] {
      NothingSent(d);
    } else {
      var before, s := deals[..|deals| - 1], deals[|deals| - 1];
      var w, arrived := Run(outcomes, known, before), ArrivedFor(before, id, d);
      OnChangeIsAccountedFor(outcomes, known, before, id, d);
      RunOk(outcomes, known, before);
      LosesOne(w, outcomes, s, id, d);
      assert arrived + [] == arrived;
      if Mine(s, id, d) {
        StepLoses(w, outcomes, known, s, id, d);
      } else {
        StepOutgoing(w, outcomes, known, s, id, d);
      }
    }
  }

  lemma LosesOne(w: World, outcomes: Outcomes, s: Deal, id: nat, d: Desc)
    ensures Loses(w, outcomes, s, id, d) ==>
              Mine(s, id, d) && |Outgoing(w, id, d)| == |SentOf(ChanOf(w, id).sent, d)| + 1
  {
  }

  // ----- thinning and batching when sends succeed

  /** A call that is not the channel's own, for this sensor, leaves its cell as it was while the
      channel lives. */
  lemma StepKeepsOthersCells(w: World, outcomes: Outcomes, known: set<Desc>, s: Deal, id: nat, d: Desc)
    requires OneEach(CellsOf(w.counts, d)) && s.id in s.live
    ensures var t := Step(w, outcomes, known, s);
            OneEach(CellsOf(t.counts, d))
            && (!Mine(s, id, d) ==> KeptOrGone(CellsOf(w.counts, d), CellsOf(t.counts, d), s.live, id))
  {
    hide OneEach, ScanNone, ScanFifo, OnChange, CacheEvent, SendRaw;
    if s.e.desc == d {
      var cells := CellsOf(w.counts, d);
      ScanNoneIsTurn(cells, s.live, s.id, s.P, false);
      if s.P > 0 {
        ScanFifoIsTurn(cells, s.live, s.id, s.e, s.P, s.F, false);
      }
    }
  }

  /** Every call serves a channel that exists. */
  ghost predicate AllServed(deals: seq<Deal>) {
    forall s <- deals :: s.id in s.live
  }

  lemma {:induction false} ReachedOneEach(outcomes: Outcomes, known: set<Desc>, deals: seq<Deal>, d: Desc)
    requires AllServed(deals)
    ensures OneEach(CellsOf(Run(outcomes, known, deals).counts, d))
    decreases |deals|
  {
    hide Step;
    if deals != [] {
      var before, s := deals[..|deals| - 1], deals[|deals| - 1];
      ReachedOneEach(outcomes, known, before, d);
      StepKeepsOthersCells(Run(outcomes, known, before), outcomes, known, s, s.id, d);
    }
  }

  /** The run serves channel `id` and sensor `d` steadily: while the channel lives, at constant
      period count P >= 1 and batch size F, its sends succeeding. */
  ghost predicate Steady(outcomes: Outcomes, known: set<Desc>, deals: seq<Deal>, id: nat, d: Desc, P: nat, F: nat) {
    P >= 1 && (forall n: nat :: outcomes(id)(n))
    && forall s <- deals :: SteadyDeal(known, s, id, d, P, F)
  }

  predicate SteadyDeal(known: set<Desc>, s: Deal, id: nat, d: Desc, P: nat, F: nat) {
    id in s.live && s.id in s.live
    && (Mine(s, id, d) ==> s.P == P && s.F == F && !(d in known && OnChange(s.e.mode)))
  }

  lemma SteadyInit(outcomes: Outcomes, known: set<Desc>, deals: seq<Deal>, id: nat, d: Desc, P: nat, F: nat)
    requires deals != [] && Steady(outcomes, known, deals, id, d, P, F)
    ensures Steady(outcomes, known, deals[..|deals| - 1], id, d, P, F)
    ensures SteadyDeal(known, deals[|deals| - 1], id, d, P, F)
  {
    hide SteadyDeal;
    assert deals[|deals| - 1] in deals;
  }

  lemma NothingCached(w: World, outcomes: Outcomes, known: set<Desc>, s: Deal, id: nat)
    requires (forall n: nat :: outcomes(id)(n)) && ChanOf(w, id).cache == map[]
    ensures ChanOf(Step(w, outcomes, known, s), id).cache == map[]
  {
    hide ScanNone, ScanFifo, OnChange;
  }

  /** An event of another channel or sensor: this channel's cell and deliveries stay put. */
  lemma StepElsewhere(w: World, outcomes: Outcomes, known: set<Desc>, s: Deal, id: nat, d: Desc)
    requires WorldOk(w) && !Mine(s, id, d) && ChanOf(w, id).cache == map[] && forall n: nat :: outcomes(id)(n)
    ensures var t := Step(w, outcomes, known, s);
            SentOf(ChanOf(t, id).sent, d) == SentOf(ChanOf(w, id).sent, d) && ChanOf(t, id).cache == map[]
  {
    StepOutgoing(w, outcomes, known, s, id, d);
    NothingCached(w, outcomes, known, s, id);
    hide Step, SentOf;
    var t := Step(w, outcomes, known, s);
    assert Outgoing(t, id, d) == SentOf(ChanOf(t, id).sent, d);
    assert Outgoing(w, id, d) == SentOf(ChanOf(w, id).sent, d);
  }

  /** The events with index k >= first and k a multiple of P. */
  function Every(events: seq<Event>, P: nat, first: nat): (r: seq<Event>)
    requires P > 0
  {
    if events == [] then []
    else
      var n := |events| - 1;
      Every(events[..n], P, first) + if n >= first && n % P == 0 then [events[n]] else []
  }

  lemma EverySnoc(events: seq<Event>, e: Event, P: nat, first: nat)
    requires P > 0
    ensures Every(events + [e], P, first)
         == Every(events, P, first) + if |events| >= first && |events| % P == 0 then [e] else []
  {
    assert (events + [e])[..|events|] == events;
  }

  /** The counter after n events of the channel, the first of which only creates the cell. */
  function Counter(n: nat, P: nat): (c: nat)
    requires n > 0 && P > 0
  {
    (n - 1) % P
  }

  lemma CounterStep(n: nat, P: nat)
    requires n > 0 && P > 0
    ensures Due(Counter(n, P), P) <==> n % P == 0
    ensures Counter(n + 1, P) == if Due(Counter(n, P), P) then 0 else Counter(n, P) + 1
  {
    var q, r := (n - 1) / P, (n - 1) % P;
    assert n - 1 == P * q + r;
    if r + 1 == P {
      assert n == P * (q + 1) by { assert P * (q + 1) == P * q + P; }
      ModMultiple(P, q + 1, 0);
      ModMultiple(P, 1, 0);
    } else {
      ModMultiple(P, q, r + 1);
      ModMultiple(P, 0, r + 1);
    }
  }

  lemma {:induction false} ModMultiple(P: nat, q: nat, r: nat)
    requires r < P
    ensures (P * q + r) % P == r
    decreases q
  {
    if q > 0 {
      ModMultiple(P, q - 1, r);
      assert P * q + r == P * (q - 1) + r + P;
      ModAdd(P * (q - 1) + r, P);
    }
  }

  lemma ModAdd(a: nat, P: nat)
    requires P > 0
    ensures (a + P) % P == a % P
  {
    var q, r := a / P, a % P;
    assert a + P == P * (q + 1) + r by { assert P * (q + 1) == P * q + P; }
    var q', r' := (a + P) / P, (a + P) % P;
    assert P * (q + 1 - q') == r' - r by { assert P * (q + 1 - q') == P * (q + 1) - P * q'; }
    NoMultipleBetween(P, q + 1 - q', r' - r);
  }

  lemma NoMultipleBetween(P: int, x: int, y: int)
    requires P > 0 && -P < y < P && P * x == y
    ensures x == 0
  {
  }

  /** The state of a non-FIFO subscriber's cell after n events. */
  ghost predicate ThinCell(c: Option<Cell>, n: nat, P: nat)
    requires P > 0
  {
    if n == 0 then c.None? else c.Some? && c.value.count == Counter(n, P)
  }

  lemma ThinTurn(w: World, outcomes: Outcomes, known: set<Desc>, s: Deal, id: nat, d: Desc, n: nat, P: nat, F: nat)
    requires P > 0 && F <= 1 && Mine(s, id, d) && SteadyDeal(known, s, id, d, P, F)
    requires OneEach(CellsOf(w.counts, d)) && ChanOf(w, id).cache == map[] && forall k: nat :: outcomes(id)(k)
    requires ThinCell(Find(CellsOf(w.counts, d), id), n, P)
    ensures var t := Step(w, outcomes, known, s);
            ThinCell(Find(CellsOf(t.counts, d), id), n + 1, P)
            && SentOf(ChanOf(t, id).sent, d) == SentOf(ChanOf(w, id).sent, d) + if n % P == 0 then [s.e] else []
  {
    hide OneEach, ScanNone, ScanFifo, OnChange, CacheEvent, Due, SentOf, SendRaw, Counter;
    var cells, ch := CellsOf(w.counts, d), ChanOf(w, id);
    ScanNoneIsTurn(cells, s.live, id, P, false);
    SendRawOne(ch, outcomes(id), s.e, d);
    if n > 0 {
      CounterStep(n, P);
    } else {
      FirstCounter(P);
    }
    assert SentOf(ch.sent, d) + [] == SentOf(ch.sent, d);
  }

  lemma FirstCounter(P: nat)
    requires P > 0
    ensures Counter(1, P) == 0 && 0 % P == 0
  {
    ModMultiple(P, 0, 0);
  }

  /** Decimation, with everybody else's events interleaved: the k-th event of the channel is
      delivered if and only if P divides k. */
  lemma {:induction false} EveryPthIsDelivered(outcomes: Outcomes, known: set<Desc>, deals: seq<Deal>, id: nat,
      d: Desc, P: nat, F: nat)
    requires F <= 1 && Steady(outcomes, known, deals, id, d, P, F)
    ensures var w, arrived := Run(outcomes, known, deals), ArrivedFor(deals, id, d);
            SentOf(ChanOf(w, id).sent, d) == Every(arrived, P, 0)
            && OneEach(CellsOf(w.counts, d)) && ChanOf(w, id).cache == map[]
            && ThinCell(Find(CellsOf(w.counts, d), id), |arrived|, P)
    decreases |deals|
  {
    hide Step, SteadyDeal, ThinCell, SentOf;
    if deals == [] {
      assert ThinCell(None, 0, P) by { NoThinCell(P); }
      assert SentOf([], d) == [] by { NothingSent(d); }
    } else {
      var before, s := deals[..|deals| - 1], deals[|deals| - 1];
      SteadyInit(outcomes, known, deals, id, d, P, F);
      EveryPthIsDelivered(outcomes, known, before, id, d, P, F);
      RunOk(outcomes, known, before);
      var w, arrived := Run(outcomes, known, before), ArrivedFor(before, id, d);
      LiveInSteady(known, s, id, d, P, F);
      StepKeepsOthersCells(w, outcomes, known, s, id, d);
      NothingCached(w, outcomes, known, s, id);
      if Mine(s, id, d) {
        ThinTurn(w, outcomes, known, s, id, d, |arrived|, P, F);
        EverySnoc(arrived, s.e, P, 0);
      } else {
        StepElsewhere(w, outcomes, known, s, id, d);
        assert arrived + [] == arrived;
      }
    }
  }

  lemma NoThinCell(P: nat)
    requires P > 0
    ensures ThinCell(None, 0, P)
  {
  }

  lemma NothingSent(d: Desc)
    ensures SentOf([], d) == []
  {
  }

  lemma LiveInSteady(known: set<Desc>, s: Deal, id: nat, d: Desc, P: nat, F: nat)
    requires SteadyDeal(known, s, id, d, P, F)
    ensures id in s.live && s.id in s.live
  {
  }

  // ----- going on from any state a run has reached, failures or not

  function RunFrom(w: World, outcomes: Outcomes, known: set<Desc>, deals: seq<Deal>): (t: World) {
    if deals == [] then w
    else Step(RunFrom(w, outcomes, known, deals[..|deals| - 1]), outcomes, known, deals[|deals| - 1])
  }

  /** A sound state in which nothing waits for a retry on the channel. */
  ghost predicate Calm(w: World, id: nat, d: Desc) {
    WorldOk(w) && OneEach(CellsOf(w.counts, d)) && ChanOf(w, id).cache == map[]
  }

  lemma CalmElsewhere(w: World, outcomes: Outcomes, known: set<Desc>, s: Deal, id: nat, d: Desc, P: nat, F: nat)
    requires Calm(w, id, d) && (forall n: nat :: outcomes(id)(n)) && SteadyDeal(known, s, id, d, P, F)
    ensures var t := Step(w, outcomes, known, s);
            Calm(t, id, d)
            && (!Mine(s, id, d) ==> SentOf(ChanOf(t, id).sent, d) == SentOf(ChanOf(w, id).sent, d)
                                    && Find(CellsOf(t.counts, d), id) == Find(CellsOf(w.counts, d), id))
  {
    hide Step, WorldOk, OneEach, SentOf;
    StepOk(w, outcomes, known, s);
    StepKeepsOthersCells(w, outcomes, known, s, id, d);
    NothingCached(w, outcomes, known, s, id);
    if !Mine(s, id, d) {
      StepElsewhere(w, outcomes, known, s, id, d);
    }
  }

  /** The counter n events after it was `count`. */
  function Counted(count: nat, P: nat, n: nat): (r: nat)
    requires P > 0
  {
    if n == 0 then count
    else
      var c := Counted(count, P, n - 1);
      if Due(c, P) then 0 else c + 1
  }

  /** The events at which the counter comes due. */
  function Taken(count: nat, P: nat, events: seq<Event>): (r: seq<Event>)
    requires P > 0
  {
    if events == [] then []
    else
      var n := |events| - 1;
      Taken(count, P, events[..n]) + if Due(Counted(count, P, n), P) then [events[n]] else []
  }

  lemma TakenSnoc(count: nat, P: nat, events: seq<Event>, e: Event)
    requires P > 0
    ensures Taken(count, P, events + [e])
         == if Due(Counted(count, P, |events|), P) then Taken(count, P, events) + [e] else Taken(count, P, events)
  {
    hide Due;
    assert (events + [e])[..|events|] == events;
  }

  lemma CountedOnce(count: nat, P: nat, n: nat)
    requires P > 0
    ensures Counted(count, P, n + 1) == Counted(Counted(count, P, n), P, 1)
  {
    hide Due;
    assert Counted(Counted(count, P, n), P, 0) == Counted(count, P, n);
  }

  lemma NothingTaken(count: nat, P: nat)
    requires P > 0
    ensures Taken(count, P, []) == [] && Counted(count, P, 0) == count
  {
  }

  /** How many events until the next one that is due: 1 to P. */
  function Wait(count: nat, P: nat): (r: nat)
    requires P > 0
  {
    P - count % P
  }

  lemma DueAfterWait(count: nat, P: nat, j: nat)
    requires j < P
    ensures Due(count + j, P) <==> j + 1 == Wait(count, P)
  {
    var q, r := count / P, count % P;
    assert count == P * q + r;
    if j + 1 < P - r {
      ModMultiple(P, q, r + j + 1);
    } else {
      assert count + j + 1 == P * (q + 1) + (j + 1 - (P - r)) by { assert P * (q + 1) == P * q + P; }
      ModMultiple(P, q + 1, j + 1 - (P - r));
    }
  }

  lemma {:induction false} TakenOnce(count: nat, P: nat, events: seq<Event>)
    requires P > 0 && |events| <= P
    ensures var n, first := |events|, Wait(count, P);
            if n < first then Counted(count, P, n) == count + n && Taken(count, P, events) == []
            else Counted(count, P, n) == n - first && |Taken(count, P, events)| == 1
    decreases |events|
  {
    hide Due;
    if events != [] {
      var n := |events|;
      TakenOnce(count, P, events[..n - 1]);
      var first := Wait(count, P);
      DueAfterWait(count, P, n - 1);
      if n > first {
        DueAfterWait(0, P, n - 1 - first);
        ModMultiple(P, 0, 0);
      }
      hide Wait;
    }
  }

  /** A channel without a cell counts like one whose counter is about to come due. */
  predicate CountIs(c: Option<Cell>, count: nat, P: nat) {
    match c case None => count + 1 == P case Some(cell) => cell.count == count
  }

  /** Decimation from any state, with everybody else's events interleaved: from now on exactly the
      events at which the channel's counter comes due are delivered. */
  lemma {:induction false} DueEventsAreDelivered(w: World, outcomes: Outcomes, known: set<Desc>, deals: seq<Deal>,
      id: nat, d: Desc, P: nat, F: nat, count: nat)
    requires F <= 1 && Steady(outcomes, known, deals, id, d, P, F) && Calm(w, id, d)
    requires CountIs(Find(CellsOf(w.counts, d), id), count, P)
    ensures var t, arrived := RunFrom(w, outcomes, known, deals), ArrivedFor(deals, id, d);
            Calm(t, id, d) && CountIs(Find(CellsOf(t.counts, d), id), Counted(count, P, |arrived|), P)
            && SentOf(ChanOf(t, id).sent, d) == SentOf(ChanOf(w, id).sent, d) + Taken(count, P, arrived)
    decreases |deals|
  {
    hide Step, SteadyDeal, Calm, CountIs, SentOf, Due, Counted, Taken;
    var sent := SentOf(ChanOf(w, id).sent, d);
    if deals == [] {
      NothingTaken(count, P);
      assert sent + [] == sent;
    } else {
      var before, s := deals[..|deals| - 1], deals[|deals| - 1];
      SteadyInit(outcomes, known, deals, id, d, P, F);
      DueEventsAreDelivered(w, outcomes, known, before, id, d, P, F, count);
      var u, arrived := RunFrom(w, outcomes, known, before), ArrivedFor(before, id, d);
      CalmElsewhere(u, outcomes, known, s, id, d, P, F);
      if Mine(s, id, d) {
        ThinOnce(u, outcomes, known, s, id, d, P, F, Counted(count, P, |arrived|));
        CountedOnce(count, P, |arrived|);
        TakenSnoc(count, P, arrived, s.e);
        Assoc(sent, Taken(count, P, arrived), [s.e]);
      } else {
        assert arrived + [] == arrived;
      }
    }
  }

  lemma ThinOnce(w: World, outcomes: Outcomes, known: set<Desc>, s: Deal, id: nat, d: Desc, P: nat, F: nat, count: nat)
    requires P > 0 && F <= 1 && Mine(s, id, d) && SteadyDeal(known, s, id, d, P, F) && Calm(w, id, d)
    requires (forall k: nat :: outcomes(id)(k)) && CountIs(Find(CellsOf(w.counts, d), id), count, P)
    ensures var t, sent := Step(w, outcomes, known, s), SentOf(ChanOf(w, id).sent, d);
            CountIs(Find(CellsOf(t.counts, d), id), Counted(count, P, 1), P)
            && SentOf(ChanOf(t, id).sent, d) == if Due(count, P) then sent + [s.e] else sent
  {
    hide WorldOk, OneEach, ScanNone, ScanFifo, OnChange, CacheEvent, SentOf, SendRaw;
    ScanNoneIsTurn(CellsOf(w.counts, d), s.live, id, P, false);
    SendRawOne(ChanOf(w, id), outcomes(id), s.e, d);
  }

  /** A period count of 0 stops the deliveries: nothing is sent, and the cell keeps what it has. */
  lemma {:induction false} StoppedDeliversNothing(w: World, outcomes: Outcomes, known: set<Desc>, deals: seq<Deal>,
      id: nat, d: Desc, F: nat)
    requires (forall n: nat :: outcomes(id)(n)) && Calm(w, id, d)
    requires forall s <- deals :: SteadyDeal(known, s, id, d, 0, F)
    ensures var t := RunFrom(w, outcomes, known, deals);
            Calm(t, id, d) && SentOf(ChanOf(t, id).sent, d) == SentOf(ChanOf(w, id).sent, d)
            && Find(CellsOf(t.counts, d), id) == Find(CellsOf(w.counts, d), id)
    decreases |deals|
  {
    hide Step, Calm, SentOf, SteadyDeal;
    if deals != [] {
      var before, s := deals[..|deals| - 1], deals[|deals| - 1];
      assert s in deals;
      StoppedDeliversNothing(w, outcomes, known, before, id, d, F);
      var u := RunFrom(w, outcomes, known, before);
      CalmElsewhere(u, outcomes, known, s, id, d, 0, F);
      if Mine(s, id, d) {
        StopStep(u, outcomes, known, s, id, d, F);
      }
    }
  }

  lemma StopStep(w: World, outcomes: Outcomes, known: set<Desc>, s: Deal, id: nat, d: Desc, F: nat)
    requires Calm(w, id, d) && SteadyDeal(known, s, id, d, 0, F) && Mine(s, id, d)
    ensures var t := Step(w, outcomes, known, s);
            ChanOf(t, id) == ChanOf(w, id) && t.counts == w.counts
  {
    hide OneEach, WorldOk, ScanNone, ScanFifo, OnChange;
  }

  /** However the run began, at whatever rates and with whatever failures: once nothing waits for a
      retry, P events of the channel contain exactly one delivery. */
  lemma OneDeliveryInP(earlier: Outcomes, before: seq<Deal>, outcomes: Outcomes, known: set<Desc>, deals: seq<Deal>,
      id: nat, d: Desc, P: nat, F: nat)
    requires AllServed(before) && ChanOf(Run(earlier, known, before), id).cache == map[]
    requires F <= 1 && Steady(outcomes, known, deals, id, d, P, F) && |ArrivedFor(deals, id, d)| == P
    ensures var w := Run(earlier, known, before);
            |SentOf(ChanOf(RunFrom(w, outcomes, known, deals), id).sent, d)| == |SentOf(ChanOf(w, id).sent, d)| + 1
  {
    var w := Run(earlier, known, before);
    RunOk(earlier, known, before);
    ReachedOneEach(earlier, known, before, d);
    var c := Find(CellsOf(w.counts, d), id);
    var count := match c case None => P - 1 case Some(cell) => cell.count;
    DueEventsAreDelivered(w, outcomes, known, deals, id, d, P, F, count);
    TakenOnce(count, P, ArrivedFor(deals, id, d));
  }
}
