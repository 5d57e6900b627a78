/** How SensorDataProcesser thins, batches, sends and caches the events of one channel. */
module Deliveries {
  import opened Sequences
  import opened SensorTypes

  /** An event: its sensor, its reporting mode flags, its content. */
  datatype Event = Event(desc: Desc, mode: nat, content: int)

  /** FifoCacheData as a value: the channel, the period counter, the batch being filled. */
  datatype Cell = Cell(channel: nat, count: nat, cache: seq<Event>)

  /** A channel: the last event of each sensor that could not be sent, and all successful sends.
      `sends` numbers the SendData calls. */
  datatype Chan = Chan(cache: map<Desc, Event>, sent: seq<seq<Event>>, sends: nat)

  /** Whether the n-th SendData call on the channel succeeds. */
  type Outcome = nat -> bool

  /** (SENSOR_ON_CHANGE & flags) == SENSOR_ON_CHANGE, or the same for SENSOR_ONE_SHOT, which
      contains that bit. */
  predicate OnChange(mode: nat) {
    mode / 2 % 2 == 1
  }

  /** That bit, whatever the higher ones are. */
  lemma OnChangeIsBit(high: nat, low: nat)
    requires low < 4
    ensures OnChange(4 * high + low) <==> low == 2 || low == 3
  {
  }

  function SendData(ch: Chan, outcome: Outcome, events: seq<Event>): (r: (Chan, bool)) {
    if outcome(ch.sends) then (ch.(sent := ch.sent + [events], sends := ch.sends + 1), true)
    else (ch.(sends := ch.sends + 1), false)
  }

  /** SendRawData: a failed send leaves its last event in the channel's cache. */
  function SendRaw(ch: Chan, outcome: Outcome, events: seq<Event>): (r: Chan) {
    if events == [] then ch
    else
      var t := SendData(ch, outcome, events);
      var last := events[|events| - 1];
      if t.1 then t.0 else t.0.(cache := t.0.cache[last.desc := last])
  }

  /** CacheSensorEvent: the cached event of the sensor is tried once more, then the new one. */
  function CacheEvent(ch: Chan, outcome: Outcome, e: Event): (r: Chan) {
    if e.desc in ch.cache then
      var t := SendData(ch, outcome, [ch.cache[e.desc]]).0;
      var u := SendData(t, outcome, [e]);
      if u.1 then u.0.(cache := u.0.cache - {e.desc}) else u.0.(cache := u.0.cache[e.desc := e])
    else
      var u := SendData(ch, outcome, [e]);
      if u.1 then u.0 else u.0.(cache := u.0.cache[e.desc := e])
  }

  /** The counter, stepped, has reached a multiple of the period count. */
  predicate Due(count: nat, P: nat)
    requires P > 0
  {
    (count + 1) % P == 0
  }

  /** The scan of SendNoneFifoCacheData over a sensor's cells, `exist` telling whether the channel
      was met already: the new cells, and whether the event goes out. Cells whose channel is gone
      are erased on the way; a delivery ends the scan. */
  function ScanNone(cells: seq<Cell>, live: set<nat>, id: nat, P: nat, exist: bool): (r: (seq<Cell>, bool))
    decreases |cells|
  {
    if cells == [] then (if exist then ([], false) else ([Cell(id, 0, [])], true))
    else
      var c := cells[0];
      if c.channel !in live then ScanNone(cells[1..], live, id, P, exist)
      else if c.channel != id then
        var t := ScanNone(cells[1..], live, id, P, exist);
        ([c] + t.0, t.1)
      else if P != 0 && !Due(c.count, P) then
        var t := ScanNone(cells[1..], live, id, P, true);
        ([c.(count := c.count + 1)] + t.0, t.1)
      else ([c.(count := 0)] + cells[1..], true)
  }

  /** The scan of SendFifoCacheData: the new cells, and the batch that goes out (none: empty). */
  function ScanFifo(cells: seq<Cell>, live: set<nat>, id: nat, e: Event, P: nat, F: nat,
      exist: bool): (r: (seq<Cell>, seq<Event>))
    requires P > 0
    decreases |cells|
  {
    if cells == [] then (if exist then ([], []) else ([Cell(id, 0, [])], []))
    else
      var c := cells[0];
      if c.channel !in live then ScanFifo(cells[1..], live, id, e, P, F, exist)
      else if c.channel != id then
        var t := ScanFifo(cells[1..], live, id, e, P, F, exist);
        ([c] + t.0, t.1)
      else if !Due(c.count, P) then
        var t := ScanFifo(cells[1..], live, id, e, P, F, true);
        ([c.(count := c.count + 1)] + t.0, t.1)
      else
        var batch := c.cache + [e];
        if |batch| != F then
          var t := ScanFifo(cells[1..], live, id, e, P, F, true);
          ([c.(count := 0, cache := batch)] + t.0, t.1)
        else ([Cell(id, 0, [])] + cells[1..], batch)
  }

  /** A sensor's cells; none and no entry behave alike. */
  type Counts = map<Desc, seq<Cell>>

  function CellsOf(counts: Counts, d: Desc): (cells: seq<Cell>) {
    if d in counts then counts[d] else []
  }

  /** The counts and one channel, as a call of SendEvents sees them. */
  datatype Pipe = Pipe(counts: Counts, ch: Chan)

  /** ReportData, for a channel whose share is every P-th event in batches of F. */
  function ReportData(p: Pipe, outcome: Outcome, known: set<Desc>, live: set<nat>, id: nat, e: Event, P: nat,
      F: nat): (r: Pipe)
  {
    if e.desc in known && OnChange(e.mode) then p.(ch := SendRaw(p.ch, outcome, [e]))
    else if P == 0 then p
    else if F <= 1 then
      var t := ScanNone(CellsOf(p.counts, e.desc), live, id, P, false);
      Pipe(p.counts[e.desc := t.0], if t.1 then SendRaw(p.ch, outcome, [e]) else p.ch)
    else
      var t := ScanFifo(CellsOf(p.counts, e.desc), live, id, e, P, F, false);
      Pipe(p.counts[e.desc := t.0], SendRaw(p.ch, outcome, t.1))
  }

  /** SendEvents: while anything is cached on the channel, thinning and batching are bypassed. */
  function SendEvents(p: Pipe, outcome: Outcome, known: set<Desc>, live: set<nat>, id: nat, e: Event, P: nat,
      F: nat): (r: Pipe)
  {
    if p.ch.cache == map[] then ReportData(p, outcome, known, live, id, e, P, F)
    else p.(ch := CacheEvent(p.ch, outcome, e))
  }

  // ----- one channel's cell among the others

  function Ids(cells: seq<Cell>): (s: set<nat>) {
    if cells == [] then {} else {cells[0].channel} + Ids(cells[1..])
  }

  /** No channel has two cells. */
  ghost predicate OneEach(cells: seq<Cell>) {
    cells == [] || (cells[0].channel !in Ids(cells[1..]) && OneEach(cells[1..]))
  }

  function Find(cells: seq<Cell>, id: nat): (c: Option<Cell>)
    ensures c.Some? ==> c.value.channel == id
    ensures c.Some? <==> id in Ids(cells)
  {
    if cells == [] then None else if cells[0].channel == id then Some(cells[0]) else Find(cells[1..], id)
  }

  lemma ConsFacts(c: Cell, t: seq<Cell>)
    ensures Ids([c] + t) == {c.channel} + Ids(t)
    ensures OneEach([c] + t) <==> c.channel !in Ids(t) && OneEach(t)
    ensures forall q :: Find([c] + t, q) == if c.channel == q then Some(c) else Find(t, q)
  {
    assert ([c] + t)[1..] == t;
  }

  /** The channel's own turn of ScanNone. */
  function TurnNone(c: Option<Cell>, id: nat, P: nat): (r: (Cell, bool)) {
    match c
    case None => (Cell(id, 0, []), true)
    case Some(c) => if P != 0 && !Due(c.count, P) then (c.(count := c.count + 1), false) else (c.(count := 0), true)
  }

  function TurnFifo(c: Option<Cell>, id: nat, e: Event, P: nat, F: nat): (r: (Cell, seq<Event>))
    requires P > 0
  {
    match c
    case None => (Cell(id, 0, []), [])
    case Some(c) =>
      if !Due(c.count, P) then (c.(count := c.count + 1), [])
      else if |c.cache + [e]| != F then (c.(count := 0, cache := c.cache + [e]), [])
      else (Cell(id, 0, []), c.cache + [e])
  }

  /** The channel's cell is as it was, or its channel is gone and so is the cell. */
  predicate KeptOrGone(before: seq<Cell>, after: seq<Cell>, live: set<nat>, q: nat) {
    Find(after, q) == Find(before, q) || (q !in live && Find(after, q) == None)
  }

  /** The scan is the channel's own turn; every other live channel's cell is left as it was. */
  lemma {:induction false} ScanNoneIsTurn(cells: seq<Cell>, live: set<nat>, id: nat, P: nat, exist: bool)
    requires OneEach(cells) && id in live && (exist ==> id !in Ids(cells))
    ensures var r := ScanNone(cells, live, id, P, exist);
            OneEach(r.0) && Ids(r.0) <= Ids(cells) + {id}
            && (exist ==> id !in Ids(r.0) && !r.1)
            && (!exist ==> Find(r.0, id) == Some(TurnNone(Find(cells, id), id, P).0)
                           && r.1 == TurnNone(Find(cells, id), id, P).1)
            && forall q: nat :: q != id ==> KeptOrGone(cells, r.0, live, q)
    decreases |cells|
  {
    hide Due;
    if cells == [] {
      ConsFacts(Cell(id, 0, []), []);
      assert [Cell(id, 0, [])] + [] == [Cell(id, 0, [])];
    } else {
      var c, tail := cells[0], cells[1..];
      ConsFacts(c, tail);
      assert cells == [c] + tail;
      ScanNoneIsTurn(tail, live, id, P, exist || c.channel == id);
      var t := ScanNone(tail, live, id, P, exist || c.channel == id).0;
      var r := ScanNone(cells, live, id, P, exist).0;
      if c.channel in live {
        ConsFacts(r[0], t);
        ConsFacts(r[0], tail);
        assert r == [r[0]] + t || r == [r[0]] + tail;
      }
      forall q: nat | q != id ensures KeptOrGone(cells, r, live, q) {
        assert KeptOrGone(tail, t, live, q);
      }
    }
  }

  lemma {:induction false} ScanFifoIsTurn(cells: seq<Cell>, live: set<nat>, id: nat, e: Event, P: nat, F: nat,
      exist: bool)
    requires P > 0 && OneEach(cells) && id in live && (exist ==> id !in Ids(cells))
    ensures var r := ScanFifo(cells, live, id, e, P, F, exist);
            OneEach(r.0) && Ids(r.0) <= Ids(cells) + {id}
            && (exist ==> id !in Ids(r.0) && r.1 == [])
            && (!exist ==> Find(r.0, id) == Some(TurnFifo(Find(cells, id), id, e, P, F).0)
                           && r.1 == TurnFifo(Find(cells, id), id, e, P, F).1)
            && forall q: nat :: q != id ==> KeptOrGone(cells, r.0, live, q)
    decreases |cells|
  {
    hide Due;
    if cells == [] {
      ConsFacts(Cell(id, 0, []), []);
      assert [Cell(id, 0, [])] + [] == [Cell(id, 0, [])];
    } else {
      var c, tail := cells[0], cells[1..];
      ConsFacts(c, tail);
      assert cells == [c] + tail;
      ScanFifoIsTurn(tail, live, id, e, P, F, exist || c.channel == id);
      var t := ScanFifo(tail, live, id, e, P, F, exist || c.channel == id).0;
      var r := ScanFifo(cells, live, id, e, P, F, exist).0;
      if c.channel in live {
        ConsFacts(r[0], t);
        ConsFacts(r[0], tail);
        assert r == [r[0]] + t || r == [r[0]] + tail;
      }
      forall q: nat | q != id ensures KeptOrGone(cells, r, live, q) {
        assert KeptOrGone(tail, t, live, q);
      }
    }
  }

  /** A scan that delivers nothing has walked the whole list and left no cell of a dead channel. */
  lemma {:induction false} DeadCellsGo(cells: seq<Cell>, live: set<nat>, id: nat, e: Event, P: nat, F: nat, exist: bool)
    requires id in live
    ensures var r := ScanNone(cells, live, id, P, exist); !r.1 ==> Ids(r.0) <= live
    ensures P > 0 ==> var r := ScanFifo(cells, live, id, e, P, F, exist); r.1 == [] ==> Ids(r.0) <= live
    decreases |cells|
  {
    hide Due;
    if cells != [] {
      var c, tail := cells[0], cells[1..];
      var found := exist || (c.channel in live && c.channel == id);
      DeadCellsGo(tail, live, id, e, P, F, found);
      ConsFacts(c.(count := c.count + 1), ScanNone(tail, live, id, P, found).0);
      ConsFacts(c, ScanNone(tail, live, id, P, found).0);
      if P > 0 {
        var t := ScanFifo(tail, live, id, e, P, F, found).0;
        ConsFacts(c, t);
        ConsFacts(c.(count := c.count + 1), t);
        ConsFacts(c.(count := 0, cache := c.cache + [e]), t);
      }
    }
  }
}
