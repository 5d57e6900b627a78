/** ReportDataCallback: the ring between the HDI callback and the data thread, and the ready flag
    that wakes the thread. */
module EventRings {
  import opened Sequences

  const CIRCULAR_BUF_LEN: int := 1024

  function Slot(readPos: int, i: int): (k: int) {
    if readPos + i < CIRCULAR_BUF_LEN then readPos + i else readPos + i - CIRCULAR_BUF_LEN
  }

  /** Where the next event goes: just behind the `n` pending ones. */
  function WriteSlot(readPos: int, n: int): (k: int) {
    if n == CIRCULAR_BUF_LEN then readPos else Slot(readPos, n)
  }

  lemma WriteSlotIsModular(readPos: int, n: int)
    requires 0 <= readPos < CIRCULAR_BUF_LEN && 0 <= n <= CIRCULAR_BUF_LEN
    ensures WriteSlot(readPos, n) == (readPos + n) % CIRCULAR_BUF_LEN
  {
  }

  /** The `n` cells of the ring from `r` on. */
  function Window<T>(cells: seq<T>, r: int, n: int): (s: seq<T>)
    requires |cells| == CIRCULAR_BUF_LEN && 0 <= r < CIRCULAR_BUF_LEN && 0 <= n <= CIRCULAR_BUF_LEN
    ensures |s| == n
  {
    if r + n <= CIRCULAR_BUF_LEN then cells[r..r + n] else cells[r..] + cells[..r + n - CIRCULAR_BUF_LEN]
  }

  lemma WindowAt<T>(cells: seq<T>, r: int, n: int, i: int)
    requires |cells| == CIRCULAR_BUF_LEN && 0 <= r < CIRCULAR_BUF_LEN && 0 <= i < n <= CIRCULAR_BUF_LEN
    ensures 0 <= Slot(r, i) < CIRCULAR_BUF_LEN && Window(cells, r, n)[i] == cells[Slot(r, i)]
  {
  }

  lemma SlotStep(r: int, i: int)
    requires 0 <= r < CIRCULAR_BUF_LEN && 0 < i < CIRCULAR_BUF_LEN
    ensures 0 <= Slot(r, 1) < CIRCULAR_BUF_LEN && Slot(Slot(r, 1), i - 1) == Slot(r, i) != r
  {
  }

  /** "Append, keep the latest 1024." */
  function Latest<T>(s: seq<T>): (r: seq<T>) {
    if |s| <= CIRCULAR_BUF_LEN then s else s[|s| - CIRCULAR_BUF_LEN..]
  }

  lemma RingAppend<T>(cells: seq<T>, r: int, n: int, e: T)
    requires |cells| == CIRCULAR_BUF_LEN && 0 <= r < CIRCULAR_BUF_LEN && 0 <= n <= CIRCULAR_BUF_LEN
    ensures var w := WriteSlot(r, n);
            Latest(Window(cells, r, n) + [e])
               == if n == CIRCULAR_BUF_LEN then Window(cells[w := e], Slot(r, 1), n)
                   else Window(cells[w := e], r, n + 1)
  {
    if n == CIRCULAR_BUF_LEN {
      AppendOver(cells, r, e);
    } else {
      AppendBehind(cells, r, n, e);
    }
  }

  lemma AppendBehind<T>(cells: seq<T>, r: int, n: int, e: T)
    requires |cells| == CIRCULAR_BUF_LEN && 0 <= r < CIRCULAR_BUF_LEN && 0 <= n < CIRCULAR_BUF_LEN
    ensures Window(cells, r, n) + [e] == Window(cells[Slot(r, n) := e], r, n + 1)
  {
    hide Window;
    var before, after := Window(cells, r, n) + [e], Window(cells[Slot(r, n) := e], r, n + 1);
    forall i | 0 <= i <= n ensures before[i] == after[i] {
      WindowAt(cells[Slot(r, n) := e], r, n + 1, i);
      if i < n {
        WindowAt(cells, r, n, i);
      }
    }
  }

  lemma AppendOver<T>(cells: seq<T>, r: int, e: T)
    requires |cells| == CIRCULAR_BUF_LEN && 0 <= r < CIRCULAR_BUF_LEN
    ensures Latest(Window(cells, r, CIRCULAR_BUF_LEN) + [e]) == Window(cells[r := e], Slot(r, 1), CIRCULAR_BUF_LEN)
  {
    hide Window;
    var n := CIRCULAR_BUF_LEN;
    var before := Window(cells, r, n) + [e];
    var tail, after := before[1..], Window(cells[r := e], Slot(r, 1), n);
    forall i | 0 <= i < n ensures tail[i] == after[i] {
      WindowAt(cells[r := e], Slot(r, 1), n, i);
      if i < n - 1 {
        WindowAt(cells, r, n, i + 1);
        SlotStep(r, i + 1);
      }
    }
    assert tail == after;
  }

  lemma RingHead<T>(cells: seq<T>, r: int, n: int)
    requires |cells| == CIRCULAR_BUF_LEN && 0 <= r < CIRCULAR_BUF_LEN && 0 < n <= CIRCULAR_BUF_LEN
    ensures Window(cells, r, n) == [cells[r]] + Window(cells, Slot(r, 1), n - 1)
  {
    hide Window;
    var before, after := Window(cells, r, n), [cells[r]] + Window(cells, Slot(r, 1), n - 1);
    forall i | 0 <= i < n ensures before[i] == after[i] {
      WindowAt(cells, r, n, i);
      if i > 0 {
        WindowAt(cells, Slot(r, 1), n - 1, i - 1);
        SlotStep(r, i);
      }
    }
  }

  class EventQueue<T(0)> {
    const circularBuf: array<T>
    var readPos: int
    var writePosition: int
    var eventNum: int
    var dataReady: bool
    /** The events the data thread has taken, in order. */
    var processed: seq<T>

    ghost predicate Valid()
      reads this
    {
      circularBuf.Length == CIRCULAR_BUF_LEN && 0 <= readPos < CIRCULAR_BUF_LEN && 0 <= eventNum <= CIRCULAR_BUF_LEN
      && 0 <= writePosition < CIRCULAR_BUF_LEN && writePosition == WriteSlot(readPos, eventNum)
    }

    /** The pending events, oldest first. */
    ghost function Pending(): (s: seq<T>)
      requires Valid()
      reads this, circularBuf
    {
      Window(circularBuf[..], readPos, eventNum)
    }

    ghost function Abs(): (q: Queue<T>)
      requires Valid()
      reads this, circularBuf
    {
      Queue(Pending(), processed, dataReady)
    }

    /** Nobody holds the lock: the flag is up exactly when something waits. */
    ghost predicate Settled()
      reads this
    {
      Valid() && (dataReady <==> eventNum > 0)
    }

    constructor ()
      ensures Settled() && Pending() == [] && processed == [] && fresh(circularBuf)
    {
      circularBuf := new T[CIRCULAR_BUF_LEN];
      readPos, writePosition, eventNum := 0, 0, 0;
      dataReady, processed := false, [];
    }

    /** ReportEventCallback. A count or position above the capacity is refused; otherwise the
        event goes in, over the oldest one when the ring is full. */
    method ReportEventCallback(event: T) returns (ok: bool)
      requires circularBuf.Length == CIRCULAR_BUF_LEN && 0 <= writePosition
      modifies this`readPos, this`writePosition, this`eventNum, circularBuf
      ensures ok <==> old(eventNum) <= CIRCULAR_BUF_LEN && old(writePosition) <= CIRCULAR_BUF_LEN
      ensures !ok ==> unchanged(this) && unchanged(circularBuf)
      ensures old(Valid()) ==> Valid() && eventNum > 0 && Pending() == Latest(old(Pending()) + [event])
    {
      hide Window, Latest;
      ghost var cells := circularBuf[..];
      var leftSize := CIRCULAR_BUF_LEN - eventNum;
      var toEndLen := CIRCULAR_BUF_LEN - writePosition;
      if leftSize < 0 || toEndLen < 0 {
        return false;
      }
      if toEndLen == 0 {
        circularBuf[0] := event;
        writePosition := 1;
      } else {
        circularBuf[writePosition] := event;
        writePosition := writePosition + 1;
      }
      eventNum := eventNum + 1;
      if eventNum >= CIRCULAR_BUF_LEN {
        eventNum := CIRCULAR_BUF_LEN;
      }
      if writePosition >= CIRCULAR_BUF_LEN {
        writePosition := 0;
      }
      if leftSize < 1 {
        readPos := writePosition;
      }
      if old(Valid()) {
        RingAppend(cells, old(readPos), old(eventNum), event);
        assert circularBuf[..] == cells[old(writePosition) := event];
        assert Pending() == Window(circularBuf[..], readPos, eventNum);
      }
      ok := true;
    }

    /** The HDI callback's locked section: store, raise the flag, notify. */
    method OnDataEvent(event: T)
      requires Settled()
      modifies this, circularBuf
      ensures Settled() && Abs() == Perform(old(Abs()), Arrive(event))
    {
      var ok := ReportEventCallback(event);
      dataReady := true;
    }

    /** ProcessEvents, entered once the wait has seen the flag: lower it and take everything. */
    method ProcessEvents() returns (ok: bool)
      requires Settled() && dataReady
      modifies this
      ensures Settled() && ok && Abs() == Perform(old(Abs()), Drain)
    {
      hide Window;
      dataReady := false;
      if eventNum <= 0 {
        return false;
      }
      var count := eventNum;
      ghost var pending := Pending();
      for i := 0 to count
        invariant Valid() && eventNum == count - i && !dataReady
        invariant processed + Pending() == old(processed) + pending
      {
        RingHead(circularBuf[..], readPos, eventNum);
        Assoc(processed, [circularBuf[readPos]], Window(circularBuf[..], Slot(readPos, 1), eventNum - 1));
        processed := processed + [circularBuf[readPos]];
        readPos := readPos + 1;
        if readPos >= CIRCULAR_BUF_LEN {
          readPos := 0;
        }
        eventNum := eventNum - 1;
      }
      assert processed + Pending() == processed;
      ok := true;
    }
  }

  /** One locked section of either thread. The data thread's is possible only with the flag up:
      until then it waits, whether or not a notification arrives. */
  datatype Section<T> = Arrive(event: T) | Drain

  datatype Queue<T> = Queue(pending: seq<T>, processed: seq<T>, ready: bool)

  function Perform<T>(q: Queue<T>, s: Section<T>): (r: Queue<T>) {
    match s
    case Arrive(e) => Queue(Latest(q.pending + [e]), q.processed, true)
    case Drain => if q.ready then Queue([], q.processed + q.pending, false) else q
  }

  function PerformAll<T>(q: Queue<T>, run: seq<Section<T>>): (r: Queue<T>) {
    if run == [] then q else Perform(PerformAll(q, run[..|run| - 1]), run[|run| - 1])
  }

  function Arrivals<T>(run: seq<Section<T>>): (s: seq<T>) {
    if run == [] then []
    else Arrivals(run[..|run| - 1]) + match run[|run| - 1] { case Arrive(e) => [e] case Drain => [] }
  }

  /** How many events a run overwrites before they are taken. */
  function Overwritten<T>(run: seq<Section<T>>): (n: nat) {
    if run == [] then 0
    else
      var before := PerformAll(Queue([], [], false), run[..|run| - 1]);
      Overwritten(run[..|run| - 1])
      + if run[|run| - 1].Arrive? && |before.pending| == CIRCULAR_BUF_LEN then 1 else 0
  }

  /** The flag never lies, so no wakeup is lost, whatever the interleaving. */
  lemma {:induction false} FlagIsPending<T>(run: seq<Section<T>>)
    ensures var q := PerformAll(Queue([], [], false), run);
            (q.ready <==> q.pending != []) && |q.pending| <= CIRCULAR_BUF_LEN
    decreases |run|
  {
    if run != [] {
      FlagIsPending(run[..|run| - 1]);
    }
  }

  /** Every event is taken, waits, or was overwritten. What is taken and then what waits are
      arrivals in arrival order, none twice, and what waits are the newest ones. */
  ghost predicate Accounted<T>(q: Queue<T>, arrivals: seq<T>, overwritten: nat) {
    |q.processed| + |q.pending| + overwritten == |arrivals|
    && |q.pending| <= |arrivals| && q.pending == arrivals[|arrivals| - |q.pending|..]
    && Subseq(q.processed + q.pending, arrivals)
    && (overwritten == 0 ==> q.processed + q.pending == arrivals)
  }

  lemma {:induction false} EventsAreAccountedFor<T>(run: seq<Section<T>>)
    ensures Accounted(PerformAll(Queue([], [], false), run), Arrivals(run), Overwritten(run))
    decreases |run|
  {
    hide Perform;
    if run != [] {
      var before, last := run[..|run| - 1], run[|run| - 1];
      EventsAreAccountedFor(before);
      FlagIsPending(before);
      var q := PerformAll(Queue([], [], false), before);
      SectionAccounts(q, last, Arrivals(before), Overwritten(before));
      hide Accounted;
    }
  }

  lemma SectionAccounts<T>(q: Queue<T>, s: Section<T>, arrivals: seq<T>, overwritten: nat)
    requires Accounted(q, arrivals, overwritten) && |q.pending| <= CIRCULAR_BUF_LEN
    requires q.ready <==> q.pending != []
    ensures Accounted(Perform(q, s), arrivals + match s { case Arrive(e) => [e] case Drain => [] },
                      overwritten + if s.Arrive? && |q.pending| == CIRCULAR_BUF_LEN then 1 else 0)
  {
    hide Subseq;
    match s
    case Arrive(e) =>
      Assoc(q.processed, q.pending, [e]);
      SubseqSnoc(q.processed + q.pending, arrivals, e);
      if |q.pending| == CIRCULAR_BUF_LEN {
        var kept := q.pending[1..] + [e];
        assert q.processed + q.pending + [e] == q.processed + [q.pending[0]] + kept;
        SubseqDrop(q.processed, q.pending[0], kept, arrivals + [e]);
        assert Latest(q.pending + [e]) == kept;
      }
      assert q.pending + [e] == (arrivals + [e])[|arrivals| - |q.pending|..];
    case Drain =>
      assert arrivals + [] == arrivals && q.processed + q.pending + [] == q.processed + q.pending;
  }

  /** A run hands over or holds every arrival, in order, exactly when nothing was overwritten:
      no event arrived while 1024 were waiting. */
  lemma LosslessIffNeverFull<T>(run: seq<Section<T>>)
    ensures var q := PerformAll(Queue([], [], false), run);
            q.processed + q.pending == Arrivals(run) <==> Overwritten(run) == 0
  {
    EventsAreAccountedFor(run);
  }
}
