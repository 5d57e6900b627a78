/** SensorDataProcesser and the objects it updates in place. */
module DataProcessers {
  import opened Sequences
  import opened SensorTypes
  import opened Deliveries

  /** SensorBasicDataChannel: the events that wait for a retry, and what SendData did so far. */
  class DataChannel {
    const id: nat
    const outcome: Outcome
    var dataCacheBuf: map<Desc, Event>
    var sent: seq<seq<Event>>
    var sends: nat

    constructor (id: nat, outcome: Outcome)
      ensures this.id == id && this.outcome == outcome && Abs() == Chan(map[], [], 0)
    {
      this.id, this.outcome := id, outcome;
      dataCacheBuf, sent, sends := map[], [], 0;
    }

    ghost function Abs(): (ch: Chan)
      reads this
    {
      Chan(dataCacheBuf, sent, sends)
    }

    method SendData(events: seq<Event>) returns (ok: bool)
      modifies this`sent, this`sends
      ensures (Abs(), ok) == Deliveries.SendData(old(Abs()), outcome, events)
    {
      ok := outcome(sends);
      if ok {
        sent := sent + [events];
      }
      sends := sends + 1;
    }
  }

  /** One channel's counter and batch for one sensor. The channel is held weakly. */
  class FifoCacheData {
    var periodCount: nat
    var channel: nat
    var fifoCacheData: seq<Event>

    constructor (channel: nat)
      ensures Abs() == Cell(channel, 0, [])
    {
      periodCount, fifoCacheData := 0, [];
      this.channel := channel;
    }

    ghost function Abs(): (c: Cell)
      reads this
    {
      Cell(channel, periodCount, fifoCacheData)
    }

    method InitFifoCache()
      modifies this`periodCount, this`fifoCacheData
      ensures Abs() == Cell(channel, 0, [])
    {
      periodCount := 0;
      fifoCacheData := [];
    }

    /** promote(): the channel, if it still exists. */
    function GetChannel(live: set<nat>): (r: Option<nat>)
      reads this
    {
      if channel in live then Some(channel) else None
    }
  }

  ghost function CellSeq(list: seq<FifoCacheData>): (cells: seq<Cell>)
    reads list
    ensures |cells| == |list|
  {
    if list == [] then [] else [list[0].Abs()] + CellSeq(list[1..])
  }

  lemma {:induction false} CellSeqAppend(a: seq<FifoCacheData>, b: seq<FifoCacheData>)
    ensures CellSeq(a + b) == CellSeq(a) + CellSeq(b)
  {
    if a == [] {
      assert a + b == b;
    } else {
      assert (a + b)[0] == a[0] && (a + b)[1..] == a[1..] + b;
      CellSeqAppend(a[1..], b);
      assert [a[0].Abs()] + (CellSeq(a[1..]) + CellSeq(b)) == [a[0].Abs()] + CellSeq(a[1..]) + CellSeq(b);
    }
  }

  lemma CellSeqMiddle(a: seq<FifoCacheData>, c: FifoCacheData, b: seq<FifoCacheData>)
    ensures CellSeq(a + [c]) == CellSeq(a) + [c.Abs()]
    ensures CellSeq(a + [c] + b) == CellSeq(a) + [c.Abs()] + CellSeq(b)
  {
    CellSeqAppend(a, [c]);
    CellSeqAppend(a + [c], b);
  }

  lemma DistinctSplit(a: seq<FifoCacheData>, c: FifoCacheData, b: seq<FifoCacheData>)
    requires Distinct(a + [c] + b)
    ensures c !in a && c !in b && Distinct(a + b)
  {
    var all := a + [c] + b;
    assert all[|a|] == c;
    assert forall i :: 0 <= i < |a| ==> all[i] == a[i];
    assert forall i :: 0 <= i < |b| ==> all[|a| + 1 + i] == b[i];
    forall i, j | 0 <= i < j < |a + b| ensures (a + b)[i] != (a + b)[j] {
      assert (a + b)[i] == all[if i < |a| then i else i + 1] && (a + b)[j] == all[if j < |a| then j else j + 1];
    }
  }

  lemma DistinctSnoc(a: seq<FifoCacheData>, c: FifoCacheData)
    requires Distinct(a) && c !in a
    ensures Distinct(a + [c])
  {
  }

  lemma CellSeqEmpty()
    ensures CellSeq([]) == []
  {
  }

  lemma CellSeqSmall(c: FifoCacheData, b: seq<FifoCacheData>)
    ensures CellSeq([c]) == [c.Abs()]
    ensures CellSeq([c] + b) == [c.Abs()] + CellSeq(b)
  {
    assert [c][1..] == [] && ([c] + b)[1..] == b;
  }

  /** After `done`, scanning `rest` completes the scan to `goal`. */
  ghost predicate LeadsNone(goal: (seq<Cell>, bool), done: seq<Cell>, rest: seq<Cell>, live: set<nat>, id: nat,
      P: nat, exist: bool)
  {
    var t := ScanNone(rest, live, id, P, exist);
    goal.0 == done + t.0 && goal.1 == t.1
  }

  lemma LeadsNoneStart(cells: seq<Cell>, live: set<nat>, id: nat, P: nat)
    ensures LeadsNone(ScanNone(cells, live, id, P, false), [], cells, live, id, P, false)
  {
  }

  lemma LeadsNoneStep(goal: (seq<Cell>, bool), done: seq<Cell>, c: Cell, rest: seq<Cell>, live: set<nat>, id: nat,
      P: nat, exist: bool)
    requires LeadsNone(goal, done, [c] + rest, live, id, P, exist)
    ensures if c.channel !in live then LeadsNone(goal, done, rest, live, id, P, exist)
            else if c.channel != id then LeadsNone(goal, done + [c], rest, live, id, P, exist)
            else
              var t := TurnNone(Some(c), id, P);
              if !t.1 then LeadsNone(goal, done + [t.0], rest, live, id, P, true)
              else goal.0 == done + [t.0] + rest && goal.1
  {
    assert ([c] + rest)[1..] == rest;
  }

  lemma LeadsNoneEnd(goal: (seq<Cell>, bool), done: seq<Cell>, live: set<nat>, id: nat, P: nat, exist: bool)
    requires LeadsNone(goal, done, [], live, id, P, exist)
    ensures goal.0 == (if exist then done else done + [Cell(id, 0, [])]) && goal.1 == !exist
  {
  }

  /** After `done`, scanning `rest` completes the scan to `goal`. */
  ghost predicate LeadsFifo(goal: (seq<Cell>, seq<Event>), done: seq<Cell>, rest: seq<Cell>, live: set<nat>,
      id: nat, e: Event, P: nat, F: nat, exist: bool)
    requires P > 0
  {
    var t := ScanFifo(rest, live, id, e, P, F, exist);
    goal.0 == done + t.0 && goal.1 == t.1
  }

  lemma LeadsFifoStart(cells: seq<Cell>, live: set<nat>, id: nat, e: Event, P: nat, F: nat)
    requires P > 0
    ensures LeadsFifo(ScanFifo(cells, live, id, e, P, F, false), [], cells, live, id, e, P, F, false)
  {
  }

  lemma LeadsFifoStep(goal: (seq<Cell>, seq<Event>), done: seq<Cell>, c: Cell, rest: seq<Cell>, live: set<nat>,
      id: nat, e: Event, P: nat, F: nat, exist: bool)
    requires P > 0 && LeadsFifo(goal, done, [c] + rest, live, id, e, P, F, exist)
    ensures if c.channel !in live then LeadsFifo(goal, done, rest, live, id, e, P, F, exist)
            else if c.channel != id then LeadsFifo(goal, done + [c], rest, live, id, e, P, F, exist)
            else
              var t := TurnFifo(Some(c), id, e, P, F);
              if t.1 == [] then LeadsFifo(goal, done + [t.0], rest, live, id, e, P, F, true)
              else goal.0 == done + [t.0] + rest && goal.1 == t.1
  {
    assert ([c] + rest)[1..] == rest;
  }

  lemma LeadsFifoEnd(goal: (seq<Cell>, seq<Event>), done: seq<Cell>, live: set<nat>, id: nat, e: Event, P: nat,
      F: nat, exist: bool)
    requires P > 0 && LeadsFifo(goal, done, [], live, id, e, P, F, exist)
    ensures goal.0 == (if exist then done else done + [Cell(id, 0, [])]) && goal.1 == []
  {
  }

  lemma SendNothing(ch: Chan, outcome: Outcome)
    ensures SendRaw(ch, outcome, []) == ch
  {
  }

  /** The cells of untouched objects are what they were. */
  twostate lemma CellSeqFrame(list: seq<FifoCacheData>)
    requires forall i :: 0 <= i < |list| ==> unchanged(list[i])
    ensures CellSeq(list) == old(CellSeq(list))
  {
    if list != [] {
      assert unchanged(list[0]);
      var tail := list[1..];
      assert forall i :: 0 <= i < |tail| ==> tail[i] == list[i + 1];
      CellSeqFrame(tail);
    }
  }

  lemma DistinctOne(c: FifoCacheData)
    ensures Distinct([c])
  {
  }

  lemma ScanEmpty(live: set<nat>, id: nat, e: Event, P: nat, F: nat)
    ensures ScanNone([], live, id, P, false) == ([Cell(id, 0, [])], true)
    ensures P > 0 ==> ScanFifo([], live, id, e, P, F, false) == ([Cell(id, 0, [])], [])
  {
  }

  class SensorDataProcesser {
    var dataCountMap: map<Desc, seq<FifoCacheData>>
    var sensorMap: set<Desc>
    ghost var Repr: set<FifoCacheData>

    constructor (sensors: set<Desc>)
      ensures Valid() && Abs() == map[] && sensorMap == sensors
    {
      dataCountMap, sensorMap, Repr := map[], sensors, {};
    }

    /** Every cell belongs to one place of one list. */
    ghost predicate Valid()
      reads this
    {
      forall d <- dataCountMap :: Placed(d)
    }

    ghost predicate Placed(d: Desc)
      requires d in dataCountMap
      reads this
    {
      Distinct(dataCountMap[d])
      && forall c <- dataCountMap[d] :: c in Repr && forall k <- dataCountMap :: k != d ==> c !in dataCountMap[k]
    }

    ghost function Abs(): (counts: Counts)
      reads this, Repr
      requires Valid()
    {
      map d | d in dataCountMap :: assert Placed(d); CellSeq(dataCountMap[d])
    }

    method SendRawData(ch: DataChannel, events: seq<Event>)
      modifies ch
      ensures ch.Abs() == SendRaw(old(ch.Abs()), ch.outcome, events)
    {
      if events == [] {
        return;
      }
      var ok := ch.SendData(events);
      if !ok {
        var last := events[|events| - 1];
        ch.dataCacheBuf := ch.dataCacheBuf[last.desc := last];
      }
    }

    /** What the loop of SendNoneFifoCacheData does with the channel's own cell. */
    method CountAndSend(fifo: FifoCacheData, ch: DataChannel, data: Event, P: nat) returns (delivered: bool)
      requires fifo.channel == ch.id
      modifies fifo`periodCount, ch
      ensures (fifo.Abs(), delivered) == TurnNone(Some(old(fifo.Abs())), ch.id, P)
      ensures ch.Abs() == if delivered then SendRaw(old(ch.Abs()), ch.outcome, [data]) else old(ch.Abs())
    {
      fifo.periodCount := fifo.periodCount + 1;
      if P != 0 && fifo.periodCount % P != 0 {
        return false;
      }
      SendRawData(ch, [data]);
      fifo.periodCount := 0;
      return true;
    }

    /** The loop of SendNoneFifoCacheData over one sensor's list. */
    method ScanListNone(list0: seq<FifoCacheData>, ch: DataChannel, live: set<nat>, data: Event,
        P: nat) returns (list: seq<FifoCacheData>)
      requires Distinct(list0)
      modifies list0, ch
      ensures Distinct(list) && forall c <- list :: c in list0 || fresh(c)
      ensures var t := ScanNone(old(CellSeq(list0)), live, ch.id, P, false);
              CellSeq(list) == t.0 && ch.Abs() == if t.1 then SendRaw(old(ch.Abs()), ch.outcome, [data])
                                                    else old(ch.Abs())
    {
      hide CellSeq, LeadsNone, ScanNone, TurnNone, SendRaw, Distinct;
      list := list0;
      var i, channelExist := 0, false;
      ghost var goal := ScanNone(CellSeq(list0), live, ch.id, P, false);
      assert CellSeq([]) == [] by { CellSeqEmpty(); }
      LeadsNoneStart(CellSeq(list0), live, ch.id, P);
      assert list[..0] == [] && list[0..] == list;
      while i < |list|
        invariant 0 <= i <= |list| && Distinct(list) && forall c <- list :: c in list0
        invariant LeadsNone(goal, CellSeq(list[..i]), CellSeq(list[i..]), live, ch.id, P, channelExist)
        invariant ch.Abs() == old(ch.Abs())
        decreases |list| - i
      {
        var fifo := list[i];
        assert fifo in list;
        ghost var done, rest := list[..i], list[i + 1..];
        assert list[i..] == [fifo] + rest && list == done + [fifo] + rest;
        DistinctSplit(done, fifo, rest);
        CellSeqSmall(fifo, rest);
        ghost var doneCells, restCells := CellSeq(done), CellSeq(rest);
        LeadsNoneStep(goal, CellSeq(done), fifo.Abs(), CellSeq(rest), live, ch.id, P, channelExist);
        var fifoChannel := fifo.GetChannel(live);
        if fifoChannel == None {
          list := list[..i] + list[i + 1..];
          assert list[..i] == done && list[i..] == rest;
          continue;
        }
        i := i + 1;
        assert list[..i] == done + [fifo] && list[i..] == rest;
        if fifoChannel != Some(ch.id) {
          CellSeqMiddle(done, fifo, []);
          continue;
        }
        channelExist := true;
        var delivered := CountAndSend(fifo, ch, data, P);
        assert CellSeq(done) == doneCells && CellSeq(rest) == restCells;
        if !delivered {
          CellSeqMiddle(done, fifo, []);
          continue;
        }
        CellSeqMiddle(done, fifo, rest);
        return;
      }
      assert list[..i] == list && list[i..] == [];
      LeadsNoneEnd(goal, CellSeq(list), live, ch.id, P, channelExist);
      if !channelExist {
        var fifo := new FifoCacheData(ch.id);
        SendRawData(ch, [data]);
        CellSeqMiddle(list, fifo, []);
        DistinctSnoc(list, fifo);
        list := list + [fifo];
      }
    }

    /** What the loop of SendFifoCacheData does with the channel's own cell. */
    method CountAndBatch(fifo: FifoCacheData, ch: DataChannel, data: Event, P: nat, F: nat) returns (delivered: bool)
      requires P > 0 && fifo.channel == ch.id
      modifies fifo`periodCount, fifo`fifoCacheData, ch
      ensures var t := TurnFifo(Some(old(fifo.Abs())), ch.id, data, P, F);
              fifo.Abs() == t.0 && (delivered <==> t.1 != [])
              && ch.Abs() == if delivered then SendRaw(old(ch.Abs()), ch.outcome, t.1) else old(ch.Abs())
    {
      fifo.periodCount := fifo.periodCount + 1;
      if fifo.periodCount % P != 0 {
        return false;
      }
      fifo.periodCount := 0;
      fifo.fifoCacheData := fifo.fifoCacheData + [data];
      if |fifo.fifoCacheData| != F {
        return false;
      }
      SendRawData(ch, fifo.fifoCacheData);
      fifo.InitFifoCache();
      return true;
    }

    /** The loop of SendFifoCacheData over one sensor's list. */
    method ScanListFifo(list0: seq<FifoCacheData>, ch: DataChannel, live: set<nat>, data: Event, P: nat,
        F: nat) returns (list: seq<FifoCacheData>)
      requires P > 0 && Distinct(list0)
      modifies list0, ch
      ensures Distinct(list) && forall c <- list :: c in list0 || fresh(c)
      ensures var t := ScanFifo(old(CellSeq(list0)), live, ch.id, data, P, F, false);
              CellSeq(list) == t.0 && ch.Abs() == if t.1 != [] then SendRaw(old(ch.Abs()), ch.outcome, t.1)
                                                    else old(ch.Abs())
    {
      hide CellSeq, LeadsFifo, ScanFifo, TurnFifo, SendRaw, Distinct;
      list := list0;
      var i, channelExist := 0, false;
      ghost var goal := ScanFifo(CellSeq(list0), live, ch.id, data, P, F, false);
      assert CellSeq([]) == [] by { CellSeqEmpty(); }
      LeadsFifoStart(CellSeq(list0), live, ch.id, data, P, F);
      assert list[..0] == [] && list[0..] == list;
      while i < |list|
        invariant 0 <= i <= |list| && Distinct(list) && forall c <- list :: c in list0
        invariant LeadsFifo(goal, CellSeq(list[..i]), CellSeq(list[i..]), live, ch.id, data, P, F, channelExist)
        invariant ch.Abs() == old(ch.Abs())
        decreases |list| - i
      {
        var fifo := list[i];
        assert fifo in list;
        ghost var done, rest := list[..i], list[i + 1..];
        assert list[i..] == [fifo] + rest && list == done + [fifo] + rest;
        DistinctSplit(done, fifo, rest);
        CellSeqSmall(fifo, rest);
        ghost var doneCells, restCells := CellSeq(done), CellSeq(rest);
        LeadsFifoStep(goal, CellSeq(done), fifo.Abs(), CellSeq(rest), live, ch.id, data, P, F, channelExist);
        var fifoChannel := fifo.GetChannel(live);
        if fifoChannel == None {
          list := list[..i] + list[i + 1..];
          assert list[..i] == done && list[i..] == rest;
          continue;
        }
        i := i + 1;
        assert list[..i] == done + [fifo] && list[i..] == rest;
        if fifoChannel != Some(ch.id) {
          CellSeqMiddle(done, fifo, []);
          continue;
        }
        channelExist := true;
        var delivered := CountAndBatch(fifo, ch, data, P, F);
        assert CellSeq(done) == doneCells && CellSeq(rest) == restCells;
        if !delivered {
          CellSeqMiddle(done, fifo, []);
          continue;
        }
        CellSeqMiddle(done, fifo, rest);
        return;
      }
      assert list[..i] == list && list[i..] == [];
      LeadsFifoEnd(goal, CellSeq(list), live, ch.id, data, P, F, channelExist);
      if !channelExist {
        var fifo := new FifoCacheData(ch.id);
        CellSeqMiddle(list, fifo, []);
        DistinctSnoc(list, fifo);
        list := list + [fifo];
      }
    }

    /** Only the list of `d` was replaced, by old cells of `d` and new ones. */
    twostate lemma Stored(d: Desc, new list: seq<FifoCacheData>)
      requires old(Valid()) && dataCountMap == old(dataCountMap)[d := list] && Distinct(list)
      requires forall c <- list :: c in Repr && (fresh(c) || (d in old(dataCountMap) && c in old(dataCountMap)[d]))
      requires old(Repr) <= Repr
      requires forall k | k in old(dataCountMap) && k != d :: CellSeq(dataCountMap[k]) == old(CellSeq(dataCountMap[k]))
      ensures Valid() && Abs() == old(Abs())[d := CellSeq(list)]
      ensures CellsOf(old(Abs()), d) == if d in old(dataCountMap) then old(CellSeq(dataCountMap[d])) else []
    {
      hide CellSeq, Distinct;
      forall k <- dataCountMap ensures Placed(k) {
        if k != d {
          assert old(Placed(k));
        }
        if d in old(dataCountMap) {
          assert old(Placed(d));
        }
      }
    }

    method SendNoneFifoCacheData(ch: DataChannel, live: set<nat>, data: Event, P: nat)
      requires Valid()
      modifies this`dataCountMap, this`Repr, Repr, ch
      ensures Valid() && fresh(Repr - old(Repr))
      ensures var t := ScanNone(CellsOf(old(Abs()), data.desc), live, ch.id, P, false);
              Abs() == old(Abs())[data.desc := t.0]
              && ch.Abs() == if t.1 then SendRaw(old(ch.Abs()), ch.outcome, [data]) else old(ch.Abs())
    {
      hide SendRaw, CellSeq, Distinct, ScanNone, ScanFifo, Abs;
      if data.desc !in dataCountMap {
        var fifo := new FifoCacheData(ch.id);
        dataCountMap := dataCountMap[data.desc := [fifo]];
        Repr := Repr + {fifo};
        SendRawData(ch, [data]);
        CellSeqSmall(fifo, []);
        DistinctOne(fifo);
        Stored(data.desc, [fifo]);
        ScanEmpty(live, ch.id, data, P, 0);
        return;
      }
      assert Placed(data.desc);
      var list := ScanListNone(dataCountMap[data.desc], ch, live, data, P);
      forall k | k in dataCountMap && k != data.desc ensures CellSeq(dataCountMap[k]) == old(CellSeq(dataCountMap[k])) {
        assert old(Placed(k));
        var others := old(dataCountMap[k]);
        assert forall i :: 0 <= i < |others| ==>
                 others[i] !in old(dataCountMap[data.desc]) && others[i] as object != ch;
        CellSeqFrame(others);
      }
      Repr := Repr + set c | c in list;
      dataCountMap := dataCountMap[data.desc := list];
      Stored(data.desc, list);
    }

    method SendFifoCacheData(ch: DataChannel, live: set<nat>, data: Event, P: nat, F: nat)
      requires Valid() && P > 0
      modifies this`dataCountMap, this`Repr, Repr, ch
      ensures Valid() && fresh(Repr - old(Repr))
      ensures var t := ScanFifo(CellsOf(old(Abs()), data.desc), live, ch.id, data, P, F, false);
              Abs() == old(Abs())[data.desc := t.0]
              && ch.Abs() == if t.1 != [] then SendRaw(old(ch.Abs()), ch.outcome, t.1) else old(ch.Abs())
    {
      hide SendRaw, CellSeq, Distinct, ScanNone, ScanFifo, Abs;
      if data.desc !in dataCountMap {
        var fifo := new FifoCacheData(ch.id);
        dataCountMap := dataCountMap[data.desc := [fifo]];
        Repr := Repr + {fifo};
        CellSeqSmall(fifo, []);
        DistinctOne(fifo);
        Stored(data.desc, [fifo]);
        ScanEmpty(live, ch.id, data, P, F);
        return;
      }
      assert Placed(data.desc);
      var list := ScanListFifo(dataCountMap[data.desc], ch, live, data, P, F);
      forall k | k in dataCountMap && k != data.desc ensures CellSeq(dataCountMap[k]) == old(CellSeq(dataCountMap[k])) {
        assert old(Placed(k));
        var others := old(dataCountMap[k]);
        assert forall i :: 0 <= i < |others| ==>
                 others[i] !in old(dataCountMap[data.desc]) && others[i] as object != ch;
        CellSeqFrame(others);
      }
      Repr := Repr + set c | c in list;
      dataCountMap := dataCountMap[data.desc := list];
      Stored(data.desc, list);
    }

    /** periodCount and fifoCount are what ClientInfo computes for the channel and the sensor. */
    method ReportData(ch: DataChannel, live: set<nat>, data: Event, periodCount: nat, fifoCount: nat)
      requires Valid()
      modifies this`dataCountMap, this`Repr, Repr, ch
      ensures Valid() && fresh(Repr - old(Repr))
      ensures Pipe(Abs(), ch.Abs())
           == Deliveries.ReportData(old(Pipe(Abs(), ch.Abs())), ch.outcome, sensorMap, live, ch.id, data, periodCount,
               fifoCount)
    {
      hide SendRaw, ScanNone, ScanFifo, OnChange;
      if data.desc in sensorMap && OnChange(data.mode) {
        SendRawData(ch, [data]);
        return;
      }
      if periodCount == 0 {
        return;
      }
      if fifoCount <= 1 {
        SendNoneFifoCacheData(ch, live, data, periodCount);
        return;
      }
      SendNothing(ch.Abs(), ch.outcome);
      SendFifoCacheData(ch, live, data, periodCount, fifoCount);
    }

    method CacheSensorEvent(data: Event, ch: DataChannel) returns (ok: bool)
      modifies ch
      ensures ch.Abs() == CacheEvent(old(ch.Abs()), ch.outcome, data)
      ensures ok <==> data.desc !in ch.dataCacheBuf
    {
      if data.desc in ch.dataCacheBuf {
        ok := ch.SendData([ch.dataCacheBuf[data.desc]]);
        ok := ch.SendData([data]);
        if !ok {
          ch.dataCacheBuf := ch.dataCacheBuf[data.desc := data];
        } else {
          ch.dataCacheBuf := ch.dataCacheBuf - {data.desc};
        }
      } else {
        ok := ch.SendData([data]);
        if !ok {
          ch.dataCacheBuf := ch.dataCacheBuf[data.desc := data];
        }
      }
    }

    method SendEvents(ch: DataChannel, live: set<nat>, data: Event, periodCount: nat, fifoCount: nat)
      requires Valid()
      modifies this`dataCountMap, this`Repr, Repr, ch
      ensures Valid() && fresh(Repr - old(Repr))
      ensures Pipe(Abs(), ch.Abs())
           == Deliveries.SendEvents(old(Pipe(Abs(), ch.Abs())), ch.outcome, sensorMap, live, ch.id, data, periodCount,
               fifoCount)
    {
      hide Deliveries.ReportData, CacheEvent;
      if ch.dataCacheBuf == map[] {
        ReportData(ch, live, data, periodCount, fifoCount);
      } else {
        var _ := CacheSensorEvent(data, ch);
      }
    }
  }
}
