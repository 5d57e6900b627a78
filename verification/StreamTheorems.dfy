/** The stream as a whole: frames printed by the sender, cut anywhere, re-framed by the client. */
module StreamTheorems {
  import opened ByteCodec
  import opened Sequences
  import opened StreamBuffers
  import opened NetPackets
  import opened StreamSessions
  import opened StreamSockets
  import opened ActiveInfos

  predicate AllFramable(pkts: seq<Packet>) {
    forall p <- pkts :: Framable(p)
  }

  /** The bytes are a proper prefix of some frame: nothing the packet loop could hand over. */
  ghost predicate Partial(r: seq<Byte>, p: Packet) {
    Framable(p) && r < Frame(p)
  }

  lemma ParseWaits(r: seq<Byte>, p: Packet)
    requires Partial(r, p)
    ensures Parse(r) == Parsed([], r)
  {
    if |r| >= HEAD_SIZE {
      HeadFields(p.msgId, |p.payload|);
      assert r[4..12] == Frame(p)[4..12] == Head(p.msgId, |p.payload|)[4..12];
    }
  }

  lemma ParseTakes(p: Packet, more: seq<Byte>)
    requires Framable(p)
    ensures ParseOne(Frame(p) + more) == Took(p, more)
  {
    var s := Frame(p) + more;
    var head := Head(p.msgId, |p.payload|);
    HeadFields(p.msgId, |p.payload|);
    assert s[..4] == head[..4] && s[4..12] == head[4..12];
    assert s[HEAD_SIZE..HEAD_SIZE + |p.payload|] == p.payload;
    assert s[HEAD_SIZE + |p.payload|..] == more;
  }

  /** Parsing undoes framing: whole frames come out, an incomplete one stays. */
  lemma {:induction false} ParseFrames(pkts: seq<Packet>, r: seq<Byte>, next: Packet)
    requires AllFramable(pkts) && Partial(r, next)
    ensures Parse(FrameAll(pkts) + r) == Parsed(pkts, r)
    decreases |pkts|
  {
    if pkts == [] {
      assert FrameAll(pkts) + r == r;
      ParseWaits(r, next);
    } else {
      Assoc(Frame(pkts[0]), FrameAll(pkts[1..]), r);
      ParseTakes(pkts[0], FrameAll(pkts[1..]) + r);
      ParseFrames(pkts[1..], r, next);
    }
  }

  /** What the packet loop makes of any bytes, by the size their head announces: too few for a head
      or for the payload wait, an impossible size empties the buffer. */
  lemma HeadDecides(msgId: Int32, size: nat, more: seq<Byte>)
    requires size < 0x1_0000_0000_0000_0000
    ensures var s, tail := Head(msgId, size) + more, if size <= |more| then more[size..] else [];
            Parse(s) == if size > 256 then Parsed([], [])
                        else if size > |more| then Parsed([], s)
                        else Parsed([Packet(msgId, more[..size])] + Parse(tail).packets, Parse(tail).rest)
  {
    var head := Head(msgId, size);
    var s := head + more;
    HeadFields(msgId, size);
    assert s[..4] == head[..4] && s[4..12] == head[4..12];
    if size <= |more| {
      assert s[HEAD_SIZE..HEAD_SIZE + size] == more[..size] && s[HEAD_SIZE + size..] == more[size..];
    }
  }

  lemma ShortWaits(s: seq<Byte>)
    requires |s| < 12
    ensures Parse(s) == Parsed([], s)
  {
  }

  /** How many frames lie entirely in the first `n` bytes of the stream. */
  function Complete(pkts: seq<Packet>, n: nat): (k: nat)
    ensures k <= |pkts|
  {
    if pkts == [] || n < |Frame(pkts[0])| then 0 else 1 + Complete(pkts[1..], n - |Frame(pkts[0])|)
  }

  /** The packet whose frame is being received after `n` bytes; a bare head stands for the
      end of the stream, where nothing is pending. */
  function Pending(pkts: seq<Packet>, n: nat): (p: Packet) {
    var k := Complete(pkts, n);
    if k < |pkts| then pkts[k] else Packet(ID_INVALID, [])
  }

  /** The stream's first bytes `s` are its complete frames so far, then `r`. */
  ghost predicate Residue(pkts: seq<Packet>, s: seq<Byte>, r: seq<Byte>) {
    s == FrameAll(pkts[..Complete(pkts, |s|)]) + r
  }

  /** Any prefix of the stream is some whole frames and a proper prefix of the next. */
  lemma {:induction false} PrefixSplits(pkts: seq<Packet>, s: seq<Byte>) returns (r: seq<Byte>)
    requires AllFramable(pkts) && s <= FrameAll(pkts)
    ensures Residue(pkts, s, r) && Partial(r, Pending(pkts, |s|))
    decreases |pkts|
  {
    hide Frame, Parse;
    var u := FrameAll(pkts)[|s|..];
    assert s + u == FrameAll(pkts);
    if pkts == [] {
      r := s;
      assert pkts[..0] == [] && [] + s == s;
    } else {
      var f, others := Frame(pkts[0]), FrameAll(pkts[1..]);
      if |s| < |f| {
        r := s;
        assert pkts[..0] == [] && [] + s == s;
        assert f == f[..|s|] + f[|s|..];
        Assoc(f[..|s|], f[|s|..], others);
        SplitUnique(s, u, f[..|s|], f[|s|..] + others);
      } else {
        var tail := s[|f|..];
        assert s == s[..|f|] + tail;
        Assoc(s[..|f|], tail, u);
        SplitUnique(s[..|f|], tail + u, f, others);
        r := PrefixSplits(pkts[1..], tail);
        var k := Complete(pkts[1..], |tail|);
        assert pkts[..k + 1][1..] == pkts[1..][..k];
        Assoc(f, FrameAll(pkts[1..][..k]), r);
      }
    }
  }

  lemma {:induction false} CompleteMonotone(pkts: seq<Packet>, m: nat, n: nat)
    requires m <= n
    ensures Complete(pkts, m) <= Complete(pkts, n)
    decreases |pkts|
  {
    if pkts != [] && m >= |Frame(pkts[0])| {
      CompleteMonotone(pkts[1..], m - |Frame(pkts[0])|, n - |Frame(pkts[0])|);
    }
  }

  /** A whole run of the client: everything handed over, and the bytes left unread. */
  function Deliver(unread: seq<Byte>, chunks: seq<seq<Byte>>): (r: Parsed)
    decreases |chunks|
  {
    if chunks == [] then Parsed([], unread)
    else
      var one := Receive(unread, chunks[0]);
      var others := Deliver(one.rest, chunks[1..]);
      Parsed(one.packets + others.packets, others.rest)
  }

  /** A payload of 245 to 256 bytes jams the client for good: the 256 bytes of its buffer never hold
      the packet the bare head announces, so nothing is handed over any more, whatever arrives. */
  lemma {:induction false} LongPayloadJamsClient(p: Packet, more: seq<Byte>, chunks: seq<seq<Byte>>)
    requires 245 <= |p.payload| <= 256 && |MadeData(p)| + |more| <= MAX_STREAM_BUF_SIZE
    ensures Deliver(MadeData(p) + more, chunks).packets == []
    decreases |chunks|
  {
    hide Parse, Head;
    if chunks != [] {
      var head, chunk := Head(p.msgId, |p.payload|), chunks[0];
      assert MadeData(p) == head;
      HeadDecides(p.msgId, |p.payload|, more);
      if |head + more| + |chunk| <= MAX_STREAM_BUF_SIZE {
        HeadDecides(p.msgId, |p.payload|, more + chunk);
        Assoc(head, more, chunk);
        LongPayloadJamsClient(p, more + chunk, chunks[1..]);
      }
      LongPayloadJamsClient(p, more, chunks[1..]);
    }
  }

  /** Every chunk, at the moment it arrives, fits beside the unread bytes. */
  ghost predicate AllFit(unread: seq<Byte>, chunks: seq<seq<Byte>>)
    decreases |chunks|
  {
    chunks == [] ||
    (|unread| + |chunks[0]| <= MAX_STREAM_BUF_SIZE && AllFit(Receive(unread, chunks[0]).rest, chunks[1..]))
  }

  function Concat(chunks: seq<seq<Byte>>): (s: seq<Byte>) {
    if chunks == [] then [] else chunks[0] + Concat(chunks[1..])
  }

  /** One fitting chunk moves the client from one prefix of the stream to a longer one. */
  lemma ReceiveAdvances(pkts: seq<Packet>, s: seq<Byte>, r: seq<Byte>, chunk: seq<Byte>) returns (r': seq<Byte>)
    requires AllFramable(pkts) && s + chunk <= FrameAll(pkts) && Residue(pkts, s, r)
    requires |r| + |chunk| <= MAX_STREAM_BUF_SIZE
    ensures Residue(pkts, s + chunk, r') && Partial(r', Pending(pkts, |s + chunk|))
    ensures var k, k' := Complete(pkts, |s|), Complete(pkts, |s + chunk|);
            k <= k' && Receive(r, chunk) == Parsed(pkts[k..k'], r')
  {
    hide Frame, Parse, Complete, Partial;
    r' := PrefixSplits(pkts, s + chunk);
    CompleteMonotone(pkts, |s|, |s + chunk|);
    var k, k' := Complete(pkts, |s|), Complete(pkts, |s + chunk|);
    var whole, middle := FrameAll(pkts[..k]), pkts[k..k'];
    assert pkts[..k'] == pkts[..k] + middle;
    FrameAllAppend(pkts[..k], middle);
    Assoc(whole, r, chunk);
    Assoc(whole, FrameAll(middle), r');
    SplitUnique(whole, r + chunk, whole, FrameAll(middle) + r');
    if chunk == [] {
      assert s + chunk == s && r + chunk == r && middle == [];
      assert FrameAll(middle) + r' == r';
    } else {
      ParseFrames(middle, r', Pending(pkts, |s + chunk|));
    }
  }

  lemma {:induction false} DeliverFrom(pkts: seq<Packet>, s: seq<Byte>, r: seq<Byte>, chunks: seq<seq<Byte>>)
    returns (r': seq<Byte>)
    requires AllFramable(pkts) && s + Concat(chunks) <= FrameAll(pkts) && Residue(pkts, s, r)
    requires Partial(r, Pending(pkts, |s|)) && AllFit(r, chunks)
    ensures var t := s + Concat(chunks);
            var k, k' := Complete(pkts, |s|), Complete(pkts, |t|);
            Residue(pkts, t, r') && Partial(r', Pending(pkts, |t|))
            && k <= k' && Deliver(r, chunks) == Parsed(pkts[k..k'], r')
    decreases |chunks|
  {
    hide Frame, FrameAll, Parse, Complete, Partial, Receive;
    var k := Complete(pkts, |s|);
    if chunks == [] {
      assert s + Concat(chunks) == s && pkts[k..k] == [];
      r' := r;
    } else {
      var c := chunks[0];
      Assoc(s, c, Concat(chunks[1..]));
      var r1 := ReceiveAdvances(pkts, s, r, c);
      r' := DeliverFrom(pkts, s + c, r1, chunks[1..]);
      var k1, k2 := Complete(pkts, |s + c|), Complete(pkts, |s + Concat(chunks)|);
      assert pkts[k..k1] + pkts[k1..k2] == pkts[k..k2];
    }
  }

  /** The stream theorem. However the frames of `pkts`, or a prefix of them, are cut into chunks
      that fit, the client is handed exactly the complete packets, in order, and keeps a proper
      prefix of the next frame. */
  lemma StreamDelivers(pkts: seq<Packet>, chunks: seq<seq<Byte>>)
    requires AllFramable(pkts) && Concat(chunks) <= FrameAll(pkts) && AllFit([], chunks)
    ensures var k := Complete(pkts, |Concat(chunks)|);
            Deliver([], chunks).packets == pkts[..k]
            && FrameAll(pkts[..k]) + Deliver([], chunks).rest == Concat(chunks)
            && Partial(Deliver([], chunks).rest, Pending(pkts, |Concat(chunks)|))
  {
    assert Complete(pkts, 0) == 0 && pkts[..0] == [] && FrameAll([]) + [] == [];
    assert Partial([], Pending(pkts, 0));
    hide Frame, FrameAll, Deliver, AllFit, Concat, Complete, Partial, Pending;
    assert [] + Concat(chunks) == Concat(chunks);
    var r' := DeliverFrom(pkts, [], [], chunks);
  }

  /** A pass never hands over more bytes than it was given. */
  lemma {:induction false} ParseConserves(bytes: seq<Byte>)
    ensures |FrameAll(Parse(bytes).packets)| + |Parse(bytes).rest| <= |bytes|
    decreases |bytes|
  {
    match ParseOne(bytes)
    case Stop(_) =>
    case Took(pkt, left) =>
      ParseConserves(left);
      assert Parse(bytes).packets[1..] == Parse(left).packets;
  }

  /** Nor does a run; and a chunk that does not fit is lost for good. */
  lemma {:induction false} DeliverConserves(unread: seq<Byte>, chunks: seq<seq<Byte>>)
    requires |unread| <= MAX_STREAM_BUF_SIZE
    ensures var r := Deliver(unread, chunks);
            var total := |FrameAll(r.packets)| + |r.rest|;
            total <= |unread| + |Concat(chunks)|
            && (!AllFit(unread, chunks) ==> total < |unread| + |Concat(chunks)|)
    decreases |chunks|
  {
    if chunks != [] {
      var c := chunks[0];
      var one := Receive(unread, c);
      ParseConserves(unread + c);
      ParseConserves(unread);
      DeliverConserves(one.rest, chunks[1..]);
      FrameAllAppend(one.packets, Deliver(one.rest, chunks[1..]).packets);
    }
  }

  /** The exact condition: a fully delivered stream reaches the client packet for packet if and
      only if every chunk fits beside the unread bytes when it arrives. */
  lemma DeliveredExactlyIffAllFit(pkts: seq<Packet>, chunks: seq<seq<Byte>>)
    requires AllFramable(pkts) && Concat(chunks) == FrameAll(pkts)
    ensures Deliver([], chunks).packets == pkts <==> AllFit([], chunks)
  {
    DeliverConserves([], chunks);
    if AllFit([], chunks) {
      StreamDelivers(pkts, chunks);
      CompleteAll(pkts);
      assert pkts[..|pkts|] == pkts;
    }
  }

  lemma {:induction false} CompleteAll(pkts: seq<Packet>)
    ensures Complete(pkts, |FrameAll(pkts)|) == |pkts|
  {
    if pkts != [] {
      CompleteAll(pkts[1..]);
    }
  }

  lemma {:induction false} ShortChunksFitFrom(pkts: seq<Packet>, L: nat, s: seq<Byte>, r: seq<Byte>,
      chunks: seq<seq<Byte>>)
    requires AllFramable(pkts) && (forall p <- pkts :: |Frame(p)| <= L) && HEAD_SIZE <= L <= MAX_STREAM_BUF_SIZE
    requires forall c <- chunks :: |c| <= MAX_STREAM_BUF_SIZE + 1 - L
    requires s + Concat(chunks) <= FrameAll(pkts) && Residue(pkts, s, r) && Partial(r, Pending(pkts, |s|))
    ensures AllFit(r, chunks)
    decreases |chunks|
  {
    if chunks != [] {
      Assoc(s, chunks[0], Concat(chunks[1..]));
      var r1 := ReceiveAdvances(pkts, s, r, chunks[0]);
      ShortChunksFitFrom(pkts, L, s + chunks[0], r1, chunks[1..]);
    }
  }

  /** Chunks of at most 257 - L bytes always fit when no frame is longer than L. */
  lemma ShortChunksFit(pkts: seq<Packet>, L: nat, chunks: seq<seq<Byte>>)
    requires AllFramable(pkts) && (forall p <- pkts :: |Frame(p)| <= L) && HEAD_SIZE <= L <= MAX_STREAM_BUF_SIZE
    requires forall c <- chunks :: |c| <= MAX_STREAM_BUF_SIZE + 1 - L
    requires Concat(chunks) <= FrameAll(pkts)
    ensures AllFit([], chunks)
  {
    assert Complete(pkts, 0) == 0 && pkts[..0] == [] && FrameAll([]) + [] == [];
    assert [] + Concat(chunks) == Concat(chunks);
    ShortChunksFitFrom(pkts, L, [], [], chunks);
  }

  lemma {:induction false} AllFitAppend(unread: seq<Byte>, a: seq<seq<Byte>>, b: seq<seq<Byte>>)
    ensures AllFit(unread, a + b) ==> AllFit(Deliver(unread, a).rest, b)
    decreases |a|
  {
    if a == [] {
      assert a + b == b;
    } else {
      assert (a + b)[1..] == a[1..] + b;
      AllFitAppend(Receive(unread, a[0]).rest, a[1..], b);
    }
  }

  function Singles(s: seq<Byte>): (chunks: seq<seq<Byte>>)
    ensures forall c <- chunks :: |c| == 1
  {
    if s == [] then [] else [[s[0]]] + Singles(s[1..])
  }

  lemma {:induction false} ConcatSingles(s: seq<Byte>, last: seq<Byte>)
    ensures Concat(Singles(s)) == s
    ensures Concat(Singles(s) + [last]) == s + last
  {
    var chunks := Singles(s);
    if s == [] {
      assert chunks + [last] == [last] && [last][1..] == [];
    } else {
      ConcatSingles(s[1..], last);
      assert (chunks + [last])[1..] == Singles(s[1..]) + [last];
      assert s == [s[0]] + s[1..];
      Assoc([s[0]], s[1..], last);
    }
  }

  /** The bound is sharp: for every frame length, chunks of at most 258 - L bytes can overflow. */
  lemma ChunkBoundIsSharp(L: nat)
    requires HEAD_SIZE < L <= MAX_STREAM_BUF_SIZE
    ensures exists pkts: seq<Packet>, chunks: seq<seq<Byte>> ::
              AllFramable(pkts) && (forall p <- pkts :: |Frame(p)| == L)
              && (forall c <- chunks :: |c| <= MAX_STREAM_BUF_SIZE + 2 - L)
              && Concat(chunks) <= FrameAll(pkts) && !AllFit([], chunks)
  {
    hide Frame, FrameAll, Parse, Deliver, Concat;
    var pkts := EqualFrames(L);
    var whole := FrameAll(pkts);
    var n := MAX_STREAM_BUF_SIZE + 1;
    var first, last := whole[..L - 1], whole[L - 1..n];
    var chunks := Singles(first) + [last];
    ConcatSingles(first, last);
    assert Concat(chunks) == whole[..n];
    assert !AllFit([], chunks) by {
      FirstFrameWaits(pkts, L, first);
      AllFitAppend([], Singles(first), [last]);
    }
  }

  lemma EqualFrames(L: nat) returns (pkts: seq<Packet>)
    requires HEAD_SIZE < L <= MAX_STREAM_BUF_SIZE
    ensures pkts != [] && AllFramable(pkts) && (forall p <- pkts :: |Frame(p)| == L)
    ensures |FrameAll(pkts)| > MAX_STREAM_BUF_SIZE
  {
    var p := Packet(ID_ACTIVE_INFO, seq(L - HEAD_SIZE, _ => 0));
    pkts := seq(MAX_STREAM_BUF_SIZE + 1, _ => p);
    ManyFrames(pkts);
  }

  /** Byte by byte, all of the first frame but its last byte waits unread. */
  lemma FirstFrameWaits(pkts: seq<Packet>, L: nat, first: seq<Byte>)
    requires pkts != [] && AllFramable(pkts) && (forall p <- pkts :: |Frame(p)| == L)
             && HEAD_SIZE < L <= MAX_STREAM_BUF_SIZE
    requires first <= FrameAll(pkts) && |first| == L - 1
    ensures Deliver([], Singles(first)).rest == first
  {
    assert Complete(pkts, L - 1) == 0 && pkts[..0] == [] && FrameAll([]) == [];
    ConcatSingles(first, []);
    hide Frame, FrameAll, Deliver, AllFit, Concat, Complete, Singles;
    ShortChunksFit(pkts, L, Singles(first));
    StreamDelivers(pkts, Singles(first));
    assert [] + Deliver([], Singles(first)).rest == Deliver([], Singles(first)).rest;
  }

  lemma {:induction false} ManyFrames(pkts: seq<Packet>)
    ensures |FrameAll(pkts)| >= |pkts|
  {
    if pkts != [] {
      ManyFrames(pkts[1..]);
    }
  }

  function ToPackets(infos: seq<ActiveInfo>): (pkts: seq<Packet>)
    ensures |pkts| == |infos| && forall i :: 0 <= i < |infos| ==> pkts[i] == ToPacket(infos[i])
  {
    seq(|infos|, i requires 0 <= i < |infos| => ToPacket(infos[i]))
  }

  lemma {:induction false} HandleReports(infos: seq<ActiveInfo>)
    ensures HandleAll(ToPackets(infos)) == infos
  {
    hide ToPacket;
    if infos != [] {
      var n := |infos| - 1;
      HandleReports(infos[..n]);
      assert ToPackets(infos)[..n] == ToPackets(infos[..n]);
      HandlePacket(infos[n]);
      assert infos == infos[..n] + [infos[n]];
    }
  }

  /** End to end: reports sent one by one, every SendMsg returning true whatever the socket did
      in between, arrive as the same values in the same order under every fitting cut. */
  lemma ReportsArrive(kernel: Kernel, at: nat, infos: seq<ActiveInfo>, chunks: seq<seq<Byte>>)
    requires SendRun(kernel, at, ToPackets(infos)).0 && AllFit([], chunks)
    requires Concat(chunks) == SendRun(kernel, at, ToPackets(infos)).1
    ensures HandleAll(Deliver([], chunks).packets) == infos && Deliver([], chunks).rest == []
  {
    var pkts := ToPackets(infos);
    forall p <- pkts ensures Framable(p) {
    }
    SendRunFrames(kernel, at, pkts);
    StreamDelivers(pkts, chunks);
    CompleteAll(pkts);
    assert pkts[..|pkts|] == pkts;
    HandleReports(infos);
  }

  /** A client run, read by read, does what Deliver says. */
  method ReceiveAll(client: SensorServiceClient, chunks: seq<seq<Byte>>)
    requires client.Valid() && client.circBuf.Unread() == [] && client.received == [] && client.reported == []
    modifies client, client.circBuf, client.circBuf.szBuff
    ensures client.Valid()
    ensures var r := Deliver([], chunks);
            client.received == r.packets && client.circBuf.Unread() == r.rest && client.reported == HandleAll(r.packets)
  {
    ghost var goal := Deliver([], chunks);
    for i := 0 to |chunks|
      invariant client.Valid()
      invariant client.received + Deliver(client.circBuf.Unread(), chunks[i..]).packets == goal.packets
      invariant Deliver(client.circBuf.Unread(), chunks[i..]).rest == goal.rest
      invariant client.reported == HandleAll(client.received)
    {
      assert chunks[i..][1..] == chunks[i + 1..];
      ghost var one := Receive(client.circBuf.Unread(), chunks[i]);
      ghost var before := client.received;
      client.ReceiveMessage(chunks[i]);
      HandleAllAppend(before, one.packets);
      Assoc(before, one.packets, Deliver(one.rest, chunks[i + 1..]).packets);
    }
  }

  lemma {:induction false} HandleAllAppend(a: seq<Packet>, b: seq<Packet>)
    ensures HandleAll(a + b) == HandleAll(a) + HandleAll(b)
    decreases |b|
  {
    hide Reports;
    if b == [] {
      assert a + b == a;
    } else {
      var n := |b| - 1;
      HandleAllAppend(a, b[..n]);
      assert (a + b)[..|a + b| - 1] == a + b[..n];
      Assoc(HandleAll(a), HandleAll(b[..n]), Reports(b[n]));
    }
  }
}
