/** The sending end: a retry loop over a non-blocking socket that may take part of a buffer. */
module StreamSessions {
  import opened ByteCodec
  import opened Sequences
  import opened StreamBuffers
  import opened NetPackets

  const SEND_RETRY_LIMIT: nat := 32

  /** One answer of `send`: it took some bytes, asked to try again, or failed for good. */
  datatype SendOutcome = Accepted(count: nat) | TryAgain | Broken

  /** The socket's answers, by call number. */
  type Kernel = nat -> SendOutcome

  /** Outcome of sending: whether SendMsg reports success, bytes left over, next call number. */
  datatype Transmission = Transmission(ok: bool, left: nat, at: nat)

  /** The retry loop with `left` bytes to go, from call number `at`, after `tries` calls. */
  function Transmit(kernel: Kernel, at: nat, left: nat, tries: nat): (t: Transmission)
    requires tries <= SEND_RETRY_LIMIT
    ensures t.left <= left && at <= t.at <= at + (SEND_RETRY_LIMIT - tries)
    decreases SEND_RETRY_LIMIT - tries
  {
    if left == 0 || tries == SEND_RETRY_LIMIT then Transmission(tries < SEND_RETRY_LIMIT && left == 0, left, at)
    else match kernel(at)
      case Broken => Transmission(false, left, at + 1)
      case TryAgain => Transmit(kernel, at + 1, left, tries + 1)
      case Accepted(n) => Transmit(kernel, at + 1, if n < left then left - n else 0, tries + 1)
  }

  /** One call of the loop. */
  lemma TransmitTurn(kernel: Kernel, at: nat, left: nat, tries: nat)
    requires tries <= SEND_RETRY_LIMIT
    ensures Transmit(kernel, at, left, tries)
         == if left == 0 || tries == SEND_RETRY_LIMIT then Transmission(tries < SEND_RETRY_LIMIT && left == 0, left, at)
            else match kernel(at)
              case Broken => Transmission(false, left, at + 1)
              case TryAgain => Transmit(kernel, at + 1, left, tries + 1)
              case Accepted(n) => Transmit(kernel, at + 1, if n < left then left - n else 0, tries + 1)
  {
  }

  /** Success means exactly: all bytes taken, and in fewer calls than the limit. */
  lemma {:induction false} TransmitOk(kernel: Kernel, at: nat, left: nat, tries: nat)
    requires tries <= SEND_RETRY_LIMIT
    ensures var t := Transmit(kernel, at, left, tries);
            t.ok <==> t.left == 0 && tries + (t.at - at) < SEND_RETRY_LIMIT
    decreases SEND_RETRY_LIMIT - tries
  {
    if left != 0 && tries != SEND_RETRY_LIMIT {
      match kernel(at)
      case Broken =>
      case TryAgain => TransmitOk(kernel, at + 1, left, tries + 1);
      case Accepted(n) => TransmitOk(kernel, at + 1, if n < left then left - n else 0, tries + 1);
    }
  }

  /** SendMsg(buf, size) on an open socket: what it reports and the bytes that reach the wire. */
  function SendBytes(kernel: Kernel, at: nat, buf: seq<Byte>): (r: (bool, seq<Byte>, nat))
    ensures r.1 <= buf && (r.0 ==> r.1 == buf)
  {
    if |buf| == 0 || |buf| > MAX_PACKET_BUF_SIZE then (false, [], at)
    else
      TransmitOk(kernel, at, |buf|, 0);
      var t := Transmit(kernel, at, |buf|, 0);
      (t.ok, Taken(buf, |buf| - t.left), t.at)
  }

  /** What the kernel has of the buffer once it took n bytes. */
  function Taken(buf: seq<Byte>, n: nat): (s: seq<Byte>)
    requires n <= |buf|
  {
    buf[..n]
  }

  lemma SendBytesIs(kernel: Kernel, at: nat, buf: seq<Byte>)
    ensures var t := Transmit(kernel, at, |buf|, 0);
            if |buf| == 0 || |buf| > MAX_PACKET_BUF_SIZE then SendBytes(kernel, at, buf) == (false, [], at)
            else SendBytes(kernel, at, buf) == (t.ok, Taken(buf, |buf| - t.left), t.at)
  {
  }

  lemma TakenMore(wire: seq<Byte>, buf: seq<Byte>, n: nat, count: nat)
    requires n + count <= |buf|
    ensures wire + Taken(buf, n) + buf[n..n + count] == wire + Taken(buf, n + count)
  {
    TakeMore(buf, n, count);
  }

  lemma NothingTaken(wire: seq<Byte>, buf: seq<Byte>)
    ensures wire + Taken(buf, 0) == wire
  {
  }

  function FrameAll(pkts: seq<Packet>): (s: seq<Byte>) {
    if pkts == [] then [] else Frame(pkts[0]) + FrameAll(pkts[1..])
  }

  lemma {:induction false} FrameAllAppend(a: seq<Packet>, b: seq<Packet>)
    ensures FrameAll(a + b) == FrameAll(a) + FrameAll(b)
  {
    if a == [] {
      assert a + b == b;
    } else {
      FrameAllAppend(a[1..], b);
      assert (a + b)[1..] == a[1..] + b;
      Assoc(Frame(a[0]), FrameAll(a[1..]), FrameAll(b));
    }
  }

  /** Successive SendMsg(pkt) calls: whether every one reported success, and the whole wire. */
  function SendRun(kernel: Kernel, at: nat, pkts: seq<Packet>): (r: (bool, seq<Byte>))
    decreases |pkts|
  {
    if pkts == [] then (true, [])
    else
      var one := SendBytes(kernel, at, MadeData(pkts[0]));
      var others := SendRun(kernel, one.2, pkts[1..]);
      (one.0 && others.0, one.1 + others.1)
  }

  /** When every call reported success, the wire carries the frames, all of them and nothing
      else, exactly when every payload is at most 244 bytes. */
  lemma SendRunFrames(kernel: Kernel, at: nat, pkts: seq<Packet>)
    requires SendRun(kernel, at, pkts).0
    ensures SendRun(kernel, at, pkts).1 == FrameAll(pkts) <==> forall p <- pkts :: Framable(p)
  {
    SendRunBytes(kernel, at, pkts);
  }

  lemma {:induction false} SendRunBytes(kernel: Kernel, at: nat, pkts: seq<Packet>)
    requires SendRun(kernel, at, pkts).0
    ensures var wire := SendRun(kernel, at, pkts).1;
            if forall p <- pkts :: Framable(p) then wire == FrameAll(pkts) else |wire| < |FrameAll(pkts)|
    decreases |pkts|
  {
    hide Head;
    if pkts != [] {
      SendRunBytes(kernel, SendBytes(kernel, at, MadeData(pkts[0])).2, pkts[1..]);
      if forall p <- pkts[1..] :: Framable(p) {
        assert forall p <- pkts :: p == pkts[0] || p in pkts[1..];
      }
    }
  }

  /** A send that reported success put the packet's frame on the wire exactly when the payload
      is at most 244 bytes; above that a bare head, announcing bytes that never follow, went out. */
  lemma SendOkIsFrameIffFramable(kernel: Kernel, at: nat, p: Packet)
    requires SendBytes(kernel, at, MadeData(p)).0
    ensures SendBytes(kernel, at, MadeData(p)).1 == Frame(p) <==> |p.payload| <= 244
  {
    if !Framable(p) {
      assert |SendBytes(kernel, at, MadeData(p)).1| == HEAD_SIZE;
    }
  }

  /** A socket that takes everything gets every packet's data in one call, and success is reported. */
  lemma WillingSocketGetsAll(kernel: Kernel, at: nat, p: Packet, count: nat)
    requires kernel(at) == Accepted(count) && count >= |MadeData(p)|
    ensures SendBytes(kernel, at, MadeData(p)) == (true, MadeData(p), at + 1)
  {
    var buf := MadeData(p);
    TransmitTurn(kernel, at, |buf|, 0);
    TransmitTurn(kernel, at + 1, 0, 1);
    hide Transmit, MadeData;
    SendBytesIs(kernel, at, buf);
    assert Taken(buf, |buf|) == buf;
  }

  /** A payload of 245 bytes, and a socket that takes everything: success, and a bare head. */
  lemma LongPayloadGoesOutBare() returns (kernel: Kernel, p: Packet)
    ensures |p.payload| == 245
    ensures SendBytes(kernel, 0, MadeData(p)).0 && SendBytes(kernel, 0, MadeData(p)).1 != Frame(p)
  {
    kernel, p := (n: nat) => Accepted(256), Packet(1, seq(245, i => 0));
    TransmitTurn(kernel, 0, HEAD_SIZE, 0);
    SendOkIsFrameIffFramable(kernel, 0, p);
  }

  /** All bytes of a buffer can be on the wire although SendMsg reports failure. */
  lemma FailureMayHaveSentAll()
    ensures exists kernel: Kernel, buf: seq<Byte> ::
              var r := SendBytes(kernel, 0, buf); !r.0 && r.1 == buf && buf != []
  {
    var kernel: Kernel := (n: nat) => if n < 31 then TryAgain else Accepted(1);
    WaitThenAccept(kernel, 0);
    var r := SendBytes(kernel, 0, [7]);
    assert [7 as Byte][..1] == [7];
    assert !r.0 && r.1 == [7];
  }

  lemma {:induction false} WaitThenAccept(kernel: Kernel, tries: nat)
    requires tries <= 31
    requires forall n: nat :: kernel(n) == if n < 31 then TryAgain else Accepted(1)
    ensures Transmit(kernel, tries, 1, tries) == Transmission(false, 0, 32)
    decreases 31 - tries
  {
    if tries < 31 {
      WaitThenAccept(kernel, tries + 1);
    }
  }

  class StreamSession {
    var fd: int
    const kernel: Kernel
    var sends: nat
    var wire: seq<Byte>

    constructor (descriptor: int, answers: Kernel)
      ensures fd == descriptor && kernel == answers && sends == 0 && wire == []
    {
      fd, kernel, sends, wire := descriptor, answers, 0, [];
    }

    method SendMsg(buf: seq<Byte>) returns (ok: bool)
      modifies this
      ensures fd == old(fd)
      ensures fd < 0 ==> !ok && wire == old(wire) && sends == old(sends)
      ensures fd >= 0 ==> var r := SendBytes(kernel, old(sends), buf);
                          ok == r.0 && wire == old(wire) + r.1 && sends == r.2
    {
      SendBytesIs(kernel, sends, buf);
      NothingTaken(wire, buf);
      hide Transmit, Taken, SendBytes;
      if |buf| == 0 || |buf| > MAX_PACKET_BUF_SIZE {
        return false;
      }
      if fd < 0 {
        return false;
      }
      var idx, retryCount, remSize := 0, 0, |buf|;
      ghost var goal := Transmit(kernel, sends, |buf|, 0);
      while remSize > 0 && retryCount < SEND_RETRY_LIMIT
        invariant 0 <= remSize <= |buf| && idx == |buf| - remSize && retryCount <= SEND_RETRY_LIMIT
        invariant fd == old(fd) && wire == old(wire) + Taken(buf, idx)
        invariant Transmit(kernel, sends, remSize, retryCount) == goal
        decreases SEND_RETRY_LIMIT - retryCount
      {
        TransmitTurn(kernel, sends, remSize, retryCount);
        retryCount := retryCount + 1;
        var answer := kernel(sends);
        sends := sends + 1;
        match answer
        case TryAgain => continue;
        case Broken => return false;
        case Accepted(n) =>
          var count := if n < remSize then n else remSize;
          TakenMore(old(wire), buf, idx, count);
          wire := wire + buf[idx..idx + count];
          idx := idx + count;
          remSize := remSize - count;
      }
      TransmitTurn(kernel, sends, remSize, retryCount);
      ok := !(retryCount >= SEND_RETRY_LIMIT || remSize != 0);
    }

    /** SendMsg(const NetPacket &): refuses a packet whose error status is set. */
    method SendPacket(pkt: NetPacket) returns (ok: bool)
      requires pkt.Valid()
      modifies this
      ensures fd == old(fd)
      ensures pkt.buf.ChkRWError() || fd < 0 ==> !ok && wire == old(wire) && sends == old(sends)
      ensures !pkt.buf.ChkRWError() && fd >= 0 ==>
                var r := SendBytes(kernel, old(sends), MadeData(pkt.Value()));
                ok == r.0 && wire == old(wire) + r.1 && sends == r.2
    {
      if pkt.buf.ChkRWError() {
        return false;
      }
      var buf := new StreamBuffer();
      pkt.MakeData(buf);
      ok := SendMsg(buf.szBuff[..buf.wPos]);
    }

    method Close()
      modifies this
      ensures fd == (if old(fd) >= 0 then -1 else old(fd)) && wire == old(wire) && sends == old(sends)
    {
      if fd >= 0 {
        fd := -1;
      }
    }
  }
}
