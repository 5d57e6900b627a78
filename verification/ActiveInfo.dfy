/** Active-info reports: the packet that carries one, the service that sends it and the
    client that receives, re-frames and decodes it. */
module ActiveInfos {
  import opened ByteCodec
  import opened Sequences
  import opened StreamBuffers
  import opened NetPackets
  import opened StreamSessions
  import opened StreamSockets

  const ONCE_PROCESS_NETPACKET_LIMIT: nat := 100

  /** The four values of a report that travel. */
  datatype ActiveInfo = ActiveInfo(pid: Int32, sensorId: Int32, samplingPeriodNs: Int64, maxReportDelayNs: Int64)

  function Payload(info: ActiveInfo): (s: seq<Byte>)
    ensures |s| == 24
  {
    EncodeInt32(info.pid) + EncodeInt32(info.sensorId)
    + EncodeInt64(info.samplingPeriodNs) + EncodeInt64(info.maxReportDelayNs)
  }

  function ToPacket(info: ActiveInfo): (p: Packet) {
    Packet(ID_ACTIVE_INFO, Payload(info))
  }

  /** What the client reports for a packet: nothing for a foreign id or a short payload. */
  function Handle(p: Packet): (r: Option<ActiveInfo>) {
    if p.msgId != ID_ACTIVE_INFO || |p.payload| < 24 then None
    else Some(ActiveInfo(DecodeInt32(p.payload[..4]), DecodeInt32(p.payload[4..8]),
                         DecodeInt64(p.payload[8..16]), DecodeInt64(p.payload[16..24])))
  }

  function Reports(p: Packet): (r: seq<ActiveInfo>) {
    if Handle(p).Some? then [Handle(p).value] else []
  }

  function HandleAll(pkts: seq<Packet>): (r: seq<ActiveInfo>) {
    if pkts == [] then [] else HandleAll(pkts[..|pkts| - 1]) + Reports(pkts[|pkts| - 1])
  }

  lemma HandleAllSnoc(pkts: seq<Packet>, p: Packet)
    ensures HandleAll(pkts + [p]) == HandleAll(pkts) + Reports(p)
  {
    assert (pkts + [p])[..|pkts|] == pkts;
  }

  /** The four values survive the packet. */
  lemma HandlePacket(info: ActiveInfo)
    ensures Handle(ToPacket(info)) == Some(info)
  {
    var a, b := EncodeInt32(info.pid), EncodeInt32(info.sensorId);
    var c, d := EncodeInt64(info.samplingPeriodNs), EncodeInt64(info.maxReportDelayNs);
    var s := a + b + c + d;
    assert s[..4] == a && s[4..8] == b && s[8..16] == c && s[16..24] == d;
    Int32RoundTrip(info.pid);
    Int32RoundTrip(info.sensorId);
    Int64RoundTrip(info.samplingPeriodNs);
    Int64RoundTrip(info.maxReportDelayNs);
  }

  /** A packet is reported as `info` exactly if it has the id of active-info packets and begins with
      the image of `info`; whatever follows is ignored. */
  lemma HandleIff(p: Packet, info: ActiveInfo)
    ensures Handle(p) == Some(info) <==> p.msgId == 1 && |p.payload| >= 24 && p.payload[..24] == Payload(info)
  {
    var s := p.payload;
    if |s| >= 24 {
      var a, b, c, d := s[..4], s[4..8], s[8..16], s[16..24];
      assert s[..24] == a + b + c + d;
      SignedEncodeDecode(a);
      SignedEncodeDecode(b);
      SignedEncodeDecode(c);
      SignedEncodeDecode(d);
      if s[..24] == Payload(info) {
        HandlePacket(info);
        var q := s[..24];
        assert q[..4] == a && q[4..8] == b && q[8..16] == c && q[16..24] == d;
      }
    }
  }

  /** The session was offered the frame, unless it is closed: then nothing happened to it. */
  twostate predicate Offered(s: StreamSession, frame: seq<Byte>)
    reads s
  {
    s.fd == old(s.fd) &&
    if s.fd < 0 then s.wire == old(s.wire) && s.sends == old(s.sends)
    else
      var r := SendBytes(s.kernel, old(s.sends), frame);
      s.wire == old(s.wire) + r.1 && s.sends == r.2
  }

  /** SensorPowerPolicy::ReportActiveInfo: one packet, offered to every session in turn. */
  method ReportActiveInfo(info: ActiveInfo, sessionList: seq<StreamSession>)
    requires forall i, j :: 0 <= i < j < |sessionList| ==> sessionList[i] != sessionList[j]
    modifies sessionList
    ensures if info.pid < 0 || info.sensorId < 0 then forall s <- sessionList :: unchanged(s)
            else forall k :: 0 <= k < |sessionList| ==> Offered(sessionList[k], Frame(ToPacket(info)))
  {
    hide Frame, SendBytes, Payload;
    if info.pid < 0 || info.sensorId < 0 {
      return;
    }
    var pkt := new NetPacket(ID_ACTIVE_INFO);
    WritePayload(pkt, info);
    for i := 0 to |sessionList|
      invariant pkt.Valid() && pkt.Value() == ToPacket(info) && !pkt.buf.ChkRWError()
      invariant forall k :: i <= k < |sessionList| ==> unchanged(sessionList[k])
      invariant forall k :: 0 <= k < i ==> Offered(sessionList[k], Frame(ToPacket(info)))
    {
      OfferTo(pkt, info, sessionList[i]);
    }
  }

  method OfferTo(pkt: NetPacket, ghost info: ActiveInfo, sess: StreamSession)
    requires pkt.Valid() && pkt.Value() == ToPacket(info) && !pkt.buf.ChkRWError()
    modifies sess
    ensures Offered(sess, Frame(ToPacket(info)))
  {
    var ok := sess.SendPacket(pkt);
  }

  method WritePayload(pkt: NetPacket, info: ActiveInfo)
    requires pkt.Valid() && pkt.buf.Data() == [] && pkt.buf.rwErrorStatus == StatusOk
    modifies pkt.buf, pkt.buf.szBuff
    ensures pkt.Valid() && pkt.Value() == Packet(pkt.msgId, Payload(info)) && pkt.buf.rwErrorStatus == StatusOk
  {
    var ok := pkt.buf.Write(EncodeInt32(info.pid));
    ok := pkt.buf.Write(EncodeInt32(info.sensorId));
    ok := pkt.buf.Write(EncodeInt64(info.samplingPeriodNs));
    ok := pkt.buf.Write(EncodeInt64(info.maxReportDelayNs));
    assert [] + EncodeInt32(info.pid) == EncodeInt32(info.pid);
  }

  lemma PayloadFields(s: seq<Byte>)
    requires |s| >= 24
    ensures s[4..][..4] == s[4..8] && s[4..][4..] == s[8..]
    ensures s[8..][..8] == s[8..16] && s[8..][8..] == s[16..] && s[16..][..8] == s[16..24]
  {
  }

  /** `pkt >> pid >> sensorId >> samplingPeriodNs >> maxReportDelayNs`: the first failing read
      leaves the error status set, and the later ones fail on it. */
  method ReadReport(buf: StreamBuffer) returns (info: ActiveInfo)
    requires buf.Valid() && buf.rwErrorStatus == StatusOk
    modifies buf
    ensures buf.Valid() && buf.Data() == old(buf.Data())
    ensures buf.ChkRWError() <==> old(|buf.Unread()|) < 24
    ensures !buf.ChkRWError() ==> Handle(Packet(ID_ACTIVE_INFO, old(buf.Unread()))) == Some(info)
  {
    ghost var s := buf.Unread();
    if |s| >= 24 {
      PayloadFields(s);
    }
    var ok1, pid := buf.ReadInt32();
    var ok2, sensorId := buf.ReadInt32();
    var ok3, samplingPeriodNs := buf.ReadInt64();
    var ok4, maxReportDelayNs := buf.ReadInt64();
    info := ActiveInfo(pid, sensorId, samplingPeriodNs, maxReportDelayNs);
  }

  /** The receiving client: a stream socket with its buffer. `received` and `reported` record
      what the packet callback and the active-info callbacks were given. */
  class SensorServiceClient {
    const circBuf: StreamBuffer
    var received: seq<Packet>
    var reported: seq<ActiveInfo>

    ghost predicate Valid()
      reads this, circBuf
    {
      circBuf.Valid() && circBuf.rwErrorStatus == StatusOk
    }

    constructor ()
      ensures Valid() && fresh(circBuf) && fresh(circBuf.szBuff)
      ensures circBuf.Unread() == [] && received == [] && reported == []
    {
      circBuf := new StreamBuffer();
      received, reported := [], [];
    }

    /** One read from the socket: at most 256 bytes; a chunk that does not fit is dropped
        whole, and the packet loop runs all the same. */
    method ReceiveMessage(buf: seq<Byte>)
      requires Valid()
      modifies this, circBuf, circBuf.szBuff
      ensures Valid()
      ensures var r := Receive(old(circBuf.Unread()), buf);
              circBuf.Unread() == r.rest && received == old(received) + r.packets
              && reported == old(reported) + HandleAll(r.packets)
    {
      if |buf| == 0 || |buf| > MAX_PACKET_BUF_SIZE {
        return;
      }
      var ok := circBuf.CircleWrite(buf);
      OnReadPackets();
    }

    /** The packet loop, in place and capped at 100 packets per call. */
    method OnReadPackets()
      requires Valid()
      modifies this, circBuf
      ensures Valid()
      ensures var r := Parse(old(circBuf.Unread()));
              circBuf.Unread() == r.rest && received == old(received) + r.packets
              && reported == old(reported) + HandleAll(r.packets)
    {
      ghost var goal := Parse(circBuf.Unread());
      ghost var done: seq<Packet> := [];
      for i := 0 to ONCE_PROCESS_NETPACKET_LIMIT
        invariant Valid() && |circBuf.Unread()| + HEAD_SIZE * i <= MAX_STREAM_BUF_SIZE
        invariant goal.packets == done + Parse(circBuf.Unread()).packets
        invariant goal.rest == Parse(circBuf.Unread()).rest
        invariant received == old(received) + done && reported == old(reported) + HandleAll(done)
      {
        ghost var turn := ParseOne(circBuf.Unread());
        var more := OnReadPacket();
        if turn.Took? {
          Assoc(done, [turn.pkt], Parse(turn.left).packets);
          Assoc(old(received), done, [turn.pkt]);
          Assoc(old(reported), HandleAll(done), Reports(turn.pkt));
          HandleAllSnoc(done, turn.pkt);
          done := done + [turn.pkt];
        }
        if !more {
          assert goal.packets == done && goal.rest == circBuf.Unread();
          break;
        }
      }
    }

    /** One turn of the packet loop; false when the loop is to break. */
    method OnReadPacket() returns (more: bool)
      requires Valid()
      modifies this, circBuf
      ensures Valid()
      ensures match ParseOne(old(circBuf.Unread()))
              case Stop(kept) => !more && circBuf.Unread() == kept && received == old(received)
                  && reported == old(reported)
              case Took(pkt, left) => (more == (left != []) && circBuf.Unread() == left
                && received == old(received) + [pkt] && reported == old(reported) + Reports(pkt))
    {
      hide Decode, DecodeInt32, Reports;
      var unreadSize := circBuf.UnreadSize();
      var bytes := circBuf.szBuff[circBuf.rPos..circBuf.wPos];
      ghost var turn := ParseOne(bytes);
      if unreadSize < HEAD_SIZE {
        return false;
      }
      var dataSize := unreadSize - HEAD_SIZE;
      var size := Decode(bytes[4..12]);
      if size > MAX_PACKET_BUF_SIZE {
        circBuf.Reset();
        return false;
      }
      if size > dataSize {
        return false;
      }
      var pkt := CopyPacket(bytes, size);
      var moved := circBuf.SeekReadPos(pkt.GetPacketLength());
      assert circBuf.Unread() == turn.left;
      HandleNetPacke(pkt);
      assert circBuf.Unread() == turn.left;
      if circBuf.IsEmpty() {
        assert turn.left == [];
        circBuf.Reset();
        return false;
      }
      more := true;
    }

    /** `NetPacket pkt(head->idMsg)` filled with the payload behind the head. */
    static method CopyPacket(bytes: seq<Byte>, size: nat) returns (pkt: NetPacket)
      requires |bytes| >= HEAD_SIZE && size == Decode(bytes[4..12]) && size <= |bytes| - HEAD_SIZE
               && size <= MAX_PACKET_BUF_SIZE
      ensures fresh(pkt) && fresh(pkt.buf) && fresh(pkt.buf.szBuff) && pkt.Valid()
      ensures pkt.buf.rPos == 0 && pkt.buf.rwErrorStatus == StatusOk
      ensures ParseOne(bytes) == Took(pkt.Value(), bytes[HEAD_SIZE + size..])
    {
      hide Decode, DecodeInt32;
      pkt := new NetPacket(DecodeInt32(bytes[..4]));
      if size > 0 {
        var written := pkt.buf.Write(bytes[HEAD_SIZE..HEAD_SIZE + size]);
      }
      assert pkt.buf.Data() == bytes[HEAD_SIZE..HEAD_SIZE + size];
    }

    /** The packet callback: decodes the four values and reports them. */
    method HandleNetPacke(pkt: NetPacket)
      requires Valid() && pkt.Valid() && pkt.buf != circBuf
      requires pkt.buf.rPos == 0 && pkt.buf.rwErrorStatus == StatusOk
      modifies this, pkt.buf
      ensures Valid() && circBuf.Unread() == old(circBuf.Unread())
      ensures received == old(received) + [old(pkt.Value())]
      ensures reported == old(reported) + Reports(old(pkt.Value()))
    {
      received := received + [Packet(pkt.msgId, pkt.buf.szBuff[..pkt.buf.wPos])];
      if pkt.msgId != ID_ACTIVE_INFO {
        return;
      }
      assert pkt.buf.Unread() == pkt.buf.Data();
      var info := ReadReport(pkt.buf);
      if pkt.buf.ChkRWError() {
        return;
      }
      reported := reported + [info];
    }
  }

  /** The effect of one read on the unread bytes `unread`. */
  function Receive(unread: seq<Byte>, chunk: seq<Byte>): (r: Parsed) {
    if |chunk| == 0 || |chunk| > MAX_PACKET_BUF_SIZE then Parsed([], unread)
    else if |unread| + |chunk| <= MAX_STREAM_BUF_SIZE then Parse(unread + chunk)
    else Parse(unread)
  }
}
