/** Packet framing: a packed 12-byte head (message id, payload size) and the payload. */
module NetPackets {
  import opened ByteCodec
  import opened StreamBuffers

  const MAX_PACKET_BUF_SIZE: nat := 256
  const HEAD_SIZE: nat := 12
  const ID_INVALID: Int32 := 0
  const ID_ACTIVE_INFO: Int32 := 1

  /** The value a NetPacket carries. */
  datatype Packet = Packet(msgId: Int32, payload: seq<Byte>)

  /** sizeof(PackHead) under `#pragma pack(1)`: an int32 and a 64-bit size_t. */
  function Head(msgId: Int32, size: nat): (s: seq<Byte>)
    ensures |s| == HEAD_SIZE
  {
    EncodeInt32(msgId) + EncodeSize(size)
  }

  function Frame(p: Packet): (s: seq<Byte>)
    ensures |s| == HEAD_SIZE + |p.payload|
  {
    Head(p.msgId, |p.payload|) + p.payload
  }

  /** The frame fits a stream buffer: the payload is at most 244 bytes. */
  predicate Framable(p: Packet) {
    HEAD_SIZE + |p.payload| <= MAX_STREAM_BUF_SIZE
  }

  /** What MakeData puts into an empty buffer. A payload that does not fit beside its head is
      left out, and the head announcing it stays. */
  function MadeData(p: Packet): (s: seq<Byte>)
    ensures HEAD_SIZE <= |s| <= MAX_STREAM_BUF_SIZE
  {
    if Framable(p) then Frame(p) else Head(p.msgId, |p.payload|)
  }

  lemma HeadFields(msgId: Int32, size: nat)
    requires size < 0x1_0000_0000_0000_0000
    ensures DecodeInt32(Head(msgId, size)[..4]) == msgId
    ensures Decode(Head(msgId, size)[4..12]) == size
  {
    Int32RoundTrip(msgId);
    SizeRoundTrip(size);
    assert Head(msgId, size)[..4] == EncodeInt32(msgId);
    assert Head(msgId, size)[4..12] == EncodeSize(size);
  }

  class NetPacket {
    const msgId: Int32
    const buf: StreamBuffer

    ghost predicate Valid()
      reads this, buf
    {
      buf.Valid()
    }

    /** The packet as a value; its payload is everything written, read or not. */
    ghost function Value(): (p: Packet)
      requires Valid()
      reads this, buf, buf.szBuff
    {
      Packet(msgId, buf.Data())
    }

    constructor (id: Int32)
      ensures Valid() && fresh(buf) && fresh(buf.szBuff)
      ensures Value() == Packet(id, []) && buf.rPos == 0 && buf.rwErrorStatus == StatusOk
    {
      msgId := id;
      buf := new StreamBuffer();
    }

    method MakeData(out: StreamBuffer)
      requires Valid() && out.Valid() && out.Data() == [] && out.rwErrorStatus == StatusOk
      requires out != buf && out.szBuff != buf.szBuff
      modifies out, out.szBuff
      ensures out.Valid() && out.Data() == MadeData(Value())
      ensures out.rwErrorStatus == if Framable(Value()) then StatusOk else StatusWrite
    {
      var ok := out.Write(Head(msgId, buf.wPos));
      if buf.wPos > 0 {
        ok := out.Write(buf.szBuff[..buf.wPos]);
      }
      assert buf.wPos == 0 ==> Frame(Value()) == Head(msgId, 0) + [];
    }

    function GetPacketLength(): (n: nat)
      requires Valid()
      reads this, buf, buf.szBuff
      ensures n == |Frame(Value())|
    {
      HEAD_SIZE + buf.wPos
    }
  }
}
