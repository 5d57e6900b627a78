/** The packet loop as a function of the unread bytes. */
module StreamSockets {
  import opened ByteCodec
  import opened NetPackets

  /** What one turn of the loop does: stop and keep some bytes, or hand a packet over. */
  datatype Turn = Stop(kept: seq<Byte>) | Took(pkt: Packet, left: seq<Byte>)

  /** What a pass over the unread bytes yields: packets handed over, bytes kept. */
  datatype Parsed = Parsed(packets: seq<Packet>, rest: seq<Byte>)

  /** A head announcing more than 256 bytes resets the buffer; an incomplete frame waits. */
  function ParseOne(bytes: seq<Byte>): (t: Turn)
    ensures t.Took? ==> |t.left| + HEAD_SIZE + |t.pkt.payload| == |bytes|
  {
    if |bytes| < HEAD_SIZE then Stop(bytes)
    else
      var size := Decode(bytes[4..12]);
      if size > MAX_PACKET_BUF_SIZE then Stop([])
      else if size > |bytes| - HEAD_SIZE then Stop(bytes)
      else Took(Packet(DecodeInt32(bytes[..4]), bytes[HEAD_SIZE..HEAD_SIZE + size]), bytes[HEAD_SIZE + size..])
  }

  function Parse(bytes: seq<Byte>): (r: Parsed)
    decreases |bytes|
  {
    match ParseOne(bytes)
    case Stop(kept) => Parsed([], kept)
    case Took(pkt, left) => var tail := Parse(left); Parsed([pkt] + tail.packets, tail.rest)
  }
}
