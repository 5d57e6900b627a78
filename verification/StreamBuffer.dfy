/** The typed byte buffer of utils/ipc and its compacting variant. One class holds both:
    `Circle*` members are those that CircleStreamBuffer overrides or adds. */
module StreamBuffers {
  import opened ByteCodec
  import opened Sequences

  const MAX_STREAM_BUF_SIZE: nat := 256
  const MAX_VECTOR_SIZE: nat := 10

  datatype ErrorStatus = StatusOk | StatusRead | StatusWrite

  /** The image of a vector's elements, `width` bytes each. */
  function EncodeAll(items: seq<int>, width: nat): (s: seq<Byte>)
    requires forall v <- items :: Representable(v, width)
  {
    if items == [] then [] else EncodeSigned(items[0], width) + EncodeAll(items[1..], width)
  }

  /** A vector on the wire: its element count as a 64-bit word, then the elements. */
  function EncodeVector(items: seq<int>, width: nat): (s: seq<Byte>)
    requires forall v <- items :: Representable(v, width)
  {
    EncodeSize(|items|) + EncodeAll(items, width)
  }

  /** What reading a vector gives: success, the elements read, the bytes left, and whether a read
      ran out of bytes. */
  datatype VectorRead = VectorRead(ok: bool, items: seq<int>, rest: seq<Byte>, short: bool)

  function TakeItems(s: seq<Byte>, width: nat, count: nat): (r: VectorRead)
    requires width > 0
  {
    if count == 0 then VectorRead(true, [], s, false)
    else if |s| < width then VectorRead(false, [], s, true)
    else
      var r := TakeItems(s[width..], width, count - 1);
      r.(items := [DecodeSigned(s[..width])] + r.items)
  }

  /** A count above MAX_VECTOR_SIZE is refused, after consuming it and without an error status. */
  function ParseVector(s: seq<Byte>, width: nat): (r: VectorRead)
    requires width > 0
  {
    if |s| < 8 then VectorRead(false, [], s, true)
    else if Decode(s[..8]) > MAX_VECTOR_SIZE then VectorRead(false, [], s[8..], false)
    else TakeItems(s[8..], width, Decode(s[..8]))
  }

  lemma TakeItemsTurn(s: seq<Byte>, width: nat, count: nat)
    requires width > 0
    ensures TakeItems(s, width, count)
         == if count == 0 then VectorRead(true, [], s, false)
            else if |s| < width then VectorRead(false, [], s, true)
            else var r := TakeItems(s[width..], width, count - 1); r.(items := [DecodeSigned(s[..width])] + r.items)
  {
  }

  lemma {:induction false} TakeItemsBack(items: seq<int>, width: nat, rest: seq<Byte>)
    requires width > 0 && forall v <- items :: Representable(v, width)
    ensures TakeItems(EncodeAll(items, width) + rest, width, |items|) == VectorRead(true, items, rest, false)
  {
    if items == [] {
      assert EncodeAll(items, width) + rest == rest;
    } else {
      var head, tail := items[0], items[1..];
      assert items == [head] + tail && head in items;
      var s := EncodeAll(items, width) + rest;
      Assoc(EncodeSigned(head, width), EncodeAll(tail, width), rest);
      SplitUnique(s[..width], s[width..], EncodeSigned(head, width), EncodeAll(tail, width) + rest);
      SignedRoundTrip(head, width);
      TakeItemsBack(tail, width, rest);
    }
  }

  /** Reading a written vector gives it back, exactly if it has at most MAX_VECTOR_SIZE elements. */
  lemma VectorRoundTrip(items: seq<int>, width: nat, rest: seq<Byte>)
    requires width > 0 && |items| <= 0x7FFF_FFFF && forall v <- items :: Representable(v, width)
    ensures ParseVector(EncodeVector(items, width) + rest, width)
         == if |items| <= MAX_VECTOR_SIZE then VectorRead(true, items, rest, false)
            else VectorRead(false, [], EncodeAll(items, width) + rest, false)
  {
    var s := EncodeVector(items, width) + rest;
    Assoc(EncodeSize(|items|), EncodeAll(items, width), rest);
    SplitUnique(s[..8], s[8..], EncodeSize(|items|), EncodeAll(items, width) + rest);
    SizeRoundTrip(|items|);
    TakeItemsBack(items, width, rest);
  }

  lemma {:induction false} TakeItemsCut(items: seq<int>, width: nat, cut: seq<Byte>, count: nat)
    requires |cut| < width && |items| < count && forall v <- items :: Representable(v, width)
    ensures TakeItems(EncodeAll(items, width) + cut, width, count) == VectorRead(false, items, cut, true)
  {
    if items == [] {
      assert EncodeAll(items, width) + cut == cut;
    } else {
      var head, tail := items[0], items[1..];
      assert items == [head] + tail && head in items;
      var s := EncodeAll(items, width) + cut;
      Assoc(EncodeSigned(head, width), EncodeAll(tail, width), cut);
      SplitUnique(s[..width], s[width..], EncodeSigned(head, width), EncodeAll(tail, width) + cut);
      SignedRoundTrip(head, width);
      TakeItemsCut(tail, width, cut, count - 1);
    }
  }

  /** A vector cut short gives its whole elements and the read error; a count above ten is refused
      first, and a cut count gives nothing. */
  lemma CutVector(count: nat, items: seq<int>, width: nat, cut: seq<Byte>)
    requires count < 0x1_0000_0000_0000_0000 && |cut| < width && |items| < count
    requires forall v <- items :: Representable(v, width)
    ensures ParseVector(EncodeSize(count) + (EncodeAll(items, width) + cut), width)
         == if count > 10 then VectorRead(false, [], EncodeAll(items, width) + cut, false)
            else VectorRead(false, items, cut, true)
    ensures |cut| < 8 ==> ParseVector(cut, width) == VectorRead(false, [], cut, true)
  {
    var tail := EncodeAll(items, width) + cut;
    var s := EncodeSize(count) + tail;
    SplitUnique(s[..8], s[8..], EncodeSize(count), tail);
    SizeRoundTrip(count);
    TakeItemsCut(items, width, cut, count);
  }

  class StreamBuffer {
    var rwErrorStatus: ErrorStatus
    var rCount: nat
    var wCount: nat
    var rPos: nat
    var wPos: nat
    const szBuff: array<Byte>

    ghost predicate Valid()
      reads this
    {
      szBuff.Length == MAX_STREAM_BUF_SIZE + 1 && rPos <= wPos <= MAX_STREAM_BUF_SIZE
    }

    /** Everything written since the last reset. */
    ghost function Data(): (s: seq<Byte>)
      requires Valid()
      reads this, szBuff
    {
      szBuff[..wPos]
    }

    /** The bytes written and not read yet. */
    ghost function Unread(): (s: seq<Byte>)
      requires Valid()
      reads this, szBuff
    {
      szBuff[rPos..wPos]
    }

    constructor ()
      ensures Valid() && fresh(szBuff)
      ensures Data() == [] && rPos == 0 && rwErrorStatus == StatusOk
    {
      rwErrorStatus := StatusOk;
      rCount, wCount, rPos, wPos := 0, 0, 0, 0;
      szBuff := new Byte[MAX_STREAM_BUF_SIZE + 1](_ => 0);
    }

    method Reset()
      requires Valid()
      modifies this
      ensures Valid() && Data() == [] && Unread() == []
      ensures rwErrorStatus == StatusOk && wPos == 0
    {
      rPos, wPos, rCount, wCount := 0, 0, 0, 0;
      rwErrorStatus := StatusOk;
    }

    predicate ChkRWError()
      reads this
    {
      rwErrorStatus != StatusOk
    }

    predicate IsEmpty()
      reads this
    {
      rPos == wPos
    }

    function UnreadSize(): (n: nat)
      requires Valid()
      reads this, szBuff
      ensures n == |Unread()|
    {
      if wPos <= rPos then 0 else wPos - rPos
    }

    function GetAvailableBufSize(): (n: nat)
      requires Valid()
      reads this, szBuff
      ensures n == MAX_STREAM_BUF_SIZE - |Data()|
    {
      if wPos >= MAX_STREAM_BUF_SIZE then 0 else MAX_STREAM_BUF_SIZE - wPos
    }

    /** Takes `size` unread bytes, all or nothing; a failure sticks in the error status. */
    method Read(size: nat) returns (ok: bool, bytes: seq<Byte>)
      requires Valid()
      modifies this
      ensures Valid() && Data() == old(Data())
      ensures ok <==> old(rwErrorStatus) == StatusOk && 0 < size <= old(|Unread()|)
      ensures ok ==> old(Unread()) == bytes + Unread() && |bytes| == size && rwErrorStatus == StatusOk
      ensures !ok ==> Unread() == old(Unread()) && bytes == []
      ensures !ok ==> rwErrorStatus == if old(rwErrorStatus) == StatusOk then StatusRead else old(rwErrorStatus)
    {
      bytes := [];
      if ChkRWError() {
        return false, [];
      }
      if size == 0 || rPos + size > wPos {
        rwErrorStatus := StatusRead;
        return false, [];
      }
      bytes := szBuff[rPos..rPos + size];
      rPos := rPos + size;
      rCount := rCount + 1;
      ok := true;
    }

    /** Appends the bytes, all or nothing; a failure sticks in the error status. */
    method Write(bytes: seq<Byte>) returns (ok: bool)
      requires Valid()
      modifies this, szBuff
      ensures Valid() && rPos == old(rPos)
      ensures ok <==> old(rwErrorStatus) == StatusOk && 0 < |bytes| <= MAX_STREAM_BUF_SIZE - old(|Data()|)
      ensures Data() == if ok then old(Data()) + bytes else old(Data())
      ensures Unread() == if ok then old(Unread()) + bytes else old(Unread())
      ensures rwErrorStatus == if ok then StatusOk
                               else if old(rwErrorStatus) == StatusOk then StatusWrite else old(rwErrorStatus)
    {
      if ChkRWError() {
        return false;
      }
      if |bytes| == 0 || wPos + |bytes| > MAX_STREAM_BUF_SIZE {
        rwErrorStatus := StatusWrite;
        return false;
      }
      forall i | 0 <= i < |bytes| {
        szBuff[wPos + i] := bytes[i];
      }
      wPos := wPos + |bytes|;
      wCount := wCount + 1;
      ok := true;
    }

    method SeekReadPos(n: nat) returns (ok: bool)
      requires Valid()
      modifies this
      ensures Valid() && rwErrorStatus == old(rwErrorStatus)
      ensures ok <==> n <= old(|Unread()|)
      ensures Unread() == if ok then old(Unread())[n..] else old(Unread())
    {
      var pos := rPos + n;
      if pos > wPos {
        return false;
      }
      rPos := pos;
      ok := true;
    }

    /** Copies everything `other` holds, its read bytes included. An empty source leaves this
        buffer in the write-error state, because a zero-length write is an error. */
    method Clone(other: StreamBuffer)
      requires Valid() && other.Valid() && other != this && other.szBuff != szBuff
      modifies this, szBuff
      ensures Valid() && Data() == other.Data() && Unread() == other.Data()
      ensures rwErrorStatus == if other.Data() == [] then StatusWrite else StatusOk
    {
      Reset();
      var ok := Write(other.szBuff[..other.wPos]);
    }

    /** The template `Read(T &)` for a signed field of `width` bytes. */
    method ReadSigned(width: nat) returns (ok: bool, v: int)
      requires Valid()
      modifies this
      ensures Valid() && Data() == old(Data())
      ensures ok <==> old(rwErrorStatus) == StatusOk && 0 < width <= old(|Unread()|)
      ensures ok ==> v == DecodeSigned(old(Unread())[..width]) && Unread() == old(Unread())[width..]
      ensures ok ==> rwErrorStatus == StatusOk
      ensures !ok ==> Unread() == old(Unread())
      ensures !ok ==> rwErrorStatus == if old(rwErrorStatus) == StatusOk then StatusRead else old(rwErrorStatus)
    {
      var bytes;
      ok, bytes := Read(width);
      v := DecodeSigned(bytes);
    }

    /** The template `Write(const T &)` for a signed field of `width` bytes. */
    method WriteSigned(v: int, width: nat) returns (ok: bool)
      requires Valid() && Representable(v, width)
      modifies this, szBuff
      ensures Valid() && rPos == old(rPos)
      ensures ok <==> old(rwErrorStatus) == StatusOk && 0 < width <= MAX_STREAM_BUF_SIZE - old(|Data()|)
      ensures Data() == if ok then old(Data()) + EncodeSigned(v, width) else old(Data())
      ensures Unread() == if ok then old(Unread()) + EncodeSigned(v, width) else old(Unread())
      ensures rwErrorStatus == if ok then StatusOk
                               else if old(rwErrorStatus) == StatusOk then StatusWrite else old(rwErrorStatus)
    {
      ok := Write(EncodeSigned(v, width));
    }

    method ReadInt32() returns (ok: bool, v: Int32)
      requires Valid()
      modifies this
      ensures Valid() && Data() == old(Data())
      ensures ok <==> old(rwErrorStatus) == StatusOk && 4 <= old(|Unread()|)
      ensures ok ==> v == DecodeInt32(old(Unread())[..4]) && Unread() == old(Unread())[4..]
      ensures ok ==> rwErrorStatus == StatusOk
      ensures !ok ==> Unread() == old(Unread())
      ensures !ok ==> rwErrorStatus == if old(rwErrorStatus) == StatusOk then StatusRead else old(rwErrorStatus)
    {
      MachineWidths();
      var w;
      ok, w := ReadSigned(4);
      v := if ok then w else 0;
    }

    method ReadInt64() returns (ok: bool, v: Int64)
      requires Valid()
      modifies this
      ensures Valid() && Data() == old(Data())
      ensures ok <==> old(rwErrorStatus) == StatusOk && 8 <= old(|Unread()|)
      ensures ok ==> v == DecodeInt64(old(Unread())[..8]) && Unread() == old(Unread())[8..]
      ensures ok ==> rwErrorStatus == StatusOk
      ensures !ok ==> Unread() == old(Unread())
      ensures !ok ==> rwErrorStatus == if old(rwErrorStatus) == StatusOk then StatusRead else old(rwErrorStatus)
    {
      MachineWidths();
      var w;
      ok, w := ReadSigned(8);
      v := if ok then w else 0;
    }

    /** The template `Write(const std::vector<T> &)`. A vector that does not fit is cut short. */
    method WriteVector(items: seq<int>, width: nat) returns (ok: bool)
      requires Valid() && width > 0 && forall v <- items :: Representable(v, width)
      modifies this, szBuff
      ensures Valid() && rPos == old(rPos)
      ensures ok <==> old(rwErrorStatus) == StatusOk && |items| <= 0x7FFF_FFFF
                      && old(|Data()|) + |EncodeVector(items, width)| <= MAX_STREAM_BUF_SIZE
      ensures ok ==> rwErrorStatus == StatusOk && Unread() == old(Unread()) + EncodeVector(items, width)
      ensures old(Unread()) <= Unread() <= old(Unread()) + EncodeVector(items, width)
      ensures !ok ==> rwErrorStatus == if old(rwErrorStatus) == StatusOk && |items| <= 0x7FFF_FFFF then StatusWrite
                                       else old(rwErrorStatus)
    {
      if |items| > 0x7FFF_FFFF {
        return false;
      }
      ok := Write(EncodeSize(|items|));
      if !ok {
        return false;
      }
      ghost var goal, left := old(Unread()) + EncodeVector(items, width), items;
      Assoc(old(Unread()), EncodeSize(|items|), EncodeAll(items, width));
      for i := 0 to |items|
        invariant Valid() && rPos == old(rPos) && rwErrorStatus == StatusOk
        invariant left == items[i..] && Unread() + EncodeAll(left, width) == goal && old(Unread()) <= Unread()
      {
        DropOne(items, i);
        ghost var before := Unread();
        ok := WriteSigned(items[i], width);
        Assoc(before, EncodeSigned(items[i], width), EncodeAll(left[1..], width));
        if !ok {
          assert |goal| == |before| + width + |EncodeAll(left[1..], width)|;
          return false;
        }
        left := left[1..];
      }
      ok := true;
    }

    /** The template `Read(std::vector<T> &)`. */
    method ReadVector(width: nat) returns (ok: bool, items: seq<int>)
      requires Valid() && width > 0
      modifies this
      ensures Valid() && Data() == old(Data())
      ensures old(rwErrorStatus) != StatusOk ==>
                !ok && items == [] && Unread() == old(Unread()) && rwErrorStatus == old(rwErrorStatus)
      ensures old(rwErrorStatus) == StatusOk ==>
                var r := ParseVector(old(Unread()), width);
                ok == r.ok && items == r.items && Unread() == r.rest
                && rwErrorStatus == if r.short then StatusRead else StatusOk
    {
      items := [];
      var bytes;
      ok, bytes := Read(8);
      if !ok {
        return;
      }
      assert bytes == old(Unread())[..8] && Unread() == old(Unread())[8..];
      var size := Decode(bytes);
      if size > MAX_VECTOR_SIZE {
        return false, [];
      }
      ok, items := ReadItems(width, size);
    }

    /** Its loop. */
    method ReadItems(width: nat, count: nat) returns (ok: bool, items: seq<int>)
      requires Valid() && width > 0 && rwErrorStatus == StatusOk
      modifies this
      ensures Valid() && Data() == old(Data())
      ensures var r := TakeItems(old(Unread()), width, count);
              ok == r.ok && items == r.items && Unread() == r.rest
              && rwErrorStatus == if r.short then StatusRead else StatusOk
    {
      hide TakeItems;
      items := [];
      ghost var goal := TakeItems(Unread(), width, count);
      assert [] + goal.items == goal.items;
      for i := 0 to count
        invariant Valid() && rwErrorStatus == StatusOk && Data() == old(Data())
        invariant var r := TakeItems(Unread(), width, count - i);
                  goal.items == items + r.items && goal == r.(items := goal.items)
      {
        ghost var s := Unread();
        TakeItemsTurn(s, width, count - i);
        var v;
        ok, v := ReadSigned(width);
        if !ok {
          assert items + [] == items;
          return;
        }
        Assoc(items, [v], TakeItems(s[width..], width, count - i - 1).items);
        items := items + [v];
      }
      TakeItemsTurn(Unread(), width, 0);
      assert items + [] == items;
      ok := true;
    }

    /** Slides the unread bytes to the front, in place. The source range `rPos..wPos` is
        inclusive, so the array needs its 257th cell. */
    method CopyDataToBegin()
      requires Valid()
      modifies this, szBuff
      ensures Valid() && rPos == 0
      ensures Unread() == old(Unread()) && Data() == old(Unread())
      ensures rwErrorStatus == old(rwErrorStatus)
    {
      var unreadSize := UnreadSize();
      if unreadSize > 0 && rPos > 0 {
        var pos := 0;
        var i := rPos;
        while i <= wPos
          invariant rPos <= i <= wPos + 1 && pos == i - rPos
          invariant forall k :: 0 <= k < pos ==> szBuff[k] == old(szBuff[rPos + k])
          invariant forall k :: pos <= k < szBuff.Length ==> szBuff[k] == old(szBuff[k])
          modifies szBuff
        {
          szBuff[pos] := szBuff[i];
          pos, i := pos + 1, i + 1;
        }
      }
      rPos := 0;
      wPos := unreadSize;
    }

    /** Whether `size` bytes fit beside the unread ones; compacts when they do not fit as is. */
    method CheckWrite(size: nat) returns (fits: bool)
      requires Valid()
      modifies this, szBuff
      ensures Valid() && Unread() == old(Unread()) && rwErrorStatus == old(rwErrorStatus)
      ensures fits <==> |Unread()| + size <= MAX_STREAM_BUF_SIZE
      ensures fits ==> size <= MAX_STREAM_BUF_SIZE - |Data()|
    {
      var availSize := GetAvailableBufSize();
      if size > availSize && rPos > 0 {
        CopyDataToBegin();
        availSize := GetAvailableBufSize();
      }
      fits := availSize >= size;
    }

    /** CircleStreamBuffer::Write. An overflow drops the bytes whole and is not sticky. */
    method CircleWrite(bytes: seq<Byte>) returns (ok: bool)
      requires Valid()
      modifies this, szBuff
      ensures Valid()
      ensures ok <==> old(rwErrorStatus) == StatusOk && 0 < |bytes| && old(|Unread()|) + |bytes| <= MAX_STREAM_BUF_SIZE
      ensures Unread() == if ok then old(Unread()) + bytes else old(Unread())
      ensures old(rwErrorStatus) == StatusOk && bytes != [] ==> rwErrorStatus == StatusOk
    {
      var fits := CheckWrite(|bytes|);
      if !fits {
        return false;
      }
      ok := Write(bytes);
    }
  }
}
