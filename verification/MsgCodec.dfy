/** The bytes of a ring element: `write_msg` lays out the `msg_t` header, `read_header` takes
    it apart again. */
module MsgCodec {
  import opened RingWords
  import opened Framing

  /** Header bytes up to the payload: sender, id, remain, and the storage flag. */
  const HEADER: nat := 13
  const I32_MIN: int := -0x8000_0000

  type U32Value = n: nat | n < U32

  /** `to_ne_bytes` on a little-endian machine. */
  function ToBytes(n: U32Value): (r: Bytes)
    ensures |r| == 4
  {
    var a, b := n / 256, n / 256 / 256;
    [n % 256, a % 256, b % 256, b / 256]
  }

  function FromBytes(b: Bytes): (n: U32Value)
    requires |b| == 4
  {
    b[0] as int + 256 * (b[1] as int + 256 * (b[2] as int + 256 * (b[3] as int)))
  }

  lemma BytesRoundTrip(n: U32Value)
    ensures FromBytes(ToBytes(n)) == n
  {
  }

  /** The bits of an i32 as a u32, and back. */
  function Unsigned(i: int): (n: U32Value)
    requires I32_MIN <= i <= I32_MAX
  {
    if i < 0 then i + U32 else i
  }

  function Signed(n: U32Value): (i: int)
    ensures I32_MIN <= i <= I32_MAX
  {
    if n > I32_MAX then n - U32 else n
  }

  /** What the fields of the header can hold. */
  predicate Fits(e: Element) {
    e.cc < U32 && e.id < U32 && I32_MIN <= e.remain <= I32_MAX
  }

  /** `write_msg`. */
  function Encode(e: Element): (f: Fragment)
    requires Fits(e)
    ensures |f.header| == HEADER
  {
    var flag := if e.storage then 1 else 0;
    Fragment(ToBytes(e.cc) + ToBytes(e.id) + ToBytes(Unsigned(e.remain)) + [flag], e.payload)
  }

  /** `read_header` and `read_payload`. */
  function Decode(f: Fragment): (e: Element)
    requires |f.header| == HEADER
  {
    var h := f.header;
    Element(FromBytes(h[0..4]), FromBytes(h[4..8]), Signed(FromBytes(h[8..12])), h[12] != 0, f.payload)
  }

  /** Byte number `i` of a 32-bit word, lowest first. */
  function ByteAt(n: U32Value, i: nat): Byte
    requires i < 4
  {
    (if i == 0 then n else if i == 1 then n / 0x100 else if i == 2 then n / 0x1_0000 else n / 0x100_0000) % 0x100
  }

  lemma ToBytesAt(n: U32Value, i: nat)
    requires i < 4
    ensures ToBytes(n)[i] == ByteAt(n, i)
  {
  }

  /** The layout of the header: sender at 0, id at 4, the remaining count in two's complement
      at 8, each lowest byte first, and at 12 the storage flag, which is 0 for an inline
      fragment. */
  lemma Layout(e: Element, i: nat)
    requires Fits(e) && i < 4
    ensures var h := Encode(e).header;
            && h[i] == ByteAt(e.cc, i) && h[4 + i] == ByteAt(e.id, i) && h[8 + i] == ByteAt(e.remain % U32, i)
            && h[12] == (if e.storage then 1 else 0)
    ensures Encode(e).payload == e.payload
  {
    assert Unsigned(e.remain) == e.remain % U32;
    ToBytesAt(e.cc, i);
    ToBytesAt(e.id, i);
    ToBytesAt(Unsigned(e.remain), i);
  }

  /** Every element that fits survives the trip through the slot's bytes. */
  lemma CodecRoundTrip(e: Element)
    requires Fits(e)
    ensures Decode(Encode(e)) == e
  {
    var h := Encode(e).header;
    assert h[0..4] == ToBytes(e.cc) && h[4..8] == ToBytes(e.id) && h[8..12] == ToBytes(Unsigned(e.remain));
    BytesRoundTrip(e.cc);
    BytesRoundTrip(e.id);
    BytesRoundTrip(Unsigned(e.remain));
  }

  /** `read_storage_id`. */
  function StorageId(b: Bytes): int
    requires |b| == 4
  {
    Signed(FromBytes(b))
  }

  /** The element that announces a message of `size` bytes in chunk `sid`. */
  function Announce(cc: U32Value, id: U32Value, size: nat, sid: int, area: Bytes): (e: Element)
    requires size <= I32_MAX && I32_MIN <= sid <= I32_MAX && |area| == DATA_LENGTH
    ensures Fits(e) && |e.payload| == DATA_LENGTH
  {
    Element(cc, id, size - DATA_LENGTH, true, ToBytes(Unsigned(sid)) + area[4..])
  }

  /** A large message: another endpoint that reads the element goes to the announced chunk for
      exactly the announced bytes, whatever it has cached. */
  lemma AnnouncedChunk(me: nat, cache: Cache, cc: U32Value, id: U32Value, size: nat, sid: int, area: Bytes)
    requires 0 < size <= I32_MAX && I32_MIN <= sid <= I32_MAX && |area| == DATA_LENGTH && cc != me
    ensures var e := Decode(Encode(Announce(cc, id, size, sid, area)));
            && |e.payload| == DATA_LENGTH
            && var (cache', out) := Receive(me, cache, e);
               cache' == cache && out.Chunk? && |out.sid| == 4 && StorageId(out.sid) == sid && out.size == size
  {
    var e := Announce(cc, id, size, sid, area);
    CodecRoundTrip(e);
    BytesRoundTrip(Unsigned(sid));
    assert e.payload[..4] == ToBytes(Unsigned(sid));
  }

  /** Fragments of messages under 2^31 bytes fit. */
  lemma CarriedFits(e: Element, id: nat, m: Message, k: nat)
    requires Carries(e, id, m, k) && id < U32 && m.cc < U32 && |m.data| <= I32_MAX
    ensures Fits(e)
  {
  }
}
