/** Fragmentation and reassembly of messages (`send`, `recv`, `assemble_message`).

    A message is cut into ring elements of 64 payload bytes; each carries the sender's
    identity, the message id and the number of bytes that remain after it. Elements of
    different messages interleave on the ring, and the receiver reassembles them by id. */
module Framing {
  import opened RingWords

  /** Payload bytes per element. */
  const DATA_LENGTH: nat := 64
  const I32_MAX: int := 0x7fff_ffff

  /** A ring element: the `msg_t` header fields and the 64-byte payload area, of which a
      short last fragment fills only the front. With `storage` set the payload starts with
      the id of a chunk that holds a large message. */
  datatype Element = Element(cc: nat, id: nat, remain: int, storage: bool, payload: Bytes)

  datatype Message = Message(cc: nat, data: Bytes)

  /** How many fragments a message of `n` bytes takes. */
  function Count(n: nat): (c: nat)
    ensures n > 0 ==> DATA_LENGTH * (c - 1) < n <= DATA_LENGTH * c
    ensures n == 0 ==> c == 0
  {
    (n + DATA_LENGTH - 1) / DATA_LENGTH
  }

  /** Fragment number `k` of a message. */
  function Part(data: Bytes, k: nat): (part: Bytes)
    requires k < Count(|data|)
  {
    var lo := DATA_LENGTH * k;
    if lo + DATA_LENGTH <= |data| then data[lo..lo + DATA_LENGTH] else data[lo..]
  }

  /** Element `e` carries fragment `k` of message `m` under `id`. */
  ghost predicate Carries(e: Element, id: nat, m: Message, k: nat) {
    && k < Count(|m.data|)
    && e.cc == m.cc && e.id == id && !e.storage && e.remain == |m.data| - DATA_LENGTH * k - DATA_LENGTH
    && |e.payload| == DATA_LENGTH && Part(m.data, k) <= e.payload
  }

  /** `write_msg` of an inline fragment: it overwrites the front of the slot's payload area. */
  function WriteMsg(cc: nat, id: nat, remain: int, part: Bytes, area: Bytes): (e: Element)
    requires |part| <= DATA_LENGTH == |area|
  {
    Element(cc, id, remain, false, part + area[|part|..])
  }

  /** The loop of `send`: push the full fragments, then a shorter one for the rest. `areas`
      are the bytes left in the slots it writes to; push number `room` times out and leaves
      the message unfinished on the ring. */
  method PushFragments(cc: nat, id: nat, data: Bytes, areas: seq<Bytes>, room: nat)
      returns (ok: bool, out: seq<Element>)
    requires |data| <= I32_MAX
    requires |areas| == Count(|data|) && forall k | 0 <= k < |areas| :: |areas[k]| == DATA_LENGTH
    ensures ok <==> Count(|data|) <= room
    ensures |out| == if Count(|data|) <= room then Count(|data|) else room
    ensures forall k | 0 <= k < |out| :: Carries(out[k], id, Message(cc, data), k)
  {
    out := [];
    var size := |data|;
    var full := size / DATA_LENGTH;
    var offset := 0;
    var i := 0;
    while i < full
      invariant 0 <= i <= full && i <= room && offset == DATA_LENGTH * i == DATA_LENGTH * |out|
      invariant forall k | 0 <= k < |out| :: Carries(out[k], id, Message(cc, data), k)
    {
      var remain := size - offset - DATA_LENGTH;
      if i == room { return false, out; }
      out := out + [WriteMsg(cc, id, remain, data[offset..offset + DATA_LENGTH], areas[i])];
      offset := offset + DATA_LENGTH;
      i := i + 1;
    }
    var tail := size - offset;
    if tail > 0 {
      if i == room { return false, out; }
      out := out + [WriteMsg(cc, id, tail - DATA_LENGTH, data[offset..], areas[i])];
    }
    ok := true;
  }

  /** What `send` returns: a boolean, or one of its two errors. */
  datatype SendResult = Done(sent: bool) | NotSender | OtherSender

  /** A sending endpoint, with its own message counter. */
  class Sender {
    const cc: nat
    const isSender: bool
    const multi: bool
    var sendSeq: nat

    constructor (cc: nat, isSender: bool, multi: bool)
      ensures this.cc == cc && this.isSender == isSender && this.multi == multi && sendSeq == 0
    {
      this.cc, this.isSender, this.multi, sendSeq := cc, isSender, multi, 0;
    }

    /** The message gets as far as the ring. */
    predicate Accepts(data: Bytes, ready: bool, connected: bool) {
      data != [] && isSender && ready && connected
    }

    /** `send`. `ready`: this is the route's sole sender, or a channel; `connected`: somebody
        receives; `shared`: what the channel's shared counter yields. */
    method Send(data: Bytes, ready: bool, connected: bool, shared: nat, areas: seq<Bytes>, room: nat)
        returns (r: SendResult, id: nat, out: seq<Element>)
      requires |data| <= I32_MAX && sendSeq < U32
      requires |areas| == Count(|data|) && forall k | 0 <= k < |areas| :: |areas[k]| == DATA_LENGTH
      modifies this
      ensures data == [] ==> r == Done(false)
      ensures data != [] && !isSender ==> r == NotSender
      ensures data != [] && isSender && !ready ==> r == OtherSender
      ensures data != [] && isSender && ready && !connected ==> r == Done(false)
      ensures !Accepts(data, ready, connected) ==> out == [] && sendSeq == old(sendSeq)
      ensures Accepts(data, ready, connected) ==>
                && r == Done(Count(|data|) <= room) && id == (if multi then shared else old(sendSeq))
                && sendSeq == (if multi then old(sendSeq) else (old(sendSeq) + 1) % U32)
                && |out| == if Count(|data|) <= room then Count(|data|) else room
      ensures forall k | 0 <= k < |out| :: Carries(out[k], id, Message(cc, data), k)
    {
      r, id, out := Done(false), 0, [];
      if |data| == 0 { return; }
      if !isSender { return NotSender, 0, []; }
      if !ready { return OtherSender, 0, []; }
      if !connected { return; }
      if multi {
        id := shared;
      } else {
        id := sendSeq;
        sendSeq := (sendSeq + 1) % U32;
      }
      var ok;
      ok, out := PushFragments(cc, id, data, areas, room);
      r := Done(ok);
    }
  }

  // Reassembly --------------------------------------------------------------------------

  /** A partly received message: how far it is filled, and its buffer. */
  datatype Partial = Partial(off: nat, buf: Bytes)

  type Cache = map<nat, Partial>

  /** What a decoded element leads to: keep reading, a whole message, a message of `size` bytes
      in the chunk whose id is in the bytes `sid`, or an out-of-range copy (which panics). */
  datatype Outcome = Pending | Whole(msg: Bytes) | Chunk(sid: Bytes, size: nat) | OutOfRange

  function Zeros(n: nat): (z: Bytes)
    ensures |z| == n
  {
    seq(n, _ => 0)
  }

  /** `copy_from_slice` at `off`. */
  function Copy(buf: Bytes, off: nat, frag: Bytes): (r: Bytes)
    requires off + |frag| <= |buf|
    ensures |r| == |buf| && r[..off] == buf[..off] && r[off..off + |frag|] == frag
    ensures r[off + |frag|..] == buf[off + |frag|..]
  {
    buf[..off] + frag + buf[off + |frag|..]
  }

  /** A receiving endpoint with its cache of unfinished messages. */
  class Receiver {
    const me: nat
    var cache: Cache

    constructor (me: nat)
      ensures this.me == me && cache == map[]
    {
      this.me := me;
      cache := map[];
    }

    /** Decode one element and reassemble by id (`recv` from `read_header` on). */
    method Assemble(e: Element) returns (out: Outcome)
      requires |e.payload| == DATA_LENGTH
      modifies this
      ensures (cache, out) == Receive(me, old(cache), e)
    {
      var rSize := DATA_LENGTH + e.remain;
      if e.cc == me || rSize <= 0 { return Pending; }
      if e.storage { return Chunk(e.payload[..4], rSize); }
      var n := if e.remain <= 0 then rSize else DATA_LENGTH;
      var frag := e.payload[..n];
      if e.id in cache {
        var part := cache[e.id];
        cache := cache - {e.id};
        if part.off + n > |part.buf| { return OutOfRange; }
        var buf := Copy(part.buf, part.off, frag);
        if e.remain <= 0 { return Whole(buf); }
        cache := cache[e.id := Partial(part.off + n, buf)];
        assert cache == old(cache)[e.id := Partial(part.off + n, buf)];
        return Pending;
      }
      if e.remain <= 0 { return Whole(frag); }
      cache := cache[e.id := Partial(n, Copy(Zeros(rSize), 0, frag))];
      return Pending;
    }

    /** Read a stretch of the ring, collecting the messages that complete. */
    method Drain(stream: seq<Element>, ghost ms: map<nat, Message>) returns (outs: seq<Bytes>, panicked: bool)
      requires cache == map[] && Interleaving(me, ms, stream)
      modifies this
      ensures !panicked && outs == Completed(me, ms, stream)
      ensures forall id :: id in cache <==> id in ms && 0 < Seen(me, stream, id) < Count(|ms[id].data|)
    {
      outs, panicked := [], false;
      assert stream[..0] == [];
      for k := 0 to |stream|
        invariant !panicked && outs == Completed(me, ms, stream[..k])
        invariant CacheOk(me, ms, stream[..k], cache)
      {
        ReceiveKeeps(me, ms, stream, k, cache);
        var out := Assemble(stream[k]);
        match out
        case Pending =>
        case Whole(m) => outs := outs + [m];
        case Chunk(_, _) =>
        case OutOfRange => panicked := true;
      }
      assert stream[..|stream|] == stream;
    }
  }

  /** What `Assemble` computes, as a function of the cache and the element. */
  function Receive(me: nat, cache: Cache, e: Element): (r: (Cache, Outcome))
    requires |e.payload| == DATA_LENGTH
  {
    var rSize := DATA_LENGTH + e.remain;
    if e.cc == me || rSize <= 0 then (cache, Pending)
    else if e.storage then (cache, Chunk(e.payload[..4], rSize))
    else
      var n := if e.remain <= 0 then rSize else DATA_LENGTH;
      var frag := e.payload[..n];
      if e.id in cache then
        var part := cache[e.id];
        if part.off + n > |part.buf| then (cache - {e.id}, OutOfRange)
        else
          var buf := Copy(part.buf, part.off, frag);
          if e.remain <= 0 then (cache - {e.id}, Whole(buf))
          else (cache[e.id := Partial(part.off + n, buf)], Pending)
      else if e.remain <= 0 then (cache, Whole(frag))
      else (cache[e.id := Partial(n, Copy(Zeros(rSize), 0, frag))], Pending)
  }

  // Interleaved streams -------------------------------------------------------------------

  /** How many elements of message `id` from other endpoints a stretch of ring holds. */
  function Seen(me: nat, stream: seq<Element>, id: nat): (c: nat)
    ensures c <= |stream|
  {
    if stream == [] then 0
    else
      var e := stream[|stream| - 1];
      Seen(me, stream[..|stream| - 1], id) + if e.cc != me && e.id == id then 1 else 0
  }

  /** The elements of each message of `ms` appear in order, possibly not all of them, in
      any interleaving; elements of the endpoint itself may hold anything. */
  ghost predicate Interleaving(me: nat, ms: map<nat, Message>, stream: seq<Element>) {
    && (forall id | id in ms :: 0 < |ms[id].data| <= I32_MAX && ms[id].cc != me)
    && (forall k | 0 <= k < |stream| :: ElementOk(me, ms, stream, k))
  }

  ghost predicate ElementOk(me: nat, ms: map<nat, Message>, stream: seq<Element>, k: nat)
    requires k < |stream|
  {
    var e := stream[k];
    |e.payload| == DATA_LENGTH && (e.cc != me ==> e.id in ms && Carries(e, e.id, ms[e.id], Seen(me, stream[..k], e.id)))
  }

  /** The ids of the foreign messages whose last element is in the stream, in the order
      of those last elements. */
  ghost function Finished(me: nat, ms: map<nat, Message>, stream: seq<Element>): (ids: seq<nat>)
    ensures forall k | 0 <= k < |ids| :: ids[k] in ms
  {
    if stream == [] then []
    else
      var e, rest := stream[|stream| - 1], stream[..|stream| - 1];
      Finished(me, ms, rest) +
      if e.cc != me && e.id in ms && Seen(me, stream, e.id) == Count(|ms[e.id].data|) then [e.id] else []
  }

  /** The bytes of the finished messages, in that order. */
  ghost function Completed(me: nat, ms: map<nat, Message>, stream: seq<Element>): (outs: seq<Bytes>) {
    var ids := Finished(me, ms, stream);
    seq(|ids|, k requires 0 <= k < |ids| => ms[ids[k]].data)
  }

  /** `Finished` lists every message that is complete in the stream, each once. */
  lemma {:induction false} FinishedExactly(me: nat, ms: map<nat, Message>, stream: seq<Element>, id: nat)
    requires Interleaving(me, ms, stream)
    ensures id in ms ==> Seen(me, stream, id) <= Count(|ms[id].data|)
    ensures multiset(Finished(me, ms, stream))[id] ==
            if id in ms && Seen(me, stream, id) == Count(|ms[id].data|) then 1 else 0
  {
    if stream != [] {
      var n := |stream| - 1;
      var rest := stream[..n];
      forall k | 0 <= k < n ensures ElementOk(me, ms, rest, k) {
        assert ElementOk(me, ms, stream, k) && rest[..k] == stream[..k];
      }
      FinishedExactly(me, ms, rest, id);
      assert ElementOk(me, ms, stream, n);
    }
  }

  /** Receive a whole stretch of ring from an empty cache: the cache left, the messages
      delivered, and whether a copy ran out of range. */
  function ReceiveAll(me: nat, stream: seq<Element>): (r: (Cache, seq<Bytes>, bool))
    requires forall k | 0 <= k < |stream| :: |stream[k].payload| == DATA_LENGTH
  {
    if stream == [] then (map[], [], false)
    else
      var (cache, outs, panicked) := ReceiveAll(me, stream[..|stream| - 1]);
      var (cache', out) := Receive(me, cache, stream[|stream| - 1]);
      (cache', if out.Whole? then outs + [out.msg] else outs, panicked || out.OutOfRange?)
  }

  /** Round trip: in any interleaving of the fragments of any messages, the receiver
      delivers exactly the messages that are complete, byte for byte, each at its last
      fragment, and keeps cache entries only for the unfinished ones. */
  lemma RoundTrip(me: nat, ms: map<nat, Message>, stream: seq<Element>)
    requires Interleaving(me, ms, stream)
    ensures forall k | 0 <= k < |stream| :: |stream[k].payload| == DATA_LENGTH
    ensures var (cache, outs, panicked) := ReceiveAll(me, stream);
            && !panicked && outs == Completed(me, ms, stream)
            && forall id :: id in cache <==> id in ms && 0 < Seen(me, stream, id) < Count(|ms[id].data|)
  {
    forall k | 0 <= k < |stream| ensures |stream[k].payload| == DATA_LENGTH { assert ElementOk(me, ms, stream, k); }
    ReceivedPrefix(me, ms, stream, |stream|);
    assert stream[..|stream|] == stream;
  }

  lemma {:induction false} ReceivedPrefix(me: nat, ms: map<nat, Message>, stream: seq<Element>, n: nat)
    requires Interleaving(me, ms, stream) && n <= |stream|
    requires forall k | 0 <= k < |stream| :: |stream[k].payload| == DATA_LENGTH
    ensures var (cache, outs, panicked) := ReceiveAll(me, stream[..n]);
            !panicked && outs == Completed(me, ms, stream[..n]) && CacheOk(me, ms, stream[..n], cache)
  {
    if n > 0 {
      ReceivedPrefix(me, ms, stream, n - 1);
      assert stream[..n][..n - 1] == stream[..n - 1];
      ReceiveKeeps(me, ms, stream, n - 1, ReceiveAll(me, stream[..n - 1]).0);
    }
  }

  /** The cache holds exactly the unfinished messages, filled as far as they were seen. */
  ghost predicate CacheOk(me: nat, ms: map<nat, Message>, stream: seq<Element>, cache: Cache) {
    && (forall id :: id in cache <==> id in ms && 0 < Seen(me, stream, id) < Count(|ms[id].data|))
    && (forall id | id in cache :: FilledTo(cache[id], ms[id].data, Seen(me, stream, id)))
  }

  /** The first `c` fragments of `data` are in place. */
  ghost predicate FilledTo(p: Partial, data: Bytes, c: nat) {
    && |p.buf| == |data| && p.off == DATA_LENGTH * c <= |data|
    && p.buf[..p.off] == data[..p.off]
  }

  /** The bytes taken out of an element are the fragment it carries. */
  lemma DecodedPart(e: Element, id: nat, m: Message, k: nat)
    requires Carries(e, id, m, k)
    ensures var n := if e.remain <= 0 then DATA_LENGTH + e.remain else DATA_LENGTH;
            && 0 < n <= DATA_LENGTH && e.payload[..n] == Part(m.data, k) && DATA_LENGTH * k + n <= |m.data|
            && (e.remain <= 0 <==> k + 1 == Count(|m.data|))
            && (e.remain <= 0 ==> DATA_LENGTH * k + n == |m.data|)
            && Part(m.data, k) == m.data[DATA_LENGTH * k..DATA_LENGTH * k + n]
  {
  }

  lemma SeenStep(me: nat, stream: seq<Element>, k: nat, id: nat)
    requires k < |stream|
    ensures Seen(me, stream[..k + 1], id) ==
            Seen(me, stream[..k], id) + if stream[k].cc != me && stream[k].id == id then 1 else 0
  {
    assert stream[..k + 1][..k] == stream[..k];
  }

  /** One received element keeps the cache right and delivers a message exactly when its
      last element arrives. */
  lemma ReceiveKeeps(me: nat, ms: map<nat, Message>, stream: seq<Element>, k: nat, cache: Cache)
    requires k < |stream| && Interleaving(me, ms, stream) && CacheOk(me, ms, stream[..k], cache)
    ensures |stream[k].payload| == DATA_LENGTH
    ensures var (cache', out) := Receive(me, cache, stream[k]);
            && CacheOk(me, ms, stream[..k + 1], cache')
            && !out.OutOfRange?
            && Completed(me, ms, stream[..k + 1]) ==
               Completed(me, ms, stream[..k]) + if out.Whole? then [out.msg] else []
  {
    var e := stream[k];
    assert ElementOk(me, ms, stream, k);
    assert stream[..k + 1][..k] == stream[..k];
    if e.cc != me { ForeignKeeps(me, ms, stream, k, cache); }
    var (cache', out) := Receive(me, cache, e);
    forall id ensures id in cache' <==> id in ms && 0 < Seen(me, stream[..k + 1], id) < Count(|ms[id].data|) {
      CachedAfter(me, ms, stream, k, cache, cache', id);
    }
    forall id | id in cache' ensures FilledTo(cache'[id], ms[id].data, Seen(me, stream[..k + 1], id)) {
      CachedAfter(me, ms, stream, k, cache, cache', id);
    }
    SeenStep(me, stream, k, e.id);
  }

  /** What became of the cache entry of one message. */
  lemma CachedAfter(me: nat, ms: map<nat, Message>, stream: seq<Element>, k: nat, cache: Cache, cache': Cache, id: nat)
    requires k < |stream| && CacheOk(me, ms, stream[..k], cache)
    requires var e := stream[k]; var c := Seen(me, stream[..k], e.id);
             if e.cc == me then cache' == cache
             else && e.id in ms && c < Count(|ms[e.id].data|) && cache' - {e.id} == cache - {e.id}
                  && (e.id in cache' <==> c + 1 < Count(|ms[e.id].data|))
                  && (e.id in cache' ==> FilledTo(cache'[e.id], ms[e.id].data, c + 1))
    ensures id in cache' <==> id in ms && 0 < Seen(me, stream[..k + 1], id) < Count(|ms[id].data|)
    ensures id in cache' ==> FilledTo(cache'[id], ms[id].data, Seen(me, stream[..k + 1], id))
  {
    SeenStep(me, stream, k, id);
    var e := stream[k];
    if e.cc != me && id != e.id {
      assert id in cache' <==> id in cache' - {e.id};
      assert id in cache <==> id in cache - {e.id};
      assert id in cache ==> (cache' - {e.id})[id] == (cache - {e.id})[id];
    }
  }

  lemma ForeignKeeps(me: nat, ms: map<nat, Message>, stream: seq<Element>, k: nat, cache: Cache)
    requires k < |stream| && Interleaving(me, ms, stream) && CacheOk(me, ms, stream[..k], cache) && stream[k].cc != me
    requires |stream[k].payload| == DATA_LENGTH
    ensures var e := stream[k]; var c := Seen(me, stream[..k], e.id); var (cache', out) := Receive(me, cache, e);
            && e.id in ms && c < Count(|ms[e.id].data|)
            && cache' - {e.id} == cache - {e.id}
            && (if c + 1 == Count(|ms[e.id].data|) then out == Whole(ms[e.id].data) && e.id !in cache'
                else out == Pending && e.id in cache' && FilledTo(cache'[e.id], ms[e.id].data, c + 1))
  {
    var e := stream[k];
    assert ElementOk(me, ms, stream, k);
    var m, c := ms[e.id], Seen(me, stream[..k], e.id);
    if c > 0 {
      NextFragment(me, cache, e, m, c);
    } else {
      DecodedPart(e, e.id, m, c);
    }
  }

  /** A fragment after the first fills the next stretch of the cached buffer. */
  lemma NextFragment(me: nat, cache: Cache, e: Element, m: Message, c: nat)
    requires e.cc != me && |e.payload| == DATA_LENGTH && Carries(e, e.id, m, c)
    requires e.id in cache && FilledTo(cache[e.id], m.data, c)
    ensures var (cache', out) := Receive(me, cache, e);
            && cache' - {e.id} == cache - {e.id}
            && (if c + 1 == Count(|m.data|) then out == Whole(m.data) && e.id !in cache'
                else out == Pending && e.id in cache' && FilledTo(cache'[e.id], m.data, c + 1))
  {
    DecodedPart(e, e.id, m, c);
    var off := DATA_LENGTH * c;
    var n := if e.remain <= 0 then DATA_LENGTH + e.remain else DATA_LENGTH;
    var filled := Copy(cache[e.id].buf, off, e.payload[..n]);
    assert filled[..off + n] == m.data[..off] + m.data[off..off + n];
  }

  // One message, sent and received -----------------------------------------------------------

  lemma {:induction false} SeenAll(me: nat, id: nat, m: Message, out: seq<Element>, k: nat)
    requires k <= |out| && m.cc != me && forall j | 0 <= j < |out| :: Carries(out[j], id, m, j)
    ensures Seen(me, out[..k], id) == k
  {
    if k > 0 {
      SeenAll(me, id, m, out, k - 1);
      SeenStep(me, out, k - 1, id);
    }
  }

  /** What a send puts on the ring for another endpoint is a stream in order. */
  lemma SentIsInterleaving(me: nat, id: nat, m: Message, out: seq<Element>)
    requires 0 < |m.data| <= I32_MAX && m.cc != me && forall j | 0 <= j < |out| :: Carries(out[j], id, m, j)
    ensures Interleaving(me, map[id := m], out)
  {
    forall k | 0 <= k < |out| ensures ElementOk(me, map[id := m], out, k) { SeenAll(me, id, m, out, k); }
  }

  /** Send, then receive: all elements of one message give it back and leave the cache
      empty; a message cut short by a timeout gives nothing back. */
  lemma SendThenReceive(me: nat, id: nat, m: Message, out: seq<Element>)
    requires 0 < |m.data| <= I32_MAX && m.cc != me && |out| <= Count(|m.data|)
    requires forall j | 0 <= j < |out| :: Carries(out[j], id, m, j)
    ensures forall k | 0 <= k < |out| :: |out[k].payload| == DATA_LENGTH
    ensures var (cache, outs, panicked) := ReceiveAll(me, out);
            && !panicked && outs == (if |out| == Count(|m.data|) then [m.data] else [])
            && (cache == map[] <==> |out| == 0 || |out| == Count(|m.data|))
  {
    var ms := map[id := m];
    SentIsInterleaving(me, id, m, out);
    RoundTrip(me, ms, out);
    FinishedAlone(me, id, m, out);
    SeenAll(me, id, m, out, |out|);
    assert out[..|out|] == out;
    var cache := ReceiveAll(me, out).0;
    assert id in cache <==> 0 < |out| < Count(|m.data|);
    assert cache != map[] ==> exists i :: i in cache;
  }

  lemma {:induction false} FinishedAlone(me: nat, id: nat, m: Message, out: seq<Element>)
    requires 0 < |m.data| <= I32_MAX && m.cc != me && |out| <= Count(|m.data|)
    requires forall j | 0 <= j < |out| :: Carries(out[j], id, m, j)
    ensures Finished(me, map[id := m], out) == if |out| == Count(|m.data|) then [id] else []
    decreases |out|
  {
    if out != [] {
      var n := |out| - 1;
      FinishedAlone(me, id, m, out[..n]);
      SeenAll(me, id, m, out, |out|);
      assert out[..|out|] == out;
    }
  }
}
