/** What a receiver delivers that starts in the middle of the traffic: of each message that is
    not over yet, the part still to come, as a message of its own. So it delivers a message
    whole exactly when it starts before the first fragment. Composed with the order of the two
    broadcast rings, this is the way from `send` to `recv` over a route, and over a channel
    with receivers that come and go. */
module LateDelivery {
  import opened RingWords
  import opened Framing
  import opened MsgCodec
  import opened EndToEnd
  import ChannelRing
  import ChannelOrder
  import ChannelMembers
  import MembersOrder
  import RouteRing
  import RouteOrder

  /** What is left of each unfinished message after the elements `past`. */
  ghost function Rest(me: nat, ms: map<nat, Message>, past: seq<Element>): (rest: map<nat, Message>) {
    map id | id in ms && Seen(me, past, id) < Count(|ms[id].data|) ::
        Message(ms[id].cc, ms[id].data[DATA_LENGTH * Seen(me, past, id)..])
  }

  lemma {:induction false} SeenSplit(me: nat, es: seq<Element>, n: nat, k: nat, id: nat)
    requires n <= k <= |es|
    ensures Seen(me, es[..k], id) == Seen(me, es[..n], id) + Seen(me, es[n..k], id)
    decreases k
  {
    if n < k {
      SeenSplit(me, es, n, k - 1, id);
      assert es[..k][..k - 1] == es[..k - 1] && es[n..k][..k - n - 1] == es[n..k - 1];
    }
  }

  /** The later fragments of a message are the fragments of the rest of it. */
  lemma TailCarries(e: Element, id: nat, m: Message, n: nat, k: nat)
    requires Carries(e, id, m, n + k)
    ensures DATA_LENGTH * n < |m.data| && Carries(e, id, Message(m.cc, m.data[DATA_LENGTH * n..]), k)
  {
    var rest := m.data[DATA_LENGTH * n..];
    assert Part(rest, k) == Part(m.data, n + k);
  }

  lemma LateInterleaving(me: nat, ms: map<nat, Message>, es: seq<Element>, n: nat, m: nat)
    requires Interleaving(me, ms, es) && n <= m <= |es|
    ensures Interleaving(me, Rest(me, ms, es[..n]), es[n..m])
  {
    var rest, late := Rest(me, ms, es[..n]), es[n..m];
    forall k | 0 <= k < |late| ensures ElementOk(me, rest, late, k) {
      assert ElementOk(me, ms, es, n + k);
      assert late[..k] == es[n..n + k];
      if late[k].cc != me {
        var id := late[k].id;
        SeenSplit(me, es, n, n + k, id);
        TailCarries(late[k], id, ms[id], Seen(me, es[..n], id), Seen(me, late[..k], id));
      }
    }
  }

  /** From any element on, the receiver delivers exactly the rests that are complete, byte for
      byte, and caches exactly the unfinished ones. */
  lemma LateRoundTrip(me: nat, ms: map<nat, Message>, es: seq<Element>, n: nat, m: nat)
    requires Interleaving(me, ms, es) && n <= m <= |es|
    ensures forall k | 0 <= k < m - n :: |es[n..m][k].payload| == DATA_LENGTH
    ensures var (cache, outs, panicked) := ReceiveAll(me, es[n..m]); var rest := Rest(me, ms, es[..n]);
            && !panicked && outs == Completed(me, rest, es[n..m])
            && forall id :: id in cache <==> id in rest && 0 < Seen(me, es[n..m], id) < Count(|rest[id].data|)
  {
    LateInterleaving(me, ms, es, n, m);
    RoundTrip(me, Rest(me, ms, es[..n]), es[n..m]);
  }

  /** A rest is the whole message exactly when no fragment of it came before. */
  lemma WholeExactly(me: nat, ms: map<nat, Message>, past: seq<Element>, id: nat)
    requires id in Rest(me, ms, past)
    ensures Rest(me, ms, past)[id] == ms[id] <==> Seen(me, past, id) == 0
  {
    var n := Seen(me, past, id);
    assert |ms[id].data[DATA_LENGTH * n..]| == |ms[id].data| - DATA_LENGTH * n;
    if n == 0 { assert ms[id].data[0..] == ms[id].data; }
  }

  // Route ---------------------------------------------------------------------------------------

  /** The ring carries the elements `es`, encoded. */
  ghost predicate CarriesAll(log: seq<Fragment>, es: seq<Element>) {
    |log| == |es| && forall i | 0 <= i < |es| :: Fits(es[i]) && log[i] == Encode(es[i])
  }

  lemma DecodesBack(log: seq<Fragment>, es: seq<Element>, n: nat, m: nat)
    requires CarriesAll(log, es) && n <= m <= |es|
    ensures (forall i | 0 <= i < m - n :: |log[n..m][i].header| == HEADER) && DecodeAll(log[n..m]) == es[n..m]
  {
    forall i | n <= i < m ensures |log[i].header| == HEADER && Decode(log[i]) == es[i] { CodecRoundTrip(es[i]); }
  }

  /** End to end over a route: at every point of every run, with receivers that join and leave
      while the writer pushes, what a connected receiver has popped decodes to the elements
      from its start to its cursor, and it has delivered exactly the messages complete in
      them, whole if they began there. */
  lemma RouteDelivered(ms: map<nat, Message>, es: seq<Element>, tr: seq<RouteRing.State>, k: nat, r: nat, me: nat)
    requires RouteRing.Run(tr) && k < |tr| && RouteOrder.Connected(tr[k], r)
    requires Interleaving(me, ms, es) && CarriesAll(tr[|tr| - 1].log, es)
    ensures var x := tr[k].receivers[r];
            && x.start <= x.cur <= |es|
            && (forall i | 0 <= i < |x.popped| :: |x.popped[i].header| == HEADER)
            && (forall i | 0 <= i < |x.popped| :: |DecodeAll(x.popped)[i].payload| == DATA_LENGTH)
            && var (cache, outs, panicked) := ReceiveAll(me, DecodeAll(x.popped));
               !panicked && outs == Completed(me, Rest(me, ms, es[..x.start]), es[x.start..x.cur])
  {
    var x := tr[k].receivers[r];
    RouteOrder.GapFree(tr, k, r);
    DecodesBack(tr[|tr| - 1].log, es, x.start, x.cur);
    LateRoundTrip(me, ms, es, x.start, x.cur);
  }

  // Channel -------------------------------------------------------------------------------------

  /** End to end over a channel whose receivers come and go calmly. */
  lemma CalmDelivered(t: Traffic, tr: seq<ChannelMembers.World>, k: nat, r: nat, me: nat)
    requires ChannelMembers.History(tr) && MembersOrder.Calm(tr) && k < |tr| && r in tr[k].ring.readers
    requires Valid(t) && Pushes(t, tr[|tr| - 1].ring.log)
    ensures var s, es, ms := tr[k].ring, Stream(t, tr[|tr| - 1].ring.log), Foreign(t, me);
            var x := s.readers[r];
            && r in s.start && s.start[r] <= x.cur <= |es|
            && (forall i | 0 <= i < |x.popped| :: |x.popped[i].header| == HEADER)
            && (forall i | 0 <= i < |x.popped| :: |DecodeAll(x.popped)[i].payload| == DATA_LENGTH)
            && var (cache, outs, panicked) := ReceiveAll(me, DecodeAll(x.popped));
               !panicked && outs == Completed(me, Rest(me, ms, es[..s.start[r]]), es[s.start[r]..x.cur])
  {
    var s, log := tr[k].ring, tr[|tr| - 1].ring.log;
    var es, x := Stream(t, log), s.readers[r];
    MembersOrder.CalmTotalOrder(tr, k, r);
    forall i | 0 <= i < |x.popped| ensures |x.popped[i].header| == HEADER && Decode(x.popped[i]) == es[s.start[r] + i] {
      DecodesToStream(t, log, s.start[r] + i);
    }
    assert DecodeAll(x.popped) == es[s.start[r]..x.cur];
    LogIsInterleaving(t, log, me);
    LateRoundTrip(me, Foreign(t, me), es, s.start[r], x.cur);
  }
}
