/** From `send` to `recv` over the multi-writer channel: any number of endpoints send
    messages, every interleaving of their pushes and of the readers' pops, and each receiver
    delivers whole messages, byte for byte, in one common order. */
module EndToEnd {
  import opened RingWords
  import opened Framing
  import opened MsgCodec
  import opened ChannelRing
  import opened ChannelOrder

  /** What the endpoints send: `messages` by id, the writer that sends each, and for each
      writer the elements it pushes, in the order it pushes them. */
  datatype Traffic = Traffic(messages: map<nat, Message>, sender: map<nat, Tid>, programs: map<Tid, seq<Element>>)

  /** How many elements of message `id` a stretch of elements holds. */
  function Parts(es: seq<Element>, id: nat): (c: nat) {
    if es == [] then 0 else Parts(es[..|es| - 1], id) + if es[|es| - 1].id == id then 1 else 0
  }

  /** Element `j` of writer `w` is the next fragment of a message that `w` sends. */
  ghost predicate NextPart(t: Traffic, w: Tid, es: seq<Element>, j: nat)
    requires j < |es|
  {
    var e := es[j];
    e.id in t.messages && e.id in t.sender && t.sender[e.id] == w
        && Carries(e, e.id, t.messages[e.id], Parts(es[..j], e.id))
  }

  ghost predicate Valid(t: Traffic) {
    && (forall id | id in t.messages :: id < U32 && t.messages[id].cc < U32 && 0 < |t.messages[id].data| <= I32_MAX)
    && (forall w, j | w in t.programs && 0 <= j < |t.programs[w]| :: NextPart(t, w, t.programs[w], j))
  }

  /** The claims of one writer in a log, in order. */
  function ClaimsOf(log: seq<Claim>, w: Tid): seq<Claim> {
    if log == [] then []
    else ClaimsOf(log[..|log| - 1], w) + if log[|log| - 1].writer == w then [log[|log| - 1]] else []
  }

  /** Each writer has pushed the first elements of its program, encoded. (Elements of valid
      traffic fit their header.) */
  ghost predicate Pushes(t: Traffic, log: seq<Claim>) {
    forall k | 0 <= k < |log| :: PushOk(t, log, k)
  }

  ghost predicate PushOk(t: Traffic, log: seq<Claim>, k: nat)
    requires k < |log|
  {
    var w, j := log[k].writer, |ClaimsOf(log[..k], log[k].writer)|;
    w in t.programs && j < |t.programs[w]| && (Fits(t.programs[w][j]) ==> log[k].msg == Encode(t.programs[w][j]))
  }

  function DecodeAll(fs: seq<Fragment>): (es: seq<Element>)
    requires forall k | 0 <= k < |fs| :: |fs[k].header| == HEADER
    ensures |es| == |fs|
  {
    seq(|fs|, k requires 0 <= k < |fs| => Decode(fs[k]))
  }

  /** The elements the log carries. */
  ghost function Stream(t: Traffic, log: seq<Claim>): (es: seq<Element>)
    requires Pushes(t, log)
    ensures |es| == |log|
  {
    seq(|log|, k requires 0 <= k < |log| => ElementAt(t, log, k))
  }

  ghost function ElementAt(t: Traffic, log: seq<Claim>, k: nat): Element
    requires Pushes(t, log) && k < |log|
  {
    assert PushOk(t, log, k);
    t.programs[log[k].writer][|ClaimsOf(log[..k], log[k].writer)|]
  }

  lemma DecodesToStream(t: Traffic, log: seq<Claim>, k: nat)
    requires Valid(t) && Pushes(t, log) && k < |log|
    ensures |log[k].msg.header| == HEADER && Decode(log[k].msg) == Stream(t, log)[k]
  {
    assert PushOk(t, log, k);
    var e, w := ElementAt(t, log, k), log[k].writer;
    ElementFacts(t, log, k);
    CarriedFits(e, e.id, t.messages[e.id], Parts(t.programs[w][..|ClaimsOf(log[..k], w)|], e.id));
    CodecRoundTrip(e);
  }

  // The log is an interleaving ------------------------------------------------------------------

  /** The messages an endpoint receives: those others send. */
  function Foreign(t: Traffic, me: nat): map<nat, Message> {
    map id | id in t.messages && t.messages[id].cc != me :: t.messages[id]
  }

  lemma ElementFacts(t: Traffic, log: seq<Claim>, k: nat)
    requires Valid(t) && Pushes(t, log) && k < |log|
    ensures var e, w := Stream(t, log)[k], log[k].writer;
            && e.id in t.messages && e.id in t.sender && t.sender[e.id] == w && e.cc == t.messages[e.id].cc
            && |e.payload| == DATA_LENGTH && w in t.programs
            && var j := |ClaimsOf(log[..k], w)|;
               && j < |t.programs[w]| && e == t.programs[w][j]
               && Carries(e, e.id, t.messages[e.id], Parts(t.programs[w][..j], e.id))
  {
    assert PushOk(t, log, k);
    assert NextPart(t, log[k].writer, t.programs[log[k].writer], |ClaimsOf(log[..k], log[k].writer)|);
  }

  /** The fragments of a message seen so far are those its sender has pushed so far. */
  lemma {:induction false} SeenIsPushed(t: Traffic, log: seq<Claim>, me: nat, id: nat, k: nat)
    requires Valid(t) && Pushes(t, log) && k <= |log|
    requires id in t.messages && id in t.sender && t.messages[id].cc != me && t.sender[id] in t.programs
    ensures var w := t.sender[id]; var j := |ClaimsOf(log[..k], w)|;
            j <= |t.programs[w]| && Seen(me, Stream(t, log)[..k], id) == Parts(t.programs[w][..j], id)
  {
    var es, w := Stream(t, log), t.sender[id];
    if k > 0 {
      SeenIsPushed(t, log, me, id, k - 1);
      ElementFacts(t, log, k - 1);
      SeenStep(me, es, k - 1, id);
      assert log[..k][..k - 1] == log[..k - 1];
      var j := |ClaimsOf(log[..k - 1], w)|;
      if log[k - 1].writer == w { assert t.programs[w][..j + 1][..j] == t.programs[w][..j]; }
    }
  }

  /** Whatever the interleaving of the claims, the fragments of each message are in order. */
  lemma LogIsInterleaving(t: Traffic, log: seq<Claim>, me: nat)
    requires Valid(t) && Pushes(t, log)
    ensures Interleaving(me, Foreign(t, me), Stream(t, log))
  {
    var es := Stream(t, log);
    forall k | 0 <= k < |es| ensures ElementOk(me, Foreign(t, me), es, k) {
      ElementFacts(t, log, k);
      if es[k].cc != me { SeenIsPushed(t, log, me, es[k].id, k); }
    }
  }

  // What a receiver delivers --------------------------------------------------------------------

  /** Later elements add to what is complete; they do not change it. */
  lemma {:induction false} CompletedGrows(me: nat, ms: map<nat, Message>, es: seq<Element>, n: nat)
    requires n <= |es|
    ensures Completed(me, ms, es[..n]) <= Completed(me, ms, es)
    decreases |es|
  {
    if n == |es| {
      assert es[..n] == es;
    } else {
      var m := |es| - 1;
      CompletedGrows(me, ms, es[..m], n);
      assert es[..m][..n] == es[..n];
    }
  }

  /** The log at the end of a run is what its writers pushed. */
  ghost predicate Sends(t: Traffic, tr: seq<State>) {
    |tr| > 0 && Valid(t) && Pushes(t, tr[|tr| - 1].log)
  }

  /** A reader has popped the first elements of the stream. */
  lemma PoppedIsStream(t: Traffic, tr: seq<State>, k: nat, r: Bit)
    requires Run(tr) && Sends(t, tr) && k < |tr| && r in tr[0].cc
    ensures r in tr[k].readers
    ensures var fs, es := tr[k].readers[r].popped, Stream(t, tr[|tr| - 1].log);
            && |fs| <= |es| && (forall i | 0 <= i < |fs| :: |fs[i].header| == HEADER) && DecodeAll(fs) == es[..|fs|]
  {
    TotalOrder(tr, k, r);
    var log, fs := tr[|tr| - 1].log, tr[k].readers[r].popped;
    forall i | 0 <= i < |fs| ensures |fs[i].header| == HEADER && Decode(fs[i]) == Stream(t, log)[i] {
      DecodesToStream(t, log, i);
      assert fs[i] == Messages(log)[i];
    }
  }

  /** End to end: at every point of every run, a receiver that reassembles what it has popped
      has delivered exactly the foreign messages that are complete in what it has read, byte
      for byte and never out of range; it caches exactly the unfinished ones; and what it has
      delivered is a prefix of one sequence of messages fixed by the common log. */
  lemma Delivered(t: Traffic, tr: seq<State>, k: nat, r: Bit, me: nat)
    requires Run(tr) && Sends(t, tr) && k < |tr| && r in tr[0].cc
    ensures r in tr[k].readers && |tr[k].readers[r].popped| <= |tr[|tr| - 1].log|
    ensures var fs, es, ms := tr[k].readers[r].popped, Stream(t, tr[|tr| - 1].log), Foreign(t, me);
            && (forall i | 0 <= i < |fs| :: |fs[i].header| == HEADER)
            && (forall i | 0 <= i < |fs| :: |DecodeAll(fs)[i].payload| == DATA_LENGTH)
            && var (cache, outs, panicked) := ReceiveAll(me, DecodeAll(fs));
               && !panicked && outs == Completed(me, ms, es[..|fs|]) && outs <= Completed(me, ms, es)
               && forall id :: id in cache <==> id in ms && 0 < Seen(me, es[..|fs|], id) < Framing.Count(|ms[id].data|)
  {
    PoppedIsStream(t, tr, k, r);
    var log, fs := tr[|tr| - 1].log, tr[k].readers[r].popped;
    var es := Stream(t, log);
    LogIsInterleaving(t, log, me);
    PrefixInterleaves(me, Foreign(t, me), es, |fs|);
    RoundTrip(me, Foreign(t, me), es[..|fs|]);
    CompletedGrows(me, Foreign(t, me), es, |fs|);
  }

  lemma PrefixInterleaves(me: nat, ms: map<nat, Message>, es: seq<Element>, n: nat)
    requires Interleaving(me, ms, es) && n <= |es|
    ensures Interleaving(me, ms, es[..n])
  {
    forall k | 0 <= k < n ensures ElementOk(me, ms, es[..n], k) {
      assert ElementOk(me, ms, es, k);
      assert es[..n][..k] == es[..k];
    }
  }
}
