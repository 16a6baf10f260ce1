/** What a push on a route answers: it keeps its message through every wait and every lost
    race, and returns only with the message published or with nobody connected. */
module RouteCalls {
  import opened RingWords
  import opened RouteRing
  import opened RouteOrder

  /** What a push under way does next: it keeps its message, which enters the log once, when
      its slot is stamped; or returns true with the message published; or returns false with
      the mask empty and the log as it was. */
  ghost predicate PushMoves(s: State, s': State)
    requires !s.writer.WIdle?
  {
    var x, x' := s.writer, s'.writer;
    || (!x'.WIdle? && KeepsMessage(s, s'))
    || (x'.WIdle? && x.WPublish? && s'.wt == s.wt + 1 && s'.log == s.log)
    || (x'.WIdle? && x.WLoop? && s.cc == {} && s'.wt == s.wt && s'.log == s.log)
  }

  ghost predicate KeepsMessage(s: State, s': State)
    requires !s.writer.WIdle? && !s'.writer.WIdle?
  {
    && s'.writer.msg == s.writer.msg && s'.wt == s.wt
    && (Stamped(s.writer) ==> Stamped(s'.writer))
    && s'.log == if Stamped(s'.writer) && !Stamped(s.writer) then s.log + [s.writer.msg] else s.log
  }

  lemma WriterMoves(s: State, s': State)
    requires !s.writer.WIdle? && WriterStep(s, s')
    ensures PushMoves(s, s')
  {
  }

  lemma ReceiverMoves(s: State, s': State, r: Rid, x: Receiver)
    requires ReceiverStep(s, s', r, x)
    ensures s'.writer == s.writer && s'.wt == s.wt && s'.log == s.log
  {
  }

  /** In every step of every run: a push that is held up by a live mark, or loses its CAS, goes
      on with its message; it returns only after publishing it, or when nobody is connected. */
  lemma PushReturns(tr: seq<State>, k: nat)
    requires Run(tr) && 0 < k < |tr| && !tr[k - 1].writer.WIdle?
    ensures PushMoves(tr[k - 1], tr[k])
  {
    assert StepAt(tr, k);
    var s, s' := tr[k - 1], tr[k];
    if WriterStep(s, s') {
      WriterMoves(s, s');
    } else {
      var r :| r in s.receivers && ReceiverStep(s, s', r, s.receivers[r]);
      ReceiverMoves(s, s', r, s.receivers[r]);
    }
  }

  /** One call of `push_fragment(m)`, from its first step in state `j` to its return in `k`. */
  ghost predicate PushCall(tr: seq<State>, j: nat, k: nat, m: Fragment) {
    && j < k < |tr| && tr[j].writer == WLoop(m)
    && (forall i | j <= i < k :: !tr[i].writer.WIdle?)
    && tr[k].writer.WIdle?
  }

  lemma {:induction false} PushUnderWay(tr: seq<State>, j: nat, i: nat, k: nat, m: Fragment)
    requires Run(tr) && PushCall(tr, j, k, m) && j <= i < k
    ensures tr[i].writer.msg == m && tr[i].wt == tr[j].wt
    ensures tr[i].log == if Stamped(tr[i].writer) then tr[j].log + [m] else tr[j].log
    decreases i
  {
    if i > j {
      PushUnderWay(tr, j, i - 1, k, m);
      PushReturns(tr, i);
    }
  }

  /** The answer of a whole call, whatever the receivers do: the log has grown by exactly `m`
      and the write cursor has passed it, or both are as they were and the call returned
      false because nobody was connected. */
  lemma PushAnswers(tr: seq<State>, j: nat, k: nat, m: Fragment)
    requires Run(tr) && PushCall(tr, j, k, m)
    ensures || (tr[k].log == tr[j].log + [m] && tr[k].wt == tr[j].wt + 1 == |tr[k].log|)
            || (tr[k].log == tr[j].log && tr[k].wt == tr[j].wt && tr[k - 1].writer == WLoop(m) && tr[k - 1].cc == {})
  {
    PushUnderWay(tr, j, k - 1, k, m);
    PushReturns(tr, k);
    RunInv(tr, k);
  }

  // recv ------------------------------------------------------------------------------------

  /** Past the test for an element, up to the release of its slot. */
  predicate Reading(x: Receiver) {
    x.phase.Header? || x.phase.Payload? || x.phase.LoadRc? || x.phase.Cas?
  }

  /** What a receiver that is reading does next: it stays at its element, or has popped it with
      the bytes pushed. */
  ghost predicate ReadMoves(s: State, s': State, r: Rid)
    requires r in s.receivers
  {
    && r in s'.receivers
    && var x, x' := s.receivers[r], s'.receivers[r];
       || (Reading(x') && x'.cur == x.cur && x'.popped == x.popped)
       || (x'.phase.Poll? && x.cur < |s.log| && x'.cur == x.cur + 1 && x'.popped == x.popped + [s.log[x.cur]])
  }

  lemma ReaderMoves(s: State, s': State, r: Rid)
    requires Inv(s) && r in s.receivers && Reading(s.receivers[r]) && ReceiverStep(s, s', r, s.receivers[r])
    ensures ReadMoves(s, s', r)
  {
    assert ReceiverOk(s, r);
  }

  lemma WriterLeavesReading(s: State, s': State, r: Rid)
    requires WriterStep(s, s') && r in s.receivers
    ensures r in s'.receivers && s'.receivers[r] == s.receivers[r].(first := s'.receivers[r].first)
  {
  }

  lemma OthersStand(s: State, s': State, q: Rid, r: Rid)
    requires q in s.receivers && ReceiverStep(s, s', q, s.receivers[q]) && r in s.receivers && r != q
    ensures r in s'.receivers && s'.receivers[r] == s.receivers[r]
  {
  }

  /** In every step of every run: a receiver that has seen an element goes on until it has
      popped it, whatever races it loses on the way. */
  lemma ReadReturns(tr: seq<State>, k: nat, r: Rid)
    requires Run(tr) && 0 < k < |tr| && r in tr[k - 1].receivers && Reading(tr[k - 1].receivers[r])
    ensures ReadMoves(tr[k - 1], tr[k], r)
  {
    RunInv(tr, k - 1);
    assert StepAt(tr, k);
    var s, s' := tr[k - 1], tr[k];
    if WriterStep(s, s') {
      WriterLeavesReading(s, s', r);
    } else {
      var q :| q in s.receivers && ReceiverStep(s, s', q, s.receivers[q]);
      if q == r { ReaderMoves(s, s', r); } else { OthersStand(s, s', q, r); }
    }
  }
}
