/** What the unicast ring keeps in every run: bounded cursors, and elements popped once each
    in commit order. */
module UnicastOrder {
  import opened RingWords
  import opened UnicastRing

  ghost predicate Shape(s: State) {
    && s.rd <= s.wt <= s.ct <= s.rd + RING - 1
    && |s.log| == |s.stage| == s.ct
    && s.popped == s.log[..s.rd]
  }

  predicate WritingAt(x: Thread, p: nat) {
    (x.PHeader? || x.PPayload? || x.PFlag?) && x.c == p
  }

  predicate TakenAt(x: Thread, p: nat) {
    (x.HStore? || x.EStore?) && x.c == p
  }

  /** The stage of a claimed position and who is responsible for it. */
  ghost predicate PosOk(s: State, p: nat)
    requires Shape(s) && p < s.ct
  {
    && (s.stage[p].Passed? <==> p < s.wt)
    && (s.stage[p].Taken? ==> p == s.wt && s.stage[p].t in s.threads && TakenAt(s.threads[s.stage[p].t], p))
    && (s.stage[p].Writing? ==> s.stage[p].t in s.threads && WritingAt(s.threads[s.stage[p].t], p))
    && (s.rd <= p && !s.stage[p].Writing? ==> Fragment(At(s, p).header, At(s, p).payload) == s.log[p])
  }

  /** What the flag of the slot of `p` reads, for `p` in the lap ahead of `wt`. */
  ghost predicate FlagOk(s: State, p: nat)
    requires Shape(s)
  {
    At(s, p).flag == if p < s.ct && s.stage[p].Flagged? then Flag(p) else 0
  }

  ghost predicate ThreadOk(s: State, t: Tid)
    requires Shape(s) && t in s.threads
  {
    var x := s.threads[t];
    && ((x.PRd? || x.PCas?) ==> x.c <= s.ct && (x.PCas? && x.c == s.ct ==> x.c + 1 < s.rd + RING))
    && (x.PHeader? || x.PPayload? || x.PFlag? ==>
          && x.c < s.ct && s.stage[x.c] == Writing(t) && s.log[x.c] == x.msg
          && (x.PPayload? || x.PFlag? ==> At(s, x.c).header == x.msg.header)
          && (x.PFlag? ==> At(s, x.c).payload == x.msg.payload))
    && ((x.HFlag? || x.HWt? || x.HCas?) ==> x.c <= s.ct)
    && ((x.HCas? || x.EFlag? || x.ECas?) ==> x.c <= s.wt)
    && ((x.HStore? || x.EStore?) ==> x.c < s.ct && s.stage[x.c] == Taken(t))
    && ((x.QWt? || x.EFlag? || x.CHeader? || x.CPayload? || x.CCas?) ==> x.r <= s.rd)
    && ((x.CHeader? || x.CPayload? || x.CCas?) && x.r == s.rd ==>
          && s.rd < s.wt
          && (x.CPayload? ==> x.h == s.log[x.r].header)
          && (x.CCas? ==> x.m == s.log[x.r]))
  }

  ghost predicate Inv(s: State) {
    && Shape(s)
    && (forall p | 0 <= p < s.ct :: PosOk(s, p))
    && (forall p | s.wt <= p < s.wt + RING :: FlagOk(s, p))
    && (forall t | t in s.threads :: ThreadOk(s, t))
  }

  lemma InitInv(s: State)
    requires Init(s)
    ensures Inv(s)
  {
  }

  /** Only the pc of thread `t` moved, to a pc that is neither writing nor taking. */
  lemma QuietKeeps(s: State, s': State, t: Tid)
    requires Inv(s) && t in s.threads && t in s'.threads
    requires s' == s.(threads := s.threads[t := s'.threads[t]])
    requires forall p :: WritingAt(s.threads[t], p) ==> WritingAt(s'.threads[t], p)
    requires forall p :: TakenAt(s.threads[t], p) ==> TakenAt(s'.threads[t], p)
    requires ThreadOk(s', t)
    ensures Inv(s')
  {
    forall p | 0 <= p < s'.ct ensures PosOk(s', p) { assert PosOk(s, p); }
    forall p | s'.wt <= p < s'.wt + RING ensures FlagOk(s', p) { assert FlagOk(s, p); }
    forall u | u in s'.threads ensures ThreadOk(s', u) { if u != t { assert ThreadOk(s, u); } }
  }

  lemma LoadsKeep(s: State, s': State, t: Tid)
    requires Inv(s) && t in s.threads
    requires var x := s.threads[t];
             || (exists msg :: BeginPush(s, s', t, x, msg))
             || LoadCt(s, s', t, x) || TestFull(s, s', t, x) || ClaimFails(s, s', t, x)
             || LoadFlag(s, s', t, x) || TestWt(s, s', t, x)
    ensures Inv(s')
  {
    assert ThreadOk(s, t);
    QuietKeeps(s, s', t);
  }

  lemma PopLoadsKeep(s: State, s': State, t: Tid)
    requires Inv(s) && t in s.threads
    requires var x := s.threads[t];
             || BeginPop(s, s', t, x) || LoadRd(s, s', t, x) || LoadWt(s, s', t, x) || Empty(s, s', t, x)
             || SeeFlag(s, s', t, x) || HelpFails(s, s', t, x) || PopFails(s, s', t, x)
    ensures Inv(s')
  {
    assert ThreadOk(s, t);
    QuietKeeps(s, s', t);
  }

  /** A consumer whose `rd` has not moved copies the element of its position. */
  lemma CopyKeeps(s: State, s': State, t: Tid)
    requires Inv(s) && t in s.threads
    requires CopyHeader(s, s', t, s.threads[t]) || CopyPayload(s, s', t, s.threads[t])
    ensures Inv(s')
  {
    assert ThreadOk(s, t);
    if s.threads[t].r == s.rd { assert PosOk(s, s.rd); }
    QuietKeeps(s, s', t);
  }

  lemma ClaimKeeps(s: State, s': State, t: Tid)
    requires Inv(s) && t in s.threads && ClaimWins(s, s', t, s.threads[t])
    ensures Inv(s') && s.threads[t].c == s.ct
  {
    assert ThreadOk(s, t);
    SameU32(s.ct, s.threads[t].c);
    forall p | 0 <= p < s'.ct ensures PosOk(s', p) { if p < s.ct { assert PosOk(s, p); } }
    forall p | s'.wt <= p < s'.wt + RING ensures FlagOk(s', p) { assert FlagOk(s, p); }
    forall u | u in s'.threads ensures ThreadOk(s', u) { if u != t { assert ThreadOk(s, u); } }
  }

  lemma WriteKeeps(s: State, s': State, t: Tid)
    requires Inv(s) && t in s.threads
    requires WriteHeader(s, s', t, s.threads[t]) || WritePayload(s, s', t, s.threads[t])
    ensures Inv(s')
  {
    assert ThreadOk(s, t);
    var c := s.threads[t].c;
    assert PosOk(s, c);
    forall p | 0 <= p < s'.ct ensures PosOk(s', p) {
      assert PosOk(s, p);
      if s.rd <= p && Index(p) == Index(c) { SameSlot(p, c); }
    }
    forall p | s'.wt <= p < s'.wt + RING ensures FlagOk(s', p) { assert FlagOk(s, p); }
    forall u | u in s'.threads ensures ThreadOk(s', u) {
      assert ThreadOk(s, u);
      OtherWriter(s, t, u);
    }
  }

  /** Two producers never write to the same slot at once. */
  lemma OtherWriter(s: State, t: Tid, u: Tid)
    requires Inv(s) && t in s.threads && u in s.threads
    requires var x := s.threads[t]; x.PHeader? || x.PPayload? || x.PFlag?
    ensures var x, y := s.threads[t], s.threads[u];
            u != t && (y.PHeader? || y.PPayload? || y.PFlag?) ==> Index(x.c) != Index(y.c)
  {
    var x, y := s.threads[t], s.threads[u];
    assert ThreadOk(s, t) && ThreadOk(s, u);
    if u != t && (y.PHeader? || y.PPayload? || y.PFlag?) && Index(x.c) == Index(y.c) {
      assert PosOk(s, x.c) && PosOk(s, y.c);
      SameSlot(x.c, y.c);
    }
  }

  lemma StoreFlagKeeps(s: State, s': State, t: Tid)
    requires Inv(s) && t in s.threads && StoreFlag(s, s', t, s.threads[t])
    ensures Inv(s')
  {
    var c := s.threads[t].c;
    assert ThreadOk(s, t) && PosOk(s, c);
    forall p | 0 <= p < s'.ct ensures PosOk(s', p) { assert PosOk(s, p); }
    forall p | s'.wt <= p < s'.wt + RING ensures FlagOk(s', p) {
      assert FlagOk(s, p);
      if Index(p) == Index(c) { SameSlot(p, c); }
    }
    forall u | u in s'.threads ensures ThreadOk(s', u) { assert ThreadOk(s, u); }
  }

  /** A flag that matches `c` belongs to `c`, and the write cursor stands at `c`. */
  lemma MatchingFlag(s: State, c: nat)
    requires Inv(s) && c <= s.wt && Fresh(s, c) && At(s, c).flag == Flag(c)
    ensures c == s.wt < s.ct && s.stage[c].Flagged?
  {
    var p := s.wt + Index(c - s.wt);
    assert Index(p) == Index(c);
    assert FlagOk(s, p);
    SameU32(p, c);
  }

  /** Taking the flag of the position at `wt`, by a producer or a consumer. */
  lemma TakeKeeps(s: State, s': State, t: Tid, c: nat)
    requires Inv(s) && t in s.threads && t in s'.threads
    requires c == s.wt < s.ct && s.stage[c].Flagged?
    requires s.threads[t] == HCas(c) || s.threads[t] == ECas(c)
    requires s'.threads[t] == HStore(c) || s'.threads[t] == EStore(c)
    requires s' == Mark(Set(SetSlot(s, c, At(s, c).(flag := 0)), t, s'.threads[t]), c, Taken(t))
    ensures Inv(s')
  {
    assert PosOk(s, c);
    forall p | 0 <= p < s'.ct ensures PosOk(s', p) { assert PosOk(s, p); }
    forall p | s'.wt <= p < s'.wt + RING ensures FlagOk(s', p) {
      assert FlagOk(s, p);
      if Index(p) == Index(c) { SameSlot(p, c); }
    }
    forall u | u in s'.threads ensures ThreadOk(s', u) { assert ThreadOk(s, u); }
  }

  /** Moving `wt` past the position whose flag the thread took. */
  lemma AdvanceKeeps(s: State, s': State, t: Tid)
    requires Inv(s) && t in s.threads
    requires Advance(s, s', t, s.threads[t]) || HelpStore(s, s', t, s.threads[t])
    ensures Inv(s') && s'.wt == s.wt + 1
  {
    var c := s.threads[t].c;
    assert ThreadOk(s, t) && PosOk(s, c);
    forall p | 0 <= p < s'.ct ensures PosOk(s', p) { assert PosOk(s, p); }
    forall p | s'.wt <= p < s'.wt + RING ensures FlagOk(s', p) { AdvanceFlag(s, s', t, p); }
    forall u | u in s'.threads ensures ThreadOk(s', u) { AdvanceThread(s, s', t, u); }
  }

  lemma AdvanceFlag(s: State, s': State, t: Tid, p: nat)
    requires Inv(s) && t in s.threads && s.wt < p <= s.wt + RING
    requires Advance(s, s', t, s.threads[t]) || HelpStore(s, s', t, s.threads[t])
    ensures Shape(s') && FlagOk(s', p)
  {
    var c := s.threads[t].c;
    assert ThreadOk(s, t) && PosOk(s, c);
    if p < s.wt + RING {
      assert FlagOk(s, p);
    } else {
      assert FlagOk(s, c) && Index(p) == Index(c);
    }
  }

  lemma AdvanceThread(s: State, s': State, t: Tid, u: Tid)
    requires Inv(s) && t in s.threads && u in s.threads
    requires Advance(s, s', t, s.threads[t]) || HelpStore(s, s', t, s.threads[t])
    ensures Shape(s') && ThreadOk(s', u)
  {
    assert ThreadOk(s, t) && ThreadOk(s, u);
    assert PosOk(s, s.threads[t].c);
  }

  /** A successful pop takes the element at `rd`, with the bytes its producer wrote. */
  lemma PopKeeps(s: State, s': State, t: Tid)
    requires Inv(s) && t in s.threads && PopWins(s, s', t, s.threads[t])
    ensures Inv(s')
    ensures s.rd < s.wt && s.threads[t].m == s.log[s.rd]
  {
    assert ThreadOk(s, t);
    SameU32(s.rd, s.threads[t].r);
    forall p | 0 <= p < s'.ct ensures PosOk(s', p) { assert PosOk(s, p); }
    forall p | s'.wt <= p < s'.wt + RING ensures FlagOk(s', p) { assert FlagOk(s, p); }
    forall u | u in s'.threads ensures ThreadOk(s', u) { assert ThreadOk(s, u); }
  }

  // Runs ----------------------------------------------------------------------------

  lemma PushKeeps(s: State, s': State, t: Tid)
    requires Inv(s) && t in s.threads && PushStep(s, s', t, s.threads[t])
    ensures Inv(s')
  {
    var x := s.threads[t];
    if ClaimWins(s, s', t, x) { ClaimKeeps(s, s', t); }
    else if WriteHeader(s, s', t, x) || WritePayload(s, s', t, x) { WriteKeeps(s, s', t); }
    else if StoreFlag(s, s', t, x) { StoreFlagKeeps(s, s', t); }
    else if TakeFlag(s, s', t, x) { TakeFlagKeeps(s, s', t); }
    else if Advance(s, s', t, x) { AdvanceKeeps(s, s', t); }
    else { LoadsKeep(s, s', t); }
  }

  lemma TakeFlagKeeps(s: State, s': State, t: Tid)
    requires Inv(s) && t in s.threads && TakeFlag(s, s', t, s.threads[t])
    ensures Inv(s')
  {
    var c := s.threads[t].c;
    assert ThreadOk(s, t);
    if At(s, c).flag == Flag(c) {
      MatchingFlag(s, c);
      TakeKeeps(s, s', t, c);
    } else {
      QuietKeeps(s, s', t);
    }
  }

  lemma HelpKeeps(s: State, s': State, t: Tid)
    requires Inv(s) && t in s.threads && HelpWins(s, s', t, s.threads[t])
    ensures Inv(s')
  {
    assert ThreadOk(s, t);
    MatchingFlag(s, s.threads[t].c);
    TakeKeeps(s, s', t, s.threads[t].c);
  }

  lemma PopStepKeeps(s: State, s': State, t: Tid)
    requires Inv(s) && t in s.threads && PopStep(s, s', t, s.threads[t])
    ensures Inv(s')
  {
    var x := s.threads[t];
    if HelpWins(s, s', t, x) { HelpKeeps(s, s', t); }
    else if HelpStore(s, s', t, x) { AdvanceKeeps(s, s', t); }
    else if CopyHeader(s, s', t, x) || CopyPayload(s, s', t, x) { CopyKeeps(s, s', t); }
    else if PopWins(s, s', t, x) { PopKeeps(s, s', t); }
    else { PopLoadsKeep(s, s', t); }
  }

  lemma StepKeeps(s: State, s': State)
    requires Inv(s) && Step(s, s')
    ensures Inv(s')
  {
    var t :| StepOf(s, s', t);
    if PushStep(s, s', t, s.threads[t]) { PushKeeps(s, s', t); } else { PopStepKeeps(s, s', t); }
  }

  lemma {:induction false} RunInv(tr: seq<State>, k: nat)
    requires Run(tr) && k < |tr|
    ensures Inv(tr[k])
  {
    if k == 0 {
      InitInv(tr[0]);
    } else {
      RunInv(tr, k - 1);
      assert StepAt(tr, k);
      StepKeeps(tr[k - 1], tr[k]);
    }
  }

  lemma PushLog(s: State, s': State, t: Tid, x: Thread)
    requires PushStep(s, s', t, x)
    ensures s.log <= s'.log && s'.popped == s.popped
  {
  }

  lemma PopLog(s: State, s': State, t: Tid, x: Thread)
    requires PopStep(s, s', t, x)
    ensures s.log == s'.log && s.popped <= s'.popped
  {
  }

  lemma {:induction false} LogGrows(tr: seq<State>, j: nat, k: nat)
    requires Run(tr) && j <= k < |tr|
    ensures tr[j].log <= tr[k].log && tr[j].popped <= tr[k].popped
    decreases k
  {
    if j < k {
      LogGrows(tr, j, k - 1);
      assert StepAt(tr, k);
      var s, s' := tr[k - 1], tr[k];
      var t :| StepOf(s, s', t);
      if PushStep(s, s', t, s.threads[t]) { PushLog(s, s', t, s.threads[t]); } else { PopLog(s, s', t, s.threads[t]); }
    }
  }

  lemma PushCursors(s: State, s': State, t: Tid)
    requires Inv(s) && t in s.threads && PushStep(s, s', t, s.threads[t])
    ensures s.rd <= s'.rd && s.wt <= s'.wt
  {
    var x := s.threads[t];
    assert ThreadOk(s, t);
    if x.HStore? { assert PosOk(s, x.c); }
  }

  lemma PopCursors(s: State, s': State, t: Tid)
    requires Inv(s) && t in s.threads && PopStep(s, s', t, s.threads[t])
    ensures s.rd <= s'.rd && s.wt <= s'.wt
  {
    var x := s.threads[t];
    assert ThreadOk(s, t);
    if x.EStore? { assert PosOk(s, x.c); }
  }

  /** All three cursors only move forward. */
  lemma {:induction false} CursorsGrow(tr: seq<State>, j: nat, k: nat)
    requires Run(tr) && j <= k < |tr|
    ensures tr[j].rd <= tr[k].rd && tr[j].wt <= tr[k].wt && tr[j].ct <= tr[k].ct
    decreases k
  {
    RunInv(tr, k);
    if j < k {
      CursorsGrow(tr, j, k - 1);
      LogGrows(tr, k - 1, k);
      RunInv(tr, k - 1);
      assert StepAt(tr, k);
      var s, s' := tr[k - 1], tr[k];
      var t :| StepOf(s, s', t);
      if PushStep(s, s', t, s.threads[t]) { PushCursors(s, s', t); } else { PopCursors(s, s', t); }
    }
  }

  /** In every state of every run the cursors are ordered and within one lap, and every
      element between the read and the write cursor is completely written. */
  lemma CursorsBounded(tr: seq<State>, k: nat, p: nat)
    requires Run(tr) && k < |tr|
    ensures tr[k].rd <= tr[k].wt <= tr[k].ct == |tr[k].log| <= tr[k].rd + 255
    ensures tr[k].rd <= p < tr[k].wt ==> Fragment(At(tr[k], p).header, At(tr[k], p).payload) == tr[k].log[p]
  {
    RunInv(tr, k);
    if tr[k].rd <= p < tr[k].wt { assert PosOk(tr[k], p); }
  }

  /** Exactly once, in commit order: whatever has been popped by any point of a run is
      the first `rd` elements of the final claim log. */
  lemma PoppedOnceInOrder(tr: seq<State>, k: nat)
    requires Run(tr) && k < |tr|
    ensures tr[k].rd <= |tr[|tr| - 1].log| && tr[k].popped == tr[|tr| - 1].log[..tr[k].rd]
  {
    RunInv(tr, k);
    LogGrows(tr, k, |tr| - 1);
  }

  /** The consumer whose CAS wins in step `k` returns the element at `rd`. */
  lemma PopReturnsNext(tr: seq<State>, k: nat, t: Tid)
    requires Run(tr) && 0 < k < |tr| && t in tr[k - 1].threads
    requires PopWins(tr[k - 1], tr[k], t, tr[k - 1].threads[t])
    ensures tr[k - 1].rd < |tr[|tr| - 1].log|
    ensures tr[k - 1].threads[t].m == tr[|tr| - 1].log[tr[k - 1].rd]
    ensures tr[k].rd == tr[k - 1].rd + 1
  {
    RunInv(tr, k - 1);
    PopKeeps(tr[k - 1], tr[k], t);
    LogGrows(tr, k - 1, |tr| - 1);
  }
}
