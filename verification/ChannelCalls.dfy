/** What a call on the multi-writer channel answers: a push keeps its message through every
    wait and every lost race, and returns only with the message committed, or having given up
    while it was held up; a receive that has seen an element goes on until it has popped it. */
module ChannelCalls {
  import opened RingWords
  import opened ChannelRing
  import opened ChannelOrder

  // Steps of a push -------------------------------------------------------------------------

  /** In the claim loop of `push_fragment_multi`. */
  predicate Claiming(x: Writer) {
    x.WLoop? || x.WCc? || x.WCt? || x.WRc? || x.WHeld? || x.WFree?
  }

  /** What a writer in the claim loop does next: it keeps its message and claims nothing, claims
      the next position for it, or gives up while it is held up. */
  ghost predicate ClaimMoves(s: State, s': State, w: Tid)
    requires w in s.writers && Claiming(s.writers[w])
  {
    && w in s'.writers
    && var x, x' := s.writers[w], s'.writers[w];
       || (Claiming(x') && x'.msg == x.msg)
       || (x' == WClaimed(x.msg, s.epoch, |s.log|) && s'.log == s.log + [Claim(w, x.msg)])
       || (x' == WIdle && x.WHeld? && s'.log == s.log)
  }

  /** The element at position `c` is `m`, completely written and committed. */
  ghost predicate CommittedAt(s: State, c: nat, m: Fragment) {
    c < U32 && At(s, c).flag == Committed(c) && At(s, c).header == m.header && At(s, c).payload == m.payload
  }

  /** What a writer past its claim does next: it keeps position and message until the element
      is written and committed, and then returns. */
  ghost predicate CommitMoves(s: State, s': State, w: Tid)
    requires w in s.writers && (Owning(s.writers[w]) || s.writers[w].WMarks?)
  {
    && w in s'.writers
    && var x, x' := s.writers[w], s'.writers[w];
       if Owning(x)
       then (Owning(x') && x'.c == x.c && x'.msg == x.msg) || (x' == WMarks(x.c) && CommittedAt(s', x.c, x.msg))
       else x' == x || x' == WIdle
  }

  lemma WriterFrame(s: State, s': State, w: Tid, x: Writer)
    requires WriterStep(s, s', w, x)
    ensures w in s'.writers && s'.writers == s.writers[w := s'.writers[w]] && s'.readers == s.readers
  {
    if WriterLoads(s, s', w, x) { WriterLoadsFrame(s, s', w, x); } else { WriterStoresFrame(s, s', w, x); }
  }

  lemma OthersStand(s: State, s': State, v: Tid, w: Tid)
    requires v in s.writers && WriterStep(s, s', v, s.writers[v]) && w in s.writers && w != v
    ensures w in s'.writers && s'.writers[w] == s.writers[w]
  {
    WriterFrame(s, s', v, s.writers[v]);
  }

  lemma ClaimStepMoves(s: State, s': State, w: Tid)
    requires Inv(s) && s.cc != {} && w in s.writers && Claiming(s.writers[w]) && WriterStep(s, s', w, s.writers[w])
    ensures ClaimMoves(s, s', w)
  {
    assert WriterOk(s, w);
    if ClaimWins(s, s', w, s.writers[w]) { ClaimIsNext(s, s', w); }
    else { assert WriterLoads(s, s', w, s.writers[w]); WriterLoadsFrame(s, s', w, s.writers[w]); }
  }

  lemma CommitStepMoves(s: State, s': State, w: Tid)
    requires Inv(s) && w in s.writers && (Owning(s.writers[w]) || s.writers[w].WMarks?)
    requires WriterStep(s, s', w, s.writers[w])
    ensures CommitMoves(s, s', w)
  {
    assert WriterOk(s, w);
  }

  /** In every step of every run: a push in its claim loop keeps its message, claims the next
      position for it, or gives up while it is held up; losing the claiming CAS never makes
      it return. */
  lemma PushReturns(tr: seq<State>, k: nat, w: Tid)
    requires Run(tr) && 0 < k < |tr| && w in tr[k - 1].writers && Claiming(tr[k - 1].writers[w])
    ensures ClaimMoves(tr[k - 1], tr[k], w)
  {
    RunInv(tr, k - 1);
    LogGrows(tr, 0, k - 1);
    assert StepAt(tr, k);
    var s, s' := tr[k - 1], tr[k];
    if v :| v in s.writers && WriterStep(s, s', v, s.writers[v]) {
      if v == w { ClaimStepMoves(s, s', w); } else { OthersStand(s, s', v, w); }
    } else {
      var r :| r in s.readers && ReaderStep(s, s', r, s.readers[r]);
      ReaderFrame(s, s', r, s.readers[r]);
    }
  }

  /** And past its claim it returns only with the element committed. */
  lemma PushCommits(tr: seq<State>, k: nat, w: Tid)
    requires Run(tr) && 0 < k < |tr| && w in tr[k - 1].writers
    requires Owning(tr[k - 1].writers[w]) || tr[k - 1].writers[w].WMarks?
    ensures CommitMoves(tr[k - 1], tr[k], w)
  {
    RunInv(tr, k - 1);
    assert StepAt(tr, k);
    var s, s' := tr[k - 1], tr[k];
    if v :| v in s.writers && WriterStep(s, s', v, s.writers[v]) {
      if v == w { CommitStepMoves(s, s', w); } else { OthersStand(s, s', v, w); }
    } else {
      var r :| r in s.readers && ReaderStep(s, s', r, s.readers[r]);
      ReaderFrame(s, s', r, s.readers[r]);
    }
  }

  // A whole push ----------------------------------------------------------------------------

  ghost predicate Offers(s: State, w: Tid, m: Fragment) {
    w in s.writers && Claiming(s.writers[w]) && s.writers[w].msg == m
  }

  /** It has claimed position `c`, from `c0` on, for `m`, and is writing it or has committed. */
  ghost predicate Placed(s: State, w: Tid, m: Fragment, c0: nat, c: nat) {
    && c0 <= c < |s.log| && s.log[c] == Claim(w, m) && w in s.writers
    && var x := s.writers[w];
       (Owning(x) && x.c == c && x.msg == m) || x == WMarks(c) || x == WIdle
  }

  /** One call of `push_fragment_multi(m)` by `w`, from its first step in state `j` to its
      return in `k`. */
  ghost predicate PushCall(tr: seq<State>, j: nat, k: nat, w: Tid, m: Fragment) {
    && j < k < |tr| && w in tr[j].writers && tr[j].writers[w] == WLoop(m, tr[j].epoch)
    && (forall i | j <= i < k :: w in tr[i].writers && tr[i].writers[w] != WIdle)
    && w in tr[k].writers && tr[k].writers[w] == WIdle
  }

  lemma PlacedMoves(s: State, s': State, w: Tid, m: Fragment, c0: nat, c: nat)
    requires Placed(s, w, m, c0, c) && s.writers[w] != WIdle && s.log <= s'.log && CommitMoves(s, s', w)
    ensures Placed(s', w, m, c0, c)
  {
  }

  lemma {:induction false} PushUnderWay(tr: seq<State>, j: nat, i: nat, k: nat, w: Tid, m: Fragment)
      returns (c: nat)
    requires Run(tr) && PushCall(tr, j, k, w, m) && j <= i <= k
    ensures (forall h | j <= h < i :: Offers(tr[h], w, m)) || Placed(tr[i], w, m, |tr[j].log|, c)
    ensures Offers(tr[i], w, m) || Placed(tr[i], w, m, |tr[j].log|, c) || i == k
    decreases i
  {
    c := |tr[j].log|;
    if i > j {
      c := PushUnderWay(tr, j, i - 1, k, w, m);
      LogGrows(tr, j, i - 1);
      LogGrows(tr, i - 1, i);
      if Placed(tr[i - 1], w, m, |tr[j].log|, c) {
        PushCommits(tr, i, w);
        PlacedMoves(tr[i - 1], tr[i], w, m, |tr[j].log|, c);
      } else {
        PushReturns(tr, i, w);
        if tr[i].writers[w].WClaimed? { c := |tr[i - 1].log|; }
      }
    }
  }

  /** The answer of a whole call, whatever else runs: either `m` is in the log under the name of
      `w`, at a position claimed during the call, and its element was committed; or nothing
      was claimed for it and the call gave up while it was held up. */
  lemma PushAnswers(tr: seq<State>, j: nat, k: nat, w: Tid, m: Fragment) returns (c: nat)
    requires Run(tr) && PushCall(tr, j, k, w, m)
    ensures || (|tr[j].log| <= c < |tr[k].log| && tr[k].log[c] == Claim(w, m) && tr[k - 1].writers[w] == WMarks(c))
            || (&& (forall h | j <= h < k :: Offers(tr[h], w, m))
                && tr[k - 1].writers[w].WHeld?)
  {
    c := PushUnderWay(tr, j, k - 1, k, w, m);
    if Placed(tr[k - 1], w, m, |tr[j].log|, c) {
      PushCommits(tr, k, w);
      LogGrows(tr, k - 1, k);
    } else {
      PushReturns(tr, k, w);
    }
  }

  // What holds a push up ----------------------------------------------------------------------

  /** Index `c` cannot be claimed: it has been claimed, or some receiver has not read the
      element one lap before. */
  ghost predicate Taken(s: State, c: nat) {
    At(s, c).pos >= c || !EveryoneRead(s, c - RING)
  }

  /** A slot found marked is taken. */
  lemma MarkedIsTaken(s: State, c: nat)
    requires Inv(s) && c <= s.ct && At(s, c).rc.marks != {}
    ensures Taken(s, c)
  {
    assert SlotOk(s, Index(c));
    var r :| r in At(s, c).rc.marks;
    assert r in s.readers;
  }

  /** So is an unmarked one whose flag is not free. */
  lemma FlaggedIsTaken(s: State, c: nat)
    requires Inv(s) && c <= s.ct && At(s, c).rc.marks == {} && At(s, c).flag !in {c, 0}
    ensures Taken(s, c)
  {
    assert SlotOk(s, Index(c));
  }

  /** An unmarked slot changes only by being claimed again. */
  ghost predicate Untouched(t: Slot, t': Slot) {
    (t'.rc == t.rc && t'.pos == t.pos) || t'.pos > t.pos
  }

  ghost predicate SlotMoves(t: Slot, t': Slot) {
    t.pos <= t'.pos && (t.rc.marks == {} ==> Untouched(t, t'))
  }

  lemma WriterSlot(tr: seq<State>, k: nat, w: Tid, i: nat)
    requires Run(tr) && 0 < k < |tr| && i < RING
    requires w in tr[k - 1].writers && WriterStep(tr[k - 1], tr[k], w, tr[k - 1].writers[w])
    ensures SlotMoves(tr[k - 1].slots[i], tr[k].slots[i])
  {
    var s, s', x := tr[k - 1], tr[k], tr[k - 1].writers[w];
    RunInv(tr, k - 1);
    if WriterLoads(s, s', w, x) { WriterLoadsFrame(s, s', w, x); }
    else if ClaimWins(s, s', w, x) { ClaimIsNext(s, s', w); }
  }

  lemma ReaderSlot(tr: seq<State>, k: nat, r: Bit, i: nat)
    requires Run(tr) && 0 < k < |tr| && i < RING
    requires r in tr[k - 1].readers && ReaderStep(tr[k - 1], tr[k], r, tr[k - 1].readers[r])
    ensures SlotMoves(tr[k - 1].slots[i], tr[k].slots[i])
  {
    var s, s', x := tr[k - 1], tr[k], tr[k - 1].readers[r];
    RunInv(tr, k - 1);
    if ReaderLoads(s, s', r, x) { ReaderLoadsFrame(s, s', r, x); }
    else if ClearWins(s, s', r, x) { OwnMarkStays(s, r); }
  }

  lemma SlotStep(tr: seq<State>, k: nat, i: nat)
    requires Run(tr) && 0 < k < |tr| && i < RING
    ensures SlotMoves(tr[k - 1].slots[i], tr[k].slots[i])
  {
    assert StepAt(tr, k);
    var s, s' := tr[k - 1], tr[k];
    if w :| w in s.writers && WriterStep(s, s', w, s.writers[w]) {
      WriterSlot(tr, k, w, i);
    } else {
      var r :| r in s.readers && ReaderStep(s, s', r, s.readers[r]);
      ReaderSlot(tr, k, r, i);
    }
  }

  lemma {:induction false} UnmarkedStays(tr: seq<State>, j: nat, k: nat, i: nat)
    requires Run(tr) && j <= k < |tr| && i < RING && tr[j].slots[i].rc.marks == {}
    ensures Untouched(tr[j].slots[i], tr[k].slots[i])
    decreases k
  {
    if j < k {
      UnmarkedStays(tr, j, k - 1, i);
      SlotStep(tr, k, i);
    }
  }

  /** Writer `w` loads its `rc_` in state `j`. */
  ghost predicate LoadsAt(tr: seq<State>, j: int, w: Tid, x: Writer) {
    && 0 <= j < |tr| && w in tr[j].writers && x.WRc? && tr[j].writers[w] == WCt(x.msg, x.ep, x.cc, x.c)
    && x.rc == At(tr[j], x.c).rc
  }

  lemma StoresNoLoad(s: State, s': State, w: Tid, x: Writer)
    requires WriterStores(s, s', w, x) && w in s'.writers
    ensures !s'.writers[w].WRc?
  {
  }

  lemma EarlyNoLoad(s: State, s': State, w: Tid, x: Writer)
    requires WriterLoads(s, s', w, x) && w in s'.writers && (x.WIdle? || x.WLoop? || x.WCc? || x.WHeld?)
    ensures !s'.writers[w].WRc?
  {
  }

  /** Only a load of `rc_` brings a writer to the tests. */
  lemma OwnLoad(s: State, s': State, w: Tid, x: Writer)
    requires WriterStep(s, s', w, x) && w in s'.writers && s'.writers[w].WRc?
    ensures LoadSlotRc(s, s', w, x)
  {
    if WriterStores(s, s', w, x) { StoresNoLoad(s, s', w, x); }
    else if x.WIdle? || x.WLoop? || x.WCc? || x.WHeld? { EarlyNoLoad(s, s', w, x); }
  }

  lemma LoadMoves(tr: seq<State>, k: nat, w: Tid)
    requires Run(tr) && 0 < k < |tr| && w in tr[k].writers && tr[k].writers[w].WRc?
    ensures w in tr[k - 1].writers
    ensures tr[k - 1].writers[w] == tr[k].writers[w] || LoadSlotRc(tr[k - 1], tr[k], w, tr[k - 1].writers[w])
  {
    assert StepAt(tr, k);
    var s, s' := tr[k - 1], tr[k];
    if v :| v in s.writers && WriterStep(s, s', v, s.writers[v]) {
      WriterFrame(s, s', v, s.writers[v]);
      if v == w { OwnLoad(s, s', w, s.writers[w]); }
    } else {
      var r :| r in s.readers && ReaderStep(s, s', r, s.readers[r]);
      ReaderFrame(s, s', r, s.readers[r]);
    }
  }

  lemma {:induction false} LoadedBefore(tr: seq<State>, k: nat, w: Tid) returns (j: nat)
    requires Run(tr) && k < |tr| && w in tr[k].writers && tr[k].writers[w].WRc?
    ensures j < k && LoadsAt(tr, j, w, tr[k].writers[w])
  {
    LoadMoves(tr, k, w);
    if tr[k - 1].writers[w] == tr[k].writers[w] {
      j := LoadedBefore(tr, k - 1, w);
    } else {
      j := k - 1;
    }
  }

  /** A push is held up only by a slot that was taken, when it loaded `rc_` or when it tested
      the flag: its index had been claimed, or some receiver had not read the element it
      would have overwritten. */
  lemma HeldUpMeansTaken(tr: seq<State>, k: nat, w: Tid) returns (j: nat)
    requires Run(tr) && 0 < k < |tr| && w in tr[k - 1].writers && tr[k - 1].writers[w].WRc?
    requires Decide(tr[k - 1], tr[k], w, tr[k - 1].writers[w]) && tr[k].writers[w].WHeld?
    ensures j < k && w in tr[j].writers && (tr[j].writers[w].WCt? || tr[j].writers[w].WRc?)
    ensures tr[j].writers[w].c == tr[k - 1].writers[w].c && Taken(tr[j], tr[j].writers[w].c)
  {
    var s, x := tr[k - 1], tr[k - 1].writers[w];
    j := LoadedBefore(tr, k - 1, w);
    RunInv(tr, j);
    assert WriterOk(tr[j], w);
    if x.rc.marks != {} {
      MarkedIsTaken(tr[j], x.c);
    } else {
      HeldByFlag(tr, j, k - 1, w);
      j := k - 1;
    }
  }

  lemma NextLap(p: int, c: nat)
    requires Index(p) == Index(c) && p > c - RING
    ensures p >= c
  {
    if p < c { SameSlot(p, c); }
  }

  lemma HeldByFlag(tr: seq<State>, j: nat, k: nat, w: Tid)
    requires Run(tr) && j <= k < |tr| && w in tr[k].writers && LoadsAt(tr, j, w, tr[k].writers[w])
    requires var x := tr[k].writers[w]; x.rc.marks == {} && At(tr[k], x.c).flag !in {x.c, 0}
    ensures Taken(tr[k], tr[k].writers[w].c)
  {
    var c := tr[k].writers[w].c;
    UnmarkedStays(tr, j, k, Index(c));
    LapBefore(tr, j, w);
    RunInv(tr, k);
    assert WriterOk(tr[k], w);
    if At(tr[k], c).pos == At(tr[j], c).pos {
      FlaggedIsTaken(tr[k], c);
    } else {
      assert SlotOk(tr[k], Index(c));
      NextLap(At(tr[k], c).pos, c);
    }
  }

  /** The slot of a loaded index holds the element one lap before, or a later one. */
  lemma LapBefore(tr: seq<State>, j: nat, w: Tid)
    requires Run(tr) && j < |tr| && w in tr[j].writers && tr[j].writers[w].WCt?
    ensures At(tr[j], tr[j].writers[w].c).pos >= tr[j].writers[w].c - RING
  {
    RunInv(tr, j);
    assert WriterOk(tr[j], w) && SlotOk(tr[j], Index(tr[j].writers[w].c));
  }

  // recv ------------------------------------------------------------------------------------

  /** What a reader past the commit check does next: it stays at its element, or has popped it
      with the bytes of its claim. */
  ghost predicate ReadMoves(s: State, s': State, r: Bit)
    requires r in s.readers
  {
    && r in s'.readers
    && var x, x' := s.readers[r], s'.readers[r];
       || (!x'.pc.Poll? && x'.cur == x.cur && x'.popped == x.popped)
       || (x'.pc.Poll? && x.cur < |s.log| && x'.cur == x.cur + 1 && x'.popped == x.popped + [s.log[x.cur].msg])
  }

  lemma ReaderMoves(tr: seq<State>, k: nat, r: Bit)
    requires Run(tr) && 0 < k < |tr| && r in tr[k - 1].readers && !tr[k - 1].readers[r].pc.Poll?
    requires ReaderStep(tr[k - 1], tr[k], r, tr[k - 1].readers[r])
    ensures ReadMoves(tr[k - 1], tr[k], r)
  {
    RunInv(tr, k - 1);
    assert ReaderOk(tr[k - 1], r);
  }

  lemma OtherReader(s: State, s': State, q: Bit, r: Bit)
    requires q in s.readers && ReaderStep(s, s', q, s.readers[q]) && r in s.readers && r != q
    ensures r in s'.readers && s'.readers[r] == s.readers[r]
  {
    ReaderFrame(s, s', q, s.readers[q]);
  }

  /** In every step of every run: a receiver that has seen an element goes on until it has
      popped it, whatever races it loses on the way. */
  lemma ReadReturns(tr: seq<State>, k: nat, r: Bit)
    requires Run(tr) && 0 < k < |tr| && r in tr[k - 1].readers && !tr[k - 1].readers[r].pc.Poll?
    ensures ReadMoves(tr[k - 1], tr[k], r)
  {
    assert StepAt(tr, k);
    var s, s' := tr[k - 1], tr[k];
    if w :| w in s.writers && WriterStep(s, s', w, s.writers[w]) {
      WriterFrame(s, s', w, s.writers[w]);
    } else {
      var q :| q in s.readers && ReaderStep(s, s', q, s.readers[q]);
      if q == r { ReaderMoves(tr, k, r); } else { OtherReader(s, s', q, r); }
    }
  }
}
