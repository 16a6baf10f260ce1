/** Total order of the multi-writer channel: the invariant of `ChannelRing` and what it
    gives over whole runs. */
module ChannelOrder {
  import opened RingWords
  import opened ChannelRing

  predicate Owning(x: Writer) {
    x.WClaimed? || x.WOwner? || x.WHeader? || x.WPayload? || x.WCommit?
  }

  /** `was` was loaded from the word `now`: equal generations mean nothing changed. */
  predicate Loaded(was: Rc, now: Rc) {
    was.gen <= now.gen && (was.gen == now.gen ==> was == now)
  }

  ghost predicate Shape(s: State) {
    && s.readers.Keys == s.cc && s.start.Keys == s.cc
    && (forall r | r in s.cc && r in s.since :: s.since[r] <= s.start[r])
    && s.ct <= |s.log| <= s.ct + 1 && |s.log| <= POSITIONS
  }

  ghost predicate SlotOk(s: State, i: int)
    requires Shape(s) && 0 <= i < RING
  {
    var t := s.slots[i];
    && Index(t.pos) == i && |s.log| - RING <= t.pos < |s.log|
    && t.rc.epoch == s.epoch && t.rc.marks <= s.cc
    && (t.pos < 0 ==> t.rc.marks == {} && t.flag == 0 && !t.open)
    && (t.pos >= 0 ==> MarksOk(s, t))
  }

  /** The marks of a claimed slot are the readers still to read it. */
  ghost predicate MarksOk(s: State, t: Slot)
    requires Shape(s) && 0 <= t.pos < |s.log| && t.rc.marks <= s.cc
  {
    && (forall r | r in s.cc :: r in t.rc.marks <==> s.readers[r].cur <= t.pos)
    && (t.open ==> t.flag == FreeFlag(t.pos) && t.rc.marks != {})
    && (!t.open ==>
          && (t.flag == Committed(t.pos) || t.flag == Released(t.pos))
          && Fragment(t.header, t.payload) == s.log[t.pos].msg
          && (t.rc.marks == {} ==> t.flag == Released(t.pos))
          && (t.flag == Released(t.pos) ==> forall r | r in t.rc.marks :: Leaving(s.readers[r], t.pos)))
  }

  /** A reader that has copied element `p` and is clearing its mark. */
  predicate Leaving(x: Reader, p: int) {
    x.cur == p && (x.pc.LoadRc? || x.pc.Test? || x.pc.Cas?)
  }

  ghost predicate WriterOk(s: State, w: Tid)
    requires Shape(s) && w in s.writers
  {
    var x := s.writers[w];
    && ((x.WLoop? || x.WCc? || x.WCt? || x.WRc? || x.WHeld? || x.WFree? || x.WClaimed?) ==> x.ep == s.epoch)
    && ((x.WCc? || x.WCt? || x.WRc? || x.WFree?) ==> x.cc == s.cc)
    && ((x.WCt? || x.WRc? || x.WFree?) ==> x.cc != {} && x.c <= s.ct)
    && ((x.WRc? || x.WFree?) ==> Loaded(x.rc, At(s, x.c).rc) && x.rc.epoch == s.epoch && x.rc.marks <= s.cc)
    && (x.WFree? ==> x.rc.marks == {} && (x.rc.gen == At(s, x.c).rc.gen ==> At(s, x.c).pos == x.c - RING))
    && (Owning(x) ==> OwnerOk(s, w))
  }

  ghost predicate OwnerOk(s: State, w: Tid)
    requires Shape(s) && w in s.writers && Owning(s.writers[w])
  {
    var x := s.writers[w];
    && x.c < |s.log| && s.log[x.c] == Claim(w, x.msg)
    && At(s, x.c).pos == x.c && At(s, x.c).open
    && ((x.WClaimed? || x.WOwner?) ==> x.c == s.ct)
    && ((x.WPayload? || x.WCommit?) ==> At(s, x.c).header == x.msg.header)
    && (x.WCommit? ==> At(s, x.c).payload == x.msg.payload)
  }

  /** The fragments of a claim log. */
  function Messages(log: seq<Claim>): (ms: seq<Fragment>)
    ensures |ms| == |log| && forall k | 0 <= k < |log| :: ms[k] == log[k].msg
  {
    seq(|log|, k requires 0 <= k < |log| => log[k].msg)
  }

  ghost predicate ReaderOk(s: State, r: Bit)
    requires Shape(s) && r in s.cc
  {
    var x := s.readers[r];
    && s.start[r] <= x.cur <= |s.log| <= x.cur + RING
    && x.popped == Messages(s.log)[s.start[r]..x.cur]
    && (!x.pc.Poll? ==> ReadingOk(s, r))
  }

  /** A reader past the commit check works on a slot that still holds its position. */
  ghost predicate ReadingOk(s: State, r: Bit)
    requires Shape(s) && r in s.cc
  {
    var x := s.readers[r];
    && x.cur < |s.log|
    && var t := At(s, x.cur);
       && t.pos == x.cur && !t.open
       && (x.pc.Payload? ==> x.pc.h == s.log[x.cur].msg.header)
       && (x.pc.LoadRc? || x.pc.Test? || x.pc.Cas? ==> x.pc.m == s.log[x.cur].msg)
       && (x.pc.Test? || x.pc.Cas? ==> Loaded(x.pc.rc, t.rc) && r in x.pc.rc.marks && t.rc.marks <= x.pc.rc.marks)
       && (x.pc.Cas? && x.pc.rc.marks == {r} ==> t.flag == Released(x.cur))
  }

  ghost predicate Inv(s: State) {
    && Shape(s)
    && (forall i | 0 <= i < RING :: SlotOk(s, i))
    && (forall w | w in s.writers :: WriterOk(s, w))
    && (forall r | r in s.cc :: ReaderOk(s, r))
  }

  lemma InitInv(s: State)
    requires Init(s)
    ensures Inv(s)
  {
  }

  // The claim -------------------------------------------------------------------------

  /** Every receiver is past position `p`. */
  ghost predicate EveryoneRead(s: State, p: int) {
    forall r | r in s.readers :: p < s.readers[r].cur
  }

  /** A successful CAS on `rc_` is a claim of the next position, and every reader has
      already read the element it overwrites. */
  lemma ClaimIsNext(s: State, s': State, w: Tid)
    requires Inv(s) && w in s.writers && ClaimWins(s, s', w, s.writers[w])
    ensures s.writers[w].c == s.ct == |s.log|
    ensures At(s, s.ct).pos == s.ct - RING && At(s, s.ct).rc == s.writers[w].rc
    ensures EveryoneRead(s, s.ct - RING)
  {
    var x := s.writers[w];
    assert WriterOk(s, w);
    SameGeneration(At(s, x.c).rc.gen, x.rc.gen);
    assert SlotOk(s, Index(x.c));
    forall r | r in s.cc ensures s.ct - RING < s.readers[r].cur {
      assert ReaderOk(s, r);
    }
  }

  lemma ClaimKeepsSlot(s: State, s': State, w: Tid, i: nat)
    requires Inv(s) && w in s.writers && ClaimWins(s, s', w, s.writers[w]) && i < RING
    ensures Shape(s') && SlotOk(s', i)
  {
    ClaimIsNext(s, s', w);
    assert WriterOk(s, w) && SlotOk(s, i);
    if i == Index(s.ct) {
      forall r | r in s.cc ensures s'.readers[r].cur <= s.ct { assert ReaderOk(s, r); }
    } else {
      assert s.slots[i].pos != s.ct - RING;
    }
  }

  lemma ClaimKeeps(s: State, s': State, w: Tid)
    requires Inv(s) && w in s.writers && ClaimWins(s, s', w, s.writers[w])
    ensures Inv(s')
  {
    ClaimIsNext(s, s', w);
    var c := s.ct;
    forall i | 0 <= i < RING ensures SlotOk(s', i) { ClaimKeepsSlot(s, s', w, i); }
    forall v | v in s'.writers ensures WriterOk(s', v) {
      assert WriterOk(s, v);
      assert SlotOk(s, Index(c));
    }
    forall r | r in s'.cc ensures ReaderOk(s', r) {
      assert ReaderOk(s, r);
    }
  }

  // Steps that change no slot ---------------------------------------------------------

  /** Everything the slots and the readers depend on is as before. */
  lemma QuietWriterKeeps(s: State, s': State, w: Tid)
    requires Inv(s) && w in s.writers
    requires w in s'.writers && s' == s.(writers := s.writers[w := s'.writers[w]])
    requires WriterOk(s', w)
    ensures Inv(s')
  {
    forall i | 0 <= i < RING ensures SlotOk(s', i) { assert SlotOk(s, i); }
    forall v | v in s'.writers ensures WriterOk(s', v) { if v != w { assert WriterOk(s, v); } }
    forall r | r in s'.cc ensures ReaderOk(s', r) { assert ReaderOk(s, r); }
  }

  lemma LoadsOk(s: State, s': State, w: Tid)
    requires Inv(s) && w in s.writers && WriterLoads(s, s', w, s.writers[w]) && !s.writers[w].WRc?
    ensures Shape(s') && w in s'.writers && WriterOk(s', w)
  {
    WriterLoadsFrame(s, s', w, s.writers[w]);
    assert WriterOk(s, w);
    if s.writers[w].WCt? { assert SlotOk(s, Index(s.writers[w].c)); }
  }

  lemma LoadsKeep(s: State, s': State, w: Tid)
    requires Inv(s) && w in s.writers && WriterLoads(s, s', w, s.writers[w]) && !s.writers[w].WRc?
    ensures Inv(s')
  {
    WriterLoadsFrame(s, s', w, s.writers[w]);
    LoadsOk(s, s', w);
    QuietWriterKeeps(s, s', w);
  }

  /** The flag test: a slot found free belongs to the position the writer loaded, for as
      long as its `rc_` does not move. */
  lemma DecideKeeps(s: State, s': State, w: Tid)
    requires Inv(s) && w in s.writers && Decide(s, s', w, s.writers[w])
    ensures Inv(s')
  {
    DecideOk(s, s', w);
    QuietWriterKeeps(s, s', w);
  }

  lemma DecideOk(s: State, s': State, w: Tid)
    requires Inv(s) && w in s.writers && Decide(s, s', w, s.writers[w])
    ensures Shape(s') && w in s'.writers && WriterOk(s', w)
  {
    assert WriterOk(s, w) && SlotOk(s, Index(s.writers[w].c));
  }

  lemma AdvanceKeeps(s: State, s': State, w: Tid)
    requires Inv(s) && w in s.writers && AdvanceCt(s, s', w, s.writers[w])
    ensures Inv(s') && s'.ct == s.ct + 1
  {
    assert WriterOk(s, w);
    forall i | 0 <= i < RING ensures SlotOk(s', i) { assert SlotOk(s, i); }
    forall v | v in s'.writers ensures WriterOk(s', v) { assert WriterOk(s, v); }
    forall r | r in s'.cc ensures ReaderOk(s', r) { assert ReaderOk(s, r); }
  }

  // Steps of the writer that owns an uncommitted slot ------------------------------------

  /** Owners of different slots do not meet. */
  lemma OwnersDiffer(s: State, w: Tid, v: Tid)
    requires Inv(s) && w in s.writers && v in s.writers && w != v
    requires Owning(s.writers[w]) && Owning(s.writers[v])
    ensures Index(s.writers[w].c) != Index(s.writers[v].c)
  {
    assert WriterOk(s, w) && WriterOk(s, v);
  }

  /** A step of `w` on the slot it owns, as the others see it. */
  lemma OthersKeep(s: State, s': State, w: Tid, v: Tid)
    requires Inv(s) && w in s.writers && Owning(s.writers[w]) && v in s.writers && v != w && Shape(s')
    requires var c := s.writers[w].c;
             && s' == s.(slots := s.slots[Index(c) := At(s', c)], writers := s'.writers)
             && At(s', c) == At(s, c).(header := At(s', c).header, payload := At(s', c).payload,
                                       flag := At(s', c).flag, open := At(s', c).open)
    requires v in s'.writers && s'.writers[v] == s.writers[v]
    ensures WriterOk(s', v)
  {
    assert WriterOk(s, v);
    if Owning(s.writers[v]) { OwnersDiffer(s, w, v); }
  }

  lemma WriteKeeps(s: State, s': State, w: Tid)
    requires Inv(s) && w in s.writers
    requires WriteHeader(s, s', w, s.writers[w]) || WritePayload(s, s', w, s.writers[w])
    ensures Inv(s')
  {
    assert WriterOk(s, w);
    forall i | 0 <= i < RING ensures SlotOk(s', i) { WriteKeepsSlot(s, s', w, i); }
    forall v | v in s'.writers ensures WriterOk(s', v) { if v != w { OthersKeep(s, s', w, v); } }
    forall r | r in s'.cc ensures ReaderOk(s', r) { assert ReaderOk(s, r); }
  }

  lemma WriteKeepsSlot(s: State, s': State, w: Tid, i: nat)
    requires Inv(s) && w in s.writers && i < RING
    requires WriteHeader(s, s', w, s.writers[w]) || WritePayload(s, s', w, s.writers[w])
    ensures Shape(s') && SlotOk(s', i)
  {
    assert WriterOk(s, w) && SlotOk(s, i);
  }

  lemma CommitKeeps(s: State, s': State, w: Tid)
    requires Inv(s) && w in s.writers && Commit(s, s', w, s.writers[w])
    ensures Inv(s')
  {
    var c := s.writers[w].c;
    assert WriterOk(s, w) && SlotOk(s, Index(c));
    forall i | 0 <= i < RING ensures SlotOk(s', i) { assert SlotOk(s, i); }
    forall v | v in s'.writers ensures WriterOk(s', v) { if v != w { OthersKeep(s, s', w, v); } }
    forall r | r in s'.cc ensures ReaderOk(s', r) { assert ReaderOk(s, r); }
  }

  // Steps of a reader ---------------------------------------------------------------

  /** Only the pc of reader `r` moved, and not back to an earlier phase. */
  lemma QuietReaderKeeps(s: State, s': State, r: Bit)
    requires Inv(s) && r in s.cc && r in s'.readers
    requires s' == s.(readers := s.readers[r := s.readers[r].(pc := s'.readers[r].pc)])
    requires forall p :: Leaving(s.readers[r], p) ==> Leaving(s'.readers[r], p)
    requires ReaderOk(s', r)
    ensures Inv(s')
  {
    forall i | 0 <= i < RING ensures SlotOk(s', i) { assert SlotOk(s, i); }
    forall v | v in s'.writers ensures WriterOk(s', v) { assert WriterOk(s, v); }
    forall q | q in s'.cc ensures ReaderOk(s', q) { if q != r { assert ReaderOk(s, q); } }
  }

  lemma ReadsKeep(s: State, s': State, r: Bit)
    requires Inv(s) && r in s.cc
    requires var x := s.readers[r];
             || SeeCommit(s, s', r, x) || ReadHeader(s, s', r, x) || ReadPayload(s, s', r, x)
             || ReloadRc(s, s', r, x) || NotLast(s, s', r, x) || ClearFails(s, s', r, x)
    ensures Inv(s')
  {
    assert ReaderOk(s, r) && SlotOk(s, Index(s.readers[r].cur));
    QuietReaderKeeps(s, s', r);
  }

  /** A reader that tests its loaded `rc_` always finds its own mark there. */
  lemma OwnMarkStays(s: State, r: Bit)
    requires Inv(s) && r in s.cc && !s.readers[r].pc.Poll?
    ensures r in At(s, s.readers[r].cur).rc.marks
    ensures s.readers[r].pc.Test? ==> s.readers[r].pc.rc.marks != {}
  {
    assert ReaderOk(s, r) && SlotOk(s, Index(s.readers[r].cur));
  }

  lemma ReleaseKeepsSlot(s: State, s': State, r: Bit, i: nat)
    requires Inv(s) && r in s.cc && i < RING && ReleaseEarly(s, s', r, s.readers[r])
    ensures Shape(s') && SlotOk(s', i)
  {
    OwnMarkStays(s, r);
    assert ReaderOk(s, r) && SlotOk(s, i);
    assert i == Index(s.readers[r].cur) ==> s.slots[i].rc.marks == {r};
  }

  lemma ReleaseKeepsReader(s: State, s': State, r: Bit, q: Bit)
    requires Inv(s) && r in s.cc && q in s.cc && ReleaseEarly(s, s', r, s.readers[r])
    ensures Shape(s') && ReaderOk(s', q)
  {
    assert ReaderOk(s, r) && ReaderOk(s, q);
  }

  lemma ReleaseKeeps(s: State, s': State, r: Bit)
    requires Inv(s) && r in s.cc && ReleaseEarly(s, s', r, s.readers[r])
    ensures Inv(s')
  {
    forall i | 0 <= i < RING ensures SlotOk(s', i) { ReleaseKeepsSlot(s, s', r, i); }
    forall q | q in s'.cc ensures ReaderOk(s', q) { ReleaseKeepsReader(s, s', r, q); }
    WritersKeep(s, s');
  }

  /** All a writer can see of a reader's step: a flag, or a generation that has moved on. */
  ghost predicate Cleared(t: Slot, t': Slot) {
    t' == t.(rc := t'.rc, flag := t'.flag) && t'.rc.epoch == t.rc.epoch
    && (t'.rc == t.rc || t'.rc.gen > t.rc.gen)
  }

  lemma WritersKeep(s: State, s': State)
    requires Inv(s) && Shape(s') && s' == s.(slots := s'.slots, readers := s'.readers)
    requires forall i | 0 <= i < RING :: Cleared(s.slots[i], s'.slots[i])
    ensures forall w | w in s'.writers :: WriterOk(s', w)
  {
    forall w | w in s'.writers ensures WriterOk(s', w) { assert WriterOk(s, w); }
  }

  /** A successful clearing CAS removes exactly the reader's own mark. */
  lemma ClearFacts(s: State, s': State, r: Bit)
    requires Inv(s) && r in s.cc && ClearWins(s, s', r, s.readers[r])
    ensures var cur := s.readers[r].cur;
            && cur < |s.log| && At(s, cur).pos == cur && !At(s, cur).open
            && At(s, cur).rc == s.readers[r].pc.rc
            && At(s', cur) == At(s, cur).(rc := At(s', cur).rc)
            && At(s', cur).rc.marks == At(s, cur).rc.marks - {r}
            && (At(s', cur).rc.marks == {} ==> At(s, cur).flag == Released(cur))
  {
    var x := s.readers[r];
    assert ReaderOk(s, r) && SlotOk(s, Index(x.cur));
    SameGeneration(At(s, x.cur).rc.gen, x.pc.rc.gen);
  }

  lemma ClearKeepsSlot(s: State, s': State, r: Bit, i: nat)
    requires Inv(s) && r in s.cc && i < RING && ClearWins(s, s', r, s.readers[r])
    ensures Shape(s') && SlotOk(s', i)
  {
    ClearFacts(s, s', r);
    assert SlotOk(s, i);
    var t := s.slots[i];
    if i != Index(s.readers[r].cur) {
      assert t.pos != s.readers[r].cur && s'.slots[i] == t;
    }
  }

  lemma ClearKeepsReader(s: State, s': State, r: Bit, q: Bit)
    requires Inv(s) && r in s.cc && q in s.cc && q != r && ClearWins(s, s', r, s.readers[r])
    ensures Shape(s') && ReaderOk(s', q)
  {
    ClearFacts(s, s', r);
    assert ReaderOk(s, q);
  }

  /** The reader itself has popped the element of the position its cursor was at. */
  lemma ClearKeepsOwn(s: State, s': State, r: Bit)
    requires Inv(s) && r in s.cc && ClearWins(s, s', r, s.readers[r])
    ensures Shape(s') && ReaderOk(s', r)
  {
    var cur := s.readers[r].cur;
    assert ReaderOk(s, r);
    assert s'.readers[r] == Reader(cur + 1, Poll, s.readers[r].popped + [s.log[cur].msg]);
    MoreMessages(s.log, s.start[r], cur);
    assert SlotOk(s, Index(cur));
  }

  lemma MoreMessages(log: seq<Claim>, lo: nat, hi: nat)
    requires lo <= hi < |log|
    ensures Messages(log)[lo..hi + 1] == Messages(log)[lo..hi] + [log[hi].msg]
  {
  }

  lemma ClearKeeps(s: State, s': State, r: Bit)
    requires Inv(s) && r in s.cc && ClearWins(s, s', r, s.readers[r])
    ensures Inv(s')
  {
    forall i | 0 <= i < RING ensures SlotOk(s', i) { ClearKeepsSlot(s, s', r, i); }
    forall q | q in s'.cc ensures ReaderOk(s', q) {
      if q == r { ClearKeepsOwn(s, s', r); } else { ClearKeepsReader(s, s', r, q); }
    }
    ClearFacts(s, s', r);
    WritersKeep(s, s');
  }

  // Runs ----------------------------------------------------------------------------

  lemma StepKeeps(s: State, s': State)
    requires Inv(s) && Step(s, s')
    ensures Inv(s')
  {
    if w :| w in s.writers && WriterStep(s, s', w, s.writers[w]) {
      var x := s.writers[w];
      if Decide(s, s', w, x) { DecideKeeps(s, s', w); }
      else if ClaimWins(s, s', w, x) { ClaimKeeps(s, s', w); }
      else if AdvanceCt(s, s', w, x) { AdvanceKeeps(s, s', w); }
      else if WriteHeader(s, s', w, x) || WritePayload(s, s', w, x) { WriteKeeps(s, s', w); }
      else if Commit(s, s', w, x) { CommitKeeps(s, s', w); }
      else { LoadsKeep(s, s', w); }
    } else {
      var r :| r in s.readers && ReaderStep(s, s', r, s.readers[r]);
      var x := s.readers[r];
      if ReleaseEarly(s, s', r, x) { ReleaseKeeps(s, s', r); }
      else if ReleaseUnmarked(s, s', r, x) { OwnMarkStays(s, r); }
      else if ClearWins(s, s', r, x) { ClearKeeps(s, s', r); }
      else { ReadsKeep(s, s', r); }
    }
  }

  lemma {:induction false} RunInv(tr: seq<State>, k: nat)
    requires Run(tr) && k < |tr|
    ensures Inv(tr[k])
  {
    if k == 0 {
      InitInv(tr[0]);
    } else {
      RunInv(tr, k - 1);
      assert StepAt(tr, k);
      StepKeeps(tr[k - 1], tr[k]);
    }
  }

  /** No receiver came or went. */
  ghost predicate SameReceivers(s: State, s': State) {
    s'.cc == s.cc && s'.since == s.since && s'.start == s.start
  }

  lemma WriterLoadsFrame(s: State, s': State, w: Tid, x: Writer)
    requires WriterLoads(s, s', w, x)
    ensures w in s'.writers && s' == SetWriter(s, w, s'.writers[w])
  {
    var pc :| s' == SetWriter(s, w, pc);
  }

  lemma WriterStoresFrame(s: State, s': State, w: Tid, x: Writer)
    requires WriterStores(s, s', w, x)
    ensures w in s'.writers
    ensures s' == s.(slots := s'.slots, writers := s.writers[w := s'.writers[w]], ct := s'.ct, log := s'.log)
  {
  }

  lemma ReaderFrame(s: State, s': State, r: Bit, x: Reader)
    requires ReaderStep(s, s', r, x)
    ensures r in s'.readers && s' == s.(slots := s'.slots, readers := s.readers[r := s'.readers[r]])
  {
    if ReaderLoads(s, s', r, x) { ReaderLoadsFrame(s, s', r, x); }
  }

  lemma PcFrame(s: State, s': State, r: Bit, x: Reader, pc: ReaderPc)
    requires s' == SetPc(s, r, x, pc)
    ensures r in s'.readers && s' == SetReader(s, r, s'.readers[r])
  {
  }

  lemma ReaderLoadsFrame(s: State, s': State, r: Bit, x: Reader)
    requires ReaderLoads(s, s', r, x)
    ensures r in s'.readers && s' == SetReader(s, r, s'.readers[r])
  {
    if SeeCommit(s, s', r, x) { PcFrame(s, s', r, x, Header); }
    else if ReadHeader(s, s', r, x) { PcFrame(s, s', r, x, Payload(At(s, x.cur).header)); }
    else if ReadPayload(s, s', r, x) { PcFrame(s, s', r, x, LoadRc(Fragment(x.pc.h, At(s, x.cur).payload))); }
    else if ReloadRc(s, s', r, x) { PcFrame(s, s', r, x, Test(x.pc.m, At(s, x.cur).rc)); }
    else if NotLast(s, s', r, x) { PcFrame(s, s', r, x, Cas(x.pc.m, x.pc.rc)); }
    else { PcFrame(s, s', r, x, LoadRc(x.pc.m)); }
  }

  /** The log only grows, by one claim at a time; readers do not touch it. */
  lemma WriterLog(s: State, s': State, w: Tid, x: Writer)
    requires WriterStep(s, s', w, x)
    ensures s.log <= s'.log && |s'.log| <= |s.log| + 1 && SameReceivers(s, s')
    ensures s'.ct == s.ct || AdvanceCt(s, s', w, x)
  {
    if WriterLoads(s, s', w, x) { WriterLoadsFrame(s, s', w, x); }
  }

  lemma ReaderLog(s: State, s': State, r: Bit, x: Reader)
    requires ReaderStep(s, s', r, x)
    ensures s'.log == s.log && SameReceivers(s, s') && s'.ct == s.ct
  {
    ReaderFrame(s, s', r, x);
  }

  lemma StepLog(s: State, s': State)
    requires Step(s, s')
    ensures s.log <= s'.log && |s'.log| <= |s.log| + 1 && SameReceivers(s, s')
  {
    if w :| w in s.writers && WriterStep(s, s', w, s.writers[w]) {
      WriterLog(s, s', w, s.writers[w]);
    } else {
      var r :| r in s.readers && ReaderStep(s, s', r, s.readers[r]);
      ReaderLog(s, s', r, s.readers[r]);
    }
  }

  lemma {:induction false} LogGrows(tr: seq<State>, j: nat, k: nat)
    requires Run(tr) && j <= k < |tr|
    ensures tr[j].log <= tr[k].log && SameReceivers(tr[j], tr[k])
    decreases k
  {
    if j < k {
      LogGrows(tr, j, k - 1);
      assert StepAt(tr, k);
      StepLog(tr[k - 1], tr[k]);
    }
  }

  /** `commit_multi` finds no stale mark: every receiver started at position 0. */
  lemma CommitDropsNothing(tr: seq<State>, k: nat, c: nat)
    requires Run(tr) && k < |tr|
    ensures StaleMarks(tr[k], c) == {}
  {
    LogGrows(tr, 0, k);
  }

  /** Writer `w` claims position `c` in this step. */
  ghost predicate Claims(s: State, s': State, w: Tid, c: nat) {
    w in s.writers && ClaimWins(s, s', w, s.writers[w]) && s.writers[w].c == c
  }

  /** Total order: in every run there is one common log, and at every point of the run
      every receiver has popped a prefix of it, byte for byte, in claim order. */
  lemma TotalOrder(tr: seq<State>, k: nat, r: Bit)
    requires Run(tr) && k < |tr| && r in tr[0].cc
    ensures r in tr[k].readers && tr[k].readers[r].popped <= Messages(tr[|tr| - 1].log)
  {
    LogGrows(tr, 0, k);
    LogGrows(tr, k, |tr| - 1);
    RunInv(tr, k);
    assert ReaderOk(tr[k], r);
  }

  /** A claim in a run takes the position the log has reached, which is also `ct_`. */
  lemma ClaimInRun(tr: seq<State>, j: nat, w: Tid, c: nat)
    requires Run(tr) && 0 < j < |tr| && Claims(tr[j - 1], tr[j], w, c)
    ensures c == |tr[j - 1].log| == tr[j - 1].ct
    ensures |tr[j].log| == c + 1 && tr[j].log[c].writer == w
    ensures EveryoneRead(tr[j - 1], c - RING)
  {
    RunInv(tr, j - 1);
    ClaimIsNext(tr[j - 1], tr[j], w);
    assert tr[j].log == tr[j - 1].log + [Claim(w, tr[j - 1].writers[w].msg)];
  }

  /** Each position is claimed once: claims happen in position order, and the claimant
      is the writer the common log records. */
  lemma ClaimsAreOrdered(tr: seq<State>, j: nat, k: nat, w: Tid, v: Tid, c: nat, d: nat)
    requires Run(tr) && 0 < j < k < |tr|
    requires Claims(tr[j - 1], tr[j], w, c) && Claims(tr[k - 1], tr[k], v, d)
    ensures c < d
    ensures c < |tr[|tr| - 1].log| && tr[|tr| - 1].log[c].writer == w
  {
    ClaimInRun(tr, j, w, c);
    ClaimInRun(tr, k, v, d);
    LogGrows(tr, j, k - 1);
    LogGrows(tr, j, |tr| - 1);
  }

  /** `ct_` moves by one, only forward, and is at most one behind the claims. */
  lemma CommitIndex(tr: seq<State>, j: nat)
    requires Run(tr) && 0 < j < |tr|
    ensures tr[j].ct == tr[j - 1].ct || tr[j].ct == tr[j - 1].ct + 1
    ensures tr[j].ct <= |tr[j].log| <= tr[j].ct + 1
  {
    assert tr[j].ct <= |tr[j].log| <= tr[j].ct + 1 by { RunInv(tr, j); }
    RunInv(tr, j - 1);
    assert StepAt(tr, j);
    StepCt(tr[j - 1], tr[j]);
  }

  lemma StepCt(s: State, s': State)
    requires Inv(s) && Step(s, s')
    ensures s'.ct == s.ct || s'.ct == s.ct + 1
  {
    if w :| w in s.writers && WriterStep(s, s', w, s.writers[w]) {
      WriterLog(s, s', w, s.writers[w]);
      if AdvanceCt(s, s', w, s.writers[w]) { AdvanceKeeps(s, s', w); }
    } else {
      var r :| r in s.readers && ReaderStep(s, s', r, s.readers[r]);
      ReaderLog(s, s', r, s.readers[r]);
    }
  }

  /** No receiver misses an element: as long as it has not read a committed position,
      the position's flag stays up for it and its bytes stay in the slot. */
  lemma NothingIsLost(tr: seq<State>, k: nat, r: Bit)
    requires Run(tr) && k < |tr| && r in tr[k].readers
    requires var s := tr[k]; s.readers[r].pc.Poll? && s.readers[r].cur < |s.log|
    ensures var s := tr[k]; var t := At(s, s.readers[r].cur);
            && 0 <= t.pos == s.readers[r].cur < POSITIONS
            && (t.open || (t.flag == Committed(t.pos) && Fragment(t.header, t.payload) == s.log[t.pos].msg))
  {
    RunInv(tr, k);
    assert ReaderOk(tr[k], r) && SlotOk(tr[k], Index(tr[k].readers[r].cur));
  }
}
