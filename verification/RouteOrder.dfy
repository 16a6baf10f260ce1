/** Gap-free delivery on a route while receivers join, leave and reuse bits. */
module RouteOrder {
  import opened RingWords
  import opened RouteRing

  /** The first position a connected receiver still has to read. */
  function Lo(x: Receiver): nat {
    if Joining(x) then x.first else x.cur
  }

  /** One past the last element stamped with `b` on behalf of its current owner. */
  function Hi(s: State, b: Bit): nat {
    if Stamped(s.writer) && b in s.writer.cc then s.wt + 1 else s.wt
  }

  ghost predicate Shape(s: State) {
    && |s.log| == |s.stamps| == (if Stamped(s.writer) then s.wt + 1 else s.wt)
    && (Stamped(s.writer) ==> s.writer.w == s.wt && s.stamps[s.wt] == s.writer.cc && s.log[s.wt] == s.writer.msg)
    && (forall b: Bit :: s.since[b] <= s.wt)
  }

  ghost predicate SlotOk(s: State, i: int)
    requires Shape(s) && 0 <= i < RING
  {
    var t := s.slots[i];
    && Index(t.pos) == i && |s.log| - RING <= t.pos < |s.log|
    && (t.pos < 0 ==> t.marks == {})
    && (t.pos >= 0 ==> t.marks <= s.stamps[t.pos])
    && (0 <= t.pos < s.wt ==> Fragment(t.header, t.payload) == s.log[t.pos])
  }

  /** The slot of `p` still holds `p`, marked with `b`. */
  ghost predicate Marked(s: State, p: int, b: Bit) {
    At(s, p).pos == p && b in At(s, p).marks
  }

  ghost predicate WriterOk(s: State)
    requires Shape(s)
  {
    var x := s.writer;
    && (x.WWt? || x.WScan? || x.WCas? ==> x.w == s.wt)
    && (x.WScan? || x.WCas? ==> At(s, x.w).marks <= x.rc)
    && (x.WScan? ==>
          forall r | r in s.receivers && Held(s.receivers[r]) && s.receivers[r].bit !in x.todo
              && s.receivers[r].bit !in x.live ::
            Settled(s.receivers[r], x.w))
    && (x.WCas? ==> forall r | r in s.receivers && Held(s.receivers[r]) :: Settled(s.receivers[r], x.w))
    && (x.WPayload? || x.WPublish? ==> At(s, x.w).header == x.msg.header)
    && (x.WPublish? ==> At(s, x.w).payload == x.msg.payload)
  }

  /** The receiver does not need the element one lap before `w` any more. */
  predicate Settled(x: Receiver, w: nat) {
    w < Lo(x) + RING
  }

  ghost predicate ReceiverOk(s: State, r: Rid)
    requires Shape(s) && r in s.receivers && Held(s.receivers[r])
  {
    var x := s.receivers[r];
    && x.bit in s.cc
    && x.since <= x.first <= Lo(x) && x.since <= s.wt && s.since[x.bit] <= x.first
    && (Stamped(s.writer) && x.bit !in s.writer.cc ==> x.first == s.wt + 1)
    && (Stamped(s.writer) && x.bit in s.writer.cc ==> x.first <= s.wt)
    && (!Stamped(s.writer) ==> x.first <= s.wt)
    && (InWindow(s.writer) && !Stamped(s.writer) && x.bit !in s.writer.cc ==> x.first == s.wt)
    && (!x.phase.Claimed? ==> s.since[x.bit] == x.since)
    && |s.log| <= Lo(x) + RING
    && (Joining(x) ==> s.wt < x.since + RING && x.popped == []) && s.wt < x.since + POSITIONS
    && (x.phase.Walking? ==> x.first <= x.cur <= s.wt && x.cur + x.phase.n <= s.wt)
    && (!Joining(x) ==> PoppingOk(s, x))
    && MarksOk(s, x)
  }

  /** Stamped on exactly the elements since it joined; marked on exactly the unread ones. */
  ghost predicate MarksOk(s: State, x: Receiver)
    requires Shape(s)
  {
    && (forall p | x.since <= p < x.first && p < |s.log| :: x.bit !in s.stamps[p])
    && (forall p | x.first <= p < Hi(s, x.bit) && p < |s.log| :: x.bit in s.stamps[p])
    && (forall p | Lo(x) <= p < Hi(s, x.bit) :: Marked(s, p, x.bit))
    && (forall p | x.first <= p < Lo(x) :: !Marked(s, p, x.bit))
  }

  ghost predicate PoppingOk(s: State, x: Receiver)
    requires Shape(s)
  {
    && x.start == x.first <= x.cur <= s.wt
    && x.popped == s.log[x.start..x.cur]
    && (!x.phase.Poll? ==> x.cur < s.wt)
    && (x.phase.Payload? ==> x.phase.h == s.log[x.cur].header)
    && (x.phase.LoadRc? || x.phase.Cas? ==> x.phase.m == s.log[x.cur])
  }

  ghost predicate Distinct(s: State) {
    forall q, r | q in s.receivers && r in s.receivers && q != r && Held(s.receivers[q]) && Held(s.receivers[r]) ::
      s.receivers[q].bit != s.receivers[r].bit
  }

  ghost predicate Inv(s: State) {
    && Shape(s)
    && (forall i | 0 <= i < RING :: SlotOk(s, i))
    && WriterOk(s)
    && Distinct(s)
    && (forall r | r in s.receivers && s.receivers[r].phase.CursorRead? :: s.receivers[r].since <= s.wt)
    && (forall r | r in s.receivers && Held(s.receivers[r]) :: ReceiverOk(s, r))
  }

  lemma InitInv(s: State)
    requires Init(s)
    ensures Inv(s)
  {
  }

  // The writer -------------------------------------------------------------------------

  /** A step inside the writer, before the claim: only what it has loaded changes. */
  lemma QuietWriterKeeps(s: State, s': State)
    requires Inv(s) && s' == s.(writer := s'.writer)
    requires !Stamped(s.writer) && !Stamped(s'.writer)
    requires InWindow(s'.writer) ==> s'.writer.cc == (if InWindow(s.writer) then s.writer.cc else s.cc)
    requires WriterOk(s')
    ensures Inv(s')
  {
    forall i | 0 <= i < RING ensures SlotOk(s', i) { assert SlotOk(s, i); }
    forall r | r in s'.receivers && Held(s'.receivers[r]) ensures ReceiverOk(s', r) {
      assert ReceiverOk(s, r);
      SameMarks(s, s', s.receivers[r]);
    }
  }

  /** Marks depend on the slots, the log and the last element the bit was stamped on. */
  lemma SameMarks(s: State, s': State, x: Receiver)
    requires Shape(s) && Shape(s') && MarksOk(s, x)
    requires s'.slots == s.slots && s'.stamps == s.stamps && Hi(s', x.bit) == Hi(s, x.bit)
    ensures MarksOk(s', x)
  {
    forall p ensures Marked(s', p, x.bit) == Marked(s, p, x.bit) {}
  }

  lemma WriterLoadsKeep(s: State, s': State)
    requires Inv(s)
    requires (exists msg :: BeginPush(s, s', msg)) || LoadCc(s, s') || LoadWt(s, s') || EndScan(s, s')
        || StampFails(s, s')
    ensures Inv(s')
  {
    QuietWriterKeeps(s, s');
  }

  /** The slot the writer is about to reuse holds the element one lap before. */
  lemma LapBefore(s: State, w: nat)
    requires Inv(s) && !Stamped(s.writer) && w == s.wt
    ensures At(s, w).pos == w - RING
  {
    assert SlotOk(s, Index(w));
    SameSlot(At(s, w).pos + RING, w);
  }

  /** A connected receiver whose bit is not on that slot has read the element. */
  lemma UnmarkedIsSettled(s: State, r: Rid)
    requires Inv(s) && InWindow(s.writer) && !Stamped(s.writer) && r in s.receivers && Held(s.receivers[r])
    requires s.receivers[r].bit !in s.writer.cc || s.receivers[r].bit !in At(s, s.wt).marks
    ensures Settled(s.receivers[r], s.wt)
  {
    var x := s.receivers[r];
    assert ReceiverOk(s, r);
    LapBefore(s, s.wt);
    assert Lo(x) <= s.wt - RING ==> Marked(s, s.wt - RING, x.bit);
  }

  lemma LoadMarksKeeps(s: State, s': State)
    requires Inv(s) && LoadMarks(s, s')
    ensures Inv(s')
  {
    forall r | r in s'.receivers && Held(s'.receivers[r]) && s'.receivers[r].bit !in s'.writer.todo
      ensures Settled(s'.receivers[r], s.wt)
    {
      UnmarkedIsSettled(s, r);
    }
    QuietWriterKeeps(s, s');
  }

  /** A mark that `live_marks` discounts belongs to nobody who still has to read. */
  lemma DiscountedIsSettled(s: State, r: Rid)
    requires Inv(s) && !Stamped(s.writer) && r in s.receivers && Held(s.receivers[r])
    requires !Live(s.wt, s.since[s.receivers[r].bit])
    ensures Settled(s.receivers[r], s.wt)
  {
    assert ReceiverOk(s, r);
  }

  lemma LookUpKeeps(s: State, s': State, b: Bit)
    requires Inv(s) && LookUp(s, s', b)
    ensures Inv(s')
  {
    var x := s'.writer;
    forall r | r in s'.receivers && Held(s'.receivers[r]) && s'.receivers[r].bit !in x.todo
        && s'.receivers[r].bit !in x.live
      ensures Settled(s'.receivers[r], x.w)
    {
      if s.receivers[r].bit == b { DiscountedIsSettled(s, r); }
    }
    QuietWriterKeeps(s, s');
  }

  lemma StampMarks(s: State, s': State, r: Rid)
    requires Inv(s) && StampWins(s, s') && r in s.receivers && Held(s.receivers[r])
    ensures Shape(s') && MarksOk(s', s'.receivers[r])
  {
    var x, x', w := s.receivers[r], s'.receivers[r], s.wt;
    assert ReceiverOk(s, r);
    LapBefore(s, w);
    forall p | x'.first <= p < Hi(s', x.bit) && p < |s'.log| ensures x.bit in s'.stamps[p] {
      if p < w { assert x.bit in s.stamps[p]; }
    }
    forall p | Lo(x') <= p < Hi(s', x.bit) ensures Marked(s', p, x.bit) {
      if p < w {
        assert Marked(s, p, x.bit);
        if Index(p) == Index(w) { SameSlot(p, w); }
      }
    }
    forall p | x'.first <= p < Lo(x') ensures !Marked(s', p, x.bit) {
      assert !Marked(s, p, x.bit);
    }
  }

  lemma StampKeepsReceiver(s: State, s': State, r: Rid)
    requires Inv(s) && StampWins(s, s') && r in s.receivers && Held(s.receivers[r])
    ensures Shape(s') && ReceiverOk(s', r)
  {
    StampMarks(s, s', r);
    assert ReceiverOk(s, r);
  }

  lemma StampKeeps(s: State, s': State)
    requires Inv(s) && StampWins(s, s')
    ensures Inv(s')
  {
    LapBefore(s, s.wt);
    forall i | 0 <= i < RING ensures SlotOk(s', i) {
      assert SlotOk(s, i);
      assert i != Index(s.wt) ==> s.slots[i].pos != s.wt - RING;
    }
    forall r | r in s'.receivers && Held(s'.receivers[r]) ensures ReceiverOk(s', r) { StampKeepsReceiver(s, s', r); }
  }

  lemma WriteKeepsReceiver(s: State, s': State, r: Rid)
    requires Inv(s) && (WriteHeader(s, s') || WritePayload(s, s')) && r in s.receivers && Held(s.receivers[r])
    ensures Shape(s') && ReceiverOk(s', r)
  {
    assert ReceiverOk(s, r);
    var b := s.receivers[r].bit;
    forall p ensures Marked(s', p, b) == Marked(s, p, b) {}
  }

  lemma WriteKeeps(s: State, s': State)
    requires Inv(s) && (WriteHeader(s, s') || WritePayload(s, s'))
    ensures Inv(s')
  {
    forall i | 0 <= i < RING ensures SlotOk(s', i) { assert SlotOk(s, i); }
    assert SlotOk(s, Index(s.writer.w));
    forall r | r in s'.receivers && Held(s'.receivers[r]) ensures ReceiverOk(s', r) { WriteKeepsReceiver(s, s', r); }
  }

  lemma PublishKeeps(s: State, s': State)
    requires Inv(s) && Publish(s, s')
    ensures Inv(s')
  {
    var w := s.wt;
    assert SlotOk(s, Index(w));
    SameSlot(At(s, w).pos, w);
    forall i | 0 <= i < RING ensures SlotOk(s', i) {
      assert SlotOk(s, i);
    }
    forall r | r in s'.receivers && Held(s'.receivers[r]) ensures ReceiverOk(s', r) {
      assert ReceiverOk(s, r);
      var x := s.receivers[r];
      forall p ensures Marked(s', p, x.bit) == Marked(s, p, x.bit) {}
    }
  }

  // Receivers --------------------------------------------------------------------------

  /** Receiver `r` moved without touching a slot, the cursor or the log, and still needs
      everything from the same position on. */
  lemma QuietReceiverKeeps(s: State, s': State, r: Rid, x': Receiver)
    requires Inv(s) && r in s.receivers && Held(s.receivers[r]) && Held(x')
    requires s' == Set(s, r, x')
    requires x'.bit == s.receivers[r].bit && Lo(x') == Lo(s.receivers[r])
    requires ReceiverOk(s', r)
    ensures Inv(s')
  {
    forall i | 0 <= i < RING ensures SlotOk(s', i) { assert SlotOk(s, i); }
    forall q | q in s'.receivers && Held(s'.receivers[q]) ensures ReceiverOk(s', q) {
      if q != r {
        assert ReceiverOk(s, q);
        SameMarks(s, s', s.receivers[q]);
      }
    }
  }

  lemma ReadsKeep(s: State, s': State, r: Rid)
    requires Inv(s) && r in s.receivers
    requires var x := s.receivers[r];
             || SeeElement(s, s', r, x) || ReadHeader(s, s', r, x) || ReadPayload(s, s', r, x)
             || ClearFails(s, s', r, x)
    ensures Inv(s')
  {
    var x := s.receivers[r];
    assert ReceiverOk(s, r);
    SameMarks(s, s', x);
    if x.cur < s.wt {
      assert Marked(s, x.cur, x.bit);
      assert SlotOk(s, Index(x.cur));
    }
    QuietReceiverKeeps(s, s', r, s'.receivers[r]);
  }

  /** The receiver's own mark is on the element it is reading. */
  lemma ReloadKeeps(s: State, s': State, r: Rid)
    requires Inv(s) && r in s.receivers && ReloadRc(s, s', r, s.receivers[r])
    ensures Inv(s') && s.receivers[r].bit in At(s, s.receivers[r].cur).marks
  {
    var x := s.receivers[r];
    assert ReceiverOk(s, r);
    assert Marked(s, x.cur, x.bit);
    SameMarks(s, s', x);
    QuietReceiverKeeps(s, s', r, s'.receivers[r]);
  }

  lemma ReadCursorKeeps(s: State, s': State, r: Rid)
    requires Inv(s) && r in s.receivers && ReadCursor(s, s', r, s.receivers[r])
    ensures Inv(s')
  {
    forall i | 0 <= i < RING ensures SlotOk(s', i) { assert SlotOk(s, i); }
    forall q | q in s'.receivers && Held(s'.receivers[q]) ensures ReceiverOk(s', q) {
      assert ReceiverOk(s, q);
      SameMarks(s, s', s.receivers[q]);
    }
  }

  /** A fresh bit is stamped on nothing since the cursor read. */
  lemma ClaimStart(s: State, s': State, r: Rid, b: Bit)
    requires Inv(s) && r in s.receivers && ClaimBit(s, s', r, s.receivers[r], b)
    ensures Shape(s') && ReceiverOk(s', r)
  {
    var x := s'.receivers[r];
    forall p | x.since <= p < x.first && p < |s'.log| ensures b !in s'.stamps[p] {}
  }

  lemma ClaimKeeps(s: State, s': State, r: Rid, b: Bit)
    requires Inv(s) && r in s.receivers && ClaimBit(s, s', r, s.receivers[r], b)
    ensures Inv(s')
  {
    ClaimStart(s, s', r, b);
    forall i | 0 <= i < RING ensures SlotOk(s', i) { assert SlotOk(s, i); }
    forall q | q in s'.receivers && Held(s'.receivers[q]) ensures ReceiverOk(s', q) {
      if q != r {
        assert ReceiverOk(s, q);
        SameMarks(s, s', s.receivers[q]);
      }
    }
    assert Distinct(s') by {
      forall q | q in s.receivers && q != r && Held(s.receivers[q]) ensures s.receivers[q].bit != b {
        assert ReceiverOk(s, q);
      }
    }
  }

  lemma StoreSinceKeepsReceiver(s: State, s': State, r: Rid, q: Rid)
    requires Inv(s) && r in s.receivers && StoreSince(s, s', r, s.receivers[r])
    requires q in s.receivers && Held(s.receivers[q])
    ensures Shape(s') && ReceiverOk(s', q)
  {
    assert ReceiverOk(s, r) && ReceiverOk(s, q);
    SameMarks(s, s', s.receivers[q]);
  }

  lemma StoreSinceKeeps(s: State, s': State, r: Rid)
    requires Inv(s) && r in s.receivers && StoreSince(s, s', r, s.receivers[r])
    ensures Inv(s')
  {
    assert ReceiverOk(s, r);
    forall i | 0 <= i < RING ensures SlotOk(s', i) { assert SlotOk(s, i); }
    forall q | q in s'.receivers && Held(s'.receivers[q]) ensures ReceiverOk(s', q) {
      StoreSinceKeepsReceiver(s, s', r, q);
    }
  }

  lemma LoadCursorKeeps(s: State, s': State, r: Rid)
    requires Inv(s) && r in s.receivers && LoadCursor(s, s', r, s.receivers[r])
    ensures Inv(s')
  {
    assert ReceiverOk(s, r);
    SameMarks(s, s', s.receivers[r]);
    QuietReceiverKeeps(s, s', r, s'.receivers[r]);
  }

  /** While a receiver walks back, the slot before its cursor holds that position. */
  lemma WalkSees(s: State, r: Rid)
    requires Inv(s) && r in s.receivers && s.receivers[r].phase.Walking?
    requires s.receivers[r].cur != s.receivers[r].since
    ensures var x := s.receivers[r];
            && x.cur > 0 && At(s, x.cur - 1).pos == x.cur - 1
            && (x.bit in At(s, x.cur - 1).marks <==> x.first < x.cur)
  {
    var x := s.receivers[r];
    assert ReceiverOk(s, r);
    assert SlotOk(s, Index(x.cur - 1));
    SameSlot(At(s, x.cur - 1).pos, x.cur - 1);
    if x.first < x.cur { assert Marked(s, x.cur - 1, x.bit); }
  }

  /** `adopt_cursor` stops exactly at the first element addressed to the receiver. */
  lemma WalkKeeps(s: State, s': State, r: Rid)
    requires Inv(s) && r in s.receivers && Walk(s, s', r, s.receivers[r])
    ensures Inv(s')
    ensures s'.receivers[r].phase.Poll? ==> s'.receivers[r].start == s.receivers[r].first
  {
    var x := s.receivers[r];
    assert ReceiverOk(s, r);
    if x.cur != x.since { WalkSees(s, r); }
    SameMarks(s, s', x);
    QuietReceiverKeeps(s, s', r, s'.receivers[r]);
  }

  lemma LeaveKeeps(s: State, s': State, r: Rid)
    requires Inv(s) && r in s.receivers && Leave(s, s', r, s.receivers[r])
    ensures Inv(s')
  {
    forall i | 0 <= i < RING ensures SlotOk(s', i) { assert SlotOk(s, i); }
    forall q | q in s'.receivers && Held(s'.receivers[q]) ensures ReceiverOk(s', q) {
      assert ReceiverOk(s, q);
      SameMarks(s, s', s.receivers[q]);
    }
  }

  lemma ClearKeepsOwn(s: State, s': State, r: Rid)
    requires Inv(s) && r in s.receivers && ClearWins(s, s', r, s.receivers[r])
    ensures Shape(s') && ReceiverOk(s', r)
  {
    assert ReceiverOk(s, r);
    var x := s.receivers[r];
    assert Marked(s, x.cur, x.bit);
    forall p | x.cur < p < Hi(s, x.bit) ensures Marked(s', p, x.bit) {
      assert Marked(s, p, x.bit);
      if Index(p) == Index(x.cur) { SameSlot(p, x.cur); }
    }
    forall p | x.first <= p <= x.cur ensures !Marked(s', p, x.bit) {
      if p < x.cur { assert !Marked(s, p, x.bit); }
    }
  }

  lemma ClearKeepsSlot(s: State, s': State, r: Rid, i: nat)
    requires Inv(s) && r in s.receivers && ClearWins(s, s', r, s.receivers[r]) && i < RING
    ensures Shape(s') && SlotOk(s', i)
  {
    assert ReceiverOk(s, r);
    assert SlotOk(s, i);
  }

  lemma ClearKeepsOther(s: State, s': State, r: Rid, q: Rid)
    requires Inv(s) && r in s.receivers && ClearWins(s, s', r, s.receivers[r])
    requires q in s.receivers && q != r && Held(s.receivers[q])
    ensures Shape(s') && ReceiverOk(s', q)
  {
    assert ReceiverOk(s, q);
    var b := s.receivers[q].bit;
    forall p ensures Marked(s', p, b) == Marked(s, p, b) {}
  }

  lemma ClearKeeps(s: State, s': State, r: Rid)
    requires Inv(s) && r in s.receivers && ClearWins(s, s', r, s.receivers[r])
    ensures Inv(s')
  {
    forall i | 0 <= i < RING ensures SlotOk(s', i) { ClearKeepsSlot(s, s', r, i); }
    forall q | q in s'.receivers && Held(s'.receivers[q]) ensures ReceiverOk(s', q) {
      if q == r { ClearKeepsOwn(s, s', r); } else { ClearKeepsOther(s, s', r, q); }
    }
  }

  // Runs ----------------------------------------------------------------------------

  lemma WriterStepKeeps(s: State, s': State)
    requires Inv(s) && WriterStep(s, s')
    ensures Inv(s')
  {
    if b :| LookUp(s, s', b) { LookUpKeeps(s, s', b); }
    else if LoadMarks(s, s') { LoadMarksKeeps(s, s'); }
    else if StampWins(s, s') { StampKeeps(s, s'); }
    else if WriteHeader(s, s') || WritePayload(s, s') { WriteKeeps(s, s'); }
    else if Publish(s, s') { PublishKeeps(s, s'); }
    else { WriterLoadsKeep(s, s'); }
  }

  lemma ReceiverStepKeeps(s: State, s': State, r: Rid)
    requires Inv(s) && r in s.receivers && ReceiverStep(s, s', r, s.receivers[r])
    ensures Inv(s')
  {
    var x := s.receivers[r];
    if ReadCursor(s, s', r, x) { ReadCursorKeeps(s, s', r); }
    else if b :| ClaimBit(s, s', r, x, b) { ClaimKeeps(s, s', r, b); }
    else if StoreSince(s, s', r, x) { StoreSinceKeeps(s, s', r); }
    else if LoadCursor(s, s', r, x) { LoadCursorKeeps(s, s', r); }
    else if Walk(s, s', r, x) { WalkKeeps(s, s', r); }
    else if Leave(s, s', r, x) { LeaveKeeps(s, s', r); }
    else if ReloadRc(s, s', r, x) { ReloadKeeps(s, s', r); }
    else if ClearWins(s, s', r, x) { ClearKeeps(s, s', r); }
    else { ReadsKeep(s, s', r); }
  }

  lemma StepKeeps(s: State, s': State)
    requires Inv(s) && Step(s, s')
    ensures Inv(s')
  {
    if WriterStep(s, s') {
      WriterStepKeeps(s, s');
    } else {
      var r :| r in s.receivers && ReceiverStep(s, s', r, s.receivers[r]);
      ReceiverStepKeeps(s, s', r);
    }
  }

  lemma {:induction false} RunInv(tr: seq<State>, k: nat)
    requires Run(tr) && k < |tr|
    ensures Inv(tr[k])
  {
    if k == 0 {
      InitInv(tr[0]);
    } else {
      RunInv(tr, k - 1);
      assert StepAt(tr, k);
      StepKeeps(tr[k - 1], tr[k]);
    }
  }

  lemma WriterLog(s: State, s': State)
    requires WriterStep(s, s')
    ensures s.log <= s'.log
  {
  }

  lemma ReceiverLog(s: State, s': State, r: Rid, x: Receiver)
    requires ReceiverStep(s, s', r, x)
    ensures s.log == s'.log
  {
  }

  lemma {:induction false} LogGrows(tr: seq<State>, j: nat, k: nat)
    requires Run(tr) && j <= k < |tr|
    ensures tr[j].log <= tr[k].log
    decreases k
  {
    if j < k {
      LogGrows(tr, j, k - 1);
      assert StepAt(tr, k);
      var s, s' := tr[k - 1], tr[k];
      if WriterStep(s, s') {
        WriterLog(s, s');
      } else {
        var r :| r in s.receivers && ReceiverStep(s, s', r, s.receivers[r]);
        ReceiverLog(s, s', r, s.receivers[r]);
      }
    }
  }

  /** A receiver that has chosen its start and not left. */
  predicate Connected(s: State, r: Rid) {
    r in s.receivers && Held(s.receivers[r]) && !Joining(s.receivers[r])
  }

  /** Gap-free broadcast: at every point of every run a connected receiver has popped
      the consecutive elements from its start to its cursor, each with the bytes pushed,
      and the writer is at most one lap ahead of it. */
  lemma GapFree(tr: seq<State>, k: nat, r: Rid)
    requires Run(tr) && k < |tr| && Connected(tr[k], r)
    ensures var s, x := tr[k], tr[k].receivers[r];
            && x.start <= x.cur <= s.wt <= x.cur + RING
            && x.cur <= |tr[|tr| - 1].log| && x.popped == tr[|tr| - 1].log[x.start..x.cur]
  {
    RunInv(tr, k);
    assert ReceiverOk(tr[k], r);
    LogGrows(tr, k, |tr| - 1);
  }

  /** Exact start: a receiver starts at the first element since its cursor read that was
      stamped with its bit; every published element from there on is stamped with it. */
  lemma StartsAtFirstAddressed(tr: seq<State>, k: nat, r: Rid, p: nat)
    requires Run(tr) && k < |tr| && Connected(tr[k], r)
    requires tr[k].receivers[r].since <= p < tr[k].wt
    ensures var s, x := tr[k], tr[k].receivers[r];
            p < |s.stamps| && (x.bit in s.stamps[p] <==> x.start <= p)
  {
    RunInv(tr, k);
    assert ReceiverOk(tr[k], r);
  }

  /** Nothing is left behind: no element between a receiver's `since` and its cursor
      still carries its mark, and every element from its cursor on does. */
  lemma NothingLeftBehind(tr: seq<State>, k: nat, r: Rid, p: nat)
    requires Run(tr) && k < |tr| && Connected(tr[k], r)
    requires tr[k].receivers[r].since <= p < tr[k].wt && At(tr[k], p).pos == p
    ensures var s, x := tr[k], tr[k].receivers[r];
            x.bit in At(s, p).marks <==> x.cur <= p
  {
    var s, x := tr[k], tr[k].receivers[r];
    RunInv(tr, k);
    assert ReceiverOk(s, r);
    assert SlotOk(s, Index(p));
    assert x.start <= p < x.cur ==> !Marked(s, p, x.bit);
    assert x.cur <= p ==> Marked(s, p, x.bit);
  }

  /** Exactly who holds the writer up: once a connected receiver has stored `since`, its bit
      is on the next slot and counts as live if and only if the receiver has not read the
      element one lap before. */
  lemma BlockedExactly(tr: seq<State>, k: nat, r: Rid)
    requires Run(tr) && k < |tr| && !Stamped(tr[k].writer)
    requires r in tr[k].receivers && Held(tr[k].receivers[r]) && !tr[k].receivers[r].phase.Claimed?
    ensures var s, x := tr[k], tr[k].receivers[r];
            x.bit in At(s, s.wt).marks && Live(s.wt, s.since[x.bit]) <==> !Settled(x, s.wt)
  {
    var s, x := tr[k], tr[k].receivers[r];
    RunInv(tr, k);
    assert ReceiverOk(s, r);
    LapBefore(s, s.wt);
    var p := s.wt - RING;
    if !Settled(x, s.wt) {
      assert Marked(s, p, x.bit);
    } else if x.bit in At(s, s.wt).marks {
      assert SlotOk(s, Index(s.wt));
      assert Marked(s, p, x.bit);
    }
  }
}
