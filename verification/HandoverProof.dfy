/** A commit and a connect that cross: a previous owner's mark is dropped by one of them,
    the slot is released exactly when its last mark goes, and no other mark is lost. */
module HandoverProof {
  import opened RingWords
  import opened HandoverSlot

  ghost predicate Shape(k: Setup, s: State) {
    && k.Valid()
    && s.since.Keys == k.Cc() && s.joiners.Keys == k.hand && s.readers.Keys == k.Cc()
    && k.Pos(s.slot.lap) < POSITIONS
    && s.slot.marks <= k.Cc()
    && 0 in s.writers
    && (forall b | b in k.stay :: s.since[b] <= k.pos0)
    && (forall b | b in k.hand :: if s.joiners[b].JSince? then s.since[b] <= k.pos0 else s.since[b] == k.sigma[b])
  }

  /** A reader past its commit check. */
  predicate Leaving(x: Reader, p: nat) {
    x.next == p && !x.pc.Poll?
  }

  predicate FreeW(k: Setup, s: State) {
    0 in s.writers && s.writers[0].WDrop? && s.writers[0].d.DFree?
  }

  predicate FreeJ(s: State, b: Bit) {
    b in s.joiners && s.joiners[b].JDrop? && s.joiners[b].d.DFree?
  }

  /** Somebody has dropped the last mark and is about to store the release flag. */
  ghost predicate Releasing(k: Setup, s: State) {
    FreeW(k, s) || exists b :: FreeJ(s, b)
  }

  /** Only one thread is. */
  ghost predicate OneReleaser(k: Setup, s: State) {
    && (forall b | FreeJ(s, b) :: !FreeW(k, s))
    && (forall b, c | FreeJ(s, b) && FreeJ(s, c) :: b == c)
  }

  ghost predicate SlotOk(k: Setup, s: State)
    requires Shape(k, s)
  {
    var t := s.slot;
    && (t.open ==>
          && t.lap in s.writers && s.writers[t.lap].WOpen? && t.flag == FreeFlag(k.Pos(t.lap))
          && k.stay <= t.marks != {} && (t.lap > 0 ==> t.marks == k.Cc()))
    && (!t.open ==>
          && (t.flag == Committed(k.Pos(t.lap)) || t.flag == Released(k.Pos(t.lap)))
          && (t.marks == {} && t.flag != Released(k.Pos(t.lap)) ==> Releasing(k, s))
          && (t.flag == Released(k.Pos(t.lap)) ==> forall b | b in t.marks :: Leaving(s.readers[b], t.lap)))
    && (forall b | b in k.stay || (b in k.hand && t.lap > 0) :: b in t.marks <==> s.readers[b].next <= t.lap)
  }

  ghost predicate LoadedOk(s: State, rc: Rc) {
    rc.gen <= s.slot.gen && (rc.gen == s.slot.gen ==> rc == Now(s.slot))
  }

  ghost predicate DropOk(k: Setup, s: State, b: Bit, d: Drop)
    requires Shape(k, s)
  {
    && b in k.hand && !d.DDone? && (s.slot.lap == 0 ==> !s.slot.open)
    && (d.DFlag? || d.DCas? ==> LoadedOk(s, d.rc) && (s.slot.lap == 0 ==> s.slot.marks <= d.rc.marks))
    && (d.DCas? ==> b in d.rc.marks && (d.rc.gen == s.slot.gen ==> s.slot.lap == 0 && !s.slot.open))
    && (d.DFree? ==> s.slot.lap == 0 && !s.slot.open && s.slot.marks == {} && s.slot.flag == Committed(k.pos0))
  }

  ghost predicate WriterOk(k: Setup, s: State, p: nat)
    requires Shape(k, s) && p in s.writers
  {
    var x := s.writers[p];
    && p <= s.slot.lap
    && (x.WOpen? ==> p == s.slot.lap && s.slot.open)
    && (x.WScan? ==> x.todo <= k.Cc() && StaleOk(k, p, x.stale))
    && (x.WNext? ==> StaleOk(k, p, x.rest))
    && (x.WDrop? ==> p == 0 && x.rest <= k.hand && DropOk(k, s, x.b, x.d))
  }

  /** Only the writer of `pos0` finds marks from before their receiver started. */
  ghost predicate StaleOk(k: Setup, p: nat, stale: set<Bit>) {
    stale <= k.hand && (p > 0 ==> stale == {})
  }

  ghost predicate JoinerOk(k: Setup, s: State, b: Bit)
    requires Shape(k, s) && b in k.hand
  {
    && (s.joiners[b].JDrop? ==> s.joiners[b].p == k.pos0 && DropOk(k, s, b, s.joiners[b].d))
    && (s.slot.lap == 0 && b in s.slot.marks && s.joiners[b].JDone? ==> WPending(s.writers[0], b))
  }

  /** The writer has yet to deal with the mark `b`. */
  predicate WPending(x: Writer, b: Bit) {
    match x
    case WOpen => true
    case WMarks => true
    case WScan(todo, stale) => b in todo || b in stale
    case WNext(rest) => b in rest
    case WDrop(c, rest, _) => b == c || b in rest
  }

  ghost predicate ReaderOk(k: Setup, s: State, b: Bit)
    requires Shape(k, s) && b in k.Cc()
  {
    var x := s.readers[b];
    && x.next <= s.slot.lap + 1
    && (b in k.hand ==> 0 < x.next)
    && (!x.pc.Poll? ==> x.next == s.slot.lap && !s.slot.open)
    && (x.pc.Test? || x.pc.Cas? ==> LoadedOk(s, x.pc.rc) && b in x.pc.rc.marks && s.slot.marks <= x.pc.rc.marks)
    && (x.pc.Cas? && x.pc.rc.marks == {b} ==> s.slot.flag == Released(k.Pos(s.slot.lap)))
  }

  ghost predicate Inv(k: Setup, s: State) {
    && Shape(k, s) && SlotOk(k, s) && OneReleaser(k, s)
    && (forall p | p in s.writers :: WriterOk(k, s, p))
    && (forall b | b in k.hand :: JoinerOk(k, s, b))
    && (forall b | b in k.Cc() :: ReaderOk(k, s, b))
  }

  lemma InitInv(k: Setup, s: State)
    requires Init(k, s)
    ensures Inv(k, s)
  {
  }

  // release_mark ----------------------------------------------------------------------

  /** What one access of `release_mark` for bit `b` may do to the slot: drop that mark,
      at position `pos0`, while the slot is committed for it; or release the slot. */
  ghost predicate DropEffect(k: Setup, t: Slot, t': Slot, b: Bit, d: Drop, d': Drop) {
    && t'.lap == t.lap && t'.open == t.open
    && (t'.marks == t.marks || (b in t.marks && t'.marks == t.marks - {b} && t'.gen == t.gen + 1))
    && (t'.marks == t.marks ==> t'.gen == t.gen)
    && (t'.marks != t.marks ==>
          && t.lap == 0 && k.pos0 < U32 && !t.open && t.flag == Committed(k.pos0) == t'.flag
          && d' == if t'.marks == {} then DFree else DDone)
    && (t'.flag == t.flag || (d.DFree? && t'.flag == Released(k.pos0)))
    && (d' == DDone ==> t.lap > 0 || b !in t'.marks)
    && (d.DFree? ==> t.lap == 0 && !t.open && t.marks == {} && t'.flag == Released(k.pos0) && d' == DDone)
    && (d'.DFree? ==> t'.marks == {} != t.marks)
  }

  lemma DropFacts(k: Setup, s: State, t': Slot, b: Bit, d: Drop, d': Drop)
    requires Inv(k, s) && DropOk(k, s, b, d) && DropStep(s.slot, t', k.pos0, b, d, d')
    ensures DropEffect(k, s.slot, t', b, d, d')
  {
    assert ReaderOk(k, s, b);
    if d.DCas? && t' != s.slot { SameGeneration(s.slot.gen, d.rc.gen); }
  }

  /** The thread itself goes on with what it has loaded. */
  lemma OwnDropKeeps(k: Setup, s: State, s': State, b: Bit, d: Drop, d': Drop)
    requires Inv(k, s) && Shape(k, s') && DropOk(k, s, b, d) && DropStep(s.slot, s'.slot, k.pos0, b, d, d')
    requires d' != DDone
    ensures DropOk(k, s', b, d')
  {
    DropFacts(k, s, s'.slot, b, d, d');
  }

  /** What a step must leave alone for the readers, and when their view of it changes. */
  lemma ReadersKeep(k: Setup, s: State, s': State, b: Bit)
    requires Shape(k, s) && Shape(k, s') && b in k.Cc() && ReaderOk(k, s, b)
    requires s'.readers == s.readers && s'.slot.lap == s.slot.lap && s.slot.gen <= s'.slot.gen
    requires s'.slot.gen == s.slot.gen ==> s'.slot.marks == s.slot.marks
    requires s'.slot.marks <= s.slot.marks && (!s.slot.open ==> !s'.slot.open)
    requires s'.slot.flag == s.slot.flag || s'.slot.flag == Released(k.Pos(s.slot.lap)) || s.slot.open
    ensures ReaderOk(k, s', b)
  {
  }

  /** The other threads inside `release_mark` keep their view. */
  lemma DropsKeep(k: Setup, s: State, s': State, b: Bit, d: Drop)
    requires Shape(k, s) && Shape(k, s') && DropOk(k, s, b, d)
    requires s.slot.gen <= s'.slot.gen && s.slot.lap <= s'.slot.lap
    requires (!s.slot.open && s'.slot.lap == 0 ==> !s'.slot.open)
    requires s'.slot.gen == s.slot.gen ==> s'.slot.marks == s.slot.marks && s'.slot.lap == s.slot.lap
    requires s'.slot.lap == s.slot.lap ==> s'.slot.marks <= s.slot.marks
    requires d.DFree? ==> s'.slot == s.slot
    ensures DropOk(k, s', b, d)
  {
  }

  /** The slot after one access of `release_mark` on behalf of bit `b`. */
  lemma DropKeepsSlot(k: Setup, s: State, s': State, b: Bit, d: Drop, d': Drop)
    requires Shape(k, s) && SlotOk(k, s) && Shape(k, s') && b in k.hand && DropEffect(k, s.slot, s'.slot, b, d, d')
    requires s'.readers == s.readers
    requires s.slot.open ==> s.slot.lap in s'.writers && s'.writers[s.slot.lap].WOpen?
    requires d'.DFree? ==> Releasing(k, s')
    requires !d.DFree? && Releasing(k, s) ==> Releasing(k, s')
    ensures SlotOk(k, s')
  {
    var t, t' := s.slot, s'.slot;
    assert t'.open ==> t'.marks == t.marks && t'.flag == t.flag;
    assert t.lap > 0 ==> t'.marks == t.marks;
  }

  lemma DropKeepsOthers(k: Setup, s: State, s': State, b: Bit, d: Drop, d': Drop, c: Bit, e: Drop)
    requires Shape(k, s) && Shape(k, s') && DropEffect(k, s.slot, s'.slot, b, d, d') && DropOk(k, s, c, e)
    requires e.DFree? ==> !d.DFree?
    ensures DropOk(k, s', c, e)
  {
    DropsKeep(k, s, s', c, e);
  }

  /** At most one thread is about to release, before and after. */
  lemma ReleaserAfterDrop(k: Setup, s: State, b: Bit)
    requires Inv(k, s) && s.slot.marks != {}
    ensures !FreeW(k, s) && !FreeJ(s, b)
  {
    assert WriterOk(k, s, 0);
    if b in k.hand { assert JoinerOk(k, s, b); }
  }

  /** What an access of `release_mark` by the writer of `pos0` does. */
  ghost predicate WriterMoved(k: Setup, s: State, s': State, x: Writer, d': Drop) {
    && 0 in s.writers && s.writers[0] == x && x.WDrop? && x.b in k.hand && Shape(k, s')
    && DropEffect(k, s.slot, s'.slot, x.b, x.d, d') && (d' != DDone ==> DropOk(k, s', x.b, d'))
    && s' == s.(slot := s'.slot, writers := s.writers[0 := if d' == DDone then WNext(x.rest) else x.(d := d')])
  }

  lemma WriterEffect(k: Setup, s: State, s': State, p: nat, d': Drop)
    requires Inv(k, s) && WriterDrops(k, s, s', p, d')
    ensures p == 0 && WriterMoved(k, s, s', s.writers[0], d')
  {
    var x := s.writers[p];
    assert WriterOk(k, s, p);
    DropFacts(k, s, s'.slot, x.b, x.d, d');
    if d' != DDone { OwnDropKeeps(k, s, s', x.b, x.d, d'); }
  }

  lemma WriterDropsJoiner(k: Setup, s: State, s': State, x: Writer, d': Drop, b: Bit)
    requires Inv(k, s) && WriterMoved(k, s, s', x, d') && b in k.hand
    ensures JoinerOk(k, s', b)
  {
    assert WriterOk(k, s, 0) && JoinerOk(k, s, b);
    if s.joiners[b].JDrop? {
      assert FreeJ(s, b) == s.joiners[b].d.DFree? && FreeW(k, s) == x.d.DFree?;
      DropKeepsOthers(k, s, s', x.b, x.d, d', b, s.joiners[b].d);
    }
  }

  lemma WriterDropsWriter(k: Setup, s: State, s': State, x: Writer, d': Drop, q: nat)
    requires Inv(k, s) && WriterMoved(k, s, s', x, d') && q in s.writers
    ensures WriterOk(k, s', q)
  {
    assert WriterOk(k, s, 0) && WriterOk(k, s, q);
  }

  lemma WriterDropKeeps(k: Setup, s: State, s': State, p: nat, d': Drop)
    requires Inv(k, s) && WriterDrops(k, s, s', p, d')
    ensures Inv(k, s')
  {
    WriterEffect(k, s, s', p, d');
    WriterMovedKeeps(k, s, s', s.writers[0], d');
  }

  lemma WriterMovedKeeps(k: Setup, s: State, s': State, x: Writer, d': Drop)
    requires Inv(k, s) && WriterMoved(k, s, s', x, d')
    ensures Inv(k, s')
  {
    forall b | b in k.hand ensures JoinerOk(k, s', b) { WriterDropsJoiner(k, s, s', x, d', b); }
    forall q | q in s'.writers ensures WriterOk(k, s', q) { WriterDropsWriter(k, s, s', x, d', q); }
    forall b | b in k.Cc() ensures ReaderOk(k, s', b) { ReadersKeep(k, s, s', b); }
    WriterReleaser(k, s, s', x, d');
    DropKeepsSlot(k, s, s', x.b, x.d, d');
  }

  lemma WriterReleaser(k: Setup, s: State, s': State, x: Writer, d': Drop)
    requires Inv(k, s) && WriterMoved(k, s, s', x, d')
    ensures OneReleaser(k, s')
    ensures d'.DFree? ==> Releasing(k, s')
    ensures !x.d.DFree? && Releasing(k, s) ==> Releasing(k, s')
  {
    forall b ensures FreeJ(s', b) == FreeJ(s, b) {}
    if d'.DFree? { forall b ensures !FreeJ(s, b) { ReleaserAfterDrop(k, s, b); } }
  }

  /** What an access of `release_mark` by the new owner of `b` does. */
  ghost predicate JoinerMoved(k: Setup, s: State, s': State, b: Bit, d: Drop, d': Drop) {
    && b in k.hand && b in s.joiners && s.joiners[b] == JDrop(k.pos0, d) && Shape(k, s')
    && DropEffect(k, s.slot, s'.slot, b, d, d') && (d' != DDone ==> DropOk(k, s', b, d'))
    && s' == s.(slot := s'.slot, joiners := s.joiners[b := if d' == DDone then JDone else JDrop(k.pos0, d')])
  }

  lemma JoinerEffect(k: Setup, s: State, s': State, b: Bit, d': Drop)
    requires Inv(k, s) && JoinerDrops(s, s', b, d')
    ensures JoinerMoved(k, s, s', b, s.joiners[b].d, d')
  {
    var d := s.joiners[b].d;
    assert JoinerOk(k, s, b);
    DropFacts(k, s, s'.slot, b, d, d');
    if d' != DDone { OwnDropKeeps(k, s, s', b, d, d'); }
  }

  lemma JoinerDropsJoiner(k: Setup, s: State, s': State, b: Bit, d: Drop, d': Drop, c: Bit)
    requires Inv(k, s) && JoinerMoved(k, s, s', b, d, d') && c in k.hand
    ensures JoinerOk(k, s', c)
  {
    assert JoinerOk(k, s, b) && JoinerOk(k, s, c);
    if c != b && s.joiners[c].JDrop? {
      assert FreeJ(s, b) == d.DFree? && FreeJ(s, c) == s.joiners[c].d.DFree?;
      DropKeepsOthers(k, s, s', b, d, d', c, s.joiners[c].d);
    }
  }

  lemma JoinerDropsWriter(k: Setup, s: State, s': State, b: Bit, d: Drop, d': Drop, q: nat)
    requires Inv(k, s) && JoinerMoved(k, s, s', b, d, d') && q in s.writers
    ensures WriterOk(k, s', q)
  {
    assert WriterOk(k, s, q);
    if s.writers[q].WDrop? {
      assert FreeJ(s, b) == d.DFree? && FreeW(k, s) == s.writers[q].d.DFree?;
      DropKeepsOthers(k, s, s', b, d, d', s.writers[q].b, s.writers[q].d);
    }
  }

  lemma JoinerDropKeeps(k: Setup, s: State, s': State, b: Bit, d': Drop)
    requires Inv(k, s) && JoinerDrops(s, s', b, d')
    ensures Inv(k, s')
  {
    JoinerEffect(k, s, s', b, d');
    JoinerMovedKeeps(k, s, s', b, s.joiners[b].d, d');
  }

  lemma JoinerMovedKeeps(k: Setup, s: State, s': State, b: Bit, d: Drop, d': Drop)
    requires Inv(k, s) && JoinerMoved(k, s, s', b, d, d')
    ensures Inv(k, s')
  {
    JoinerReleaser(k, s, s', b, d, d');
    DropKeepsSlot(k, s, s', b, d, d');
    forall c | c in k.Cc() ensures ReaderOk(k, s', c) { ReadersKeep(k, s, s', c); }
    forall c | c in k.hand ensures JoinerOk(k, s', c) { JoinerDropsJoiner(k, s, s', b, d, d', c); }
    forall q | q in s'.writers ensures WriterOk(k, s', q) { JoinerDropsWriter(k, s, s', b, d, d', q); }
  }

  lemma JoinerReleaser(k: Setup, s: State, s': State, b: Bit, d: Drop, d': Drop)
    requires Inv(k, s) && JoinerMoved(k, s, s', b, d, d')
    ensures OneReleaser(k, s')
    ensures d'.DFree? ==> Releasing(k, s')
    ensures !d.DFree? && Releasing(k, s) ==> Releasing(k, s')
  {
    forall c | c != b ensures FreeJ(s', c) == FreeJ(s, c) {}
    assert FreeW(k, s') == FreeW(k, s) && FreeJ(s', b) == d'.DFree? && FreeJ(s, b) == d.DFree?;
    if d'.DFree? { forall c ensures !FreeJ(s, c) && !FreeW(k, s) { ReleaserAfterDrop(k, s, c); } }
    JoinerReleasing(k, s, s', b, d, d');
  }

  lemma JoinerReleasing(k: Setup, s: State, s': State, b: Bit, d: Drop, d': Drop)
    requires b in s.joiners && s.joiners[b] == JDrop(k.pos0, d) && FreeW(k, s') == FreeW(k, s)
    requires forall c | c != b :: FreeJ(s', c) == FreeJ(s, c)
    ensures !d.DFree? && Releasing(k, s) ==> Releasing(k, s')
  {
    if !d.DFree? && !FreeW(k, s) && exists c :: FreeJ(s, c) {
      var c :| FreeJ(s, c);
      assert FreeJ(s', c);
    }
  }

  // The writer's other steps --------------------------------------------------------------

  /** Only the pc of writer `p` moved, neither opening nor releasing. */
  lemma QuietWriterKeeps(k: Setup, s: State, s': State, p: nat)
    requires Inv(k, s) && p in s.writers && p in s'.writers && s' == s.(writers := s.writers[p := s'.writers[p]])
    requires !s.writers[p].WOpen? && !s.writers[p].WDrop? && !(s'.writers[p].WDrop? && s'.writers[p].d.DFree?)
    requires WriterOk(k, s', p)
    requires forall b | b in k.hand && p == 0 == s.slot.lap && b in s.slot.marks && s.joiners[b].JDone?
        && WPending(s.writers[p], b) ::
               WPending(s'.writers[p], b)
    ensures Inv(k, s')
  {
    QuietWriterSlot(k, s, s', p);
    forall b | b in k.hand ensures JoinerOk(k, s', b) {
      assert JoinerOk(k, s, b);
      QuietWriterJoiner(k, s, s', p, b);
    }
    forall q | q in s'.writers ensures WriterOk(k, s', q) { if q != p { assert WriterOk(k, s, q); } }
    forall b | b in k.Cc() ensures ReaderOk(k, s', b) { assert ReaderOk(k, s, b); }
  }

  lemma QuietWriterJoiner(k: Setup, s: State, s': State, p: nat, b: Bit)
    requires Shape(k, s) && Shape(k, s') && p in s.writers && p in s'.writers && b in k.hand && JoinerOk(k, s, b)
    requires s' == s.(writers := s.writers[p := s'.writers[p]])
    requires p == 0 == s.slot.lap && b in s.slot.marks && s.joiners[b].JDone? && WPending(s.writers[p], b) ==>
        WPending(s'.writers[p], b)
    ensures JoinerOk(k, s', b)
  {
  }

  lemma QuietWriterSlot(k: Setup, s: State, s': State, p: nat)
    requires Shape(k, s) && SlotOk(k, s) && OneReleaser(k, s) && Shape(k, s') && p in s.writers && p in s'.writers
    requires s' == s.(writers := s.writers[p := s'.writers[p]])
    requires !s.writers[p].WOpen? && !s.writers[p].WDrop? && !(s'.writers[p].WDrop? && s'.writers[p].d.DFree?)
    ensures SlotOk(k, s') && OneReleaser(k, s')
  {
    forall b ensures FreeJ(s', b) == FreeJ(s, b) {}
  }

  lemma ScanKeeps(k: Setup, s: State, s': State, p: nat)
    requires Inv(k, s)
    requires LoadMarks(s, s', p) || EndScan(s, s', p)
    ensures Inv(k, s')
  {
    assert WriterOk(k, s, p);
    QuietWriterKeeps(k, s, s', p);
  }

  lemma LookUpOk(k: Setup, s: State, s': State, p: nat, b: Bit)
    requires Inv(k, s) && LookUp(k, s, s', p, b)
    ensures Shape(k, s') && WriterOk(k, s', p)
  {
    assert WriterOk(k, s, p);
    AtOrAfterIsOrder(k.Pos(p), s.since[b]);
  }

  /** `live_marks` calls a mark stale exactly when its receiver started after `p`. */
  lemma LookUpKeeps(k: Setup, s: State, s': State, p: nat, b: Bit)
    requires Inv(k, s) && LookUp(k, s, s', p, b)
    ensures Inv(k, s')
  {
    LookUpOk(k, s, s', p, b);
    AtOrAfterIsOrder(k.pos0, s.since[b]);
    QuietWriterKeeps(k, s, s', p);
  }

  lemma NextMarkKeeps(k: Setup, s: State, s': State, p: nat, b: Bit)
    requires Inv(k, s) && NextMark(s, s', p, b)
    ensures Inv(k, s')
  {
    assert WriterOk(k, s, p);
    if s.slot.open { assert WriterOk(k, s, s.slot.lap); }
    QuietWriterKeeps(k, s, s', p);
  }

  lemma CommitKeeps(k: Setup, s: State, s': State, p: nat)
    requires Inv(k, s) && Commit(k, s, s', p)
    ensures Inv(k, s')
  {
    assert WriterOk(k, s, p);
    forall b ensures FreeJ(s', b) == FreeJ(s, b) {}
    assert SlotOk(k, s') && OneReleaser(k, s');
    forall b | b in k.hand ensures JoinerOk(k, s', b) { CommitJoiner(k, s, s', p, b); }
    forall q | q in s'.writers ensures WriterOk(k, s', q) { assert WriterOk(k, s, q); }
    forall b | b in k.Cc() ensures ReaderOk(k, s', b) { assert ReaderOk(k, s, b); }
  }

  lemma CommitJoiner(k: Setup, s: State, s': State, p: nat, b: Bit)
    requires Inv(k, s) && Commit(k, s, s', p) && b in k.hand
    ensures Shape(k, s') && JoinerOk(k, s', b)
  {
    assert WriterOk(k, s, p) && JoinerOk(k, s, b);
  }

  /** What a claim does: the released slot goes to the next lap, for every receiver. */
  ghost predicate ClaimAgain(k: Setup, s: State, s': State) {
    && s.slot.marks == {} && s.slot.flag == Released(k.Pos(s.slot.lap)) && k.Pos(s.slot.lap + 1) < POSITIONS
    && s' == s.(slot := s.slot.(gen := s.slot.gen + 1, marks := k.Cc(), lap := s.slot.lap + 1, open := true),
                writers := s.writers[s.slot.lap + 1 := WOpen], claimants := s'.claimants)
  }

  lemma ClaimAgainKeeps(k: Setup, s: State, s': State)
    requires Inv(k, s) && ClaimAgain(k, s, s')
    ensures Inv(k, s')
  {
    ClaimFacts(k, s, s');
    forall b ensures FreeJ(s', b) == FreeJ(s, b) {}
    forall b | b in k.hand ensures JoinerOk(k, s', b) { assert JoinerOk(k, s, b); }
    forall q | q in s'.writers ensures WriterOk(k, s', q) { if q != s'.slot.lap { assert WriterOk(k, s, q); } }
    forall b | b in k.Cc() ensures ReaderOk(k, s', b) { assert ReaderOk(k, s, b); }
  }

  /** A slot found released is not open, nobody is reading or releasing it, and every
      receiver is past its position. */
  lemma ClaimFacts(k: Setup, s: State, s': State)
    requires Inv(k, s) && ClaimAgain(k, s, s')
    ensures !s.slot.open && Shape(k, s') && SlotOk(k, s')
    ensures forall b | b in k.Cc() :: s.readers[b].pc.Poll? && s.readers[b].next == s'.slot.lap
    ensures !FreeW(k, s) && forall b :: !FreeJ(s, b)
  {
    assert WriterOk(k, s, 0);
    forall b | b in k.Cc() ensures s.readers[b].pc.Poll? && s.readers[b].next == s'.slot.lap {
      ClaimReader(k, s, b);
    }
    forall b ensures !FreeJ(s, b) { if b in k.hand { assert JoinerOk(k, s, b); } }
  }

  lemma ClaimReader(k: Setup, s: State, b: Bit)
    requires Inv(k, s) && s.slot.marks == {} && s.slot.flag == Released(k.Pos(s.slot.lap)) && b in k.Cc()
    ensures s.readers[b].pc.Poll? && s.readers[b].next == s.slot.lap + 1
  {
    var x := s.readers[b];
    assert ReaderOk(k, s, b);
    assert x.next > s.slot.lap;
  }

  // New owners --------------------------------------------------------------------------

  /** Only joiner `b` moved, and perhaps its `since`, and it is not releasing. */
  lemma QuietJoinerKeeps(k: Setup, s: State, s': State, b: Bit)
    requires Inv(k, s) && b in k.hand && b in s'.joiners
    requires s' == s.(joiners := s.joiners[b := s'.joiners[b]], since := s'.since)
    requires Shape(k, s') && JoinerOk(k, s', b) && !FreeJ(s, b) && !FreeJ(s', b)
    ensures Inv(k, s')
  {
    forall c ensures FreeJ(s', c) == FreeJ(s, c) {}
    assert SlotOk(k, s');
    forall c | c in k.hand ensures JoinerOk(k, s', c) { if c != b { assert JoinerOk(k, s, c); } }
    forall q | q in s'.writers ensures WriterOk(k, s', q) { assert WriterOk(k, s, q); }
    forall c | c in k.Cc() ensures ReaderOk(k, s', c) { assert ReaderOk(k, s, c); }
  }

  lemma StoreSinceKeeps(k: Setup, s: State, s': State, b: Bit)
    requires Inv(k, s) && StoreSince(k, s, s', b)
    ensures Inv(k, s')
  {
    QuietJoinerKeeps(k, s, s', b);
  }

  /** `release_stale` decodes the position of a committed slot exactly, and takes on
      precisely a slot committed for `pos0`. */
  lemma LoadFlagFacts(k: Setup, s: State, s': State, b: Bit)
    requires Inv(k, s) && LoadFlag(k, s, s', b)
    ensures s'.joiners[b] ==
            if !s.slot.open && s.slot.flag == Committed(k.Pos(s.slot.lap)) && s.slot.lap == 0
            then JDrop(k.pos0, DRc) else JDone
  {
    AtOrAfterIsOrder(k.Pos(s.slot.lap), k.sigma[b]);
  }

  lemma LoadFlagKeeps(k: Setup, s: State, s': State, b: Bit)
    requires Inv(k, s) && LoadFlag(k, s, s', b)
    ensures Inv(k, s')
  {
    LoadFlagFacts(k, s, s', b);
    if s.slot.lap == 0 && b in s.slot.marks { LeftoverFlag(k, s, b); }
    QuietJoinerKeeps(k, s, s', b);
  }

  /** A leftover mark on the slot of `pos0`: the slot is uncommitted, or its flag is up. */
  lemma LeftoverFlag(k: Setup, s: State, b: Bit)
    requires Inv(k, s) && b in k.hand && s.slot.lap == 0 && b in s.slot.marks
    ensures if s.slot.open then s.writers[0].WOpen? else s.slot.flag == Committed(k.pos0)
  {
    assert ReaderOk(k, s, b);
  }

  // Readers -----------------------------------------------------------------------------

  lemma QuietReaderKeeps(k: Setup, s: State, s': State, b: Bit)
    requires Inv(k, s) && b in k.Cc() && b in s'.readers
    requires s' == s.(readers := s.readers[b := s.readers[b].(pc := s'.readers[b].pc)])
    requires !s.readers[b].pc.Poll? ==> !s'.readers[b].pc.Poll?
    requires ReaderOk(k, s', b)
    ensures Inv(k, s')
  {
    QuietReaderSlot(k, s, s', b);
    forall c | c in k.hand ensures JoinerOk(k, s', c) { assert JoinerOk(k, s, c); }
    forall q | q in s'.writers ensures WriterOk(k, s', q) { assert WriterOk(k, s, q); }
    forall c | c in k.Cc() ensures ReaderOk(k, s', c) { if c != b { assert ReaderOk(k, s, c); } }
  }

  lemma QuietReaderSlot(k: Setup, s: State, s': State, b: Bit)
    requires Shape(k, s) && SlotOk(k, s) && OneReleaser(k, s) && Shape(k, s') && b in k.Cc()
    requires s' == s.(readers := s.readers[b := s.readers[b].(pc := s'.readers[b].pc)])
    requires !s.readers[b].pc.Poll? ==> !s'.readers[b].pc.Poll?
    ensures SlotOk(k, s') && OneReleaser(k, s')
  {
    forall c ensures FreeJ(s', c) == FreeJ(s, c) {}
  }

  /** A reader that is past its commit check still has its mark on the slot. */
  lemma OwnMark(k: Setup, s: State, b: Bit)
    requires Inv(k, s) && b in k.Cc() && !s.readers[b].pc.Poll?
    ensures b in s.slot.marks && (b in k.hand ==> s.slot.lap > 0)
  {
    assert ReaderOk(k, s, b);
  }

  lemma ReadsKeep(k: Setup, s: State, s': State, b: Bit)
    requires Inv(k, s)
    requires SeeCommit(k, s, s', b) || ReloadRc(s, s', b) || NotLast(s, s', b) || ClearFails(s, s', b)
    ensures Inv(k, s')
  {
    assert ReaderOk(k, s, b);
    if !s.readers[b].pc.Poll? { OwnMark(k, s, b); }
    QuietReaderKeeps(k, s, s', b);
  }

  lemma ReleaseKeeps(k: Setup, s: State, s': State, b: Bit)
    requires Inv(k, s) && ReleaseEarly(k, s, s', b)
    ensures Inv(k, s')
  {
    assert ReaderOk(k, s, b);
    OwnMark(k, s, b);
    assert s.slot.marks == {b};
    ReleaserAfterDrop(k, s, b);
    forall c ensures FreeJ(s', c) == FreeJ(s, c) { ReleaserAfterDrop(k, s, c); }
    assert SlotOk(k, s');
    forall c | c in k.hand ensures JoinerOk(k, s', c) { assert JoinerOk(k, s, c); ReleaserAfterDrop(k, s, c); }
    forall q | q in s'.writers ensures WriterOk(k, s', q) { assert WriterOk(k, s, q); }
    forall c | c in k.Cc() ensures ReaderOk(k, s', c) { assert ReaderOk(k, s, c); }
  }

  lemma ClearFacts(k: Setup, s: State, s': State, b: Bit)
    requires Inv(k, s) && ClearWins(s, s', b)
    ensures b in k.Cc() && b in s.slot.marks && s.readers[b].next == s.slot.lap && !s.slot.open
    ensures b in k.hand ==> s.slot.lap > 0
    ensures s'.slot.marks == {} ==> s.slot.flag == Released(k.Pos(s.slot.lap))
    ensures !FreeW(k, s) && forall c :: !FreeJ(s, c)
  {
    assert ReaderOk(k, s, b);
    OwnMark(k, s, b);
    SameGeneration(s.slot.gen, s.readers[b].pc.rc.gen);
    forall c ensures !FreeJ(s, c) && !FreeW(k, s) { ReleaserAfterDrop(k, s, c); }
  }

  lemma ClearJoiner(k: Setup, s: State, s': State, b: Bit, c: Bit)
    requires Inv(k, s) && ClearWins(s, s', b) && c in k.hand
    ensures Shape(k, s') && JoinerOk(k, s', c)
  {
    ClearFacts(k, s, s', b);
    assert JoinerOk(k, s, c);
    if s.joiners[c].JDrop? { DropsKeep(k, s, s', c, s.joiners[c].d); }
  }

  lemma ClearWriter(k: Setup, s: State, s': State, b: Bit, q: nat)
    requires Inv(k, s) && ClearWins(s, s', b) && q in s.writers
    ensures Shape(k, s') && WriterOk(k, s', q)
  {
    ClearFacts(k, s, s', b);
    assert WriterOk(k, s, q);
    if s.writers[q].WDrop? { DropsKeep(k, s, s', s.writers[q].b, s.writers[q].d); }
  }

  lemma ClearReader(k: Setup, s: State, s': State, b: Bit, c: Bit)
    requires Inv(k, s) && ClearWins(s, s', b) && c in k.Cc()
    ensures Shape(k, s') && ReaderOk(k, s', c)
  {
    ClearFacts(k, s, s', b);
    assert ReaderOk(k, s, b) && ReaderOk(k, s, c);
  }

  lemma ClearSlot(k: Setup, s: State, s': State, b: Bit)
    requires Inv(k, s) && ClearWins(s, s', b)
    ensures Shape(k, s') && SlotOk(k, s') && OneReleaser(k, s')
  {
    ClearFacts(k, s, s', b);
    forall c ensures FreeJ(s', c) == FreeJ(s, c) {}
  }

  lemma ClearKeeps(k: Setup, s: State, s': State, b: Bit)
    requires Inv(k, s) && ClearWins(s, s', b)
    ensures Inv(k, s')
  {
    ClearSlot(k, s, s', b);
    forall c | c in k.hand ensures JoinerOk(k, s', c) { ClearJoiner(k, s, s', b, c); }
    forall q | q in s'.writers ensures WriterOk(k, s', q) { ClearWriter(k, s, s', b, q); }
    forall c | c in k.Cc() ensures ReaderOk(k, s', c) { ClearReader(k, s, s', b, c); }
  }

  // Runs ----------------------------------------------------------------------------------

  lemma WriterStepKeeps(k: Setup, s: State, s': State, p: nat)
    requires Inv(k, s) && WriterStep(k, s, s', p)
    ensures Inv(k, s')
  {
    if Commit(k, s, s', p) { CommitKeeps(k, s, s', p); }
    else if LoadMarks(s, s', p) || EndScan(s, s', p) { ScanKeeps(k, s, s', p); }
    else if b :| LookUp(k, s, s', p, b) { LookUpKeeps(k, s, s', p, b); }
    else if b :| NextMark(s, s', p, b) { NextMarkKeeps(k, s, s', p, b); }
    else { var d :| WriterDrops(k, s, s', p, d); WriterDropKeeps(k, s, s', p, d); }
  }

  lemma ReaderStepKeeps(k: Setup, s: State, s': State, b: Bit)
    requires Inv(k, s) && ReaderStep(k, s, s', b)
    ensures Inv(k, s')
  {
    assert ReaderOk(k, s, b);
    if ReleaseEarly(k, s, s', b) { ReleaseKeeps(k, s, s', b); }
    else if ReleaseUnmarked(k, s, s', b) { assert false; }
    else if ClearWins(s, s', b) { ClearKeeps(k, s, s', b); }
    else { ReadsKeep(k, s, s', b); }
  }

  lemma JoinerStepKeeps(k: Setup, s: State, s': State, b: Bit)
    requires Inv(k, s) && JoinerStep(k, s, s', b)
    ensures Inv(k, s')
  {
    if StoreSince(k, s, s', b) { StoreSinceKeeps(k, s, s', b); }
    else if LoadFlag(k, s, s', b) { LoadFlagKeeps(k, s, s', b); }
    else { var d :| JoinerDrops(s, s', b, d); JoinerDropKeeps(k, s, s', b, d); }
  }

  // Claims of later laps ------------------------------------------------------------------

  /** A claimant that found the slot free has found it released before its own lap, for as
      long as `rc_` does not move. */
  ghost predicate ClaimantOk(k: Setup, s: State, x: Claimant) {
    k.Pos(x.lap) < POSITIONS &&
    match x
    case KRc(lap, rc) => LoadedOk(s, rc)
    case KFree(lap, gen) =>
      && gen <= s.slot.gen
      && (gen == s.slot.gen ==>
            s.slot.marks == {} && s.slot.flag == Released(k.Pos(s.slot.lap)) && lap == s.slot.lap + 1)
  }

  ghost predicate Good(k: Setup, s: State) {
    Inv(k, s) && forall t | t in s.claimants :: ClaimantOk(k, s, s.claimants[t])
  }

  /** How the slot moves, as far as a claimant can tell. */
  ghost predicate Later(k: Setup, t: Slot, t': Slot) {
    && t.gen <= t'.gen
    && (t.gen == t'.gen ==>
          && t'.marks == t.marks && t'.lap == t.lap
          && (t.marks == {} && t.flag == Released(k.Pos(t.lap)) ==> t'.flag == t.flag))
  }

  lemma ClaimantsKeep(k: Setup, s: State, s': State)
    requires Good(k, s) && Inv(k, s') && Later(k, s.slot, s'.slot) && s'.claimants == s.claimants
    ensures Good(k, s')
  {
    forall t | t in s'.claimants ensures ClaimantOk(k, s', s'.claimants[t]) { assert ClaimantOk(k, s, s.claimants[t]); }
  }

  lemma WriterMoves(k: Setup, s: State, s': State, p: nat)
    requires Inv(k, s) && WriterStep(k, s, s', p)
    ensures s'.claimants == s.claimants && Later(k, s.slot, s'.slot)
  {
    assert WriterOk(k, s, p);
    if d :| WriterDrops(k, s, s', p, d) { WriterEffect(k, s, s', p, d); }
  }

  lemma JoinerMoves(k: Setup, s: State, s': State, b: Bit)
    requires Inv(k, s) && JoinerStep(k, s, s', b)
    ensures s'.claimants == s.claimants && Later(k, s.slot, s'.slot)
  {
    assert b in k.hand && JoinerOk(k, s, b);
    if d :| JoinerDrops(s, s', b, d) { JoinerEffect(k, s, s', b, d); }
  }

  lemma ReaderMoves(k: Setup, s: State, s': State, b: Bit)
    requires Inv(k, s) && ReaderStep(k, s, s', b)
    ensures s'.claimants == s.claimants && Later(k, s.slot, s'.slot)
  {
    assert ReaderOk(k, s, b);
    if s.readers[b].pc.Test? { OwnMark(k, s, b); }
  }

  /** Only the claimants changed. */
  lemma ClaimantOnly(k: Setup, s: State, s': State)
    requires Inv(k, s) && s' == s.(claimants := s'.claimants)
    ensures Inv(k, s')
  {
    forall b ensures FreeJ(s', b) == FreeJ(s, b) {}
    forall b | b in k.hand ensures JoinerOk(k, s', b) { assert JoinerOk(k, s, b); }
    forall q | q in s'.writers ensures WriterOk(k, s', q) { assert WriterOk(k, s, q); }
    forall b | b in k.Cc() ensures ReaderOk(k, s', b) { assert ReaderOk(k, s, b); }
  }

  /** A flag that lets a writer into an unmarked slot is the release flag of the lap before. */
  lemma FreeIsReleased(k: Setup, s: State, lap: nat)
    requires Inv(k, s) && s.slot.marks == {} && (s.slot.flag == k.Pos(lap) || s.slot.flag == 0)
    requires k.Pos(lap) < POSITIONS
    ensures s.slot.flag == Released(k.Pos(s.slot.lap)) && lap == s.slot.lap + 1
  {
    assert SlotOk(k, s);
    assert k.Pos(s.slot.lap) < POSITIONS;
  }

  lemma TestKeeps(k: Setup, s: State, s': State, t: nat)
    requires Good(k, s) && TestFree(k, s, s', t)
    ensures Good(k, s')
  {
    var x := s.claimants[t];
    assert ClaimantOk(k, s, x);
    ClaimantOnly(k, s, s');
    if x.rc.marks == {} && (s.slot.flag == k.Pos(x.lap) || s.slot.flag == 0) && x.rc.gen == s.slot.gen {
      FreeIsReleased(k, s, x.lap);
    }
    forall u | u in s'.claimants ensures ClaimantOk(k, s', s'.claimants[u]) { assert ClaimantOk(k, s, s.claimants[u]); }
  }

  /** A winning CAS claims the slot for the lap after the one it holds. */
  lemma ClaimIsNext(k: Setup, s: State, s': State, t: nat)
    requires Good(k, s) && ClaimWins(k, s, s', t)
    ensures ClaimAgain(k, s, s') && s.claimants[t].lap == s.slot.lap + 1
  {
    assert ClaimantOk(k, s, s.claimants[t]);
    SameGeneration(s.slot.gen, s.claimants[t].gen);
  }

  lemma ClaimWinsKeeps(k: Setup, s: State, s': State, t: nat)
    requires Good(k, s) && ClaimWins(k, s, s', t)
    ensures Good(k, s')
  {
    ClaimIsNext(k, s, s', t);
    ClaimAgainKeeps(k, s, s');
    forall u | u in s'.claimants ensures ClaimantOk(k, s', s'.claimants[u]) { assert ClaimantOk(k, s, s.claimants[u]); }
  }

  lemma ClaimStepKeeps(k: Setup, s: State, s': State, t: nat)
    requires Good(k, s) && ClaimStep(k, s, s', t)
    ensures Good(k, s')
  {
    if ClaimWins(k, s, s', t) {
      ClaimWinsKeeps(k, s, s', t);
    } else if TestFree(k, s, s', t) {
      TestKeeps(k, s, s', t);
    } else {
      ClaimantOnly(k, s, s');
      forall u | u in s'.claimants ensures ClaimantOk(k, s', s'.claimants[u]) {
        assert u in s.claimants ==> ClaimantOk(k, s, s.claimants[u]);
      }
    }
  }

  lemma StepKeeps(k: Setup, s: State, s': State)
    requires Good(k, s) && Step(k, s, s')
    ensures Good(k, s')
  {
    if t :| ClaimStep(k, s, s', t) {
      ClaimStepKeeps(k, s, s', t);
    } else if p :| WriterStep(k, s, s', p) {
      WriterStepKeeps(k, s, s', p);
      WriterMoves(k, s, s', p);
      ClaimantsKeep(k, s, s');
    } else if b :| JoinerStep(k, s, s', b) {
      JoinerStepKeeps(k, s, s', b);
      JoinerMoves(k, s, s', b);
      ClaimantsKeep(k, s, s');
    } else {
      var b :| ReaderStep(k, s, s', b);
      ReaderStepKeeps(k, s, s', b);
      ReaderMoves(k, s, s', b);
      ClaimantsKeep(k, s, s');
    }
  }

  lemma {:induction false} RunInv(k: Setup, tr: seq<State>, j: nat)
    requires Run(k, tr) && j < |tr|
    ensures Good(k, tr[j])
  {
    if j == 0 {
      InitInv(k, tr[0]);
    } else {
      RunInv(k, tr, j - 1);
      assert StepAt(k, tr, j);
      StepKeeps(k, tr[j - 1], tr[j]);
    }
  }

  /** The writer of `pos0` has returned from `commit_multi`. */
  predicate CommitDone(k: Setup, s: State) {
    0 in s.writers && s.writers[0] == WNext({})
  }

  /** Crossing commit and connect: once the writer has returned from its commit and the
      new owner of a bit from its connect, the previous owner's mark is gone. */
  lemma LeftoverIsGone(k: Setup, tr: seq<State>, j: nat, b: Bit)
    requires Run(k, tr) && j < |tr| && b in k.hand && b in tr[j].joiners
    requires CommitDone(k, tr[j]) && tr[j].joiners[b].JDone?
    ensures tr[j].slot.lap == 0 ==> b !in tr[j].slot.marks
  {
    RunInv(k, tr, j);
    assert JoinerOk(k, tr[j], b);
  }

  /** Nobody is between dropping a mark and releasing the slot, in either order. */
  ghost predicate Settled(k: Setup, s: State) {
    !Releasing(k, s) && forall b | b in s.readers :: s.readers[b].pc.Poll?
  }

  /** A committed slot is released exactly when no mark remains on it. */
  lemma ReleasedIffUnmarked(k: Setup, tr: seq<State>, j: nat)
    requires Run(k, tr) && j < |tr| && Settled(k, tr[j]) && !tr[j].slot.open
    ensures tr[j].slot.marks == {} <==> tr[j].slot.flag == Released(k.Pos(tr[j].slot.lap))
  {
    RunInv(k, tr, j);
  }

  /** Reader `b` clears its own mark for the position it has read. */
  ghost predicate OwnPop(s: State, s': State, b: Bit) {
    ClearWins(s, s', b) && s.readers[b].next == s.slot.lap
  }

  lemma WriterDropsMark(k: Setup, s: State, s': State, p: nat, b: Bit)
    requires Inv(k, s) && WriterStep(k, s, s', p) && b in s.slot.marks && b !in s'.slot.marks
    ensures b in k.hand && s.slot.lap == 0
  {
    var d :| WriterDrops(k, s, s', p, d);
    WriterEffect(k, s, s', p, d);
  }

  lemma JoinerDropsMark(k: Setup, s: State, s': State, c: Bit, b: Bit)
    requires Inv(k, s) && JoinerStep(k, s, s', c) && b in s.slot.marks && b !in s'.slot.marks
    ensures b in k.hand && s.slot.lap == 0
  {
    var d :| JoinerDrops(s, s', c, d);
    JoinerEffect(k, s, s', c, d);
  }

  lemma ReaderDropsMark(k: Setup, s: State, s': State, c: Bit, b: Bit)
    requires Inv(k, s) && ReaderStep(k, s, s', c) && b in s.slot.marks && b !in s'.slot.marks
    ensures OwnPop(s, s', b)
  {
    assert ClearWins(s, s', c);
    ClearFacts(k, s, s', c);
  }

  lemma ClaimDropsNone(k: Setup, s: State, s': State, t: nat)
    requires ClaimStep(k, s, s', t)
    ensures s.slot.marks <= s'.slot.marks
  {
  }

  /** Why a mark may go: its own receiver has read the element, or it is a leftover of a
      handed-over bit on `pos0`. */
  ghost predicate Justified(k: Setup, s: State, s': State, b: Bit) {
    OwnPop(s, s', b) || (b in k.hand && s.slot.lap == 0)
  }

  lemma StepDrops(k: Setup, s: State, s': State, b: Bit)
    requires Inv(k, s) && Step(k, s, s') && b in s.slot.marks && b !in s'.slot.marks
    ensures Justified(k, s, s', b)
  {
    if t :| ClaimStep(k, s, s', t) { ClaimDropsNone(k, s, s', t); }
    else if p :| WriterStep(k, s, s', p) { WriterDropsMark(k, s, s', p, b); }
    else if c :| JoinerStep(k, s, s', c) { JoinerDropsMark(k, s, s', c, b); }
    else { var c :| ReaderStep(k, s, s', c); ReaderDropsMark(k, s, s', c, b); }
  }

  lemma StepAtDrops(k: Setup, tr: seq<State>, j: nat, b: Bit)
    requires 0 < j < |tr| && Inv(k, tr[j - 1]) && StepAt(k, tr, j)
    requires b in tr[j - 1].slot.marks && b !in tr[j].slot.marks
    ensures Justified(k, tr[j - 1], tr[j], b)
  {
    StepDrops(k, tr[j - 1], tr[j], b);
  }

  /** No live mark is ever dropped: in every step of every run, a mark disappears only for
      one of those reasons. */
  lemma OnlyLeftoversDropped(k: Setup, tr: seq<State>, j: nat, b: Bit)
    requires Run(k, tr) && 0 < j < |tr|
    requires b in tr[j - 1].slot.marks && b !in tr[j].slot.marks
    ensures Justified(k, tr[j - 1], tr[j], b)
  {
    RunInv(k, tr, j - 1);
    StepAtDrops(k, tr, j, b);
  }
}
