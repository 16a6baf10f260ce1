/** What happens to the order of the channel while receivers come and go: exactly when a
    position is claimed twice, through which guard the second claimant gets in, and two runs
    in which it does. */
module MembershipGap {
  import opened RingWords
  import opened ChannelRing
  import opened ChannelMembers
  import ChannelOrder
  import H = HandoverSlot

  /** Writer `w` wins position `c` in step `k`. */
  ghost predicate ClaimsAt(tr: seq<World>, k: int, w: Tid, c: nat)
    requires 0 < k < |tr|
  {
    ChannelOrder.Claims(tr[k - 1].ring, tr[k].ring, w, c)
  }

  /** A claim of a slot that already holds the claimed position or a later one. */
  ghost predicate OverclaimStep(s: State, s': State) {
    exists w: Tid, c: nat :: ChannelOrder.Claims(s, s', w, c) && At(s, c).pos >= c
  }

  ghost predicate Overclaims(tr: seq<World>, k: int)
    requires 0 < k < |tr|
  {
    OverclaimStep(tr[k - 1].ring, tr[k].ring)
  }

  /** No step up to `k` does. */
  ghost predicate CleanTo(tr: seq<World>, k: int) {
    forall j | 0 < j <= k && j < |tr| :: !Overclaims(tr, j)
  }

  /** No position is claimed twice. */
  ghost predicate Once(tr: seq<World>) {
    forall j, k, w, v, c | 0 < j < k < |tr| && ClaimsAt(tr, j, w, c) :: !ClaimsAt(tr, k, v, c)
  }

  /** Every claim takes the position the log has reached. */
  ghost predicate InOrder(tr: seq<World>) {
    forall k, w, c | 0 < k < |tr| && ClaimsAt(tr, k, w, c) :: c == |tr[k - 1].ring.log|
  }

  // The order of claims up to the first overclaim --------------------------------------------

  /** A claimant that has not stored `ct_` yet. */
  predicate Pending(x: Writer) {
    x.WClaimed? || x.WOwner?
  }

  ghost predicate SlotIn(s: State, i: int)
    requires 0 <= i < RING
  {
    Index(s.slots[i].pos) == i && |s.log| - RING <= s.slots[i].pos < |s.log| && s.slots[i].rc.epoch == s.epoch
  }

  ghost predicate WriterIn(s: State, x: Writer) {
    && ((x.WLoop? || x.WCc? || x.WCt? || x.WRc? || x.WHeld? || x.WFree? || x.WClaimed?) ==> x.ep == s.epoch)
    && ((x.WCt? || x.WRc? || x.WFree?) ==> x.c <= s.ct)
    && ((x.WRc? || x.WFree?) ==> x.rc.epoch == s.epoch)
    && (Pending(x) ==> x.c == s.ct && |s.log| == s.ct + 1)
  }

  ghost predicate AtMostOnePending(s: State) {
    forall w, v | w in s.writers && v in s.writers && Pending(s.writers[w]) && Pending(s.writers[v]) :: w == v
  }

  ghost predicate Ordered(s: State) {
    && s.ct <= |s.log| <= s.ct + 1 && |s.log| <= POSITIONS
    && (forall i | 0 <= i < RING :: SlotIn(s, i))
    && (forall w | w in s.writers :: WriterIn(s, s.writers[w]))
    && AtMostOnePending(s)
  }

  /** What `Ordered` depends on is as before, up to the pc of `w`. */
  ghost predicate Moved(s: State, s': State, w: Tid) {
    && s'.ct == s.ct && s'.log == s.log && s'.epoch == s.epoch
    && (forall i | 0 <= i < RING ::
          s'.slots[i].pos == s.slots[i].pos && s'.slots[i].rc.epoch == s.slots[i].rc.epoch)
    && (forall v | v in s'.writers && v != w :: v in s.writers && s'.writers[v] == s.writers[v])
  }

  lemma MovedKeeps(s: State, s': State, w: Tid)
    requires Ordered(s) && Moved(s, s', w)
    requires w in s'.writers ==> WriterIn(s', s'.writers[w])
    requires w in s'.writers && Pending(s'.writers[w]) ==> w in s.writers && Pending(s.writers[w])
    ensures Ordered(s')
  {
    forall i | 0 <= i < RING ensures SlotIn(s', i) { assert SlotIn(s, i); }
  }

  /** A claim that is no overclaim takes the next position, and nothing else is pending. */
  lemma ClaimIsNext(s: State, s': State, w: Tid)
    requires Ordered(s) && w in s.writers && ClaimWins(s, s', w, s.writers[w])
    requires At(s, s.writers[w].c).pos < s.writers[w].c
    ensures s.writers[w].c == s.ct == |s.log|
    ensures Ordered(s')
  {
    var c := s.writers[w].c;
    assert SlotIn(s, Index(c));
    ChannelOrder.WriterStoresFrame(s, s', w, s.writers[w]);
    forall i | 0 <= i < RING ensures SlotIn(s', i) { assert SlotIn(s, i); }
  }

  lemma AdvanceKeeps(s: State, s': State, w: Tid)
    requires Ordered(s) && w in s.writers && AdvanceCt(s, s', w, s.writers[w])
    ensures Ordered(s')
  {
    assert WriterIn(s, s.writers[w]);
    forall i | 0 <= i < RING ensures SlotIn(s', i) { assert SlotIn(s, i); }
    forall v | v in s'.writers ensures WriterIn(s', s'.writers[v]) { assert v != w ==> WriterIn(s, s.writers[v]); }
  }

  lemma LoadsKeep(s: State, s': State, w: Tid)
    requires Ordered(s) && w in s.writers && WriterLoads(s, s', w, s.writers[w])
    ensures Ordered(s')
  {
    var x := s.writers[w];
    ChannelOrder.WriterLoadsFrame(s, s', w, x);
    assert WriterIn(s, x);
    if x.WCt? { assert SlotIn(s, Index(x.c)); }
    MovedKeeps(s, s', w);
  }

  lemma WritesKeep(s: State, s': State, w: Tid)
    requires Ordered(s) && w in s.writers
    requires var x := s.writers[w]; WriteHeader(s, s', w, x) || WritePayload(s, s', w, x) || Commit(s, s', w, x)
    ensures Ordered(s')
  {
    MovedKeeps(s, s', w);
  }

  lemma ReaderKeeps(s: State, s': State, r: Bit, x: Reader)
    requires Ordered(s) && ReaderStep(s, s', r, x)
    ensures Ordered(s')
  {
    ChannelOrder.ReaderFrame(s, s', r, x);
    if ReaderLoads(s, s', r, x) { ChannelOrder.ReaderLoadsFrame(s, s', r, x); }
    forall i | 0 <= i < RING ensures SlotIn(s', i) { assert SlotIn(s, i); }
  }

  lemma DropKeeps(s: State, i: nat, v: H.Slot)
    requires Ordered(s) && i < RING
    ensures Ordered(s.(slots := s.slots[i := Put(s.slots[i], v)]))
  {
    var s' := s.(slots := s.slots[i := Put(s.slots[i], v)]);
    forall j | 0 <= j < RING ensures SlotIn(s', j) { assert SlotIn(s, j); }
  }

  /** The members of a world other than its ring play no part; neither do the receivers. */
  lemma SameOrdered(s: State, s': State)
    requires Ordered(s) && s' == s.(cc := s'.cc, since := s'.since, readers := s'.readers, start := s'.start)
    ensures Ordered(s')
  {
    forall i | 0 <= i < RING ensures SlotIn(s', i) { assert SlotIn(s, i); }
  }

  lemma TailKeeps(u: World, u': World, w: Tid)
    requires Ordered(u.ring) && TailStep(u, u', w)
    ensures Ordered(u'.ring)
  {
    if v, d :| TailDrops(u, u', w, v, d) {
      DropKeeps(u.ring, Index(u.ring.writers[w].c), v);
    } else if Finish(u, u', w) {
      MovedKeeps(u.ring, u'.ring, w);
    }
  }

  lemma ConnKeeps(u: World, u': World, n: nat)
    requires Ordered(u.ring) && ConnStep(u, u', n)
    ensures Ordered(u'.ring)
  {
    if v, d :| ConnDrops(u, u', n, v, d) {
      DropKeeps(u.ring, u.conns[n].i, v);
    } else {
      ConnFrame(u, u', n);
      SameOrdered(u.ring, u'.ring);
    }
  }

  lemma ConnFrame(u: World, u': World, n: nat)
    requires ConnStep(u, u', n) && !exists v, d :: ConnDrops(u, u', n, v, d)
    ensures var s, s' := u.ring, u'.ring;
            s' == s.(cc := s'.cc, since := s'.since, readers := s'.readers, start := s'.start)
  {
  }

  lemma NextKeeps(u: World, u': World)
    requires Ordered(u.ring) && Next(u, u') && !OverclaimStep(u.ring, u'.ring)
    ensures Ordered(u'.ring)
  {
    var s, s' := u.ring, u'.ring;
    if w :| Writes(u, u', w) {
      var x := s.writers[w];
      if ClaimWins(s, s', w, x) {
        assert ChannelOrder.Claims(s, s', w, x.c);
        ClaimIsNext(s, s', w);
      }
      else if AdvanceCt(s, s', w, x) { AdvanceKeeps(s, s', w); }
      else if WriterLoads(s, s', w, x) { LoadsKeep(s, s', w); }
      else { WritesKeep(s, s', w); }
    } else if r :| Reads(u, u', r) {
      ReaderKeeps(s, s', r, s.readers[r]);
    } else if w :| TailStep(u, u', w) {
      TailKeeps(u, u', w);
    } else if n :| ConnStep(u, u', n) {
      ConnKeeps(u, u', n);
    } else {
      var b :| Leave(u, u', b);
      SameOrdered(s, s');
    }
  }

  lemma {:induction false} CleanInv(tr: seq<World>, k: nat)
    requires History(tr) && k < |tr| && CleanTo(tr, k)
    ensures Ordered(tr[k].ring)
  {
    if k == 0 {
      forall i | 0 <= i < RING ensures SlotIn(tr[0].ring, i) {}
    } else {
      CleanInv(tr, k - 1);
      assert NextAt(tr, k) && !Overclaims(tr, k);
      NextKeeps(tr[k - 1], tr[k]);
    }
  }

  // Exactly when ------------------------------------------------------------------------------

  /** No claim, no store of `ct_`, and no writer moves but to finish its commit. */
  ghost predicate NotWriting(s: State, s': State) {
    && s'.log == s.log && s'.ct == s.ct
    && forall v | v in s'.writers :: v in s.writers && (s'.writers[v] == s.writers[v] || s'.writers[v] == WIdle)
  }

  lemma TailFrame(u: World, u': World, w: Tid)
    requires TailStep(u, u', w)
    ensures NotWriting(u.ring, u'.ring)
  {
  }

  lemma OthersFrame(u: World, u': World)
    requires Next(u, u') && !exists w :: Writes(u, u', w)
    ensures NotWriting(u.ring, u'.ring)
  {
    if r :| Reads(u, u', r) {
      ChannelOrder.ReaderFrame(u.ring, u'.ring, r, u.ring.readers[r]);
    } else if w :| TailStep(u, u', w) {
      TailFrame(u, u', w);
    } else if n :| ConnStep(u, u', n) {
      if v, d :| ConnDrops(u, u', n, v, d) {} else { ConnFrame(u, u', n); }
    }
  }

  /** The log changes in claims only. */
  lemma LogStep(u: World, u': World)
    requires Next(u, u')
    ensures u'.ring.log == u.ring.log || exists w: Tid, c: nat :: ChannelOrder.Claims(u.ring, u'.ring, w, c)
  {
    if w :| Writes(u, u', w) {
      var x := u.ring.writers[w];
      if WriterLoads(u.ring, u'.ring, w, x) { ChannelOrder.WriterLoadsFrame(u.ring, u'.ring, w, x); }
      else if ClaimWins(u.ring, u'.ring, w, x) { assert ChannelOrder.Claims(u.ring, u'.ring, w, x.c); }
    } else {
      OthersFrame(u, u');
    }
  }

  lemma {:induction false} LogGrows(tr: seq<World>, j: nat, k: nat)
    requires History(tr) && j <= k < |tr|
    ensures tr[j].ring.log <= tr[k].ring.log
    decreases k
  {
    if j < k {
      LogGrows(tr, j, k - 1);
      assert NextAt(tr, k);
      LogStep(tr[k - 1], tr[k]);
    }
  }

  /** A claim with no overclaim before or at it takes position `|log|`, which is `ct_`. */
  lemma ClaimInRun(tr: seq<World>, k: nat, w: Tid, c: nat)
    requires History(tr) && 0 < k < |tr| && CleanTo(tr, k) && ClaimsAt(tr, k, w, c)
    ensures c == |tr[k - 1].ring.log| == tr[k - 1].ring.ct && |tr[k].ring.log| == c + 1
  {
    CleanInv(tr, k - 1);
    assert !Overclaims(tr, k);
    ClaimIsNext(tr[k - 1].ring, tr[k].ring, w);
  }

  lemma CleanIsInOrder(tr: seq<World>)
    requires History(tr) && CleanTo(tr, |tr| - 1)
    ensures InOrder(tr)
  {
    forall k, w, c | 0 < k < |tr| && ClaimsAt(tr, k, w, c) ensures c == |tr[k - 1].ring.log| {
      ClaimInRun(tr, k, w, c);
    }
  }

  /** As long as there is no overclaim, every position below `|log|` has been claimed. */
  lemma {:induction false} WasClaimed(tr: seq<World>, k: nat, c: nat) returns (j: nat, v: Tid)
    requires History(tr) && k < |tr| && CleanTo(tr, k) && c < |tr[k].ring.log|
    ensures 0 < j <= k && ClaimsAt(tr, j, v, c)
  {
    assert NextAt(tr, k);
    LogStep(tr[k - 1], tr[k]);
    if c < |tr[k - 1].ring.log| {
      j, v := WasClaimed(tr, k - 1, c);
    } else {
      var w: Tid, d: nat :| ChannelOrder.Claims(tr[k - 1].ring, tr[k].ring, w, d);
      ClaimInRun(tr, k, w, d);
      j, v := k, w;
    }
  }

  lemma {:induction false} FirstOverclaim(tr: seq<World>, k: nat) returns (j: nat)
    requires 0 < k < |tr| && Overclaims(tr, k)
    ensures 0 < j <= k && Overclaims(tr, j) && CleanTo(tr, j - 1)
  {
    if i :| 0 < i < k && Overclaims(tr, i) {
      j := FirstOverclaim(tr, i);
    } else {
      j := k;
    }
  }

  /** The first overclaim of a run is of a position that was claimed before. */
  lemma OverclaimRepeats(tr: seq<World>, k: nat, w: Tid, c: nat) returns (j: nat, v: Tid)
    requires History(tr) && 0 < k < |tr| && CleanTo(tr, k - 1)
    requires ClaimsAt(tr, k, w, c) && At(tr[k - 1].ring, c).pos >= c
    ensures 0 < j < k && ClaimsAt(tr, j, v, c)
  {
    CleanInv(tr, k - 1);
    assert SlotIn(tr[k - 1].ring, Index(c));
    j, v := WasClaimed(tr, k - 1, c);
  }

  /** Exactly when every position of a run is claimed once, in order, whoever connects and
      leaves and whenever: no claim takes a slot that already holds its position or a later
      one. */
  lemma OnceExactly(tr: seq<World>)
    requires History(tr)
    ensures Once(tr) <==> CleanTo(tr, |tr| - 1)
    ensures Once(tr) <==> InOrder(tr)
  {
    if Once(tr) {
      if k :| 0 < k < |tr| && Overclaims(tr, k) {
        var i := FirstOverclaim(tr, k);
        var w: Tid, c: nat :| ChannelOrder.Claims(tr[i - 1].ring, tr[i].ring, w, c) && At(tr[i - 1].ring, c).pos >= c;
        assert ClaimsAt(tr, i, w, c);
        var j, v := OverclaimRepeats(tr, i, w, c);
        assert false;
      }
    }
    if CleanTo(tr, |tr| - 1) { CleanIsInOrder(tr); }
    if InOrder(tr) {
      forall j, k, w, v, c | 0 < j < k < |tr| && ClaimsAt(tr, j, w, c) ensures !ClaimsAt(tr, k, v, c) {
        LogGrows(tr, j, k - 1);
      }
    }
  }

  // The guard that lets the second claimant in ------------------------------------------------

  /** Writer `w` passes the tests in step `j`. */
  ghost predicate PassesAt(tr: seq<World>, j: int, w: Tid, x: Writer)
    requires 0 < j < |tr|
  {
    && w in tr[j - 1].ring.writers && w in tr[j].ring.writers && x.WFree?
    && tr[j - 1].ring.writers[w] == WRc(x.msg, x.ep, x.cc, x.c, x.rc)
    && tr[j].ring.writers[w] == x
    && Decide(tr[j - 1].ring, tr[j].ring, w, tr[j - 1].ring.writers[w])
  }

  /** Only the step of `w` itself changes its pc. */
  lemma WriterMoves(u: World, u': World, w: Tid)
    requires Next(u, u') && w in u'.ring.writers && u'.ring.writers[w].WFree?
    ensures w in u.ring.writers
    ensures u.ring.writers[w] == u'.ring.writers[w] || Decide(u.ring, u'.ring, w, u.ring.writers[w])
  {
    if v :| Writes(u, u', v) {
      var x := u.ring.writers[v];
      if WriterLoads(u.ring, u'.ring, v, x) { ChannelOrder.WriterLoadsFrame(u.ring, u'.ring, v, x); }
      else { ChannelOrder.WriterStoresFrame(u.ring, u'.ring, v, x); }
    } else {
      OthersFrame(u, u');
    }
  }

  lemma {:induction false} PassedBefore(tr: seq<World>, k: nat, w: Tid) returns (j: nat)
    requires History(tr) && k < |tr| && w in tr[k].ring.writers && tr[k].ring.writers[w].WFree?
    ensures 0 < j <= k && PassesAt(tr, j, w, tr[k].ring.writers[w])
  {
    assert NextAt(tr, k);
    WriterMoves(tr[k - 1], tr[k], w);
    if tr[k - 1].ring.writers[w] == tr[k].ring.writers[w] {
      j := PassedBefore(tr, k - 1, w);
    } else {
      j := k;
    }
  }

  /** How the claimant of a position that is already claimed got in: its index is stale, or
      the first claimant has not advanced `ct_`; and the marks it loaded are all of receivers
      that are not in the mask it loaded, or there were none and the flag had been freed. */
  lemma OverclaimGuard(tr: seq<World>, k: nat, w: Tid, c: nat) returns (j: nat)
    requires History(tr) && 0 < k < |tr| && CleanTo(tr, k - 1)
    requires ClaimsAt(tr, k, w, c) && At(tr[k - 1].ring, c).pos >= c
    ensures var s := tr[k - 1].ring; c < s.ct || (c == s.ct && |s.log| == c + 1)
    ensures 0 < j < k && PassesAt(tr, j, w, tr[k - 1].ring.writers[w])
    ensures var x := tr[k - 1].ring.writers[w];
            || (x.rc.marks != {} && x.cc * x.rc.marks == {})
            || (x.rc.marks == {} && At(tr[j - 1].ring, c).flag in {c, 0})
  {
    CleanInv(tr, k - 1);
    assert SlotIn(tr[k - 1].ring, Index(c)) && WriterIn(tr[k - 1].ring, tr[k - 1].ring.writers[w]);
    j := PassedBefore(tr, k - 1, w);
  }
}
