/** Receivers may come and go without harm to the order of the channel as long as they do so
    while no push is between its load of the mask and its store of `ct_`, and leave with
    nothing unread: then every position is claimed once, in order, and each receiver pops the
    log from where it joined, without gap. */
module MembersOrder {
  import opened RingWords
  import opened ChannelRing
  import opened ChannelMembers
  import opened ChannelOrder
  import opened ChannelProgress
  import MembershipGap
  import H = HandoverSlot

  // Calm runs ---------------------------------------------------------------------------------

  /** Between its load of the mask and its store of `ct_`. */
  predicate InWindow(x: Writer) {
    x.WCc? || x.WCt? || x.WRc? || x.WFree? || x.WClaimed? || x.WOwner?
  }

  ghost predicate Quiet(s: State) {
    forall w | w in s.writers :: !InWindow(s.writers[w])
  }

  /** Receiver `b` has read all that is marked for it. */
  ghost predicate Unmarked(s: State, b: Bit) {
    forall i | 0 <= i < RING :: b !in s.slots[i].rc.marks
  }

  /** A receiver that leaves in this step leaves quietly. */
  ghost predicate CalmStep(u: World, u': World) {
    forall b | Leave(u, u', b) :: Quiet(u.ring) && Unmarked(u.ring, b)
  }

  ghost predicate CalmAt(tr: seq<World>, k: int)
    requires 0 <= k < |tr|
  {
    && (tr[k].conns != map[] ==> Quiet(tr[k].ring))
    && (k > 0 ==> CalmStep(tr[k - 1], tr[k]))
  }

  /** Membership changes only while no push is in its window. */
  ghost predicate Calm(tr: seq<World>) {
    forall k | 0 <= k < |tr| :: CalmAt(tr, k)
  }

  // The invariant -------------------------------------------------------------------------------

  /** A connecting receiver finds the cursor where it read it, and no slot carries its bit. */
  ghost predicate ConnOk(s: State, x: Conn)
    requires Shape(s)
  {
    && x.since == s.ct
    && (!x.CCursor? ==> x.b in s.cc && s.readers[x.b] == Reader(s.ct, Poll, []) && s.start[x.b] == s.ct)
    && (x.CDrop? ==> x.d.DRc? || (x.d.DFlag? && x.b !in x.d.rc.marks))
    && (x.CWalk? ==> x.cur == s.ct)
  }

  ghost predicate OwnBits(u: World) {
    forall n, m | n in u.conns && m in u.conns && !u.conns[n].CCursor? && !u.conns[m].CCursor?
                  && u.conns[n].b == u.conns[m].b :: n == m
  }

  /** Bits whose receivers started after `c`. */
  predicate Stale(s: State, c: nat, bits: set<Bit>) {
    forall b | b in bits :: SinceOf(s, b) > c
  }

  /** A commit has its position behind it, and drops only marks that are not there. */
  ghost predicate TailOk(s: State, c: nat, x: H.Writer) {
    match x
    case WScan(_, stale) => Stale(s, c, stale)
    case WNext(rest) => Stale(s, c, rest)
    case WDrop(b, rest, d) =>
      && Stale(s, c, rest + {b})
      && (d.DRc? || (d.DFlag? && (b in d.rc.marks ==> At(s, c).pos > c)))
    case _ => false
  }

  ghost predicate CommittedOk(s: State, w: Tid)
    requires w in s.writers
  {
    s.writers[w].WMarks? ==> s.writers[w].c < |s.log| && At(s, s.writers[w].c).pos >= s.writers[w].c
  }

  ghost predicate CommitsOk(u: World) {
    && (forall w | w in u.ring.writers :: CommittedOk(u.ring, w))
    && (forall w | w in u.tails :: Committing(u, w) && TailOk(u.ring, u.ring.writers[w].c, u.tails[w]))
  }

  ghost predicate Good(u: World) {
    && Inv(u.ring) && Accounted(u.ring)
    && (forall b | b in u.ring.since :: u.ring.since[b] <= u.ring.ct)
    && CommitsOk(u)
    && (forall n | n in u.conns :: ConnOk(u.ring, u.conns[n]))
    && OwnBits(u)
  }

  /** With no push in its window, `ct_` accounts for every claim. */
  lemma QuietLog(s: State)
    requires Accounted(s) && Quiet(s)
    ensures |s.log| == s.ct
  {
  }

  // Membership changes keep the ring's invariant ------------------------------------------------

  /** Receiver `b` may join now. */
  ghost predicate MayJoin(s: State, b: Bit) {
    Inv(s) && Quiet(s) && |s.log| == s.ct && b !in s.cc && SinceOf(s, b) <= s.ct
  }

  lemma JoinKeepsSlots(s: State, s': State, b: Bit)
    requires MayJoin(s, b) && s' == Joined(s, b)
    ensures Shape(s') && forall i | 0 <= i < RING :: SlotOk(s', i)
  {
    forall i | 0 <= i < RING ensures SlotOk(s', i) { assert SlotOk(s, i); }
  }

  lemma JoinKeepsWriters(s: State, s': State, b: Bit)
    requires MayJoin(s, b) && s' == Joined(s, b)
    ensures Shape(s') && forall w | w in s'.writers :: WriterOk(s', w)
  {
    forall w | w in s'.writers ensures WriterOk(s', w) { assert WriterOk(s, w); }
  }

  lemma JoinKeepsReaders(s: State, s': State, b: Bit)
    requires MayJoin(s, b) && s' == Joined(s, b)
    ensures Shape(s') && forall r | r in s'.cc :: ReaderOk(s', r)
  {
    forall r | r in s'.cc ensures ReaderOk(s', r) { if r != b { assert ReaderOk(s, r); } }
  }

  lemma JoinKeeps(s: State, s': State, b: Bit)
    requires MayJoin(s, b) && s' == Joined(s, b)
    ensures Inv(s')
  {
    JoinKeepsSlots(s, s', b);
    JoinKeepsWriters(s, s', b);
    JoinKeepsReaders(s, s', b);
  }

  lemma LeaveKeeps(s: State, b: Bit)
    requires Inv(s) && Quiet(s) && Unmarked(s, b)
    ensures Inv(Left(s, b))
  {
    var s' := Left(s, b);
    forall i | 0 <= i < RING ensures SlotOk(s', i) { assert SlotOk(s, i); }
    forall w | w in s'.writers ensures WriterOk(s', w) { assert WriterOk(s, w); }
    forall r | r in s'.cc ensures ReaderOk(s', r) { assert ReaderOk(s, r); }
  }

  /** Storing a `since` no later than the start of the bit's receiver. */
  lemma SinceKeeps(s: State, b: Bit, since: nat)
    requires Inv(s) && (b in s.cc ==> since <= s.start[b])
    ensures Inv(s.(since := s.since[b := since]))
  {
    var s' := s.(since := s.since[b := since]);
    forall i | 0 <= i < RING ensures SlotOk(s', i) { assert SlotOk(s, i); }
    forall w | w in s'.writers ensures WriterOk(s', w) { assert WriterOk(s, w); }
    forall r | r in s'.cc ensures ReaderOk(s', r) { assert ReaderOk(s, r); }
  }

  // Steps of the ring -----------------------------------------------------------------------------

  /** Positions and `since` entries only grow, and commits in progress stay where they are. */
  ghost predicate Grown(s: State, s': State) {
    && s.ct <= s'.ct && |s.log| <= |s'.log|
    && (forall b :: SinceOf(s, b) <= SinceOf(s', b))
    && (forall i | 0 <= i < RING :: s.slots[i].pos <= s'.slots[i].pos)
    && (forall w | w in s.writers && s.writers[w].WMarks? :: w in s'.writers && s'.writers[w] == s.writers[w])
  }

  ghost predicate NewlyCommitted(s: State, s': State, w: Tid) {
    w in s'.writers && s'.writers[w].WMarks? && !(w in s.writers && s.writers[w].WMarks?)
  }

  lemma CommitsGrown(u: World, u': World)
    requires CommitsOk(u) && Grown(u.ring, u'.ring) && u'.tails == u.tails
    requires forall w | NewlyCommitted(u.ring, u'.ring, w) :: CommittedOk(u'.ring, w)
    ensures CommitsOk(u')
  {
    var s, s' := u.ring, u'.ring;
    forall w | w in s'.writers ensures CommittedOk(s', w) {
      if !NewlyCommitted(s, s', w) && s'.writers[w].WMarks? { assert CommittedOk(s, w); }
    }
    forall w | w in u'.tails ensures Committing(u', w) && TailOk(s', s'.writers[w].c, u'.tails[w]) {
      TailGrown(s, s', s.writers[w].c, u.tails[w]);
    }
  }

  lemma WriterGrows(s: State, s': State, w: Tid)
    requires Inv(s) && w in s.writers && WriterStep(s, s', w, s.writers[w])
    requires !s.writers[w].WMarks?
    ensures Grown(s, s') && SameReceivers(s, s') && s'.readers == s.readers
    ensures w in s'.writers && s'.writers == s.writers[w := s'.writers[w]]
    ensures s'.ct == s.ct || s.writers[w].WOwner?
  {
    var x := s.writers[w];
    WriterLog(s, s', w, x);
    if WriterLoads(s, s', w, x) { WriterLoadsFrame(s, s', w, x); } else { WriterStoresFrame(s, s', w, x); }
    if AdvanceCt(s, s', w, x) { AdvanceKeeps(s, s', w); }
    if ClaimWins(s, s', w, x) { ClaimIsNext(s, s', w); }
  }

  lemma ReaderGrows(s: State, s': State, r: Bit, x: Reader)
    requires ReaderStep(s, s', r, x)
    ensures Grown(s, s') && SameReceivers(s, s') && s'.ct == s.ct && s'.log == s.log && s'.writers == s.writers
    ensures r in s'.readers && s'.readers == s.readers[r := s'.readers[r]]
  {
    ReaderFrame(s, s', r, x);
    if ReaderLoads(s, s', r, x) { ReaderLoadsFrame(s, s', r, x); }
  }

  lemma TailGrown(s: State, s': State, c: nat, x: H.Writer)
    requires Grown(s, s') && TailOk(s, c, x)
    ensures TailOk(s', c, x)
  {
  }

  lemma CommittedKept(s: State, s': State, w: Tid)
    requires Inv(s) && w in s.writers && WriterStep(s, s', w, s.writers[w]) && !s.writers[w].WMarks?
    requires w in s'.writers && s'.writers[w].WMarks?
    ensures CommittedOk(s', w)
  {
    assert WriterOk(s, w);
    assert Commit(s, s', w, s.writers[w]);
  }

  lemma WritesGood(u: World, u': World, w: Tid)
    requires Good(u) && Writes(u, u', w) && (u.conns != map[] ==> Quiet(u.ring))
    ensures Good(u')
  {
    var s, s' := u.ring, u'.ring;
    StepKeeps(s, s');
    PendingStep(s, s');
    WriterGrows(s, s', w);
    if s'.writers[w].WMarks? { CommittedKept(s, s', w); }
    CommitsGrown(u, u');
    forall n | n in u'.conns ensures ConnOk(s', u'.conns[n]) { assert ConnOk(s, u.conns[n]); }
  }

  lemma ReadsGood(u: World, u': World, r: Bit)
    requires Good(u) && Reads(u, u', r)
    ensures Good(u')
  {
    var s, s' := u.ring, u'.ring;
    StepKeeps(s, s');
    PendingStep(s, s');
    ReaderGrows(s, s', r, s.readers[r]);
    CommitsGrown(u, u');
    forall n | n in u'.conns ensures ConnOk(s', u'.conns[n]) { assert ConnOk(s, u.conns[n]); }
  }

  // The rest of commit_multi ------------------------------------------------------------------------

  /** A slot still at position `c` carries no stale mark. */
  lemma NoStaleMark(s: State, c: nat, b: Bit)
    requires Inv(s) && At(s, c).pos == c && SinceOf(s, b) > c
    ensures b !in At(s, c).rc.marks
  {
    assert SlotOk(s, Index(c));
    assert b in s.cc ==> ReaderOk(s, b);
  }

  /** A slot past position `c` does not show `c` committed. */
  lemma PastFlag(s: State, c: nat)
    requires Inv(s) && c < At(s, c).pos
    ensures c < U32 && At(s, c).flag != Committed(c)
  {
    assert SlotOk(s, Index(c));
  }

  /** `release_mark` in `commit_multi` never gets to its CAS. */
  lemma TailDropsGood(u: World, u': World, w: Tid, v: H.Slot, d: H.Drop)
    requires Good(u) && TailDrops(u, u', w, v, d)
    ensures u'.ring == u.ring && u'.tails == u.tails[w := u'.tails[w]]
    ensures TailOk(u.ring, u.ring.writers[w].c, u'.tails[w])
  {
    var s, c, x := u.ring, u.ring.writers[w].c, u.tails[w];
    assert CommittedOk(s, w) && TailOk(s, c, x);
    assert x.b in x.rest + {x.b};
    if x.d.DRc? {
      if At(s, c).pos == c { NoStaleMark(s, c, x.b); }
    } else if x.b in x.d.rc.marks {
      PastFlag(s, c);
    }
    assert SetSlot(s, c, At(s, c)) == s;
  }

  lemma LookUpGood(u: World, u': World, w: Tid, b: Bit)
    requires Good(u) && LookUp(u, u', w, b)
    ensures TailOk(u.ring, u.ring.writers[w].c, u'.tails[w])
  {
    var s, c := u.ring, u.ring.writers[w].c;
    assert CommittedOk(s, w) && TailOk(s, c, u.tails[w]);
    AtOrAfterIsOrder(c, SinceOf(s, b));
  }

  /** Only where `w` stands in its commit has changed. */
  lemma TailLocalGood(u: World, u': World, w: Tid)
    requires Good(u) && Committing(u, w) && w in u'.tails && u' == u.(tails := u.tails[w := u'.tails[w]])
    requires TailOk(u.ring, u.ring.writers[w].c, u'.tails[w])
    ensures Good(u')
  {
  }

  lemma TailGood(u: World, u': World, w: Tid)
    requires Good(u) && TailStep(u, u', w)
    ensures Good(u')
  {
    if Finish(u, u', w) { FinishGood(u, u', w); }
    else if LoadMarks(u, u', w) { TailLocalGood(u, u', w); }
    else {
      assert TailOk(u.ring, u.ring.writers[w].c, u.tails[w]);
      if b :| LookUp(u, u', w, b) { LookUpGood(u, u', w, b); }
      else if v, d :| TailDrops(u, u', w, v, d) { TailDropsGood(u, u', w, v, d); }
      TailLocalGood(u, u', w);
    }
  }

  lemma FinishGood(u: World, u': World, w: Tid)
    requires Good(u) && Finish(u, u', w)
    ensures Good(u')
  {
    var s, s' := u.ring, u'.ring;
    QuietWriterKeeps(s, s', w);
    if v :| Pending(s, v) { assert Pending(s', v); }
    forall v | v in s'.writers ensures CommittedOk(s', v) { if v != w { assert CommittedOk(s, v); } }
    forall v | v in u'.tails ensures Committing(u', v) && TailOk(s', s'.writers[v].c, u'.tails[v]) {
      assert TailOk(s, s.writers[v].c, u.tails[v]);
    }
    forall n | n in u'.conns ensures ConnOk(s', u'.conns[n]) { assert ConnOk(s, u.conns[n]); }
  }

  // Connecting ------------------------------------------------------------------------------------

  lemma ClaimBitGood(u: World, u': World, n: nat, b: Bit)
    requires Good(u) && Quiet(u.ring) && ClaimBit(u, u', n, b)
    ensures Good(u')
  {
    var s, s' := u.ring, u'.ring;
    QuietLog(s);
    JoinKeeps(s, s', b);
    CommitsGrown(u, u');
    forall m | m in u'.conns ensures ConnOk(s', u'.conns[m]) && (m == n || u'.conns[m].CCursor? || u'.conns[m].b != b) {
      assert ConnOk(s, u.conns[m]);
    }
  }

  lemma StoreSinceGood(u: World, u': World, n: nat)
    requires Good(u) && StoreSince(u, u', n)
    ensures Good(u')
  {
    var s, s', x := u.ring, u'.ring, u.conns[n];
    assert ConnOk(s, x);
    SinceKeeps(s, x.b, x.since);
    if v :| Pending(s, v) { assert Pending(s', v); }
    CommitsGrown(u, u');
    forall m | m in u'.conns ensures ConnOk(s', u'.conns[m]) { assert ConnOk(s, u.conns[m]); }
  }

  /** No slot carries the bit of a receiver that is at the end of the log. */
  lemma NoMarkYet(s: State, b: Bit, i: nat)
    requires Inv(s) && b in s.cc && s.readers[b].cur == |s.log| && i < RING
    ensures b !in s.slots[i].rc.marks
  {
    assert SlotOk(s, i);
  }

  /** `release_stale` never gets to its CAS either. */
  lemma ConnDropsGood(u: World, u': World, n: nat, v: H.Slot, d: H.Drop)
    requires Good(u) && Quiet(u.ring) && ConnDrops(u, u', n, v, d)
    ensures u'.ring == u.ring && ConnOk(u.ring, u'.conns[n])
  {
    var s, x := u.ring, u.conns[n];
    assert ConnOk(s, x);
    QuietLog(s);
    NoMarkYet(s, x.b, x.i);
    assert s.(slots := s.slots[x.i := s.slots[x.i]]) == s;
  }

  /** The cursor adopted is the one the receiver had read, where it claimed its bit. */
  lemma AdoptsWhereItJoined(u: World, u': World, n: nat)
    requires Good(u) && Adopt(u, u', n)
    ensures u'.ring == u.ring
  {
    var s, x := u.ring, u.conns[n];
    assert ConnOk(s, x);
    assert s.readers[x.b := s.readers[x.b]] == s.readers && s.start[x.b := s.start[x.b]] == s.start;
  }

  /** The steps of a connect that touch nothing shared. */
  lemma ConnLocalGood(u: World, u': World, n: nat)
    requires Good(u) && u'.ring == u.ring && u'.tails == u.tails
    requires (n !in u'.conns && u'.conns == u.conns - {n})
          || (n in u'.conns && u'.conns == u.conns[n := u'.conns[n]] && ConnOk(u.ring, u'.conns[n])
              && (u'.conns[n].CCursor? || (n in u.conns && !u.conns[n].CCursor? && u.conns[n].b == u'.conns[n].b)))
    ensures Good(u')
  {
  }

  lemma ConnGood(u: World, u': World, n: nat)
    requires Good(u) && ConnStep(u, u', n) && (u.conns != map[] ==> Quiet(u.ring))
    ensures Good(u')
  {
    if b :| ClaimBit(u, u', n, b) { ClaimBitGood(u, u', n, b); }
    else if StoreSince(u, u', n) { StoreSinceGood(u, u', n); }
    else {
      if n in u.conns { assert ConnOk(u.ring, u.conns[n]); }
      if v, d :| ConnDrops(u, u', n, v, d) { ConnDropsGood(u, u', n, v, d); }
      else if Adopt(u, u', n) { AdoptsWhereItJoined(u, u', n); }
      ConnLocalGood(u, u', n);
    }
  }

  lemma LeaveGood(u: World, u': World, b: Bit)
    requires Good(u) && Leave(u, u', b) && Quiet(u.ring) && Unmarked(u.ring, b)
    ensures Good(u')
  {
    var s, s' := u.ring, u'.ring;
    QuietLog(s);
    LeaveKeeps(s, b);
    CommitsGrown(u, u');
    forall m | m in u'.conns ensures ConnOk(s', u'.conns[m]) { assert ConnOk(s, u.conns[m]); }
  }

  // Runs --------------------------------------------------------------------------------------------

  lemma NextGood(u: World, u': World)
    requires Good(u) && Next(u, u') && (u.conns != map[] ==> Quiet(u.ring)) && CalmStep(u, u')
    ensures Good(u')
  {
    if w :| Writes(u, u', w) { WritesGood(u, u', w); }
    else if r :| Reads(u, u', r) { ReadsGood(u, u', r); }
    else if w :| TailStep(u, u', w) { TailGood(u, u', w); }
    else if n :| ConnStep(u, u', n) { ConnGood(u, u', n); }
    else {
      var b :| Leave(u, u', b);
      LeaveGood(u, u', b);
    }
  }

  lemma {:induction false} CalmInv(tr: seq<World>, k: nat)
    requires History(tr) && Calm(tr) && k < |tr|
    ensures Good(tr[k])
  {
    if k == 0 {
      InitInv(tr[0].ring);
    } else {
      CalmInv(tr, k - 1);
      assert NextAt(tr, k) && CalmAt(tr, k - 1) && CalmAt(tr, k);
      NextGood(tr[k - 1], tr[k]);
    }
  }

  /** In a calm run a claim takes the position the log has reached, which is `ct_`, and
      every connected receiver has read the element it overwrites. */
  lemma CalmClaim(tr: seq<World>, k: nat, w: Tid, c: nat)
    requires History(tr) && Calm(tr) && 0 < k < |tr| && MembershipGap.ClaimsAt(tr, k, w, c)
    ensures var s := tr[k - 1].ring; c == |s.log| == s.ct && At(s, c).pos == c - RING && EveryoneRead(s, c - RING)
  {
    CalmInv(tr, k - 1);
    ClaimIsNext(tr[k - 1].ring, tr[k].ring, w);
  }

  /** So no position is claimed twice. */
  lemma CalmIsOnce(tr: seq<World>)
    requires History(tr) && Calm(tr)
    ensures MembershipGap.Once(tr)
  {
    forall k, w, c | 0 < k < |tr| && MembershipGap.ClaimsAt(tr, k, w, c) ensures c == |tr[k - 1].ring.log| {
      CalmClaim(tr, k, w, c);
    }
    MembershipGap.OnceExactly(tr);
  }

  /** Total order with receivers that come and go: at every point of a calm run, what a
      receiver has popped is the common log from where it started to its cursor, byte for
      byte, in claim order. */
  lemma CalmTotalOrder(tr: seq<World>, k: nat, r: Bit)
    requires History(tr) && Calm(tr) && k < |tr| && r in tr[k].ring.readers
    ensures var s, log := tr[k].ring, tr[|tr| - 1].ring.log;
            && r in s.start && s.start[r] <= s.readers[r].cur <= |log|
            && s.readers[r].popped == Messages(log)[s.start[r]..s.readers[r].cur]
  {
    CalmInv(tr, k);
    MembershipGap.LogGrows(tr, k, |tr| - 1);
    assert ReaderOk(tr[k].ring, r);
  }

  /** Where it starts: at the end of the log, when it claims its bit. */
  lemma StartsAtTheEnd(tr: seq<World>, k: nat, n: nat, b: Bit)
    requires History(tr) && Calm(tr) && 0 < k < |tr| && ClaimBit(tr[k - 1], tr[k], n, b)
    ensures tr[k].ring.start[b] == |tr[k - 1].ring.log|
  {
    CalmInv(tr, k - 1);
    assert CalmAt(tr, k - 1);
    QuietLog(tr[k - 1].ring);
  }
}
