/** Connects and commits of the channel get done when they run alone, in any history with
    receivers coming and going: a connect records where it starts, leaves no mark of a previous
    owner on a committed element from before, and a commit returns whatever marks it finds
    stale. */
module MembersProgress {
  import opened RingWords
  import opened ChannelRing
  import opened ChannelMembers
  import H = HandoverSlot
  import HandoverProgress
  import ChannelOrder

  /** A step of the ring is a step of the world, for a writer short of its commit scan and a reader
      that has finished connecting. */
  lemma RingStepLifts(u: World, s: State)
    requires || (exists w | w in u.ring.writers ::
                   !u.ring.writers[w].WMarks? && WriterStep(u.ring, s, w, u.ring.writers[w]))
             || (exists r | r in u.ring.readers :: !Connecting(u, r) && ReaderStep(u.ring, s, r, u.ring.readers[r]))
    ensures Next(u, u.(ring := s))
  {
    if w :| w in u.ring.writers && !u.ring.writers[w].WMarks? && WriterStep(u.ring, s, w, u.ring.writers[w]) {
      assert Writes(u, u.(ring := s), w);
    } else {
      var r :| r in u.ring.readers && !Connecting(u, r) && ReaderStep(u.ring, s, r, u.ring.readers[r]);
      assert Reads(u, u.(ring := s), r);
    }
  }

  // What is loaded stays in range -------------------------------------------------------------------

  ghost predicate ConnIn(x: Conn) {
    match x
    case CScan(_, _, i) => i <= RING
    case CDrop(_, _, i, p, d) => i < RING && p < U32 && d != H.DDone
    case _ => true
  }

  ghost predicate TailIn(x: H.Writer) {
    x.WScan? || x.WNext? || (x.WDrop? && x.d != H.DDone)
  }

  ghost predicate InRange(u: World) {
    && (forall w | w in u.ring.writers && u.ring.writers[w].WMarks? :: u.ring.writers[w].c < U32)
    && (forall w | w in u.tails :: Committing(u, w) && TailIn(u.tails[w]))
    && (forall n | n in u.conns :: ConnIn(u.conns[n]))
  }

  lemma WritesInRange(u: World, u': World, w: Tid)
    requires InRange(u) && Writes(u, u', w)
    ensures InRange(u')
  {
    var x := u.ring.writers[w];
    if WriterLoads(u.ring, u'.ring, w, x) { ChannelOrder.WriterLoadsFrame(u.ring, u'.ring, w, x); }
    else { ChannelOrder.WriterStoresFrame(u.ring, u'.ring, w, x); }
    assert w in u'.ring.writers && u'.ring.writers[w].WMarks? ==> Commit(u.ring, u'.ring, w, x);
  }

  lemma NextInRange(u: World, u': World)
    requires InRange(u) && Next(u, u')
    ensures InRange(u')
  {
    if w :| Writes(u, u', w) { WritesInRange(u, u', w); }
    else if r :| Reads(u, u', r) { ChannelOrder.ReaderFrame(u.ring, u'.ring, r, u.ring.readers[r]); }
    else if w :| TailStep(u, u', w) { TailInRange(u, u', w); }
    else if n :| ConnStep(u, u', n) { ConnInRange(u, u', n); }
  }

  lemma TailInRange(u: World, u': World, w: Tid)
    requires InRange(u) && TailStep(u, u', w)
    ensures InRange(u')
  {
  }

  lemma ConnInRange(u: World, u': World, n: nat)
    requires InRange(u) && ConnStep(u, u', n)
    ensures InRange(u')
  {
  }

  lemma {:induction false} HistoryInRange(tr: seq<World>, k: nat)
    requires History(tr) && k < |tr|
    ensures InRange(tr[k])
  {
    if k > 0 {
      HistoryInRange(tr, k - 1);
      assert NextAt(tr, k);
      NextInRange(tr[k - 1], tr[k]);
    }
  }

  // Running alone -------------------------------------------------------------------------------------

  datatype Actor = Commits(w: Tid) | Connects(n: nat)

  ghost predicate StepBy(u: World, u': World, a: Actor) {
    match a
    case Commits(w) => TailStep(u, u', w)
    case Connects(n) => ConnStep(u, u', n)
  }

  ghost predicate StepByAt(tr: seq<World>, k: int, a: Actor)
    requires 0 < k < |tr|
  {
    StepBy(tr[k - 1], tr[k], a)
  }

  /** `tr` is a history that extends `from` by steps of `a` alone and ends in `u`. */
  ghost predicate Solo(from: seq<World>, tr: seq<World>, u: World, a: Actor) {
    && History(from) && from <= tr && History(tr) && tr[|tr| - 1] == u
    && forall k | |from| <= k < |tr| :: StepByAt(tr, k, a)
  }

  lemma Goes(from: seq<World>, tr: seq<World>, p: World, u: World, a: Actor) returns (tr': seq<World>)
    requires Solo(from, tr, p, a) && StepBy(p, u, a)
    ensures Solo(from, tr', u, a)
  {
    tr' := tr + [u];
    forall k | 0 < k < |tr'| ensures NextAt(tr', k) { if k < |tr| { assert NextAt(tr, k); } }
    forall k | |from| <= k < |tr'| ensures StepByAt(tr', k, a) { if k < |tr| { assert StepByAt(tr, k, a); } }
  }

  // A commit --------------------------------------------------------------------------------------------

  lemma {:induction false} SoloDrop(from: seq<World>, tr: seq<World>, u: World, w: Tid)
      returns (tr': seq<World>, u': World)
    requires Solo(from, tr, u, Commits(w)) && Committing(u, w) && u.ring.writers[w].c < U32
    requires w in u.tails && u.tails[w].WDrop? && u.tails[w].d != H.DDone
    ensures Solo(from, tr', u', Commits(w)) && Committing(u', w) && u'.ring.writers == u.ring.writers
    ensures w in u'.tails && u'.tails[w] == H.WNext(u.tails[w].rest)
    decreases HandoverProgress.Rank(View(At(u.ring, u.ring.writers[w].c)), u.tails[w].d)
  {
    var x, c := u.tails[w], u.ring.writers[w].c;
    var v, d := HandoverProgress.DropProgress(View(At(u.ring, c)), c, x.b, x.d);
    u' := u.(ring := SetSlot(u.ring, c, Put(At(u.ring, c), v)), tails := u.tails[w := H.Dropping(x, d)]);
    assert TailDrops(u, u', w, v, d);
    tr' := Goes(from, tr, u, u', Commits(w));
    if d != H.DDone {
      RankView(At(u.ring, c), v, d);
      tr', u' := SoloDrop(from, tr', u', w);
    }
  }

  /** What `release_mark` reads of a slot is what it wrote. */
  lemma RankView(t: Slot, v: H.Slot, d: H.Drop)
    ensures HandoverProgress.Rank(View(Put(t, v)), d) == HandoverProgress.Rank(v, d)
  {
    assert H.Now(View(Put(t, v))) == H.Now(v);
  }

  lemma {:induction false} SoloDrops(from: seq<World>, tr: seq<World>, u: World, w: Tid)
      returns (tr': seq<World>, u': World)
    requires Solo(from, tr, u, Commits(w)) && Committing(u, w) && u.ring.writers[w].c < U32
    requires w in u.tails && u.tails[w].WNext?
    ensures Solo(from, tr', u', Commits(w)) && Committing(u', w) && w in u'.tails && u'.tails[w] == H.WNext({})
    decreases u.tails[w].rest
  {
    tr', u' := tr, u;
    if u.tails[w].rest != {} {
      var b :| b in u.tails[w].rest;
      u' := u.(tails := u.tails[w := H.Taking(u.tails[w], b)]);
      assert NextMark(u, u', w, b);
      tr' := Goes(from, tr, u, u', Commits(w));
      tr', u' := SoloDrop(from, tr', u', w);
      tr', u' := SoloDrops(from, tr', u', w);
    }
  }

  lemma {:induction false} SoloScan(from: seq<World>, tr: seq<World>, u: World, w: Tid)
      returns (tr': seq<World>, u': World)
    requires Solo(from, tr, u, Commits(w)) && Committing(u, w) && w in u.tails && u.tails[w].WScan?
    ensures Solo(from, tr', u', Commits(w)) && u'.ring == u.ring && w in u'.tails && u'.tails[w].WNext?
    decreases u.tails[w].todo
  {
    var x := u.tails[w];
    if x.todo == {} {
      u' := u.(tails := u.tails[w := H.WNext(x.stale)]);
      assert EndScan(u, u', w);
      tr' := Goes(from, tr, u, u', Commits(w));
    } else {
      var b :| b in x.todo;
      u' := u.(tails := u.tails[w := H.LookedUp(x, u.ring.writers[w].c, SinceOf(u.ring, b), b)]);
      assert LookUp(u, u', w, b);
      tr' := Goes(from, tr, u, u', Commits(w));
      tr', u' := SoloScan(from, tr', u', w);
    }
  }

  /** A commit that runs alone returns, from any point after its store in any history. */
  lemma SoloCommit(tr: seq<World>, w: Tid) returns (tr': seq<World>, u': World)
    requires History(tr) && Committing(tr[|tr| - 1], w)
    ensures Solo(tr, tr', u', Commits(w)) && w in u'.ring.writers && u'.ring.writers[w] == WIdle && w !in u'.tails
  {
    var u := tr[|tr| - 1];
    HistoryInRange(tr, |tr| - 1);
    tr', u' := tr, u;
    if w !in u.tails {
      u' := u.(tails := u.tails[w := H.WScan(At(u.ring, u.ring.writers[w].c).rc.marks, {})]);
      assert LoadMarks(u, u', w);
      tr' := Goes(tr, tr, u, u', Commits(w));
    }
    if u'.tails[w].WScan? { tr', u' := SoloScan(tr, tr', u', w); }
    if u'.tails[w].WDrop? { tr', u' := SoloDrop(tr, tr', u', w); }
    tr', u' := SoloDrops(tr, tr', u', w);
    var done := u'.(ring := SetWriter(u'.ring, w, WIdle), tails := u'.tails - {w});
    assert Finish(u', done, w);
    tr' := Goes(tr, tr', u', done, Commits(w));
    u' := done;
  }

  // A connect -------------------------------------------------------------------------------------------

  /** No committed element of a slot below `i` from before `since` carries the bit. */
  ghost predicate ClearBelow(s: State, b: Bit, since: nat, i: nat) {
    forall j | 0 <= j < i && j < RING :: H.Skips(s.slots[j].flag, since) || b !in s.slots[j].rc.marks
  }

  /** A call of `release_mark` that has had the slot to itself since it found it committed. */
  ghost predicate Undisturbed(v: H.Slot, p: nat, b: Bit, d: H.Drop)
    requires p < U32
  {
    match d
    case DRc => v.flag == Committed(p)
    case DFlag(rc) => v.flag == Committed(p) && rc == H.Now(v)
    case DCas(rc) => v.flag == Committed(p) && rc == H.Now(v)
    case _ => b !in v.marks
  }

  lemma UndisturbedStep(v: H.Slot, p: nat, b: Bit, d: H.Drop, v': H.Slot, d': H.Drop)
    requires p < U32 && Undisturbed(v, p, b, d) && H.DropStep(v, v', p, b, d, d')
    requires HandoverProgress.Rank(v', d') < HandoverProgress.Rank(v, d)
    ensures Undisturbed(v', p, b, d')
  {
  }

  /** A connect that is dropping its mark from slot `i`, undisturbed. */
  ghost predicate Stale(u: World, n: nat) {
    && n in u.conns && u.conns[n].CDrop?
    && var x := u.conns[n];
       x.i < RING && x.p < U32 && x.d != H.DDone && Undisturbed(View(u.ring.slots[x.i]), x.p, x.b, x.d)
  }

  function StaleRank(u: World, n: nat): nat
    requires n in u.conns && u.conns[n].CDrop? && u.conns[n].i < RING
  {
    HandoverProgress.Rank(View(u.ring.slots[u.conns[n].i]), u.conns[n].d)
  }

  /** The world after an access of `release_mark` that leaves `v` and `d`. */
  function AfterAccess(u: World, n: nat, v: H.Slot, d: H.Drop): World
    requires n in u.conns && u.conns[n].CDrop? && u.conns[n].i < RING
  {
    var x := u.conns[n];
    u.(ring := u.ring.(slots := u.ring.slots[x.i := Put(u.ring.slots[x.i], v)]),
       conns := u.conns[n := if d == H.DDone then CScan(x.since, x.b, x.i + 1) else x.(d := d)])
  }

  lemma StaleStep(u: World, n: nat) returns (v: H.Slot, d: H.Drop)
    requires Stale(u, n)
    ensures ConnDrops(u, AfterAccess(u, n, v, d), n, v, d)
    ensures d == H.DDone ==> u.conns[n].b !in v.marks
    ensures d != H.DDone ==>
              var u' := AfterAccess(u, n, v, d); Stale(u', n) && StaleRank(u', n) < StaleRank(u, n)
  {
    var x, t := u.conns[n], u.ring.slots[u.conns[n].i];
    v, d := HandoverProgress.DropProgress(View(t), x.p, x.b, x.d);
    UndisturbedStep(View(t), x.p, x.b, x.d, v, d);
    RankView(t, v, d);
    UndisturbedView(t, v, x.p, x.b, d);
  }

  lemma UndisturbedView(t: Slot, v: H.Slot, p: nat, b: Bit, d: H.Drop)
    requires p < U32 && Undisturbed(v, p, b, d)
    ensures Undisturbed(View(Put(t, v)), p, b, d)
  {
    assert H.Now(View(Put(t, v))) == H.Now(v);
  }

  lemma {:induction false} SoloStale(from: seq<World>, tr: seq<World>, u: World, n: nat)
      returns (tr': seq<World>, u': World)
    requires Solo(from, tr, u, Connects(n)) && Stale(u, n)
    ensures Solo(from, tr', u', Connects(n)) && n in u'.conns
    ensures var x, s, s' := u.conns[n], u.ring, u'.ring;
            && u'.conns[n] == CScan(x.since, x.b, x.i + 1)
            && s' == s.(slots := s.slots[x.i := s'.slots[x.i]]) && x.b !in s'.slots[x.i].rc.marks
    decreases StaleRank(u, n)
  {
    var v, d := StaleStep(u, n);
    u' := AfterAccess(u, n, v, d);
    tr' := Goes(from, tr, u, u', Connects(n));
    if d != H.DDone { tr', u' := SoloStale(from, tr', u', n); }
  }

  /** Slot `i` is dealt with. */
  lemma SoloSlot(from: seq<World>, tr: seq<World>, u: World, n: nat) returns (tr': seq<World>, u': World)
    requires Solo(from, tr, u, Connects(n)) && n in u.conns && u.conns[n].CScan? && u.conns[n].i < RING
    ensures Solo(from, tr', u', Connects(n)) && n in u'.conns
    ensures var x, s, s' := u.conns[n], u.ring, u'.ring;
            && u'.conns[n] == CScan(x.since, x.b, x.i + 1)
            && s' == s.(slots := s.slots[x.i := s'.slots[x.i]])
            && (H.Skips(s'.slots[x.i].flag, x.since) || x.b !in s'.slots[x.i].rc.marks)
  {
    var x := u.conns[n];
    var t := u.ring.slots[x.i];
    if H.Skips(t.flag, x.since) {
      u' := u.(conns := u.conns[n := CScan(x.since, x.b, x.i + 1)]);
      assert ScanSlot(u, u', n);
      tr' := Goes(from, tr, u, u', Connects(n));
      assert u.ring.slots[x.i := t] == u.ring.slots;
    } else {
      u' := u.(conns := u.conns[n := CDrop(x.since, x.b, x.i, U64 - 1 - t.flag, H.DRc)]);
      assert ScanSlot(u, u', n);
      tr' := Goes(from, tr, u, u', Connects(n));
      tr', u' := SoloStale(from, tr', u', n);
    }
  }

  lemma {:induction false} SoloSlots(from: seq<World>, tr: seq<World>, u: World, n: nat)
      returns (tr': seq<World>, u': World)
    requires Solo(from, tr, u, Connects(n)) && n in u.conns && u.conns[n].CScan? && u.conns[n].i <= RING
    requires ClearBelow(u.ring, u.conns[n].b, u.conns[n].since, u.conns[n].i)
    ensures Solo(from, tr', u', Connects(n)) && n in u'.conns
    ensures u'.conns[n] == CScan(u.conns[n].since, u.conns[n].b, RING)
    ensures u'.ring == u.ring.(slots := u'.ring.slots) && ClearBelow(u'.ring, u.conns[n].b, u.conns[n].since, RING)
    decreases RING - u.conns[n].i
  {
    tr', u' := tr, u;
    if u.conns[n].i < RING {
      tr', u' := SoloSlot(from, tr, u, n);
      tr', u' := SoloSlots(from, tr', u', n);
    }
  }

  lemma {:induction false} SoloWalk(from: seq<World>, tr: seq<World>, u: World, n: nat)
      returns (tr': seq<World>, u': World)
    requires Solo(from, tr, u, Connects(n)) && n in u.conns && u.conns[n].CWalk?
    ensures Solo(from, tr', u', Connects(n)) && n in u'.conns && u'.conns[n].CWalk? && !WalkOn(u'.ring, u'.conns[n])
    ensures u'.ring == u.ring && u'.conns[n] == u.conns[n].(cur := u'.conns[n].cur, n := u'.conns[n].n)
    decreases u.conns[n].n
  {
    tr', u' := tr, u;
    if WalkOn(u.ring, u.conns[n]) {
      var x := u.conns[n];
      u' := u.(conns := u.conns[n := x.(cur := (x.cur - 1) % U32, n := x.n - 1)]);
      assert WalkBack(u, u', n);
      tr' := Goes(from, tr, u, u', Connects(n));
      tr', u' := SoloWalk(from, tr', u', n);
    }
  }

  /** A connect that runs alone from its claim of bit `b` finishes, in any history: its `since` is
      recorded, no committed element from before it is marked with the bit any more, and the
      receiver polls at the cursor it adopted, having popped nothing. */
  lemma SoloConnect(tr: seq<World>, n: nat) returns (tr': seq<World>, u': World)
    requires History(tr) && n in tr[|tr| - 1].conns && tr[|tr| - 1].conns[n].CBit?
    ensures Solo(tr, tr', u', Connects(n)) && n !in u'.conns
    ensures var x, s := tr[|tr| - 1].conns[n], u'.ring;
            && x.b in s.since && s.since[x.b] == x.since && ClearBelow(s, x.b, x.since, RING)
            && x.b in s.readers && x.b in s.start && s.readers[x.b] == Reader(s.start[x.b], Poll, [])
  {
    var u := tr[|tr| - 1];
    var x := u.conns[n];
    u' := u.(ring := u.ring.(since := u.ring.since[x.b := x.since]), conns := u.conns[n := CScan(x.since, x.b, 0)]);
    assert StoreSince(u, u', n);
    tr' := Goes(tr, tr, u, u', Connects(n));
    tr', u' := SoloSlots(tr, tr', u', n);
    var w := u'.(conns := u'.conns[n := CWalk(x.since, x.b, u'.ring.ct, RING)]);
    assert EndStale(u', w, n);
    tr' := Goes(tr, tr', u', w, Connects(n));
    tr', u' := SoloWalk(tr, tr', w, n);
    tr', u' := SoloAdopt(tr, tr', u', n);
  }

  lemma SoloAdopt(from: seq<World>, tr: seq<World>, u: World, n: nat) returns (tr': seq<World>, u': World)
    requires Solo(from, tr, u, Connects(n)) && n in u.conns && u.conns[n].CWalk? && !WalkOn(u.ring, u.conns[n])
    ensures Solo(from, tr', u', Connects(n)) && n !in u'.conns
    ensures u'.ring.slots == u.ring.slots && u'.ring.since == u.ring.since
    ensures var b, s := u.conns[n].b, u'.ring;
            b in s.readers && b in s.start && s.readers[b] == Reader(s.start[b], Poll, [])
  {
    var x := u.conns[n];
    u' := u.(ring := SetReader(u.ring, x.b, Reader(x.cur, Poll, [])).(start := u.ring.start[x.b := x.cur]),
             conns := u.conns - {n});
    assert Adopt(u, u', n);
    tr' := Goes(from, tr, u, u', Connects(n));
  }

  // Where a receiver stands -------------------------------------------------------------------------------

  /** Every receiver has popped one element for each position from its start to its cursor. */
  ghost predicate Counts(s: State) {
    && s.start.Keys == s.readers.Keys
    && forall r | r in s.readers :: s.start[r] + |s.readers[r].popped| == s.readers[r].cur
  }

  lemma ReaderCounts(s: State, s': State, r: Bit)
    requires Counts(s) && r in s.readers && ReaderStep(s, s', r, s.readers[r])
    ensures Counts(s')
  {
    ChannelOrder.ReaderFrame(s, s', r, s.readers[r]);
  }

  lemma NextCounts(u: World, u': World)
    requires Counts(u.ring) && Next(u, u')
    ensures Counts(u'.ring)
  {
    if w :| Writes(u, u', w) {
      var x := u.ring.writers[w];
      if WriterLoads(u.ring, u'.ring, w, x) { ChannelOrder.WriterLoadsFrame(u.ring, u'.ring, w, x); }
      else { ChannelOrder.WriterStoresFrame(u.ring, u'.ring, w, x); }
    }
    else if r :| Reads(u, u', r) { ReaderCounts(u.ring, u'.ring, r); }
    else if w :| TailStep(u, u', w) { TailCounts(u, u', w); }
    else if n :| ConnStep(u, u', n) { ConnCounts(u, u', n); }
  }

  lemma TailCounts(u: World, u': World, w: Tid)
    requires Counts(u.ring) && TailStep(u, u', w)
    ensures Counts(u'.ring)
  {
  }

  lemma ConnCounts(u: World, u': World, n: nat)
    requires Counts(u.ring) && ConnStep(u, u', n)
    ensures Counts(u'.ring)
  {
    if b :| ClaimBit(u, u', n, b) {
    } else if Adopt(u, u', n) {
    } else {
      assert u'.ring.readers == u.ring.readers && u'.ring.start == u.ring.start;
    }
  }

  lemma {:induction false} PoppedSinceStart(tr: seq<World>, k: nat)
    requires History(tr) && k < |tr|
    ensures Counts(tr[k].ring)
  {
    if k > 0 {
      PoppedSinceStart(tr, k - 1);
      assert NextAt(tr, k);
      NextCounts(tr[k - 1], tr[k]);
    }
  }
}
