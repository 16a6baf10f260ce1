/** The multi-writer channel with receivers that connect and disconnect during a run.

    The writers and readers are those of `ChannelRing`, and so are the other hypotheses;
    `release_mark`, the scan of `commit_multi` and the test of `release_stale` are those of
    `HandoverSlot`.
    `connect` reads the write cursor, claims a bit, stores its `since`, drops the marks a
    previous owner of the bit left behind (`release_stale`) and adopts a cursor, all one
    access at a time. A commit looks every mark it finds up in the `since` table and drops
    the stale ones through `release_mark`. A bit goes when its receiver disconnects or is
    reaped. */
module ChannelMembers {
  import opened RingWords
  import opened ChannelRing
  import H = HandoverSlot

  /** Where a connecting receiver stands: `i` is the slot `release_stale` is at, `n` the
      number of steps `adopt_cursor` may still walk back. */
  datatype Conn =
    | CCursor(since: nat)
    | CBit(since: nat, b: Bit)
    | CScan(since: nat, b: Bit, i: nat)
    | CDrop(since: nat, b: Bit, i: nat, p: nat, d: H.Drop)
    | CWalk(since: nat, b: Bit, cur: nat, n: nat)

  /** `tails` says where the commits stand that have loaded their marks. */
  datatype World = World(ring: State, tails: map<Tid, H.Writer>, conns: map<nat, Conn>)

  ghost predicate Opening(u: World) {
    Init(u.ring) && u.tails == map[] && u.conns == map[]
  }

  /** Bit `b` is claimed by a receiver that is still connecting. */
  predicate Connecting(u: World, b: Bit) {
    exists n | n in u.conns :: !u.conns[n].CCursor? && u.conns[n].b == b
  }

  // The ring ----------------------------------------------------------------------------

  /** A step of `push_fragment_multi` up to the commit store. */
  ghost predicate Writes(u: World, u': World, w: Tid) {
    && w in u.ring.writers && !u.ring.writers[w].WMarks?
    && WriterStep(u.ring, u'.ring, w, u.ring.writers[w]) && u' == u.(ring := u'.ring)
  }

  /** A step of `recv_multi`. */
  ghost predicate Reads(u: World, u': World, r: Bit) {
    && r in u.ring.readers && !Connecting(u, r)
    && ReaderStep(u.ring, u'.ring, r, u.ring.readers[r]) && u' == u.(ring := u'.ring)
  }

  // release_mark ------------------------------------------------------------------------

  /** A slot as `release_mark` sees it, and the slot with what it writes. */
  function View(t: Slot): H.Slot {
    H.Slot(t.rc.gen, t.rc.marks, t.flag, 0, t.open)
  }

  function Put(t: Slot, v: H.Slot): Slot {
    t.(rc := Rc(t.rc.epoch, v.gen, v.marks), flag := v.flag)
  }

  // The rest of commit_multi --------------------------------------------------------------

  ghost predicate Committing(u: World, w: Tid) {
    w in u.ring.writers && u.ring.writers[w].WMarks?
  }

  ghost predicate LoadMarks(u: World, u': World, w: Tid) {
    && Committing(u, w) && w !in u.tails
    && u' == u.(tails := u.tails[w := H.WScan(At(u.ring, u.ring.writers[w].c).rc.marks, {})])
  }

  /** The table entry of a bit; it starts out as 0. */
  function SinceOf(s: State, b: Bit): nat {
    if b in s.since then s.since[b] else 0
  }

  ghost predicate LookUp(u: World, u': World, w: Tid, b: Bit) {
    && Committing(u, w) && w in u.tails && u.tails[w].WScan? && b in u.tails[w].todo
    && u' == u.(tails := u.tails[w := H.LookedUp(u.tails[w], u.ring.writers[w].c, SinceOf(u.ring, b), b)])
  }

  ghost predicate EndScan(u: World, u': World, w: Tid) {
    && Committing(u, w) && w in u.tails && u.tails[w].WScan? && u.tails[w].todo == {}
    && u' == u.(tails := u.tails[w := H.WNext(u.tails[w].stale)])
  }

  ghost predicate NextMark(u: World, u': World, w: Tid, b: Bit) {
    && Committing(u, w) && w in u.tails && u.tails[w].WNext? && b in u.tails[w].rest
    && u' == u.(tails := u.tails[w := H.Taking(u.tails[w], b)])
  }

  ghost predicate TailDrops(u: World, u': World, w: Tid, v: H.Slot, d: H.Drop) {
    && Committing(u, w) && w in u.tails && u.tails[w].WDrop? && u.ring.writers[w].c < U32
    && var x, c := u.tails[w], u.ring.writers[w].c;
       && H.DropStep(View(At(u.ring, c)), v, c, x.b, x.d, d)
       && u' == u.(ring := SetSlot(u.ring, c, Put(At(u.ring, c), v)), tails := u.tails[w := H.Dropping(x, d)])
  }

  ghost predicate Finish(u: World, u': World, w: Tid) {
    && Committing(u, w) && w in u.tails && u.tails[w] == H.WNext({})
    && u' == u.(ring := SetWriter(u.ring, w, WIdle), tails := u.tails - {w})
  }

  ghost predicate TailStep(u: World, u': World, w: Tid) {
    || LoadMarks(u, u', w) || (exists b :: LookUp(u, u', w, b)) || EndScan(u, u', w)
    || (exists b :: NextMark(u, u', w, b)) || (exists v, d :: TailDrops(u, u', w, v, d)) || Finish(u, u', w)
  }

  // Connecting ----------------------------------------------------------------------------

  ghost predicate ReadCursor(u: World, u': World, n: nat) {
    n !in u.conns && u' == u.(conns := u.conns[n := CCursor(u.ring.ct)])
  }

  /** All bits are taken: the connect fails. */
  ghost predicate Refused(u: World, u': World, n: nat) {
    n in u.conns && u.conns[n].CCursor? && u' == u.(conns := u.conns - {n})
  }

  /** The CAS on the mask; the receiver reads only once `Adopt` has set its cursor. */
  ghost predicate ClaimBit(u: World, u': World, n: nat, b: Bit) {
    && n in u.conns && u.conns[n].CCursor? && b !in u.ring.cc
    && u' == u.(ring := Joined(u.ring, b), conns := u.conns[n := CBit(u.conns[n].since, b)])
  }

  function Joined(s: State, b: Bit): State {
    s.(cc := s.cc + {b}, readers := s.readers[b := Reader(s.ct, Poll, [])], start := s.start[b := s.ct])
  }

  ghost predicate StoreSince(u: World, u': World, n: nat) {
    && n in u.conns && u.conns[n].CBit?
    && var x := u.conns[n];
       u' == u.(ring := u.ring.(since := u.ring.since[x.b := x.since]), conns := u.conns[n := CScan(x.since, x.b, 0)])
  }

  /** `release_stale` at slot `i`: skip an uncommitted slot and one from `since` on. */
  ghost predicate ScanSlot(u: World, u': World, n: nat) {
    && n in u.conns && u.conns[n].CScan? && u.conns[n].i < RING
    && var x := u.conns[n];
       var flag := u.ring.slots[x.i].flag;
       u' == u.(conns := u.conns[n :=
                  if H.Skips(flag, x.since) then CScan(x.since, x.b, x.i + 1)
                  else CDrop(x.since, x.b, x.i, U64 - 1 - flag, H.DRc)])
  }

  ghost predicate ConnDrops(u: World, u': World, n: nat, v: H.Slot, d: H.Drop) {
    && n in u.conns && u.conns[n].CDrop? && u.conns[n].i < RING && u.conns[n].p < U32
    && var x := u.conns[n];
       && H.DropStep(View(u.ring.slots[x.i]), v, x.p, x.b, x.d, d)
       && u' == u.(ring := u.ring.(slots := u.ring.slots[x.i := Put(u.ring.slots[x.i], v)]),
                   conns := u.conns[n := if d == H.DDone then CScan(x.since, x.b, x.i + 1) else x.(d := d)])
  }

  /** `adopt_cursor` loads the write cursor. */
  ghost predicate EndStale(u: World, u': World, n: nat) {
    && n in u.conns && u.conns[n].CScan? && u.conns[n].i == RING
    && u' == u.(conns := u.conns[n := CWalk(u.conns[n].since, u.conns[n].b, u.ring.ct, RING)])
  }

  predicate WalkOn(s: State, x: Conn)
    requires x.CWalk?
  {
    var rc := At(s, x.cur - 1).rc; x.n > 0 && x.cur != x.since && x.b in rc.marks && rc.epoch == s.epoch
  }

  ghost predicate WalkBack(u: World, u': World, n: nat) {
    && n in u.conns && u.conns[n].CWalk? && WalkOn(u.ring, u.conns[n])
    && var x := u.conns[n];
       u' == u.(conns := u.conns[n := x.(cur := (x.cur - 1) % U32, n := x.n - 1)])
  }

  ghost predicate Adopt(u: World, u': World, n: nat) {
    && n in u.conns && u.conns[n].CWalk? && !WalkOn(u.ring, u.conns[n])
    && var x := u.conns[n];
       u' == u.(ring := SetReader(u.ring, x.b, Reader(x.cur, Poll, [])).(start := u.ring.start[x.b := x.cur]),
                conns := u.conns - {n})
  }

  ghost predicate ConnStep(u: World, u': World, n: nat) {
    || ReadCursor(u, u', n) || Refused(u, u', n) || (exists b :: ClaimBit(u, u', n, b)) || StoreSince(u, u', n)
    || ScanSlot(u, u', n) || (exists v, d :: ConnDrops(u, u', n, v, d)) || EndStale(u, u', n)
    || WalkBack(u, u', n) || Adopt(u, u', n)
  }

  // Leaving ---------------------------------------------------------------------------------

  function Left(s: State, b: Bit): State {
    s.(cc := s.cc - {b}, readers := s.readers - {b}, start := s.start - {b})
  }

  /** A disconnect, or the reaping of a dead receiver, clears the bit. */
  ghost predicate Leave(u: World, u': World, b: Bit) {
    b in u.ring.cc && !Connecting(u, b) && u' == u.(ring := Left(u.ring, b))
  }

  // Runs ------------------------------------------------------------------------------------

  ghost predicate Next(u: World, u': World) {
    || (exists w :: Writes(u, u', w)) || (exists r :: Reads(u, u', r)) || (exists w :: TailStep(u, u', w))
    || (exists n :: ConnStep(u, u', n)) || (exists b :: Leave(u, u', b))
  }

  ghost predicate NextAt(tr: seq<World>, k: int)
    requires 0 < k < |tr|
  {
    Next(tr[k - 1], tr[k])
  }

  /** A finite run, with receivers that come and go. */
  ghost predicate History(tr: seq<World>) {
    |tr| > 0 && Opening(tr[0]) && forall k | 0 < k < |tr| :: NextAt(tr, k)
  }
}
