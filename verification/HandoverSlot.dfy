/** One slot of the multi-writer channel while connection bits change hands.

    The slot was claimed for position `pos0`, stamped with the bits of receivers that
    stay connected (`stay`) and of receivers that have left since (`hand`). Each bit of
    `hand` has a new owner, which has read a cursor `sigma` past `pos0`, claimed the bit,
    and now runs `set_since` and `release_stale` while the writer of `pos0` runs
    `commit_multi`. Both drop marks through `release_mark`; the remaining receivers read
    the slot, and any number of writers try to claim it again for later laps. Those writers
    loaded the connection mask once every bit of `hand` had its new owner, so any mark they
    find on the slot is in their mask. Every load, store and CAS is one step.

    `lap` (laps since `pos0`) and `open` (claimed, not committed) are history variables;
    writers are named by the lap they claimed. */
module HandoverSlot {
  import opened RingWords

  type Bit = nat

  /** What is fixed for a run. */
  datatype Setup = Setup(pos0: nat, stay: set<Bit>, hand: set<Bit>, sigma: map<Bit, nat>) {
    predicate Valid() {
      && stay !! hand && stay + hand != {} && sigma.Keys == hand
      && pos0 + RING < POSITIONS
      && (forall b | b in hand :: pos0 < sigma[b] <= pos0 + RING)
    }
    function Cc(): set<Bit> { stay + hand }
    /** The positions this slot takes, lap by lap. */
    function Pos(lap: nat): nat { pos0 + lap * RING }
  }

  datatype Slot = Slot(gen: nat, marks: set<Bit>, flag: nat, lap: nat, open: bool)

  /** A loaded `rc_`. */
  datatype Rc = Rc(gen: nat, marks: set<Bit>)

  /** Where a call of `release_mark` stands. */
  datatype Drop = DRc | DFlag(rc: Rc) | DCas(rc: Rc) | DFree | DDone

  /** Where the writer of a position stands from its claim on. `WDrop` drops the mark `b`,
      with `rest` still to drop. */
  datatype Writer =
    | WOpen
    | WMarks
    | WScan(todo: set<Bit>, stale: set<Bit>)
    | WNext(rest: set<Bit>)
    | WDrop(b: Bit, rest: set<Bit>, d: Drop)

  /** Where the new owner of a bit stands from its claim on. */
  datatype Joiner = JSince | JFlag | JDrop(p: nat, d: Drop) | JDone

  datatype ReaderPc = Poll | LoadRc | Test(rc: Rc) | Cas(rc: Rc)

  /** `next` is the next lap in which the receiver will read this slot. */
  datatype Reader = Reader(next: nat, pc: ReaderPc)

  /** Where a writer stands that has loaded the commit index of `lap` and tries to claim:
      `KRc` has loaded `rc_`, `KFree` has found it unmarked, at `gen`, and the flag free. */
  datatype Claimant = KRc(lap: nat, rc: Rc) | KFree(lap: nat, gen: nat)

  datatype State = State(
    slot: Slot, since: map<Bit, nat>, writers: map<nat, Writer>, joiners: map<Bit, Joiner>, readers: map<Bit, Reader>,
    claimants: map<nat, Claimant>)

  /** The slot has just been claimed for `pos0`; every bit of `hand` is still marked or
      was never stamped, and the owner table still holds its previous owner's `since`. */
  ghost predicate Init(k: Setup, s: State) {
    && k.Valid()
    && s.slot.lap == 0 && s.slot.open && s.slot.flag == FreeFlag(k.pos0)
    && k.stay <= s.slot.marks <= k.Cc() && s.slot.marks != {}
    && s.since.Keys == k.Cc() && (forall b | b in k.Cc() :: s.since[b] <= k.pos0)
    && s.writers == map[0 := WOpen] && s.claimants == map[]
    && s.joiners.Keys == k.hand && (forall b | b in k.hand :: s.joiners[b] == JSince)
    && s.readers.Keys == k.Cc()
    && (forall b | b in k.stay :: s.readers[b] == Reader(0, Poll))
    && (forall b | b in k.hand :: s.readers[b] == Reader(1, Poll))
  }

  function Now(t: Slot): Rc {
    Rc(t.gen, t.marks)
  }

  /** Whether a CAS from the loaded word finds `rc_` unchanged; guard: fewer than 2^24
      updates since the load. */
  predicate Unchanged(t: Slot, rc: Rc) {
    t.gen < rc.gen + GENERATIONS && t.gen % GENERATIONS == rc.gen % GENERATIONS && t.marks == rc.marks
  }

  /** One access of `release_mark(slot, p, b)`. */
  ghost predicate DropStep(t: Slot, t': Slot, p: nat, b: Bit, d: Drop, d': Drop)
    requires p < U32
  {
    match d
    case DRc => t' == t && d' == DFlag(Now(t))
    case DFlag(rc) => t' == t && d' == if b in rc.marks && t.flag == Committed(p) then DCas(rc) else DDone
    case DCas(rc) =>
      || (t' == t && d' == DFlag(Now(t)))
      || (&& Unchanged(t, rc)
          && t' == t.(gen := t.gen + 1, marks := t.marks - {b})
          && d' == if t'.marks == {} then DFree else DDone)
    case DFree => t' == (if t.flag == Committed(p) then t.(flag := Released(p)) else t) && d' == DDone
    case DDone => false
  }

  // Writers ---------------------------------------------------------------------------

  /** `commit_multi` publishes the commit flag. */
  ghost predicate Commit(k: Setup, s: State, s': State, p: nat) {
    && k.Pos(p) < U32 && p in s.writers && s.writers[p].WOpen?
    && s' == s.(slot := s.slot.(flag := Committed(k.Pos(p)), open := false), writers := s.writers[p := WMarks])
  }

  ghost predicate LoadMarks(s: State, s': State, p: nat) {
    && p in s.writers && s.writers[p].WMarks?
    && s' == s.(writers := s.writers[p := WScan(s.slot.marks, {})])
  }

  /** One turn of `live_marks`: a mark from before its receiver started is stale. */
  function LookedUp(x: Writer, pos: nat, since: nat, b: Bit): Writer
    requires x.WScan?
  {
    WScan(x.todo - {b}, if AtOrAfter(pos, since) then x.stale else x.stale + {b})
  }

  /** Taking the next stale mark, and getting on with its drop. */
  function Taking(x: Writer, b: Bit): Writer
    requires x.WNext?
  {
    WDrop(b, x.rest - {b}, DRc)
  }

  function Dropping(x: Writer, d: Drop): Writer
    requires x.WDrop?
  {
    if d == DDone then WNext(x.rest) else x.(d := d)
  }

  ghost predicate LookUp(k: Setup, s: State, s': State, p: nat, b: Bit) {
    && p in s.writers && s.writers[p].WScan? && b in s.writers[p].todo && b in s.since
    && s' == s.(writers := s.writers[p := LookedUp(s.writers[p], k.Pos(p), s.since[b], b)])
  }

  ghost predicate EndScan(s: State, s': State, p: nat) {
    && p in s.writers && s.writers[p].WScan? && s.writers[p].todo == {}
    && s' == s.(writers := s.writers[p := WNext(s.writers[p].stale)])
  }

  ghost predicate NextMark(s: State, s': State, p: nat, b: Bit) {
    && p in s.writers && s.writers[p].WNext? && b in s.writers[p].rest
    && s' == s.(writers := s.writers[p := Taking(s.writers[p], b)])
  }

  ghost predicate WriterDrops(k: Setup, s: State, s': State, p: nat, d': Drop) {
    && k.Pos(p) < U32 && p in s.writers && s.writers[p].WDrop?
    && var x := s.writers[p];
       && DropStep(s.slot, s'.slot, k.Pos(p), x.b, x.d, d')
       && s' == s.(slot := s'.slot, writers := s.writers[p := Dropping(x, d')])
  }

  // Writers of later laps ---------------------------------------------------------------

  ghost predicate LoadRcFor(k: Setup, s: State, s': State, t: nat, lap: nat) {
    k.Pos(lap) < POSITIONS && s' == s.(claimants := s.claimants[t := KRc(lap, Now(s.slot))])
  }

  /** Marks of connected receivers, or a flag that is neither 0 nor the loaded index, send
      the writer back. */
  ghost predicate TestFree(k: Setup, s: State, s': State, t: nat) {
    && t in s.claimants && s.claimants[t].KRc?
    && var x := s.claimants[t];
       s' == s.(claimants := if x.rc.marks == {} && (s.slot.flag == k.Pos(x.lap) || s.slot.flag == 0)
                             then s.claimants[t := KFree(x.lap, x.rc.gen)] else s.claimants - {t})
  }

  ghost predicate ClaimFails(s: State, s': State, t: nat) {
    t in s.claimants && s.claimants[t].KFree? && s' == s.(claimants := s.claimants - {t})
  }

  /** The CAS finds `rc_` unchanged: the slot is claimed, for every connected receiver. */
  ghost predicate ClaimWins(k: Setup, s: State, s': State, t: nat) {
    && t in s.claimants && s.claimants[t].KFree?
    && var x := s.claimants[t];
       && Unchanged(s.slot, Rc(x.gen, {}))
       && s' == s.(slot := s.slot.(gen := s.slot.gen + 1, marks := k.Cc(), lap := x.lap, open := true),
                   writers := s.writers[x.lap := WOpen], claimants := s.claimants - {t})
  }

  // New owners ------------------------------------------------------------------------

  ghost predicate StoreSince(k: Setup, s: State, s': State, b: Bit) {
    && b in k.sigma && b in s.joiners && s.joiners[b].JSince?
    && s' == s.(since := s.since[b := k.sigma[b]], joiners := s.joiners[b := JFlag])
  }

  /** `release_stale` skips an uncommitted slot and one from `since` on. */
  predicate Skips(flag: nat, since: nat) {
    flag < U64 - U32 || flag >= U64 || AtOrAfter(U64 - 1 - flag, since)
  }

  ghost predicate LoadFlag(k: Setup, s: State, s': State, b: Bit) {
    && b in k.sigma && b in s.joiners && s.joiners[b].JFlag?
    && s' == s.(joiners := s.joiners[b :=
                  if Skips(s.slot.flag, k.sigma[b]) then JDone
                  else JDrop(U64 - 1 - s.slot.flag, DRc)])
  }

  ghost predicate JoinerDrops(s: State, s': State, b: Bit, d': Drop) {
    && b in s.joiners && s.joiners[b].JDrop? && s.joiners[b].p < U32
    && DropStep(s.slot, s'.slot, s.joiners[b].p, b, s.joiners[b].d, d')
    && s' == s.(slot := s'.slot, joiners := s.joiners[b := if d' == DDone then JDone else s.joiners[b].(d := d')])
  }

  // Readers (recv_multi) ------------------------------------------------------------------

  function Set(s: State, b: Bit, x: Reader): State {
    s.(readers := s.readers[b := x])
  }

  /** A new owner reads only once it has finished connecting. */
  ghost predicate SeeCommit(k: Setup, s: State, s': State, b: Bit) {
    && b in s.readers && s.readers[b].pc.Poll? && k.Pos(s.readers[b].next) < U32
         && (b in s.joiners ==> s.joiners[b].JDone?)
    && s.slot.flag == Committed(k.Pos(s.readers[b].next))
    && s' == Set(s, b, s.readers[b].(pc := LoadRc))
  }

  ghost predicate ReloadRc(s: State, s': State, b: Bit) {
    b in s.readers && s.readers[b].pc.LoadRc? && s' == Set(s, b, s.readers[b].(pc := Test(Now(s.slot))))
  }

  function Done(x: Reader): Reader {
    Reader(x.next + 1, Poll)
  }

  ghost predicate ReleaseUnmarked(k: Setup, s: State, s': State, b: Bit) {
    && b in s.readers && s.readers[b].pc.Test? && s.readers[b].pc.rc.marks == {}
    && s' == Set(s.(slot := s.slot.(flag := Released(k.Pos(s.readers[b].next)))), b, Done(s.readers[b]))
  }

  ghost predicate ReleaseEarly(k: Setup, s: State, s': State, b: Bit) {
    && b in s.readers && s.readers[b].pc.Test? && s.readers[b].pc.rc.marks != {} && s.readers[b].pc.rc.marks - {b} == {}
    && var x := s.readers[b];
       s' == Set(s.(slot := s.slot.(flag := Released(k.Pos(x.next)))), b, x.(pc := Cas(x.pc.rc)))
  }

  ghost predicate NotLast(s: State, s': State, b: Bit) {
    && b in s.readers && s.readers[b].pc.Test? && s.readers[b].pc.rc.marks - {b} != {}
    && s' == Set(s, b, s.readers[b].(pc := Cas(s.readers[b].pc.rc)))
  }

  ghost predicate ClearFails(s: State, s': State, b: Bit) {
    b in s.readers && s.readers[b].pc.Cas? && s' == Set(s, b, s.readers[b].(pc := LoadRc))
  }

  ghost predicate ClearWins(s: State, s': State, b: Bit) {
    && b in s.readers && s.readers[b].pc.Cas? && Unchanged(s.slot, s.readers[b].pc.rc)
    && s' == Set(s.(slot := s.slot.(gen := s.slot.gen + 1, marks := s.slot.marks - {b})), b, Done(s.readers[b]))
  }

  ghost predicate WriterStep(k: Setup, s: State, s': State, p: nat) {
    || Commit(k, s, s', p) || LoadMarks(s, s', p) || EndScan(s, s', p)
    || (exists b :: LookUp(k, s, s', p, b)) || (exists b :: NextMark(s, s', p, b))
    || (exists d :: WriterDrops(k, s, s', p, d))
  }

  ghost predicate JoinerStep(k: Setup, s: State, s': State, b: Bit) {
    StoreSince(k, s, s', b) || LoadFlag(k, s, s', b) || exists d :: JoinerDrops(s, s', b, d)
  }

  ghost predicate ReaderStep(k: Setup, s: State, s': State, b: Bit) {
    || SeeCommit(k, s, s', b) || ReloadRc(s, s', b) || ReleaseUnmarked(k, s, s', b) || ReleaseEarly(k, s, s', b)
    || NotLast(s, s', b) || ClearFails(s, s', b) || ClearWins(s, s', b)
  }

  ghost predicate ClaimStep(k: Setup, s: State, s': State, t: nat) {
    || (exists lap :: LoadRcFor(k, s, s', t, lap)) || TestFree(k, s, s', t) || ClaimFails(s, s', t)
    || ClaimWins(k, s, s', t)
  }

  ghost predicate Step(k: Setup, s: State, s': State) {
    || (exists t :: ClaimStep(k, s, s', t))
    || (exists p :: WriterStep(k, s, s', p))
    || (exists b :: JoinerStep(k, s, s', b))
    || (exists b :: ReaderStep(k, s, s', b))
  }

  ghost predicate StepAt(k: Setup, tr: seq<State>, j: int)
    requires 0 < j < |tr|
  {
    Step(k, tr[j - 1], tr[j])
  }

  ghost predicate Run(k: Setup, tr: seq<State>) {
    |tr| > 0 && Init(k, tr[0]) && forall j | 0 < j < |tr| :: StepAt(k, tr, j)
  }
}
