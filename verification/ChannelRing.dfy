/** The multi-writer broadcast ring behind `Channel`, as a system of atomic steps.

    Every load, store and compare-and-swap of `push_fragment_multi` and `recv_multi` is
    one step, so a run is any interleaving of any number of writers and readers. A weak
    compare-and-swap may fail for no reason. The hypotheses on a run are guards here:

    - the receivers `cc` are connected before the first push and do not change
      (`ChannelMembers` lifts this);
    - the epoch does not change (the Rust channel never bumps it);
    - positions stay below 2^31 (guard of the claim);
    - fewer than 2^24 updates of one `rc_` fall between a load and its CAS (guard of
      both CAS steps; the comparison itself is of the truncated generation).

    `pos`, `open`, `log` and `start` (the position a receiver starts at) are history
    variables: no step branches on them. */
module ChannelRing {
  import opened RingWords

  type Bit = nat
  type Tid = nat

  /** The three regions of `rc_`: epoch byte, read generation, per-reader marks. */
  datatype Rc = Rc(epoch: nat, gen: nat, marks: set<Bit>)

  /** `pos` is the last position claimed on the slot (negative: none yet), `open` says
      that its writer has not committed it. */
  datatype Slot = Slot(rc: Rc, flag: nat, header: Bytes, payload: Bytes, pos: int, open: bool)

  type Slots = q: seq<Slot> | |q| == RING witness seq(RING, _ => Slot(Rc(0, 0, {}), 0, [], [], -1, false))

  /** Where a writer stands in `push_fragment_multi`, with the values it has loaded. */
  datatype Writer =
    | WIdle
    | WLoop(msg: Fragment, ep: nat)
    | WCc(msg: Fragment, ep: nat, cc: set<Bit>)
    | WCt(msg: Fragment, ep: nat, cc: set<Bit>, c: nat)
    | WRc(msg: Fragment, ep: nat, cc: set<Bit>, c: nat, rc: Rc)
    | WHeld(msg: Fragment, ep: nat)
    | WFree(msg: Fragment, ep: nat, cc: set<Bit>, c: nat, rc: Rc)
    | WClaimed(msg: Fragment, ep: nat, c: nat)
    | WOwner(msg: Fragment, c: nat)
    | WHeader(msg: Fragment, c: nat)
    | WPayload(msg: Fragment, c: nat)
    | WCommit(msg: Fragment, c: nat)
    | WMarks(c: nat)

  /** Where a reader stands in `recv_multi`. */
  datatype ReaderPc =
    | Poll
    | Header
    | Payload(h: Bytes)
    | LoadRc(m: Fragment)
    | Test(m: Fragment, rc: Rc)
    | Cas(m: Fragment, rc: Rc)

  datatype Reader = Reader(cur: nat, pc: ReaderPc, popped: seq<Fragment>)

  datatype Claim = Claim(writer: Tid, msg: Fragment)

  datatype State = State(
    cc: set<Bit>, epoch: nat, ct: nat, since: map<Bit, nat>,
    slots: Slots, writers: map<Tid, Writer>, readers: map<Bit, Reader>,
    log: seq<Claim>, start: map<Bit, nat>)

  ghost predicate Init(s: State) {
    && s.cc != {}
    && s.readers.Keys == s.cc && s.since.Keys == s.cc && s.start.Keys == s.cc
    && s.ct == 0 && s.log == []
    && (forall i | 0 <= i < RING ::
          var t := s.slots[i]; t.rc.marks == {} && t.rc.epoch == s.epoch && t.flag == 0 && t.pos == i - RING && !t.open)
    && (forall w | w in s.writers :: s.writers[w] == WIdle)
    && (forall r | r in s.cc :: s.readers[r] == Reader(0, Poll, []) && s.since[r] == 0 && s.start[r] == 0)
  }

  /** The slot a position lives in. */
  function At(s: State, p: int): Slot {
    s.slots[Index(p)]
  }

  function SetSlot(s: State, p: int, t: Slot): State {
    s.(slots := s.slots[Index(p) := t])
  }

  function SetWriter(s: State, w: Tid, pc: Writer): State {
    s.(writers := s.writers[w := pc])
  }

  function SetReader(s: State, r: Bit, x: Reader): State {
    s.(readers := s.readers[r := x])
  }

  function SetPc(s: State, r: Bit, x: Reader, pc: ReaderPc): State {
    SetReader(s, r, x.(pc := pc))
  }

  /** Whether a CAS from the loaded word `was` finds the word unchanged; the generation
      is 24 bits wide. */
  predicate SameRc(now: Rc, was: Rc) {
    now.epoch == was.epoch && now.marks == was.marks && now.gen % GENERATIONS == was.gen % GENERATIONS
  }

  // Steps of a writer ---------------------------------------------------------------

  ghost predicate Begin(s: State, s': State, w: Tid, x: Writer, msg: Fragment) {
    x.WIdle? && s' == SetWriter(s, w, WLoop(msg, s.epoch))
  }

  /** No receiver, or held up past the deadline: the push gives up. */
  ghost predicate GiveUp(s: State, s': State, w: Tid, x: Writer) {
    (x.WHeld? || (x.WCc? && x.cc == {})) && s' == SetWriter(s, w, WIdle)
  }

  ghost predicate LoadCc(s: State, s': State, w: Tid, x: Writer) {
    x.WLoop? && s' == SetWriter(s, w, WCc(x.msg, x.ep, s.cc))
  }

  ghost predicate LoadCt(s: State, s': State, w: Tid, x: Writer) {
    x.WCc? && x.cc != {} && s' == SetWriter(s, w, WCt(x.msg, x.ep, x.cc, s.ct))
  }

  ghost predicate LoadSlotRc(s: State, s': State, w: Tid, x: Writer) {
    x.WCt? && s' == SetWriter(s, w, WRc(x.msg, x.ep, x.cc, x.c, At(s, x.c).rc))
  }

  /** Decide from the loaded `rc_`, loading the flag when no mark is left. */
  ghost predicate Decide(s: State, s': State, w: Tid, x: Writer) {
    && x.WRc?
    && s' == SetWriter(s, w,
                       if x.cc * x.rc.marks != {} && x.rc.epoch == x.ep then WHeld(x.msg, x.ep)
                       else if x.rc.marks == {} && At(s, x.c).flag !in {x.c, 0} then WHeld(x.msg, x.ep)
                       else WFree(x.msg, x.ep, x.cc, x.c, x.rc))
  }

  /** Held up before the deadline: start over. */
  ghost predicate Retry(s: State, s': State, w: Tid, x: Writer) {
    x.WHeld? && s' == SetWriter(s, w, WLoop(x.msg, x.ep))
  }

  ghost predicate ClaimFails(s: State, s': State, w: Tid, x: Writer) {
    x.WFree? && s' == SetWriter(s, w, WLoop(x.msg, x.ep))
  }

  ghost predicate ClaimWins(s: State, s': State, w: Tid, x: Writer) {
    && x.WFree?
    && var t := At(s, x.c);
       && t.rc.gen < x.rc.gen + GENERATIONS
       && |s.log| < POSITIONS
       && SameRc(t.rc, x.rc)
       && s' == SetWriter(SetSlot(s, x.c, t.(rc := Rc(x.ep, t.rc.gen + 1, x.cc), pos := x.c, open := true)),
                          w, WClaimed(x.msg, x.ep, x.c)).(log := s.log + [Claim(w, x.msg)])
  }

  /** The epoch is loaded again after the claim; a moved epoch sends the writer back. */
  ghost predicate Revalidate(s: State, s': State, w: Tid, x: Writer) {
    x.WClaimed? && s' == SetWriter(s, w, if s.epoch == x.ep then WOwner(x.msg, x.c) else WLoop(x.msg, s.epoch))
  }

  ghost predicate AdvanceCt(s: State, s': State, w: Tid, x: Writer) {
    x.WOwner? && s' == SetWriter(s, w, WHeader(x.msg, x.c)).(ct := (x.c + 1) % U32)
  }

  ghost predicate WriteHeader(s: State, s': State, w: Tid, x: Writer) {
    x.WHeader? && s' == SetWriter(SetSlot(s, x.c, At(s, x.c).(header := x.msg.header)), w, WPayload(x.msg, x.c))
  }

  ghost predicate WritePayload(s: State, s': State, w: Tid, x: Writer) {
    x.WPayload? && s' == SetWriter(SetSlot(s, x.c, At(s, x.c).(payload := x.msg.payload)), w, WCommit(x.msg, x.c))
  }

  ghost predicate Commit(s: State, s': State, w: Tid, x: Writer) {
    && x.WCommit? && x.c < U32
    && s' == SetWriter(SetSlot(s, x.c, At(s, x.c).(flag := Committed(x.c), open := false)), w, WMarks(x.c))
  }

  /** The marks `commit_multi` would drop: those of receivers that started after `c`. */
  function StaleMarks(s: State, c: nat): set<Bit> {
    set b | b in At(s, c).rc.marks && b in s.since && s.since[b] > c
  }

  /** After the commit: there is no stale mark to drop (lemma `CommitDropsNothing`). */
  ghost predicate FinishCommit(s: State, s': State, w: Tid, x: Writer) {
    x.WMarks? && StaleMarks(s, x.c) == {} && s' == SetWriter(s, w, WIdle)
  }

  // Steps of a reader ---------------------------------------------------------------

  ghost predicate SeeCommit(s: State, s': State, r: Bit, x: Reader) {
    x.pc.Poll? && x.cur < U32 && At(s, x.cur).flag == Committed(x.cur) && s' == SetPc(s, r, x, Header)
  }

  ghost predicate ReadHeader(s: State, s': State, r: Bit, x: Reader) {
    x.pc.Header? && s' == SetPc(s, r, x, Payload(At(s, x.cur).header))
  }

  ghost predicate ReadPayload(s: State, s': State, r: Bit, x: Reader) {
    x.pc.Payload? && s' == SetPc(s, r, x, LoadRc(Fragment(x.pc.h, At(s, x.cur).payload)))
  }

  ghost predicate ReloadRc(s: State, s': State, r: Bit, x: Reader) {
    x.pc.LoadRc? && s' == SetPc(s, r, x, Test(x.pc.m, At(s, x.cur).rc))
  }

  function Popped(x: Reader, m: Fragment): Reader {
    Reader(x.cur + 1, Poll, x.popped + [m])
  }

  /** No mark left at all: release the slot and move on. */
  ghost predicate ReleaseUnmarked(s: State, s': State, r: Bit, x: Reader) {
    && x.pc.Test? && x.pc.rc.marks == {}
    && s' == SetReader(SetSlot(s, x.cur, At(s, x.cur).(flag := Released(x.cur))), r, Popped(x, x.pc.m))
  }

  /** The last reader stores the release flag before it clears its mark. */
  ghost predicate ReleaseEarly(s: State, s': State, r: Bit, x: Reader) {
    && x.pc.Test? && x.pc.rc.marks != {} && x.pc.rc.marks - {r} == {}
    && s' == SetPc(SetSlot(s, x.cur, At(s, x.cur).(flag := Released(x.cur))), r, x, Cas(x.pc.m, x.pc.rc))
  }

  ghost predicate NotLast(s: State, s': State, r: Bit, x: Reader) {
    x.pc.Test? && x.pc.rc.marks - {r} != {} && s' == SetPc(s, r, x, Cas(x.pc.m, x.pc.rc))
  }

  ghost predicate ClearFails(s: State, s': State, r: Bit, x: Reader) {
    x.pc.Cas? && s' == SetPc(s, r, x, LoadRc(x.pc.m))
  }

  ghost predicate ClearWins(s: State, s': State, r: Bit, x: Reader) {
    && x.pc.Cas?
    && var t := At(s, x.cur);
       && t.rc.gen < x.pc.rc.gen + GENERATIONS
       && SameRc(t.rc, x.pc.rc)
       && s' == SetReader(SetSlot(s, x.cur, t.(rc := Rc(t.rc.epoch, t.rc.gen + 1, t.rc.marks - {r}))),
                          r, Popped(x, x.pc.m))
  }

  /** The steps of a writer that change nothing shared. */
  ghost predicate WriterLoads(s: State, s': State, w: Tid, x: Writer) {
    || (exists msg :: Begin(s, s', w, x, msg))
    || GiveUp(s, s', w, x) || LoadCc(s, s', w, x) || LoadCt(s, s', w, x) || LoadSlotRc(s, s', w, x)
    || Decide(s, s', w, x) || Retry(s, s', w, x) || ClaimFails(s, s', w, x) || Revalidate(s, s', w, x)
    || FinishCommit(s, s', w, x)
  }

  ghost predicate WriterStores(s: State, s': State, w: Tid, x: Writer) {
    || ClaimWins(s, s', w, x) || AdvanceCt(s, s', w, x) || WriteHeader(s, s', w, x) || WritePayload(s, s', w, x)
    || Commit(s, s', w, x)
  }

  ghost predicate WriterStep(s: State, s': State, w: Tid, x: Writer) {
    WriterLoads(s, s', w, x) || WriterStores(s, s', w, x)
  }

  /** The steps of a reader that change nothing shared. */
  ghost predicate ReaderLoads(s: State, s': State, r: Bit, x: Reader) {
    || SeeCommit(s, s', r, x) || ReadHeader(s, s', r, x) || ReadPayload(s, s', r, x) || ReloadRc(s, s', r, x)
    || NotLast(s, s', r, x) || ClearFails(s, s', r, x)
  }

  ghost predicate ReaderStores(s: State, s': State, r: Bit, x: Reader) {
    ReleaseUnmarked(s, s', r, x) || ReleaseEarly(s, s', r, x) || ClearWins(s, s', r, x)
  }

  ghost predicate ReaderStep(s: State, s': State, r: Bit, x: Reader) {
    ReaderLoads(s, s', r, x) || ReaderStores(s, s', r, x)
  }

  ghost predicate Step(s: State, s': State) {
    || (exists w | w in s.writers :: WriterStep(s, s', w, s.writers[w]))
    || (exists r | r in s.readers :: ReaderStep(s, s', r, s.readers[r]))
  }

  ghost predicate StepAt(tr: seq<State>, k: int)
    requires 0 < k < |tr|
  {
    Step(tr[k - 1], tr[k])
  }

  /** A finite run from an empty ring. */
  ghost predicate Run(tr: seq<State>) {
    |tr| > 0 && Init(tr[0]) && forall k | 0 < k < |tr| :: StepAt(tr, k)
  }
}
