/** The single-writer broadcast ring behind `Route`, as a system of atomic steps: one
    writer, and receivers that join and leave while it pushes and reuse each other's
    connection bits.

    Joining is split into its atomic steps (cursor read, bit claim, `since` store, and
    every load of `adopt_cursor`), so pushes fall between them. The hypotheses on a run
    are guards:

    - the epoch does not change, so there is no forced push (and no epoch here);
    - `StampWins` and `LoadCursor`: a receiver that claims its bit between a push's mask
      load and its publish loads the cursor it starts from after that publish;
    - `ClaimBit`: no element pushed between the cursor read and the claim carries the
      claimed bit (true if the bit was free all that time);
    - `ClaimBit` and `Publish`: fewer than 256 pushes during one connect, fewer than 2^31
      during one connection (`live_marks` compares as i32).

    `pos`, `first`, `log` and `stamps` are history variables: no code branches on them. */
module RouteRing {
  import opened RingWords

  type Bit = b: nat | b < 32
  type Rid = nat

  /** `pos` is the position the slot holds (negative: none yet). */
  datatype Slot = Slot(marks: set<Bit>, header: Bytes, payload: Bytes, pos: int)

  type Slots = q: seq<Slot> | |q| == RING witness seq(RING, _ => Slot({}, [], [], -1))

  /** The `since` column of the owner table. */
  type Table = q: seq<nat> | |q| == 32 witness seq(32, _ => 0)

  /** Where the writer stands in `push_fragment`. `WScan` is the loop of `live_marks`:
      `todo` are the bits not looked up yet, `live` those found live. */
  datatype Writer =
    | WIdle
    | WLoop(msg: Fragment)
    | WCc(msg: Fragment, cc: set<Bit>)
    | WWt(msg: Fragment, cc: set<Bit>, w: nat)
    | WScan(msg: Fragment, cc: set<Bit>, w: nat, rc: set<Bit>, todo: set<Bit>, live: set<Bit>)
    | WCas(msg: Fragment, cc: set<Bit>, w: nat, rc: set<Bit>)
    | WHeader(msg: Fragment, cc: set<Bit>, w: nat)
    | WPayload(msg: Fragment, cc: set<Bit>, w: nat)
    | WPublish(msg: Fragment, cc: set<Bit>, w: nat)

  datatype Phase =
    | Away
    | CursorRead
    | Claimed
    | SinceStored
    | Walking(n: nat)
    | Poll
    | Header
    | Payload(h: Bytes)
    | LoadRc(m: Fragment)
    | Cas(m: Fragment, rc: set<Bit>)

  /** `first` is the first position stamped by a push that loaded the connection mask
      after the receiver's claim; `start` is where the receiver began to read. */
  datatype Receiver = Receiver(phase: Phase, bit: Bit, since: nat, first: nat, start: nat, cur: nat,
      popped: seq<Fragment>)

  datatype State = State(
    cc: set<Bit>, wt: nat, since: Table, slots: Slots, writer: Writer, receivers: map<Rid, Receiver>,
    log: seq<Fragment>, stamps: seq<set<Bit>>)

  ghost predicate Init(s: State) {
    && s.cc == {} && s.wt == 0 && s.log == [] && s.stamps == []
    && (forall b: Bit :: s.since[b] == 0)
    && (forall i | 0 <= i < RING :: s.slots[i].marks == {} && s.slots[i].pos == i - RING)
    && s.writer == WIdle
    && (forall r | r in s.receivers :: s.receivers[r].phase == Away)
  }

  function At(s: State, p: int): Slot {
    s.slots[Index(p)]
  }

  function SetSlot(s: State, p: int, t: Slot): State {
    s.(slots := s.slots[Index(p) := t])
  }

  function Set(s: State, r: Rid, x: Receiver): State {
    s.(receivers := s.receivers[r := x])
  }

  /** The receiver holds a connection bit. */
  predicate Held(x: Receiver) {
    !x.phase.Away? && !x.phase.CursorRead?
  }

  /** The receiver holds a bit but has not chosen its start yet. */
  predicate Joining(x: Receiver) {
    x.phase.Claimed? || x.phase.SinceStored? || x.phase.Walking?
  }

  /** A push has loaded the connection mask and not published its element. */
  predicate InWindow(w: Writer) {
    !w.WIdle? && !w.WLoop?
  }

  /** The writer's slot carries its new marks but is not published. */
  predicate Stamped(w: Writer) {
    w.WHeader? || w.WPayload? || w.WPublish?
  }

  /** A mark found on the slot of `w` counts: its owner started at or before the position
      one lap before. */
  predicate Live(w: nat, since: nat) {
    AtOrAfter(w - RING, since)
  }

  // The writer ------------------------------------------------------------------------

  ghost predicate BeginPush(s: State, s': State, msg: Fragment) {
    s.writer.WIdle? && s' == s.(writer := WLoop(msg))
  }

  ghost predicate LoadCc(s: State, s': State) {
    s.writer.WLoop? && s' == s.(writer := if s.cc == {} then WIdle else WCc(s.writer.msg, s.cc))
  }

  ghost predicate LoadWt(s: State, s': State) {
    s.writer.WCc? && s' == s.(writer := WWt(s.writer.msg, s.writer.cc, s.wt))
  }

  ghost predicate LoadMarks(s: State, s': State) {
    var x := s.writer;
    x.WWt? && var rc := At(s, x.w).marks; s' == s.(writer := WScan(x.msg, x.cc, x.w, rc, x.cc * rc, {}))
  }

  ghost predicate LookUp(s: State, s': State, b: Bit) {
    var x := s.writer;
    && x.WScan? && b in x.todo
    && s' == s.(writer := x.(todo := x.todo - {b}, live := if Live(x.w, s.since[b]) then x.live + {b} else x.live))
  }

  /** A live mark holds the writer up (it polls and starts over); otherwise it may claim. */
  ghost predicate EndScan(s: State, s': State) {
    var x := s.writer;
    && x.WScan? && x.todo == {}
    && s' == s.(writer := if x.live != {} then WLoop(x.msg) else WCas(x.msg, x.cc, x.w, x.rc))
  }

  ghost predicate StampFails(s: State, s': State) {
    s.writer.WCas? && s' == s.(writer := WLoop(s.writer.msg))
  }

  ghost predicate StampWins(s: State, s': State) {
    var x := s.writer;
    && x.WCas? && At(s, x.w).marks == x.rc
    && (forall r | r in s.receivers && Missed(s.receivers[r], x.cc) ::
         s.receivers[r].phase.Claimed? || s.receivers[r].phase.SinceStored?)
    && s' == SetSlot(s, x.w, At(s, x.w).(marks := x.cc, pos := x.w))
             .(writer := WHeader(x.msg, x.cc, x.w), log := s.log + [x.msg], stamps := s.stamps + [x.cc],
                 receivers := Skip(s, x.cc))
  }

  /** The receiver connected after the push loaded its mask. */
  predicate Missed(x: Receiver, cc: set<Bit>) {
    Held(x) && x.bit !in cc
  }

  /** Receivers that the element being stamped misses start after it. */
  function Skip(s: State, cc: set<Bit>): map<Rid, Receiver> {
    map r | r in s.receivers ::
        if Missed(s.receivers[r], cc) then s.receivers[r].(first := s.wt + 1) else s.receivers[r]
  }

  ghost predicate WriteHeader(s: State, s': State) {
    var x := s.writer;
    && x.WHeader?
    && s' == SetSlot(s, x.w, At(s, x.w).(header := x.msg.header)).(writer := WPayload(x.msg, x.cc, x.w))
  }

  ghost predicate WritePayload(s: State, s': State) {
    var x := s.writer;
    && x.WPayload?
    && s' == SetSlot(s, x.w, At(s, x.w).(payload := x.msg.payload)).(writer := WPublish(x.msg, x.cc, x.w))
  }

  ghost predicate Publish(s: State, s': State) {
    && s.writer.WPublish?
    && (forall r | r in s.receivers && Joining(s.receivers[r]) :: s.wt + 1 < s.receivers[r].since + RING)
    && (forall r | r in s.receivers && Held(s.receivers[r]) :: s.wt + 1 < s.receivers[r].since + POSITIONS)
    && s' == s.(writer := WIdle, wt := s.wt + 1)
  }

  // A receiver that joins and leaves ----------------------------------------------------

  ghost predicate ReadCursor(s: State, s': State, r: Rid, x: Receiver) {
    x.phase.Away? && s' == Set(s, r, x.(phase := CursorRead, since := s.wt))
  }

  ghost predicate ClaimBit(s: State, s': State, r: Rid, x: Receiver, b: Bit) {
    && x.phase.CursorRead? && b !in s.cc
    && s.wt < x.since + RING
    && (forall p | x.since <= p < s.wt && p < |s.stamps| :: b !in s.stamps[p])
    && (InWindow(s.writer) ==> b !in s.writer.cc)
    && s' == Set(s.(cc := s.cc + {b}), r,
                 Receiver(Claimed, b, x.since, if Stamped(s.writer) then s.wt + 1 else s.wt, 0, 0, []))
  }

  ghost predicate StoreSince(s: State, s': State, r: Rid, x: Receiver) {
    x.phase.Claimed? && s' == Set(s.(since := s.since[x.bit := x.since]), r, x.(phase := SinceStored))
  }

  ghost predicate LoadCursor(s: State, s': State, r: Rid, x: Receiver) {
    && x.phase.SinceStored? && (Stamped(s.writer) ==> x.bit in s.writer.cc)
    && s' == Set(s, r, x.(phase := Walking(0), cur := s.wt))
  }

  /** `cur.wrapping_sub(1)`. */
  function Before(cur: nat): nat {
    if cur == 0 then U32 - 1 else cur - 1
  }

  /** One turn of the loop of `adopt_cursor`. */
  ghost predicate Walk(s: State, s': State, r: Rid, x: Receiver) {
    && x.phase.Walking?
    && s' == Set(s, r,
                 if x.phase.n == RING || x.cur == x.since || x.bit !in At(s, Before(x.cur)).marks
                 then x.(phase := Poll, start := x.cur)
                 else x.(phase := Walking(x.phase.n + 1), cur := Before(x.cur)))
  }

  ghost predicate Leave(s: State, s': State, r: Rid, x: Receiver) {
    x.phase.Poll? && s' == Set(s.(cc := s.cc - {x.bit}), r, x.(phase := Away))
  }

  // A receiver that pops ------------------------------------------------------------------

  ghost predicate SeeElement(s: State, s': State, r: Rid, x: Receiver) {
    x.phase.Poll? && s.wt != x.cur && s' == Set(s, r, x.(phase := Header))
  }

  ghost predicate ReadHeader(s: State, s': State, r: Rid, x: Receiver) {
    x.phase.Header? && s' == Set(s, r, x.(phase := Payload(At(s, x.cur).header)))
  }

  ghost predicate ReadPayload(s: State, s': State, r: Rid, x: Receiver) {
    x.phase.Payload? && s' == Set(s, r, x.(phase := LoadRc(Fragment(x.phase.h, At(s, x.cur).payload))))
  }

  function Popped(x: Receiver, m: Fragment): Receiver {
    x.(phase := Poll, cur := x.cur + 1, popped := x.popped + [m])
  }

  ghost predicate ReloadRc(s: State, s': State, r: Rid, x: Receiver) {
    && x.phase.LoadRc?
    && s' == Set(s, r, if At(s, x.cur).marks == {} then Popped(x, x.phase.m)
         else x.(phase := Cas(x.phase.m, At(s, x.cur).marks)))
  }

  ghost predicate ClearFails(s: State, s': State, r: Rid, x: Receiver) {
    x.phase.Cas? && s' == Set(s, r, x.(phase := LoadRc(x.phase.m)))
  }

  ghost predicate ClearWins(s: State, s': State, r: Rid, x: Receiver) {
    && x.phase.Cas? && At(s, x.cur).marks == x.phase.rc
    && s' == Set(SetSlot(s, x.cur, At(s, x.cur).(marks := x.phase.rc - {x.bit})), r, Popped(x, x.phase.m))
  }

  ghost predicate WriterStep(s: State, s': State) {
    || (exists msg :: BeginPush(s, s', msg)) || (exists b :: LookUp(s, s', b))
    || LoadCc(s, s') || LoadWt(s, s') || LoadMarks(s, s') || EndScan(s, s') || StampFails(s, s')
    || StampWins(s, s') || WriteHeader(s, s') || WritePayload(s, s') || Publish(s, s')
  }

  ghost predicate ReceiverStep(s: State, s': State, r: Rid, x: Receiver) {
    || ReadCursor(s, s', r, x) || (exists b :: ClaimBit(s, s', r, x, b)) || StoreSince(s, s', r, x)
    || LoadCursor(s, s', r, x) || Walk(s, s', r, x) || Leave(s, s', r, x)
    || SeeElement(s, s', r, x) || ReadHeader(s, s', r, x) || ReadPayload(s, s', r, x)
    || ReloadRc(s, s', r, x) || ClearFails(s, s', r, x) || ClearWins(s, s', r, x)
  }

  ghost predicate Step(s: State, s': State) {
    WriterStep(s, s') || exists r | r in s.receivers :: ReceiverStep(s, s', r, s.receivers[r])
  }

  ghost predicate StepAt(tr: seq<State>, k: int)
    requires 0 < k < |tr|
  {
    Step(tr[k - 1], tr[k])
  }

  /** A finite run from a fresh ring. */
  ghost predicate Run(tr: seq<State>) {
    |tr| > 0 && Init(tr[0]) && forall k | 0 < k < |tr| :: StepAt(tr, k)
  }
}
