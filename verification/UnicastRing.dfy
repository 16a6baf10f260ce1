/** The multi-producer multi-consumer unicast ring of prod_cons.h, as a system of atomic
    steps: a commit index `ct`, a commit flag per slot, and a write cursor `wt` that any
    thread may help forward.

    Cursors are unbounded here and 32 bits wide in the code, so the steps compare them
    modulo 2^32; that no operation outlives 2^32 pushes is a guard (`Fresh`). `stage`,
    `log` and `popped` are history variables: no step branches on them. */
module UnicastRing {
  import opened RingWords

  type Tid = nat

  datatype Slot = Slot(flag: nat, header: Bytes, payload: Bytes)

  type Slots = q: seq<Slot> | |q| == RING witness seq(RING, _ => Slot(0, [], []))

  /** The life of a position: its producer writes it, flags it, some thread takes the
      flag, and the write cursor passes it. */
  datatype Stage = Writing(t: Tid) | Flagged | Taken(t: Tid) | Passed

  /** Where a thread stands: `P` is the claim loop of `push`, `H` its helping loop; `Q`
      is the top of `pop`, `E` its empty case and `C` its copy. */
  datatype Thread =
    | Idle
    | PCt(msg: Fragment)
    | PRd(msg: Fragment, c: nat)
    | PCas(msg: Fragment, c: nat)
    | PHeader(msg: Fragment, c: nat)
    | PPayload(msg: Fragment, c: nat)
    | PFlag(msg: Fragment, c: nat)
    | HFlag(c: nat)
    | HWt(c: nat, cac: nat)
    | HCas(c: nat)
    | HStore(c: nat)
    | QRd
    | QWt(r: nat)
    | EFlag(r: nat, c: nat)
    | ECas(c: nat)
    | EStore(c: nat)
    | CHeader(r: nat)
    | CPayload(r: nat, h: Bytes)
    | CCas(r: nat, m: Fragment)

  datatype State = State(
    rd: nat, wt: nat, ct: nat, slots: Slots, threads: map<Tid, Thread>,
    log: seq<Fragment>, stage: seq<Stage>, popped: seq<Fragment>)

  ghost predicate Init(s: State) {
    && s.rd == s.wt == s.ct == 0
    && (forall i | 0 <= i < RING :: s.slots[i].flag == 0)
    && (forall t | t in s.threads :: s.threads[t] == Idle)
    && s.log == [] && s.stage == [] && s.popped == []
  }

  /** `~static_cast<flag_t>(cur_ct)`: the flag of position `p`. */
  function Flag(p: nat): (f: nat)
    ensures f != 0
  {
    U64 - 1 - p % U32
  }

  function At(s: State, p: int): Slot {
    s.slots[Index(p)]
  }

  function SetSlot(s: State, p: int, e: Slot): State {
    s.(slots := s.slots[Index(p) := e])
  }

  function Set(s: State, t: Tid, x: Thread): State {
    s.(threads := s.threads[t := x])
  }

  /** Bookkeeping only: record the stage of a position. */
  function Mark(s: State, p: nat, g: Stage): State {
    if p < |s.stage| then s.(stage := s.stage[p := g]) else s
  }

  predicate Same(a: nat, b: nat) {
    a % U32 == b % U32
  }

  /** Fewer than 2^32 positions were claimed since `c` was loaded. */
  predicate Fresh(s: State, c: nat) {
    s.ct < c + U32
  }

  // push ------------------------------------------------------------------------------

  ghost predicate BeginPush(s: State, s': State, t: Tid, x: Thread, msg: Fragment) {
    x.Idle? && s' == Set(s, t, PCt(msg))
  }

  ghost predicate LoadCt(s: State, s': State, t: Tid, x: Thread) {
    x.PCt? && s' == Set(s, t, PRd(x.msg, s.ct))
  }

  /** Load the read cursor; return false when the ring is full. */
  ghost predicate TestFull(s: State, s': State, t: Tid, x: Thread) {
    x.PRd? && s' == Set(s, t, if Index(x.c + 1) == Index(s.rd) then Idle else PCas(x.msg, x.c))
  }

  ghost predicate ClaimFails(s: State, s': State, t: Tid, x: Thread) {
    x.PCas? && s' == Set(s, t, PCt(x.msg))
  }

  ghost predicate ClaimWins(s: State, s': State, t: Tid, x: Thread) {
    && x.PCas? && Fresh(s, x.c) && Same(s.ct, x.c)
    && s' == Set(s, t, PHeader(x.msg, x.c)).(ct := s.ct + 1, log := s.log + [x.msg], stage := s.stage + [Writing(t)])
  }

  ghost predicate WriteHeader(s: State, s': State, t: Tid, x: Thread) {
    x.PHeader? && s' == Set(SetSlot(s, x.c, At(s, x.c).(header := x.msg.header)), t, PPayload(x.msg, x.c))
  }

  ghost predicate WritePayload(s: State, s': State, t: Tid, x: Thread) {
    x.PPayload? && s' == Set(SetSlot(s, x.c, At(s, x.c).(payload := x.msg.payload)), t, PFlag(x.msg, x.c))
  }

  ghost predicate StoreFlag(s: State, s': State, t: Tid, x: Thread) {
    && x.PFlag?
    && s' == Mark(Set(SetSlot(s, x.c, At(s, x.c).(flag := Flag(x.c))), t, HFlag(x.c)), x.c, Flagged)
  }

  // the helping loop of push ------------------------------------------------------------

  ghost predicate LoadFlag(s: State, s': State, t: Tid, x: Thread) {
    x.HFlag? && s' == Set(s, t, HWt(x.c, At(s, x.c).flag))
  }

  /** Load the write cursor; go on only if it stands at `c` and `c` is flagged. */
  ghost predicate TestWt(s: State, s': State, t: Tid, x: Thread) {
    && x.HWt? && Fresh(s, x.c)
    && s' == Set(s, t, if Same(s.wt, x.c) && x.cac == Flag(x.c) then HCas(x.c) else Idle)
  }

  ghost predicate TakeFlag(s: State, s': State, t: Tid, x: Thread) {
    && x.HCas? && Fresh(s, x.c)
    && s' == if At(s, x.c).flag == Flag(x.c)
             then Mark(Set(SetSlot(s, x.c, At(s, x.c).(flag := 0)), t, HStore(x.c)), x.c, Taken(t))
             else Set(s, t, Idle)
  }

  ghost predicate Advance(s: State, s': State, t: Tid, x: Thread) {
    x.HStore? && s' == Mark(Set(s, t, HFlag(x.c + 1)).(wt := x.c + 1), x.c, Passed)
  }

  // pop ---------------------------------------------------------------------------------

  ghost predicate BeginPop(s: State, s': State, t: Tid, x: Thread) {
    x.Idle? && s' == Set(s, t, QRd)
  }

  ghost predicate LoadRd(s: State, s': State, t: Tid, x: Thread) {
    x.QRd? && s' == Set(s, t, QWt(s.rd))
  }

  ghost predicate LoadWt(s: State, s': State, t: Tid, x: Thread) {
    x.QWt? && s' == Set(s, t, if Index(x.r) == Index(s.wt) then EFlag(x.r, s.wt) else CHeader(x.r))
  }

  /** The position at the write cursor is not flagged: `pop` returns false. */
  ghost predicate Empty(s: State, s': State, t: Tid, x: Thread) {
    x.EFlag? && At(s, x.c).flag != Flag(x.c) && s' == Set(s, t, Idle)
  }

  ghost predicate SeeFlag(s: State, s': State, t: Tid, x: Thread) {
    x.EFlag? && At(s, x.c).flag == Flag(x.c) && s' == Set(s, t, ECas(x.c))
  }

  ghost predicate HelpFails(s: State, s': State, t: Tid, x: Thread) {
    x.ECas? && s' == Set(s, t, QRd)
  }

  ghost predicate HelpWins(s: State, s': State, t: Tid, x: Thread) {
    && x.ECas? && Fresh(s, x.c) && At(s, x.c).flag == Flag(x.c)
    && s' == Mark(Set(SetSlot(s, x.c, At(s, x.c).(flag := 0)), t, EStore(x.c)), x.c, Taken(t))
  }

  ghost predicate HelpStore(s: State, s': State, t: Tid, x: Thread) {
    x.EStore? && s' == Mark(Set(s, t, QRd).(wt := x.c + 1), x.c, Passed)
  }

  ghost predicate CopyHeader(s: State, s': State, t: Tid, x: Thread) {
    x.CHeader? && s' == Set(s, t, CPayload(x.r, At(s, x.r).header))
  }

  ghost predicate CopyPayload(s: State, s': State, t: Tid, x: Thread) {
    x.CPayload? && s' == Set(s, t, CCas(x.r, Fragment(x.h, At(s, x.r).payload)))
  }

  ghost predicate PopFails(s: State, s': State, t: Tid, x: Thread) {
    x.CCas? && s' == Set(s, t, QRd)
  }

  /** The CAS on `rd` wins: `pop` returns the bytes it copied. */
  ghost predicate PopWins(s: State, s': State, t: Tid, x: Thread) {
    && x.CCas? && Fresh(s, x.r) && Same(s.rd, x.r)
    && s' == Set(s, t, Idle).(rd := s.rd + 1, popped := s.popped + [x.m])
  }

  ghost predicate PushStep(s: State, s': State, t: Tid, x: Thread) {
    || (exists msg :: BeginPush(s, s', t, x, msg))
    || LoadCt(s, s', t, x) || TestFull(s, s', t, x) || ClaimFails(s, s', t, x) || ClaimWins(s, s', t, x)
    || WriteHeader(s, s', t, x) || WritePayload(s, s', t, x) || StoreFlag(s, s', t, x)
    || LoadFlag(s, s', t, x) || TestWt(s, s', t, x) || TakeFlag(s, s', t, x) || Advance(s, s', t, x)
  }

  ghost predicate PopStep(s: State, s': State, t: Tid, x: Thread) {
    || BeginPop(s, s', t, x) || LoadRd(s, s', t, x) || LoadWt(s, s', t, x) || Empty(s, s', t, x)
    || SeeFlag(s, s', t, x) || HelpFails(s, s', t, x) || HelpWins(s, s', t, x) || HelpStore(s, s', t, x)
    || CopyHeader(s, s', t, x) || CopyPayload(s, s', t, x) || PopFails(s, s', t, x) || PopWins(s, s', t, x)
  }

  /** Thread `t` takes one step. */
  ghost predicate StepOf(s: State, s': State, t: Tid) {
    t in s.threads && (PushStep(s, s', t, s.threads[t]) || PopStep(s, s', t, s.threads[t]))
  }

  ghost predicate Step(s: State, s': State) {
    exists t :: StepOf(s, s', t)
  }

  ghost predicate StepAt(tr: seq<State>, k: int)
    requires 0 < k < |tr|
  {
    Step(tr[k - 1], tr[k])
  }

  /** A finite run from an empty ring. */
  ghost predicate Run(tr: seq<State>) {
    |tr| > 0 && Init(tr[0]) && forall k | 0 < k < |tr| :: StepAt(tr, k)
  }
}
