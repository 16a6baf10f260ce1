/** What the unicast ring does and does not refuse: exactly when `push` reports full and
    `pop` looks for an empty ring, that a push or a pop that runs alone gets done, and runs
    in which the verdicts are wrong. */
module UnicastProgress {
  import opened RingWords
  import opened UnicastRing
  import opened UnicastOrder
  import opened UnicastCalls

  // The full test ---------------------------------------------------------------------------

  /** Which indices up to `ct` stand just behind the read cursor in the ring. */
  lemma JustBehind(c: nat, rd: nat, ct: nat)
    requires c <= ct < rd + RING
    ensures Index(c + 1) == Index(rd) <==> (c == ct && ct - rd == RING - 1) || (c < rd && (rd - c - 1) % RING == 0)
  {
    assert Index(c + 1) == Index(rd) <==> (rd - c - 1) % RING == 0;
    if c >= rd && c + 1 - rd < RING { assert (rd - c - 1) % RING != 0; }
  }

  /** Exactly when `push` reports full, having loaded commit index `x.c`: the ring holds 255
      elements and the index is current, or the index is stale and the read cursor has since
      come to stand just behind it, a whole number of laps on. */
  lemma FullIsExact(tr: seq<State>, k: nat, s': State, t: Tid)
    requires Run(tr) && k < |tr| && t in tr[k].threads
    requires tr[k].threads[t].PRd? && TestFull(tr[k], s', t, tr[k].threads[t])
    ensures var s, c := tr[k], tr[k].threads[t].c;
            s'.threads[t] == Idle <==> || (c == s.ct && s.ct - s.rd == RING - 1)
                                       || (c < s.rd && (s.rd - c - 1) % RING == 0)
  {
    RunInv(tr, k);
    assert ThreadOk(tr[k], t);
    JustBehind(tr[k].threads[t].c, tr[k].rd, tr[k].ct);
  }

  /** Exactly when `pop`, having loaded read cursor `x.r`, takes the ring for empty unless the
      position at the write cursor is flagged: the cursor is current and nothing is
      published, or it is stale and the write cursor a whole number of laps on. */
  lemma EmptyBranchIsExact(tr: seq<State>, k: nat, s': State, t: Tid)
    requires Run(tr) && k < |tr| && t in tr[k].threads
    requires tr[k].threads[t].QWt? && LoadWt(tr[k], s', t, tr[k].threads[t])
    ensures var s, r := tr[k], tr[k].threads[t].r;
            s'.threads[t].EFlag? <==> || (r == s.rd && s.rd == s.wt)
                                      || (r < s.rd && (s.wt - r) % RING == 0)
  {
    RunInv(tr, k);
    var s, r := tr[k], tr[k].threads[t].r;
    assert ThreadOk(s, t);
    assert Index(r) == Index(s.wt) <==> (s.wt - r) % RING == 0;
  }

  /** And exactly when that branch reports empty: the position it loaded is not the write
      cursor's any more, or is not flagged. */
  lemma EmptyVerdictIsExact(tr: seq<State>, k: nat, t: Tid)
    requires Run(tr) && k < |tr| && t in tr[k].threads
    requires tr[k].threads[t].EFlag? && Fresh(tr[k], tr[k].threads[t].c)
    ensures var s, c := tr[k], tr[k].threads[t].c;
            At(s, c).flag == Flag(c) <==> c == s.wt < s.ct && c < |s.stage| && s.stage[c].Flagged?
  {
    var s, c := tr[k], tr[k].threads[t].c;
    RunInv(tr, k);
    assert ThreadOk(s, t);
    if At(s, c).flag == Flag(c) { MatchingFlag(s, c); }
    if c == s.wt { assert FlagOk(s, c); }
  }

  // Running alone -----------------------------------------------------------------------------

  ghost predicate StepOfAt(tr: seq<State>, k: int, t: Tid)
    requires 0 < k < |tr|
  {
    StepOf(tr[k - 1], tr[k], t)
  }

  /** `tr` is a run that extends `from` by steps of thread `t` alone and ends in `s`. */
  ghost predicate Solo(from: seq<State>, tr: seq<State>, s: State, t: Tid) {
    && Run(from) && from <= tr && Run(tr) && tr[|tr| - 1] == s
    && forall k | |from| <= k < |tr| :: StepOfAt(tr, k, t)
  }

  lemma Goes(from: seq<State>, tr: seq<State>, p: State, s: State, t: Tid) returns (tr': seq<State>)
    requires Solo(from, tr, p, t) && StepOf(p, s, t)
    ensures Solo(from, tr', s, t)
  {
    tr' := tr + [s];
    forall k | 0 < k < |tr'| ensures StepAt(tr', k) { if k < |tr| { assert StepAt(tr, k); } }
    forall k | |from| <= k < |tr'| ensures StepOfAt(tr', k, t) { if k < |tr| { assert StepOfAt(tr, k, t); } }
  }

  lemma Pops(from: seq<State>, tr: seq<State>, p: State, s: State, t: Tid) returns (tr': seq<State>)
    requires Solo(from, tr, p, t) && t in p.threads && PopStep(p, s, t, p.threads[t])
    ensures Solo(from, tr', s, t)
  {
    tr' := Goes(from, tr, p, s, t);
  }

  lemma Pushes(from: seq<State>, tr: seq<State>, p: State, s: State, t: Tid) returns (tr': seq<State>)
    requires Solo(from, tr, p, t) && t in p.threads && PushStep(p, s, t, p.threads[t])
    ensures Solo(from, tr', s, t)
  {
    tr' := Goes(from, tr, p, s, t);
  }

  // pop ---------------------------------------------------------------------------------------

  /** The state after a whole `pop`. */
  function AfterPop(s: State, t: Tid, m: Fragment): State {
    Set(s, t, Idle).(rd := s.rd + 1, popped := s.popped + [m])
  }

  /** A published element is copied and taken. */
  lemma SoloTake(from: seq<State>, tr: seq<State>, s: State, t: Tid) returns (tr': seq<State>)
    requires Solo(from, tr, Set(s, t, QRd), t) && t in s.threads && Index(s.rd) != Index(s.wt) && Fresh(s, s.rd)
    ensures Solo(from, tr', AfterPop(s, t, Fragment(At(s, s.rd).header, At(s, s.rd).payload)), t)
  {
    var e := At(s, s.rd);
    var m := Fragment(e.header, e.payload);
    var s0, s1, s2 := Set(s, t, QRd), Set(s, t, QWt(s.rd)), Set(s, t, CHeader(s.rd));
    var s3, s4, s5 := Set(s, t, CPayload(s.rd, e.header)), Set(s, t, CCas(s.rd, m)), AfterPop(s, t, m);
    assert LoadRd(s0, s1, t, s0.threads[t]);
    tr' := Pops(from, tr, s0, s1, t);
    assert LoadWt(s1, s2, t, s1.threads[t]);
    tr' := Pops(from, tr', s1, s2, t);
    assert CopyHeader(s2, s3, t, s2.threads[t]);
    tr' := Pops(from, tr', s2, s3, t);
    assert CopyPayload(s3, s4, t, s3.threads[t]);
    tr' := Pops(from, tr', s3, s4, t);
    assert PopWins(s4, s5, t, s4.threads[t]);
    tr' := Pops(from, tr', s4, s5, t);
  }

  /** The state after a consumer has moved `wt` past a flagged position. */
  function Helped(s: State): State {
    Mark(SetSlot(s, s.wt, At(s, s.wt).(flag := 0)).(wt := s.wt + 1), s.wt, Passed)
  }

  /** An element whose producer has not moved `wt` past it is helped along first. */
  lemma SoloHelp(from: seq<State>, tr: seq<State>, s: State, t: Tid) returns (tr': seq<State>)
    requires Solo(from, tr, Set(s, t, QRd), t) && t in s.threads && s.rd == s.wt < |s.stage|
    requires At(s, s.wt).flag == Flag(s.wt) && Fresh(s, s.wt)
    ensures Solo(from, tr', Set(Helped(s), t, QRd), t)
  {
    var s0, s1, s2 := Set(s, t, QRd), Set(s, t, QWt(s.rd)), Set(s, t, EFlag(s.rd, s.wt));
    var s3, s5 := Set(s, t, ECas(s.wt)), Set(Helped(s), t, QRd);
    var s4 := Mark(Set(SetSlot(s, s.wt, At(s, s.wt).(flag := 0)), t, EStore(s.wt)), s.wt, Taken(t));
    assert LoadRd(s0, s1, t, s0.threads[t]);
    tr' := Pops(from, tr, s0, s1, t);
    assert LoadWt(s1, s2, t, s1.threads[t]);
    tr' := Pops(from, tr', s1, s2, t);
    assert SeeFlag(s2, s3, t, s2.threads[t]);
    tr' := Pops(from, tr', s2, s3, t);
    assert HelpWins(s3, s4, t, s3.threads[t]);
    tr' := Pops(from, tr', s3, s4, t);
    assert HelpStore(s4, s5, t, s4.threads[t]);
    tr' := Pops(from, tr', s4, s5, t);
  }

  /** With no other operation in flight, an element that is not published yet is flagged. */
  lemma QuietIsFlagged(s: State, t: Tid)
    requires Inv(s) && Alone(s, t) && s.threads[t] == Idle && s.wt < s.ct
    ensures s.stage[s.wt].Flagged? && At(s, s.wt).flag == Flag(s.wt)
  {
    assert PosOk(s, s.wt) && FlagOk(s, s.wt);
  }

  /** An element a lone consumer can have: published, or flagged at the write cursor. */
  ghost predicate Poppable(s: State) {
    s.rd < s.wt || (s.rd == s.wt < s.ct && At(s, s.wt).flag == Flag(s.wt))
  }

  /** The state a lone `pop` leaves: the write cursor helped along if it had to be, the
      next element of the log popped, all else as it was. */
  function OnePopped(s: State, t: Tid): State
    requires s.rd < |s.log|
  {
    AfterPop(if s.rd == s.wt then Helped(s) else s, t, s.log[s.rd])
  }

  /** A `pop` that runs alone, from any state of any run with an element it can have,
      returns the next element of the log. */
  lemma LonePop(tr: seq<State>, t: Tid) returns (tr': seq<State>)
    requires Run(tr)
    requires var s := tr[|tr| - 1]; Poppable(s) && t in s.threads && s.threads[t] == Idle
    ensures tr[|tr| - 1].rd < |tr[|tr| - 1].log| && Solo(tr, tr', OnePopped(tr[|tr| - 1], t), t)
  {
    var s := tr[|tr| - 1];
    RunInv(tr, |tr| - 1);
    var q := Set(s, t, QRd);
    assert BeginPop(s, q, t, s.threads[t]);
    tr' := Pops(tr, tr, s, q, t);
    var u := s;
    if s.rd == s.wt {
      assert FlagOk(s, s.wt);
      tr' := SoloHelp(tr, tr', s, t);
      u := Helped(s);
      assert At(u, u.rd).header == At(s, s.rd).header && At(u, u.rd).payload == At(s, s.rd).payload;
    }
    assert PosOk(s, s.rd);
    Within(u.rd, u.wt);
    tr' := SoloTake(tr, tr', u, t);
  }

  lemma Within(r: nat, w: nat)
    requires r < w < r + RING
    ensures Index(r) != Index(w)
  {
    if Index(r) == Index(w) { SameSlot(r, w); }
  }

  /** With no other operation in flight, `pop` succeeds whenever something is left. */
  lemma SoloPopSucceeds(tr: seq<State>, t: Tid) returns (tr': seq<State>)
    requires Run(tr)
    requires var s := tr[|tr| - 1]; Alone(s, t) && s.threads[t] == Idle && s.rd < s.ct
    ensures tr[|tr| - 1].rd < |tr[|tr| - 1].log| && Solo(tr, tr', OnePopped(tr[|tr| - 1], t), t)
  {
    RunInv(tr, |tr| - 1);
    if tr[|tr| - 1].wt < tr[|tr| - 1].ct { QuietIsFlagged(tr[|tr| - 1], t); }
    tr' := LonePop(tr, t);
  }

  // push --------------------------------------------------------------------------------------

  /** A claimed position being written: its slot and the pc as given. */
  function Pushing(s: State, t: Tid, m: Fragment, e: Slot, x: Thread, g: Stage): State {
    Set(SetSlot(s, s.ct, e), t, x).(ct := s.ct + 1, log := s.log + [m], stage := s.stage + [g])
  }

  function Full(s: State, m: Fragment): Slot {
    At(s, s.ct).(header := m.header, payload := m.payload)
  }

  /** From the start of a push to its claim. */
  lemma SoloClaim(from: seq<State>, tr: seq<State>, s: State, t: Tid, m: Fragment) returns (tr': seq<State>)
    requires Solo(from, tr, s, t) && t in s.threads && s.threads[t] == Idle && Index(s.ct + 1) != Index(s.rd)
    ensures Solo(from, tr', Pushing(s, t, m, At(s, s.ct), PHeader(m, s.ct), Writing(t)), t)
  {
    var s1, s2, s3 := Set(s, t, PCt(m)), Set(s, t, PRd(m, s.ct)), Set(s, t, PCas(m, s.ct));
    var s4 := Pushing(s, t, m, At(s, s.ct), PHeader(m, s.ct), Writing(t));
    assert BeginPush(s, s1, t, s.threads[t], m);
    tr' := Pushes(from, tr, s, s1, t);
    assert LoadCt(s1, s2, t, s1.threads[t]);
    tr' := Pushes(from, tr', s1, s2, t);
    assert TestFull(s2, s3, t, s2.threads[t]);
    tr' := Pushes(from, tr', s2, s3, t);
    assert SetSlot(s, s.ct, At(s, s.ct)) == s;
    assert ClaimWins(s3, s4, t, s3.threads[t]);
    tr' := Pushes(from, tr', s3, s4, t);
  }

  /** From the claim to the load of its own flag. */
  lemma SoloWrite(from: seq<State>, tr: seq<State>, s: State, t: Tid, m: Fragment) returns (tr': seq<State>)
    requires t in s.threads && |s.stage| == s.ct
    requires Solo(from, tr, Pushing(s, t, m, At(s, s.ct), PHeader(m, s.ct), Writing(t)), t)
    ensures Solo(from, tr', Pushing(s, t, m, Full(s, m).(flag := Flag(s.ct)), HWt(s.ct, Flag(s.ct)), Flagged), t)
  {
    var c, e := s.ct, Full(s, m);
    var s4 := Pushing(s, t, m, At(s, c), PHeader(m, c), Writing(t));
    var s5 := Pushing(s, t, m, At(s, c).(header := m.header), PPayload(m, c), Writing(t));
    var s6 := Pushing(s, t, m, e, PFlag(m, c), Writing(t));
    var s7 := Pushing(s, t, m, e.(flag := Flag(c)), HFlag(c), Flagged);
    var s8 := Pushing(s, t, m, e.(flag := Flag(c)), HWt(c, Flag(c)), Flagged);
    assert WriteHeader(s4, s5, t, s4.threads[t]);
    tr' := Pushes(from, tr, s4, s5, t);
    assert WritePayload(s5, s6, t, s5.threads[t]);
    tr' := Pushes(from, tr', s5, s6, t);
    assert StoreFlag(s6, s7, t, s6.threads[t]);
    tr' := Pushes(from, tr', s6, s7, t);
    assert LoadFlag(s7, s8, t, s7.threads[t]);
    tr' := Pushes(from, tr', s7, s8, t);
  }

  /** The write cursor stands at the new element: the push takes the flag and moves it. */
  lemma SoloAdvance(from: seq<State>, tr: seq<State>, s: State, t: Tid, m: Fragment) returns (tr': seq<State>)
    requires t in s.threads && |s.stage| == s.ct == s.wt
    requires Solo(from, tr, Pushing(s, t, m, Full(s, m).(flag := Flag(s.ct)), HWt(s.ct, Flag(s.ct)), Flagged), t)
    ensures Solo(from, tr', Pushing(s, t, m, Full(s, m).(flag := 0), HFlag(s.ct + 1), Passed).(wt := s.wt + 1), t)
  {
    var c, e := s.ct, Full(s, m);
    var s8 := Pushing(s, t, m, e.(flag := Flag(c)), HWt(c, Flag(c)), Flagged);
    var s9 := Pushing(s, t, m, e.(flag := Flag(c)), HCas(c), Flagged);
    var s10 := Pushing(s, t, m, e.(flag := 0), HStore(c), Taken(t));
    var s11 := Pushing(s, t, m, e.(flag := 0), HFlag(c + 1), Passed).(wt := c + 1);
    assert TestWt(s8, s9, t, s8.threads[t]);
    tr' := Pushes(from, tr, s8, s9, t);
    assert TakeFlag(s9, s10, t, s9.threads[t]);
    tr' := Pushes(from, tr', s9, s10, t);
    assert Advance(s10, s11, t, s10.threads[t]);
    tr' := Pushes(from, tr', s10, s11, t);
  }

  /** The state a lone `push` leaves: the element is in, and published if the write cursor
      had reached it. */
  function Pushed(s: State, t: Tid, m: Fragment): State {
    if s.wt == s.ct then Pushing(s, t, m, Full(s, m).(flag := 0), Idle, Passed).(wt := s.wt + 1)
    else Pushing(s, t, m, Full(s, m).(flag := Flag(s.ct)), Idle, Flagged)
  }

  /** After the last advance the next slot is not flagged, and the push returns. */
  lemma SoloReturn(from: seq<State>, tr: seq<State>, s: State, t: Tid, m: Fragment) returns (tr': seq<State>)
    requires t in s.threads && s.ct == s.wt && At(s, s.ct + 1).flag == 0
    requires Solo(from, tr, Pushing(s, t, m, Full(s, m).(flag := 0), HFlag(s.ct + 1), Passed).(wt := s.wt + 1), t)
    ensures Solo(from, tr', Pushed(s, t, m), t)
  {
    var c, e := s.ct, Full(s, m).(flag := 0);
    var s11 := Pushing(s, t, m, e, HFlag(c + 1), Passed).(wt := c + 1);
    var s12 := Pushing(s, t, m, e, HWt(c + 1, 0), Passed).(wt := c + 1);
    assert LoadFlag(s11, s12, t, s11.threads[t]);
    tr' := Pushes(from, tr, s11, s12, t);
    assert TestWt(s12, Pushed(s, t, m), t, s12.threads[t]);
    tr' := Pushes(from, tr', s12, Pushed(s, t, m), t);
  }

  /** A push that runs alone, from any state of any run with fewer than 255 elements in the
      ring, puts its element in. */
  lemma LonePush(tr: seq<State>, t: Tid, m: Fragment) returns (tr': seq<State>)
    requires Run(tr)
    requires var s := tr[|tr| - 1]; t in s.threads && s.threads[t] == Idle && s.ct - s.rd < RING - 1
    ensures Solo(tr, tr', Pushed(tr[|tr| - 1], t, m), t)
  {
    var s := tr[|tr| - 1];
    RunInv(tr, |tr| - 1);
    Within(s.rd, s.ct + 1);
    tr' := SoloClaim(tr, tr, s, t, m);
    tr' := SoloWrite(tr, tr', s, t, m);
    if s.wt == s.ct {
      tr' := SoloAdvance(tr, tr', s, t, m);
      assert FlagOk(s, s.ct + 1);
      tr' := SoloReturn(tr, tr', s, t, m);
    } else {
      tr' := SoloLeave(tr, tr', s, t, m);
    }
  }

  /** The write cursor stands before the new element: somebody else will move it. */
  lemma SoloLeave(from: seq<State>, tr: seq<State>, s: State, t: Tid, m: Fragment) returns (tr': seq<State>)
    requires t in s.threads && s.wt < s.ct < s.wt + RING
    requires Solo(from, tr, Pushing(s, t, m, Full(s, m).(flag := Flag(s.ct)), HWt(s.ct, Flag(s.ct)), Flagged), t)
    ensures Solo(from, tr', Pushed(s, t, m), t)
  {
    var s8 := Pushing(s, t, m, Full(s, m).(flag := Flag(s.ct)), HWt(s.ct, Flag(s.ct)), Flagged);
    if Same(s.wt, s.ct) { SameU32(s.ct, s.wt); }
    assert TestWt(s8, Pushed(s, t, m), t, s8.threads[t]);
    tr' := Pushes(from, tr, s8, Pushed(s, t, m), t);
  }

  // Any operation returns -----------------------------------------------------------------------

  /** `s'` ends a run that extends `from` by steps of `t` alone, and `t` has returned in it. */
  ghost predicate Back(from: seq<State>, tr: seq<State>, s': State, t: Tid) {
    Solo(from, tr, s', t) && t in s'.threads && s'.threads[t] == Idle
  }

  /** A `pop` at its top: it takes what is there, helps what is flagged, or finds nothing. */
  lemma SoloFromTop(from: seq<State>, tr: seq<State>, s: State, t: Tid) returns (tr': seq<State>, s': State)
    requires Solo(from, tr, s, t) && t in s.threads && s.threads[t] == QRd
    ensures Back(from, tr', s', t)
  {
    assert Set(s, t, QRd) == s;
    RunInv(tr, |tr| - 1);
    var u := s;
    tr' := tr;
    if s.rd == s.wt {
      assert FlagOk(s, s.wt);
      if At(s, s.wt).flag != Flag(s.wt) {
        tr', s' := SoloEmpty(from, tr, s, t);
        return;
      }
      tr' := SoloHelp(from, tr', s, t);
      u := Helped(s);
    }
    Within(u.rd, u.wt);
    tr' := SoloTake(from, tr', u, t);
    s' := AfterPop(u, t, Fragment(At(u, u.rd).header, At(u, u.rd).payload));
  }

  lemma SoloEmpty(from: seq<State>, tr: seq<State>, s: State, t: Tid) returns (tr': seq<State>, s': State)
    requires Solo(from, tr, s, t) && t in s.threads && s.threads[t] == QRd
    requires s.rd == s.wt && At(s, s.wt).flag != Flag(s.wt)
    ensures Back(from, tr', s', t)
  {
    var s1, s2 := Set(s, t, QWt(s.rd)), Set(s, t, EFlag(s.rd, s.wt));
    s' := Set(s, t, Idle);
    assert LoadRd(s, s1, t, s.threads[t]);
    tr' := Pops(from, tr, s, s1, t);
    assert LoadWt(s1, s2, t, s1.threads[t]);
    tr' := Pops(from, tr', s1, s2, t);
    assert Empty(s2, s', t, s2.threads[t]);
    tr' := Pops(from, tr', s2, s', t);
  }

  /** From the empty test: it returns, or goes back to the top. */
  lemma SoloFlagTest(from: seq<State>, tr: seq<State>, s: State, t: Tid) returns (tr': seq<State>, s': State)
    requires Solo(from, tr, s, t) && t in s.threads && (s.threads[t].EFlag? || s.threads[t].ECas?)
    ensures Solo(from, tr', s', t) && t in s'.threads && (s'.threads[t] == Idle || s'.threads[t] == QRd)
  {
    var x := s.threads[t];
    tr', s' := tr, s;
    if x.EFlag? {
      s' := Set(s, t, if At(s, x.c).flag == Flag(x.c) then ECas(x.c) else Idle);
      assert Empty(s, s', t, x) || SeeFlag(s, s', t, x);
      tr' := Pops(from, tr', s, s', t);
    }
    if s'.threads[t].ECas? {
      var s1 := Set(s, t, QRd);
      assert HelpFails(s', s1, t, s'.threads[t]);
      tr' := Pops(from, tr', s', s1, t);
      s' := s1;
    }
  }

  /** From the copy: it goes back to the top. */
  lemma SoloCopy(from: seq<State>, tr: seq<State>, s: State, t: Tid) returns (tr': seq<State>, s': State)
    requires Solo(from, tr, s, t) && t in s.threads
    requires s.threads[t].CHeader? || s.threads[t].CPayload? || s.threads[t].CCas?
    ensures Solo(from, tr', s', t) && t in s'.threads && s'.threads[t] == QRd
  {
    var x := s.threads[t];
    tr', s' := tr, s;
    if x.CHeader? {
      s' := Set(s, t, CPayload(x.r, At(s, x.r).header));
      assert CopyHeader(s, s', t, x);
      tr' := Pops(from, tr', s, s', t);
    }
    if s'.threads[t].CPayload? {
      var s1 := Set(s, t, CCas(x.r, Fragment(s'.threads[t].h, At(s, x.r).payload)));
      assert CopyPayload(s', s1, t, s'.threads[t]);
      tr' := Pops(from, tr', s', s1, t);
      s' := s1;
    }
    assert PopFails(s', Set(s, t, QRd), t, s'.threads[t]);
    tr' := Pops(from, tr', s', Set(s, t, QRd), t);
    s' := Set(s, t, QRd);
  }

  /** A `pop` that runs alone returns, from any point of it in any run, whatever it has loaded. */
  lemma SoloPopReturns(tr: seq<State>, t: Tid) returns (tr': seq<State>, s': State)
    requires Run(tr) && t in tr[|tr| - 1].threads && Popping(tr[|tr| - 1].threads[t])
    ensures Back(tr, tr', s', t)
  {
    tr', s' := tr, tr[|tr| - 1];
    var x := s'.threads[t];
    if x.QWt? {
      var s1 := Set(s', t, if Index(x.r) == Index(s'.wt) then EFlag(x.r, s'.wt) else CHeader(x.r));
      assert LoadWt(s', s1, t, x);
      tr' := Pops(tr, tr', s', s1, t);
      s' := s1;
    }
    if x.EStore? {
      var s1 := Mark(Set(s', t, QRd).(wt := x.c + 1), x.c, Passed);
      assert HelpStore(s', s1, t, x);
      tr' := Pops(tr, tr', s', s1, t);
      s' := s1;
    }
    var y := s'.threads[t];
    if y.EFlag? || y.ECas? { tr', s' := SoloFlagTest(tr, tr', s', t); }
    if y.CHeader? || y.CPayload? || y.CCas? { tr', s' := SoloCopy(tr, tr', s', t); }
    if s'.threads[t] == QRd { tr', s' := SoloFromTop(tr, tr', s', t); }
  }

  /** The helping loop ends: each turn moves the write cursor on, and it stands at the commit index at
      the latest. */
  lemma {:induction false} SoloHelping(from: seq<State>, tr: seq<State>, s: State, t: Tid)
      returns (tr': seq<State>, s': State)
    requires Solo(from, tr, s, t) && t in s.threads && s.threads[t].HFlag? && s.threads[t].c <= s.ct
    requires Fresh(s, s.threads[t].c)
    ensures Back(from, tr', s', t)
    decreases s.ct - s.threads[t].c
  {
    var c := s.threads[t].c;
    var cac := At(s, c).flag;
    var go := Same(s.wt, c) && cac == Flag(c);
    var s1, s2 := Set(s, t, HWt(c, cac)), Set(s, t, if go then HCas(c) else Idle);
    assert LoadFlag(s, s1, t, s.threads[t]);
    tr' := Pushes(from, tr, s, s1, t);
    assert TestWt(s1, s2, t, s1.threads[t]);
    tr' := Pushes(from, tr', s1, s2, t);
    s' := s2;
    if go {
      FlaggedIsClaimed(tr, s, t);
      tr', s' := SoloTurn(from, tr', s, c, t);
      tr', s' := SoloHelping(from, tr', s', t);
    }
  }

  lemma FlaggedIsClaimed(tr: seq<State>, s: State, t: Tid)
    requires Run(tr) && tr[|tr| - 1] == s && t in s.threads && s.threads[t].HFlag?
    requires var c := s.threads[t].c; Fresh(s, c) && Same(s.wt, c) && At(s, c).flag == Flag(c)
    ensures s.threads[t].c < s.ct
  {
    RunInv(tr, |tr| - 1);
    assert ThreadOk(s, t) && FlagOk(s, s.ct);
  }

  /** One turn: the flag is taken and the write cursor moved past it. */
  lemma SoloTurn(from: seq<State>, tr: seq<State>, s: State, c: nat, t: Tid) returns (tr': seq<State>, s': State)
    requires t in s.threads && Solo(from, tr, Set(s, t, HCas(c)), t) && Fresh(s, c) && At(s, c).flag == Flag(c)
    ensures Solo(from, tr', s', t) && t in s'.threads && s'.threads[t] == HFlag(c + 1) && s'.ct == s.ct
  {
    var s0 := Set(s, t, HCas(c));
    var s1 := Mark(Set(SetSlot(s, c, At(s, c).(flag := 0)), t, HStore(c)), c, Taken(t));
    s' := Mark(Set(s1, t, HFlag(c + 1)).(wt := c + 1), c, Passed);
    assert TakeFlag(s0, s1, t, s0.threads[t]);
    tr' := Pushes(from, tr, s0, s1, t);
    assert Advance(s1, s', t, s1.threads[t]);
    tr' := Pushes(from, tr', s1, s', t);
  }

  /** A push past its claim gets its element in and flagged. */
  lemma SoloWriteOn(from: seq<State>, tr: seq<State>, s: State, t: Tid) returns (tr': seq<State>, s': State)
    requires Solo(from, tr, s, t) && t in s.threads && Writes(s.threads[t])
    ensures Solo(from, tr', s', t) && t in s'.threads && s'.threads[t] == HFlag(s.threads[t].c) && s'.ct == s.ct
  {
    var x := s.threads[t];
    tr', s' := tr, s;
    if x.PHeader? {
      s' := Set(SetSlot(s, x.c, At(s, x.c).(header := x.msg.header)), t, PPayload(x.msg, x.c));
      assert WriteHeader(s, s', t, x);
      tr' := Pushes(from, tr', s, s', t);
    }
    if s'.threads[t].PPayload? {
      var s1 := Set(SetSlot(s', x.c, At(s', x.c).(payload := x.msg.payload)), t, PFlag(x.msg, x.c));
      assert WritePayload(s', s1, t, s'.threads[t]);
      tr' := Pushes(from, tr', s', s1, t);
      s' := s1;
    }
    var s2 := Mark(Set(SetSlot(s', x.c, At(s', x.c).(flag := Flag(x.c))), t, HFlag(x.c)), x.c, Flagged);
    assert StoreFlag(s', s2, t, s'.threads[t]);
    tr' := Pushes(from, tr', s', s2, t);
    s' := s2;
  }

  /** A push in its claim loop claims a position with fresh loads, or returns from the full test. */
  lemma SoloOffer(from: seq<State>, s: State, t: Tid) returns (tr: seq<State>, s': State)
    requires Solo(from, from, s, t) && t in s.threads && Claiming(s.threads[t])
    ensures Solo(from, tr, s', t) && t in s'.threads
    ensures s'.threads[t] == Idle || (s'.threads[t] == PHeader(s.threads[t].msg, s.ct) && s'.ct == s.ct + 1)
  {
    var x, m := s.threads[t], s.threads[t].msg;
    tr, s' := from, s;
    if x.PRd? {
      s' := Set(s, t, if Index(x.c + 1) == Index(s.rd) then Idle else PCas(m, x.c));
      assert TestFull(s, s', t, x);
      tr := Pushes(from, tr, s, s', t);
      if s'.threads[t] == Idle { return; }
    }
    if s'.threads[t].PCas? {
      assert ClaimFails(s', Set(s, t, PCt(m)), t, s'.threads[t]);
      tr := Pushes(from, tr, s', Set(s, t, PCt(m)), t);
      s' := Set(s, t, PCt(m));
    }
    tr, s' := SoloClaimOn(from, tr, s, s', t, m);
  }

  lemma SoloClaimOn(from: seq<State>, tr: seq<State>, s: State, s0: State, t: Tid, m: Fragment)
      returns (tr': seq<State>, s': State)
    requires Solo(from, tr, s0, t) && t in s.threads && t in s0.threads && s0.threads[t] == PCt(m)
    requires s0 == Set(s, t, PCt(m))
    ensures Solo(from, tr', s', t) && t in s'.threads
    ensures s'.threads[t] == Idle || (s'.threads[t] == PHeader(m, s.ct) && s'.ct == s.ct + 1)
  {
    var s1 := Set(s, t, PRd(m, s.ct));
    s' := Set(s, t, if Index(s.ct + 1) == Index(s.rd) then Idle else PCas(m, s.ct));
    assert LoadCt(s0, s1, t, s0.threads[t]);
    tr' := Pushes(from, tr, s0, s1, t);
    assert TestFull(s1, s', t, s1.threads[t]);
    tr' := Pushes(from, tr', s1, s', t);
    if s'.threads[t].PCas? {
      var s2 := Set(s, t, PHeader(m, s.ct)).(ct := s.ct + 1, log := s.log + [m], stage := s.stage + [Writing(t)]);
      assert ClaimWins(s', s2, t, s'.threads[t]);
      tr' := Pushes(from, tr', s', s2, t);
      s' := s2;
    }
  }

  /** A `push` that runs alone returns, from any point of it in any run, whatever it has loaded. */
  lemma SoloPushReturns(tr: seq<State>, t: Tid) returns (tr': seq<State>, s': State)
    requires Run(tr) && t in tr[|tr| - 1].threads
    requires var s, x := tr[|tr| - 1], tr[|tr| - 1].threads[t];
             Claiming(x) || ((Writes(x) || Helping(x)) && Fresh(s, x.c))
    ensures Back(tr, tr', s', t)
  {
    tr', s' := tr, tr[|tr| - 1];
    assert (Writes(s'.threads[t]) || Helping(s'.threads[t])) ==> s'.threads[t].c <= s'.ct by {
      RunInv(tr, |tr| - 1);
      assert ThreadOk(s', t);
    }
    if Claiming(s'.threads[t]) {
      tr', s' := SoloOffer(tr, s', t);
      if s'.threads[t] == Idle { return; }
    }
    if Writes(s'.threads[t]) { tr', s' := SoloWriteOn(tr, tr', s', t); }
    if !s'.threads[t].HFlag? { tr', s' := SoloTop(tr, s', t); }
    if s'.threads[t] != Idle { tr', s' := SoloHelping(tr, tr', s', t); }
  }

  /** From inside the helping loop to its top, or out of it. */
  lemma SoloTop(from: seq<State>, s: State, t: Tid) returns (tr: seq<State>, s': State)
    requires Solo(from, from, s, t) && t in s.threads && Helping(s.threads[t]) && !s.threads[t].HFlag?
    requires s.threads[t].c <= s.ct && Fresh(s, s.threads[t].c)
    ensures Solo(from, tr, s', t) && t in s'.threads
    ensures s'.threads[t] == Idle || (s'.threads[t].HFlag? && s'.threads[t].c <= s'.ct && Fresh(s', s'.threads[t].c))
  {
    var x := s.threads[t];
    tr, s' := from, s;
    if x.HWt? {
      s' := Set(s, t, if Same(s.wt, x.c) && x.cac == Flag(x.c) then HCas(x.c) else Idle);
      assert TestWt(s, s', t, x);
      tr := Pushes(from, tr, s, s', t);
    }
    if s'.threads[t].HCas? {
      var s1 := if At(s, x.c).flag == Flag(x.c)
                then Mark(Set(SetSlot(s, x.c, At(s, x.c).(flag := 0)), t, HStore(x.c)), x.c, Taken(t))
                else Set(s, t, Idle);
      assert TakeFlag(s', s1, t, s'.threads[t]);
      tr := Pushes(from, tr, s', s1, t);
      s' := s1;
    }
    if s'.threads[t].HStore? {
      assert x.c < s.ct by {
        RunInv(tr, |tr| - 1);
        assert ThreadOk(s', t);
      }
      var s1 := Mark(Set(s', t, HFlag(x.c + 1)).(wt := x.c + 1), x.c, Passed);
      assert Advance(s', s1, t, s'.threads[t]);
      tr := Pushes(from, tr, s', s1, t);
      s' := s1;
    }
  }

  // A wrong verdict -----------------------------------------------------------------------------

  /** An empty ring and two idle threads. */
  function Fresh2(): State {
    State(0, 0, 0, seq(RING, _ => Slot(0, [], [])), map[0 := Idle, 1 := Idle], [], [], [])
  }

  /** `push` can report full on an empty ring: thread 0 loads the commit index, thread 1
      pushes and pops one element, and thread 0 then finds the read cursor just behind the
      index it holds. The ring never holds more than that one element. */
  lemma FullOnEmpty(m: Fragment) returns (tr: seq<State>, s: State, s': State)
    ensures Run(tr) && tr[|tr| - 1] == s && s.rd == s.ct
    ensures forall i | 0 <= i < |tr| :: tr[i].ct <= tr[i].rd + 1
    ensures 0 in s.threads && TestFull(s, s', 0, s.threads[0]) && s'.threads[0] == Idle
  {
    var s0 := Fresh2();
    var s1, s2 := Set(s0, 0, PCt(m)), Set(s0, 0, PRd(m, 0));
    tr := [s0];
    assert BeginPush(s0, s1, 0, s0.threads[0], m);
    tr := Pushes([s0], tr, s0, s1, 0);
    assert LoadCt(s1, s2, 0, s1.threads[0]);
    tr := Pushes([s0], tr, s1, s2, 0);
    tr := LonePush(tr, 1, m);
    var s3 := Pushed(s2, 1, m);
    tr := LonePop(tr, 1);
    s := OnePopped(s3, 1);
    s' := Set(s, 0, Idle);
    assert s.threads[0] == PRd(m, 0);
    forall i | 0 <= i < |tr| ensures tr[i].ct <= tr[i].rd + 1 { CursorsGrow(tr, i, |tr| - 1); }
  }

  /** Thread `t` is in an operation and there is a published element in the ring. */
  predicate BusyAndFilled(s: State, t: Tid) {
    t in s.threads && s.threads[t] != Idle && s.rd < s.wt
  }

  ghost predicate FilledFrom(tr: seq<State>, j: nat) {
    forall i | j <= i < |tr| :: BusyAndFilled(tr[i], 0)
  }

  lemma {:induction false} StandsStill(tr: seq<State>, tr': seq<State>, i: nat, u: Tid)
    requires |tr| > 0 && tr <= tr' && |tr| <= i + 1 && i < |tr'| && u != 1 && u in tr[|tr| - 1].threads
    requires forall k | |tr| <= k < |tr'| :: StepOfAt(tr', k, 1)
    ensures u in tr'[i].threads && tr'[i].threads[u] == tr[|tr| - 1].threads[u]
    decreases i
  {
    if i >= |tr| {
      StandsStill(tr, tr', i - 1, u);
      assert StepOfAt(tr', i, 1);
      OthersStand(tr'[i - 1], tr'[i], 1, u);
    }
  }

  /** The ring stays filled while thread 1 alone goes on to a read cursor below the write
      cursor it started from, and thread 0 stands still. */
  lemma StaysFilled(tr: seq<State>, tr': seq<State>, s: State, j: nat)
    requires Solo(tr, tr', s, 1) && j < |tr| && FilledFrom(tr, j) && s.rd < tr[|tr| - 1].wt
    ensures FilledFrom(tr', j)
  {
    assert BusyAndFilled(tr[|tr| - 1], 0);
    forall i | j <= i < |tr'| ensures BusyAndFilled(tr'[i], 0) {
      if i < |tr| {
        assert tr'[i] == tr[i];
      } else {
        CursorsGrow(tr', |tr| - 1, i);
        CursorsGrow(tr', i, |tr'| - 1);
        StandsStill(tr, tr', i, 0);
      }
    }
  }

  /** One step of thread 0 in its `pop`. */
  lemma Extend(tr: seq<State>, s: State, j: nat) returns (tr': seq<State>)
    requires Run(tr) && var p := tr[|tr| - 1]; 0 in p.threads && PopStep(p, s, 0, p.threads[0])
    requires FilledFrom(tr, j) && BusyAndFilled(s, 0)
    ensures Run(tr') && tr' == tr + [s] && FilledFrom(tr', j)
  {
    tr' := tr + [s];
    forall k | 0 < k < |tr'| ensures StepAt(tr', k) {
      if k < |tr| { assert StepAt(tr, k); } else { assert StepOf(tr'[k - 1], tr'[k], 0); }
    }
  }

  /** Thread 0 began its `pop` in state `j` and holds read cursor 0; thread 1 has since pushed
      and popped `n` elements, with one in the ring throughout. */
  ghost predicate Cycled(tr: seq<State>, j: nat, n: nat) {
    && Run(tr) && j < |tr| && 0 in tr[j].threads && tr[j].threads[0] == QRd && FilledFrom(tr, j)
    && var s := tr[|tr| - 1];
       s.threads == map[0 := QWt(0), 1 := Idle] && s.rd == n && s.wt == s.ct == n + 1
  }

  lemma Started(m: Fragment) returns (tr: seq<State>, j: nat)
    ensures Cycled(tr, j, 0)
  {
    var s0 := Fresh2();
    tr := LonePush([s0], 1, m);
    var s1 := tr[|tr| - 1];
    var s2, s3 := Set(s1, 0, QRd), Set(s1, 0, QWt(0));
    assert BeginPop(s1, s2, 0, s1.threads[0]);
    tr := Pops(tr, tr, s1, s2, 0);
    j := |tr| - 1;
    assert LoadRd(s2, s3, 0, s2.threads[0]);
    tr := Extend(tr, s3, j);
  }

  lemma CycleOnce(tr: seq<State>, j: nat, n: nat, m: Fragment) returns (tr'': seq<State>)
    requires Cycled(tr, j, n)
    ensures Cycled(tr'', j, n + 1)
  {
    var tr' := LonePush(tr, 1, m);
    StaysFilled(tr, tr', tr'[|tr'| - 1], j);
    tr'' := LonePop(tr', 1);
    StaysFilled(tr', tr'', tr''[|tr''| - 1], j);
  }

  lemma {:induction false} Cycle(m: Fragment, n: nat) returns (tr: seq<State>, j: nat)
    ensures Cycled(tr, j, n)
  {
    if n == 0 {
      tr, j := Started(m);
    } else {
      tr, j := Cycle(m, n - 1);
      tr := CycleOnce(tr, j, n - 1, m);
    }
  }

  /** `pop` can report empty although an element was published in the ring during the whole
      call: thread 0 begins its `pop` in state `j` and loads the read cursor, thread 1 pushes
      and pops 255 elements, pushing each before it pops one, and thread 0 then finds the
      write cursor one lap on. */
  lemma EmptyOnFilled(m: Fragment) returns (tr: seq<State>, j: nat, s: State, s': State)
    ensures Run(tr) && tr[|tr| - 1] == s && 0 in s.threads && Empty(s, s', 0, s.threads[0])
    ensures j < |tr| && 0 in tr[j].threads && tr[j].threads[0] == QRd
    ensures forall i | j <= i < |tr| :: BusyAndFilled(tr[i], 0)
  {
    tr, j := Cycle(m, RING - 1);
    var u := tr[|tr| - 1];
    RunInv(tr, |tr| - 1);
    assert FlagOk(u, u.wt);
    s := Set(u, 0, EFlag(0, u.wt));
    s' := Set(s, 0, Idle);
    assert LoadWt(u, s, 0, u.threads[0]);
    tr := Extend(tr, s, j);
  }
}
