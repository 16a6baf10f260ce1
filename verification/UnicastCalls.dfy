/** What a call on the unicast ring answers: where `push` and `pop` may return, and what a
    whole call has done by then, whatever else runs. */
module UnicastCalls {
  import opened RingWords
  import opened UnicastRing
  import opened UnicastOrder

  // Steps of a call -----------------------------------------------------------------------

  lemma OthersStand(s: State, s': State, t: Tid, u: Tid)
    requires StepOf(s, s', t) && u != t && u in s.threads
    ensures u in s'.threads && s'.threads[u] == s.threads[u]
  {
  }

  /** In the claim loop of `push`. */
  predicate Claiming(x: Thread) {
    x.PCt? || x.PRd? || x.PCas?
  }

  /** Past its claim, up to the flag. */
  predicate Writes(x: Thread) {
    x.PHeader? || x.PPayload? || x.PFlag?
  }

  predicate Helping(x: Thread) {
    x.HFlag? || x.HWt? || x.HCas? || x.HStore?
  }

  predicate Popping(x: Thread) {
    x.QRd? || x.QWt? || x.EFlag? || x.ECas? || x.EStore? || x.CHeader? || x.CPayload? || x.CCas?
  }

  /** Thread `t` returns from its `pop` with the next element of the log. */
  ghost predicate TakesNext(s: State, s': State, t: Tid)
    requires t in s.threads
  {
    && s.threads[t].CCas? && s.rd < |s.log|
    && s'.rd == s.rd + 1 && s'.popped == s.popped + [s.log[s.rd]] && s.threads[t].m == s.log[s.rd]
  }

  /** What a thread in `pop` does next: it goes on and pops nothing, returns the next element,
      or returns false from the flag test, with the flag down. */
  ghost predicate PopMoves(s: State, s': State, t: Tid)
    requires t in s.threads
  {
    && t in s'.threads
    && var x, x' := s.threads[t], s'.threads[t];
       || Popping(x')
       || (x' == Idle && TakesNext(s, s', t))
       || (x' == Idle && x.EFlag? && At(s, x.c).flag != Flag(x.c) && s'.rd == s.rd)
  }

  lemma PopStepMoves(s: State, s': State, t: Tid)
    requires Inv(s) && t in s.threads && Popping(s.threads[t]) && PopStep(s, s', t, s.threads[t])
    ensures PopMoves(s, s', t)
  {
    if PopWins(s, s', t, s.threads[t]) { PopKeeps(s, s', t); }
  }

  /** In every step of every run, a `pop` under way goes on, returns the next element, or
      returns false having found the flag of the write cursor it loaded down; a lost race
      on `rd` never makes it return. */
  lemma PopReturns(tr: seq<State>, k: nat, t: Tid)
    requires Run(tr) && 0 < k < |tr| && t in tr[k - 1].threads && Popping(tr[k - 1].threads[t])
    ensures PopMoves(tr[k - 1], tr[k], t)
  {
    RunInv(tr, k - 1);
    assert StepAt(tr, k);
    var s, s' := tr[k - 1], tr[k];
    var u :| StepOf(s, s', u);
    if u != t { OthersStand(s, s', u, t); } else { PopStepMoves(s, s', t); }
  }

  /** What a thread in the claim loop of `push` does next: it keeps its message and claims
      nothing, claims the next position for it, or returns false from the full test. */
  ghost predicate ClaimMoves(s: State, s': State, t: Tid)
    requires t in s.threads && Claiming(s.threads[t])
  {
    && t in s'.threads
    && var x, x' := s.threads[t], s'.threads[t];
       || (Claiming(x') && x'.msg == x.msg)
       || (x' == PHeader(x.msg, s.ct) && s'.log == s.log + [x.msg] && s'.ct == s.ct + 1)
       || (x' == Idle && x.PRd? && Index(x.c + 1) == Index(s.rd) && s'.log == s.log)
  }

  /** What it does past its claim: it keeps position and message until the element is
      completely written and flagged, and then helps until it returns. */
  ghost predicate PublishMoves(s: State, s': State, t: Tid)
    requires t in s.threads && (Writes(s.threads[t]) || Helping(s.threads[t]))
  {
    && t in s'.threads
    && var x, x' := s.threads[t], s'.threads[t];
       if Writes(x) then (Writes(x') && x'.c == x.c && x'.msg == x.msg) || FlagsIt(s', x, x')
       else Helping(x') || x' == Idle
  }

  ghost predicate FlagsIt(s': State, x: Thread, x': Thread)
    requires Writes(x)
  {
    && x' == HFlag(x.c) && x.c < |s'.stage| && s'.stage[x.c] == Flagged
    && At(s', x.c) == Slot(Flag(x.c), x.msg.header, x.msg.payload)
  }

  lemma ClaimStepMoves(s: State, s': State, t: Tid)
    requires Inv(s) && t in s.threads && Claiming(s.threads[t]) && PushStep(s, s', t, s.threads[t])
    ensures ClaimMoves(s, s', t)
  {
    assert ThreadOk(s, t);
    if ClaimWins(s, s', t, s.threads[t]) { SameU32(s.ct, s.threads[t].c); }
  }

  lemma PublishStepMoves(s: State, s': State, t: Tid)
    requires Inv(s) && t in s.threads && (Writes(s.threads[t]) || Helping(s.threads[t]))
    requires PushStep(s, s', t, s.threads[t])
    ensures PublishMoves(s, s', t)
  {
    assert ThreadOk(s, t);
  }

  /** In every step of every run, a `push` in its claim loop keeps its message, claims the next
      position for it, or returns false having found the ring full; a lost race on `ct`
      never makes it return. */
  lemma PushReturns(tr: seq<State>, k: nat, t: Tid)
    requires Run(tr) && 0 < k < |tr| && t in tr[k - 1].threads && Claiming(tr[k - 1].threads[t])
    ensures ClaimMoves(tr[k - 1], tr[k], t)
  {
    RunInv(tr, k - 1);
    assert StepAt(tr, k);
    var s, s' := tr[k - 1], tr[k];
    var u :| StepOf(s, s', u);
    if u != t { OthersStand(s, s', u, t); } else { ClaimStepMoves(s, s', t); }
  }

  /** And past its claim it returns only with the element completely written and flagged. */
  lemma PushPublishes(tr: seq<State>, k: nat, t: Tid)
    requires Run(tr) && 0 < k < |tr| && t in tr[k - 1].threads
    requires Writes(tr[k - 1].threads[t]) || Helping(tr[k - 1].threads[t])
    ensures PublishMoves(tr[k - 1], tr[k], t)
  {
    RunInv(tr, k - 1);
    assert StepAt(tr, k);
    var s, s' := tr[k - 1], tr[k];
    var u :| StepOf(s, s', u);
    if u != t { OthersStand(s, s', u, t); } else { PublishStepMoves(s, s', t); }
  }

  /** Thread `t` is in its claim loop with message `m`. */
  ghost predicate Offers(s: State, t: Tid, m: Fragment) {
    t in s.threads && Claiming(s.threads[t]) && s.threads[t].msg == m
  }

  /** It has claimed a position from `c0` on for `m`, and is writing it or done with that. */
  ghost predicate Placed(s: State, t: Tid, m: Fragment, c0: nat, c: nat) {
    && c0 <= c < |s.log| == |s.stage| && s.log[c] == m && t in s.threads
    && var x := s.threads[t];
       (Writes(x) && x.c == c && x.msg == m) || ((Helping(x) || x == Idle) && !s.stage[c].Writing?)
  }

  /** One call of `push(m)` by `t`, from its first step in state `j` to its return in `k`. */
  ghost predicate PushCall(tr: seq<State>, j: nat, k: nat, t: Tid, m: Fragment) {
    && j < k < |tr| && t in tr[j].threads && tr[j].threads[t] == PCt(m)
    && (forall i | j <= i < k :: t in tr[i].threads && tr[i].threads[t] != Idle)
    && t in tr[k].threads && tr[k].threads[t] == Idle
  }

  lemma PushStage(s: State, s': State, u: Tid, c: nat)
    requires Shape(s) && u in s.threads && ThreadOk(s, u) && PushStep(s, s', u, s.threads[u])
    requires c < |s.stage| && !s.stage[c].Writing?
    ensures c < |s'.stage| && !s'.stage[c].Writing?
  {
  }

  lemma PopStage(s: State, s': State, u: Tid, c: nat)
    requires u in s.threads && PopStep(s, s', u, s.threads[u]) && c < |s.stage| && !s.stage[c].Writing?
    ensures c < |s'.stage| && !s'.stage[c].Writing?
  {
  }

  /** A position that has been flagged is never being written again. */
  lemma StageStays(tr: seq<State>, i: nat, c: nat)
    requires Run(tr) && 0 < i < |tr| && c < |tr[i - 1].stage| && !tr[i - 1].stage[c].Writing?
    ensures c < |tr[i].stage| && !tr[i].stage[c].Writing?
  {
    RunInv(tr, i - 1);
    assert StepAt(tr, i);
    var s, s' := tr[i - 1], tr[i];
    var u :| StepOf(s, s', u);
    assert ThreadOk(s, u);
    if PushStep(s, s', u, s.threads[u]) { PushStage(s, s', u, c); } else { PopStage(s, s', u, c); }
  }

  lemma PlacedMoves(s: State, s': State, t: Tid, m: Fragment, c0: nat, c: nat)
    requires Placed(s, t, m, c0, c) && s.threads[t] != Idle && PublishMoves(s, s', t)
    requires s.log <= s'.log && |s'.log| == |s'.stage| && (!s.stage[c].Writing? ==> !s'.stage[c].Writing?)
    ensures Placed(s', t, m, c0, c)
  {
  }

  lemma PlacedStays(tr: seq<State>, i: nat, t: Tid, m: Fragment, c0: nat, c: nat)
    requires Run(tr) && 0 < i < |tr| && Placed(tr[i - 1], t, m, c0, c) && tr[i - 1].threads[t] != Idle
    ensures Placed(tr[i], t, m, c0, c)
  {
    assert |tr[i].stage| == |tr[i].log| by { RunInv(tr, i); }
    LogGrows(tr, i - 1, i);
    PushPublishes(tr, i, t);
    if !tr[i - 1].stage[c].Writing? { StageStays(tr, i, c); }
    PlacedMoves(tr[i - 1], tr[i], t, m, c0, c);
  }

  lemma {:induction false} PushUnderWay(tr: seq<State>, j: nat, i: nat, k: nat, t: Tid, m: Fragment)
      returns (c: nat)
    requires Run(tr) && PushCall(tr, j, k, t, m) && j <= i <= k
    ensures (forall h | j <= h < i :: Offers(tr[h], t, m)) || Placed(tr[i], t, m, tr[j].ct, c)
    ensures Offers(tr[i], t, m) || Placed(tr[i], t, m, tr[j].ct, c) || i == k
    decreases i
  {
    c := tr[j].ct;
    if i > j {
      c := PushUnderWay(tr, j, i - 1, k, t, m);
      if Placed(tr[i - 1], t, m, tr[j].ct, c) {
        PlacedStays(tr, i, t, m, tr[j].ct, c);
      } else {
        PushReturns(tr, i, t);
        if Writes(tr[i].threads[t]) {
          c := tr[i - 1].ct;
          JustPlaced(tr, j, i, t, m);
        }
      }
    }
  }

  lemma JustPlaced(tr: seq<State>, j: nat, i: nat, t: Tid, m: Fragment)
    requires Run(tr) && j < i < |tr| && Offers(tr[i - 1], t, m) && ClaimMoves(tr[i - 1], tr[i], t)
    requires Writes(tr[i].threads[t])
    ensures Placed(tr[i], t, m, tr[j].ct, tr[i - 1].ct)
  {
    RunInv(tr, i - 1);
    RunInv(tr, i);
    CursorsGrow(tr, j, i - 1);
  }

  /** The answer of a whole call, whatever else runs: either `m` is in the log, at a position
      claimed during the call and completely written, or nothing was claimed for it and the
      call returned false from the full test. */
  lemma PushAnswers(tr: seq<State>, j: nat, k: nat, t: Tid, m: Fragment) returns (c: nat)
    requires Run(tr) && PushCall(tr, j, k, t, m)
    ensures || (tr[j].ct <= c < |tr[k].log| == |tr[k].stage| && tr[k].log[c] == m && !tr[k].stage[c].Writing?)
            || (&& (forall h | j <= h < k :: Offers(tr[h], t, m))
                && var x := tr[k - 1].threads[t]; x.PRd? && Index(x.c + 1) == Index(tr[k - 1].rd))
  {
    c := PushUnderWay(tr, j, k, k, t, m);
    if !Placed(tr[k], t, m, tr[j].ct, c) {
      assert Offers(tr[k - 1], t, m);
      PushReturns(tr, k, t);
    }
  }

  // An exact empty verdict ----------------------------------------------------------

  /** Nobody but `t` has an operation in flight. */
  ghost predicate Alone(s: State, t: Tid) {
    t in s.threads && forall u | u in s.threads && u != t :: s.threads[u] == Idle
  }

  ghost predicate Reachable(s: State) {
    exists tr :: Run(tr) && tr[|tr| - 1] == s
  }

  /** `run` is one call of `pop` by `t` from a reachable state with nothing else in
      flight: it starts at the top of `pop`, and every step is a pop step of `t`. */
  ghost predicate SoloPop(run: seq<State>, t: Tid) {
    && |run| > 0 && Reachable(run[0]) && Alone(run[0], t) && run[0].threads[t] == QRd
    && forall k | 0 < k < |run| :: SoloAt(run, t, k)
  }

  ghost predicate SoloAt(run: seq<State>, t: Tid, k: int)
    requires 0 < k < |run|
  {
    t in run[k - 1].threads && run[k - 1].threads[t] != Idle && PopStep(run[k - 1], run[k], t, run[k - 1].threads[t])
  }

  /** Without interference the loaded cursors are current, and nothing is popped before
      the call returns. */
  ghost predicate SoloOk(s0: State, s: State, t: Tid) {
    && Inv(s) && Alone(s, t) && s.log == s0.log
    && var x := s.threads[t];
       && (x != Idle ==> s.rd == s0.rd)
       && (x.EFlag? ==> x.r == s.rd && x.c == s.wt && Index(x.r) == Index(x.c))
       && (x.QWt? || x.CHeader? || x.CPayload? || x.CCas? ==> x.r == s.rd)
  }

  lemma SoloStep(s0: State, s: State, s': State, t: Tid)
    requires SoloOk(s0, s, t) && s.threads[t] != Idle && !s.threads[t].PCt?
    requires PopStep(s, s', t, s.threads[t])
    ensures SoloOk(s0, s', t)
  {
    PopStepKeeps(s, s', t);
  }

  lemma {:induction false} SoloRun(run: seq<State>, t: Tid, k: nat)
    requires SoloPop(run, t) && k < |run|
    ensures SoloOk(run[0], run[k], t)
  {
    if k == 0 {
      var tr :| Run(tr) && tr[|tr| - 1] == run[0];
      RunInv(tr, |tr| - 1);
    } else {
      SoloRun(run, t, k - 1);
      assert SoloAt(run, t, k);
      SoloStep(run[0], run[k - 1], run[k], t);
    }
  }

  /** Without interference the flag test of the empty case is down exactly when nothing is
      left. */
  lemma SoloFlag(s0: State, s: State, t: Tid)
    requires SoloOk(s0, s, t) && s.threads[t].EFlag?
    ensures At(s, s.threads[t].c).flag != Flag(s.threads[t].c) <==> s.rd == s.ct
  {
    SameSlot(s.rd, s.wt);
    assert FlagOk(s, s.wt);
    if s.wt < s.ct { assert PosOk(s, s.wt); }
  }

  /** With no other operation in flight, `pop` reports empty exactly when everything
      pushed has been popped. */
  lemma EmptyIsExact(run: seq<State>, t: Tid)
    requires SoloPop(run, t)
    requires var s := run[|run| - 1]; t in s.threads && s.threads[t].EFlag?
    ensures var s := run[|run| - 1]; (exists s' :: Empty(s, s', t, s.threads[t])) <==> run[0].rd == run[0].ct
  {
    var s := run[|run| - 1];
    SoloRun(run, t, |run| - 1);
    SoloRun(run, t, 0);
    SoloFlag(run[0], s, t);
    if run[0].rd == run[0].ct { assert Empty(s, Set(s, t, Idle), t, s.threads[t]); }
  }

  /** The last step of such a call. */
  lemma SoloReturns(s0: State, s: State, s': State, t: Tid)
    requires Inv(s0) && SoloOk(s0, s, t) && Popping(s.threads[t]) && PopStep(s, s', t, s.threads[t])
    requires t in s'.threads && s'.threads[t] == Idle
    ensures if s0.rd == s0.ct then s'.rd == s0.rd
            else s0.rd < |s0.log| && s'.rd == s0.rd + 1
  {
    PopStepMoves(s, s', t);
    assert ThreadOk(s, t);
    if s.threads[t].EFlag? { SoloFlag(s0, s, t); }
  }

  /** The answer of a whole call with no other operation in flight: it returns false exactly
      when everything pushed has been popped, and otherwise the next element of the log. */
  lemma SoloPopAnswers(run: seq<State>, t: Tid)
    requires SoloPop(run, t)
    requires var s := run[|run| - 1]; t in s.threads && s.threads[t] == Idle
    ensures var s0, s := run[0], run[|run| - 1];
            if s0.rd == s0.ct then s.rd == s0.rd && s.popped == s0.popped
            else s0.rd < |s0.log| && s.rd == s0.rd + 1 && s.popped == s0.popped + [s0.log[s0.rd]]
  {
    var n := |run| - 1;
    SoloRun(run, t, 0);
    SoloRun(run, t, n - 1);
    SoloRun(run, t, n);
    assert SoloAt(run, t, n);
    SoloReturns(run[0], run[n - 1], run[n], t);
  }
}
