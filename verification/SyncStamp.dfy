/** The sync ABI stamp: openers of a shared primitive either initialise the stamp or
    check that it holds what they expect.

    Every access to the stamp is a step, and an opener may crash at any point. Openers
    carry arbitrary expectations. `winner` and `inits` are history variables. */
module SyncStamp {

  type Tid = nat

  const MAGIC: nat := 1279873857
  const IN_PROGRESS: nat := 0xffff_ffff

  /** ABI major and minor version, backend, primitive kind and payload size, in the order
      they are stored and loaded. */
  const FIELDS: nat := 5
  type Stamp = f: seq<nat> | |f| == FIELDS witness seq(FIELDS, _ => 0)

  datatype Pc =
    | Start
    | Claiming
    | Storing(n: nat)
    | Validating(actual: seq<nat>)
    | Success
    | Mismatch
    | TimedOut
    | Crashed

  datatype State = State(magic: nat, fields: Stamp, openers: map<Tid, Pc>, expected: map<Tid, Stamp>, winner: Tid,
      inits: nat)

  ghost predicate Init(s: State) {
    && s.magic == 0 && s.inits == 0 && s.openers.Keys == s.expected.Keys
    && forall t | t in s.openers :: s.openers[t].Start?
  }

  function Set(s: State, t: Tid, pc: Pc): State {
    s.(openers := s.openers[t := pc])
  }

  // Steps ---------------------------------------------------------------------------------

  /** Load the magic word: validate, wait (or give up waiting), try to claim, or reject. */
  ghost predicate LoadMagic(s: State, s': State, t: Tid, x: Pc) {
    && x.Start?
    && if s.magic == MAGIC then s' == Set(s, t, Validating([]))
       else if s.magic == IN_PROGRESS then s' == s || s' == Set(s, t, TimedOut)
       else s' == Set(s, t, if s.magic == 0 then Claiming else Mismatch)
  }

  ghost predicate Claim(s: State, s': State, t: Tid, x: Pc) {
    && x.Claiming?
    && s' == if s.magic == 0 then Set(s, t, Storing(0)).(magic := IN_PROGRESS, winner := t, inits := s.inits + 1)
             else Set(s, t, Start)
  }

  ghost predicate StoreField(s: State, s': State, t: Tid, x: Pc) {
    && x.Storing? && x.n < FIELDS && t in s.expected
    && s' == Set(s, t, Storing(x.n + 1)).(fields := s.fields[x.n := s.expected[t][x.n]])
  }

  ghost predicate Publish(s: State, s': State, t: Tid, x: Pc) {
    x.Storing? && x.n == FIELDS && s' == Set(s, t, Success).(magic := MAGIC)
  }

  ghost predicate LoadField(s: State, s': State, t: Tid, x: Pc) {
    x.Validating? && |x.actual| < FIELDS && s' == Set(s, t, Validating(x.actual + [s.fields[|x.actual|]]))
  }

  ghost predicate Compare(s: State, s': State, t: Tid, x: Pc) {
    && x.Validating? && |x.actual| == FIELDS && t in s.expected
    && s' == Set(s, t, if x.actual == s.expected[t] then Success else Mismatch)
  }

  ghost predicate Crash(s: State, s': State, t: Tid, x: Pc) {
    s' == Set(s, t, Crashed)
  }

  ghost predicate InitStep(s: State, s': State, t: Tid, x: Pc) {
    Claim(s, s', t, x) || StoreField(s, s', t, x) || Publish(s, s', t, x)
  }

  ghost predicate OpenerStep(s: State, s': State, t: Tid) {
    && t in s.openers
    && var x := s.openers[t];
       || LoadMagic(s, s', t, x) || InitStep(s, s', t, x) || LoadField(s, s', t, x)
       || Compare(s, s', t, x) || Crash(s, s', t, x)
  }

  ghost predicate Step(s: State, s': State) {
    exists t :: OpenerStep(s, s', t)
  }

  ghost predicate StepAt(tr: seq<State>, k: int)
    requires 0 < k < |tr|
  {
    Step(tr[k - 1], tr[k])
  }

  ghost predicate Run(tr: seq<State>) {
    |tr| > 0 && Init(tr[0]) && forall k | 0 < k < |tr| :: StepAt(tr, k)
  }

  // The invariant ---------------------------------------------------------------------------

  ghost predicate OpenerOk(s: State, t: Tid)
    requires t in s.openers
  {
    var x := s.openers[t];
    && t in s.expected
    && (x.Storing? ==>
         s.magic == IN_PROGRESS && t == s.winner && x.n <= FIELDS && s.fields[..x.n] == s.expected[t][..x.n])
    && (x.Validating? ==> s.magic == MAGIC && |x.actual| <= FIELDS && x.actual == s.fields[..|x.actual|])
    && (x.Success? ==> s.magic == MAGIC && s.expected[t] == s.fields)
  }

  ghost predicate Inv(s: State) {
    && s.magic in {0, IN_PROGRESS, MAGIC}
    && s.inits == (if s.magic == 0 then 0 else 1)
    && (s.magic != 0 ==> s.winner in s.expected)
    && (s.magic == MAGIC ==> s.fields == s.expected[s.winner])
    && (forall t | t in s.openers :: OpenerOk(s, t))
  }

  lemma InitStepKeeps(s: State, s': State, t: Tid)
    requires Inv(s) && t in s.openers && InitStep(s, s', t, s.openers[t])
    ensures Inv(s')
  {
    assert OpenerOk(s, t);
    forall u | u in s'.openers ensures OpenerOk(s', u) { assert OpenerOk(s, u); }
  }

  lemma QuietKeeps(s: State, s': State, t: Tid)
    requires Inv(s) && t in s.openers
    requires var x := s.openers[t];
        LoadMagic(s, s', t, x) || LoadField(s, s', t, x) || Compare(s, s', t, x) || Crash(s, s', t, x)
    ensures Inv(s')
  {
    assert OpenerOk(s, t);
    forall u | u in s'.openers ensures OpenerOk(s', u) { assert OpenerOk(s, u); }
  }

  lemma StepKeeps(s: State, s': State)
    requires Inv(s) && Step(s, s')
    ensures Inv(s') && s'.expected == s.expected
    ensures s.magic == MAGIC ==> s'.magic == MAGIC && s'.fields == s.fields
    ensures s.magic != 0 ==> s'.winner == s.winner && s'.magic != 0
  {
    var t :| OpenerStep(s, s', t);
    assert OpenerOk(s, t);
    if InitStep(s, s', t, s.openers[t]) { InitStepKeeps(s, s', t); } else { QuietKeeps(s, s', t); }
  }

  lemma {:induction false} RunInv(tr: seq<State>, k: nat)
    requires Run(tr) && k < |tr|
    ensures Inv(tr[k]) && tr[k].expected == tr[0].expected
  {
    if k > 0 {
      RunInv(tr, k - 1);
      assert StepAt(tr, k);
      StepKeeps(tr[k - 1], tr[k]);
    }
  }

  // Results -----------------------------------------------------------------------------------

  /** At most one opener ever initialises the stamp. */
  lemma OneInitialiser(tr: seq<State>, k: nat)
    requires Run(tr) && k < |tr|
    ensures tr[k].inits <= 1
    ensures forall t | t in tr[k].openers && tr[k].openers[t].Storing? :: t == tr[k].winner
  {
    RunInv(tr, k);
    forall t | t in tr[k].openers && tr[k].openers[t].Storing? ensures t == tr[k].winner { assert OpenerOk(tr[k], t); }
  }

  /** Once published, the fields are the initialiser's and never change. */
  lemma {:induction false} PublishedIsFixed(tr: seq<State>, j: nat, k: nat)
    requires Run(tr) && j <= k < |tr| && tr[j].magic == MAGIC
    ensures tr[k].magic == MAGIC && tr[k].fields == tr[j].fields
    ensures tr[j].winner in tr[j].expected && tr[k].fields == tr[j].expected[tr[j].winner]
    decreases k
  {
    if j == k {
      RunInv(tr, k);
    } else {
      PublishedIsFixed(tr, j, k - 1);
      RunInv(tr, k - 1);
      assert StepAt(tr, k);
      StepKeeps(tr[k - 1], tr[k]);
    }
  }

  ghost predicate Succeeded(s: State, t: Tid) {
    t in s.openers && s.openers[t].Success?
  }

  /** Any two openers that ever return success, at whatever times, expected the same five
      values. */
  lemma Agreement(tr: seq<State>, j: nat, k: nat, t: Tid, u: Tid)
    requires Run(tr) && j <= k < |tr| && Succeeded(tr[j], t) && Succeeded(tr[k], u)
    ensures t in tr[0].expected && u in tr[0].expected && tr[0].expected[t] == tr[0].expected[u]
  {
    RunInv(tr, j);
    RunInv(tr, k);
    assert OpenerOk(tr[j], t);
    assert OpenerOk(tr[k], u);
    PublishedIsFixed(tr, j, k);
  }

  /** An opener that finds the stamp published succeeds exactly when it expected what is
      published: a mismatch is never reported against an agreeing stamp. */
  lemma MismatchIsReal(tr: seq<State>, k: nat, t: Tid)
    requires Run(tr) && 0 < k < |tr| && t in tr[k - 1].openers && Compare(tr[k - 1], tr[k], t, tr[k - 1].openers[t])
    ensures Succeeded(tr[k], t) <==> tr[k].expected[t] == tr[k].fields
  {
    RunInv(tr, k - 1);
    assert OpenerOk(tr[k - 1], t);
  }

  ghost predicate StoringOrCrashed(s: State, t: Tid) {
    t in s.openers && (s.openers[t].Storing? || s.openers[t].Crashed?)
  }

  /** From a zeroed stamp the magic word is never anything but the three known values, so
      "magic mismatch" is never reported; a stamp left in progress belongs to an opener
      that is still storing or has crashed. */
  lemma {:induction false} StuckMeansCrashed(tr: seq<State>, k: nat)
    requires Run(tr) && k < |tr|
    ensures tr[k].magic in {0, IN_PROGRESS, MAGIC}
    ensures tr[k].magic == IN_PROGRESS ==> StoringOrCrashed(tr[k], tr[k].winner)
  {
    RunInv(tr, k);
    if k > 0 {
      StuckMeansCrashed(tr, k - 1);
      assert StepAt(tr, k);
      var t :| OpenerStep(tr[k - 1], tr[k], t);
      RunInv(tr, k - 1);
      assert OpenerOk(tr[k - 1], t);
    }
  }

  // What an opener answers ----------------------------------------------------------------------

  predicate Opening(x: Pc) {
    x.Start? || x.Claiming? || x.Storing? || x.Validating?
  }

  /** What each answer means, by the stamp. */
  ghost predicate AnswerIsReal(s: State, s': State, t: Tid) {
    && t in s'.openers && t in s'.expected
    && var x' := s'.openers[t];
       && (x'.Success? ==> s'.magic == MAGIC && s'.fields == s'.expected[t])
       && (x'.Mismatch? ==> s.magic == MAGIC && s.fields != s'.expected[t])
       && (x'.TimedOut? ==> s.magic == IN_PROGRESS)
  }

  lemma OpenerMoves(s: State, s': State, t: Tid)
    requires Inv(s) && OpenerStep(s, s', t) && Opening(s.openers[t])
    ensures AnswerIsReal(s, s', t)
  {
    assert OpenerOk(s, t);
  }

  lemma OthersStand(s: State, s': State, u: Tid, t: Tid)
    requires OpenerStep(s, s', u) && t in s.openers && t != u
    ensures t in s'.openers && s'.openers[t] == s.openers[t]
  {
  }

  /** In every step of every run: an opener that answers success agrees with the published stamp,
      one that answers mismatch differs from it, and one that times out has seen an
      initialisation in progress; losing the claim never makes it answer. */
  lemma AnswersAreReal(tr: seq<State>, k: nat, t: Tid)
    requires Run(tr) && 0 < k < |tr| && t in tr[k - 1].openers && Opening(tr[k - 1].openers[t])
    ensures AnswerIsReal(tr[k - 1], tr[k], t)
  {
    RunInv(tr, k - 1);
    RunInv(tr, k);
    assert OpenerOk(tr[k - 1], t);
    assert StepAt(tr, k);
    var u :| OpenerStep(tr[k - 1], tr[k], u);
    if u == t { OpenerMoves(tr[k - 1], tr[k], t); } else { OthersStand(tr[k - 1], tr[k], u, t); }
  }

  ghost predicate OpenerStepAt(tr: seq<State>, k: int, t: Tid)
    requires 0 < k < |tr|
  {
    OpenerStep(tr[k - 1], tr[k], t)
  }

  /** `tr` is a run that extends `from` by steps of opener `t` alone and ends in `s`. */
  ghost predicate Solo(from: seq<State>, tr: seq<State>, s: State, t: Tid) {
    && Run(from) && from <= tr && Run(tr) && tr[|tr| - 1] == s
    && forall k | |from| <= k < |tr| :: OpenerStepAt(tr, k, t)
  }

  lemma Goes(from: seq<State>, tr: seq<State>, p: State, s: State, t: Tid) returns (tr': seq<State>)
    requires Solo(from, tr, p, t) && OpenerStep(p, s, t)
    ensures Solo(from, tr', s, t)
  {
    tr' := tr + [s];
    forall k | 0 < k < |tr'| ensures StepAt(tr', k) { if k < |tr| { assert StepAt(tr, k); } }
    forall k | |from| <= k < |tr'| ensures OpenerStepAt(tr', k, t) { if k < |tr| { assert OpenerStepAt(tr, k, t); } }
  }

  lemma {:induction false} SoloStore(from: seq<State>, tr: seq<State>, s: State, t: Tid, n: nat)
      returns (tr': seq<State>)
    requires t in s.openers && t in s.expected && n <= FIELDS && s.fields[..n] == s.expected[t][..n]
    requires Solo(from, tr, Set(s, t, Storing(n)), t)
    ensures Solo(from, tr', Set(s, t, Storing(FIELDS)).(fields := s.expected[t]), t)
    decreases FIELDS - n
  {
    if n == FIELDS {
      assert s.fields == s.expected[t];
      tr' := tr;
    } else {
      var s0, u := Set(s, t, Storing(n)), s.(fields := s.fields[n := s.expected[t][n]]);
      assert StoreField(s0, Set(u, t, Storing(n + 1)), t, s0.openers[t]);
      tr' := Goes(from, tr, s0, Set(u, t, Storing(n + 1)), t);
      tr' := SoloStore(from, tr', u, t, n + 1);
    }
  }

  /** A lone opener of a zeroed stamp initialises it with its expectations and succeeds. */
  lemma SoloInit(tr: seq<State>, t: Tid) returns (tr': seq<State>)
    requires Run(tr) && var s := tr[|tr| - 1]; t in s.openers && t in s.expected && s.openers[t].Start? && s.magic == 0
    ensures var s := tr[|tr| - 1];
            var s' := s.(magic := MAGIC, fields := s.expected[t], winner := t, inits := s.inits + 1);
            Solo(tr, tr', Set(s', t, Success), t)
  {
    var s := tr[|tr| - 1];
    var s1, u := Set(s, t, Claiming), s.(magic := IN_PROGRESS, winner := t, inits := s.inits + 1);
    var s2, s3 := Set(u, t, Storing(0)), Set(u, t, Storing(FIELDS)).(fields := s.expected[t]);
    var s4 := Set(s, t, Success).(magic := MAGIC, fields := s.expected[t], winner := t, inits := s.inits + 1);
    assert LoadMagic(s, s1, t, s.openers[t]);
    tr' := Goes(tr, tr, s, s1, t);
    assert Claim(s1, s2, t, s1.openers[t]);
    tr' := Goes(tr, tr', s1, s2, t);
    tr' := SoloStore(tr, tr', u, t, 0);
    assert Publish(s3, s4, t, s3.openers[t]);
    tr' := Goes(tr, tr', s3, s4, t);
  }

  lemma {:induction false} SoloLoad(from: seq<State>, tr: seq<State>, s: State, t: Tid, n: nat)
      returns (tr': seq<State>)
    requires t in s.openers && n <= FIELDS && Solo(from, tr, Set(s, t, Validating(s.fields[..n])), t)
    ensures Solo(from, tr', Set(s, t, Validating(s.fields)), t)
    decreases FIELDS - n
  {
    if n == FIELDS {
      assert s.fields[..n] == s.fields;
      tr' := tr;
    } else {
      var s0, s1 := Set(s, t, Validating(s.fields[..n])), Set(s, t, Validating(s.fields[..n + 1]));
      assert s.fields[..n + 1] == s.fields[..n] + [s.fields[n]];
      assert LoadField(s0, s1, t, s0.openers[t]);
      tr' := Goes(from, tr, s0, s1, t);
      tr' := SoloLoad(from, tr', s, t, n + 1);
    }
  }

  /** A lone opener of a published stamp succeeds if it expected what is published, and reports a
      mismatch otherwise, even if it was about to initialise the stamp itself. */
  lemma SoloValidate(tr: seq<State>, t: Tid) returns (tr': seq<State>)
    requires Run(tr)
    requires var s := tr[|tr| - 1];
             t in s.openers && t in s.expected && (s.openers[t].Start? || s.openers[t].Claiming?) && s.magic == MAGIC
    ensures var s := tr[|tr| - 1];
            Solo(tr, tr', Set(s, t, if s.fields == s.expected[t] then Success else Mismatch), t)
  {
    var s := tr[|tr| - 1];
    var s1, s2 := Set(s, t, Validating([])), Set(s, t, Validating(s.fields));
    var s3 := Set(s, t, if s.fields == s.expected[t] then Success else Mismatch);
    tr' := tr;
    var s0 := Set(s, t, Start);
    if s.openers[t].Claiming? {
      assert Claim(s, s0, t, s.openers[t]);
      tr' := Goes(tr, tr', s, s0, t);
    }
    assert s.openers[t].Start? ==> s0 == s;
    assert LoadMagic(s0, s1, t, s0.openers[t]);
    tr' := Goes(tr, tr', s0, s1, t);
    assert s.fields[..0] == [];
    tr' := SoloLoad(tr, tr', s, t, 0);
    assert Compare(s2, s3, t, s2.openers[t]);
    tr' := Goes(tr, tr', s2, s3, t);
  }
}
