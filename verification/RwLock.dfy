/** The single-word reader-writer lock: the high bit flags a writer, the low 31 bits
    count readers. Every atomic access to the word is a step; any number of threads.

    The run hypothesis is the guard of `ReadWins`: fewer than 2^31 readers at a time.
    `readers` and `writer` are history variables. */
module RwLock {

  type Tid = nat

  const W_FLAG: nat := 0x8000_0000

  datatype Pc =
    | Idle
    | WantWrite
    | Drain
    | Writing
    | WantRead
    | Loaded(was: nat)
    | Reading

  /** `writer` holds the thread whose `fetch_or` set the flag, until it unlocks. */
  datatype State = State(lc: nat, threads: map<Tid, Pc>, readers: set<Tid>, writer: set<Tid>)

  ghost predicate Init(s: State) {
    s.lc == 0 && s.readers == {} && s.writer == {} && forall t | t in s.threads :: s.threads[t].Idle?
  }

  function Set(s: State, t: Tid, pc: Pc): State {
    s.(threads := s.threads[t := pc])
  }

  predicate Flagged(lc: nat) { lc >= W_FLAG }

  // Steps ---------------------------------------------------------------------------------

  ghost predicate Begin(s: State, s': State, t: Tid, x: Pc) {
    x.Idle? && (s' == Set(s, t, WantWrite) || s' == Set(s, t, WantRead))
  }

  /** `fetch_or(W_FLAG)`: go in if the word was 0, wait for the readers if it was not
      flagged, otherwise spin. */
  ghost predicate FetchOr(s: State, s': State, t: Tid, x: Pc) {
    && x.WantWrite?
    && s' == if Flagged(s.lc) then s
             else Set(s, t, if s.lc == 0 then Writing else Drain).(lc := s.lc + W_FLAG, writer := s.writer + {t})
  }

  ghost predicate Drained(s: State, s': State, t: Tid, x: Pc) {
    x.Drain? && s' == if s.lc % W_FLAG != 0 then s else Set(s, t, Writing)
  }

  ghost predicate Unlock(s: State, s': State, t: Tid, x: Pc) {
    x.Writing? && s' == Set(s, t, Idle).(lc := 0, writer := s.writer - {t})
  }

  ghost predicate LoadWord(s: State, s': State, t: Tid, x: Pc) {
    x.WantRead? && s' == Set(s, t, Loaded(s.lc))
  }

  /** A flagged word sends the reader back to load again, as does a failed CAS. */
  ghost predicate ReadFails(s: State, s': State, t: Tid, x: Pc) {
    x.Loaded? && s' == Set(s, t, WantRead)
  }

  ghost predicate ReadWins(s: State, s': State, t: Tid, x: Pc) {
    && x.Loaded? && !Flagged(x.was) && s.lc == x.was && |s.readers| + 1 < W_FLAG
    && s' == Set(s, t, Reading).(lc := s.lc + 1, readers := s.readers + {t})
  }

  /** `fetch_sub(1)`, which wraps at 32 bits. */
  ghost predicate UnlockShared(s: State, s': State, t: Tid, x: Pc) {
    x.Reading?
        && s' == Set(s, t, Idle).(lc := if s.lc == 0 then 2 * W_FLAG - 1 else s.lc - 1, readers := s.readers - {t})
  }

  ghost predicate ThreadStep(s: State, s': State, t: Tid) {
    && t in s.threads
    && var x := s.threads[t];
       || Begin(s, s', t, x) || FetchOr(s, s', t, x) || Drained(s, s', t, x) || Unlock(s, s', t, x)
       || LoadWord(s, s', t, x) || ReadFails(s, s', t, x) || ReadWins(s, s', t, x) || UnlockShared(s, s', t, x)
  }

  ghost predicate Step(s: State, s': State) {
    exists t :: ThreadStep(s, s', t)
  }

  ghost predicate StepAt(tr: seq<State>, k: int)
    requires 0 < k < |tr|
  {
    Step(tr[k - 1], tr[k])
  }

  ghost predicate Run(tr: seq<State>) {
    |tr| > 0 && Init(tr[0]) && forall k | 0 < k < |tr| :: StepAt(tr, k)
  }

  // The invariant ---------------------------------------------------------------------------

  ghost predicate ThreadOk(s: State, t: Tid)
    requires t in s.threads
  {
    var x := s.threads[t];
    && (x.Reading? <==> t in s.readers)
    && (x.Drain? || x.Writing? <==> t in s.writer)
    && (x.Writing? ==> s.readers == {})
  }

  /** The word is the writer flag plus the number of readers. */
  ghost predicate Inv(s: State) {
    && (forall t | t in s.threads :: ThreadOk(s, t))
    && s.readers + s.writer <= s.threads.Keys
    && (s.writer == {} || exists t :: s.writer == {t})
    && s.lc == |s.readers| + (if s.writer == {} then 0 else W_FLAG)
    && |s.readers| < W_FLAG
  }

  lemma FetchOrKeeps(s: State, s': State, t: Tid)
    requires Inv(s) && t in s.threads && FetchOr(s, s', t, s.threads[t])
    ensures Inv(s')
  {
    assert ThreadOk(s, t);
    forall u | u in s'.threads ensures ThreadOk(s', u) { assert ThreadOk(s, u); }
    assert s' != s ==> s.writer == {} && s'.writer == {t};
  }

  lemma WriterSteps(s: State, s': State, t: Tid)
    requires Inv(s) && t in s.threads && (Drained(s, s', t, s.threads[t]) || Unlock(s, s', t, s.threads[t]))
    ensures Inv(s')
  {
    assert ThreadOk(s, t);
    assert s.writer == {t};
    forall u | u in s'.threads ensures ThreadOk(s', u) { assert ThreadOk(s, u); }
  }

  lemma ReaderSteps(s: State, s': State, t: Tid)
    requires Inv(s) && t in s.threads
    requires var x := s.threads[t]; ReadWins(s, s', t, x) || UnlockShared(s, s', t, x)
    ensures Inv(s')
  {
    assert ThreadOk(s, t);
    forall u | u in s'.threads ensures ThreadOk(s', u) { assert ThreadOk(s, u); }
    assert s.threads[t].Reading? ==> |s.readers| == |s'.readers| + 1;
  }

  lemma QuietSteps(s: State, s': State, t: Tid)
    requires Inv(s) && t in s.threads
    requires var x := s.threads[t]; Begin(s, s', t, x) || LoadWord(s, s', t, x) || ReadFails(s, s', t, x)
    ensures Inv(s')
  {
    assert ThreadOk(s, t);
    forall u | u in s'.threads ensures ThreadOk(s', u) { assert ThreadOk(s, u); }
  }

  lemma {:induction false} RunInv(tr: seq<State>, k: nat)
    requires Run(tr) && k < |tr|
    ensures Inv(tr[k])
  {
    if k > 0 {
      RunInv(tr, k - 1);
      assert StepAt(tr, k);
      var s, s' := tr[k - 1], tr[k];
      var t :| ThreadStep(s, s', t);
      var x := s.threads[t];
      if FetchOr(s, s', t, x) { FetchOrKeeps(s, s', t); }
      else if Drained(s, s', t, x) || Unlock(s, s', t, x) { WriterSteps(s, s', t); }
      else if ReadWins(s, s', t, x) || UnlockShared(s, s', t, x) { ReaderSteps(s, s', t); }
      else { QuietSteps(s, s', t); }
    }
  }

  // Results -----------------------------------------------------------------------------------

  ghost predicate At(s: State, t: Tid, pc: Pc) {
    t in s.threads && s.threads[t] == pc
  }

  /** The word is the writer flag plus the number of threads reading, in every run. */
  lemma WordCounts(tr: seq<State>, k: nat)
    requires Run(tr) && k < |tr|
    ensures tr[k].lc == |tr[k].readers| + (if tr[k].writer == {} then 0 else W_FLAG)
    ensures forall t :: t in tr[k].readers <==> At(tr[k], t, Reading)
    ensures forall t :: t in tr[k].writer <==> At(tr[k], t, Drain) || At(tr[k], t, Writing)
  {
    RunInv(tr, k);
    forall t ensures t in tr[k].readers <==> At(tr[k], t, Reading) { assert t in tr[k].threads ==> ThreadOk(tr[k], t); }
    forall t ensures t in tr[k].writer <==> At(tr[k], t, Drain) || At(tr[k], t, Writing) {
      assert t in tr[k].threads ==> ThreadOk(tr[k], t);
    }
  }

  /** A writer shares the lock with nobody, and at most one is past its `fetch_or`. */
  lemma Exclusive(tr: seq<State>, k: nat, t: Tid, u: Tid)
    requires Run(tr) && k < |tr|
    ensures At(tr[k], t, Writing) ==> !At(tr[k], u, Reading)
    ensures (At(tr[k], t, Drain) || At(tr[k], t, Writing)) && (At(tr[k], u, Drain) || At(tr[k], u, Writing)) ==> t == u
  {
    var s := tr[k];
    RunInv(tr, k);
    assert t in s.threads ==> ThreadOk(s, t);
    assert u in s.threads ==> ThreadOk(s, u);
    assert forall v | s.writer == {v} :: t in s.writer && u in s.writer ==> t == u;
  }

  /** No reader enters while a writer waits for the others to leave, or writes. */
  lemma WriterBlocksReaders(tr: seq<State>, k: nat, t: Tid, u: Tid)
    requires Run(tr) && 0 < k < |tr| && At(tr[k], t, Reading) && !At(tr[k - 1], t, Reading)
    ensures !At(tr[k - 1], u, Drain) && !At(tr[k - 1], u, Writing)
  {
    var s, s' := tr[k - 1], tr[k];
    RunInv(tr, k - 1);
    assert StepAt(tr, k);
    var v :| ThreadStep(s, s', v);
    assert ReadWins(s, s', v, s.threads[v]);
    assert u in s.threads ==> ThreadOk(s, u);
  }

  // What a call comes back with ---------------------------------------------------------------

  lemma OthersStand(s: State, s': State, u: Tid, t: Tid)
    requires ThreadStep(s, s', u) && t in s.threads && t != u
    ensures t in s'.threads && s'.threads[t] == s.threads[t]
  {
  }

  lemma CallMoves(s: State, s': State, t: Tid)
    requires ThreadStep(s, s', t)
    ensures t in s'.threads
    ensures var x, x' := s.threads[t], s'.threads[t];
            && (x.WantWrite? || x.Drain? ==> x'.WantWrite? || x'.Drain? || x'.Writing?)
            && (x.WantRead? || x.Loaded? ==> x'.WantRead? || x'.Loaded? || x'.Reading?)
  {
  }

  /** In every step of every run: a thread that has called `lock` or `lock_shared` stays in the call
      until it has the lock it asked for, whatever races it loses. */
  lemma ReturnsWithTheLock(tr: seq<State>, k: nat, t: Tid)
    requires Run(tr) && 0 < k < |tr| && t in tr[k - 1].threads
    ensures t in tr[k].threads
    ensures var x, x' := tr[k - 1].threads[t], tr[k].threads[t];
            && (x.WantWrite? || x.Drain? ==> x'.WantWrite? || x'.Drain? || x'.Writing?)
            && (x.WantRead? || x.Loaded? ==> x'.WantRead? || x'.Loaded? || x'.Reading?)
  {
    assert StepAt(tr, k);
    var u :| ThreadStep(tr[k - 1], tr[k], u);
    if u == t { CallMoves(tr[k - 1], tr[k], t); } else { OthersStand(tr[k - 1], tr[k], u, t); }
  }

  ghost predicate ThreadStepAt(tr: seq<State>, k: int, t: Tid)
    requires 0 < k < |tr|
  {
    ThreadStep(tr[k - 1], tr[k], t)
  }

  /** `tr` is a run that extends `from` by steps of thread `t` alone and ends in `s`. */
  ghost predicate Solo(from: seq<State>, tr: seq<State>, s: State, t: Tid) {
    && Run(from) && from <= tr && Run(tr) && tr[|tr| - 1] == s
    && forall k | |from| <= k < |tr| :: ThreadStepAt(tr, k, t)
  }

  lemma Goes(from: seq<State>, tr: seq<State>, p: State, s: State, t: Tid) returns (tr': seq<State>)
    requires Solo(from, tr, p, t) && ThreadStep(p, s, t)
    ensures Solo(from, tr', s, t)
  {
    tr' := tr + [s];
    forall k | 0 < k < |tr'| ensures StepAt(tr', k) { if k < |tr| { assert StepAt(tr, k); } }
    forall k | |from| <= k < |tr'| ensures ThreadStepAt(tr', k, t) { if k < |tr| { assert ThreadStepAt(tr, k, t); } }
  }

  /** A lone `lock` gets the lock when nobody reads or writes. */
  lemma SoloLock(tr: seq<State>, t: Tid) returns (tr': seq<State>)
    requires Run(tr)
    requires var s := tr[|tr| - 1];
             t in s.threads && (s.threads[t].Idle? || s.threads[t].WantWrite?) && s.readers == {} && s.writer == {}
    ensures var s := tr[|tr| - 1]; Solo(tr, tr', Set(s, t, Writing).(lc := W_FLAG, writer := {t}), t)
  {
    var s := tr[|tr| - 1];
    RunInv(tr, |tr| - 1);
    var s1, s2 := Set(s, t, WantWrite), Set(s, t, Writing).(lc := W_FLAG, writer := {t});
    tr' := tr;
    if s.threads[t].Idle? {
      assert Begin(s, s1, t, s.threads[t]);
      tr' := Goes(tr, tr', s, s1, t);
    }
    assert s.threads[t].WantWrite? ==> s1 == s;
    assert FetchOr(s1, s2, t, s1.threads[t]);
    tr' := Goes(tr, tr', s1, s2, t);
  }

  /** A writer that waits for readers goes in once the last of them has left. */
  lemma SoloDrained(tr: seq<State>, t: Tid) returns (tr': seq<State>)
    requires Run(tr) && var s := tr[|tr| - 1]; t in s.threads && s.threads[t].Drain? && s.readers == {}
    ensures Solo(tr, tr', Set(tr[|tr| - 1], t, Writing), t)
  {
    var s := tr[|tr| - 1];
    RunInv(tr, |tr| - 1);
    assert ThreadOk(s, t);
    assert Drained(s, Set(s, t, Writing), t, s.threads[t]);
    tr' := Goes(tr, tr, s, Set(s, t, Writing), t);
  }

  /** A lone `lock_shared` gets in while no writer writes or waits, whatever word it had loaded. */
  lemma SoloLockShared(tr: seq<State>, t: Tid) returns (tr': seq<State>)
    requires Run(tr)
    requires var s := tr[|tr| - 1];
             && t in s.threads && (s.threads[t].Idle? || s.threads[t].WantRead? || s.threads[t].Loaded?)
             && s.writer == {} && |s.readers| + 1 < W_FLAG
    ensures var s := tr[|tr| - 1];
            Solo(tr, tr', Set(s, t, Reading).(lc := s.lc + 1, readers := s.readers + {t}), t)
  {
    var s := tr[|tr| - 1];
    RunInv(tr, |tr| - 1);
    var s1, s2 := Set(s, t, WantRead), Set(s, t, Loaded(s.lc));
    var s3 := Set(s, t, Reading).(lc := s.lc + 1, readers := s.readers + {t});
    tr' := tr;
    if !s.threads[t].WantRead? {
      assert Begin(s, s1, t, s.threads[t]) || ReadFails(s, s1, t, s.threads[t]);
      tr' := Goes(tr, tr', s, s1, t);
    }
    assert s.threads[t].WantRead? ==> s1 == s;
    assert LoadWord(s1, s2, t, s1.threads[t]);
    tr' := Goes(tr, tr', s1, s2, t);
    assert ReadWins(s2, s3, t, s2.threads[t]);
    tr' := Goes(tr, tr', s2, s3, t);
  }

  /** A lone `unlock` leaves the lock to nobody. */
  lemma SoloUnlock(tr: seq<State>, t: Tid) returns (tr': seq<State>)
    requires Run(tr) && At(tr[|tr| - 1], t, Writing)
    ensures Solo(tr, tr', Set(tr[|tr| - 1], t, Idle).(lc := 0, readers := {}, writer := {}), t)
  {
    var s := tr[|tr| - 1];
    RunInv(tr, |tr| - 1);
    assert ThreadOk(s, t);
    var s1 := Set(s, t, Idle).(lc := 0, readers := {}, writer := {});
    assert s.writer - {t} == {};
    assert Unlock(s, s1, t, s.threads[t]);
    tr' := Goes(tr, tr, s, s1, t);
  }

  /** A lone `unlock_shared` takes one off the count of readers. */
  lemma SoloUnlockShared(tr: seq<State>, t: Tid) returns (tr': seq<State>)
    requires Run(tr) && At(tr[|tr| - 1], t, Reading)
    ensures var s := tr[|tr| - 1];
            s.lc > 0 && Solo(tr, tr', Set(s, t, Idle).(lc := s.lc - 1, readers := s.readers - {t}), t)
  {
    var s := tr[|tr| - 1];
    RunInv(tr, |tr| - 1);
    assert ThreadOk(s, t);
    var s1 := Set(s, t, Idle).(lc := s.lc - 1, readers := s.readers - {t});
    assert UnlockShared(s, s1, t, s.threads[t]);
    tr' := Goes(tr, tr, s, s1, t);
  }
}
