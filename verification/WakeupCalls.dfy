/** What a call of `wait_if` answers, and that waiting and waking do happen: a call returns
    true only from a test that found its predicate false, and false only after a timeout; a
    thread whose predicate holds goes to sleep, a broadcast wakes it, and it returns. */
module WakeupCalls {
  import opened RingWords
  import opened Wakeup

  // Steps of a call -----------------------------------------------------------------------------

  /** In `wait_if`. */
  predicate InCall(x: Pc) {
    !x.Out? && !Signalling(x)
  }

  lemma OthersStand(s: State, s': State, t: Tid, u: Tid)
    requires t in s.threads && u in s.threads && u != t && !s.threads[u].WAsleep?
    requires WaitStep(s, s', t, s.threads[t]) || SignalStep(s, s', t, s.threads[t])
    ensures u in s'.threads && s'.threads[u] == s.threads[u]
  {
  }

  /** A thread that is not asleep moves only by its own steps. */
  lemma OwnStep(tr: seq<State>, k: nat, t: Tid)
    requires Run(tr) && 0 < k < |tr| && t in tr[k - 1].threads && !tr[k - 1].threads[t].WAsleep?
    requires InCall(tr[k - 1].threads[t])
    ensures t in tr[k].threads
    ensures tr[k].threads[t] == tr[k - 1].threads[t] || WaitStep(tr[k - 1], tr[k], t, tr[k - 1].threads[t])
  {
    assert StepAt(tr, k);
    var s, s' := tr[k - 1], tr[k];
    if u, v :| Flip(s, s', u, v) {
    } else if u :| u in s.threads && WaitStep(s, s', u, s.threads[u]) {
      if u != t { OthersStand(s, s', u, t); }
    } else {
      var u :| u in s.threads && SignalStep(s, s', u, s.threads[u]);
      if u != t { OthersStand(s, s', u, t); }
    }
  }

  /** The test decides exactly by the predicate: a thread leaves it for the exit if and only if
      its predicate is false, and into a wait if and only if it is true. */
  lemma TestIsExact(tr: seq<State>, k: nat, t: Tid)
    requires Run(tr) && 0 < k < |tr| && t in tr[k - 1].threads && tr[k - 1].threads[t].WTest?
    requires t in tr[k].threads && !tr[k].threads[t].WTest?
    ensures t in tr[k - 1].pred
    ensures tr[k].threads[t] == WExit(false) <==> !tr[k - 1].pred[t]
    ensures tr[k].threads[t].WSeq? <==> tr[k - 1].pred[t]
  {
    OwnStep(tr, k, t);
    assert Test(tr[k - 1], tr[k], t, tr[k - 1].threads[t]);
  }

  /** After a wait the mutex is taken again; a call whose wait timed out then exits, and any other
      goes back to its test. */
  lemma RelockIsExact(tr: seq<State>, k: nat, t: Tid)
    requires Run(tr) && 0 < k < |tr| && t in tr[k - 1].threads && tr[k - 1].threads[t].WRelock?
    requires t in tr[k].threads && !tr[k].threads[t].WRelock?
    ensures tr[k].threads[t] == WExit(true) <==> tr[k - 1].threads[t].timedOut
    ensures tr[k].threads[t].WTest? <==> !tr[k - 1].threads[t].timedOut
  {
    OwnStep(tr, k, t);
    assert Lock(tr[k - 1], tr[k], t, tr[k - 1].threads[t]);
  }

  lemma ComesToExit(s: State, s': State, t: Tid, x: Pc)
    requires WaitStep(s, s', t, x) && t in s'.threads && s'.threads[t].WExit?
    ensures if s'.threads[t].timedOut then x == WRelock(true) else x.WTest? && t in s.pred && !s.pred[t]
  {
  }

  lemma SignalsNoExit(s: State, s': State, t: Tid, u: Tid)
    requires u in s.threads && SignalStep(s, s', u, s.threads[u]) && t in s'.threads && s'.threads[t].WExit?
    ensures t in s.threads && s.threads[t] == s'.threads[t]
  {
  }

  /** How a thread comes to its exit: from a test that found its predicate false, or from a wait
      that timed out. */
  ghost predicate Exits(s: State, s': State, t: Tid, timedOut: bool) {
    && t in s.threads && t in s'.threads && s'.threads[t] == WExit(timedOut)
    && if timedOut then s.threads[t] == WRelock(true) else s.threads[t].WTest? && t in s.pred && !s.pred[t]
  }

  lemma ExitStep(tr: seq<State>, k: nat, t: Tid)
    requires Run(tr) && 0 < k < |tr| && t in tr[k].threads && tr[k].threads[t].WExit?
    ensures t in tr[k - 1].threads
    ensures tr[k - 1].threads[t] == tr[k].threads[t] || Exits(tr[k - 1], tr[k], t, tr[k].threads[t].timedOut)
  {
    assert StepAt(tr, k);
    var s, s' := tr[k - 1], tr[k];
    if u, v :| Flip(s, s', u, v) {
    } else if u :| u in s.threads && WaitStep(s, s', u, s.threads[u]) {
      if u == t { ComesToExit(s, s', t, s.threads[t]); } else { WaitOthers(s, s', u, t); }
    } else {
      var u :| u in s.threads && SignalStep(s, s', u, s.threads[u]);
      SignalsNoExit(s, s', t, u);
    }
  }

  lemma WaitOthers(s: State, s': State, t: Tid, u: Tid)
    requires t in s.threads && WaitStep(s, s', t, s.threads[t]) && u != t
    ensures u in s.threads <==> u in s'.threads
    ensures u in s.threads ==> s'.threads[u] == s.threads[u]
  {
  }

  /** Thread `t` came to its exit in step `i` and is still there in `k`. */
  ghost predicate ExitedAt(tr: seq<State>, i: int, k: int, t: Tid, timedOut: bool)
    requires 0 < i <= k < |tr|
  {
    && Exits(tr[i - 1], tr[i], t, timedOut)
    && forall h | i <= h <= k :: t in tr[h].threads && tr[h].threads[t] == WExit(timedOut)
  }

  /** The answer of a call: whoever is about to return has come there by one of the two ways.
      It returns true if and only if its last test, made under the mutex, found the predicate
      false, and false if and only if its wait timed out. */
  lemma {:induction false} WaitAnswers(tr: seq<State>, k: nat, t: Tid) returns (i: nat)
    requires Run(tr) && k < |tr| && t in tr[k].threads && tr[k].threads[t].WExit?
    ensures 0 < i <= k && ExitedAt(tr, i, k, t, tr[k].threads[t].timedOut)
  {
    ExitStep(tr, k, t);
    if tr[k - 1].threads[t] == tr[k].threads[t] {
      i := WaitAnswers(tr, k - 1, t);
    } else {
      i := k;
    }
  }

  lemma LeavesFromExit(s: State, s': State, t: Tid, x: Pc)
    requires WaitStep(s, s', t, x) && InCall(x) && t in s'.threads && s'.threads[t].Out?
    ensures x.WExit?
  {
  }

  /** A call returns from nowhere else. */
  lemma ReturnsFromExit(tr: seq<State>, k: nat, t: Tid)
    requires Run(tr) && 0 < k < |tr| && t in tr[k - 1].threads && InCall(tr[k - 1].threads[t])
    requires t in tr[k].threads && tr[k].threads[t].Out?
    ensures tr[k - 1].threads[t].WExit?
  {
    if tr[k - 1].threads[t].WAsleep? {
      SleeperStays(tr, k, t);
    } else {
      OwnStep(tr, k, t);
      LeavesFromExit(tr[k - 1], tr[k], t, tr[k - 1].threads[t]);
    }
  }

  lemma SleeperSignalled(s: State, s': State, t: Tid, u: Tid)
    requires u in s.threads && SignalStep(s, s', u, s.threads[u]) && t in s.threads && s.threads[t].WAsleep?
    ensures t in s'.threads && (s'.threads[t] == s.threads[t] || s'.threads[t] == WCheck(s.threads[t].e))
  {
  }

  lemma SleeperWakes(s: State, s': State, t: Tid)
    requires t in s.threads && s.threads[t].WAsleep? && WaitStep(s, s', t, s.threads[t])
    ensures t in s'.threads && (s'.threads[t] == WCheck(s.threads[t].e) || s'.threads[t].WLeave?)
  {
  }

  /** A sleeper goes back to its check, leaves its wait, or sleeps on. */
  lemma SleeperStays(tr: seq<State>, k: nat, t: Tid)
    requires Run(tr) && 0 < k < |tr| && t in tr[k - 1].threads && tr[k - 1].threads[t].WAsleep?
    ensures t in tr[k].threads
    ensures var x, x' := tr[k - 1].threads[t], tr[k].threads[t]; x' == x || x' == WCheck(x.e) || x'.WLeave?
  {
    assert StepAt(tr, k);
    var s, s' := tr[k - 1], tr[k];
    if u, v :| Flip(s, s', u, v) {
    } else if u :| u in s.threads && WaitStep(s, s', u, s.threads[u]) {
      if u == t { SleeperWakes(s, s', t); } else { WaitOthers(s, s', u, t); }
    } else {
      var u :| u in s.threads && SignalStep(s, s', u, s.threads[u]);
      SleeperSignalled(s, s', t, u);
    }
  }

  // Waiting and waking do happen --------------------------------------------------------------

  ghost predicate StepOf(s: State, s': State, t: Tid) {
    t in s.threads && (WaitStep(s, s', t, s.threads[t]) || SignalStep(s, s', t, s.threads[t]))
  }

  ghost predicate StepOfAt(tr: seq<State>, k: int, t: Tid)
    requires 0 < k < |tr|
  {
    StepOf(tr[k - 1], tr[k], t)
  }

  /** `tr` is a run that extends `from` by steps of thread `t` alone and ends in `s`. */
  ghost predicate Solo(from: seq<State>, tr: seq<State>, s: State, t: Tid) {
    && Run(from) && from <= tr && Run(tr) && tr[|tr| - 1] == s
    && forall k | |from| <= k < |tr| :: StepOfAt(tr, k, t)
  }

  lemma Goes(from: seq<State>, tr: seq<State>, p: State, s: State, t: Tid) returns (tr': seq<State>)
    requires Solo(from, tr, p, t) && StepOf(p, s, t)
    ensures Solo(from, tr', s, t) && tr' == tr + [s]
  {
    tr' := tr + [s];
    forall k | 0 < k < |tr'| ensures StepAt(tr', k) { if k < |tr| { assert StepAt(tr, k); } }
    forall k | |from| <= k < |tr'| ensures StepOfAt(tr', k, t) { if k < |tr| { assert StepOfAt(tr, k, t); } }
  }

  lemma Waits(from: seq<State>, tr: seq<State>, p: State, s: State, t: Tid) returns (tr': seq<State>)
    requires Solo(from, tr, p, t) && t in p.threads && WaitStep(p, s, t, p.threads[t])
    ensures Solo(from, tr', s, t) && tr' == tr + [s]
  {
    tr' := Goes(from, tr, p, s, t);
  }

  lemma Signals(from: seq<State>, tr: seq<State>, p: State, s: State, t: Tid) returns (tr': seq<State>)
    requires Solo(from, tr, p, t) && t in p.threads && SignalStep(p, s, t, p.threads[t])
    ensures Solo(from, tr', s, t) && tr' == tr + [s]
  {
    tr' := Goes(from, tr, p, s, t);
  }

  /** Thread `t` at `x` with the mutex. */
  function Inside(s: State, t: Tid, x: Pc): State {
    Set(s, t, x).(holder := {t})
  }

  lemma SoloEnter(from: seq<State>, s: State, t: Tid) returns (tr: seq<State>)
    requires Solo(from, from, s, t) && t in s.threads && s.threads[t].Out? && s.holder == {}
    ensures Solo(from, tr, Inside(s, t, WTest), t)
  {
    var s1, s2 := Set(s, t, WLock), Inside(s, t, WTest);
    assert EnterWait(s, s1, t, s.threads[t]);
    tr := Waits(from, from, s, s1, t);
    assert Lock(s1, s2, t, s1.threads[t]);
    tr := Waits(from, tr, s1, s2, t);
  }

  lemma SoloSleep(from: seq<State>, tr: seq<State>, s: State, t: Tid) returns (tr': seq<State>)
    requires Solo(from, tr, Inside(s, t, WCount(s.count)), t) && t in s.threads
    ensures Solo(from, tr', Set(s, t, WAsleep(s.count)).(holder := {}, waiters := s.waiters + 1), t)
  {
    var e, u := s.count, s.(holder := {}, waiters := s.waiters + 1);
    var s4, s5 := Inside(s, t, WCount(e)), Inside(s, t, WUnlock(e)).(waiters := s.waiters + 1);
    var s6, s7, s8 := Set(u, t, WCheck(e)), Set(u, t, WBlock(e)), Set(u, t, WAsleep(e));
    assert AddWaiter(s4, s5, t, s4.threads[t]);
    tr' := Waits(from, tr, s4, s5, t);
    assert Unlock(s5, s6, t, s5.threads[t]);
    tr' := Waits(from, tr', s5, s6, t);
    assert Check(s6, s7, t, s6.threads[t]);
    tr' := Waits(from, tr', s6, s7, t);
    assert Block(s7, s8, t, s7.threads[t]);
    tr' := Waits(from, tr', s7, s8, t);
  }

  /** The state in which `t` has gone to sleep, all else as it was. */
  function Sleeping(s: State, t: Tid): State {
    Set(s, t, WAsleep(s.count)).(waiters := s.waiters + 1)
  }

  /** A call that runs alone goes to sleep: from any state of any run with the mutex free and the
      predicate of an idle thread true. */
  lemma SoloWait(tr: seq<State>, t: Tid) returns (tr': seq<State>)
    requires Run(tr)
    requires var s := tr[|tr| - 1]; t in s.threads && s.threads[t].Out? && s.holder == {} && t in s.pred && s.pred[t]
    ensures Solo(tr, tr', Sleeping(tr[|tr| - 1], t), t)
  {
    var s := tr[|tr| - 1];
    var s2, s3, s4 := Inside(s, t, WTest), Inside(s, t, WSeq), Inside(s, t, WCount(s.count));
    tr' := SoloEnter(tr, s, t);
    assert Test(s2, s3, t, s2.threads[t]);
    tr' := Waits(tr, tr', s2, s3, t);
    assert LoadSeq(s3, s4, t, s3.threads[t]);
    tr' := Waits(tr, tr', s3, s4, t);
    tr' := SoloSleep(tr, tr', s, t);
    assert Set(s, t, WAsleep(s.count)).(holder := {}, waiters := s.waiters + 1) == Sleeping(s, t);
  }

  /** The state after a whole change and broadcast for `d`: its predicates are false for good, the
      counter is bumped and every sleeper is woken. */
  function Broadcast(s: State, t: Tid, d: set<Tid>): State {
    Changed(s, d).(count := s.count + 1, done := s.done + d,
                   threads := map u | u in s.threads :: if u == t then Out else Woken(s.threads[u]))
  }

  function Changed(s: State, d: set<Tid>): State {
    s.(pred := map u | u in s.pred :: u !in d && s.pred[u], settled := s.settled + d)
  }

  lemma SoloBarrier(from: seq<State>, s: State, t: Tid, d: set<Tid>, all: bool) returns (tr: seq<State>)
    requires Solo(from, from, s, t) && t in s.threads && s.threads[t].Out? && s.holder == {} && d <= s.threads.Keys
    ensures Solo(from, tr, Set(Changed(s, d), t, BSeq(d, all)), t)
  {
    var c := Changed(s, d);
    var s1, s2, s3 := Set(c, t, BLock(d, all)), Inside(c, t, BUnlock(d, all)), Set(c, t, BSeq(d, all));
    assert Change(s, s1, t, s.threads[t], d, all);
    tr := Signals(from, from, s, s1, t);
    assert BarrierLock(s1, s2, t, s1.threads[t]);
    tr := Signals(from, tr, s1, s2, t);
    assert BarrierUnlock(s2, s3, t, s2.threads[t]);
    tr := Signals(from, tr, s2, s3, t);
  }

  /** A broadcast that runs alone while somebody is counted as waiting wakes every sleeper. */
  lemma SoloBroadcast(tr: seq<State>, t: Tid, d: set<Tid>) returns (tr': seq<State>)
    requires Run(tr)
    requires var s := tr[|tr| - 1];
             t in s.threads && s.threads[t].Out? && s.holder == {} && d <= s.threads.Keys && s.waiters > 0
    ensures Solo(tr, tr', Broadcast(tr[|tr| - 1], t, d), t)
  {
    var s := tr[|tr| - 1];
    var c := Changed(s, d).(count := s.count + 1);
    var s3, s4, s5 := Set(Changed(s, d), t, BSeq(d, true)), Set(c, t, BWaiters(d, true)), Set(c, t, BWake(d, true));
    var s6 := Broadcast(s, t, d);
    tr' := SoloBarrier(tr, s, t, d, true);
    assert Bump(s3, s4, t, s3.threads[t]);
    tr' := Signals(tr, tr', s3, s4, t);
    assert SomeWaiters(s4, s5, t, s4.threads[t]);
    tr' := Signals(tr, tr', s4, s5, t);
    assert WakeAll(s5, s6, t, s5.threads[t]);
    tr' := Signals(tr, tr', s5, s6, t);
  }

  /** A notify that runs alone wakes whichever sleeper the kernel picks. */
  lemma SoloNotify(tr: seq<State>, t: Tid, d: set<Tid>, u: Tid) returns (tr': seq<State>)
    requires Run(tr)
    requires var s := tr[|tr| - 1];
             && t in s.threads && s.threads[t].Out? && s.holder == {} && d <= s.threads.Keys
             && u in s.threads && s.threads[u].WAsleep?
    ensures var s := tr[|tr| - 1];
            Solo(tr, tr', Set(Set(Changed(s, d).(count := s.count + 1), u, WCheck(s.threads[u].e)), t, Out), t)
  {
    var s := tr[|tr| - 1];
    var c := Changed(s, d).(count := s.count + 1);
    var s3, s4, s5 := Set(Changed(s, d), t, BSeq(d, false)), Set(c, t, BWaiters(d, false)), Set(c, t, BWake(d, false));
    var s6 := Set(Set(c, u, WCheck(s.threads[u].e)), t, Out);
    SleeperCounts(tr, |tr| - 1, u);
    tr' := SoloBarrier(tr, s, t, d, false);
    assert Bump(s3, s4, t, s3.threads[t]);
    tr' := Signals(tr, tr', s3, s4, t);
    assert SomeWaiters(s4, s5, t, s4.threads[t]);
    tr' := Signals(tr, tr', s4, s5, t);
    assert WakeOne(s5, s6, t, s5.threads[t], u);
    tr' := Signals(tr, tr', s5, s6, t);
  }

  /** A woken call that runs alone with its predicate false returns true. */
  lemma SoloReturn(tr: seq<State>, t: Tid, e: nat) returns (tr': seq<State>)
    requires Run(tr)
    requires var s := tr[|tr| - 1];
             && t in s.threads && s.threads[t] == WCheck(e) && e < s.count < e + U32 && s.holder == {}
             && t in s.pred && !s.pred[t]
    ensures |tr'| > 1 && var s := tr[|tr| - 1]; var u := s.(waiters := s.waiters - 1);
            tr'[|tr'| - 2] == Inside(u, t, WExit(false)) && Solo(tr, tr', Set(u, t, Out), t)
  {
    var s := tr[|tr| - 1];
    var u := s.(waiters := s.waiters - 1);
    var s1, s2, s3 := Set(s, t, WLeave(false)), Set(u, t, WRelock(false)), Inside(u, t, WTest);
    var s4, s5 := Inside(u, t, WExit(false)), Set(u, t, Out);
    if Same(s.count, e) { SameU32(s.count, e); }
    assert Check(s, s1, t, s.threads[t]);
    tr' := Waits(tr, tr, s, s1, t);
    assert Leave(s1, s2, t, s1.threads[t]);
    tr' := Waits(tr, tr', s1, s2, t);
    assert Lock(s2, s3, t, s2.threads[t]);
    tr' := Waits(tr, tr', s2, s3, t);
    assert Test(s3, s4, t, s3.threads[t]);
    tr' := Waits(tr, tr', s3, s4, t);
    assert Return(s4, s5, t, s4.threads[t]);
    tr' := Waits(tr, tr', s4, s5, t);
  }

  /** A sleeper whose wait times out returns false, alone, once the mutex is free. */
  lemma SoloTimeout(tr: seq<State>, t: Tid) returns (tr': seq<State>)
    requires Run(tr) && var s := tr[|tr| - 1]; t in s.threads && s.threads[t].WAsleep? && s.holder == {}
    ensures |tr'| > 1 && var s := tr[|tr| - 1]; var u := s.(waiters := s.waiters - 1);
            tr'[|tr'| - 2] == Inside(u, t, WExit(true)) && Solo(tr, tr', Set(u, t, Out), t)
  {
    var s := tr[|tr| - 1];
    var u := s.(waiters := s.waiters - 1);
    var s1, s2, s3 := Set(s, t, WLeave(true)), Set(u, t, WRelock(true)), Inside(u, t, WExit(true));
    assert WakeEarly(s, s1, t, s.threads[t]);
    tr' := Waits(tr, tr, s, s1, t);
    assert Leave(s1, s2, t, s1.threads[t]);
    tr' := Waits(tr, tr', s1, s2, t);
    assert Lock(s2, s3, t, s2.threads[t]);
    tr' := Waits(tr, tr', s2, s3, t);
    assert Return(s3, Set(u, t, Out), t, s3.threads[t]);
    tr' := Waits(tr, tr', s3, Set(u, t, Out), t);
  }

  /** Together: from any state of any run with the mutex free, an idle thread `t` whose predicate
      is true and another idle thread `u`, there is a continuation in which `t` calls `wait_if`
      and sleeps, `u` makes the predicate false and broadcasts, and `t` is woken and returns
      true. */
  lemma SleepsAndIsWoken(tr: seq<State>, t: Tid, u: Tid) returns (tr': seq<State>, a: nat, b: nat)
    requires Run(tr)
    requires var s := tr[|tr| - 1];
             && t in s.threads && u in s.threads && t != u && s.threads[t].Out? && s.threads[u].Out?
             && s.holder == {} && t in s.pred && s.pred[t]
    ensures Run(tr') && tr <= tr' && |tr| <= a < b < |tr'| - 2
    ensures t in tr'[a].threads && tr'[a].threads[t].WAsleep?
    ensures t in tr'[b].threads && tr'[b].threads[t].WCheck? && t in tr'[b].done
    ensures var s, s' := tr'[|tr'| - 2], tr'[|tr'| - 1];
            t in s.threads && t in s'.threads && s.threads[t] == WExit(false) && s'.threads[t].Out?
  {
    var s := tr[|tr| - 1];
    var slept := SoloWait(tr, t);
    a := |slept| - 1;
    SleeperCounts(slept, a, t);
    var woken := SoloBroadcast(slept, u, {t});
    b := |woken| - 1;
    tr' := SoloReturn(woken, t, s.count);
  }

  lemma SleeperCounts(tr: seq<State>, k: nat, t: Tid)
    requires Run(tr) && k < |tr| && t in tr[k].threads && tr[k].threads[t].WAsleep?
    ensures tr[k].waiters > 0
  {
    RunInv(tr, k);
    assert t in CountedThreads(tr[k]);
  }
}
