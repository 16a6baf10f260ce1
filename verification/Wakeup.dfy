/** The waiter (mutex and sequence-counter condition variable) as a system of atomic
    steps: `wait_if` on one side, a change of the predicate followed by `broadcast` or
    `notify` on the other, for any number of threads.

    The kernel's compare-and-block is one step: it sleeps only if the counter still has
    the expected value. Sleeping threads may also wake for no reason, time out, or see an
    error. The counter is 32 bits wide; that one wait does not outlive 2^32 bumps is a
    guard. `settled` and `done` are history variables. */
module Wakeup {
  import opened RingWords

  type Tid = nat

  /** Where a thread stands. `W`: in `wait_if` and `AppleCondition::wait`, with the
      counter value it expects. `B`: in `broadcast` (or `notify`, if `all` is false)
      after making the predicates of the threads `d` false for good. */
  datatype Pc =
    | Out
    | WLock
    | WTest
    | WSeq
    | WCount(e: nat)
    | WUnlock(e: nat)
    | WCheck(e: nat)
    | WBlock(e: nat)
    | WAsleep(e: nat)
    | WLeave(timedOut: bool)
    | WRelock(timedOut: bool)
    | WExit(timedOut: bool)
    | BLock(d: set<Tid>, all: bool)
    | BUnlock(d: set<Tid>, all: bool)
    | BSeq(d: set<Tid>, all: bool)
    | BWaiters(d: set<Tid>, all: bool)
    | BWake(d: set<Tid>, all: bool)

  /** `pred[t]` is what the predicate (and quit flag) of thread `t` evaluates to; `settled`
      are the threads whose predicate is false for good, `done` those for which a
      broadcast has completed since. */
  datatype State = State(
    holder: set<Tid>, count: nat, waiters: int, pred: map<Tid, bool>, threads: map<Tid, Pc>,
    settled: set<Tid>, done: set<Tid>)

  ghost predicate Init(s: State) {
    && s.holder == {} && s.waiters == 0 && s.settled == {} && s.done == {}
    && s.pred.Keys == s.threads.Keys
    && (forall t | t in s.threads :: s.threads[t] == Out)
  }

  function Set(s: State, t: Tid, x: Pc): State {
    s.(threads := s.threads[t := x])
  }

  predicate Same(a: nat, b: nat) {
    a % U32 == b % U32
  }

  /** Fewer than 2^32 bumps since the wait loaded `e`. */
  predicate Fresh(s: State, e: nat) {
    s.count < e + U32
  }

  // wait_if -----------------------------------------------------------------------------

  ghost predicate EnterWait(s: State, s': State, t: Tid, x: Pc) {
    x.Out? && s' == Set(s, t, WLock)
  }

  ghost predicate Lock(s: State, s': State, t: Tid, x: Pc) {
    && (x.WLock? || x.WRelock?) && s.holder == {}
    && s' == Set(s.(holder := {t}), t, if x.WRelock? && x.timedOut then WExit(true) else WTest)
  }

  ghost predicate Test(s: State, s': State, t: Tid, x: Pc) {
    x.WTest? && t in s.pred && s' == Set(s, t, if s.pred[t] then WSeq else WExit(false))
  }

  ghost predicate LoadSeq(s: State, s': State, t: Tid, x: Pc) {
    x.WSeq? && s' == Set(s, t, WCount(s.count))
  }

  ghost predicate AddWaiter(s: State, s': State, t: Tid, x: Pc) {
    x.WCount? && s' == Set(s.(waiters := s.waiters + 1), t, WUnlock(x.e))
  }

  ghost predicate Unlock(s: State, s': State, t: Tid, x: Pc) {
    x.WUnlock? && s' == Set(s.(holder := {}), t, WCheck(x.e))
  }

  ghost predicate Check(s: State, s': State, t: Tid, x: Pc) {
    x.WCheck? && Fresh(s, x.e) && s' == Set(s, t, if Same(s.count, x.e) then WBlock(x.e) else WLeave(false))
  }

  /** Compare and block: a changed counter returns at once. */
  ghost predicate Block(s: State, s': State, t: Tid, x: Pc) {
    x.WBlock? && Fresh(s, x.e) && s' == Set(s, t, if Same(s.count, x.e) then WAsleep(x.e) else WCheck(x.e))
  }

  /** A spurious or interrupted return, an error, or a timeout. */
  ghost predicate WakeEarly(s: State, s': State, t: Tid, x: Pc) {
    && (x.WBlock? || x.WAsleep? || x.WCheck?)
    && (s' == Set(s, t, WCheck(x.e)) || s' == Set(s, t, WLeave(false)) || s' == Set(s, t, WLeave(true)))
  }

  ghost predicate Leave(s: State, s': State, t: Tid, x: Pc) {
    x.WLeave? && s' == Set(s.(waiters := s.waiters - 1), t, WRelock(x.timedOut))
  }

  ghost predicate Return(s: State, s': State, t: Tid, x: Pc) {
    x.WExit? && s' == Set(s.(holder := {}), t, Out)
  }

  // A change, then broadcast or notify ------------------------------------------------------

  /** The predicates of unsettled threads may change at any time. */
  ghost predicate Flip(s: State, s': State, t: Tid, v: bool) {
    t in s.threads && t !in s.settled && s' == s.(pred := s.pred[t := v])
  }

  /** Thread `t` makes the predicates of `d` false for good and starts to signal. */
  ghost predicate Change(s: State, s': State, t: Tid, x: Pc, d: set<Tid>, all: bool) {
    && x.Out? && d <= s.threads.Keys
    && s' == Set(s.(pred := map u | u in s.pred :: u !in d && s.pred[u], settled := s.settled + d), t, BLock(d, all))
  }

  ghost predicate BarrierLock(s: State, s': State, t: Tid, x: Pc) {
    x.BLock? && s.holder == {} && s' == Set(s.(holder := {t}), t, BUnlock(x.d, x.all))
  }

  ghost predicate BarrierUnlock(s: State, s': State, t: Tid, x: Pc) {
    x.BUnlock? && s' == Set(s.(holder := {}), t, BSeq(x.d, x.all))
  }

  ghost predicate Bump(s: State, s': State, t: Tid, x: Pc) {
    x.BSeq? && s' == Set(s.(count := s.count + 1), t, BWaiters(x.d, x.all))
  }

  /** Nobody is counted as waiting: signalling is over. */
  ghost predicate NoWaiters(s: State, s': State, t: Tid, x: Pc) {
    && x.BWaiters? && s.waiters <= 0
    && s' == Set(s, t, Out).(done := if x.all then s.done + x.d else s.done)
  }

  ghost predicate SomeWaiters(s: State, s': State, t: Tid, x: Pc) {
    x.BWaiters? && s.waiters > 0 && s' == Set(s, t, BWake(x.d, x.all))
  }

  function Woken(x: Pc): Pc {
    if x.WAsleep? then WCheck(x.e) else x
  }

  ghost predicate WakeAll(s: State, s': State, t: Tid, x: Pc) {
    && x.BWake? && x.all
    && s' == s.(threads := map u | u in s.threads :: if u == t then Out else Woken(s.threads[u]), done := s.done + x.d)
  }

  ghost predicate WakeOne(s: State, s': State, t: Tid, x: Pc, u: Tid) {
    x.BWake? && !x.all && u in s.threads && u != t && s' == Set(Set(s, u, Woken(s.threads[u])), t, Out)
  }

  ghost predicate WaitStep(s: State, s': State, t: Tid, x: Pc) {
    || EnterWait(s, s', t, x) || Lock(s, s', t, x) || Test(s, s', t, x) || LoadSeq(s, s', t, x)
    || AddWaiter(s, s', t, x) || Unlock(s, s', t, x) || Check(s, s', t, x) || Block(s, s', t, x)
    || WakeEarly(s, s', t, x) || Leave(s, s', t, x) || Return(s, s', t, x)
  }

  ghost predicate SignalStep(s: State, s': State, t: Tid, x: Pc) {
    || (exists d, all :: Change(s, s', t, x, d, all))
    || BarrierLock(s, s', t, x) || BarrierUnlock(s, s', t, x) || Bump(s, s', t, x)
    || NoWaiters(s, s', t, x) || SomeWaiters(s, s', t, x) || WakeAll(s, s', t, x)
    || (exists u :: WakeOne(s, s', t, x, u))
  }

  ghost predicate Step(s: State, s': State) {
    || (exists t, v :: Flip(s, s', t, v))
    || (exists t | t in s.threads :: WaitStep(s, s', t, s.threads[t]))
    || (exists t | t in s.threads :: SignalStep(s, s', t, s.threads[t]))
  }

  ghost predicate StepAt(tr: seq<State>, k: int)
    requires 0 < k < |tr|
  {
    Step(tr[k - 1], tr[k])
  }

  ghost predicate Run(tr: seq<State>) {
    |tr| > 0 && Init(tr[0]) && forall k | 0 < k < |tr| :: StepAt(tr, k)
  }

  // The invariant ---------------------------------------------------------------------------

  predicate Holding(x: Pc) {
    x.WTest? || x.WSeq? || x.WCount? || x.WUnlock? || x.WExit? || x.BUnlock?
  }

  /** Between the predicate test and the release of the mutex. */
  predicate Entering(x: Pc) {
    x.WSeq? || x.WCount? || x.WUnlock?
  }

  predicate Waiting(x: Pc) {
    x.WCheck? || x.WBlock? || x.WAsleep?
  }

  /** Counted in `waiters`. */
  predicate Counted(x: Pc) {
    x.WUnlock? || Waiting(x) || x.WLeave?
  }

  function CountedThreads(s: State): set<Tid> {
    set t | t in s.threads && Counted(s.threads[t])
  }

  /** Past the barrier of a broadcast: thread `u` will not fall asleep on this predicate
      unless it expects the current counter. */
  predicate Barred(x: Pc) {
    !Entering(x)
  }

  /** After the bump as well: what the thread expects is stale. */
  predicate Outdated(s: State, x: Pc) {
    !Entering(x) && (Waiting(x) ==> x.e < s.count)
  }

  ghost predicate ThreadOk(s: State, t: Tid)
    requires t in s.threads
  {
    var x := s.threads[t];
    && (Holding(x) <==> t in s.holder)
    && (x.WCount? || x.WUnlock? || Waiting(x) ==> x.e <= s.count)
    && (x.BLock? || x.BUnlock? || x.BSeq? || x.BWaiters? || x.BWake? ==> x.d <= s.settled && x.d <= s.threads.Keys)
    && (x.BUnlock? || x.BSeq? ==> forall u | u in x.d :: Barred(s.threads[u]))
    && (x.BWaiters? || x.BWake? ==> forall u | u in x.d :: Outdated(s, s.threads[u]))
  }

  ghost predicate Inv(s: State) {
    && s.pred.Keys == s.threads.Keys
    && s.done <= s.settled <= s.threads.Keys
    && (forall t, u | t in s.holder && u in s.holder :: t == u)
    && s.waiters == |CountedThreads(s)|
    && (forall t | t in s.settled :: !s.pred[t])
    && (forall t | t in s.threads :: ThreadOk(s, t))
    && (forall t | t in s.done :: Outdated(s, s.threads[t]) && !s.threads[t].WAsleep?)
  }

  lemma InitInv(s: State)
    requires Init(s)
    ensures Inv(s)
  {
    assert CountedThreads(s) == {};
  }

  /** Moving one thread changes the number of counted threads by that thread alone. */
  lemma CountMoves(s: State, s': State, t: Tid, x: Pc)
    requires t in s.threads && s'.threads == s.threads[t := x]
    ensures |CountedThreads(s')|
        == |CountedThreads(s)| + (if Counted(x) then 1 else 0) - (if Counted(s.threads[t]) then 1 else 0)
  {
    var a, b := CountedThreads(s), CountedThreads(s');
    assert a - {t} == b - {t};
    assert |a - {t}| == |a| - if t in a then 1 else 0;
    assert |b - {t}| == |b| - if t in b then 1 else 0;
  }

  predicate Signalling(x: Pc) {
    x.BLock? || x.BUnlock? || x.BSeq? || x.BWaiters? || x.BWake?
  }

  /** What a waiting step may do: move thread `t`, pass the mutex through its hands, and,
      if its predicate is settled, neither enter a wait nor fall asleep outdated. */
  ghost predicate WaitEffect(s: State, s': State, t: Tid) {
    && t in s.threads && t in s'.threads
    && var x, x' := s.threads[t], s'.threads[t];
       && s' == s.(threads := s.threads[t := x'], holder := s'.holder, waiters := s'.waiters)
       && (s'.holder == s.holder || (s.holder == {} && s'.holder == {t}) || (s.holder == {t} && s'.holder == {}))
       && (Holding(x') <==> t in s'.holder)
       && !Signalling(x) && !Signalling(x')
       && (x'.WCount? || x'.WUnlock? || Waiting(x') ==> x'.e <= s.count)
       && s'.waiters == s.waiters + (if Counted(x') then 1 else 0) - (if Counted(x) then 1 else 0)
       && (t in s.settled && Barred(x) ==> Barred(x'))
       && (t in s.settled && Outdated(s, x) ==> Outdated(s, x'))
       && (Outdated(s, x) && !x.WAsleep? ==> !x'.WAsleep?)
  }

  /** A settled thread never enters a wait; an outdated one never falls asleep. */
  lemma WaitHas(s: State, s': State, t: Tid)
    requires Inv(s) && t in s.threads && WaitStep(s, s', t, s.threads[t])
    ensures WaitEffect(s, s', t)
  {
    var x := s.threads[t];
    assert ThreadOk(s, t);
    if Holding(x) { assert s.holder == {t}; HoldingHas(s, s', t); } else { LooseHas(s, s', t); }
  }

  lemma HoldingHas(s: State, s': State, t: Tid)
    requires t in s.threads && ThreadOk(s, t) && Holding(s.threads[t]) && s.holder == {t}
    requires WaitStep(s, s', t, s.threads[t])
    requires t in s.settled && t in s.pred ==> !s.pred[t]
    ensures WaitEffect(s, s', t)
  {
  }

  lemma LooseHas(s: State, s': State, t: Tid)
    requires t in s.threads && ThreadOk(s, t) && !Holding(s.threads[t]) && WaitStep(s, s', t, s.threads[t])
    ensures WaitEffect(s, s', t)
  {
    var x := s.threads[t];
    if Block(s, s', t, x) && Same(s.count, x.e) { SameU32(s.count, x.e); }
  }

  lemma WaitKeepsThread(s: State, s': State, t: Tid, u: Tid)
    requires WaitEffect(s, s', t) && u in s.threads && ThreadOk(s, u) && ThreadOk(s, t)
    ensures ThreadOk(s', u)
  {
  }

  lemma WaitKeeps(s: State, s': State, t: Tid)
    requires Inv(s) && WaitEffect(s, s', t)
    ensures Inv(s')
  {
    assert ThreadOk(s, t);
    CountMoves(s, s', t, s'.threads[t]);
    forall u | u in s'.threads ensures ThreadOk(s', u) {
      assert ThreadOk(s, u);
      WaitKeepsThread(s, s', t, u);
    }
  }

  lemma FlipKeeps(s: State, s': State, t: Tid, v: bool)
    requires Inv(s) && Flip(s, s', t, v)
    ensures Inv(s')
  {
    assert CountedThreads(s') == CountedThreads(s);
    forall u | u in s'.threads ensures ThreadOk(s', u) { assert ThreadOk(s, u); }
  }

  lemma ChangeKeeps(s: State, s': State, t: Tid, d: set<Tid>, all: bool)
    requires Inv(s) && t in s.threads && Change(s, s', t, s.threads[t], d, all)
    ensures Inv(s')
  {
    CountMoves(s, s', t, BLock(d, all));
    forall u | u in s'.threads ensures ThreadOk(s', u) { assert ThreadOk(s, u); }
  }

  /** While the mutex is free, no thread is between its test and its release. */
  lemma FreeMutex(s: State, u: Tid)
    requires Inv(s) && s.holder == {} && u in s.threads
    ensures Barred(s.threads[u])
  {
    assert ThreadOk(s, u);
  }

  lemma BarrierKeepsThread(s: State, s': State, t: Tid, u: Tid)
    requires Inv(s) && t in s.threads && u in s.threads
    requires var x := s.threads[t]; BarrierLock(s, s', t, x) || BarrierUnlock(s, s', t, x) || SomeWaiters(s, s', t, x)
    ensures ThreadOk(s', u)
  {
    assert ThreadOk(s, t) && ThreadOk(s, u);
    if s.threads[t].BLock? {
      forall v | v in s.threads[t].d ensures Barred(s.threads[v]) { FreeMutex(s, v); }
    }
  }

  lemma BarrierKeeps(s: State, s': State, t: Tid)
    requires Inv(s) && t in s.threads
    requires var x := s.threads[t]; BarrierLock(s, s', t, x) || BarrierUnlock(s, s', t, x) || SomeWaiters(s, s', t, x)
    ensures Inv(s')
  {
    CountMoves(s, s', t, s'.threads[t]);
    forall u | u in s'.threads ensures ThreadOk(s', u) { BarrierKeepsThread(s, s', t, u); }
  }

  lemma BumpKeeps(s: State, s': State, t: Tid)
    requires Inv(s) && t in s.threads && Bump(s, s', t, s.threads[t])
    ensures Inv(s')
  {
    CountMoves(s, s', t, s'.threads[t]);
    assert ThreadOk(s, t);
    forall u | u in s'.threads ensures ThreadOk(s', u) {
      assert ThreadOk(s, u);
      if u == t { forall v | v in s.threads[t].d ensures Outdated(s', s'.threads[v]) { assert ThreadOk(s, v); } }
    }
  }

  /** If nobody is counted, nobody sleeps. */
  lemma NoWaitersKeeps(s: State, s': State, t: Tid)
    requires Inv(s) && t in s.threads && NoWaiters(s, s', t, s.threads[t])
    ensures Inv(s')
  {
    CountMoves(s, s', t, Out);
    assert ThreadOk(s, t);
    assert CountedThreads(s) == {};
    forall u | u in s.threads ensures !s.threads[u].WAsleep? {
      assert u !in CountedThreads(s);
    }
    forall u | u in s'.threads ensures ThreadOk(s', u) { assert ThreadOk(s, u); }
  }

  lemma WakeKeepsThread(s: State, s': State, u: Tid)
    requires u in s.threads && ThreadOk(s, u)
    requires s'.threads.Keys == s.threads.Keys && s'.count == s.count && s'.holder == s.holder
    requires s'.settled == s.settled
    requires forall v | v in s.threads ::
        s'.threads[v] == s.threads[v] || s'.threads[v] == Woken(s.threads[v])
            || (s'.threads[v].Out? && s.threads[v].BWake?)
    ensures ThreadOk(s', u)
  {
    forall v | v in s.threads && Outdated(s, s.threads[v]) ensures Outdated(s', s'.threads[v]) {}
  }

  lemma WakeAllKeeps(s: State, s': State, t: Tid)
    requires Inv(s) && t in s.threads && WakeAll(s, s', t, s.threads[t])
    ensures Inv(s')
  {
    assert CountedThreads(s') == CountedThreads(s);
    forall u | u in s'.threads ensures ThreadOk(s', u) {
      assert ThreadOk(s, u);
      WakeKeepsThread(s, s', u);
    }
    assert ThreadOk(s, t);
  }

  lemma WakeOneKeeps(s: State, s': State, t: Tid, v: Tid)
    requires Inv(s) && t in s.threads && WakeOne(s, s', t, s.threads[t], v)
    ensures Inv(s')
  {
    WakeOneCounts(s, s', t, v);
    forall u | u in s'.threads ensures ThreadOk(s', u) {
      assert ThreadOk(s, u);
      WakeKeepsThread(s, s', u);
    }
  }

  lemma WakeOneCounts(s: State, s': State, t: Tid, v: Tid)
    requires t in s.threads && WakeOne(s, s', t, s.threads[t], v)
    ensures CountedThreads(s') == CountedThreads(s)
  {
    forall u ensures u in CountedThreads(s') <==> u in CountedThreads(s) {}
  }

  lemma StepKeeps(s: State, s': State)
    requires Inv(s) && Step(s, s')
    ensures Inv(s')
  {
    if t, v :| Flip(s, s', t, v) {
      FlipKeeps(s, s', t, v);
    } else if t :| t in s.threads && WaitStep(s, s', t, s.threads[t]) {
      WaitHas(s, s', t);
      WaitKeeps(s, s', t);
    } else {
      var t :| t in s.threads && SignalStep(s, s', t, s.threads[t]);
      SignalKeeps(s, s', t);
    }
  }

  lemma SignalKeeps(s: State, s': State, t: Tid)
    requires Inv(s) && t in s.threads && SignalStep(s, s', t, s.threads[t])
    ensures Inv(s')
  {
    var x := s.threads[t];
    if d, all :| Change(s, s', t, x, d, all) { ChangeKeeps(s, s', t, d, all); }
    else if Bump(s, s', t, x) { BumpKeeps(s, s', t); }
    else if NoWaiters(s, s', t, x) { NoWaitersKeeps(s, s', t); }
    else if WakeAll(s, s', t, x) { WakeAllKeeps(s, s', t); }
    else if u :| WakeOne(s, s', t, x, u) { WakeOneKeeps(s, s', t, u); }
    else { BarrierKeeps(s, s', t); }
  }

  lemma {:induction false} RunInv(tr: seq<State>, k: nat)
    requires Run(tr) && k < |tr|
    ensures Inv(tr[k])
  {
    if k == 0 {
      InitInv(tr[0]);
    } else {
      RunInv(tr, k - 1);
      assert StepAt(tr, k);
      StepKeeps(tr[k - 1], tr[k]);
    }
  }

  lemma {:induction false} DoneStays(tr: seq<State>, j: nat, k: nat)
    requires Run(tr) && j <= k < |tr|
    ensures tr[j].done <= tr[k].done
    decreases k
  {
    if j < k {
      DoneStays(tr, j, k - 1);
      assert StepAt(tr, k);
    }
  }

  /** No lost wake-up: once a thread has made predicates false for good and completed its
      broadcast, none of their threads is asleep in `wait_if`, then or at any later point
      of the run. */
  lemma NoLostWakeup(tr: seq<State>, j: nat, k: nat, t: Tid, u: Tid)
    requires Run(tr) && 0 < j <= k < |tr| && t in tr[j - 1].threads
    requires var s, s' := tr[j - 1], tr[j]; var x := s.threads[t];
             (NoWaiters(s, s', t, x) || WakeAll(s, s', t, x)) && x.all && u in x.d
    ensures u in tr[k].threads && !tr[k].threads[u].WAsleep?
  {
    RunInv(tr, k);
    DoneStays(tr, j, k);
  }

  /** `broadcast` skips the wake-up call only when nobody is asleep. */
  lemma SkippedWakeIsHarmless(tr: seq<State>, k: nat, t: Tid)
    requires Run(tr) && k < |tr| && tr[k].waiters <= 0 && t in tr[k].threads
    ensures !tr[k].threads[t].WAsleep?
  {
    RunInv(tr, k);
    assert t !in CountedThreads(tr[k]);
  }
}
