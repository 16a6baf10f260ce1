/** What every run of the bounded buffer keeps: semaphore counts, slots and order. */
module BufferOrder {
  import opened BoundedBuffer

  // Slots of a ring of any capacity ---------------------------------------------------------------

  lemma AtLeast(c: int, k: int)
    requires c > 0
    ensures k >= 1 ==> c * k >= c
    ensures k <= -1 ==> c * k <= -c
  {
    assert k >= 1 ==> c * (k - 1) >= 0 && c * k == c * (k - 1) + c;
    assert k <= -1 ==> c * (-1 - k) >= 0 && c * k == -c - c * (-1 - k);
  }

  lemma Remainder(n: nat, q: int, r: nat, c: nat)
    requires r < c && n == c * q + r
    ensures n % c == r
  {
    var d, m := n / c, n % c;
    assert n == c * d + m;
    assert c * (q - d) == m - r;
    AtLeast(c, q - d);
  }

  /** Advancing an index modulo the capacity follows the unbounded position. */
  lemma NextSlot(n: nat, c: nat)
    requires c > 0
    ensures (n % c + 1) % c == (n + 1) % c
  {
    var q, r := n / c, n % c;
    assert n == c * q + r;
    if r + 1 == c {
      assert c * (q + 1) == c * q + c;
      Remainder(n + 1, q + 1, 0, c);
      Remainder(c, 1, 0, c);
    } else {
      Remainder(n + 1, q, r + 1, c);
      Remainder(r + 1, 0, r + 1, c);
    }
  }

  /** Positions less than a lap apart live in different slots. */
  lemma SlotsApart(j: nat, n: nat, c: nat)
    requires j < n < j + c
    ensures j % c != n % c
  {
    assert j == c * (j / c) + j % c && n == c * (n / c) + n % c;
    assert c * (n / c - j / c) == c * (n / c) - c * (j / c);
    AtLeast(c, n / c - j / c);
  }

  // The invariant -------------------------------------------------------------------------------

  predicate Inside(pc: Pc) {
    pc.Locked? || pc.Fetched? || pc.Moved? || pc.Unlocking?
  }

  predicate Before(pc: Pc) {
    pc.Token? || pc.Locked? || pc.Fetched? || pc.Moved?
  }

  predicate After(pc: Pc) {
    pc.Unlocking? || pc.Posting?
  }

  ghost predicate ThreadOk(s: State, t: Tid)
    requires t in s.threads
  {
    var x := s.threads[t];
    && (t in s.mutex <==> Inside(x.pc))
    && (t in s.pIn <==> x.role.Produce? && Before(x.pc))
    && (t in s.pOut <==> x.role.Produce? && After(x.pc))
    && (t in s.cIn <==> x.role.Consume? && Before(x.pc))
    && (t in s.cOut <==> x.role.Consume? && After(x.pc))
  }

  /** The cursors follow the positions; only the mutex holder can be between the two. */
  ghost predicate CursorOk(s: State, t: Tid)
    requires t in s.threads && s.cap > 0
  {
    var x, w, r := s.threads[t], |s.written| % s.cap, |s.taken| % s.cap;
    && (x.pc.Fetched? || x.pc.Moved? ==> x.pc.idx == if x.role.Produce? then w else r)
    && s.head == (if x.role.Produce? && x.pc.Moved? then (w + 1) % s.cap else w)
    && s.tail == (if x.role.Consume? && x.pc.Moved? then (r + 1) % s.cap else r)
  }

  ghost predicate MutexOk(s: State) {
    && s.cap > 0 && s.mutex <= s.threads.Keys
    && (s.mutex == {} || exists t :: s.mutex == {t})
    && (s.mutex == {} ==> s.head == |s.written| % s.cap && s.tail == |s.taken| % s.cap)
    && (forall t | t in s.mutex :: CursorOk(s, t))
  }

  /** Tokens are conserved: each empty token stands for a free slot, each full one for an
      unread item. */
  ghost predicate CountsOk(s: State) {
    && s.empty.count + |s.pIn| + |s.written| - |s.taken| + |s.cOut| == s.cap
    && s.full.count + |s.pOut| + |s.cIn| == |s.written| - |s.taken|
    && s.empty.count + s.empty.waits == s.cap + s.empty.posts
    && s.full.count + s.full.waits == s.full.posts
    && s.empty.initial == s.cap && s.full.initial == 0
  }

  ghost predicate SlotsOk(s: State) {
    && s.cap > 0 && |s.slots| == s.cap && |s.taken| <= |s.written|
    && s.taken == s.written[..|s.taken|]
    && forall j | |s.taken| <= j < |s.written| :: s.slots[j % s.cap] == s.written[j]
  }

  ghost predicate Inv(s: State) {
    && (forall t | t in s.threads :: ThreadOk(s, t))
    && s.pIn + s.pOut + s.cIn + s.cOut <= s.threads.Keys
    && MutexOk(s) && CountsOk(s) && SlotsOk(s)
  }

  // Preservation --------------------------------------------------------------------------------

  lemma ThreadsKeep(s: State, s': State, t: Tid, u: Tid)
    requires MutexOk(s) && ThreadStep(s, s', t) && ThreadOk(s, t) && u in s.threads && ThreadOk(s, u)
    ensures s'.threads.Keys == s.threads.Keys && ThreadOk(s', u)
  {
    if SharedStep(s, s', t) { SharedThreads(s, s', t, u); }
    else if ProducerStep(s, s', t) { ProducerThreads(s, s', t, u); }
    else { ConsumerThreads(s, s', t, u); }
  }

  lemma SharedThreads(s: State, s': State, t: Tid, u: Tid)
    requires MutexOk(s) && t in s.threads && SharedStep(s, s', t) && ThreadOk(s, t) && u in s.threads && ThreadOk(s, u)
    ensures s'.threads.Keys == s.threads.Keys && ThreadOk(s', u)
  {
  }

  lemma ProducerThreads(s: State, s': State, t: Tid, u: Tid)
    requires t in s.threads && ProducerStep(s, s', t) && ThreadOk(s, t) && u in s.threads && ThreadOk(s, u)
    ensures s'.threads.Keys == s.threads.Keys && ThreadOk(s', u)
  {
  }

  lemma ConsumerThreads(s: State, s': State, t: Tid, u: Tid)
    requires t in s.threads && ConsumerStep(s, s', t) && ThreadOk(s, t) && u in s.threads && ThreadOk(s, u)
    ensures s'.threads.Keys == s.threads.Keys && ThreadOk(s', u)
  {
  }

  lemma SharedKeeps(s: State, s': State, t: Tid)
    requires t in s.threads && SharedStep(s, s', t) && ThreadOk(s, t) && MutexOk(s) && CountsOk(s) && SlotsOk(s)
    ensures MutexOk(s') && CountsOk(s') && SlotsOk(s')
  {
    if t in s.mutex { assert CursorOk(s, t); }
    if s'.mutex != {} && s'.mutex != s.mutex { assert s'.mutex == {t}; }
    forall u | u in s'.mutex ensures CursorOk(s', u) { assert u in s.mutex ==> CursorOk(s, u); }
  }

  lemma ProducerMutex(s: State, s': State, t: Tid)
    requires t in s.threads && ProducerStep(s, s', t) && ThreadOk(s, t) && MutexOk(s)
    ensures MutexOk(s')
  {
    if t in s.mutex { assert CursorOk(s, t); }
    NextSlot(|s.written|, s.cap);
    forall u | u in s'.mutex ensures CursorOk(s', u) { assert CursorOk(s, u); }
  }

  lemma ConsumerMutex(s: State, s': State, t: Tid)
    requires t in s.threads && ConsumerStep(s, s', t) && ThreadOk(s, t) && MutexOk(s)
    ensures MutexOk(s')
  {
    if t in s.mutex { assert CursorOk(s, t); }
    NextSlot(|s.taken|, s.cap);
    forall u | u in s'.mutex ensures CursorOk(s', u) { assert CursorOk(s, u); }
  }

  lemma ProducerCounts(s: State, s': State, t: Tid)
    requires t in s.threads && ProducerStep(s, s', t) && ThreadOk(s, t) && CountsOk(s)
    ensures CountsOk(s')
  {
  }

  lemma ConsumerCounts(s: State, s': State, t: Tid)
    requires t in s.threads && ConsumerStep(s, s', t) && ThreadOk(s, t) && CountsOk(s)
    ensures CountsOk(s')
  {
  }

  /** A producer about to write finds its slot read; a consumer about to read finds an
      unread item. */
  lemma TokenMeansRoom(s: State, t: Tid)
    requires CountsOk(s) && t in s.threads && ThreadOk(s, t)
    ensures t in s.pIn ==> |s.written| - |s.taken| < s.cap
    ensures t in s.cIn ==> |s.taken| < |s.written|
  {
  }

  lemma ProducerSlots(s: State, s': State, t: Tid)
    requires t in s.threads && ProducerStep(s, s', t) && ThreadOk(s, t) && MutexOk(s) && CountsOk(s) && SlotsOk(s)
    ensures SlotsOk(s')
  {
    if WriteSlot(s, s', t) {
      TokenMeansRoom(s, t);
      assert CursorOk(s, t);
      WriteKeeps(s, s', t);
    }
  }

  lemma ConsumerSlots(s: State, s': State, t: Tid)
    requires t in s.threads && ConsumerStep(s, s', t) && ThreadOk(s, t) && MutexOk(s) && CountsOk(s) && SlotsOk(s)
    ensures SlotsOk(s')
  {
    if ReadSlot(s, s', t) {
      TokenMeansRoom(s, t);
      assert CursorOk(s, t);
      assert s'.taken == s.written[..|s'.taken|];
    }
  }

  lemma WriteKeeps(s: State, s': State, t: Tid)
    requires SlotsOk(s) && t in s.threads && WriteSlot(s, s', t)
    requires |s.written| - |s.taken| < s.cap && s.threads[t].pc.idx == |s.written| % s.cap
    ensures SlotsOk(s')
  {
    forall j | |s'.taken| <= j < |s'.written| ensures s'.slots[j % s.cap] == s'.written[j] {
      if j < |s.written| { SlotsApart(j, |s.written|, s.cap); }
    }
  }

  lemma SharedStateKeeps(s: State, s': State, t: Tid)
    requires ThreadStep(s, s', t) && ThreadOk(s, t) && MutexOk(s) && CountsOk(s) && SlotsOk(s)
    ensures MutexOk(s') && CountsOk(s') && SlotsOk(s')
  {
    if SharedStep(s, s', t) {
      SharedKeeps(s, s', t);
    } else if ProducerStep(s, s', t) {
      ProducerMutex(s, s', t);
      ProducerCounts(s, s', t);
      ProducerSlots(s, s', t);
    } else {
      ConsumerMutex(s, s', t);
      ConsumerCounts(s, s', t);
      ConsumerSlots(s, s', t);
    }
  }

  lemma SetsKeep(s: State, s': State, t: Tid)
    requires ThreadStep(s, s', t) && s.pIn + s.pOut + s.cIn + s.cOut <= s.threads.Keys
    ensures s'.pIn + s'.pOut + s'.cIn + s'.cOut <= s'.threads.Keys
  {
  }

  lemma StepKeeps(s: State, s': State)
    requires Inv(s) && Step(s, s')
    ensures Inv(s')
  {
    var t :| ThreadStep(s, s', t);
    assert ThreadOk(s, t);
    ThreadsKeep(s, s', t, t);
    forall u | u in s'.threads ensures ThreadOk(s', u) { assert ThreadOk(s, u); ThreadsKeep(s, s', t, u); }
    SharedStateKeeps(s, s', t);
    SetsKeep(s, s', t);
  }

  lemma InitInv(s: State)
    requires Init(s)
    ensures Inv(s)
  {
    Remainder(0, 0, 0, s.cap);
  }

  lemma {:induction false} RunInv(tr: seq<State>, k: nat)
    requires Run(tr) && k < |tr|
    ensures Inv(tr[k])
  {
    if k == 0 {
      InitInv(tr[0]);
    } else {
      RunInv(tr, k - 1);
      assert StepAt(tr, k);
      StepKeeps(tr[k - 1], tr[k]);
    }
  }

  // Results ---------------------------------------------------------------------------------------

  /** In every run: a semaphore's count is its initial value plus posts minus successful
      waits, and the items taken are the items written, once each and in that order. */
  lemma TakenInOrder(tr: seq<State>, k: nat)
    requires Run(tr) && k < |tr|
    ensures |tr[k].taken| <= |tr[k].written| <= |tr[k].taken| + tr[k].cap
    ensures tr[k].taken == tr[k].written[..|tr[k].taken|]
    ensures tr[k].empty.count == tr[k].cap + tr[k].empty.posts - tr[k].empty.waits
    ensures tr[k].full.count == tr[k].full.posts - tr[k].full.waits
  {
    RunInv(tr, k);
  }

  /** A write never lands on a slot that holds an unread item. */
  lemma NoUnreadOverwritten(tr: seq<State>, k: nat, t: Tid, j: nat)
    requires Run(tr) && 0 < k < |tr| && t in tr[k - 1].threads && WriteSlot(tr[k - 1], tr[k], t)
    requires |tr[k - 1].taken| <= j < |tr[k - 1].written|
    ensures tr[k - 1].cap > 0 && tr[k - 1].threads[t].pc.idx != j % tr[k - 1].cap
  {
    var s := tr[k - 1];
    RunInv(tr, k - 1);
    assert ThreadOk(s, t);
    assert CursorOk(s, t);
    TokenMeansRoom(s, t);
    SlotsApart(j, |s.written|, s.cap);
  }

  /** With nobody in flight, the buffer's free and filled slots are what the semaphores say. */
  lemma QuietCounts(tr: seq<State>, k: nat)
    requires Run(tr) && k < |tr| && forall t | t in tr[k].threads ::
        tr[k].threads[t].pc.Idle? || tr[k].threads[t].pc.Gone?
    ensures tr[k].full.count == |tr[k].written| - |tr[k].taken|
    ensures tr[k].empty.count == tr[k].cap - tr[k].full.count
  {
    RunInv(tr, k);
    forall t | t in tr[k].threads ensures t !in tr[k].pIn + tr[k].pOut + tr[k].cIn + tr[k].cOut {
      assert ThreadOk(tr[k], t);
    }
  }
}
