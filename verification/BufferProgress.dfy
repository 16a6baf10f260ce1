/** What the bounded buffer gets done: a producer that runs alone with a free slot puts its item
    in, a consumer that runs alone with an item in the buffer takes the oldest one. */
module BufferProgress {
  import opened BoundedBuffer
  import opened BufferOrder

  ghost predicate ThreadStepAt(tr: seq<State>, k: int, t: Tid)
    requires 0 < k < |tr|
  {
    ThreadStep(tr[k - 1], tr[k], t)
  }

  /** `tr` is a run that extends `from` by steps of thread `t` alone and ends in `s`. */
  ghost predicate Solo(from: seq<State>, tr: seq<State>, s: State, t: Tid) {
    && Run(from) && from <= tr && Run(tr) && tr[|tr| - 1] == s
    && forall k | |from| <= k < |tr| :: ThreadStepAt(tr, k, t)
  }

  lemma Goes(from: seq<State>, tr: seq<State>, p: State, s: State, t: Tid) returns (tr': seq<State>)
    requires Solo(from, tr, p, t) && ThreadStep(p, s, t)
    ensures Solo(from, tr', s, t)
  {
    tr' := tr + [s];
    forall k | 0 < k < |tr'| ensures StepAt(tr', k) { if k < |tr| { assert StepAt(tr, k); } }
    forall k | |from| <= k < |tr'| ensures ThreadStepAt(tr', k, t) { if k < |tr| { assert ThreadStepAt(tr, k, t); } }
  }

  /** Before its token: at the semaphore, whatever count it has loaded. */
  predicate Waiting(pc: Pc) {
    pc.Idle? || pc.Loaded?
  }

  lemma SoloWait(from: seq<State>, s: State, t: Tid) returns (tr: seq<State>)
    requires Solo(from, from, s, t) && t in s.threads && Waiting(s.threads[t].pc)
    ensures Solo(from, tr, Set(s, t, Idle), t)
  {
    tr := from;
    if s.threads[t].pc.Loaded? {
      assert WaitFails(s, Set(s, t, Idle), t);
      tr := Goes(from, tr, s, Set(s, t, Idle), t);
    } else {
      assert Set(s, t, Idle) == s;
    }
  }

  // A producer ----------------------------------------------------------------------------------

  /** A producer with a token and the mutex, at `pc`. */
  function Producing(s: State, t: Tid, pc: Pc): State
    requires t in s.threads && s.empty.count > 0
  {
    Set(s, t, pc).(mutex := {t}, empty := Waited(s.empty), pIn := s.pIn + {t})
  }

  lemma SoloEnterProducer(from: seq<State>, s: State, t: Tid) returns (tr: seq<State>)
    requires Solo(from, from, s, t) && t in s.threads && s.threads[t].role.Produce? && Waiting(s.threads[t].pc)
    requires s.mutex == {} && s.empty.count > 0
    ensures Solo(from, tr, Producing(s, t, Locked), t)
  {
    var s0, s1 := Set(s, t, Idle), Set(s, t, Loaded(s.empty.count));
    var s2 := Set(s, t, Token).(empty := Waited(s.empty), pIn := s.pIn + {t});
    tr := SoloWait(from, s, t);
    assert LoadCount(s0, s1, t);
    tr := Goes(from, tr, s0, s1, t);
    assert TakeEmpty(s1, s2, t);
    tr := Goes(from, tr, s1, s2, t);
    assert Lock(s2, Producing(s, t, Locked), t);
    tr := Goes(from, tr, s2, Producing(s, t, Locked), t);
  }

  /** The state after a whole production: the item is in the slot at `head` and at the end of what
      was written, one token has passed from `empty` to `full`, and the thread goes on to `next`. */
  function Produced(s: State, t: Tid, next: Item): State
    requires t in s.threads && s.threads[t].role.Produce? && s.cap > 0 && s.head < |s.slots| && s.empty.count > 0
  {
    var item := s.threads[t].role.item;
    s.(threads := s.threads[t := Thread(Produce(next), Idle)], empty := Waited(s.empty), full := Posted(s.full),
       head := (s.head + 1) % s.cap, slots := s.slots[s.head := item], written := s.written + [item],
       pIn := s.pIn - {t}, pOut := s.pOut - {t})
  }

  lemma SoloWrite(from: seq<State>, tr: seq<State>, s: State, t: Tid) returns (tr': seq<State>)
    requires t in s.threads && s.threads[t].role.Produce? && s.cap > 0 && s.head < |s.slots| && s.empty.count > 0
    requires Solo(from, tr, Producing(s, t, Locked), t)
    ensures var item := s.threads[t].role.item;
            Solo(from, tr', Set(s, t, Unlocking).(
                mutex := {t}, empty := Waited(s.empty), head := (s.head + 1) % s.cap, slots := s.slots[s.head := item],
                written := s.written + [item], pIn := s.pIn - {t}, pOut := s.pOut + {t}), t)
  {
    var item, h := s.threads[t].role.item, (s.head + 1) % s.cap;
    var s3, s4 := Producing(s, t, Locked), Producing(s, t, Fetched(s.head));
    var s5 := Producing(s, t, Moved(s.head)).(head := h);
    var s6 := Set(s, t, Unlocking).(mutex := {t}, empty := Waited(s.empty), head := h, slots := s.slots[s.head := item],
        written := s.written + [item], pIn := s.pIn - {t}, pOut := s.pOut + {t});
    assert FetchHead(s3, s4, t);
    tr' := Goes(from, tr, s3, s4, t);
    assert MoveHead(s4, s5, t);
    tr' := Goes(from, tr', s4, s5, t);
    assert s.pIn + {t} - {t} == s.pIn - {t};
    assert WriteSlot(s5, s6, t);
    tr' := Goes(from, tr', s5, s6, t);
  }

  lemma SoloPostFull(from: seq<State>, tr: seq<State>, s: State, t: Tid, next: Item) returns (tr': seq<State>)
    requires t in s.threads && s.threads[t].role.Produce? && s.cap > 0 && s.head < |s.slots| && s.empty.count > 0
    requires s.mutex == {}
    requires var item := s.threads[t].role.item;
             Solo(from, tr, Set(s, t, Unlocking).(
                 mutex := {t}, empty := Waited(s.empty), head := (s.head + 1) % s.cap, slots := s.slots[s.head := item],
                 written := s.written + [item], pIn := s.pIn - {t}, pOut := s.pOut + {t}), t)
    ensures Solo(from, tr', Produced(s, t, next), t)
  {
    var item := s.threads[t].role.item;
    var u := s.(empty := Waited(s.empty), head := (s.head + 1) % s.cap, slots := s.slots[s.head := item],
        written := s.written + [item], pIn := s.pIn - {t}, pOut := s.pOut + {t});
    var s6, s7 := Set(u, t, Unlocking).(mutex := {t}), Set(u, t, Posting);
    assert Unlock(s6, s7, t);
    tr' := Goes(from, tr, s6, s7, t);
    assert s.pOut + {t} - {t} == s.pOut - {t};
    assert PostFull(s7, Produced(s, t, next), t, next);
    tr' := Goes(from, tr', s7, Produced(s, t, next), t);
  }

  lemma Cursors(tr: seq<State>, k: nat)
    requires Run(tr) && k < |tr| && tr[k].mutex == {}
    ensures var s := tr[k]; s.cap > 0 && s.head < |s.slots| && s.tail < |s.slots|
    ensures var s := tr[k]; s.full.count > 0 ==> |s.taken| < |s.written| && s.slots[s.tail] == s.written[|s.taken|]
  {
    RunInv(tr, k);
  }

  /** A producer that runs alone puts its item in, from any state of any run with the mutex free and
      a token in `empty`. */
  lemma SoloProduce(tr: seq<State>, t: Tid, next: Item) returns (tr': seq<State>)
    requires Run(tr)
    requires var s := tr[|tr| - 1];
             && t in s.threads && s.threads[t].role.Produce? && Waiting(s.threads[t].pc)
             && s.mutex == {} && s.empty.count > 0
    ensures var s := tr[|tr| - 1]; s.cap > 0 && s.head < |s.slots| && Solo(tr, tr', Produced(s, t, next), t)
  {
    var s := tr[|tr| - 1];
    Cursors(tr, |tr| - 1);
    tr' := SoloEnterProducer(tr, s, t);
    tr' := SoloWrite(tr, tr', s, t);
    tr' := SoloPostFull(tr, tr', s, t, next);
  }

  // A consumer ----------------------------------------------------------------------------------

  /** A consumer with a token and the mutex, at `pc`. */
  function Consuming(s: State, t: Tid, pc: Pc): State
    requires t in s.threads && s.full.count > 0
  {
    Set(s, t, pc).(mutex := {t}, full := Waited(s.full), cIn := s.cIn + {t})
  }

  lemma SoloEnterConsumer(from: seq<State>, s: State, t: Tid) returns (tr: seq<State>)
    requires Solo(from, from, s, t) && t in s.threads && s.threads[t].role.Consume? && Waiting(s.threads[t].pc)
    requires s.mutex == {} && s.full.count > 0
    ensures Solo(from, tr, Consuming(s, t, Locked), t)
  {
    var s0, s1 := Set(s, t, Idle), Set(s, t, Loaded(s.full.count));
    var s2 := Set(s, t, Token).(full := Waited(s.full), cIn := s.cIn + {t});
    tr := SoloWait(from, s, t);
    assert LoadCount(s0, s1, t);
    tr := Goes(from, tr, s0, s1, t);
    assert TakeFull(s1, s2, t);
    tr := Goes(from, tr, s1, s2, t);
    assert Lock(s2, Consuming(s, t, Locked), t);
    tr := Goes(from, tr, s2, Consuming(s, t, Locked), t);
  }

  /** The state after a whole consumption of `item`: one token has passed from `full` to `empty`. */
  function Consumed(s: State, t: Tid, item: Item): State
    requires t in s.threads && s.cap > 0 && s.full.count > 0
  {
    Set(s, t, Idle).(full := Waited(s.full), empty := Posted(s.empty), tail := (s.tail + 1) % s.cap,
                     taken := s.taken + [item], cIn := s.cIn - {t}, cOut := s.cOut - {t})
  }

  lemma SoloRead(from: seq<State>, tr: seq<State>, s: State, t: Tid) returns (tr': seq<State>)
    requires t in s.threads && s.threads[t].role.Consume? && s.cap > 0 && s.tail < |s.slots| && s.full.count > 0
    requires Solo(from, tr, Consuming(s, t, Locked), t)
    ensures Solo(from, tr', Set(s, t, Unlocking).(
        mutex := {t}, full := Waited(s.full), tail := (s.tail + 1) % s.cap, taken := s.taken + [s.slots[s.tail]],
        cIn := s.cIn - {t}, cOut := s.cOut + {t}), t)
  {
    var s3, s4 := Consuming(s, t, Locked), Consuming(s, t, Fetched(s.tail));
    var s5 := Consuming(s, t, Moved(s.tail)).(tail := (s.tail + 1) % s.cap);
    var s6 := Set(s, t, Unlocking).(mutex := {t}, full := Waited(s.full), tail := (s.tail + 1) % s.cap,
        taken := s.taken + [s.slots[s.tail]], cIn := s.cIn - {t}, cOut := s.cOut + {t});
    assert FetchTail(s3, s4, t);
    tr' := Goes(from, tr, s3, s4, t);
    assert MoveTail(s4, s5, t);
    tr' := Goes(from, tr', s4, s5, t);
    assert s.cIn + {t} - {t} == s.cIn - {t};
    assert ReadSlot(s5, s6, t);
    tr' := Goes(from, tr', s5, s6, t);
  }

  lemma SoloPostEmpty(from: seq<State>, tr: seq<State>, s: State, t: Tid) returns (tr': seq<State>)
    requires t in s.threads && s.threads[t].role.Consume? && s.cap > 0 && s.tail < |s.slots| && s.full.count > 0
    requires s.mutex == {}
    requires Solo(from, tr, Set(s, t, Unlocking).(
        mutex := {t}, full := Waited(s.full), tail := (s.tail + 1) % s.cap, taken := s.taken + [s.slots[s.tail]],
        cIn := s.cIn - {t}, cOut := s.cOut + {t}), t)
    ensures Solo(from, tr', Consumed(s, t, s.slots[s.tail]), t)
  {
    var u := s.(full := Waited(s.full), tail := (s.tail + 1) % s.cap, taken := s.taken + [s.slots[s.tail]],
        cIn := s.cIn - {t}, cOut := s.cOut + {t});
    var s6, s7 := Set(u, t, Unlocking).(mutex := {t}), Set(u, t, Posting);
    assert Unlock(s6, s7, t);
    tr' := Goes(from, tr, s6, s7, t);
    assert s.cOut + {t} - {t} == s.cOut - {t};
    assert PostEmpty(s7, Consumed(s, t, s.slots[s.tail]), t);
    tr' := Goes(from, tr', s7, Consumed(s, t, s.slots[s.tail]), t);
  }

  /** A consumer that runs alone takes the oldest item not taken, from any state of any run with the
      mutex free and a token in `full`. */
  lemma SoloConsume(tr: seq<State>, t: Tid) returns (tr': seq<State>)
    requires Run(tr)
    requires var s := tr[|tr| - 1];
             && t in s.threads && s.threads[t].role.Consume? && Waiting(s.threads[t].pc)
             && s.mutex == {} && s.full.count > 0
    ensures var s := tr[|tr| - 1];
            s.cap > 0 && |s.taken| < |s.written| && Solo(tr, tr', Consumed(s, t, s.written[|s.taken|]), t)
  {
    var s := tr[|tr| - 1];
    Cursors(tr, |tr| - 1);
    tr' := SoloEnterConsumer(tr, s, t);
    tr' := SoloRead(tr, tr', s, t);
    tr' := SoloPostEmpty(tr, tr', s, t);
  }
}
