/** The life of large-message chunks, as a system of steps: senders acquire a chunk and
    stamp it with the connected receivers, each stamped receiver recycles it once, and
    the last one returns it to the pool.

    The pool is guarded by a spin lock, so `prepare` and `acquire`, and `release`, are one
    step each; every access to a chunk's receiver mask is a step of its own. `life`,
    `readers` and `free` are history variables. */
module ChunkLife {
  import opened ChunkPool

  type Bit = nat
  type Tid = nat

  datatype Life = Free | Taken(t: Tid) | InUse

  /** A stamped receiver in `recycle_storage`. */
  datatype Reader = RStart | RLoaded(cur: set<Bit>) | RLast | RDone

  /** `conns` is the mask in the chunk header. */
  datatype Chunk = Chunk(conns: set<Bit>, life: Life, readers: map<Bit, Reader>)

  type Chunks = q: seq<Chunk> | |q| == MAX_COUNT witness seq(MAX_COUNT, _ => Chunk({}, Free, map[]))

  /** A sender in `acquire_storage`; `Got` holds an id it has not stamped yet. */
  datatype Sender = Idle | Got(id: nat, conns: set<Bit>)

  datatype State = State(pool: Pool, chunks: Chunks, senders: map<Tid, Sender>, free: seq<nat>)

  /** A zero-filled segment. */
  ghost predicate Init(s: State) {
    && Zeroed(s.pool) && s.free == AllIds()
    && (forall i | 0 <= i < MAX_COUNT :: s.chunks[i] == Chunk({}, Free, map[]))
    && (forall t | t in s.senders :: s.senders[t] == Idle)
  }

  function SetChunk(s: State, i: nat, c: Chunk): State
    requires i < MAX_COUNT
  {
    s.(chunks := s.chunks[i := c])
  }

  /** Under the lock: prepare, then acquire. */
  ghost predicate Acquire(s: State, s': State, t: Tid, conns: set<Bit>) {
    && t in s.senders && s.senders[t].Idle?
    && var (p, id) := Acquired(Prepared(s.pool));
       if 0 <= id < MAX_COUNT
       then s' == SetChunk(s, id, s.chunks[id].(life := Taken(t)))
                  .(pool := p, senders := s.senders[t := Got(id, conns)],
                    free := if s.free == [] then [] else s.free[1..])
       else s' == s.(pool := p)
  }

  ghost predicate Stamp(s: State, s': State, t: Tid) {
    && t in s.senders && s.senders[t].Got? && s.senders[t].id < MAX_COUNT
    && var x := s.senders[t];
       s' == SetChunk(s, x.id, Chunk(x.conns, InUse, map b | b in x.conns :: RStart)).(senders := s.senders[t := Idle])
  }

  function SetReader(c: Chunk, b: Bit, r: Reader): Chunk {
    c.(readers := c.readers[b := r])
  }

  ghost predicate Load(s: State, s': State, i: nat, b: Bit) {
    && i < MAX_COUNT && b in s.chunks[i].readers && s.chunks[i].readers[b].RStart?
    && s' == SetChunk(s, i, SetReader(s.chunks[i], b, RLoaded(s.chunks[i].conns)))
  }

  ghost predicate CasFails(s: State, s': State, i: nat, b: Bit) {
    && i < MAX_COUNT && b in s.chunks[i].readers && s.chunks[i].readers[b].RLoaded?
    && s' == SetChunk(s, i, SetReader(s.chunks[i], b, RStart))
  }

  ghost predicate CasWins(s: State, s': State, i: nat, b: Bit) {
    && i < MAX_COUNT && b in s.chunks[i].readers && s.chunks[i].readers[b].RLoaded?
    && s.chunks[i].conns == s.chunks[i].readers[b].cur
    && var nxt := s.chunks[i].conns - {b};
       s' == SetChunk(s, i, SetReader(s.chunks[i], b, if nxt == {} then RLast else RDone).(conns := nxt))
  }

  /** Under the lock: the last receiver returns the id. */
  ghost predicate Release(s: State, s': State, i: nat, b: Bit) {
    && i < MAX_COUNT && b in s.chunks[i].readers && s.chunks[i].readers[b].RLast?
    && s' == SetChunk(s, i, s.chunks[i].(life := Free, readers := map[]))
         .(pool := Released(s.pool, i), free := [i] + s.free)
  }

  ghost predicate ReaderStep(s: State, s': State, i: nat, b: Bit) {
    Load(s, s', i, b) || CasFails(s, s', i, b) || CasWins(s, s', i, b) || Release(s, s', i, b)
  }

  ghost predicate Step(s: State, s': State) {
    || (exists t, conns :: Acquire(s, s', t, conns)) || (exists t :: Stamp(s, s', t))
    || (exists i, b :: ReaderStep(s, s', i, b))
  }

  ghost predicate StepAt(tr: seq<State>, k: int)
    requires 0 < k < |tr|
  {
    Step(tr[k - 1], tr[k])
  }

  ghost predicate Run(tr: seq<State>) {
    |tr| > 0 && Init(tr[0]) && forall k | 0 < k < |tr| :: StepAt(tr, k)
  }

  // The invariant -----------------------------------------------------------------------------

  ghost predicate PoolOk(p: Pool, free: seq<nat>) {
    (Zeroed(p) && free == AllIds()) || (p.prepared != 0 && IsFreeList(p, free))
  }

  /** The mask holds exactly the receivers that have not cleared their bit; when it is
      empty, exactly one of those it was stamped with is about to return the chunk. */
  ghost predicate ReadersOk(c: Chunk) {
    && (forall b :: b in c.conns <==> b in c.readers && (c.readers[b].RStart? || c.readers[b].RLoaded?))
    && (forall b | b in c.readers && c.readers[b].RLoaded? :: c.conns <= c.readers[b].cur && b in c.readers[b].cur)
    && (forall b | b in c.readers && c.readers[b].RLast? :: c.conns == {})
    && (forall b, d | b in c.readers && d in c.readers && c.readers[b].RLast? && c.readers[d].RLast? :: b == d)
    && (c.conns == {} && c.readers != map[] ==> exists b :: b in c.readers && c.readers[b].RLast?)
  }

  ghost predicate ChunkOk(s: State, i: nat)
    requires i < MAX_COUNT
  {
    var c := s.chunks[i];
    && (c.life.Free? <==> i in s.free)
    && (c.life.InUse? ==> ReadersOk(c))
    && (!c.life.InUse? ==> c.readers == map[])
    && (c.life.Taken? ==> c.life.t in s.senders && s.senders[c.life.t].Got? && s.senders[c.life.t].id == i)
  }

  ghost predicate SenderOk(s: State, t: Tid)
    requires t in s.senders
  {
    s.senders[t].Got? ==> s.senders[t].id < MAX_COUNT && s.chunks[s.senders[t].id].life == Taken(t)
  }

  ghost predicate Inv(s: State) {
    && PoolOk(s.pool, s.free)
    && (forall k | 0 <= k < |s.free| :: s.free[k] < MAX_COUNT)
    && (forall j, k | 0 <= j < k < |s.free| :: s.free[j] != s.free[k])
    && (forall i | 0 <= i < MAX_COUNT :: ChunkOk(s, i))
    && (forall t | t in s.senders :: SenderOk(s, t))
  }

  lemma InitInv(s: State)
    requires Init(s)
    ensures Inv(s)
  {
    forall i | 0 <= i < MAX_COUNT ensures ChunkOk(s, i) { assert AllIds()[i] == i; }
  }

  /** Preparing a pool leaves a list that reads as `free`. */
  lemma PrepareKeeps(p: Pool, free: seq<nat>)
    requires PoolOk(p, free)
    ensures Prepared(p).prepared != 0 && IsFreeList(Prepared(p), free)
  {
    if Zeroed(p) { PrepareBuilds(p); } else { PrepareAgain(p, free); }
  }

  lemma AcquireKeeps(s: State, s': State, t: Tid, conns: set<Bit>)
    requires Inv(s) && Acquire(s, s', t, conns)
    ensures Inv(s')
    ensures s'.senders[t].Idle? <==> s.free == []
  {
    PrepareKeeps(s.pool, s.free);
    AcquirePops(Prepared(s.pool), s.free);
    if s.free != [] {
      var id := s.free[0];
      assert ChunkOk(s, id);
      forall i | 0 <= i < MAX_COUNT ensures ChunkOk(s', i) {
        assert ChunkOk(s, i);
        assert i in s.free <==> i == id || i in s.free[1..];
      }
    } else {
      forall i | 0 <= i < MAX_COUNT ensures ChunkOk(s', i) { assert ChunkOk(s, i); }
    }
    forall u | u in s'.senders ensures SenderOk(s', u) { assert SenderOk(s, u); }
  }

  lemma StampKeeps(s: State, s': State, t: Tid)
    requires Inv(s) && Stamp(s, s', t)
    ensures Inv(s')
  {
    assert SenderOk(s, t);
    forall i | 0 <= i < MAX_COUNT ensures ChunkOk(s', i) { assert ChunkOk(s, i); }
    forall u | u in s'.senders ensures SenderOk(s', u) { assert SenderOk(s, u); }
  }

  lemma RecycleKeeps(s: State, s': State, i: nat, b: Bit)
    requires Inv(s) && (Load(s, s', i, b) || CasFails(s, s', i, b) || CasWins(s, s', i, b))
    ensures Inv(s')
  {
    assert ChunkOk(s, i);
    RecycleReaders(s, s', i, b);
    forall j | 0 <= j < MAX_COUNT ensures ChunkOk(s', j) { assert ChunkOk(s, j); }
    forall u | u in s'.senders ensures SenderOk(s', u) { assert SenderOk(s, u); }
  }

  lemma RecycleReaders(s: State, s': State, i: nat, b: Bit)
    requires Inv(s) && (Load(s, s', i, b) || CasFails(s, s', i, b) || CasWins(s, s', i, b))
    ensures ReadersOk(s'.chunks[i])
  {
    assert ChunkOk(s, i);
    var c, c' := s.chunks[i], s'.chunks[i];
    assert b in c.conns;
    if c'.conns == {} { assert b in c'.readers && c'.readers[b].RLast?; }
  }

  /** The chunk goes back to the head of the free list, from which it was absent. */
  lemma ReleaseKeeps(s: State, s': State, i: nat, b: Bit)
    requires Inv(s) && Release(s, s', i, b)
    ensures Inv(s') && i !in s.free
  {
    assert ChunkOk(s, i);
    PoolInUse(s, i);
    ReleasePushes(s.pool, s.free, i);
    forall j | 0 <= j < MAX_COUNT ensures ChunkOk(s', j) { assert ChunkOk(s, j); }
    forall u | u in s'.senders ensures SenderOk(s', u) { assert SenderOk(s, u); }
  }

  /** Once a chunk has been handed out the pool is prepared. */
  lemma PoolInUse(s: State, i: nat)
    requires Inv(s) && i < MAX_COUNT && i !in s.free
    ensures s.pool.prepared != 0 && IsFreeList(s.pool, s.free)
  {
    assert AllIds()[i] == i;
  }

  lemma StepKeeps(s: State, s': State)
    requires Inv(s) && Step(s, s')
    ensures Inv(s')
  {
    if t, conns :| Acquire(s, s', t, conns) { AcquireKeeps(s, s', t, conns); }
    else if t :| Stamp(s, s', t) { StampKeeps(s, s', t); }
    else {
      var i, b :| ReaderStep(s, s', i, b);
      if Release(s, s', i, b) { ReleaseKeeps(s, s', i, b); } else { RecycleKeeps(s, s', i, b); }
    }
  }

  lemma {:induction false} RunInv(tr: seq<State>, k: nat)
    requires Run(tr) && k < |tr|
    ensures Inv(tr[k])
  {
    if k == 0 {
      InitInv(tr[0]);
    } else {
      RunInv(tr, k - 1);
      assert StepAt(tr, k);
      StepKeeps(tr[k - 1], tr[k]);
    }
  }

  /** Conservation: in every run the free list read off the pool (once it is prepared) is
      acyclic and is exactly the complement of the chunks handed out. */
  lemma PoolConserved(tr: seq<State>, k: nat, i: nat)
    requires Run(tr) && k < |tr| && i < MAX_COUNT
    ensures tr[k].pool.prepared != 0 ==> IsFreeList(tr[k].pool, tr[k].free)
    ensures tr[k].pool.prepared == 0 ==> Zeroed(tr[k].pool)
    ensures i in tr[k].free <==> tr[k].chunks[i].life.Free?
  {
    RunInv(tr, k);
    assert ChunkOk(tr[k], i);
  }

  ghost predicate Exhausted(s: State) {
    forall i | 0 <= i < MAX_COUNT :: !s.chunks[i].life.Free?
  }

  /** `acquire_storage` fails exactly when every chunk is in use. */
  lemma AcquireFailsWhenExhausted(tr: seq<State>, k: nat, t: Tid, conns: set<Bit>)
    requires Run(tr) && 0 < k < |tr| && Acquire(tr[k - 1], tr[k], t, conns)
    ensures tr[k].senders[t].Idle? <==> Exhausted(tr[k - 1])
  {
    var s := tr[k - 1];
    RunInv(tr, k - 1);
    AcquireKeeps(s, tr[k], t, conns);
    forall i | 0 <= i < MAX_COUNT ensures s.chunks[i].life.Free? <==> i in s.free { assert ChunkOk(s, i); }
    if s.free != [] { assert s.chunks[s.free[0]].life.Free?; }
  }

  /** A chunk returns to the pool once, when its last stamped receiver has cleared its
      bit: nobody else is reading it, and nobody else will return it. */
  lemma ReturnedOnceByLast(tr: seq<State>, k: nat, i: nat, b: Bit, d: Bit)
    requires Run(tr) && 0 < k < |tr| && Release(tr[k - 1], tr[k], i, b)
    ensures tr[k - 1].chunks[i].life.InUse? && tr[k].chunks[i].life.Free? && i !in tr[k - 1].free
    ensures d in tr[k - 1].chunks[i].readers && d != b ==> tr[k - 1].chunks[i].readers[d].RDone?
  {
    RunInv(tr, k - 1);
    assert ChunkOk(tr[k - 1], i);
  }

  // A receiver that runs alone ------------------------------------------------------------------

  ghost predicate ReaderStepAt(tr: seq<State>, k: int, i: nat, b: Bit)
    requires 0 < k < |tr|
  {
    ReaderStep(tr[k - 1], tr[k], i, b)
  }

  /** `tr` is a run that extends `from` by steps of receiver `b` on chunk `i` and ends in `s`. */
  ghost predicate Solo(from: seq<State>, tr: seq<State>, s: State, i: nat, b: Bit) {
    && Run(from) && from <= tr && Run(tr) && tr[|tr| - 1] == s
    && forall k | |from| <= k < |tr| :: ReaderStepAt(tr, k, i, b)
  }

  lemma Goes(from: seq<State>, tr: seq<State>, p: State, s: State, i: nat, b: Bit) returns (tr': seq<State>)
    requires Solo(from, tr, p, i, b) && ReaderStep(p, s, i, b)
    ensures Solo(from, tr', s, i, b)
  {
    tr' := tr + [s];
    forall k | 0 < k < |tr'| ensures StepAt(tr', k) { if k < |tr| { assert StepAt(tr, k); } }
    forall k | |from| <= k < |tr'| ensures ReaderStepAt(tr', k, i, b) {
      if k < |tr| { assert ReaderStepAt(tr, k, i, b); }
    }
  }

  /** The state after receiver `b` has recycled chunk `i`: the last one puts it back on the list. */
  function Recycled(s: State, i: nat, b: Bit): State
    requires i < MAX_COUNT && s.chunks[i].readers.Keys != {}
  {
    var c := s.chunks[i];
    if c.conns - {b} == {}
    then SetChunk(s, i, Chunk({}, Free, map[])).(pool := Released(s.pool, i), free := [i] + s.free)
    else SetChunk(s, i, SetReader(c, b, RDone).(conns := c.conns - {b}))
  }

  /** Receiver `b` of chunk `i` at `r`, all else as it was. */
  function At(s: State, i: nat, b: Bit, r: Reader): State
    requires i < MAX_COUNT
  {
    SetChunk(s, i, SetReader(s.chunks[i], b, r))
  }

  lemma SameReader(s: State, i: nat, b: Bit)
    requires i < MAX_COUNT && b in s.chunks[i].readers
    ensures At(s, i, b, s.chunks[i].readers[b]) == s
    ensures forall q, r :: SetReader(At(s, i, b, q).chunks[i], b, r) == SetReader(s.chunks[i], b, r)
    ensures forall q, d :: SetChunk(At(s, i, b, q), i, d) == SetChunk(s, i, d)
  {
    assert SetReader(s.chunks[i], b, s.chunks[i].readers[b]) == s.chunks[i];
  }

  /** A recycle that runs alone completes, whatever mask it had loaded, and the last stamped
      receiver returns the chunk to the pool. */
  lemma SoloRecycle(tr: seq<State>, i: nat, b: Bit) returns (tr': seq<State>)
    requires Run(tr) && i < MAX_COUNT
    requires var c := tr[|tr| - 1].chunks[i]; b in c.readers && (c.readers[b].RStart? || c.readers[b].RLoaded?)
    ensures Solo(tr, tr', Recycled(tr[|tr| - 1], i, b), i, b)
  {
    var s := tr[|tr| - 1];
    var c := s.chunks[i];
    var nxt := c.conns - {b};
    tr' := tr;
    if c.readers[b].RLoaded? {
      assert CasFails(s, At(s, i, b, RStart), i, b);
      tr' := Goes(tr, tr', s, At(s, i, b, RStart), i, b);
    }
    SameReader(s, i, b);
    var s1 := At(s, i, b, RLoaded(c.conns));
    var s2 := SetChunk(s, i, SetReader(c, b, if nxt == {} then RLast else RDone).(conns := nxt));
    assert Load(At(s, i, b, RStart), s1, i, b);
    tr' := Goes(tr, tr', At(s, i, b, RStart), s1, i, b);
    assert CasWins(s1, s2, i, b);
    tr' := Goes(tr, tr', s1, s2, i, b);
    if nxt == {} {
      assert Release(s2, Recycled(s, i, b), i, b);
      tr' := Goes(tr, tr', s2, Recycled(s, i, b), i, b);
    }
  }

  // A sender that runs alone --------------------------------------------------------------------

  /** The run gone on by one step. */
  lemma Extends(tr: seq<State>, s: State)
    requires Run(tr) && Step(tr[|tr| - 1], s)
    ensures Run(tr + [s])
  {
    var tr' := tr + [s];
    forall k | 0 < k < |tr'| ensures StepAt(tr', k) { if k < |tr| { assert StepAt(tr, k); } }
  }

  /** A sender that runs alone while some chunk is free takes the head of the free list and stamps
      it with the receivers it loaded, each of which has it to recycle. */
  lemma SoloAcquire(tr: seq<State>, t: Tid, conns: set<Bit>) returns (s1: State, s2: State)
    requires Run(tr) && var s := tr[|tr| - 1]; t in s.senders && s.senders[t].Idle? && s.free != []
    ensures Run(tr + [s1, s2]) && Acquire(tr[|tr| - 1], s1, t, conns) && Stamp(s1, s2, t)
    ensures var s := tr[|tr| - 1]; var id := s.free[0];
            && id < MAX_COUNT && s2.free == s.free[1..] && s2.senders == s.senders
            && s2.chunks == s.chunks[id := Chunk(conns, InUse, map b | b in conns :: RStart)]
  {
    var s := tr[|tr| - 1];
    RunInv(tr, |tr| - 1);
    PrepareKeeps(s.pool, s.free);
    AcquirePops(Prepared(s.pool), s.free);
    var p, id := Acquired(Prepared(s.pool)).0, s.free[0];
    s1 := SetChunk(s, id, s.chunks[id].(life := Taken(t)))
          .(pool := p, senders := s.senders[t := Got(id, conns)], free := s.free[1..]);
    s2 := SetChunk(s1, id, Chunk(conns, InUse, map b | b in conns :: RStart)).(senders := s1.senders[t := Idle]);
    assert Acquire(s, s1, t, conns);
    Extends(tr, s1);
    assert Stamp(s1, s2, t);
    Extends(tr + [s1], s2);
    assert tr + [s1] + [s2] == tr + [s1, s2];
  }
}
