/** The connection head of a ring: one-time initialisation under the header's spin lock,
    then receivers claiming and giving back bits of the connection mask.

    Every load, store, swap and compare-and-swap is one step. The segment may hold any
    mask before it is initialised. Receivers leave only by disconnecting: eviction and
    reaping are not steps here. The steps see the mask as its set of bits; the lemmas
    on words show that the code's bit operations do the same to the 32-bit word.
    `owner`, `held` and `inits` are history variables. */
module ConnHead {
  import opened BitWord

  type Tid = nat
  type Mask = set<nat>
  const BITS: nat := 32

  datatype Pc =
    | Open
    | Spin
    | Recheck
    | Zero
    | Publish
    | Unlock
    | Connect
    | Loaded(curr: Mask)
    | Holding(id: nat)
    | Refused
    | Left

  datatype State = State(
    constructed: bool, lock: bool, cc: Mask, threads: map<Tid, Pc>,
    owner: map<nat, Tid>, held: set<Tid>, inits: nat)

  ghost predicate Init(s: State) {
    && !s.constructed && !s.lock && s.owner == map[] && s.held == {} && s.inits == 0
    && forall t | t in s.threads :: s.threads[t].Open?
  }

  function Set(s: State, t: Tid, pc: Pc): State {
    s.(threads := s.threads[t := pc])
  }

  /** `z` is the lowest clear bit of the mask. */
  ghost predicate LowestClear(c: Mask, z: nat) {
    z < BITS && z !in c && forall i: nat | i < z :: i in c
  }

  ghost predicate Full(c: Mask) {
    forall i: nat | i < BITS :: i in c
  }

  // The word operations behind the steps -----------------------------------------------------

  type Cc = w: Word | |w| == BITS witness Fill(32, false)

  /** `curr | (curr + 1)` leaves the word as it is exactly when the mask is full. */
  lemma ClaimFails(c: Cc)
    ensures Or(c, Next(c)) == c <==> Full(Ones(c))
  {
    SetsLowestClear(c);
    var z := Lowest(c, false);
    if z < BITS { assert z !in Ones(c); }
    assert z < BITS ==> c[z := true][z] != c[z];
  }

  /** Otherwise it sets the lowest clear bit, and `next ^ curr` is that bit alone. */
  lemma ClaimSetsLowest(c: Cc, z: nat)
    requires LowestClear(Ones(c), z)
    ensures Ones(Or(c, Next(c))) == Ones(c) + {z}
    ensures Ones(Xor(Or(c, Next(c)), c)) == {z}
  {
    assert !c[z];
    forall i: nat | i < z ensures c[i] { assert i in Ones(c); }
    assert Lowest(c, false) == z;
    SetsLowestClear(c);
    NewBit(c);
  }

  /** `fetch_and(!cc_id)` clears the bits of the id. */
  lemma DisconnectClears(c: Cc, id: Cc)
    ensures Ones(And(c, Not(id))) == Ones(c) - Ones(id)
  {
  }

  // Steps ---------------------------------------------------------------------------------

  ghost predicate Look(s: State, s': State, t: Tid, x: Pc) {
    x.Open? && s' == Set(s, t, if s.constructed then Connect else Spin)
  }

  ghost predicate TakeLock(s: State, s': State, t: Tid, x: Pc) {
    x.Spin? && s' == if s.lock then s else Set(s, t, Recheck).(lock := true)
  }

  ghost predicate LookAgain(s: State, s': State, t: Tid, x: Pc) {
    x.Recheck? && s' == Set(s, t, if s.constructed then Unlock else Zero)
  }

  ghost predicate StoreZero(s: State, s': State, t: Tid, x: Pc) {
    x.Zero? && s' == Set(s, t, Publish).(cc := {})
  }

  ghost predicate StoreConstructed(s: State, s': State, t: Tid, x: Pc) {
    x.Publish? && s' == Set(s, t, Unlock).(constructed := true, inits := s.inits + 1)
  }

  ghost predicate ReleaseLock(s: State, s': State, t: Tid, x: Pc) {
    x.Unlock? && s' == Set(s, t, Connect).(lock := false)
  }

  ghost predicate LoadMask(s: State, s': State, t: Tid, x: Pc) {
    x.Connect? && s' == Set(s, t, if Full(s.cc) then Refused else Loaded(s.cc))
  }

  ghost predicate CasFails(s: State, s': State, t: Tid, x: Pc) {
    x.Loaded? && s' == Set(s, t, Connect)
  }

  ghost predicate CasWins(s: State, s': State, t: Tid, x: Pc, z: nat) {
    && x.Loaded? && s.cc == x.curr && LowestClear(x.curr, z)
    && s' == Set(s, t, Holding(z)).(cc := s.cc + {z}, held := s.held + {t}, owner := s.owner[z := t])
  }

  ghost predicate Disconnect(s: State, s': State, t: Tid, x: Pc) {
    && x.Holding?
    && s' == Set(s, t, Left).(cc := s.cc - {x.id}, held := s.held - {t}, owner := s.owner - {x.id})
  }

  ghost predicate InitStep(s: State, s': State, t: Tid, x: Pc) {
    || Look(s, s', t, x) || TakeLock(s, s', t, x) || LookAgain(s, s', t, x)
    || StoreZero(s, s', t, x) || StoreConstructed(s, s', t, x) || ReleaseLock(s, s', t, x)
  }

  ghost predicate ThreadStep(s: State, s': State, t: Tid) {
    && t in s.threads
    && var x := s.threads[t];
       || InitStep(s, s', t, x) || LoadMask(s, s', t, x) || CasFails(s, s', t, x)
       || (exists z :: CasWins(s, s', t, x, z)) || Disconnect(s, s', t, x)
  }

  ghost predicate Step(s: State, s': State) {
    exists t :: ThreadStep(s, s', t)
  }

  ghost predicate StepAt(tr: seq<State>, k: int)
    requires 0 < k < |tr|
  {
    Step(tr[k - 1], tr[k])
  }

  ghost predicate Run(tr: seq<State>) {
    |tr| > 0 && Init(tr[0]) && forall k | 0 < k < |tr| :: StepAt(tr, k)
  }

  // The invariant ---------------------------------------------------------------------------

  predicate Critical(x: Pc) {
    x.Recheck? || x.Zero? || x.Publish? || x.Unlock?
  }

  predicate Connecting(x: Pc) {
    x.Unlock? || x.Connect? || x.Loaded? || x.Holding? || x.Refused? || x.Left?
  }

  ghost predicate ThreadOk(s: State, t: Tid)
    requires t in s.threads
  {
    var x := s.threads[t];
    && (Critical(x) ==> s.lock)
    && (Connecting(x) ==> s.constructed)
    && (x.Zero? || x.Publish? ==> !s.constructed)
    && (x.Publish? ==> s.cc == {})
    && (t in s.held <==> x.Holding?)
    && (x.Holding? ==> x.id in s.owner && s.owner[x.id] == t)
  }

  ghost predicate OwnerOk(s: State, b: nat)
    requires b in s.owner
  {
    b < BITS && s.owner[b] in s.threads && s.threads[s.owner[b]] == Holding(b)
  }

  ghost predicate Inv(s: State) {
    && (forall t | t in s.threads :: ThreadOk(s, t))
    && (forall t, u | t in s.threads && u in s.threads && Critical(s.threads[t]) && Critical(s.threads[u]) :: t == u)
    && (forall b | b in s.owner :: OwnerOk(s, b))
    && s.held <= s.threads.Keys
    && s.inits == (if s.constructed then 1 else 0)
    && (s.constructed ==> s.cc == s.owner.Keys && |s.cc| == |s.held|)
    && (!s.constructed ==> s.held == {} && s.owner == map[])
  }

  lemma InitStepKeeps(s: State, s': State, t: Tid)
    requires Inv(s) && t in s.threads && InitStep(s, s', t, s.threads[t])
    ensures Inv(s')
  {
    assert ThreadOk(s, t);
    forall u | u in s'.threads ensures ThreadOk(s', u) { assert ThreadOk(s, u); }
    forall b | b in s'.owner ensures OwnerOk(s', b) { assert OwnerOk(s, b); }
  }

  lemma QuietKeeps(s: State, s': State, t: Tid)
    requires Inv(s) && t in s.threads && (LoadMask(s, s', t, s.threads[t]) || CasFails(s, s', t, s.threads[t]))
    ensures Inv(s')
  {
    assert ThreadOk(s, t);
    forall u | u in s'.threads ensures ThreadOk(s', u) { assert ThreadOk(s, u); }
    forall b | b in s'.owner ensures OwnerOk(s', b) { assert OwnerOk(s, b); }
  }

  lemma CasWinsThreads(s: State, s': State, t: Tid, z: nat, u: Tid)
    requires Inv(s) && t in s.threads && CasWins(s, s', t, s.threads[t], z) && u in s.threads
    ensures z !in s.owner && ThreadOk(s', u)
  {
    assert ThreadOk(s, t);
    assert ThreadOk(s, u);
  }

  lemma CasWinsOwners(s: State, s': State, t: Tid, z: nat, b: nat)
    requires Inv(s) && t in s.threads && CasWins(s, s', t, s.threads[t], z) && b in s'.owner
    ensures OwnerOk(s', b)
  {
    if b != z { assert OwnerOk(s, b); }
  }

  lemma CasWinsMask(s: State, s': State, t: Tid, z: nat)
    requires Inv(s) && t in s.threads && CasWins(s, s', t, s.threads[t], z)
    ensures s'.constructed && s'.cc == s'.owner.Keys && |s'.cc| == |s'.held| && s'.held <= s'.threads.Keys
  {
    assert ThreadOk(s, t);
  }

  lemma CasWinsKeeps(s: State, s': State, t: Tid, z: nat)
    requires Inv(s) && t in s.threads && CasWins(s, s', t, s.threads[t], z)
    ensures Inv(s')
  {
    CasWinsMask(s, s', t, z);
    forall u | u in s'.threads ensures ThreadOk(s', u) { CasWinsThreads(s, s', t, z, u); }
    forall b | b in s'.owner ensures OwnerOk(s', b) { CasWinsOwners(s, s', t, z, b); }
  }

  lemma DisconnectKeeps(s: State, s': State, t: Tid)
    requires Inv(s) && t in s.threads && Disconnect(s, s', t, s.threads[t])
    ensures Inv(s')
  {
    assert ThreadOk(s, t);
    forall u | u in s'.threads ensures ThreadOk(s', u) { assert ThreadOk(s, u); }
    forall b | b in s'.owner ensures OwnerOk(s', b) { assert OwnerOk(s, b); }
  }

  lemma StepKeeps(s: State, s': State)
    requires Inv(s) && Step(s, s')
    ensures Inv(s')
  {
    var t :| ThreadStep(s, s', t);
    var x := s.threads[t];
    if InitStep(s, s', t, x) { InitStepKeeps(s, s', t); }
    else if z :| CasWins(s, s', t, x, z) { CasWinsKeeps(s, s', t, z); }
    else if Disconnect(s, s', t, x) { DisconnectKeeps(s, s', t); }
    else { QuietKeeps(s, s', t); }
  }

  lemma {:induction false} RunInv(tr: seq<State>, k: nat)
    requires Run(tr) && k < |tr|
    ensures Inv(tr[k])
  {
    if k > 0 {
      RunInv(tr, k - 1);
      assert StepAt(tr, k);
      StepKeeps(tr[k - 1], tr[k]);
    }
  }

  // Results -----------------------------------------------------------------------------------

  /** The header is initialised at most once, and never again after a receiver got in. */
  lemma InitialisedOnce(tr: seq<State>, k: nat)
    requires Run(tr) && k < |tr|
    ensures tr[k].inits <= 1
    ensures tr[k].held != {} ==> tr[k].inits == 1
  {
    RunInv(tr, k);
  }

  /** No late initialiser wipes a bit: when the zero store happens nobody holds one. */
  lemma NoLateWipe(tr: seq<State>, k: nat, t: Tid)
    requires Run(tr) && 0 < k < |tr| && t in tr[k - 1].threads && StoreZero(tr[k - 1], tr[k], t, tr[k - 1].threads[t])
    ensures tr[k - 1].held == {} && tr[k - 1].inits == 0
  {
    RunInv(tr, k - 1);
    assert ThreadOk(tr[k - 1], t);
  }

  ghost predicate Holds(s: State, t: Tid, b: nat) {
    t in s.threads && s.threads[t] == Holding(b)
  }

  /** No two receivers hold the same bit, and (once the header is initialised) the mask is
      the union of the bits held. */
  lemma HeldIdsAreTheMask(tr: seq<State>, k: nat, t: Tid, b: nat)
    requires Run(tr) && k < |tr|
    ensures Holds(tr[k], t, b) ==> b < BITS && forall u | Holds(tr[k], u, b) :: t == u
    ensures tr[k].constructed ==> (b in tr[k].cc <==> exists u :: Holds(tr[k], u, b))
  {
    var s := tr[k];
    RunInv(tr, k);
    forall u | Holds(s, u, b) ensures b in s.owner && s.owner[b] == u { assert ThreadOk(s, u); }
    if b in s.owner {
      assert OwnerOk(s, b);
      assert Holds(s, s.owner[b], b);
    }
  }

  /** `conn_count` is the number of receivers holding an id. */
  lemma CountIsHolders(tr: seq<State>, k: nat, w: Cc)
    requires Run(tr) && k < |tr| && tr[k].constructed && Ones(w) == tr[k].cc
    ensures CountOnes(w) == |tr[k].held|
    ensures forall t :: t in tr[k].held <==> t in tr[k].threads && tr[k].threads[t].Holding?
  {
    RunInv(tr, k);
    CountIsSize(w);
    forall t ensures t in tr[k].held <==> t in tr[k].threads && tr[k].threads[t].Holding? {
      assert t in tr[k].threads ==> ThreadOk(tr[k], t);
    }
  }

  lemma {:induction false} BelowSize(c: set<nat>, n: nat)
    requires forall i | i in c :: i < n
    ensures |c| <= n
    ensures |c| == n <==> forall i: nat | i < n :: i in c
  {
    if n > 0 {
      BelowSize(c - {n - 1}, n - 1);
      assert c == (c - {n - 1}) + if n - 1 in c then {n - 1} else {};
    }
  }

  /** A load of the mask refuses a receiver exactly when 32 others hold an id. */
  lemma RefusedWhenFull(tr: seq<State>, k: nat, t: Tid)
    requires Run(tr) && 0 < k < |tr| && t in tr[k - 1].threads && LoadMask(tr[k - 1], tr[k], t, tr[k - 1].threads[t])
    ensures tr[k].threads[t].Refused? <==> |tr[k - 1].held| == BITS
  {
    RunInv(tr, k - 1);
    FullIsThirtyTwo(tr[k - 1], t);
  }

  lemma OthersStand(s: State, s': State, u: Tid, t: Tid)
    requires ThreadStep(s, s', u) && t in s.threads && t != u
    ensures t in s'.threads && s'.threads[t] == s.threads[t]
  {
  }

  /** What a receiver that is connecting does next: it goes on, gets the lowest clear bit of the
      mask, or is refused. */
  lemma ConnectMoves(s: State, s': State, t: Tid)
    requires ThreadStep(s, s', t) && (s.threads[t].Connect? || s.threads[t].Loaded?)
    ensures t in s'.threads
    ensures var x, x' := s.threads[t], s'.threads[t];
            || x'.Connect? || x'.Loaded?
            || (x'.Holding? && LowestClear(s.cc, x'.id) && s'.cc == s.cc + {x'.id})
            || (x'.Refused? && x.Connect? && Full(s.cc))
  {
  }

  lemma RefusedFrom(s: State, s': State, t: Tid)
    requires ThreadStep(s, s', t) && !s.threads[t].Refused? && t in s'.threads && s'.threads[t].Refused?
    ensures s.threads[t].Connect? && Full(s.cc)
  {
  }

  lemma FullIsThirtyTwo(s: State, t: Tid)
    requires Inv(s) && t in s.threads && (s.threads[t].Connect? || s.threads[t].Loaded?)
    ensures Full(s.cc) <==> |s.held| == BITS
  {
    assert ThreadOk(s, t);
    forall b | b in s.cc ensures b < BITS { assert OwnerOk(s, b); }
    BelowSize(s.cc, BITS);
  }

  /** In every step of every run: a receiver that becomes refused finds 32 others holding an id;
      losing the CAS never refuses it. */
  lemma RefusedOnlyWhenFull(tr: seq<State>, k: nat, t: Tid)
    requires Run(tr) && 0 < k < |tr| && t in tr[k - 1].threads && !tr[k - 1].threads[t].Refused?
    requires t in tr[k].threads && tr[k].threads[t].Refused?
    ensures |tr[k - 1].held| == BITS
  {
    RunInv(tr, k - 1);
    assert StepAt(tr, k);
    var s, s' := tr[k - 1], tr[k];
    var u :| ThreadStep(s, s', u);
    if u != t { OthersStand(s, s', u, t); }
    RefusedFrom(s, s', t);
    FullIsThirtyTwo(s, t);
  }

  /** And whoever connects goes on, gets the lowest clear bit, or is refused so. */
  lemma ConnectReturns(tr: seq<State>, k: nat, t: Tid)
    requires Run(tr) && 0 < k < |tr| && t in tr[k - 1].threads
    requires tr[k - 1].threads[t].Connect? || tr[k - 1].threads[t].Loaded?
    ensures t in tr[k].threads
    ensures var x' := tr[k].threads[t];
            || x'.Connect? || x'.Loaded?
            || (x'.Holding? && LowestClear(tr[k - 1].cc, x'.id))
            || (x'.Refused? && |tr[k - 1].held| == BITS)
  {
    assert StepAt(tr, k);
    var s, s' := tr[k - 1], tr[k];
    var u :| ThreadStep(s, s', u);
    if u != t { OthersStand(s, s', u, t); } else { ConnectMoves(s, s', t); }
    if tr[k].threads[t].Refused? { RefusedOnlyWhenFull(tr, k, t); }
  }

  // A connect that runs alone -------------------------------------------------------------------

  ghost predicate ThreadStepAt(tr: seq<State>, k: int, t: Tid)
    requires 0 < k < |tr|
  {
    ThreadStep(tr[k - 1], tr[k], t)
  }

  /** `tr` is a run that extends `from` by steps of thread `t` alone and ends in `s`. */
  ghost predicate Solo(from: seq<State>, tr: seq<State>, s: State, t: Tid) {
    && Run(from) && from <= tr && Run(tr) && tr[|tr| - 1] == s
    && forall k | |from| <= k < |tr| :: ThreadStepAt(tr, k, t)
  }

  lemma Goes(from: seq<State>, tr: seq<State>, p: State, s: State, t: Tid) returns (tr': seq<State>)
    requires Solo(from, tr, p, t) && ThreadStep(p, s, t)
    ensures Solo(from, tr', s, t) && |tr'| == |tr| + 1
  {
    tr' := tr + [s];
    forall k | 0 < k < |tr'| ensures StepAt(tr', k) { if k < |tr| { assert StepAt(tr, k); } }
    forall k | |from| <= k < |tr'| ensures ThreadStepAt(tr', k, t) { if k < |tr| { assert ThreadStepAt(tr, k, t); } }
  }

  /** A mask that is not full has a lowest clear bit. */
  lemma {:induction false} LowestExists(c: Mask, n: nat) returns (z: nat)
    requires n <= BITS && !Full(c) && forall i: nat | i < n :: i in c
    ensures LowestClear(c, z)
    decreases BITS - n
  {
    if n < BITS && n in c { z := LowestExists(c, n + 1); } else { z := n; }
  }

  /** From its open to the start of its connect: the first opener initialises the header, later
      ones find it done. */
  lemma SoloOpen(tr: seq<State>, t: Tid) returns (tr': seq<State>)
    requires Run(tr)
    requires var s := tr[|tr| - 1]; t in s.threads && s.threads[t].Open? && (s.constructed || !s.lock)
    ensures var s := tr[|tr| - 1];
            Solo(tr, tr', if s.constructed then Set(s, t, Connect)
                          else Set(s, t, Connect).(constructed := true, cc := {}, inits := s.inits + 1), t)
  {
    var s := tr[|tr| - 1];
    var s1 := Set(s, t, if s.constructed then Connect else Spin);
    assert Look(s, s1, t, s.threads[t]);
    tr' := Goes(tr, tr, s, s1, t);
    if !s.constructed { tr' := SoloInit(tr, tr', s, t); }
  }

  lemma SoloInit(from: seq<State>, tr: seq<State>, s: State, t: Tid) returns (tr': seq<State>)
    requires Solo(from, tr, Set(s, t, Spin), t) && t in s.threads && !s.constructed && !s.lock
    ensures Solo(from, tr', Set(s, t, Connect).(constructed := true, cc := {}, inits := s.inits + 1), t)
  {
    var l := s.(lock := true);
    var d := l.(constructed := true, cc := {}, inits := s.inits + 1);
    var s1, s2, s3 := Set(s, t, Spin), Set(l, t, Recheck), Set(l, t, Zero);
    var s4, s5, s6 := Set(l, t, Publish).(cc := {}), Set(d, t, Unlock), Set(d, t, Connect).(lock := false);
    assert TakeLock(s1, s2, t, s1.threads[t]);
    tr' := Goes(from, tr, s1, s2, t);
    assert LookAgain(s2, s3, t, s2.threads[t]);
    tr' := Goes(from, tr', s2, s3, t);
    assert StoreZero(s3, s4, t, s3.threads[t]);
    tr' := Goes(from, tr', s3, s4, t);
    assert StoreConstructed(s4, s5, t, s4.threads[t]);
    tr' := Goes(from, tr', s4, s5, t);
    assert ReleaseLock(s5, s6, t, s5.threads[t]);
    tr' := Goes(from, tr', s5, s6, t);
  }

  /** The state in which `t` has got bit `z`, all else as it was. */
  function Granted(s: State, t: Tid, z: nat): State {
    Set(s, t, Holding(z)).(cc := s.cc + {z}, held := s.held + {t}, owner := s.owner[z := t])
  }

  lemma SoloClaim(from: seq<State>, s: State, t: Tid, z: nat) returns (tr: seq<State>)
    requires Solo(from, from, s, t) && t in s.threads && (s.threads[t].Connect? || s.threads[t].Loaded?)
    requires !Full(s.cc) && LowestClear(s.cc, z)
    ensures Solo(from, tr, Granted(s, t, z), t)
  {
    tr := from;
    var s0, s1 := Set(s, t, Connect), Set(s, t, Loaded(s.cc));
    if s.threads[t].Loaded? {
      assert CasFails(s, s0, t, s.threads[t]);
      tr := Goes(from, tr, s, s0, t);
    }
    assert s.threads[t].Connect? ==> s0 == s;
    assert LoadMask(s0, s1, t, s0.threads[t]);
    tr := Goes(from, tr, s0, s1, t);
    assert CasWins(s1, Granted(s, t, z), t, s1.threads[t], z);
    tr := Goes(from, tr, s1, Granted(s, t, z), t);
  }

  /** A connect that runs alone with fewer than 32 ids held ends in the holding of the lowest
      clear bit, whatever mask it had loaded. */
  lemma SoloConnect(tr: seq<State>, t: Tid) returns (tr': seq<State>, z: nat)
    requires Run(tr)
    requires var s := tr[|tr| - 1];
             t in s.threads && (s.threads[t].Connect? || s.threads[t].Loaded?) && |s.held| < BITS
    ensures LowestClear(tr[|tr| - 1].cc, z) && Solo(tr, tr', Granted(tr[|tr| - 1], t, z), t)
  {
    var s := tr[|tr| - 1];
    assert !Full(s.cc) by {
      RunInv(tr, |tr| - 1);
      FullIsThirtyTwo(s, t);
    }
    z := LowestExists(s.cc, 0);
    tr' := SoloClaim(tr, s, t, z);
  }

  /** A lone disconnect gives back the bit it held and no other. */
  lemma SoloDisconnect(tr: seq<State>, t: Tid) returns (tr': seq<State>)
    requires Run(tr) && var s := tr[|tr| - 1]; t in s.threads && s.threads[t].Holding?
    ensures |tr'| > |tr| && var s, s' := tr[|tr| - 1], tr'[|tr'| - 1];
            && Solo(tr, tr', s', t) && s.cc == s'.cc + {s.threads[t].id} && s.threads[t].id !in s'.cc
            && |s'.held| == |s.held| - 1
  {
    var s := tr[|tr| - 1];
    var x := s.threads[t];
    RunInv(tr, |tr| - 1);
    assert ThreadOk(s, t);
    var s1 := Set(s, t, Left).(cc := s.cc - {x.id}, held := s.held - {t}, owner := s.owner - {x.id});
    assert Disconnect(s, s1, t, x);
    tr' := Goes(tr, tr, s, s1, t);
  }
}
