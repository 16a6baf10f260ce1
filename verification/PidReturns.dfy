/** The sole-sender claim without its hypothesis: exactly when an unguarded claim makes two
    owners, what the guard means over runs, and a run that ends with two live owners. */
module PidReturns {
  import opened Processes
  import opened SoleSender

  /** The claiming CAS as the code has it: it compares the pid alone. */
  ghost predicate UnguardedClaim(s: State, s': State, e: nat) {
    && Live(s, e) && s.ends[e].pc.Cas? && s.rec.pid == s.ends[e].pc.cur
    && s' == Set(s, e, Claiming).(rec := Record(OWNER_CLAIMING, s.rec.tok, s.rec.ver + 1, e))
  }

  ghost predicate Next(s: State, s': State) {
    Step(s, s') || exists e :: UnguardedClaim(s, s', e)
  }

  ghost predicate NextAt(tr: seq<State>, k: int)
    requires 0 < k < |tr|
  {
    Next(tr[k - 1], tr[k])
  }

  /** A run of the code as it is. */
  ghost predicate FreeRun(tr: seq<State>) {
    |tr| > 0 && Init(tr[0]) && forall k | 0 < k < |tr| :: NextAt(tr, k)
  }

  // When a claim makes two owners ------------------------------------------------------------

  ghost predicate TwoOwners(s: State, d: nat, e: nat) {
    d != e && Live(s, d) && Live(s, e) && Owning(s.ends[d].pc) && Owning(s.ends[e].pc)
  }

  /** The record was written since the claimant read it, and whoever wrote it last is alive
      and claiming or holding. */
  ghost predicate Harmful(s: State, e: nat)
    requires e in s.ends && s.ends[e].pc.Cas?
  {
    s.rec.pid != 0 && s.rec.ver != s.ends[e].pc.v && Live(s, s.rec.owner) && Owning(s.ends[s.rec.owner].pc)
  }

  /** From a state with one owner at most, a claim makes two if and only if it is harmful. */
  lemma BreaksExactly(s: State, s': State, e: nat)
    requires Inv(s) && UnguardedClaim(s, s', e)
    ensures (exists d :: TwoOwners(s', d, e)) <==> Harmful(s, e)
  {
    assert EndOk(s, e);
    if Harmful(s, e) { assert TwoOwners(s', s.rec.owner, e); }
    if d :| TwoOwners(s', d, e) { assert EndOk(s, d) && Live(s, d); }
  }

  lemma HarmlessKeeps(s: State, s': State, e: nat)
    requires Inv(s) && UnguardedClaim(s, s', e) && !Harmful(s, e)
    ensures Inv(s')
  {
    assert EndOk(s, e);
    forall d | d in s'.ends ensures EndOk(s', d) { assert EndOk(s, d); }
  }

  ghost predicate HarmfulClaim(s: State, s': State) {
    exists e :: UnguardedClaim(s, s', e) && Harmful(s, e)
  }

  ghost predicate HarmfulAt(tr: seq<State>, k: int)
    requires 0 < k < |tr|
  {
    HarmfulClaim(tr[k - 1], tr[k])
  }

  lemma {:induction false} HarmlessSoFar(tr: seq<State>, k: nat)
    requires FreeRun(tr) && k < |tr| && forall j | 0 < j <= k :: !HarmfulAt(tr, j)
    ensures Inv(tr[k])
  {
    if k > 0 {
      HarmlessSoFar(tr, k - 1);
      assert NextAt(tr, k) && !HarmfulAt(tr, k);
      NextKeeps(tr[k - 1], tr[k]);
    }
  }

  lemma NextKeeps(s: State, s': State)
    requires Inv(s) && Next(s, s') && forall e | UnguardedClaim(s, s', e) :: !Harmful(s, e)
    ensures Inv(s')
  {
    if Step(s, s') {
      StepKeeps(s, s');
    } else {
      var e :| UnguardedClaim(s, s', e);
      HarmlessKeeps(s, s', e);
    }
  }

  ghost predicate AtMostOne(s: State) {
    forall d, e :: !TwoOwners(s, d, e)
  }

  /** The exact condition: every state of a run has at most one live owner if and only if
      no claim of the run is harmful. */
  lemma SoleOwnerExactly(tr: seq<State>)
    requires FreeRun(tr)
    ensures (forall k | 0 <= k < |tr| :: AtMostOne(tr[k])) <==> (forall k | 0 < k < |tr| :: !HarmfulAt(tr, k))
  {
    if forall k | 0 < k < |tr| :: !HarmfulAt(tr, k) {
      forall k | 0 <= k < |tr| ensures AtMostOne(tr[k]) {
        HarmlessSoFar(tr, k);
        InvIsSole(tr[k]);
      }
    } else {
      var k :| 0 < k < |tr| && HarmfulAt(tr, k);
      var j := FirstHarm(tr, k);
      HarmlessSoFar(tr, j - 1);
      var e :| UnguardedClaim(tr[j - 1], tr[j], e) && Harmful(tr[j - 1], e);
      BreaksExactly(tr[j - 1], tr[j], e);
      assert !AtMostOne(tr[j]);
    }
  }

  lemma InvIsSole(s: State)
    requires Inv(s)
    ensures AtMostOne(s)
  {
    forall d, e ensures !TwoOwners(s, d, e) { assert d in s.ends && e in s.ends ==> EndOk(s, d) && EndOk(s, e); }
  }

  lemma {:induction false} FirstHarm(tr: seq<State>, k: nat) returns (j: nat)
    requires 0 < k < |tr| && HarmfulAt(tr, k)
    ensures 0 < j <= k && HarmfulAt(tr, j) && forall i | 0 < i < j :: !HarmfulAt(tr, i)
  {
    j := k;
    if i :| 0 < i < k && HarmfulAt(tr, i) { j := FirstHarm(tr, i); }
  }

  // What the version says ---------------------------------------------------------------------

  predicate Reading(pc: Pc) {
    pc.HavePid? || pc.HaveTok? || pc.Cas?
  }

  predicate InFlight(pc: Pc) {
    pc.Claiming? || pc.TokStored?
  }

  ghost predicate EndFits(s: State, e: nat)
    requires e in s.ends
  {
    var pc := s.ends[e].pc;
    (Reading(pc) ==> pc.cur >= 0) && (InFlight(pc) ==> s.rec.pid == OWNER_CLAIMING)
  }

  /** What every run keeps, harmful or not: a claim in flight owns the record alone. */
  ghost predicate RecordOk(s: State) {
    && s.rec.pid >= OWNER_CLAIMING
    && (forall p | p in s.procs :: s.procs[p].pid > 0)
    && (forall e | e in s.ends :: EndFits(s, e))
    && (forall d, e | d in s.ends && e in s.ends && InFlight(s.ends[d].pc) && InFlight(s.ends[e].pc) :: d == e)
  }

  /** A step that writes the pid field changes the pid. */
  ghost predicate Moves(s: State, s': State) {
    if s'.rec.ver == s.rec.ver then s'.rec.pid == s.rec.pid
    else s'.rec.ver == s.rec.ver + 1 && s'.rec.pid != s.rec.pid
  }

  lemma NextMoves(s: State, s': State)
    requires RecordOk(s) && Next(s, s')
    ensures RecordOk(s') && Moves(s, s')
  {
    if e :| UnguardedClaim(s, s', e) {
      ClaimMoves(s, s', e);
    } else if e :| EndpointStep(s, s', e) {
      assert !UnguardedClaim(s, s', e);
      if StoreTok(s, s', e) || StorePid(s, s', e) || ClearTok(s, s', e) || ClearPid(s, s', e) { OwnerMoves(s, s', e); }
      else { ReadMoves(s, s', e); }
    } else {
      forall d | d in s'.ends ensures EndFits(s', d) { assert d in s.ends ==> EndFits(s, d); }
    }
  }

  lemma ClaimMoves(s: State, s': State, e: nat)
    requires RecordOk(s) && UnguardedClaim(s, s', e)
    ensures RecordOk(s') && Moves(s, s')
  {
    assert EndFits(s, e);
    forall d | d in s'.ends ensures EndFits(s', d) { assert EndFits(s, d); }
  }

  lemma OwnerMoves(s: State, s': State, e: nat)
    requires RecordOk(s) && (StoreTok(s, s', e) || StorePid(s, s', e) || ClearTok(s, s', e) || ClearPid(s, s', e))
    ensures RecordOk(s') && Moves(s, s')
  {
    assert EndFits(s, e);
    forall d | d in s'.ends ensures EndFits(s', d) { assert EndFits(s, d); }
  }

  lemma ReadMoves(s: State, s': State, e: nat)
    requires RecordOk(s)
    requires LoadPid(s, s', e) || LoadTok(s, s', e) || Refused(s, s', e) || FoundDead(s, s', e) || CheckPid(s, s', e)
    ensures RecordOk(s') && Moves(s, s')
  {
    assert EndFits(s, e);
    forall d | d in s'.ends ensures EndFits(s', d) { assert EndFits(s, d); }
  }

  lemma {:induction false} FreeRunOk(tr: seq<State>, k: nat)
    requires FreeRun(tr) && k < |tr|
    ensures RecordOk(tr[k]) && (k > 0 ==> Moves(tr[k - 1], tr[k]))
  {
    if k > 0 {
      FreeRunOk(tr, k - 1);
      assert NextAt(tr, k);
      NextMoves(tr[k - 1], tr[k]);
    }
  }

  ghost predicate SamePid(tr: seq<State>, j: nat, k: nat)
    requires j <= k < |tr|
  {
    forall i | j <= i <= k :: tr[i].rec.pid == tr[j].rec.pid
  }

  /** Between two points of a run the version stands still if and only if the pid does. */
  lemma {:induction false} VersionIsPid(tr: seq<State>, j: nat, k: nat)
    requires FreeRun(tr) && j <= k < |tr|
    ensures tr[j].rec.ver <= tr[k].rec.ver
    ensures tr[j].rec.ver == tr[k].rec.ver <==> SamePid(tr, j, k)
    decreases k
  {
    if j < k {
      VersionIsPid(tr, j, k - 1);
      FreeRunOk(tr, k);
      if tr[j].rec.ver == tr[k - 1].rec.ver {
        assert tr[k - 1].rec.pid == tr[j].rec.pid;
      } else {
        assert SamePid(tr, j, k) ==> SamePid(tr, j, k - 1);
      }
    }
  }

  /** Endpoint `e` has read pid `cur` at version `v` and not acted on it yet. */
  ghost predicate Holds(s: State, e: nat, cur: int, v: nat) {
    e in s.ends && Reading(s.ends[e].pc) && s.ends[e].pc.cur == cur && s.ends[e].pc.v == v
  }

  /** Endpoint `e` loads the pid in step `j` and is still working from it at `k`. */
  ghost predicate Attempt(tr: seq<State>, j: nat, k: nat, e: nat) {
    && 0 < j <= k < |tr| && LoadPid(tr[j - 1], tr[j], e)
    && forall i | j <= i <= k :: Holds(tr[i], e, tr[j].rec.pid, tr[j].rec.ver)
  }

  lemma ReadStep(s: State, s': State, e: nat)
    requires Next(s, s') && e in s'.ends && Reading(s'.ends[e].pc)
    ensures LoadPid(s, s', e) || Holds(s, e, s'.ends[e].pc.cur, s'.ends[e].pc.v)
  {
    if d :| UnguardedClaim(s, s', d) || EndpointStep(s, s', d) {
      assert d != e ==> s'.ends[e] == s.ends[e];
    }
  }

  lemma {:induction false} AttemptBegins(tr: seq<State>, k: nat, e: nat) returns (j: nat)
    requires FreeRun(tr) && k < |tr| && e in tr[k].ends && Reading(tr[k].ends[e].pc)
    ensures Attempt(tr, j, k, e)
  {
    assert k > 0;
    assert NextAt(tr, k);
    ReadStep(tr[k - 1], tr[k], e);
    if LoadPid(tr[k - 1], tr[k], e) {
      j := k;
    } else {
      j := AttemptBegins(tr, k - 1, e);
      forall i | j <= i <= k ensures Holds(tr[i], e, tr[j].rec.pid, tr[j].rec.ver) {
        assert Holds(tr[k - 1], e, tr[j].rec.pid, tr[j].rec.ver);
      }
    }
  }

  /** What the guard shuts out: in every run, a claim's CAS that finds the pid it read
      passes the guard if and only if the pid is 0 or no state since the read shows
      another pid. */
  lemma GuardIsReturn(tr: seq<State>, k: nat, e: nat) returns (j: nat)
    requires FreeRun(tr) && 0 < k < |tr| && UnguardedClaim(tr[k - 1], tr[k], e)
    ensures Attempt(tr, j, k - 1, e) && tr[j].rec.pid == tr[k - 1].rec.pid
    ensures ClaimWins(tr[k - 1], tr[k], e) <==> tr[j].rec.pid == 0 || SamePid(tr, j, k - 1)
    ensures tr[k - 1].rec.ver != tr[k - 1].ends[e].pc.v <==> exists i | j <= i < k :: tr[i].rec.pid != tr[j].rec.pid
  {
    j := AttemptBegins(tr, k - 1, e);
    assert Holds(tr[k - 1], e, tr[j].rec.pid, tr[j].rec.ver);
    VersionIsPid(tr, j, k - 1);
  }

  // A run that ends with two owners -------------------------------------------------------------

  ghost predicate Reaches(tr: seq<State>, s: State) {
    FreeRun(tr) && tr[|tr| - 1] == s
  }

  lemma Extend(tr: seq<State>, p: State, s: State) returns (tr': seq<State>)
    requires Reaches(tr, p) && Next(p, s)
    ensures Reaches(tr', s)
  {
    tr' := tr + [s];
    forall k | 0 < k < |tr'| ensures NextAt(tr', k) { if k < |tr| { assert NextAt(tr, k); } }
  }

  lemma Go(tr: seq<State>, p: State, s: State, e: nat) returns (tr': seq<State>)
    requires Reaches(tr, p) && EndpointStep(p, s, e)
    ensures Reaches(tr', s)
  {
    tr' := Extend(tr, p, s);
  }

  /** Three processes with one endpoint each, at the given record and pcs. */
  function At(r: Record, a: Pc, b: Pc, c: Pc): State {
    State(r, Three(), map[1 := Endpoint(1, a), 2 := Endpoint(2, b), 3 := Endpoint(3, c)])
  }

  function Three(): Procs {
    map[1 := Process(11, 101, true), 2 := Process(12, 102, true), 3 := Process(13, 103, true)]
  }

  lemma Opened() returns (tr: seq<State>)
    ensures Reaches(tr, At(Record(0, 0, 0, 0), Idle, Idle, Idle))
  {
    var r := Record(0, 0, 0, 0);
    var p1 := map[1 := Process(11, 101, true)];
    var p2 := p1[2 := Process(12, 102, true)];
    var s0, s1, s2, s3 := State(r, map[], map[]), State(r, p1, map[]), State(r, p2, map[]), State(r, Three(), map[]);
    tr := [s0];
    assert Spawn(s0, s1, 1, 11, 101);
    tr := Extend(tr, s0, s1);
    assert Spawn(s1, s2, 2, 12, 102);
    tr := Extend(tr, s1, s2);
    assert Spawn(s2, s3, 3, 13, 103);
    tr := Extend(tr, s2, s3);
    tr := AllOpen(tr, s3);
  }

  lemma AllOpen(tr: seq<State>, s: State) returns (tr': seq<State>)
    requires s == State(Record(0, 0, 0, 0), Three(), map[]) && Reaches(tr, s)
    ensures Reaches(tr', At(Record(0, 0, 0, 0), Idle, Idle, Idle))
  {
    var e1 := map[1 := Endpoint(1, Idle)];
    var e2 := e1[2 := Endpoint(2, Idle)];
    var s1, s2, s3 := s.(ends := e1), s.(ends := e2), At(s.rec, Idle, Idle, Idle);
    assert Open(s, s1, 1, 1);
    tr' := Extend(tr, s, s1);
    assert Open(s1, s2, 2, 2);
    tr' := Extend(tr', s1, s2);
    assert Open(s2, s3, 3, 3);
    tr' := Extend(tr', s2, s3);
  }

  /** Endpoint 1 claims a free record, whatever endpoint 3 is doing. */
  lemma FirstClaims(tr: seq<State>, v: nat, o: nat, c: Pc) returns (tr': seq<State>)
    requires Reaches(tr, At(Record(0, 0, v, o), Idle, Idle, c))
    ensures Reaches(tr', At(Record(11, 101, v + 2, 1), Holding, Idle, c))
  {
    var s0, s1 := At(Record(0, 0, v, o), Idle, Idle, c), At(Record(0, 0, v, o), Cas(0, v), Idle, c);
    var s2 := At(Record(-1, 0, v + 1, 1), Claiming, Idle, c);
    assert LoadPid(s0, s1, 1);
    tr' := Go(tr, s0, s1, 1);
    assert ClaimWins(s1, s2, 1);
    tr' := Go(tr', s1, s2, 1);
    tr' := FirstPublishes(tr', v, c);
  }

  lemma FirstPublishes(tr: seq<State>, v: nat, c: Pc) returns (tr': seq<State>)
    requires Reaches(tr, At(Record(-1, 0, v + 1, 1), Claiming, Idle, c))
    ensures Reaches(tr', At(Record(11, 101, v + 2, 1), Holding, Idle, c))
  {
    var s2, s3 := At(Record(-1, 0, v + 1, 1), Claiming, Idle, c), At(Record(-1, 101, v + 1, 1), TokStored, Idle, c);
    var s4 := At(Record(11, 101, v + 2, 1), Holding, Idle, c);
    assert StoreTok(s2, s3, 1);
    tr' := Go(tr, s2, s3, 1);
    assert StorePid(s3, s4, 1);
    tr' := Go(tr', s3, s4, 1);
  }

  /** It releases the record after endpoint 3 has read its pid. */
  lemma FirstReleases(tr: seq<State>) returns (tr': seq<State>)
    requires Reaches(tr, At(Record(11, 101, 2, 1), Holding, Idle, HavePid(11, 2)))
    ensures Reaches(tr', At(Record(0, 0, 3, 1), Idle, Idle, HavePid(11, 2)))
  {
    var c := HavePid(11, 2);
    var s0, s1 := At(Record(11, 101, 2, 1), Holding, Idle, c), At(Record(11, 101, 2, 1), Releasing, Idle, c);
    var s2, s3 := At(Record(11, 0, 2, 1), TokCleared, Idle, c), At(Record(0, 0, 3, 1), Idle, Idle, c);
    assert CheckPid(s0, s1, 1);
    tr' := Go(tr, s0, s1, 1);
    assert ClearTok(s1, s2, 1);
    tr' := Go(tr', s1, s2, 1);
    assert ClearPid(s2, s3, 1);
    tr' := Go(tr', s2, s3, 1);
  }

  /** Endpoint 2 claims, and has stored its token but not its pid. */
  lemma SecondClaims(tr: seq<State>) returns (tr': seq<State>)
    requires Reaches(tr, At(Record(0, 0, 3, 1), Idle, Idle, HavePid(11, 2)))
    ensures Reaches(tr', At(Record(-1, 102, 4, 2), Idle, TokStored, HavePid(11, 2)))
  {
    var c := HavePid(11, 2);
    var s0, s1 := At(Record(0, 0, 3, 1), Idle, Idle, c), At(Record(0, 0, 3, 1), Idle, Cas(0, 3), c);
    var s2, s3 := At(Record(-1, 0, 4, 2), Idle, Claiming, c), At(Record(-1, 102, 4, 2), Idle, TokStored, c);
    assert LoadPid(s0, s1, 2);
    tr' := Go(tr, s0, s1, 2);
    assert ClaimWins(s1, s2, 2);
    tr' := Go(tr', s1, s2, 2);
    assert StoreTok(s2, s3, 2);
    tr' := Go(tr', s2, s3, 2);
  }

  /** Endpoint 3 pairs the old pid with the new token, and finds the first holder, which is
      alive, dead. */
  lemma TokensMix(tr: seq<State>) returns (tr': seq<State>)
    requires Reaches(tr, At(Record(-1, 102, 4, 2), Idle, TokStored, HavePid(11, 2)))
    ensures Reaches(tr', At(Record(-1, 102, 4, 2), Idle, TokStored, Cas(11, 2)))
  {
    var r := Record(-1, 102, 4, 2);
    var s0, s1 := At(r, Idle, TokStored, HavePid(11, 2)), At(r, Idle, TokStored, HaveTok(11, 2, 102));
    var s2 := At(r, Idle, TokStored, Cas(11, 2));
    assert LoadTok(s0, s1, 3);
    tr' := Go(tr, s0, s1, 3);
    assert FoundDead(s1, s2, 3);
    tr' := Go(tr', s1, s2, 3);
  }

  lemma SecondReleases(tr: seq<State>) returns (tr': seq<State>)
    requires Reaches(tr, At(Record(-1, 102, 4, 2), Idle, TokStored, Cas(11, 2)))
    ensures Reaches(tr', At(Record(0, 0, 6, 2), Idle, Idle, Cas(11, 2)))
  {
    var c := Cas(11, 2);
    var s0, s1 := At(Record(-1, 102, 4, 2), Idle, TokStored, c), At(Record(12, 102, 5, 2), Idle, Holding, c);
    var s2, s3 := At(Record(12, 102, 5, 2), Idle, Releasing, c), At(Record(12, 0, 5, 2), Idle, TokCleared, c);
    var s4 := At(Record(0, 0, 6, 2), Idle, Idle, c);
    assert StorePid(s0, s1, 2);
    tr' := Go(tr, s0, s1, 2);
    assert CheckPid(s1, s2, 2);
    tr' := Go(tr', s1, s2, 2);
    assert ClearTok(s2, s3, 2);
    tr' := Go(tr', s2, s3, 2);
    assert ClearPid(s3, s4, 2);
    tr' := Go(tr', s3, s4, 2);
  }

  /** Endpoint 3 reads the first holder's pid. */
  lemma ThirdLooks(tr: seq<State>) returns (tr': seq<State>)
    requires Reaches(tr, At(Record(11, 101, 2, 1), Holding, Idle, Idle))
    ensures Reaches(tr', At(Record(11, 101, 2, 1), Holding, Idle, HavePid(11, 2)))
  {
    var r := Record(11, 101, 2, 1);
    var s0, s1 := At(r, Holding, Idle, Idle), At(r, Holding, Idle, HavePid(11, 2));
    assert LoadPid(s0, s1, 3);
    tr' := Go(tr, s0, s1, 3);
  }

  /** Its CAS finds that pid again, from a later claim, and takes the record over. */
  lemma ThirdTakesOver(tr: seq<State>) returns (tr': seq<State>)
    requires Reaches(tr, At(Record(11, 101, 8, 1), Holding, Idle, Cas(11, 2)))
    ensures Reaches(tr', At(Record(-1, 101, 9, 3), Holding, Idle, Claiming))
  {
    var s0 := At(Record(11, 101, 8, 1), Holding, Idle, Cas(11, 2));
    var s1 := At(Record(-1, 101, 9, 3), Holding, Idle, Claiming);
    assert UnguardedClaim(s0, s1, 3);
    tr' := Extend(tr, s0, s1);
  }

  /** Two live endpoints own the record: one holds it, the other has taken it over. */
  lemma ReturnBreaksSoleOwner() returns (tr: seq<State>, s: State)
    ensures Reaches(tr, s) && TwoOwners(s, 1, 3)
  {
    tr := Opened();
    tr := FirstClaims(tr, 0, 0, Idle);
    tr := ThirdLooks(tr);
    tr := FirstReleases(tr);
    tr := SecondClaims(tr);
    tr := TokensMix(tr);
    tr := SecondReleases(tr);
    tr := FirstClaims(tr, 6, 2, Cas(11, 2));
    tr := ThirdTakesOver(tr);
    s := At(Record(-1, 101, 9, 3), Holding, Idle, Claiming);
  }
}
