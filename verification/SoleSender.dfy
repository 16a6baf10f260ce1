/** The sole-sender claim of a route (`claim_sole_owner`, `release_sole_owner`) as a
    system of atomic steps, with processes that start, crash at any step, and reuse pids.

    The liveness check is conservative: it may call anything alive, and calls a recorded
    process dead only if no live process has that pid, or the one that has it shows
    another start token. The guard of the claiming CAS says that no pid leaves the record
    and comes back between a claimant's first read and its CAS. `ver` (writes of the pid
    field) and `owner` (the endpoint that last claimed) are history variables. */
module SoleSender {
  import opened Processes

  /** `pid` of a record whose claim is in flight. */
  const OWNER_CLAIMING: int := -1

  datatype Record = Record(pid: int, tok: nat, ver: nat, owner: nat)

  /** Where an endpoint stands in `claim_sole_owner` and `release_sole_owner`. */
  datatype Pc =
    | Idle
    | HavePid(cur: int, v: nat)
    | HaveTok(cur: int, v: nat, tok: nat)
    | Cas(cur: int, v: nat)
    | Claiming
    | TokStored
    | Holding
    | Releasing
    | TokCleared

  datatype Endpoint = Endpoint(proc: nat, pc: Pc)

  datatype State = State(rec: Record, procs: Procs, ends: map<nat, Endpoint>)

  ghost predicate Init(s: State) {
    && s.rec.pid == 0 && s.rec.tok == 0
    && s.procs == map[] && s.ends == map[]
  }

  function Set(s: State, e: nat, pc: Pc): State
    requires e in s.ends
  {
    s.(ends := s.ends[e := s.ends[e].(pc := pc)])
  }

  /** The endpoint's process is running. */
  predicate Live(s: State, e: nat) {
    e in s.ends && Running(s.procs, s.ends[e].proc)
  }

  // The environment -----------------------------------------------------------------------

  ghost predicate Spawn(s: State, s': State, p: nat, pid: nat, tok: nat) {
    Starts(s.procs, s'.procs, p, pid, tok) && s' == s.(procs := s'.procs)
  }

  ghost predicate Open(s: State, s': State, e: nat, p: nat) {
    e !in s.ends && Running(s.procs, p) && s' == s.(ends := s.ends[e := Endpoint(p, Idle)])
  }

  ghost predicate Crash(s: State, s': State, p: nat) {
    Stops(s.procs, s'.procs, p) && s' == s.(procs := s'.procs)
  }

  // claim_sole_owner ------------------------------------------------------------------------

  ghost predicate LoadPid(s: State, s': State, e: nat) {
    && Live(s, e) && s.ends[e].pc.Idle?
    && s' == Set(s, e, if s.rec.pid == OWNER_CLAIMING then Idle
                       else if s.rec.pid == 0 then Cas(0, s.rec.ver)
                       else HavePid(s.rec.pid, s.rec.ver))
  }

  ghost predicate LoadTok(s: State, s': State, e: nat) {
    && Live(s, e) && s.ends[e].pc.HavePid?
    && s' == Set(s, e, HaveTok(s.ends[e].pc.cur, s.ends[e].pc.v, s.rec.tok))
  }

  /** Found alive, or the CAS finds another pid: the claim answers false. */
  ghost predicate Refused(s: State, s': State, e: nat) {
    && Live(s, e) && s' == Set(s, e, Idle)
    && (s.ends[e].pc.HaveTok? || (s.ends[e].pc.Cas? && s.rec.pid != s.ends[e].pc.cur))
  }

  ghost predicate FoundDead(s: State, s': State, e: nat) {
    && Live(s, e) && s.ends[e].pc.HaveTok?
    && MayLookDead(s.procs, s.ends[e].pc.cur, s.ends[e].pc.tok)
    && s' == Set(s, e, Cas(s.ends[e].pc.cur, s.ends[e].pc.v))
  }

  ghost predicate ClaimWins(s: State, s': State, e: nat) {
    && Live(s, e) && s.ends[e].pc.Cas? && s.rec.pid == s.ends[e].pc.cur
    && (s.rec.pid != 0 ==> s.rec.ver == s.ends[e].pc.v)
    && s' == Set(s, e, Claiming).(rec := Record(OWNER_CLAIMING, s.rec.tok, s.rec.ver + 1, e))
  }

  /** The claimant's own start token, or 0 if it could not be read. */
  ghost predicate StoreTok(s: State, s': State, e: nat) {
    && Live(s, e) && s.ends[e].pc.Claiming?
    && (s' == Set(s, e, TokStored).(rec := s.rec.(tok := s.procs[s.ends[e].proc].tok))
        || s' == Set(s, e, TokStored).(rec := s.rec.(tok := 0)))
  }

  ghost predicate StorePid(s: State, s': State, e: nat) {
    && Live(s, e) && s.ends[e].pc.TokStored?
    && s' == Set(s, e, Holding).(rec := s.rec.(pid := s.procs[s.ends[e].proc].pid, ver := s.rec.ver + 1))
  }

  // release_sole_owner ----------------------------------------------------------------------

  ghost predicate CheckPid(s: State, s': State, e: nat) {
    && Live(s, e) && s.ends[e].pc.Holding?
    && s' == Set(s, e, if s.rec.pid == s.procs[s.ends[e].proc].pid then Releasing else Idle)
  }

  ghost predicate ClearTok(s: State, s': State, e: nat) {
    Live(s, e) && s.ends[e].pc.Releasing? && s' == Set(s, e, TokCleared).(rec := s.rec.(tok := 0))
  }

  ghost predicate ClearPid(s: State, s': State, e: nat) {
    && Live(s, e) && s.ends[e].pc.TokCleared?
    && s' == if s.rec.pid == s.procs[s.ends[e].proc].pid
             then Set(s, e, Idle).(rec := s.rec.(pid := 0, ver := s.rec.ver + 1))
             else Set(s, e, Idle)
  }

  ghost predicate EndpointStep(s: State, s': State, e: nat) {
    || LoadPid(s, s', e) || LoadTok(s, s', e) || Refused(s, s', e) || FoundDead(s, s', e) || ClaimWins(s, s', e)
    || StoreTok(s, s', e) || StorePid(s, s', e) || CheckPid(s, s', e) || ClearTok(s, s', e) || ClearPid(s, s', e)
  }

  ghost predicate Step(s: State, s': State) {
    || (exists p, pid, tok :: Spawn(s, s', p, pid, tok)) || (exists e, p :: Open(s, s', e, p))
    || (exists p :: Crash(s, s', p))
    || (exists e :: EndpointStep(s, s', e))
  }

  ghost predicate StepAt(tr: seq<State>, k: int)
    requires 0 < k < |tr|
  {
    Step(tr[k - 1], tr[k])
  }

  ghost predicate Run(tr: seq<State>) {
    |tr| > 0 && Init(tr[0]) && forall k | 0 < k < |tr| :: StepAt(tr, k)
  }

  // The invariant ---------------------------------------------------------------------------

  /** Between the winning CAS and the end of the release. */
  predicate Owning(pc: Pc) {
    pc.Claiming? || pc.TokStored? || pc.Holding? || pc.Releasing? || pc.TokCleared?
  }

  /** Past the store of its pid. */
  predicate Published(pc: Pc) {
    pc.Holding? || pc.Releasing? || pc.TokCleared?
  }

  ghost predicate EndOk(s: State, e: nat)
    requires e in s.ends
  {
    var pc := s.ends[e].pc;
    && s.ends[e].proc in s.procs
    && (Owning(pc) && Live(s, e) ==> e == s.rec.owner && OwnerOk(s, e))
    && (pc.HavePid? || pc.HaveTok? || pc.Cas? ==> pc.v <= s.rec.ver && (pc.v == s.rec.ver ==> s.rec.pid == pc.cur))
    && (pc.HavePid? || pc.HaveTok? ==> pc.cur > 0)
    && (pc.HaveTok? && pc.v == s.rec.ver && Live(s, s.rec.owner) && Owning(s.ends[s.rec.owner].pc) ==>
          pc.tok == 0 || pc.tok == s.procs[s.ends[s.rec.owner].proc].tok)
    && (pc.Cas? && pc.v == s.rec.ver ==> !(Live(s, s.rec.owner) && Owning(s.ends[s.rec.owner].pc)))
  }

  /** What the record shows of a live owner. */
  ghost predicate OwnerOk(s: State, e: nat)
    requires e in s.ends && s.ends[e].proc in s.procs
  {
    var pc, q := s.ends[e].pc, s.procs[s.ends[e].proc];
    && (if Published(pc) then s.rec.pid == q.pid else s.rec.pid == OWNER_CLAIMING)
    && (pc.TokStored? || Published(pc) ==> s.rec.tok == 0 || s.rec.tok == q.tok)
  }

  ghost predicate Inv(s: State) {
    && s.rec.pid >= OWNER_CLAIMING
    && (forall p | p in s.procs :: s.procs[p].pid > 0)
    && (forall e | e in s.ends :: EndOk(s, e))
    && (s.rec.pid == OWNER_CLAIMING ==>
         s.rec.owner in s.ends && (s.ends[s.rec.owner].pc.Claiming? || s.ends[s.rec.owner].pc.TokStored?))
  }

  lemma EnvironmentKeeps(s: State, s': State)
    requires Inv(s)
    requires (exists p, pid, tok :: Spawn(s, s', p, pid, tok)) || (exists e, p :: Open(s, s', e, p))
        || (exists p :: Crash(s, s', p))
    ensures Inv(s')
  {
    forall e | e in s'.ends ensures EndOk(s', e) { if e in s.ends { assert EndOk(s, e); } }
  }

  lemma ReadsKeep(s: State, s': State, e: nat)
    requires Inv(s)
    requires LoadPid(s, s', e) || LoadTok(s, s', e) || Refused(s, s', e) || CheckPid(s, s', e)
    ensures Inv(s')
  {
    assert EndOk(s, e);
    if s.rec.owner in s.ends { assert EndOk(s, s.rec.owner); }
    forall d | d in s'.ends ensures EndOk(s', d) { assert EndOk(s, d); }
  }

  /** A record held by a live owner never looks dead. */
  lemma LiveOwnerLooksAlive(s: State, e: nat)
    requires Inv(s) && e in s.ends && s.ends[e].pc.HaveTok? && s.ends[e].pc.v == s.rec.ver
    requires Live(s, s.rec.owner) && Owning(s.ends[s.rec.owner].pc)
    ensures !MayLookDead(s.procs, s.ends[e].pc.cur, s.ends[e].pc.tok)
  {
    var o := s.rec.owner;
    assert EndOk(s, e) && EndOk(s, o);
    assert s.procs[s.ends[o].proc].pid == s.ends[e].pc.cur;
  }

  lemma FoundDeadKeeps(s: State, s': State, e: nat)
    requires Inv(s) && FoundDead(s, s', e)
    ensures Inv(s')
  {
    assert EndOk(s, e);
    if s.ends[e].pc.v == s.rec.ver && Live(s, s.rec.owner) && Owning(s.ends[s.rec.owner].pc) {
      LiveOwnerLooksAlive(s, e);
    }
    forall d | d in s'.ends ensures EndOk(s', d) { assert EndOk(s, d); }
  }

  /** A winning CAS finds no live endpoint claiming or holding. */
  lemma ClaimKeeps(s: State, s': State, e: nat)
    requires Inv(s) && ClaimWins(s, s', e)
    ensures Inv(s')
    ensures forall d | d in s.ends && Live(s, d) :: !Owning(s.ends[d].pc)
  {
    assert EndOk(s, e);
    forall d | d in s'.ends ensures EndOk(s', d) { assert EndOk(s, d); }
    forall d | d in s.ends && Live(s, d) ensures !Owning(s.ends[d].pc) { assert EndOk(s, d); }
  }

  lemma OwnerStepKeeps(s: State, s': State, e: nat)
    requires Inv(s)
    requires StoreTok(s, s', e) || StorePid(s, s', e) || ClearTok(s, s', e) || ClearPid(s, s', e)
    ensures Inv(s')
  {
    assert EndOk(s, e);
    forall d | d in s'.ends ensures EndOk(s', d) { assert EndOk(s, d); }
  }

  lemma StepKeeps(s: State, s': State)
    requires Inv(s) && Step(s, s')
    ensures Inv(s')
  {
    if e :| EndpointStep(s, s', e) {
      if FoundDead(s, s', e) { FoundDeadKeeps(s, s', e); }
      else if ClaimWins(s, s', e) { ClaimKeeps(s, s', e); }
      else if LoadPid(s, s', e) || LoadTok(s, s', e) || Refused(s, s', e) || CheckPid(s, s', e) { ReadsKeep(s, s', e); }
      else { OwnerStepKeeps(s, s', e); }
    } else {
      EnvironmentKeeps(s, s');
    }
  }

  lemma {:induction false} RunInv(tr: seq<State>, k: nat)
    requires Run(tr) && k < |tr|
    ensures Inv(tr[k])
  {
    if k > 0 {
      RunInv(tr, k - 1);
      assert StepAt(tr, k);
      StepKeeps(tr[k - 1], tr[k]);
    }
  }

  /** At most one live endpoint is claiming or holding the record, at any point of any
      run, whatever crashes. */
  lemma SoleOwner(tr: seq<State>, k: nat, d: nat, e: nat)
    requires Run(tr) && k < |tr|
    requires Live(tr[k], d) && Owning(tr[k].ends[d].pc) && Live(tr[k], e) && Owning(tr[k].ends[e].pc)
    ensures d == e
  {
    RunInv(tr, k);
    assert EndOk(tr[k], d) && EndOk(tr[k], e);
  }

  /** A record stuck at `OWNER_CLAIMING` has a claimant that is still in flight or
      crashed between its CAS and the store of its pid. */
  lemma StuckClaim(tr: seq<State>, k: nat)
    requires Run(tr) && k < |tr| && tr[k].rec.pid == OWNER_CLAIMING
    ensures exists e :: e in tr[k].ends && (tr[k].ends[e].pc.Claiming? || tr[k].ends[e].pc.TokStored?)
  {
    RunInv(tr, k);
  }

  /** A live owner that has published its claim is the process the record names, and the
      liveness check never calls it dead. */
  lemma HolderIsRecorded(tr: seq<State>, k: nat, e: nat)
    requires Run(tr) && k < |tr| && Live(tr[k], e) && Published(tr[k].ends[e].pc)
    ensures tr[k].rec.pid == tr[k].procs[tr[k].ends[e].proc].pid
    ensures !MayLookDead(tr[k].procs, tr[k].rec.pid, tr[k].rec.tok)
  {
    RunInv(tr, k);
    assert EndOk(tr[k], e);
  }

  // What a claim answers ------------------------------------------------------------------------

  /** In `claim_sole_owner`, past its first read and before its CAS has won. */
  predicate Trying(pc: Pc) {
    pc.HavePid? || pc.HaveTok? || pc.Cas?
  }

  /** What such a claim does next: it goes on, wins, or answers false, having asked the liveness
      check, or because the record was written since it was read. */
  ghost predicate TryMoves(s: State, s': State, e: nat)
    requires e in s.ends
  {
    && e in s'.ends
    && var x, x' := s.ends[e].pc, s'.ends[e].pc;
       || Trying(x')
       || (x'.Claiming? && s'.rec.pid == OWNER_CLAIMING && s'.rec.owner == e)
       || (x'.Idle? && x.HaveTok?)
       || (x'.Idle? && x.Cas? && s.rec.ver != x.v)
  }

  lemma TryStep(s: State, s': State, e: nat)
    requires Inv(s) && EndpointStep(s, s', e) && Trying(s.ends[e].pc)
    ensures TryMoves(s, s', e)
  {
    assert EndOk(s, e);
  }

  lemma OtherEnds(s: State, s': State, d: nat, e: nat)
    requires EndpointStep(s, s', d) && e in s.ends && e != d
    ensures e in s'.ends && s'.ends[e] == s.ends[e]
  {
  }

  /** In every step of every run: a claim that found the record free or its holder dead answers
      false only if somebody has written the record since. */
  lemma ClaimReturns(tr: seq<State>, k: nat, e: nat)
    requires Run(tr) && 0 < k < |tr| && e in tr[k - 1].ends && Trying(tr[k - 1].ends[e].pc)
    ensures TryMoves(tr[k - 1], tr[k], e)
  {
    RunInv(tr, k - 1);
    assert StepAt(tr, k);
    var s, s' := tr[k - 1], tr[k];
    if d :| EndpointStep(s, s', d) {
      if d == e { TryStep(s, s', e); } else { OtherEnds(s, s', d, e); }
    }
  }

  ghost predicate EndpointStepAt(tr: seq<State>, k: int, t: nat)
    requires 0 < k < |tr|
  {
    EndpointStep(tr[k - 1], tr[k], t)
  }

  /** `tr` is a run that extends `from` by steps of endpoint `t` alone and ends in `s`. */
  ghost predicate Solo(from: seq<State>, tr: seq<State>, s: State, t: nat) {
    && Run(from) && from <= tr && Run(tr) && tr[|tr| - 1] == s
    && forall k | |from| <= k < |tr| :: EndpointStepAt(tr, k, t)
  }

  lemma Goes(from: seq<State>, tr: seq<State>, p: State, s: State, t: nat) returns (tr': seq<State>)
    requires Solo(from, tr, p, t) && EndpointStep(p, s, t)
    ensures Solo(from, tr', s, t) && |tr'| == |tr| + 1
  {
    tr' := tr + [s];
    forall k | 0 < k < |tr'| ensures StepAt(tr', k) { if k < |tr| { assert StepAt(tr, k); } }
    forall k | |from| <= k < |tr'| ensures EndpointStepAt(tr', k, t) {
      if k < |tr| { assert EndpointStepAt(tr, k, t); }
    }
  }

  /** The state in which `e` holds the record, all else as it was. */
  function Held(s: State, e: nat): State
    requires Live(s, e)
  {
    var q := s.procs[s.ends[e].proc]; Set(s, e, Holding).(rec := Record(q.pid, q.tok, s.rec.ver + 2, e))
  }

  lemma SoloWin(from: seq<State>, tr: seq<State>, s: State, e: nat) returns (tr': seq<State>)
    requires Live(s, e) && Solo(from, tr, Set(s, e, Cas(s.rec.pid, s.rec.ver)), e)
    ensures Solo(from, tr', Held(s, e), e)
  {
    var q, r := s.procs[s.ends[e].proc], Record(OWNER_CLAIMING, s.rec.tok, s.rec.ver + 1, e);
    var s1, s2 := Set(s, e, Cas(s.rec.pid, s.rec.ver)), Set(s, e, Claiming).(rec := r);
    var s3 := Set(s, e, TokStored).(rec := r.(tok := q.tok));
    assert ClaimWins(s1, s2, e);
    tr' := Goes(from, tr, s1, s2, e);
    assert StoreTok(s2, s3, e);
    tr' := Goes(from, tr', s2, s3, e);
    assert StorePid(s3, Held(s, e), e);
    tr' := Goes(from, tr', s3, Held(s, e), e);
  }

  /** A lone claim succeeds on a record that is free, or whose holder the liveness check may call
      dead. */
  lemma SoloClaim(tr: seq<State>, e: nat) returns (tr': seq<State>)
    requires Run(tr)
    requires var s := tr[|tr| - 1];
             && Live(s, e) && s.ends[e].pc.Idle?
             && (s.rec.pid == 0 || (s.rec.pid > 0 && MayLookDead(s.procs, s.rec.pid, s.rec.tok)))
    ensures Solo(tr, tr', Held(tr[|tr| - 1], e), e)
  {
    var s := tr[|tr| - 1];
    var p, v := s.rec.pid, s.rec.ver;
    var s1 := Set(s, e, if p == 0 then Cas(0, v) else HavePid(p, v));
    assert LoadPid(s, s1, e);
    tr' := Goes(tr, tr, s, s1, e);
    if p != 0 {
      var s2, s3 := Set(s, e, HaveTok(p, v, s.rec.tok)), Set(s, e, Cas(p, v));
      assert LoadTok(s1, s2, e);
      tr' := Goes(tr, tr', s1, s2, e);
      assert FoundDead(s2, s3, e);
      tr' := Goes(tr, tr', s2, s3, e);
    }
    tr' := SoloWin(tr, tr', s, e);
  }

  /** A lone release frees the record. */
  lemma SoloRelease(tr: seq<State>, e: nat) returns (tr': seq<State>)
    requires Run(tr) && Live(tr[|tr| - 1], e) && tr[|tr| - 1].ends[e].pc.Holding?
    ensures var s := tr[|tr| - 1];
            Solo(tr, tr', Set(s, e, Idle).(rec := s.rec.(pid := 0, tok := 0, ver := s.rec.ver + 1)), e)
  {
    var s := tr[|tr| - 1];
    RunInv(tr, |tr| - 1);
    assert EndOk(s, e);
    var s1, s2 := Set(s, e, Releasing), Set(s, e, TokCleared).(rec := s.rec.(tok := 0));
    var s3 := Set(s, e, Idle).(rec := s.rec.(pid := 0, tok := 0, ver := s.rec.ver + 1));
    assert CheckPid(s, s1, e);
    tr' := Goes(tr, tr, s, s1, e);
    assert ClearTok(s1, s2, e);
    tr' := Goes(tr, tr', s1, s2, e);
    assert ClearPid(s2, s3, e);
    tr' := Goes(tr, tr', s2, s3, e);
  }

  /** A lone claim of a record that a live endpoint claims or holds is refused and leaves
      everything as it was. */
  lemma SoloRefused(tr: seq<State>, e: nat, d: nat) returns (tr': seq<State>)
    requires Run(tr) && Live(tr[|tr| - 1], e) && tr[|tr| - 1].ends[e].pc.Idle?
    requires Live(tr[|tr| - 1], d) && Owning(tr[|tr| - 1].ends[d].pc)
    ensures |tr'| > |tr| && Solo(tr, tr', tr[|tr| - 1], e)
  {
    var s := tr[|tr| - 1];
    var p, v := s.rec.pid, s.rec.ver;
    RunInv(tr, |tr| - 1);
    assert EndOk(s, d);
    assert Set(s, e, Idle) == s;
    if p == OWNER_CLAIMING {
      assert LoadPid(s, s, e);
      tr' := Goes(tr, tr, s, s, e);
    } else {
      var s1, s2 := Set(s, e, HavePid(p, v)), Set(s, e, HaveTok(p, v, s.rec.tok));
      assert LoadPid(s, s1, e);
      tr' := Goes(tr, tr, s, s1, e);
      assert LoadTok(s1, s2, e);
      tr' := Goes(tr, tr', s1, s2, e);
      assert Refused(s2, s, e);
      tr' := Goes(tr, tr', s2, s, e);
    }
  }
}
