/** Whose bit a reaper clears: a dead receiver's, each at most once, except exactly when the
    bit has been claimed anew since the record it took, or that record was written under it. */
module ReaperSafety {
  import opened Processes
  import opened Reaper

  // The invariant ---------------------------------------------------------------------------

  predicate Holding(pc: Pc) {
    pc.CTok? || pc.CPid? || pc.Connected?
  }

  predicate Looking(pc: Pc) {
    pc.RTok? || pc.RAsk? || pc.RCas?
  }

  predicate Clearing(pc: Pc) {
    pc.RClearTok? || pc.RClearBit?
  }

  /** The endpoint works on bit `b`. */
  predicate About(pc: Pc, b: Bit) {
    (Holding(pc) || Looking(pc) || Clearing(pc)) && pc.b == b
  }

  /** The record of `b` was written by the claim its holder holds it by. */
  predicate Current(s: State, b: Bit) {
    b in s.holder && s.table[b].turn == s.turns[b]
  }

  ghost predicate BitOk(s: State, b: Bit) {
    && (b in s.cc <==> b in s.holder)
    && s.table[b].turn <= s.turns[b]
    && (b in s.holder ==> HolderOk(s, b))
  }

  ghost predicate HolderOk(s: State, b: Bit)
    requires b in s.holder
  {
    && s.holder[b] in s.ends && s.holder[b] !in s.reaped && s.ends[s.holder[b]].proc in s.procs
    && var h := s.ends[s.holder[b]];
       && Holding(h.pc) && h.pc.b == b && h.pc.n == s.turns[b]
       && (Current(s, b) ==> h.pc.Connected?)
       && (Current(s, b) && s.table[b].pid != 0 ==>
            s.table[b].pid == s.procs[h.proc].pid && TokFits(s, b, s.table[b].tok))
  }

  /** A token that does not make the holder of `b` look dead. */
  predicate TokFits(s: State, b: Bit, tok: nat)
    requires b in s.holder && s.holder[b] in s.ends && s.ends[s.holder[b]].proc in s.procs
  {
    tok == 0 || tok == s.procs[s.ends[s.holder[b]].proc].tok
  }

  ghost predicate EndOk(s: State, e: nat)
    requires e in s.ends
  {
    var x := s.ends[e].pc;
    && s.ends[e].proc in s.procs
    && (Holding(x) && Live(s, e) ==> x.b in s.holder && s.holder[x.b] == e)
    && (x.CPid? && Live(s, e) ==> s.table[x.b].tok == 0 || s.table[x.b].tok == s.procs[s.ends[e].proc].tok)
    && (Looking(x) ==>
          && x.p != 0 && x.v <= s.table[x.b].ver
          && (x.v == s.table[x.b].ver ==> s.table[x.b].pid == x.p && (Current(s, x.b) ==> LookOk(s, x))))
    && (Clearing(x) && x.n == s.turns[x.b] && x.b in s.holder ==> !Live(s, s.holder[x.b]))
    && (Clearing(x) ==> x.n <= s.turns[x.b])
  }

  /** What a reaper has read of an unchanged current record. */
  ghost predicate LookOk(s: State, x: Pc)
    requires Looking(x) && x.b in s.holder
  {
    && s.holder[x.b] in s.ends && s.ends[s.holder[x.b]].proc in s.procs
    && (x.RAsk? ==> TokFits(s, x.b, x.tok))
    && (x.RCas? ==> !Live(s, s.holder[x.b]))
  }

  /** Only dead endpoints have been reaped. */
  ghost predicate ReapedDead(s: State) {
    forall e | e in s.reaped :: e in s.ends && s.ends[e].proc in s.procs && !Live(s, e)
  }

  ghost predicate Inv(s: State) {
    && (forall p | p in s.procs :: s.procs[p].pid > 0)
    && (forall b: Bit :: BitOk(s, b))
    && (forall e | e in s.ends :: EndOk(s, e))
    && ReapedDead(s)
  }

  // The environment -------------------------------------------------------------------------

  lemma SpawnKeeps(s: State, s': State, p: nat, pid: nat, tok: nat)
    requires Inv(s) && Spawn(s, s', p, pid, tok)
    ensures Inv(s')
  {
    forall e | e in s.ends ensures Live(s', e) == Live(s, e) { assert EndOk(s, e); }
    forall b: Bit ensures BitOk(s', b) { assert BitOk(s, b); }
    forall e | e in s'.ends ensures EndOk(s', e) { assert EndOk(s, e); SameLook(s, s', e); }
  }

  /** The holders and their processes are as before; nobody came back to life. */
  lemma SameLook(s: State, s': State, e: nat)
    requires Inv(s) && e in s.ends && e in s'.ends && s'.ends[e] == s.ends[e]
    requires s'.table == s.table && s'.turns == s.turns && s'.holder == s.holder
    requires forall d | d in s.ends :: d in s'.ends && s'.ends[d] == s.ends[d] && (Live(s', d) ==> Live(s, d))
    requires forall p | p in s.procs ::
        p in s'.procs && s'.procs[p].tok == s.procs[p].tok && s'.procs[p].pid == s.procs[p].pid
    ensures EndOk(s', e)
  {
    assert EndOk(s, e);
    var x := s.ends[e].pc;
    if (Looking(x) || Clearing(x)) && x.b in s.holder { assert BitOk(s, x.b); }
  }

  lemma OpenKeeps(s: State, s': State, e: nat, p: nat)
    requires Inv(s) && Open(s, s', e, p)
    ensures Inv(s')
  {
    forall b: Bit ensures BitOk(s', b) { assert BitOk(s, b); }
    forall d | d in s'.ends ensures EndOk(s', d) { if d != e { SameLook(s, s', d); } }
  }

  lemma CrashKeeps(s: State, s': State, p: nat)
    requires Inv(s) && Crash(s, s', p)
    ensures Inv(s')
  {
    forall b: Bit ensures BitOk(s', b) { assert BitOk(s, b); }
    forall d | d in s'.ends ensures EndOk(s', d) { SameLook(s, s', d); }
  }

  // Reading -----------------------------------------------------------------------------------

  /** Only the pc of endpoint `e` moved, and it neither took nor gave up a bit. */
  lemma QuietKeeps(s: State, s': State, e: nat, x: Pc)
    requires Inv(s) && e in s.ends && s' == Set(s, e, x) && !Holding(s.ends[e].pc) && EndOk(s', e)
    ensures Inv(s')
  {
    forall d | d in s.ends ensures Live(s', d) == Live(s, d) {}
    forall b: Bit ensures BitOk(s', b) { assert BitOk(s, b); }
    forall d | d in s'.ends ensures EndOk(s', d) { if d != e { QuietEnd(s, s', e, x, d); } }
  }

  lemma QuietEnd(s: State, s': State, e: nat, x: Pc, d: nat)
    requires Inv(s) && e in s.ends && s' == Set(s, e, x) && d in s.ends && d != e
    ensures EndOk(s', d)
  {
    assert EndOk(s, d);
    var y := s.ends[d].pc;
    if (Looking(y) || Clearing(y)) && y.b in s.holder { assert BitOk(s, y.b); }
  }

  lemma ReadsKeep(s: State, s': State, e: nat)
    requires Inv(s) && ReadStep(s, s', e)
    ensures Inv(s')
  {
    assert EndOk(s, e);
    ReadLook(s, s', e);
    QuietKeeps(s, s', e, s'.ends[e].pc);
  }

  lemma ReadLook(s: State, s': State, e: nat)
    requires Inv(s) && ReadStep(s, s', e)
    ensures EndOk(s', e)
  {
    assert EndOk(s, e);
    var y := s'.ends[e].pc;
    if Looking(y) && y.b in s.holder { assert BitOk(s, y.b); }
  }

  /** The holder of a bit whose own record is read unchanged never looks dead while it lives. */
  lemma LiveHolderLooksAlive(s: State, e: nat)
    requires Inv(s) && e in s.ends && s.ends[e].pc.RAsk?
    requires var x := s.ends[e].pc; x.v == s.table[x.b].ver && Current(s, x.b)
    ensures var x := s.ends[e].pc; Live(s, s.holder[x.b]) ==> !MayLookDead(s.procs, x.p, x.tok)
  {
    assert EndOk(s, e) && BitOk(s, s.ends[e].pc.b);
  }

  lemma FoundDeadKeeps(s: State, s': State, e: nat)
    requires Inv(s) && FoundDead(s, s', e)
    ensures Inv(s')
  {
    var x := s.ends[e].pc;
    assert EndOk(s, e) && BitOk(s, x.b);
    if x.v == s.table[x.b].ver && Current(s, x.b) { LiveHolderLooksAlive(s, e); }
    QuietKeeps(s, s', e, s'.ends[e].pc);
  }

  // Steps on one bit ----------------------------------------------------------------------------

  /** The record, the bit and the holder of `b` changed; everything else is as before. */
  ghost predicate OnlyBit(s: State, s': State, e: nat, b: Bit) {
    && e in s.ends && e in s'.ends && s'.procs == s.procs
    && s'.ends == s.ends[e := s.ends[e].(pc := s'.ends[e].pc)]
    && s'.table == s.table[b := s'.table[b]] && s'.table[b].ver >= s.table[b].ver
    && s'.turns == s.turns[b := s'.turns[b]]
    && s'.cc - {b} == s.cc - {b} && s'.holder - {b} == s.holder - {b}
    && (s'.reaped == s.reaped || (b in s.holder && s'.reaped == s.reaped + {s.holder[b]}))
    && (Holding(s.ends[e].pc) ==> s.ends[e].pc.b == b)
  }

  lemma SameHolder(s: State, s': State, e: nat, b: Bit, c: Bit)
    requires OnlyBit(s, s', e, b) && c != b
    ensures c in s'.cc <==> c in s.cc
    ensures c in s'.holder <==> c in s.holder
    ensures c in s.holder ==> s'.holder[c] == s.holder[c]
  {
    assert c in s'.holder <==> c in s'.holder - {b};
    assert c in s.holder <==> c in s.holder - {b};
    assert c in s.holder ==> (s'.holder - {b})[c] == (s.holder - {b})[c];
    assert c in s'.cc <==> c in s'.cc - {b};
    assert c in s.cc <==> c in s.cc - {b};
  }

  lemma OtherBits(s: State, s': State, e: nat, b: Bit, c: Bit)
    requires Inv(s) && OnlyBit(s, s', e, b) && c != b
    ensures BitOk(s', c)
  {
    assert BitOk(s, c) && BitOk(s, b);
    SameHolder(s, s', e, b, c);
  }

  /** Endpoints that deal with another bit, or none, do not notice. */
  lemma OtherEnds(s: State, s': State, e: nat, b: Bit, d: nat)
    requires Inv(s) && OnlyBit(s, s', e, b) && d in s.ends && d != e && !About(s.ends[d].pc, b)
    ensures EndOk(s', d)
  {
    assert EndOk(s, d);
    var x := s.ends[d].pc;
    assert forall o :: Live(s', o) == Live(s, o);
    if Holding(x) || Looking(x) || Clearing(x) {
      SameHolder(s, s', e, b, x.b);
      assert BitOk(s, x.b);
    }
  }

  /** To keep the invariant, a step on `b` has only `b` and the endpoints about `b` to mind. */
  lemma BitStepKeeps(s: State, s': State, e: nat, b: Bit)
    requires Inv(s) && OnlyBit(s, s', e, b) && BitOk(s', b) && EndOk(s', e) && ReapedDead(s')
    requires forall d | d in s.ends && d != e && About(s.ends[d].pc, b) :: EndOk(s', d)
    ensures Inv(s')
  {
    forall c: Bit ensures BitOk(s', c) { if c != b { OtherBits(s, s', e, b, c); } }
    forall d | d in s'.ends ensures EndOk(s', d) { if d != e && !About(s.ends[d].pc, b) { OtherEnds(s, s', e, b, d); } }
  }

  /** The reaping CAS: if the record it takes is the holder's own, the holder is dead. */
  lemma ReapKeeps(s: State, s': State, e: nat)
    requires Inv(s) && ReapWins(s, s', e)
    ensures Inv(s')
  {
    var b := s.ends[e].pc.b;
    assert EndOk(s, e) && BitOk(s, b);
    forall d | d in s.ends && d != e && About(s.ends[d].pc, b) ensures EndOk(s', d) { assert EndOk(s, d); }
    BitStepKeeps(s, s', e, b);
  }

  lemma TokKeeps(s: State, s': State, e: nat)
    requires Inv(s) && (ClearTok(s, s', e) || DropTok(s, s', e))
    ensures Inv(s')
  {
    var b := s.ends[e].pc.b;
    assert EndOk(s, e) && BitOk(s, b);
    forall d | d in s.ends && d != e && About(s.ends[d].pc, b) ensures EndOk(s', d) { assert EndOk(s, d); }
    BitStepKeeps(s, s', e, b);
  }

  /** A clear that takes the bit of a live receiver. */
  ghost predicate Harmful(s: State, e: nat)
    requires e in s.ends && s.ends[e].pc.RClearBit?
  {
    var x := s.ends[e].pc; x.n != s.turns[x.b] && x.b in s.holder && Live(s, s.holder[x.b])
  }

  /** Exactly when a clear takes the bit of a live receiver: the record its reaper took is
      not of the claim by which the bit is held now. */
  lemma TakesLiveExactly(s: State, s': State, e: nat)
    requires Inv(s) && ClearBit(s, s', e)
    ensures var b := s.ends[e].pc.b; b in s.holder && Live(s, s.holder[b]) <==> Harmful(s, e)
  {
    assert EndOk(s, e);
  }

  lemma ClearBitKeeps(s: State, s': State, e: nat)
    requires Inv(s) && ClearBit(s, s', e) && !Harmful(s, e)
    ensures Inv(s')
  {
    var b := s.ends[e].pc.b;
    assert EndOk(s, e) && BitOk(s, b);
    assert forall d :: Live(s', d) == Live(s, d);
    forall d | d in s.ends && d != e && About(s.ends[d].pc, b) ensures EndOk(s', d) { assert EndOk(s, d); }
    BitStepKeeps(s, s', e, b);
  }

  lemma ClaimKeeps(s: State, s': State, e: nat, b: Bit)
    requires Inv(s) && Claim(s, s', e, b)
    ensures Inv(s')
  {
    assert EndOk(s, e) && BitOk(s, b);
    forall d | d in s.ends && d != e && About(s.ends[d].pc, b) ensures EndOk(s', d) { assert EndOk(s, d); }
    BitStepKeeps(s, s', e, b);
  }

  lemma OwnKeeps(s: State, s': State, e: nat)
    requires Inv(s) && (StoreTok(s, s', e) || StorePid(s, s', e))
    ensures Inv(s')
  {
    var b := s.ends[e].pc.b;
    assert EndOk(s, e) && BitOk(s, b);
    forall d | d in s.ends && d != e && About(s.ends[d].pc, b) ensures EndOk(s', d) { assert EndOk(s, d); }
    BitStepKeeps(s, s', e, b);
  }

  lemma DropKeeps(s: State, s': State, e: nat)
    requires Inv(s) && (DropBit(s, s', e) || DropPid(s, s', e))
    ensures Inv(s')
  {
    var b := s.ends[e].pc.b;
    assert EndOk(s, e) && BitOk(s, b);
    forall d | d in s.ends && d != e && About(s.ends[d].pc, b) ensures EndOk(s', d) { assert EndOk(s, d); }
    BitStepKeeps(s, s', e, b);
  }

  lemma HolderStepKeeps(s: State, s': State, e: nat)
    requires Inv(s) && HolderStep(s, s', e)
    ensures Inv(s')
  {
    if b :| Claim(s, s', e, b) { ClaimKeeps(s, s', e, b); }
    else if StoreTok(s, s', e) || StorePid(s, s', e) { OwnKeeps(s, s', e); }
    else if DropTok(s, s', e) { TokKeeps(s, s', e); }
    else { DropKeeps(s, s', e); }
  }

  ghost predicate HarmfulStep(s: State, s': State) {
    exists e :: ClearBit(s, s', e) && Harmful(s, e)
  }

  lemma StepKeeps(s: State, s': State)
    requires Inv(s) && Step(s, s') && !HarmfulStep(s, s')
    ensures Inv(s')
  {
    if p, pid, tok :| Spawn(s, s', p, pid, tok) { SpawnKeeps(s, s', p, pid, tok); }
    else if e, p :| Open(s, s', e, p) { OpenKeeps(s, s', e, p); }
    else if p :| Crash(s, s', p) { CrashKeeps(s, s', p); }
    else {
      var e :| EndpointStep(s, s', e);
      if ReadStep(s, s', e) { ReadsKeep(s, s', e); }
      else if FoundDead(s, s', e) { FoundDeadKeeps(s, s', e); }
      else if ReapWins(s, s', e) { ReapKeeps(s, s', e); }
      else if ClearTok(s, s', e) { TokKeeps(s, s', e); }
      else if ClearBit(s, s', e) { ClearBitKeeps(s, s', e); }
      else { HolderStepKeeps(s, s', e); }
    }
  }

  // Runs --------------------------------------------------------------------------------------

  ghost predicate HarmfulAt(tr: seq<State>, k: int)
    requires 0 < k < |tr|
  {
    HarmfulStep(tr[k - 1], tr[k])
  }

  /** No harmful clear up to state `k`. */
  ghost predicate SafeUpTo(tr: seq<State>, k: nat)
    requires k < |tr|
  {
    forall j | 0 < j <= k :: !HarmfulAt(tr, j)
  }

  lemma {:induction false} RunInv(tr: seq<State>, k: nat)
    requires Run(tr) && k < |tr| && SafeUpTo(tr, k)
    ensures Inv(tr[k])
  {
    if k > 0 {
      RunInv(tr, k - 1);
      assert StepAt(tr, k) && !HarmfulAt(tr, k);
      StepKeeps(tr[k - 1], tr[k]);
    }
  }

  /** A live receiver that claimed a bit still has it. */
  ghost predicate HasBit(s: State, e: nat)
    requires e in s.ends
  {
    var x := s.ends[e].pc; Holding(x) && Live(s, e) ==> x.b in s.cc && x.b in s.holder && s.holder[x.b] == e
  }

  ghost predicate NobodyRobbed(s: State) {
    forall e | e in s.ends :: HasBit(s, e)
  }

  lemma InvIsSafe(s: State)
    requires Inv(s)
    ensures NobodyRobbed(s)
  {
    forall e | e in s.ends ensures HasBit(s, e) {
      assert EndOk(s, e);
      if Holding(s.ends[e].pc) { assert BitOk(s, s.ends[e].pc.b); }
    }
  }

  lemma HarmRobs(s: State, s': State)
    requires Inv(s) && HarmfulStep(s, s')
    ensures !NobodyRobbed(s')
  {
    var e :| ClearBit(s, s', e) && Harmful(s, e);
    var b := s.ends[e].pc.b;
    assert BitOk(s, b);
    var h := s.holder[b];
    assert h in s'.ends && !HasBit(s', h);
  }

  lemma {:induction false} FirstHarm(tr: seq<State>, k: nat) returns (j: nat)
    requires 0 < k < |tr| && HarmfulAt(tr, k)
    ensures 0 < j <= k && HarmfulAt(tr, j) && SafeUpTo(tr, j - 1)
  {
    j := k;
    if i :| 0 < i < k && HarmfulAt(tr, i) { j := FirstHarm(tr, i); }
  }

  /** The exact condition: every live receiver keeps its bit throughout a run if and only if
      no clear of the run takes a bit claimed anew by a live receiver since the record its
      reaper took. */
  lemma SafeExactly(tr: seq<State>)
    requires Run(tr)
    ensures (forall k | 0 <= k < |tr| :: NobodyRobbed(tr[k])) <==> (forall k | 0 < k < |tr| :: !HarmfulAt(tr, k))
  {
    if forall k | 0 < k < |tr| :: !HarmfulAt(tr, k) {
      forall k | 0 <= k < |tr| ensures NobodyRobbed(tr[k]) {
        RunInv(tr, k);
        InvIsSafe(tr[k]);
      }
    } else {
      var k :| 0 < k < |tr| && HarmfulAt(tr, k);
      var j := FirstHarm(tr, k);
      RunInv(tr, j - 1);
      HarmRobs(tr[j - 1], tr[j]);
      assert !NobodyRobbed(tr[j]);
    }
  }

  /** Up to the first harmful clear, a clear takes the bit from the endpoint that holds it, if
      any, and that endpoint has not been reaped before. */
  lemma ClearTakes(tr: seq<State>, k: nat, e: nat)
    requires Run(tr) && 0 < k < |tr| && SafeUpTo(tr, k - 1) && ClearBit(tr[k - 1], tr[k], e)
    ensures var s, b := tr[k - 1], tr[k - 1].ends[e].pc.b;
            && (b in s.cc <==> b in s.holder)
            && (b in s.cc ==> s.holder[b] !in s.reaped && s.holder[b] in tr[k].reaped)
  {
    RunInv(tr, k - 1);
    assert BitOk(tr[k - 1], tr[k - 1].ends[e].pc.b);
  }

  /** A reaper whose record is of the claim by which the bit is held clears the bit of a dead
      receiver, or one that nobody holds any more. */
  lemma ReapsOnlyTheDead(tr: seq<State>, k: nat, e: nat)
    requires Run(tr) && 0 < k < |tr| && SafeUpTo(tr, k - 1) && ClearBit(tr[k - 1], tr[k], e)
    requires tr[k - 1].ends[e].pc.n == tr[k - 1].turns[tr[k - 1].ends[e].pc.b]
    ensures var s, b := tr[k - 1], tr[k - 1].ends[e].pc.b; b in s.cc ==> b in s.holder && !Live(s, s.holder[b])
  {
    RunInv(tr, k - 1);
    ClearTakes(tr, k, e);
    TakesLiveExactly(tr[k - 1], tr[k], e);
  }

  lemma EndpointFrame(s: State, s': State, e: nat)
    requires EndpointStep(s, s', e)
    ensures s.reaped <= s'.reaped
  {
  }

  lemma {:induction false} ReapedGrows(tr: seq<State>, j: nat, k: nat)
    requires Run(tr) && j <= k < |tr|
    ensures tr[j].reaped <= tr[k].reaped
    decreases k
  {
    if j < k {
      ReapedGrows(tr, j, k - 1);
      assert StepAt(tr, k);
      var s, s' := tr[k - 1], tr[k];
      if e :| EndpointStep(s, s', e) { EndpointFrame(s, s', e); }
    }
  }

  /** And no receiver is reaped twice: two clears that take a bit, by whatever reapers, take it
      from different holders. */
  lemma ReapedAtMostOnce(tr: seq<State>, j: nat, k: nat, d: nat, e: nat)
    requires Run(tr) && 0 < j < k < |tr| && SafeUpTo(tr, k - 1)
    requires ClearBit(tr[j - 1], tr[j], d) && ClearBit(tr[k - 1], tr[k], e)
    requires tr[j - 1].ends[d].pc.b in tr[j - 1].cc && tr[k - 1].ends[e].pc.b in tr[k - 1].cc
    ensures var b, c := tr[j - 1].ends[d].pc.b, tr[k - 1].ends[e].pc.b;
            b in tr[j - 1].holder && c in tr[k - 1].holder && tr[j - 1].holder[b] != tr[k - 1].holder[c]
  {
    assert SafeUpTo(tr, j - 1);
    ClearTakes(tr, j, d);
    ClearTakes(tr, k, e);
    ReapedGrows(tr, j, k - 1);
  }

  // Runs in which no claim of a bit overtakes a disconnect or a reaper ----------------------------

  /** The claim finds no previous record of the bit and no reaper clearing it. */
  ghost predicate CleanClaim(s: State, b: Bit) {
    s.table[b].pid == 0 && forall d | d in s.ends :: !(Clearing(s.ends[d].pc) && s.ends[d].pc.b == b)
  }

  /** No claim overtakes a disconnect or a clear of the same bit, and no record is written
      between a reaper's read and its CAS. */
  ghost predicate Clean(s: State, s': State) {
    && (forall e, b | Claim(s, s', e, b) :: CleanClaim(s, b))
    && (forall e | ReapWins(s, s', e) :: s.table[s.ends[e].pc.b].ver == s.ends[e].pc.v)
  }

  ghost predicate CleanAt(tr: seq<State>, k: int)
    requires 0 < k < |tr|
  {
    Clean(tr[k - 1], tr[k])
  }

  ghost predicate ClearIsCurrent(s: State, e: nat)
    requires e in s.ends
  {
    Clearing(s.ends[e].pc) ==> s.ends[e].pc.n == s.turns[s.ends[e].pc.b]
  }

  /** Records and clears belong to the last claim of their bit. */
  ghost predicate AllCurrent(s: State) {
    && (forall b: Bit | s.table[b].pid != 0 :: s.table[b].turn == s.turns[b])
    && (forall e | e in s.ends :: ClearIsCurrent(s, e))
  }

  lemma CleanKeeps(s: State, s': State)
    requires Inv(s) && AllCurrent(s) && Step(s, s') && Clean(s, s')
    ensures AllCurrent(s') && !HarmfulStep(s, s')
  {
    forall e | ClearBit(s, s', e) ensures !Harmful(s, e) { assert ClearIsCurrent(s, e); }
    if e :| EndpointStep(s, s', e) {
      assert EndOk(s, e) && ClearIsCurrent(s, e);
      if HolderStep(s, s', e) { CleanHolder(s, s', e); } else { CleanReaper(s, s', e); }
    } else {
      forall d | d in s'.ends ensures ClearIsCurrent(s', d) { assert d in s.ends ==> ClearIsCurrent(s, d); }
    }
  }

  lemma CleanHolder(s: State, s': State, e: nat)
    requires Inv(s) && AllCurrent(s) && HolderStep(s, s', e) && Clean(s, s')
    ensures AllCurrent(s')
  {
    assert EndOk(s, e);
    if Holding(s.ends[e].pc) { assert BitOk(s, s.ends[e].pc.b); }
    forall d | d in s'.ends ensures ClearIsCurrent(s', d) { assert ClearIsCurrent(s, d); }
  }

  lemma CleanReaper(s: State, s': State, e: nat)
    requires Inv(s) && AllCurrent(s) && EndpointStep(s, s', e) && !HolderStep(s, s', e) && Clean(s, s')
    ensures AllCurrent(s')
  {
    assert EndOk(s, e);
    forall d | d in s'.ends ensures ClearIsCurrent(s', d) { assert ClearIsCurrent(s, d); }
  }

  lemma CleanKeepsAt(tr: seq<State>, k: nat)
    requires 0 < k < |tr| && StepAt(tr, k) && CleanAt(tr, k) && Inv(tr[k - 1]) && AllCurrent(tr[k - 1])
    ensures AllCurrent(tr[k]) && !HarmfulAt(tr, k)
  {
    CleanKeeps(tr[k - 1], tr[k]);
  }

  lemma StartsCurrent(s: State)
    requires Init(s)
    ensures AllCurrent(s)
  {
  }

  /** In such a run no live receiver ever loses its bit. */
  lemma {:induction false} CleanIsSafe(tr: seq<State>, k: nat)
    requires Run(tr) && k < |tr| && forall j | 0 < j < |tr| :: CleanAt(tr, j)
    ensures SafeUpTo(tr, k) && AllCurrent(tr[k])
  {
    if k == 0 {
      StartsCurrent(tr[0]);
    } else {
      CleanIsSafe(tr, k - 1);
      RunInv(tr, k - 1);
      assert StepAt(tr, k) && CleanAt(tr, k);
      CleanKeepsAt(tr, k);
    }
  }

  /** In a clean run a reaper clears only bits of dead receivers. */
  lemma CleanReapsTheDead(tr: seq<State>, k: nat, e: nat)
    requires Run(tr) && (forall j | 0 < j < |tr| :: CleanAt(tr, j))
    requires 0 < k < |tr| && ClearBit(tr[k - 1], tr[k], e)
    ensures var s, b := tr[k - 1], tr[k - 1].ends[e].pc.b; b in s.cc ==> b in s.holder && !Live(s, s.holder[b])
  {
    CleanIsSafe(tr, k - 1);
    assert ClearIsCurrent(tr[k - 1], e);
    ReapsOnlyTheDead(tr, k, e);
  }

  /** And each at most once. */
  lemma CleanReapsOnce(tr: seq<State>, j: nat, k: nat, d: nat, e: nat)
    requires Run(tr) && (forall i | 0 < i < |tr| :: CleanAt(tr, i)) && 0 < j < k < |tr|
    requires ClearBit(tr[j - 1], tr[j], d) && ClearBit(tr[k - 1], tr[k], e)
    requires tr[j - 1].ends[d].pc.b in tr[j - 1].cc && tr[k - 1].ends[e].pc.b in tr[k - 1].cc
    ensures var b, c := tr[j - 1].ends[d].pc.b, tr[k - 1].ends[e].pc.b;
            b in tr[j - 1].holder && c in tr[k - 1].holder && tr[j - 1].holder[b] != tr[k - 1].holder[c]
  {
    CleanIsSafe(tr, k - 1);
    ReapedAtMostOnce(tr, j, k, d, e);
  }
}
