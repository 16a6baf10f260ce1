/** Two runs, with no crash and no pid reuse, in which a reaper takes the bit of a live
    receiver. In the first, a disconnect has cleared its bit and not yet its owner record, so
    the next owner of the bit stores its token under the leaver's pid, and a reaper that reads
    the two together finds the leaver dead. In the second every disconnect is complete before
    the bit is claimed again: a reaper pairs the pid of one receiver with the token of the
    next, and its CAS finds the first receiver's pid because that receiver has come back. */
module DisconnectGap {
  import opened Processes
  import opened Reaper
  import opened ReaperSafety

  ghost predicate Reaches(tr: seq<State>, s: State) {
    Run(tr) && tr[|tr| - 1] == s
  }

  lemma Extend(tr: seq<State>, p: State, s: State) returns (tr': seq<State>)
    requires Reaches(tr, p) && Step(p, s)
    ensures Reaches(tr', s)
  {
    tr' := tr + [s];
    forall k | 0 < k < |tr'| ensures StepAt(tr', k) { if k < |tr| { assert StepAt(tr, k); } }
  }

  lemma Go(tr: seq<State>, p: State, s: State, e: nat) returns (tr': seq<State>)
    requires Reaches(tr, p) && EndpointStep(p, s, e)
    ensures Reaches(tr', s)
  {
    tr' := Extend(tr, p, s);
  }

  /** Nobody dies, and a bit is claimed only when its last owner's record is gone and no
      reaper is clearing it. */
  ghost predicate Tame(s: State, s': State) {
    && (forall p | Running(s.procs, p) :: Running(s'.procs, p))
    && (forall e, b | Claim(s, s', e, b) :: CleanClaim(s, b))
  }

  ghost predicate TameAt(tr: seq<State>, k: int)
    requires 0 < k < |tr|
  {
    Tame(tr[k - 1], tr[k])
  }

  /** A run of tame steps only. */
  ghost predicate Tamely(tr: seq<State>, s: State) {
    Reaches(tr, s) && forall k | 0 < k < |tr| :: TameAt(tr, k)
  }

  lemma TameExtend(tr: seq<State>, p: State, s: State) returns (tr': seq<State>)
    requires Tamely(tr, p) && Step(p, s) && Tame(p, s)
    ensures Tamely(tr', s)
  {
    tr' := tr + [s];
    forall k | 0 < k < |tr'| ensures StepAt(tr', k) { if k < |tr| { assert StepAt(tr, k); } }
    forall k | 0 < k < |tr'| ensures TameAt(tr', k) { if k < |tr| { assert TameAt(tr, k); } }
  }

  lemma ClaimCounts(s: State, s': State, e: nat, b: Bit)
    requires Claim(s, s', e, b)
    ensures s'.turns[b] == s.turns[b] + 1
  {
  }

  lemma NoClaim(s: State, s': State)
    requires s'.turns == s.turns
    ensures forall e: nat, b: Bit :: !Claim(s, s', e, b)
  {
    assert forall e: nat, b: Bit :: Claim(s, s', e, b) ==> s'.turns[b] == s.turns[b] + 1;
  }

  /** A step of an endpoint that claims no bit. */
  lemma TameGo(tr: seq<State>, p: State, s: State, e: nat) returns (tr': seq<State>)
    requires Tamely(tr, p) && EndpointStep(p, s, e) && s.procs == p.procs && s.turns == p.turns
    ensures Tamely(tr', s)
  {
    NoClaim(p, s);
    tr' := TameExtend(tr, p, s);
  }

  lemma TameClaim(tr: seq<State>, p: State, s: State, e: nat, b: Bit) returns (tr': seq<State>)
    requires Tamely(tr, p) && Claim(p, s, e, b) && CleanClaim(p, b)
    ensures Tamely(tr', s)
  {
    forall d: nat, c: Bit | Claim(p, s, d, c) ensures CleanClaim(p, c) { ClaimCounts(p, s, d, c); }
    assert EndpointStep(p, s, e);
    tr' := TameExtend(tr, p, s);
  }

  /** A step of the environment that starts a process or opens an endpoint. */
  lemma TameStart(tr: seq<State>, p: State, s: State) returns (tr': seq<State>)
    requires Tamely(tr, p) && EnvironmentStep(p, s) && s.turns == p.turns
    requires forall q | q in p.procs :: q in s.procs && s.procs[q] == p.procs[q]
    ensures Tamely(tr', s)
  {
    NoClaim(p, s);
    tr' := TameExtend(tr, p, s);
  }

  function Blank(): Table {
    seq(32, _ => SlotOwner(0, 0, 0, 0))
  }

  function Zeros(): Turns {
    seq(32, _ => 0)
  }

  function Three(): Procs {
    map[1 := Process(11, 101, true), 2 := Process(12, 102, true), 3 := Process(13, 103, true)]
  }

  /** Three processes with one endpoint each: the holder of bit 0 if any, its record and
      number of claims, and the pcs as given. */
  function At(held: map<Bit, nat>, o: SlotOwner, n: nat, a: Pc, b: Pc, c: Pc): State {
    State(held.Keys, Blank()[0 := o], Three(), map[1 := Endpoint(1, a), 2 := Endpoint(2, b), 3 := Endpoint(3, c)],
          Zeros()[0 := n], held, {})
  }

  lemma Opened() returns (tr: seq<State>)
    ensures Tamely(tr, At(map[], SlotOwner(0, 0, 0, 0), 0, Out, Out, Out))
  {
    var p1 := map[1 := Process(11, 101, true)];
    var p2 := p1[2 := Process(12, 102, true)];
    var s0 := State({}, Blank(), map[], map[], Zeros(), map[], {});
    var s1, s2, s3 := s0.(procs := p1), s0.(procs := p2), s0.(procs := Three());
    tr := [s0];
    assert Spawn(s0, s1, 1, 11, 101);
    tr := TameStart(tr, s0, s1);
    assert Spawn(s1, s2, 2, 12, 102);
    tr := TameStart(tr, s1, s2);
    assert Spawn(s2, s3, 3, 13, 103);
    tr := TameStart(tr, s2, s3);
    tr := AllOpen(tr, s3);
  }

  lemma AllOpen(tr: seq<State>, s: State) returns (tr': seq<State>)
    requires s == State({}, Blank(), Three(), map[], Zeros(), map[], {}) && Tamely(tr, s)
    ensures Tamely(tr', At(map[], SlotOwner(0, 0, 0, 0), 0, Out, Out, Out))
  {
    var e1 := map[1 := Endpoint(1, Out)];
    var e2 := e1[2 := Endpoint(2, Out)];
    var s1, s2, s3 := s.(ends := e1), s.(ends := e2), At(map[], SlotOwner(0, 0, 0, 0), 0, Out, Out, Out);
    assert Open(s, s1, 1, 1);
    tr' := TameStart(tr, s, s1);
    assert Open(s1, s2, 2, 2);
    tr' := TameStart(tr', s1, s2);
    assert Blank()[0 := SlotOwner(0, 0, 0, 0)] == Blank() && Zeros()[0 := 0] == Zeros();
    assert Open(s2, s3, 3, 3);
    tr' := TameStart(tr', s2, s3);
  }

  /** Endpoint 1 connects, after `n` claims of the bit and `v` writes of its pid. */
  lemma FirstConnects(tr: seq<State>, v: nat, t: int, n: nat, c: Pc) returns (tr': seq<State>)
    requires Tamely(tr, At(map[], SlotOwner(0, 0, v, t), n, Out, Out, c)) && !Clearing(c)
    ensures Tamely(tr', At(map[0 := 1], SlotOwner(11, 101, v + 1, n + 1), n + 1, Connected(0, n + 1), Out, c))
  {
    var o := SlotOwner(0, 0, v, t);
    var s0, s1 := At(map[], o, n, Out, Out, c), At(map[], o, n, Reap({}), Out, c);
    assert s0.cc == {};
    assert LoadCc(s0, s1, 1);
    tr' := TameGo(tr, s0, s1, 1);
    tr' := FirstTakesBit(tr', o, n, c);
    tr' := FirstRecords(tr', v, t, n + 1, c);
  }

  lemma FirstTakesBit(tr: seq<State>, o: SlotOwner, n: nat, c: Pc) returns (tr': seq<State>)
    requires Tamely(tr, At(map[], o, n, Reap({}), Out, c)) && !Clearing(c) && o.pid == 0
    ensures Tamely(tr', At(map[0 := 1], o, n + 1, CTok(0, n + 1), Out, c))
  {
    var s1, s2 := At(map[], o, n, Reap({}), Out, c), At(map[0 := 1], o, n + 1, CTok(0, n + 1), Out, c);
    assert s2.turns == s1.turns[0 := n + 1] && s2.cc == s1.cc + {0};
    assert Claim(s1, s2, 1, 0);
    tr' := TameClaim(tr, s1, s2, 1, 0);
  }

  lemma FirstRecords(tr: seq<State>, v: nat, t: int, n: nat, c: Pc) returns (tr': seq<State>)
    requires Tamely(tr, At(map[0 := 1], SlotOwner(0, 0, v, t), n, CTok(0, n), Out, c))
    ensures Tamely(tr', At(map[0 := 1], SlotOwner(11, 101, v + 1, n), n, Connected(0, n), Out, c))
  {
    var s2 := At(map[0 := 1], SlotOwner(0, 0, v, t), n, CTok(0, n), Out, c);
    var s3 := At(map[0 := 1], SlotOwner(0, 101, v, t), n, CPid(0, n), Out, c);
    assert s3 == SetOwner(Set(s2, 1, CPid(0, n)), 0, s2.table[0].(tok := 101));
    assert StoreTok(s2, s3, 1);
    tr' := TameGo(tr, s2, s3, 1);
    tr' := FirstSigns(tr', v, t, n, c);
  }

  lemma FirstSigns(tr: seq<State>, v: nat, t: int, n: nat, c: Pc) returns (tr': seq<State>)
    requires Tamely(tr, At(map[0 := 1], SlotOwner(0, 101, v, t), n, CPid(0, n), Out, c))
    ensures Tamely(tr', At(map[0 := 1], SlotOwner(11, 101, v + 1, n), n, Connected(0, n), Out, c))
  {
    var s3 := At(map[0 := 1], SlotOwner(0, 101, v, t), n, CPid(0, n), Out, c);
    var s4 := At(map[0 := 1], SlotOwner(11, 101, v + 1, n), n, Connected(0, n), Out, c);
    assert StorePid(s3, s4, 1);
    tr' := TameGo(tr, s3, s4, 1);
  }

  /** It gives up its bit, not its record yet, and endpoint 2 claims the bit. */
  lemma Overtaken(tr: seq<State>) returns (tr': seq<State>)
    requires Reaches(tr, At(map[0 := 1], SlotOwner(11, 101, 1, 1), 1, Connected(0, 1), Out, Out))
    ensures Reaches(tr', At(map[0 := 2], SlotOwner(11, 101, 1, 1), 2, LPid(0), CTok(0, 2), Out))
  {
    var o := SlotOwner(11, 101, 1, 1);
    var s4, s5 := At(map[0 := 1], o, 1, Connected(0, 1), Out, Out), At(map[], o, 1, LPid(0), Out, Out);
    var s6, s7 := At(map[], o, 1, LPid(0), Reap({}), Out), At(map[0 := 2], o, 2, LPid(0), CTok(0, 2), Out);
    assert s5.cc == {};
    assert DropBit(s4, s5, 1);
    tr' := Go(tr, s4, s5, 1);
    assert LoadCc(s5, s6, 2);
    tr' := Go(tr', s5, s6, 2);
    assert s7.turns == s6.turns[0 := 2] && s7.cc == s6.cc + {0};
    assert Claim(s6, s7, 2, 0);
    tr' := Go(tr', s6, s7, 2);
  }

  /** Endpoint 2 stores its token, under the leaver's pid. */
  lemma TokensMix(tr: seq<State>) returns (tr': seq<State>)
    requires Reaches(tr, At(map[0 := 2], SlotOwner(11, 101, 1, 1), 2, LPid(0), CTok(0, 2), Out))
    ensures Reaches(tr', At(map[0 := 2], SlotOwner(11, 102, 1, 1), 2, LPid(0), CPid(0, 2), Out))
  {
    var o := SlotOwner(11, 101, 1, 1);
    var s7 := At(map[0 := 2], o, 2, LPid(0), CTok(0, 2), Out);
    var s8 := At(map[0 := 2], o.(tok := 102), 2, LPid(0), CPid(0, 2), Out);
    assert s8 == SetOwner(Set(s7, 2, CPid(0, 2)), 0, s7.table[0].(tok := 102));
    assert StoreTok(s7, s8, 2);
    tr' := Go(tr, s7, s8, 2);
  }

  /** Endpoint 3 reads the leaver's pid with the newcomer's token, and finds it dead. */
  lemma ReadsTogether(tr: seq<State>) returns (tr': seq<State>)
    requires Reaches(tr, At(map[0 := 2], SlotOwner(11, 102, 1, 1), 2, LPid(0), CPid(0, 2), Out))
    ensures Reaches(tr', At(map[0 := 2], SlotOwner(11, 102, 1, 1), 2, LPid(0), CPid(0, 2), RCas({}, 0, 11, 1)))
  {
    var h, o := map[0 := 2], SlotOwner(11, 102, 1, 1);
    var s8, s9 := At(h, o, 2, LPid(0), CPid(0, 2), Out), At(h, o, 2, LPid(0), CPid(0, 2), Reap({0}));
    var s10 := At(h, o, 2, LPid(0), CPid(0, 2), RTok({}, 0, 11, 1));
    var s11 := At(h, o, 2, LPid(0), CPid(0, 2), RAsk({}, 0, 11, 1, 102));
    var s12 := At(h, o, 2, LPid(0), CPid(0, 2), RCas({}, 0, 11, 1));
    assert s8.cc == {0};
    assert LoadCc(s8, s9, 3);
    tr' := Go(tr, s8, s9, 3);
    var none: set<Bit> := {};
    assert s9.ends[3].pc.todo - {0} == none;
    assert LoadPid(s9, s10, 3, 0);
    tr' := Go(tr', s9, s10, 3);
    assert LoadTok(s10, s11, 3);
    tr' := Go(tr', s10, s11, 3);
    assert FoundDead(s11, s12, 3);
    tr' := Go(tr', s11, s12, 3);
  }

  lemma TakesRecord(tr: seq<State>) returns (tr': seq<State>)
    requires Reaches(tr, At(map[0 := 2], SlotOwner(11, 102, 1, 1), 2, LPid(0), CPid(0, 2), RCas({}, 0, 11, 1)))
    ensures Reaches(tr', At(map[0 := 2], SlotOwner(0, 0, 2, 1), 2, LPid(0), CPid(0, 2), RClearBit({}, 0, 1)))
  {
    var h, o := map[0 := 2], SlotOwner(11, 102, 1, 1);
    var s12 := At(h, o, 2, LPid(0), CPid(0, 2), RCas({}, 0, 11, 1));
    var s13 := At(h, SlotOwner(0, 102, 2, 1), 2, LPid(0), CPid(0, 2), RClearTok({}, 0, 1));
    var s14 := At(h, SlotOwner(0, 0, 2, 1), 2, LPid(0), CPid(0, 2), RClearBit({}, 0, 1));
    assert ReapWins(s12, s13, 3);
    tr' := Go(tr, s12, s13, 3);
    assert ClearTok(s13, s14, 3);
    tr' := Go(tr', s13, s14, 3);
  }

  /** The reaper then clears the bit of endpoint 2, which is alive and connecting. */
  lemma LiveReceiverReaped() returns (tr: seq<State>, s: State, s': State)
    ensures Reaches(tr, s) && ClearBit(s, s', 3) && Harmful(s, 3)
    ensures 2 in s'.ends && Live(s', 2) && Holding(s'.ends[2].pc) && s'.ends[2].pc.b !in s'.cc
  {
    tr := Opened();
    tr := FirstConnects(tr, 0, 0, 0, Out);
    tr := Overtaken(tr);
    tr := TokensMix(tr);
    tr := ReadsTogether(tr);
    tr := TakesRecord(tr);
    s := At(map[0 := 2], SlotOwner(0, 0, 2, 1), 2, LPid(0), CPid(0, 2), RClearBit({}, 0, 1));
    s' := Set(s, 3, Reap({})).(cc := {}, holder := map[], reaped := {2});
    assert s.cc - {0} == {} && s.holder - {0} == map[];
  }

  // A pid that comes back -----------------------------------------------------------------------

  /** Endpoint 3 reads the pid of endpoint 1. */
  lemma ReadsPid(tr: seq<State>) returns (tr': seq<State>)
    requires Tamely(tr, At(map[0 := 1], SlotOwner(11, 101, 1, 1), 1, Connected(0, 1), Out, Out))
    ensures Tamely(tr', At(map[0 := 1], SlotOwner(11, 101, 1, 1), 1, Connected(0, 1), Out, RTok({}, 0, 11, 1)))
  {
    var h, o, a := map[0 := 1], SlotOwner(11, 101, 1, 1), Connected(0, 1);
    var s0, s1, s2 := At(h, o, 1, a, Out, Out), At(h, o, 1, a, Out, Reap({0})), At(h, o, 1, a, Out, RTok({}, 0, 11, 1));
    assert s0.cc == {0};
    assert LoadCc(s0, s1, 3);
    tr' := TameGo(tr, s0, s1, 3);
    var none: set<Bit> := {};
    assert s1.ends[3].pc.todo - {0} == none;
    assert LoadPid(s1, s2, 3, 0);
    tr' := TameGo(tr', s1, s2, 3);
  }

  /** Endpoint 1 disconnects. */
  lemma FirstLeaves(tr: seq<State>) returns (tr': seq<State>)
    requires Tamely(tr, At(map[0 := 1], SlotOwner(11, 101, 1, 1), 1, Connected(0, 1), Out, RTok({}, 0, 11, 1)))
    ensures Tamely(tr', At(map[], SlotOwner(0, 0, 2, 1), 1, Out, Out, RTok({}, 0, 11, 1)))
  {
    var o, c := SlotOwner(11, 101, 1, 1), RTok({}, 0, 11, 1);
    var s0, s1 := At(map[0 := 1], o, 1, Connected(0, 1), Out, c), At(map[], o, 1, LPid(0), Out, c);
    var s2 := At(map[], SlotOwner(0, 101, 2, 1), 1, LTok(0), Out, c);
    var s3 := At(map[], SlotOwner(0, 0, 2, 1), 1, Out, Out, c);
    assert s1.cc == {};
    assert DropBit(s0, s1, 1);
    tr' := TameGo(tr, s0, s1, 1);
    assert DropPid(s1, s2, 1);
    tr' := TameGo(tr', s1, s2, 1);
    assert DropTok(s2, s3, 1);
    tr' := TameGo(tr', s2, s3, 1);
  }

  /** Endpoint 2 claims the bit. */
  lemma SecondClaims(tr: seq<State>) returns (tr': seq<State>)
    requires Tamely(tr, At(map[], SlotOwner(0, 0, 2, 1), 1, Out, Out, RTok({}, 0, 11, 1)))
    ensures Tamely(tr', At(map[0 := 2], SlotOwner(0, 0, 2, 1), 2, Out, CTok(0, 2), RTok({}, 0, 11, 1)))
  {
    var o, c := SlotOwner(0, 0, 2, 1), RTok({}, 0, 11, 1);
    var s0, s1 := At(map[], o, 1, Out, Out, c), At(map[], o, 1, Out, Reap({}), c);
    var s2 := At(map[0 := 2], o, 2, Out, CTok(0, 2), c);
    assert s0.cc == {};
    assert LoadCc(s0, s1, 2);
    tr' := TameGo(tr, s0, s1, 2);
    assert s2.turns == s1.turns[0 := 2];
    assert Claim(s1, s2, 2, 0);
    tr' := TameClaim(tr', s1, s2, 2, 0);
  }

  /** It stores its token; endpoint 3 reads the token and finds pid 11 dead with it. */
  lemma PairsTokens(tr: seq<State>) returns (tr': seq<State>)
    requires Tamely(tr, At(map[0 := 2], SlotOwner(0, 0, 2, 1), 2, Out, CTok(0, 2), RTok({}, 0, 11, 1)))
    ensures Tamely(tr', At(map[0 := 2], SlotOwner(0, 102, 2, 1), 2, Out, CPid(0, 2), RCas({}, 0, 11, 1)))
  {
    var h, o := map[0 := 2], SlotOwner(0, 102, 2, 1);
    var s0 := At(h, SlotOwner(0, 0, 2, 1), 2, Out, CTok(0, 2), RTok({}, 0, 11, 1));
    var s1 := At(h, o, 2, Out, CPid(0, 2), RTok({}, 0, 11, 1));
    var s2 := At(h, o, 2, Out, CPid(0, 2), RAsk({}, 0, 11, 1, 102));
    var s3 := At(h, o, 2, Out, CPid(0, 2), RCas({}, 0, 11, 1));
    assert s1 == SetOwner(Set(s0, 2, CPid(0, 2)), 0, s0.table[0].(tok := 102));
    assert StoreTok(s0, s1, 2);
    tr' := TameGo(tr, s0, s1, 2);
    assert LoadTok(s1, s2, 3);
    tr' := TameGo(tr', s1, s2, 3);
    assert FoundDead(s2, s3, 3);
    tr' := TameGo(tr', s2, s3, 3);
  }

  /** Endpoint 2 finishes connecting and disconnects. */
  lemma SecondLeaves(tr: seq<State>) returns (tr': seq<State>)
    requires Tamely(tr, At(map[0 := 2], SlotOwner(0, 102, 2, 1), 2, Out, CPid(0, 2), RCas({}, 0, 11, 1)))
    ensures Tamely(tr', At(map[], SlotOwner(0, 0, 4, 2), 2, Out, Out, RCas({}, 0, 11, 1)))
  {
    var h, c := map[0 := 2], RCas({}, 0, 11, 1);
    var s0 := At(h, SlotOwner(0, 102, 2, 1), 2, Out, CPid(0, 2), c);
    var s1 := At(h, SlotOwner(12, 102, 3, 2), 2, Out, Connected(0, 2), c);
    var s2 := At(map[], SlotOwner(12, 102, 3, 2), 2, Out, LPid(0), c);
    assert StorePid(s0, s1, 2);
    tr' := TameGo(tr, s0, s1, 2);
    assert s2.cc == {};
    assert DropBit(s1, s2, 2);
    tr' := TameGo(tr', s1, s2, 2);
    tr' := SecondErases(tr');
  }

  lemma SecondErases(tr: seq<State>) returns (tr': seq<State>)
    requires Tamely(tr, At(map[], SlotOwner(12, 102, 3, 2), 2, Out, LPid(0), RCas({}, 0, 11, 1)))
    ensures Tamely(tr', At(map[], SlotOwner(0, 0, 4, 2), 2, Out, Out, RCas({}, 0, 11, 1)))
  {
    var c := RCas({}, 0, 11, 1);
    var s2 := At(map[], SlotOwner(12, 102, 3, 2), 2, Out, LPid(0), c);
    var s3 := At(map[], SlotOwner(0, 102, 4, 2), 2, Out, LTok(0), c);
    var s4 := At(map[], SlotOwner(0, 0, 4, 2), 2, Out, Out, c);
    assert DropPid(s2, s3, 2);
    tr' := TameGo(tr, s2, s3, 2);
    assert DropTok(s3, s4, 2);
    tr' := TameGo(tr', s3, s4, 2);
  }

  /** Endpoint 1 has connected again: the CAS of endpoint 3 finds its pid. */
  lemma TakesReturned(tr: seq<State>) returns (tr': seq<State>)
    requires Tamely(tr, At(map[0 := 1], SlotOwner(11, 101, 5, 3), 3, Connected(0, 3), Out, RCas({}, 0, 11, 1)))
    ensures Tamely(tr', At(map[0 := 1], SlotOwner(0, 0, 6, 3), 3, Connected(0, 3), Out, RClearBit({}, 0, -1)))
  {
    var h, a := map[0 := 1], Connected(0, 3);
    var s0 := At(h, SlotOwner(11, 101, 5, 3), 3, a, Out, RCas({}, 0, 11, 1));
    var s1 := At(h, SlotOwner(0, 101, 6, 3), 3, a, Out, RClearTok({}, 0, -1));
    var s2 := At(h, SlotOwner(0, 0, 6, 3), 3, a, Out, RClearBit({}, 0, -1));
    assert ReapWins(s0, s1, 3);
    tr' := TameGo(tr, s0, s1, 3);
    assert ClearTok(s1, s2, 3);
    tr' := TameGo(tr', s1, s2, 3);
  }

  /** So it clears the bit of endpoint 1, which is alive and fully connected, though nobody
      died and no claim overtook a disconnect or a clear. */
  lemma ReturnedReceiverReaped() returns (tr: seq<State>, s: State, s': State)
    ensures Tamely(tr, s) && ClearBit(s, s', 3) && Harmful(s, 3)
    ensures 1 in s'.ends && Live(s', 1) && s'.ends[1].pc.Connected? && s'.ends[1].pc.b !in s'.cc
  {
    tr := Opened();
    tr := FirstConnects(tr, 0, 0, 0, Out);
    tr := ReadsPid(tr);
    tr := FirstLeaves(tr);
    tr := SecondClaims(tr);
    tr := PairsTokens(tr);
    tr := SecondLeaves(tr);
    tr := FirstConnects(tr, 4, 2, 2, RCas({}, 0, 11, 1));
    tr := TakesReturned(tr);
    s := At(map[0 := 1], SlotOwner(0, 0, 6, 3), 3, Connected(0, 3), Out, RClearBit({}, 0, -1));
    s' := Set(s, 3, Reap({})).(cc := {}, holder := map[], reaped := {1});
    assert s.cc - {0} == {} && s.holder - {0} == map[];
  }
}
