/** A commit, a connect, a read and a claim on the handed-over slot each get done when they run
    alone, from whatever point of the call they were stopped at and whatever the others have
    left half done. */
module HandoverProgress {
  import opened RingWords
  import opened HandoverSlot
  import opened HandoverProof

  datatype Actor = Committer(p: nat) | Connecter(b: Bit) | Reads(b: Bit) | Claims(t: nat)

  ghost predicate StepBy(k: Setup, s: State, s': State, a: Actor) {
    match a
    case Committer(p) => WriterStep(k, s, s', p)
    case Connecter(b) => JoinerStep(k, s, s', b)
    case Reads(b) => ReaderStep(k, s, s', b)
    case Claims(t) => ClaimStep(k, s, s', t)
  }

  ghost predicate StepByAt(k: Setup, tr: seq<State>, j: int, a: Actor)
    requires 0 < j < |tr|
  {
    StepBy(k, tr[j - 1], tr[j], a)
  }

  /** `tr` is a run that extends `from` by steps of `a` alone and ends in `s`. */
  ghost predicate Solo(k: Setup, from: seq<State>, tr: seq<State>, s: State, a: Actor) {
    && Run(k, from) && from <= tr && Run(k, tr) && tr[|tr| - 1] == s
    && forall j | |from| <= j < |tr| :: StepByAt(k, tr, j, a)
  }

  lemma Goes(k: Setup, from: seq<State>, tr: seq<State>, p: State, s: State, a: Actor) returns (tr': seq<State>)
    requires Solo(k, from, tr, p, a) && StepBy(k, p, s, a)
    ensures Solo(k, from, tr', s, a)
  {
    tr' := tr + [s];
    forall j | 0 < j < |tr'| ensures StepAt(k, tr', j) { if j < |tr| { assert StepAt(k, tr, j); } }
    forall j | |from| <= j < |tr'| ensures StepByAt(k, tr', j, a) { if j < |tr| { assert StepByAt(k, tr, j, a); } }
  }

  // release_mark --------------------------------------------------------------------------------

  /** How far a call of `release_mark` that runs alone still is from its return. */
  function Rank(t: Slot, d: Drop): nat {
    match d
    case DDone => 0
    case DFree => 1
    case DCas(rc) => if rc == Now(t) then 2 else 4
    case DFlag(rc) => if rc == Now(t) then 3 else 5
    case DRc => 4
  }

  /** It always has a step that takes it closer, whatever it has loaded. */
  lemma DropProgress(t: Slot, p: nat, b: Bit, d: Drop) returns (t': Slot, d': Drop)
    requires p < U32 && d != DDone
    ensures DropStep(t, t', p, b, d, d') && Rank(t', d') < Rank(t, d)
  {
    t' := t;
    match d
    case DRc => d' := DFlag(Now(t));
    case DFlag(rc) => d' := if b in rc.marks && t.flag == Committed(p) then DCas(rc) else DDone;
    case DCas(rc) =>
      if rc == Now(t) {
        t' := t.(gen := t.gen + 1, marks := t.marks - {b});
        d' := if t'.marks == {} then DFree else DDone;
      } else {
        d' := DFlag(Now(t));
      }
    case DFree =>
      t' := if t.flag == Committed(p) then t.(flag := Released(p)) else t;
      d' := DDone;
  }

  // The committing writer -----------------------------------------------------------------------

  lemma {:induction false} SoloDrop(k: Setup, from: seq<State>, tr: seq<State>, s: State, p: nat)
      returns (tr': seq<State>, s': State)
    requires Solo(k, from, tr, s, Committer(p)) && p in s.writers && s.writers[p].WDrop? && !s.writers[p].d.DDone?
    requires k.Pos(p) < U32
    ensures Solo(k, from, tr', s', Committer(p)) && p in s'.writers && s'.writers[p] == WNext(s.writers[p].rest)
    decreases Rank(s.slot, s.writers[p].d)
  {
    var x := s.writers[p];
    var t, d := DropProgress(s.slot, k.Pos(p), x.b, x.d);
    s' := s.(slot := t, writers := s.writers[p := Dropping(x, d)]);
    assert WriterDrops(k, s, s', p, d);
    tr' := Goes(k, from, tr, s, s', Committer(p));
    if d != DDone { tr', s' := SoloDrop(k, from, tr', s', p); }
  }

  lemma {:induction false} SoloDrops(k: Setup, from: seq<State>, tr: seq<State>, s: State, p: nat)
      returns (tr': seq<State>, s': State)
    requires Solo(k, from, tr, s, Committer(p)) && p in s.writers && s.writers[p].WNext? && k.Pos(p) < U32
    ensures Solo(k, from, tr', s', Committer(p)) && p in s'.writers && s'.writers[p] == WNext({})
    decreases s.writers[p].rest
  {
    tr', s' := tr, s;
    if s.writers[p].rest != {} {
      var b :| b in s.writers[p].rest;
      s' := s.(writers := s.writers[p := Taking(s.writers[p], b)]);
      assert NextMark(s, s', p, b);
      tr' := Goes(k, from, tr, s, s', Committer(p));
      tr', s' := SoloDrop(k, from, tr', s', p);
      tr', s' := SoloDrops(k, from, tr', s', p);
    }
  }

  lemma {:induction false} SoloScan(k: Setup, from: seq<State>, tr: seq<State>, s: State, p: nat)
      returns (tr': seq<State>, s': State)
    requires Solo(k, from, tr, s, Committer(p)) && p in s.writers && s.writers[p].WScan?
    requires s.writers[p].todo <= s.since.Keys
    ensures Solo(k, from, tr', s', Committer(p)) && p in s'.writers && s'.writers[p].WNext?
    decreases s.writers[p].todo
  {
    var x := s.writers[p];
    if x.todo == {} {
      s' := s.(writers := s.writers[p := WNext(x.stale)]);
      assert EndScan(s, s', p);
      tr' := Goes(k, from, tr, s, s', Committer(p));
    } else {
      var b :| b in x.todo;
      s' := s.(writers := s.writers[p := LookedUp(x, k.Pos(p), s.since[b], b)]);
      assert LookUp(k, s, s', p, b);
      tr' := Goes(k, from, tr, s, s', Committer(p));
      tr', s' := SoloScan(k, from, tr', s', p);
    }
  }

  /** From the claim to the loaded marks. */
  lemma SoloPublish(k: Setup, from: seq<State>, s: State, p: nat) returns (tr: seq<State>, s': State)
    requires Solo(k, from, from, s, Committer(p)) && p in s.writers && (s.writers[p].WOpen? || s.writers[p].WMarks?)
    requires k.Pos(p) < U32
    ensures Solo(k, from, tr, s', Committer(p)) && p in s'.writers && s'.writers[p].WScan?
    ensures s'.writers[p].todo == s.slot.marks && s'.since == s.since
  {
    tr, s' := from, s;
    if s.writers[p].WOpen? {
      s' := s.(slot := s.slot.(flag := Committed(k.Pos(p)), open := false), writers := s.writers[p := WMarks]);
      assert Commit(k, s, s', p);
      tr := Goes(k, from, tr, s, s', Committer(p));
    }
    var s2 := s'.(writers := s'.writers[p := WScan(s'.slot.marks, {})]);
    assert LoadMarks(s', s2, p);
    tr := Goes(k, from, tr, s', s2, Committer(p));
    s' := s2;
  }

  lemma WriterFacts(k: Setup, tr: seq<State>, j: nat, p: nat)
    requires Run(k, tr) && j < |tr| && p in tr[j].writers
    ensures k.Pos(p) < U32 && tr[j].slot.marks <= tr[j].since.Keys
    ensures var x := tr[j].writers[p]; (x.WScan? ==> x.todo <= tr[j].since.Keys) && (x.WDrop? ==> !x.d.DDone?)
  {
    RunInv(k, tr, j);
    assert WriterOk(k, tr[j], p);
  }

  /** A commit that runs alone returns, from any point of it in any run. */
  lemma SoloCommit(k: Setup, tr: seq<State>, p: nat) returns (tr': seq<State>, s': State)
    requires Run(k, tr) && p in tr[|tr| - 1].writers
    ensures Solo(k, tr, tr', s', Committer(p)) && p in s'.writers && s'.writers[p] == WNext({})
  {
    tr', s' := tr, tr[|tr| - 1];
    WriterFacts(k, tr, |tr| - 1, p);
    if s'.writers[p].WOpen? || s'.writers[p].WMarks? { tr', s' := SoloPublish(k, tr, s', p); }
    if s'.writers[p].WScan? { tr', s' := SoloScan(k, tr, tr', s', p); }
    if s'.writers[p].WDrop? { tr', s' := SoloDrop(k, tr, tr', s', p); }
    tr', s' := SoloDrops(k, tr, tr', s', p);
  }

  // The connecting receiver -----------------------------------------------------------------------

  lemma {:induction false} SoloStale(k: Setup, from: seq<State>, tr: seq<State>, s: State, b: Bit)
      returns (tr': seq<State>, s': State)
    requires Solo(k, from, tr, s, Connecter(b)) && b in s.joiners && s.joiners[b].JDrop? && !s.joiners[b].d.DDone?
    requires s.joiners[b].p < U32
    ensures Solo(k, from, tr', s', Connecter(b)) && b in s'.joiners && s'.joiners[b].JDone?
    decreases Rank(s.slot, s.joiners[b].d)
  {
    var x := s.joiners[b];
    var t, d := DropProgress(s.slot, x.p, b, x.d);
    s' := s.(slot := t, joiners := s.joiners[b := if d == DDone then JDone else x.(d := d)]);
    assert JoinerDrops(s, s', b, d);
    tr' := Goes(k, from, tr, s, s', Connecter(b));
    if d != DDone { tr', s' := SoloStale(k, from, tr', s', b); }
  }

  lemma JoinerFacts(k: Setup, tr: seq<State>, j: nat, b: Bit)
    requires Run(k, tr) && j < |tr| && b in tr[j].joiners
    ensures b in k.sigma && var x := tr[j].joiners[b]; x.JDrop? ==> x.p < U32 && !x.d.DDone?
  {
    RunInv(k, tr, j);
    assert b in k.hand && JoinerOk(k, tr[j], b);
  }

  /** A connect that runs alone finishes with this slot, from any point of it in any run. */
  lemma SoloConnect(k: Setup, tr: seq<State>, b: Bit) returns (tr': seq<State>, s': State)
    requires Run(k, tr) && b in tr[|tr| - 1].joiners
    ensures Solo(k, tr, tr', s', Connecter(b)) && b in s'.joiners && s'.joiners[b].JDone?
  {
    tr', s' := tr, tr[|tr| - 1];
    JoinerFacts(k, tr, |tr| - 1, b);
    if s'.joiners[b].JSince? {
      var s := s'.(since := s'.since[b := k.sigma[b]], joiners := s'.joiners[b := JFlag]);
      assert StoreSince(k, s', s, b);
      tr' := Goes(k, tr, tr', s', s, Connecter(b));
      s' := s;
    }
    if s'.joiners[b].JFlag? {
      var s := s'.(joiners := s'.joiners[b := if Skips(s'.slot.flag, k.sigma[b]) then JDone
                                              else JDrop(U64 - 1 - s'.slot.flag, DRc)]);
      assert LoadFlag(k, s', s, b);
      tr' := Goes(k, tr, tr', s', s, Connecter(b));
      s' := s;
    }
    if s'.joiners[b].JDrop? { tr', s' := SoloStale(k, tr, tr', s', b); }
  }

  /** Together: whatever the commit of `pos0` and the connect of a new owner have left half done, both
      can return, and then the previous owner's mark is gone from the position. */
  lemma LeftoverGoes(k: Setup, tr: seq<State>, b: Bit) returns (tr': seq<State>, s': State)
    requires Run(k, tr) && 0 in tr[|tr| - 1].writers && b in tr[|tr| - 1].joiners && b in k.hand
    ensures Run(k, tr') && tr <= tr' && tr'[|tr'| - 1] == s'
    ensures CommitDone(k, s') && b in s'.joiners && s'.joiners[b].JDone? && (s'.slot.lap == 0 ==> b !in s'.slot.marks)
  {
    var joined, s := SoloConnect(k, tr, b);
    assert 0 in s.writers by { RunInv(k, joined, |joined| - 1); }
    tr', s' := SoloCommit(k, joined, 0);
    CommitterKeeps(k, joined, tr', s', |tr'| - 1, 0);
    LeftoverIsGone(k, tr', |tr'| - 1, b);
  }

  lemma WriterLeaves(k: Setup, s: State, s': State, p: nat)
    requires WriterStep(k, s, s', p)
    ensures s'.joiners == s.joiners
  {
  }

  lemma {:induction false} CommitterKeeps(k: Setup, from: seq<State>, tr: seq<State>, s: State, j: nat, p: nat)
    requires Solo(k, from, tr, s, Committer(p)) && |from| <= j + 1 <= |tr|
    ensures tr[j].joiners == from[|from| - 1].joiners
    decreases j
  {
    if j >= |from| {
      CommitterKeeps(k, from, tr, s, j - 1, p);
      assert StepByAt(k, tr, j, Committer(p));
      WriterLeaves(k, tr[j - 1], tr[j], p);
    }
  }

  // A reader --------------------------------------------------------------------------------------

  lemma SoloTest(k: Setup, from: seq<State>, tr: seq<State>, s: State, b: Bit) returns (tr': seq<State>, s': State)
    requires Solo(k, from, tr, s, Reads(b)) && b in s.readers && s.readers[b].pc.Test?
    ensures Solo(k, from, tr', s', Reads(b)) && b in s'.readers && s'.slot == s.slot.(flag := s'.slot.flag)
    ensures s'.readers[b] == Done(s.readers[b]) || s'.readers[b] == s.readers[b].(pc := Cas(s.readers[b].pc.rc))
  {
    var x, rc := s.readers[b], s.readers[b].pc.rc;
    var free := s.(slot := s.slot.(flag := Released(k.Pos(x.next))));
    s' := if rc.marks == {} then Set(free, b, Done(x))
          else if rc.marks - {b} == {} then Set(free, b, x.(pc := Cas(rc))) else Set(s, b, x.(pc := Cas(rc)));
    assert ReleaseUnmarked(k, s, s', b) || ReleaseEarly(k, s, s', b) || NotLast(s, s', b);
    tr' := Goes(k, from, tr, s, s', Reads(b));
  }

  /** Getting from the load of `rc_` to the next lap. */
  lemma SoloRelease(k: Setup, from: seq<State>, tr: seq<State>, s: State, b: Bit) returns (tr': seq<State>, s': State)
    requires Solo(k, from, tr, s, Reads(b)) && b in s.readers && s.readers[b].pc.LoadRc?
    ensures Solo(k, from, tr', s', Reads(b)) && b in s'.readers && s'.readers[b] == Done(s.readers[b])
  {
    var s1 := Set(s, b, s.readers[b].(pc := Test(Now(s.slot))));
    assert ReloadRc(s, s1, b);
    tr' := Goes(k, from, tr, s, s1, Reads(b));
    tr', s' := SoloTest(k, from, tr', s1, b);
    if s'.readers[b] != Done(s.readers[b]) { tr', s' := SoloClear(k, from, tr', s', b); }
  }

  lemma SoloClear(k: Setup, from: seq<State>, tr: seq<State>, s: State, b: Bit) returns (tr': seq<State>, s': State)
    requires Solo(k, from, tr, s, Reads(b)) && b in s.readers && s.readers[b].pc == Cas(Now(s.slot))
    ensures Solo(k, from, tr', s', Reads(b)) && b in s'.readers && s'.readers[b] == Done(s.readers[b])
  {
    s' := Set(s.(slot := s.slot.(gen := s.slot.gen + 1, marks := s.slot.marks - {b})), b, Done(s.readers[b]));
    assert ClearWins(s, s', b);
    tr' := Goes(k, from, tr, s, s', Reads(b));
  }

  /** A read that runs alone completes: from the poll once the slot is committed for the receiver, and
      from any later point of it in any run. */
  lemma SoloRead(k: Setup, tr: seq<State>, b: Bit) returns (tr': seq<State>, s': State)
    requires Run(k, tr) && b in tr[|tr| - 1].readers
    requires var s, x := tr[|tr| - 1], tr[|tr| - 1].readers[b];
             x.pc.Poll? ==> && k.Pos(x.next) < U32 && s.slot.flag == Committed(k.Pos(x.next))
                            && (b in s.joiners ==> s.joiners[b].JDone?)
    ensures Solo(k, tr, tr', s', Reads(b)) && b in s'.readers && s'.readers[b] == Done(tr[|tr| - 1].readers[b])
  {
    var s := tr[|tr| - 1];
    var x := s.readers[b];
    tr', s' := tr, s;
    if x.pc.Test? {
      tr', s' := SoloTest(k, tr, tr, s, b);
      if s'.readers[b] == Done(x) { return; }
    }
    if s'.readers[b].pc.Cas? {
      var s1 := Set(s', b, x.(pc := LoadRc));
      assert ClearFails(s', s1, b);
      tr' := Goes(k, tr, tr', s', s1, Reads(b));
      s' := s1;
    }
    if x.pc.Poll? {
      s' := Set(s, b, x.(pc := LoadRc));
      assert SeeCommit(k, s, s', b);
      tr' := Goes(k, tr, tr, s, s', Reads(b));
    }
    tr', s' := SoloRelease(k, tr, tr', s', b);
  }

  // A claimant ------------------------------------------------------------------------------------

  /** A writer that runs alone claims the released slot for the lap after. */
  lemma SoloClaim(k: Setup, tr: seq<State>, t: nat) returns (tr': seq<State>, s': State)
    requires Run(k, tr)
    requires var s := tr[|tr| - 1];
             s.slot.marks == {} && s.slot.flag == Released(k.Pos(s.slot.lap)) && k.Pos(s.slot.lap + 1) < POSITIONS
    ensures Solo(k, tr, tr', s', Claims(t))
    ensures var s := tr[|tr| - 1];
            s'.slot == s.slot.(gen := s.slot.gen + 1, marks := k.Cc(), lap := s.slot.lap + 1, open := true)
  {
    var s := tr[|tr| - 1];
    var lap := s.slot.lap + 1;
    var s1 := s.(claimants := s.claimants[t := KRc(lap, Now(s.slot))]);
    var s2 := s.(claimants := s.claimants[t := KFree(lap, s.slot.gen)]);
    s' := s2.(slot := s.slot.(gen := s.slot.gen + 1, marks := k.Cc(), lap := lap, open := true),
              writers := s.writers[lap := WOpen], claimants := s2.claimants - {t});
    assert LoadRcFor(k, s, s1, t, lap);
    tr' := Goes(k, tr, tr, s, s1, Claims(t));
    assert k.Pos(lap) == Released(k.Pos(s.slot.lap));
    assert TestFree(k, s1, s2, t);
    tr' := Goes(k, tr, tr', s1, s2, Claims(t));
    assert ClaimWins(k, s2, s', t);
    tr' := Goes(k, tr, tr', s2, s', Claims(t));
  }
}
