/** What the multi-writer channel does not refuse: when a writer is held up, when a reader
    finds its element, and that either, running alone from any state of any run, gets its
    operation done. */
module ChannelProgress {
  import opened RingWords
  import opened ChannelRing
  import opened ChannelOrder
  import opened ChannelCalls

  // Exact tests -------------------------------------------------------------------------

  /** A claimant that has not advanced `ct_` yet. */
  ghost predicate Pending(s: State, w: Tid) {
    w in s.writers && (s.writers[w].WClaimed? || s.writers[w].WOwner?)
  }

  /** A claim that `ct_` does not show yet has a pending claimant. */
  ghost predicate Accounted(s: State) {
    |s.log| == s.ct || exists w :: Pending(s, w)
  }

  lemma {:induction false} PendingClaim(tr: seq<State>, k: nat)
    requires Run(tr) && k < |tr|
    ensures Accounted(tr[k])
  {
    if k > 0 {
      PendingClaim(tr, k - 1);
      RunInv(tr, k - 1);
      assert StepAt(tr, k);
      PendingStep(tr[k - 1], tr[k]);
    }
  }

  lemma PendingStep(s: State, s': State)
    requires Inv(s) && Step(s, s')
    requires Accounted(s)
    ensures Accounted(s')
  {
    if w :| w in s.writers && WriterStep(s, s', w, s.writers[w]) {
      assert WriterOk(s, w);
      if ClaimWins(s, s', w, s.writers[w]) {
        assert Pending(s', w);
      } else {
        PendingWriter(s, s', w);
      }
    } else {
      var r :| r in s.readers && ReaderStep(s, s', r, s.readers[r]);
      ReaderLog(s, s', r, s.readers[r]);
      ReaderWriters(s, s', r, s.readers[r]);
      if v :| Pending(s, v) { assert Pending(s', v); }
    }
  }

  lemma ReaderWriters(s: State, s': State, r: Bit, x: Reader)
    requires r in s.readers && ReaderStep(s, s', r, x)
    ensures s'.writers == s.writers
  {
    ReaderFrame(s, s', r, x);
  }

  lemma PendingWriter(s: State, s': State, w: Tid)
    requires Shape(s) && w in s.writers && WriterOk(s, w) && WriterStep(s, s', w, s.writers[w])
    requires !ClaimWins(s, s', w, s.writers[w])
    requires Accounted(s)
    ensures Accounted(s')
  {
    var x := s.writers[w];
    if x.WClaimed? {
      assert Pending(s', w);
    } else if !x.WOwner? {
      NoClaimFrame(s, s', w);
      if v :| Pending(s, v) { assert Pending(s', v); }
    }
  }

  lemma NoClaimFrame(s: State, s': State, w: Tid)
    requires w in s.writers && WriterStep(s, s', w, s.writers[w]) && !ClaimWins(s, s', w, s.writers[w])
    requires !s.writers[w].WOwner?
    ensures w in s'.writers && s'.writers == s.writers[w := s'.writers[w]] && s'.log == s.log && s'.ct == s.ct
  {
    if WriterLoads(s, s', w, s.writers[w]) { WriterLoadsFrame(s, s', w, s.writers[w]); }
  }

  /** No claim is between its CAS and its store of `ct_`. */
  ghost predicate NonePending(s: State) {
    forall w | w in s.writers :: !s.writers[w].WClaimed? && !s.writers[w].WOwner?
  }

  /** With no claim pending, a writer that has loaded the current `ct_` and `rc_` is held up
      exactly when some receiver has not read the element it would overwrite. */
  lemma HeldUpExactly(tr: seq<State>, k: nat, s': State, w: Tid)
    requires Run(tr) && k < |tr| && NonePending(tr[k]) && w in tr[k].writers
    requires var s, x := tr[k], tr[k].writers[w]; x.WRc? && x.c == s.ct && x.rc == At(s, s.ct).rc && Decide(s, s', w, x)
    ensures s'.writers[w].WFree? <==> EveryoneRead(tr[k], tr[k].ct - RING)
  {
    var s := tr[k];
    RunInv(tr, k);
    PendingClaim(tr, k);
    assert WriterOk(s, w);
    FreeSlot(s);
    assert s.writers[w].cc == s.cc;
  }

  /** The slot `ct_` points to holds the element one lap before; it is unmarked, and then
      free, exactly when everyone has read that element. */
  lemma FreeSlot(s: State)
    requires Inv(s) && |s.log| == s.ct
    ensures At(s, s.ct).pos == s.ct - RING
    ensures At(s, s.ct).rc.marks == {} <==> EveryoneRead(s, s.ct - RING)
    ensures At(s, s.ct).rc.marks == {} ==> At(s, s.ct).flag == s.ct || At(s, s.ct).flag == 0
    ensures At(s, s.ct).rc.marks <= s.cc && At(s, s.ct).rc.epoch == s.epoch
  {
    var t := At(s, s.ct);
    assert SlotOk(s, Index(s.ct));
    SameSlot(t.pos, s.ct - RING);
    if t.pos >= 0 {
      assert MarksOk(s, t);
      if t.rc.marks == {} {
        forall r | r in s.readers ensures s.ct - RING < s.readers[r].cur { assert r !in t.rc.marks; }
      } else {
        var r :| r in t.rc.marks;
        assert r in s.readers && s.readers[r].cur <= t.pos;
      }
    }
  }

  /** A polling reader sees its flag up exactly when its position is claimed and committed. */
  lemma PollIsExact(tr: seq<State>, k: nat, r: Bit)
    requires Run(tr) && k < |tr| && r in tr[k].readers && tr[k].readers[r].pc.Poll?
    ensures var s := tr[k]; var c := s.readers[r].cur;
            c < U32 && (At(s, c).flag == Committed(c) <==> c < |s.log| && !At(s, c).open)
  {
    var s := tr[k];
    var c := s.readers[r].cur;
    RunInv(tr, k);
    assert ReaderOk(s, r);
    if c < |s.log| {
      NothingIsLost(tr, k, r);
      assert SlotOk(s, Index(c));
    } else {
      UnclaimedFlag(s);
    }
  }

  /** The flag of the next position's slot does not show that position committed. */
  lemma UnclaimedFlag(s: State)
    requires Inv(s) && |s.log| < U32
    ensures At(s, |s.log|).flag != Committed(|s.log|)
  {
    var t := At(s, |s.log|);
    assert SlotOk(s, Index(|s.log|));
    if t.pos >= 0 { assert MarksOk(s, t); }
  }

  // Running alone ---------------------------------------------------------------------------

  ghost predicate WriterStepAt(tr: seq<State>, k: int, w: Tid)
    requires 0 < k < |tr|
  {
    w in tr[k - 1].writers && WriterStep(tr[k - 1], tr[k], w, tr[k - 1].writers[w])
  }

  ghost predicate ReaderStepAt(tr: seq<State>, k: int, r: Bit)
    requires 0 < k < |tr|
  {
    r in tr[k - 1].readers && ReaderStep(tr[k - 1], tr[k], r, tr[k - 1].readers[r])
  }

  /** `tr` is a run that extends `from` by steps of writer `w` alone and ends in `s`. */
  ghost predicate SoloWriter(from: seq<State>, tr: seq<State>, s: State, w: Tid) {
    && Run(from) && from <= tr && Run(tr) && tr[|tr| - 1] == s
    && forall k | |from| <= k < |tr| :: WriterStepAt(tr, k, w)
  }

  /** The same for steps of reader `r`. */
  ghost predicate SoloReader(from: seq<State>, tr: seq<State>, s: State, r: Bit) {
    && Run(from) && from <= tr && Run(tr) && tr[|tr| - 1] == s
    && forall k | |from| <= k < |tr| :: ReaderStepAt(tr, k, r)
  }

  lemma WriterGoes(from: seq<State>, tr: seq<State>, p: State, s: State, w: Tid) returns (tr': seq<State>)
    requires SoloWriter(from, tr, p, w) && w in p.writers && WriterStep(p, s, w, p.writers[w])
    ensures SoloWriter(from, tr', s, w)
  {
    tr' := tr + [s];
    forall k | 0 < k < |tr'| ensures StepAt(tr', k) { if k < |tr| { assert StepAt(tr, k); } }
    forall k | |from| <= k < |tr'| ensures WriterStepAt(tr', k, w) { if k < |tr| { assert WriterStepAt(tr, k, w); } }
  }

  lemma ReaderGoes(from: seq<State>, tr: seq<State>, p: State, s: State, r: Bit) returns (tr': seq<State>)
    requires SoloReader(from, tr, p, r) && r in p.readers && ReaderStep(p, s, r, p.readers[r])
    ensures SoloReader(from, tr', s, r)
  {
    tr' := tr + [s];
    forall k | 0 < k < |tr'| ensures StepAt(tr', k) { if k < |tr| { assert StepAt(tr, k); } }
    forall k | |from| <= k < |tr'| ensures ReaderStepAt(tr', k, r) { if k < |tr| { assert ReaderStepAt(tr, k, r); } }
  }

  /** The slot of a claimed position, up to the bytes and the flag. */
  function ClaimedSlot(s: State): Slot {
    At(s, s.ct).(rc := Rc(s.epoch, At(s, s.ct).rc.gen + 1, s.cc), pos := s.ct, open := true)
  }

  /** A push past its claim: the slot and the pc as given. */
  function Pushing(s: State, w: Tid, m: Fragment, t: Slot, pc: Writer): State {
    SetWriter(SetSlot(s, s.ct, t), w, pc).(log := s.log + [Claim(w, m)], ct := s.ct + 1)
  }

  /** The state after a whole push, all else as it was. */
  function Pushed(s: State, w: Tid, m: Fragment): State
    requires s.ct < U32
  {
    Pushing(s, w, m, ClaimedSlot(s)
        .(header := m.header, payload := m.payload, flag := Committed(s.ct), open := false), WIdle)
  }

  /** From the top of the claim loop to the load of the slot's `rc_`. */
  lemma SoloLoad(from: seq<State>, tr: seq<State>, s: State, w: Tid, m: Fragment) returns (tr': seq<State>)
    requires SoloWriter(from, tr, SetWriter(s, w, WLoop(m, s.epoch)), w) && s.cc != {} && w in s.writers
    ensures SoloWriter(from, tr', SetWriter(s, w, WRc(m, s.epoch, s.cc, s.ct, At(s, s.ct).rc)), w)
  {
    var s1, s2 := SetWriter(s, w, WLoop(m, s.epoch)), SetWriter(s, w, WCc(m, s.epoch, s.cc));
    var s3 := SetWriter(s, w, WCt(m, s.epoch, s.cc, s.ct));
    var s4 := SetWriter(s, w, WRc(m, s.epoch, s.cc, s.ct, At(s, s.ct).rc));
    assert LoadCc(s1, s2, w, s1.writers[w]);
    tr' := WriterGoes(from, tr, s1, s2, w);
    assert LoadCt(s2, s3, w, s2.writers[w]);
    tr' := WriterGoes(from, tr', s2, s3, w);
    assert LoadSlotRc(s3, s4, w, s3.writers[w]);
    tr' := WriterGoes(from, tr', s3, s4, w);
  }

  /** From there to the claim of a free slot. */
  lemma SoloClaim(from: seq<State>, tr: seq<State>, s: State, w: Tid, m: Fragment) returns (tr': seq<State>)
    requires |s.log| < POSITIONS && w in s.writers
    requires SoloWriter(from, tr, SetWriter(s, w, WRc(m, s.epoch, s.cc, s.ct, At(s, s.ct).rc)), w)
    requires var t := At(s, s.ct); t.rc.marks == {} && (t.flag == s.ct || t.flag == 0)
    ensures SoloWriter(from, tr', SetWriter(SetSlot(s, s.ct, ClaimedSlot(s)), w, WClaimed(m, s.epoch, s.ct))
        .(log := s.log + [Claim(w, m)]), w)
  {
    var rc := At(s, s.ct).rc;
    var s4, s5 := SetWriter(s, w, WRc(m, s.epoch, s.cc, s.ct, rc)), SetWriter(s, w, WFree(m, s.epoch, s.cc, s.ct, rc));
    var s6 := SetWriter(SetSlot(s, s.ct, ClaimedSlot(s)), w, WClaimed(m, s.epoch, s.ct)).(log := s.log + [Claim(w, m)]);
    assert Decide(s4, s5, w, s4.writers[w]);
    tr' := WriterGoes(from, tr, s4, s5, w);
    assert ClaimWins(s5, s6, w, s5.writers[w]);
    tr' := WriterGoes(from, tr', s5, s6, w);
  }

  /** From the claim to the store of `ct_`. */
  lemma SoloAdvance(from: seq<State>, tr: seq<State>, s: State, w: Tid, m: Fragment) returns (tr': seq<State>)
    requires s.ct + 1 < U32 && w in s.writers
    requires SoloWriter(from, tr, SetWriter(SetSlot(s, s.ct, ClaimedSlot(s)), w, WClaimed(m, s.epoch, s.ct))
        .(log := s.log + [Claim(w, m)]), w)
    ensures SoloWriter(from, tr', Pushing(s, w, m, ClaimedSlot(s), WHeader(m, s.ct)), w)
  {
    var t, log := ClaimedSlot(s), s.log + [Claim(w, m)];
    var s6 := SetWriter(SetSlot(s, s.ct, t), w, WClaimed(m, s.epoch, s.ct)).(log := log);
    var s7 := SetWriter(SetSlot(s, s.ct, t), w, WOwner(m, s.ct)).(log := log);
    var s8 := Pushing(s, w, m, t, WHeader(m, s.ct));
    assert Revalidate(s6, s7, w, s6.writers[w]);
    tr' := WriterGoes(from, tr, s6, s7, w);
    assert AdvanceCt(s7, s8, w, s7.writers[w]);
    tr' := WriterGoes(from, tr', s7, s8, w);
  }

  lemma SoloCopy(from: seq<State>, tr: seq<State>, s: State, w: Tid, m: Fragment) returns (tr': seq<State>)
    requires w in s.writers && SoloWriter(from, tr, Pushing(s, w, m, ClaimedSlot(s), WHeader(m, s.ct)), w)
    ensures SoloWriter(from, tr',
        Pushing(s, w, m, ClaimedSlot(s).(header := m.header, payload := m.payload), WCommit(m, s.ct)), w)
  {
    var t := ClaimedSlot(s);
    var s8, s9 := Pushing(s, w, m, t, WHeader(m, s.ct)), Pushing(s, w, m, t.(header := m.header), WPayload(m, s.ct));
    var s10 := Pushing(s, w, m, t.(header := m.header, payload := m.payload), WCommit(m, s.ct));
    assert WriteHeader(s8, s9, w, s8.writers[w]);
    tr' := WriterGoes(from, tr, s8, s9, w);
    assert WritePayload(s9, s10, w, s9.writers[w]);
    tr' := WriterGoes(from, tr', s9, s10, w);
  }

  lemma SoloCommit(from: seq<State>, tr: seq<State>, s: State, w: Tid, m: Fragment) returns (tr': seq<State>)
    requires s.ct < U32 && w in s.writers && forall b | b in s.since :: s.since[b] == 0
    requires SoloWriter(from, tr,
        Pushing(s, w, m, ClaimedSlot(s).(header := m.header, payload := m.payload), WCommit(m, s.ct)), w)
    ensures SoloWriter(from, tr', Pushed(s, w, m), w)
  {
    var t := ClaimedSlot(s).(header := m.header, payload := m.payload);
    var s10 := Pushing(s, w, m, t, WCommit(m, s.ct));
    var s11 := Pushing(s, w, m, t.(flag := Committed(s.ct), open := false), WMarks(s.ct));
    assert Commit(s10, s11, w, s10.writers[w]);
    tr' := WriterGoes(from, tr, s10, s11, w);
    assert FinishCommit(s11, Pushed(s, w, m), w, s11.writers[w]);
    tr' := WriterGoes(from, tr', s11, Pushed(s, w, m), w);
  }

  /** What a push needs of the state: the claims are all accounted for and the element one lap before
      is read. */
  ghost predicate Room(s: State) {
    NonePending(s) && EveryoneRead(s, s.ct - RING) && |s.log| < POSITIONS
  }

  lemma RoomFacts(tr: seq<State>, k: nat)
    requires Run(tr) && k < |tr| && Room(tr[k])
    ensures var s := tr[k]; var t := At(s, s.ct);
            && s.cc != {} && s.ct + 1 < U32 && t.rc.marks == {} && (t.flag == s.ct || t.flag == 0)
            && forall b | b in s.since :: s.since[b] == 0
  {
    RunInv(tr, k);
    PendingClaim(tr, k);
    LogGrows(tr, 0, k);
    FreeSlot(tr[k]);
  }

  /** From the top of the claim loop to the return. */
  lemma SoloPushOn(from: seq<State>, tr: seq<State>, s: State, w: Tid, m: Fragment) returns (tr': seq<State>)
    requires Run(from) && from[|from| - 1] == s && Room(s) && w in s.writers
    requires SoloWriter(from, tr, SetWriter(s, w, WLoop(m, s.epoch)), w)
    ensures s.ct < U32 && SoloWriter(from, tr', Pushed(s, w, m), w)
  {
    RoomFacts(from, |from| - 1);
    tr' := SoloLoad(from, tr, s, w, m);
    tr' := SoloClaim(from, tr', s, w, m);
    tr' := SoloAdvance(from, tr', s, w, m);
    tr' := SoloCopy(from, tr', s, w, m);
    tr' := SoloCommit(from, tr', s, w, m);
  }

  /** A push that runs alone completes: from any state of any run with no claim pending and
      the element one lap before read by all, an idle writer pushes any message, and all
      that changes is its slot, `ct_` and the log. */
  lemma SoloPush(tr: seq<State>, w: Tid, m: Fragment) returns (tr': seq<State>)
    requires Run(tr)
    requires var s := tr[|tr| - 1]; Room(s) && w in s.writers && s.writers[w].WIdle?
    ensures tr[|tr| - 1].ct < U32 && SoloWriter(tr, tr', Pushed(tr[|tr| - 1], w, m), w)
  {
    var s := tr[|tr| - 1];
    assert Begin(s, SetWriter(s, w, WLoop(m, s.epoch)), w, s.writers[w], m);
    tr' := WriterGoes(tr, tr, s, SetWriter(s, w, WLoop(m, s.epoch)), w);
    tr' := SoloPushOn(tr, tr', s, w, m);
  }

  /** A push short of its claim can always start over with fresh loads. */
  lemma SoloRestart(from: seq<State>, s: State, w: Tid) returns (tr: seq<State>)
    requires SoloWriter(from, from, s, w) && w in s.writers && Claiming(s.writers[w])
    requires s.writers[w].WCc? ==> s.writers[w].cc != {}
    ensures SoloWriter(from, tr, SetWriter(s, w, WLoop(s.writers[w].msg, s.writers[w].ep)), w)
  {
    var x := s.writers[w];
    var top := SetWriter(s, w, WLoop(x.msg, x.ep));
    if x.WLoop? {
      assert top == s;
      tr := from;
    } else if x.WHeld? || x.WFree? {
      assert Retry(s, top, w, x) || ClaimFails(s, top, w, x);
      tr := WriterGoes(from, from, s, top, w);
    } else {
      tr := SoloDecide(from, s, w);
    }
  }

  lemma SoloDecide(from: seq<State>, s: State, w: Tid) returns (tr: seq<State>)
    requires SoloWriter(from, from, s, w) && w in s.writers
    requires var x := s.writers[w]; (x.WCc? && x.cc != {}) || x.WCt? || x.WRc?
    ensures SoloWriter(from, tr, SetWriter(s, w, WLoop(s.writers[w].msg, s.writers[w].ep)), w)
  {
    var x := s.writers[w];
    var c := if x.WCc? then s.ct else x.c;
    var rc := if x.WRc? then x.rc else At(s, c).rc;
    var s1, s2 := SetWriter(s, w, WCt(x.msg, x.ep, x.cc, c)), SetWriter(s, w, WRc(x.msg, x.ep, x.cc, c, rc));
    tr := from;
    if x.WCc? {
      assert LoadCt(s, s1, w, x);
      tr := WriterGoes(from, tr, s, s1, w);
    }
    assert x.WCt? ==> s1 == s;
    if !x.WRc? {
      assert LoadSlotRc(s1, s2, w, s1.writers[w]);
      tr := WriterGoes(from, tr, s1, s2, w);
    }
    assert x.WRc? ==> s2 == s;
    tr := SoloTurnBack(from, tr, s, s2, w);
  }

  lemma SoloTurnBack(from: seq<State>, tr: seq<State>, s: State, s2: State, w: Tid) returns (tr': seq<State>)
    requires SoloWriter(from, tr, s2, w) && w in s.writers && Claiming(s.writers[w])
    requires w in s2.writers && s2.writers[w].WRc? && s2 == SetWriter(s, w, s2.writers[w])
    ensures var x := s2.writers[w]; SoloWriter(from, tr', SetWriter(s, w, WLoop(x.msg, x.ep)), w)
  {
    var x := s2.writers[w];
    var held := (x.cc * x.rc.marks != {} && x.rc.epoch == x.ep) || (x.rc.marks == {} && At(s, x.c).flag !in {x.c, 0});
    var s3 := SetWriter(s, w, if held then WHeld(x.msg, x.ep) else WFree(x.msg, x.ep, x.cc, x.c, x.rc));
    var top := SetWriter(s, w, WLoop(x.msg, x.ep));
    assert Decide(s2, s3, w, x);
    tr' := WriterGoes(from, tr, s2, s3, w);
    assert Retry(s3, top, w, s3.writers[w]) || ClaimFails(s3, top, w, s3.writers[w]);
    tr' := WriterGoes(from, tr', s3, top, w);
  }

  /** So does one that was stopped anywhere before its claim, whatever it had loaded. */
  lemma SoloResume(tr: seq<State>, w: Tid) returns (tr': seq<State>)
    requires Run(tr)
    requires var s := tr[|tr| - 1]; Room(s) && w in s.writers && Claiming(s.writers[w])
    ensures var s := tr[|tr| - 1]; s.ct < U32 && SoloWriter(tr, tr', Pushed(s, w, s.writers[w].msg), w)
  {
    var s := tr[|tr| - 1];
    assert s.writers[w].ep == s.epoch && (s.writers[w].WCc? ==> s.writers[w].cc != {}) by {
      RunInv(tr, |tr| - 1);
      LogGrows(tr, 0, |tr| - 1);
      assert WriterOk(s, w);
    }
    tr' := SoloRestart(tr, s, w);
    tr' := SoloPushOn(tr, tr', s, w, s.writers[w].msg);
  }

  /** And one stopped anywhere after it gets its element committed and returns, whoever is held up by
      now. */
  lemma SoloFinish(tr: seq<State>, w: Tid) returns (tr': seq<State>, s': State)
    requires Run(tr) && w in tr[|tr| - 1].writers
    requires var x := tr[|tr| - 1].writers[w]; Owning(x) || x.WMarks?
    ensures SoloWriter(tr, tr', s', w) && w in s'.writers && s'.writers[w] == WIdle && s'.log == tr[|tr| - 1].log
    ensures var x := tr[|tr| - 1].writers[w]; Owning(x) ==> CommittedAt(s', x.c, x.msg)
  {
    tr', s' := tr, tr[|tr| - 1];
    var x := s'.writers[w];
    Bounds(tr, |tr| - 1, w);
    if Owning(x) {
      tr', s' := SoloPublish(tr, s', w);
      tr', s' := SoloStore(tr, tr', s', w);
    }
    assert StaleMarks(s', x.c) == {};
    assert FinishCommit(s', SetWriter(s', w, WIdle), w, s'.writers[w]);
    tr' := WriterGoes(tr, tr', s', SetWriter(s', w, WIdle), w);
    s' := SetWriter(s', w, WIdle);
  }

  lemma Bounds(tr: seq<State>, k: nat, w: Tid)
    requires Run(tr) && k < |tr| && w in tr[k].writers
    ensures var s, x := tr[k], tr[k].writers[w];
            && (Owning(x) ==> x.c < U32) && (x.WClaimed? ==> x.ep == s.epoch)
            && (x.WPayload? || x.WCommit? ==> At(s, x.c).header == x.msg.header)
            && (x.WCommit? ==> At(s, x.c).payload == x.msg.payload)
    ensures forall b | b in tr[k].since :: tr[k].since[b] == 0
  {
    RunInv(tr, k);
    LogGrows(tr, 0, k);
    assert WriterOk(tr[k], w);
  }

  /** The claim is revalidated and `ct_` advanced. */
  lemma SoloPublish(from: seq<State>, s: State, w: Tid) returns (tr: seq<State>, s': State)
    requires SoloWriter(from, from, s, w) && w in s.writers && Owning(s.writers[w])
    requires s.writers[w].WClaimed? ==> s.writers[w].ep == s.epoch
    ensures SoloWriter(from, tr, s', w) && w in s'.writers && s' == s.(ct := s'.ct, writers := s'.writers)
    ensures var x := s.writers[w]; s'.writers[w] == if x.WClaimed? || x.WOwner? then WHeader(x.msg, x.c) else x
  {
    tr, s' := from, s;
    var x := s.writers[w];
    if x.WClaimed? {
      s' := SetWriter(s, w, WOwner(x.msg, x.c));
      assert Revalidate(s, s', w, x);
      tr := WriterGoes(from, tr, s, s', w);
    }
    if s'.writers[w].WOwner? {
      var s1 := SetWriter(s, w, WHeader(x.msg, x.c)).(ct := (x.c + 1) % U32);
      assert AdvanceCt(s', s1, w, s'.writers[w]);
      tr := WriterGoes(from, tr, s', s1, w);
      s' := s1;
    }
  }

  /** What is left of the element is written. */
  lemma SoloFill(from: seq<State>, tr: seq<State>, s: State, w: Tid) returns (tr': seq<State>, s': State)
    requires SoloWriter(from, tr, s, w) && w in s.writers
    requires var x := s.writers[w];
             && (x.WHeader? || x.WPayload? || x.WCommit?)
             && (x.WPayload? || x.WCommit? ==> At(s, x.c).header == x.msg.header)
             && (x.WCommit? ==> At(s, x.c).payload == x.msg.payload)
    ensures SoloWriter(from, tr', s', w) && w in s'.writers && s'.log == s.log && s'.since == s.since
    ensures var x := s.writers[w];
            && s'.writers[w] == WCommit(x.msg, x.c)
            && At(s', x.c).header == x.msg.header && At(s', x.c).payload == x.msg.payload
  {
    var x := s.writers[w];
    tr', s' := tr, s;
    if x.WHeader? {
      s' := SetWriter(SetSlot(s, x.c, At(s, x.c).(header := x.msg.header)), w, WPayload(x.msg, x.c));
      assert WriteHeader(s, s', w, x);
      tr' := WriterGoes(from, tr', s, s', w);
    }
    if s'.writers[w].WPayload? {
      var s1 := SetWriter(SetSlot(s', x.c, At(s', x.c).(payload := x.msg.payload)), w, WCommit(x.msg, x.c));
      assert WritePayload(s', s1, w, s'.writers[w]);
      tr' := WriterGoes(from, tr', s', s1, w);
      s' := s1;
    }
  }

  /** The element is written and committed. */
  lemma SoloStore(from: seq<State>, tr: seq<State>, s: State, w: Tid) returns (tr': seq<State>, s': State)
    requires SoloWriter(from, tr, s, w) && w in s.writers
    requires var x := s.writers[w];
             && (x.WHeader? || x.WPayload? || x.WCommit?) && x.c < U32
             && (x.WPayload? || x.WCommit? ==> At(s, x.c).header == x.msg.header)
             && (x.WCommit? ==> At(s, x.c).payload == x.msg.payload)
    ensures SoloWriter(from, tr', s', w) && w in s'.writers && s'.log == s.log && s'.since == s.since
    ensures var x := s.writers[w]; s'.writers[w] == WMarks(x.c) && CommittedAt(s', x.c, x.msg)
  {
    var c, s1 := s.writers[w].c, s;
    tr', s1 := SoloFill(from, tr, s, w);
    s' := SetWriter(SetSlot(s1, c, At(s1, c).(flag := Committed(c), open := false)), w, WMarks(c));
    assert Commit(s1, s', w, s1.writers[w]);
    tr' := WriterGoes(from, tr', s1, s', w);
  }

  /** The slot after reader `r` has released its element. */
  function ReleasedSlot(t: Slot, c: nat, r: Bit): Slot {
    var marks := t.rc.marks - {r};
    t.(rc := Rc(t.rc.epoch, t.rc.gen + 1, marks), flag := if marks == {} then Released(c) else t.flag)
  }

  /** The state after a whole receive of `m`, all else as it was. */
  function AfterPop(s: State, r: Bit, m: Fragment): State
    requires r in s.readers
  {
    var x := s.readers[r];
    SetReader(SetSlot(s, x.cur, ReleasedSlot(At(s, x.cur), x.cur, r)), r, Popped(x, m))
  }

  /** A receive that runs alone completes: from any state of any run in which a polling
      reader's position is claimed and committed, and from any later point of it, it pops that
      element. */
  lemma SoloPop(tr: seq<State>, r: Bit) returns (tr': seq<State>)
    requires Run(tr) && r in tr[|tr| - 1].readers
    requires var s, x := tr[|tr| - 1], tr[|tr| - 1].readers[r]; x.pc.Poll? ==> x.cur < |s.log| && !At(s, x.cur).open
    ensures var s := tr[|tr| - 1];
            && s.readers[r].cur < |s.log|
            && SoloReader(tr, tr', AfterPop(s, r, s.log[s.readers[r].cur].msg), r)
  {
    var s := tr[|tr| - 1];
    AtCursor(tr, |tr| - 1, r);
    var x, m := s.readers[r], s.log[s.readers[r].cur].msg;
    if x.pc.Test? {
      tr' := SoloTest(tr, s, r);
      tr' := SoloReload(tr, tr', Tested(s, r), r, m);
      TestedPop(s, r, m);
    } else if x.pc.Cas? {
      tr' := SoloReload(tr, tr, s, r, m);
    } else {
      tr' := SoloRead(tr, s, r, m);
      tr' := SoloRelease(tr, tr', s, r, m);
    }
  }

  /** The element at the cursor of a reader that has one to read. */
  lemma AtCursor(tr: seq<State>, k: nat, r: Bit)
    requires Run(tr) && k < |tr| && r in tr[k].readers
    requires var s, x := tr[k], tr[k].readers[r]; x.pc.Poll? ==> x.cur < |s.log| && !At(s, x.cur).open
    ensures var s, x := tr[k], tr[k].readers[r]; var t := At(s, x.cur);
            && x.cur < |s.log| && x.cur < U32 && r in t.rc.marks
            && s.log[x.cur].msg == Fragment(t.header, t.payload)
            && (x.pc.Poll? ==> t.flag == Committed(x.cur))
            && (x.pc.Payload? ==> x.pc.h == t.header)
            && (x.pc.LoadRc? || x.pc.Test? || x.pc.Cas? ==> x.pc.m == s.log[x.cur].msg)
            && (x.pc.Test? ==> x.pc.rc.marks != {} && (x.pc.rc.marks - {r} == {} ==> t.rc.marks - {r} == {}))
  {
    var s, x := tr[k], tr[k].readers[r];
    RunInv(tr, k);
    assert ReaderOk(s, r) && SlotOk(s, Index(x.cur));
    if x.pc.Poll? { NothingIsLost(tr, k, r); }
  }

  /** A reader that has tested its load of `rc_` can always load it again. */
  lemma SoloReload(from: seq<State>, tr: seq<State>, s: State, r: Bit, m: Fragment) returns (tr': seq<State>)
    requires SoloReader(from, tr, s, r) && r in s.readers && s.readers[r].pc.Cas? && s.readers[r].pc.m == m
    requires At(s, s.readers[r].cur).rc.marks != {}
    ensures SoloReader(from, tr', AfterPop(s, r, m), r)
  {
    var x := s.readers[r];
    assert ClearFails(s, SetPc(s, r, x, LoadRc(m)), r, x);
    tr' := ReaderGoes(from, tr, s, SetPc(s, r, x, LoadRc(m)), r);
    tr' := SoloRelease(from, tr', s, r, m);
  }

  /** The state once reader `r` has tested what it loaded. */
  function Tested(s: State, r: Bit): State
    requires r in s.readers && s.readers[r].pc.Test?
  {
    var x := s.readers[r];
    var t := if x.pc.rc.marks - {r} == {} then At(s, x.cur).(flag := Released(x.cur)) else At(s, x.cur);
    SetPc(SetSlot(s, x.cur, t), r, x, Cas(x.pc.m, x.pc.rc))
  }

  lemma SoloTest(from: seq<State>, s: State, r: Bit) returns (tr: seq<State>)
    requires SoloReader(from, from, s, r) && r in s.readers && s.readers[r].pc.Test? && s.readers[r].pc.rc.marks != {}
    ensures SoloReader(from, tr, Tested(s, r), r)
  {
    var x := s.readers[r];
    assert SetSlot(s, x.cur, At(s, x.cur)) == s;
    assert ReleaseEarly(s, Tested(s, r), r, x) || NotLast(s, Tested(s, r), r, x);
    tr := ReaderGoes(from, from, s, Tested(s, r), r);
  }

  /** An early release does not change where the pop ends. */
  lemma TestedPop(s: State, r: Bit, m: Fragment)
    requires r in s.readers && s.readers[r].pc.Test?
    requires var x := s.readers[r]; x.pc.rc.marks - {r} == {} ==> At(s, x.cur).rc.marks - {r} == {}
    ensures AfterPop(Tested(s, r), r, m) == AfterPop(s, r, m)
  {
  }

  lemma SoloRead(from: seq<State>, s: State, r: Bit, m: Fragment) returns (tr: seq<State>)
    requires SoloReader(from, from, s, r) && r in s.readers && s.readers[r].cur < U32
    requires var x := s.readers[r]; var t := At(s, x.cur);
             && m == Fragment(t.header, t.payload) && !x.pc.Test? && !x.pc.Cas?
             && (x.pc.Poll? ==> t.flag == Committed(x.cur)) && (x.pc.Payload? ==> x.pc.h == t.header)
             && (x.pc.LoadRc? ==> x.pc.m == m)
    ensures SoloReader(from, tr, SetPc(s, r, s.readers[r], LoadRc(m)), r)
  {
    var x := s.readers[r];
    var s1, s2, s3 := SetPc(s, r, x, Header), SetPc(s, r, x, Payload(m.header)), SetPc(s, r, x, LoadRc(m));
    tr := from;
    if x.pc.Poll? {
      assert SeeCommit(s, s1, r, x);
      tr := ReaderGoes(from, tr, s, s1, r);
    }
    assert x.pc.Header? ==> s1 == s;
    if x.pc.Poll? || x.pc.Header? {
      assert ReadHeader(s1, s2, r, s1.readers[r]);
      tr := ReaderGoes(from, tr, s1, s2, r);
    }
    assert x.pc.Payload? ==> s2 == s;
    if !x.pc.LoadRc? {
      assert ReadPayload(s2, s3, r, s2.readers[r]);
      tr := ReaderGoes(from, tr, s2, s3, r);
    }
    assert x.pc.LoadRc? ==> s3 == s;
  }

  lemma SoloRelease(from: seq<State>, tr: seq<State>, s: State, r: Bit, m: Fragment) returns (tr': seq<State>)
    requires r in s.readers && SoloReader(from, tr, SetPc(s, r, s.readers[r], LoadRc(m)), r)
    requires At(s, s.readers[r].cur).rc.marks != {}
    ensures SoloReader(from, tr', AfterPop(s, r, m), r)
  {
    var x := s.readers[r];
    var t := At(s, x.cur);
    var s3, s4 := SetPc(s, r, x, LoadRc(m)), SetPc(s, r, x, Test(m, t.rc));
    assert ReloadRc(s3, s4, r, s3.readers[r]);
    tr' := ReaderGoes(from, tr, s3, s4, r);
    var t' := if t.rc.marks - {r} == {} then t.(flag := Released(x.cur)) else t;
    var s5 := SetPc(SetSlot(s, x.cur, t'), r, x, Cas(m, t.rc));
    if t.rc.marks - {r} == {} {
      assert ReleaseEarly(s4, s5, r, s4.readers[r]);
    } else {
      assert SetSlot(s, x.cur, t) == s;
      assert NotLast(s4, s5, r, s4.readers[r]);
    }
    tr' := ReaderGoes(from, tr', s4, s5, r);
    tr' := SoloClear(from, tr', s, r, m, t');
  }

  lemma SoloClear(from: seq<State>, tr: seq<State>, s: State, r: Bit, m: Fragment, t: Slot) returns (tr': seq<State>)
    requires r in s.readers
    requires var x, u := s.readers[r], At(s, s.readers[r].cur);
             && t == (if u.rc.marks - {r} == {} then u.(flag := Released(x.cur)) else u)
             && SoloReader(from, tr, SetPc(SetSlot(s, x.cur, t), r, x, Cas(m, u.rc)), r)
    ensures SoloReader(from, tr', AfterPop(s, r, m), r)
  {
    var x := s.readers[r];
    var s5 := SetPc(SetSlot(s, x.cur, t), r, x, Cas(m, At(s, x.cur).rc));
    assert ClearWins(s5, AfterPop(s, r, m), r, s5.readers[r]);
    tr' := ReaderGoes(from, tr, s5, AfterPop(s, r, m), r);
  }
}
