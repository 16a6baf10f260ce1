/** What holds the writer of a route up, and that nothing else does: no leftover mark, and no
    bit without a holder. */
module RouteProgress {
  import opened RingWords
  import opened RouteRing
  import opened RouteOrder
  import opened RouteCalls

  // Every bit of the mask has a holder ----------------------------------------------------------

  ghost predicate HeldBy(s: State, b: Bit, r: Rid) {
    r in s.receivers && Held(s.receivers[r]) && s.receivers[r].bit == b
  }

  ghost predicate MaskHeld(s: State) {
    forall b | b in s.cc :: exists r :: HeldBy(s, b, r)
  }

  /** Nobody gave up or took a bit. */
  ghost predicate SameHolders(s: State, s': State) {
    s'.cc == s.cc && forall b, r | HeldBy(s, b, r) :: HeldBy(s', b, r)
  }

  lemma WriterHolders(s: State, s': State)
    requires WriterStep(s, s')
    ensures SameHolders(s, s')
  {
  }

  lemma HoldersKeep(s: State, s': State)
    requires MaskHeld(s) && Step(s, s')
    ensures MaskHeld(s')
  {
    forall b | b in s'.cc ensures exists r :: HeldBy(s', b, r) {
      if WriterStep(s, s') {
        WriterHolders(s, s');
        var r :| HeldBy(s, b, r);
        assert HeldBy(s', b, r);
      } else {
        var q :| q in s.receivers && ReceiverStep(s, s', q, s.receivers[q]);
        BitStaysHeld(s, s', q, b);
      }
    }
  }

  lemma BitStaysHeld(s: State, s': State, q: Rid, b: Bit)
    requires MaskHeld(s) && q in s.receivers && ReceiverStep(s, s', q, s.receivers[q]) && b in s'.cc
    ensures exists r :: HeldBy(s', b, r)
  {
    if b in s.cc {
      var r :| HeldBy(s, b, r);
      if r != q { OthersStand(s, s', q, r); } else { OwnStays(s, s', q); }
      assert HeldBy(s', b, r);
    } else {
      NewBitHeld(s, s', q, b);
    }
  }

  lemma OwnStays(s: State, s': State, q: Rid)
    requires q in s.receivers && ReceiverStep(s, s', q, s.receivers[q]) && Held(s.receivers[q])
    requires s.receivers[q].bit in s'.cc
    ensures HeldBy(s', s.receivers[q].bit, q)
  {
  }

  lemma NewBitHeld(s: State, s': State, q: Rid, b: Bit)
    requires q in s.receivers && ReceiverStep(s, s', q, s.receivers[q]) && b in s'.cc && b !in s.cc
    ensures HeldBy(s', b, q)
  {
  }

  /** In every run, every bit of the connection mask is held by a receiver. */
  lemma {:induction false} EveryBitHeld(tr: seq<State>, k: nat)
    requires Run(tr) && k < |tr|
    ensures MaskHeld(tr[k])
  {
    if k > 0 {
      EveryBitHeld(tr, k - 1);
      assert StepAt(tr, k);
      HoldersKeep(tr[k - 1], tr[k]);
    }
  }

  // What holds the writer up ------------------------------------------------------------------

  /** Every connected receiver has stored `since` and has read the element one lap before
      the write cursor. */
  ghost predicate AllSettled(s: State) {
    forall r | r in s.receivers && Held(s.receivers[r]) ::
        !s.receivers[r].phase.Claimed? && Settled(s.receivers[r], s.wt)
  }

  /** Then no mark on the next slot counts as live, for any bit of the mask. */
  lemma LeftoversDoNotBlock(tr: seq<State>, k: nat, b: Bit)
    requires Run(tr) && k < |tr| && !Stamped(tr[k].writer) && AllSettled(tr[k])
    requires b in tr[k].cc && b in At(tr[k], tr[k].wt).marks
    ensures !Live(tr[k].wt, tr[k].since[b])
  {
    EveryBitHeld(tr, k);
    var r :| HeldBy(tr[k], b, r);
    BlockedExactly(tr, k, r);
  }

  /** And conversely: a writer about to claim finds every connected receiver past it. */
  lemma AdmittedMeansRead(tr: seq<State>, k: nat, r: Rid)
    requires Run(tr) && k < |tr| && tr[k].writer.WCas? && r in tr[k].receivers && Held(tr[k].receivers[r])
    ensures tr[k].writer.w == tr[k].wt && Settled(tr[k].receivers[r], tr[k].wt)
  {
    RunInv(tr, k);
  }

  // A push that runs alone --------------------------------------------------------------------

  ghost predicate WriterStepAt(tr: seq<State>, k: int)
    requires 0 < k < |tr|
  {
    WriterStep(tr[k - 1], tr[k])
  }

  /** `tr` is a run that extends `from` by steps of the writer alone and ends in `s`. */
  ghost predicate Solo(from: seq<State>, tr: seq<State>, s: State) {
    && Run(from) && from <= tr && Run(tr) && tr[|tr| - 1] == s
    && forall k | |from| <= k < |tr| :: WriterStepAt(tr, k)
  }

  lemma Goes(from: seq<State>, tr: seq<State>, p: State, s: State) returns (tr': seq<State>)
    requires Solo(from, tr, p) && WriterStep(p, s)
    ensures Solo(from, tr', s)
  {
    tr' := tr + [s];
    forall k | 0 < k < |tr'| ensures StepAt(tr', k) { if k < |tr| { assert StepAt(tr, k); } }
    forall k | |from| <= k < |tr'| ensures WriterStepAt(tr', k) { if k < |tr| { assert WriterStepAt(tr, k); } }
  }

  /** From the top of the claim loop to the load of the next slot's marks. */
  lemma SoloLoad(from: seq<State>, tr: seq<State>, s: State, m: Fragment) returns (tr': seq<State>)
    requires Solo(from, tr, s.(writer := WLoop(m))) && s.cc != {}
    ensures var rc := At(s, s.wt).marks; Solo(from, tr', s.(writer := WScan(m, s.cc, s.wt, rc, s.cc * rc, {})))
  {
    var rc := At(s, s.wt).marks;
    var s1, s2 := s.(writer := WLoop(m)), s.(writer := WCc(m, s.cc));
    var s3, s4 := s.(writer := WWt(m, s.cc, s.wt)), s.(writer := WScan(m, s.cc, s.wt, rc, s.cc * rc, {}));
    assert LoadCc(s1, s2);
    tr' := Goes(from, tr, s1, s2);
    assert LoadWt(s2, s3);
    tr' := Goes(from, tr', s2, s3);
    assert LoadMarks(s3, s4);
    tr' := Goes(from, tr', s3, s4);
  }

  lemma {:induction false} SoloLeaveScan(from: seq<State>, tr: seq<State>, s: State) returns (tr': seq<State>)
    requires Solo(from, tr, s) && s.writer.WScan?
    ensures Solo(from, tr', s.(writer := WLoop(s.writer.msg)))
    decreases s.writer.todo
  {
    var x := s.writer;
    if x.todo != {} {
      var b :| b in x.todo;
      var s1 := s.(writer := x.(todo := x.todo - {b}, live := if Live(x.w, s.since[b]) then x.live + {b} else x.live));
      assert LookUp(s, s1, b);
      tr' := Goes(from, tr, s, s1);
      tr' := SoloLeaveScan(from, tr', s1);
    } else {
      var s1 := s.(writer := if x.live != {} then WLoop(x.msg) else WCas(x.msg, x.cc, x.w, x.rc));
      assert EndScan(s, s1);
      tr' := Goes(from, tr, s, s1);
      if s1.writer.WCas? {
        assert StampFails(s1, s.(writer := WLoop(x.msg)));
        tr' := Goes(from, tr', s1, s.(writer := WLoop(x.msg)));
      }
    }
  }

  /** A push short of its claim can always start over with fresh loads. */
  lemma SoloRestart(from: seq<State>, s: State) returns (tr: seq<State>)
    requires Solo(from, from, s) && !s.writer.WIdle? && !Stamped(s.writer)
    ensures Solo(from, tr, s.(writer := WLoop(s.writer.msg)))
  {
    var x, s' := s.writer, s;
    tr := from;
    if x.WCc? {
      s' := s.(writer := WWt(x.msg, x.cc, s.wt));
      assert LoadWt(s, s');
      tr := Goes(from, tr, s, s');
    }
    if s'.writer.WWt? {
      var rc := At(s, s'.writer.w).marks;
      var s1 := s.(writer := WScan(x.msg, x.cc, s'.writer.w, rc, x.cc * rc, {}));
      assert LoadMarks(s', s1);
      tr := Goes(from, tr, s', s1);
      s' := s1;
    }
    if s'.writer.WScan? { tr := SoloLeaveScan(from, tr, s'); }
    if x.WCas? {
      assert StampFails(s, s.(writer := WLoop(x.msg)));
      tr := Goes(from, tr, s, s.(writer := WLoop(x.msg)));
    }
  }

  /** The loop of `live_marks`, when it finds nothing live. */
  lemma {:induction false} SoloScan(from: seq<State>, tr: seq<State>, s: State, m: Fragment, rc: set<Bit>,
      todo: set<Bit>)
      returns (tr': seq<State>)
    requires Solo(from, tr, s.(writer := WScan(m, s.cc, s.wt, rc, todo, {})))
    requires forall b | b in todo :: !Live(s.wt, s.since[b])
    ensures Solo(from, tr', s.(writer := WCas(m, s.cc, s.wt, rc)))
    decreases todo
  {
    var s0 := s.(writer := WScan(m, s.cc, s.wt, rc, todo, {}));
    if todo == {} {
      assert EndScan(s0, s.(writer := WCas(m, s.cc, s.wt, rc)));
      tr' := Goes(from, tr, s0, s.(writer := WCas(m, s.cc, s.wt, rc)));
    } else {
      var b :| b in todo;
      var s1 := s.(writer := WScan(m, s.cc, s.wt, rc, todo - {b}, {}));
      assert LookUp(s0, s1, b);
      tr' := Goes(from, tr, s0, s1);
      tr' := SoloScan(from, tr', s, m, rc, todo - {b});
    }
  }

  /** A push past its claim: the slot, the writer and the cursor as given. */
  function Pushing(s: State, m: Fragment, t: Slot, x: Writer, wt: nat): State {
    SetSlot(s, s.wt, t).(writer := x, wt := wt, log := s.log + [m], stamps := s.stamps + [s.cc])
  }

  function Stamp(s: State): Slot {
    At(s, s.wt).(marks := s.cc, pos := s.wt)
  }

  /** The state after a whole push, all else as it was. */
  function Pushed(s: State, m: Fragment): State {
    Pushing(s, m, Stamp(s).(header := m.header, payload := m.payload), WIdle, s.wt + 1)
  }

  lemma SoloWrite(from: seq<State>, tr: seq<State>, s: State, m: Fragment) returns (tr': seq<State>)
    requires Solo(from, tr, s.(writer := WCas(m, s.cc, s.wt, At(s, s.wt).marks)))
    requires forall r | r in s.receivers :: !Missed(s.receivers[r], s.cc)
    ensures Solo(from, tr',
        Pushing(s, m, Stamp(s).(header := m.header, payload := m.payload), WPublish(m, s.cc, s.wt), s.wt))
  {
    var w, t := s.wt, Stamp(s);
    var s0, s1 := s.(writer := WCas(m, s.cc, w, At(s, w).marks)), Pushing(s, m, t, WHeader(m, s.cc, w), w);
    var s2 := Pushing(s, m, t.(header := m.header), WPayload(m, s.cc, w), w);
    var s3 := Pushing(s, m, t.(header := m.header, payload := m.payload), WPublish(m, s.cc, w), w);
    assert Skip(s0, s.cc) == s.receivers;
    assert StampWins(s0, s1);
    tr' := Goes(from, tr, s0, s1);
    assert WriteHeader(s1, s2);
    tr' := Goes(from, tr', s1, s2);
    assert WritePayload(s2, s3);
    tr' := Goes(from, tr', s2, s3);
  }

  /** From the top of the claim loop to the return. */
  lemma SoloPushOn(from: seq<State>, tr: seq<State>, s: State, m: Fragment) returns (tr': seq<State>)
    requires Run(from) && from[|from| - 1] == s && !Stamped(s.writer) && Solo(from, tr, s.(writer := WLoop(m)))
    requires s.cc != {} && AllSettled(s) && MayPublish(s)
    ensures Solo(from, tr', Pushed(s, m))
  {
    var rc := At(s, s.wt).marks;
    tr' := SoloLoad(from, tr, s, m);
    forall b | b in s.cc * rc ensures !Live(s.wt, s.since[b]) { LeftoversDoNotBlock(from, |from| - 1, b); }
    tr' := SoloScan(from, tr', s, m, rc, s.cc * rc);
    NobodyMissed(from, |from| - 1);
    tr' := SoloWrite(from, tr', s, m);
    var s3 := Pushing(s, m, Stamp(s).(header := m.header, payload := m.payload), WPublish(m, s.cc, s.wt), s.wt);
    assert Publish(s3, Pushed(s, m));
    tr' := Goes(from, tr', s3, Pushed(s, m));
  }

  lemma NobodyMissed(tr: seq<State>, k: nat)
    requires Run(tr) && k < |tr|
    ensures forall r | r in tr[k].receivers :: !Missed(tr[k].receivers[r], tr[k].cc)
  {
    RunInv(tr, k);
    forall r | r in tr[k].receivers ensures !Missed(tr[k].receivers[r], tr[k].cc) {
      assert Held(tr[k].receivers[r]) ==> ReceiverOk(tr[k], r);
    }
  }

  /** A push that runs alone completes: from any state of any run in which the writer is idle,
      somebody is connected, and every connected receiver has stored `since` and read the
      element one lap before, whatever marks previous owners left. */
  lemma SoloPush(tr: seq<State>, m: Fragment) returns (tr': seq<State>)
    requires Run(tr)
    requires var s := tr[|tr| - 1]; s.writer.WIdle? && s.cc != {} && AllSettled(s) && MayPublish(s)
    ensures Solo(tr, tr', Pushed(tr[|tr| - 1], m))
  {
    var s := tr[|tr| - 1];
    assert BeginPush(s, s.(writer := WLoop(m)), m);
    tr' := Goes(tr, tr, s, s.(writer := WLoop(m)));
    tr' := SoloPushOn(tr, tr', s, m);
  }

  /** So does one that was stopped anywhere before its claim, whatever it had loaded. */
  lemma SoloResume(tr: seq<State>) returns (tr': seq<State>)
    requires Run(tr)
    requires var s := tr[|tr| - 1];
             !s.writer.WIdle? && !Stamped(s.writer) && s.cc != {} && AllSettled(s) && MayPublish(s)
    ensures Solo(tr, tr', Pushed(tr[|tr| - 1], tr[|tr| - 1].writer.msg))
  {
    var s := tr[|tr| - 1];
    tr' := SoloRestart(tr, s);
    tr' := SoloPushOn(tr, tr', s, s.writer.msg);
  }

  /** And one stopped anywhere after it, whoever is held up by now. */
  lemma SoloFinish(tr: seq<State>) returns (tr': seq<State>, s': State)
    requires Run(tr) && Stamped(tr[|tr| - 1].writer) && MayPublish(tr[|tr| - 1])
    ensures Solo(tr, tr', s') && s'.writer.WIdle? && s'.wt == tr[|tr| - 1].wt + 1 && s'.log == tr[|tr| - 1].log
  {
    tr', s' := tr, tr[|tr| - 1];
    var x := s'.writer;
    if s'.writer.WHeader? {
      var s1 := SetSlot(s', x.w, At(s', x.w).(header := x.msg.header)).(writer := WPayload(x.msg, x.cc, x.w));
      assert WriteHeader(s', s1);
      tr' := Goes(tr, tr', s', s1);
      s' := s1;
    }
    if s'.writer.WPayload? {
      var s1 := SetSlot(s', x.w, At(s', x.w).(payload := x.msg.payload)).(writer := WPublish(x.msg, x.cc, x.w));
      assert WritePayload(s', s1);
      tr' := Goes(tr, tr', s', s1);
      s' := s1;
    }
    assert Publish(s', s'.(writer := WIdle, wt := s'.wt + 1));
    tr' := Goes(tr, tr', s', s'.(writer := WIdle, wt := s'.wt + 1));
    s' := s'.(writer := WIdle, wt := s'.wt + 1);
  }

  /** The run hypotheses on one more push: fewer than 256 during a connect, fewer than 2^31
      during a connection. */
  ghost predicate MayPublish(s: State) {
    && (forall r | r in s.receivers && Joining(s.receivers[r]) :: s.wt + 1 < s.receivers[r].since + RING)
    && (forall r | r in s.receivers && Held(s.receivers[r]) :: s.wt + 1 < s.receivers[r].since + POSITIONS)
  }

  // A receive that runs alone -----------------------------------------------------------------

  ghost predicate ReceiverStepAt(tr: seq<State>, k: int, r: Rid)
    requires 0 < k < |tr|
  {
    r in tr[k - 1].receivers && ReceiverStep(tr[k - 1], tr[k], r, tr[k - 1].receivers[r])
  }

  /** `tr` is a run that extends `from` by steps of receiver `r` alone and ends in `s`. */
  ghost predicate SoloReceiver(from: seq<State>, tr: seq<State>, s: State, r: Rid) {
    && Run(from) && from <= tr && Run(tr) && tr[|tr| - 1] == s
    && forall k | |from| <= k < |tr| :: ReceiverStepAt(tr, k, r)
  }

  lemma ReceiverGoes(from: seq<State>, tr: seq<State>, p: State, s: State, r: Rid) returns (tr': seq<State>)
    requires SoloReceiver(from, tr, p, r) && r in p.receivers && ReceiverStep(p, s, r, p.receivers[r])
    ensures SoloReceiver(from, tr', s, r)
  {
    tr' := tr + [s];
    forall k | 0 < k < |tr'| ensures StepAt(tr', k) { if k < |tr| { assert StepAt(tr, k); } }
    forall k | |from| <= k < |tr'| ensures ReceiverStepAt(tr', k, r) {
      if k < |tr| { assert ReceiverStepAt(tr, k, r); }
    }
  }

  /** The state after a whole receive of `m`, all else as it was. */
  function AfterPop(s: State, r: Rid, m: Fragment): State
    requires r in s.receivers
  {
    var x := s.receivers[r];
    Set(SetSlot(s, x.cur, At(s, x.cur).(marks := At(s, x.cur).marks - {x.bit})), r, Popped(x, m))
  }

  /** From the release of the slot's mark on. */
  lemma SoloRelease(from: seq<State>, tr: seq<State>, s: State, r: Rid, m: Fragment) returns (tr': seq<State>)
    requires r in s.receivers && SoloReceiver(from, tr, Set(s, r, s.receivers[r].(phase := LoadRc(m))), r)
    requires At(s, s.receivers[r].cur).marks != {}
    ensures SoloReceiver(from, tr', AfterPop(s, r, m), r)
  {
    var x := s.receivers[r];
    var s3, s4 := Set(s, r, x.(phase := LoadRc(m))), Set(s, r, x.(phase := Cas(m, At(s, x.cur).marks)));
    assert ReloadRc(s3, s4, r, s3.receivers[r]);
    tr' := ReceiverGoes(from, tr, s3, s4, r);
    assert ClearWins(s4, AfterPop(s, r, m), r, s4.receivers[r]);
    tr' := ReceiverGoes(from, tr', s4, AfterPop(s, r, m), r);
  }

  /** From any point of a receive to the release: what is still to be copied is copied. */
  lemma SoloRead(from: seq<State>, s: State, r: Rid, m: Fragment) returns (tr: seq<State>)
    requires SoloReceiver(from, from, s, r) && r in s.receivers
    requires var x := s.receivers[r];
             && ((x.phase.Poll? && x.cur != s.wt) || Reading(x))
             && m == Fragment(At(s, x.cur).header, At(s, x.cur).payload)
             && (x.phase.Payload? ==> x.phase.h == m.header) && (x.phase.LoadRc? || x.phase.Cas? ==> x.phase.m == m)
    ensures SoloReceiver(from, tr, Set(s, r, s.receivers[r].(phase := LoadRc(m))), r)
  {
    var x := s.receivers[r];
    tr := from;
    var s1, s2 := Set(s, r, x.(phase := Header)), Set(s, r, x.(phase := Payload(m.header)));
    var s3 := Set(s, r, x.(phase := LoadRc(m)));
    if x.phase.Poll? {
      assert SeeElement(s, s1, r, x);
      tr := ReceiverGoes(from, tr, s, s1, r);
    }
    assert x.phase.Header? ==> s1 == s;
    if x.phase.Poll? || x.phase.Header? {
      assert ReadHeader(s1, s2, r, s1.receivers[r]);
      tr := ReceiverGoes(from, tr, s1, s2, r);
    }
    assert x.phase.Payload? ==> s2 == s;
    if x.phase.Poll? || x.phase.Header? || x.phase.Payload? {
      assert ReadPayload(s2, s3, r, s2.receivers[r]);
      tr := ReceiverGoes(from, tr, s2, s3, r);
    }
    assert x.phase.LoadRc? ==> s3 == s;
    if x.phase.Cas? {
      assert ClearFails(s, s3, r, x);
      tr := ReceiverGoes(from, tr, s, s3, r);
    }
  }

  /** A receive that runs alone completes: from any state of any run in which a polling receiver is
      behind the write cursor, and from any later point of it, it pops the element at its
      cursor. */
  lemma SoloPop(tr: seq<State>, r: Rid) returns (tr': seq<State>)
    requires Run(tr) && r in tr[|tr| - 1].receivers
    requires var s, x := tr[|tr| - 1], tr[|tr| - 1].receivers[r]; (x.phase.Poll? && x.cur != s.wt) || Reading(x)
    ensures var s := tr[|tr| - 1];
        s.receivers[r].cur < |s.log| && SoloReceiver(tr, tr', AfterPop(s, r, s.log[s.receivers[r].cur]), r)
  {
    var s := tr[|tr| - 1];
    AtCursor(tr, |tr| - 1, r);
    var m := s.log[s.receivers[r].cur];
    tr' := SoloRead(tr, s, r, m);
    tr' := SoloRelease(tr, tr', s, r, m);
  }

  /** The element at the cursor of a receiver that has one to read. */
  lemma AtCursor(tr: seq<State>, k: nat, r: Rid)
    requires Run(tr) && k < |tr| && r in tr[k].receivers
    requires var s, x := tr[k], tr[k].receivers[r]; (x.phase.Poll? && x.cur != s.wt) || Reading(x)
    ensures var s, x := tr[k], tr[k].receivers[r];
            && x.cur < |s.log| && At(s, x.cur).marks != {}
            && s.log[x.cur] == Fragment(At(s, x.cur).header, At(s, x.cur).payload)
            && (x.phase.Payload? ==> x.phase.h == s.log[x.cur].header)
            && (x.phase.LoadRc? || x.phase.Cas? ==> x.phase.m == s.log[x.cur])
  {
    var s, x := tr[k], tr[k].receivers[r];
    RunInv(tr, k);
    assert ReceiverOk(s, r) && Marked(s, x.cur, x.bit) && SlotOk(s, Index(x.cur));
  }

  // A connect that runs alone -----------------------------------------------------------------

  /** A connect that runs alone while no push is in its window gets any free bit and starts at the
      write cursor. */
  lemma SoloJoin(tr: seq<State>, r: Rid, b: Bit) returns (tr': seq<State>)
    requires Run(tr) && r in tr[|tr| - 1].receivers
    requires var s := tr[|tr| - 1]; s.receivers[r].phase.Away? && b !in s.cc && !InWindow(s.writer)
    ensures var s := tr[|tr| - 1];
            SoloReceiver(tr, tr', Set(s.(cc := s.cc + {b}, since := s.since[b := s.wt]), r,
                                      Receiver(Poll, b, s.wt, s.wt, s.wt, s.wt, [])), r)
  {
    var s := tr[|tr| - 1];
    var x, w := s.receivers[r], s.wt;
    var c := s.(cc := s.cc + {b});
    var d := c.(since := s.since[b := w]);
    var s1, s2 := Set(s, r, x.(phase := CursorRead, since := w)), Set(c, r, Receiver(Claimed, b, w, w, 0, 0, []));
    var s3 := Set(d, r, Receiver(SinceStored, b, w, w, 0, 0, []));
    var s4 := Set(d, r, Receiver(Walking(0), b, w, w, 0, w, []));
    var s5 := Set(d, r, Receiver(Poll, b, w, w, w, w, []));
    assert ReadCursor(s, s1, r, x);
    tr' := ReceiverGoes(tr, tr, s, s1, r);
    assert ClaimBit(s1, s2, r, s1.receivers[r], b);
    tr' := ReceiverGoes(tr, tr', s1, s2, r);
    assert StoreSince(s2, s3, r, s2.receivers[r]);
    tr' := ReceiverGoes(tr, tr', s2, s3, r);
    assert LoadCursor(s3, s4, r, s3.receivers[r]);
    tr' := ReceiverGoes(tr, tr', s3, s4, r);
    assert Walk(s4, s5, r, s4.receivers[r]);
    tr' := ReceiverGoes(tr, tr', s4, s5, r);
  }

  /** A lone disconnect of a polling receiver clears its bit. */
  lemma SoloLeave(tr: seq<State>, r: Rid) returns (tr': seq<State>)
    requires Run(tr) && r in tr[|tr| - 1].receivers && tr[|tr| - 1].receivers[r].phase.Poll?
    ensures var s := tr[|tr| - 1]; var x := s.receivers[r];
            && x.bit in s.cc && SoloReceiver(tr, tr', Set(s.(cc := s.cc - {x.bit}), r, x.(phase := Away)), r)
  {
    var s := tr[|tr| - 1];
    var x := s.receivers[r];
    RunInv(tr, |tr| - 1);
    assert ReceiverOk(s, r);
    var s1 := Set(s.(cc := s.cc - {x.bit}), r, x.(phase := Away));
    assert Leave(s, s1, r, x);
    tr' := ReceiverGoes(tr, tr, s, s1, r);
  }
}
