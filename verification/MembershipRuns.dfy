/** Two runs in which the channel's writers claim one position twice. In both, writer 0 has
    claimed position 0 for receiver 0, receiver 1 then claims its bit and receiver 0 leaves,
    so that writer 1 loads a mask in which none of the slot's marks is left. */
module MembershipRuns {
  import opened RingWords
  import opened ChannelRing
  import opened ChannelMembers
  import opened MembershipGap
  import ChannelOrder
  import ChannelProgress

  /** A ring with receivers `cc`, slot 0 as `t`, and two writers. */
  function Ring(cc: set<Bit>, ct: nat, t: Slot, x: Writer, y: Writer, log: seq<Claim>): State {
    var blank := seq(RING, i => Slot(Rc(0, 0, {}), 0, [], [], i - RING, false));
    State(cc, 0, ct, map[0 := 0], blank[0 := t], map[0 := x, 1 := y], map b | b in cc :: Reader(0, Poll, []), log,
          map b | b in cc :: 0)
  }

  /** A step of writer 0 that changes slot 0. */
  lemma SetsSlot(cc: set<Bit>, ct: nat, t: Slot, t': Slot, x: Writer, x': Writer, y: Writer, log: seq<Claim>)
    ensures SetWriter(SetSlot(Ring(cc, ct, t, x, y, log), 0, t'), 0, x') == Ring(cc, ct, t', x', y, log)
  {
    var s, s' := SetWriter(SetSlot(Ring(cc, ct, t, x, y, log), 0, t'), 0, x'), Ring(cc, ct, t', x', y, log);
    assert s.slots == s'.slots && s.writers == s'.writers;
  }

  /** Before receiver 1 comes. */
  function Early(t: Slot, x: Writer, log: seq<Claim>): World {
    World(Ring({0}, 0, t, x, WIdle, log), map[], map[])
  }

  /** Once receiver 0 has left. */
  function Late(ct: nat, t: Slot, x: Writer, y: Writer, log: seq<Claim>): World {
    World(Ring({1}, ct, t, x, y, log), map[], map[0 := CBit(0, 1)])
  }

  const FREE := Slot(Rc(0, 0, {}), 0, [], [], 0 - RING, false)
  const CLAIMED := Slot(Rc(0, 1, {0}), 0, [], [], 0, true)

  ghost predicate Reaches(tr: seq<World>, u: World) {
    History(tr) && tr[|tr| - 1] == u
  }

  lemma Extend(tr: seq<World>, p: World, u: World) returns (tr': seq<World>)
    requires Reaches(tr, p) && Next(p, u)
    ensures Reaches(tr', u) && tr' == tr + [u]
  {
    tr' := tr + [u];
    forall k | 0 < k < |tr'| ensures NextAt(tr', k) { if k < |tr| { assert NextAt(tr, k); } }
  }

  lemma Go(tr: seq<World>, p: World, u: World, w: Tid) returns (tr': seq<World>)
    requires Reaches(tr, p) && w in p.ring.writers && !p.ring.writers[w].WMarks?
    requires WriterStep(p.ring, u.ring, w, p.ring.writers[w]) && u == p.(ring := u.ring)
    ensures Reaches(tr', u) && tr' == tr + [u]
  {
    assert Writes(p, u, w);
    tr' := Extend(tr, p, u);
  }

  /** Writer 0 loads the mask. */
  lemma FirstStarts(m: Fragment) returns (tr: seq<World>)
    ensures Reaches(tr, Early(FREE, WCc(m, 0, {0}), []))
  {
    var u0, u1, u2 := Early(FREE, WIdle, []), Early(FREE, WLoop(m, 0), []), Early(FREE, WCc(m, 0, {0}), []);
    tr := [u0];
    assert u1.ring == SetWriter(u0.ring, 0, WLoop(m, 0)) && u2.ring == SetWriter(u1.ring, 0, WCc(m, 0, {0}));
    assert Begin(u0.ring, u1.ring, 0, u0.ring.writers[0], m);
    tr := Go(tr, u0, u1, 0);
    assert LoadCc(u1.ring, u2.ring, 0, u1.ring.writers[0]);
    tr := Go(tr, u1, u2, 0);
  }

  /** Writer 0 loads index and `rc_`. */
  lemma FirstLoads(m: Fragment) returns (tr: seq<World>)
    ensures Reaches(tr, Early(FREE, WRc(m, 0, {0}, 0, FREE.rc), []))
  {
    tr := FirstStarts(m);
    var u2, u3 := Early(FREE, WCc(m, 0, {0}), []), Early(FREE, WCt(m, 0, {0}, 0), []);
    var u4 := Early(FREE, WRc(m, 0, {0}, 0, FREE.rc), []);
    assert u3.ring == SetWriter(u2.ring, 0, WCt(m, 0, {0}, 0));
    assert LoadCt(u2.ring, u3.ring, 0, u2.ring.writers[0]);
    tr := Go(tr, u2, u3, 0);
    assert u4.ring == SetWriter(u3.ring, 0, WRc(m, 0, {0}, 0, FREE.rc));
    assert LoadSlotRc(u3.ring, u4.ring, 0, u3.ring.writers[0]);
    tr := Go(tr, u3, u4, 0);
  }

  /** Writer 0 claims position 0. */
  lemma FirstClaims(m: Fragment) returns (tr: seq<World>)
    ensures Reaches(tr, Early(CLAIMED, WClaimed(m, 0, 0), [Claim(0, m)]))
  {
    tr := FirstLoads(m);
    var u4, u5 := Early(FREE, WRc(m, 0, {0}, 0, FREE.rc), []), Early(FREE, WFree(m, 0, {0}, 0, FREE.rc), []);
    var u6 := Early(CLAIMED, WClaimed(m, 0, 0), [Claim(0, m)]);
    assert u5.ring == SetWriter(u4.ring, 0, WFree(m, 0, {0}, 0, FREE.rc));
    assert Decide(u4.ring, u5.ring, 0, u4.ring.writers[0]);
    tr := Go(tr, u4, u5, 0);
    SetsSlot({0}, 0, FREE, CLAIMED, u5.ring.writers[0], WClaimed(m, 0, 0), WIdle, []);
    assert ClaimWins(u5.ring, u6.ring, 0, u5.ring.writers[0]);
    tr := Go(tr, u5, u6, 0);
  }

  /** With both receivers connected. */
  function Both(x: Writer, log: seq<Claim>): World {
    World(Ring({0, 1}, 0, CLAIMED, x, WIdle, log), map[], map[0 := CBit(0, 1)])
  }

  lemma SecondJoins(tr: seq<World>, x: Writer, log: seq<Claim>) returns (tr': seq<World>)
    requires Reaches(tr, Early(CLAIMED, x, log))
    ensures Reaches(tr', Both(x, log))
  {
    var u0 := Early(CLAIMED, x, log);
    var u1 := u0.(conns := map[0 := CCursor(0)]);
    var u2 := Both(x, log);
    assert ReadCursor(u0, u1, 0);
    assert ConnStep(u0, u1, 0);
    tr' := Extend(tr, u0, u1);
    assert u2.ring == Joined(u1.ring, 1);
    assert ClaimBit(u1, u2, 0, 1);
    assert ConnStep(u1, u2, 0);
    tr' := Extend(tr', u1, u2);
  }

  /** Receiver 1 claims its bit and receiver 0 leaves. */
  lemma Swap(tr: seq<World>, x: Writer, log: seq<Claim>) returns (tr': seq<World>)
    requires Reaches(tr, Early(CLAIMED, x, log))
    ensures Reaches(tr', Late(0, CLAIMED, x, WIdle, log))
  {
    tr' := SecondJoins(tr, x, log);
    var u2, u3 := Both(x, log), Late(0, CLAIMED, x, WIdle, log);
    assert u3.ring == Left(u2.ring, 0);
    assert Leave(u2, u3, 0);
    tr' := Extend(tr', u2, u3);
  }

  /** Writer 1 loads mask and index. */
  lemma SecondLoads(m: Fragment) returns (tr: seq<World>)
    ensures Reaches(tr, Late(0, CLAIMED, WClaimed(m, 0, 0), WCt(m, 0, {1}, 0), [Claim(0, m)]))
  {
    var x, log := WClaimed(m, 0, 0), [Claim(0, m)];
    tr := FirstClaims(m);
    tr := Swap(tr, x, log);
    var u0, u1 := Late(0, CLAIMED, x, WIdle, log), Late(0, CLAIMED, x, WLoop(m, 0), log);
    var u2, u3 := Late(0, CLAIMED, x, WCc(m, 0, {1}), log), Late(0, CLAIMED, x, WCt(m, 0, {1}, 0), log);
    assert u1.ring == SetWriter(u0.ring, 1, WLoop(m, 0)) && u2.ring == SetWriter(u1.ring, 1, WCc(m, 0, {1}));
    assert Begin(u0.ring, u1.ring, 1, u0.ring.writers[1], m);
    tr := Go(tr, u0, u1, 1);
    assert LoadCc(u1.ring, u2.ring, 1, u1.ring.writers[1]);
    tr := Go(tr, u1, u2, 1);
    assert u3.ring == SetWriter(u2.ring, 1, WCt(m, 0, {1}, 0));
    assert LoadCt(u2.ring, u3.ring, 1, u2.ring.writers[1]);
    tr := Go(tr, u2, u3, 1);
  }

  /** Writer 1, with mask {1} and index 0, is let in at slot 0 as long as its only mark is 0's,
      and claims position 0 again. */
  lemma SecondClaims(tr: seq<World>, ct: nat, t: Slot, x: Writer, m: Fragment, log: seq<Claim>)
    returns (tr': seq<World>)
    requires Reaches(tr, Late(ct, t, x, WCt(m, 0, {1}, 0), log)) && t.rc == Rc(0, 1, {0}) && t.pos == 0
    requires |log| < POSITIONS
    ensures History(tr') && |tr'| > 1 && Overclaims(tr', |tr'| - 1)
    ensures tr'[|tr'| - 2] == Late(ct, t, x, WFree(m, 0, {1}, 0, t.rc), log)
    ensures ClaimsAt(tr', |tr'| - 1, 1, 0)
  {
    var t' := t.(rc := Rc(0, 2, {1}), open := true);
    var u0, u1 := Late(ct, t, x, WCt(m, 0, {1}, 0), log), Late(ct, t, x, WRc(m, 0, {1}, 0, t.rc), log);
    var u2 := Late(ct, t, x, WFree(m, 0, {1}, 0, t.rc), log);
    var u3 := Late(ct, t', x, WClaimed(m, 0, 0), log + [Claim(1, m)]);
    assert u1.ring == SetWriter(u0.ring, 1, WRc(m, 0, {1}, 0, t.rc));
    assert LoadSlotRc(u0.ring, u1.ring, 1, u0.ring.writers[1]);
    tr' := Go(tr, u0, u1, 1);
    assert {1} * t.rc.marks == {};
    assert u2.ring == SetWriter(u1.ring, 1, WFree(m, 0, {1}, 0, t.rc));
    assert Decide(u1.ring, u2.ring, 1, u1.ring.writers[1]);
    tr' := Go(tr', u1, u2, 1);
    assert u3.ring == SetWriter(SetSlot(u2.ring, 0, t'), 1, WClaimed(m, 0, 0)).(log := log + [Claim(1, m)]);
    assert ClaimWins(u2.ring, u3.ring, 1, u2.ring.writers[1]);
    tr' := Go(tr', u2, u3, 1);
    assert ChannelOrder.Claims(u2.ring, u3.ring, 1, 0) && At(u2.ring, 0).pos == 0;
  }

  /** The first claim still pending: two writers hold a claim of position 0. */
  lemma ClaimedTwice(m: Fragment) returns (tr: seq<World>)
    ensures History(tr) && |tr| > 1 && Overclaims(tr, |tr| - 1)
    ensures ClaimsAt(tr, |tr| - 1, 1, 0)
    ensures var s := tr[|tr| - 2].ring; 0 in s.writers && s.writers[0] == WClaimed(m, 0, 0)
  {
    tr := SecondLoads(m);
    tr := SecondClaims(tr, 0, CLAIMED, WClaimed(m, 0, 0), m, [Claim(0, m)]);
  }

  /** Writer 0 goes on to store `ct_`. */
  lemma FirstAdvances(m: Fragment) returns (tr: seq<World>)
    ensures Reaches(tr, Late(1, CLAIMED, WHeader(m, 0), WCt(m, 0, {1}, 0), [Claim(0, m)]))
  {
    var y, log := WCt(m, 0, {1}, 0), [Claim(0, m)];
    tr := SecondLoads(m);
    var u0, u1 := Late(0, CLAIMED, WClaimed(m, 0, 0), y, log), Late(0, CLAIMED, WOwner(m, 0), y, log);
    var u2 := Late(1, CLAIMED, WHeader(m, 0), y, log);
    assert u1.ring == SetWriter(u0.ring, 0, WOwner(m, 0));
    assert Revalidate(u0.ring, u1.ring, 0, u0.ring.writers[0]);
    tr := Go(tr, u0, u1, 0);
    assert u2.ring == SetWriter(u1.ring, 0, WHeader(m, 0)).(ct := 1);
    assert AdvanceCt(u1.ring, u2.ring, 0, u1.ring.writers[0]);
    tr := Go(tr, u1, u2, 0);
  }

  /** Slot 0 once writer 0 has committed `m` there. */
  function Written(m: Fragment): Slot {
    CLAIMED.(header := m.header, payload := m.payload, flag := Committed(0), open := false)
  }

  lemma FirstWrites(m: Fragment) returns (tr: seq<World>)
    ensures Reaches(tr, Late(1, CLAIMED.(header := m.header, payload := m.payload), WCommit(m, 0),
                             WCt(m, 0, {1}, 0), [Claim(0, m)]))
  {
    var y, log := WCt(m, 0, {1}, 0), [Claim(0, m)];
    tr := FirstAdvances(m);
    var t1, t2 := CLAIMED.(header := m.header), CLAIMED.(header := m.header, payload := m.payload);
    var u0, u1 := Late(1, CLAIMED, WHeader(m, 0), y, log), Late(1, t1, WPayload(m, 0), y, log);
    var u2 := Late(1, t2, WCommit(m, 0), y, log);
    SetsSlot({1}, 1, CLAIMED, t1, WHeader(m, 0), WPayload(m, 0), y, log);
    assert WriteHeader(u0.ring, u1.ring, 0, u0.ring.writers[0]);
    tr := Go(tr, u0, u1, 0);
    SetsSlot({1}, 1, t1, t2, WPayload(m, 0), WCommit(m, 0), y, log);
    assert WritePayload(u1.ring, u2.ring, 0, u1.ring.writers[0]);
    tr := Go(tr, u1, u2, 0);
  }

  /** Writer 0 writes its element and commits it. */
  lemma FirstCommits(m: Fragment) returns (tr: seq<World>)
    ensures Reaches(tr, Late(1, Written(m), WMarks(0), WCt(m, 0, {1}, 0), [Claim(0, m)]))
  {
    var y, log := WCt(m, 0, {1}, 0), [Claim(0, m)];
    tr := FirstWrites(m);
    var u2 := Late(1, CLAIMED.(header := m.header, payload := m.payload), WCommit(m, 0), y, log);
    var u3 := Late(1, Written(m), WMarks(0), y, log);
    SetsSlot({1}, 1, u2.ring.slots[0], Written(m), WCommit(m, 0), WMarks(0), y, log);
    assert Commit(u2.ring, u3.ring, 0, u2.ring.writers[0]);
    tr := Go(tr, u2, u3, 0);
  }

  /** No claim pending: writer 1 kept its index from before writer 0 advanced `ct_`, and
      claims position 0 over the committed element of writer 0. */
  lemma ClaimedLate(m: Fragment) returns (tr: seq<World>)
    ensures History(tr) && |tr| > 1 && Overclaims(tr, |tr| - 1) && ClaimsAt(tr, |tr| - 1, 1, 0)
    ensures var s := tr[|tr| - 2].ring;
            ChannelProgress.NonePending(s) && s.ct == 1 && |s.log| == 1 && At(s, 0).flag == Committed(0)
  {
    tr := FirstCommits(m);
    tr := SecondClaims(tr, 1, Written(m), WMarks(0), m, [Claim(0, m)]);
  }
}
