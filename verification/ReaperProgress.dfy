/** What a reaper gets done: it looks at every bit of the mask it loaded before it goes on to
    connect, and a dead receiver whose record shows it dead is reaped by any reaper that runs
    alone. */
module ReaperProgress {
  import opened Processes
  import opened Reaper

  // Every bit is looked at --------------------------------------------------------------------

  /** In the loop of `reap_dead_receivers`. */
  predicate InLoop(x: Pc) {
    x.Reap? || x.RTok? || x.RAsk? || x.RCas? || x.RClearTok? || x.RClearBit?
  }

  lemma LoopStep(s: State, s': State, e: nat)
    requires EndpointStep(s, s', e) && InLoop(s.ends[e].pc)
    ensures e in s'.ends
    ensures var x, x' := s.ends[e].pc, s'.ends[e].pc;
            || (InLoop(x') && x'.todo == x.todo)
            || (InLoop(x') && exists b :: LoadPid(s, s', e, b) && x'.todo == x.todo - {b})
            || (x.todo == {} && x'.CTok?)
  {
  }

  lemma OtherEnds(s: State, s': State, d: nat, e: nat)
    requires EndpointStep(s, s', d) && e in s.ends && e != d
    ensures e in s'.ends && s'.ends[e] == s.ends[e]
  {
  }

  lemma EnvironmentEnds(s: State, s': State, e: nat)
    requires EnvironmentStep(s, s') && e in s.ends
    ensures e in s'.ends && s'.ends[e] == s.ends[e]
  {
  }

  /** In every step of every run: a reaper in its loop keeps the bits it has still to look at, takes
      one off by looking at its record, or goes on to claim a bit with none left. */
  lemma LoopMoves(tr: seq<State>, k: nat, e: nat)
    requires Run(tr) && 0 < k < |tr| && e in tr[k - 1].ends && InLoop(tr[k - 1].ends[e].pc)
    ensures e in tr[k].ends
    ensures var x, x' := tr[k - 1].ends[e].pc, tr[k].ends[e].pc;
            || (InLoop(x') && x'.todo == x.todo)
            || (InLoop(x') && exists b :: LoadPid(tr[k - 1], tr[k], e, b) && x'.todo == x.todo - {b})
            || (x.todo == {} && x'.CTok?)
  {
    assert StepAt(tr, k);
    var s, s' := tr[k - 1], tr[k];
    if EnvironmentStep(s, s') {
      EnvironmentEnds(s, s', e);
    } else {
      var d :| EndpointStep(s, s', d);
      if d == e { LoopStep(s, s', e); } else { OtherEnds(s, s', d, e); }
    }
  }

  /** Endpoint `e` is in its loop from state `j` to state `k`. */
  ghost predicate Loops(tr: seq<State>, j: nat, k: nat, e: nat) {
    j <= k < |tr| && forall i | j <= i <= k :: e in tr[i].ends && InLoop(tr[i].ends[e].pc)
  }

  ghost predicate LooksAt(tr: seq<State>, i: int, e: nat, b: Bit)
    requires 0 < i < |tr|
  {
    LoadPid(tr[i - 1], tr[i], e, b)
  }

  lemma {:induction false} Looked(tr: seq<State>, j: nat, k: nat, e: nat, b: Bit) returns (i: nat)
    requires Run(tr) && Loops(tr, j, k, e) && b in tr[j].ends[e].pc.todo && b !in tr[k].ends[e].pc.todo
    ensures j < i <= k && LooksAt(tr, i, e, b)
    decreases k
  {
    LoopMoves(tr, k, e);
    if b in tr[k - 1].ends[e].pc.todo {
      i := k;
    } else {
      i := Looked(tr, j, k - 1, e, b);
    }
  }

  /** A reaper that loads the mask in step `j` and claims a bit in step `k` has by then looked at the
      record of every bit of that mask. */
  lemma LooksAtEveryBit(tr: seq<State>, j: nat, k: nat, e: nat, b: Bit) returns (i: nat)
    requires Run(tr) && 0 < j < k < |tr| && LoadCc(tr[j - 1], tr[j], e) && Loops(tr, j, k - 1, e)
    requires e in tr[k].ends && !InLoop(tr[k].ends[e].pc) && b in tr[j - 1].cc
    ensures j < i < k && LooksAt(tr, i, e, b)
  {
    LoopMoves(tr, k, e);
    i := Looked(tr, j, k - 1, e, b);
  }

  // A reaper that runs alone ------------------------------------------------------------------

  ghost predicate EndpointStepAt(tr: seq<State>, k: int, e: nat)
    requires 0 < k < |tr|
  {
    EndpointStep(tr[k - 1], tr[k], e)
  }

  /** `tr` is a run that extends `from` by steps of endpoint `e` alone and ends in `s`. */
  ghost predicate Solo(from: seq<State>, tr: seq<State>, s: State, e: nat) {
    && Run(from) && from <= tr && Run(tr) && tr[|tr| - 1] == s
    && forall k | |from| <= k < |tr| :: EndpointStepAt(tr, k, e)
  }

  lemma Goes(from: seq<State>, tr: seq<State>, p: State, s: State, e: nat) returns (tr': seq<State>)
    requires Solo(from, tr, p, e) && EndpointStep(p, s, e)
    ensures Solo(from, tr', s, e)
  {
    tr' := tr + [s];
    forall k | 0 < k < |tr'| ensures StepAt(tr', k) { if k < |tr| { assert StepAt(tr, k); } }
    forall k | |from| <= k < |tr'| ensures EndpointStepAt(tr', k, e) {
      if k < |tr| { assert EndpointStepAt(tr, k, e); }
    }
  }

  /** The state after bit `b` has been reaped: the record and the bit are gone, its holder counts as
      reaped, and the reaper is on to the next bit. */
  function Reaped(s: State, e: nat, b: Bit, todo: set<Bit>): State
    requires e in s.ends
  {
    SetOwner(Set(s, e, Reap(todo)), b, s.table[b].(pid := 0, tok := 0, ver := s.table[b].ver + 1))
    .(cc := s.cc - {b}, holder := s.holder - {b},
      reaped := if b in s.holder then s.reaped + {s.holder[b]} else s.reaped)
  }

  lemma SoloFinds(from: seq<State>, s: State, e: nat, b: Bit, todo: set<Bit>) returns (tr: seq<State>)
    requires Solo(from, from, s, e) && Live(s, e) && s.ends[e].pc.Reap? && b in s.ends[e].pc.todo
    requires todo == s.ends[e].pc.todo - {b}
    requires var o := s.table[b]; o.pid != 0 && MayLookDead(s.procs, o.pid, o.tok)
    ensures Solo(from, tr, Set(s, e, RCas(todo, b, s.table[b].pid, s.table[b].ver)), e)
  {
    var o := s.table[b];
    var s1, s2 := Set(s, e, RTok(todo, b, o.pid, o.ver)), Set(s, e, RAsk(todo, b, o.pid, o.ver, o.tok));
    var s3 := Set(s, e, RCas(todo, b, o.pid, o.ver));
    assert LoadPid(s, s1, e, b);
    tr := Goes(from, from, s, s1, e);
    assert LoadTok(s1, s2, e);
    tr := Goes(from, tr, s1, s2, e);
    assert FoundDead(s2, s3, e);
    tr := Goes(from, tr, s2, s3, e);
  }

  /** A reaper that runs alone reaps a dead receiver: from any state of any run in which it has bit
      `b` still to look at and the record of `b` shows no running process. */
  lemma SoloReap(tr: seq<State>, e: nat, b: Bit) returns (tr': seq<State>)
    requires Run(tr)
    requires var s := tr[|tr| - 1]; var o := s.table[b];
             && Live(s, e) && s.ends[e].pc.Reap? && b in s.ends[e].pc.todo
             && o.pid != 0 && MayLookDead(s.procs, o.pid, o.tok)
    ensures var s := tr[|tr| - 1]; Solo(tr, tr', Reaped(s, e, b, s.ends[e].pc.todo - {b}), e)
  {
    var s := tr[|tr| - 1];
    var o, todo := s.table[b], s.ends[e].pc.todo - {b};
    tr' := SoloFinds(tr, s, e, b, todo);
    var s3 := Set(s, e, RCas(todo, b, o.pid, o.ver));
    var s4 := SetOwner(Set(s, e, RClearTok(todo, b, o.turn)), b, o.(pid := 0, ver := o.ver + 1));
    var s5 := SetOwner(Set(s, e, RClearBit(todo, b, o.turn)), b, o.(pid := 0, tok := 0, ver := o.ver + 1));
    assert ReapWins(s3, s4, e);
    tr' := Goes(tr, tr', s3, s4, e);
    assert ClearTok(s4, s5, e);
    tr' := Goes(tr, tr', s4, s5, e);
    assert ClearBit(s5, Reaped(s, e, b, todo), e);
    tr' := Goes(tr, tr', s5, Reaped(s, e, b, todo), e);
  }

  /** A reaper that has found a receiver dead takes its record exactly if it still shows that pid. */
  lemma CasIsExact(s: State, s': State, e: nat)
    requires EndpointStep(s, s', e) && s.ends[e].pc.RCas?
    ensures e in s'.ends && var x, x' := s.ends[e].pc, s'.ends[e].pc;
            && (x'.RClearTok? <==> s.table[x.b].pid == x.p) && (x' == Reap(x.todo) <==> s.table[x.b].pid != x.p)
            && s'.cc == s.cc && forall b: Bit | b != x.b || x'.Reap? :: s'.table[b] == s.table[b]
  {
  }

  lemma SoloSkip(from: seq<State>, tr: seq<State>, s: State, e: nat, b: Bit) returns (tr': seq<State>)
    requires Solo(from, tr, s, e) && Live(s, e) && s.ends[e].pc.Reap? && b in s.ends[e].pc.todo
    ensures Solo(from, tr', Set(s, e, Reap(s.ends[e].pc.todo - {b})), e)
  {
    var o, todo := s.table[b], s.ends[e].pc.todo - {b};
    var s1, s2 := Set(s, e, RTok(todo, b, o.pid, o.ver)), Set(s, e, RAsk(todo, b, o.pid, o.ver, o.tok));
    var s3 := Set(s, e, Reap(todo));
    if o.pid == 0 {
      assert LoadPid(s, s3, e, b);
      tr' := Goes(from, tr, s, s3, e);
    } else {
      assert LoadPid(s, s1, e, b);
      tr' := Goes(from, tr, s, s1, e);
      assert LoadTok(s1, s2, e);
      tr' := Goes(from, tr', s1, s2, e);
      assert SkipBit(s2, s3, e);
      tr' := Goes(from, tr', s2, s3, e);
    }
  }

  /** A reaper that runs alone and is told that every holder is alive gets through its mask and
      leaves everything as it was. */
  lemma {:induction false} SoloLook(from: seq<State>, tr: seq<State>, s: State, e: nat) returns (tr': seq<State>)
    requires Solo(from, tr, s, e) && Live(s, e) && s.ends[e].pc.Reap?
    ensures Solo(from, tr', Set(s, e, Reap({})), e)
    decreases |s.ends[e].pc.todo|
  {
    var todo := s.ends[e].pc.todo;
    if todo == {} {
      assert Set(s, e, Reap({})) == s;
      tr' := tr;
    } else {
      var b :| b in todo;
      var s1 := Set(s, e, Reap(todo - {b}));
      tr' := SoloSkip(from, tr, s, e, b);
      tr' := SoloLook(from, tr', s1, e);
      assert Set(s1, e, Reap({})) == Set(s, e, Reap({}));
    }
  }

  /** The state after endpoint `e` has connected on bit `b`. */
  function Recorded(s: State, e: nat, b: Bit): State
    requires Live(s, e)
  {
    var n, q, o := s.turns[b] + 1, s.procs[s.ends[e].proc], s.table[b];
    SetOwner(Set(s, e, Connected(b, n)), b, SlotOwner(q.pid, q.tok, o.ver + 1, n))
    .(cc := s.cc + {b}, holder := s.holder[b := e], turns := s.turns[b := n])
  }

  /** And with nothing left to look at it connects on any free bit and records itself. */
  lemma SoloConnect(tr: seq<State>, e: nat, b: Bit) returns (tr': seq<State>)
    requires Run(tr)
    requires var s := tr[|tr| - 1]; Live(s, e) && s.ends[e].pc == Reap({}) && b !in s.cc
    ensures Solo(tr, tr', Recorded(tr[|tr| - 1], e, b), e)
  {
    var s := tr[|tr| - 1];
    var n, q, o := s.turns[b] + 1, s.procs[s.ends[e].proc], s.table[b];
    var c := s.(cc := s.cc + {b}, holder := s.holder[b := e], turns := s.turns[b := n]);
    var s1, s2 := Set(c, e, CTok(b, n)), SetOwner(Set(c, e, CPid(b, n)), b, o.(tok := q.tok));
    assert Claim(s, s1, e, b);
    tr' := Goes(tr, tr, s, s1, e);
    assert StoreTok(s1, s2, e);
    tr' := Goes(tr, tr', s1, s2, e);
    assert StorePid(s2, Recorded(s, e, b), e);
    tr' := Goes(tr, tr', s2, Recorded(s, e, b), e);
  }
}
