/** The dead-receiver reaper (`reap_dead_receivers`) and the owner table, as a system of
    atomic steps: receivers that reap, claim a connection bit, record their ownership and
    disconnect, and processes that start, crash at any step, and reuse pids.

    Every load, store and CAS is a step of its own; the liveness check is conservative (see
    `Processes`). Nothing else is assumed of a run. `ver` (writes of a pid field), `turn`
    and `turns` (which claim of a bit wrote its record, and how many there were), `holder`
    and `reaped` are history variables. */
module Reaper {
  import opened Processes

  type Bit = b: nat | b < 32

  datatype SlotOwner = SlotOwner(pid: nat, tok: nat, ver: nat, turn: int)

  type Table = q: seq<SlotOwner> | |q| == 32 witness seq(32, _ => SlotOwner(0, 0, 0, 0))

  type Turns = q: seq<nat> | |q| == 32 witness seq(32, _ => 0)

  /** Where an endpoint stands: `R` in the reaping loop (`todo` bits still to look at), `C`
      in connecting, `L` in disconnecting. A holder knows the turn `n` of its claim; a
      reaper that is clearing, the turn of the record it took (-1 if the record was written
      between its read and its CAS). */
  datatype Pc =
    | Out
    | Reap(todo: set<Bit>)
    | RTok(todo: set<Bit>, b: Bit, p: nat, v: nat)
    | RAsk(todo: set<Bit>, b: Bit, p: nat, v: nat, tok: nat)
    | RCas(todo: set<Bit>, b: Bit, p: nat, v: nat)
    | RClearTok(todo: set<Bit>, b: Bit, n: int)
    | RClearBit(todo: set<Bit>, b: Bit, n: int)
    | CTok(b: Bit, n: int)
    | CPid(b: Bit, n: int)
    | Connected(b: Bit, n: int)
    | LPid(b: Bit)
    | LTok(b: Bit)

  datatype Endpoint = Endpoint(proc: nat, pc: Pc)

  /** `holder[b]` is the endpoint that claimed bit `b`; `reaped` are the endpoints whose
      bit a reaper has cleared. */
  datatype State = State(
    cc: set<Bit>, table: Table, procs: Procs, ends: map<nat, Endpoint>,
    turns: Turns, holder: map<Bit, nat>, reaped: set<nat>)

  ghost predicate Init(s: State) {
    && s.cc == {} && s.procs == map[] && s.ends == map[] && s.holder == map[] && s.reaped == {}
    && (forall b: Bit :: s.table[b] == SlotOwner(0, 0, 0, 0) && s.turns[b] == 0)
  }

  function Set(s: State, e: nat, pc: Pc): State
    requires e in s.ends
  {
    s.(ends := s.ends[e := s.ends[e].(pc := pc)])
  }

  function SetOwner(s: State, b: Bit, o: SlotOwner): State {
    s.(table := s.table[b := o])
  }

  predicate Live(s: State, e: nat) {
    e in s.ends && Running(s.procs, s.ends[e].proc)
  }

  // The environment -----------------------------------------------------------------------

  ghost predicate Spawn(s: State, s': State, p: nat, pid: nat, tok: nat) {
    Starts(s.procs, s'.procs, p, pid, tok) && s' == s.(procs := s'.procs)
  }

  ghost predicate Open(s: State, s': State, e: nat, p: nat) {
    e !in s.ends && Running(s.procs, p) && s' == s.(ends := s.ends[e := Endpoint(p, Out)])
  }

  ghost predicate Crash(s: State, s': State, p: nat) {
    Stops(s.procs, s'.procs, p) && s' == s.(procs := s'.procs)
  }

  // reap_dead_receivers ---------------------------------------------------------------------

  ghost predicate LoadCc(s: State, s': State, e: nat) {
    Live(s, e) && s.ends[e].pc.Out? && s' == Set(s, e, Reap(s.cc))
  }

  ghost predicate LoadPid(s: State, s': State, e: nat, b: Bit) {
    && Live(s, e) && s.ends[e].pc.Reap? && b in s.ends[e].pc.todo
    && var todo := s.ends[e].pc.todo - {b};
       s' == Set(s, e, if s.table[b].pid == 0 then Reap(todo) else RTok(todo, b, s.table[b].pid, s.table[b].ver))
  }

  ghost predicate LoadTok(s: State, s': State, e: nat) {
    && Live(s, e) && s.ends[e].pc.RTok?
    && var x := s.ends[e].pc; s' == Set(s, e, RAsk(x.todo, x.b, x.p, x.v, s.table[x.b].tok))
  }

  ghost predicate FoundDead(s: State, s': State, e: nat) {
    && Live(s, e) && s.ends[e].pc.RAsk?
    && var x := s.ends[e].pc; MayLookDead(s.procs, x.p, x.tok) && s' == Set(s, e, RCas(x.todo, x.b, x.p, x.v))
  }

  /** Found alive, or the owner changed under the CAS. */
  ghost predicate SkipBit(s: State, s': State, e: nat) {
    && Live(s, e)
    && (s.ends[e].pc.RAsk? || (s.ends[e].pc.RCas? && s.table[s.ends[e].pc.b].pid != s.ends[e].pc.p))
    && s' == Set(s, e, Reap(s.ends[e].pc.todo))
  }

  /** The CAS compares the pid alone. */
  ghost predicate ReapWins(s: State, s': State, e: nat) {
    && Live(s, e) && s.ends[e].pc.RCas?
    && var x := s.ends[e].pc; var o := s.table[x.b];
       && o.pid == x.p
       && s' == SetOwner(Set(s, e, RClearTok(x.todo, x.b, if o.ver == x.v then o.turn else -1)), x.b,
                         o.(pid := 0, ver := o.ver + 1))
  }

  ghost predicate ClearTok(s: State, s': State, e: nat) {
    && Live(s, e) && s.ends[e].pc.RClearTok?
    && var x := s.ends[e].pc; s' == SetOwner(Set(s, e, RClearBit(x.todo, x.b, x.n)), x.b, s.table[x.b].(tok := 0))
  }

  ghost predicate ClearBit(s: State, s': State, e: nat) {
    && Live(s, e) && s.ends[e].pc.RClearBit?
    && var x := s.ends[e].pc;
       s' == Set(s, e, Reap(x.todo)).(cc := s.cc - {x.b}, holder := s.holder - {x.b},
                                      reaped := if x.b in s.holder then s.reaped + {s.holder[x.b]} else s.reaped)
  }

  // Connecting --------------------------------------------------------------------------------

  ghost predicate Claim(s: State, s': State, e: nat, b: Bit) {
    && Live(s, e) && s.ends[e].pc.Reap? && s.ends[e].pc.todo == {} && b !in s.cc
    && var n := s.turns[b] + 1;
       s' == Set(s, e, CTok(b, n)).(cc := s.cc + {b}, holder := s.holder[b := e], turns := s.turns[b := n])
  }

  /** `set_owner`: the start token (or 0 if it could not be read), then the pid. */
  ghost predicate StoreTok(s: State, s': State, e: nat) {
    && Live(s, e) && s.ends[e].pc.CTok?
    && var x := s.ends[e].pc; var q := s.procs[s.ends[e].proc];
       exists tok | tok == q.tok || tok == 0 ::
           s' == SetOwner(Set(s, e, CPid(x.b, x.n)), x.b, s.table[x.b].(tok := tok))
  }

  ghost predicate StorePid(s: State, s': State, e: nat) {
    && Live(s, e) && s.ends[e].pc.CPid?
    && var x := s.ends[e].pc; var o := s.table[x.b];
       s' == SetOwner(Set(s, e, Connected(x.b, x.n)), x.b,
                      SlotOwner(s.procs[s.ends[e].proc].pid, o.tok, o.ver + 1, x.n))
  }

  // Disconnecting: the bit, then the pid, then the token ----------------------------------------

  ghost predicate DropBit(s: State, s': State, e: nat) {
    && Live(s, e) && s.ends[e].pc.Connected?
    && var b := s.ends[e].pc.b; s' == Set(s, e, LPid(b)).(cc := s.cc - {b}, holder := s.holder - {b})
  }

  ghost predicate DropPid(s: State, s': State, e: nat) {
    && Live(s, e) && s.ends[e].pc.LPid?
    && var b := s.ends[e].pc.b; var o := s.table[b];
         s' == SetOwner(Set(s, e, LTok(b)), b, o.(pid := 0, ver := o.ver + 1))
  }

  ghost predicate DropTok(s: State, s': State, e: nat) {
    && Live(s, e) && s.ends[e].pc.LTok?
    && var b := s.ends[e].pc.b; s' == SetOwner(Set(s, e, Out), b, s.table[b].(tok := 0))
  }

  ghost predicate ReadStep(s: State, s': State, e: nat) {
    LoadCc(s, s', e) || (exists b :: LoadPid(s, s', e, b)) || LoadTok(s, s', e) || SkipBit(s, s', e)
  }

  ghost predicate HolderStep(s: State, s': State, e: nat) {
    || (exists b :: Claim(s, s', e, b)) || StoreTok(s, s', e) || StorePid(s, s', e)
    || DropBit(s, s', e) || DropPid(s, s', e) || DropTok(s, s', e)
  }

  ghost predicate EndpointStep(s: State, s': State, e: nat) {
    || ReadStep(s, s', e) || FoundDead(s, s', e) || ReapWins(s, s', e) || ClearTok(s, s', e) || ClearBit(s, s', e)
    || HolderStep(s, s', e)
  }

  ghost predicate EnvironmentStep(s: State, s': State) {
    || (exists p, pid, tok :: Spawn(s, s', p, pid, tok)) || (exists e, p :: Open(s, s', e, p))
    || (exists p :: Crash(s, s', p))
  }

  ghost predicate Step(s: State, s': State) {
    EnvironmentStep(s, s') || exists e :: EndpointStep(s, s', e)
  }

  ghost predicate StepAt(tr: seq<State>, k: int)
    requires 0 < k < |tr|
  {
    Step(tr[k - 1], tr[k])
  }

  ghost predicate Run(tr: seq<State>) {
    |tr| > 0 && Init(tr[0]) && forall k | 0 < k < |tr| :: StepAt(tr, k)
  }
}
