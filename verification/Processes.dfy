/** Processes that start, crash and reuse pids, and the liveness check on a recorded pid. */
module Processes {

  datatype Process = Process(pid: nat, tok: nat, live: bool)

  type Procs = map<nat, Process>

  predicate Running(procs: Procs, p: nat) {
    p in procs && procs[p].live
  }

  /** When `is_process_alive(pid, tok)` may answer no: no running process has that pid, or
      the one that has it shows another start token. */
  ghost predicate MayLookDead(procs: Procs, pid: int, tok: nat) {
    forall q | q in procs && procs[q].live && procs[q].pid == pid :: tok != 0 && procs[q].tok != tok
  }

  /** A process starts with a pid no running process has. */
  ghost predicate Starts(procs: Procs, procs': Procs, p: nat, pid: nat, tok: nat) {
    && p !in procs && pid > 0
    && (forall q | q in procs && procs[q].live :: procs[q].pid != pid)
    && procs' == procs[p := Process(pid, tok, true)]
  }

  ghost predicate Stops(procs: Procs, procs': Procs, p: nat) {
    p in procs && procs' == procs[p := procs[p].(live := false)]
  }
}
