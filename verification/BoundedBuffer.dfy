/** The bounded buffer over a mutex and two counting semaphores: any capacity, any number
    of producers and consumers.

    The mutex is taken as given: `Lock` is enabled only when nobody holds it. Semaphore
    waits are the load and compare-and-swap of the ulock backend, and a waiter may give
    up at any time. Every access to the shared ring is a step of its own. `written` and
    `taken`, the four sets and the post and wait counters are history variables. */
module BoundedBuffer {

  type Tid = nat
  type Item = string

  datatype Pc =
    | Idle
    | Loaded(cur: nat)
    | Token
    | Locked
    | Fetched(idx: nat)
    | Moved(idx: nat)
    | Unlocking
    | Posting
    | Gone

  datatype Role = Produce(item: Item) | Consume

  datatype Thread = Thread(role: Role, pc: Pc)

  datatype Semaphore = Semaphore(count: nat, initial: nat, posts: nat, waits: nat)

  /** `pIn`: producers with a token that have not written yet; `pOut`: those that have
      written and not posted; `cIn` and `cOut` likewise for consumers. */
  datatype State = State(
    cap: nat, empty: Semaphore, full: Semaphore, mutex: set<Tid>, head: nat, tail: nat, slots: seq<Item>,
    threads: map<Tid, Thread>, written: seq<Item>, taken: seq<Item>,
    pIn: set<Tid>, pOut: set<Tid>, cIn: set<Tid>, cOut: set<Tid>)

  ghost predicate Init(s: State) {
    && s.cap > 0 && |s.slots| == s.cap
    && s.empty == Semaphore(s.cap, s.cap, 0, 0) && s.full == Semaphore(0, 0, 0, 0)
    && s.mutex == {} && s.head == 0 && s.tail == 0 && s.written == [] && s.taken == []
    && s.pIn == {} && s.pOut == {} && s.cIn == {} && s.cOut == {}
    && forall t | t in s.threads :: s.threads[t].pc.Idle?
  }

  function Set(s: State, t: Tid, pc: Pc): State
    requires t in s.threads
  {
    s.(threads := s.threads[t := s.threads[t].(pc := pc)])
  }

  function Waited(c: Semaphore): Semaphore
    requires c.count > 0
  {
    c.(count := c.count - 1, waits := c.waits + 1)
  }

  function Posted(c: Semaphore): Semaphore {
    c.(count := c.count + 1, posts := c.posts + 1)
  }

  // Steps of either role ------------------------------------------------------------------------

  ghost predicate LoadCount(s: State, s': State, t: Tid)
    requires t in s.threads
  {
    && s.threads[t].pc.Idle?
    && s' == Set(s, t, Loaded((if s.threads[t].role.Produce? then s.empty else s.full).count))
  }

  /** A count of 0, a failed CAS or a spurious wake-up: load again; a timeout: give up. */
  ghost predicate WaitFails(s: State, s': State, t: Tid)
    requires t in s.threads
  {
    s.threads[t].pc.Loaded? && (s' == Set(s, t, Idle) || s' == Set(s, t, Gone))
  }

  ghost predicate Lock(s: State, s': State, t: Tid)
    requires t in s.threads
  {
    s.threads[t].pc.Token? && s.mutex == {} && s' == Set(s, t, Locked).(mutex := {t})
  }

  ghost predicate Unlock(s: State, s': State, t: Tid)
    requires t in s.threads
  {
    s.threads[t].pc.Unlocking? && s' == Set(s, t, Posting).(mutex := s.mutex - {t})
  }

  // Steps of a producer ---------------------------------------------------------------------------

  ghost predicate TakeEmpty(s: State, s': State, t: Tid)
    requires t in s.threads
  {
    && s.threads[t].role.Produce? && s.threads[t].pc.Loaded? && s.empty.count == s.threads[t].pc.cur > 0
    && s' == Set(s, t, Token).(empty := Waited(s.empty), pIn := s.pIn + {t})
  }

  ghost predicate FetchHead(s: State, s': State, t: Tid)
    requires t in s.threads
  {
    s.threads[t].role.Produce? && s.threads[t].pc.Locked? && s' == Set(s, t, Fetched(s.head))
  }

  ghost predicate MoveHead(s: State, s': State, t: Tid)
    requires t in s.threads
  {
    && s.threads[t].role.Produce? && s.threads[t].pc.Fetched? && s.cap > 0
    && s' == Set(s, t, Moved(s.threads[t].pc.idx)).(head := (s.threads[t].pc.idx + 1) % s.cap)
  }

  ghost predicate WriteSlot(s: State, s': State, t: Tid)
    requires t in s.threads
  {
    var x := s.threads[t];
    && x.role.Produce? && x.pc.Moved? && x.pc.idx < |s.slots|
    && s' == Set(s, t, Unlocking).(slots := s.slots[x.pc.idx := x.role.item], written := s.written + [x.role.item],
                                   pIn := s.pIn - {t}, pOut := s.pOut + {t})
  }

  /** Post `full` and go on to the next item, or stop. */
  ghost predicate PostFull(s: State, s': State, t: Tid, item: Item)
    requires t in s.threads
  {
    && s.threads[t].role.Produce? && s.threads[t].pc.Posting?
    && s' == s.(threads := s.threads[t := Thread(Produce(item), Idle)], full := Posted(s.full), pOut := s.pOut - {t})
  }

  // Steps of a consumer ---------------------------------------------------------------------------

  ghost predicate TakeFull(s: State, s': State, t: Tid)
    requires t in s.threads
  {
    && s.threads[t].role.Consume? && s.threads[t].pc.Loaded? && s.full.count == s.threads[t].pc.cur > 0
    && s' == Set(s, t, Token).(full := Waited(s.full), cIn := s.cIn + {t})
  }

  ghost predicate FetchTail(s: State, s': State, t: Tid)
    requires t in s.threads
  {
    s.threads[t].role.Consume? && s.threads[t].pc.Locked? && s' == Set(s, t, Fetched(s.tail))
  }

  ghost predicate MoveTail(s: State, s': State, t: Tid)
    requires t in s.threads
  {
    && s.threads[t].role.Consume? && s.threads[t].pc.Fetched? && s.cap > 0
    && s' == Set(s, t, Moved(s.threads[t].pc.idx)).(tail := (s.threads[t].pc.idx + 1) % s.cap)
  }

  ghost predicate ReadSlot(s: State, s': State, t: Tid)
    requires t in s.threads
  {
    var x := s.threads[t];
    && x.role.Consume? && x.pc.Moved? && x.pc.idx < |s.slots|
    && s' == Set(s, t, Unlocking).(taken := s.taken + [s.slots[x.pc.idx]], cIn := s.cIn - {t}, cOut := s.cOut + {t})
  }

  ghost predicate PostEmpty(s: State, s': State, t: Tid)
    requires t in s.threads
  {
    && s.threads[t].role.Consume? && s.threads[t].pc.Posting?
    && s' == Set(s, t, Idle).(empty := Posted(s.empty), cOut := s.cOut - {t})
  }

  ghost predicate SharedStep(s: State, s': State, t: Tid)
    requires t in s.threads
  {
    LoadCount(s, s', t) || WaitFails(s, s', t) || Lock(s, s', t) || Unlock(s, s', t)
  }

  ghost predicate ProducerStep(s: State, s': State, t: Tid)
    requires t in s.threads
  {
    || TakeEmpty(s, s', t) || FetchHead(s, s', t) || MoveHead(s, s', t) || WriteSlot(s, s', t)
    || exists item :: PostFull(s, s', t, item)
  }

  ghost predicate ConsumerStep(s: State, s': State, t: Tid)
    requires t in s.threads
  {
    TakeFull(s, s', t) || FetchTail(s, s', t) || MoveTail(s, s', t) || ReadSlot(s, s', t) || PostEmpty(s, s', t)
  }

  ghost predicate ThreadStep(s: State, s': State, t: Tid) {
    t in s.threads && (SharedStep(s, s', t) || ProducerStep(s, s', t) || ConsumerStep(s, s', t))
  }

  ghost predicate Step(s: State, s': State) {
    exists t :: ThreadStep(s, s', t)
  }

  ghost predicate StepAt(tr: seq<State>, k: int)
    requires 0 < k < |tr|
  {
    Step(tr[k - 1], tr[k])
  }

  ghost predicate Run(tr: seq<State>) {
    |tr| > 0 && Init(tr[0]) && forall k | 0 < k < |tr| :: StepAt(tr, k)
  }
}
