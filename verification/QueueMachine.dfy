/** CLockFreeQueue as a machine of atomic steps: any number of queues and threads
    over one shared node pool. Words carry versions that do not wrap here; the
    64-bit words of the program are in module CLockFreeQueue. */
module QueueMachine {
  import opened TaggedWord

  /** The template argument of the container. */
  type Data(==, !new)

  /** The fields of one queue object. */
  datatype Anchors = Anchors(head: Tagged, tail: Tagged, size: int, code: nat)

  datatype Outcome = Got(val: Data) | Short | Vacant

  /** Where a thread is: each case names the shared access it performs next,
      and carries the local variables that are live there. */
  datatype Local =
    | Idle
    | EnqFill(q: nat, val: Data, node: nat)                              // line 83
    | EnqSeal(q: nat, val: Data, node: nat)                              // line 84
    | EnqReadTail(q: nat, val: Data, node: nat)                          // line 91
    | EnqReadNext(q: nat, val: Data, node: nat, tl: Tagged)              // line 93
    | EnqLink(q: nat, val: Data, node: nat, tl: Tagged)                  // line 98
    | EnqHelp(q: nat, val: Data, node: nat, tl: Tagged, nxt: nat)        // line 103
    | EnqSwing(q: nat, val: Data, node: nat, tl: Tagged)                 // line 107
    | EnqCount(q: nat, val: Data)                                        // line 108
    | EnqDone(q: nat, val: Data)
    | DeqReserve(q: nat)                                                 // line 114
    | DeqRestore(q: nat)                                                 // line 116
    | DeqReadHead(q: nat)                                                // line 122
    | DeqReadNext(q: nat, hd: Tagged)                                    // line 124
    | DeqRecheck(q: nat, hd: Tagged)                                     // line 129
    | DeqReadTail(q: nat, hd: Tagged, nxt: nat)                          // line 134
    | DeqReadTailNext(q: nat, hd: Tagged, nxt: nat, tl: Tagged)          // line 136
    | DeqHelp(q: nat, tl: Tagged, nxt: nat)                              // line 141
    | DeqReadData(q: nat, hd: Tagged, nxt: nat)                          // line 145
    | DeqCas(q: nat, hd: Tagged, nxt: nat, val: Data)                    // line 146
    | DeqFree(q: nat, node: nat, val: Data)                              // line 148
    | DeqDone(q: nat, out: Outcome)
    | Faulted(q: nat)                                                    // read of an unmapped address

  /** What all threads share: node fields by address, the pool, the static code
      counter and the queue objects. */
  datatype Shared = Shared(
    next: map<nat, nat>,
    data: map<nat, Data>,
    pool: set<nat>,
    uniqueCode: nat,
    queues: seq<Anchors>)

  datatype Machine = Machine(sh: Shared, locals: seq<Local>)

  datatype Event =
    | Construct(dummy: nat, junk: Data)                     // the default constructor
    | Refill(node: nat, junk: Data)                        // the pool obtains a new node
    | CallEnqueue(t: nat, q: nat, val: Data, node: nat)     // line 82: Alloc returned node
    | CallDequeue(t: nat, q: nat)
    | Run(t: nat)                                           // the next shared access of thread t

  predicate AtRest(l: Local) {
    l.Idle? || l.EnqDone? || l.DeqDone?
  }

  predicate Fresh(s: Shared, a: nat) {
    0 < a < ADDR_LIMIT && a !in s.next && a !in s.data
  }

  /** The tail of queue q is the last node. */
  predicate TailIsLast(s: Shared, q: nat) {
    && q < |s.queues| && s.queues[q].tail.addr in s.next
    && s.next[s.queues[q].tail.addr] == s.queues[q].code
  }

  predicate CanCall(m: Machine, t: nat, q: nat) {
    t < |m.locals| && AtRest(m.locals[t]) && q < |m.sh.queues|
  }

  predicate CanRun(m: Machine, t: nat) {
    t < |m.locals| && !AtRest(m.locals[t]) && !m.locals[t].Faulted? && m.locals[t].q < |m.sh.queues|
  }

  /** The number of queues is kept small enough for codes to stay above all addresses. */
  predicate Enabled(m: Machine, e: Event) {
    match e
    case Construct(dummy, _) => Fresh(m.sh, dummy) && |m.sh.queues| < WORD_LIMIT - ADDR_LIMIT
    case Refill(node, _) => Fresh(m.sh, node)
    case CallEnqueue(t, q, _, node) => CanCall(m, t, q) && node in m.sh.pool
    case CallDequeue(t, q) => CanCall(m, t, q)
    case Run(t) => CanRun(m, t)
  }

  function Resize(s: Shared, q: nat, delta: int): Shared
    requires q < |s.queues|
  {
    s.(queues := s.queues[q := s.queues[q].(size := s.queues[q].size + delta)])
  }

  /** Compare-and-swap of a queue's tail word. */
  function CasTail(s: Shared, q: nat, expected: Tagged, node: nat): Shared
    requires q < |s.queues|
  {
    if s.queues[q].tail == expected
    then s.(queues := s.queues[q := s.queues[q].(tail := Tagged(node, expected.ver + 1))])
    else s
  }

  /** Compare-and-swap of a queue's head word. */
  function CasHead(s: Shared, q: nat, expected: Tagged, node: nat): Shared
    requires q < |s.queues|
  {
    if s.queues[q].head == expected
    then s.(queues := s.queues[q := s.queues[q].(head := Tagged(node, expected.ver + 1))])
    else s
  }

  function ConstructQueue(s: Shared, dummy: nat, junk: Data): Shared
  {
    var code := (s.uniqueCode + WORD_LIMIT - 1) % WORD_LIMIT;
    s.(next := s.next[dummy := code],
       data := s.data[dummy := junk],
       uniqueCode := code,
       queues := s.queues + [Anchors(Tagged(dummy, 0), Tagged(dummy, 0), 0, code)])
  }

  function RefillPool(s: Shared, node: nat, junk: Data): Shared
  {
    s.(next := s.next[node := 0], data := s.data[node := junk], pool := s.pool + {node})
  }

  /** One access of Enqueue, lines 83 to 108: the effect on what is shared. */
  function EnqueueEffect(s: Shared, l: Local): Shared
    requires !l.Idle? && l.q < |s.queues|
  {
    match l
    case EnqFill(q, val, node) => if node in s.next then s.(data := s.data[node := val]) else s
    case EnqSeal(q, val, node) =>
      if node in s.next then s.(next := s.next[node := s.queues[q].code]) else s
    case EnqLink(q, val, node, tl) =>
      if tl.addr in s.next && s.next[tl.addr] == s.queues[q].code
      then s.(next := s.next[tl.addr := node]) else s
    case EnqHelp(q, val, node, tl, nxt) => CasTail(s, q, tl, nxt)
    case EnqSwing(q, val, node, tl) => CasTail(s, q, tl, node)
    case EnqCount(q, val) => Resize(s, q, 1)
    case _ => s
  }

  /** One access of Enqueue: where the thread continues. */
  function EnqueueGoto(s: Shared, l: Local): Local
    requires !l.Idle? && l.q < |s.queues|
  {
    match l
    case EnqFill(q, val, node) => if node in s.next then EnqSeal(q, val, node) else Faulted(q)
    case EnqSeal(q, val, node) => if node in s.next then EnqReadTail(q, val, node) else Faulted(q)
    case EnqReadTail(q, val, node) => EnqReadNext(q, val, node, s.queues[q].tail)
    case EnqReadNext(q, val, node, tl) =>
      if tl.addr !in s.next then Faulted(q)
      else if s.next[tl.addr] == s.queues[q].code then EnqLink(q, val, node, tl)
      else EnqHelp(q, val, node, tl, s.next[tl.addr])
    case EnqLink(q, val, node, tl) =>
      if tl.addr !in s.next then Faulted(q)
      else if s.next[tl.addr] == s.queues[q].code then EnqSwing(q, val, node, tl)
      else EnqReadTail(q, val, node)
    case EnqHelp(q, val, node, tl, nxt) => EnqReadTail(q, val, node)
    case EnqSwing(q, val, node, tl) => EnqCount(q, val)
    case EnqCount(q, val) => EnqDone(q, val)
    case _ => l
  }

  /** One access of Dequeue, lines 114 to 152: the effect on what is shared. */
  function DequeueEffect(s: Shared, l: Local): Shared
    requires !l.Idle? && l.q < |s.queues|
  {
    match l
    case DeqReserve(q) => Resize(s, q, -1)
    case DeqRestore(q) => Resize(s, q, 1)
    case DeqHelp(q, tl, nxt) => CasTail(s, q, tl, nxt)
    case DeqCas(q, hd, nxt, val) => CasHead(s, q, hd, nxt)
    case DeqFree(q, node, val) => s.(pool := s.pool + {node})
    case _ => s
  }

  /** One access of Dequeue: where the thread continues. */
  function DequeueGoto(s: Shared, l: Local): Local
    requires !l.Idle? && l.q < |s.queues|
  {
    match l
    case DeqReserve(q) => if s.queues[q].size - 1 < 0 then DeqRestore(q) else DeqReadHead(q)
    case DeqRestore(q) => DeqDone(q, Short)
    case DeqReadHead(q) => DeqReadNext(q, s.queues[q].head)
    case DeqReadNext(q, hd) =>
      if hd.addr !in s.next then Faulted(q)
      else if s.next[hd.addr] == s.queues[q].code then DeqRecheck(q, hd)
      else DeqReadTail(q, hd, s.next[hd.addr])
    case DeqRecheck(q, hd) => if s.queues[q].head == hd then DeqDone(q, Vacant) else DeqReadHead(q)
    case DeqReadTail(q, hd, nxt) => DeqReadTailNext(q, hd, nxt, s.queues[q].tail)
    case DeqReadTailNext(q, hd, nxt, tl) =>
      if tl.addr !in s.next then Faulted(q)
      else if s.next[tl.addr] != s.queues[q].code then DeqHelp(q, tl, s.next[tl.addr])
      else DeqReadData(q, hd, nxt)
    case DeqHelp(q, tl, nxt) => DeqReadHead(q)
    case DeqReadData(q, hd, nxt) =>
      if nxt in s.data then DeqCas(q, hd, nxt, s.data[nxt]) else Faulted(q)
    case DeqCas(q, hd, nxt, val) =>
      if s.queues[q].head == hd then DeqFree(q, hd.addr, val) else DeqReadHead(q)
    case DeqFree(q, node, val) => DeqDone(q, Got(val))
    case _ => l
  }

  predicate Enqueuing(l: Local) {
    l.EnqFill? || l.EnqSeal? || l.EnqReadTail? || l.EnqReadNext? || l.EnqLink? || l.EnqHelp?
    || l.EnqSwing? || l.EnqCount?
  }

  /** The next shared access of thread t. */
  function RunThread(m: Machine, t: nat): Machine
    requires CanRun(m, t)
  {
    var l := m.locals[t];
    if Enqueuing(l) then Machine(EnqueueEffect(m.sh, l), m.locals[t := EnqueueGoto(m.sh, l)])
    else Machine(DequeueEffect(m.sh, l), m.locals[t := DequeueGoto(m.sh, l)])
  }

  function Next(m: Machine, e: Event): Machine
    requires Enabled(m, e)
  {
    match e
    case Construct(dummy, junk) => m.(sh := ConstructQueue(m.sh, dummy, junk))
    case Refill(node, junk) => m.(sh := RefillPool(m.sh, node, junk))
    case CallEnqueue(t, q, val, node) =>
      Machine(m.sh.(pool := m.sh.pool - {node}), m.locals[t := EnqFill(q, val, node)])
    case CallDequeue(t, q) => m.(locals := m.locals[t := DeqReserve(q)])
    case Run(t) => RunThread(m, t)
  }

  /** Nothing constructed, nothing allocated, all threads idle. */
  function Boot(threads: nat): Machine {
    Machine(Shared(map[], map[], {}, 0, []), seq(threads, _ => Idle))
  }
}
