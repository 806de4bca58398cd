/** CLockFreeStack as a machine of atomic steps: any number of stacks and threads over one
    shared node pool. */
module StackMachine {

  /** The template argument of the container. */
  type Item(==, !new)

  /** The fields of one stack object: the pointer and version that Pop swaps together, and
      the address of the embedded dummy node. The null pointer is address 0. */
  datatype Anchor = Anchor(top: nat, uniqIdx: nat, dummy: nat)

  datatype Answer = Value(val: Item) | Nothing

  /** Each case names the shared access the thread performs next. */
  datatype Local =
    | Idle
    | PushFill(s: nat, val: Item, node: nat)                  // line 59
    | PushRead(s: nat, val: Item, node: nat)                  // line 62
    | PushLink(s: nat, val: Item, node: nat, bkTop: nat)      // line 63
    | PushCas(s: nat, val: Item, node: nat, bkTop: nat)       // line 64
    | PushDone(s: nat, val: Item)
    | PopReadIdx(s: nat)                                      // line 74
    | PopReadTop(s: nat, idx: nat)                            // line 75
    | PopReadNext(s: nat, idx: nat, top: nat)                 // line 76
    | PopCas(s: nat, idx: nat, top: nat, nxt: nat)            // line 84
    | PopReadData(s: nat, top: nat)                           // line 86
    | PopFree(s: nat, top: nat, val: Item)                    // line 87
    | PopDone(s: nat, ans: Answer)
    | Faulted(s: nat)

  datatype Shared = Shared(
    next: map<nat, nat>,
    data: map<nat, Item>,
    pool: set<nat>,
    stacks: seq<Anchor>)

  datatype Machine = Machine(sh: Shared, locals: seq<Local>)

  datatype Event =
    | Construct(dummy: nat, junk: Item)
    | Refill(node: nat, junk: Item)
    | CallPush(t: nat, s: nat, val: Item, node: nat)     // line 58: Alloc returned node
    | CallPop(t: nat, s: nat)
    | Run(t: nat)

  predicate AtRest(l: Local) {
    l.Idle? || l.PushDone? || l.PopDone?
  }

  predicate Fresh(sh: Shared, a: nat) {
    0 < a && a !in sh.next && a !in sh.data
  }

  predicate CanCall(m: Machine, t: nat, s: nat) {
    t < |m.locals| && AtRest(m.locals[t]) && s < |m.sh.stacks|
  }

  predicate CanRun(m: Machine, t: nat) {
    t < |m.locals| && !AtRest(m.locals[t]) && !m.locals[t].Faulted? && m.locals[t].s < |m.sh.stacks|
  }

  predicate Enabled(m: Machine, e: Event) {
    match e
    case Construct(dummy, _) => Fresh(m.sh, dummy)
    case Refill(node, _) => Fresh(m.sh, node)
    case CallPush(t, s, _, node) => CanCall(m, t, s) && node in m.sh.pool
    case CallPop(t, s) => CanCall(m, t, s)
    case Run(t) => CanRun(m, t)
  }

  /** The effect of one access on what is shared. */
  function Effect(sh: Shared, l: Local): Shared
    requires !l.Idle? && l.s < |sh.stacks|
  {
    match l
    case PushFill(_, val, node) => if node in sh.next then sh.(data := sh.data[node := val]) else sh
    case PushLink(_, _, node, bkTop) => if node in sh.next then sh.(next := sh.next[node := bkTop]) else sh
    case PushCas(s, _, node, bkTop) =>
      if sh.stacks[s].top == bkTop
      then sh.(stacks := sh.stacks[s := sh.stacks[s].(top := node)]) else sh
    case PopCas(s, idx, top, nxt) =>
      if sh.stacks[s].top == top && sh.stacks[s].uniqIdx == idx
      then sh.(stacks := sh.stacks[s := sh.stacks[s].(top := nxt, uniqIdx := idx + 1)]) else sh
    case PopFree(_, top, _) => sh.(pool := sh.pool + {top})
    case _ => sh
  }

  /** Where the thread continues. */
  function Goto(sh: Shared, l: Local): Local
    requires !l.Idle? && l.s < |sh.stacks|
  {
    match l
    case PushFill(s, val, node) => if node in sh.next then PushRead(s, val, node) else Faulted(s)
    case PushRead(s, val, node) => PushLink(s, val, node, sh.stacks[s].top)
    case PushLink(s, val, node, bkTop) => if node in sh.next then PushCas(s, val, node, bkTop) else Faulted(s)
    case PushCas(s, val, node, bkTop) =>
      if sh.stacks[s].top == bkTop then PushDone(s, val) else PushRead(s, val, node)
    case PopReadIdx(s) => PopReadTop(s, sh.stacks[s].uniqIdx)
    case PopReadTop(s, idx) => PopReadNext(s, idx, sh.stacks[s].top)
    case PopReadNext(s, idx, top) =>
      if top !in sh.next then Faulted(s)
      else if sh.next[top] == 0 then PopDone(s, Nothing)
      else PopCas(s, idx, top, sh.next[top])
    case PopCas(s, idx, top, nxt) =>
      if sh.stacks[s].top == top && sh.stacks[s].uniqIdx == idx then PopReadData(s, top) else PopReadIdx(s)
    case PopReadData(s, top) => if top in sh.data then PopFree(s, top, sh.data[top]) else Faulted(s)
    case PopFree(s, _, val) => PopDone(s, Value(val))
    case _ => l
  }

  function RunThread(m: Machine, t: nat): Machine
    requires CanRun(m, t)
  {
    Machine(Effect(m.sh, m.locals[t]), m.locals[t := Goto(m.sh, m.locals[t])])
  }

  function Next(m: Machine, e: Event): Machine
    requires Enabled(m, e)
  {
    match e
    case Construct(dummy, junk) =>
      m.(sh := m.sh.(next := m.sh.next[dummy := 0], data := m.sh.data[dummy := junk],
                     stacks := m.sh.stacks + [Anchor(dummy, 0, dummy)]))
    case Refill(node, junk) =>
      m.(sh := m.sh.(next := m.sh.next[node := 0], data := m.sh.data[node := junk],
                     pool := m.sh.pool + {node}))
    case CallPush(t, s, val, node) =>
      Machine(m.sh.(pool := m.sh.pool - {node}), m.locals[t := PushFill(s, val, node)])
    case CallPop(t, s) => m.(locals := m.locals[t := PopReadIdx(s)])
    case Run(t) => RunThread(m, t)
  }

  function Boot(threads: nat): Machine {
    Machine(Shared(map[], map[], {}, []), seq(threads, _ => Idle))
  }
}
