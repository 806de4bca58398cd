/** Auxiliary history of a run of StackMachine: the atomic operations in the order in which
    they take effect, and the invariant that ties them to the memory. */
module StackHistory {
  import opened StackMachine

  /** An operation of the atomic stack. */
  datatype Op = Pushed(val: Item) | Popped(val: Item) | FoundEmpty

  /** The atomic stack itself, top last: what a sequence of operations leaves, or nothing
      if some operation could not have had its result. */
  datatype Replayed = Legitimate(vals: seq<Item>) | Impossible

  function Apply(r: Replayed, op: Op): Replayed {
    if r.Impossible? then Impossible
    else match op
      case Pushed(val) => Legitimate(r.vals + [val])
      case Popped(val) =>
        if |r.vals| > 0 && r.vals[|r.vals| - 1] == val then Legitimate(r.vals[..|r.vals| - 1]) else Impossible
      case FoundEmpty => if r.vals == [] then r else Impossible
  }

  function Replay(ops: seq<Op>): Replayed {
    if ops == [] then Legitimate([]) else Apply(Replay(ops[..|ops| - 1]), ops[|ops| - 1])
  }

  lemma ReplayPush(ops: seq<Op>, op: Op)
    ensures Replay(ops + [op]) == Apply(Replay(ops), op)
  {
    assert (ops + [op])[..|ops + [op]| - 1] == ops;
  }

  function Pops(ops: seq<Op>): nat {
    if ops == [] then 0 else Pops(ops[..|ops| - 1]) + (if ops[|ops| - 1].Popped? then 1 else 0)
  }

  lemma PopsPush(ops: seq<Op>, op: Op)
    ensures Pops(ops + [op]) == Pops(ops) + (if op.Popped? then 1 else 0)
  {
    assert (ops + [op])[..|ops + [op]| - 1] == ops;
  }

  /** chain: the nodes of the stack from the dummy up; vals: the values above the dummy;
      ops: the operations in order of effect; wins: successful compare-and-swaps. */
  datatype SHist = SHist(chain: seq<nat>, vals: seq<Item>, ops: seq<Op>, wins: nat)

  datatype Owner =
    | Pooled
    | Priv(t: nat)            // allocated by a Push of t, not on a stack yet
    | Live(s: nat, i: nat)    // position i of stack s, counted from the dummy
    | Taken(t: nat)           // popped by t, not freed yet

  datatype Effected = Not | Done(op: Op)

  /** Of the current call of a thread: the operation it has performed on the atomic stack, the
      failed attempts so far, and the successful compare-and-swaps of all threads on its
      stack up to the call and up to the latest read. */
  datatype Call = Call(did: Effected, fails: nat, start: nat, seen: nat)

  datatype History = History(ss: seq<SHist>, own: map<nat, Owner>, calls: seq<Call>)

  function Begin(threads: nat): History {
    History([], map[], seq(threads, _ => Call(Not, 0, 0, 0)))
  }

  function Effects(h: History, s: nat, t: nat, op: Op): History
    requires s < |h.ss| && t < |h.calls|
  {
    h.(ss := h.ss[s := h.ss[s].(ops := h.ss[s].ops + [op])], calls := h.calls[t := h.calls[t].(did := Done(op))])
  }

  function Saw(h: History, s: nat, t: nat): History
    requires s < |h.ss| && t < |h.calls|
  {
    h.(calls := h.calls[t := h.calls[t].(seen := h.ss[s].wins)])
  }

  function Failed(h: History, s: nat, t: nat): History
    requires s < |h.ss| && t < |h.calls|
  {
    h.(calls := h.calls[t := h.calls[t].(fails := h.calls[t].fails + 1, seen := h.ss[s].wins)])
  }

  function TrackPushCas(h: History, s: nat, t: nat, val: Item, node: nat): History
    requires s < |h.ss| && t < |h.calls|
  {
    var g := h.ss[s];
    Effects(h.(ss := h.ss[s := g.(chain := g.chain + [node], vals := g.vals + [val], wins := g.wins + 1)],
               own := h.own[node := Live(s, |g.chain|)]), s, t, Pushed(val))
  }

  function TrackPopCas(h: History, s: nat, t: nat, top: nat): History
    requires s < |h.ss| && t < |h.calls|
  {
    var g := h.ss[s];
    if |g.chain| > 0 && |g.vals| > 0 then
      Effects(h.(ss := h.ss[s := g.(chain := g.chain[..|g.chain| - 1], vals := g.vals[..|g.vals| - 1],
                                     wins := g.wins + 1)],
                 own := h.own[top := Taken(t)]), s, t, Popped(g.vals[|g.vals| - 1]))
    else h
  }

  function TrackRun(sh: Shared, h: History, t: nat, l: Local): History
    requires |h.ss| == |sh.stacks| && t < |h.calls| && !l.Idle? && l.s < |sh.stacks|
  {
    match l
    case PushRead(s, _, _) => Saw(h, s, t)
    case PushCas(s, val, node, bkTop) =>
      if sh.stacks[s].top == bkTop then TrackPushCas(h, s, t, val, node) else Failed(h, s, t)
    case PopReadIdx(s) => Saw(h, s, t)
    case PopReadTop(s, _) => if sh.stacks[s].top == sh.stacks[s].dummy then Effects(h, s, t, FoundEmpty) else h
    case PopCas(s, idx, top, _) =>
      if sh.stacks[s].top == top && sh.stacks[s].uniqIdx == idx then TrackPopCas(h, s, t, top) else Failed(h, s, t)
    case PopFree(_, top, _) => h.(own := h.own[top := Pooled])
    case _ => h
  }

  predicate Shaped(m: Machine, h: History) {
    |h.ss| == |m.sh.stacks| && |h.calls| == |m.locals|
  }

  function Track(m: Machine, h: History, e: Event): History
    requires Shaped(m, h) && Enabled(m, e)
  {
    match e
    case Construct(dummy, _) =>
      h.(ss := h.ss + [SHist([dummy], [], [], 0)], own := h.own[dummy := Live(|h.ss|, 0)])
    case Refill(node, _) => h.(own := h.own[node := Pooled])
    case CallPush(t, s, _, node) =>
      h.(own := h.own[node := Priv(t)], calls := h.calls[t := Call(Not, 0, h.ss[s].wins, h.ss[s].wins)])
    case CallPop(t, s) => h.(calls := h.calls[t := Call(Not, 0, h.ss[s].wins, h.ss[s].wins)])
    case Run(t) => TrackRun(m.sh, h, t, m.locals[t])
  }

  // ----- the invariant -----

  ghost predicate MemInv(sh: Shared, h: History) {
    && sh.data.Keys == sh.next.Keys && h.own.Keys == sh.next.Keys && sh.pool <= sh.next.Keys
    && 0 !in sh.next
    && (forall a | a in h.own :: h.own[a].Pooled? <==> a in sh.pool)
  }

  ghost predicate StackInv(sh: Shared, h: History, s: nat)
    requires MemInv(sh, h) && s < |sh.stacks| == |h.ss|
  {
    var w, g := sh.stacks[s], h.ss[s];
    && |g.chain| == |g.vals| + 1
    && g.chain[0] == w.dummy && g.chain[|g.chain| - 1] == w.top
    && (forall i | 0 <= i < |g.chain| :: g.chain[i] in sh.next && h.own[g.chain[i]] == Live(s, i))
    && (forall i, j | 0 <= i && j == i + 1 && j < |g.chain| :: sh.next[g.chain[j]] == g.chain[i])
    && sh.next[w.dummy] == 0
    && (forall i | 0 < i < |g.chain| :: sh.data[g.chain[i]] == g.vals[i - 1])
    && Replay(g.ops) == Legitimate(g.vals)
    && Pops(g.ops) == w.uniqIdx
  }

  ghost predicate OwnInv(m: Machine, h: History, a: nat)
    requires Shaped(m, h) && a in h.own
  {
    match h.own[a]
    case Pooled => true
    case Priv(t) =>
      t < |m.locals|
      && (m.locals[t].PushFill? || m.locals[t].PushRead? || m.locals[t].PushLink? || m.locals[t].PushCas?)
      && m.locals[t].node == a
    case Live(s, i) => s < |h.ss| && i < |h.ss[s].chain| && h.ss[s].chain[i] == a
    case Taken(t) =>
      t < |m.locals| && (m.locals[t].PopReadData? || m.locals[t].PopFree?) && m.locals[t].top == a
  }

  /** A pointer that was a stack's top at some time: a node whose next is not null unless it
      is the dummy. */
  ghost predicate OnceTop(sh: Shared, s: nat, a: nat)
    requires s < |sh.stacks|
  {
    a in sh.next && (sh.next[a] == 0 <==> a == sh.stacks[s].dummy)
  }

  /** While no compare-and-swap succeeded since the latest read, what was read is current;
      failed attempts are covered by successful ones. */
  ghost predicate Paid(h: History, s: nat, t: nat)
    requires s < |h.ss| && t < |h.calls|
  {
    var c := h.calls[t];
    c.start + c.fails <= c.seen <= h.ss[s].wins
  }

  /** The same for a call whose own compare-and-swap has succeeded, which is not counted. */
  ghost predicate Won(h: History, s: nat, t: nat)
    requires s < |h.ss| && t < |h.calls|
  {
    Paid(h, s, t) && h.calls[t].seen < h.ss[s].wins
  }

  ghost predicate Unchanged(h: History, s: nat, t: nat)
    requires s < |h.ss| && t < |h.calls|
  {
    h.calls[t].seen == h.ss[s].wins
  }

  ghost predicate LocalInv(sh: Shared, h: History, t: nat, l: Local)
    requires MemInv(sh, h) && |sh.stacks| == |h.ss| && t < |h.calls|
  {
    && (!l.Idle? ==> l.s < |sh.stacks|)
    && var did := h.calls[t].did;
       match l
       case Idle => true
       case PushFill(s, val, node) =>
         did == Not && Paid(h, s, t) && node in sh.next && h.own[node] == Priv(t)
       case PushRead(s, val, node) =>
         did == Not && Paid(h, s, t) && node in sh.next && h.own[node] == Priv(t) && sh.data[node] == val
       case PushLink(s, val, node, bkTop) =>
         && did == Not && Paid(h, s, t) && node in sh.next && h.own[node] == Priv(t) && sh.data[node] == val
         && bkTop in sh.next && (Unchanged(h, s, t) ==> sh.stacks[s].top == bkTop)
       case PushCas(s, val, node, bkTop) =>
         && did == Not && Paid(h, s, t) && node in sh.next && h.own[node] == Priv(t) && sh.data[node] == val
         && bkTop in sh.next && sh.next[node] == bkTop && (Unchanged(h, s, t) ==> sh.stacks[s].top == bkTop)
       case PushDone(s, val) => did == Done(Pushed(val)) && Won(h, s, t)
       case PopReadIdx(s) => did == Not && Paid(h, s, t)
       case PopReadTop(s, idx) =>
         && did == Not && Paid(h, s, t) && idx <= sh.stacks[s].uniqIdx
         && (Unchanged(h, s, t) ==> sh.stacks[s].uniqIdx == idx)
       case PopReadNext(s, idx, top) =>
         && Paid(h, s, t) && idx <= sh.stacks[s].uniqIdx && OnceTop(sh, s, top)
         && did == (if top == sh.stacks[s].dummy then Done(FoundEmpty) else Not)
         && (idx == sh.stacks[s].uniqIdx ==> h.own[top].Live? && h.own[top].s == s)
         && (Unchanged(h, s, t) ==> sh.stacks[s].uniqIdx == idx && sh.stacks[s].top == top)
       case PopCas(s, idx, top, nxt) =>
         && did == Not && Paid(h, s, t) && idx <= sh.stacks[s].uniqIdx && OnceTop(sh, s, top) && nxt != 0
         && (idx == sh.stacks[s].uniqIdx ==> h.own[top].Live? && h.own[top].s == s && sh.next[top] == nxt)
         && (Unchanged(h, s, t) ==> sh.stacks[s].uniqIdx == idx && sh.stacks[s].top == top)
       case PopReadData(s, top) =>
         && Won(h, s, t) && top in sh.next && h.own[top] == Taken(t) && did == Done(Popped(sh.data[top]))
       case PopFree(s, top, val) =>
         Won(h, s, t) && top in sh.next && h.own[top] == Taken(t) && did == Done(Popped(val))
       case PopDone(s, ans) =>
         (match ans
          case Value(val) => Won(h, s, t) && did == Done(Popped(val))
          case Nothing => Paid(h, s, t) && did == Done(FoundEmpty))
       case Faulted(s) => false
  }

  ghost predicate Inv(m: Machine, h: History) {
    && Shaped(m, h)
    && MemInv(m.sh, h)
    && (forall s | 0 <= s < |m.sh.stacks| :: StackInv(m.sh, h, s))
    && (forall a | a in h.own :: OwnInv(m, h, a))
    && (forall t | 0 <= t < |m.locals| :: LocalInv(m.sh, h, t, m.locals[t]))
  }

  lemma BootInv(threads: nat)
    ensures Inv(Boot(threads), Begin(threads))
  {
  }
}
