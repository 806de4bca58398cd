/** Auxiliary history of a run of QueueMachine, and the invariant that ties the two. */
module QueueHistory {
  import opened TaggedWord
  import opened QueueMachine

  /** hist: every node ever published to the queue, oldest first, starting with the
      embedded dummy, so position v is the node that version v of the head or tail names;
      vals: the values published with them; linked: the values in order of the
      compare-and-swap at line 98; taken: the values in order of head swings;
      lost: returns at line 130. */
  datatype QHist = QHist(
    hist: seq<nat>, vals: seq<Data>, linked: seq<Data>, taken: seq<Data>, lost: nat)

  /** The role of a node at this moment. */
  datatype Owner =
    | Pooled
    | Priv(t: nat)            // allocated by t, end code not yet written
    | Pend(t: nat, k: nat)    // position k of the chain that hangs from t's unlinked node
    | Live(q: nat, i: nat)    // position i of queue q's history, at or after its head
    | Retired(t: nat)         // passed by t's head swing, not yet freed

  datatype History = History(
    qs: seq<QHist>,
    own: map<nat, Owner>,
    alloc: map<nat, nat>,
    clock: nat,
    pend: seq<seq<nat>>,
    pval: seq<seq<Data>>)

  function Begin(threads: nat): History {
    History([], map[], map[], 0, seq(threads, _ => []), seq(threads, _ => []))
  }

  /** Moves t's pending chain to the end of queue q's history. */
  function Published(own: map<nat, Owner>, t: nat, q: nat, base: nat): map<nat, Owner> {
    map a | a in own :: if own[a].Pend? && own[a].t == t then Live(q, base + own[a].k) else own[a]
  }

  /** Moves t's pending chain to the end of y's pending chain. */
  function Grafted(own: map<nat, Owner>, t: nat, y: nat, base: nat): map<nat, Owner> {
    map a | a in own :: if own[a].Pend? && own[a].t == t then Pend(y, base + own[a].k) else own[a]
  }

  function AfterPublish(h: History, t: nat, q: nat): History
    requires q < |h.qs| && t < |h.pend| && t < |h.pval|
  {
    var g := h.qs[q];
    h.(qs := h.qs[q := g.(hist := g.hist + h.pend[t], vals := g.vals + h.pval[t])],
       own := Published(h.own, t, q, |g.hist|),
       pend := h.pend[t := []],
       pval := h.pval[t := []])
  }

  function AfterGraft(h: History, t: nat, y: nat): History
    requires t < |h.pend| && t < |h.pval| && y < |h.pend| && y < |h.pval|
  {
    h.(own := Grafted(h.own, t, y, |h.pend[y]|),
       pend := h.pend[y := h.pend[y] + h.pend[t]][t := []],
       pval := h.pval[y := h.pval[y] + h.pval[t]][t := []])
  }

  predicate Shaped(m: Machine, h: History) {
    |h.qs| == |m.sh.queues| && |h.pend| == |h.pval| == |m.locals|
  }

  /** A successful compare-and-swap at line 98 on node a by thread t. */
  function TrackLink(h: History, t: nat, q: nat, val: Data, a: nat): History
    requires q < |h.qs| && t < |h.pend| == |h.pval|
  {
    var h1 := h.(qs := h.qs[q := h.qs[q].(linked := h.qs[q].linked + [val])]);
    if a in h.own && h.own[a].Live? then AfterPublish(h1, t, q)
    else if a in h.own && h.own[a].Pend? && h.own[a].t < |h.pend| then AfterGraft(h1, t, h.own[a].t)
    else h1
  }

  function TrackRun(s: Shared, h: History, t: nat, l: Local): History
    requires |h.qs| == |s.queues| && t < |h.pend| == |h.pval| && !l.Idle? && l.q < |s.queues|
  {
    match l
    case EnqSeal(q, val, node) =>
      h.(own := h.own[node := Pend(t, 0)], pend := h.pend[t := [node]], pval := h.pval[t := [val]])
    case EnqLink(q, val, node, tl) =>
      if tl.addr in s.next && s.next[tl.addr] == s.queues[q].code
      then TrackLink(h, t, q, val, tl.addr) else h
    case DeqRecheck(q, hd) =>
      if s.queues[q].head == hd
      then h.(qs := h.qs[q := h.qs[q].(lost := h.qs[q].lost + 1)]) else h
    case DeqCas(q, hd, nxt, val) =>
      if s.queues[q].head == hd
      then h.(qs := h.qs[q := h.qs[q].(taken := h.qs[q].taken + [val])],
              own := h.own[hd.addr := Retired(t)])
      else h
    case DeqFree(q, node, val) => h.(own := h.own[node := Pooled])
    case _ => h
  }

  function Track(m: Machine, h: History, e: Event): History
    requires Shaped(m, h) && Enabled(m, e)
  {
    match e
    case Construct(dummy, _) =>
      h.(qs := h.qs + [QHist([dummy], [], [], [], 0)],
         own := h.own[dummy := Live(|h.qs|, 0)],
         alloc := h.alloc[dummy := h.clock])
    case Refill(node, _) =>
      h.(own := h.own[node := Pooled], alloc := h.alloc[node := h.clock])
    case CallEnqueue(t, _, _, node) =>
      h.(own := h.own[node := Priv(t)], alloc := h.alloc[node := h.clock], clock := h.clock + 1)
    case CallDequeue(_, _) => h
    case Run(t) => TrackRun(m.sh, h, t, m.locals[t])
  }

  // ----- the invariant -----

  ghost predicate IsCode(s: Shared, x: nat) {
    WORD_LIMIT - |s.queues| <= x < WORD_LIMIT
  }

  ghost predicate MemInv(s: Shared, h: History) {
    && s.data.Keys == s.next.Keys && h.own.Keys == s.next.Keys && h.alloc.Keys == s.next.Keys
    && (forall a | a in s.next :: 0 < a < ADDR_LIMIT)
    && (forall a | a in h.own :: h.own[a].Pooled? <==> a in s.pool)
    && s.pool <= s.next.Keys
    && (forall a | a in h.own :: h.alloc[a] <= h.clock)
    && (forall a | a in h.own && (h.own[a].Priv? || h.own[a].Pend?) :: h.alloc[a] < h.clock)
    && (forall a | a in h.own && (h.own[a].Pooled? || h.own[a].Priv? || h.own[a].Retired?) ::
         s.next[a] < ADDR_LIMIT)
    && s.uniqueCode == (WORD_LIMIT - |s.queues|) % WORD_LIMIT
    && |s.queues| <= WORD_LIMIT - ADDR_LIMIT
  }

  ghost predicate QueueInv(s: Shared, h: History, q: nat)
    requires MemInv(s, h) && q < |s.queues| == |h.qs|
  {
    var w, g := s.queues[q], h.qs[q];
    && w.code == WORD_LIMIT - 1 - q
    && w.head.ver <= w.tail.ver < |g.hist|
    && |g.vals| == |g.hist| - 1
    && g.hist[w.head.ver] == w.head.addr
    && g.hist[w.tail.ver] == w.tail.addr
    && (forall i | 0 <= i < |g.hist| :: g.hist[i] in s.next)
    && (forall i | 0 <= i < |g.hist| :: s.next[g.hist[i]] in s.next || IsCode(s, s.next[g.hist[i]]))
    && (forall i | w.head.ver <= i < |g.hist| :: h.own[g.hist[i]] == Live(q, i))
    && (forall i, j | w.head.ver <= i && j == i + 1 && j < |g.hist| :: s.next[g.hist[i]] == g.hist[j])
    && s.next[g.hist[|g.hist| - 1]] == w.code
    && (forall i | w.head.ver < i < |g.hist| :: s.data[g.hist[i]] == g.vals[i - 1])
    && g.taken == g.vals[..w.head.ver]
  }

  /** Every role is backed by the state that grants it. */
  ghost predicate OwnInv(m: Machine, h: History, a: nat)
    requires Shaped(m, h) && a in h.own
  {
    match h.own[a]
    case Pooled => true
    case Priv(t) =>
      t < |m.locals| && (m.locals[t].EnqFill? || m.locals[t].EnqSeal?) && m.locals[t].node == a
    case Pend(t, k) => t < |m.locals| && k < |h.pend[t]| && h.pend[t][k] == a
    case Live(q, i) =>
      q < |m.sh.queues| && m.sh.queues[q].head.ver <= i < |h.qs[q].hist| && h.qs[q].hist[i] == a
    case Retired(t) => t < |m.locals| && m.locals[t].DeqFree? && m.locals[t].node == a
  }

  /** The chain that hangs from t's own node, newest allocation first. */
  ghost predicate ChainInv(s: Shared, h: History, t: nat, q: nat, node: nat, val: Data)
    requires MemInv(s, h) && t < |h.pend| == |h.pval| && q < |s.queues|
  {
    var p := h.pend[t];
    && |p| == |h.pval[t]| > 0
    && p[0] == node && h.pval[t][0] == val
    && (forall k | 0 <= k < |p| :: p[k] in s.next && h.own[p[k]] == Pend(t, k) && s.data[p[k]] == h.pval[t][k])
    && (forall j, k | 0 <= j < k < |p| :: h.alloc[p[k]] < h.alloc[p[j]])
    && (forall j, k | 0 <= j && k == j + 1 && k < |p| :: s.next[p[j]] == p[k])
    && s.next[p[|p| - 1]] == s.queues[q].code
  }

  ghost predicate NoChain(h: History, t: nat)
    requires t < |h.pend| == |h.pval|
  {
    h.pend[t] == [] && h.pval[t] == []
  }

  /** A word that thread read from the tail. */
  ghost predicate SavedTail(s: Shared, h: History, q: nat, w: Tagged)
    requires q < |s.queues| == |h.qs|
  {
    w.ver <= s.queues[q].tail.ver && w.ver < |h.qs[q].hist| && h.qs[q].hist[w.ver] == w.addr
  }

  ghost predicate SavedHead(s: Shared, h: History, q: nat, w: Tagged)
    requires q < |s.queues| == |h.qs|
  {
    w.ver <= s.queues[q].head.ver && w.ver < |h.qs[q].hist| && h.qs[q].hist[w.ver] == w.addr
  }

  /** nxt is the successor that position ver has in the history. */
  ghost predicate Successor(h: History, q: nat, ver: nat, nxt: nat)
    requires q < |h.qs|
  {
    ver + 1 < |h.qs[q].hist| && h.qs[q].hist[ver + 1] == nxt
  }

  /** If a has been allocated again and is not linked yet, that happened after node was allocated. */
  ghost predicate Younger(h: History, a: nat, node: nat) {
    a in h.own && a in h.alloc && node in h.alloc
    && (h.own[a].Priv? || h.own[a].Pend? ==> h.alloc[node] < h.alloc[a])
  }

  ghost predicate Pointer(s: Shared, x: nat) {
    x in s.next || IsCode(s, x)
  }

  /** What a dequeuer found behind the head it read: a node, or the end code of another queue. */
  ghost predicate Speculative(s: Shared, q: nat, x: nat)
    requires q < |s.queues|
  {
    Pointer(s, x) && x != s.queues[q].code
  }

  ghost predicate LocalInv(s: Shared, h: History, t: nat, l: Local)
    requires MemInv(s, h) && |s.queues| == |h.qs| && t < |h.pend| == |h.pval|
  {
    && (!l.Idle? ==> l.q < |s.queues|)
    && match l
       case EnqFill(q, val, node) =>
         NoChain(h, t) && node in s.next && h.own[node] == Priv(t)
       case EnqSeal(q, val, node) =>
         NoChain(h, t) && node in s.next && h.own[node] == Priv(t) && s.data[node] == val
       case EnqReadTail(q, val, node) => ChainInv(s, h, t, q, node, val)
       case EnqReadNext(q, val, node, tl) =>
         ChainInv(s, h, t, q, node, val) && SavedTail(s, h, q, tl) && Younger(h, tl.addr, node)
       case EnqLink(q, val, node, tl) =>
         ChainInv(s, h, t, q, node, val) && SavedTail(s, h, q, tl) && Younger(h, tl.addr, node)
       case EnqHelp(q, val, node, tl, nxt) =>
         && ChainInv(s, h, t, q, node, val) && SavedTail(s, h, q, tl)
         && (s.queues[q].head.ver <= tl.ver ==> Successor(h, q, tl.ver, nxt))
       case EnqSwing(q, val, node, tl) =>
         && NoChain(h, t) && SavedTail(s, h, q, tl)
         && (s.queues[q].tail.ver == tl.ver ==> Successor(h, q, tl.ver, node))
       case DeqReadNext(q, hd) => NoChain(h, t) && SavedHead(s, h, q, hd)
       case DeqRecheck(q, hd) => NoChain(h, t) && SavedHead(s, h, q, hd)
       case DeqReadTail(q, hd, nxt) =>
         && NoChain(h, t) && SavedHead(s, h, q, hd) && Speculative(s, q, nxt)
         && (s.queues[q].head.ver == hd.ver ==> Successor(h, q, hd.ver, nxt))
       case DeqReadTailNext(q, hd, nxt, tl) =>
         && NoChain(h, t) && SavedHead(s, h, q, hd) && Speculative(s, q, nxt) && SavedTail(s, h, q, tl)
         && (s.queues[q].head.ver == hd.ver ==> Successor(h, q, hd.ver, nxt) && hd.ver <= tl.ver)
       case DeqHelp(q, tl, nxt) =>
         && NoChain(h, t) && SavedTail(s, h, q, tl)
         && (s.queues[q].head.ver <= tl.ver ==> Successor(h, q, tl.ver, nxt))
       case DeqReadData(q, hd, nxt) =>
         && NoChain(h, t) && SavedHead(s, h, q, hd) && Speculative(s, q, nxt)
         && (s.queues[q].head.ver == hd.ver ==>
               Successor(h, q, hd.ver, nxt) && hd.ver < s.queues[q].tail.ver)
       case DeqCas(q, hd, nxt, val) =>
         && NoChain(h, t) && SavedHead(s, h, q, hd)
         && (s.queues[q].head.ver == hd.ver ==>
               && Successor(h, q, hd.ver, nxt) && hd.ver < s.queues[q].tail.ver
               && hd.ver < |h.qs[q].vals| && val == h.qs[q].vals[hd.ver])
       case DeqFree(q, node, val) =>
         NoChain(h, t) && node in s.next && h.own[node] == Retired(t)
       case _ => NoChain(h, t)
  }

  ghost predicate Inv(m: Machine, h: History) {
    && Shaped(m, h)
    && MemInv(m.sh, h)
    && (forall q | 0 <= q < |m.sh.queues| :: QueueInv(m.sh, h, q))
    && (forall a | a in h.own :: OwnInv(m, h, a))
    && (forall t | 0 <= t < |m.locals| :: LocalInv(m.sh, h, t, m.locals[t]))
  }

  lemma BootInv(threads: nat)
    ensures Inv(Boot(threads), Begin(threads))
  {
  }
}
