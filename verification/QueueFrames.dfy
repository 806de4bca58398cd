/** What a step of one thread may change without disturbing another queue or thread. */
module QueueFrames {
  import opened TaggedWord
  import opened QueueMachine
  import opened QueueHistory

  /** Nodes and queues only come; histories only grow; heads and tails only advance. */
  ghost predicate Grows(s: Shared, h: History, s': Shared, h': History) {
    && |s.queues| == |h.qs| <= |s'.queues| == |h'.qs|
    && |h.pend| == |h.pval| == |h'.pend| == |h'.pval|
    && s.next.Keys <= s'.next.Keys
    && (forall q | 0 <= q < |s.queues| :: QueueGrows(s.queues[q], h.qs[q], s'.queues[q], h'.qs[q]))
  }

  ghost predicate QueueGrows(w: Anchors, g: QHist, w': Anchors, g': QHist) {
    && w'.code == w.code && w.head.ver <= w'.head.ver && w.tail.ver <= w'.tail.ver
    && g.hist <= g'.hist && g.vals <= g'.vals
  }

  /** A node that is unlinked afterwards was so before, or has been allocated just now. */
  ghost predicate AllocGrows(h: History, h': History) {
    && h.own.Keys <= h'.own.Keys && h.alloc.Keys <= h'.alloc.Keys && h.own.Keys == h.alloc.Keys
    && (forall a | a in h.own && a in h'.alloc && (h'.own[a].Priv? || h'.own[a].Pend?) ::
         if h.own[a].Priv? || h.own[a].Pend? then h'.alloc[a] == h.alloc[a] else h.clock <= h'.alloc[a])
  }

  ghost predicate SameNode(s: Shared, h: History, s': Shared, h': History, a: nat)
  {
    && a in h.own && a in h'.own && h'.own[a] == h.own[a]
    && a in h.alloc && a in h'.alloc && h'.alloc[a] == h.alloc[a]
    && a in s.next && a in s'.next && s'.next[a] == s.next[a]
    && a in s.data && a in s'.data && s'.data[a] == s.data[a]
  }

  ghost predicate OwnedBy(o: Owner, u: nat) {
    (o.Priv? || o.Pend? || o.Retired?) && o.t == u
  }

  /** Thread u keeps its chain and all nodes it owns. */
  ghost predicate KeepsOwn(s: Shared, h: History, s': Shared, h': History, u: nat)
    requires u < |h.pend| == |h.pval| == |h'.pend| == |h'.pval|
  {
    && h'.pend[u] == h.pend[u] && h'.pval[u] == h.pval[u]
    && (forall a | a in h.own && OwnedBy(h.own[a], u) :: SameNode(s, h, s', h', a))
  }

  lemma SavedStable(s: Shared, h: History, s': Shared, h': History, q: nat, w: Tagged)
    requires Grows(s, h, s', h') && q < |s.queues|
    ensures SavedTail(s, h, q, w) ==> SavedTail(s', h', q, w)
    ensures SavedHead(s, h, q, w) ==> SavedHead(s', h', q, w)
  {
    assert QueueGrows(s.queues[q], h.qs[q], s'.queues[q], h'.qs[q]);
  }

  lemma ChainStable(s: Shared, h: History, s': Shared, h': History, u: nat, q: nat, node: nat, val: Data)
    requires Grows(s, h, s', h') && MemInv(s, h) && MemInv(s', h')
    requires u < |h.pend| && KeepsOwn(s, h, s', h', u) && q < |s.queues|
    requires ChainInv(s, h, u, q, node, val)
    ensures ChainInv(s', h', u, q, node, val)
  {
    assert QueueGrows(s.queues[q], h.qs[q], s'.queues[q], h'.qs[q]);
    var p := h.pend[u];
    forall k | 0 <= k < |p| ensures SameNode(s, h, s', h', p[k]) {
      assert OwnedBy(h.own[p[k]], u);
    }
  }

  lemma YoungerStable(s: Shared, h: History, h': History, a: nat, node: nat)
    requires MemInv(s, h) && AllocGrows(h, h') && Younger(h, a, node)
    requires h.own[node].Pend? && h'.own[node].Pend?
    ensures Younger(h', a, node)
  {
  }

  /** The enqueuer's side of the stability lemma. */
  lemma EnqueuerStable(s: Shared, h: History, s': Shared, h': History, u: nat, l: Local)
    requires Grows(s, h, s', h') && AllocGrows(h, h') && MemInv(s, h) && MemInv(s', h')
    requires u < |h.pend| && KeepsOwn(s, h, s', h', u) && LocalInv(s, h, u, l)
    requires Enqueuing(l)
    ensures LocalInv(s', h', u, l)
  {
    if l.EnqFill? || l.EnqSeal? {
      assert SameNode(s, h, s', h', l.node);
    } else if l.EnqReadTail? {
      ChainStable(s, h, s', h', u, l.q, l.node, l.val);
    } else if l.EnqReadNext? || l.EnqLink? {
      ChainStable(s, h, s', h', u, l.q, l.node, l.val);
      SavedStable(s, h, s', h', l.q, l.tl);
      YoungerStable(s, h, h', l.tl.addr, l.node);
    } else if l.EnqHelp? {
      ChainStable(s, h, s', h', u, l.q, l.node, l.val);
      SavedStable(s, h, s', h', l.q, l.tl);
      assert QueueGrows(s.queues[l.q], h.qs[l.q], s'.queues[l.q], h'.qs[l.q]);
    } else if l.EnqSwing? {
      SavedStable(s, h, s', h', l.q, l.tl);
      assert QueueGrows(s.queues[l.q], h.qs[l.q], s'.queues[l.q], h'.qs[l.q]);
    }
  }

  lemma SpeculativeStable(s: Shared, h: History, s': Shared, h': History, q: nat, x: nat)
    requires Grows(s, h, s', h') && q < |s.queues| && Speculative(s, q, x)
    ensures Speculative(s', q, x)
  {
    assert QueueGrows(s.queues[q], h.qs[q], s'.queues[q], h'.qs[q]);
  }

  /** The dequeuer's side, while it holds words of the tail or frees a node. */
  lemma HelperStable(s: Shared, h: History, s': Shared, h': History, u: nat, l: Local)
    requires Grows(s, h, s', h') && MemInv(s, h) && MemInv(s', h')
    requires u < |h.pend| && KeepsOwn(s, h, s', h', u) && LocalInv(s, h, u, l)
    requires l.DeqHelp? || l.DeqFree?
    ensures LocalInv(s', h', u, l)
  {
    if l.DeqFree? {
      assert SameNode(s, h, s', h', l.node);
    } else {
      SavedStable(s, h, s', h', l.q, l.tl);
      assert QueueGrows(s.queues[l.q], h.qs[l.q], s'.queues[l.q], h'.qs[l.q]);
    }
  }

  /** The dequeuer's side, after lines 136 and 145. */
  lemma ReaderStable(s: Shared, h: History, s': Shared, h': History, u: nat, l: Local)
    requires Grows(s, h, s', h') && MemInv(s, h) && MemInv(s', h')
    requires u < |h.pend| && KeepsOwn(s, h, s', h', u) && LocalInv(s, h, u, l)
    requires l.DeqReadData? || l.DeqCas?
    ensures LocalInv(s', h', u, l)
  {
    hide MemInv, SameNode, ChainInv, Speculative;
    SavedStable(s, h, s', h', l.q, l.hd);
    if l.DeqReadData? {
      SpeculativeStable(s, h, s', h', l.q, l.nxt);
    }
    assert QueueGrows(s.queues[l.q], h.qs[l.q], s'.queues[l.q], h'.qs[l.q]);
  }

  lemma DequeuerStable(s: Shared, h: History, s': Shared, h': History, u: nat, l: Local)
    requires Grows(s, h, s', h') && MemInv(s, h) && MemInv(s', h')
    requires u < |h.pend| && KeepsOwn(s, h, s', h', u) && LocalInv(s, h, u, l)
    requires !Enqueuing(l)
    ensures LocalInv(s', h', u, l)
  {
    hide MemInv, SameNode, ChainInv, Speculative;
    if l.DeqFree? || l.DeqHelp? {
      HelperStable(s, h, s', h', u, l);
    } else if l.DeqReadData? || l.DeqCas? {
      ReaderStable(s, h, s', h', u, l);
    } else if l.DeqReadNext? || l.DeqRecheck? {
      SavedStable(s, h, s', h', l.q, l.hd);
    } else if l.DeqReadTail? || l.DeqReadTailNext? {
      SavedStable(s, h, s', h', l.q, l.hd);
      if l.DeqReadTailNext? {
        SavedStable(s, h, s', h', l.q, l.tl);
      }
      SpeculativeStable(s, h, s', h', l.q, l.nxt);
      assert QueueGrows(s.queues[l.q], h.qs[l.q], s'.queues[l.q], h'.qs[l.q]);
    }
  }

  /** What a thread relies on survives every step that grows the state and leaves
      the thread's own nodes alone. */
  lemma LocalStable(s: Shared, h: History, s': Shared, h': History, u: nat, l: Local)
    requires Grows(s, h, s', h') && AllocGrows(h, h') && MemInv(s, h) && MemInv(s', h')
    requires u < |h.pend| && KeepsOwn(s, h, s', h', u) && LocalInv(s, h, u, l)
    ensures LocalInv(s', h', u, l)
  {
    if Enqueuing(l) {
      EnqueuerStable(s, h, s', h', u, l);
    } else {
      DequeuerStable(s, h, s', h', u, l);
    }
  }

  /** Links keep leading to nodes or end codes. */
  ghost predicate PointersKept(s: Shared, s': Shared) {
    forall a | a in s.next && a in s'.next :: s'.next[a] == s.next[a] || Pointer(s', s'.next[a])
  }

  /** A queue whose words, history and live nodes are untouched keeps its invariant. */
  lemma QueueStable(s: Shared, h: History, s': Shared, h': History, q: nat)
    requires MemInv(s, h) && MemInv(s', h') && |s.queues| == |h.qs| <= |s'.queues| == |h'.qs|
    requires q < |s.queues| && QueueInv(s, h, q) && s.next.Keys <= s'.next.Keys
    requires s'.queues[q].head == s.queues[q].head && s'.queues[q].tail == s.queues[q].tail
    requires s'.queues[q].code == s.queues[q].code
    requires h'.qs[q].hist == h.qs[q].hist && h'.qs[q].vals == h.qs[q].vals && h'.qs[q].taken == h.qs[q].taken
    requires forall a | a in h.own && h.own[a].Live? && h.own[a].q == q :: SameNode(s, h, s', h', a)
    requires PointersKept(s, s')
    ensures QueueInv(s', h', q)
  {
    var w, g := s.queues[q], h.qs[q];
    forall i | w.head.ver <= i < |g.hist| ensures SameNode(s, h, s', h', g.hist[i]) {
      assert h.own[g.hist[i]] == Live(q, i);
    }
  }

  /** A step of thread t on queue q that leaves alone all other queues and,
      except for the chain of thread y, all other threads. */
  ghost predicate StepFrame2(m: Machine, h: History, m': Machine, h': History, t: nat, y: nat, q: nat)
    requires Shaped(m, h) && Shaped(m', h') && |m.locals| == |m'.locals| && |m.sh.queues| <= |m'.sh.queues|
  {
    && MemInv(m'.sh, h')
    && Grows(m.sh, h, m'.sh, h') && AllocGrows(h, h') && PointersKept(m.sh, m'.sh)
    && (forall r | 0 <= r < |m.sh.queues| && r != q ::
         m'.sh.queues[r] == m.sh.queues[r] && h'.qs[r] == h.qs[r])
    && (forall a | a in h.own && h.own[a].Live? && h.own[a].q != q :: SameNode(m.sh, h, m'.sh, h', a))
    && (forall u | 0 <= u < |m.locals| && u != t && u != y :: KeepsOwn(m.sh, h, m'.sh, h', u))
    && (forall u | 0 <= u < |m.locals| && u != t :: m'.locals[u] == m.locals[u])
  }

  ghost predicate StepFrame(m: Machine, h: History, m': Machine, h': History, t: nat, q: nat)
    requires Shaped(m, h) && Shaped(m', h') && |m.locals| == |m'.locals| && |m.sh.queues| <= |m'.sh.queues|
  {
    StepFrame2(m, h, m', h', t, t, q)
  }

  ghost predicate AllOwned(m: Machine, h: History)
    requires Shaped(m, h)
  {
    forall a | a in h.own :: OwnInv(m, h, a)
  }

  lemma OthersQueues(m: Machine, h: History, m': Machine, h': History, t: nat, y: nat, q: nat)
    requires Inv(m, h) && Shaped(m', h') && |m.locals| == |m'.locals| && |m.sh.queues| <= |m'.sh.queues|
    requires StepFrame2(m, h, m', h', t, y, q)
    ensures forall r | 0 <= r < |m.sh.queues| && r != q :: QueueInv(m'.sh, h', r)
  {
    hide MemInv, QueueInv, OwnInv, LocalInv, AllocGrows, SameNode, KeepsOwn, PointersKept, Pointer;
    forall r | 0 <= r < |m.sh.queues| && r != q ensures QueueInv(m'.sh, h', r) {
      QueueStable(m.sh, h, m'.sh, h', r);
    }
  }

  lemma OtherThreads(m: Machine, h: History, m': Machine, h': History, t: nat, y: nat, q: nat)
    requires Inv(m, h) && Shaped(m', h') && |m.locals| == |m'.locals| && |m.sh.queues| <= |m'.sh.queues|
    requires StepFrame2(m, h, m', h', t, y, q)
    ensures forall u | 0 <= u < |m.locals| && u != t && u != y :: LocalInv(m'.sh, h', u, m'.locals[u])
  {
    hide MemInv, QueueInv, OwnInv, LocalInv, Grows, AllocGrows, SameNode, KeepsOwn, PointersKept;
    forall u | 0 <= u < |m.locals| && u != t && u != y ensures LocalInv(m'.sh, h', u, m'.locals[u]) {
      LocalStable(m.sh, h, m'.sh, h', u, m.locals[u]);
    }
  }

  /** Collects the parts of the invariant after a step of thread t on queue q. */
  lemma Assemble2(m: Machine, h: History, m': Machine, h': History, t: nat, y: nat, q: nat)
    requires Inv(m, h) && Shaped(m', h') && |m.locals| == |m'.locals| && |m.sh.queues| == |m'.sh.queues|
    requires t < |m.locals| && y < |m.locals| && StepFrame2(m, h, m', h', t, y, q)
    requires q < |m.sh.queues| ==> QueueInv(m'.sh, h', q)
    requires AllOwned(m', h')
    requires LocalInv(m'.sh, h', t, m'.locals[t]) && LocalInv(m'.sh, h', y, m'.locals[y])
    ensures Inv(m', h')
  {
    hide MemInv, QueueInv, OwnInv, LocalInv, Grows, AllocGrows, SameNode, KeepsOwn, PointersKept;
    OthersQueues(m, h, m', h', t, y, q);
    OtherThreads(m, h, m', h', t, y, q);
  }

  lemma Assemble(m: Machine, h: History, m': Machine, h': History, t: nat, q: nat)
    requires Inv(m, h) && Shaped(m', h') && |m.locals| == |m'.locals| && |m.sh.queues| == |m'.sh.queues|
    requires t < |m.locals| && StepFrame(m, h, m', h', t, q)
    requires q < |m.sh.queues| ==> QueueInv(m'.sh, h', q)
    requires AllOwned(m', h')
    requires LocalInv(m'.sh, h', t, m'.locals[t])
    ensures Inv(m', h')
  {
    hide MemInv, QueueInv, OwnInv, LocalInv, StepFrame2, AllOwned;
    Assemble2(m, h, m', h', t, t, q);
  }
}
