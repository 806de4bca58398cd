/** Every step of QueueMachine keeps the invariant. */
module QueueSteps {
  import opened TaggedWord
  import opened QueueMachine
  import opened QueueHistory
  import opened QueueFrames

  ghost predicate HoldsPrivately(l: Local) {
    l.EnqFill? || l.EnqSeal? || l.DeqFree?
  }

  /** A step that changes nothing shared only has to establish its own program point. */
  lemma QuietStep(m: Machine, h: History, t: nat, l: Local)
    requires Inv(m, h) && t < |m.locals| && !HoldsPrivately(m.locals[t])
    requires LocalInv(m.sh, h, t, l)
    ensures Inv(Machine(m.sh, m.locals[t := l]), h)
  {
  }

  lemma ReadTailStep(m: Machine, h: History, t: nat)
    requires Inv(m, h) && CanRun(m, t) && m.locals[t].EnqReadTail?
    ensures Inv(RunThread(m, t), h)
  {
    hide OwnInv;
    var l := m.locals[t];
    var w := m.sh.queues[l.q];
    assert QueueInv(m.sh, h, l.q);
    assert h.own[w.tail.addr] == Live(l.q, w.tail.ver);
    QuietStep(m, h, t, EnqueueGoto(m.sh, l));
  }

  /** Reading the next field of a node that still is at position ver of the history. */
  lemma NextOfSaved(m: Machine, h: History, q: nat, w: Tagged)
    requires Inv(m, h) && q < |m.sh.queues|
    requires w.ver < |h.qs[q].hist| && h.qs[q].hist[w.ver] == w.addr
    ensures w.addr in m.sh.next && Pointer(m.sh, m.sh.next[w.addr])
    ensures m.sh.queues[q].head.ver <= w.ver && m.sh.next[w.addr] != m.sh.queues[q].code
      ==> Successor(h, q, w.ver, m.sh.next[w.addr])
  {
    hide OwnInv;
    assert QueueInv(m.sh, h, q);
    var hist := h.qs[q].hist;
    if w.ver + 1 < |hist| {
      assert hist[w.ver + 1] == hist[w.ver + 1];
    }
  }

  lemma ReadNextStep(m: Machine, h: History, t: nat)
    requires Inv(m, h) && CanRun(m, t) && m.locals[t].EnqReadNext?
    ensures Inv(RunThread(m, t), h)
  {
    hide OwnInv;
    var l := m.locals[t];
    NextOfSaved(m, h, l.q, l.tl);
    QuietStep(m, h, t, EnqueueGoto(m.sh, l));
  }

  lemma DeqReadStep(m: Machine, h: History, t: nat)
    requires Inv(m, h) && CanRun(m, t)
    requires m.locals[t].DeqReadHead? || m.locals[t].DeqReadNext? || m.locals[t].DeqReadTail?
    ensures Inv(RunThread(m, t), h)
  {
    hide OwnInv;
    var l := m.locals[t];
    assert QueueInv(m.sh, h, l.q);
    if l.DeqReadNext? {
      NextOfSaved(m, h, l.q, l.hd);
    }
    QuietStep(m, h, t, DequeueGoto(m.sh, l));
  }

  /** The tail's next was its queue's code, so the tail is not at the position of a head
      whose next was something else. */
  lemma DeqReadTailNextStep(m: Machine, h: History, t: nat)
    requires Inv(m, h) && CanRun(m, t) && m.locals[t].DeqReadTailNext?
    ensures Inv(RunThread(m, t), h)
  {
    hide OwnInv;
    var l := m.locals[t];
    var g, w := h.qs[l.q], m.sh.queues[l.q];
    assert QueueInv(m.sh, h, l.q);
    NextOfSaved(m, h, l.q, l.tl);
    if w.head.ver == l.hd.ver && l.tl.ver == l.hd.ver {
      assert m.sh.next[g.hist[l.hd.ver]] == g.hist[l.hd.ver + 1];
      assert m.sh.next[l.tl.addr] < ADDR_LIMIT;
    }
    QuietStep(m, h, t, DequeueGoto(m.sh, l));
  }

  lemma DeqReadDataStep(m: Machine, h: History, t: nat)
    requires Inv(m, h) && CanRun(m, t) && m.locals[t].DeqReadData?
    ensures Inv(RunThread(m, t), h)
  {
    hide OwnInv;
    var l := m.locals[t];
    var g, w := h.qs[l.q], m.sh.queues[l.q];
    assert QueueInv(m.sh, h, l.q);
    if w.head.ver == l.hd.ver {
      assert m.sh.data[g.hist[l.hd.ver + 1]] == g.vals[l.hd.ver];
    }
    QuietStep(m, h, t, DequeueGoto(m.sh, l));
  }

  ghost predicate SameHistories(m: Machine, h: History, m': Machine, h': History) {
    && |m.sh.queues| == |h.qs| == |h'.qs| == |m'.sh.queues|
    && (forall r | 0 <= r < |h.qs| :: h'.qs[r].hist == h.qs[r].hist
                                      && m'.sh.queues[r].head == m.sh.queues[r].head)
  }

  /** Roles stay backed when no role, chain, history or head changes. */
  lemma OwnedQuiet(m: Machine, h: History, m': Machine, h': History, t: nat, l: Local)
    requires Shaped(m, h) && AllOwned(m, h) && Shaped(m', h') && SameHistories(m, h, m', h')
    requires h'.own == h.own && h'.pend == h.pend
    requires t < |m.locals| && m'.locals == m.locals[t := l]
    requires HoldsPrivately(m.locals[t]) ==>
      (if m.locals[t].EnqFill? then l.EnqSeal? && l.node == m.locals[t].node else l == m.locals[t])
    ensures AllOwned(m', h')
  {
    forall a | a in h'.own ensures OwnInv(m', h', a) {
      assert OwnInv(m, h, a);
    }
  }

  function SetCounts(m: Machine, q: nat, size: int, t: nat, l: Local): Machine
    requires q < |m.sh.queues| && t < |m.locals|
  {
    Machine(m.sh.(queues := m.sh.queues[q := m.sh.queues[q].(size := size)]), m.locals[t := l])
  }

  function SetLost(h: History, q: nat, lost: nat): History
    requires q < |h.qs|
  {
    h.(qs := h.qs[q := h.qs[q].(lost := lost)])
  }

  lemma CountFrame(m: Machine, h: History, t: nat, q: nat, size: int, lost: nat, l: Local)
    requires Inv(m, h) && t < |m.locals| && q < |m.sh.queues| && !HoldsPrivately(m.locals[t])
    requires LocalInv(m.sh, h, t, l)
    ensures Inv(SetCounts(m, q, size, t, l), SetLost(h, q, lost))
  {
    hide OwnInv, LocalInv;
    var m', h' := SetCounts(m, q, size, t, l), SetLost(h, q, lost);
    assert QueueInv(m.sh, h, q);
    CountStepFrame(m, h, t, q, size, lost, l);
    hide QueueInv, MemInv;
    QueueStable(m.sh, h, m'.sh, h', q);
    OwnedQuiet(m, h, m', h', t, l);
    LocalStable(m.sh, h, m'.sh, h', t, l);
    Assemble(m, h, m', h', t, q);
  }

  lemma CountStepFrame(m: Machine, h: History, t: nat, q: nat, size: int, lost: nat, l: Local)
    requires Inv(m, h) && t < |m.locals| && q < |m.sh.queues|
    ensures StepFrame(m, h, SetCounts(m, q, size, t, l), SetLost(h, q, lost), t, q)
  {
    hide OwnInv, LocalInv, QueueInv;
  }

  /** Steps that touch nothing but a size field or the count of lost reservations. */
  lemma CountStep(m: Machine, h: History, t: nat)
    requires Inv(m, h) && CanRun(m, t)
    requires var l := m.locals[t];
      l.EnqCount? || l.DeqReserve? || l.DeqRestore? || l.DeqRecheck?
    ensures Inv(RunThread(m, t), TrackRun(m.sh, h, t, m.locals[t]))
  {
    hide QueueInv, OwnInv, MemInv;
    var l := m.locals[t];
    var m', h' := RunThread(m, t), TrackRun(m.sh, h, t, l);
    CountFrame(m, h, t, l.q, m'.sh.queues[l.q].size, h'.qs[l.q].lost, m'.locals[t]);
    assert h'.qs == SetLost(h, l.q, h'.qs[l.q].lost).qs;
    assert m'.sh.queues == SetCounts(m, l.q, m'.sh.queues[l.q].size, t, m'.locals[t]).sh.queues;
  }

  function SwingTail(m: Machine, q: nat, node: nat, t: nat, l: Local): Machine
    requires q < |m.sh.queues| && t < |m.locals|
  {
    Machine(m.sh.(queues := m.sh.queues[q :=
              m.sh.queues[q].(tail := Tagged(node, m.sh.queues[q].tail.ver + 1))]), m.locals[t := l])
  }

  lemma TailSwingSucceeds(m: Machine, h: History, t: nat, q: nat, node: nat, l: Local)
    requires Inv(m, h) && t < |m.locals| && q < |m.sh.queues| && !HoldsPrivately(m.locals[t])
    requires Successor(h, q, m.sh.queues[q].tail.ver, node) && LocalInv(m.sh, h, t, l)
    requires l.EnqReadTail? || l.EnqCount? || l.DeqReadHead?
    ensures Inv(SwingTail(m, q, node, t, l), h)
  {
    hide OwnInv, LocalInv;
    var m' := SwingTail(m, q, node, t, l);
    assert QueueInv(m.sh, h, q);
    assert StepFrame(m, h, m', h, t, q) by {
      hide QueueInv;
    }
    OwnedQuiet(m, h, m', h, t, l);
    LocalStable(m.sh, h, m'.sh, h, t, l);
    assert QueueInv(m'.sh, h, q) by {
      assert m'.sh.next == m.sh.next && m'.sh.data == m.sh.data;
    }
    Assemble(m, h, m', h, t, q);
  }

  /** A tail swing, wherever it comes from, can only move the tail to its successor. */
  lemma TailSwing(m: Machine, h: History, t: nat, q: nat, w: Tagged, node: nat, l: Local)
    requires Inv(m, h) && t < |m.locals| && q < |m.sh.queues| && !HoldsPrivately(m.locals[t])
    requires SavedTail(m.sh, h, q, w)
    requires m.sh.queues[q].tail.ver == w.ver ==> Successor(h, q, w.ver, node)
    requires LocalInv(m.sh, h, t, l)
    requires l.EnqReadTail? || l.EnqCount? || l.DeqReadHead?
    ensures Inv(Machine(CasTail(m.sh, q, w, node), m.locals[t := l]), h)
  {
    hide OwnInv, LocalInv, QueueInv, MemInv;
    if m.sh.queues[q].tail != w {
      QuietStep(m, h, t, l);
    } else {
      TailSwingSucceeds(m, h, t, q, node, l);
    }
  }

  lemma TailSwingStep(m: Machine, h: History, t: nat)
    requires Inv(m, h) && CanRun(m, t)
    requires m.locals[t].EnqHelp? || m.locals[t].EnqSwing? || m.locals[t].DeqHelp?
    ensures Inv(RunThread(m, t), h)
  {
    hide OwnInv, MemInv;
    var l := m.locals[t];
    assert QueueInv(m.sh, h, l.q);
    match l
    case EnqHelp(q, val, node, tl, nxt) =>
      TailSwing(m, h, t, q, tl, nxt, EnqReadTail(q, val, node));
    case EnqSwing(q, val, node, tl) =>
      TailSwing(m, h, t, q, tl, node, EnqCount(q, val));
    case DeqHelp(q, tl, nxt) =>
      TailSwing(m, h, t, q, tl, nxt, DeqReadHead(q));
  }

  function PassHead(m: Machine, q: nat, node: nat, t: nat, l: Local): Machine
    requires q < |m.sh.queues| && t < |m.locals|
  {
    Machine(m.sh.(queues := m.sh.queues[q :=
              m.sh.queues[q].(head := Tagged(node, m.sh.queues[q].head.ver + 1))]), m.locals[t := l])
  }

  function Take(h: History, q: nat, val: Data, old': nat, t: nat): History
    requires q < |h.qs|
  {
    h.(qs := h.qs[q := h.qs[q].(taken := h.qs[q].taken + [val])], own := h.own[old' := Retired(t)])
  }

  /** The state in which a head swing to node is about to succeed. */
  ghost predicate HeadReady(s: Shared, h: History, q: nat, node: nat, val: Data)
    requires q < |s.queues| == |h.qs|
  {
    var v := s.queues[q].head.ver;
    && Successor(h, q, v, node) && v < s.queues[q].tail.ver
    && v < |h.qs[q].vals| && val == h.qs[q].vals[v]
  }

  lemma PassHeadQueue(m: Machine, h: History, q: nat, node: nat, val: Data, t: nat, l: Local)
    requires Inv(m, h) && q < |m.sh.queues| && t < |m.locals| && HeadReady(m.sh, h, q, node, val)
    ensures var m', h' := PassHead(m, q, node, t, l), Take(h, q, val, m.sh.queues[q].head.addr, t);
      MemInv(m'.sh, h') && QueueInv(m'.sh, h', q)
  {
    hide OwnInv, LocalInv, MemInv;
    PassHeadMemory(m, h, q, node, val, t, l);
    var g, v := h.qs[q], m.sh.queues[q].head.ver;
    assert QueueInv(m.sh, h, q);
    HeadIsLive(m, h, q);
    assert g.vals[..v + 1] == g.vals[..v] + [g.vals[v]];
  }

  lemma PassHeadMemory(m: Machine, h: History, q: nat, node: nat, val: Data, t: nat, l: Local)
    requires Inv(m, h) && q < |m.sh.queues| && t < |m.locals| && HeadReady(m.sh, h, q, node, val)
    ensures MemInv(PassHead(m, q, node, t, l).sh, Take(h, q, val, m.sh.queues[q].head.addr, t))
  {
    hide OwnInv, LocalInv, QueueInv;
    HeadIsLive(m, h, q);
    HeadNextIsAddress(m, h, q);
  }

  lemma HeadNextIsAddress(m: Machine, h: History, q: nat)
    requires Inv(m, h) && q < |m.sh.queues| && m.sh.queues[q].head.ver + 1 < |h.qs[q].hist|
    ensures var a := m.sh.queues[q].head.addr; a in m.sh.next && m.sh.next[a] < ADDR_LIMIT
  {
    hide OwnInv, LocalInv;
    assert QueueInv(m.sh, h, q);
    var g, v := h.qs[q], m.sh.queues[q].head.ver;
    assert m.sh.next[g.hist[v]] == g.hist[v + 1];
  }

  lemma PassHeadFrame(m: Machine, h: History, q: nat, node: nat, val: Data, t: nat, l: Local)
    requires Inv(m, h) && q < |m.sh.queues| && t < |m.locals| && HeadReady(m.sh, h, q, node, val)
    requires !HoldsPrivately(m.locals[t])
    ensures var m', h' := PassHead(m, q, node, t, l), Take(h, q, val, m.sh.queues[q].head.addr, t);
      StepFrame(m, h, m', h', t, q)
  {
    hide OwnInv, LocalInv, QueueInv;
    HeadIsLive(m, h, q);
    PassHeadQueue(m, h, q, node, val, t, l);
  }

  lemma HeadIsLive(m: Machine, h: History, q: nat)
    requires Inv(m, h) && q < |m.sh.queues|
    ensures var w := m.sh.queues[q].head;
      w.ver < |h.qs[q].hist| && h.qs[q].hist[w.ver] == w.addr
      && w.addr in h.own && h.own[w.addr] == Live(q, w.ver)
  {
    hide OwnInv, LocalInv;
    assert QueueInv(m.sh, h, q);
  }

  lemma PassHeadOwned(m: Machine, h: History, q: nat, node: nat, val: Data, t: nat, l: Local)
    requires Inv(m, h) && q < |m.sh.queues| && t < |m.locals| && HeadReady(m.sh, h, q, node, val)
    requires !HoldsPrivately(m.locals[t]) && l.DeqFree? && l.node == m.sh.queues[q].head.addr
    ensures var m', h' := PassHead(m, q, node, t, l), Take(h, q, val, m.sh.queues[q].head.addr, t);
      AllOwned(m', h')
  {
    hide LocalInv, QueueInv, MemInv;
    var m', h' := PassHead(m, q, node, t, l), Take(h, q, val, m.sh.queues[q].head.addr, t);
    HeadIsLive(m, h, q);
    forall a | a in h'.own ensures OwnInv(m', h', a) {
      assert OwnInv(m, h, a);
    }
  }

  /** A head swing passes exactly the old dummy, and the value it returns is the one
      published next. */
  lemma PassHeadSucceeds(m: Machine, h: History, q: nat, node: nat, val: Data, t: nat)
    requires Inv(m, h) && q < |m.sh.queues| && t < |m.locals| && HeadReady(m.sh, h, q, node, val)
    requires !HoldsPrivately(m.locals[t]) && NoChain(h, t)
    ensures var addr := m.sh.queues[q].head.addr;
      Inv(PassHead(m, q, node, t, DeqFree(q, addr, val)), Take(h, q, val, addr, t))
  {
    hide OwnInv, QueueInv, StepFrame, AllOwned, HeadReady;
    var addr := m.sh.queues[q].head.addr;
    var l' := DeqFree(q, addr, val);
    PassHeadQueue(m, h, q, node, val, t, l');
    PassHeadFrame(m, h, q, node, val, t, l');
    PassHeadOwned(m, h, q, node, val, t, l');
    Assemble(m, h, PassHead(m, q, node, t, l'), Take(h, q, val, addr, t), t, q);
  }

  lemma HeadSwingStep(m: Machine, h: History, t: nat)
    requires Inv(m, h) && CanRun(m, t) && m.locals[t].DeqCas?
    ensures Inv(RunThread(m, t), TrackRun(m.sh, h, t, m.locals[t]))
  {
    hide OwnInv, MemInv, QueueInv;
    var l := m.locals[t];
    if m.sh.queues[l.q].head != l.hd {
      QuietStep(m, h, t, DeqReadHead(l.q));
    } else {
      PassHeadSucceeds(m, h, l.q, l.nxt, l.val, t);
    }
  }

  // ----- private nodes -----

  /** The state after a step of thread t that rewrites a node t owns privately:
      its fields, its role, t's chain and the pool. */
  ghost predicate PrivateStep(m: Machine, h: History, m': Machine, h': History, t: nat, node: nat)
    requires t < |m.locals|
  {
    && m'.sh.queues == m.sh.queues && h'.qs == h.qs && m'.sh.uniqueCode == m.sh.uniqueCode
    && node in h.own && (OwnedBy(h.own[node], t) || h.own[node].Pooled?)
    && node in m.sh.next && node in m.sh.data && node in h.alloc
    && m'.sh.next == m.sh.next[node := if node in m'.sh.next then m'.sh.next[node] else 0]
    && m'.sh.data.Keys == m.sh.data.Keys
    && (forall a | a in m.sh.data && a != node :: m'.sh.data[a] == m.sh.data[a])
    && h'.own == h.own[node := if node in h'.own then h'.own[node] else Pooled]
    && h'.alloc == h.alloc[node := if node in h'.alloc then h'.alloc[node] else 0]
    && (h'.own[node].Priv? || h'.own[node].Pend? ==>
          if h.own[node].Priv? || h.own[node].Pend? then h'.alloc[node] == h.alloc[node]
          else h.clock <= h'.alloc[node])
    && |h'.pend| == |h.pend| && |h'.pval| == |h.pval|
    && (forall u | 0 <= u < |h.pend| && u != t :: h'.pend[u] == h.pend[u])
    && (forall u | 0 <= u < |h.pval| && u != t :: h'.pval[u] == h.pval[u])
    && m'.locals == m.locals[t := if t < |m'.locals| then m'.locals[t] else Idle]
  }

  lemma PrivateGrows(m: Machine, h: History, m': Machine, h': History, t: nat, node: nat)
    requires Shaped(m, h) && MemInv(m.sh, h) && t < |m.locals| && PrivateStep(m, h, m', h', t, node)
    ensures Grows(m.sh, h, m'.sh, h') && AllocGrows(h, h')
  {
  }

  lemma PrivateKeeps(m: Machine, h: History, m': Machine, h': History, t: nat, node: nat)
    requires Shaped(m, h) && MemInv(m.sh, h) && t < |m.locals| && PrivateStep(m, h, m', h', t, node)
    ensures forall a | a in h.own && a != node :: SameNode(m.sh, h, m'.sh, h', a)
  {
  }

  lemma PrivateFrame(m: Machine, h: History, m': Machine, h': History, t: nat, q: nat, node: nat)
    requires Shaped(m, h) && MemInv(m.sh, h) && t < |m.locals| && PrivateStep(m, h, m', h', t, node)
    requires MemInv(m'.sh, h') && PointersKept(m.sh, m'.sh)
    ensures Shaped(m', h') && StepFrame(m, h, m', h', t, q)
  {
    hide Grows, AllocGrows, SameNode, MemInv, PointersKept;
    PrivateGrows(m, h, m', h', t, node);
    PrivateKeeps(m, h, m', h', t, node);
  }

  lemma PrivateQueue(m: Machine, h: History, m': Machine, h': History, t: nat, q: nat, node: nat)
    requires Inv(m, h) && t < |m.locals| && PrivateStep(m, h, m', h', t, node) && q < |m.sh.queues|
    requires MemInv(m'.sh, h') && PointersKept(m.sh, m'.sh)
    ensures QueueInv(m'.sh, h', q)
  {
    hide LocalInv, QueueInv, OwnInv;
    QueueStable(m.sh, h, m'.sh, h', q);
  }

  lemma PrivateOwned(m: Machine, h: History, m': Machine, h': History, t: nat, node: nat)
    requires Shaped(m, h) && AllOwned(m, h) && t < |m.locals| && PrivateStep(m, h, m', h', t, node)
    requires NoChain(h, t) && Shaped(m', h') && OwnInv(m', h', node)
    requires HoldsPrivately(m.locals[t]) ==> m.locals[t].node == node
    ensures AllOwned(m', h')
  {
    forall a | a in h'.own ensures OwnInv(m', h', a) {
      assert OwnInv(m, h, a);
    }
  }

  lemma PrivateAssemble(m: Machine, h: History, m': Machine, h': History, t: nat, q: nat, node: nat)
    requires Inv(m, h) && t < |m.locals| && PrivateStep(m, h, m', h', t, node) && q < |m.sh.queues|
    requires MemInv(m'.sh, h') && PointersKept(m.sh, m'.sh)
    requires NoChain(h, t) && Shaped(m', h') && OwnInv(m', h', node)
    requires HoldsPrivately(m.locals[t]) ==> m.locals[t].node == node
    requires LocalInv(m'.sh, h', t, m'.locals[t])
    ensures Inv(m', h')
  {
    hide LocalInv, QueueInv, OwnInv, MemInv, StepFrame, Pointer;
    PrivateFrame(m, h, m', h', t, q, node);
    PrivateQueue(m, h, m', h', t, q, node);
    PrivateOwned(m, h, m', h', t, node);
    Assemble(m, h, m', h', t, q);
  }

  lemma FreeShape(m: Machine, h: History, t: nat)
    requires Inv(m, h) && CanRun(m, t) && m.locals[t].DeqFree?
    ensures var m', h' := RunThread(m, t), TrackRun(m.sh, h, t, m.locals[t]);
      MemInv(m'.sh, h') && PrivateStep(m, h, m', h', t, m.locals[t].node)
  {
    hide QueueInv, OwnInv;
  }

  lemma FreeStep(m: Machine, h: History, t: nat)
    requires Inv(m, h) && CanRun(m, t) && m.locals[t].DeqFree?
    ensures Inv(RunThread(m, t), TrackRun(m.sh, h, t, m.locals[t]))
  {
    hide QueueInv, MemInv, PrivateStep;
    var l := m.locals[t];
    FreeShape(m, h, t);
    PrivateAssemble(m, h, RunThread(m, t), TrackRun(m.sh, h, t, l), t, l.q, l.node);
  }

  lemma FillShape(m: Machine, h: History, t: nat)
    requires Inv(m, h) && CanRun(m, t) && m.locals[t].EnqFill?
    ensures var m' := RunThread(m, t);
      MemInv(m'.sh, h) && PrivateStep(m, h, m', h, t, m.locals[t].node)
  {
    hide QueueInv, OwnInv;
  }

  lemma FillStep(m: Machine, h: History, t: nat)
    requires Inv(m, h) && CanRun(m, t) && m.locals[t].EnqFill?
    ensures Inv(RunThread(m, t), h)
  {
    hide QueueInv, PrivateStep;
    var l := m.locals[t];
    FillShape(m, h, t);
    PrivateAssemble(m, h, RunThread(m, t), h, t, l.q, l.node);
  }

  lemma SealShape(m: Machine, h: History, t: nat)
    requires Inv(m, h) && CanRun(m, t) && m.locals[t].EnqSeal?
    ensures var m', h' := RunThread(m, t), TrackRun(m.sh, h, t, m.locals[t]);
      MemInv(m'.sh, h') && PrivateStep(m, h, m', h', t, m.locals[t].node)
  {
    hide QueueInv, OwnInv;
  }

  lemma SealChain(m: Machine, h: History, t: nat)
    requires Inv(m, h) && CanRun(m, t) && m.locals[t].EnqSeal?
    requires MemInv(RunThread(m, t).sh, TrackRun(m.sh, h, t, m.locals[t]))
    ensures LocalInv(RunThread(m, t).sh, TrackRun(m.sh, h, t, m.locals[t]), t, RunThread(m, t).locals[t])
    ensures OwnInv(RunThread(m, t), TrackRun(m.sh, h, t, m.locals[t]), m.locals[t].node)
    ensures PointersKept(m.sh, RunThread(m, t).sh)
  {
    hide QueueInv;
    CodeOf(m, h, m.locals[t].q);
  }

  lemma SealStep(m: Machine, h: History, t: nat)
    requires Inv(m, h) && CanRun(m, t) && m.locals[t].EnqSeal?
    ensures Inv(RunThread(m, t), TrackRun(m.sh, h, t, m.locals[t]))
  {
    hide QueueInv, PrivateStep, OwnInv, MemInv, PointersKept;
    var l := m.locals[t];
    SealShape(m, h, t);
    SealChain(m, h, t);
    PrivateAssemble(m, h, RunThread(m, t), TrackRun(m.sh, h, t, l), t, l.q, l.node);
  }

  lemma CodeOf(m: Machine, h: History, q: nat)
    requires Inv(m, h) && q < |m.sh.queues|
    ensures m.sh.queues[q].code == WORD_LIMIT - 1 - q && m.sh.queues[q].code >= ADDR_LIMIT
  {
    assert QueueInv(m.sh, h, q);
  }

  lemma CallEnqueueMemory(m: Machine, h: History, e: Event)
    requires Inv(m, h) && Enabled(m, e) && e.CallEnqueue?
    ensures MemInv(Next(m, e).sh, Track(m, h, e))
  {
    hide QueueInv, OwnInv, LocalInv;
  }

  lemma CallEnqueueShape(m: Machine, h: History, e: Event)
    requires Inv(m, h) && Enabled(m, e) && e.CallEnqueue?
    ensures PrivateStep(m, h, Next(m, e), Track(m, h, e), e.t, e.node)
  {
    hide QueueInv, OwnInv, LocalInv;
  }

  lemma CallEnqueueStep(m: Machine, h: History, e: Event)
    requires Inv(m, h) && Enabled(m, e) && e.CallEnqueue?
    ensures Inv(Next(m, e), Track(m, h, e))
  {
    hide QueueInv, PrivateStep;
    CallEnqueueMemory(m, h, e);
    CallEnqueueShape(m, h, e);
    PrivateAssemble(m, h, Next(m, e), Track(m, h, e), e.t, e.q, e.node);
  }

  lemma CallDequeueStep(m: Machine, h: History, e: Event)
    requires Inv(m, h) && Enabled(m, e) && e.CallDequeue?
    ensures Inv(Next(m, e), Track(m, h, e))
  {
    hide QueueInv, OwnInv;
    assert LocalInv(m.sh, h, e.t, m.locals[e.t]);
    QuietStep(m, h, e.t, DeqReserve(e.q));
  }

  lemma RefillMemory(m: Machine, h: History, e: Event)
    requires Inv(m, h) && Enabled(m, e) && e.Refill?
    ensures var m', h' := Next(m, e), Track(m, h, e);
      MemInv(m'.sh, h') && Grows(m.sh, h, m'.sh, h') && AllocGrows(h, h')
  {
    hide LocalInv, QueueInv, OwnInv;
    assert MemInv(Next(m, e).sh, Track(m, h, e)) by {
      hide Grows, AllocGrows;
    }
  }

  lemma ConstructMemory(m: Machine, h: History, e: Event)
    requires Inv(m, h) && Enabled(m, e) && e.Construct?
    ensures MemInv(Next(m, e).sh, Track(m, h, e))
  {
    hide LocalInv, QueueInv, OwnInv;
  }

  lemma ConstructGrows(m: Machine, h: History, e: Event)
    requires Inv(m, h) && Enabled(m, e) && e.Construct?
    ensures Grows(m.sh, h, Next(m, e).sh, Track(m, h, e)) && AllocGrows(h, Track(m, h, e))
  {
    hide LocalInv, QueueInv, OwnInv;
  }

  lemma GrowMemory(m: Machine, h: History, e: Event)
    requires Inv(m, h) && Enabled(m, e) && (e.Construct? || e.Refill?)
    ensures var m', h' := Next(m, e), Track(m, h, e);
      MemInv(m'.sh, h') && Grows(m.sh, h, m'.sh, h') && AllocGrows(h, h')
  {
    hide LocalInv, QueueInv, OwnInv, MemInv, Grows, AllocGrows;
    if e.Refill? {
      RefillMemory(m, h, e);
    } else {
      ConstructMemory(m, h, e);
      ConstructGrows(m, h, e);
    }
  }

  lemma GrowOwned(m: Machine, h: History, e: Event)
    requires Inv(m, h) && Enabled(m, e) && (e.Construct? || e.Refill?)
    ensures AllOwned(Next(m, e), Track(m, h, e))
  {
    hide LocalInv, QueueInv, MemInv;
    var m', h' := Next(m, e), Track(m, h, e);
    forall a | a in h'.own ensures OwnInv(m', h', a) {
      assert a in h.own ==> OwnInv(m, h, a);
    }
  }

  lemma GrowKeeps(m: Machine, h: History, e: Event)
    requires Inv(m, h) && Enabled(m, e) && (e.Construct? || e.Refill?)
    ensures forall a | a in h.own :: SameNode(m.sh, h, Next(m, e).sh, Track(m, h, e), a)
  {
    hide LocalInv, QueueInv, OwnInv;
  }

  lemma GrowFrame(m: Machine, h: History, e: Event)
    requires Inv(m, h) && Enabled(m, e) && (e.Construct? || e.Refill?)
    ensures var m', h' := Next(m, e), Track(m, h, e);
      StepFrame(m, h, m', h', |m.locals|, |m.sh.queues|)
  {
    hide LocalInv, QueueInv, OwnInv, Grows, AllocGrows, MemInv, SameNode;
    GrowMemory(m, h, e);
    GrowKeeps(m, h, e);
  }

  lemma NewQueue(m: Machine, h: History, e: Event)
    requires Inv(m, h) && Enabled(m, e) && e.Construct?
    ensures MemInv(Next(m, e).sh, Track(m, h, e))
    ensures QueueInv(Next(m, e).sh, Track(m, h, e), |m.sh.queues|)
  {
    GrowMemory(m, h, e);
    hide LocalInv, OwnInv;
  }

  lemma GrowStep(m: Machine, h: History, e: Event)
    requires Inv(m, h) && Enabled(m, e) && (e.Construct? || e.Refill?)
    ensures Inv(Next(m, e), Track(m, h, e))
  {
    hide LocalInv, QueueInv, OwnInv, MemInv;
    var m', h' := Next(m, e), Track(m, h, e);
    GrowFrame(m, h, e);
    GrowOwned(m, h, e);
    if e.Construct? {
      NewQueue(m, h, e);
    }
    OthersQueues(m, h, m', h', |m.locals|, |m.locals|, |m.sh.queues|);
    OtherThreads(m, h, m', h', |m.locals|, |m.locals|, |m.sh.queues|);
  }
}
