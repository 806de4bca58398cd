/** The compare-and-swap of line 98: it attaches to the last node of its own queue, or
    to the last node of a chain that another enqueuer of that queue has not linked yet. */
module QueueLink {
  import opened TaggedWord
  import opened QueueMachine
  import opened QueueHistory
  import opened QueueFrames
  import opened QueueSteps

  /** Thread t is about to succeed at line 98. */
  ghost predicate LinkReady(m: Machine, h: History, t: nat) {
    && Inv(m, h) && CanRun(m, t) && m.locals[t].EnqLink?
    && m.locals[t].tl.addr in m.sh.next
    && m.sh.next[m.locals[t].tl.addr] == m.sh.queues[m.locals[t].q].code
  }

  /** The node that is attached to is the last one of the queue. */
  ghost predicate AttachesToQueue(m: Machine, h: History, t: nat)
    requires Shaped(m, h) && CanRun(m, t) && m.locals[t].EnqLink?
  {
    var l := m.locals[t];
    && |h.qs[l.q].hist| > 0 && l.tl.addr in h.own
    && h.own[l.tl.addr] == Live(l.q, |h.qs[l.q].hist| - 1)
  }

  /** The node that is attached to ends the pending chain of thread y. */
  ghost predicate AttachesToPending(m: Machine, h: History, t: nat, y: nat)
    requires Shaped(m, h) && CanRun(m, t) && m.locals[t].EnqLink?
  {
    var l := m.locals[t];
    && y < |m.locals| && y != t && !AtRest(m.locals[y]) && m.locals[y].q == l.q
    && |h.pend[y]| > 0 && l.tl.addr in h.own
    && h.own[l.tl.addr] == Pend(y, |h.pend[y]| - 1)
  }

  ghost predicate Looping(l: Local) {
    l.EnqReadTail? || l.EnqReadNext? || l.EnqLink? || l.EnqHelp?
  }

  lemma CodesDiffer(m: Machine, h: History, q: nat, r: nat)
    requires Inv(m, h) && q < |m.sh.queues| && r < |m.sh.queues|
    ensures m.sh.queues[q].code == m.sh.queues[r].code <==> q == r
  {
    hide MemInv, LocalInv, OwnInv, QueueInv;
    CodeOf(m, h, q);
    CodeOf(m, h, r);
  }

  lemma NodeIsMapped(m: Machine, h: History, t: nat)
    requires Inv(m, h) && CanRun(m, t) && m.locals[t].EnqLink?
    ensures m.locals[t].node in m.sh.next
  {
    hide QueueInv, OwnInv;
    assert LocalInv(m.sh, h, t, m.locals[t]);
  }

  /** Only the last node of a queue holds an end code. */
  lemma InteriorNext(m: Machine, h: History, r: nat, i: nat)
    requires Inv(m, h) && r < |m.sh.queues|
    ensures i < |h.qs[r].hist| ==> h.qs[r].hist[i] in m.sh.next
    ensures m.sh.queues[r].head.ver <= i && i + 1 < |h.qs[r].hist| ==>
      m.sh.next[h.qs[r].hist[i]] < ADDR_LIMIT
    ensures m.sh.queues[r].head.ver <= i && i + 1 == |h.qs[r].hist| ==>
      m.sh.next[h.qs[r].hist[i]] == m.sh.queues[r].code
  {
    hide OwnInv, LocalInv;
    assert QueueInv(m.sh, h, r);
    var hist := h.qs[r].hist;
    assert m.sh.queues[r].head.ver <= i && i + 1 < |hist| ==> m.sh.next[hist[i]] == hist[i + 1];
  }

  /** Only the last node of a pending chain holds an end code. */
  lemma InteriorChainNext(m: Machine, h: History, y: nat, k: nat)
    requires Inv(m, h) && y < |m.locals| && |h.pend[y]| > 0
    ensures k < |h.pend[y]| ==> h.pend[y][k] in m.sh.next
    ensures k + 1 < |h.pend[y]| ==> m.sh.next[h.pend[y][k]] < ADDR_LIMIT
  {
    hide OwnInv, QueueInv;
    ChainOwner(m, h, y);
    var p := h.pend[y];
    assert k + 1 < |p| ==> m.sh.next[p[k]] == p[k + 1];
  }

  lemma LiveTarget(m: Machine, h: History, t: nat, r: nat, i: nat)
    requires LinkReady(m, h, t) && h.own[m.locals[t].tl.addr] == Live(r, i)
    ensures AttachesToQueue(m, h, t)
  {
    hide LocalInv, QueueInv;
    var l := m.locals[t];
    assert OwnInv(m, h, l.tl.addr);
    InteriorNext(m, h, r, i);
    CodeOf(m, h, l.q);
    CodesDiffer(m, h, l.q, r);
  }

  lemma ChainOwner(m: Machine, h: History, y: nat)
    requires Inv(m, h) && y < |m.locals| && (|h.pend[y]| > 0 || Looping(m.locals[y]))
    ensures |h.pend[y]| > 0
    ensures var l := m.locals[y];
      Looping(l) && l.q < |m.sh.queues| && ChainInv(m.sh, h, y, l.q, l.node, l.val)
  {
    hide QueueInv, OwnInv, MemInv;
    assert LocalInv(m.sh, h, y, m.locals[y]);
  }

  lemma PendingTarget(m: Machine, h: History, t: nat, y: nat, k: nat)
    requires LinkReady(m, h, t) && h.own[m.locals[t].tl.addr] == Pend(y, k)
    ensures AttachesToPending(m, h, t, y)
  {
    hide QueueInv;
    var l := m.locals[t];
    assert OwnInv(m, h, l.tl.addr);
    ChainOwner(m, h, y);
    ChainOwner(m, h, t);
    CodeOf(m, h, l.q);
    CodesDiffer(m, h, l.q, m.locals[y].q);
    InteriorChainNext(m, h, y, k);
  }

  /** A successful compare-and-swap at line 98 attaches to the end of its own queue or to
      the end of another enqueuer's pending chain, never to anything else. */
  lemma LinkTarget(m: Machine, h: History, t: nat)
    requires LinkReady(m, h, t)
    ensures AttachesToQueue(m, h, t)
      || (h.own[m.locals[t].tl.addr].Pend? && AttachesToPending(m, h, t, h.own[m.locals[t].tl.addr].t))
  {
    hide LocalInv, OwnInv, QueueInv;
    var l := m.locals[t];
    CodeOf(m, h, l.q);
    match h.own[l.tl.addr]
    case Live(r, i) => LiveTarget(m, h, t, r, i);
    case Pend(y, k) => PendingTarget(m, h, t, y, k);
    case _ =>
  }

  // ----- attaching to the queue -----

  function LinkMachine(m: Machine, t: nat): Machine
    requires t < |m.locals| && m.locals[t].EnqLink?
  {
    var l := m.locals[t];
    Machine(m.sh.(next := m.sh.next[l.tl.addr := l.node]),
            m.locals[t := EnqSwing(l.q, l.val, l.node, l.tl)])
  }

  function Linked(h: History, q: nat, val: Data): History
    requires q < |h.qs|
  {
    h.(qs := h.qs[q := h.qs[q].(linked := h.qs[q].linked + [val])])
  }

  function PublishHistory(m: Machine, h: History, t: nat): History
    requires Shaped(m, h) && CanRun(m, t) && m.locals[t].EnqLink?
  {
    AfterPublish(Linked(h, m.locals[t].q, m.locals[t].val), t, m.locals[t].q)
  }

  lemma PublishMemInv(m: Machine, h: History, t: nat)
    requires LinkReady(m, h, t) && AttachesToQueue(m, h, t)
    ensures MemInv(LinkMachine(m, t).sh, PublishHistory(m, h, t))
  {
    hide QueueInv, OwnInv, LocalInv;
    NodeIsMapped(m, h, t);
  }

  lemma PublishGrows(m: Machine, h: History, t: nat)
    requires LinkReady(m, h, t) && AttachesToQueue(m, h, t)
    ensures Grows(m.sh, h, LinkMachine(m, t).sh, PublishHistory(m, h, t)) && AllocGrows(h, PublishHistory(m, h, t))
  {
    hide QueueInv, OwnInv, LocalInv;
  }

  lemma PublishMemory(m: Machine, h: History, t: nat)
    requires LinkReady(m, h, t) && AttachesToQueue(m, h, t)
    ensures var m', h' := LinkMachine(m, t), PublishHistory(m, h, t);
      MemInv(m'.sh, h') && Grows(m.sh, h, m'.sh, h') && AllocGrows(h, h') && PointersKept(m.sh, m'.sh)
  {
    hide QueueInv, OwnInv, MemInv, Grows, AllocGrows;
    PublishMemInv(m, h, t);
    PublishGrows(m, h, t);
    NodeIsMapped(m, h, t);
  }

  lemma PublishKeeps(m: Machine, h: History, t: nat)
    requires LinkReady(m, h, t) && AttachesToQueue(m, h, t)
    ensures var m', h' := LinkMachine(m, t), PublishHistory(m, h, t);
      forall a | a in h.own && a != m.locals[t].tl.addr && !OwnedBy(h.own[a], t) ::
        SameNode(m.sh, h, m'.sh, h', a)
  {
    hide QueueInv, OwnInv, LocalInv;
  }

  lemma PublishFrame(m: Machine, h: History, t: nat)
    requires LinkReady(m, h, t) && AttachesToQueue(m, h, t)
    ensures StepFrame(m, h, LinkMachine(m, t), PublishHistory(m, h, t), t, m.locals[t].q)
  {
    hide QueueInv, OwnInv, LocalInv, MemInv, Grows, AllocGrows, PointersKept, SameNode;
    PublishMemory(m, h, t);
    PublishKeeps(m, h, t);
  }

  lemma PublishOwned(m: Machine, h: History, t: nat)
    requires LinkReady(m, h, t) && AttachesToQueue(m, h, t)
    ensures AllOwned(LinkMachine(m, t), PublishHistory(m, h, t))
  {
    hide LocalInv, QueueInv, MemInv;
    var m', h' := LinkMachine(m, t), PublishHistory(m, h, t);
    forall a | a in h'.own ensures OwnInv(m', h', a) {
      assert OwnInv(m, h, a);
    }
  }

  /** What the history looks like around the seam. */
  lemma PublishSeam(m: Machine, h: History, t: nat)
    requires LinkReady(m, h, t) && AttachesToQueue(m, h, t)
    ensures var l := m.locals[t];
      var g, p, next' := h.qs[l.q], h.pend[t], LinkMachine(m, t).sh.next;
      && QueueInv(m.sh, h, l.q) && ChainInv(m.sh, h, t, l.q, l.node, l.val)
      && g.hist[|g.hist| - 1] == l.tl.addr
      && (forall i | m.sh.queues[l.q].head.ver <= i < |g.hist| - 1 :: next'[g.hist[i]] == m.sh.next[g.hist[i]])
      && (forall k | 0 <= k < |p| :: next'[p[k]] == m.sh.next[p[k]])
  {
    hide OwnInv;
    var l := m.locals[t];
    ChainOwner(m, h, t);
    assert QueueInv(m.sh, h, l.q);
    assert OwnInv(m, h, l.tl.addr) by {
      hide QueueInv, LocalInv, MemInv;
    }
    SeamNode(m, h, t);
  }

  lemma SeamNode(m: Machine, h: History, t: nat)
    requires LinkReady(m, h, t) && AttachesToQueue(m, h, t)
    ensures var g := h.qs[m.locals[t].q]; g.hist[|g.hist| - 1] == m.locals[t].tl.addr
  {
    hide LocalInv, QueueInv, MemInv;
    assert OwnInv(m, h, m.locals[t].tl.addr);
  }

  lemma PublishPositions(m: Machine, h: History, t: nat)
    requires LinkReady(m, h, t) && AttachesToQueue(m, h, t)
    ensures var l, h' := m.locals[t], PublishHistory(m, h, t);
      forall i | m.sh.queues[l.q].head.ver <= i < |h'.qs[l.q].hist| ::
        h'.qs[l.q].hist[i] in h'.own && h'.own[h'.qs[l.q].hist[i]] == Live(l.q, i)
  {
    hide LocalInv, OwnInv;
    PublishSeam(m, h, t);
    var l, h' := m.locals[t], PublishHistory(m, h, t);
    var n, p := |h.qs[l.q].hist|, h.pend[t];
    forall i | m.sh.queues[l.q].head.ver <= i < |h'.qs[l.q].hist|
      ensures h'.qs[l.q].hist[i] in h'.own && h'.own[h'.qs[l.q].hist[i]] == Live(l.q, i)
    {
      if i >= n {
        assert h.own[p[i - n]] == Pend(t, i - n);
      } else {
        assert h.own[h.qs[l.q].hist[i]] == Live(l.q, i);
      }
    }
  }

  lemma PublishLinks(m: Machine, h: History, t: nat)
    requires LinkReady(m, h, t) && AttachesToQueue(m, h, t)
    ensures var l, m', h' := m.locals[t], LinkMachine(m, t), PublishHistory(m, h, t);
      && (forall i | 0 <= i < |h'.qs[l.q].hist| :: h'.qs[l.q].hist[i] in m'.sh.next)
      && (forall i, j | m.sh.queues[l.q].head.ver <= i && j == i + 1 && j < |h'.qs[l.q].hist| ::
            m'.sh.next[h'.qs[l.q].hist[i]] == h'.qs[l.q].hist[j])
      && m'.sh.next[h'.qs[l.q].hist[|h'.qs[l.q].hist| - 1]] == m.sh.queues[l.q].code
  {
    hide LocalInv, OwnInv;
    PublishSeam(m, h, t);
    var l, m', h' := m.locals[t], LinkMachine(m, t), PublishHistory(m, h, t);
    var g, p, g' := h.qs[l.q], h.pend[t], h'.qs[l.q];
    var n := |g.hist|;
    forall i, j | m.sh.queues[l.q].head.ver <= i && j == i + 1 && j < |g'.hist|
      ensures m'.sh.next[g'.hist[i]] == g'.hist[j]
    {
      if i < n - 1 {
        assert m.sh.next[g.hist[i]] == g.hist[j];
      } else if i >= n {
        assert m.sh.next[p[i - n]] == p[j - n];
      }
    }
  }

  lemma PublishData(m: Machine, h: History, t: nat)
    requires LinkReady(m, h, t) && AttachesToQueue(m, h, t)
    ensures var l, h' := m.locals[t], PublishHistory(m, h, t);
      var g' := h'.qs[l.q];
      && |g'.vals| == |g'.hist| - 1
      && (forall i | m.sh.queues[l.q].head.ver < i < |g'.hist| ::
            g'.hist[i] in m.sh.data && m.sh.data[g'.hist[i]] == g'.vals[i - 1])
  {
    hide LocalInv, OwnInv;
    var l, h' := m.locals[t], PublishHistory(m, h, t);
    ChainOwner(m, h, t);
    assert QueueInv(m.sh, h, l.q);
    var g, p, pv, g' := h.qs[l.q], h.pend[t], h.pval[t], h'.qs[l.q];
    var n := |g.hist|;
    forall i | m.sh.queues[l.q].head.ver < i < |g'.hist|
      ensures g'.hist[i] in m.sh.data && m.sh.data[g'.hist[i]] == g'.vals[i - 1]
    {
      if i >= n {
        assert m.sh.data[p[i - n]] == pv[i - n];
      }
    }
  }

  lemma PublishQueue(m: Machine, h: History, t: nat)
    requires LinkReady(m, h, t) && AttachesToQueue(m, h, t)
    requires MemInv(LinkMachine(m, t).sh, PublishHistory(m, h, t))
    requires PointersKept(m.sh, LinkMachine(m, t).sh)
    ensures QueueInv(LinkMachine(m, t).sh, PublishHistory(m, h, t), m.locals[t].q)
  {
    hide LocalInv, OwnInv, MemInv, PointersKept;
    var l := m.locals[t];
    PublishPositions(m, h, t);
    PublishLinks(m, h, t);
    PublishData(m, h, t);
    PublishPointers(m, h, t);
    assert QueueInv(m.sh, h, l.q);
    assert PublishHistory(m, h, t).qs[l.q].vals[..m.sh.queues[l.q].head.ver]
        == h.qs[l.q].vals[..m.sh.queues[l.q].head.ver];
  }

  lemma PublishPointers(m: Machine, h: History, t: nat)
    requires LinkReady(m, h, t) && AttachesToQueue(m, h, t)
    requires PointersKept(m.sh, LinkMachine(m, t).sh)
    ensures var g', s' := PublishHistory(m, h, t).qs[m.locals[t].q], LinkMachine(m, t).sh;
      forall i | 0 <= i < |g'.hist| :: g'.hist[i] in s'.next && Pointer(s', s'.next[g'.hist[i]])
  {
    hide OwnInv;
    ChainOwner(m, h, t);
    assert QueueInv(m.sh, h, m.locals[t].q);
    var g', s' := PublishHistory(m, h, t).qs[m.locals[t].q], LinkMachine(m, t).sh;
    var n, p := |h.qs[m.locals[t].q].hist|, h.pend[t];
    forall i | 0 <= i < |g'.hist| ensures g'.hist[i] in s'.next && Pointer(s', s'.next[g'.hist[i]]) {
      if i >= n && i + 1 - n < |p| {
        assert m.sh.next[p[i - n]] == p[i + 1 - n];
      }
    }
  }

  lemma TailIsLive(m: Machine, h: History, q: nat)
    requires Inv(m, h) && q < |m.sh.queues|
    ensures var w := m.sh.queues[q].tail;
      w.ver < |h.qs[q].hist| && h.qs[q].hist[w.ver] == w.addr
      && w.addr in h.own && h.own[w.addr] == Live(q, w.ver)
  {
    hide OwnInv, LocalInv;
    assert QueueInv(m.sh, h, q);
  }

  lemma PublishLocal(m: Machine, h: History, t: nat)
    requires LinkReady(m, h, t) && AttachesToQueue(m, h, t)
    requires MemInv(LinkMachine(m, t).sh, PublishHistory(m, h, t))
    ensures LocalInv(LinkMachine(m, t).sh, PublishHistory(m, h, t), t, LinkMachine(m, t).locals[t])
  {
    hide OwnInv, QueueInv, MemInv, ChainInv, Younger;
    var l := m.locals[t];
    ChainHead(m, h, t);
    assert LocalInv(m.sh, h, t, l);
    TailIsLive(m, h, l.q);
  }

  lemma ChainHead(m: Machine, h: History, t: nat)
    requires Inv(m, h) && t < |m.locals| && Looping(m.locals[t])
    ensures |h.pend[t]| == |h.pval[t]| > 0 && h.pend[t][0] == m.locals[t].node
    ensures h.pval[t][0] == m.locals[t].val
  {
    ChainOwner(m, h, t);
  }

  lemma PublishStep(m: Machine, h: History, t: nat)
    requires LinkReady(m, h, t) && AttachesToQueue(m, h, t)
    ensures Inv(LinkMachine(m, t), PublishHistory(m, h, t))
  {
    hide OwnInv, QueueInv, LocalInv, MemInv, Grows, AllocGrows, PointersKept, StepFrame, AllOwned;
    PublishMemory(m, h, t);
    PublishFrame(m, h, t);
    PublishOwned(m, h, t);
    PublishQueue(m, h, t);
    PublishLocal(m, h, t);
    Assemble(m, h, LinkMachine(m, t), PublishHistory(m, h, t), t, m.locals[t].q);
  }

  // ----- attaching to another enqueuer's chain -----

  function GraftHistory(m: Machine, h: History, t: nat, y: nat): History
    requires Shaped(m, h) && CanRun(m, t) && m.locals[t].EnqLink? && y < |m.locals|
  {
    AfterGraft(Linked(h, m.locals[t].q, m.locals[t].val), t, y)
  }

  lemma GraftMemInv(m: Machine, h: History, t: nat, y: nat)
    requires LinkReady(m, h, t) && AttachesToPending(m, h, t, y)
    ensures MemInv(LinkMachine(m, t).sh, GraftHistory(m, h, t, y))
  {
    hide QueueInv, OwnInv, LocalInv;
    NodeIsMapped(m, h, t);
  }

  lemma GraftGrows(m: Machine, h: History, t: nat, y: nat)
    requires LinkReady(m, h, t) && AttachesToPending(m, h, t, y)
    ensures Grows(m.sh, h, LinkMachine(m, t).sh, GraftHistory(m, h, t, y)) && AllocGrows(h, GraftHistory(m, h, t, y))
  {
    hide QueueInv, OwnInv, LocalInv;
  }

  lemma GraftMemory(m: Machine, h: History, t: nat, y: nat)
    requires LinkReady(m, h, t) && AttachesToPending(m, h, t, y)
    ensures var m', h' := LinkMachine(m, t), GraftHistory(m, h, t, y);
      MemInv(m'.sh, h') && Grows(m.sh, h, m'.sh, h') && AllocGrows(h, h') && PointersKept(m.sh, m'.sh)
  {
    hide QueueInv, OwnInv, MemInv, Grows, AllocGrows;
    GraftMemInv(m, h, t, y);
    GraftGrows(m, h, t, y);
    NodeIsMapped(m, h, t);
  }

  lemma GraftKeeps(m: Machine, h: History, t: nat, y: nat)
    requires LinkReady(m, h, t) && AttachesToPending(m, h, t, y)
    ensures var m', h' := LinkMachine(m, t), GraftHistory(m, h, t, y);
      forall a | a in h.own && a != m.locals[t].tl.addr && !OwnedBy(h.own[a], t) ::
        SameNode(m.sh, h, m'.sh, h', a)
  {
    hide QueueInv, OwnInv, LocalInv;
  }

  lemma GraftFrame(m: Machine, h: History, t: nat, y: nat)
    requires LinkReady(m, h, t) && AttachesToPending(m, h, t, y)
    ensures StepFrame2(m, h, LinkMachine(m, t), GraftHistory(m, h, t, y), t, y, m.locals[t].q)
  {
    hide QueueInv, OwnInv, LocalInv, MemInv, Grows, AllocGrows, PointersKept, SameNode;
    GraftMemory(m, h, t, y);
    GraftKeeps(m, h, t, y);
  }

  lemma GraftOwned(m: Machine, h: History, t: nat, y: nat)
    requires LinkReady(m, h, t) && AttachesToPending(m, h, t, y)
    ensures AllOwned(LinkMachine(m, t), GraftHistory(m, h, t, y))
  {
    hide LocalInv, QueueInv, MemInv;
    var m', h' := LinkMachine(m, t), GraftHistory(m, h, t, y);
    forall a | a in h'.own ensures OwnInv(m', h', a) {
      assert OwnInv(m, h, a);
    }
  }

  lemma GraftQueue(m: Machine, h: History, t: nat, y: nat)
    requires LinkReady(m, h, t) && AttachesToPending(m, h, t, y)
    ensures MemInv(LinkMachine(m, t).sh, GraftHistory(m, h, t, y))
    ensures QueueInv(LinkMachine(m, t).sh, GraftHistory(m, h, t, y), m.locals[t].q)
  {
    hide LocalInv, OwnInv, QueueInv, MemInv, Grows, AllocGrows, PointersKept, SameNode;
    GraftMemory(m, h, t, y);
    GraftKeeps(m, h, t, y);
    QueueStable(m.sh, h, LinkMachine(m, t).sh, GraftHistory(m, h, t, y), m.locals[t].q);
  }

  /** The merged chain still runs from the newest allocation to the oldest. */
  lemma GraftAges(m: Machine, h: History, t: nat, y: nat)
    requires LinkReady(m, h, t) && AttachesToPending(m, h, t, y)
    ensures var p', alloc := GraftHistory(m, h, t, y).pend[y], h.alloc;
      && (forall k | 0 <= k < |p'| :: p'[k] in alloc)
      && (forall j, k | 0 <= j < k < |p'| :: alloc[p'[k]] < alloc[p'[j]])
  {
    hide QueueInv, OwnInv;
    var p, s, p' := h.pend[y], h.pend[t], GraftHistory(m, h, t, y).pend[y];
    ChainOwner(m, h, y);
    ChainOwner(m, h, t);
    ChainSeam(m, h, t, y);
    assert h.alloc[s[0]] < h.alloc[p[|p| - 1]] by {
      assert LocalInv(m.sh, h, t, m.locals[t]);
    }
    AgesConcat(h.alloc, p, s);
    assert p' == p + s;
  }

  lemma AgesConcat(alloc: map<nat, nat>, p: seq<nat>, s: seq<nat>)
    requires |p| > 0 && |s| > 0
    requires forall k | 0 <= k < |p| :: p[k] in alloc
    requires forall k | 0 <= k < |s| :: s[k] in alloc
    requires forall j, k | 0 <= j < k < |p| :: alloc[p[k]] < alloc[p[j]]
    requires forall j, k | 0 <= j < k < |s| :: alloc[s[k]] < alloc[s[j]]
    requires alloc[s[0]] < alloc[p[|p| - 1]]
    ensures forall j, k | 0 <= j < k < |p + s| :: alloc[(p + s)[k]] < alloc[(p + s)[j]]
  {
  }

  lemma GraftLinks(m: Machine, h: History, t: nat, y: nat)
    requires LinkReady(m, h, t) && AttachesToPending(m, h, t, y)
    ensures var p', s' := GraftHistory(m, h, t, y).pend[y], LinkMachine(m, t).sh;
      && |p'| > 0
      && (forall k | 0 <= k < |p'| :: p'[k] in s'.next)
      && (forall j, k | 0 <= j && k == j + 1 && k < |p'| :: s'.next[p'[j]] == p'[k])
      && s'.next[p'[|p'| - 1]] == m.sh.queues[m.locals[t].q].code
  {
    hide QueueInv, OwnInv, LocalInv;
    ChainOwner(m, h, y);
    ChainOwner(m, h, t);
    ChainSeam(m, h, t, y);
    var p, s, p', s' := h.pend[y], h.pend[t], GraftHistory(m, h, t, y).pend[y], LinkMachine(m, t).sh;
    forall j, k | 0 <= j && k == j + 1 && k < |p'| ensures s'.next[p'[j]] == p'[k] {
      if k < |p| {
        assert m.sh.next[p[j]] == p[k];
      } else if j >= |p| {
        assert m.sh.next[s[j - |p|]] == s[k - |p|];
      }
    }
  }

  lemma GraftPositions(m: Machine, h: History, t: nat, y: nat)
    requires LinkReady(m, h, t) && AttachesToPending(m, h, t, y)
    ensures var h' := GraftHistory(m, h, t, y);
      forall k | 0 <= k < |h'.pend[y]| ::
        h'.pend[y][k] in h'.own && h'.own[h'.pend[y][k]] == Pend(y, k)
  {
    hide QueueInv, OwnInv, LocalInv;
    ChainOwner(m, h, y);
    ChainOwner(m, h, t);
    var h' := GraftHistory(m, h, t, y);
    var p, s := h.pend[y], h.pend[t];
    forall k | 0 <= k < |h'.pend[y]|
      ensures h'.pend[y][k] in h'.own && h'.own[h'.pend[y][k]] == Pend(y, k)
    {
      if k < |p| {
        assert h.own[p[k]] == Pend(y, k);
      } else {
        assert h.own[s[k - |p|]] == Pend(t, k - |p|);
      }
    }
  }

  lemma GraftData(m: Machine, h: History, t: nat, y: nat)
    requires LinkReady(m, h, t) && AttachesToPending(m, h, t, y)
    ensures var p', pv' := GraftHistory(m, h, t, y).pend[y], GraftHistory(m, h, t, y).pval[y];
      && |p'| == |pv'|
      && (forall k | 0 <= k < |p'| :: p'[k] in m.sh.data && m.sh.data[p'[k]] == pv'[k])
  {
    hide QueueInv, OwnInv, LocalInv;
    ChainOwner(m, h, y);
    ChainOwner(m, h, t);
  }

  lemma GraftChain(m: Machine, h: History, t: nat, y: nat)
    requires LinkReady(m, h, t) && AttachesToPending(m, h, t, y)
    requires MemInv(LinkMachine(m, t).sh, GraftHistory(m, h, t, y))
    ensures Looping(m.locals[y])
    ensures var l := m.locals[y];
      ChainInv(LinkMachine(m, t).sh, GraftHistory(m, h, t, y), y, l.q, l.node, l.val)
  {
    hide QueueInv, OwnInv, LocalInv;
    ChainOwner(m, h, y);
    GraftAges(m, h, t, y);
    GraftLinks(m, h, t, y);
    GraftPositions(m, h, t, y);
    GraftData(m, h, t, y);
  }

  lemma ChainSeam(m: Machine, h: History, t: nat, y: nat)
    requires LinkReady(m, h, t) && AttachesToPending(m, h, t, y)
    requires |h.pend[t]| > 0
    ensures var p, s, next' := h.pend[y], h.pend[t], LinkMachine(m, t).sh.next;
      && p[|p| - 1] == m.locals[t].tl.addr
      && (forall k | 0 <= k < |p| - 1 :: p[k] in next' && next'[p[k]] == m.sh.next[p[k]])
      && (forall k | 0 <= k < |s| :: s[k] in next' && next'[s[k]] == m.sh.next[s[k]])
  {
    hide QueueInv, MemInv, LocalInv;
    ChainOwner(m, h, y);
    ChainOwner(m, h, t);
    assert OwnInv(m, h, m.locals[t].tl.addr);
  }

  lemma GraftLocals(m: Machine, h: History, t: nat, y: nat)
    requires LinkReady(m, h, t) && AttachesToPending(m, h, t, y)
    requires MemInv(LinkMachine(m, t).sh, GraftHistory(m, h, t, y))
    ensures LocalInv(LinkMachine(m, t).sh, GraftHistory(m, h, t, y), t, LinkMachine(m, t).locals[t])
    ensures LocalInv(LinkMachine(m, t).sh, GraftHistory(m, h, t, y), y, m.locals[y])
  {
    hide OwnInv, ChainInv, MemInv;
    GraftLinker(m, h, t, y);
    GraftChain(m, h, t, y);
    assert LocalInv(m.sh, h, y, m.locals[y]);
    TailIsLive(m, h, m.locals[t].q);
  }

  lemma GraftLinker(m: Machine, h: History, t: nat, y: nat)
    requires LinkReady(m, h, t) && AttachesToPending(m, h, t, y)
    requires MemInv(LinkMachine(m, t).sh, GraftHistory(m, h, t, y))
    ensures LocalInv(LinkMachine(m, t).sh, GraftHistory(m, h, t, y), t, LinkMachine(m, t).locals[t])
  {
    hide OwnInv, ChainInv, MemInv;
    assert LocalInv(m.sh, h, t, m.locals[t]);
    TailIsLive(m, h, m.locals[t].q);
  }

  lemma GraftStep(m: Machine, h: History, t: nat, y: nat)
    requires LinkReady(m, h, t) && AttachesToPending(m, h, t, y)
    ensures Inv(LinkMachine(m, t), GraftHistory(m, h, t, y))
  {
    hide OwnInv, QueueInv, LocalInv, MemInv, StepFrame2, AllOwned;
    GraftFrame(m, h, t, y);
    GraftOwned(m, h, t, y);
    GraftQueue(m, h, t, y);
    GraftLocals(m, h, t, y);
    Assemble2(m, h, LinkMachine(m, t), GraftHistory(m, h, t, y), t, y, m.locals[t].q);
  }

  // ----- the step -----

  /** Line 98, whether or not the comparison succeeds. */
  lemma LinkStep(m: Machine, h: History, t: nat)
    requires Inv(m, h) && CanRun(m, t) && m.locals[t].EnqLink?
    ensures Inv(RunThread(m, t), TrackRun(m.sh, h, t, m.locals[t]))
  {
    hide OwnInv, QueueInv;
    var l := m.locals[t];
    assert LocalInv(m.sh, h, t, l);
    NextOfSaved(m, h, l.q, l.tl);
    if m.sh.next[l.tl.addr] != m.sh.queues[l.q].code {
      QuietStep(m, h, t, EnqReadTail(l.q, l.val, l.node));
    } else {
      LinkSucceeds(m, h, t);
    }
  }

  lemma LinkSucceeds(m: Machine, h: History, t: nat)
    requires LinkReady(m, h, t)
    ensures Inv(RunThread(m, t), TrackRun(m.sh, h, t, m.locals[t]))
  {
    hide OwnInv, QueueInv, LocalInv, MemInv;
    LinkTarget(m, h, t);
    var a := m.locals[t].tl.addr;
    if AttachesToQueue(m, h, t) {
      PublishStep(m, h, t);
    } else {
      GraftStep(m, h, t, h.own[a].t);
    }
  }
}
