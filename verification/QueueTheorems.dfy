/** What every run of the queue guarantees, with nodes recycled at will: no hypothesis on
    the schedule is used in this module. */
module QueueTheorems {
  import opened TaggedWord
  import opened QueueMachine
  import opened QueueHistory
  import opened QueueSteps
  import opened QueueLink
  import opened QueueRuns

  // ----- the contents of a queue, read off the memory -----

  /** Behind node a the links lead through nodes holding exactly vs and end with code. */
  ghost predicate Reads(s: Shared, a: nat, code: nat, vs: seq<Data>)
    decreases |vs|
  {
    && a in s.next
    && if vs == [] then s.next[a] == code
       else s.next[a] in s.data && s.next[a] != code
            && s.data[s.next[a]] == vs[0] && Reads(s, s.next[a], code, vs[1..])
  }

  /** The memory determines the contents. */
  lemma {:induction false} ReadsUnique(s: Shared, a: nat, code: nat, vs: seq<Data>, ws: seq<Data>)
    requires Reads(s, a, code, vs) && Reads(s, a, code, ws)
    ensures vs == ws
    decreases |vs|
  {
    if vs != [] && ws != [] {
      ReadsUnique(s, s.next[a], code, vs[1..], ws[1..]);
    }
  }

  lemma {:induction false} ReadsFrom(m: Machine, h: History, q: nat, i: nat)
    requires Inv(m, h) && q < |m.sh.queues| && m.sh.queues[q].head.ver <= i < |h.qs[q].hist|
    ensures i <= |h.qs[q].vals|
    ensures Reads(m.sh, h.qs[q].hist[i], m.sh.queues[q].code, h.qs[q].vals[i..])
    decreases |h.qs[q].hist| - i
  {
    hide OwnInv, LocalInv;
    assert QueueInv(m.sh, h, q);
    var g := h.qs[q];
    if i + 1 < |g.hist| {
      assert m.sh.next[g.hist[i]] == g.hist[i + 1];
      assert m.sh.data[g.hist[i + 1]] == g.vals[i];
      ReadsFrom(m, h, q, i + 1);
      assert g.vals[i..][1..] == g.vals[i + 1..];
    }
  }

  /** In every run, what true dequeues returned, in order of their head swings, followed by
      what the memory holds behind the head, is the sequence of published values: first
      in, first out, nothing lost, nothing twice. */
  lemma FifoByPublication(n: nat, es: seq<Event>, q: nat, contents: seq<Data>)
    requires Legal(n, es) && q < |After(n, es).sh.queues|
    ensures var m, g := After(n, es), HistoryOf(n, es).qs[q];
      var w := m.sh.queues[q];
      Reads(m.sh, w.head.addr, w.code, contents) <==> g.taken + contents == g.vals
  {
    hide OwnInv, LocalInv, After, HistoryOf, Legal;
    var m, h := After(n, es), HistoryOf(n, es);
    RunInv(n, es);
    var w, g := m.sh.queues[q], h.qs[q];
    assert QueueInv(m.sh, h, q);
    ReadsFrom(m, h, q, w.head.ver);
    var rest := g.vals[w.head.ver..];
    assert g.taken + rest == g.vals;
    if Reads(m.sh, w.head.addr, w.code, contents) {
      ReadsUnique(m.sh, w.head.addr, w.code, contents, rest);
    }
    if g.taken + contents == g.vals {
      assert contents == (g.taken + contents)[|g.taken|..] == rest;
    }
  }

  // ----- head and tail -----

  /** The node reached from a by following steps links. */
  ghost function Walk(s: Shared, a: nat, steps: nat): nat
    decreases steps
  {
    if steps == 0 || a !in s.next then a else Walk(s, s.next[a], steps - 1)
  }

  lemma {:induction false} WalkHistory(m: Machine, h: History, q: nat, i: nat, steps: nat)
    requires Inv(m, h) && q < |m.sh.queues|
    requires m.sh.queues[q].head.ver <= i && i + steps < |h.qs[q].hist|
    ensures Walk(m.sh, h.qs[q].hist[i], steps) == h.qs[q].hist[i + steps]
    decreases steps
  {
    hide OwnInv, LocalInv;
    assert QueueInv(m.sh, h, q);
    if steps > 0 {
      assert m.sh.next[h.qs[q].hist[i]] == h.qs[q].hist[i + 1];
      WalkHistory(m, h, q, i + 1, steps - 1);
    }
  }

  /** The tail always lies on the chain from the head, as many links behind it as their
      versions differ, although the code never compares the two. */
  lemma HeadNeverPassesTail(n: nat, es: seq<Event>, q: nat)
    requires Legal(n, es) && q < |After(n, es).sh.queues|
    ensures var m := After(n, es);
      var w := m.sh.queues[q];
      w.head.ver <= w.tail.ver && Walk(m.sh, w.head.addr, w.tail.ver - w.head.ver) == w.tail.addr
  {
    hide OwnInv, LocalInv, After, HistoryOf, Legal;
    var m, h := After(n, es), HistoryOf(n, es);
    RunInv(n, es);
    assert QueueInv(m.sh, h, q);
    var w := m.sh.queues[q];
    WalkHistory(m, h, q, w.head.ver, w.tail.ver - w.head.ver);
  }

  /** The enqueuer has a node that it has not linked. */
  ghost predicate UnlinkedNode(l: Local) {
    l.EnqFill? || l.EnqSeal? || Looping(l)
  }

  /** A node that Dequeue is about to free is no queue's head or tail, is not linked into
      any queue and is not held by any enqueuer. */
  lemma FreedNodeIsUnreachable(n: nat, es: seq<Event>, t: nat, q: nat)
    requires Legal(n, es) && t < |After(n, es).locals| && After(n, es).locals[t].DeqFree?
    requires q < |After(n, es).sh.queues|
    ensures var m, h := After(n, es), HistoryOf(n, es);
      var node, w := m.locals[t].node, m.sh.queues[q];
      && node != w.head.addr && node != w.tail.addr && node !in m.sh.pool
      && (forall i | w.head.ver <= i < |h.qs[q].hist| :: h.qs[q].hist[i] != node)
      && (forall u | 0 <= u < |h.pend| :: node !in h.pend[u])
      && (forall u | 0 <= u < |m.locals| && u != t && m.locals[u].DeqFree? :: m.locals[u].node != node)
      && (forall u | 0 <= u < |m.locals| && UnlinkedNode(m.locals[u]) :: m.locals[u].node != node)
  {
    hide After, HistoryOf, Legal, OwnInv, ChainInv, SavedTail, SavedHead;
    var m, h := After(n, es), HistoryOf(n, es);
    RunInv(n, es);
    var node := m.locals[t].node;
    assert LocalInv(m.sh, h, t, m.locals[t]);
    assert QueueInv(m.sh, h, q);
    assert h.own[h.qs[q].hist[m.sh.queues[q].tail.ver]] == Live(q, m.sh.queues[q].tail.ver);
    hide QueueInv;
    forall u | 0 <= u < |h.pend| ensures node !in h.pend[u] {
      PendingNotRetired(m, h, u, node);
    }
    forall u | 0 <= u < |m.locals| && u != t && m.locals[u].DeqFree? ensures m.locals[u].node != node {
      assert LocalInv(m.sh, h, u, m.locals[u]);
    }
    forall u | 0 <= u < |m.locals| && UnlinkedNode(m.locals[u]) ensures m.locals[u].node != node {
      UnlinkedNotRetired(m, h, u);
    }
  }

  lemma UnlinkedNotRetired(m: Machine, h: History, u: nat)
    requires Inv(m, h) && u < |m.locals| && UnlinkedNode(m.locals[u])
    ensures m.locals[u].node in h.own && !h.own[m.locals[u].node].Retired?
  {
    hide OwnInv, QueueInv, SavedTail;
    assert LocalInv(m.sh, h, u, m.locals[u]);
  }

  lemma PendingNotRetired(m: Machine, h: History, u: nat, node: nat)
    requires Inv(m, h) && u < |h.pend| && node in h.own && h.own[node].Retired?
    ensures node !in h.pend[u]
  {
    hide OwnInv, LocalInv, QueueInv;
    if |h.pend[u]| > 0 {
      ChainOwner(m, h, u);
    }
  }

  /** Whichever line swings a tail, the tail moves to the node its next field names. */
  lemma TailMovesToSuccessor(n: nat, es: seq<Event>, t: nat, q: nat)
    requires Legal(n, es) && CanRun(After(n, es), t) && q < |After(n, es).sh.queues|
    ensures var s, s' := After(n, es).sh, RunThread(After(n, es), t).sh;
      s'.queues[q].tail != s.queues[q].tail ==>
        && s.queues[q].tail.addr in s.next
        && s'.queues[q].tail == Tagged(s.next[s.queues[q].tail.addr], s.queues[q].tail.ver + 1)
        && s'.queues[q].tail.addr in s.next
  {
    hide After, HistoryOf, Legal, OwnInv, ChainInv;
    var m, h := After(n, es), HistoryOf(n, es);
    RunInv(n, es);
    assert LocalInv(m.sh, h, t, m.locals[t]);
    SuccessorIsNext(m, h, q, m.sh.queues[q].tail.ver);
    hide QueueInv, LocalInv, MemInv;
    SwungTail(m, h, t, q);
  }

  lemma SuccessorIsNext(m: Machine, h: History, q: nat, v: nat)
    requires Inv(m, h) && q < |m.sh.queues|
    ensures m.sh.queues[q].head.ver <= v && v + 1 < |h.qs[q].hist| ==>
      && h.qs[q].hist[v] in m.sh.next && h.qs[q].hist[v + 1] in m.sh.next
      && m.sh.next[h.qs[q].hist[v]] == h.qs[q].hist[v + 1]
  {
    hide OwnInv, LocalInv;
    assert QueueInv(m.sh, h, q);
  }

  lemma SwungTail(m: Machine, h: History, t: nat, q: nat)
    requires Inv(m, h) && CanRun(m, t) && q < |m.sh.queues|
    ensures var s, s' := m.sh, RunThread(m, t).sh;
      s'.queues[q].tail != s.queues[q].tail ==>
        && s.queues[q].tail.ver < |h.qs[q].hist| && s.queues[q].head.ver <= s.queues[q].tail.ver
        && h.qs[q].hist[s.queues[q].tail.ver] == s.queues[q].tail.addr
        && Successor(h, q, s.queues[q].tail.ver, s'.queues[q].tail.addr)
        && s'.queues[q].tail.ver == s.queues[q].tail.ver + 1
  {
    hide OwnInv, ChainInv;
    assert LocalInv(m.sh, h, t, m.locals[t]);
    assert QueueInv(m.sh, h, q);
  }

  /** When the head swing at line 146 succeeds, even after any number of stale iterations,
      the head moves to its successor and the value copied at line 145 is the one stored
      in the node that becomes the new dummy. */
  lemma SpeculativeReadIsValid(n: nat, es: seq<Event>, t: nat)
    requires Legal(n, es) && CanRun(After(n, es), t) && After(n, es).locals[t].DeqCas?
    requires var l := After(n, es).locals[t]; After(n, es).sh.queues[l.q].head == l.hd
    ensures var s, l := After(n, es).sh, After(n, es).locals[t];
      var g := HistoryOf(n, es).qs[l.q];
      && l.hd.addr in s.next && s.next[l.hd.addr] == l.nxt && l.nxt in s.data
      && s.data[l.nxt] == l.val
      && |g.taken| < |g.vals| && g.vals[|g.taken|] == l.val
  {
    hide After, HistoryOf, Legal, OwnInv, ChainInv;
    var m, h := After(n, es), HistoryOf(n, es);
    RunInv(n, es);
    var l := m.locals[t];
    assert LocalInv(m.sh, h, t, l);
    assert QueueInv(m.sh, h, l.q);
    assert m.sh.next[h.qs[l.q].hist[l.hd.ver]] == h.qs[l.q].hist[l.hd.ver + 1];
    assert m.sh.data[h.qs[l.q].hist[l.hd.ver + 1]] == h.qs[l.q].vals[l.hd.ver];
  }

  // ----- memory safety -----

  /** Exactly when a step reads an address that is not a node: only at line 145, when the
      link read at line 124 is the end code of another queue, and then the head has
      moved on since line 122. */
  lemma FaultIff(n: nat, es: seq<Event>, t: nat)
    requires Legal(n, es) && CanRun(After(n, es), t)
    ensures var m, l := After(n, es), After(n, es).locals[t];
      RunThread(m, t).locals[t].Faulted? <==>
        l.DeqReadData? && exists r :: 0 <= r < |m.sh.queues| && l.nxt == m.sh.queues[r].code
    ensures var m, l := After(n, es), After(n, es).locals[t];
      RunThread(m, t).locals[t].Faulted? ==>
        m.sh.queues[l.q].head.ver != l.hd.ver && l.nxt != m.sh.queues[l.q].code
  {
    hide After, HistoryOf, Legal, OwnInv;
    var m, h := After(n, es), HistoryOf(n, es);
    RunInv(n, es);
    var l := m.locals[t];
    assert LocalInv(m.sh, h, t, l);
    if l.DeqReadData? {
      DataReadFault(m, h, t);
    } else {
      NoOtherFault(m, h, t);
    }
  }

  lemma DataReadFault(m: Machine, h: History, t: nat)
    requires Inv(m, h) && CanRun(m, t) && m.locals[t].DeqReadData?
    ensures var l := m.locals[t];
      && (l.nxt !in m.sh.data <==>
            exists r :: 0 <= r < |m.sh.queues| && l.nxt == m.sh.queues[r].code)
      && l.nxt != m.sh.queues[l.q].code
      && (l.nxt !in m.sh.data ==> m.sh.queues[l.q].head.ver != l.hd.ver)
  {
    hide OwnInv, ChainInv;
    var l := m.locals[t];
    assert LocalInv(m.sh, h, t, l);
    assert QueueInv(m.sh, h, l.q);
    if l.nxt !in m.sh.data {
      assert IsCode(m.sh, l.nxt);
      CodeOf(m, h, WORD_LIMIT - 1 - l.nxt);
    }
    hide QueueInv;
    forall r | 0 <= r < |m.sh.queues| && l.nxt == m.sh.queues[r].code ensures l.nxt !in m.sh.data {
      CodeOf(m, h, r);
    }
  }

  /** With a single queue on the pool no run ever reads an unmapped address. */
  lemma {:induction false} OneQueueNeverFaults(n: nat, es: seq<Event>, t: nat)
    requires Legal(n, es) && |After(n, es).sh.queues| <= 1 && t < n
    ensures |After(n, es).locals| == n && !After(n, es).locals[t].Faulted?
  {
    if es != [] {
      var p, e := es[..|es| - 1], es[|es| - 1];
      var m := After(n, p);
      assert |m.sh.queues| <= |After(n, es).sh.queues|;
      OneQueueNeverFaults(n, p, t);
      if e.Run? && e.t == t {
        FaultIff(n, p, t);
        OneCode(n, p, t);
      }
    }
  }

  lemma OneCode(n: nat, es: seq<Event>, t: nat)
    requires Legal(n, es) && CanRun(After(n, es), t) && |After(n, es).sh.queues| <= 1
    ensures !RunThread(After(n, es), t).locals[t].Faulted?
  {
    hide After, HistoryOf, Legal, Inv;
    FaultIff(n, es, t);
  }

  // ----- isolation between queues that share the pool -----

  /** A step on queue A rewrites next fields only of the thread's own private node, of the
      last node of A, or of the last node pending under another enqueuer of A. */
  lemma OnlyOwnQueueIsRelinked(n: nat, es: seq<Event>, t: nat, a: nat)
    requires Legal(n, es) && CanRun(After(n, es), t)
    requires var s, s' := After(n, es).sh, RunThread(After(n, es), t).sh;
      a in s.next && a in s'.next && s'.next[a] != s.next[a]
    ensures var m, h := After(n, es), HistoryOf(n, es);
      var l := m.locals[t];
      && a in h.own
      && match h.own[a]
         case Priv(u) => u == t
         case Live(q, i) => q == l.q && i == |h.qs[q].hist| - 1
         case Pend(y, k) => y != t && y < |m.locals| && !m.locals[y].Idle? && m.locals[y].q == l.q
         case _ => false
  {
    hide After, HistoryOf, Legal, OwnInv, QueueInv, ChainInv;
    var m, h := After(n, es), HistoryOf(n, es);
    RunInv(n, es);
    var l := m.locals[t];
    assert LocalInv(m.sh, h, t, l);
    if l.EnqLink? {
      hide LocalInv, MemInv;
      LinkTarget(m, h, t);
    }
  }

  /** Codes are pairwise distinct, and no code is the address of a node. */
  lemma CodesIdentifyQueues(n: nat, es: seq<Event>, q: nat, r: nat)
    requires Legal(n, es) && q < |After(n, es).sh.queues| && r < |After(n, es).sh.queues|
    ensures var s := After(n, es).sh;
      && (s.queues[q].code == s.queues[r].code <==> q == r)
      && s.queues[q].code !in s.next && ADDR_LIMIT <= s.queues[q].code < WORD_LIMIT
  {
    hide After, HistoryOf, Legal, OwnInv, QueueInv, LocalInv;
    var m, h := After(n, es), HistoryOf(n, es);
    RunInv(n, es);
    CodesDiffer(m, h, q, r);
    CodeOf(m, h, q);
  }

  // ----- where nodes are -----

  /** Thread t alone may touch node a: it has allocated it and not linked it, or a hangs from
      such a node, or t has swung the head past it and not freed it. */
  ghost predicate HoldsNode(m: Machine, h: History, t: nat, a: nat)
    requires Shaped(m, h) && t < |m.locals|
  {
    var l := m.locals[t];
    ((l.EnqFill? || l.EnqSeal? || l.DeqFree?) && l.node == a) || a in h.pend[t]
  }

  ghost predicate SomebodyHolds(m: Machine, h: History, a: nat)
    requires Shaped(m, h)
  {
    exists t: nat :: t < |m.locals| && HoldsNode(m, h, t, a)
  }

  /** Node a is at position i of queue q, not before the head. */
  ghost predicate OnQueue(m: Machine, h: History, q: nat, i: nat, a: nat)
    requires Shaped(m, h)
  {
    q < |m.sh.queues| && m.sh.queues[q].head.ver <= i < |h.qs[q].hist| && h.qs[q].hist[i] == a
  }

  ghost predicate OnSomeQueue(m: Machine, h: History, a: nat)
    requires Shaped(m, h)
  {
    exists q: nat, i: nat :: OnQueue(m, h, q, i, a)
  }

  lemma HolderOwns(m: Machine, h: History, t: nat, a: nat)
    requires Inv(m, h) && t < |m.locals| && HoldsNode(m, h, t, a)
    ensures a in h.own && (h.own[a].Priv? || h.own[a].Pend? || h.own[a].Retired?) && h.own[a].t == t
  {
    hide OwnInv, QueueInv, SavedTail, SavedHead;
    assert LocalInv(m.sh, h, t, m.locals[t]);
    if a in h.pend[t] {
      ChainOwner(m, h, t);
    }
  }

  lemma PositionOwns(m: Machine, h: History, q: nat, i: nat, a: nat)
    requires Inv(m, h) && OnQueue(m, h, q, i, a)
    ensures a in h.own && h.own[a] == Live(q, i)
  {
    hide OwnInv, LocalInv;
    assert QueueInv(m.sh, h, q);
  }

  /** No node is lost and none is in two places: it is in the pool, with one thread, or at one
      position of one queue. */
  lemma NodePartition(n: nat, es: seq<Event>, a: nat)
    requires Legal(n, es) && a in After(n, es).sh.next
    ensures var m, h := After(n, es), HistoryOf(n, es);
      && (a in m.sh.pool || SomebodyHolds(m, h, a) || OnSomeQueue(m, h, a))
      && !(a in m.sh.pool && (SomebodyHolds(m, h, a) || OnSomeQueue(m, h, a)))
      && !(SomebodyHolds(m, h, a) && OnSomeQueue(m, h, a))
      && (forall t, u | 0 <= t < |m.locals| && 0 <= u < |m.locals| && HoldsNode(m, h, t, a) && HoldsNode(m, h, u, a)
            :: t == u)
      && (forall q, i, r, j | OnQueue(m, h, q, i, a) && OnQueue(m, h, r, j, a) :: q == r && i == j)
  {
    hide QueueInv, LocalInv, After, HistoryOf, Legal;
    RunInv(n, es);
    var m, h := After(n, es), HistoryOf(n, es);
    assert OwnInv(m, h, a);
    forall t: nat | t < |m.locals| && HoldsNode(m, h, t, a)
      ensures (h.own[a].Priv? || h.own[a].Pend? || h.own[a].Retired?) && h.own[a].t == t
    {
      HolderOwns(m, h, t, a);
    }
    forall q, i | OnQueue(m, h, q, i, a) ensures h.own[a] == Live(q, i) {
      PositionOwns(m, h, q, i, a);
    }
    match h.own[a]
    case Pooled =>
    case Live(q, i) => assert OnQueue(m, h, q, i, a);
    case Priv(t) => assert HoldsNode(m, h, t, a);
    case Pend(t, k) => assert HoldsNode(m, h, t, a);
    case Retired(t) => assert HoldsNode(m, h, t, a);
  }
}
