/** A thread that runs alone from a reachable state: what each round of its loop achieves. */
module QueueSolo {
  import opened TaggedWord
  import opened QueueMachine
  import opened QueueHistory
  import opened QueueLink
  import opened QueueOrder

  /** How many links the tail is behind the last node. */
  ghost function Lag(m: Machine, h: History, q: nat): int
    requires q < |m.sh.queues| && q < |h.qs|
  {
    |h.qs[q].vals| - m.sh.queues[q].tail.ver
  }

  lemma LagBounds(m: Machine, h: History, q: nat)
    requires Inv(m, h) && q < |m.sh.queues|
    ensures Lag(m, h, q) >= 0
    ensures m.sh.queues[q].tail.addr in m.sh.next && m.sh.queues[q].head.addr in m.sh.next
    ensures m.sh.queues[q].tail.addr < ADDR_LIMIT && m.sh.queues[q].head.addr < ADDR_LIMIT
    ensures m.sh.next[m.sh.queues[q].tail.addr] == m.sh.queues[q].code <==> Lag(m, h, q) == 0
    ensures m.sh.next[m.sh.queues[q].tail.addr] != m.sh.queues[q].code ==>
      Successor(h, q, m.sh.queues[q].tail.ver, m.sh.next[m.sh.queues[q].tail.addr])
    ensures m.sh.next[m.sh.queues[q].head.addr] == m.sh.queues[q].code <==>
      |h.qs[q].vals| == m.sh.queues[q].head.ver
    ensures m.sh.queues[q].head.ver <= |h.qs[q].vals| && h.qs[q].taken == h.qs[q].vals[..m.sh.queues[q].head.ver]
  {
    hide OwnInv, LocalInv;
    assert QueueInv(m.sh, h, q);
    var hist, v, u := h.qs[q].hist, m.sh.queues[q].tail.ver, m.sh.queues[q].head.ver;
    assert v + 1 < |hist| ==> m.sh.next[hist[v]] == hist[v + 1];
    assert u + 1 < |hist| ==> m.sh.next[hist[u]] == hist[u + 1];
  }

  /** Lines 91 to 96 read one consistent picture of the tail. */
  lemma TailRead(m: Machine, h: History, t: nat)
    requires Inv(m, h) && CanRun(m, t) && m.locals[t].EnqReadTail?
    ensures var l, m1 := m.locals[t], RunThread(m, t);
      && m.sh.queues[l.q].tail.addr in m.sh.next
      && m1 == Machine(m.sh, m.locals[t := EnqReadNext(l.q, l.val, l.node, m.sh.queues[l.q].tail)])
      && TrackRun(m.sh, h, t, l) == h && CanRun(m1, t)
      && RunThread(m1, t) == Machine(m.sh, m.locals[t :=
           if Lag(m, h, l.q) == 0 then EnqLink(l.q, l.val, l.node, m.sh.queues[l.q].tail)
           else EnqHelp(l.q, l.val, l.node, m.sh.queues[l.q].tail, m.sh.next[m.sh.queues[l.q].tail.addr])])
      && TrackRun(m1.sh, h, t, m1.locals[t]) == h
  {
    hide OwnInv, LocalInv, QueueInv, MemInv;
    LagBounds(m, h, m.locals[t].q);
    hide Inv, Lag;
  }

  /** A link to the current tail publishes the thread's chain at the end of the queue. */
  lemma LinkAtTail(m: Machine, h: History, t: nat)
    requires Inv(m, h) && CanRun(m, t) && m.locals[t].EnqLink?
    requires m.locals[t].tl == m.sh.queues[m.locals[t].q].tail && Lag(m, h, m.locals[t].q) == 0
    ensures var l, m' := m.locals[t], RunThread(m, t);
      var h' := TrackRun(m.sh, h, t, l);
      && m'.locals == m.locals[t := EnqSwing(l.q, l.val, l.node, l.tl)]
      && m'.sh.queues == m.sh.queues
      && |h'.qs| == |h.qs| && h'.qs[l.q].vals == h.qs[l.q].vals + h.pval[t]
      && h'.qs[l.q].taken == h.qs[l.q].taken
  {
    hide OwnInv, LocalInv, QueueInv, MemInv;
    LagBounds(m, h, m.locals[t].q);
    HeadBeforeTail(m, h, m.locals[t].q);
    assert LinkReady(m, h, t);
    UnpassedIsLive(m, h, t);
    hide Inv, Lag;
  }

  lemma HeadBeforeTail(m: Machine, h: History, q: nat)
    requires Inv(m, h) && q < |m.sh.queues|
    ensures m.sh.queues[q].head.ver <= m.sh.queues[q].tail.ver
  {
    hide OwnInv, LocalInv;
    assert QueueInv(m.sh, h, q);
  }

  /** Helping with the current tail shortens the lag by one. */
  lemma HelpAtTail(m: Machine, h: History, t: nat)
    requires Inv(m, h) && CanRun(m, t) && (m.locals[t].EnqHelp? || m.locals[t].DeqHelp?)
    requires m.locals[t].tl == m.sh.queues[m.locals[t].q].tail
    ensures var l, m' := m.locals[t], RunThread(m, t);
      && TrackRun(m.sh, h, t, l) == h
      && m'.locals == m.locals[t := if l.EnqHelp? then EnqReadTail(l.q, l.val, l.node) else DeqReadHead(l.q)]
      && |m'.sh.queues| == |m.sh.queues| && m'.sh.queues[l.q].head == m.sh.queues[l.q].head
      && Lag(m', h, l.q) == Lag(m, h, l.q) - 1
  {
    hide OwnInv, LocalInv, QueueInv, MemInv, Inv;
  }

  lemma FinishEnqueue(m: Machine, h: History, t: nat)
    requires Shaped(m, h) && CanRun(m, t) && (m.locals[t].EnqSwing? || m.locals[t].EnqCount?)
    ensures var l, m' := m.locals[t], RunThread(m, t);
      && TrackRun(m.sh, h, t, l) == h
      && m'.locals == m.locals[t := if l.EnqSwing? then EnqCount(l.q, l.val) else EnqDone(l.q, l.val)]
      && |m'.sh.queues| == |m.sh.queues| && m'.sh.queues[l.q].head == m.sh.queues[l.q].head
      && m'.sh.queues[l.q].tail ==
           if l.EnqSwing? && m.sh.queues[l.q].tail == l.tl then Tagged(l.node, l.tl.ver + 1) else m.sh.queues[l.q].tail
  {
  }

  /** Lines 122 to 124 read one consistent picture of the head. */
  lemma HeadRead(m: Machine, h: History, t: nat)
    requires Inv(m, h) && CanRun(m, t) && m.locals[t].DeqReadHead?
    ensures var l, m1 := m.locals[t], RunThread(m, t);
      var w := m.sh.queues[l.q];
      && w.head.addr in m.sh.next
      && m1 == Machine(m.sh, m.locals[t := DeqReadNext(l.q, w.head)])
      && TrackRun(m.sh, h, t, l) == h && CanRun(m1, t)
      && RunThread(m1, t) == Machine(m.sh, m.locals[t :=
           if |h.qs[l.q].vals| == w.head.ver then DeqRecheck(l.q, w.head)
           else DeqReadTail(l.q, w.head, m.sh.next[w.head.addr])])
      && TrackRun(m1.sh, h, t, m1.locals[t]) == h
  {
    hide OwnInv, LocalInv, QueueInv, MemInv;
    LagBounds(m, h, m.locals[t].q);
    hide Inv, Lag;
  }

  /** Lines 134 to 139 read one consistent picture of the tail. */
  lemma TailReadToo(m: Machine, h: History, t: nat)
    requires Inv(m, h) && CanRun(m, t) && m.locals[t].DeqReadTail?
    ensures var l, m1 := m.locals[t], RunThread(m, t);
      var w := m.sh.queues[l.q];
      && w.tail.addr in m.sh.next
      && m1 == Machine(m.sh, m.locals[t := DeqReadTailNext(l.q, l.hd, l.nxt, w.tail)])
      && TrackRun(m.sh, h, t, l) == h && CanRun(m1, t)
      && RunThread(m1, t) == Machine(m.sh, m.locals[t :=
           if Lag(m, h, l.q) != 0 then DeqHelp(l.q, w.tail, m.sh.next[w.tail.addr])
           else DeqReadData(l.q, l.hd, l.nxt)])
      && TrackRun(m1.sh, h, t, m1.locals[t]) == h
  {
    hide OwnInv, LocalInv, QueueInv, MemInv;
    LagBounds(m, h, m.locals[t].q);
    hide Inv, Lag;
  }

  /** With the head still in place, lines 145 and 146 take the first element. */
  lemma TakeFirst(m: Machine, h: History, t: nat)
    requires Inv(m, h) && CanRun(m, t) && m.locals[t].DeqReadData?
    requires m.locals[t].hd == m.sh.queues[m.locals[t].q].head
    ensures var l, m1 := m.locals[t], RunThread(m, t);
      var v := l.hd.ver;
      && v < |h.qs[l.q].vals|
      && m1 == Machine(m.sh, m.locals[t := DeqCas(l.q, l.hd, l.nxt, h.qs[l.q].vals[v])])
      && TrackRun(m.sh, h, t, l) == h && CanRun(m1, t)
      && var m2, h2 := RunThread(m1, t), TrackRun(m1.sh, h, t, m1.locals[t]);
         && m2.locals == m.locals[t := DeqFree(l.q, l.hd.addr, h.qs[l.q].vals[v])]
         && CanRun(m2, t)
         && |h2.qs| == |h.qs| && h2.qs[l.q].vals == h.qs[l.q].vals
         && h2.qs[l.q].taken == h.qs[l.q].taken + [h.qs[l.q].vals[v]]
  {
    hide OwnInv, ChainInv;
    var l := m.locals[t];
    assert LocalInv(m.sh, h, t, l);
    FirstElement(m, h, l.q, l.nxt);
    hide Inv, LocalInv, QueueInv, MemInv;
  }

  lemma FirstElement(m: Machine, h: History, q: nat, nxt: nat)
    requires Inv(m, h) && q < |m.sh.queues| && Successor(h, q, m.sh.queues[q].head.ver, nxt)
    ensures m.sh.queues[q].head.ver < |h.qs[q].vals| && nxt in m.sh.data
    ensures m.sh.data[nxt] == h.qs[q].vals[m.sh.queues[q].head.ver]
  {
    hide OwnInv, LocalInv;
    assert QueueInv(m.sh, h, q);
    assert m.sh.data[h.qs[q].hist[m.sh.queues[q].head.ver + 1]] == h.qs[q].vals[m.sh.queues[q].head.ver];
  }

  /** Lines 82 to 84 leave the queues alone and give the thread a chain of one node. */
  lemma StartEnqueue(m: Machine, h: History, e: Event)
    requires Inv(m, h) && Enabled(m, e) && e.CallEnqueue?
    ensures var m1, h1 := Next(m, e), Track(m, h, e);
      && m1.locals[e.t] == EnqFill(e.q, e.val, e.node) && CanRun(m1, e.t)
      && var m2 := RunThread(m1, e.t);
         && TrackRun(m1.sh, h1, e.t, m1.locals[e.t]) == h1
         && m2.locals[e.t] == EnqSeal(e.q, e.val, e.node) && CanRun(m2, e.t)
         && var m3, h3 := RunThread(m2, e.t), TrackRun(m2.sh, h1, e.t, m2.locals[e.t]);
            && m3.locals[e.t] == EnqReadTail(e.q, e.val, e.node)
            && m3.sh.queues == m.sh.queues && h3.qs == h.qs
            && e.t < |h3.pval| && h3.pval[e.t] == [e.val]
  {
    hide OwnInv, LocalInv, QueueInv;
    assert e.node in m.sh.next && e.node in m.sh.data;
    hide Inv, MemInv;
  }

  /** The reservation, and its undoing if there was nothing to reserve. */
  lemma ReserveAlone(m: Machine, h: History, t: nat)
    requires Shaped(m, h) && CanRun(m, t) && m.locals[t].DeqReserve?
    ensures var l, m1 := m.locals[t], RunThread(m, t);
      && TrackRun(m.sh, h, t, l) == h && CanRun(m1, t)
      && |m1.sh.queues| == |m.sh.queues| && m1.sh.queues[l.q].head == m.sh.queues[l.q].head
      && m1.sh.queues[l.q].tail == m.sh.queues[l.q].tail
      && (if m.sh.queues[l.q].size <= 0 then
            && m1.locals[t] == DeqRestore(l.q)
            && var m2 := RunThread(m1, t);
               && m2.locals[t] == DeqDone(l.q, Short) && TrackRun(m1.sh, h, t, m1.locals[t]) == h
               && |m2.sh.queues| == |m.sh.queues| && m2.sh.queues[l.q].head == m.sh.queues[l.q].head
          else m1.locals[t] == DeqReadHead(l.q))
  {
  }

  /** An empty queue: line 129 finds the head unchanged. */
  lemma VacantAlone(m: Machine, h: History, t: nat)
    requires Shaped(m, h) && CanRun(m, t) && m.locals[t].DeqRecheck?
    requires m.locals[t].hd == m.sh.queues[m.locals[t].q].head
    ensures var l, m', h' := m.locals[t], RunThread(m, t), TrackRun(m.sh, h, t, m.locals[t]);
      && m' == Machine(m.sh, m.locals[t := DeqDone(l.q, Vacant)])
      && |h'.qs| == |h.qs| && h'.qs[l.q].vals == h.qs[l.q].vals && h'.qs[l.q].taken == h.qs[l.q].taken
  {
  }

  lemma FreeAlone(m: Machine, h: History, t: nat)
    requires Shaped(m, h) && CanRun(m, t) && m.locals[t].DeqFree?
    ensures var l, m', h' := m.locals[t], RunThread(m, t), TrackRun(m.sh, h, t, m.locals[t]);
      && m'.locals[t] == DeqDone(l.q, Got(l.val)) && m'.sh.queues == m.sh.queues && h'.qs == h.qs
  {
  }
}
