/** What a call that runs alone changes and what it leaves alone, from the schedule: after its
    call event only steps of its own thread. */
module QueueSoloFrame {
  import opened TaggedWord
  import opened QueueMachine
  import opened QueueHistory
  import opened QueueRuns
  import opened QueueTheorems

  /** es goes on from es0 with steps of thread t only. */
  predicate OwnRun(es0: seq<Event>, es: seq<Event>, t: nat) {
    es0 <= es && forall i | |es0| <= i < |es| :: es[i] == Run(t)
  }

  lemma OwnRunTwo(es: seq<Event>, t: nat)
    ensures OwnRun(es, es, t) && OwnRun(es, es + [Run(t)] + [Run(t)], t)
  {
  }

  lemma OwnRunTrans(es0: seq<Event>, es1: seq<Event>, es2: seq<Event>, t: nat)
    requires OwnRun(es0, es1, t) && OwnRun(es1, es2, t)
    ensures OwnRun(es0, es2, t)
  {
  }

  /** Other threads and other queues are untouched, and no queue or code is new. */
  ghost predicate OthersKept(m0: Machine, m: Machine, t: nat, q: nat) {
    && t < |m0.locals| == |m.locals| && q < |m0.sh.queues| == |m.sh.queues|
    && m.locals == m0.locals[t := m.locals[t]]
    && m.sh.queues == m0.sh.queues[q := m.sh.queues[q]]
    && m.sh.queues[q].code == m0.sh.queues[q].code && m.sh.uniqueCode == m0.sh.uniqueCode
  }

  /** The next fields after node has been linked behind the last node a. */
  predicate LinkedBehind(next0: map<nat, nat>, next: map<nat, nat>, code: nat, node: nat, a: nat) {
    a in next0 && next0[node := code][a] == code && next == next0[node := code][a := node]
  }

  /** An Enqueue of thread t that was at line 83 in state m0 and has run alone since. */
  ghost predicate EnqueueFrame(m0: Machine, m: Machine, t: nat) {
    && t < |m0.locals| && m0.locals[t].EnqFill? && OthersKept(m0, m, t, m0.locals[t].q)
    && var l0, l := m0.locals[t], m.locals[t];
       var w0, w := m0.sh.queues[l0.q], m.sh.queues[l0.q];
       && (Enqueuing(l) || l.EnqDone?) && l.q == l0.q && l.val == l0.val
       && (l.EnqCount? || l.EnqDone? || l.node == l0.node)
       && w.head == w0.head && m.sh.pool == m0.sh.pool
       && w.size == w0.size + (if l.EnqDone? then 1 else 0)
       && m.sh.data == (if l.EnqFill? then m0.sh.data else m0.sh.data[l0.node := l0.val])
       && (if l.EnqFill? || l.EnqSeal? then m.sh.next == m0.sh.next
           else if l.EnqSwing? || l.EnqCount? || l.EnqDone? then
             exists a :: LinkedBehind(m0.sh.next, m.sh.next, w0.code, l0.node, a)
           else m.sh.next == m0.sh.next[l0.node := w0.code])
  }

  lemma EnqueueFrameStep(m0: Machine, m: Machine, t: nat)
    requires EnqueueFrame(m0, m, t) && CanRun(m, t) && !RunThread(m, t).locals[t].Faulted?
    requires m0.locals[t].node in m0.sh.next
    ensures EnqueueFrame(m0, RunThread(m, t), t)
  {
    hide DequeueEffect, DequeueGoto;
    var l, l0 := m.locals[t], m0.locals[t];
    if l.EnqLink? && RunThread(m, t).locals[t].EnqSwing? {
      assert LinkedBehind(m0.sh.next, RunThread(m, t).sh.next, m0.sh.queues[l0.q].code, l0.node, l.tl.addr);
    }
  }

  /** A Dequeue of thread t that was at line 114 in state m0 and has run alone since. */
  ghost predicate DequeueFrame(m0: Machine, m: Machine, t: nat) {
    && t < |m0.locals| && m0.locals[t].DeqReserve? && OthersKept(m0, m, t, m0.locals[t].q)
    && var q, l := m0.locals[t].q, m.locals[t];
       var w0, w := m0.sh.queues[q], m.sh.queues[q];
       var took := l.DeqFree? || (l.DeqDone? && l.out.Got?);
       && !l.Idle? && !Enqueuing(l) && !l.EnqDone? && l.q == q
       && m.sh.next == m0.sh.next && m.sh.data == m0.sh.data
       && w.size == w0.size - (if l.DeqReserve? || (l.DeqDone? && l.out.Short?) then 0 else 1)
       && (took ==> w0.head.addr in m0.sh.next && w.head == Tagged(m0.sh.next[w0.head.addr], w0.head.ver + 1))
       && (!took ==> w.head == w0.head)
       && m.sh.pool == (if l.DeqDone? && l.out.Got? then m0.sh.pool + {w0.head.addr} else m0.sh.pool)
       && (l.DeqReserve? || l.DeqRestore? || (l.DeqDone? && l.out.Short?) ==> w == w0.(size := w.size))
       && DequeueLocal(m0.sh, m.sh, w0.head, l)
  }

  /** What such a thread has read is current. */
  ghost predicate DequeueLocal(s0: Shared, s: Shared, hd: Tagged, l: Local)
    requires !l.Idle?
  {
    match l
    case DeqReadNext(_, h) => h == hd
    case DeqRecheck(_, h) => h == hd
    case DeqReadTail(_, h, nxt) => h == hd && hd.addr in s0.next && nxt == s0.next[hd.addr]
    case DeqReadTailNext(q, h, nxt, tl) =>
      h == hd && hd.addr in s0.next && nxt == s0.next[hd.addr] && q < |s.queues| && tl == s.queues[q].tail
    case DeqReadData(q, h, nxt) => h == hd && hd.addr in s0.next && nxt == s0.next[hd.addr] && TailIsLast(s, q)
    case DeqCas(q, h, nxt, _) => h == hd && hd.addr in s0.next && nxt == s0.next[hd.addr] && TailIsLast(s, q)
    case DeqFree(q, node, _) => node == hd.addr && TailIsLast(s, q)
    case DeqDone(q, out) => out.Got? ==> TailIsLast(s, q)
    case _ => true
  }

  lemma DequeueFrameStep(m0: Machine, m: Machine, t: nat)
    requires DequeueFrame(m0, m, t) && CanRun(m, t)
    ensures DequeueFrame(m0, RunThread(m, t), t)
  {
    hide EnqueueEffect, EnqueueGoto;
  }

  lemma OwnRunShorter(n: nat, es0: seq<Event>, es: seq<Event>, t: nat)
    requires Legal(n, es) && OwnRun(es0, es, t) && |es0| < |es|
    ensures Legal(n, es[..|es| - 1]) && OwnRun(es0, es[..|es| - 1], t)
    ensures CanRun(After(n, es[..|es| - 1]), t)
    ensures After(n, es) == RunThread(After(n, es[..|es| - 1]), t)
    ensures HistoryOf(n, es) ==
      TrackRun(After(n, es[..|es| - 1]).sh, HistoryOf(n, es[..|es| - 1]), t, After(n, es[..|es| - 1]).locals[t])
  {
    assert es[|es| - 1] == Run(t);
  }

  /** Only the history of the thread's own queue is affected. */
  lemma TrackOthers(m: Machine, h: History, t: nat)
    requires Shaped(m, h) && CanRun(m, t)
    ensures var q, h' := m.locals[t].q, TrackRun(m.sh, h, t, m.locals[t]);
      && |h'.qs| == |h.qs| && (forall r | 0 <= r < |h.qs| && r != q :: h'.qs[r] == h.qs[r])
    ensures var l' := RunThread(m, t).locals[t]; !l'.Idle? && l'.q == m.locals[t].q
  {
    hide EnqueueEffect, DequeueEffect;
  }

  lemma {:induction false} OwnRunHistory(n: nat, es0: seq<Event>, es: seq<Event>, t: nat)
    requires Legal(n, es) && Legal(n, es0) && OwnRun(es0, es, t) && t < |After(n, es0).locals|
    requires !After(n, es0).locals[t].Idle?
    ensures t < |After(n, es).locals| && !After(n, es).locals[t].Idle?
    ensures After(n, es).locals[t].q == After(n, es0).locals[t].q
    ensures |HistoryOf(n, es).qs| == |HistoryOf(n, es0).qs|
    ensures forall r | 0 <= r < |HistoryOf(n, es0).qs| && r != After(n, es0).locals[t].q ::
      HistoryOf(n, es).qs[r] == HistoryOf(n, es0).qs[r]
    decreases |es|
  {
    if |es0| < |es| {
      var p := es[..|es| - 1];
      OwnRunShorter(n, es0, es, t);
      OwnRunHistory(n, es0, p, t);
      TrackOthers(After(n, p), HistoryOf(n, p), t);
      hide Legal, After, HistoryOf, RunThread, TrackRun;
    } else {
      assert es == es0;
    }
  }

  lemma {:induction false} OwnRunEnqueue(n: nat, es0: seq<Event>, es: seq<Event>, t: nat)
    requires Legal(n, es) && Legal(n, es0) && OwnRun(es0, es, t) && t < |After(n, es0).locals|
    requires After(n, es0).locals[t].EnqFill? && After(n, es0).locals[t].q < |After(n, es0).sh.queues|
    requires After(n, es0).locals[t].node in After(n, es0).sh.next
    ensures EnqueueFrame(After(n, es0), After(n, es), t)
    decreases |es|
  {
    if |es0| < |es| {
      var p := es[..|es| - 1];
      OwnRunShorter(n, es0, es, t);
      OwnRunEnqueue(n, es0, p, t);
      hide Legal, After, HistoryOf, RunThread, TrackRun, Inv;
      EnqueuerIsNotReading(After(n, es0), After(n, p), t);
      RunInv(n, p);
      NoOtherFault(After(n, p), HistoryOf(n, p), t);
      EnqueueFrameStep(After(n, es0), After(n, p), t);
    } else {
      assert es == es0;
    }
  }

  lemma EnqueuerIsNotReading(m0: Machine, m: Machine, t: nat)
    requires EnqueueFrame(m0, m, t)
    ensures !m.locals[t].DeqReadData?
  {
  }

  lemma {:induction false} OwnRunDequeue(n: nat, es0: seq<Event>, es: seq<Event>, t: nat)
    requires Legal(n, es) && Legal(n, es0) && OwnRun(es0, es, t) && t < |After(n, es0).locals|
    requires After(n, es0).locals[t].DeqReserve? && After(n, es0).locals[t].q < |After(n, es0).sh.queues|
    ensures DequeueFrame(After(n, es0), After(n, es), t)
    decreases |es|
  {
    if |es0| < |es| {
      var p := es[..|es| - 1];
      OwnRunShorter(n, es0, es, t);
      OwnRunDequeue(n, es0, p, t);
      hide Legal, After, HistoryOf, RunThread, TrackRun, Inv, DequeueFrame;
      DequeueFrameStep(After(n, es0), After(n, p), t);
    } else {
      assert es == es0;
    }
  }
}
