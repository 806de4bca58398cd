/** First in, first out, said of the schedule alone: when it holds, exactly when, and what
    holds in every run. */
module QueueFifo {
  import opened QueueMachine
  import opened QueueHistory
  import opened QueueSteps
  import opened QueueLink
  import opened QueueRuns
  import opened QueueTheorems
  import opened QueueAccounting
  import opened QueueOrder
  import opened QueueSchedule

  /** In every orderly run, the values dequeued so far, in order of line 146, followed by what
      memory holds behind the head, are the values enqueued so far, in order of line 98. */
  lemma Fifo(n: nat, es: seq<Event>, q: nat, contents: seq<Data>)
    requires Legal(n, es) && Orderly(n, es) && q < |After(n, es).sh.queues|
    ensures var s := After(n, es).sh;
      Reads(s, s.queues[q].head.addr, s.queues[q].code, contents) <==>
      Returns(n, es, q) + contents == Links(n, es, q)
  {
    hide Inv, After, Legal, HistoryOf, Reads, Orderly;
    HistoryIsSchedule(n, es, q);
    FifoByLink(n, es, q, contents);
  }

  /** Every queue of every run has contents, so dequeued values are a prefix of enqueued ones. */
  lemma DequeuedIsPrefix(n: nat, es: seq<Event>, q: nat)
    requires Legal(n, es) && Orderly(n, es) && q < |After(n, es).sh.queues|
    ensures Returns(n, es, q) <= Links(n, es, q)
  {
    hide After, Legal, HistoryOf, Reads, Orderly, OwnInv, LocalInv, MemInv;
    HistoryIsSchedule(n, es, q);
    OrderlyRun(n, es);
    RunInv(n, es);
    assert QueueInv(After(n, es).sh, HistoryOf(n, es), q);
  }

  // ----- exactly when -----

  /** What memory holds after es, behind what was dequeued, is what was enqueued. */
  ghost predicate InFifoOrder(n: nat, es: seq<Event>)
    requires Legal(n, es)
  {
    forall q: nat, contents | q < |After(n, es).sh.queues| ::
      var s := After(n, es).sh;
      Reads(s, s.queues[q].head.addr, s.queues[q].code, contents) <==>
      Returns(n, es, q) + contents == Links(n, es, q)
  }

  ghost predicate AlwaysFifo(n: nat, es: seq<Event>)
    requires Legal(n, es)
  {
    forall k: nat | k <= |es| :: Legal(n, es[..k]) && InFifoOrder(n, es[..k])
  }

  lemma OrderlyIsFifo(n: nat, es: seq<Event>)
    requires Legal(n, es) && Orderly(n, es)
    ensures InFifoOrder(n, es)
  {
    hide Legal, After, Orderly, Reads, Links, Returns;
    forall q: nat, contents | q < |After(n, es).sh.queues|
      ensures var s := After(n, es).sh;
        Reads(s, s.queues[q].head.addr, s.queues[q].code, contents) <==>
        Returns(n, es, q) + contents == Links(n, es, q)
    {
      Fifo(n, es, q, contents);
    }
  }

  lemma {:induction false} PrefixOrderly(n: nat, es: seq<Event>, k: nat)
    requires Legal(n, es) && Orderly(n, es) && k <= |es|
    ensures Legal(n, es[..k]) && Orderly(n, es[..k])
  {
    hide Enabled, Next, LinkSucceedsAt, HeldUnlinked;
    if k < |es| {
      PrefixOrderly(n, es[..|es| - 1], k);
      assert es[..|es| - 1][..k] == es[..k];
    } else {
      assert es[..k] == es;
    }
  }

  /** In order, the published values are the linked ones. */
  lemma FifoPublishes(n: nat, es: seq<Event>, q: nat)
    requires Legal(n, es) && InFifoOrder(n, es) && q < |After(n, es).sh.queues|
    ensures q < |HistoryOf(n, es).qs| && HistoryOf(n, es).qs[q].vals == HistoryOf(n, es).qs[q].linked
  {
    hide Legal, After, HistoryOf, Reads, Links, Returns, OwnInv, LocalInv, MemInv;
    HistoryIsSchedule(n, es, q);
    var g := HistoryOf(n, es).qs[q];
    RunInv(n, es);
    assert QueueInv(After(n, es).sh, HistoryOf(n, es), q);
    var rest := g.vals[|g.taken|..];
    assert g.taken + rest == g.vals;
    FifoByPublication(n, es, q, rest);
  }

  lemma LateLinkBreaksFifo(n: nat, p: seq<Event>, e: Event)
    requires Legal(n, p) && Orderly(n, p) && Enabled(After(n, p), e) && LinkSucceedsAt(After(n, p), e)
    requires Legal(n, p + [e]) && InFifoOrder(n, p + [e])
    ensures !HeldUnlinked(After(n, p), After(n, p).locals[e.t].tl.addr)
  {
    hide InFifoOrder, Orderly, HeldUnlinked, OwnInv, QueueInv, LocalInv, MemInv, Next, Track;
    assert (p + [e])[..|p + [e]| - 1] == p;
    var q := After(n, p).locals[e.t].q;
    QueueCountGrows(After(n, p), e);
    LinkOrderIff(n, p, e);
    FifoPublishes(n, p + [e], q);
  }

  /** A run is orderly if and only if at every moment, in every queue, dequeued values followed
      by what memory holds are the enqueued values: the condition for first in, first out
      is exact. */
  lemma {:induction false} OrderlyIffAlwaysFifo(n: nat, es: seq<Event>)
    requires Legal(n, es)
    ensures Orderly(n, es) <==> AlwaysFifo(n, es)
  {
    if Orderly(n, es) {
      forall k: nat | k <= |es| ensures Legal(n, es[..k]) && InFifoOrder(n, es[..k]) {
        PrefixOrderly(n, es, k);
        OrderlyIsFifo(n, es[..k]);
      }
    } else {
      DisorderShows(n, es);
    }
  }

  lemma {:induction false} DisorderShows(n: nat, es: seq<Event>)
    requires Legal(n, es) && !Orderly(n, es)
    ensures !AlwaysFifo(n, es)
  {
    hide InFifoOrder, Enabled, Next, HeldUnlinked, LinkSucceedsAt;
    var p, e := es[..|es| - 1], es[|es| - 1];
    if !Orderly(n, p) {
      DisorderShows(n, p);
      forall k: nat | k <= |p| ensures es[..k] == p[..k] {}
    } else if AlwaysFifo(n, es) {
      assert es[..|es|] == es == p + [e];
      LateLinkBreaksFifo(n, p, e);
    }
  }

  // ----- with no hypothesis on the schedule -----

  /** What hangs from the node an enqueuer still has to link is readable in memory. */
  lemma {:induction false} ReadsChain(m: Machine, h: History, t: nat, k: nat)
    requires Inv(m, h) && t < |m.locals| && Looping(m.locals[t]) && m.locals[t].q < |m.sh.queues|
    requires k < |h.pend[t]|
    ensures k < |h.pval[t]|
    ensures Reads(m.sh, h.pend[t][k], m.sh.queues[m.locals[t].q].code, h.pval[t][k + 1..])
    decreases |h.pend[t]| - k
  {
    hide OwnInv, QueueInv;
    assert LocalInv(m.sh, h, t, m.locals[t]);
    if k + 1 < |h.pend[t]| {
      ReadsChain(m, h, t, k + 1);
      CodeOf(m, h, m.locals[t].q);
      assert h.pval[t][k + 1..][1..] == h.pval[t][k + 2..];
    }
  }

  /** Memory holds ws behind the unlinked node of every enqueuer in the loop on queue q. */
  ghost predicate ReadsBehind(m: Machine, q: nat, t: nat, ws: seq<Data>)
    requires q < |m.sh.queues| && t < |m.locals|
  {
    var l := m.locals[t];
    if Looping(l) && l.q == q then Reads(m.sh, l.node, m.sh.queues[q].code, ws) else ws == []
  }

  function Sum(c: seq<seq<Data>>): multiset<Data> {
    if c == [] then multiset{} else Sum(c[..|c| - 1]) + multiset(c[|c| - 1])
  }

  lemma WaitingIsReadable(m: Machine, h: History, q: nat, t: nat, ws: seq<Data>)
    requires Inv(m, h) && q < |m.sh.queues| && t < |m.locals| && ReadsBehind(m, q, t, ws)
    ensures multiset(ws) == WaitingBehind(m, h, q, t)
  {
    hide OwnInv, QueueInv, MemInv, ChainInv, Reads;
    var l := m.locals[t];
    assert LocalInv(m.sh, h, t, l);
    if Looping(l) && l.q == q {
      LoopingHasChain(m, h, t);
      ReadsChain(m, h, t, 0);
      ReadsUnique(m.sh, l.node, m.sh.queues[q].code, ws, h.pval[t][1..]);
    }
  }

  lemma LoopingHasChain(m: Machine, h: History, t: nat)
    requires Inv(m, h) && t < |m.locals| && Looping(m.locals[t])
    ensures |h.pval[t]| == |h.pend[t]| > 0 && h.pend[t][0] == m.locals[t].node
  {
    hide OwnInv, QueueInv, MemInv;
    assert LocalInv(m.sh, h, t, m.locals[t]);
  }

  lemma {:induction false} SumIsTotal(c: seq<seq<Data>>, d: seq<multiset<Data>>)
    requires |c| == |d| && forall t | 0 <= t < |c| :: multiset(c[t]) == d[t]
    ensures Sum(c) == Total(d)
  {
    if c != [] {
      SumIsTotal(c[..|c| - 1], d[..|d| - 1]);
    }
  }

  /** In every run, orderly or not: the values that line 98 has linked are, with multiplicity,
      those dequeued, those behind the head and those that wait behind nodes which other
      enqueuers have not linked yet. Nothing is lost and nothing is dequeued twice. */
  lemma NothingLostNorTwice(n: nat, es: seq<Event>, q: nat, contents: seq<Data>, waiting: seq<seq<Data>>)
    requires Legal(n, es) && q < |After(n, es).sh.queues| && |waiting| == |After(n, es).locals|
    requires var s := After(n, es).sh; Reads(s, s.queues[q].head.addr, s.queues[q].code, contents)
    requires forall t | 0 <= t < |waiting| :: ReadsBehind(After(n, es), q, t, waiting[t])
    ensures multiset(Links(n, es, q)) == multiset(Returns(n, es, q)) + multiset(contents) + Sum(waiting)
  {
    hide Inv, After, Legal, HistoryOf, Reads, ReadsBehind;
    var m, h := After(n, es), HistoryOf(n, es);
    RunInv(n, es);
    HistoryIsSchedule(n, es, q);
    FifoByPublication(n, es, q, contents);
    Conservation(n, es, q);
    forall t | 0 <= t < |waiting| ensures multiset(waiting[t]) == WaitingSeq(m, h, q)[t] {
      WaitingIsReadable(m, h, q, t, waiting[t]);
    }
    SumIsTotal(waiting, WaitingSeq(m, h, q));
  }

  /** Exactly when a Dequeue that has reserved an element finds none behind the current head
      at line 124: when every value linked and not dequeued waits behind a node that its
      enqueuer has not linked; and then there is such a value. */
  lemma ReservationFailsIff(n: nat, es: seq<Event>, t: nat, waiting: seq<seq<Data>>)
    requires Legal(n, es) && CanRun(After(n, es), t) && After(n, es).locals[t].DeqReadNext?
    requires var m, l := After(n, es), After(n, es).locals[t]; m.sh.queues[l.q].head == l.hd
    requires |waiting| == |After(n, es).locals|
    requires forall u | 0 <= u < |waiting| :: ReadsBehind(After(n, es), After(n, es).locals[t].q, u, waiting[u])
    ensures var q := After(n, es).locals[t].q;
      RunThread(After(n, es), t).locals[t].DeqRecheck? <==>
      multiset(Links(n, es, q)) == multiset(Returns(n, es, q)) + Sum(waiting)
    ensures RunThread(After(n, es), t).locals[t].DeqRecheck? ==> Sum(waiting) != multiset{}
  {
    hide After, Legal, HistoryOf, Reads, ReadsBehind, Links, Returns, Inv;
    var m, h, q := After(n, es), HistoryOf(n, es), After(n, es).locals[t].q;
    RunInv(n, es);
    var contents := BehindHead(m, h, t);
    NothingLostNorTwice(n, es, q, contents, waiting);
    HistoryIsSchedule(n, es, q);
    SizeAccounting(n, es, q);
    CountBounds(Reserved, q, m.locals);
    assert At(Reserved, q, m.locals[t]);
    assert |multiset(Links(n, es, q))| > |multiset(Returns(n, es, q))|;
    assert contents != [] ==> contents[0] in multiset(contents);
  }

  lemma BehindHead(m: Machine, h: History, t: nat) returns (contents: seq<Data>)
    requires Inv(m, h) && CanRun(m, t) && m.locals[t].DeqReadNext?
    requires m.sh.queues[m.locals[t].q].head == m.locals[t].hd
    ensures var w := m.sh.queues[m.locals[t].q]; Reads(m.sh, w.head.addr, w.code, contents)
    ensures RunThread(m, t).locals[t].DeqRecheck? <==> contents == []
  {
    hide OwnInv, LocalInv;
    var q := m.locals[t].q;
    assert QueueInv(m.sh, h, q);
    var v := m.sh.queues[q].head.ver;
    ReadsFrom(m, h, q, v);
    contents := h.qs[q].vals[v..];
  }

  // ----- the return of line 130 -----

  predicate Concerns(e: Event, t: nat) {
    !e.Construct? && !e.Refill? && e.t == t
  }

  /** Position j of es is the latest step of thread t. */
  predicate LatestStep(es: seq<Event>, j: nat, t: nat) {
    j < |es| && es[j] == Run(t) && forall i | j < i < |es| :: !Concerns(es[i], t)
  }

  lemma {:induction false} SinceLatestStep(n: nat, es: seq<Event>, j: nat, t: nat, q: nat)
    requires Legal(n, es) && LatestStep(es, j, t)
    ensures Legal(n, es[..j]) && CanRun(After(n, es[..j]), t) && t < |After(n, es).locals|
    ensures After(n, es).locals[t] == RunThread(After(n, es[..j]), t).locals[t]
    ensures q < |After(n, es[..j]).sh.queues| ==>
      && q < |After(n, es).sh.queues|
      && After(n, es[..j]).sh.queues[q].head.ver <= After(n, es).sh.queues[q].head.ver
    decreases |es|
  {
    hide EnqueueEffect, EnqueueGoto, DequeueEffect, DequeueGoto;
    var p, e := es[..|es| - 1], es[|es| - 1];
    if j < |p| {
      SinceLatestStep(n, p, j, t, q);
      assert p[..j] == es[..j];
      Bystander(After(n, p), e, t);
    } else {
      assert p == es[..j];
    }
    if q < |After(n, p).sh.queues| {
      HeadsAdvance(After(n, p), e, q);
    }
  }

  lemma Bystander(m: Machine, e: Event, t: nat)
    requires Enabled(m, e) && t < |m.locals| && !Concerns(e, t)
    ensures t < |Next(m, e).locals| && Next(m, e).locals[t] == m.locals[t]
  {
  }

  lemma HeadStays(m: Machine, h: History, t: nat)
    requires Inv(m, h) && CanRun(m, t) && m.locals[t].DeqReadNext?
    ensures var l := m.locals[t];
      var w := m.sh.queues[l.q].head;
      w.ver <= l.hd.ver ==> w == l.hd
  {
    hide OwnInv, MemInv, ChainInv;
    assert LocalInv(m.sh, h, t, m.locals[t]);
    assert QueueInv(m.sh, h, m.locals[t].q);
  }

  /** A reserved Dequeue returns at line 130 exactly if the head has not moved since it read it
      at line 122; and then, when it read the end code at line 124, there were values that had
      been linked and not dequeued, and all of them waited behind unlinked nodes. */
  lemma VacantReturnIff(n: nat, es: seq<Event>, j: nat, t: nat, waiting: seq<seq<Data>>)
    requires Legal(n, es) && LatestStep(es, j, t) && Legal(n, es[..j])
    requires CanRun(After(n, es), t) && After(n, es).locals[t].DeqRecheck?
    requires var m, q := After(n, es[..j]), After(n, es).locals[t].q;
      q < |m.sh.queues| ==> |waiting| == |m.locals| && forall u | 0 <= u < |waiting| :: ReadsBehind(m, q, u, waiting[u])
    ensures var l, p := After(n, es).locals[t], es[..j];
      && CanRun(After(n, p), t) && After(n, p).locals[t] == DeqReadNext(l.q, l.hd)
      && (RunThread(After(n, es), t).locals[t] == DeqDone(l.q, Vacant) <==> After(n, es).sh.queues[l.q].head == l.hd)
      && (RunThread(After(n, es), t).locals[t] == DeqDone(l.q, Vacant) ==>
            && After(n, p).sh.queues[l.q].head == l.hd
            && multiset(Links(n, p, l.q)) == multiset(Returns(n, p, l.q)) + Sum(waiting)
            && Sum(waiting) != multiset{})
  {
    hide Inv, After, Legal, HistoryOf, Links, Returns, ReadsBehind, Sum;
    var l, p := After(n, es).locals[t], es[..j];
    SinceLatestStep(n, es, j, t, l.q);
    assert After(n, p).locals[t] == DeqReadNext(l.q, l.hd);
    RunInv(n, p);
    HeadStays(After(n, p), HistoryOf(n, p), t);
    if After(n, es).sh.queues[l.q].head == l.hd {
      ReservationFailsIff(n, p, t, waiting);
    }
  }
}
