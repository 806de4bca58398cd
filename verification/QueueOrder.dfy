/** What holds in addition as long as line 98 never attaches to a node that another
    enqueuer has allocated but not linked: order of links, reservations, size, tail lag. */
module QueueOrder {
  import opened QueueMachine
  import opened QueueHistory
  import opened QueueLink
  import opened QueueRuns
  import opened QueueTheorems
  import opened QueueAccounting

  /** Some enqueuer in its loop holds a as the node it still has to link. */
  ghost predicate HeldUnlinked(m: Machine, a: nat) {
    exists y :: 0 <= y < |m.locals| && Looping(m.locals[y]) && m.locals[y].node == a
  }

  predicate LinkSucceedsAt(m: Machine, e: Event) {
    && e.Run? && e.t < |m.locals| && m.locals[e.t].EnqLink? && m.locals[e.t].q < |m.sh.queues|
    && m.locals[e.t].tl.addr in m.sh.next
    && m.sh.next[m.locals[e.t].tl.addr] == m.sh.queues[m.locals[e.t].q].code
  }

  /** The hypothesis: whenever line 98 succeeds, bkRealTail is not a node that was freed,
      allocated again and is not linked yet. */
  ghost predicate Orderly(n: nat, es: seq<Event>)
    requires Legal(n, es)
    decreases |es|
  {
    es == [] ||
    var p, e := es[..|es| - 1], es[|es| - 1];
    Orderly(n, p) && (LinkSucceedsAt(After(n, p), e) ==>
                        !HeldUnlinked(After(n, p), After(n, p).locals[e.t].tl.addr))
  }

  ghost predicate Singles(h: History) {
    forall t | 0 <= t < |h.pend| :: |h.pend[t]| <= 1
  }

  ghost predicate InLinkOrder(h: History) {
    forall q | 0 <= q < |h.qs| :: h.qs[q].vals == h.qs[q].linked && h.qs[q].lost == 0
  }

  /** A dequeuer that found the end code read it behind a head that has moved on. */
  ghost predicate RecheckFails(m: Machine, l: Local) {
    l.DeqRecheck? ==> l.q < |m.sh.queues| && m.sh.queues[l.q].head.ver != l.hd.ver
  }

  ghost predicate NoneVacant(m: Machine) {
    forall t | 0 <= t < |m.locals| ::
      RecheckFails(m, m.locals[t]) && (m.locals[t].DeqDone? ==> !m.locals[t].out.Vacant?)
  }

  ghost predicate Ordered(m: Machine, h: History) {
    Singles(h) && InLinkOrder(h) && NoneVacant(m)
  }

  /** With single-node chains, being pending is being held by an enqueuer. */
  lemma HeldIsPending(m: Machine, h: History, t: nat)
    requires LinkReady(m, h, t) && Singles(h)
    ensures AttachesToQueue(m, h, t) <==> !HeldUnlinked(m, m.locals[t].tl.addr)
  {
    hide OwnInv, QueueInv, LocalInv, MemInv;
    var a := m.locals[t].tl.addr;
    LinkTarget(m, h, t);
    if AttachesToQueue(m, h, t) {
      forall y | 0 <= y < |m.locals| && Looping(m.locals[y]) ensures m.locals[y].node != a {
        ChainOwner(m, h, y);
      }
    } else {
      var y := h.own[a].t;
      ChainOwner(m, h, y);
      ChainHead(m, h, y);
      PendingAt(m, h, t, y);
    }
  }

  lemma PendingAt(m: Machine, h: History, t: nat, y: nat)
    requires LinkReady(m, h, t) && AttachesToPending(m, h, t, y)
    ensures h.pend[y][|h.pend[y]| - 1] == m.locals[t].tl.addr
  {
    hide QueueInv, LocalInv;
    assert OwnInv(m, h, m.locals[t].tl.addr);
  }

  // ----- the steps -----

  lemma SinglesStep(m: Machine, h: History, e: Event)
    requires Inv(m, h) && Enabled(m, e) && Singles(h)
    requires e.Run? && LinkReady(m, h, e.t) ==> AttachesToQueue(m, h, e.t)
    ensures Singles(Track(m, h, e))
  {
    hide OwnInv, QueueInv, LocalInv, MemInv;
    if e.Run? && m.locals[e.t].EnqLink? {
      hide Inv;
    }
  }

  /** At line 124 with a reservation: the end code is never read behind the current head. */
  lemma ReservedSeesSuccessor(m: Machine, h: History, t: nat)
    requires Inv(m, h) && CanRun(m, t) && m.locals[t].DeqReadNext? && InLinkOrder(h)
    requires SizeInv(m, h, m.locals[t].q)
    ensures RecheckFails(m, RunThread(m, t).locals[t])
  {
    hide OwnInv;
    var l := m.locals[t];
    var g, w := h.qs[l.q], m.sh.queues[l.q];
    assert QueueInv(m.sh, h, l.q);
    assert LocalInv(m.sh, h, t, l);
    CountBounds(Reserved, l.q, m.locals);
    assert At(Reserved, l.q, m.locals[t]);
    assert |g.vals| > w.head.ver;
    assert m.sh.next[g.hist[w.head.ver]] == g.hist[w.head.ver + 1];
  }

  /** The head of a queue never goes back. */
  lemma HeadsAdvance(m: Machine, e: Event, q: nat)
    requires Enabled(m, e) && q < |m.sh.queues|
    ensures q < |Next(m, e).sh.queues| && m.sh.queues[q].head.ver <= Next(m, e).sh.queues[q].head.ver
  {
    hide EnqueueGoto, DequeueGoto;
  }

  lemma BystanderStep(m: Machine, h: History, e: Event, t: nat)
    requires Inv(m, h) && Enabled(m, e) && t < |m.locals|
    requires !((e.Run? || e.CallEnqueue? || e.CallDequeue?) && e.t == t)
    requires RecheckFails(m, m.locals[t])
    ensures |Next(m, e).locals| == |m.locals| && Next(m, e).locals[t] == m.locals[t]
    ensures RecheckFails(Next(m, e), m.locals[t])
  {
    hide OwnInv, QueueInv, MemInv;
    assert LocalInv(m.sh, h, t, m.locals[t]);
    if m.locals[t].DeqRecheck? {
      HeadsAdvance(m, e, m.locals[t].q);
    }
  }

  lemma ActorStep(m: Machine, h: History, t: nat)
    requires Inv(m, h) && CanRun(m, t) && InLinkOrder(h) && RecheckFails(m, m.locals[t])
    requires SizeInv(m, h, m.locals[t].q)
    ensures var l' := RunThread(m, t).locals[t];
      RecheckFails(RunThread(m, t), l') && (l'.DeqDone? ==> !l'.out.Vacant?)
  {
    hide OwnInv, QueueInv, MemInv, LocalInv, SizeInv;
    if m.locals[t].DeqReadNext? {
      ReservedSeesSuccessor(m, h, t);
    }
    hide Inv;
  }

  lemma NoneVacantStep(m: Machine, h: History, e: Event)
    requires Inv(m, h) && Enabled(m, e) && Ordered(m, h)
    requires e.Run? ==> SizeInv(m, h, m.locals[e.t].q)
    ensures NoneVacant(Next(m, e))
  {
    hide OwnInv, QueueInv, MemInv, LocalInv, SizeInv, RecheckFails, RunThread;
    LocalsKeepLength(m, e);
    forall t | 0 <= t < |Next(m, e).locals|
      ensures RecheckFails(Next(m, e), Next(m, e).locals[t])
      ensures Next(m, e).locals[t].DeqDone? ==> !Next(m, e).locals[t].out.Vacant?
    {
      if e.Run? && e.t == t {
        ActorStep(m, h, t);
      } else if (e.CallEnqueue? || e.CallDequeue?) && e.t == t {
        CallerStep(m, e);
      } else {
        BystanderStep(m, h, e, t);
      }
    }
  }

  lemma LocalsKeepLength(m: Machine, e: Event)
    requires Enabled(m, e)
    ensures |Next(m, e).locals| == |m.locals|
  {
  }

  lemma CallerStep(m: Machine, e: Event)
    requires Enabled(m, e) && (e.CallEnqueue? || e.CallDequeue?)
    ensures e.t < |Next(m, e).locals|
    ensures RecheckFails(Next(m, e), Next(m, e).locals[e.t]) && !Next(m, e).locals[e.t].DeqDone?
  {
  }

  lemma LinkOrderStep(m: Machine, h: History, e: Event)
    requires Inv(m, h) && Enabled(m, e) && Ordered(m, h)
    requires e.Run? && LinkReady(m, h, e.t) ==> AttachesToQueue(m, h, e.t)
    ensures InLinkOrder(Track(m, h, e))
  {
    hide OwnInv, QueueInv, MemInv, LocalInv;
    if e.Run? && LinkReady(m, h, e.t) {
      ChainHead(m, h, e.t);
      ChainIsSingle(m, h, e.t);
    }
    hide Inv;
  }

  lemma ChainIsSingle(m: Machine, h: History, t: nat)
    requires LinkReady(m, h, t) && Singles(h)
    ensures h.pval[t] == [m.locals[t].val]
  {
    hide OwnInv, QueueInv, MemInv, LocalInv;
    ChainHead(m, h, t);
  }

  lemma {:induction false} OrderlyRun(n: nat, es: seq<Event>)
    requires Legal(n, es) && Orderly(n, es)
    ensures Ordered(After(n, es), HistoryOf(n, es))
  {
    hide OwnInv, QueueInv, MemInv, LocalInv, Ordered, Next, Track, SizeInv, HeldUnlinked;
    if es == [] {
      BootOrdered(n);
    } else {
      var p, e := es[..|es| - 1], es[|es| - 1];
      var m, h := After(n, p), HistoryOf(n, p);
      RunInv(n, p);
      OrderlyRun(n, p);
      if e.Run? {
        SizeAccounting(n, p, m.locals[e.t].q);
      }
      OrderedStep(m, h, e);
    }
  }

  lemma BootOrdered(n: nat)
    ensures Ordered(Boot(n), Begin(n))
  {
  }

  lemma OrderedStep(m: Machine, h: History, e: Event)
    requires Inv(m, h) && Enabled(m, e) && Ordered(m, h)
    requires e.Run? ==> SizeInv(m, h, m.locals[e.t].q)
    requires LinkSucceedsAt(m, e) ==> !HeldUnlinked(m, m.locals[e.t].tl.addr)
    ensures Ordered(Next(m, e), Track(m, h, e))
  {
    hide OwnInv, QueueInv, MemInv, LocalInv, SizeInv, HeldUnlinked, Next, Track, NoneVacant, InLinkOrder;
    if e.Run? && LinkReady(m, h, e.t) {
      HeldIsPending(m, h, e.t);
    }
    SinglesStep(m, h, e);
    LinkOrderStep(m, h, e);
    NoneVacantStep(m, h, e);
  }

  // ----- main results -----

  /** First in, first out in order of line 98: what true dequeues returned, followed by what
      memory holds behind the head, are the values in order of their links. */
  lemma FifoByLink(n: nat, es: seq<Event>, q: nat, contents: seq<Data>)
    requires Legal(n, es) && Orderly(n, es) && q < |After(n, es).sh.queues|
    ensures var m, g := After(n, es), HistoryOf(n, es).qs[q];
      var w := m.sh.queues[q];
      Reads(m.sh, w.head.addr, w.code, contents) <==> g.taken + contents == g.linked
  {
    hide Inv, After, Legal, HistoryOf, Reads;
    OrderlyRun(n, es);
    FifoByPublication(n, es, q, contents);
  }

  /** Exactly when a link keeps link order: what line 98 attaches becomes readable at the end
      of the queue if and only if the node it attaches to is not held by another enqueuer. */
  lemma LinkOrderIff(n: nat, es: seq<Event>, e: Event)
    requires Legal(n, es) && Orderly(n, es) && Enabled(After(n, es), e) && LinkSucceedsAt(After(n, es), e)
    ensures var m, h, l := After(n, es), HistoryOf(n, es), After(n, es).locals[e.t];
      var h' := Track(m, h, e);
      l.q < |h'.qs| && (h'.qs[l.q].vals == h'.qs[l.q].linked <==> !HeldUnlinked(m, l.tl.addr))
  {
    hide After, Legal, HistoryOf, OwnInv, QueueInv, MemInv, LocalInv, HeldUnlinked;
    var m, h := After(n, es), HistoryOf(n, es);
    RunInv(n, es);
    OrderlyRun(n, es);
    assert LinkReady(m, h, e.t);
    HeldIsPending(m, h, e.t);
    LinkTarget(m, h, e.t);
    ChainIsSingle(m, h, e.t);
    hide Inv;
  }

  /** A Dequeue whose decrement was not negative never takes the return of line 130. */
  lemma ReservationSucceeds(n: nat, es: seq<Event>, t: nat)
    requires Legal(n, es) && Orderly(n, es) && t < |After(n, es).locals|
    ensures var l := After(n, es).locals[t];
      && (l.DeqDone? ==> !l.out.Vacant?)
      && (l.DeqRecheck? ==> l.q < |After(n, es).sh.queues| && After(n, es).sh.queues[l.q].head != l.hd)
  {
    hide Inv, After, Legal, HistoryOf, Orderly;
    OrderlyRun(n, es);
  }

  /** The size counter against the contents: short by exactly the enqueuers between lines 98
      and 108, the dequeuers between lines 114 and 146 and those between 114 and 116; so it
      is the length when all threads rest, and never below minus the number of the last. */
  lemma SizeIsLengthAtRest(n: nat, es: seq<Event>, q: nat, contents: seq<Data>)
    requires Legal(n, es) && Orderly(n, es) && q < |After(n, es).sh.queues|
    requires var s := After(n, es).sh; Reads(s, s.queues[q].head.addr, s.queues[q].code, contents)
    ensures var m := After(n, es);
      var size, failing := m.sh.queues[q].size, Count(Failing, q, m.locals);
      && size == |contents| - Count(LinkedNotCounted, q, m.locals) - Count(Reserved, q, m.locals) - failing
      && 0 <= size + failing && size <= |contents| && failing <= n
      && ((forall t | 0 <= t < |m.locals| :: AtRest(m.locals[t])) ==> size == |contents|)
  {
    hide Inv, After, Legal, HistoryOf, Orderly, Reads;
    var m, h := After(n, es), HistoryOf(n, es);
    RunInv(n, es);
    ThreadsOfRun(n, es);
    FifoByLink(n, es, q, contents);
    OrderlyRun(n, es);
    SizeAccounting(n, es, q);
    CountBounds(LinkedNotCounted, q, m.locals);
    CountBounds(Reserved, q, m.locals);
    CountBounds(Failing, q, m.locals);
    assert |h.qs[q].linked| == |h.qs[q].taken| + |contents|;
  }

  lemma {:induction false} ThreadsOfRun(n: nat, es: seq<Event>)
    requires Legal(n, es)
    ensures |After(n, es).locals| == n
  {
    hide Next;
    if es != [] {
      ThreadsOfRun(n, es[..|es| - 1]);
      LocalsKeepLength(After(n, es[..|es| - 1]), es[|es| - 1]);
    }
  }

  /** What a negative decrement at line 114 means: exactly that the counted elements not yet
      reserved are at most as many as the dequeuers then between lines 114 and 116. */
  lemma FailureMeaning(n: nat, es: seq<Event>, t: nat, contents: seq<Data>)
    requires Legal(n, es) && Orderly(n, es) && CanRun(After(n, es), t) && After(n, es).locals[t].DeqReserve?
    requires var s, q := After(n, es).sh, After(n, es).locals[t].q;
      Reads(s, s.queues[q].head.addr, s.queues[q].code, contents)
    ensures var m, q := After(n, es), After(n, es).locals[t].q;
      RunThread(m, t).locals[t].DeqRestore? <==>
        |contents| - Count(LinkedNotCounted, q, m.locals) - Count(Reserved, q, m.locals)
          <= Count(Failing, q, m.locals)
  {
    hide Inv, After, Legal, HistoryOf, Orderly, Reads, Count;
    SizeIsLengthAtRest(n, es, After(n, es).locals[t].q, contents);
  }

  lemma {:induction false} SomebodyAt(stage: Stage, q: nat, ls: seq<Local>)
    requires Count(stage, q, ls) > 0
    ensures exists u :: 0 <= u < |ls| && At(stage, q, ls[u])
  {
    var p := ls[..|ls| - 1];
    if Count(stage, q, p) > 0 {
      SomebodyAt(stage, q, p);
      var u :| 0 <= u < |p| && At(stage, q, p[u]);
      assert At(stage, q, ls[u]);
    } else {
      assert At(stage, q, ls[|ls| - 1]);
    }
  }

  predicate InFlight(q: nat, l: Local) {
    At(LinkedNotCounted, q, l) || At(Reserved, q, l) || At(Failing, q, l)
  }

  /** When a Dequeue fails although memory holds elements: exactly if there are no more of them
      than threads between two related accesses on the queue; in particular only while some
      other thread is in the middle of an operation on it. */
  lemma FailureOnNonEmpty(n: nat, es: seq<Event>, t: nat, contents: seq<Data>)
    requires Legal(n, es) && Orderly(n, es) && CanRun(After(n, es), t) && After(n, es).locals[t].DeqReserve?
    requires var s, q := After(n, es).sh, After(n, es).locals[t].q;
      Reads(s, s.queues[q].head.addr, s.queues[q].code, contents)
    ensures var m, q := After(n, es), After(n, es).locals[t].q;
      RunThread(m, t).locals[t].DeqRestore? && contents != [] <==>
      0 < |contents| <=
        Count(LinkedNotCounted, q, m.locals) + Count(Reserved, q, m.locals) + Count(Failing, q, m.locals)
    ensures var m, q := After(n, es), After(n, es).locals[t].q;
      RunThread(m, t).locals[t].DeqRestore? && contents != [] ==>
      exists u :: 0 <= u < |m.locals| && u != t && InFlight(q, m.locals[u])
  {
    hide Inv, After, Legal, HistoryOf, Orderly, Reads, Count;
    FailureMeaning(n, es, t, contents);
    var m, q := After(n, es), After(n, es).locals[t].q;
    if RunThread(m, t).locals[t].DeqRestore? && contents != [] {
      var stage := if Count(LinkedNotCounted, q, m.locals) > 0 then LinkedNotCounted
                   else if Count(Reserved, q, m.locals) > 0 then Reserved else Failing;
      SomebodyAt(stage, q, m.locals);
      var u :| 0 <= u < |m.locals| && At(stage, q, m.locals[u]);
      assert InFlight(q, m.locals[u]);
    }
  }

  // ----- tail lag -----

  /** The stronger hypothesis: whenever line 98 succeeds, the head has not passed bkRealTail
      since it was read at line 91. */
  ghost predicate Prompt(n: nat, es: seq<Event>)
    requires Legal(n, es)
    decreases |es|
  {
    es == [] ||
    var p, e := es[..|es| - 1], es[|es| - 1];
    Prompt(n, p) &&
    (LinkSucceedsAt(After(n, p), e) ==>
       var m := After(n, p);
       m.sh.queues[m.locals[e.t].q].head.ver <= m.locals[e.t].tl.ver)
  }

  /** A node the head has not passed is still at its place in the history. */
  lemma UnpassedIsLive(m: Machine, h: History, t: nat)
    requires LinkReady(m, h, t)
    requires m.sh.queues[m.locals[t].q].head.ver <= m.locals[t].tl.ver
    ensures AttachesToQueue(m, h, t)
    ensures m.locals[t].tl.ver == |h.qs[m.locals[t].q].hist| - 1
    ensures m.sh.queues[m.locals[t].q].tail == m.locals[t].tl
  {
    hide OwnInv, ChainInv, MemInv;
    var l := m.locals[t];
    assert LocalInv(m.sh, h, t, l);
    assert QueueInv(m.sh, h, l.q);
    assert h.own[h.qs[l.q].hist[l.tl.ver]] == Live(l.q, l.tl.ver);
    hide QueueInv, LocalInv;
    LinkTarget(m, h, t);
  }

  lemma {:induction false} PromptIsOrderly(n: nat, es: seq<Event>)
    requires Legal(n, es) && Prompt(n, es)
    ensures Orderly(n, es)
  {
    hide OwnInv, QueueInv, MemInv, LocalInv, Next, Track, HeldUnlinked;
    if es != [] {
      var p, e := es[..|es| - 1], es[|es| - 1];
      PromptIsOrderly(n, p);
      OrderlyRun(n, p);
      var m, h := After(n, p), HistoryOf(n, p);
      RunInv(n, p);
      if LinkSucceedsAt(m, e) {
        assert LinkReady(m, h, e.t);
        UnpassedIsLive(m, h, e.t);
        HeldIsPending(m, h, e.t);
      }
    }
  }

  ghost predicate LagAtMostOne(m: Machine, h: History, q: nat)
    requires Shaped(m, h) && q < |m.sh.queues|
  {
    |h.qs[q].vals| <= m.sh.queues[q].tail.ver + 1
  }

  lemma LagStep(m: Machine, h: History, e: Event, q: nat)
    requires Inv(m, h) && Enabled(m, e) && q < |m.sh.queues| && LagAtMostOne(m, h, q)
    requires e.Run? && LinkReady(m, h, e.t) ==>
      AttachesToQueue(m, h, e.t) && |h.pval[e.t]| == 1
      && m.sh.queues[m.locals[e.t].q].tail.ver == |h.qs[m.locals[e.t].q].vals|
    ensures var m', h' := Next(m, e), Track(m, h, e);
      q < |m'.sh.queues| == |h'.qs| && |h'.qs[q].vals| <= m'.sh.queues[q].tail.ver + 1
  {
    hide OwnInv, QueueInv, MemInv, LocalInv;
    if e.Run? && m.locals[e.t].EnqLink? {
      LagLinkStep(m, h, e, q);
    } else {
      hide Inv, TrackLink, EnqueueGoto, DequeueGoto;
    }
  }

  lemma LagLinkStep(m: Machine, h: History, e: Event, q: nat)
    requires Inv(m, h) && Enabled(m, e) && q < |m.sh.queues| && LagAtMostOne(m, h, q)
    requires e.Run? && m.locals[e.t].EnqLink?
    requires LinkReady(m, h, e.t) ==>
      AttachesToQueue(m, h, e.t) && |h.pval[e.t]| == 1
      && m.sh.queues[m.locals[e.t].q].tail.ver == |h.qs[m.locals[e.t].q].vals|
    ensures var m', h' := Next(m, e), Track(m, h, e);
      q < |m'.sh.queues| == |h'.qs| && |h'.qs[q].vals| <= m'.sh.queues[q].tail.ver + 1
  {
    hide OwnInv, QueueInv, MemInv, LocalInv;
    assert LinkReady(m, h, e.t) <==> LinkSucceedsAt(m, e);
    hide Inv, EnqueueGoto, DequeueGoto, DequeueEffect;
  }

  lemma {:induction false} LagOfRun(n: nat, es: seq<Event>, q: nat)
    requires Legal(n, es) && Prompt(n, es) && q < |After(n, es).sh.queues|
    ensures LagAtMostOne(After(n, es), HistoryOf(n, es), q)
  {
    hide OwnInv, QueueInv, MemInv, LocalInv, Next, Track;
    if es != [] {
      var p, e := es[..|es| - 1], es[|es| - 1];
      var m, h := After(n, p), HistoryOf(n, p);
      RunInv(n, p);
      if q < |m.sh.queues| {
        LagOfRun(n, p, q);
        if e.Run? && LinkReady(m, h, e.t) {
          PromptLink(n, p, e);
        }
        LagStep(m, h, e, q);
      } else {
        NewQueueLag(m, h, e);
      }
    }
  }

  lemma PromptLink(n: nat, p: seq<Event>, e: Event)
    requires Legal(n, p) && Prompt(n, p) && e.Run? && LinkReady(After(n, p), HistoryOf(n, p), e.t)
    requires var m := After(n, p); m.sh.queues[m.locals[e.t].q].head.ver <= m.locals[e.t].tl.ver
    ensures var m, h := After(n, p), HistoryOf(n, p);
      && AttachesToQueue(m, h, e.t) && |h.pval[e.t]| == 1
      && m.sh.queues[m.locals[e.t].q].tail.ver == |h.qs[m.locals[e.t].q].vals|
  {
    hide OwnInv, MemInv, LocalInv, After, HistoryOf, Prompt;
    var m, h := After(n, p), HistoryOf(n, p);
    RunInv(n, p);
    PromptIsOrderly(n, p);
    OrderlyRun(n, p);
    UnpassedIsLive(m, h, e.t);
    ChainIsSingle(m, h, e.t);
    assert QueueInv(m.sh, h, m.locals[e.t].q);
  }

  lemma NewQueueLag(m: Machine, h: History, e: Event)
    requires Shaped(m, h) && Enabled(m, e)
    ensures var m', h' := Next(m, e), Track(m, h, e);
      |m'.sh.queues| <= |m.sh.queues| + 1
      && (|m'.sh.queues| > |m.sh.queues| ==>
            |h'.qs| == |m'.sh.queues|
            && |h'.qs[|m.sh.queues|].vals| <= m'.sh.queues[|m.sh.queues|].tail.ver + 1)
  {
  }

  /** In a prompt run the tail is always the last node of its queue or the one before it. */
  lemma TailLagAtMostOne(n: nat, es: seq<Event>, q: nat)
    requires Legal(n, es) && Prompt(n, es) && q < |After(n, es).sh.queues|
    ensures var s := After(n, es).sh;
      var w := s.queues[q];
      && w.tail.addr in s.next
      && (s.next[w.tail.addr] == w.code
          || (s.next[w.tail.addr] in s.next && s.next[s.next[w.tail.addr]] == w.code))
  {
    hide OwnInv, MemInv, LocalInv, After, HistoryOf, Prompt, Legal;
    var m, h := After(n, es), HistoryOf(n, es);
    RunInv(n, es);
    LagOfRun(n, es, q);
    assert QueueInv(m.sh, h, q);
    var hist, v := h.qs[q].hist, m.sh.queues[q].tail.ver;
    if v + 1 < |hist| {
      assert m.sh.next[hist[v]] == hist[v + 1];
    }
  }

  // ----- where the tail is -----

  /** Thread t has linked behind the present tail of queue q and not swung it at line 107 yet. */
  predicate SwingPending(m: Machine, t: nat, q: nat) {
    && t < |m.locals| && q < |m.sh.queues| && m.locals[t].EnqSwing? && m.locals[t].q == q
    && m.locals[t].tl == m.sh.queues[q].tail
  }

  ghost predicate SomeSwingPending(m: Machine, q: nat) {
    exists t: nat :: SwingPending(m, t, q)
  }

  ghost predicate LagIsPending(m: Machine, h: History, q: nat)
    requires Shaped(m, h) && q < |m.sh.queues|
  {
    |h.qs[q].vals| > m.sh.queues[q].tail.ver ==> SomeSwingPending(m, q)
  }

  /** A step that moves no tail and links nothing to the queue keeps a pending swing pending. */
  lemma PendingStays(m: Machine, e: Event, t: nat, q: nat)
    requires Enabled(m, e) && SwingPending(m, t, q)
    ensures q < |Next(m, e).sh.queues|
    ensures Next(m, e).sh.queues[q].tail == m.sh.queues[q].tail ==> SwingPending(Next(m, e), t, q)
  {
  }

  lemma TailMoves(m: Machine, e: Event, q: nat)
    requires Enabled(m, e) && q < |m.sh.queues|
    ensures q < |Next(m, e).sh.queues|
    ensures Next(m, e).sh.queues[q].tail != m.sh.queues[q].tail ==>
      Next(m, e).sh.queues[q].tail.ver == m.sh.queues[q].tail.ver + 1
  {
  }

  lemma VisibleStep(m: Machine, h: History, e: Event, q: nat)
    requires Inv(m, h) && Enabled(m, e) && q < |m.sh.queues|
    ensures q < |Track(m, h, e).qs|
    ensures !(e.Run? && LinkReady(m, h, e.t) && m.locals[e.t].q == q) ==> Track(m, h, e).qs[q].vals == h.qs[q].vals
  {
    hide OwnInv, QueueInv, MemInv, LocalInv;
    if e.Run? && m.locals[e.t].EnqLink? {
      assert LinkReady(m, h, e.t) <==> LinkSucceedsAt(m, e);
    }
    hide Inv;
  }

  lemma LinkIsPending(m: Machine, h: History, t: nat)
    requires LinkReady(m, h, t) && m.sh.queues[m.locals[t].q].tail == m.locals[t].tl
    ensures SwingPending(RunThread(m, t), t, m.locals[t].q)
  {
    hide Inv;
  }

  lemma LagPendingStep(m: Machine, h: History, e: Event, q: nat)
    requires Inv(m, h) && Shaped(m, h) && Enabled(m, e) && q < |m.sh.queues|
    requires LagAtMostOne(m, h, q) && LagIsPending(m, h, q)
    requires e.Run? && LinkReady(m, h, e.t) ==> m.sh.queues[m.locals[e.t].q].tail == m.locals[e.t].tl
    ensures Shaped(Next(m, e), Track(m, h, e)) && q < |Next(m, e).sh.queues|
    ensures LagIsPending(Next(m, e), Track(m, h, e), q)
  {
    hide Inv, Next, Track, SwingPending, LinkReady, RunThread;
    TrackShaped(m, h, e);
    TailMoves(m, e, q);
    VisibleStep(m, h, e, q);
    if e.Run? && LinkReady(m, h, e.t) && m.locals[e.t].q == q {
      LinkIsPending(m, h, e.t);
      RunIsNext(m, e);
    } else if Next(m, e).sh.queues[q].tail == m.sh.queues[q].tail && |h.qs[q].vals| > m.sh.queues[q].tail.ver {
      var t: nat :| SwingPending(m, t, q);
      PendingStays(m, e, t, q);
    }
  }

  lemma RunIsNext(m: Machine, e: Event)
    requires Enabled(m, e) && e.Run?
    ensures CanRun(m, e.t) && Next(m, e) == RunThread(m, e.t)
  {
  }

  lemma {:induction false} LagPendingRun(n: nat, es: seq<Event>, q: nat)
    requires Legal(n, es) && Prompt(n, es) && q < |After(n, es).sh.queues|
    ensures LagIsPending(After(n, es), HistoryOf(n, es), q)
  {
    hide Inv, Next, Track, LagIsPending, LinkSucceedsAt;
    if es != [] {
      var p, e := es[..|es| - 1], es[|es| - 1];
      var m, h := After(n, p), HistoryOf(n, p);
      RunInv(n, p);
      if q < |m.sh.queues| {
        LagPendingRun(n, p, q);
        LagOfRun(n, p, q);
        if e.Run? && LinkReady(m, h, e.t) {
          ReadyLinks(m, h, e);
          UnpassedIsLive(m, h, e.t);
        }
        LagPendingStep(m, h, e, q);
      } else {
        NewQueueAtEnd(m, h, e, q);
      }
    }
  }

  lemma ReadyLinks(m: Machine, h: History, e: Event)
    requires e.Run? && LinkReady(m, h, e.t)
    ensures LinkSucceedsAt(m, e)
  {
    hide Inv;
  }

  lemma NewQueueAtEnd(m: Machine, h: History, e: Event, q: nat)
    requires Shaped(m, h) && Enabled(m, e) && |m.sh.queues| <= q < |Next(m, e).sh.queues|
    ensures Shaped(Next(m, e), Track(m, h, e)) && LagIsPending(Next(m, e), Track(m, h, e), q)
  {
  }

  /** In a prompt run the tail is the last node exactly while no thread stands between its
      link behind it and its swing at line 107; so it is the last node when all rest. */
  lemma TailIsLastIff(n: nat, es: seq<Event>, q: nat)
    requires Legal(n, es) && Prompt(n, es) && q < |After(n, es).sh.queues|
    ensures TailIsLast(After(n, es).sh, q) <==> !SomeSwingPending(After(n, es), q)
  {
    hide OwnInv, MemInv, ChainInv, After, HistoryOf, Prompt, Legal;
    var m, h := After(n, es), HistoryOf(n, es);
    RunInv(n, es);
    LagPendingRun(n, es, q);
    assert QueueInv(m.sh, h, q);
    var hist, v := h.qs[q].hist, m.sh.queues[q].tail.ver;
    if v + 1 < |hist| {
      assert m.sh.next[hist[v]] == hist[v + 1];
    }
    forall t: nat | SwingPending(m, t, q) ensures v + 1 < |hist| {
      assert LocalInv(m.sh, h, t, m.locals[t]);
    }
    CodesIdentifyQueues(n, es, q, q);
  }
}
