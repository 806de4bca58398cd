/** What a schedule links, dequeues and loses, counted from its events alone; and the size
    counter of every run in these terms. */
module QueueSchedule {
  import opened QueueMachine
  import opened QueueHistory
  import opened QueueRuns
  import opened QueueAccounting
  import opened QueueOrder

  /** Line 146 succeeds on queue q. */
  predicate SwingSucceedsAt(m: Machine, e: Event, q: nat) {
    && e.Run? && e.t < |m.locals| && m.locals[e.t].DeqCas? && m.locals[e.t].q == q < |m.sh.queues|
    && m.sh.queues[q].head == m.locals[e.t].hd
  }

  /** Line 130 returns false from queue q. */
  predicate VacantAt(m: Machine, e: Event, q: nat) {
    && e.Run? && e.t < |m.locals| && m.locals[e.t].DeqRecheck? && m.locals[e.t].q == q < |m.sh.queues|
    && m.sh.queues[q].head == m.locals[e.t].hd
  }

  /** What line 98 links to queue q by event e. */
  function LinkedBy(m: Machine, e: Event, q: nat): seq<Data> {
    if LinkSucceedsAt(m, e) && m.locals[e.t].q == q then [m.locals[e.t].val] else []
  }

  /** What a true Dequeue takes from queue q by event e. */
  function ReturnedBy(m: Machine, e: Event, q: nat): seq<Data> {
    if SwingSucceedsAt(m, e, q) then [m.locals[e.t].val] else []
  }

  function LostBy(m: Machine, e: Event, q: nat): nat {
    if VacantAt(m, e, q) then 1 else 0
  }

  /** The arguments of Enqueue in the order in which line 98 succeeded with them on queue q. */
  function Links(n: nat, es: seq<Event>, q: nat): seq<Data>
    requires Legal(n, es)
    decreases |es|
  {
    if es == [] then []
    else
      var p, e := es[..|es| - 1], es[|es| - 1];
      Links(n, p, q) + LinkedBy(After(n, p), e, q)
  }

  /** The values that true dequeues copied out, in the order in which line 146 succeeded. */
  function Returns(n: nat, es: seq<Event>, q: nat): seq<Data>
    requires Legal(n, es)
    decreases |es|
  {
    if es == [] then []
    else
      var p, e := es[..|es| - 1], es[|es| - 1];
      Returns(n, p, q) + ReturnedBy(After(n, p), e, q)
  }

  /** How many reservations were given up by the return of line 130. */
  function Lost(n: nat, es: seq<Event>, q: nat): nat
    requires Legal(n, es)
    decreases |es|
  {
    if es == [] then 0
    else
      var p, e := es[..|es| - 1], es[|es| - 1];
      Lost(n, p, q) + LostBy(After(n, p), e, q)
  }

  lemma HistoryStep(m: Machine, h: History, e: Event, q: nat)
    requires Inv(m, h) && Enabled(m, e) && q < |m.sh.queues|
    ensures var h' := Track(m, h, e);
      && q < |h.qs| && q < |h'.qs|
      && h'.qs[q].linked == h.qs[q].linked + LinkedBy(m, e, q)
      && h'.qs[q].taken == h.qs[q].taken + ReturnedBy(m, e, q)
      && h'.qs[q].lost == h.qs[q].lost + LostBy(m, e, q)
  {
    hide OwnInv, QueueInv, MemInv, LocalInv;
    if e.Run? && m.locals[e.t].EnqLink? {
      hide Inv;
    } else {
      hide Inv, TrackLink, AfterPublish, AfterGraft;
    }
  }

  /** No event can concern a queue before it is constructed. */
  lemma NewQueue(m: Machine, h: History, e: Event, q: nat)
    requires Inv(m, h) && Enabled(m, e) && |m.sh.queues| <= q < |Next(m, e).sh.queues|
    ensures q < |Track(m, h, e).qs|
    ensures var g := Track(m, h, e).qs[q]; g.linked == [] && g.taken == [] && g.lost == 0
    ensures LinkedBy(m, e, q) == [] && ReturnedBy(m, e, q) == [] && LostBy(m, e, q) == 0
  {
    hide OwnInv, QueueInv, MemInv, LocalInv;
  }

  lemma {:induction false} NothingBefore(n: nat, es: seq<Event>, q: nat)
    requires Legal(n, es) && |After(n, es).sh.queues| <= q
    ensures Links(n, es, q) == [] && Returns(n, es, q) == [] && Lost(n, es, q) == 0
  {
    hide Next, Enabled;
    if es != [] {
      var p, e := es[..|es| - 1], es[|es| - 1];
      QueueCountGrows(After(n, p), e);
      NothingBefore(n, p, q);
    }
  }

  /** The auxiliary history is that of the schedule. */
  lemma {:induction false} HistoryIsSchedule(n: nat, es: seq<Event>, q: nat)
    requires Legal(n, es) && q < |After(n, es).sh.queues|
    ensures q < |HistoryOf(n, es).qs|
    ensures HistoryOf(n, es).qs[q].linked == Links(n, es, q)
    ensures HistoryOf(n, es).qs[q].taken == Returns(n, es, q)
    ensures HistoryOf(n, es).qs[q].lost == Lost(n, es, q)
  {
    hide OwnInv, QueueInv, MemInv, LocalInv, Next, Track, Enabled, LinkedBy, ReturnedBy, LostBy;
    if es != [] {
      var p, e := es[..|es| - 1], es[|es| - 1];
      var m, h := After(n, p), HistoryOf(n, p);
      RunInv(n, p);
      if q < |m.sh.queues| {
        HistoryIsSchedule(n, p, q);
        HistoryStep(m, h, e, q);
      } else {
        NewQueue(m, h, e, q);
        NothingBefore(n, p, q);
      }
    }
  }

  /** The size counter of every run: links minus returns minus lost reservations, minus the
      threads between an access that changes one of these and the access that changes the
      counter; and the counted links cover all reservations, kept or lost. */
  lemma SizeOfSchedule(n: nat, es: seq<Event>, q: nat)
    requires Legal(n, es) && q < |After(n, es).sh.queues|
    ensures var m := After(n, es);
      var counted := |Links(n, es, q)| - Count(LinkedNotCounted, q, m.locals);
      var reserved := |Returns(n, es, q)| + Lost(n, es, q) + Count(Reserved, q, m.locals);
      m.sh.queues[q].size == counted - reserved - Count(Failing, q, m.locals) && reserved <= counted
  {
    hide Inv, After, Legal, HistoryOf, Links, Returns, Lost, Count;
    SizeAccounting(n, es, q);
    HistoryIsSchedule(n, es, q);
  }
}
