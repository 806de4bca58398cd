/** Stretches of a run in which one thread moves alone, with their outcome written out: the
    pieces that concrete runs are put together from. */
module QueueMoves {
  import opened TaggedWord
  import opened QueueMachine
  import opened QueueRuns
  import opened QueueOrder
  import opened QueueSchedule

  /** The embedded dummy nodes, ds, are never handed out by the pool. */
  ghost predicate Spares(es: seq<Event>, ds: set<nat>) {
    forall i | 0 <= i < |es| :: SparesBy(es[i], ds)
  }

  predicate SparesBy(e: Event, ds: set<nat>) {
    match e
    case Construct(dummy, _) => dummy in ds
    case CallEnqueue(_, _, _, node) => node !in ds
    case _ => true
  }

  /** Line 98 succeeds, if it does, on a node that the head has not passed. */
  predicate InTime(m: Machine, e: Event) {
    LinkSucceedsAt(m, e) ==> m.sh.queues[m.locals[e.t].q].head.ver <= m.locals[e.t].tl.ver
  }

  lemma Start(n: nat) returns (es: seq<Event>)
    ensures Legal(n, es) && After(n, es) == Boot(n) && Prompt(n, es)
    ensures forall q :: Links(n, es, q) == [] && Returns(n, es, q) == []
    ensures forall ds :: Spares(es, ds)
  {
    es := [];
  }

  lemma Extend(n: nat, es: seq<Event>, e: Event) returns (es': seq<Event>)
    requires Legal(n, es) && Enabled(After(n, es), e)
    ensures Legal(n, es') && After(n, es') == Next(After(n, es), e)
    ensures Prompt(n, es) && InTime(After(n, es), e) ==> Prompt(n, es')
    ensures forall q :: Links(n, es', q) == Links(n, es, q) + LinkedBy(After(n, es), e, q)
    ensures forall q :: Returns(n, es', q) == Returns(n, es, q) + ReturnedBy(After(n, es), e, q)
    ensures forall ds :: Spares(es, ds) && SparesBy(e, ds) ==> Spares(es', ds)
  {
    es' := es + [e];
    assert es'[..|es'| - 1] == es;
  }

  /** The next access of thread t, when it neither links nor swings a head. */
  lemma Quiet(n: nat, es: seq<Event>, t: nat) returns (es': seq<Event>)
    requires Legal(n, es) && CanRun(After(n, es), t)
    requires !LinkSucceedsAt(After(n, es), Run(t))
    requires !SwingSucceedsAt(After(n, es), Run(t), After(n, es).locals[t].q)
    ensures Legal(n, es') && After(n, es') == RunThread(After(n, es), t)
    ensures Prompt(n, es) ==> Prompt(n, es')
    ensures forall q :: Links(n, es', q) == Links(n, es, q) && Returns(n, es', q) == Returns(n, es, q)
    ensures forall ds :: Spares(es, ds) ==> Spares(es', ds)
  {
    hide Legal, After, Prompt, Links, Returns, Spares, RunThread;
    es' := Extend(n, es, Run(t));
  }

  /** The beginning of a call, or a growth of memory. */
  lemma Call(n: nat, es: seq<Event>, e: Event) returns (es': seq<Event>)
    requires Legal(n, es) && Enabled(After(n, es), e) && !e.Run?
    ensures Legal(n, es') && After(n, es') == Next(After(n, es), e)
    ensures Prompt(n, es) ==> Prompt(n, es')
    ensures forall q :: Links(n, es', q) == Links(n, es, q) && Returns(n, es', q) == Returns(n, es, q)
    ensures forall ds :: Spares(es, ds) && SparesBy(e, ds) ==> Spares(es', ds)
  {
    hide Legal, After, Prompt, Links, Returns, Spares, Next;
    es' := Extend(n, es, e);
  }

  /** Thread t calls Enqueue and runs alone up to line 91. */
  lemma RunToLoop(n: nat, es: seq<Event>, t: nat, q: nat, val: Data, node: nat) returns (es': seq<Event>)
    requires Legal(n, es) && Enabled(After(n, es), CallEnqueue(t, q, val, node))
    requires node in After(n, es).sh.next
    ensures Legal(n, es') && (Prompt(n, es) ==> Prompt(n, es'))
    ensures forall r :: Links(n, es', r) == Links(n, es, r) && Returns(n, es', r) == Returns(n, es, r)
    ensures forall ds :: Spares(es, ds) && node !in ds ==> Spares(es', ds)
    ensures var m := After(n, es);
      After(n, es') == Machine(
        m.sh.(next := m.sh.next[node := m.sh.queues[q].code], data := m.sh.data[node := val],
              pool := m.sh.pool - {node}),
        m.locals[t := EnqReadTail(q, val, node)])
  {
    hide Legal, After, Prompt, Links, Returns, Spares;
    es' := Call(n, es, CallEnqueue(t, q, val, node));
    es' := Quiet(n, es', t);
    es' := Quiet(n, es', t);
  }

  /** Lines 91 to 96, the tail being the last node. */
  lemma ReadLastTail(n: nat, es: seq<Event>, t: nat) returns (es': seq<Event>)
    requires Legal(n, es) && CanRun(After(n, es), t) && After(n, es).locals[t].EnqReadTail?
    requires TailIsLast(After(n, es).sh, After(n, es).locals[t].q)
    ensures Legal(n, es') && (Prompt(n, es) ==> Prompt(n, es'))
    ensures forall r :: Links(n, es', r) == Links(n, es, r) && Returns(n, es', r) == Returns(n, es, r)
    ensures forall ds :: Spares(es, ds) ==> Spares(es', ds)
    ensures var m, l := After(n, es), After(n, es).locals[t];
      After(n, es') == Machine(m.sh, m.locals[t := EnqLink(l.q, l.val, l.node, m.sh.queues[l.q].tail)])
  {
    hide Legal, After, Prompt, Links, Returns, Spares;
    es' := Quiet(n, es, t);
    es' := Quiet(n, es', t);
  }

  /** Lines 98 to 109, line 98 succeeding. */
  lemma RunLink(n: nat, es: seq<Event>, t: nat) returns (es': seq<Event>)
    requires Legal(n, es) && CanRun(After(n, es), t) && LinkSucceedsAt(After(n, es), Run(t))
    ensures Legal(n, es') && (Prompt(n, es) && InTime(After(n, es), Run(t)) ==> Prompt(n, es'))
    ensures forall r ::
      Links(n, es', r) == Links(n, es, r) + LinkedBy(After(n, es), Run(t), r) && Returns(n, es', r) == Returns(n, es, r)
    ensures forall ds :: Spares(es, ds) ==> Spares(es', ds)
    ensures var m, l := After(n, es), After(n, es).locals[t];
      After(n, es') == Machine(
        Resize(CasTail(m.sh.(next := m.sh.next[l.tl.addr := l.node]), l.q, l.tl, l.node), l.q, 1),
        m.locals[t := EnqDone(l.q, l.val)])
  {
    hide Legal, After, Prompt, Links, Returns, Spares;
    es' := Extend(n, es, Run(t));
    assert forall r :: ReturnedBy(After(n, es), Run(t), r) == [];
    es' := Quiet(n, es', t);
    es' := Quiet(n, es', t);
  }

  /** A whole Enqueue, alone, the tail being the last node. */
  lemma RunEnqueue(n: nat, es: seq<Event>, t: nat, q: nat, val: Data, node: nat) returns (es': seq<Event>)
    requires Legal(n, es) && Enabled(After(n, es), CallEnqueue(t, q, val, node))
    requires var s := After(n, es).sh; node in s.next && TailIsLast(s, q) && node != s.queues[q].tail.addr
    ensures Legal(n, es')
    ensures After(n, es).sh.queues[q].head.ver <= After(n, es).sh.queues[q].tail.ver && Prompt(n, es) ==>
      Prompt(n, es')
    ensures forall r ::
      Links(n, es', r) == Links(n, es, r) + (if r == q then [val] else []) && Returns(n, es', r) == Returns(n, es, r)
    ensures forall ds :: Spares(es, ds) && node !in ds ==> Spares(es', ds)
    ensures var m := After(n, es);
      var w := m.sh.queues[q];
      After(n, es') == Machine(
        m.sh.(next := m.sh.next[node := w.code][w.tail.addr := node], data := m.sh.data[node := val],
              pool := m.sh.pool - {node},
              queues := m.sh.queues[q := w.(tail := Tagged(node, w.tail.ver + 1), size := w.size + 1)]),
        m.locals[t := EnqDone(q, val)])
  {
    hide Legal, After, Prompt, Links, Returns, Spares;
    es' := RunToLoop(n, es, t, q, val, node);
    es' := ReadLastTail(n, es', t);
    es' := RunLink(n, es', t);
  }

  /** Lines 122 to 139 when the tail is the last node and the head is not. */
  lemma RunToRead(n: nat, es: seq<Event>, t: nat) returns (es': seq<Event>)
    requires Legal(n, es) && CanRun(After(n, es), t) && After(n, es).locals[t].DeqReadHead?
    requires TailIsLast(After(n, es).sh, After(n, es).locals[t].q)
    requires var s, q := After(n, es).sh, After(n, es).locals[t].q;
      s.queues[q].head.addr in s.next && s.next[s.queues[q].head.addr] != s.queues[q].code
    ensures Legal(n, es') && (Prompt(n, es) ==> Prompt(n, es'))
    ensures forall r :: Links(n, es', r) == Links(n, es, r) && Returns(n, es', r) == Returns(n, es, r)
    ensures forall ds :: Spares(es, ds) ==> Spares(es', ds)
    ensures var m, q := After(n, es), After(n, es).locals[t].q;
      var hd := m.sh.queues[q].head;
      After(n, es') == Machine(m.sh, m.locals[t := DeqReadData(q, hd, m.sh.next[hd.addr])])
  {
    hide Legal, After, Prompt, Links, Returns, Spares;
    es' := Quiet(n, es, t);
    es' := Quiet(n, es', t);
    es' := Quiet(n, es', t);
    es' := Quiet(n, es', t);
  }

  /** Lines 145 to 152 when the head has not moved. */
  lemma RunSwing(n: nat, es: seq<Event>, t: nat) returns (es': seq<Event>)
    requires Legal(n, es) && CanRun(After(n, es), t) && After(n, es).locals[t].DeqReadData?
    requires var s, l := After(n, es).sh, After(n, es).locals[t]; s.queues[l.q].head == l.hd && l.nxt in s.data
    ensures Legal(n, es') && (Prompt(n, es) ==> Prompt(n, es'))
    ensures forall r ::
      && Links(n, es', r) == Links(n, es, r)
      && Returns(n, es', r) == Returns(n, es, r)
           + (if r == After(n, es).locals[t].q then [After(n, es).sh.data[After(n, es).locals[t].nxt]] else [])
    ensures forall ds :: Spares(es, ds) ==> Spares(es', ds)
    ensures var m, l := After(n, es), After(n, es).locals[t];
      var w := m.sh.queues[l.q];
      After(n, es') == Machine(
        m.sh.(pool := m.sh.pool + {l.hd.addr},
              queues := m.sh.queues[l.q := w.(head := Tagged(l.nxt, w.head.ver + 1))]),
        m.locals[t := DeqDone(l.q, Got(m.sh.data[l.nxt]))])
  {
    hide Legal, After, Prompt, Links, Returns, Spares;
    es' := Quiet(n, es, t);
    es' := Extend(n, es', Run(t));
    es' := Quiet(n, es', t);
  }

  /** Lines 114 to 152, alone, with a counted element and the tail at the last node. */
  lemma RunDequeue(n: nat, es: seq<Event>, t: nat, q: nat) returns (es': seq<Event>)
    requires Legal(n, es) && CanCall(After(n, es), t, q) && TailIsLast(After(n, es).sh, q)
    requires var s := After(n, es).sh; s.queues[q].size > 0 && s.queues[q].head.addr in s.next
    requires var s := After(n, es).sh;
      s.next[s.queues[q].head.addr] != s.queues[q].code && s.next[s.queues[q].head.addr] in s.data
    ensures Legal(n, es') && (Prompt(n, es) ==> Prompt(n, es'))
    ensures forall r ::
      && Links(n, es', r) == Links(n, es, r)
      && Returns(n, es', r) == Returns(n, es, r)
           + (if r == q
              then [After(n, es).sh.data[After(n, es).sh.next[After(n, es).sh.queues[q].head.addr]]] else [])
    ensures forall ds :: Spares(es, ds) ==> Spares(es', ds)
    ensures var m := After(n, es);
      var w := m.sh.queues[q];
      var nxt := m.sh.next[w.head.addr];
      After(n, es') == Machine(
        m.sh.(pool := m.sh.pool + {w.head.addr},
              queues := m.sh.queues[q := w.(head := Tagged(nxt, w.head.ver + 1), size := w.size - 1)]),
        m.locals[t := DeqDone(q, Got(m.sh.data[nxt]))])
  {
    hide Legal, After, Prompt, Links, Returns, Spares;
    es' := Call(n, es, CallDequeue(t, q));
    es' := Quiet(n, es', t);
    es' := RunToRead(n, es', t);
    es' := RunSwing(n, es', t);
  }

  /** Lines 114 to 130, alone, with a positive counter but nothing behind the head. */
  lemma RunVacant(n: nat, es: seq<Event>, t: nat, q: nat) returns (es': seq<Event>)
    requires Legal(n, es) && CanCall(After(n, es), t, q) && After(n, es).sh.queues[q].size > 0
    requires var s := After(n, es).sh;
      s.queues[q].head.addr in s.next && s.next[s.queues[q].head.addr] == s.queues[q].code
    ensures Legal(n, es') && (Prompt(n, es) ==> Prompt(n, es'))
    ensures forall r :: Links(n, es', r) == Links(n, es, r) && Returns(n, es', r) == Returns(n, es, r)
    ensures forall ds :: Spares(es, ds) ==> Spares(es', ds)
    ensures var m := After(n, es);
      After(n, es') == Machine(Resize(m.sh, q, -1), m.locals[t := DeqDone(q, Vacant)])
  {
    hide Legal, After, Prompt, Links, Returns, Spares;
    es' := Call(n, es, CallDequeue(t, q));
    es' := Quiet(n, es', t);
    es' := Quiet(n, es', t);
    es' := Quiet(n, es', t);
    es' := Quiet(n, es', t);
  }

  /** Lines 124 to 145 when what the head held is not a node. */
  lemma RunAstray(n: nat, es: seq<Event>, t: nat) returns (es': seq<Event>)
    requires Legal(n, es) && CanRun(After(n, es), t) && After(n, es).locals[t].DeqReadNext?
    requires var s, l := After(n, es).sh, After(n, es).locals[t];
      && l.hd.addr in s.next && s.next[l.hd.addr] != s.queues[l.q].code && s.next[l.hd.addr] !in s.data
      && TailIsLast(s, l.q)
    ensures Legal(n, es') && (Prompt(n, es) ==> Prompt(n, es'))
    ensures forall ds :: Spares(es, ds) ==> Spares(es', ds)
    ensures After(n, es') == Machine(After(n, es).sh, After(n, es).locals[t := Faulted(After(n, es).locals[t].q)])
  {
    hide Legal, After, Prompt, Links, Returns, Spares;
    es' := Quiet(n, es, t);
    es' := Quiet(n, es', t);
    es' := Quiet(n, es', t);
    es' := Quiet(n, es', t);
  }
}
