/** Concrete runs that show where the guarantees end: what a late success of line 98 breaks, a
    false Dequeue on a queue that is not empty, and two queues on one pool. In every run
    each node that is handed out again came from the pool in the first place: Spares(es, ds)
    says that the embedded dummies ds never do. */
module QueueWitnesses {
  import opened TaggedWord
  import opened QueueMachine
  import opened QueueRuns
  import opened QueueTheorems
  import opened QueueOrder
  import opened QueueSchedule
  import opened QueueFifo
  import opened QueueMoves

  const CODE0: nat := WORD_LIMIT - 1
  const CODE1: nat := WORD_LIMIT - 2

  function OneQueue(next: map<nat, nat>, data: map<nat, Data>, pool: set<nat>,
                    head: Tagged, tail: Tagged, size: int, locals: seq<Local>): Machine
  {
    Machine(Shared(next, data, pool, CODE0, [Anchors(head, tail, size, CODE0)]), locals)
  }

  // ----- one queue, and a late success of line 98 -----

  /** One queue with dummy node 1, nodes 2 to 4 pooled, three idle threads. */
  lemma Built(d: Data) returns (es: seq<Event>)
    ensures Legal(3, es) && Prompt(3, es) && Spares(es, {1}) && Links(3, es, 0) == [] && Returns(3, es, 0) == []
    ensures After(3, es) == OneQueue(map[1 := CODE0, 2 := 0, 3 := 0, 4 := 0], map[1 := d, 2 := d, 3 := d, 4 := d],
                                     {2, 3, 4}, Tagged(1, 0), Tagged(1, 0), 0, [Idle, Idle, Idle])
  {
    hide Legal, After, Prompt, Links, Returns, Spares;
    es := Start(3);
    es := Call(3, es, Construct(1, d));
    es := Call(3, es, Refill(2, d));
    es := Call(3, es, Refill(3, d));
    es := Call(3, es, Refill(4, d));
    assert After(3, es).locals == [Idle, Idle, Idle];
  }

  /** Thread 2 has enqueued and dequeued w, so that node 2 is at the head. */
  lemma Used(d: Data, w: Data) returns (es: seq<Event>)
    ensures Legal(3, es) && Spares(es, {1}) && Links(3, es, 0) == [w] && Returns(3, es, 0) == [w]
    ensures After(3, es) == OneQueue(map[1 := 2, 2 := CODE0, 3 := 0, 4 := 0], map[1 := d, 2 := w, 3 := d, 4 := d],
                                     {1, 3, 4}, Tagged(2, 1), Tagged(2, 1), 0, [Idle, Idle, DeqDone(0, Got(w))])
  {
    hide Legal, After, Prompt, Links, Returns, Spares;
    es := Built(d);
    es := RunEnqueue(3, es, 2, 0, w, 2);
    es := RunDequeue(3, es, 2, 0);
  }

  /** Thread 0 enqueues x with node 3 and stops right before line 98, about to attach to node 2. */
  lemma Stalled(d: Data, w: Data, x: Data) returns (es: seq<Event>)
    ensures Legal(3, es) && Spares(es, {1}) && Links(3, es, 0) == [w] && Returns(3, es, 0) == [w]
    ensures After(3, es) == OneQueue(map[1 := 2, 2 := CODE0, 3 := CODE0, 4 := 0],
                                     map[1 := d, 2 := w, 3 := x, 4 := d], {1, 4}, Tagged(2, 1), Tagged(2, 1), 0,
                                     [EnqLink(0, x, 3, Tagged(2, 1)), Idle, DeqDone(0, Got(w))])
  {
    hide Legal, After, Links, Returns, Spares;
    es := Used(d, w);
    es := RunToLoop(3, es, 0, 0, x, 3);
    es := ReadLastTail(3, es, 0);
  }

  /** Thread 2 enqueues z with node 4, dequeues it and frees node 2. */
  lemma Passed(d: Data, w: Data, x: Data, z: Data) returns (es: seq<Event>)
    ensures Legal(3, es) && Spares(es, {1}) && Links(3, es, 0) == [w, z] && Returns(3, es, 0) == [w, z]
    ensures After(3, es) == OneQueue(map[1 := 2, 2 := 4, 3 := CODE0, 4 := CODE0],
                                     map[1 := d, 2 := w, 3 := x, 4 := z], {1, 2}, Tagged(4, 2), Tagged(4, 2), 0,
                                     [EnqLink(0, x, 3, Tagged(2, 1)), Idle, DeqDone(0, Got(z))])
  {
    hide Legal, After, Links, Returns, Spares;
    es := Stalled(d, w, x);
    es := RunEnqueue(3, es, 2, 0, z, 4);
    es := RunDequeue(3, es, 2, 0);
  }

  /** Thread 1 gets node 2 from the pool for y and writes the end code into it; thread 0
      attaches node 3 to it and returns. */
  lemma Attached(d: Data, w: Data, x: Data, y: Data, z: Data) returns (es: seq<Event>)
    ensures Legal(3, es) && Spares(es, {1}) && Links(3, es, 0) == [w, z, x] && Returns(3, es, 0) == [w, z]
    ensures After(3, es) == OneQueue(map[1 := 2, 2 := 3, 3 := CODE0, 4 := CODE0],
                                     map[1 := d, 2 := y, 3 := x, 4 := z], {1}, Tagged(4, 2), Tagged(4, 2), 1,
                                     [EnqDone(0, x), EnqReadTail(0, y, 2), DeqDone(0, Got(z))])
  {
    hide Legal, After, Links, Returns, Spares;
    es := Passed(d, w, x, z);
    es := RunToLoop(3, es, 1, 0, y, 2);
    es := RunLink(3, es, 0);
  }

  /** A reservation can fail: Enqueue(x) has returned, the counter says 1, a Dequeue reserves it,
      finds the queue empty and takes the return of line 130. */
  lemma ReservationCanFail(d: Data, w: Data, x: Data, y: Data, z: Data) returns (es: seq<Event>)
    ensures Legal(3, es) && !Orderly(3, es) && Spares(es, {1})
    ensures var m := After(3, es);
      && m.locals == [EnqDone(0, x), EnqReadTail(0, y, 2), DeqDone(0, Vacant)]
      && |m.sh.queues| == 1 && m.sh.queues[0].size == 0
      && Reads(m.sh, m.sh.queues[0].head.addr, m.sh.queues[0].code, [])
    ensures Links(3, es, 0) == [w, z, x] && Returns(3, es, 0) == [w, z]
  {
    hide Legal, After, Orderly, Links, Returns, Spares;
    es := Attached(d, w, x, y, z);
    es := RunVacant(3, es, 2, 0);
    if Orderly(3, es) {
      ReservationSucceeds(3, es, 2);
    }
  }

  /** Thread 1 links y behind node 4; the tail moves to node 2, and node 3 is behind it. */
  lemma Published(d: Data, w: Data, x: Data, y: Data, z: Data) returns (es: seq<Event>)
    ensures Legal(3, es) && Spares(es, {1}) && Links(3, es, 0) == [w, z, x, y] && Returns(3, es, 0) == [w, z]
    ensures After(3, es) == OneQueue(map[1 := 2, 2 := 3, 3 := CODE0, 4 := 2],
                                     map[1 := d, 2 := y, 3 := x, 4 := z], {1}, Tagged(4, 2), Tagged(2, 3), 2,
                                     [EnqDone(0, x), EnqDone(0, y), DeqDone(0, Got(z))])
  {
    hide Legal, After, Links, Returns, Spares;
    es := Attached(d, w, x, y, z);
    es := ReadLastTail(3, es, 1);
    es := RunLink(3, es, 1);
  }

  /** Thread 2 reserves, reads up to line 136 and helps the tail. */
  lemma Helped(d: Data, w: Data, x: Data, y: Data, z: Data) returns (es: seq<Event>)
    ensures Legal(3, es) && Spares(es, {1}) && Links(3, es, 0) == [w, z, x, y] && Returns(3, es, 0) == [w, z]
    ensures After(3, es) == OneQueue(map[1 := 2, 2 := 3, 3 := CODE0, 4 := 2],
                                     map[1 := d, 2 := y, 3 := x, 4 := z], {1}, Tagged(4, 2), Tagged(3, 4), 1,
                                     [EnqDone(0, x), EnqDone(0, y), DeqReadHead(0)])
  {
    hide Legal, After, Links, Returns, Spares;
    es := Published(d, w, x, y, z);
    es := Call(3, es, CallDequeue(2, 0));
    es := Quiet(3, es, 2);
    es := Quiet(3, es, 2);
    es := Quiet(3, es, 2);
    es := Quiet(3, es, 2);
    es := Quiet(3, es, 2);
    es := Quiet(3, es, 2);
  }

  /** The order can break: x was linked before y, and its Enqueue had returned before y was
      linked, but y is dequeued and x is left. */
  lemma FifoCanFail(d: Data, w: Data, x: Data, y: Data, z: Data) returns (es: seq<Event>)
    ensures Legal(3, es) && Spares(es, {1})
    ensures Links(3, es, 0) == [w, z, x, y] && Returns(3, es, 0) == [w, z, y]
    ensures x != y ==> !Orderly(3, es) && !(Returns(3, es, 0) <= Links(3, es, 0))
    ensures var m := After(3, es);
      && m.locals == [EnqDone(0, x), EnqDone(0, y), DeqDone(0, Got(y))]
      && |m.sh.queues| == 1 && Reads(m.sh, m.sh.queues[0].head.addr, m.sh.queues[0].code, [x])
  {
    hide Legal, After, Orderly, Links, Returns, Spares;
    es := Helped(d, w, x, y, z);
    es := RunToRead(3, es, 2);
    es := RunSwing(3, es, 2);
    assert Returns(3, es, 0) == [w, z, y];
    if x != y {
      assert Returns(3, es, 0)[2] != Links(3, es, 0)[2];
      if Orderly(3, es) {
        DequeuedIsPrefix(3, es, 0);
      }
    }
  }

  // ----- a false Dequeue -----

  /** One queue with dummy node 1, node 2 pooled, three idle threads; thread 0 has called Dequeue
      and stops right before line 116. */
  lemma Decremented(d: Data) returns (es: seq<Event>)
    ensures Legal(3, es) && Prompt(3, es) && Spares(es, {1})
    ensures After(3, es) == OneQueue(map[1 := CODE0, 2 := 0], map[1 := d, 2 := d], {2},
                                     Tagged(1, 0), Tagged(1, 0), -1, [DeqRestore(0), Idle, Idle])
  {
    hide Legal, After, Prompt, Links, Returns, Spares;
    es := Start(3);
    es := Call(3, es, Construct(1, d));
    es := Call(3, es, Refill(2, d));
    es := Call(3, es, CallDequeue(0, 0));
    es := Quiet(3, es, 0);
    assert After(3, es).locals == [DeqRestore(0), Idle, Idle];
  }

  /** A false Dequeue on a queue that is not empty, in a prompt run: Enqueue(x) has returned and
      memory holds x, but thread 0 has not restored the counter yet, and thread 2 fails. */
  lemma FalseOnNonEmpty(d: Data, x: Data) returns (es: seq<Event>)
    ensures Legal(3, es) && Prompt(3, es) && Spares(es, {1})
    ensures var m := After(3, es);
      && m.locals == [DeqRestore(0), EnqDone(0, x), DeqDone(0, Short)]
      && |m.sh.queues| == 1 && Reads(m.sh, m.sh.queues[0].head.addr, m.sh.queues[0].code, [x])
  {
    hide Legal, After, Prompt, Links, Returns, Spares;
    es := Decremented(d);
    es := RunEnqueue(3, es, 1, 0, x, 2);
    es := Call(3, es, CallDequeue(2, 0));
    es := Quiet(3, es, 2);
    es := Quiet(3, es, 2);
  }

  // ----- two queues on one pool -----

  function TwoQueues(next: map<nat, nat>, data: map<nat, Data>, pool: set<nat>,
                     head: Tagged, tail: Tagged, size: int, locals: seq<Local>): Machine
  {
    Machine(Shared(next, data, pool, CODE1,
                   [Anchors(head, tail, size, CODE0), Anchors(Tagged(2, 0), Tagged(2, 0), 0, CODE1)]), locals)
  }

  /** Two queues with dummies 1 and 2. */
  lemma Constructed(d: Data) returns (es: seq<Event>)
    ensures Legal(2, es) && Prompt(2, es) && Spares(es, {1, 2})
    ensures After(2, es) == TwoQueues(map[1 := CODE0, 2 := CODE1], map[1 := d, 2 := d], {},
                                      Tagged(1, 0), Tagged(1, 0), 0, [Idle, Idle])
  {
    hide Legal, After, Prompt, Links, Returns, Spares;
    es := Start(2);
    es := Call(2, es, Construct(1, d));
    es := Call(2, es, Construct(2, d));
    assert After(2, es).locals == [Idle, Idle];
  }

  /** And nodes 3 to 5 pooled, two idle threads. */
  lemma BothBuilt(d: Data) returns (es: seq<Event>)
    ensures Legal(2, es) && Prompt(2, es) && Spares(es, {1, 2})
    ensures After(2, es) == TwoQueues(map[1 := CODE0, 2 := CODE1, 3 := 0, 4 := 0, 5 := 0],
                                      map[1 := d, 2 := d, 3 := d, 4 := d, 5 := d], {3, 4, 5},
                                      Tagged(1, 0), Tagged(1, 0), 0, [Idle, Idle])
  {
    hide Legal, After, Prompt, Links, Returns, Spares;
    es := Constructed(d);
    es := Call(2, es, Refill(3, d));
    es := Call(2, es, Refill(4, d));
    es := Call(2, es, Refill(5, d));
  }

  /** Thread 1 enqueues and dequeues on the first queue, so that node 3 is at its head. */
  lemma FirstOnce(d: Data) returns (es: seq<Event>)
    ensures Legal(2, es) && Prompt(2, es) && Spares(es, {1, 2})
    ensures After(2, es) == TwoQueues(map[1 := 3, 2 := CODE1, 3 := CODE0, 4 := 0, 5 := 0],
                                      map[1 := d, 2 := d, 3 := d, 4 := d, 5 := d], {1, 4, 5},
                                      Tagged(3, 1), Tagged(3, 1), 0, [Idle, DeqDone(0, Got(d))])
  {
    hide Legal, After, Prompt, Links, Returns, Spares;
    es := BothBuilt(d);
    es := RunEnqueue(2, es, 1, 0, d, 3);
    es := RunDequeue(2, es, 1, 0);
  }

  /** It enqueues again. */
  lemma FirstUsed(d: Data) returns (es: seq<Event>)
    ensures Legal(2, es) && Prompt(2, es) && Spares(es, {1, 2})
    ensures After(2, es) == TwoQueues(map[1 := 3, 2 := CODE1, 3 := 4, 4 := CODE0, 5 := 0],
                                      map[1 := d, 2 := d, 3 := d, 4 := d, 5 := d], {1, 5},
                                      Tagged(3, 1), Tagged(4, 2), 1, [Idle, EnqDone(0, d)])
  {
    hide Legal, After, Prompt, Links, Returns, Spares;
    es := FirstOnce(d);
    es := RunEnqueue(2, es, 1, 0, d, 4);
  }

  /** Thread 0 reserves, reads the head and stops; thread 1 enqueues and dequeues, which frees
      node 3. */
  lemma HeadFreed(d: Data) returns (es: seq<Event>)
    ensures Legal(2, es) && Prompt(2, es) && Spares(es, {1, 2})
    ensures After(2, es) == TwoQueues(map[1 := 3, 2 := CODE1, 3 := 4, 4 := 5, 5 := CODE0],
                                      map[1 := d, 2 := d, 3 := d, 4 := d, 5 := d], {1, 3},
                                      Tagged(4, 2), Tagged(5, 3), 0,
                                      [DeqReadNext(0, Tagged(3, 1)), DeqDone(0, Got(d))])
  {
    hide Legal, After, Prompt, Links, Returns, Spares;
    es := FirstUsed(d);
    es := Call(2, es, CallDequeue(0, 0));
    es := Quiet(2, es, 0);
    es := Quiet(2, es, 0);
    es := RunEnqueue(2, es, 1, 0, d, 5);
    es := RunDequeue(2, es, 1, 0);
  }

  /** A prompt run of two queues in which line 145 reads through the other queue's end code:
      thread 1 gets node 3 back for the second queue, and thread 0 reads its next field. */
  lemma SharedPoolCanFault(d: Data) returns (es: seq<Event>)
    ensures Legal(2, es) && Prompt(2, es) && Spares(es, {1, 2})
    ensures var m := After(2, es); |m.sh.queues| == 2 && |m.locals| == 2 && m.locals[0] == Faulted(0)
  {
    hide Legal, After, Prompt, Links, Returns, Spares;
    es := HeadFreed(d);
    es := RunToLoop(2, es, 1, 1, d, 3);
    es := RunAstray(2, es, 0);
  }
}
