/** Calls and the effects they have in a run. */
module QueueCalls {
  import opened QueueMachine
  import opened QueueRuns
  import opened QueueTheorems
  import opened QueueAccounting
  import opened QueueOrder
  import opened QueueSchedule

  datatype Effect = Linked(q: nat, val: Data) | Took(q: nat, val: Data)

  /** The effect that thread t has by event e. */
  function EffectOf(m: Machine, e: Event, t: nat): seq<Effect> {
    if !e.Run? || e.t != t || t >= |m.locals| then []
    else
      var l := m.locals[t];
      if LinkSucceedsAt(m, e) then [Linked(l.q, l.val)]
      else if l.DeqCas? && SwingSucceedsAt(m, e, l.q) then [Took(l.q, l.val)]
      else []
  }

  /** The effects that thread t has had by the events of es from position k on. */
  function EffectsSince(n: nat, es: seq<Event>, k: nat, t: nat): seq<Effect>
    requires Legal(n, es)
    decreases |es|
  {
    if |es| <= k then []
    else
      var p := es[..|es| - 1];
      EffectsSince(n, p, k, t) + EffectOf(After(n, p), es[|es| - 1], t)
  }

  predicate Calls(e: Event, t: nat) {
    (e.CallEnqueue? || e.CallDequeue?) && e.t == t
  }

  /** Event k of es begins a call of thread t, and t begins no other call after it. */
  predicate LatestCall(es: seq<Event>, k: nat, t: nat) {
    k < |es| && Calls(es[k], t) && forall j | k < j < |es| :: !Calls(es[j], t)
  }

  function EffectsAt(l: Local): seq<Effect> {
    match l
    case EnqSwing(q, val, _, _) => [Linked(q, val)]
    case EnqCount(q, val) => [Linked(q, val)]
    case EnqDone(q, val) => [Linked(q, val)]
    case DeqFree(q, _, val) => [Took(q, val)]
    case DeqDone(q, out) => if out.Got? then [Took(q, out.val)] else []
    case _ => []
  }

  /** The argument that a running or finished Enqueue was called with. */
  predicate ServesCall(l: Local, e: Event) {
    match e
    case CallEnqueue(_, q, val, _) =>
      (Enqueuing(l) && l.q == q && l.val == val) || l == EnqDone(q, val)
    case CallDequeue(_, q) => !Enqueuing(l) && !l.EnqDone? && !l.Idle? && l.q == q
    case _ => false
  }

  lemma EffectStep(m: Machine, e: Event, t: nat, c: Event)
    requires Enabled(m, e) && t < |m.locals| && !Calls(e, t) && ServesCall(m.locals[t], c)
    requires e.Run? && Next(m, e).locals[e.t].Faulted? ==> m.locals[e.t].DeqReadData?
    ensures |Next(m, e).locals| == |m.locals| && ServesCall(Next(m, e).locals[t], c)
    ensures EffectsAt(Next(m, e).locals[t]) == EffectsAt(m.locals[t]) + EffectOf(m, e, t)
  {
    if e.Run? && e.t == t {
      var l := m.locals[t];
      assert CanRun(m, t);
    }
  }

  /** A call has exactly the effect its program point stands for: an Enqueue that has returned
      has linked its argument once, a Dequeue that has returned a value has taken that value
      once, one that has returned false nothing; and before line 98 or 146 succeeds there is
      no effect. */
  lemma {:induction false} CallsHaveTheirEffect(n: nat, es: seq<Event>, k: nat, t: nat)
    requires Legal(n, es) && LatestCall(es, k, t)
    ensures t < |After(n, es).locals|
    ensures ServesCall(After(n, es).locals[t], es[k])
    ensures EffectsSince(n, es, k, t) == EffectsAt(After(n, es).locals[t])
    decreases |es|
  {
    var p, e := es[..|es| - 1], es[|es| - 1];
    hide Next, EffectOf, Enabled, EffectsAt, ServesCall;
    if k < |p| {
      CallsHaveTheirEffect(n, p, k, t);
      if e.Run? {
        NextIsRun(After(n, p), e);
        FaultIff(n, p, e.t);
      }
      EffectStep(After(n, p), e, t, es[k]);
    } else {
      CallBegins(After(n, p), e, t);
      assert EffectsSince(n, p, k, t) == [];
    }
  }

  lemma NextIsRun(m: Machine, e: Event)
    requires Enabled(m, e) && e.Run?
    ensures Next(m, e) == RunThread(m, e.t) && CanRun(m, e.t)
  {
  }

  lemma CallBegins(m: Machine, e: Event, t: nat)
    requires Enabled(m, e) && Calls(e, t)
    ensures t < |Next(m, e).locals| && ServesCall(Next(m, e).locals[t], e)
    ensures EffectsAt(Next(m, e).locals[t]) == [] && EffectOf(m, e, t) == []
  {
  }

  // ----- refused and reserved calls -----

  /** Position j is the first step of thread t after its call at position k: of a Dequeue, the
      decrement of line 114. */
  predicate FirstStep(es: seq<Event>, k: nat, j: nat, t: nat) {
    k < j < |es| && es[j] == Run(t) && forall i | k < i < j :: es[i] != Run(t)
  }

  /** The Dequeue has taken the way of lines 116 and 117. */
  predicate Refused(l: Local) {
    l.DeqRestore? || (l.DeqDone? && l.out.Short?)
  }

  /** The Dequeue is in its loop, or has left it. */
  predicate Admitted(l: Local) {
    (!l.Idle? && At(Reserved, l.q, l)) || l.DeqFree? || (l.DeqDone? && !l.out.Short?)
  }

  lemma {:induction false} BeforeFirstStep(n: nat, es: seq<Event>, k: nat, t: nat)
    requires Legal(n, es) && LatestCall(es, k, t) && es[k].CallDequeue?
    requires forall i | k < i < |es| :: es[i] != Run(t)
    ensures t < |After(n, es).locals| && After(n, es).locals[t] == DeqReserve(es[k].q)
    ensures es[k].q < |After(n, es).sh.queues|
    decreases |es|
  {
    hide EnqueueEffect, EnqueueGoto, DequeueEffect, DequeueGoto;
    if k < |es| - 1 {
      BeforeFirstStep(n, es[..|es| - 1], k, t);
      QueueCountGrows(After(n, es[..|es| - 1]), es[|es| - 1]);
    }
  }

  lemma DecisionStands(m: Machine, e: Event, t: nat, q: nat)
    requires Enabled(m, e) && t < |m.locals| && !Calls(e, t) && !m.locals[t].Idle?
    requires Refused(m.locals[t]) || Admitted(m.locals[t])
    requires m.locals[t].q == q
    ensures t < |Next(m, e).locals| && !Next(m, e).locals[t].Idle? && Next(m, e).locals[t].q == q
    ensures Refused(m.locals[t]) ==> Refused(Next(m, e).locals[t])
    ensures Admitted(m.locals[t]) ==> Admitted(Next(m, e).locals[t])
  {
    hide EnqueueEffect, DequeueEffect;
  }

  lemma FirstDecision(m: Machine, t: nat, q: nat)
    requires t < |m.locals| && m.locals[t] == DeqReserve(q) && q < |m.sh.queues|
    ensures CanRun(m, t) && t < |RunThread(m, t).locals|
    ensures var l := RunThread(m, t).locals[t];
      && !l.Idle? && l.q == q
      && (Refused(l) <==> m.sh.queues[q].size <= 0) && (Admitted(l) <==> m.sh.queues[q].size > 0)
  {
    hide EnqueueEffect, EnqueueGoto;
  }

  /** The decrement alone decides whether a call is refused: it is if and only if it found the
      counter at zero or less. */
  lemma {:induction false} DecrementDecides(n: nat, es: seq<Event>, k: nat, j: nat, t: nat)
    requires Legal(n, es) && LatestCall(es, k, t) && es[k].CallDequeue? && FirstStep(es, k, j, t)
    ensures Legal(n, es[..j]) && t < |After(n, es).locals| && t < |After(n, es[..j]).locals|
    ensures After(n, es[..j]).locals[t] == DeqReserve(es[k].q) && es[k].q < |After(n, es[..j]).sh.queues|
    ensures var l, size := After(n, es).locals[t], After(n, es[..j]).sh.queues[es[k].q].size;
      && !l.Idle? && l.q == es[k].q
      && (Refused(l) <==> size <= 0) && (Admitted(l) <==> size > 0)
    decreases |es|
  {
    var p, e := es[..|es| - 1], es[|es| - 1];
    hide RunThread, Enabled, Refused, Admitted;
    if j < |p| {
      hide Next;
      assert p[..j] == es[..j];
      DecrementDecides(n, p, k, j, t);
      RefusedOrAdmitted(After(n, p).locals[t]);
      DecisionStands(After(n, p), e, t, es[k].q);
      RefusedOrAdmitted(After(n, es).locals[t]);
    } else {
      assert p == es[..j];
      BeforeFirstStep(n, p, k, t);
      FirstDecision(After(n, p), t, es[k].q);
    }
  }

  lemma RefusedOrAdmitted(l: Local)
    requires !l.Idle?
    ensures !(Refused(l) && Admitted(l))
  {
  }

  /** A call that is past its decrement has a first step. */
  lemma {:induction false} DecrementExists(n: nat, es: seq<Event>, k: nat, t: nat) returns (j: nat)
    requires Legal(n, es) && LatestCall(es, k, t) && es[k].CallDequeue?
    requires t < |After(n, es).locals| && After(n, es).locals[t] != DeqReserve(es[k].q)
    ensures FirstStep(es, k, j, t)
  {
    if i :| k < i < |es| && es[i] == Run(t) {
      j := k + 1;
      while es[j] != Run(t)
        invariant k < j <= i
        invariant forall x | k < x < j :: es[x] != Run(t)
        decreases i - j
      {
        j := j + 1;
      }
    } else {
      BeforeFirstStep(n, es, k, t);
    }
  }

  /** In an orderly run, a Dequeue whose decrement found a positive counter returns a value if it
      returns at all. */
  lemma ReservedReturnsValue(n: nat, es: seq<Event>, k: nat, j: nat, t: nat)
    requires Legal(n, es) && Orderly(n, es) && LatestCall(es, k, t) && es[k].CallDequeue? && FirstStep(es, k, j, t)
    requires Legal(n, es[..j]) && es[k].q < |After(n, es[..j]).sh.queues|
    requires After(n, es[..j]).sh.queues[es[k].q].size > 0
    requires t < |After(n, es).locals| && AtRest(After(n, es).locals[t])
    ensures After(n, es).locals[t].DeqDone? && After(n, es).locals[t].q == es[k].q
    ensures After(n, es).locals[t].out.Got?
  {
    hide Legal, After, Orderly;
    DecrementDecides(n, es, k, j, t);
    ReservationSucceeds(n, es, t);
  }
}
