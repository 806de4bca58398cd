/** Linearizability of the stack, said of the schedule alone. */
module StackLifo {
  import opened StackMachine
  import opened StackHistory
  import opened StackSteps
  import opened StackRuns

  /** The operation on the atomic stack that event e performs on stack s, if any: line 64 or
      line 84 succeeds, or line 75 reads the dummy. */
  function Performed(m: Machine, e: Event, s: nat): seq<Op> {
    if !e.Run? || e.t >= |m.locals| || s >= |m.sh.stacks| || m.locals[e.t].Idle? || m.locals[e.t].s != s then []
    else
      var l, w := m.locals[e.t], m.sh.stacks[s];
      match l
      case PushCas(_, val, _, bkTop) => if w.top == bkTop then [Pushed(val)] else []
      case PopReadTop(_, _) => if w.top == w.dummy then [FoundEmpty] else []
      case PopCas(_, idx, top, _) =>
        if w.top == top && w.uniqIdx == idx && top in m.sh.data then [Popped(m.sh.data[top])] else []
      case _ => []
  }

  /** All operations on stack s, in the order in which they take effect. */
  function Operations(n: nat, es: seq<Event>, s: nat): seq<Op>
    requires Legal(n, es)
    decreases |es|
  {
    if es == [] then []
    else
      var p := es[..|es| - 1];
      Operations(n, p, s) + Performed(After(n, p), es[|es| - 1], s)
  }

  /** The operations that thread t has performed by the events of es from position k on. */
  function OperationsSince(n: nat, es: seq<Event>, k: nat, t: nat): seq<Op>
    requires Legal(n, es)
    decreases |es|
  {
    if |es| <= k then []
    else
      var p, e := es[..|es| - 1], es[|es| - 1];
      OperationsSince(n, p, k, t) + PerformedBy(After(n, p), e, t)
  }

  function PerformedBy(m: Machine, e: Event, t: nat): seq<Op> {
    if e.Run? && e.t == t && t < |m.locals| && !m.locals[t].Idle? then Performed(m, e, m.locals[t].s) else []
  }

  lemma OpsStep(m: Machine, h: History, e: Event, s: nat)
    requires Inv(m, h) && Enabled(m, e) && s < |m.sh.stacks|
    ensures var h' := Track(m, h, e);
      s < |h.ss| && s < |h'.ss| && h'.ss[s].ops == h.ss[s].ops + Performed(m, e, s)
  {
    hide MemInv, StackInv, OwnInv, LocalInv;
    if e.Run? && m.locals[e.t].PopCas? && !ReadOnly(m.sh, m.locals[e.t]) {
      PopFacts(m, h, e.t);
      PoppedIsMapped(m, h, e.t);
    }
  }

  lemma PoppedIsMapped(m: Machine, h: History, t: nat)
    requires Inv(m, h) && CanRun(m, t) && m.locals[t].PopCas? && !ReadOnly(m.sh, m.locals[t])
    ensures m.locals[t].top in m.sh.data
  {
    hide StackInv, OwnInv, LocalInv;
    PopFacts(m, h, t);
  }

  lemma {:induction false} NothingBefore(n: nat, es: seq<Event>, s: nat)
    requires Legal(n, es) && |After(n, es).sh.stacks| <= s
    ensures Operations(n, es, s) == []
  {
    hide Next, Enabled;
    if es != [] {
      var p, e := es[..|es| - 1], es[|es| - 1];
      StackCount(After(n, p), e);
      NothingBefore(n, p, s);
    }
  }

  lemma StackCount(m: Machine, e: Event)
    requires Enabled(m, e)
    ensures |m.sh.stacks| <= |Next(m, e).sh.stacks| <= |m.sh.stacks| + 1
  {
  }

  lemma NewStackIsUnused(m: Machine, h: History, e: Event, s: nat)
    requires Shaped(m, h) && Enabled(m, e) && |m.sh.stacks| <= s < |Next(m, e).sh.stacks|
    ensures s < |Track(m, h, e).ss| && Track(m, h, e).ss[s].ops == [] && Performed(m, e, s) == []
  {
  }

  /** The auxiliary sequence is that of the schedule. */
  lemma {:induction false} OpsAreOperations(n: nat, es: seq<Event>, s: nat)
    requires Legal(n, es) && s < |After(n, es).sh.stacks|
    ensures s < |HistoryOf(n, es).ss| && HistoryOf(n, es).ss[s].ops == Operations(n, es, s)
  {
    hide MemInv, StackInv, OwnInv, LocalInv, Next, Track, Enabled, Performed;
    if es != [] {
      var p, e := es[..|es| - 1], es[|es| - 1];
      var m, h := After(n, p), HistoryOf(n, p);
      RunInv(n, p);
      if s < |m.sh.stacks| {
        OpsAreOperations(n, p, s);
        OpsStep(m, h, e, s);
      } else {
        NewStackIsUnused(m, h, e, s);
        NothingBefore(n, p, s);
      }
    }
  }

  /** In every run, replaying the operations in their order of effect on an atomic stack is
      possible and leaves exactly what memory holds below the top. */
  lemma AtomicLifo(n: nat, es: seq<Event>, s: nat, contents: seq<Item>)
    requires Legal(n, es) && s < |After(n, es).sh.stacks|
    ensures var sh := After(n, es).sh;
      Holds(sh, sh.stacks[s].top, contents) <==> Replay(Operations(n, es, s)) == Legitimate(contents)
    ensures Replay(Operations(n, es, s)).Legitimate?
  {
    hide OwnInv, LocalInv, After, HistoryOf, Legal, Replay, Pops, Holds;
    OpsAreOperations(n, es, s);
    Linearizable(n, es, s, contents);
    RunInv(n, es);
    assert StackInv(After(n, es).sh, HistoryOf(n, es), s);
  }

  /** The version is the number of operations that popped. */
  lemma VersionCountsPops(n: nat, es: seq<Event>, s: nat)
    requires Legal(n, es) && s < |After(n, es).sh.stacks|
    ensures After(n, es).sh.stacks[s].uniqIdx == Pops(Operations(n, es, s))
  {
    hide OwnInv, LocalInv, After, HistoryOf, Legal, Replay, Pops;
    OpsAreOperations(n, es, s);
    RunInv(n, es);
    assert StackInv(After(n, es).sh, HistoryOf(n, es), s);
  }

  /** Pushed values are the popped ones and the ones memory holds, with multiplicity. */
  lemma ValuesConserved(n: nat, es: seq<Event>, s: nat, contents: seq<Item>)
    requires Legal(n, es) && s < |After(n, es).sh.stacks|
    requires Holds(After(n, es).sh, After(n, es).sh.stacks[s].top, contents)
    ensures PushedValues(Operations(n, es, s)) == multiset(contents) + PoppedValues(Operations(n, es, s))
  {
    hide After, HistoryOf, Legal, Holds, Replay, Inv;
    AtomicLifo(n, es, s, contents);
    ReplayBalance(Operations(n, es, s));
  }

  // ----- calls and their operations -----

  predicate Calls(e: Event, t: nat) {
    (e.CallPush? || e.CallPop?) && e.t == t
  }

  /** Event k of es begins a call of thread t, and t begins no other call after it. */
  predicate LatestCall(es: seq<Event>, k: nat, t: nat) {
    k < |es| && Calls(es[k], t) && forall j | k < j < |es| :: !Calls(es[j], t)
  }

  function DidSoFar(c: Call): seq<Op> {
    if c.did.Done? then [c.did.op] else []
  }

  lemma DidStep(m: Machine, h: History, e: Event, t: nat)
    requires Inv(m, h) && Enabled(m, e) && t < |h.calls| && !Calls(e, t)
    ensures |Track(m, h, e).calls| == |h.calls|
    ensures DidSoFar(Track(m, h, e).calls[t]) == DidSoFar(h.calls[t]) + PerformedBy(m, e, t)
  {
    hide StackInv, OwnInv, MemInv, Next;
    if e.Run? && e.t == t {
      assert LocalInv(m.sh, h, t, m.locals[t]);
      if m.locals[t].PopCas? && !ReadOnly(m.sh, m.locals[t]) {
        PopFacts(m, h, t);
        PoppedIsMapped(m, h, t);
      }
    }
    hide LocalInv, Inv;
  }

  lemma {:induction false} DidIsOperations(n: nat, es: seq<Event>, k: nat, t: nat)
    requires Legal(n, es) && LatestCall(es, k, t)
    ensures t < |HistoryOf(n, es).calls| == |After(n, es).locals|
    ensures OperationsSince(n, es, k, t) == DidSoFar(HistoryOf(n, es).calls[t])
    decreases |es|
  {
    hide MemInv, StackInv, OwnInv, LocalInv, Next;
    var p, e := es[..|es| - 1], es[|es| - 1];
    if k < |p| {
      DidIsOperations(n, p, k, t);
      hide Track, Enabled, DidSoFar, PerformedBy;
      RunInv(n, p);
      DidStep(After(n, p), HistoryOf(n, p), e, t);
    } else {
      assert PerformedBy(After(n, p), e, t) == [];
      assert OperationsSince(n, p, k, t) == [];
    }
  }

  /** What a call must have performed by its program point: a Push that has returned its push,
      a Pop that has returned a value the pop of that value, a Pop that has returned false
      the finding of an empty stack; earlier, nothing. */
  predicate Owes(l: Local, ops: seq<Op>) {
    match l
    case PushDone(_, val) => ops == [Pushed(val)]
    case PopFree(_, _, val) => ops == [Popped(val)]
    case PopDone(_, ans) => ops == if ans.Value? then [Popped(ans.val)] else [FoundEmpty]
    case PopReadData(_, _) => |ops| == 1 && ops[0].Popped?
    case PopReadNext(_, _, _) => ops == [] || ops == [FoundEmpty]
    case _ => ops == []
  }

  /** Between its beginning and its return every call performs exactly one operation, the one
      its result stands for. */
  lemma CallsAreAtomic(n: nat, es: seq<Event>, k: nat, t: nat)
    requires Legal(n, es) && LatestCall(es, k, t)
    ensures t < |After(n, es).locals| && ServesCall(After(n, es).locals[t], es[k])
    ensures Owes(After(n, es).locals[t], OperationsSince(n, es, k, t))
  {
    hide OwnInv, StackInv, After, HistoryOf, Legal;
    DidIsOperations(n, es, k, t);
    ServesItsCall(n, es, k, t);
    RunInv(n, es);
    assert LocalInv(After(n, es).sh, HistoryOf(n, es), t, After(n, es).locals[t]);
  }

  /** l is a program point of the call that event c began, with its stack and argument. */
  predicate ServesCall(l: Local, c: Event) {
    match c
    case CallPush(_, s, val, _) =>
      (l.PushFill? || l.PushRead? || l.PushLink? || l.PushCas? || l.PushDone?) && l.s == s && l.val == val
    case CallPop(_, s) =>
      (l.PopReadIdx? || l.PopReadTop? || l.PopReadNext? || l.PopCas? || l.PopReadData? || l.PopFree? || l.PopDone?)
      && l.s == s
    case _ => false
  }

  lemma ServesStep(m: Machine, h: History, e: Event, t: nat, c: Event)
    requires Inv(m, h) && Enabled(m, e) && t < |m.locals| && !Calls(e, t) && ServesCall(m.locals[t], c)
    ensures t < |Next(m, e).locals| && ServesCall(Next(m, e).locals[t], c)
  {
    hide StackInv, OwnInv;
    assert LocalInv(m.sh, h, t, m.locals[t]);
    hide Inv;
  }

  lemma {:induction false} ServesItsCall(n: nat, es: seq<Event>, k: nat, t: nat)
    requires Legal(n, es) && LatestCall(es, k, t)
    ensures t < |After(n, es).locals| && ServesCall(After(n, es).locals[t], es[k])
    decreases |es|
  {
    hide MemInv, StackInv, OwnInv, LocalInv, Effect;
    var p, e := es[..|es| - 1], es[|es| - 1];
    if k < |p| {
      ServesItsCall(n, p, k, t);
      hide Next, Enabled, ServesCall;
      RunInv(n, p);
      ServesStep(After(n, p), HistoryOf(n, p), e, t, es[k]);
    }
  }
}
