/** Progress of the stacks: how often an attempt can fail. */
module StackProgress {
  import opened StackMachine
  import opened StackHistory
  import opened StackSteps
  import opened StackRuns
  import opened StackLifo

  /** Event e is a compare-and-swap of thread t, and it fails. */
  ghost predicate FailedBy(m: Machine, e: Event, t: nat) {
    e.Run? && e.t == t && CanRun(m, t) && (m.locals[t].PushCas? || m.locals[t].PopCas?)
    && ReadOnly(m.sh, m.locals[t])
  }

  /** Event e is a compare-and-swap on stack s, by any thread, and it succeeds. */
  ghost predicate SucceedsOn(m: Machine, e: Event, s: nat) {
    e.Run? && CanRun(m, e.t) && (m.locals[e.t].PushCas? || m.locals[e.t].PopCas?)
    && m.locals[e.t].s == s && !ReadOnly(m.sh, m.locals[e.t])
  }

  ghost function Failures(n: nat, es: seq<Event>, k: nat, t: nat): nat
    requires Legal(n, es)
  {
    if |es| <= k then 0
    else
      var p := es[..|es| - 1];
      Failures(n, p, k, t) + (if FailedBy(After(n, p), es[|es| - 1], t) then 1 else 0)
  }

  ghost function SuccessesOfOthers(n: nat, es: seq<Event>, k: nat, t: nat, s: nat): nat
    requires Legal(n, es)
  {
    if |es| <= k then 0
    else
      var p, e := es[..|es| - 1], es[|es| - 1];
      SuccessesOfOthers(n, p, k, t, s) + (if SucceedsOn(After(n, p), e, s) && e.t != t then 1 else 0)
  }

  function OwnSuccess(c: Call): nat {
    if c.did.Done? && !c.did.op.FoundEmpty? then 1 else 0
  }

  lemma WinsStep(m: Machine, h: History, e: Event, s: nat)
    requires Inv(m, h) && Enabled(m, e) && s < |h.ss|
    ensures |h.ss| <= |Track(m, h, e).ss| && |h.calls| == |Track(m, h, e).calls|
    ensures Track(m, h, e).ss[s].wins == h.ss[s].wins + (if SucceedsOn(m, e, s) then 1 else 0)
  {
    hide StackInv, OwnInv, MemInv, LocalInv, Next;
    if e.Run? && m.locals[e.t].PopCas? && !ReadOnly(m.sh, m.locals[e.t]) {
      PopFacts(m, h, e.t);
    }
  }

  lemma CallOfOther(m: Machine, h: History, e: Event, t: nat)
    requires Inv(m, h) && Enabled(m, e) && t < |m.locals| && !Calls(e, t) && !(e.Run? && e.t == t)
    ensures |m.locals| == |h.calls| == |Track(m, h, e).calls| && Track(m, h, e).calls[t] == h.calls[t]
    ensures |Next(m, e).locals| == |m.locals| && Next(m, e).locals[t] == m.locals[t]
  {
    hide StackInv, OwnInv, MemInv, LocalInv;
  }

  lemma CallOfSelf(m: Machine, h: History, e: Event, t: nat)
    requires Inv(m, h) && Enabled(m, e) && e.Run? && e.t == t
    ensures var s, m', h' := m.locals[t].s, Next(m, e), Track(m, h, e);
      && t < |h.calls| == |h'.calls| && |m'.locals| == |m.locals| && !m'.locals[t].Idle? && m'.locals[t].s == s
      && h'.calls[t].start == h.calls[t].start
      && h'.calls[t].fails == h.calls[t].fails + (if FailedBy(m, e, t) then 1 else 0)
      && OwnSuccess(h'.calls[t]) == OwnSuccess(h.calls[t]) + (if SucceedsOn(m, e, s) then 1 else 0)
  {
    hide StackInv, OwnInv, MemInv;
    assert LocalInv(m.sh, h, t, m.locals[t]);
    if m.locals[t].PopCas? && !ReadOnly(m.sh, m.locals[t]) {
      PopFacts(m, h, t);
    }
    hide LocalInv, Inv;
  }

  lemma CountersStep(m: Machine, h: History, e: Event, t: nat)
    requires Inv(m, h) && Enabled(m, e) && t < |m.locals| && !m.locals[t].Idle? && !Calls(e, t)
    requires m.locals[t].s < |h.ss|
    ensures var s, m', h' := m.locals[t].s, Next(m, e), Track(m, h, e);
      && t < |h.calls| == |h'.calls| && |m'.locals| == |m.locals| && !m'.locals[t].Idle? && m'.locals[t].s == s
      && |h.ss| <= |h'.ss|
      && h'.calls[t].fails == h.calls[t].fails + (if FailedBy(m, e, t) then 1 else 0)
      && h'.calls[t].start == h.calls[t].start
      && h'.ss[s].wins - OwnSuccess(h'.calls[t])
           == h.ss[s].wins - OwnSuccess(h.calls[t]) + (if SucceedsOn(m, e, s) && e.t != t then 1 else 0)
  {
    hide MemInv, StackInv, OwnInv, LocalInv, Next, Track, ReadOnly, OwnSuccess;
    WinsStep(m, h, e, m.locals[t].s);
    if e.Run? && e.t == t {
      CallOfSelf(m, h, e, t);
    } else {
      CallOfOther(m, h, e, t);
    }
  }

  /** The auxiliary counters of a call count what their names say. */
  lemma {:induction false} CountersCount(n: nat, es: seq<Event>, k: nat, t: nat)
    requires Legal(n, es) && LatestCall(es, k, t)
    ensures var m, h := After(n, es), HistoryOf(n, es);
      && t < |m.locals| == |h.calls| && !m.locals[t].Idle? && m.locals[t].s == es[k].s < |h.ss|
      && h.calls[t].fails == Failures(n, es, k, t)
      && h.calls[t].start + SuccessesOfOthers(n, es, k, t, es[k].s) + OwnSuccess(h.calls[t])
           == h.ss[es[k].s].wins
    decreases |es|
  {
    hide Inv;
    var p := es[..|es| - 1];
    if k < |p| {
      CountersCount(n, p, k, t);
      hide Track, Next, FailedBy, SucceedsOn;
      RunInv(n, p);
      CountersStep(After(n, p), HistoryOf(n, p), es[|p|], t);
    } else {
      CountersBegin(n, es, t);
    }
  }

  lemma CountersBegin(n: nat, es: seq<Event>, t: nat)
    requires es != [] && Legal(n, es) && Calls(es[|es| - 1], t)
    ensures var m, h, s := After(n, es), HistoryOf(n, es), es[|es| - 1].s;
      && t < |m.locals| == |h.calls| && !m.locals[t].Idle? && m.locals[t].s == s < |h.ss|
      && h.calls[t] == Call(Not, 0, h.ss[s].wins, h.ss[s].wins)
    ensures Failures(n, es, |es| - 1, t) == 0 && SuccessesOfOthers(n, es, |es| - 1, t, es[|es| - 1].s) == 0
  {
    hide MemInv, StackInv, OwnInv, LocalInv;
    var p := es[..|es| - 1];
    assert !SucceedsOn(After(n, p), es[|es| - 1], es[|es| - 1].s) && !FailedBy(After(n, p), es[|es| - 1], t);
    assert Failures(n, p, |es| - 1, t) == 0 && SuccessesOfOthers(n, p, |es| - 1, t, es[|es| - 1].s) == 0;
  }

  /** In any run, the attempts of a call that have failed so far are at most the
      compare-and-swaps with which other threads have succeeded on the same stack since
      the call began. */
  lemma FailuresArePaidByOthers(n: nat, es: seq<Event>, k: nat, t: nat)
    requires Legal(n, es) && LatestCall(es, k, t)
    ensures Failures(n, es, k, t) <= SuccessesOfOthers(n, es, k, t, es[k].s)
  {
    hide OwnInv, StackInv, After, HistoryOf, Legal, Failures, SuccessesOfOthers;
    CountersCount(n, es, k, t);
    RunInv(n, es);
    assert LocalInv(After(n, es).sh, HistoryOf(n, es), t, After(n, es).locals[t]);
  }

  // ----- all accesses of a call -----

  /** The accesses that thread t has made by the events of es after position k. */
  function OwnSteps(es: seq<Event>, k: nat, t: nat): nat {
    if |es| <= k + 1 then 0
    else OwnSteps(es[..|es| - 1], k, t) + (if es[|es| - 1] == Run(t) then 1 else 0)
  }

  /** The accesses from the call to this program point, failed attempts apart. */
  function Position(l: Local): nat {
    match l
    case PushFill(_, _, _) => 0
    case PushRead(_, _, _) => 1
    case PushLink(_, _, _, _) => 2
    case PushCas(_, _, _, _) => 3
    case PushDone(_, _) => 4
    case PopReadIdx(_) => 0
    case PopReadTop(_, _) => 1
    case PopReadNext(_, _, _) => 2
    case PopCas(_, _, _, _) => 3
    case PopReadData(_, _) => 4
    case PopFree(_, _, _) => 5
    case PopDone(_, ans) => if ans.Value? then 6 else 3
    case Idle => 0
    case Faulted(_) => 0
  }

  /** The accesses of one attempt. */
  function AttemptLength(c: Event): nat {
    if c.CallPush? then 3 else 4
  }

  lemma PositionStep(m: Machine, h: History, e: Event, t: nat, c: Event)
    requires Inv(m, h) && Enabled(m, e) && t < |m.locals| && !Calls(e, t) && ServesCall(m.locals[t], c)
    ensures t < |Next(m, e).locals|
    ensures Position(Next(m, e).locals[t]) + (if FailedBy(m, e, t) then AttemptLength(c) else 0)
         == Position(m.locals[t]) + (if e == Run(t) then 1 else 0)
  {
    hide StackInv, OwnInv, Effect;
    assert LocalInv(m.sh, h, t, m.locals[t]);
    hide Inv;
  }

  /** A call makes the accesses on the way to its program point and those of its failed
      attempts, and no others. */
  lemma {:induction false} AccessesAreAttempts(n: nat, es: seq<Event>, k: nat, t: nat)
    requires Legal(n, es) && LatestCall(es, k, t)
    ensures t < |After(n, es).locals|
    ensures OwnSteps(es, k, t) == Position(After(n, es).locals[t]) + AttemptLength(es[k]) * Failures(n, es, k, t)
    decreases |es|
  {
    var p, e := es[..|es| - 1], es[|es| - 1];
    hide Inv, Position, FailedBy, AttemptLength, ServesCall;
    ServesItsCall(n, es, k, t);
    if k < |p| {
      hide Next, Enabled;
      ServesItsCall(n, p, k, t);
      AccessesAreAttempts(n, p, k, t);
      RunInv(n, p);
      PositionStep(After(n, p), HistoryOf(n, p), e, t, es[k]);
      var failed := if FailedBy(After(n, p), e, t) then 1 else 0;
      assert AttemptLength(es[k]) * (Failures(n, p, k, t) + failed)
          == AttemptLength(es[k]) * Failures(n, p, k, t) + AttemptLength(es[k]) * failed;
    } else {
      CallStart(After(n, p), e, t);
      assert Failures(n, p, k, t) == 0;
    }
  }

  lemma CallStart(m: Machine, e: Event, t: nat)
    requires Enabled(m, e) && Calls(e, t)
    ensures t < |Next(m, e).locals| && Position(Next(m, e).locals[t]) == 0 && !FailedBy(m, e, t)
  {
  }

  /** In any run, all accesses of a Push, from its call to its return or to wherever it is, are at
      most 4 and 3 more for each compare-and-swap with which another thread has succeeded on
      the stack since the call; of a Pop at most 6 and 4 more for each. */
  lemma AccessesArePaidByOthers(n: nat, es: seq<Event>, k: nat, t: nat)
    requires Legal(n, es) && LatestCall(es, k, t)
    ensures var others := SuccessesOfOthers(n, es, k, t, es[k].s);
      && (es[k].CallPush? ==> OwnSteps(es, k, t) <= 4 + 3 * others)
      && (es[k].CallPop? ==> OwnSteps(es, k, t) <= 6 + 4 * others)
  {
    hide Legal, After, HistoryOf, Failures, SuccessesOfOthers, OwnSteps;
    AccessesAreAttempts(n, es, k, t);
    FailuresArePaidByOthers(n, es, k, t);
    ServesItsCall(n, es, k, t);
  }
}
