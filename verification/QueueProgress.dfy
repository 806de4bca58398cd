/** Progress of the queue under interference: how often a round of a loop can be in vain. */
module QueueProgress {
  import opened QueueMachine
  import opened QueueHistory
  import opened QueueLink
  import opened QueueRuns
  import opened QueueAccounting
  import opened QueueOrder
  import opened QueueSchedule
  import opened QueueCalls

  /** Event e ends a round of the loop of thread t that has not finished its call: line 98 found
      another link, or line 103, 129, 141 or 146 has been passed and the loop starts again. */
  predicate RoundInVain(m: Machine, e: Event, t: nat) {
    && e.Run? && e.t == t && CanRun(m, t)
    && (m.locals[t].EnqLink? || m.locals[t].EnqHelp? || m.locals[t].DeqRecheck? || m.locals[t].DeqHelp?
        || m.locals[t].DeqCas?)
    && AtRoundStart(RunThread(m, t).locals[t])
  }

  predicate AtRoundStart(l: Local) {
    l.EnqReadTail? || l.DeqReadHead?
  }

  /** The rounds that thread t has gone through in vain by the events from position k on. */
  function RoundsInVain(n: nat, es: seq<Event>, k: nat, t: nat): nat
    requires Legal(n, es)
    decreases |es|
  {
    if |es| <= k then 0
    else
      var p, e := es[..|es| - 1], es[|es| - 1];
      RoundsInVain(n, p, k, t) + (if RoundInVain(After(n, p), e, t) then 1 else 0)
  }

  /** All that has been achieved on queue q: links, tail swings and head swings. */
  function Achieved(n: nat, es: seq<Event>, q: nat): nat
    requires Legal(n, es) && q < |After(n, es).sh.queues|
  {
    |Links(n, es, q)| + After(n, es).sh.queues[q].tail.ver + After(n, es).sh.queues[q].head.ver
  }

  /** What thread t has read in its present round is still current. */
  predicate Current(s: Shared, l: Local)
    requires !l.Idle? ==> l.q < |s.queues|
  {
    match l
    case EnqReadNext(q, _, _, tl) => s.queues[q].tail == tl
    case EnqLink(q, _, _, tl) =>
      s.queues[q].tail == tl && tl.addr in s.next && s.next[tl.addr] == s.queues[q].code
    case EnqHelp(q, _, _, tl, _) => s.queues[q].tail == tl
    case DeqReadNext(q, hd) => s.queues[q].head == hd
    case DeqRecheck(q, hd) => s.queues[q].head == hd
    case DeqReadTail(q, hd, _) => s.queues[q].head == hd
    case DeqReadTailNext(q, hd, _, tl) => s.queues[q].head == hd && s.queues[q].tail == tl
    case DeqHelp(q, tl, _) => s.queues[q].tail == tl
    case DeqReadData(q, hd, _) => s.queues[q].head == hd
    case DeqCas(q, hd, _, _) => s.queues[q].head == hd
    case _ => true
  }

  predicate InRound(l: Local) {
    l.EnqReadNext? || l.EnqLink? || l.EnqHelp? || l.DeqReadNext? || l.DeqRecheck? || l.DeqReadTail?
    || l.DeqReadTailNext? || l.DeqHelp? || l.DeqReadData? || l.DeqCas?
  }

  function Gain(m: Machine, e: Event, q: nat): int
    requires Enabled(m, e) && q < |m.sh.queues| <= |Next(m, e).sh.queues|
  {
    |LinkedBy(m, e, q)|
    + (Next(m, e).sh.queues[q].tail.ver - m.sh.queues[q].tail.ver)
    + (Next(m, e).sh.queues[q].head.ver - m.sh.queues[q].head.ver)
  }

  /** A step that achieves nothing on a queue leaves its words and its last next field alone. */
  lemma NoGainNoChange(m: Machine, h: History, e: Event, q: nat)
    requires Inv(m, h) && Enabled(m, e) && q < |m.sh.queues|
    ensures q < |Next(m, e).sh.queues| && Gain(m, e, q) >= 0
    ensures Gain(m, e, q) == 0 ==>
      && Next(m, e).sh.queues[q].head == m.sh.queues[q].head
      && Next(m, e).sh.queues[q].tail == m.sh.queues[q].tail
      && Next(m, e).sh.queues[q].code == m.sh.queues[q].code
  {
    hide Inv, EnqueueGoto, DequeueGoto;
    if e.Run? {
      if Enqueuing(m.locals[e.t]) {
        hide DequeueEffect;
      } else {
        hide EnqueueEffect;
      }
    }
  }

  /** A link that is missing at the tail stays missing until something is achieved. */
  lemma LastNextKept(m: Machine, h: History, e: Event, q: nat)
    requires Inv(m, h) && Enabled(m, e) && q < |m.sh.queues| && Gain(m, e, q) == 0
    requires m.sh.queues[q].tail.addr in m.sh.next && m.sh.next[m.sh.queues[q].tail.addr] == m.sh.queues[q].code
    ensures m.sh.queues[q].tail.addr in Next(m, e).sh.next
    ensures Next(m, e).sh.next[m.sh.queues[q].tail.addr] == m.sh.queues[q].code
  {
    hide OwnInv, QueueInv, ChainInv;
    TailIsLive(m, h, q);
    if e.Run? {
      var l := m.locals[e.t];
      assert LocalInv(m.sh, h, e.t, l);
      hide LocalInv;
      if LinkSucceedsAt(m, e) {
        LinkTarget(m, h, e.t);
      }
    }
  }

  lemma CurrentKept(m: Machine, h: History, e: Event, l: Local)
    requires Inv(m, h) && Enabled(m, e) && !l.Idle? && l.q < |m.sh.queues| && Gain(m, e, l.q) == 0
    requires Current(m.sh, l)
    ensures l.q < |Next(m, e).sh.queues| && Current(Next(m, e).sh, l)
  {
    hide Inv, Gain, Next;
    NoGainNoChange(m, h, e, l.q);
    if l.EnqLink? {
      LastNextKept(m, h, e, l.q);
    }
  }

  /** base counts the rounds in vain and what had been achieved before the call; seen and now
      what has been achieved up to the beginning of the round and up to now. */
  ghost predicate Paid(s: Shared, l: Local, base: int, seen: int, now: int) {
    && !l.Idle? && l.q < |s.queues|
    && base + |EffectsAt(l)| <= now
    && (InRound(l) ==> base <= seen <= now && (seen == now ==> Current(s, l)))
  }

  /** A thread's own step: a round that ends in vain was paid for since it began. */
  lemma OwnRoundStep(m: Machine, h: History, t: nat, base: int, seen: int, now: int)
    requires Inv(m, h) && CanRun(m, t) && Paid(m.sh, m.locals[t], base, seen, now)
    ensures var e, l, m' := Run(t), m.locals[t], RunThread(m, t);
      Paid(m'.sh, m'.locals[t], base + (if RoundInVain(m, e, t) then 1 else 0),
           if AtRoundStart(l) then now else seen, now + Gain(m, e, l.q))
    ensures |RunThread(m, t).locals| == |m.locals| && RunThread(m, t).locals[t].q == m.locals[t].q
  {
    hide OwnInv, QueueInv, LocalInv, MemInv;
    NoGainNoChange(m, h, Run(t), m.locals[t].q);
    hide Inv;
    if Enqueuing(m.locals[t]) {
      hide DequeueEffect, DequeueGoto;
    } else {
      hide EnqueueEffect, EnqueueGoto;
    }
  }

  /** A step of anything else. */
  lemma OtherRoundStep(m: Machine, h: History, e: Event, t: nat, base: int, seen: int, now: int)
    requires Inv(m, h) && Enabled(m, e) && t < |m.locals| && Paid(m.sh, m.locals[t], base, seen, now)
    requires !Calls(e, t) && !(e.Run? && e.t == t)
    ensures |Next(m, e).locals| == |m.locals| && Next(m, e).locals[t] == m.locals[t]
    ensures Paid(Next(m, e).sh, m.locals[t], base, seen, now + Gain(m, e, m.locals[t].q))
  {
    hide OwnInv, QueueInv, LocalInv, MemInv, Current, Gain;
    NoGainNoChange(m, h, e, m.locals[t].q);
    if Gain(m, e, m.locals[t].q) == 0 && Current(m.sh, m.locals[t]) {
      CurrentKept(m, h, e, m.locals[t]);
    }
    hide Inv;
  }

  lemma AchievedStep(n: nat, es: seq<Event>, q: nat)
    requires es != [] && Legal(n, es) && q < |After(n, es[..|es| - 1]).sh.queues|
    ensures var p, e := es[..|es| - 1], es[|es| - 1];
      && q < |After(n, es).sh.queues|
      && Achieved(n, es, q) == Achieved(n, p, q) + Gain(After(n, p), e, q)
  {
    hide Inv;
    var p, e := es[..|es| - 1], es[|es| - 1];
    QueueCountGrows(After(n, p), e);
    hide Next, Enabled, LinkedBy;
  }

  lemma RoundPaid(n: nat, es: seq<Event>, t: nat, base: int, seen: int) returns (seen': int)
    requires es != [] && Legal(n, es) && t < |After(n, es[..|es| - 1]).locals| && !Calls(es[|es| - 1], t)
    requires var p := es[..|es| - 1];
      var m := After(n, p);
      !m.locals[t].Idle? && m.locals[t].q < |m.sh.queues|
      && Paid(m.sh, m.locals[t], base, seen, Achieved(n, p, m.locals[t].q))
    ensures var p, e := es[..|es| - 1], es[|es| - 1];
      var m, m' := After(n, p), After(n, es);
      var q, vain := m.locals[t].q, if RoundInVain(m, e, t) then 1 else 0;
      && t < |m'.locals| && !m'.locals[t].Idle? && m'.locals[t].q == q < |m'.sh.queues|
      && Paid(m'.sh, m'.locals[t], base + vain, seen', Achieved(n, es, q))
  {
    hide Inv, Current, EffectsAt, Achieved, RunThread, Gain, Links, LinkedBy, AtRoundStart;
    var p, e := es[..|es| - 1], es[|es| - 1];
    var m, h := After(n, p), HistoryOf(n, p);
    RunInv(n, p);
    var l := m.locals[t];
    var now := Achieved(n, p, l.q);
    AchievedStep(n, es, l.q);
    if e.Run? && e.t == t {
      OwnRoundStep(m, h, t, base, seen, now);
      seen' := if AtRoundStart(l) then now else seen;
    } else {
      OtherRoundStep(m, h, e, t, base, seen, now);
      seen' := seen;
    }
  }

  lemma CallIsPaid(m: Machine, e: Event, t: nat, now: int)
    requires Enabled(m, e) && Calls(e, t)
    ensures t < |Next(m, e).locals| && e.q < |m.sh.queues| <= |Next(m, e).sh.queues|
    ensures Next(m, e).locals[t].q == e.q && Gain(m, e, e.q) == 0
    ensures Paid(Next(m, e).sh, Next(m, e).locals[t], now, 0, now)
  {
  }

  lemma {:induction false} RoundsArePaid(n: nat, es: seq<Event>, k: nat, t: nat) returns (seen: int)
    requires Legal(n, es) && LatestCall(es, k, t)
    ensures Legal(n, es[..k]) && t < |After(n, es).locals|
    ensures var l := After(n, es).locals[t];
      && !l.Idle? && l.q == es[k].q < |After(n, es[..k]).sh.queues| && l.q < |After(n, es).sh.queues|
      && Paid(After(n, es).sh, l, Achieved(n, es[..k], l.q) + RoundsInVain(n, es, k, t), seen,
              Achieved(n, es, l.q))
    decreases |es|
  {
    hide Inv, Next, Paid, Achieved, RunThread, Gain, Links, LinkedBy, AtRoundStart;
    var p, e := es[..|es| - 1], es[|es| - 1];
    var m, h := After(n, p), HistoryOf(n, p);
    RunInv(n, p);
    if k < |p| {
      hide Enabled;
      seen := RoundsArePaid(n, p, k, t);
      assert p[..k] == es[..k];
      seen := RoundPaid(n, es, t, Achieved(n, es[..k], es[k].q) + RoundsInVain(n, p, k, t), seen);
    } else {
      assert p == es[..k] && RoundsInVain(n, p, k, t) == 0;
      seen := 0;
      CallIsPaid(m, e, t, Achieved(n, p, e.q));
      AchievedStep(n, es, e.q);
    }
  }

  // ----- all accesses of a call -----

  /** The accesses that thread t has made by the events of es after position k. */
  function OwnSteps(es: seq<Event>, k: nat, t: nat): nat {
    if |es| <= k + 1 then 0
    else OwnSteps(es[..|es| - 1], k, t) + (if es[|es| - 1] == Run(t) then 1 else 0)
  }

  /** The accesses from the call to this program point, rounds in vain apart. */
  function Position(l: Local): nat {
    match l
    case EnqFill(_, _, _) => 0
    case EnqSeal(_, _, _) => 1
    case EnqReadTail(_, _, _) => 2
    case EnqReadNext(_, _, _, _) => 3
    case EnqLink(_, _, _, _) => 4
    case EnqHelp(_, _, _, _, _) => 4
    case EnqSwing(_, _, _, _) => 5
    case EnqCount(_, _) => 6
    case EnqDone(_, _) => 7
    case DeqReserve(_) => 0
    case DeqRestore(_) => 1
    case DeqReadHead(_) => 1
    case DeqReadNext(_, _) => 2
    case DeqRecheck(_, _) => 3
    case DeqReadTail(_, _, _) => 3
    case DeqReadTailNext(_, _, _, _) => 4
    case DeqHelp(_, _, _) => 5
    case DeqReadData(_, _, _) => 5
    case DeqCas(_, _, _, _) => 6
    case DeqFree(_, _, _) => 7
    case DeqDone(_, out) => if out.Got? then 8 else if out.Vacant? then 4 else 2
    case Idle => 0
    case Faulted(_) => 6
  }

  /** The accesses of one round of the loop, at most. */
  function RoundLength(c: Event): nat {
    if c.CallEnqueue? then 3 else 6
  }

  lemma PositionStep(m: Machine, e: Event, t: nat, c: Event)
    requires Enabled(m, e) && t < |m.locals| && !Calls(e, t) && ServesCall(m.locals[t], c)
    ensures t < |Next(m, e).locals|
    ensures (if e == Run(t) then 1 else 0) + Position(m.locals[t]) <=
      Position(Next(m, e).locals[t]) + (if RoundInVain(m, e, t) then RoundLength(c) else 0)
  {
    hide EnqueueEffect, DequeueEffect;
  }

  /** A call makes no accesses but those on the way to its program point and those of its
      rounds in vain. */
  lemma {:induction false} AccessesAreRounds(n: nat, es: seq<Event>, k: nat, t: nat)
    requires Legal(n, es) && LatestCall(es, k, t)
    ensures t < |After(n, es).locals|
    ensures OwnSteps(es, k, t) <= Position(After(n, es).locals[t]) + RoundLength(es[k]) * RoundsInVain(n, es, k, t)
    decreases |es|
  {
    var p, e := es[..|es| - 1], es[|es| - 1];
    hide Next, Enabled, Position, RoundInVain, RoundLength, ServesCall;
    CallsHaveTheirEffect(n, es, k, t);
    if k < |p| {
      CallsHaveTheirEffect(n, p, k, t);
      AccessesAreRounds(n, p, k, t);
      PositionStep(After(n, p), e, t, es[k]);
      var vain := if RoundInVain(After(n, p), e, t) then 1 else 0;
      assert RoundLength(es[k]) * (RoundsInVain(n, p, k, t) + vain)
          == RoundLength(es[k]) * RoundsInVain(n, p, k, t) + RoundLength(es[k]) * vain;
    }
  }

  // ----- main results -----

  /** In any run, the rounds of one call that were in vain so far are at most the links, tail
      swings and head swings on its queue since the call began, its own effect apart. */
  lemma VainRoundsArePaid(n: nat, es: seq<Event>, k: nat, t: nat)
    requires Legal(n, es) && LatestCall(es, k, t)
    ensures Legal(n, es[..k])
    ensures var q := es[k].q;
      && q < |After(n, es[..k]).sh.queues| && q < |After(n, es).sh.queues|
      && RoundsInVain(n, es, k, t) + |EffectsSince(n, es, k, t)|
           <= Achieved(n, es, q) - Achieved(n, es[..k], q)
  {
    hide Inv, After, HistoryOf, Achieved, RoundsInVain, EffectsSince, EffectsAt;
    var seen := RoundsArePaid(n, es, k, t);
    CallsHaveTheirEffect(n, es, k, t);
  }

  /** In any run, all accesses of an Enqueue, from its call to its return or to wherever it is,
      are at most 7 and 3 more for each link, tail swing and head swing on its queue since the
      call, its own effect apart; of a Dequeue at most 8 and 6 more for each. */
  lemma AccessesArePaid(n: nat, es: seq<Event>, k: nat, t: nat)
    requires Legal(n, es) && LatestCall(es, k, t)
    ensures Legal(n, es[..k])
    ensures var q := es[k].q;
      && q < |After(n, es[..k]).sh.queues| && q < |After(n, es).sh.queues|
      && var paid := Achieved(n, es, q) - Achieved(n, es[..k], q) - |EffectsSince(n, es, k, t)|;
         && (es[k].CallEnqueue? ==> OwnSteps(es, k, t) <= 7 + 3 * paid)
         && (es[k].CallDequeue? ==> OwnSteps(es, k, t) <= 8 + 6 * paid)
  {
    hide Inv, After, HistoryOf, Achieved, RoundsInVain, EffectsSince, EffectsAt, OwnSteps;
    VainRoundsArePaid(n, es, k, t);
    AccessesAreRounds(n, es, k, t);
    CallsHaveTheirEffect(n, es, k, t);
  }

  lemma {:induction false} PrefixPrompt(n: nat, es: seq<Event>, k: nat)
    requires Legal(n, es) && Prompt(n, es) && k <= |es|
    ensures Legal(n, es[..k]) && Prompt(n, es[..k])
  {
    hide Enabled, Next, LinkSucceedsAt;
    if k < |es| {
      PrefixPrompt(n, es[..|es| - 1], k);
      assert es[..|es| - 1][..k] == es[..k];
    } else {
      assert es[..k] == es;
    }
  }

  /** In a prompt run the words count links and returns. */
  lemma WordsCount(n: nat, es: seq<Event>, q: nat)
    requires Legal(n, es) && Prompt(n, es) && q < |After(n, es).sh.queues|
    ensures var w := After(n, es).sh.queues[q];
      && w.head.ver == |Returns(n, es, q)|
      && |Links(n, es, q)| - 1 <= w.tail.ver <= |Links(n, es, q)|
  {
    hide OwnInv, LocalInv, MemInv, After, HistoryOf, Legal, Links, Returns, Prompt;
    HistoryIsSchedule(n, es, q);
    PromptIsOrderly(n, es);
    OrderlyRun(n, es);
    LagOfRun(n, es, q);
    RunInv(n, es);
    assert QueueInv(After(n, es).sh, HistoryOf(n, es), q);
  }

  /** In a prompt run, only elements that went in or out can hold a call up: the rounds in vain
      of a call, its own effect counted too, are at most one, plus twice the links and once the
      dequeues that have taken effect on its queue since it began; and so are its accesses,
      up to a constant factor. */
  lemma OnlySuccessHoldsUp(n: nat, es: seq<Event>, k: nat, t: nat)
    requires Legal(n, es) && Prompt(n, es) && LatestCall(es, k, t)
    ensures Legal(n, es[..k])
    ensures var q := es[k].q;
      var links := |Links(n, es, q)| - |Links(n, es[..k], q)|;
      var dequeues := |Returns(n, es, q)| - |Returns(n, es[..k], q)|;
      var others := 1 + 2 * links + dequeues - |EffectsSince(n, es, k, t)|;
      && RoundsInVain(n, es, k, t) <= others
      && (es[k].CallEnqueue? ==> OwnSteps(es, k, t) <= 7 + 3 * others)
      && (es[k].CallDequeue? ==> OwnSteps(es, k, t) <= 8 + 6 * others)
  {
    hide Inv, After, HistoryOf, RoundsInVain, EffectsSince, OwnSteps, Links, Returns, Prompt;
    VainRoundsArePaid(n, es, k, t);
    AccessesArePaid(n, es, k, t);
    PrefixPrompt(n, es, k);
    WordsCount(n, es, es[k].q);
    WordsCount(n, es[..k], es[k].q);
  }
}
