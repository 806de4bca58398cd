/** Conservation of values and the exact meaning of the size counter, in every run. */
module QueueAccounting {
  import opened QueueMachine
  import opened QueueHistory
  import opened QueueLink
  import opened QueueRuns

  // ----- sums over threads -----

  function Total(c: seq<multiset<Data>>): multiset<Data> {
    if c == [] then multiset{} else Total(c[..|c| - 1]) + c[|c| - 1]
  }

  lemma {:induction false} TotalUpdate(c: seq<multiset<Data>>, i: nat, x: multiset<Data>)
    requires i < |c|
    ensures Total(c[i := x]) + c[i] == Total(c) + x
  {
    var d := c[i := x];
    if i == |c| - 1 {
      assert d[..|d| - 1] == c[..|c| - 1];
    } else {
      var p := c[..|c| - 1];
      TotalUpdate(p, i, x);
      assert d[..|d| - 1] == p[i := x] && p[i] == c[i];
      AddBoth(Total(p[i := x]), c[i], Total(p), x, c[|c| - 1]);
    }
  }

  lemma AddBoth(a: multiset<Data>, b: multiset<Data>, c: multiset<Data>, d: multiset<Data>, l: multiset<Data>)
    requires a + b == c + d
    ensures (a + l) + b == (c + l) + d
  {
    assert (a + l) + b == (a + b) + l;
    assert (c + l) + d == (c + d) + l;
  }

  /** The stages of an operation that the size counter does not reflect yet. */
  datatype Stage = LinkedNotCounted | Reserved | Failing

  predicate At(stage: Stage, q: nat, l: Local) {
    !l.Idle? && l.q == q &&
    match stage
    case LinkedNotCounted => l.EnqSwing? || l.EnqCount?
    case Reserved =>
      l.DeqReadHead? || l.DeqReadNext? || l.DeqRecheck? || l.DeqReadTail? || l.DeqReadTailNext?
      || l.DeqHelp? || l.DeqReadData? || l.DeqCas? || l.Faulted?
    case Failing => l.DeqRestore?
  }

  function Unit(stage: Stage, q: nat, l: Local): nat {
    if At(stage, q, l) then 1 else 0
  }

  /** How many threads are at a stage of an operation on queue q. */
  function Count(stage: Stage, q: nat, ls: seq<Local>): nat {
    if ls == [] then 0 else Count(stage, q, ls[..|ls| - 1]) + Unit(stage, q, ls[|ls| - 1])
  }

  lemma {:induction false} CountUpdate(stage: Stage, q: nat, ls: seq<Local>, t: nat, l: Local)
    requires t < |ls|
    ensures Count(stage, q, ls[t := l]) + Unit(stage, q, ls[t]) == Count(stage, q, ls) + Unit(stage, q, l)
  {
    var ls' := ls[t := l];
    if t == |ls| - 1 {
      assert ls'[..|ls'| - 1] == ls[..|ls| - 1];
    } else {
      CountUpdate(stage, q, ls[..|ls| - 1], t, l);
      assert ls'[..|ls'| - 1] == ls[..|ls| - 1][t := l];
    }
  }

  lemma {:induction false} CountBounds(stage: Stage, q: nat, ls: seq<Local>)
    ensures Count(stage, q, ls) <= |ls|
    ensures forall t | 0 <= t < |ls| && At(stage, q, ls[t]) :: Count(stage, q, ls) >= 1
    ensures (forall t | 0 <= t < |ls| :: AtRest(ls[t])) ==> Count(stage, q, ls) == 0
  {
    if ls != [] {
      var p := ls[..|ls| - 1];
      CountBounds(stage, q, p);
      forall t | 0 <= t < |ls| && At(stage, q, ls[t]) ensures Count(stage, q, ls) >= 1 {
        assert t < |p| ==> p[t] == ls[t];
      }
      if forall t | 0 <= t < |ls| :: AtRest(ls[t]) {
        assert forall t | 0 <= t < |p| :: AtRest(p[t]);
      }
    }
  }

  // ----- the size counter -----

  /** size = links - swings - lost reservations, minus what is linked but not counted,
      reserved but not swung, or decremented in vain; and counted elements cover all
      reservations. */
  ghost predicate SizeInv(m: Machine, h: History, q: nat)
    requires Shaped(m, h) && q < |m.sh.queues|
  {
    var g, size := h.qs[q], m.sh.queues[q].size;
    var uncounted, reserved, failing :=
      Count(LinkedNotCounted, q, m.locals), Count(Reserved, q, m.locals), Count(Failing, q, m.locals);
    && size == |g.linked| - uncounted - |g.taken| - g.lost - reserved - failing
    && |g.linked| - uncounted >= |g.taken| + g.lost + reserved
  }

  /** The counters of one queue after a step of thread t: which change by how much. */
  lemma SizeRunStep(m: Machine, h: History, t: nat, q: nat)
    requires Inv(m, h) && CanRun(m, t) && q < |m.sh.queues| && SizeInv(m, h, q)
    ensures var m', h' := RunThread(m, t), TrackRun(m.sh, h, t, m.locals[t]);
      Shaped(m', h') && SizeInv(m', h', q)
  {
    hide OwnInv, QueueInv, LocalInv, MemInv;
    if !m.locals[t].DeqReadData? {
      NoOtherFault(m, h, t);
    }
    SizeRunStep'(m, h, t, q);
  }

  lemma CountsUpdate(q: nat, ls: seq<Local>, t: nat, l: Local)
    requires t < |ls|
    ensures forall stage ::
      Count(stage, q, ls[t := l]) + Unit(stage, q, ls[t]) == Count(stage, q, ls) + Unit(stage, q, l)
  {
    forall stage ensures
      Count(stage, q, ls[t := l]) + Unit(stage, q, ls[t]) == Count(stage, q, ls) + Unit(stage, q, l)
    {
      CountUpdate(stage, q, ls, t, l);
    }
  }

  lemma SizeRunStep'(m: Machine, h: History, t: nat, q: nat)
    requires Shaped(m, h) && CanRun(m, t) && q < |m.sh.queues| && SizeInv(m, h, q)
    requires RunThread(m, t).locals[t].Faulted? ==> m.locals[t].DeqReadData?
    ensures var m', h' := RunThread(m, t), TrackRun(m.sh, h, t, m.locals[t]);
      Shaped(m', h') && SizeInv(m', h', q)
  {
    hide Count, At;
    var l, m', h' := m.locals[t], RunThread(m, t), TrackRun(m.sh, h, t, m.locals[t]);
    CountsUpdate(q, m.locals, t, m'.locals[t]);
    if Enqueuing(l) {
      EnqueueDelta(m, h, t, q);
    } else {
      DequeueDelta(m, h, t, q);
    }
  }

  /** The terms of the size equation that one access changes, and by how much. */
  ghost predicate Delta(m: Machine, h: History, t: nat, q: nat)
    requires Shaped(m, h) && CanRun(m, t) && q < |m.sh.queues|
  {
    var m', h' := RunThread(m, t), TrackRun(m.sh, h, t, m.locals[t]);
    && Shaped(m', h')
    && var g, g', l, l' := h.qs[q], h'.qs[q], m.locals[t], m'.locals[t];
       var dUncounted := Unit(LinkedNotCounted, q, l') - Unit(LinkedNotCounted, q, l);
       var dReserved := Unit(Reserved, q, l') - Unit(Reserved, q, l);
       var dFailing := Unit(Failing, q, l') - Unit(Failing, q, l);
       && m'.sh.queues[q].size - m.sh.queues[q].size ==
            (|g'.linked| - |g.linked|) - dUncounted - (|g'.taken| - |g.taken|)
            - (g'.lost - g.lost) - dReserved - dFailing
       && ((|g'.linked| - |g.linked|) - dUncounted >= (|g'.taken| - |g.taken|) + (g'.lost - g.lost) + dReserved
           || (dReserved == 1 && dUncounted == 0 && |g'.linked| == |g.linked| && |g'.taken| == |g.taken|
               && g'.lost == g.lost && m.sh.queues[q].size >= 1))
  }

  lemma LinkDelta(m: Machine, h: History, t: nat, q: nat)
    requires Shaped(m, h) && CanRun(m, t) && q < |m.sh.queues| && m.locals[t].EnqLink?
    requires !RunThread(m, t).locals[t].Faulted?
    ensures Delta(m, h, t, q)
  {
  }

  lemma EnqueueDelta(m: Machine, h: History, t: nat, q: nat)
    requires Shaped(m, h) && CanRun(m, t) && q < |m.sh.queues| && Enqueuing(m.locals[t])
    requires !RunThread(m, t).locals[t].Faulted?
    ensures Delta(m, h, t, q)
  {
    if m.locals[t].EnqLink? {
      LinkDelta(m, h, t, q);
    } else {
      hide TrackLink, AfterPublish, AfterGraft;
    }
  }

  lemma DequeueDelta(m: Machine, h: History, t: nat, q: nat)
    requires Shaped(m, h) && CanRun(m, t) && q < |m.sh.queues| && !Enqueuing(m.locals[t])
    requires RunThread(m, t).locals[t].Faulted? ==> m.locals[t].DeqReadData?
    ensures Delta(m, h, t, q)
  {
    hide EnqueueEffect, EnqueueGoto;
    if m.locals[t].DeqCas? || m.locals[t].DeqRecheck? {
      SwingDelta(m, h, t, q);
    }
  }

  lemma SwingDelta(m: Machine, h: History, t: nat, q: nat)
    requires Shaped(m, h) && CanRun(m, t) && q < |m.sh.queues|
    requires m.locals[t].DeqCas? || m.locals[t].DeqRecheck?
    ensures Delta(m, h, t, q)
  {
    hide EnqueueEffect, EnqueueGoto;
  }

  lemma SizeStep(m: Machine, h: History, e: Event, q: nat)
    requires Inv(m, h) && Enabled(m, e) && q < |Next(m, e).sh.queues|
    requires q < |m.sh.queues| ==> SizeInv(m, h, q)
    requires q == |m.sh.queues| ==> forall t | 0 <= t < |m.locals| :: m.locals[t].Idle? || m.locals[t].q < q
    ensures Shaped(Next(m, e), Track(m, h, e)) && SizeInv(Next(m, e), Track(m, h, e), q)
  {
    hide OwnInv, QueueInv, LocalInv, MemInv, SizeInv;
    if e.Run? {
      SizeRunStep(m, h, e.t, q);
    } else {
      SizeCallStep(m, h, e, q);
    }
  }

  lemma SizeCallStep(m: Machine, h: History, e: Event, q: nat)
    requires Shaped(m, h) && Enabled(m, e) && !e.Run? && q < |Next(m, e).sh.queues|
    requires q < |m.sh.queues| ==> SizeInv(m, h, q)
    requires q == |m.sh.queues| ==> forall t | 0 <= t < |m.locals| :: m.locals[t].Idle? || m.locals[t].q < q
    ensures Shaped(Next(m, e), Track(m, h, e)) && SizeInv(Next(m, e), Track(m, h, e), q)
  {
    hide Count;
    if e.CallEnqueue? || e.CallDequeue? {
      CallCounts(m, e, q);
    } else if q == |m.sh.queues| {
      NobodyThere(LinkedNotCounted, q, m.locals);
      NobodyThere(Reserved, q, m.locals);
      NobodyThere(Failing, q, m.locals);
    }
    hide At;
  }

  /** A call begins at no stage of its operation. */
  lemma CallCounts(m: Machine, e: Event, q: nat)
    requires Enabled(m, e) && (e.CallEnqueue? || e.CallDequeue?)
    ensures forall stage :: Count(stage, q, Next(m, e).locals) == Count(stage, q, m.locals)
  {
    forall stage ensures Count(stage, q, Next(m, e).locals) == Count(stage, q, m.locals) {
      CountUpdate(stage, q, m.locals, e.t, Next(m, e).locals[e.t]);
    }
    hide Count;
  }

  lemma {:induction false} NobodyThere(stage: Stage, q: nat, ls: seq<Local>)
    requires forall t | 0 <= t < |ls| :: ls[t].Idle? || ls[t].q < q
    ensures Count(stage, q, ls) == 0
  {
    if ls != [] {
      NobodyThere(stage, q, ls[..|ls| - 1]);
    }
  }

  lemma {:induction false} SizeAccounting(n: nat, es: seq<Event>, q: nat)
    requires Legal(n, es) && q < |After(n, es).sh.queues|
    ensures SizeInv(After(n, es), HistoryOf(n, es), q)
  {
    hide OwnInv, QueueInv, MemInv, SizeInv, Next, Track;
    if es != [] {
      var p, e := es[..|es| - 1], es[|es| - 1];
      var m, h := After(n, p), HistoryOf(n, p);
      RunInv(n, p);
      QueueCountGrows(m, e);
      if q < |m.sh.queues| {
        SizeAccounting(n, p, q);
      } else {
        forall t | 0 <= t < |m.locals| ensures m.locals[t].Idle? || m.locals[t].q < q {
          assert LocalInv(m.sh, h, t, m.locals[t]);
        }
      }
      SizeStep(m, h, e, q);
    }
  }

  lemma QueueCountGrows(m: Machine, e: Event)
    requires Enabled(m, e)
    ensures |m.sh.queues| <= |Next(m, e).sh.queues| <= |m.sh.queues| + 1
  {
  }

  // ----- conservation -----

  /** The values whose link succeeded but which hang, for now, behind thread t's unlinked node. */
  ghost function WaitingBehind(m: Machine, h: History, q: nat, t: nat): multiset<Data>
    requires Shaped(m, h) && t < |m.locals|
  {
    if !m.locals[t].Idle? && m.locals[t].q == q && |h.pval[t]| > 0
    then multiset(h.pval[t][1..]) else multiset{}
  }

  ghost function WaitingSeq(m: Machine, h: History, q: nat): (c: seq<multiset<Data>>)
    requires Shaped(m, h)
    ensures |c| == |m.locals|
    ensures forall t | 0 <= t < |c| :: c[t] == WaitingBehind(m, h, q, t)
  {
    seq(|m.locals|, t requires 0 <= t < |m.locals| => WaitingBehind(m, h, q, t))
  }

  /** Every value whose link succeeded was published once, or waits behind exactly one
      unlinked node. */
  ghost predicate Conserved(m: Machine, h: History, q: nat)
    requires Shaped(m, h) && q < |m.sh.queues|
  {
    multiset(h.qs[q].linked) == multiset(h.qs[q].vals) + Total(WaitingSeq(m, h, q))
  }

  /** A step that links nothing leaves all terms of the equation unchanged. */
  lemma ConservedQuiet(m: Machine, h: History, m': Machine, h': History, q: nat)
    requires Shaped(m, h) && Shaped(m', h') && q < |m.sh.queues| && q < |m'.sh.queues|
    requires h'.qs[q].linked == h.qs[q].linked && h'.qs[q].vals == h.qs[q].vals
    requires |m'.locals| == |m.locals|
    requires forall t | 0 <= t < |m.locals| :: WaitingBehind(m', h', q, t) == WaitingBehind(m, h, q, t)
    requires Conserved(m, h, q)
    ensures Conserved(m', h', q)
  {
    assert WaitingSeq(m', h', q) == WaitingSeq(m, h, q);
  }

  lemma QuietWaiting(m: Machine, h: History, e: Event, q: nat)
    requires Inv(m, h) && Enabled(m, e) && Inv(Next(m, e), Track(m, h, e)) && q < |m.sh.queues|
    requires !(e.Run? && m.locals[e.t].EnqLink?)
    ensures var m', h' := Next(m, e), Track(m, h, e);
      && |m'.locals| == |m.locals|
      && h'.qs[q].linked == h.qs[q].linked && h'.qs[q].vals == h.qs[q].vals
      && (forall t | 0 <= t < |m.locals| :: WaitingBehind(m', h', q, t) == WaitingBehind(m, h, q, t))
  {
    hide OwnInv, QueueInv, MemInv;
    var m', h' := Next(m, e), Track(m, h, e);
    forall t | 0 <= t < |m.locals|
      ensures WaitingBehind(m', h', q, t) == WaitingBehind(m, h, q, t)
    {
      QuietChain(m, h, e, t);
    }
  }

  /** Only a thread at line 84 starts a chain, with nothing waiting behind it. */
  lemma QuietChain(m: Machine, h: History, e: Event, t: nat)
    requires Inv(m, h) && Enabled(m, e) && Shaped(Next(m, e), Track(m, h, e)) && t < |m.locals|
    requires |Next(m, e).locals| == |m.locals|
    requires !(e.Run? && m.locals[e.t].EnqLink?)
    ensures var m', h' := Next(m, e), Track(m, h, e);
      && (h'.pval[t] == h.pval[t] || (h.pval[t] == [] && |h'.pval[t]| == 1))
      && (h.pval[t] != [] ==> !m'.locals[t].Idle? && m'.locals[t].q == m.locals[t].q)
  {
    hide OwnInv, QueueInv, MemInv, ChainInv, SavedTail, SavedHead;
    assert LocalInv(m.sh, h, t, m.locals[t]);
  }

  lemma HeadAndRest(v: seq<Data>)
    requires |v| > 0
    ensures multiset(v) == multiset([v[0]]) + multiset(v[1..])
  {
    assert v == [v[0]] + v[1..];
  }

  /** Publishing: the linker's own value and all values waiting behind it. */
  lemma PublishConserved(m: Machine, h: History, t: nat, q: nat)
    requires LinkReady(m, h, t) && AttachesToQueue(m, h, t) && q < |m.sh.queues| && Conserved(m, h, q)
    ensures Shaped(LinkMachine(m, t), PublishHistory(m, h, t))
    ensures Conserved(LinkMachine(m, t), PublishHistory(m, h, t), q)
  {
    hide Inv, AttachesToQueue, Total;
    ChainHead'(m, h, t);
    var m', h', l := LinkMachine(m, t), PublishHistory(m, h, t), m.locals[t];
    if q != l.q {
      ConservedQuiet(m, h, m', h', q);
    } else {
      var c, pv := WaitingSeq(m, h, q), h.pval[t];
      TotalUpdate(c, t, multiset{});
      PublishWaiting(m, h, t);
      PublishSum(h.qs[q].linked, l.val, h.qs[q].vals, pv, Total(c), Total(c[t := multiset{}]));
    }
  }

  lemma PublishWaiting(m: Machine, h: History, t: nat)
    requires LinkReady(m, h, t)
    ensures Shaped(m, h) && Shaped(LinkMachine(m, t), PublishHistory(m, h, t))
    ensures var q, c := m.locals[t].q, WaitingSeq(m, h, m.locals[t].q);
      && t < |c| && c[t] == multiset(h.pval[t][1..])
      && WaitingSeq(LinkMachine(m, t), PublishHistory(m, h, t), q) == c[t := multiset{}]
  {
    hide Inv;
    ChainHead'(m, h, t);
  }

  lemma ChainHead'(m: Machine, h: History, t: nat)
    requires LinkReady(m, h, t)
    ensures Shaped(m, h) && CanRun(m, t) && !m.locals[t].Idle? && m.locals[t].q < |m.sh.queues|
    ensures |h.pval[t]| > 0 && h.pval[t][0] == m.locals[t].val
  {
    hide OwnInv, QueueInv, LocalInv, MemInv;
    ChainHead(m, h, t);
  }

  lemma PublishSum(linked: seq<Data>, val: Data, vals: seq<Data>, pv: seq<Data>,
                   w: multiset<Data>, w': multiset<Data>)
    requires |pv| > 0 && pv[0] == val && multiset(linked) == multiset(vals) + w
    requires w' + multiset(pv[1..]) == w + multiset{}
    ensures multiset(linked + [val]) == multiset(vals + pv) + w'
  {
    HeadAndRest(pv);
    assert multiset(vals + pv) + w' == multiset(vals) + multiset([val]) + (w' + multiset(pv[1..]));
  }

  lemma Cancel(a: multiset<Data>, b: multiset<Data>, c: multiset<Data>)
    requires a + c == b + c
    ensures a == b
  {
    forall x ensures a[x] == b[x] {
      assert (a + c)[x] == a[x] + c[x] && (b + c)[x] == b[x] + c[x];
    }
  }

  lemma GraftSum(linked: seq<Data>, val: Data, vals: seq<Data>, pv: seq<Data>, py: seq<Data>,
                 w: multiset<Data>, w1: multiset<Data>, w2: multiset<Data>)
    requires |pv| > 0 && pv[0] == val && |py| > 0 && multiset(linked) == multiset(vals) + w
    requires w1 + multiset(pv[1..]) == w + multiset{}
    requires w2 + multiset(py[1..]) == w1 + multiset((py + pv)[1..])
    ensures multiset(linked + [val]) == multiset(vals) + w2
  {
    HeadAndRest(pv);
    assert (py + pv)[1..] == py[1..] + pv;
    assert w2 + multiset(py[1..]) == (w1 + multiset(pv)) + multiset(py[1..]);
    Cancel(w2, w1 + multiset(pv), multiset(py[1..]));
    assert w1 + multiset(pv) == (w1 + multiset(pv[1..])) + multiset([val]);
  }

  /** How grafting t's chain onto y's chain changes what waits behind each thread. */
  lemma GraftWaiting(m: Machine, h: History, t: nat, y: nat, q: nat)
    requires Shaped(m, h) && CanRun(m, t) && m.locals[t].EnqLink? && m.locals[t].q == q
    requires y < |m.locals| && y != t && !m.locals[y].Idle? && m.locals[y].q == q && |h.pval[y]| > 0
    ensures Shaped(LinkMachine(m, t), GraftHistory(m, h, t, y))
    ensures WaitingSeq(LinkMachine(m, t), GraftHistory(m, h, t, y), q)
         == WaitingSeq(m, h, q)[t := multiset{}][y := multiset((h.pval[y] + h.pval[t])[1..])]
  {
    var c := WaitingSeq(m, h, q)[t := multiset{}][y := multiset((h.pval[y] + h.pval[t])[1..])];
    var c' := WaitingSeq(LinkMachine(m, t), GraftHistory(m, h, t, y), q);
    forall u | 0 <= u < |c| ensures c'[u] == c[u] {
      assert u != t && u != y ==> c[u] == WaitingBehind(m, h, q, u);
    }
  }

  /** Grafting: the linker's value and all values behind it now wait behind another node. */
  lemma GraftConserved(m: Machine, h: History, t: nat, y: nat, q: nat)
    requires LinkReady(m, h, t) && AttachesToPending(m, h, t, y) && q < |m.sh.queues| && Conserved(m, h, q)
    requires q == m.locals[t].q
    ensures Shaped(LinkMachine(m, t), GraftHistory(m, h, t, y))
    ensures Conserved(LinkMachine(m, t), GraftHistory(m, h, t, y), q)
  {
    hide Inv, LinkMachine;
    ChainHead'(m, h, t);
    SamePvalLength(m, h, y);
    GraftWaiting(m, h, t, y, q);
    var pv, py := h.pval[t], h.pval[y];
    var c := WaitingSeq(m, h, q);
    var c1 := c[t := multiset{}];
    var c2 := c1[y := multiset((py + pv)[1..])];
    TotalUpdate(c, t, multiset{});
    TotalUpdate(c1, y, multiset((py + pv)[1..]));
    GraftSum(h.qs[q].linked, m.locals[t].val, h.qs[q].vals, pv, py, Total(c), Total(c1), Total(c2));
  }

  lemma GraftElsewhere(m: Machine, h: History, t: nat, y: nat, q: nat)
    requires LinkReady(m, h, t) && AttachesToPending(m, h, t, y) && q < |m.sh.queues| && Conserved(m, h, q)
    requires q != m.locals[t].q
    ensures Shaped(LinkMachine(m, t), GraftHistory(m, h, t, y))
    ensures Conserved(LinkMachine(m, t), GraftHistory(m, h, t, y), q)
  {
    hide Inv;
    ChainHead'(m, h, t);
    ConservedQuiet(m, h, LinkMachine(m, t), GraftHistory(m, h, t, y), q);
  }

  lemma SamePvalLength(m: Machine, h: History, y: nat)
    requires Inv(m, h) && y < |m.locals| && |h.pend[y]| > 0
    ensures |h.pval[y]| > 0 && !m.locals[y].Idle?
  {
    hide OwnInv, QueueInv, LocalInv, MemInv;
    ChainOwner(m, h, y);
  }

  lemma LinkConserved(m: Machine, h: History, t: nat, q: nat)
    requires Inv(m, h) && CanRun(m, t) && m.locals[t].EnqLink? && q < |m.sh.queues| && Conserved(m, h, q)
    ensures var m', h' := RunThread(m, t), TrackRun(m.sh, h, t, m.locals[t]);
      Shaped(m', h') && Conserved(m', h', q)
  {
    hide OwnInv, QueueInv, LocalInv, MemInv, Conserved;
    if LinkReady(m, h, t) {
      LinkTarget(m, h, t);
      if AttachesToQueue(m, h, t) {
        PublishConserved(m, h, t, q);
      } else if q == m.locals[t].q {
        GraftConserved(m, h, t, h.own[m.locals[t].tl.addr].t, q);
      } else {
        GraftElsewhere(m, h, t, h.own[m.locals[t].tl.addr].t, q);
      }
    } else {
      ConservedQuiet(m, h, RunThread(m, t), TrackRun(m.sh, h, t, m.locals[t]), q);
    }
  }

  lemma NobodyWaits(m: Machine, h: History, q: nat)
    requires Shaped(m, h) && q < |m.sh.queues| && h.qs[q].linked == [] && h.qs[q].vals == []
    requires forall t | 0 <= t < |m.locals| :: m.locals[t].Idle? || m.locals[t].q != q
    ensures Conserved(m, h, q)
  {
    TotalOfNone(WaitingSeq(m, h, q));
  }

  lemma {:induction false} TotalOfNone(c: seq<multiset<Data>>)
    requires forall t | 0 <= t < |c| :: c[t] == multiset{}
    ensures Total(c) == multiset{}
  {
    if c != [] {
      TotalOfNone(c[..|c| - 1]);
    }
  }

  lemma NewQueueConserved(m: Machine, h: History, e: Event)
    requires Inv(m, h) && Enabled(m, e) && e.Construct?
    ensures Shaped(Next(m, e), Track(m, h, e)) && |Next(m, e).sh.queues| == |m.sh.queues| + 1
    ensures Conserved(Next(m, e), Track(m, h, e), |m.sh.queues|)
  {
    hide OwnInv, QueueInv, MemInv;
    var m', q := Next(m, e), |m.sh.queues|;
    forall t | 0 <= t < |m'.locals| ensures m'.locals[t].Idle? || m'.locals[t].q != q {
      assert LocalInv(m.sh, h, t, m.locals[t]);
    }
    NobodyWaits(m', Track(m, h, e), q);
  }

  /** In every run, with nodes recycled at will: the values whose link succeeded are the
      returned ones, the ones in the queue, and the ones waiting behind unlinked nodes. */
  lemma {:induction false} Conservation(n: nat, es: seq<Event>, q: nat)
    requires Legal(n, es) && q < |After(n, es).sh.queues|
    ensures Conserved(After(n, es), HistoryOf(n, es), q)
  {
    hide OwnInv, QueueInv, MemInv, LocalInv, Conserved, Next, Track;
    if es != [] {
      var p, e := es[..|es| - 1], es[|es| - 1];
      var m, h := After(n, p), HistoryOf(n, p);
      RunInv(n, p);
      QueueCountGrows(m, e);
      if q < |m.sh.queues| {
        Conservation(n, p, q);
        StepInv(m, h, e);
        ConservationStep(m, h, e, q);
      } else {
        OnlyConstructAdds(m, e);
        NewQueueConserved(m, h, e);
      }
    }
  }

  lemma OnlyConstructAdds(m: Machine, e: Event)
    requires Enabled(m, e)
    ensures |Next(m, e).sh.queues| > |m.sh.queues| ==> e.Construct?
  {
  }

  lemma ConservationStep(m: Machine, h: History, e: Event, q: nat)
    requires Inv(m, h) && Enabled(m, e) && q < |m.sh.queues| && Conserved(m, h, q)
    requires Inv(Next(m, e), Track(m, h, e)) && q < |Next(m, e).sh.queues|
    ensures Conserved(Next(m, e), Track(m, h, e), q)
  {
    hide OwnInv, QueueInv, MemInv, LocalInv, Conserved;
    if e.Run? && m.locals[e.t].EnqLink? {
      LinkConserved(m, h, e.t, q);
    } else {
      QuietWaiting(m, h, e, q);
      ConservedQuiet(m, h, Next(m, e), Track(m, h, e), q);
    }
  }
}
