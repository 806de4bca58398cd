/** Every step of StackMachine keeps the invariant. */
module StackSteps {
  import opened StackMachine
  import opened StackHistory

  ghost predicate AnchorGrows(w: Anchor, g: SHist, w': Anchor, g': SHist) {
    && w'.dummy == w.dummy && w.uniqIdx <= w'.uniqIdx && g.wins <= g'.wins
    && (g'.wins == g.wins ==> w'.top == w.top && w'.uniqIdx == w.uniqIdx)
  }

  /** Nodes and stacks only come, versions and successes only increase, and a top that
      changes is accounted for by a success. */
  ghost predicate Grows(sh: Shared, h: History, sh': Shared, h': History) {
    && |sh.stacks| == |h.ss| <= |sh'.stacks| == |h'.ss|
    && |h.calls| == |h'.calls|
    && sh.next.Keys <= sh'.next.Keys
    && (forall s | 0 <= s < |sh.stacks| :: AnchorGrows(sh.stacks[s], h.ss[s], sh'.stacks[s], h'.ss[s]))
  }

  ghost predicate SameNode(sh: Shared, h: History, sh': Shared, h': History, a: nat) {
    && a in h.own && a in h'.own && h'.own[a] == h.own[a]
    && a in sh.next && a in sh'.next && sh'.next[a] == sh.next[a]
    && a in sh.data && a in sh'.data && sh'.data[a] == sh.data[a]
  }

  /** Nodes on a stack stay as they are unless that stack is popped. */
  ghost predicate LiveKept(sh: Shared, h: History, sh': Shared, h': History)
    requires |sh.stacks| <= |sh'.stacks|
  {
    forall a | a in h.own && h.own[a].Live? && h.own[a].s < |sh.stacks|
      && sh'.stacks[h.own[a].s].uniqIdx == sh.stacks[h.own[a].s].uniqIdx :: SameNode(sh, h, sh', h', a)
  }

  /** Null stays in the dummies only. */
  ghost predicate NullsKept(sh: Shared, sh': Shared) {
    && (forall a | a in sh.next && a in sh'.next :: sh'.next[a] == sh.next[a] || sh'.next[a] != 0)
    && (forall s | 0 <= s < |sh.stacks| && sh.stacks[s].dummy in sh.next && sh.stacks[s].dummy in sh'.next ::
          sh'.next[sh.stacks[s].dummy] == sh.next[sh.stacks[s].dummy])
  }

  ghost predicate OwnedBy(o: Owner, u: nat) {
    (o.Priv? || o.Taken?) && o.t == u
  }

  ghost predicate KeepsOwn(sh: Shared, h: History, sh': Shared, h': History, u: nat)
    requires u < |h.calls| == |h'.calls|
  {
    && h'.calls[u] == h.calls[u]
    && (forall a | a in h.own && OwnedBy(h.own[a], u) :: SameNode(sh, h, sh', h', a))
  }

  /** What a thread relies on survives the steps of all others. */
  lemma LocalStable(sh: Shared, h: History, sh': Shared, h': History, u: nat, l: Local)
    requires Grows(sh, h, sh', h') && MemInv(sh, h) && MemInv(sh', h')
    requires LiveKept(sh, h, sh', h') && NullsKept(sh, sh')
    requires u < |h.calls| && KeepsOwn(sh, h, sh', h', u) && LocalInv(sh, h, u, l)
    ensures LocalInv(sh', h', u, l)
  {
    if !l.Idle? {
      assert AnchorGrows(sh.stacks[l.s], h.ss[l.s], sh'.stacks[l.s], h'.ss[l.s]);
    }
    if l.PushFill? || l.PushRead? || l.PushLink? || l.PushCas? {
      assert SameNode(sh, h, sh', h', l.node);
    } else if l.PopReadData? || l.PopFree? {
      assert SameNode(sh, h, sh', h', l.top);
    }
  }

  lemma StackStable(sh: Shared, h: History, sh': Shared, h': History, s: nat)
    requires MemInv(sh, h) && MemInv(sh', h') && |sh.stacks| == |h.ss| <= |sh'.stacks| == |h'.ss|
    requires s < |sh.stacks| && StackInv(sh, h, s)
    requires sh'.stacks[s] == sh.stacks[s]
    requires h'.ss[s].chain == h.ss[s].chain && h'.ss[s].vals == h.ss[s].vals && h'.ss[s].ops == h.ss[s].ops
    requires LiveKept(sh, h, sh', h')
    ensures StackInv(sh', h', s)
  {
    hide Replay, Pops;
    var g := h.ss[s];
    forall i | 0 <= i < |g.chain| ensures SameNode(sh, h, sh', h', g.chain[i]) {
      assert h.own[g.chain[i]] == Live(s, i);
    }
  }

  ghost predicate AllOwned(m: Machine, h: History)
    requires Shaped(m, h)
  {
    forall a | a in h.own :: OwnInv(m, h, a)
  }

  /** A step of thread t on stack s that leaves all other stacks and threads alone. */
  ghost predicate StepFrame(m: Machine, h: History, m': Machine, h': History, t: nat, s: nat)
    requires Shaped(m, h) && Shaped(m', h') && |m.locals| == |m'.locals| && |m.sh.stacks| <= |m'.sh.stacks|
  {
    && MemInv(m'.sh, h')
    && Grows(m.sh, h, m'.sh, h') && LiveKept(m.sh, h, m'.sh, h') && NullsKept(m.sh, m'.sh)
    && (forall r | 0 <= r < |m.sh.stacks| && r != s :: m'.sh.stacks[r] == m.sh.stacks[r] && h'.ss[r] == h.ss[r])
    && (forall u | 0 <= u < |m.locals| && u != t :: KeepsOwn(m.sh, h, m'.sh, h', u) && m'.locals[u] == m.locals[u])
  }

  lemma Others(m: Machine, h: History, m': Machine, h': History, t: nat, s: nat)
    requires Inv(m, h) && Shaped(m', h') && |m.locals| == |m'.locals| && |m.sh.stacks| <= |m'.sh.stacks|
    requires StepFrame(m, h, m', h', t, s)
    ensures forall r | 0 <= r < |m.sh.stacks| && r != s :: StackInv(m'.sh, h', r)
    ensures forall u | 0 <= u < |m.locals| && u != t :: LocalInv(m'.sh, h', u, m'.locals[u])
  {
    hide MemInv, StackInv, OwnInv, LocalInv, LiveKept, NullsKept, SameNode, KeepsOwn;
    forall r | 0 <= r < |m.sh.stacks| && r != s ensures StackInv(m'.sh, h', r) {
      StackStable(m.sh, h, m'.sh, h', r);
    }
    forall u | 0 <= u < |m.locals| && u != t ensures LocalInv(m'.sh, h', u, m'.locals[u]) {
      LocalStable(m.sh, h, m'.sh, h', u, m.locals[u]);
    }
  }

  lemma Assemble(m: Machine, h: History, m': Machine, h': History, t: nat, s: nat)
    requires Inv(m, h) && Shaped(m', h') && |m.locals| == |m'.locals| && |m.sh.stacks| == |m'.sh.stacks|
    requires t < |m.locals| && StepFrame(m, h, m', h', t, s)
    requires s < |m.sh.stacks| && StackInv(m'.sh, h', s) && AllOwned(m', h') && LocalInv(m'.sh, h', t, m'.locals[t])
    ensures Inv(m', h')
  {
    hide MemInv, StackInv, OwnInv, LocalInv, Grows, LiveKept, NullsKept, KeepsOwn;
    Others(m, h, m', h', t, s);
  }

  // ----- steps that only read shared memory -----

  /** Steps that change nothing shared: reads, failed comparisons, and the read of an empty
      stack, which takes effect at once. */
  ghost predicate ReadOnly(sh: Shared, l: Local)
    requires !l.Idle? && l.s < |sh.stacks|
  {
    l.PushRead? || l.PopReadIdx? || l.PopReadTop? || l.PopReadNext? || l.PopReadData?
    || (l.PushCas? && sh.stacks[l.s].top != l.bkTop)
    || (l.PopCas? && !(sh.stacks[l.s].top == l.top && sh.stacks[l.s].uniqIdx == l.idx))
  }

  lemma ReadFrame(m: Machine, h: History, t: nat)
    requires Inv(m, h) && CanRun(m, t) && ReadOnly(m.sh, m.locals[t])
    ensures var m', h' := RunThread(m, t), TrackRun(m.sh, h, t, m.locals[t]);
      && m'.sh == m.sh && h'.own == h.own && Shaped(m', h') && StepFrame(m, h, m', h', t, m.locals[t].s)
      && (forall s | 0 <= s < |h.ss| :: h'.ss[s].chain == h.ss[s].chain && h'.ss[s].vals == h.ss[s].vals
                                        && h'.ss[s].wins == h.ss[s].wins)
      && (forall s | 0 <= s < |h.ss| :: h'.ss[s].ops == h.ss[s].ops
            || (m.locals[t].PopReadTop? && m.locals[t].s == s && m.sh.stacks[s].top == m.sh.stacks[s].dummy
                && h'.ss[s].ops == h.ss[s].ops + [FoundEmpty]))
  {
    hide StackInv, OwnInv, LocalInv;
  }

  /** The top is the dummy exactly when the stack is empty. */
  lemma TopFacts(m: Machine, h: History, s: nat)
    requires Inv(m, h) && s < |m.sh.stacks|
    ensures var w, g := m.sh.stacks[s], h.ss[s];
      && |g.chain| == |g.vals| + 1
      && w.top in m.sh.next && w.dummy in m.sh.next && h.own[w.top] == Live(s, |g.chain| - 1)
      && h.own[w.dummy] == Live(s, 0) && w.top == g.chain[|g.chain| - 1]
      && (w.top == w.dummy <==> g.vals == [])
      && (m.sh.next[w.top] == 0 <==> w.top == w.dummy)
      && (g.vals != [] ==> m.sh.next[w.top] == g.chain[|g.chain| - 2]
                           && m.sh.data[w.top] == g.vals[|g.vals| - 1])
  {
    hide OwnInv, LocalInv, Replay, Pops;
    assert StackInv(m.sh, h, s);
    var chain := h.ss[s].chain;
    if |chain| > 1 {
      assert m.sh.next[chain[|chain| - 1]] == chain[|chain| - 2];
    }
  }

  lemma ReadStack(m: Machine, h: History, t: nat)
    requires Inv(m, h) && CanRun(m, t) && ReadOnly(m.sh, m.locals[t])
    requires MemInv(m.sh, TrackRun(m.sh, h, t, m.locals[t]))
    ensures |TrackRun(m.sh, h, t, m.locals[t]).ss| == |m.sh.stacks|
    ensures StackInv(m.sh, TrackRun(m.sh, h, t, m.locals[t]), m.locals[t].s)
  {
    hide OwnInv, LocalInv, Replay, Pops;
    var s := m.locals[t].s;
    assert StackInv(m.sh, h, s);
    TopFacts(m, h, s);
    ReplayPush(h.ss[s].ops, FoundEmpty);
    PopsPush(h.ss[s].ops, FoundEmpty);
  }

  lemma ReadLocal(m: Machine, h: History, t: nat)
    requires Inv(m, h) && CanRun(m, t) && ReadOnly(m.sh, m.locals[t])
    requires MemInv(m.sh, TrackRun(m.sh, h, t, m.locals[t]))
    ensures |TrackRun(m.sh, h, t, m.locals[t]).ss| == |m.sh.stacks|
    ensures LocalInv(m.sh, TrackRun(m.sh, h, t, m.locals[t]), t, RunThread(m, t).locals[t])
  {
    hide OwnInv, StackInv;
    TopFacts(m, h, m.locals[t].s);
    assert LocalInv(m.sh, h, t, m.locals[t]);
  }

  lemma ReadOwned(m: Machine, h: History, t: nat)
    requires Inv(m, h) && CanRun(m, t) && ReadOnly(m.sh, m.locals[t])
    requires !Goto(m.sh, m.locals[t]).Faulted?
    ensures Shaped(RunThread(m, t), TrackRun(m.sh, h, t, m.locals[t]))
    ensures AllOwned(RunThread(m, t), TrackRun(m.sh, h, t, m.locals[t]))
  {
    hide LocalInv, StackInv, MemInv;
    var m', h' := RunThread(m, t), TrackRun(m.sh, h, t, m.locals[t]);
    forall a | a in h'.own ensures OwnInv(m', h', a) {
      assert OwnInv(m, h, a);
    }
  }

  lemma ReadStep(m: Machine, h: History, t: nat)
    requires Inv(m, h) && CanRun(m, t) && ReadOnly(m.sh, m.locals[t])
    ensures Inv(RunThread(m, t), TrackRun(m.sh, h, t, m.locals[t]))
  {
    hide OwnInv, StackInv, MemInv, AllOwned, StepFrame, TrackRun;
    ReadFrame(m, h, t);
    FrameMemory(m, h, RunThread(m, t), TrackRun(m.sh, h, t, m.locals[t]), t, m.locals[t].s);
    ReadStack(m, h, t);
    ReadLocal(m, h, t);
    ReadOwned(m, h, t);
    Assemble(m, h, RunThread(m, t), TrackRun(m.sh, h, t, m.locals[t]), t, m.locals[t].s);
  }

  lemma FrameMemory(m: Machine, h: History, m': Machine, h': History, t: nat, s: nat)
    requires Shaped(m, h) && Shaped(m', h') && |m.locals| == |m'.locals| && |m.sh.stacks| <= |m'.sh.stacks|
    requires StepFrame(m, h, m', h', t, s)
    ensures MemInv(m'.sh, h')
  {
  }

  // ----- steps on a node the thread owns -----

  /** Thread t rewrites the fields, role or pool membership of one node it owns privately,
      or takes one from the pool. */
  ghost predicate PrivateStep(m: Machine, h: History, m': Machine, h': History, t: nat, node: nat)
    requires t < |m.locals|
  {
    && m'.sh.stacks == m.sh.stacks && h'.ss == h.ss
    && node in h.own && (OwnedBy(h.own[node], t) || h.own[node].Pooled?)
    && node in m.sh.next && node in m.sh.data
    && m'.sh.next.Keys == m.sh.next.Keys && m'.sh.data.Keys == m.sh.data.Keys && h'.own.Keys == h.own.Keys
    && (forall a | a in m.sh.next && a != node :: m'.sh.next[a] == m.sh.next[a])
    && (forall a | a in m.sh.data && a != node :: m'.sh.data[a] == m.sh.data[a])
    && (forall a | a in h.own && a != node :: h'.own[a] == h.own[a])
    && !h'.own[node].Live? && (m'.sh.next[node] == m.sh.next[node] || m'.sh.next[node] != 0)
    && |h'.calls| == |h.calls| == |m.locals|
    && (forall u | 0 <= u < |h.calls| && u != t :: h'.calls[u] == h.calls[u])
    && m'.locals == m.locals[t := if t < |m'.locals| then m'.locals[t] else Idle]
  }

  lemma PrivateFrame(m: Machine, h: History, m': Machine, h': History, t: nat, s: nat, node: nat)
    requires Inv(m, h) && t < |m.locals| && PrivateStep(m, h, m', h', t, node) && MemInv(m'.sh, h')
    ensures Shaped(m', h') && StepFrame(m, h, m', h', t, s)
  {
    hide StackInv, OwnInv, LocalInv;
    forall s | 0 <= s < |m.sh.stacks| ensures m.sh.stacks[s].dummy != node {
      TopFacts(m, h, s);
    }
  }

  lemma PrivateOwned(m: Machine, h: History, m': Machine, h': History, t: nat, node: nat)
    requires Shaped(m, h) && AllOwned(m, h) && t < |m.locals| && PrivateStep(m, h, m', h', t, node)
    requires Shaped(m', h') && OwnInv(m', h', node)
    requires forall a | a in h.own && OwnedBy(h.own[a], t) :: a == node
    ensures AllOwned(m', h')
  {
    forall a | a in h'.own ensures OwnInv(m', h', a) {
      assert OwnInv(m, h, a);
    }
  }

  lemma OwnsOne(m: Machine, h: History, t: nat, a: nat)
    requires Inv(m, h) && a in h.own && OwnedBy(h.own[a], t)
    ensures t < |m.locals| && !AtRest(m.locals[t])
    ensures m.locals[t].PopReadData? || m.locals[t].PopFree? ==> a == m.locals[t].top
    ensures m.locals[t].PushFill? || m.locals[t].PushRead? || m.locals[t].PushLink? || m.locals[t].PushCas? ==>
      a == m.locals[t].node
  {
    hide LocalInv, StackInv, MemInv;
    assert OwnInv(m, h, a);
  }

  lemma PrivateAssemble(m: Machine, h: History, m': Machine, h': History, t: nat, s: nat, node: nat)
    requires Inv(m, h) && t < |m.locals| && PrivateStep(m, h, m', h', t, node) && s < |m.sh.stacks|
    requires MemInv(m'.sh, h') && Shaped(m', h') && OwnInv(m', h', node)
    requires forall a | a in h.own && OwnedBy(h.own[a], t) :: a == node
    requires LocalInv(m'.sh, h', t, m'.locals[t])
    ensures Inv(m', h')
  {
    hide LocalInv, StackInv, OwnInv, MemInv;
    PrivateFrame(m, h, m', h', t, s, node);
    PrivateOwned(m, h, m', h', t, node);
    StackStable(m.sh, h, m'.sh, h', s);
    Assemble(m, h, m', h', t, s);
  }

  lemma OwnShape(m: Machine, h: History, t: nat)
    requires Inv(m, h) && CanRun(m, t)
    requires m.locals[t].PushFill? || m.locals[t].PushLink? || m.locals[t].PopFree?
    ensures var l, m', h' := m.locals[t], RunThread(m, t), TrackRun(m.sh, h, t, m.locals[t]);
      && MemInv(m'.sh, h')
      && PrivateStep(m, h, m', h', t, if l.PopFree? then l.top else l.node)
      && Shaped(m', h') && OwnInv(m', h', if l.PopFree? then l.top else l.node)
  {
    hide StackInv;
    assert LocalInv(m.sh, h, t, m.locals[t]);
  }

  lemma OwnLocal(m: Machine, h: History, t: nat)
    requires Inv(m, h) && CanRun(m, t)
    requires m.locals[t].PushFill? || m.locals[t].PushLink? || m.locals[t].PopFree?
    requires MemInv(RunThread(m, t).sh, TrackRun(m.sh, h, t, m.locals[t]))
    ensures LocalInv(RunThread(m, t).sh, TrackRun(m.sh, h, t, m.locals[t]), t, RunThread(m, t).locals[t])
  {
    hide StackInv, OwnInv;
    assert LocalInv(m.sh, h, t, m.locals[t]);
  }

  lemma OwnStep(m: Machine, h: History, t: nat)
    requires Inv(m, h) && CanRun(m, t)
    requires m.locals[t].PushFill? || m.locals[t].PushLink? || m.locals[t].PopFree?
    ensures Inv(RunThread(m, t), TrackRun(m.sh, h, t, m.locals[t]))
  {
    hide StackInv, LocalInv, OwnInv, MemInv, PrivateStep;
    var l := m.locals[t];
    var node := if l.PopFree? then l.top else l.node;
    OwnShape(m, h, t);
    OwnLocal(m, h, t);
    forall a | a in h.own && OwnedBy(h.own[a], t) ensures a == node {
      OwnsOne(m, h, t, a);
    }
    PrivateAssemble(m, h, RunThread(m, t), TrackRun(m.sh, h, t, l), t, l.s, node);
  }

  lemma RestingOwnsNothing(m: Machine, h: History, t: nat)
    requires Inv(m, h) && t < |m.locals| && AtRest(m.locals[t])
    ensures forall a | a in h.own :: !OwnedBy(h.own[a], t)
  {
    hide LocalInv, StackInv, MemInv;
    forall a | a in h.own ensures !OwnedBy(h.own[a], t) {
      assert OwnInv(m, h, a);
    }
  }

  lemma CallPushStep(m: Machine, h: History, e: Event)
    requires Inv(m, h) && Enabled(m, e) && e.CallPush?
    ensures Inv(Next(m, e), Track(m, h, e))
  {
    hide StackInv, LocalInv;
    RestingOwnsNothing(m, h, e.t);
    CallPushLocal(m, h, e);
    PrivateAssemble(m, h, Next(m, e), Track(m, h, e), e.t, e.s, e.node);
  }

  lemma CallPushLocal(m: Machine, h: History, e: Event)
    requires Inv(m, h) && Enabled(m, e) && e.CallPush?
    ensures MemInv(Next(m, e).sh, Track(m, h, e))
    ensures LocalInv(Next(m, e).sh, Track(m, h, e), e.t, Next(m, e).locals[e.t])
  {
    hide StackInv, OwnInv;
  }

  lemma CallPopStep(m: Machine, h: History, e: Event)
    requires Inv(m, h) && Enabled(m, e) && e.CallPop?
    ensures Inv(Next(m, e), Track(m, h, e))
  {
    hide StackInv, OwnInv;
    var m', h' := Next(m, e), Track(m, h, e);
    assert AllOwned(m', h') by {
      forall a | a in h'.own ensures OwnInv(m', h', a) {
        CallPopOwned(m, h, e, a);
      }
    }
    assert StepFrame(m, h, m', h', e.t, e.s);
    StackStable(m.sh, h, m'.sh, h', e.s);
    Assemble(m, h, m', h', e.t, e.s);
  }

  lemma CallPopOwned(m: Machine, h: History, e: Event, a: nat)
    requires Inv(m, h) && Enabled(m, e) && e.CallPop? && a in h.own
    ensures Shaped(Next(m, e), Track(m, h, e)) && OwnInv(Next(m, e), Track(m, h, e), a)
  {
    hide StackInv, LocalInv, MemInv;
    assert OwnInv(m, h, a);
  }

  // ----- the compare-and-swaps -----

  /** Line 64 succeeds: whatever happened to bkTop in between, it is the top now, and the
      new node goes on top of it. */
  lemma PushMemory(m: Machine, h: History, t: nat)
    requires Inv(m, h) && CanRun(m, t) && m.locals[t].PushCas? && !ReadOnly(m.sh, m.locals[t])
    ensures var m', h' := RunThread(m, t), TrackRun(m.sh, h, t, m.locals[t]);
      Shaped(m', h') && StepFrame(m, h, m', h', t, m.locals[t].s)
  {
    hide StackInv, OwnInv;
    assert LocalInv(m.sh, h, t, m.locals[t]);
    hide LocalInv;
  }

  lemma PushOwned(m: Machine, h: History, t: nat)
    requires Inv(m, h) && CanRun(m, t) && m.locals[t].PushCas? && !ReadOnly(m.sh, m.locals[t])
    ensures Shaped(RunThread(m, t), TrackRun(m.sh, h, t, m.locals[t]))
    ensures AllOwned(RunThread(m, t), TrackRun(m.sh, h, t, m.locals[t]))
  {
    hide LocalInv, StackInv, MemInv;
    var m', h' := RunThread(m, t), TrackRun(m.sh, h, t, m.locals[t]);
    forall a | a in h'.own ensures OwnInv(m', h', a) {
      if a in h.own {
        assert OwnInv(m, h, a);
      }
    }
  }

  lemma PushStack(m: Machine, h: History, t: nat)
    requires Inv(m, h) && CanRun(m, t) && m.locals[t].PushCas? && !ReadOnly(m.sh, m.locals[t])
    requires MemInv(RunThread(m, t).sh, TrackRun(m.sh, h, t, m.locals[t]))
    ensures |RunThread(m, t).sh.stacks| == |TrackRun(m.sh, h, t, m.locals[t]).ss|
    ensures StackInv(RunThread(m, t).sh, TrackRun(m.sh, h, t, m.locals[t]), m.locals[t].s)
  {
    hide OwnInv, Replay, Pops;
    var l := m.locals[t];
    assert LocalInv(m.sh, h, t, l);
    assert StackInv(m.sh, h, l.s);
    ReplayPush(h.ss[l.s].ops, Pushed(l.val));
    PopsPush(h.ss[l.s].ops, Pushed(l.val));
  }

  lemma PushStep(m: Machine, h: History, t: nat)
    requires Inv(m, h) && CanRun(m, t) && m.locals[t].PushCas? && !ReadOnly(m.sh, m.locals[t])
    ensures Inv(RunThread(m, t), TrackRun(m.sh, h, t, m.locals[t]))
  {
    hide StackInv, OwnInv, MemInv, StepFrame, AllOwned;
    PushMemory(m, h, t);
    FrameMemory(m, h, RunThread(m, t), TrackRun(m.sh, h, t, m.locals[t]), t, m.locals[t].s);
    PushOwned(m, h, t);
    PushStack(m, h, t);
    assert LocalInv(m.sh, h, t, m.locals[t]);
    Assemble(m, h, RunThread(m, t), TrackRun(m.sh, h, t, m.locals[t]), t, m.locals[t].s);
  }

  /** Line 84 is about to succeed: pNextTop is the current successor of the current top. */
  lemma PopFacts(m: Machine, h: History, t: nat)
    requires Inv(m, h) && CanRun(m, t) && m.locals[t].PopCas? && !ReadOnly(m.sh, m.locals[t])
    ensures var l, g := m.locals[t], h.ss[m.locals[t].s];
      && |g.chain| == |g.vals| + 1 > 1
      && l.top == m.sh.stacks[l.s].top && l.top in m.sh.next && m.sh.next[l.top] == l.nxt != 0
      && h.own[l.top] == Live(l.s, |g.chain| - 1) && l.top == g.chain[|g.chain| - 1]
      && l.nxt == g.chain[|g.chain| - 2] && m.sh.data[l.top] == g.vals[|g.vals| - 1]
      && h.calls[t].did == Not && Paid(h, l.s, t)
  {
    hide StackInv, OwnInv;
    assert LocalInv(m.sh, h, t, m.locals[t]);
    TopFacts(m, h, m.locals[t].s);
  }

  lemma PopMemory(m: Machine, h: History, t: nat)
    requires Inv(m, h) && CanRun(m, t) && m.locals[t].PopCas? && !ReadOnly(m.sh, m.locals[t])
    ensures var m', h' := RunThread(m, t), TrackRun(m.sh, h, t, m.locals[t]);
      Shaped(m', h') && StepFrame(m, h, m', h', t, m.locals[t].s)
  {
    hide StackInv, OwnInv, LocalInv;
    PopFacts(m, h, t);
  }

  lemma PopOwned(m: Machine, h: History, t: nat)
    requires Inv(m, h) && CanRun(m, t) && m.locals[t].PopCas? && !ReadOnly(m.sh, m.locals[t])
    ensures Shaped(RunThread(m, t), TrackRun(m.sh, h, t, m.locals[t]))
    ensures AllOwned(RunThread(m, t), TrackRun(m.sh, h, t, m.locals[t]))
  {
    hide LocalInv, StackInv, MemInv;
    PopFacts(m, h, t);
    var m', h' := RunThread(m, t), TrackRun(m.sh, h, t, m.locals[t]);
    forall a | a in h'.own ensures OwnInv(m', h', a) {
      if a in h.own {
        assert OwnInv(m, h, a);
      }
    }
  }

  lemma PopStack(m: Machine, h: History, t: nat)
    requires Inv(m, h) && CanRun(m, t) && m.locals[t].PopCas? && !ReadOnly(m.sh, m.locals[t])
    requires MemInv(RunThread(m, t).sh, TrackRun(m.sh, h, t, m.locals[t]))
    ensures |RunThread(m, t).sh.stacks| == |TrackRun(m.sh, h, t, m.locals[t]).ss|
    ensures StackInv(RunThread(m, t).sh, TrackRun(m.sh, h, t, m.locals[t]), m.locals[t].s)
  {
    hide OwnInv, LocalInv, Replay, Pops;
    PopFacts(m, h, t);
    var l := m.locals[t];
    assert StackInv(m.sh, h, l.s);
    var g := h.ss[l.s];
    ReplayPush(g.ops, Popped(g.vals[|g.vals| - 1]));
    PopsPush(g.ops, Popped(g.vals[|g.vals| - 1]));
  }

  lemma PopStep(m: Machine, h: History, t: nat)
    requires Inv(m, h) && CanRun(m, t) && m.locals[t].PopCas? && !ReadOnly(m.sh, m.locals[t])
    ensures Inv(RunThread(m, t), TrackRun(m.sh, h, t, m.locals[t]))
  {
    hide StackInv, OwnInv, MemInv, StepFrame, AllOwned;
    PopMemory(m, h, t);
    FrameMemory(m, h, RunThread(m, t), TrackRun(m.sh, h, t, m.locals[t]), t, m.locals[t].s);
    PopOwned(m, h, t);
    PopStack(m, h, t);
    PopFacts(m, h, t);
    Assemble(m, h, RunThread(m, t), TrackRun(m.sh, h, t, m.locals[t]), t, m.locals[t].s);
  }

  // ----- growth of memory -----

  lemma GrowFrame(m: Machine, h: History, e: Event)
    requires Inv(m, h) && Enabled(m, e) && (e.Construct? || e.Refill?)
    ensures Shaped(Next(m, e), Track(m, h, e))
    ensures StepFrame(m, h, Next(m, e), Track(m, h, e), |m.locals|, |m.sh.stacks|)
  {
    hide StackInv, OwnInv, LocalInv;
  }

  lemma GrowOwned(m: Machine, h: History, e: Event)
    requires Inv(m, h) && Enabled(m, e) && (e.Construct? || e.Refill?)
    ensures Shaped(Next(m, e), Track(m, h, e)) && AllOwned(Next(m, e), Track(m, h, e))
  {
    hide LocalInv, StackInv, MemInv;
    var m', h' := Next(m, e), Track(m, h, e);
    forall a | a in h'.own ensures OwnInv(m', h', a) {
      if a in h.own {
        assert OwnInv(m, h, a);
      }
    }
  }

  lemma NewStack(m: Machine, h: History, e: Event)
    requires Inv(m, h) && Enabled(m, e) && e.Construct?
    ensures |Next(m, e).sh.stacks| == |Track(m, h, e).ss| == |m.sh.stacks| + 1
    ensures MemInv(Next(m, e).sh, Track(m, h, e))
    ensures StackInv(Next(m, e).sh, Track(m, h, e), |m.sh.stacks|)
  {
    hide LocalInv, OwnInv;
    GrowFrame(m, h, e);
  }

  lemma GrowStep(m: Machine, h: History, e: Event)
    requires Inv(m, h) && Enabled(m, e) && (e.Construct? || e.Refill?)
    ensures Inv(Next(m, e), Track(m, h, e))
  {
    hide LocalInv, StackInv, OwnInv, MemInv;
    GrowFrame(m, h, e);
    GrowOwned(m, h, e);
    if e.Construct? {
      NewStack(m, h, e);
    }
    Others(m, h, Next(m, e), Track(m, h, e), |m.locals|, |m.sh.stacks|);
  }

  /** Every event of every thread, and every growth of memory, keeps the invariant. */
  lemma StepInv(m: Machine, h: History, e: Event)
    requires Inv(m, h) && Enabled(m, e)
    ensures Inv(Next(m, e), Track(m, h, e))
  {
    hide MemInv, StackInv, OwnInv, LocalInv, RunThread, TrackRun;
    if e.Run? {
      var l := m.locals[e.t];
      if ReadOnly(m.sh, l) {
        ReadStep(m, h, e.t);
      } else if l.PushCas? {
        PushStep(m, h, e.t);
      } else if l.PopCas? {
        PopStep(m, h, e.t);
      } else {
        OwnStep(m, h, e.t);
      }
    } else if e.CallPush? {
      CallPushStep(m, h, e);
    } else if e.CallPop? {
      CallPopStep(m, h, e);
    } else {
      GrowStep(m, h, e);
    }
  }
}
