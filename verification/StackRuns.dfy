/** Runs of the stacks under an arbitrary scheduler, and what every run guarantees. */
module StackRuns {
  import opened StackMachine
  import opened StackHistory
  import opened StackSteps

  /** es is a schedule that the machine with n threads can follow from its initial state. */
  predicate Legal(n: nat, es: seq<Event>)
    decreases |es|, 0
  {
    es == [] || (Legal(n, es[..|es| - 1]) && Enabled(After(n, es[..|es| - 1]), es[|es| - 1]))
  }

  function After(n: nat, es: seq<Event>): Machine
    requires Legal(n, es)
    decreases |es|, 1
  {
    if es == [] then Boot(n) else Next(After(n, es[..|es| - 1]), es[|es| - 1])
  }

  lemma TrackShaped(m: Machine, h: History, e: Event)
    requires Shaped(m, h) && Enabled(m, e)
    ensures Shaped(Next(m, e), Track(m, h, e))
  {
  }

  /** The history of a run. */
  ghost function HistoryOf(n: nat, es: seq<Event>): (h: History)
    requires Legal(n, es)
    decreases |es|, 2
    ensures Shaped(After(n, es), h)
  {
    hide Next, Track, Enabled;
    if es == [] then Begin(n)
    else
      var m, h := After(n, es[..|es| - 1]), HistoryOf(n, es[..|es| - 1]);
      TrackShaped(m, h, es[|es| - 1]);
      Track(m, h, es[|es| - 1])
  }

  /** Every reachable state meets the invariant with the history of its run. */
  lemma {:induction false} RunInv(n: nat, es: seq<Event>)
    requires Legal(n, es)
    ensures Inv(After(n, es), HistoryOf(n, es))
  {
    hide Inv, Next, Track, Enabled;
    if es == [] {
      BootInv(n);
    } else {
      var p, e := es[..|es| - 1], es[|es| - 1];
      RunInv(n, p);
      StepInv(After(n, p), HistoryOf(n, p), e);
    }
  }

  lemma LegalPush(n: nat, es: seq<Event>, e: Event)
    requires Legal(n, es) && Enabled(After(n, es), e)
    ensures Legal(n, es + [e]) && After(n, es + [e]) == Next(After(n, es), e)
  {
    assert (es + [e])[..|es + [e]| - 1] == es;
  }

  /** es goes on from es0 with steps of thread t only. */
  predicate OwnRun(es0: seq<Event>, es: seq<Event>, t: nat) {
    es0 <= es && forall i | |es0| <= i < |es| :: es[i] == Run(t)
  }

  /** Steps of one thread leave the history of all stacks but its own alone. */
  lemma {:induction false} OwnRunHistory(n: nat, es0: seq<Event>, es: seq<Event>, t: nat)
    requires Legal(n, es) && Legal(n, es0) && OwnRun(es0, es, t) && t < |After(n, es0).locals|
    requires !After(n, es0).locals[t].Idle?
    ensures t < |After(n, es).locals| && !After(n, es).locals[t].Idle?
    ensures After(n, es).locals[t].s == After(n, es0).locals[t].s
    ensures |HistoryOf(n, es).ss| == |HistoryOf(n, es0).ss|
    ensures forall r | 0 <= r < |HistoryOf(n, es0).ss| && r != After(n, es0).locals[t].s ::
      HistoryOf(n, es).ss[r] == HistoryOf(n, es0).ss[r]
    decreases |es|
  {
    if |es0| < |es| {
      var p := es[..|es| - 1];
      assert es[|es| - 1] == Run(t);
      OwnRunHistory(n, es0, p, t);
      TrackOthers(After(n, p), HistoryOf(n, p), t);
      hide Legal, RunThread, TrackRun;
    } else {
      assert es == es0;
    }
  }

  lemma TrackOthers(m: Machine, h: History, t: nat)
    requires Shaped(m, h) && CanRun(m, t)
    ensures var s, h' := m.locals[t].s, TrackRun(m.sh, h, t, m.locals[t]);
      && |h'.ss| == |h.ss| && (forall r | 0 <= r < |h.ss| && r != s :: h'.ss[r] == h.ss[r])
    ensures var l' := RunThread(m, t).locals[t]; !l'.Idle? && l'.s == m.locals[t].s
  {
    hide Effect;
  }

  lemma HistoryPush(n: nat, es: seq<Event>, e: Event)
    requires Legal(n, es) && Enabled(After(n, es), e) && Legal(n, es + [e])
    ensures HistoryOf(n, es + [e]) == Track(After(n, es), HistoryOf(n, es), e)
  {
    hide MemInv, StackInv, OwnInv, LocalInv, Track, Next;
    assert (es + [e])[..|es + [e]| - 1] == es;
  }

  lemma {:induction false} PrefixLegal(n: nat, es: seq<Event>, k: nat)
    requires Legal(n, es) && k <= |es|
    ensures Legal(n, es[..k]) && (k > 0 ==> Legal(n, es[..k - 1]) && Enabled(After(n, es[..k - 1]), es[k - 1]))
  {
    hide Enabled, Next;
    if k < |es| {
      PrefixLegal(n, es[..|es| - 1], k);
      assert es[..|es| - 1][..k] == es[..k];
      assert k > 0 ==> es[..|es| - 1][..k - 1] == es[..k - 1];
    } else {
      assert es[..k] == es;
    }
  }

  // ----- linearizability -----

  /** From node a down the links lead through nodes holding exactly vs, top last, and end at
      a node whose next is null. */
  ghost predicate Holds(sh: Shared, a: nat, vs: seq<Item>)
    decreases |vs|
  {
    && a in sh.next && a in sh.data
    && if vs == [] then sh.next[a] == 0
       else sh.next[a] != 0 && sh.data[a] == vs[|vs| - 1] && Holds(sh, sh.next[a], vs[..|vs| - 1])
  }

  /** The memory determines the contents. */
  lemma {:induction false} HoldsUnique(sh: Shared, a: nat, vs: seq<Item>, ws: seq<Item>)
    requires Holds(sh, a, vs) && Holds(sh, a, ws)
    ensures vs == ws
    decreases |vs|
  {
    if vs != [] && ws != [] {
      HoldsUnique(sh, sh.next[a], vs[..|vs| - 1], ws[..|ws| - 1]);
      assert vs == vs[..|vs| - 1] + [vs[|vs| - 1]];
      assert ws == ws[..|ws| - 1] + [ws[|ws| - 1]];
    }
  }

  lemma {:induction false} HoldsBelow(m: Machine, h: History, s: nat, i: nat)
    requires Inv(m, h) && s < |m.sh.stacks| && i < |h.ss[s].chain|
    ensures i <= |h.ss[s].vals| && Holds(m.sh, h.ss[s].chain[i], h.ss[s].vals[..i])
  {
    hide OwnInv, LocalInv, Replay, Pops;
    assert StackInv(m.sh, h, s);
    var g := h.ss[s];
    if i > 0 {
      assert m.sh.next[g.chain[i]] == g.chain[i - 1];
      assert m.sh.data[g.chain[i]] == g.vals[i - 1];
      HoldsBelow(m, h, s, i - 1);
      assert g.vals[..i][..i - 1] == g.vals[..i - 1];
    }
  }

  /** In every run the operations in their order of effect are a history of the atomic
      stack, and it leaves exactly what memory holds below the top. */
  lemma Linearizable(n: nat, es: seq<Event>, s: nat, contents: seq<Item>)
    requires Legal(n, es) && s < |After(n, es).sh.stacks|
    ensures var sh, g := After(n, es).sh, HistoryOf(n, es).ss[s];
      Holds(sh, sh.stacks[s].top, contents) <==> Replay(g.ops) == Legitimate(contents)
  {
    hide OwnInv, LocalInv, After, HistoryOf, Legal, Replay, Pops;
    var m, h := After(n, es), HistoryOf(n, es);
    RunInv(n, es);
    assert StackInv(m.sh, h, s);
    var g := h.ss[s];
    HoldsBelow(m, h, s, |g.chain| - 1);
    assert g.vals[..|g.vals|] == g.vals;
    if Holds(m.sh, m.sh.stacks[s].top, contents) {
      HoldsUnique(m.sh, m.sh.stacks[s].top, contents, g.vals);
    }
  }

  // ----- address reuse -----

  /** Whenever the comparison of line 84 succeeds, pNextTop is the current successor of the
      current top, however often that address was freed and pushed again before. */
  lemma PopSwapsToSuccessor(n: nat, es: seq<Event>, t: nat)
    requires Legal(n, es) && CanRun(After(n, es), t) && After(n, es).locals[t].PopCas?
    requires var sh, l := After(n, es).sh, After(n, es).locals[t];
      sh.stacks[l.s].top == l.top && sh.stacks[l.s].uniqIdx == l.idx
    ensures var sh, l := After(n, es).sh, After(n, es).locals[t];
      var vals := HistoryOf(n, es).ss[l.s].vals;
      && l.top in sh.next && sh.next[l.top] == l.nxt != 0
      && |vals| > 0 && l.top in sh.data && sh.data[l.top] == vals[|vals| - 1]
      && Holds(RunThread(After(n, es), t).sh, l.nxt, vals[..|vals| - 1])
  {
    hide OwnInv, StackInv, LocalInv, After, HistoryOf, Legal, Holds;
    var m, h := After(n, es), HistoryOf(n, es);
    RunInv(n, es);
    var l, g := m.locals[t], h.ss[m.locals[t].s];
    PopFacts(m, h, t);
    HoldsBelow(m, h, l.s, |g.chain| - 2);
    SameMemoryHolds(m.sh, RunThread(m, t).sh, l.nxt, g.vals[..|g.vals| - 1]);
  }

  lemma {:induction false} SameMemoryHolds(sh: Shared, sh': Shared, a: nat, vs: seq<Item>)
    requires sh'.next == sh.next && sh'.data == sh.data
    ensures Holds(sh, a, vs) <==> Holds(sh', a, vs)
    decreases |vs|
  {
    if vs != [] && a in sh.next {
      SameMemoryHolds(sh, sh', sh.next[a], vs[..|vs| - 1]);
    }
  }

  /** A Push whose untagged comparison succeeds, even after bkTop was popped and pushed again
      any number of times, puts exactly its value on top of what the stack holds now. */
  lemma UntaggedPushPrepends(n: nat, es: seq<Event>, t: nat, contents: seq<Item>)
    requires Legal(n, es) && CanRun(After(n, es), t) && After(n, es).locals[t].PushCas?
    requires var sh, l := After(n, es).sh, After(n, es).locals[t];
      sh.stacks[l.s].top == l.bkTop && Holds(sh, sh.stacks[l.s].top, contents)
    ensures var sh', l := RunThread(After(n, es), t).sh, After(n, es).locals[t];
      && Holds(sh', sh'.stacks[l.s].top, contents + [l.val])
      && sh'.stacks[l.s].uniqIdx == After(n, es).sh.stacks[l.s].uniqIdx
  {
    hide OwnInv, StackInv, After, HistoryOf, Legal, Holds;
    var m, h := After(n, es), HistoryOf(n, es);
    RunInv(n, es);
    var l := m.locals[t];
    assert LocalInv(m.sh, h, t, l);
    hide Inv, LocalInv;
    var sh' := RunThread(m, t).sh;
    SameMemoryHolds(m.sh, sh', l.bkTop, contents);
    HoldsOnTop(sh', l.node, l.val, contents);
  }

  lemma HoldsOnTop(sh: Shared, a: nat, val: Item, vs: seq<Item>)
    requires a in sh.next && a in sh.data && sh.next[a] != 0 && sh.data[a] == val
    requires Holds(sh, sh.next[a], vs)
    ensures Holds(sh, a, vs + [val])
  {
    assert (vs + [val])[..|vs + [val]| - 1] == vs;
  }

  /** No step of any run reads an address that is not a node. */
  lemma NeverFaults(n: nat, es: seq<Event>, t: nat)
    requires Legal(n, es) && t < |After(n, es).locals|
    ensures !After(n, es).locals[t].Faulted?
  {
    hide OwnInv, StackInv, After, HistoryOf, Legal;
    RunInv(n, es);
    assert LocalInv(After(n, es).sh, HistoryOf(n, es), t, After(n, es).locals[t]);
  }

  // ----- ownership -----

  /** Thread-private nodes: a Push's node before line 64 succeeds, a Pop's after line 84. */
  predicate HoldsNode(l: Local, a: nat) {
    ((l.PushFill? || l.PushRead? || l.PushLink? || l.PushCas?) && l.node == a)
    || ((l.PopReadData? || l.PopFree?) && l.top == a)
  }

  predicate OnStack(h: History, s: nat, i: nat, a: nat) {
    s < |h.ss| && i < |h.ss[s].chain| && h.ss[s].chain[i] == a
  }

  ghost predicate OnSomeStack(h: History, a: nat) {
    exists s: nat, i: nat :: OnStack(h, s, i, a)
  }

  /** Every node is in exactly one place: in the pool, private to one call, or at one
      position of one stack. */
  lemma OwnershipPartition(n: nat, es: seq<Event>, a: nat)
    requires Legal(n, es) && a in After(n, es).sh.next
    ensures var m, h := After(n, es), HistoryOf(n, es);
      && (a in m.sh.pool || (exists t :: 0 <= t < |m.locals| && HoldsNode(m.locals[t], a))
          || OnSomeStack(h, a))
      && (forall t | 0 <= t < |m.locals| && HoldsNode(m.locals[t], a) :: a !in m.sh.pool)
      && (forall s, i | OnStack(h, s, i, a) :: a !in m.sh.pool)
      && (forall t, s, i | 0 <= t < |m.locals| && HoldsNode(m.locals[t], a) :: !OnStack(h, s, i, a))
      && (forall t, u | 0 <= t < |m.locals| && 0 <= u < |m.locals|
            && HoldsNode(m.locals[t], a) && HoldsNode(m.locals[u], a) :: t == u)
      && (forall s, i, r, j | OnStack(h, s, i, a) && OnStack(h, r, j, a) :: s == r && i == j)
  {
    hide StackInv, LocalInv, After, HistoryOf, Legal;
    var m, h := After(n, es), HistoryOf(n, es);
    RunInv(n, es);
    assert OwnInv(m, h, a);
    forall t | 0 <= t < |m.locals| && HoldsNode(m.locals[t], a) ensures OwnedBy(h.own[a], t) {
      HolderOwns(m, h, t, a);
    }
    forall s, i | OnStack(h, s, i, a) ensures h.own[a] == Live(s, i) {
      PositionOwns(m, h, s, i);
    }
    if h.own[a].Live? {
      assert OnStack(h, h.own[a].s, h.own[a].i, a);
    } else if !h.own[a].Pooled? {
      assert HoldsNode(m.locals[h.own[a].t], a);
    }
  }

  lemma HolderOwns(m: Machine, h: History, t: nat, a: nat)
    requires Inv(m, h) && t < |m.locals| && HoldsNode(m.locals[t], a)
    ensures a in h.own && OwnedBy(h.own[a], t)
  {
    hide StackInv, OwnInv;
    assert LocalInv(m.sh, h, t, m.locals[t]);
  }

  lemma PositionOwns(m: Machine, h: History, s: nat, i: nat)
    requires Inv(m, h) && s < |h.ss| && i < |h.ss[s].chain|
    ensures h.ss[s].chain[i] in h.own && h.own[h.ss[s].chain[i]] == Live(s, i)
  {
    hide OwnInv, LocalInv, Replay, Pops;
    assert StackInv(m.sh, h, s);
  }

  function PushedValues(ops: seq<Op>): multiset<Item> {
    if ops == [] then multiset{}
    else PushedValues(ops[..|ops| - 1]) + (match ops[|ops| - 1] case Pushed(v) => multiset{v} case _ => multiset{})
  }

  function PoppedValues(ops: seq<Op>): multiset<Item> {
    if ops == [] then multiset{}
    else PoppedValues(ops[..|ops| - 1]) + (match ops[|ops| - 1] case Popped(v) => multiset{v} case _ => multiset{})
  }

  lemma PushBalance(pushed: multiset<Item>, vs: seq<Item>, popped: multiset<Item>, v: Item)
    requires pushed == multiset(vs) + popped
    ensures pushed + multiset{v} == multiset(vs + [v]) + popped
  {
    assert multiset(vs + [v]) == multiset(vs) + multiset{v};
  }

  lemma PopBalance(pushed: multiset<Item>, vs: seq<Item>, popped: multiset<Item>)
    requires |vs| > 0 && pushed == multiset(vs) + popped
    ensures pushed == multiset(vs[..|vs| - 1]) + (popped + multiset{vs[|vs| - 1]})
  {
    assert vs == vs[..|vs| - 1] + [vs[|vs| - 1]];
  }

  lemma {:induction false} ReplayBalance(ops: seq<Op>)
    requires Replay(ops).Legitimate?
    ensures PushedValues(ops) == multiset(Replay(ops).vals) + PoppedValues(ops)
  {
    if ops != [] {
      var p := ops[..|ops| - 1];
      ReplayBalance(p);
      var vs := Replay(p).vals;
      match ops[|ops| - 1]
      case Pushed(v) => PushBalance(PushedValues(p), vs, PoppedValues(p), v);
      case Popped(v) => PopBalance(PushedValues(p), vs, PoppedValues(p));
      case FoundEmpty =>
    }
  }
}
