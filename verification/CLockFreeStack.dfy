/** The stacks as the program runs them: fields updated in place, one method per shared
    access, and the operations with their retry loops. */
module CLockFreeStack {
  import opened StackMachine
  import opened StackHistory
  import opened StackSteps
  import opened StackRuns

  /** The addresses that a running thread dereferences are nodes. */
  lemma Dereferences(n: nat, es: seq<Event>, t: nat)
    requires Legal(n, es) && t < |After(n, es).locals|
    ensures var m, l := After(n, es), After(n, es).locals[t];
      && (!l.Idle? ==> l.s < |m.sh.stacks|)
      && (l.PushFill? || l.PushLink? ==> l.node in m.sh.next && l.node in m.sh.data)
      && (l.PopReadNext? || l.PopReadData? ==> l.top in m.sh.next && l.top in m.sh.data)
  {
    hide OwnInv, StackInv, After, HistoryOf, Legal;
    RunInv(n, es);
    assert LocalInv(After(n, es).sh, HistoryOf(n, es), t, After(n, es).locals[t]);
  }

  /** Line 84 about to succeed: the value popped is the one that line 86 will read. */
  lemma PopTakes(m: Machine, h: History, t: nat)
    requires Inv(m, h) && CanRun(m, t) && m.locals[t].PopCas? && !ReadOnly(m.sh, m.locals[t])
    ensures var l, h' := m.locals[t], Track(m, h, Run(t));
      && |h'.ss| == |h.ss| && l.s < |h.ss| && l.top in m.sh.data
      && h'.ss[l.s].ops == h.ss[l.s].ops + [Popped(m.sh.data[l.top])]
      && l.top in m.sh.next && l.nxt == m.sh.next[l.top]
  {
    hide StackInv, OwnInv, LocalInv;
    PopFacts(m, h, t);
  }

  /** Line 75 finds a stack empty exactly if line 76 will read a null pointer. */
  lemma TopRead(m: Machine, h: History, t: nat)
    requires Inv(m, h) && CanRun(m, t) && m.locals[t].PopReadTop?
    ensures var s, h' := m.locals[t].s, Track(m, h, Run(t));
      && |h'.ss| == |h.ss| && s < |h.ss| && m.sh.stacks[s].top in m.sh.next
      && h'.ss[s].ops == h.ss[s].ops + if m.sh.next[m.sh.stacks[s].top] == 0 then [FoundEmpty] else []
  {
    hide MemInv, StackInv, OwnInv, LocalInv;
    TopFacts(m, h, m.locals[t].s);
  }

  class LockFreeStacks {
    // The fields of each stack object, by stack.
    var stacks: seq<Anchor>
    // The shared pool, and the fields of all nodes by address.
    var pool: set<nat>
    var next: map<nat, nat>
    var data: map<nat, Item>
    // The threads.
    var locals: seq<Local>
    // The schedule so far.
    ghost var threads: nat
    ghost var log: seq<Event>

    ghost function State(): Machine
      reads this
    {
      Machine(Shared(next, data, pool, stacks), locals)
    }

    ghost predicate Valid()
      reads this
    {
      Legal(threads, log) && State() == After(threads, log)
    }

    ghost function Past(): (h: History)
      reads this
      requires Legal(threads, log)
      ensures Shaped(After(threads, log), h)
    {
      HistoryOf(threads, log)
    }

    /** Thread t has performed its next access, as the machine does. */
    twostate predicate Stepped(t: nat)
      reads this
    {
      && old(Valid()) && Valid() && threads == old(threads) && log == old(log) + [Run(t)]
      && CanRun(old(State()), t) && State() == RunThread(old(State()), t)
      && Past() == Track(old(State()), old(Past()), Run(t))
    }

    constructor (n: nat)
      ensures Valid() && threads == n && log == []
    {
      stacks, pool, next, data := [], {}, map[], map[];
      locals := seq(n, _ => Idle);
      threads, log := n, [];
    }

    /** Lines 42 to 44, on an object whose embedded dummy node is at a new address. */
    method Construct(dummy: nat, junk: Item)
      requires Valid() && Enabled(State(), Event.Construct(dummy, junk))
      modifies this
      ensures Valid() && threads == old(threads) && log == old(log) + [Event.Construct(dummy, junk)]
      ensures State() == Next(old(State()), Event.Construct(dummy, junk))
    {
      hide Legal, After;
      next, data := next[dummy := 0], data[dummy := junk];
      stacks := stacks + [Anchor(dummy, 0, dummy)];
      log := log + [Event.Construct(dummy, junk)];
      LegalPush(threads, old(log), Event.Construct(dummy, junk));
    }

    /** The pool obtains a new node. */
    method Refill(node: nat, junk: Item)
      requires Valid() && Enabled(State(), Event.Refill(node, junk))
      modifies this
      ensures Valid() && threads == old(threads) && log == old(log) + [Event.Refill(node, junk)]
      ensures State() == Next(old(State()), Event.Refill(node, junk))
    {
      hide Legal, After;
      next, data, pool := next[node := 0], data[node := junk], pool + {node};
      log := log + [Event.Refill(node, junk)];
      LegalPush(threads, old(log), Event.Refill(node, junk));
    }

    /** Line 58: Alloc takes a node out of the pool. */
    method BeginPush(t: nat, s: nat, val: Item, node: nat)
      requires Valid() && Enabled(State(), CallPush(t, s, val, node))
      modifies this
      ensures Valid() && threads == old(threads) && log == old(log) + [CallPush(t, s, val, node)]
      ensures State() == Next(old(State()), CallPush(t, s, val, node))
      ensures Past() == Track(old(State()), old(Past()), CallPush(t, s, val, node))
    {
      hide Legal, After, HistoryOf, Inv, Track;
      pool := pool - {node};
      locals := locals[t := PushFill(s, val, node)];
      log := log + [CallPush(t, s, val, node)];
      LegalPush(threads, old(log), CallPush(t, s, val, node));
      HistoryPush(threads, old(log), CallPush(t, s, val, node));
    }

    method BeginPop(t: nat, s: nat)
      requires Valid() && Enabled(State(), CallPop(t, s))
      modifies this
      ensures Valid() && threads == old(threads) && log == old(log) + [CallPop(t, s)]
      ensures State() == Next(old(State()), CallPop(t, s))
      ensures Past() == Track(old(State()), old(Past()), CallPop(t, s))
    {
      hide Legal, After, HistoryOf, Inv, Track;
      locals := locals[t := PopReadIdx(s)];
      log := log + [CallPop(t, s)];
      LegalPush(threads, old(log), CallPop(t, s));
      HistoryPush(threads, old(log), CallPop(t, s));
    }

    /** Line 59. */
    method WriteData(t: nat)
      requires Valid() && t < |locals| && locals[t].PushFill?
      modifies this
      ensures Stepped(t)
    {
      hide Legal, After, HistoryOf, Inv, Track;
      Dereferences(threads, log, t);
      var l := locals[t];
      data := data[l.node := l.val];
      locals := locals[t := PushRead(l.s, l.val, l.node)];
      log := log + [Run(t)];
      LegalPush(threads, old(log), Run(t));
      HistoryPush(threads, old(log), Run(t));
    }

    /** Line 62. */
    method ReadTop(t: nat)
      requires Valid() && t < |locals| && locals[t].PushRead?
      modifies this
      ensures Stepped(t)
    {
      hide Legal, After, HistoryOf, Inv, Track;
      Dereferences(threads, log, t);
      var l := locals[t];
      locals := locals[t := PushLink(l.s, l.val, l.node, stacks[l.s].top)];
      log := log + [Run(t)];
      LegalPush(threads, old(log), Run(t));
      HistoryPush(threads, old(log), Run(t));
    }

    /** Line 63. */
    method WriteNext(t: nat)
      requires Valid() && t < |locals| && locals[t].PushLink?
      modifies this
      ensures Stepped(t)
    {
      hide Legal, After, HistoryOf, Inv, Track;
      Dereferences(threads, log, t);
      var l := locals[t];
      next := next[l.node := l.bkTop];
      locals := locals[t := PushCas(l.s, l.val, l.node, l.bkTop)];
      log := log + [Run(t)];
      LegalPush(threads, old(log), Run(t));
      HistoryPush(threads, old(log), Run(t));
    }

    /** Line 64: the pointer alone is compared and swapped. */
    method SwapTop(t: nat)
      requires Valid() && t < |locals| && locals[t].PushCas?
      modifies this
      ensures Stepped(t)
    {
      hide Legal, After, HistoryOf, Inv, Track;
      Dereferences(threads, log, t);
      var l := locals[t];
      if stacks[l.s].top == l.bkTop {
        stacks := stacks[l.s := stacks[l.s].(top := l.node)];
        locals := locals[t := PushDone(l.s, l.val)];
      } else {
        locals := locals[t := PushRead(l.s, l.val, l.node)];
      }
      log := log + [Run(t)];
      LegalPush(threads, old(log), Run(t));
      HistoryPush(threads, old(log), Run(t));
    }

    /** Line 74. */
    method ReadIdx(t: nat)
      requires Valid() && t < |locals| && locals[t].PopReadIdx?
      modifies this
      ensures Stepped(t)
    {
      hide Legal, After, HistoryOf, Inv, Track;
      Dereferences(threads, log, t);
      var l := locals[t];
      locals := locals[t := PopReadTop(l.s, stacks[l.s].uniqIdx)];
      log := log + [Run(t)];
      LegalPush(threads, old(log), Run(t));
      HistoryPush(threads, old(log), Run(t));
    }

    /** Line 75. */
    method ReadTopToo(t: nat)
      requires Valid() && t < |locals| && locals[t].PopReadTop?
      modifies this
      ensures Stepped(t)
    {
      hide Legal, After, HistoryOf, Inv, Track;
      Dereferences(threads, log, t);
      var l := locals[t];
      locals := locals[t := PopReadNext(l.s, l.idx, stacks[l.s].top)];
      log := log + [Run(t)];
      LegalPush(threads, old(log), Run(t));
      HistoryPush(threads, old(log), Run(t));
    }

    /** Lines 76 to 82. */
    method ReadNext(t: nat)
      requires Valid() && t < |locals| && locals[t].PopReadNext?
      modifies this
      ensures Stepped(t)
    {
      hide Legal, After, HistoryOf, Inv, Track;
      Dereferences(threads, log, t);
      var l := locals[t];
      var pNextTop := next[l.top];
      locals := locals[t := if pNextTop == 0 then PopDone(l.s, Nothing) else PopCas(l.s, l.idx, l.top, pNextTop)];
      log := log + [Run(t)];
      LegalPush(threads, old(log), Run(t));
      HistoryPush(threads, old(log), Run(t));
    }

    /** Line 84: pointer and version are compared and swapped together. */
    method SwapUnique(t: nat)
      requires Valid() && t < |locals| && locals[t].PopCas?
      modifies this
      ensures Stepped(t)
    {
      hide Legal, After, HistoryOf, Inv, Track;
      Dereferences(threads, log, t);
      var l := locals[t];
      if stacks[l.s].top == l.top && stacks[l.s].uniqIdx == l.idx {
        stacks := stacks[l.s := stacks[l.s].(top := l.nxt, uniqIdx := l.idx + 1)];
        locals := locals[t := PopReadData(l.s, l.top)];
      } else {
        locals := locals[t := PopReadIdx(l.s)];
      }
      log := log + [Run(t)];
      LegalPush(threads, old(log), Run(t));
      HistoryPush(threads, old(log), Run(t));
    }

    /** Line 86. */
    method ReadData(t: nat)
      requires Valid() && t < |locals| && locals[t].PopReadData?
      modifies this
      ensures Stepped(t)
    {
      hide Legal, After, HistoryOf, Inv, Track;
      Dereferences(threads, log, t);
      var l := locals[t];
      locals := locals[t := PopFree(l.s, l.top, data[l.top])];
      log := log + [Run(t)];
      LegalPush(threads, old(log), Run(t));
      HistoryPush(threads, old(log), Run(t));
    }

    /** Lines 87 and 88. */
    method FreeNode(t: nat)
      requires Valid() && t < |locals| && locals[t].PopFree?
      modifies this
      ensures Stepped(t)
    {
      hide Legal, After, HistoryOf, Inv, Track;
      Dereferences(threads, log, t);
      var l := locals[t];
      pool := pool + {l.top};
      locals := locals[t := PopDone(l.s, Value(l.val))];
      log := log + [Run(t)];
      LegalPush(threads, old(log), Run(t));
      HistoryPush(threads, old(log), Run(t));
    }

    /** One access of thread t, whichever is next. */
    method Step(t: nat)
      requires Valid() && CanRun(State(), t)
      modifies this
      ensures Valid() && threads == old(threads) && log == old(log) + [Run(t)]
      ensures State() == RunThread(old(State()), t)
    {
      hide Legal, After, RunThread, Valid;
      match locals[t]
      case PushFill(_, _, _) => WriteData(t);
      case PushRead(_, _, _) => ReadTop(t);
      case PushLink(_, _, _, _) => WriteNext(t);
      case PushCas(_, _, _, _) => SwapTop(t);
      case PopReadIdx(_) => ReadIdx(t);
      case PopReadTop(_, _) => ReadTopToo(t);
      case PopReadNext(_, _, _) => ReadNext(t);
      case PopCas(_, _, _, _) => SwapUnique(t);
      case PopReadData(_, _) => ReadData(t);
      case PopFree(_, _, _) => FreeNode(t);
    }

    method Perform(e: Event)
      requires Valid() && Enabled(State(), e)
      modifies this
      ensures Valid() && threads == old(threads) && log == old(log) + [e]
      ensures State() == Next(old(State()), e)
    {
      hide Legal, After, RunThread, Valid;
      match e
      case Construct(dummy, junk) => Construct(dummy, junk);
      case Refill(node, junk) => Refill(node, junk);
      case CallPush(t, s, val, node) => BeginPush(t, s, val, node);
      case CallPop(t, s) => BeginPop(t, s);
      case Run(t) => Step(t);
    }

    /** Any schedule of any number of threads can be followed to its end, and what it leaves
        in the fields is the state the machine reaches. */
    method FollowSchedule(es: seq<Event>)
      requires Valid() && log == [] && Legal(threads, es)
      modifies this
      ensures Valid() && threads == old(threads) && log == es && State() == After(threads, es)
    {
      hide Legal, After, Next, Enabled;
      var k := 0;
      while k < |es|
        invariant 0 <= k <= |es| && Valid() && threads == old(threads) && log == es[..k]
      {
        PrefixLegal(threads, es, k + 1);
        assert es[..k + 1][..k] == es[..k];
        Perform(es[k]);
        assert es[..k + 1] == es[..k] + [es[k]];
        k := k + 1;
      }
      assert es[..|es|] == es;
    }

    // ----- the public operations, run without interference -----

    /** Memory holds exactly vs in stack s, top last. */
    ghost predicate Contains(s: nat, vs: seq<Item>)
      reads this
    {
      s < |stacks| && Holds(State().sh, stacks[s].top, vs)
    }

    /** What the operations that took effect since a state with history h0 have done to the
        contents. */
    lemma ContentsFollow(n: nat, es0: seq<Event>, s: nat, op: Op, vs: seq<Item>)
      requires Valid() && n == threads && Legal(n, es0) && s < |After(n, es0).sh.stacks|
      requires s < |stacks| && s < |HistoryOf(n, es0).ss| && s < |Past().ss|
      requires Past().ss[s].ops == HistoryOf(n, es0).ss[s].ops + [op]
      requires Holds(After(n, es0).sh, After(n, es0).sh.stacks[s].top, vs)
      ensures op.Pushed? ==> Contains(s, vs + [op.val])
      ensures op.Popped? ==> |vs| > 0 && op.val == vs[|vs| - 1] && Contains(s, vs[..|vs| - 1])
      ensures op.FoundEmpty? ==> vs == [] && Contains(s, [])
    {
      hide Legal, After, HistoryOf, OwnInv, LocalInv, Replay, Pops, Holds;
      var ops := HistoryOf(n, es0).ss[s].ops;
      Linearizable(n, es0, s, vs);
      ReplayPush(ops, op);
      RunInv(threads, log);
      assert StackInv(After(threads, log).sh, Past(), s);
      Linearizable(threads, log, s, Past().ss[s].vals);
    }

    /** The contents of other stacks. */
    lemma OthersContain(n: nat, es0: seq<Event>, c: Event, r: nat, vs: seq<Item>)
      requires Valid() && n == threads && Legal(n, es0) && (c.CallPush? || c.CallPop?) && Enabled(After(n, es0), c)
      requires OwnRun(es0 + [c], log, c.t) && r != c.s
      ensures r < |stacks| <==> r < |After(n, es0).sh.stacks|
      ensures r < |stacks| ==> (Holds(After(n, es0).sh, After(n, es0).sh.stacks[r].top, vs) <==> Contains(r, vs))
    {
      hide Legal, After, HistoryOf, Inv, Holds, Next, Track, Replay;
      LegalPush(n, es0, c);
      HistoryPush(n, es0, c);
      CallKeepsHistory(After(n, es0), HistoryOf(n, es0), c);
      OwnRunHistory(n, es0 + [c], log, c.t);
      if r < |stacks| {
        Linearizable(n, es0, r, vs);
        Linearizable(n, log, r, vs);
      }
    }

    /** Lines 62 to 64 without interference: the attempt succeeds. */
    method PushAttempt(t: nat) returns (linked: bool)
      requires Valid() && t < |locals| && locals[t].PushRead?
      modifies this
      ensures Valid() && threads == old(threads) && OwnRun(old(log), log, t) && linked
      ensures var l := old(locals[t]);
        && l.s < |old(stacks)| && pool == old(pool) && data == old(data)
        && next == old(next)[l.node := old(stacks)[l.s].top]
        && stacks == old(stacks)[l.s := old(stacks)[l.s].(top := l.node)]
        && locals == old(locals)[t := PushDone(l.s, l.val)]
        && l.s < |Past().ss| && l.s < |old(Past()).ss|
        && Past().ss[l.s].ops == old(Past()).ss[l.s].ops + [Pushed(l.val)]
    {
      hide Legal, After, HistoryOf, Inv;
      Dereferences(threads, log, t);
      ReadTop(t);
      Dereferences(threads, log, t);
      WriteNext(t);
      SwapTop(t);
      linked := locals[t].PushDone?;
    }

    /** Push, lines 55 to 65, without interference: its single attempt succeeds and puts val
        on top of whatever the stack held. */
    method Push(t: nat, s: nat, val: Item, node: nat) returns (attempts: nat)
      requires Valid() && CanCall(State(), t, s) && node in pool
      modifies this
      ensures Valid() && threads == old(threads) && OwnRun(old(log) + [CallPush(t, s, val, node)], log, t)
      ensures locals == old(locals)[t := PushDone(s, val)] && attempts == 1
      ensures pool == old(pool) - {node} && data == old(data)[node := val]
      ensures stacks == old(stacks)[s := old(stacks)[s].(top := node)]
      ensures next == old(next)[node := old(stacks)[s].top]
      ensures forall vs | old(Contains(s, vs)) :: Contains(s, vs + [val])
      ensures forall r: nat, vs :: r != s ==> (old(Contains(r, vs)) <==> Contains(r, vs))
    {
      hide Legal, After, HistoryOf, Holds, Inv;
      ghost var n, es0, m0, h0 := threads, log, State(), Past();
      BeginPush(t, s, val, node);
      Dereferences(threads, log, t);
      WriteData(t);
      attempts := 0;
      var linked := false;
      while !linked
        invariant Valid() && threads == n && t < |locals| && OwnRun(old(log) + [CallPush(t, s, val, node)], log, t)
        invariant pool == m0.sh.pool - {node} && data == m0.sh.data[node := val]
        invariant next == if linked then m0.sh.next[node := m0.sh.stacks[s].top] else m0.sh.next
        invariant !linked ==>
          && locals == m0.locals[t := PushRead(s, val, node)] && stacks == m0.sh.stacks
          && Past().ss == h0.ss && attempts == 0
        invariant linked ==>
          && attempts == 1 && stacks == m0.sh.stacks[s := m0.sh.stacks[s].(top := node)]
          && locals == m0.locals[t := PushDone(s, val)]
          && s < |Past().ss| && Past().ss[s].ops == h0.ss[s].ops + [Pushed(val)]
        decreases !linked
      {
        linked := PushAttempt(t);
        attempts := attempts + 1;
      }
      forall vs | old(Contains(s, vs)) ensures Contains(s, vs + [val]) {
        ContentsFollow(n, es0, s, Pushed(val), vs);
      }
      forall r: nat, vs | r != s ensures old(Contains(r, vs)) <==> Contains(r, vs) {
        OthersContain(n, es0, CallPush(t, s, val, node), r, vs);
      }
    }

    /** Of a Pop without interference, op being the operation it performs: its program point
        and its stack after lines 74 to 84. */
    ghost predicate Decided(t: nat, s: nat, op: Op, w: Anchor, locals0: seq<Local>, stacks0: seq<Anchor>)
      reads this
      requires t < |locals0| && s < |stacks0|
    {
      if op.FoundEmpty? then locals == locals0[t := PopDone(s, Nothing)] && stacks == stacks0
      else
        && w.top in data && w.top in next && op == Popped(data[w.top])
        && locals == locals0[t := PopReadData(s, w.top)]
        && stacks == stacks0[s := Anchor(next[w.top], w.uniqIdx + 1, w.dummy)]
    }

    /** Lines 74 to 82 without interference: three reads of one state of the stack. */
    method PopLook(t: nat)
      requires Valid() && t < |locals| && locals[t].PopReadIdx?
      modifies this
      ensures Valid() && threads == old(threads) && OwnRun(old(log), log, t)
      ensures State().sh == old(State()).sh
      ensures var s := old(locals[t].s);
        && s < |stacks| && s < |Past().ss| && s < |old(Past()).ss|
        && var w := stacks[s];
           && w.top in next && locals == old(locals)[t :=
                if next[w.top] == 0 then PopDone(s, Nothing) else PopCas(s, w.uniqIdx, w.top, next[w.top])]
           && Past().ss[s].ops == old(Past()).ss[s].ops + (if next[w.top] == 0 then [FoundEmpty] else [])
    {
      hide Legal, After, HistoryOf, Inv, TrackPopCas, TrackPushCas;
      Dereferences(threads, log, t);
      ReadIdx(t);
      RunInv(threads, log);
      TopRead(State(), Past(), t);
      ReadTopToo(t);
      Dereferences(threads, log, t);
      ReadNext(t);
    }

    /** Lines 74 to 84 without interference: the attempt finds the stack empty or succeeds. */
    method PopAttempt(t: nat) returns (over: bool, ghost op: Op)
      requires Valid() && t < |locals| && locals[t].PopReadIdx?
      modifies this
      ensures Valid() && threads == old(threads) && OwnRun(old(log), log, t) && over
      ensures next == old(next) && data == old(data) && pool == old(pool)
      ensures var s := old(locals[t].s);
        && s < |old(stacks)| && s < |Past().ss| && s < |old(Past()).ss|
        && old(stacks)[s].top in next
        && Past().ss[s].ops == old(Past()).ss[s].ops + [op]
        && Decided(t, s, op, old(stacks)[s], old(locals), old(stacks))
    {
      hide Legal, After, HistoryOf, Inv, Track;
      op := FoundEmpty;
      PopLook(t);
      if locals[t].PopCas? {
        RunInv(threads, log);
        PopTakes(State(), Past(), t);
        op := Popped(data[locals[t].top]);
        SwapUnique(t);
      }
      over := !locals[t].PopReadIdx?;
    }

    /** Lines 86 to 88. */
    method PopFinish(t: nat)
      requires Valid() && t < |locals| && locals[t].PopReadData?
      modifies this
      ensures Valid() && threads == old(threads) && OwnRun(old(log), log, t) && Past().ss == old(Past()).ss
      ensures next == old(next) && data == old(data) && stacks == old(stacks)
      ensures var l := old(locals[t]);
        && l.top in data && pool == old(pool) + {l.top}
        && locals == old(locals)[t := PopDone(l.s, Value(data[l.top]))]
    {
      hide Legal, After, HistoryOf, Inv, TrackPopCas, TrackPushCas;
      Dereferences(threads, log, t);
      ReadData(t);
      FreeNode(t);
    }

    /** Pop, lines 68 to 89, without interference: a single attempt finds the stack empty,
        or takes its top value and frees the node that held it. */
    method Pop(t: nat, s: nat) returns (ans: Answer, attempts: nat)
      requires Valid() && CanCall(State(), t, s)
      modifies this
      ensures Valid() && threads == old(threads) && OwnRun(old(log) + [CallPop(t, s)], log, t)
      ensures locals == old(locals)[t := PopDone(s, ans)]
      ensures next == old(next) && data == old(data) && attempts == 1
      ensures s < |old(stacks)| && old(stacks)[s].top in next
      ensures ans.Nothing? ==> pool == old(pool) && stacks == old(stacks)
      ensures ans.Value? ==>
        var w := old(stacks)[s];
        pool == old(pool) + {w.top} && stacks == old(stacks)[s := Anchor(next[w.top], w.uniqIdx + 1, w.dummy)]
      ensures forall vs | old(Contains(s, vs)) ::
        if vs == [] then ans == Nothing && Contains(s, [])
        else ans == Value(vs[|vs| - 1]) && Contains(s, vs[..|vs| - 1])
      ensures forall r: nat, vs :: r != s ==> (old(Contains(r, vs)) <==> Contains(r, vs))
    {
      hide Legal, After, HistoryOf, Holds, Inv, Effect, Goto;
      ghost var n, es0, m0, h0 := threads, log, State(), Past();
      BeginPop(t, s);
      ghost var op := FoundEmpty;
      var over := false;
      attempts := 0;
      while !over
        invariant Valid() && threads == n && t < |locals| && s < |m0.sh.stacks|
        invariant OwnRun(old(log) + [CallPop(t, s)], log, t)
        invariant next == m0.sh.next && data == m0.sh.data && pool == m0.sh.pool
        invariant !over ==>
          locals == m0.locals[t := PopReadIdx(s)] && stacks == m0.sh.stacks && Past().ss == h0.ss && attempts == 0
        invariant over ==>
          && attempts == 1 && s < |Past().ss| && Past().ss[s].ops == h0.ss[s].ops + [op]
          && m0.sh.stacks[s].top in next
          && Decided(t, s, op, m0.sh.stacks[s], m0.locals, m0.sh.stacks)
        decreases !over
      {
        over, op := PopAttempt(t);
        attempts := attempts + 1;
      }
      if locals[t].PopReadData? {
        PopFinish(t);
      }
      ans := locals[t].ans;
      forall vs | old(Contains(s, vs))
        ensures if vs == [] then ans == Nothing && Contains(s, [])
                else ans == Value(vs[|vs| - 1]) && Contains(s, vs[..|vs| - 1])
      {
        ContentsFollow(n, es0, s, op, vs);
      }
      forall r: nat, vs | r != s ensures old(Contains(r, vs)) <==> Contains(r, vs) {
        OthersContain(n, es0, CallPop(t, s), r, vs);
      }
    }

    /** One turn of the destructor's loop: the nodes that hold values and those in the pool
        stay the same together. */
    method DrainOne(t: nat, s: nat, ghost vs: seq<Item>) returns (popped: bool, ghost rest: seq<Item>)
      requires Valid() && CanCall(State(), t, s) && Contains(s, vs)
      modifies this
      ensures Valid() && threads == old(threads) && next == old(next) && data == old(data)
      ensures |stacks| == |old(stacks)| && |locals| == |old(locals)| && CanCall(State(), t, s) && Contains(s, rest)
      ensures forall u | 0 <= u < |locals| && u != t :: locals[u] == old(locals)[u]
      ensures forall r | 0 <= r < |stacks| && r != s :: stacks[r] == old(stacks)[r]
      ensures OwnCalls(old(log), log, t, s)
      ensures forall r: nat, ws :: r != s ==> (old(Contains(r, ws)) <==> Contains(r, ws))
      ensures stacks[s].dummy == old(stacks)[s].dummy
      ensures stacks[s].uniqIdx == old(stacks)[s].uniqIdx + (if popped then 1 else 0)
      ensures popped == (vs != [])
      ensures popped ==> rest == vs[..|vs| - 1] && |pool| == |old(pool)| + 1
      ensures !popped ==> rest == [] && pool == old(pool) && locals[t] == PopDone(s, Nothing)
      ensures NodesFrom(next, old(stacks)[s].top, |vs|) + old(pool) == NodesFrom(next, stacks[s].top, |rest|) + pool
    {
      hide Legal, After, HistoryOf, Holds, Inv, Next, RunThread;
      TopNotPooled(threads, log, s);
      var ans, _ := Pop(t, s);
      popped, rest := ans.Value?, if vs == [] then [] else vs[..|vs| - 1];
    }

    /** The destructor, lines 48 to 52, which pops until a Pop fails: one successful Pop for
        each value, after which the stack is empty and all its nodes are in the pool. */
    method Destroy(t: nat, s: nat) returns (pops: nat)
      requires Valid() && CanCall(State(), t, s)
      modifies this
      ensures Valid() && threads == old(threads) && locals == old(locals)[t := PopDone(s, Nothing)]
      ensures Contains(s, [])
      ensures forall vs | old(Contains(s, vs)) ::
        pops == |vs| && pool == old(pool) + NodesFrom(next, old(stacks[s].top), |vs|)
        && |pool| == old(|pool|) + |vs|
      ensures next == old(next) && data == old(data) && OwnCalls(old(log), log, t, s)
      ensures s < |old(stacks)|
      ensures var w := old(stacks)[s]; stacks == old(stacks)[s := Anchor(w.dummy, w.uniqIdx + pops, w.dummy)]
      ensures forall r: nat, vs :: r != s ==> (old(Contains(r, vs)) <==> Contains(r, vs))
    {
      hide Legal, After, HistoryOf, Holds, Inv, Next;
      ghost var next0, w0, pool0, locals0, stacks0 := next, stacks[s], pool, locals, stacks;
      ghost var vs0 := SomeContents(s);
      ghost var vs := vs0;
      var popped := true;
      pops := 0;
      while popped
        invariant Valid() && threads == old(threads) && next == next0 && data == old(data)
        invariant |locals| == |locals0| && |stacks| == |stacks0| && CanCall(State(), t, s)
        invariant forall u | 0 <= u < |locals| && u != t :: locals[u] == locals0[u]
        invariant OwnCalls(old(log), log, t, s)
        invariant stacks == stacks0[s := stacks[s]]
        invariant stacks[s].dummy == w0.dummy && stacks[s].uniqIdx == w0.uniqIdx + pops
        invariant forall r: nat, ws :: r != s ==> (old(Contains(r, ws)) <==> Contains(r, ws))
        invariant Contains(s, vs) && pops + |vs| == |vs0| && |pool| == |pool0| + pops
        invariant NodesFrom(next, w0.top, |vs0|) + pool0 == NodesFrom(next, stacks[s].top, |vs|) + pool
        invariant !popped ==> vs == [] && locals[t] == PopDone(s, Nothing)
        decreases popped, |vs|
      {
        popped, vs := DrainOne(t, s, vs);
        if popped {
          pops := pops + 1;
        }
      }
      RunInv(threads, log);
      EmptyAtDummy(State(), Past(), s);
      forall ws | old(Contains(s, ws)) ensures ws == vs0 {
        HoldsUnique(old(State()).sh, w0.top, ws, vs0);
      }
    }

    lemma SomeContents(s: nat) returns (vs: seq<Item>)
      requires Valid() && s < |stacks|
      ensures Contains(s, vs)
    {
      hide Legal, After, HistoryOf, OwnInv, LocalInv, MemInv, Replay, Pops, Holds;
      vs := Past().ss[s].vals;
      RunInv(threads, log);
      assert StackInv(State().sh, Past(), s);
      Linearizable(threads, log, s, vs);
    }
  }

  lemma CallKeepsHistory(m: Machine, h: History, c: Event)
    requires Shaped(m, h) && Enabled(m, c) && (c.CallPush? || c.CallPop?)
    ensures Track(m, h, c).ss == h.ss && c.t < |Next(m, c).locals|
    ensures !Next(m, c).locals[c.t].Idle? && Next(m, c).locals[c.t].s == c.s
  {
  }

  /** The nodes that hold the topmost k values from node a down. */
  ghost function NodesFrom(next: map<nat, nat>, a: nat, k: nat): set<nat>
    decreases k
  {
    if k == 0 || a !in next then {} else {a} + NodesFrom(next, next[a], k - 1)
  }

  /** An empty stack is its dummy. */
  lemma EmptyAtDummy(m: Machine, h: History, s: nat)
    requires Inv(m, h) && s < |m.sh.stacks| && Holds(m.sh, m.sh.stacks[s].top, [])
    ensures m.sh.stacks[s].top == m.sh.stacks[s].dummy
  {
    hide Inv;
    TopFacts(m, h, s);
  }

  /** es goes on from es0 with calls of Pop of thread t on stack s and its steps only. */
  predicate OwnCalls(es0: seq<Event>, es: seq<Event>, t: nat, s: nat) {
    es0 <= es && forall i | |es0| <= i < |es| :: es[i] == Run(t) || es[i] == CallPop(t, s)
  }

  lemma TopNotPooled(n: nat, es: seq<Event>, s: nat)
    requires Legal(n, es) && s < |After(n, es).sh.stacks|
    ensures After(n, es).sh.stacks[s].top in After(n, es).sh.next
    ensures After(n, es).sh.stacks[s].top !in After(n, es).sh.pool
  {
    hide Legal, After, HistoryOf, OwnInv, LocalInv, StackInv;
    RunInv(n, es);
    TopFacts(After(n, es), HistoryOf(n, es), s);
  }
}
