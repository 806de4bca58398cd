/** The queues as the program stores them: 64-bit head and tail words with a 17-bit tag, mask,
    shift and bitwise or at every access, fields updated in place. Each method is one
    shared access; what it does to the words is the packed image of the step of
    QueueMachine, whose versions do not wrap. */
module CLockFreeQueue {
  import opened Bits
  import opened TaggedWord
  import opened QueueMachine
  import opened QueueHistory
  import opened QueueSteps
  import opened QueueRuns
  import opened QueueTheorems
  import opened QueueAccounting
  import opened QueueOrder
  import opened QueueSolo
  import opened QueueSoloFrame
  import opened QueueSchedule
  import opened QueueCalls

  /** A thread's program point with its local variables; bkHead and bkTail are 64-bit words. */
  datatype Frame =
    | Resting
    | Filling(q: nat, val: Data, newNode: nat)
    | Sealing(q: nat, val: Data, newNode: nat)
    | ReadingTail(q: nat, val: Data, newNode: nat)
    | ReadingNext(q: nat, val: Data, newNode: nat, bkTail: nat)
    | Linking(q: nat, val: Data, newNode: nat, bkTail: nat)
    | HelpingTail(q: nat, val: Data, newNode: nat, bkTail: nat, bkNext: nat)
    | SwingingTail(q: nat, val: Data, newNode: nat, bkTail: nat)
    | Counting(q: nat, val: Data)
    | Enqueued(q: nat, val: Data)
    | Reserving(q: nat)
    | Restoring(q: nat)
    | ReadingHead(q: nat)
    | ReadingHeadNext(q: nat, bkHead: nat)
    | Rechecking(q: nat, bkHead: nat)
    | ReadingTailToo(q: nat, bkHead: nat, bkNext: nat)
    | ReadingTailNext(q: nat, bkHead: nat, bkNext: nat, bkTail: nat)
    | HelpingTailToo(q: nat, bkTail: nat, bkTailNext: nat)
    | ReadingData(q: nat, bkHead: nat, bkNext: nat)
    | SwingingHead(q: nat, bkHead: nat, bkNext: nat, val: Data)
    | Freeing(q: nat, node: nat, val: Data)
    | Dequeued(q: nat, out: Outcome)
    | Crashed(q: nat)

  /** The 64-bit image of a program point. */
  function Packed(l: Local): Frame {
    match l
    case Idle => Resting
    case EnqFill(q, val, node) => Filling(q, val, node)
    case EnqSeal(q, val, node) => Sealing(q, val, node)
    case EnqReadTail(q, val, node) => ReadingTail(q, val, node)
    case EnqReadNext(q, val, node, tl) => ReadingNext(q, val, node, Pack(tl))
    case EnqLink(q, val, node, tl) => Linking(q, val, node, Pack(tl))
    case EnqHelp(q, val, node, tl, nxt) => HelpingTail(q, val, node, Pack(tl), nxt)
    case EnqSwing(q, val, node, tl) => SwingingTail(q, val, node, Pack(tl))
    case EnqCount(q, val) => Counting(q, val)
    case EnqDone(q, val) => Enqueued(q, val)
    case DeqReserve(q) => Reserving(q)
    case DeqRestore(q) => Restoring(q)
    case DeqReadHead(q) => ReadingHead(q)
    case DeqReadNext(q, hd) => ReadingHeadNext(q, Pack(hd))
    case DeqRecheck(q, hd) => Rechecking(q, Pack(hd))
    case DeqReadTail(q, hd, nxt) => ReadingTailToo(q, Pack(hd), nxt)
    case DeqReadTailNext(q, hd, nxt, tl) => ReadingTailNext(q, Pack(hd), nxt, Pack(tl))
    case DeqHelp(q, tl, nxt) => HelpingTailToo(q, Pack(tl), nxt)
    case DeqReadData(q, hd, nxt) => ReadingData(q, Pack(hd), nxt)
    case DeqCas(q, hd, nxt, val) => SwingingHead(q, Pack(hd), nxt, val)
    case DeqFree(q, node, val) => Freeing(q, node, val)
    case DeqDone(q, out) => Dequeued(q, out)
    case Faulted(q) => Crashed(q)
  }

  /** Fewer than 2^17 swings happened to the word that thread t is about to compare since t
      read it. Other accesses compare nothing. */
  predicate InWindow(m: Machine, t: nat)
    requires t < |m.locals|
  {
    match m.locals[t]
    case EnqHelp(q, _, _, tl, _) => WithinWindow(m, q, false, tl)
    case EnqSwing(q, _, _, tl) => WithinWindow(m, q, false, tl)
    case DeqHelp(q, tl, _) => WithinWindow(m, q, false, tl)
    case DeqRecheck(q, hd) => WithinWindow(m, q, true, hd)
    case DeqCas(q, hd, _, _) => WithinWindow(m, q, true, hd)
    case _ => true
  }

  predicate WithinWindow(m: Machine, q: nat, isHead: bool, w: Tagged) {
    q < |m.sh.queues| ==>
      (if isHead then m.sh.queues[q].head.ver else m.sh.queues[q].tail.ver) < w.ver + TAG_LIMIT
  }

  /** The hypothesis under which 17 bits suffice, for a whole schedule. */
  predicate Windowed(n: nat, es: seq<Event>)
    requires Legal(n, es)
    decreases |es|
  {
    es == [] ||
    var p, e := es[..|es| - 1], es[|es| - 1];
    Windowed(n, p) && (e.Run? ==> InWindow(After(n, p), e.t))
  }

  lemma LegalPush(n: nat, es: seq<Event>, e: Event)
    requires Legal(n, es) && Enabled(After(n, es), e)
    ensures Legal(n, es + [e]) && After(n, es + [e]) == Next(After(n, es), e)
  {
    assert (es + [e])[..|es + [e]| - 1] == es;
  }

  lemma HistoryPush(n: nat, es: seq<Event>, e: Event)
    requires Legal(n, es) && Enabled(After(n, es), e) && Legal(n, es + [e])
    ensures HistoryOf(n, es + [e]) == Track(After(n, es), HistoryOf(n, es), e)
  {
    hide Inv;
    assert (es + [e])[..|es + [e]| - 1] == es;
  }

  lemma RunPush(n: nat, es: seq<Event>, t: nat)
    requires Legal(n, es) && CanRun(After(n, es), t)
    ensures Legal(n, es + [Run(t)]) && After(n, es + [Run(t)]) == RunThread(After(n, es), t)
    ensures HistoryOf(n, es + [Run(t)]) ==
      TrackRun(After(n, es).sh, HistoryOf(n, es), t, After(n, es).locals[t])
  {
    hide Inv, After, Legal, HistoryOf, RunThread, TrackRun;
    LegalPush(n, es, Run(t));
    HistoryPush(n, es, Run(t));
  }

  // ----- facts about the words of a reachable state -----

  /** Every head and tail word unpacks to its address. */
  lemma WordsUnpack(m: Machine, h: History, q: nat)
    requires Inv(m, h) && q < |m.sh.queues|
    ensures m.sh.queues[q].head.addr < ADDR_LIMIT && m.sh.queues[q].tail.addr < ADDR_LIMIT
  {
    hide OwnInv, LocalInv;
    assert QueueInv(m.sh, h, q);
  }

  /** The codes are the topmost values of a 64-bit word, in order of construction, and the
      head and tail of every queue fit into such a word. */
  lemma WordsFit(n: nat, es: seq<Event>, q: nat)
    requires Legal(n, es) && q < |After(n, es).sh.queues|
    ensures var w := After(n, es).sh.queues[q];
      && w.code == Pow2(64) - 1 - q
      && Pack(w.head) < Pow2(64) && Pack(w.tail) < Pow2(64)
  {
    hide OwnInv, LocalInv, MemInv, Legal, After, HistoryOf, Pack, Pow2;
    RunInv(n, es);
    LimitsArePowers();
    assert QueueInv(After(n, es).sh, HistoryOf(n, es), q);
    WordsUnpack(After(n, es), HistoryOf(n, es), q);
    PackRoundTrip(After(n, es).sh.queues[q].head);
    PackRoundTrip(After(n, es).sh.queues[q].tail);
  }

  lemma SavedAddress(m: Machine, h: History, q: nat, w: Tagged)
    requires Inv(m, h) && q < |m.sh.queues|
    requires SavedTail(m.sh, h, q, w) || SavedHead(m.sh, h, q, w)
    ensures w.addr < ADDR_LIMIT && RealAddress(Pack(w)) == w.addr
  {
    hide OwnInv, LocalInv;
    assert QueueInv(m.sh, h, q);
    PackRoundTrip(w);
  }

  /** Under the window hypothesis the 64-bit comparison at a program point decides
      equality of versions. */
  lemma TailComparison(m: Machine, h: History, q: nat, w: Tagged)
    requires Inv(m, h) && q < |m.sh.queues| && SavedTail(m.sh, h, q, w)
    requires m.sh.queues[q].tail.ver < w.ver + TAG_LIMIT
    ensures Pack(m.sh.queues[q].tail) == Pack(w) <==> m.sh.queues[q].tail == w
  {
    hide OwnInv, LocalInv, QueueInv, MemInv;
    WordsUnpack(m, h, q);
    SavedAddress(m, h, q, w);
    PackExactWithinWindow(w, m.sh.queues[q].tail);
  }

  lemma HeadComparison(m: Machine, h: History, q: nat, w: Tagged)
    requires Inv(m, h) && q < |m.sh.queues| && SavedHead(m.sh, h, q, w)
    requires m.sh.queues[q].head.ver < w.ver + TAG_LIMIT
    ensures Pack(m.sh.queues[q].head) == Pack(w) <==> m.sh.queues[q].head == w
  {
    hide OwnInv, LocalInv, QueueInv, MemInv;
    WordsUnpack(m, h, q);
    SavedAddress(m, h, q, w);
    PackExactWithinWindow(w, m.sh.queues[q].head);
  }

  /** A successor in the history is an address, so or-ing a tag onto it is exact. */
  lemma JoinSuccessor(m: Machine, h: History, q: nat, w: Tagged, nxt: nat)
    requires Inv(m, h) && q < |m.sh.queues| && Successor(h, q, w.ver, nxt) && w.addr < ADDR_LIMIT
    ensures Join(nxt, NextIndex(Pack(w))) == Pack(Tagged(nxt, w.ver + 1))
  {
    hide OwnInv, LocalInv;
    assert QueueInv(m.sh, h, q);
    JoinIsNextVersion(w, nxt);
  }

  /** What a 64-bit compare-and-swap of a tail does to the word. */
  lemma TailCas(m: Machine, h: History, q: nat, w: Tagged, nxt: nat)
    requires Inv(m, h) && q < |m.sh.queues| && SavedTail(m.sh, h, q, w)
    requires m.sh.queues[q].tail.ver < w.ver + TAG_LIMIT
    requires m.sh.queues[q].tail.ver == w.ver ==> Successor(h, q, w.ver, nxt)
    ensures Pack(CasTail(m.sh, q, w, nxt).queues[q].tail) ==
      if Pack(m.sh.queues[q].tail) == Pack(w) then Join(nxt, NextIndex(Pack(w))) else Pack(m.sh.queues[q].tail)
  {
    hide OwnInv, LocalInv, QueueInv, MemInv, Pack, Join, NextIndex;
    TailComparison(m, h, q, w);
    SavedAddress(m, h, q, w);
    if m.sh.queues[q].tail == w {
      JoinSuccessor(m, h, q, w, nxt);
    }
  }

  lemma HeadCas(m: Machine, h: History, q: nat, w: Tagged, nxt: nat)
    requires Inv(m, h) && q < |m.sh.queues| && SavedHead(m.sh, h, q, w)
    requires m.sh.queues[q].head.ver < w.ver + TAG_LIMIT
    requires m.sh.queues[q].head.ver == w.ver ==> Successor(h, q, w.ver, nxt)
    ensures Pack(CasHead(m.sh, q, w, nxt).queues[q].head) ==
      if Pack(m.sh.queues[q].head) == Pack(w) then Join(nxt, NextIndex(Pack(w))) else Pack(m.sh.queues[q].head)
    ensures Pack(m.sh.queues[q].head) == Pack(w) <==> m.sh.queues[q].head == w
  {
    hide OwnInv, LocalInv, QueueInv, MemInv, Pack, Join, NextIndex;
    HeadComparison(m, h, q, w);
    SavedAddress(m, h, q, w);
    if m.sh.queues[q].head == w {
      JoinSuccessor(m, h, q, w, nxt);
    }
  }

  /** What the accesses of a thread at a comparison rely on. */
  lemma AtTailCas(m: Machine, h: History, t: nat)
    requires Inv(m, h) && CanRun(m, t)
    requires m.locals[t].EnqHelp? || m.locals[t].EnqSwing? || m.locals[t].DeqHelp?
    ensures var l := m.locals[t];
      var nxt := if l.EnqSwing? then l.node else l.nxt;
      && SavedTail(m.sh, h, l.q, l.tl)
      && (m.sh.queues[l.q].tail.ver == l.tl.ver ==> Successor(h, l.q, l.tl.ver, nxt))
  {
    hide OwnInv, MemInv, ChainInv;
    assert QueueInv(m.sh, h, m.locals[t].q);
    assert LocalInv(m.sh, h, t, m.locals[t]);
  }

  lemma AtHeadCas(m: Machine, h: History, t: nat)
    requires Inv(m, h) && CanRun(m, t) && m.locals[t].DeqCas?
    ensures var l := m.locals[t];
      && SavedHead(m.sh, h, l.q, l.hd)
      && (m.sh.queues[l.q].head.ver == l.hd.ver ==> Successor(h, l.q, l.hd.ver, l.nxt))
  {
    hide OwnInv, MemInv, QueueInv;
    assert LocalInv(m.sh, h, t, m.locals[t]);
  }

  lemma AtRead(m: Machine, h: History, t: nat)
    requires Inv(m, h) && CanRun(m, t)
    ensures var l := m.locals[t];
      && (l.EnqReadNext? || l.EnqLink? || l.DeqReadTailNext? ==> SavedTail(m.sh, h, l.q, l.tl))
      && (l.DeqReadNext? || l.DeqRecheck? ==> SavedHead(m.sh, h, l.q, l.hd))
  {
    hide OwnInv, MemInv, QueueInv, ChainInv;
    assert LocalInv(m.sh, h, t, m.locals[t]);
  }

  lemma InRange(m: Machine, h: History, t: nat)
    requires Inv(m, h) && t < |m.locals|
    ensures !m.locals[t].Idle? ==> m.locals[t].q < |m.sh.queues|
  {
    hide OwnInv, MemInv, QueueInv, ChainInv;
    assert LocalInv(m.sh, h, t, m.locals[t]);
  }

  lemma OwnsNode(m: Machine, h: History, t: nat)
    requires Inv(m, h) && t < |m.locals| && (m.locals[t].EnqFill? || m.locals[t].EnqSeal?)
    ensures m.locals[t].node in m.sh.next && m.locals[t].node in m.sh.data
  {
    hide OwnInv, QueueInv, ChainInv;
    assert LocalInv(m.sh, h, t, m.locals[t]);
  }

  /** The masked word that a thread dereferences is the address of a node. */
  lemma ReadsNode(m: Machine, h: History, t: nat)
    requires Inv(m, h) && CanRun(m, t)
    ensures var l := m.locals[t];
      && (l.EnqReadNext? || l.EnqLink? || l.DeqReadTailNext? ==>
            RealAddress(Pack(l.tl)) == l.tl.addr && l.tl.addr in m.sh.next)
      && (l.DeqReadNext? ==> RealAddress(Pack(l.hd)) == l.hd.addr && l.hd.addr in m.sh.next)
  {
    hide OwnInv, LocalInv, MemInv, QueueInv, Pack, RealAddress;
    AtRead(m, h, t);
    var l := m.locals[t];
    if l.EnqReadNext? || l.EnqLink? || l.DeqReadTailNext? {
      NextOfSaved(m, h, l.q, l.tl);
      SavedAddress(m, h, l.q, l.tl);
    } else if l.DeqReadNext? {
      NextOfSaved(m, h, l.q, l.hd);
      SavedAddress(m, h, l.q, l.hd);
    }
  }

  /** Line 98 on the version-counted machine. */
  lemma LinkEffect(m: Machine, t: nat)
    requires CanRun(m, t) && m.locals[t].EnqLink? && m.locals[t].tl.addr in m.sh.next
    ensures var l := m.locals[t];
      RunThread(m, t) ==
        if m.sh.next[l.tl.addr] == m.sh.queues[l.q].code
        then Machine(m.sh.(next := m.sh.next[l.tl.addr := l.node]), m.locals[t := EnqSwing(l.q, l.val, l.node, l.tl)])
        else Machine(m.sh, m.locals[t := EnqReadTail(l.q, l.val, l.node)])
  {
  }

  /** Line 124 on the version-counted machine. */
  lemma HeadNextEffect(m: Machine, t: nat)
    requires CanRun(m, t) && m.locals[t].DeqReadNext? && m.locals[t].hd.addr in m.sh.next
    ensures var l := m.locals[t];
      RunThread(m, t) == Machine(m.sh, m.locals[t :=
        if m.sh.next[l.hd.addr] == m.sh.queues[l.q].code then DeqRecheck(l.q, l.hd)
        else DeqReadTail(l.q, l.hd, m.sh.next[l.hd.addr])])
  {
  }

  /** Line 146: what the version-counted step does, in terms of the 64-bit words. */
  lemma SwingEffect(m: Machine, h: History, t: nat)
    requires Inv(m, h) && CanRun(m, t) && m.locals[t].DeqCas? && InWindow(m, t)
    ensures var l, s, m' := m.locals[t], m.sh, RunThread(m, t);
      && RealAddress(Pack(l.hd)) == l.hd.addr
      && m'.sh.next == s.next && m'.sh.data == s.data && m'.sh.pool == s.pool
      && m'.sh.uniqueCode == s.uniqueCode && |m'.sh.queues| == |s.queues|
      && (forall q | 0 <= q < |s.queues| ::
            && m'.sh.queues[q].tail == s.queues[q].tail && m'.sh.queues[q].size == s.queues[q].size
            && m'.sh.queues[q].code == s.queues[q].code
            && Pack(m'.sh.queues[q].head) ==
                 if q == l.q && Pack(s.queues[q].head) == Pack(l.hd)
                 then Join(l.nxt, NextIndex(Pack(l.hd))) else Pack(s.queues[q].head))
      && m'.locals == m.locals[t := if Pack(s.queues[l.q].head) == Pack(l.hd)
                                    then DeqFree(l.q, l.hd.addr, l.val) else DeqReadHead(l.q)]
  {
    hide OwnInv, LocalInv, QueueInv, MemInv, Pack, Join, NextIndex, RealAddress, SavedHead, Successor;
    AtHeadCas(m, h, t);
    HeadCas(m, h, m.locals[t].q, m.locals[t].hd, m.locals[t].nxt);
    SavedAddress(m, h, m.locals[t].q, m.locals[t].hd);
    hide Inv;
  }

  /** The words of a new queue. */
  lemma ConstructEffect(m: Machine, dummy: nat, junk: Data)
    requires Enabled(m, Event.Construct(dummy, junk))
    ensures var m' := Next(m, Event.Construct(dummy, junk));
      var code := (m.sh.uniqueCode + WORD_LIMIT - 1) % WORD_LIMIT;
      && m'.sh.next == m.sh.next[dummy := code] && m'.sh.data == m.sh.data[dummy := junk]
      && m'.sh.pool == m.sh.pool && m'.sh.uniqueCode == code && m'.locals == m.locals
      && m'.sh.queues == m.sh.queues + [Anchors(Tagged(dummy, 0), Tagged(dummy, 0), 0, code)]
    ensures Pack(Tagged(dummy, 0)) == dummy
  {
  }

  /** A step changes at most its own queue and its own thread. */
  lemma RunTouches(m: Machine, t: nat)
    requires CanRun(m, t)
    ensures var q, m' := m.locals[t].q, RunThread(m, t);
      && m'.sh.uniqueCode == m.sh.uniqueCode
      && |m'.sh.queues| == |m.sh.queues| && m'.sh.queues == m.sh.queues[q := m'.sh.queues[q]]
      && m'.sh.queues[q].code == m.sh.queues[q].code
      && |m'.locals| == |m.locals| && m'.locals == m.locals[t := m'.locals[t]]
  {
  }

  /** The head, tail, size and code fields of all queues are the image of the machine's. */
  ghost predicate QueueWords(head: seq<nat>, tail: seq<nat>, size: seq<int>, code: seq<nat>, qs: seq<Anchors>) {
    && |head| == |tail| == |size| == |code| == |qs|
    && (forall q | 0 <= q < |qs| ::
          head[q] == Pack(qs[q].head) && tail[q] == Pack(qs[q].tail) && size[q] == qs[q].size && code[q] == qs[q].code)
  }

  lemma NewQueueWords(head: seq<nat>, tail: seq<nat>, size: seq<int>, code: seq<nat>, qs: seq<Anchors>, w: Anchors)
    requires QueueWords(head, tail, size, code, qs)
    ensures QueueWords(head + [Pack(w.head)], tail + [Pack(w.tail)], size + [w.size], code + [w.code], qs + [w])
  {
    hide Pack;
  }

  /** Two images of which only queue q differs. */
  lemma QueueWordsKept(head0: seq<nat>, tail0: seq<nat>, size0: seq<int>, code0: seq<nat>, qs0: seq<Anchors>,
                       head: seq<nat>, tail: seq<nat>, size: seq<int>, code: seq<nat>, qs: seq<Anchors>, q: nat)
    requires QueueWords(head0, tail0, size0, code0, qs0) && QueueWords(head, tail, size, code, qs)
    requires q < |qs| == |qs0| && qs == qs0[q := qs[q]] && qs[q].code == qs0[q].code
    ensures head == head0[q := Pack(qs[q].head)] && tail == tail0[q := Pack(qs[q].tail)]
    ensures size == size0[q := qs[q].size] && code == code0
    ensures head0[q] == Pack(qs0[q].head) && tail0[q] == Pack(qs0[q].tail)
    ensures size0[q] == qs0[q].size && code0[q] == qs0[q].code
  {
    hide Pack;
  }

  class LockFreeQueues {
    // The fields of each queue object, by queue.
    var head: seq<nat>
    var tail: seq<nat>
    var size: seq<int>
    var myCode: seq<nat>
    // The static members, and the fields of all nodes by address.
    var uniqueCode: nat
    var pool: set<nat>
    var next: map<nat, nat>
    var data: map<nat, Data>
    // The threads.
    var frames: seq<Frame>
    // The schedule so far.
    ghost var threads: nat
    ghost var log: seq<Event>

    ghost predicate Image(m: Machine)
      reads this
    {
      && next == m.sh.next && data == m.sh.data && pool == m.sh.pool && uniqueCode == m.sh.uniqueCode
      && QueueWords(head, tail, size, myCode, m.sh.queues)
      && |frames| == |m.locals|
      && (forall t | 0 <= t < |m.locals| :: frames[t] == Packed(m.locals[t]))
    }

    /** The words in memory are the packed image of the state the schedule leads to. */
    ghost predicate Valid()
      reads this
      ensures Valid() ==> Legal(threads, log) && |frames| == |After(threads, log).locals|
    {
      Legal(threads, log) && Image(After(threads, log))
    }

    ghost function State(): Machine
      reads this
      requires Legal(threads, log)
    {
      After(threads, log)
    }

    ghost function Past(): (h: History)
      reads this
      requires Legal(threads, log)
      ensures Shaped(State(), h)
    {
      HistoryOf(threads, log)
    }

    /** Thread t has performed its next access, as the machine does. */
    twostate predicate Stepped(t: nat)
      reads this
    {
      && old(Valid()) && At(t) && threads == old(threads) && log == old(log) + [Run(t)]
      && |frames| == old(|frames|) && CanRun(old(State()), t) && State() == RunThread(old(State()), t)
      && Past() == TrackRun(old(State()).sh, old(Past()), t, old(State()).locals[t])
    }

    /** The fields are valid, and those of thread t are the image of its program point. */
    ghost predicate At(t: nat)
      reads this
    {
      Valid() && t < |frames| == |State().locals| && frames[t] == Packed(State().locals[t])
    }

    /** Thread t and its queue in the fields. */
    lemma Here(t: nat)
      requires Valid() && t < |frames|
      ensures var m := State();
        && next == m.sh.next && data == m.sh.data && pool == m.sh.pool
        && |head| == |tail| == |size| == |myCode| == |m.sh.queues|
        && |frames| == |m.locals| && frames[t] == Packed(m.locals[t])
        && (!m.locals[t].Idle? ==> Words(m, m.locals[t].q))
    {
      hide Inv, Legal, After, HistoryOf, Pack, Packed;
      RunInv(threads, log);
      InRange(State(), Past(), t);
    }

    /** The words of queue q are those of the machine. */
    ghost predicate Words(m: Machine, q: nat)
      reads this
    {
      && q < |m.sh.queues| == |head| == |tail| == |size| == |myCode|
      && head[q] == Pack(m.sh.queues[q].head) && tail[q] == Pack(m.sh.queues[q].tail)
      && size[q] == m.sh.queues[q].size && myCode[q] == m.sh.queues[q].code
    }

    /** It is enough that the fields which the access of thread t may change are the image of
        the machine's step. */
    twostate lemma Steps(t: nat)
      requires old(Valid()) && t < |old(frames)| && CanRun(old(State()), t)
      requires threads == old(threads) && log == old(log) + [Run(t)]
      requires var m, q := RunThread(old(State()), t), old(State()).locals[t].q;
        && next == m.sh.next && data == m.sh.data && pool == m.sh.pool && uniqueCode == old(uniqueCode)
        && Words(m, q) && frames == old(frames)[t := Packed(m.locals[t])]
        && (head == old(head) || head == old(head)[q := head[q]])
        && (tail == old(tail) || tail == old(tail)[q := tail[q]])
        && (size == old(size) || size == old(size)[q := size[q]]) && myCode == old(myCode)
      ensures Stepped(t)
    {
      hide Inv, Legal, After, HistoryOf, TrackRun, RunThread, Pack, Packed;
      RunTouches(old(State()), t);
      RunPush(threads, old(log), t);
    }

    constructor (n: nat)
      ensures Valid() && threads == n && log == []
    {
      head, tail, size, myCode := [], [], [], [];
      uniqueCode, pool, next, data := 0, {}, map[], map[];
      frames := seq(n, _ => Resting);
      threads, log := n, [];
    }

    /** Lines 44 to 50, on an object whose embedded dummy node is at a new address. */
    method Construct(dummy: nat, junk: Data)
      requires Valid() && Enabled(State(), Event.Construct(dummy, junk))
      modifies this
      ensures Valid() && threads == old(threads) && log == old(log) + [Event.Construct(dummy, junk)]
    {
      hide Inv, Legal, After, HistoryOf, Next, Pack, Packed, Enabled, QueueWords;
      ConstructEffect(State(), dummy, junk);
      NewQueueWords(head, tail, size, myCode, State().sh.queues,
                    Anchors(Tagged(dummy, 0), Tagged(dummy, 0), 0, (uniqueCode + WORD_LIMIT - 1) % WORD_LIMIT));
      uniqueCode := (uniqueCode + WORD_LIMIT - 1) % WORD_LIMIT;
      myCode := myCode + [uniqueCode];
      size := size + [0];
      head, tail := head + [dummy], tail + [dummy];
      next, data := next[dummy := uniqueCode], data[dummy := junk];
      log := log + [Event.Construct(dummy, junk)];
      LegalPush(threads, old(log), Event.Construct(dummy, junk));
    }

    /** The pool obtains a new node. */
    method Refill(node: nat, junk: Data)
      requires Valid() && Enabled(State(), Event.Refill(node, junk))
      modifies this
      ensures Valid() && threads == old(threads) && log == old(log) + [Event.Refill(node, junk)]
    {
      hide Inv, Legal, After, HistoryOf;
      next, data, pool := next[node := 0], data[node := junk], pool + {node};
      log := log + [Event.Refill(node, junk)];
      LegalPush(threads, old(log), Event.Refill(node, junk));
    }

    predicate MayCall(t: nat, q: nat)
      reads this
    {
      t < |frames| && q < |head| && (frames[t].Resting? || frames[t].Enqueued? || frames[t].Dequeued?)
    }

    /** Line 82: Alloc takes a node out of the pool. */
    method BeginEnqueue(t: nat, q: nat, val: Data, node: nat)
      requires Valid() && MayCall(t, q) && node in pool
      modifies this
      ensures At(t) && threads == old(threads) && log == old(log) + [CallEnqueue(t, q, val, node)]
      ensures Enabled(old(State()), CallEnqueue(t, q, val, node))
      ensures State() == Next(old(State()), CallEnqueue(t, q, val, node))
      ensures Past() == Track(old(State()), old(Past()), CallEnqueue(t, q, val, node))
    {
      hide Inv, Legal, After, HistoryOf, Pack;
      ghost var m := State();
      Here(t);
      pool := pool - {node};
      frames := frames[t := Filling(q, val, node)];
      log := log + [CallEnqueue(t, q, val, node)];
      LegalPush(threads, old(log), CallEnqueue(t, q, val, node));
      HistoryPush(threads, old(log), CallEnqueue(t, q, val, node));
    }

    method BeginDequeue(t: nat, q: nat)
      requires Valid() && MayCall(t, q)
      modifies this
      ensures At(t) && threads == old(threads) && log == old(log) + [CallDequeue(t, q)]
      ensures Enabled(old(State()), CallDequeue(t, q)) && State() == Next(old(State()), CallDequeue(t, q))
      ensures Past() == Track(old(State()), old(Past()), CallDequeue(t, q))
    {
      hide Inv, Legal, After, HistoryOf, Pack;
      ghost var m := State();
      Here(t);
      frames := frames[t := Reserving(q)];
      log := log + [CallDequeue(t, q)];
      LegalPush(threads, old(log), CallDequeue(t, q));
      HistoryPush(threads, old(log), CallDequeue(t, q));
    }

    /** Line 83. */
    method WriteData(t: nat)
      requires Valid() && t < |frames| && frames[t].Filling?
      modifies this
      ensures Stepped(t)
    {
      hide Inv, Legal, After, HistoryOf, TrackRun, Valid, Image, Pack, Join, NextIndex, RealAddress,
           DequeueEffect, DequeueGoto;
      ghost var m, h := State(), Past();
      RunInv(threads, log);
      Here(t);
      OwnsNode(m, h, t);
      var f := frames[t];
      data := data[f.newNode := f.val];
      frames := frames[t := Sealing(f.q, f.val, f.newNode)];
      log := log + [Run(t)];
      Steps(t);
    }

    /** Line 84. */
    method WriteNext(t: nat)
      requires Valid() && t < |frames| && frames[t].Sealing?
      modifies this
      ensures Stepped(t)
    {
      hide Inv, Legal, After, HistoryOf, TrackRun, Valid, Image, Pack, Join, NextIndex, RealAddress,
           DequeueEffect, DequeueGoto;
      ghost var m, h := State(), Past();
      RunInv(threads, log);
      Here(t);
      OwnsNode(m, h, t);
      var f := frames[t];
      next := next[f.newNode := myCode[f.q]];
      frames := frames[t := ReadingTail(f.q, f.val, f.newNode)];
      log := log + [Run(t)];
      Steps(t);
    }

    /** Line 91. */
    method ReadTail(t: nat)
      requires Valid() && t < |frames| && frames[t].ReadingTail?
      modifies this
      ensures Stepped(t)
    {
      hide Inv, Legal, After, HistoryOf, TrackRun, Valid, Image, Pack, Join, NextIndex, RealAddress,
           DequeueEffect, DequeueGoto;
      ghost var m, h := State(), Past();
      RunInv(threads, log);
      Here(t);
      var f := frames[t];
      frames := frames[t := ReadingNext(f.q, f.val, f.newNode, tail[f.q])];
      log := log + [Run(t)];
      Steps(t);
    }

    /** Lines 92 to 96. */
    method ReadNext(t: nat)
      requires Valid() && t < |frames| && frames[t].ReadingNext?
      modifies this
      ensures Stepped(t)
    {
      hide Inv, Legal, After, HistoryOf, TrackRun, Valid, Image, Pack, Join, NextIndex, RealAddress,
           DequeueEffect, DequeueGoto;
      ghost var m, h := State(), Past();
      RunInv(threads, log);
      Here(t);
      ReadsNode(m, h, t);
      var f := frames[t];
      var bkRealTail := RealAddress(f.bkTail);
      var bkNext := next[bkRealTail];
      frames := frames[t := if bkNext == myCode[f.q] then Linking(f.q, f.val, f.newNode, f.bkTail)
                            else HelpingTail(f.q, f.val, f.newNode, f.bkTail, bkNext)];
      log := log + [Run(t)];
      Steps(t);
    }

    /** Line 98. */
    method LinkNode(t: nat)
      requires Valid() && t < |frames| && frames[t].Linking?
      modifies this
      ensures Stepped(t)
    {
      hide Inv, Legal, After, HistoryOf, TrackRun, Valid, Image, Pack, Join, NextIndex, RealAddress,
           RunThread;
      ghost var m, h := State(), Past();
      RunInv(threads, log);
      Here(t);
      ReadsNode(m, h, t);
      LinkEffect(m, t);
      var f := frames[t];
      var bkRealTail := RealAddress(f.bkTail);
      if next[bkRealTail] == myCode[f.q] {
        next := next[bkRealTail := f.newNode];
        frames := frames[t := SwingingTail(f.q, f.val, f.newNode, f.bkTail)];
      } else {
        frames := frames[t := ReadingTail(f.q, f.val, f.newNode)];
      }
      log := log + [Run(t)];
      Steps(t);
    }

    /** Line 103. */
    method HelpTail(t: nat)
      requires Valid() && t < |frames| && frames[t].HelpingTail? && InWindow(State(), t)
      modifies this
      ensures Stepped(t)
    {
      hide Inv, Legal, After, HistoryOf, TrackRun, Valid, Image, Pack, Join, NextIndex, RealAddress,
           DequeueEffect, DequeueGoto;
      ghost var m, h := State(), Past();
      RunInv(threads, log);
      Here(t);
      AtTailCas(m, h, t);
      TailCas(m, h, m.locals[t].q, m.locals[t].tl, m.locals[t].nxt);
      var f := frames[t];
      if tail[f.q] == f.bkTail {
        tail := tail[f.q := Join(f.bkNext, NextIndex(f.bkTail))];
      }
      frames := frames[t := ReadingTail(f.q, f.val, f.newNode)];
      log := log + [Run(t)];
      Steps(t);
    }

    /** Line 107. */
    method SwingTail(t: nat)
      requires Valid() && t < |frames| && frames[t].SwingingTail? && InWindow(State(), t)
      modifies this
      ensures Stepped(t)
    {
      hide Inv, Legal, After, HistoryOf, TrackRun, Valid, Image, Pack, Join, NextIndex, RealAddress,
           DequeueEffect, DequeueGoto;
      ghost var m, h := State(), Past();
      RunInv(threads, log);
      Here(t);
      AtTailCas(m, h, t);
      TailCas(m, h, m.locals[t].q, m.locals[t].tl, m.locals[t].node);
      var f := frames[t];
      if tail[f.q] == f.bkTail {
        tail := tail[f.q := Join(f.newNode, NextIndex(f.bkTail))];
      }
      frames := frames[t := Counting(f.q, f.val)];
      log := log + [Run(t)];
      Steps(t);
    }

    /** Line 108. */
    method CountUp(t: nat)
      requires Valid() && t < |frames| && frames[t].Counting?
      modifies this
      ensures Stepped(t)
    {
      hide Inv, Legal, After, HistoryOf, TrackRun, Valid, Image, Pack, Join, NextIndex, RealAddress,
           DequeueEffect, DequeueGoto;
      ghost var m, h := State(), Past();
      RunInv(threads, log);
      Here(t);
      var f := frames[t];
      size := size[f.q := size[f.q] + 1];
      frames := frames[t := Enqueued(f.q, f.val)];
      log := log + [Run(t)];
      Steps(t);
    }

    /** Line 114. */
    method Reserve(t: nat)
      requires Valid() && t < |frames| && frames[t].Reserving?
      modifies this
      ensures Stepped(t)
    {
      hide Inv, Legal, After, HistoryOf, TrackRun, Valid, Image, Pack, Join, NextIndex, RealAddress,
           EnqueueEffect, EnqueueGoto;
      ghost var m, h := State(), Past();
      RunInv(threads, log);
      Here(t);
      var f := frames[t];
      size := size[f.q := size[f.q] - 1];
      frames := frames[t := if size[f.q] < 0 then Restoring(f.q) else ReadingHead(f.q)];
      log := log + [Run(t)];
      Steps(t);
    }

    /** Lines 116 and 117. */
    method Restore(t: nat)
      requires Valid() && t < |frames| && frames[t].Restoring?
      modifies this
      ensures Stepped(t)
    {
      hide Inv, Legal, After, HistoryOf, TrackRun, Valid, Image, Pack, Join, NextIndex, RealAddress,
           EnqueueEffect, EnqueueGoto;
      ghost var m, h := State(), Past();
      RunInv(threads, log);
      Here(t);
      var f := frames[t];
      size := size[f.q := size[f.q] + 1];
      frames := frames[t := Dequeued(f.q, Short)];
      log := log + [Run(t)];
      Steps(t);
    }

    /** Line 122. */
    method ReadHead(t: nat)
      requires Valid() && t < |frames| && frames[t].ReadingHead?
      modifies this
      ensures Stepped(t)
    {
      hide Inv, Legal, After, HistoryOf, TrackRun, Valid, Image, Pack, Join, NextIndex, RealAddress,
           EnqueueEffect, EnqueueGoto;
      ghost var m, h := State(), Past();
      RunInv(threads, log);
      Here(t);
      var f := frames[t];
      frames := frames[t := ReadingHeadNext(f.q, head[f.q])];
      log := log + [Run(t)];
      Steps(t);
    }

    /** Lines 123 to 127. */
    method ReadHeadNext(t: nat)
      requires Valid() && t < |frames| && frames[t].ReadingHeadNext?
      modifies this
      ensures Stepped(t)
    {
      hide Inv, Legal, After, HistoryOf, TrackRun, Valid, Image, Pack, Join, NextIndex, RealAddress,
           RunThread;
      ghost var m, h := State(), Past();
      RunInv(threads, log);
      Here(t);
      ReadsNode(m, h, t);
      HeadNextEffect(m, t);
      var f := frames[t];
      var bkNext := next[RealAddress(f.bkHead)];
      frames := frames[t := if bkNext == myCode[f.q] then Rechecking(f.q, f.bkHead)
                            else ReadingTailToo(f.q, f.bkHead, bkNext)];
      log := log + [Run(t)];
      Steps(t);
    }

    /** Lines 129 to 131. */
    method RecheckHead(t: nat)
      requires Valid() && t < |frames| && frames[t].Rechecking? && InWindow(State(), t)
      modifies this
      ensures Stepped(t)
    {
      hide Inv, Legal, After, HistoryOf, TrackRun, Valid, Image, Pack, Join, NextIndex, RealAddress,
           EnqueueEffect, EnqueueGoto;
      ghost var m, h := State(), Past();
      RunInv(threads, log);
      Here(t);
      AtRead(m, h, t);
      HeadComparison(m, h, m.locals[t].q, m.locals[t].hd);
      var f := frames[t];
      frames := frames[t := if f.bkHead == head[f.q] then Dequeued(f.q, Vacant) else ReadingHead(f.q)];
      log := log + [Run(t)];
      Steps(t);
    }

    /** Line 134. */
    method ReadTailToo(t: nat)
      requires Valid() && t < |frames| && frames[t].ReadingTailToo?
      modifies this
      ensures Stepped(t)
    {
      hide Inv, Legal, After, HistoryOf, TrackRun, Valid, Image, Pack, Join, NextIndex, RealAddress,
           EnqueueEffect, EnqueueGoto;
      ghost var m, h := State(), Past();
      RunInv(threads, log);
      Here(t);
      var f := frames[t];
      frames := frames[t := ReadingTailNext(f.q, f.bkHead, f.bkNext, tail[f.q])];
      log := log + [Run(t)];
      Steps(t);
    }

    /** Lines 135 to 139. */
    method ReadTailNext(t: nat)
      requires Valid() && t < |frames| && frames[t].ReadingTailNext?
      modifies this
      ensures Stepped(t)
    {
      hide Inv, Legal, After, HistoryOf, TrackRun, Valid, Image, Pack, Join, NextIndex, RealAddress,
           EnqueueEffect, EnqueueGoto;
      ghost var m, h := State(), Past();
      RunInv(threads, log);
      Here(t);
      ReadsNode(m, h, t);
      var f := frames[t];
      var bkTailNext := next[RealAddress(f.bkTail)];
      frames := frames[t := if bkTailNext != myCode[f.q] then HelpingTailToo(f.q, f.bkTail, bkTailNext)
                            else ReadingData(f.q, f.bkHead, f.bkNext)];
      log := log + [Run(t)];
      Steps(t);
    }

    /** Line 141. */
    method HelpTailToo(t: nat)
      requires Valid() && t < |frames| && frames[t].HelpingTailToo? && InWindow(State(), t)
      modifies this
      ensures Stepped(t)
    {
      hide Inv, Legal, After, HistoryOf, TrackRun, Valid, Image, Pack, Join, NextIndex, RealAddress,
           EnqueueEffect, EnqueueGoto;
      ghost var m, h := State(), Past();
      RunInv(threads, log);
      Here(t);
      AtTailCas(m, h, t);
      TailCas(m, h, m.locals[t].q, m.locals[t].tl, m.locals[t].nxt);
      var f := frames[t];
      if tail[f.q] == f.bkTail {
        tail := tail[f.q := Join(f.bkTailNext, NextIndex(f.bkTail))];
      }
      frames := frames[t := ReadingHead(f.q)];
      log := log + [Run(t)];
      Steps(t);
    }

    /** Line 145. An address that is not a node's crashes the thread. */
    method ReadData(t: nat)
      requires Valid() && t < |frames| && frames[t].ReadingData?
      modifies this
      ensures Stepped(t)
    {
      hide Inv, Legal, After, HistoryOf, TrackRun, Valid, Image, Pack, Join, NextIndex, RealAddress,
           EnqueueEffect, EnqueueGoto;
      ghost var m, h := State(), Past();
      RunInv(threads, log);
      Here(t);
      var f := frames[t];
      frames := frames[t := if f.bkNext in data then SwingingHead(f.q, f.bkHead, f.bkNext, data[f.bkNext])
                            else Crashed(f.q)];
      log := log + [Run(t)];
      Steps(t);
    }

    /** Line 146. */
    method SwingHead(t: nat)
      requires Valid() && t < |frames| && frames[t].SwingingHead? && InWindow(State(), t)
      modifies this
      ensures Stepped(t)
    {
      hide Inv, Legal, After, HistoryOf, TrackRun, Valid, Image, Pack, Join, NextIndex, RealAddress,
           RunThread;
      ghost var m, h := State(), Past();
      RunInv(threads, log);
      Here(t);
      SwingEffect(m, h, t);
      var f := frames[t];
      if head[f.q] == f.bkHead {
        head := head[f.q := Join(f.bkNext, NextIndex(f.bkHead))];
        frames := frames[t := Freeing(f.q, RealAddress(f.bkHead), f.val)];
      } else {
        frames := frames[t := ReadingHead(f.q)];
      }
      log := log + [Run(t)];
      Steps(t);
    }

    /** Lines 148 to 152. */
    method FreeNode(t: nat)
      requires Valid() && t < |frames| && frames[t].Freeing?
      modifies this
      ensures Stepped(t)
    {
      hide Inv, Legal, After, HistoryOf, TrackRun, Valid, Image, Pack, Join, NextIndex, RealAddress,
           EnqueueEffect, EnqueueGoto;
      ghost var m, h := State(), Past();
      RunInv(threads, log);
      Here(t);
      var f := frames[t];
      pool := pool + {f.node};
      frames := frames[t := Dequeued(f.q, Got(f.val))];
      log := log + [Run(t)];
      Steps(t);
    }

    predicate Busy(t: nat)
      reads this
    {
      t < |frames| && !frames[t].Resting? && !frames[t].Enqueued? && !frames[t].Dequeued? && !frames[t].Crashed?
    }

    /** The next access of any thread. */
    method Step(t: nat)
      requires Valid() && Busy(t) && InWindow(State(), t)
      modifies this
      ensures Valid() && threads == old(threads) && log == old(log) + [Run(t)]
    {
      hide Valid, Legal, After, HistoryOf, Inv, RunThread, InWindow;
      match frames[t]
      case Filling(_, _, _) => WriteData(t);
      case Sealing(_, _, _) => WriteNext(t);
      case ReadingTail(_, _, _) => ReadTail(t);
      case ReadingNext(_, _, _, _) => ReadNext(t);
      case Linking(_, _, _, _) => LinkNode(t);
      case HelpingTail(_, _, _, _, _) => HelpTail(t);
      case SwingingTail(_, _, _, _) => SwingTail(t);
      case Counting(_, _) => CountUp(t);
      case Reserving(_) => Reserve(t);
      case Restoring(_) => Restore(t);
      case ReadingHead(_) => ReadHead(t);
      case ReadingHeadNext(_, _) => ReadHeadNext(t);
      case Rechecking(_, _) => RecheckHead(t);
      case ReadingTailToo(_, _, _) => ReadTailToo(t);
      case ReadingTailNext(_, _, _, _) => ReadTailNext(t);
      case HelpingTailToo(_, _, _) => HelpTailToo(t);
      case ReadingData(_, _, _) => ReadData(t);
      case SwingingHead(_, _, _, _) => SwingHead(t);
      case Freeing(_, _, _) => FreeNode(t);
    }

    method Perform(e: Event)
      requires Valid() && Enabled(State(), e) && (e.Run? ==> InWindow(State(), e.t))
      modifies this
      ensures Valid() && threads == old(threads) && log == old(log) + [e]
    {
      hide Inv, Legal, After, HistoryOf, InWindow, RunThread;
      match e
      case Construct(dummy, junk) => Construct(dummy, junk);
      case Refill(node, junk) => Refill(node, junk);
      case CallEnqueue(t, q, val, node) =>
        Here(t);
        BeginEnqueue(t, q, val, node);
      case CallDequeue(t, q) =>
        Here(t);
        BeginDequeue(t, q);
      case Run(t) =>
        Here(t);
        Step(t);
    }

    /** Any schedule of any threads: as long as no compared word is swung 2^17 times between
        its read and its comparison, the 64-bit words end as the packed image of the
        version-counted run, so all results about runs hold of the words. */
    method FollowSchedule(es: seq<Event>)
      requires Valid() && log == [] && Legal(threads, es) && Windowed(threads, es)
      modifies this
      ensures threads == old(threads) && log == es && Image(After(threads, es))
    {
      hide Inv, HistoryOf, Enabled, Image, InWindow, Next;
      var i := 0;
      while i < |es|
        invariant 0 <= i <= |es|
        invariant Valid() && threads == old(threads) && log == es[..i]
      {
        PrefixLegal(threads, es, i + 1);
        assert es[..i + 1][..i] == es[..i];
        Perform(es[i]);
        assert es[..i + 1] == es[..i] + [es[i]];
        i := i + 1;
      }
      assert es[..|es|] == es;
    }

    // ----- operations that run alone -----

    /** One round of the loop of Enqueue, lines 91 to 104. */
    method EnqueueRound(t: nat) returns (linked: bool)
      requires At(t) && State().locals[t].EnqReadTail?
      modifies this
      ensures At(t) && threads == old(threads) && OwnRun(old(log), log, t)
      ensures var l, m, h := old(State()).locals[t], State(), Past();
        && l.q < |old(State()).sh.queues| == |m.sh.queues|
        && m.sh.queues[l.q].head == old(State()).sh.queues[l.q].head
        && linked == (Lag(old(State()), old(Past()), l.q) == 0)
        && (linked ==>
              && m.locals[t] == EnqSwing(l.q, l.val, l.node, m.sh.queues[l.q].tail)
              && |h.qs| == |old(Past()).qs|
              && h.qs[l.q].vals == old(Past()).qs[l.q].vals + old(Past()).pval[t]
              && h.qs[l.q].taken == old(Past()).qs[l.q].taken)
        && (!linked ==>
              && m.locals[t] == l && h == old(Past())
              && Lag(m, h, l.q) == Lag(old(State()), h, l.q) - 1)
    {
      hide OwnInv, LocalInv, QueueInv, MemInv, RunThread, TrackRun, Legal, After, HistoryOf, InWindow,
           Valid, Image;
      ghost var m0, h0 := State(), Past();
      RunInv(threads, log);
      InRange(m0, h0, t);
      TailRead(m0, h0, t);
      ReadTail(t);
      ReadNext(t);
      linked := frames[t].Linking?;
      if linked {
        RunInv(threads, log);
        LinkAtTail(State(), h0, t);
        LinkNode(t);
      } else {
        RunInv(threads, log);
        HelpAtTail(State(), h0, t);
        SameWindow(State(), t);
        HelpTail(t);
      }
    }

    /** Lines 107 and 108. */
    method EnqueueFinish(t: nat)
      requires At(t) && State().locals[t].EnqSwing? && InWindow(State(), t)
      requires var l := State().locals[t];
        l.q < |State().sh.queues| && l.tl == State().sh.queues[l.q].tail
      modifies this
      ensures At(t) && threads == old(threads) && OwnRun(old(log), log, t) && Past() == old(Past())
      ensures var l := old(State()).locals[t];
        && State().locals[t] == EnqDone(l.q, l.val)
        && l.q < |old(State()).sh.queues| == |State().sh.queues|
        && State().sh.queues[l.q].head == old(State()).sh.queues[l.q].head
        && State().sh.queues[l.q].tail.addr == l.node
    {
      hide OwnInv, LocalInv, QueueInv, MemInv, RunThread, TrackRun, Legal, After, HistoryOf, InWindow,
           Valid, Image;
      ghost var h := Past();
      RunInv(threads, log);
      InRange(State(), h, t);
      FinishEnqueue(State(), h, t);
      SwingTail(t);
      FinishEnqueue(State(), h, t);
      CountUp(t);
    }

    /** The loop of Enqueue and what follows it, lines 89 to 109, when no other thread runs:
        whatever state it starts from, it publishes the thread's node with all nodes that
        hang from it at the end of the queue, in one round more than the tail lags. */
    method EnqueueLoop(t: nat) returns (rounds: nat)
      requires At(t) && State().locals[t].EnqReadTail?
      modifies this
      ensures At(t) && threads == old(threads) && OwnRun(old(log), log, t)
      ensures var l, h, h' := old(State()).locals[t], old(Past()), Past();
        && l.q < |old(State()).sh.queues| == |State().sh.queues| && |h'.qs| == |h.qs|
        && State().locals[t] == EnqDone(l.q, l.val)
        && State().sh.queues[l.q].head == old(State()).sh.queues[l.q].head
        && State().sh.queues[l.q].tail.addr == l.node
        && h'.qs[l.q].vals == h.qs[l.q].vals + h.pval[t] && h'.qs[l.q].taken == h.qs[l.q].taken
        && rounds == Lag(old(State()), h, l.q) + 1
    {
      hide OwnInv, LocalInv, QueueInv, MemInv, RunThread, TrackRun, Legal, After, HistoryOf, Lag, InWindow,
           Valid, Image, OwnRun;
      ghost var m0, h0 := State(), Past();
      RunInv(threads, log);
      ghost var l := m0.locals[t];
      InRange(m0, h0, t);
      LagBounds(m0, h0, l.q);
      rounds := 0;
      OwnRunTwo(log, t);
      var linked := false;
      while !linked
        invariant At(t) && threads == old(threads) && OwnRun(old(log), log, t)
        invariant l.q < |State().sh.queues| == |m0.sh.queues|
        invariant State().sh.queues[l.q].head == m0.sh.queues[l.q].head
        invariant !linked ==>
          && State().locals[t] == l && Past() == h0
          && 0 <= Lag(State(), h0, l.q) == Lag(m0, h0, l.q) - rounds
        invariant linked ==>
          && State().locals[t] == EnqSwing(l.q, l.val, l.node, State().sh.queues[l.q].tail)
          && |Past().qs| == |h0.qs| && Past().qs[l.q].vals == h0.qs[l.q].vals + h0.pval[t]
          && Past().qs[l.q].taken == h0.qs[l.q].taken && rounds == Lag(m0, h0, l.q) + 1
        decreases !linked, Lag(m0, h0, l.q) - rounds
      {
        ghost var before := log;
        linked := EnqueueRound(t);
        OwnRunTrans(old(log), before, log, t);
        rounds := rounds + 1;
        RunInv(threads, log);
        LagBounds(State(), Past(), l.q);
      }
      SameWindow(State(), t);
      ghost var before := log;
      EnqueueFinish(t);
      OwnRunTrans(old(log), before, log, t);
    }

    /** The result of a Dequeue that runs alone: the first published value not taken yet,
        or nothing if all are taken. */
    ghost predicate TookFirst(q: nat, h0: History, t: nat)
      reads this
      requires Legal(threads, log) && q < |h0.qs|
    {
      var m, h, g := State(), Past(), h0.qs[q];
      && |h.qs| == |h0.qs| && q < |m.sh.queues| && t < |m.locals| && h.qs[q].vals == g.vals
      && if |g.taken| < |g.vals|
         then m.locals[t] == DeqDone(q, Got(g.vals[|g.taken|])) && h.qs[q].taken == g.taken + [g.vals[|g.taken|]]
         else m.locals[t] == DeqDone(q, Vacant) && h.qs[q].taken == g.taken
    }

    /** Lines 145 and 146 with nothing left to help. */
    method DequeueSwing(t: nat)
      requires At(t) && State().locals[t].DeqReadData?
      requires State().locals[t].q < |State().sh.queues|
      requires State().locals[t].hd == State().sh.queues[State().locals[t].q].head
      modifies this
      ensures At(t) && threads == old(threads) && OwnRun(old(log), log, t)
      ensures var l, h, h0 := old(State()).locals[t], Past(), old(Past());
        && l.q < |h.qs| == |h0.qs| && l.hd.ver < |h0.qs[l.q].vals| && CanRun(State(), t)
        && State().locals[t] == DeqFree(l.q, l.hd.addr, h0.qs[l.q].vals[l.hd.ver])
        && h.qs[l.q].vals == h0.qs[l.q].vals
        && h.qs[l.q].taken == h0.qs[l.q].taken + [h0.qs[l.q].vals[l.hd.ver]]
    {
      hide Inv, RunThread, TrackRun, Legal, After, HistoryOf, InWindow, Valid, Image, OwnRun;
      OwnRunTwo(log, t);
      RunInv(threads, log);
      TakeFirst(State(), Past(), t);
      ReadData(t);
      SameHeadWindow(State(), t);
      SwingHead(t);
    }

    /** Lines 145 to 152 with nothing left to help. */
    method DequeueTake(t: nat)
      requires At(t) && State().locals[t].DeqReadData?
      requires State().locals[t].q < |State().sh.queues|
      requires State().locals[t].hd == State().sh.queues[State().locals[t].q].head
      modifies this
      ensures At(t) && threads == old(threads) && OwnRun(old(log), log, t)
      ensures old(State()).locals[t].q < |old(Past()).qs|
      ensures TookFirst(old(State()).locals[t].q, old(Past()), t)
    {
      hide Inv, Lag, RunThread, TrackRun, Legal, After, HistoryOf, InWindow, Valid, Image;
      ghost var m0, h0 := State(), Past();
      RunInv(threads, log);
      LagBounds(m0, h0, m0.locals[t].q);
      assert |h0.qs[m0.locals[t].q].taken| == m0.locals[t].hd.ver;
      DequeueSwing(t);
      FreeAlone(State(), Past(), t);
      FreeNode(t);
    }

    /** Lines 134 to 151, the head having just been read. */
    method DequeueBehindHead(t: nat) returns (done: bool)
      requires At(t) && State().locals[t].DeqReadTail?
      requires State().locals[t].q < |State().sh.queues|
      requires State().locals[t].hd == State().sh.queues[State().locals[t].q].head
      modifies this
      ensures At(t) && threads == old(threads) && OwnRun(old(log), log, t)
      ensures var l, h0 := old(State()).locals[t], old(Past());
        && l.q < |old(State()).sh.queues| == |h0.qs|
        && done == (Lag(old(State()), h0, l.q) == 0)
        && (done ==> TookFirst(l.q, h0, t))
        && (!done ==>
              && State().locals[t] == DeqReadHead(l.q) && Past() == h0 && l.q < |State().sh.queues|
              && Lag(State(), h0, l.q) == Lag(old(State()), h0, l.q) - 1)
    {
      hide OwnInv, LocalInv, QueueInv, MemInv, RunThread, TrackRun, Legal, After, HistoryOf, InWindow,
           Valid, Image, TookFirst;
      ghost var h0 := Past();
      RunInv(threads, log);
      TailReadToo(State(), h0, t);
      ReadTailToo(t);
      ReadTailNext(t);
      done := frames[t].ReadingData?;
      if done {
        DequeueTake(t);
      } else {
        RunInv(threads, log);
        HelpAtTail(State(), h0, t);
        SameWindow(State(), t);
        HelpTailToo(t);
      }
    }

    /** Lines 127 to 130, the head having just been read. */
    method DequeueVacant(t: nat)
      requires At(t) && State().locals[t].DeqRecheck?
      requires State().locals[t].q < |State().sh.queues|
      requires State().locals[t].hd == State().sh.queues[State().locals[t].q].head
      modifies this
      ensures At(t) && threads == old(threads) && OwnRun(old(log), log, t)
      ensures var q, h, h0 := old(State()).locals[t].q, Past(), old(Past());
        && State().locals[t] == DeqDone(q, Vacant) && q < |State().sh.queues| == |h.qs| == |h0.qs|
        && h.qs[q].vals == h0.qs[q].vals && h.qs[q].taken == h0.qs[q].taken
    {
      hide Inv, RunThread, TrackRun, Legal, After, HistoryOf, InWindow, Valid, Image;
      VacantAlone(State(), Past(), t);
      SameHeadWindow(State(), t);
      RecheckHead(t);
    }

    /** Lines 122 to 127 without interference. */
    method DequeueLook(t: nat)
      requires At(t) && State().locals[t].DeqReadHead?
      modifies this
      ensures At(t) && threads == old(threads) && OwnRun(old(log), log, t)
      ensures State().sh == old(State().sh) && Past() == old(Past())
      ensures var q := old(State()).locals[t].q;
        && q < |State().sh.queues| == |Past().qs|
        && var w := State().sh.queues[q];
           && w.head.addr in State().sh.next && |Past().qs[q].taken| == w.head.ver
           && State().locals[t] ==
                if |Past().qs[q].vals| == w.head.ver then DeqRecheck(q, w.head)
                else DeqReadTail(q, w.head, State().sh.next[w.head.addr])
    {
      hide Inv, Lag, RunThread, TrackRun, Legal, After, HistoryOf, Valid, Image, OwnRun;
      OwnRunTwo(log, t);
      RunInv(threads, log);
      InRange(State(), Past(), t);
      LagBounds(State(), Past(), State().locals[t].q);
      HeadRead(State(), Past(), t);
      ReadHead(t);
      ReadHeadNext(t);
    }

    /** One round of the loop of Dequeue, lines 122 to 151. */
    method DequeueRound(t: nat) returns (done: bool)
      requires At(t) && State().locals[t].DeqReadHead?
      modifies this
      ensures At(t) && threads == old(threads) && OwnRun(old(log), log, t)
      ensures var l, h0 := old(State()).locals[t], old(Past());
        && l.q < |old(State()).sh.queues| == |h0.qs|
        && done == (|h0.qs[l.q].taken| == |h0.qs[l.q].vals| || Lag(old(State()), h0, l.q) == 0)
        && (done ==> TookFirst(l.q, h0, t))
        && (!done ==>
              && State().locals[t] == l && Past() == h0 && l.q < |State().sh.queues|
              && Lag(State(), h0, l.q) == Lag(old(State()), h0, l.q) - 1)
    {
      hide Inv, RunThread, TrackRun, Legal, After, HistoryOf, InWindow, Valid, Image;
      DequeueLook(t);
      if frames[t].Rechecking? {
        DequeueVacant(t);
        done := true;
      } else {
        done := DequeueBehindHead(t);
      }
    }

    /** The loop of Dequeue, lines 120 to 152, when no other thread runs: it takes the first
        element in one round more than the tail lags, or finds the queue empty at once. */
    method DequeueLoop(t: nat) returns (rounds: nat)
      requires At(t) && State().locals[t].DeqReadHead?
      modifies this
      ensures At(t) && threads == old(threads) && OwnRun(old(log), log, t)
      ensures var l, h0 := old(State()).locals[t], old(Past());
        && l.q < |old(State()).sh.queues| == |h0.qs|
        && TookFirst(l.q, h0, t)
        && rounds == if |h0.qs[l.q].taken| == |h0.qs[l.q].vals| then 1 else Lag(old(State()), h0, l.q) + 1
    {
      hide OwnInv, LocalInv, QueueInv, MemInv, RunThread, TrackRun, Legal, After, HistoryOf, Lag, InWindow,
           Valid, Image, TookFirst;
      ghost var m0, h0 := State(), Past();
      RunInv(threads, log);
      ghost var l := m0.locals[t];
      InRange(m0, h0, t);
      LagBounds(m0, h0, l.q);
      rounds := 0;
      var done := false;
      while !done
        invariant At(t) && threads == old(threads) && OwnRun(old(log), log, t)
        invariant !done ==>
          && State().locals[t] == l && Past() == h0 && l.q < |State().sh.queues|
          && 0 <= Lag(State(), h0, l.q) == Lag(m0, h0, l.q) - rounds
          && (|h0.qs[l.q].taken| == |h0.qs[l.q].vals| ==> rounds == 0)
        invariant done ==>
          && TookFirst(l.q, h0, t)
          && rounds == if |h0.qs[l.q].taken| == |h0.qs[l.q].vals| then 1 else Lag(m0, h0, l.q) + 1
        decreases !done, Lag(m0, h0, l.q) - rounds
      {
        done := DequeueRound(t);
        rounds := rounds + 1;
        if !done {
          RunInv(threads, log);
          LagBounds(State(), h0, l.q);
        }
      }
    }

    // ----- the public operations -----

    /** Memory holds exactly vs in queue q. */
    ghost predicate Holds(q: nat, vs: seq<Data>)
      reads this
      requires Legal(threads, log)
    {
      var s := State().sh;
      q < |s.queues| && Reads(s, s.queues[q].head.addr, s.queues[q].code, vs)
    }

    /** The fields after a call that ran alone, but for what the call is for. */
    twostate lemma FieldsKept(c: Event)
      requires old(Valid()) && Valid() && threads == old(threads)
      requires (c.CallEnqueue? || c.CallDequeue?) && Enabled(old(State()), c) && Legal(threads, old(log) + [c])
      requires OthersKept(After(threads, old(log) + [c]), State(), c.t, c.q)
      ensures var m0, m, q := old(State()), State(), c.q;
        && c.t < |m.locals| && q < |m.sh.queues| && q < |m0.sh.queues|
        && |frames| == |old(frames)| && frames == old(frames)[c.t := Packed(m.locals[c.t])]
        && next == m.sh.next && data == m.sh.data && pool == m.sh.pool
        && old(next) == m0.sh.next && old(data) == m0.sh.data && old(pool) == m0.sh.pool
        && uniqueCode == old(uniqueCode) && myCode == old(myCode)
        && q < |head| == |tail| == |size| == |myCode| == |m.sh.queues|
        && q < |old(head)| == |old(tail)| == |old(size)| == |old(myCode)| == |m0.sh.queues|
        && head == old(head)[q := Pack(m.sh.queues[q].head)] && old(head)[q] == Pack(m0.sh.queues[q].head)
        && tail == old(tail)[q := Pack(m.sh.queues[q].tail)] && old(tail)[q] == Pack(m0.sh.queues[q].tail)
        && size == old(size)[q := m.sh.queues[q].size] && old(size)[q] == m0.sh.queues[q].size
        && myCode[q] == m0.sh.queues[q].code
    {
      hide Inv, Legal, After, HistoryOf, Pack, Packed, Next;
      var qs0, qs := old(State()).sh.queues, State().sh.queues;
      LegalPush(threads, old(log), c);
      CallKeepsQueues(old(State()), c);
      assert old(Image(State()));
      QueueWordsKept(old(head), old(tail), old(size), old(myCode), qs0, head, tail, size, myCode, qs, c.q);
    }

    /** The contents of other queues. */
    lemma OthersHold(n: nat, es0: seq<Event>, c: Event, t: nat, r: nat, vs: seq<Data>)
      requires Valid() && n == threads && Legal(n, es0) && Calls(c, t) && Enabled(After(n, es0), c)
      requires Legal(n, es0 + [c]) && OwnRun(es0 + [c], log, t)
      requires r < |State().sh.queues| && r < |After(n, es0).sh.queues| && r != c.q
      ensures var s := After(n, es0).sh; Reads(s, s.queues[r].head.addr, s.queues[r].code, vs) <==> Holds(r, vs)
    {
      hide Inv, Legal, After, Reads, HistoryOf, Valid, Image, Next, Track;
      LegalPush(n, es0, c);
      HistoryPush(n, es0, c);
      CallKeepsHistory(After(n, es0), HistoryOf(n, es0), c, t);
      OwnRunHistory(n, es0 + [c], log, t);
      FifoByPublication(n, es0, r, vs);
      FifoByPublication(n, log, r, vs);
    }

    /** Enqueue, running alone, appends its argument, and does nothing else: it takes the given
        node, fills it, links it behind the last one, moves the tail to it and counts it. In a
        prompt run it takes at most two rounds. */
    method Enqueue(t: nat, q: nat, val: Data, node: nat) returns (rounds: nat)
      requires Valid() && MayCall(t, q) && node in pool
      modifies this
      ensures Valid() && threads == old(threads) && OwnRun(old(log) + [CallEnqueue(t, q, val, node)], log, t)
      ensures frames == old(frames)[t := Enqueued(q, val)]
      ensures pool == old(pool) - {node} && data == old(data)[node := val]
      ensures exists a :: LinkedBehind(old(next), next, old(myCode)[q], node, a)
      ensures uniqueCode == old(uniqueCode) && myCode == old(myCode) && head == old(head)
      ensures |tail| == |old(tail)| && tail == old(tail)[q := tail[q]] && RealAddress(tail[q]) == node
      ensures size == old(size)[q := old(size)[q] + 1]
      ensures forall vs :: old(Holds(q, vs)) ==> Holds(q, vs + [val])
      ensures forall r: nat, vs :: r != q ==> (old(Holds(r, vs)) <==> Holds(r, vs))
      ensures old(Prompt(threads, log)) ==> rounds <= 2
    {
      hide OwnInv, LocalInv, QueueInv, MemInv, RunThread, TrackRun, Legal, After, HistoryOf, InWindow,
           Valid, Image, Next, Track, Prompt, Reads, OwnRun;
      ghost var n, es0, m0 := threads, log, State();
      rounds := EnqueueCall(t, q, val, node);
      EnqueueFields(CallEnqueue(t, q, val, node));
      forall r: nat, vs | r != q ensures old(Holds(r, vs)) <==> Holds(r, vs) {
        if r < |State().sh.queues| {
          OthersHold(n, es0, CallEnqueue(t, q, val, node), t, r, vs);
        }
      }
    }

    /** The contents after an Enqueue that runs alone. */
    method EnqueueCall(t: nat, q: nat, val: Data, node: nat) returns (rounds: nat)
      requires Valid() && MayCall(t, q) && node in pool
      modifies this
      ensures At(t) && threads == old(threads) && frames[t] == Enqueued(q, val)
      ensures Enabled(old(State()), CallEnqueue(t, q, val, node))
      ensures Legal(threads, old(log) + [CallEnqueue(t, q, val, node)])
      ensures OwnRun(old(log) + [CallEnqueue(t, q, val, node)], log, t)
      ensures State().locals[t] == EnqDone(q, val)
      ensures q < |State().sh.queues| == |old(State()).sh.queues| && State().sh.queues[q].tail.addr == node
      ensures forall vs :: old(Holds(q, vs)) ==> Holds(q, vs + [val])
      ensures old(Prompt(threads, log)) ==> rounds <= 2
    {
      hide OwnInv, LocalInv, QueueInv, MemInv, RunThread, TrackRun, Legal, After, HistoryOf, InWindow,
           Valid, Image, Next, Track, Prompt, Reads;
      ghost var n, es0, m0, h0 := threads, log, State(), Past();
      BeginEnqueue(t, q, val, node);
      RunInv(n, es0);
      StartEnqueue(m0, h0, CallEnqueue(t, q, val, node));
      WriteData(t);
      WriteNext(t);
      rounds := EnqueueLoop(t);
      forall vs | old(Holds(q, vs)) ensures Holds(q, vs + [val]) {
        FifoByPublication(n, es0, q, vs);
        FifoByPublication(n, log, q, vs + [val]);
        assert h0.qs[q].taken + (vs + [val]) == (h0.qs[q].taken + vs) + [val];
      }
      if Prompt(n, es0) {
        LagOfRun(n, es0, q);
      }
    }

    twostate lemma EnqueueFields(c: Event)
      requires old(Valid()) && Valid() && threads == old(threads) && c.CallEnqueue?
      requires Enabled(old(State()), c)
      requires Legal(threads, old(log) + [c])
      requires OwnRun(old(log) + [c], log, c.t)
      requires c.t < |State().locals| && State().locals[c.t] == EnqDone(c.q, c.val)
      requires c.q < |State().sh.queues| == |old(State()).sh.queues| && State().sh.queues[c.q].tail.addr == c.node
      ensures c.q < |old(myCode)| && c.q < |old(size)| && c.q < |tail| && c.t < |old(frames)|
      ensures frames == old(frames)[c.t := Enqueued(c.q, c.val)]
      ensures pool == old(pool) - {c.node} && data == old(data)[c.node := c.val]
      ensures exists a :: LinkedBehind(old(next), next, old(myCode)[c.q], c.node, a)
      ensures uniqueCode == old(uniqueCode) && myCode == old(myCode) && head == old(head)
      ensures |tail| == |old(tail)| && tail == old(tail)[c.q := tail[c.q]] && RealAddress(tail[c.q]) == c.node
      ensures size == old(size)[c.q := old(size)[c.q] + 1]
    {
      hide Inv, Legal, After, HistoryOf, Valid, Image, OwnRun, RealAddress, Pack;
      var es1 := old(log) + [c];
      LegalPush(threads, old(log), c);
      var m1 := After(threads, es1);
      RunInv(threads, es1);
      OwnsNode(m1, HistoryOf(threads, es1), c.t);
      OwnRunEnqueue(threads, es1, log, c.t);
      FieldsKept(c);
      RunInv(threads, log);
      WordsUnpack(State(), Past(), c.q);
      PackRoundTrip(State().sh.queues[c.q].tail);
    }

    /** Dequeue, running alone: with a size of zero or less it fails and changes nothing;
        otherwise it counts down and returns the first element, frees the node at the head
        and moves the head, or returns Vacant if there is none, which in an orderly run
        cannot be. In a prompt run it takes at most two rounds. */
    method Dequeue(t: nat, q: nat) returns (out: Outcome, rounds: nat)
      requires Valid() && MayCall(t, q)
      modifies this
      ensures Valid() && threads == old(threads) && OwnRun(old(log) + [CallDequeue(t, q)], log, t)
      ensures frames == old(frames)[t := Dequeued(q, out)]
      ensures q < |old(State()).sh.queues| && (out.Short? <==> old(size)[q] <= 0)
      ensures next == old(next) && data == old(data) && uniqueCode == old(uniqueCode) && myCode == old(myCode)
      ensures size == old(size)[q := old(size)[q] - (if out.Short? then 0 else 1)]
      ensures out.Got? ==>
        var dummy := RealAddress(old(head)[q]);
        && dummy in next && pool == old(pool) + {dummy}
        && head == old(head)[q := Join(next[dummy], NextIndex(old(head)[q]))]
      ensures !out.Got? ==> pool == old(pool) && head == old(head)
      ensures |tail| == |old(tail)| && tail == old(tail)[q := tail[q]] && (out.Short? ==> tail == old(tail))
      ensures out.Got? ==> RealAddress(tail[q]) in next && next[RealAddress(tail[q])] == myCode[q]
      ensures out.Got? ==> forall vs :: old(Holds(q, [out.val] + vs)) <==> Holds(q, vs)
      ensures !out.Got? ==> forall vs :: old(Holds(q, vs)) <==> Holds(q, vs)
      ensures forall r: nat, vs :: r != q ==> (old(Holds(r, vs)) <==> Holds(r, vs))
      ensures out.Vacant? ==> old(Holds(q, [])) && !old(Orderly(threads, log))
      ensures old(Prompt(threads, log)) ==> rounds <= 2
    {
      hide OwnInv, LocalInv, QueueInv, MemInv, RunThread, TrackRun, Legal, After, HistoryOf, InWindow,
           Valid, Image, Next, Track, Prompt, Reads, Orderly, OwnRun;
      ghost var n, es0 := threads, log;
      out, rounds := DequeueCall(t, q);
      DequeueFields(CallDequeue(t, q));
      forall r: nat, vs | r != q ensures old(Holds(r, vs)) <==> Holds(r, vs) {
        if r < |State().sh.queues| {
          OthersHold(n, es0, CallDequeue(t, q), t, r, vs);
        }
      }
    }

    /** The result and the contents after a Dequeue that runs alone. */
    method DequeueCall(t: nat, q: nat) returns (out: Outcome, rounds: nat)
      requires Valid() && MayCall(t, q)
      modifies this
      ensures At(t) && threads == old(threads) && frames[t] == Dequeued(q, out)
      ensures Enabled(old(State()), CallDequeue(t, q)) && Legal(threads, old(log) + [CallDequeue(t, q)])
      ensures OwnRun(old(log) + [CallDequeue(t, q)], log, t)
      ensures State().locals[t] == DeqDone(q, out)
      ensures q < |State().sh.queues| == |old(State()).sh.queues|
      ensures out.Short? <==> old(State()).sh.queues[q].size <= 0
      ensures out.Got? ==> forall vs :: old(Holds(q, [out.val] + vs)) <==> Holds(q, vs)
      ensures !out.Got? ==> forall vs :: old(Holds(q, vs)) <==> Holds(q, vs)
      ensures out.Vacant? ==> old(Holds(q, [])) && !old(Orderly(threads, log))
      ensures old(Prompt(threads, log)) ==> rounds <= 2
    {
      hide OwnInv, LocalInv, QueueInv, MemInv, RunThread, TrackRun, Legal, After, HistoryOf, InWindow,
           Valid, Image, Prompt, Reads, Orderly;
      ghost var n, es0 := threads, log;
      BeginDequeue(t, q);
      rounds := DequeueReserved(t, n, es0);
      out := frames[t].out;
      if out.Short? {
        forall vs ensures old(Holds(q, vs)) <==> Holds(q, vs) {
          FifoByPublication(n, es0, q, vs);
          FifoByPublication(n, log, q, vs);
        }
      } else {
        TakenAlone(n, es0, q, t);
      }
      if Prompt(n, es0) {
        LagOfRun(n, es0, q);
      }
    }

    twostate lemma DequeueFields(c: Event)
      requires old(Valid()) && Valid() && threads == old(threads) && c.CallDequeue?
      requires Enabled(old(State()), c) && Legal(threads, old(log) + [c])
      requires OwnRun(old(log) + [c], log, c.t)
      requires c.t < |State().locals| && State().locals[c.t].DeqDone? && State().locals[c.t].q == c.q
      requires c.q < |State().sh.queues| == |old(State()).sh.queues|
      ensures |tail| == |old(tail)| && |myCode| == |old(myCode)| == |old(size)| == |old(head)| == |tail|
      ensures c.q < |tail| && c.t < |old(frames)| && old(size)[c.q] == old(State()).sh.queues[c.q].size
      ensures next == old(next) && data == old(data) && uniqueCode == old(uniqueCode) && myCode == old(myCode)
      ensures var q, out, dummy := c.q, State().locals[c.t].out, RealAddress(old(head)[c.q]);
        && frames == old(frames)[c.t := Dequeued(q, out)]
        && size == old(size)[q := old(size)[q] - (if out.Short? then 0 else 1)]
        && (out.Got? ==>
              && dummy in next && pool == old(pool) + {dummy}
              && head == old(head)[q := Join(next[dummy], NextIndex(old(head)[q]))]
              && RealAddress(tail[q]) in next && next[RealAddress(tail[q])] == myCode[q])
        && (!out.Got? ==> pool == old(pool) && head == old(head))
        && tail == old(tail)[q := tail[q]] && (out.Short? ==> tail == old(tail))
    {
      hide Inv, Legal, After, HistoryOf, Valid, Image, OwnRun, RealAddress, Pack, Join, NextIndex, Next, Pow2;
      var es1 := old(log) + [c];
      LegalPush(threads, old(log), c);
      var m1 := After(threads, es1);
      DequeueStarts(old(State()), c);
      OwnRunDequeue(threads, es1, log, c.t);
      FieldsKept(c);
      RunInv(threads, log);
      WordsUnpack(State(), Past(), c.q);
      PackRoundTrip(State().sh.queues[c.q].tail);
      RunInv(threads, old(log));
      WordsUnpack(old(State()), HistoryOf(threads, old(log)), c.q);
      PackRoundTrip(old(State()).sh.queues[c.q].head);
      JoinIsNextVersion(old(State()).sh.queues[c.q].head, State().sh.queues[c.q].head.addr);
    }

    /** The law of the sequential queue: after an orderly run, with all threads at rest, an
        Enqueue of val and then a Dequeue by any thread return the first of what the queue held
        and val, and leave the rest. */
    method EnqueueThenDequeue(t: nat, u: nat, q: nat, val: Data, node: nat) returns (out: Outcome)
      requires Valid() && Orderly(threads, log) && node in pool && t < |frames| && u < |frames|
      requires forall v | 0 <= v < |frames| :: MayCall(v, q)
      modifies this
      ensures Valid() && threads == old(threads)
      ensures forall vs :: old(Holds(q, vs)) ==> out == Got((vs + [val])[0]) && Holds(q, (vs + [val])[1..])
    {
      hide Inv, Legal, After, HistoryOf, Valid, Image, Reads, Orderly, OwnRun, Prompt, Join, NextIndex, RealAddress,
           LinkedBehind, Links, Returns, Lost, Count;
      assert MayCall(t, q) && MayCall(u, q);
      Here(t);
      forall vs | Holds(q, vs) ensures size[q] == |vs| {
        SizeAndContents(q, vs);
      }
      var rounds := Enqueue(t, q, val, node);
      ghost var s1 := State().sh;
      forall vs | old(Holds(q, vs)) ensures Reads(s1, s1.queues[q].head.addr, s1.queues[q].code, vs + [val]) {
        assert Holds(q, vs + [val]);
      }
      assert MayCall(u, q);
      out, rounds := Dequeue(u, q);
      ghost var rest := SomeContents(q);
      forall vs | old(Holds(q, vs)) ensures out == Got((vs + [val])[0]) && Holds(q, (vs + [val])[1..]) {
        ReadsUnique(s1, s1.queues[q].head.addr, s1.queues[q].code, vs + [val],
                    if out.Got? then [out.val] + rest else []);
      }
    }

    lemma SomeContents(q: nat) returns (vs: seq<Data>)
      requires Valid() && q < |head|
      ensures Holds(q, vs)
    {
      hide Legal, After, HistoryOf, OwnInv, LocalInv, MemInv, Packed, Pack;
      RunInv(threads, log);
      assert QueueInv(State().sh, Past(), q);
      vs := Past().qs[q].vals[State().sh.queues[q].head.ver..];
      ReadsFrom(State(), Past(), q, State().sh.queues[q].head.ver);
    }

    /** Lines 114 to 152, right after the call. */
    method DequeueReserved(t: nat, ghost n: nat, ghost es0: seq<Event>) returns (rounds: nat)
      requires At(t) && State().locals[t].DeqReserve? && State().locals[t].q < |State().sh.queues|
      requires n == threads && Legal(n, es0) && HistoryOf(n, es0) == Past()
      requires State().sh.queues == After(n, es0).sh.queues
      modifies this
      ensures At(t) && threads == old(threads) && OwnRun(old(log), log, t)
      ensures var q, m0, h0 := old(State().locals[t].q), After(n, es0), HistoryOf(n, es0);
        && q < |m0.sh.queues| == |h0.qs|
        && if m0.sh.queues[q].size <= 0
           then State().locals[t] == DeqDone(q, Short) && rounds == 0
                && |Past().qs| == |h0.qs| && q < |State().sh.queues|
                && Past().qs[q].vals == h0.qs[q].vals && Past().qs[q].taken == h0.qs[q].taken
           else TookFirst(q, h0, t) && rounds <= Lag(m0, h0, q) + 1
    {
      hide OwnInv, LocalInv, QueueInv, MemInv, RunThread, TrackRun, Legal, After, HistoryOf, InWindow,
           Valid, Image, TookFirst;
      ghost var h0, q := Past(), State().locals[t].q;
      RunInv(threads, log);
      ReserveAlone(State(), h0, t);
      Reserve(t);
      rounds := 0;
      RunInv(threads, log);
      LagBounds(State(), h0, q);
      if frames[t].Restoring? {
        Restore(t);
      } else {
        rounds := DequeueLoop(t);
      }
    }

    /** What taking the first published value means for the contents. */
    lemma TakenAlone(n: nat, es0: seq<Event>, q: nat, t: nat)
      requires Valid() && n == threads && Legal(n, es0) && q < |HistoryOf(n, es0).qs|
      requires q < |After(n, es0).sh.queues| && After(n, es0).sh.queues[q].size > 0
      requires TookFirst(q, HistoryOf(n, es0), t)
      ensures var s0, out := After(n, es0).sh, State().locals[t].out;
        && (out.Got? ==> forall vs ::
              Reads(s0, s0.queues[q].head.addr, s0.queues[q].code, [out.val] + vs) <==> Holds(q, vs))
        && (out.Vacant? ==>
              && Reads(s0, s0.queues[q].head.addr, s0.queues[q].code, []) && !Orderly(n, es0)
              && forall vs ::
                   Reads(s0, s0.queues[q].head.addr, s0.queues[q].code, vs) <==> Holds(q, vs))
    {
      hide Inv, Legal, After, HistoryOf, Valid, Image, Reads, Orderly;
      var s0, g, out := After(n, es0).sh, HistoryOf(n, es0).qs[q], State().locals[t].out;
      if out.Got? {
        forall vs ensures
          Reads(s0, s0.queues[q].head.addr, s0.queues[q].code, [out.val] + vs) <==> Holds(q, vs)
        {
          FifoByPublication(n, es0, q, [out.val] + vs);
          FifoByPublication(n, log, q, vs);
          assert g.taken + ([out.val] + vs) == (g.taken + [out.val]) + vs;
        }
      } else {
        forall vs ensures
          Reads(s0, s0.queues[q].head.addr, s0.queues[q].code, vs) <==> Holds(q, vs)
        {
          FifoByPublication(n, es0, q, vs);
          FifoByPublication(n, log, q, vs);
        }
        TakenIsPrefix(n, es0, q);
        FifoByPublication(n, es0, q, []);
        if Orderly(n, es0) {
          SizeIsLengthAtRest(n, es0, q, []);
        }
      }
    }

    /** GetUseSize: in any run, links minus dequeues minus lost reservations, minus the threads
        between two related accesses; in an orderly run at most the number of elements, and
        that number when every thread rests. */
    method GetUseSize(q: nat) returns (r: int)
      requires Valid() && q < |head|
      ensures r == size[q]
      ensures r == |Links(threads, log, q)| - |Returns(threads, log, q)| - Lost(threads, log, q)
                   - Count(LinkedNotCounted, q, State().locals) - Count(Reserved, q, State().locals)
                   - Count(Failing, q, State().locals)
      ensures 0 <= r + threads
      ensures Orderly(threads, log) ==> forall vs :: Holds(q, vs) ==> r <= |vs|
      ensures Orderly(threads, log) && (forall t | 0 <= t < |frames| :: MayCall(t, q)) ==>
        forall vs :: Holds(q, vs) ==> r == |vs|
    {
      hide Inv, Legal, After, HistoryOf, Reads, Orderly, Links, Returns, Lost, Count;
      r := size[q];
      SizeOfSchedule(threads, log, q);
      ThreadsOfRun(threads, log);
      CountBounds(Failing, q, State().locals);
      if Orderly(threads, log) {
        forall vs | Holds(q, vs)
          ensures r <= |vs|
          ensures (forall t | 0 <= t < |frames| :: MayCall(t, q)) ==> r == |vs|
        {
          SizeAndContents(q, vs);
        }
      }
    }

    lemma SizeAndContents(q: nat, vs: seq<Data>)
      requires Valid() && Orderly(threads, log) && Holds(q, vs) && q < |size|
      ensures size[q] <= |vs|
      ensures (forall t | 0 <= t < |frames| :: MayCall(t, q)) ==> size[q] == |vs|
    {
      hide Inv, Legal, After, HistoryOf, Reads, Orderly, Count;
      SizeIsLengthAtRest(threads, log, q, vs);
      if forall t | 0 <= t < |frames| :: MayCall(t, q) {
        forall t | 0 <= t < |frames| ensures AtRest(State().locals[t]) {
          assert MayCall(t, q) && frames[t] == Packed(State().locals[t]);
        }
      }
    }
  }

  lemma DequeueStarts(m: Machine, c: Event)
    requires Enabled(m, c) && c.CallDequeue?
    ensures var m1 := Next(m, c);
      c.t < |m1.locals| && m1.locals[c.t] == DeqReserve(c.q) && m1.sh == m.sh && c.q < |m.sh.queues|
  {
  }

  lemma CallKeepsQueues(m: Machine, c: Event)
    requires Enabled(m, c) && (c.CallEnqueue? || c.CallDequeue?)
    ensures var m1 := Next(m, c);
      && m1.sh.queues == m.sh.queues && m1.sh.uniqueCode == m.sh.uniqueCode
      && c.t < |m1.locals| == |m.locals| && m1.locals == m.locals[c.t := m1.locals[c.t]]
  {
  }

  lemma CallKeepsHistory(m: Machine, h: History, c: Event, t: nat)
    requires Shaped(m, h) && Enabled(m, c) && Calls(c, t)
    ensures Track(m, h, c).qs == h.qs && t < |Next(m, c).locals|
    ensures !Next(m, c).locals[t].Idle? && Next(m, c).locals[t].q == c.q
  {
  }

  lemma TakenIsPrefix(n: nat, es: seq<Event>, q: nat)
    requires Legal(n, es) && q < |After(n, es).sh.queues|
    ensures q < |HistoryOf(n, es).qs| && HistoryOf(n, es).qs[q].taken <= HistoryOf(n, es).qs[q].vals
  {
    hide OwnInv, LocalInv, QueueInv, MemInv, Legal, After, HistoryOf;
    RunInv(n, es);
    LagBounds(After(n, es), HistoryOf(n, es), q);
  }

  /** A word compared right after it was read is in the window. */
  lemma SameWindow(m: Machine, t: nat)
    requires t < |m.locals|
    requires var l := m.locals[t];
      (l.EnqHelp? || l.EnqSwing? || l.DeqHelp?) && l.q < |m.sh.queues| && l.tl == m.sh.queues[l.q].tail
    ensures InWindow(m, t)
  {
  }

  lemma {:induction false} PrefixLegal(n: nat, es: seq<Event>, k: nat)
    requires Legal(n, es) && Windowed(n, es) && k <= |es|
    ensures Legal(n, es[..k]) && Windowed(n, es[..k])
  {
    hide Enabled, InWindow, Next;
    if k < |es| {
      PrefixLegal(n, es[..|es| - 1], k);
      assert es[..|es| - 1][..k] == es[..k];
    } else {
      assert es[..k] == es;
    }
  }

  lemma SameHeadWindow(m: Machine, t: nat)
    requires t < |m.locals|
    requires var l := m.locals[t];
      (l.DeqRecheck? || l.DeqCas?) && l.q < |m.sh.queues| && l.hd == m.sh.queues[l.q].head
    ensures InWindow(m, t)
  {
  }
}
