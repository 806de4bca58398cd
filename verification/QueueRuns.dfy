/** Runs of the machine under an arbitrary scheduler, and what every run keeps. */
module QueueRuns {
  import opened QueueMachine
  import opened QueueHistory
  import opened QueueSteps
  import opened QueueLink

  ghost predicate Untracked(l: Local) {
    l.EnqFill? || l.EnqReadTail? || l.EnqReadNext? || l.EnqHelp? || l.EnqSwing?
    || l.DeqReadHead? || l.DeqReadNext? || l.DeqReadTail? || l.DeqReadTailNext? || l.DeqHelp?
    || l.DeqReadData?
  }

  lemma UntrackedStep(m: Machine, h: History, t: nat)
    requires Inv(m, h) && CanRun(m, t) && Untracked(m.locals[t])
    ensures Inv(RunThread(m, t), h)
  {
    hide Inv, RunThread;
    var l := m.locals[t];
    if l.EnqFill? {
      FillStep(m, h, t);
    } else if l.EnqReadTail? {
      ReadTailStep(m, h, t);
    } else if l.EnqReadNext? {
      ReadNextStep(m, h, t);
    } else if l.EnqHelp? || l.EnqSwing? || l.DeqHelp? {
      TailSwingStep(m, h, t);
    } else if l.DeqReadTailNext? {
      DeqReadTailNextStep(m, h, t);
    } else if l.DeqReadData? {
      DeqReadDataStep(m, h, t);
    } else {
      DeqReadStep(m, h, t);
    }
  }

  lemma TrackedStep(m: Machine, h: History, t: nat)
    requires Inv(m, h) && CanRun(m, t) && !Untracked(m.locals[t])
    ensures Inv(RunThread(m, t), TrackRun(m.sh, h, t, m.locals[t]))
  {
    hide MemInv, QueueInv, OwnInv, LocalInv, RunThread, TrackRun;
    var l := m.locals[t];
    if l.EnqSeal? {
      SealStep(m, h, t);
    } else if l.EnqLink? {
      LinkStep(m, h, t);
    } else if l.DeqCas? {
      HeadSwingStep(m, h, t);
    } else if l.DeqFree? {
      FreeStep(m, h, t);
    } else {
      CountStep(m, h, t);
    }
  }

  lemma RunStep(m: Machine, h: History, t: nat)
    requires Inv(m, h) && CanRun(m, t)
    ensures Inv(RunThread(m, t), TrackRun(m.sh, h, t, m.locals[t]))
  {
    hide MemInv, QueueInv, OwnInv, LocalInv, RunThread;
    if Untracked(m.locals[t]) {
      UntrackedStep(m, h, t);
    } else {
      TrackedStep(m, h, t);
    }
  }

  /** Only line 145 can read an address that is not a node. */
  lemma NoOtherFault(m: Machine, h: History, t: nat)
    requires Inv(m, h) && CanRun(m, t) && !m.locals[t].DeqReadData?
    ensures !RunThread(m, t).locals[t].Faulted?
  {
    hide OwnInv, QueueInv;
    var l := m.locals[t];
    assert LocalInv(m.sh, h, t, l);
    if l.EnqReadNext? || l.EnqLink? || l.DeqReadTailNext? {
      NextOfSaved(m, h, l.q, l.tl);
    } else if l.DeqReadNext? {
      NextOfSaved(m, h, l.q, l.hd);
    }
  }

  /** Every event of every thread, and every growth of memory, keeps the invariant. */
  lemma StepInv(m: Machine, h: History, e: Event)
    requires Inv(m, h) && Enabled(m, e)
    ensures Inv(Next(m, e), Track(m, h, e))
  {
    hide MemInv, QueueInv, OwnInv, LocalInv, RunThread, TrackRun;
    if e.Run? {
      RunStep(m, h, e.t);
    } else if e.CallEnqueue? {
      CallEnqueueStep(m, h, e);
    } else if e.CallDequeue? {
      CallDequeueStep(m, h, e);
    } else {
      GrowStep(m, h, e);
    }
  }

  /** es is a schedule that the machine with n threads can follow from its initial state. */
  predicate Legal(n: nat, es: seq<Event>)
    decreases |es|, 0
  {
    es == [] || (Legal(n, es[..|es| - 1]) && Enabled(After(n, es[..|es| - 1]), es[|es| - 1]))
  }

  function After(n: nat, es: seq<Event>): Machine
    requires Legal(n, es)
    decreases |es|, 1
  {
    if es == [] then Boot(n) else Next(After(n, es[..|es| - 1]), es[|es| - 1])
  }

  lemma TrackShaped(m: Machine, h: History, e: Event)
    requires Shaped(m, h) && Enabled(m, e)
    ensures Shaped(Next(m, e), Track(m, h, e))
  {
  }

  /** The history of a run. */
  ghost function HistoryOf(n: nat, es: seq<Event>): (h: History)
    requires Legal(n, es)
    decreases |es|, 2
    ensures Shaped(After(n, es), h)
  {
    hide Next, Track, Enabled;
    if es == [] then Begin(n)
    else
      var m, h := After(n, es[..|es| - 1]), HistoryOf(n, es[..|es| - 1]);
      TrackShaped(m, h, es[|es| - 1]);
      Track(m, h, es[|es| - 1])
  }

  /** Every reachable state meets the invariant with the history of its run. */
  lemma {:induction false} RunInv(n: nat, es: seq<Event>)
    requires Legal(n, es)
    ensures Inv(After(n, es), HistoryOf(n, es))
  {
    hide Inv, Next, Track, Enabled;
    if es == [] {
      BootInv(n);
    } else {
      var p, e := es[..|es| - 1], es[|es| - 1];
      RunInv(n, p);
      StepInv(After(n, p), HistoryOf(n, p), e);
    }
  }
}
