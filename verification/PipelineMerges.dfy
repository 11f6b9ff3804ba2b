/** The merge lease and Recover: two pipelines are inside the merge at once only if Recover takes the lease of a
    running one away, and what a recovery leaves behind. */
module PipelineMerges {
  import opened Leases
  import opened Options
  import opened LeaseStore
  import opened Pipeline
  import opened PipelineOwnership

  // Inside the merge, by its own account, for the issue `o`.
  predicate Merging(w: World, pid: Pid, o: Owner) {
    pid in w.pipes && w.pipes[pid].merge.Some? && w.pipes[pid].key == o
  }

  // The lease it was told of has not run out.
  predicate LiveMerger(w: World, pid: Pid) {
    pid in w.pipes && w.pipes[pid].merge.Some? && w.now < w.pipes[pid].merge.value
  }

  // Until the time it was told, a pipeline's merge lease is there and is its own.
  ghost predicate MergeKept(cfg: Config, w: World) {
    forall pid :: LiveMerger(w, pid) ==>
      HeldByNow(w, MergeSlot(cfg.branch), w.pipes[pid].key) && w.holds[MergeSlot(cfg.branch)].until == w.pipes[pid].merge.value
  }

  // The merge lease belongs to a pipeline that is inside the merge, or is one from before the crash.
  ghost predicate MergeKnown(cfg: Config, w: World) {
    forall o :: HeldByNow(w, MergeSlot(cfg.branch), o) ==>
      Waits(w, MergeSlot(cfg.branch), o) || exists pid :: Merging(w, pid, o)
  }

  // A step of one pipeline that has nothing to do with the merge lease.
  ghost predicate MergeStill(cfg: Config, w: World, pid: Pid, w': World) {
    var s := MergeSlot(cfg.branch);
    && Others(w, pid, w') && w'.now == w.now && w'.phase == w.phase
    && (s in w'.holds <==> s in w.holds) && (s in w.holds ==> w'.holds[s] == w.holds[s])
    && (pid in w'.pipes ==> pid in w.pipes && w'.pipes[pid].key == w.pipes[pid].key && w'.pipes[pid].merge == w.pipes[pid].merge)
    && (pid in w.pipes && pid !in w'.pipes ==> w.pipes[pid].merge.None?)
  }

  lemma StillKeeps(cfg: Config, w: World, pid: Pid, w': World)
    requires MergeStill(cfg, w, pid, w')
    ensures MergeKept(cfg, w) ==> MergeKept(cfg, w')
    ensures MergeKnown(cfg, w) ==> MergeKnown(cfg, w')
  {
    var s := MergeSlot(cfg.branch);
    forall o | HeldByNow(w', s, o) ensures HeldByNow(w, s, o) && (Waits(w, s, o) ==> Waits(w', s, o)) {}
    forall q, o | Merging(w, q, o) ensures Merging(w', q, o) {}
    forall q | LiveMerger(w', q) ensures LiveMerger(w, q) {}
  }

  lemma PassMerge(cfg: Config, p: Pipe, h: Holds, granted: bool)
    requires CanPass(p) && !p.pc.AskMerge? && !p.pc.DropMerge?
    ensures PassPipe(cfg, p, h, granted).merge == p.merge && PassPipe(cfg, p, h, granted).key == p.key
    ensures Touched(cfg, p) != MergeSlot(cfg.branch)
  {
  }

  lemma PassIsStill(cfg: Config, w: World, pid: Pid, w': World)
    requires pid in w.pipes && PipeShape(w.pipes[pid]) && PassStep(cfg, w, pid, w.pipes[pid]) == Some(w')
    requires !w.pipes[pid].pc.AskMerge? && !w.pipes[pid].pc.DropMerge?
    ensures MergeStill(cfg, w, pid, w')
  {
    var p := w.pipes[pid];
    PassMerge(cfg, p, PassHolds(cfg, w, p).0, PassHolds(cfg, w, p).1);
  }

  lemma ChosenIsStill(cfg: Config, w: World, a: Action, w': World)
    requires PipeAction(a) && !a.Pass? && a.pid in w.pipes && PipeShape(w.pipes[a.pid]) && PipeStep(cfg, w, a) == Some(w')
    ensures MergeStill(cfg, w, a.pid, w')
  {
    assert w'.holds == w.holds && w'.now == w.now && w'.phase == w.phase;
    assert Others(w, a.pid, w');
  }

  // An admitted pipeline and a live merger that is not the same have different issues.
  lemma OtherMerger(w: World, pid: Pid, q: Pid)
    requires Ours(w) && pid in w.pipes && w.pipes[pid].Admitted() && q != pid && q in w.pipes && w.pipes[q].merge.Some?
    ensures w.pipes[q].key != w.pipes[pid].key
  {
    assert PipeShape(w.pipes[q]);
  }

  // What asking does to the slot, and to the pipeline.
  lemma AskEffect(cfg: Config, w: World, pid: Pid, w': World)
    requires pid in w.pipes && w.pipes[pid].pc.AskMerge? && PassStep(cfg, w, pid, w.pipes[pid]) == Some(w')
    ensures var (s, k) := (MergeSlot(cfg.branch), w.pipes[pid].key);
            && Others(w, pid, w') && w'.now == w.now && w'.phase == w.phase && pid in w'.pipes && w'.pipes[pid].key == k
            && (|| (w'.pipes[pid].merge == w.pipes[pid].merge && w'.holds == w.holds)
                || (!HeldByOther(w.holds, s, k, w.now) && HeldByNow(w', s, k) && w'.pipes[pid].merge == Some(w'.holds[s].until)))
  {
  }

  lemma AskKeeps(cfg: Config, w: World, pid: Pid, w': World)
    requires Ours(w) && pid in w.pipes && w.pipes[pid].pc.AskMerge? && PassStep(cfg, w, pid, w.pipes[pid]) == Some(w')
    ensures MergeKept(cfg, w) ==> MergeKept(cfg, w')
    ensures MergeKnown(cfg, w) ==> MergeKnown(cfg, w')
  {
    AskEffect(cfg, w, pid, w');
    if w'.holds == w.holds && w'.pipes[pid].merge == w.pipes[pid].merge {
      StillKeeps(cfg, w, pid, w');
    } else {
      assert Merging(w', pid, w.pipes[pid].key);
      forall q | MergeKept(cfg, w) && LiveMerger(w', q) ensures q == pid {
        if q != pid {
          assert LiveMerger(w, q);
          OtherMerger(w, pid, q);
          assert false;
        }
      }
    }
  }

  lemma DropEffect(cfg: Config, w: World, pid: Pid, w': World)
    requires pid in w.pipes && w.pipes[pid].pc.DropMerge? && PassStep(cfg, w, pid, w.pipes[pid]) == Some(w')
    ensures Others(w, pid, w') && w'.now == w.now && w'.phase == w.phase
    ensures pid in w'.pipes && w'.pipes[pid].merge.None? && w'.holds == Drop(w.holds, MergeSlot(cfg.branch), w.pipes[pid].key)
  {
  }

  lemma DropKeeps(cfg: Config, w: World, pid: Pid, w': World)
    requires Ours(w) && pid in w.pipes && w.pipes[pid].pc.DropMerge? && PassStep(cfg, w, pid, w.pipes[pid]) == Some(w')
    ensures MergeKept(cfg, w) ==> MergeKept(cfg, w')
    ensures MergeKnown(cfg, w) ==> MergeKnown(cfg, w')
  {
    DropEffect(cfg, w, pid, w');
    forall q | MergeKept(cfg, w) && LiveMerger(w', q)
      ensures HeldByNow(w', MergeSlot(cfg.branch), w'.pipes[q].key) && w'.holds[MergeSlot(cfg.branch)].until == w'.pipes[q].merge.value
    {
      assert q != pid && LiveMerger(w, q);
      OtherMerger(w, pid, q);
    }
    forall o | HeldByNow(w', MergeSlot(cfg.branch), o) ensures HeldByNow(w, MergeSlot(cfg.branch), o) && o != w.pipes[pid].key {}
    forall q, o | Merging(w, q, o) && o != w.pipes[pid].key ensures Merging(w', q, o) {}
  }

  lemma PipeMerges(cfg: Config, w: World, a: Action, w': World)
    requires Ours(w) && PipeAction(a) && a.pid in w.pipes && PipeStep(cfg, w, a) == Some(w')
    ensures MergeKept(cfg, w) ==> MergeKept(cfg, w')
    ensures MergeKnown(cfg, w) ==> MergeKnown(cfg, w')
  {
    assert PipeShape(w.pipes[a.pid]);
    if a.Pass? && w.pipes[a.pid].pc.AskMerge? { AskKeeps(cfg, w, a.pid, w'); }
    else if a.Pass? && w.pipes[a.pid].pc.DropMerge? { DropKeeps(cfg, w, a.pid, w'); }
    else {
      if a.Pass? { PassIsStill(cfg, w, a.pid, w'); } else { ChosenIsStill(cfg, w, a, w'); }
      StillKeeps(cfg, w, a.pid, w');
    }
  }

  lemma SpawnMerges(cfg: Config, w: World, a: Action, w': World)
    requires SpawnAction(a) && SpawnStep(w, a) == Some(w')
    ensures MergeKept(cfg, w) ==> MergeKept(cfg, w')
    ensures MergeKnown(cfg, w) ==> MergeKnown(cfg, w')
  {
    var s := MergeSlot(cfg.branch);
    forall o | HeldByNow(w', s, o) ensures HeldByNow(w, s, o) && (Waits(w, s, o) ==> Waits(w', s, o)) {}
    forall q, o | Merging(w, q, o) ensures Merging(w', q, o) {}
    forall q | LiveMerger(w', q) ensures LiveMerger(w, q) {}
  }

  /** Recover is about to deal with a listed lease: it takes it away from no pipeline that is inside the merge
      under the owner it was listed with. */
  ghost predicate Spares(cfg: Config, w: World, a: Action) {
    a == Action.Sweep(MergeSlot(cfg.branch)) && w.phase.Recovering? && a.slot in w.phase.todo ==>
      forall pid :: LiveMerger(w, pid) ==> w.pipes[pid].key != w.phase.todo[a.slot]
  }

  lemma SweepMerges(cfg: Config, w: World, slot: Slot, w': World)
    requires RecoverStep(w, Action.Sweep(slot)) == Some(w')
    ensures MergeKept(cfg, w) && Spares(cfg, w, Action.Sweep(slot)) ==> MergeKept(cfg, w')
    ensures MergeKnown(cfg, w) ==> MergeKnown(cfg, w')
  {
    var s := MergeSlot(cfg.branch);
    forall q | LiveMerger(w', q) ensures LiveMerger(w, q) {}
    forall q, o | Merging(w, q, o) ensures Merging(w', q, o) {}
    forall o | HeldByNow(w', s, o) ensures HeldByNow(w, s, o) && (Waits(w, s, o) ==> Waits(w', s, o)) {}
  }

  lemma OutsideMerges(cfg: Config, w: World, a: Action, w': World)
    requires Ours(w) && (a.Tick? || a.ReapNow? || a.Crash? || a.Boot? || a.Recovered?) && Step(cfg, w, a) == Some(w')
    ensures MergeKept(cfg, w) ==> MergeKept(cfg, w')
    ensures MergeKnown(cfg, w) ==> MergeKnown(cfg, w')
  {
    var s := MergeSlot(cfg.branch);
    forall q | LiveMerger(w', q) ensures LiveMerger(w, q) {}
    if !a.Crash? {
      forall o | HeldByNow(w', s, o) ensures HeldByNow(w, s, o) {}
      forall q, o | Merging(w, q, o) ensures Merging(w', q, o) {}
    }
  }

  lemma StepMerges(cfg: Config, w: World, a: Action, w': World)
    requires Ours(w) && Step(cfg, w, a) == Some(w')
    ensures MergeKept(cfg, w) && Spares(cfg, w, a) ==> MergeKept(cfg, w')
    ensures MergeKnown(cfg, w) ==> MergeKnown(cfg, w')
  {
    if PipeAction(a) { PipeMerges(cfg, w, a, w'); }
    else if a.Sweep? { SweepMerges(cfg, w, a.slot, w'); }
    else if SpawnAction(a) { SpawnMerges(cfg, w, a, w'); }
    else { OutsideMerges(cfg, w, a, w'); }
  }

  ghost predicate Spared(cfg: Config, w: World, acts: seq<Action>)
    decreases |acts|
  {
    acts == [] ||
    (Spares(cfg, w, acts[0]) &&
     (Step(cfg, w, acts[0]).Some? ==> Spared(cfg, Step(cfg, w, acts[0]).value, acts[1..])))
  }

  lemma {:induction false} RunMerges(cfg: Config, w: World, acts: seq<Action>, w': World)
    requires Ours(w) && MergeKnown(cfg, w) && Run(cfg, w, acts) == Some(w')
    ensures MergeKnown(cfg, w')
    ensures MergeKept(cfg, w) && Spared(cfg, w, acts) ==> MergeKept(cfg, w')
    decreases |acts|
  {
    if acts != [] {
      var w1 := Step(cfg, w, acts[0]).value;
      StepMerges(cfg, w, acts[0], w1);
      StepKeeps(cfg, w, acts[0], w1);
      RunMerges(cfg, w1, acts[1..], w');
    }
  }

  lemma OneMerger(cfg: Config, w: World, p: Pid, q: Pid)
    requires Ours(w) && MergeKept(cfg, w) && LiveMerger(w, p) && LiveMerger(w, q)
    ensures p == q
  {
    assert PipeShape(w.pipes[p]) && PipeShape(w.pipes[q]);
  }

  /** Two pipelines never overlap between the grant and the release of the merge lease, as long as the lease
      each was told of has not run out, on every run on which Recover spares the running mergers. */
  lemma MergeExclusion(cfg: Config, acts: seq<Action>, w: World, p: Pid, q: Pid)
    requires Run(cfg, START, acts) == Some(w) && Spared(cfg, START, acts) && LiveMerger(w, p) && LiveMerger(w, q)
    ensures p == q
  {
    StartIsOurs();
    RunKeeps(cfg, START, acts, w);
    RunMerges(cfg, START, acts, w);
    OneMerger(cfg, w, p, q);
  }

  /** The condition is exact: while a merger's lease lasts, a second pipeline that asks for it after Recover's
      next step is let in if and only if that step did not spare the merger. */
  lemma UnsparedLetsSecondIn(cfg: Config, w: World, p: Pid, q: Pid, slot: Slot, w1: World, w2: World)
    requires Ours(w) && MergeKept(cfg, w) && LiveMerger(w, p) && q in w.pipes && q != p
    requires w.pipes[q].pc.AskMerge? && w.pipes[q].merge.None?
    requires cfg.branch != ""
    requires Step(cfg, w, Action.Sweep(slot)) == Some(w1) && Step(cfg, w1, Pass(q)) == Some(w2)
    ensures LiveMerger(w2, p)
    ensures LiveMerger(w2, q) <==> !Spares(cfg, w, Action.Sweep(slot))
  {
    assert PipeShape(w.pipes[p]) && w.pipes[q].key != w.pipes[p].key && Named(w.pipes[q].key);
    if Spares(cfg, w, Action.Sweep(slot)) {
      SweepMerges(cfg, w, slot, w1);
      assert LiveMerger(w1, p);
    } else {
      forall r | LiveMerger(w, r) ensures r == p { OneMerger(cfg, w, r, p); }
    }
  }

  /** Once Recover is done, whoever holds a valid merge lease is a pipeline inside the merge. */
  lemma MergeLeaseIsUsed(cfg: Config, acts: seq<Action>, w: World, o: Owner)
    requires Run(cfg, START, acts) == Some(w) && w.phase.Running? && HeldByNow(w, MergeSlot(cfg.branch), o)
    ensures exists pid :: Merging(w, pid, o)
  {
    StartIsOurs();
    RunMerges(cfg, START, acts, w);
  }

  // ---------------------------------------------------------------------------------------------
  // Recoveries that no command disturbs
  // ---------------------------------------------------------------------------------------------

  // Before Recover is done nothing has started, and Recover still has to deal with every stale lease.
  ghost predicate Undisturbed(w: World) {
    !w.phase.Running? ==>
      && w.pipes == map[] && w.inflight == {} && w.reserved == map[]
      && forall s, o :: HeldByNow(w, s, o) && Stale(w, s, o) ==> Waits(w, s, o)
  }

  lemma OutsideUndisturbed(cfg: Config, w: World, a: Action, w': World)
    requires Ours(w) && Undisturbed(w) && (a.Tick? || a.ReapNow? || a.Boot? || a.Sweep?) && Step(cfg, w, a) == Some(w')
    ensures Undisturbed(w')
  {
    forall s, o | HeldByNow(w', s, o) && Stale(w', s, o) && !w'.phase.Running? ensures Waits(w', s, o) {
      assert HeldByNow(w, s, o) && Stale(w, s, o);
    }
  }

  lemma StepUndisturbed(cfg: Config, w: World, a: Action, w': World)
    requires Ours(w) && Undisturbed(w) && Step(cfg, w, a) == Some(w') && (CommandAction(a) ==> w.phase.Running?)
    ensures Undisturbed(w')
  {
    if a.Tick? || a.ReapNow? || a.Boot? || a.Sweep? { OutsideUndisturbed(cfg, w, a, w'); }
    else { assert w'.phase.Running? || a.Crash?; }
  }

  lemma {:induction false} RunUndisturbed(cfg: Config, w: World, acts: seq<Action>, w': World)
    requires Ours(w) && Undisturbed(w) && Orderly(cfg, w, acts) && Run(cfg, w, acts) == Some(w')
    ensures Undisturbed(w') && Ours(w') && Spared(cfg, w, acts)
    decreases |acts|
  {
    if acts != [] {
      var w1 := Step(cfg, w, acts[0]).value;
      StepUndisturbed(cfg, w, acts[0], w1);
      StepKeeps(cfg, w, acts[0], w1);
      RunUndisturbed(cfg, w1, acts[1..], w');
    }
  }

  /** If no command starts anything before Recover is done, Recover spares every merger. */
  lemma OrderlyIsSpared(cfg: Config, acts: seq<Action>, w: World)
    requires Orderly(cfg, START, acts) && Run(cfg, START, acts) == Some(w)
    ensures Spared(cfg, START, acts)
  {
    StartIsOurs();
    RunUndisturbed(cfg, START, acts, w);
  }

  /** A recovery, whatever happened before it and however often it is interrupted, as long as nothing has started
      since the crash and no command starts anything before it is done: then nothing is reserved, no account and no
      merge is leased, and every valid issue lease belongs to a stored, unfinished assignment. */
  lemma RecoveredClean(cfg: Config, before: seq<Action>, w0: World, during: seq<Action>, order: seq<Key>, w: World)
    requires Run(cfg, START, before) == Some(w0) && !w0.phase.Recovering?
    requires w0.phase.Down? ==> w0.pipes == map[] && w0.inflight == {} && w0.reserved == map[]
    requires Orderly(cfg, w0, during) && Run(cfg, w0, during + [Recovered(order)]) == Some(w)
    ensures w.phase.Running? && w.reserved == map[] && w.inflight == {} && w.pipes == map[]
    ensures forall s, o :: HeldByNow(w, s, o) ==> s.IssueSlot? && o in w.store && !w.store[o].Terminal()
  {
    var last := Recovered(order);
    StartIsOurs();
    RunKeeps(cfg, START, before, w0);
    RunSplit(cfg, w0, during, [last], w);
    var w1 := Run(cfg, w0, during).value;
    RunUndisturbed(cfg, w0, during, w1);
    assert Run(cfg, w1, [last]) == Step(cfg, w1, last);
    forall s, o | HeldByNow(w, s, o) ensures s.IssueSlot? && o in w.store && !w.store[o].Terminal() {
      assert HeldByNow(w1, s, o);
    }
  }
}
