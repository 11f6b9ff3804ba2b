/** What the single steps of the transition system promise, and the invariants that go with them: which commands
    start a run, which account it uses, that recovery comes first, and where workspaces come from and go. */
module PipelineRules {
  import opened Leases
  import opened Options
  import opened LeaseStore
  import opened Pipeline
  import opened PipelineOwnership
  import opened PipelineLifecycle

  // -- which commands start a run ------------------------------------------------------------------

  predicate Known(w: World, k: Key) {
    k in w.store
  }

  /** A pass or a tick starts a claim, of an issue that is not stored; a manual run starts one, or goes on with an
      unfinished issue, but leaves a finished one alone; an operator's reset is for finished issues only; and Recover
      goes on with what it listed as unfinished, if the engine is active. */
  lemma StartsExactly(w: World, a: Action, w': World)
    requires SpawnAction(a) && SpawnStep(w, a) == Some(w')
    ensures a.pid in w'.pipes <==>
              match a
              case Resume(_, active) => active && w.resume[0].1 != Done && w.resume[0].1 != Failed
              case ManualLoad(_, k, _, _) => !Finished(w, k)
              case ResetLoad(_, k) => Finished(w, k)
              case _ => true
    ensures a.pid in w'.pipes ==>
              var p := w'.pipes[a.pid];
              && p.key == (if a.Resume? then w.resume[0].0 else a.key) && p.hist == Nothing
              && (p.pc.ClaimSave? <==> !a.Resume? && !a.ResetLoad? && !Known(w, a.key))
              && (p.pc.ResetSave? <==> a.ResetLoad?) && (!p.pc.ClaimSave? && !p.pc.ResetSave? ==> p.pc.Enter?)
    ensures a.ServeLoad? || a.TickLoad? ==> !Known(w, a.key)
  {
  }

  /** When each of them is possible: commands in every phase, also while the process is starting up; the serve loop
      and Recover one pipeline at a time, and the loop only after Recover. */
  lemma PossibleExactly(w: World, a: Action)
    requires SpawnAction(a)
    ensures SpawnStep(w, a).Some? <==>
              a.pid !in w.pipes &&
              match a
              case Resume(_, _) => w.phase == Running && w.resume != [] && forall q :: q in w.pipes ==> w.pipes[q].origin == Command
              case ServeLoad(_, k) =>
                && w.phase == Running && w.resume == [] && (forall q :: q in w.pipes ==> w.pipes[q].origin == Command)
                && k != "" && !Known(w, k)
              case TickLoad(_, k) => k != "" && !Known(w, k)
              case ManualLoad(_, k, _, _) => k != ""
              case ResetLoad(_, _) => true
  {
    assert LoopBusy(w) <==> exists q :: q in w.pipes && w.pipes[q].origin != Command;
  }

  /** An operator's reset makes the finished issue a claimed one, and starts nothing. */
  lemma ResetReopens(w: World, pid: Pid, ok: bool, w': World)
    requires pid in w.pipes && w.pipes[pid].pc.ResetSave? && SaveStep(w, pid, w.pipes[pid], ok) == Some(w')
    ensures w' == w.(store := if ok then w.store[w.pipes[pid].key := Claimed] else w.store, pipes := w.pipes - {pid})
  {
  }

  // -- the account a run uses ----------------------------------------------------------------------

  // A picked account is the only one the run may reserve, and a forced run reserves none.
  predicate KeepsToPick(p: Pipe) {
    p.account.Some? && p.preferred != "" ==> p.account.value == p.preferred && !p.force
  }

  ghost predicate AllKeepToPick(w: World) {
    forall pid :: pid in w.pipes ==> KeepsToPick(w.pipes[pid])
  }

  lemma PassPicks(cfg: Config, p: Pipe, h: Holds, granted: bool)
    requires KeepsToPick(p)
    ensures KeepsToPick(PassPipe(cfg, p, h, granted))
  {
  }

  lemma StepPicks(cfg: Config, w: World, a: Action, w': World)
    requires AllKeepToPick(w) && Step(cfg, w, a) == Some(w')
    ensures AllKeepToPick(w')
  {
    if a.Pass? {
      var p := w.pipes[a.pid];
      PassPicks(cfg, p, PassHolds(cfg, w, p).0, PassHolds(cfg, w, p).1);
    }
  }

  lemma {:induction false} RunPicks(cfg: Config, w: World, acts: seq<Action>, w': World)
    requires AllKeepToPick(w) && Run(cfg, w, acts) == Some(w')
    ensures AllKeepToPick(w')
    decreases |acts|
  {
    if acts != [] {
      var w1 := Step(cfg, w, acts[0]).value;
      StepPicks(cfg, w, acts[0], w1);
      RunPicks(cfg, w1, acts[1..], w');
    }
  }

  /** In every reachable world: a pipeline whose operator picked an account has reserved that one or none, and none
      if the run is forced. */
  lemma PickedAccountOnly(cfg: Config, acts: seq<Action>, w: World, pid: Pid)
    requires Run(cfg, START, acts) == Some(w) && pid in w.pipes && w.pipes[pid].preferred != ""
    ensures w.pipes[pid].account in {None, Some(w.pipes[pid].preferred)}
    ensures w.pipes[pid].force ==> w.pipes[pid].account.None?
  {
    RunPicks(cfg, START, acts, w);
    assert KeepsToPick(w.pipes[pid]);
  }

  // -- recovery comes first ------------------------------------------------------------------------

  predicate Claiming(p: Pipe) {
    p.origin == Loop && (p.pc.ClaimSave? || p.pc.ClaimLease?)
  }

  // While Recover has assignments left to resume, the serve loop claims nothing; before it lists them, it runs nothing.
  ghost predicate RecoveryFirst(w: World) {
    && (w.resume != [] ==> forall pid :: pid in w.pipes ==> !Claiming(w.pipes[pid]))
    && (!w.phase.Running? ==> !LoopBusy(w))
  }

  lemma PipeStepWaits(cfg: Config, w: World, a: Action, w': World)
    requires RecoveryFirst(w) && PipeAction(a) && a.pid in w.pipes && PipeStep(cfg, w, a) == Some(w')
    ensures RecoveryFirst(w')
  {
    PipeMoves(cfg, w, a, w');
    assert a.pid in w'.pipes && Claiming(w'.pipes[a.pid]) ==> Claiming(w.pipes[a.pid]) by {
      if a.pid in w'.pipes && !a.Save? { EntryOnly(cfg, w, a, w'); }
    }
  }

  lemma SpawnWaits(w: World, a: Action, w': World)
    requires RecoveryFirst(w) && SpawnAction(a) && SpawnStep(w, a) == Some(w')
    ensures RecoveryFirst(w')
  {
  }

  lemma StepWaits(cfg: Config, w: World, a: Action, w': World)
    requires RecoveryFirst(w) && Step(cfg, w, a) == Some(w')
    ensures RecoveryFirst(w')
  {
    if PipeAction(a) { PipeStepWaits(cfg, w, a, w'); }
    else if SpawnAction(a) { SpawnWaits(w, a, w'); }
  }

  lemma {:induction false} RunWaits(cfg: Config, w: World, acts: seq<Action>, w': World)
    requires RecoveryFirst(w) && Run(cfg, w, acts) == Some(w')
    ensures RecoveryFirst(w')
    decreases |acts|
  {
    if acts != [] {
      var w1 := Step(cfg, w, acts[0]).value;
      StepWaits(cfg, w, acts[0], w1);
      RunWaits(cfg, w1, acts[1..], w');
    }
  }

  /** In every reachable world: the serve loop claims nothing new while Recover has assignments left to resume, and
      runs nothing before Recover has listed them. */
  lemma ResumesFirst(cfg: Config, acts: seq<Action>, w: World, pid: Pid)
    requires Run(cfg, START, acts) == Some(w) && pid in w.pipes && w.pipes[pid].origin == Loop
    ensures w.phase.Running? && (w.resume != [] ==> !w.pipes[pid].pc.ClaimSave? && !w.pipes[pid].pc.ClaimLease?)
  {
    RunWaits(cfg, START, acts, w);
    assert !Claiming(w.pipes[pid]) || w.resume == [];
  }

  // -- workspaces ----------------------------------------------------------------------------------

  /** An issue has a workspace after a step exactly when one was prepared for its worker in the step, or it had
      one that the step did not clean up. */
  lemma WorkspaceStep(cfg: Config, w: World, a: Action, w': World, k: Key)
    requires Step(cfg, w, a) == Some(w')
    ensures k in w'.workspaces <==>
              || (a.Work? && a.prepared && OfKey(w, a.pid, k))
              || (k in w.workspaces && !(a.Cleanup? && a.wired && OfKey(w, a.pid, k)))
  {
  }

  /** On every run that is careful about an issue, its workspace goes only when its outcome is stored. */
  lemma WorkspaceOutlivesWork(cfg: Config, acts: seq<Action>, w: World, a: Action, w': World, k: Key)
    requires Run(cfg, START, acts) == Some(w) && CarefulRun(cfg, START, acts, k) && Step(cfg, w, a) == Some(w')
    requires k in w.workspaces && k !in w'.workspaces
    ensures Finished(w, k) && w'.store == w.store
  {
    WorkspaceStep(cfg, w, a, w', k);
    StartIsOurs();
    RunSettled(cfg, START, acts, w, k);
  }
}
