/** One issue over a whole run: how often it is claimed, when a finished issue stays finished, and that its
    workspace is removed only after its outcome is stored. */
module PipelineLifecycle {
  import opened Leases
  import opened Options
  import opened LeaseStore
  import opened Pipeline
  import opened PipelineOwnership
  import opened PipelineHistory

  predicate Finished(w: World, k: Key) {
    k in w.store && w.store[k].Terminal()
  }

  predicate OfKey(w: World, pid: Pid, k: Key) {
    pid in w.pipes && w.pipes[pid].key == k
  }

  /** What can be looked up before the step: a claim finds the issue unknown, a run is admitted while the
      stored record is unfinished, and nobody resets the issue. */
  predicate Careful(w: World, a: Action, k: Key) {
    PipeAction(a) && OfKey(w, a.pid, k) ==>
      match w.pipes[a.pid].pc
      case ClaimSave => k !in w.store
      case ResetSave => false
      case Enter => k in w.inflight || !Finished(w, k)
      case _ => true
  }

  ghost predicate CarefulRun(cfg: Config, w: World, acts: seq<Action>, k: Key)
    decreases |acts|
  {
    acts == [] ||
    (Careful(w, acts[0], k) &&
     (Step(cfg, w, acts[0]).Some? ==> CarefulRun(cfg, Step(cfg, w, acts[0]).value, acts[1..], k)))
  }

  // Developing, merging or rewriting the issue.
  predicate Touches(w: World, a: Action, k: Key) {
    (a.Work? || a.Merge? || (a.Save? && a.ok)) && OfKey(w, a.pid, k)
  }

  ghost predicate Untouched(cfg: Config, w: World, acts: seq<Action>, k: Key)
    decreases |acts|
  {
    acts == [] ||
    (!Touches(w, acts[0], k) &&
     (Step(cfg, w, acts[0]).Some? ==> Untouched(cfg, Step(cfg, w, acts[0]).value, acts[1..], k)))
  }

  ghost predicate Settled(w: World, k: Key) {
    && (Finished(w, k) ==> forall pid :: OfKey(w, pid, k) && w.pipes[pid].Admitted() ==> w.pipes[pid].Finishing())
    && (k in w.cleaned ==> Finished(w, k))
    && (forall pid :: OfKey(w, pid, k) && (w.pipes[pid].pc.DropIssue? || w.pipes[pid].pc.Clean?) ==> Finished(w, k))
  }

  // A step of one pipeline changes no other pipeline and writes no other issue.
  ghost predicate OneMoved(w: World, pid: Pid, w': World) {
    && pid in w.pipes && Others(w, pid, w') && w'.phase == w.phase && w'.resume == w.resume
    && (pid in w'.pipes ==> w'.pipes[pid].key == w.pipes[pid].key && w'.pipes[pid].origin == w.pipes[pid].origin)
    && (forall k :: k != w.pipes[pid].key ==>
          (k in w'.store <==> k in w.store) && (k in w.store ==> w'.store[k] == w.store[k]) &&
          (k in w'.cleaned <==> k in w.cleaned) && Count(w'.claims, k) == Count(w.claims, k))
  }

  lemma SaveMoves(w: World, pid: Pid, ok: bool, w': World)
    requires pid in w.pipes && SaveStep(w, pid, w.pipes[pid], ok) == Some(w')
    ensures OneMoved(w, pid, w') && w'.cleaned == w.cleaned
  {
  }

  lemma PassMoves(cfg: Config, w: World, pid: Pid, w': World)
    requires pid in w.pipes && PassStep(cfg, w, pid, w.pipes[pid]) == Some(w')
    ensures OneMoved(w, pid, w') && w'.store == w.store && w'.claims == w.claims && w'.cleaned == w.cleaned
    ensures pid in w'.pipes ==> w'.pipes[pid] == PassPipe(cfg, w.pipes[pid], PassHolds(cfg, w, w.pipes[pid]).0, PassHolds(cfg, w, w.pipes[pid]).1)
  {
  }

  lemma WorkMoves(w: World, pid: Pid, r: Worker, prepared: bool, w': World)
    requires pid in w.pipes && WorkStep(w, pid, w.pipes[pid], r, prepared) == Some(w')
    ensures OneMoved(w, pid, w') && w'.store == w.store && w'.claims == w.claims && w'.cleaned <= w.cleaned
  {
  }

  lemma JudgeMoves(w: World, pid: Pid, v: Verdict, w': World)
    requires pid in w.pipes && JudgeStep(w, pid, w.pipes[pid], v) == Some(w')
    ensures OneMoved(w, pid, w') && w'.store == w.store && w'.claims == w.claims && w'.cleaned == w.cleaned
  {
  }

  lemma MergeMoves(w: World, pid: Pid, merged: bool, w': World)
    requires pid in w.pipes && MergeStep(w, pid, w.pipes[pid], merged) == Some(w')
    ensures OneMoved(w, pid, w') && w'.store == w.store && w'.claims == w.claims && w'.cleaned == w.cleaned
  {
  }

  lemma CleanupMoves(w: World, pid: Pid, wired: bool, w': World)
    requires pid in w.pipes && CleanupStep(w, pid, w.pipes[pid], wired) == Some(w')
    ensures OneMoved(w, pid, w') && w'.store == w.store && w'.claims == w.claims
  {
  }

  lemma ReserveMoves(w: World, pid: Pid, choice: Option<Account>, w': World)
    requires pid in w.pipes && ReserveStep(w, pid, w.pipes[pid], choice) == Some(w')
    ensures OneMoved(w, pid, w') && w'.store == w.store && w'.claims == w.claims && w'.cleaned == w.cleaned
  {
  }

  lemma PipeMoves(cfg: Config, w: World, a: Action, w': World)
    requires PipeAction(a) && a.pid in w.pipes && PipeStep(cfg, w, a) == Some(w')
    ensures OneMoved(w, a.pid, w') && (a.Cleanup? || w'.cleaned <= w.cleaned)
    ensures a.Save? || (w'.store == w.store && w'.claims == w.claims)
  {
    if a.Save? { SaveMoves(w, a.pid, a.ok, w'); }
    else if a.Pass? { PassMoves(cfg, w, a.pid, w'); }
    else if a.Work? { WorkMoves(w, a.pid, a.result, a.prepared, w'); }
    else if a.Judge? { JudgeMoves(w, a.pid, a.verdict, w'); }
    else if a.Merge? { MergeMoves(w, a.pid, a.merged, w'); }
    else if a.Cleanup? { CleanupMoves(w, a.pid, a.wired, w'); }
    else { ReserveMoves(w, a.pid, a.choice, w'); }
  }

  lemma OtherKeySettled(w: World, pid: Pid, w': World, k: Key)
    requires Settled(w, k) && OneMoved(w, pid, w') && w.pipes[pid].key != k
    ensures Settled(w', k)
  {
  }

  // No second pipeline of the issue is past the guard.
  lemma Alone(w: World, pid: Pid, k: Key)
    requires OnePerIssue(w) && OfKey(w, pid, k) && w.pipes[pid].Admitted()
    ensures forall q :: q != pid && OfKey(w, q, k) ==> !w.pipes[q].Admitted()
  {
  }

  // Where a pipeline of a finished issue can be, a step leaves it there and changes nothing.
  lemma FinishedStep(cfg: Config, w: World, a: Action, w': World, k: Key)
    requires Settled(w, k) && PipeAction(a) && OfKey(w, a.pid, k) && Careful(w, a, k) && Finished(w, k)
    requires PipeStep(cfg, w, a) == Some(w')
    ensures w'.store == w.store && !Touches(w, a, k) && a.pid in w.pipes
    ensures a.pid in w'.pipes && w'.pipes[a.pid].Admitted() ==> w'.pipes[a.pid].Finishing()
  {
    var p := w.pipes[a.pid];
    assert p.Admitted() ==> p.Finishing();
    assert a.Pass? || a.Cleanup?;
    if a.Pass? { PassMoves(cfg, w, a.pid, w'); }
  }

  lemma FinishedSettled(cfg: Config, w: World, a: Action, w': World, k: Key)
    requires Settled(w, k) && PipeAction(a) && OfKey(w, a.pid, k) && Careful(w, a, k) && Finished(w, k)
    requires PipeStep(cfg, w, a) == Some(w')
    ensures Settled(w', k)
  {
    FinishedStep(cfg, w, a, w', k);
    PipeMoves(cfg, w, a, w');
  }

  lemma SaveSettled(w: World, pid: Pid, ok: bool, w': World, k: Key)
    requires Settled(w, k) && OnePerIssue(w) && OfKey(w, pid, k) && PipeShape(w.pipes[pid]) && !Finished(w, k)
    requires SaveStep(w, pid, w.pipes[pid], ok) == Some(w') && !w.pipes[pid].pc.ResetSave?
    ensures Settled(w', k)
  {
    var p := w.pipes[pid];
    SaveMoves(w, pid, ok, w');
    if p.pc.SaveFinal? && ok {
      Alone(w, pid, k);
      assert w'.pipes[pid].pc.DropIssue? && w'.store[k].Terminal();
    } else {
      assert !Finished(w', k);
      assert pid in w'.pipes ==> !w'.pipes[pid].pc.DropIssue? && !w'.pipes[pid].pc.Clean?;
    }
  }

  lemma PassNotClosing(cfg: Config, p: Pipe, h: Holds, granted: bool)
    requires CanPass(p) && !p.pc.Leave? && !p.pc.DropIssue?
    ensures var pc := PassPipe(cfg, p, h, granted).pc; !pc.DropIssue? && !pc.Clean?
  {
  }

  lemma ChosenNotClosing(cfg: Config, w: World, a: Action, w': World)
    requires PipeAction(a) && !a.Save? && !a.Pass? && a.pid in w.pipes && PipeStep(cfg, w, a) == Some(w')
    ensures a.pid in w'.pipes && !w'.pipes[a.pid].pc.DropIssue? && !w'.pipes[a.pid].pc.Clean?
  {
  }

  lemma NotClosing(cfg: Config, w: World, a: Action, w': World)
    requires PipeAction(a) && !a.Save? && a.pid in w.pipes && PipeStep(cfg, w, a) == Some(w') && a.pid in w'.pipes
    requires !w.pipes[a.pid].pc.DropIssue? && !w.pipes[a.pid].pc.Clean?
    ensures !w'.pipes[a.pid].pc.DropIssue? && !w'.pipes[a.pid].pc.Clean?
  {
    if a.Pass? {
      var p := w.pipes[a.pid];
      PassMoves(cfg, w, a.pid, w');
      PassNotClosing(cfg, p, PassHolds(cfg, w, p).0, PassHolds(cfg, w, p).1);
    } else {
      ChosenNotClosing(cfg, w, a, w');
    }
  }

  lemma UnfinishedStep(cfg: Config, w: World, a: Action, w': World, k: Key)
    requires Settled(w, k) && PipeAction(a) && !a.Save? && OfKey(w, a.pid, k) && !Finished(w, k)
    requires PipeStep(cfg, w, a) == Some(w')
    ensures Settled(w', k)
  {
    var p := w.pipes[a.pid];
    assert !p.pc.DropIssue? && !p.pc.Clean?;
    PipeMoves(cfg, w, a, w');
    if a.pid in w'.pipes { NotClosing(cfg, w, a, w'); }
    assert !a.Cleanup?;
  }

  lemma OwnSettled(cfg: Config, w: World, a: Action, w': World, k: Key)
    requires Settled(w, k) && Ours(w) && PipeAction(a) && OfKey(w, a.pid, k) && Careful(w, a, k) && PipeStep(cfg, w, a) == Some(w')
    ensures Settled(w', k)
    ensures Finished(w, k) ==> w'.store == w.store && !Touches(w, a, k)
  {
    if Finished(w, k) {
      FinishedStep(cfg, w, a, w', k);
      FinishedSettled(cfg, w, a, w', k);
    } else if a.Save? {
      assert PipeShape(w.pipes[a.pid]);
      SaveSettled(w, a.pid, a.ok, w', k);
    } else {
      UnfinishedStep(cfg, w, a, w', k);
    }
  }

  lemma OutsideSettled(w: World, w': World, k: Key)
    requires Settled(w, k) && Outside(w, w')
    ensures Settled(w', k)
  {
  }

  lemma StepSettled(cfg: Config, w: World, a: Action, w': World, k: Key)
    requires Settled(w, k) && Ours(w) && Careful(w, a, k) && Step(cfg, w, a) == Some(w')
    ensures Settled(w', k)
    ensures Finished(w, k) ==> Finished(w', k) && w'.store[k] == w.store[k] && !Touches(w, a, k)
  {
    if !PipeAction(a) {
      StepIsOutside(cfg, w, a, w');
      OutsideSettled(w, w', k);
    } else if w.pipes[a.pid].key != k {
      PipeMoves(cfg, w, a, w');
      OtherKeySettled(w, a.pid, w', k);
    } else {
      OwnSettled(cfg, w, a, w', k);
    }
  }

  lemma {:induction false} RunSettled(cfg: Config, w: World, acts: seq<Action>, w': World, k: Key)
    requires Settled(w, k) && Ours(w) && CarefulRun(cfg, w, acts, k) && Run(cfg, w, acts) == Some(w')
    ensures Settled(w', k)
    ensures Finished(w, k) ==> Finished(w', k) && w'.store[k] == w.store[k] && Untouched(cfg, w, acts, k)
    decreases |acts|
  {
    if acts != [] {
      var w1 := Step(cfg, w, acts[0]).value;
      StepSettled(cfg, w, acts[0], w1, k);
      StepKeeps(cfg, w, acts[0], w1);
      RunSettled(cfg, w1, acts[1..], w', k);
    }
  }

  // Only the claim leads back to the entry of a run.
  predicate Onward(was: Pc, pc: Pc) {
    !pc.ClaimSave? && !pc.ResetSave? && !pc.ClaimLease? && (pc.Enter? ==> was.ClaimLease?)
  }

  lemma PassOnward(cfg: Config, p: Pipe, h: Holds, granted: bool)
    requires CanPass(p) && !p.pc.Leave?
    ensures Onward(p.pc, PassPipe(cfg, p, h, granted).pc)
  {
  }

  lemma ChosenOnward(cfg: Config, w: World, a: Action, w': World)
    requires PipeAction(a) && !a.Save? && !a.Pass? && a.pid in w.pipes && PipeStep(cfg, w, a) == Some(w')
    ensures a.pid in w'.pipes && Onward(w.pipes[a.pid].pc, w'.pipes[a.pid].pc)
  {
  }

  lemma EntryOnly(cfg: Config, w: World, a: Action, w': World)
    requires PipeAction(a) && !a.Save? && a.pid in w.pipes && PipeStep(cfg, w, a) == Some(w') && a.pid in w'.pipes
    ensures Onward(w.pipes[a.pid].pc, w'.pipes[a.pid].pc)
  {
    if a.Pass? {
      var p := w.pipes[a.pid];
      PassMoves(cfg, w, a.pid, w');
      PassOnward(cfg, p, PassHolds(cfg, w, p).0, PassHolds(cfg, w, p).1);
    } else {
      ChosenOnward(cfg, w, a, w');
    }
  }

  // ---------------------------------------------------------------------------------------------
  // How often an issue is claimed
  // ---------------------------------------------------------------------------------------------

  // A pass or a manual run looks the issue up.
  predicate Loads(a: Action, k: Key) {
    (a.ServeLoad? || a.TickLoad? || a.ManualLoad?) && a.key == k
  }

  // No claim of the issue was decided on that is not saved yet.
  ghost predicate NoneUnsaved(w: World, k: Key) {
    forall pid :: OfKey(w, pid, k) ==> !w.pipes[pid].pc.ClaimSave?
  }

  /** No load of the issue falls between an earlier load and the save of that claim. */
  ghost predicate SingleLoads(cfg: Config, w: World, acts: seq<Action>, k: Key)
    decreases |acts|
  {
    acts == [] ||
    (Step(cfg, w, acts[0]).Some? ==>
       (Loads(acts[0], k) ==> NoneUnsaved(w, k)) && SingleLoads(cfg, Step(cfg, w, acts[0]).value, acts[1..], k))
  }

  ghost predicate Sole(w: World, k: Key) {
    forall p, q :: OfKey(w, p, k) && OfKey(w, q, k) ==> p == q
  }

  lemma SoleKept(w: World, w': World, k: Key)
    requires Sole(w, k) && forall q :: OfKey(w', q, k) ==> OfKey(w, q, k)
    ensures Sole(w', k)
  {
    forall p, q | OfKey(w', p, k) && OfKey(w', q, k) ensures p == q { assert OfKey(w, p, k) && OfKey(w, q, k); }
  }

  // While the issue is unknown there is at most its one claim; afterwards there are no claims.
  ghost predicate Once(w: World, k: Key) {
    && (forall pid :: OfKey(w, pid, k) ==> (w.pipes[pid].pc.ClaimSave? <==> k !in w.store))
    && (k !in w.store ==> Sole(w, k))
    && (forall i :: 0 <= i < |w.resume| && w.resume[i].0 == k ==> k in w.store)
    && Count(w.claims, k) <= 1 && (k !in w.store ==> Count(w.claims, k) == 0)
  }

  // Whose pipelines there are after a step of one pipeline, and after a start.
  lemma MovedKeys(w: World, pid: Pid, w': World, k: Key)
    requires OneMoved(w, pid, w')
    ensures forall q :: OfKey(w', q, k) ==> OfKey(w, q, k) && (q != pid ==> w'.pipes[q] == w.pipes[q])
  {
  }

  lemma SpawnedKeys(w: World, a: Action, w': World, k: Key)
    requires SpawnAction(a) && SpawnStep(w, a) == Some(w')
    ensures forall q :: OfKey(w', q, k) ==>
              if q in w.pipes then w'.pipes[q] == w.pipes[q] else q == a.pid && Spawned(w, a) == Some(w'.pipes[q])
    ensures w'.store == w.store && w'.claims == w.claims
    ensures w'.resume == if a.Resume? then w.resume[1..] else w.resume
  {
  }

  // The issue's pipeline moved on, and what it wrote is the only new thing.
  lemma MoveOnce(w: World, pid: Pid, w': World, k: Key)
    requires Once(w, k) && OfKey(w, pid, k) && OneMoved(w, pid, w')
    requires k in w.store ==> k in w'.store
    requires pid in w'.pipes ==> k in w'.store && !w'.pipes[pid].pc.ClaimSave?
    requires Count(w'.claims, k) <= 1 && (k !in w'.store ==> Count(w'.claims, k) == 0)
    ensures Once(w', k)
  {
    MovedKeys(w, pid, w', k);
    if k !in w.store { SoleKept(w, w', k); }
  }

  lemma SaveOnce(w: World, pid: Pid, ok: bool, w': World, k: Key)
    requires Once(w, k) && OfKey(w, pid, k) && SaveStep(w, pid, w.pipes[pid], ok) == Some(w')
    ensures Once(w', k)
  {
    SaveMoves(w, pid, ok, w');
    MoveOnce(w, pid, w', k);
  }

  lemma PipeOnce(cfg: Config, w: World, a: Action, w': World, k: Key)
    requires Once(w, k) && PipeAction(a) && a.pid in w.pipes && PipeStep(cfg, w, a) == Some(w')
    ensures Once(w', k)
  {
    PipeMoves(cfg, w, a, w');
    MovedKeys(w, a.pid, w', k);
    if k !in w.store { SoleKept(w, w', k); }
    if w.pipes[a.pid].key == k {
      if a.Save? { SaveOnce(w, a.pid, a.ok, w', k); }
      else {
        assert OfKey(w, a.pid, k) && !w.pipes[a.pid].pc.ClaimSave?;
        if a.pid in w'.pipes { EntryOnly(cfg, w, a, w'); }
        MoveOnce(w, a.pid, w', k);
      }
    }
  }

  lemma SpawnOnce(w: World, a: Action, w': World, k: Key)
    requires Once(w, k) && SpawnAction(a) && SpawnStep(w, a) == Some(w') && (Loads(a, k) ==> NoneUnsaved(w, k))
    ensures Once(w', k)
  {
    SpawnedKeys(w, a, w', k);
    assert a.Resume? && w.resume[0].0 == k ==> k in w.store;
    if Loads(a, k) && k !in w.store {
      assert forall pid :: !OfKey(w, pid, k);
      assert forall q :: OfKey(w', q, k) ==> q == a.pid;
    } else if k !in w.store {
      SoleKept(w, w', k);
    }
  }

  lemma OutsideOnce(cfg: Config, w: World, a: Action, w': World, k: Key)
    requires Once(w, k) && !PipeAction(a) && !SpawnAction(a) && Step(cfg, w, a) == Some(w')
    ensures Once(w', k)
  {
    assert forall q :: OfKey(w', q, k) ==> OfKey(w, q, k) && w'.pipes[q] == w.pipes[q];
    if k !in w.store { SoleKept(w, w', k); }
    if a.Recovered? {
      forall i | 0 <= i < |a.order| ensures a.order[i] in w.store { assert a.order[i] in a.order; }
    }
  }

  lemma StepOnce(cfg: Config, w: World, a: Action, w': World, k: Key)
    requires Once(w, k) && Step(cfg, w, a) == Some(w') && (Loads(a, k) ==> NoneUnsaved(w, k))
    ensures Once(w', k)
  {
    if PipeAction(a) { PipeOnce(cfg, w, a, w', k); }
    else if SpawnAction(a) { SpawnOnce(w, a, w', k); }
    else { OutsideOnce(cfg, w, a, w', k); }
  }

  lemma {:induction false} RunOnce(cfg: Config, w: World, acts: seq<Action>, w': World, k: Key)
    requires Once(w, k) && SingleLoads(cfg, w, acts, k) && Run(cfg, w, acts) == Some(w')
    ensures Once(w', k)
    decreases |acts|
  {
    if acts != [] {
      var w1 := Step(cfg, w, acts[0]).value;
      StepOnce(cfg, w, acts[0], w1, k);
      RunOnce(cfg, w1, acts[1..], w', k);
    }
  }

  // The serve loop does one thing at a time, so its own loads never overlap.
  ghost predicate LoopClaims(w: World, k: Key) {
    forall pid :: OfKey(w, pid, k) && w.pipes[pid].pc.ClaimSave? ==> w.pipes[pid].origin == Loop
  }

  ghost predicate OnlyLoopLoads(acts: seq<Action>, k: Key) {
    forall i :: 0 <= i < |acts| ==> !((acts[i].TickLoad? || acts[i].ManualLoad?) && acts[i].key == k)
  }

  lemma StepLoopClaims(cfg: Config, w: World, a: Action, w': World, k: Key)
    requires LoopClaims(w, k) && Step(cfg, w, a) == Some(w') && !((a.TickLoad? || a.ManualLoad?) && a.key == k)
    ensures LoopClaims(w', k)
  {
    if PipeAction(a) { PipeLoopClaims(cfg, w, a, w', k); }
    else if SpawnAction(a) { SpawnedKeys(w, a, w', k); }
    else { assert forall q :: OfKey(w', q, k) ==> OfKey(w, q, k) && w'.pipes[q] == w.pipes[q]; }
  }

  lemma PipeLoopClaims(cfg: Config, w: World, a: Action, w': World, k: Key)
    requires LoopClaims(w, k) && PipeAction(a) && a.pid in w.pipes && PipeStep(cfg, w, a) == Some(w')
    ensures LoopClaims(w', k)
  {
    PipeMoves(cfg, w, a, w');
    MovedKeys(w, a.pid, w', k);
    if !a.Save? && a.pid in w'.pipes { EntryOnly(cfg, w, a, w'); }
  }

  /** The loads of the serve loop alone, across any crashes and recoveries, are never in each other's way. */
  lemma {:induction false} LoopLoadsSingly(cfg: Config, w: World, acts: seq<Action>, k: Key)
    requires LoopClaims(w, k) && OnlyLoopLoads(acts, k)
    ensures SingleLoads(cfg, w, acts, k)
    decreases |acts|
  {
    if acts != [] && Step(cfg, w, acts[0]).Some? {
      var w1 := Step(cfg, w, acts[0]).value;
      assert !((acts[0].TickLoad? || acts[0].ManualLoad?) && acts[0].key == k);
      StepLoopClaims(cfg, w, acts[0], w1, k);
      assert OnlyLoopLoads(acts[1..], k);
      LoopLoadsSingly(cfg, w1, acts[1..], k);
      assert Loads(acts[0], k) ==> !LoopBusy(w);
    }
  }

  // ---------------------------------------------------------------------------------------------
  // Issues on which nobody starts a manual run or a reset
  // ---------------------------------------------------------------------------------------------

  ghost predicate NoManual(acts: seq<Action>, k: Key) {
    forall i :: 0 <= i < |acts| ==> !((acts[i].ManualLoad? || acts[i].ResetLoad?) && acts[i].key == k)
  }

  /** No tick loads the issue before Recover is done. */
  ghost predicate TicksAfterRecovery(cfg: Config, w: World, acts: seq<Action>, k: Key)
    decreases |acts|
  {
    acts == [] ||
    ((acts[0].TickLoad? && acts[0].key == k ==> w.phase.Running?) &&
     (Step(cfg, w, acts[0]).Some? ==> TicksAfterRecovery(cfg, Step(cfg, w, acts[0]).value, acts[1..], k)))
  }

  // The issue has one pipeline at most, and that knows what is stored.
  ghost predicate Served(w: World, k: Key) {
    && Sole(w, k)
    && (!w.phase.Running? ==> w.resume == [] && forall pid :: !OfKey(w, pid, k))
    && (forall pid :: OfKey(w, pid, k) ==>
          !w.pipes[pid].pc.ResetSave? && (w.pipes[pid].pc.ClaimSave? <==> k !in w.store) &&
          (w.pipes[pid].pc.ClaimLease? || w.pipes[pid].pc.Enter? ==> !Finished(w, k)) &&
          (forall i :: 0 <= i < |w.resume| ==> w.resume[i].0 != k))
    && (forall i, j :: 0 <= i < j < |w.resume| ==> w.resume[i].0 != w.resume[j].0)
    && (forall i :: 0 <= i < |w.resume| && w.resume[i].0 == k ==>
          k in w.store && (!w.resume[i].1.Terminal() ==> !Finished(w, k)))
  }

  lemma ServedIsCareful(w: World, a: Action, k: Key)
    requires Served(w, k)
    ensures Careful(w, a, k)
  {
  }

  lemma OtherKeyServed(w: World, pid: Pid, w': World, k: Key)
    requires Served(w, k) && OneMoved(w, pid, w') && w.pipes[pid].key != k
    ensures Served(w', k)
  {
    MovedKeys(w, pid, w', k);
    SoleKept(w, w', k);
  }

  // The issue's pipeline moved on, and the store has what it wrote.
  lemma OwnMoveServed(w: World, pid: Pid, w': World, k: Key)
    requires Served(w, k) && OfKey(w, pid, k) && OneMoved(w, pid, w')
    requires k in w.store ==> k in w'.store
    requires pid in w'.pipes ==>
               var pc := w'.pipes[pid].pc;
               k in w'.store && !pc.ClaimSave? && !pc.ResetSave? && (pc.ClaimLease? || pc.Enter? ==> !Finished(w', k))
    ensures Served(w', k)
  {
    MovedKeys(w, pid, w', k);
    SoleKept(w, w', k);
    assert forall q :: OfKey(w', q, k) ==> q == pid;
  }

  lemma OwnSaveServed(w: World, pid: Pid, ok: bool, w': World, k: Key)
    requires Served(w, k) && OfKey(w, pid, k) && SaveStep(w, pid, w.pipes[pid], ok) == Some(w')
    ensures Served(w', k)
  {
    SaveMoves(w, pid, ok, w');
    OwnMoveServed(w, pid, w', k);
  }

  lemma OwnStepServed(cfg: Config, w: World, a: Action, w': World, k: Key)
    requires Served(w, k) && PipeAction(a) && !a.Save? && OfKey(w, a.pid, k) && PipeStep(cfg, w, a) == Some(w')
    ensures Served(w', k)
  {
    PipeMoves(cfg, w, a, w');
    if a.pid in w'.pipes {
      EntryOnly(cfg, w, a, w');
      assert !w.pipes[a.pid].pc.ClaimSave?;
    }
    OwnMoveServed(w, a.pid, w', k);
  }

  lemma PipeStepServed(cfg: Config, w: World, a: Action, w': World, k: Key)
    requires Served(w, k) && PipeAction(a) && a.pid in w.pipes && PipeStep(cfg, w, a) == Some(w')
    ensures Served(w', k)
  {
    if w.pipes[a.pid].key != k {
      PipeMoves(cfg, w, a, w');
      OtherKeyServed(w, a.pid, w', k);
    } else if a.Save? { OwnSaveServed(w, a.pid, a.ok, w', k); }
    else { OwnStepServed(cfg, w, a, w', k); }
  }

  lemma ResumeServed(w: World, pid: Pid, active: bool, w': World, k: Key)
    requires Served(w, k) && SpawnStep(w, Resume(pid, active)) == Some(w')
    ensures Served(w', k)
  {
    SpawnedKeys(w, Resume(pid, active), w', k);
    assert forall i :: 0 <= i < |w'.resume| ==> w'.resume[i] == w.resume[i + 1];
    if w.resume[0].0 == k {
      assert forall q :: !OfKey(w, q, k);
      assert forall q :: OfKey(w', q, k) ==> q == pid;
    } else {
      SoleKept(w, w', k);
    }
  }

  lemma LoadServed(w: World, a: Action, w': World, k: Key)
    requires Served(w, k) && SpawnAction(a) && !a.Resume? && SpawnStep(w, a) == Some(w')
    requires !((a.ManualLoad? || a.ResetLoad?) && a.key == k) && (Loads(a, k) ==> NoneUnsaved(w, k) && w.phase.Running?)
    ensures Served(w', k)
  {
    SpawnedKeys(w, a, w', k);
    if Loads(a, k) {
      assert forall pid :: !OfKey(w, pid, k);
      assert forall q :: OfKey(w', q, k) ==> q == a.pid;
    } else {
      SoleKept(w, w', k);
    }
  }

  lemma RecoverServed(cfg: Config, w: World, a: Action, w': World, k: Key)
    requires Served(w, k) && (a.Boot? || a.Sweep? || a.Recovered?) && RecoverStep(w, a) == Some(w')
    ensures Served(w', k)
  {
    assert w'.pipes == w.pipes;
    assert forall q :: OfKey(w', q, k) ==> OfKey(w, q, k);
    SoleKept(w, w', k);
    if a.Recovered? {
      forall i | 0 <= i < |a.order| ensures a.order[i] in w.store { assert a.order[i] in a.order; }
    }
  }

  lemma StepServed(cfg: Config, w: World, a: Action, w': World, k: Key)
    requires Served(w, k) && Step(cfg, w, a) == Some(w') && (a.TickLoad? && a.key == k ==> w.phase.Running?)
    requires !((a.ManualLoad? || a.ResetLoad?) && a.key == k) && (Loads(a, k) ==> NoneUnsaved(w, k))
    ensures Served(w', k)
  {
    if PipeAction(a) { PipeStepServed(cfg, w, a, w', k); }
    else if a.Boot? || a.Sweep? || a.Recovered? { RecoverServed(cfg, w, a, w', k); }
    else if a.Resume? { ResumeServed(w, a.pid, a.active, w', k); }
    else if SpawnAction(a) { LoadServed(w, a, w', k); }
    else { OutsideServed(cfg, w, a, w', k); }
  }

  lemma OutsideServed(cfg: Config, w: World, a: Action, w': World, k: Key)
    requires Served(w, k) && (a.Tick? || a.ReapNow? || a.Crash?) && Step(cfg, w, a) == Some(w')
    ensures Served(w', k)
  {
    assert forall q :: OfKey(w', q, k) ==> OfKey(w, q, k) && w'.pipes[q] == w.pipes[q];
    SoleKept(w, w', k);
  }

  lemma {:induction false} RunServed(cfg: Config, w: World, acts: seq<Action>, w': World, k: Key)
    requires Served(w, k) && Run(cfg, w, acts) == Some(w')
    requires NoManual(acts, k) && SingleLoads(cfg, w, acts, k) && TicksAfterRecovery(cfg, w, acts, k)
    ensures Served(w', k) && CarefulRun(cfg, w, acts, k)
    decreases |acts|
  {
    if acts != [] {
      var a := acts[0];
      var w1 := Step(cfg, w, a).value;
      ServedIsCareful(w, a, k);
      StepServed(cfg, w, a, w1, k);
      assert NoManual(acts[1..], k);
      RunServed(cfg, w1, acts[1..], w', k);
    }
  }

  // ---------------------------------------------------------------------------------------------
  // Main results
  // ---------------------------------------------------------------------------------------------

  /** An issue is claimed at most once, over every run with any passes, ticks, manual runs, resets, crashes
      and recoveries in which no load of it falls between another load and its save. */
  lemma ClaimedOnce(cfg: Config, acts: seq<Action>, w: World, k: Key)
    requires Run(cfg, START, acts) == Some(w) && SingleLoads(cfg, START, acts, k)
    ensures Count(w.claims, k) <= 1
  {
    RunOnce(cfg, START, acts, w, k);
  }

  /** The serve loop on its own, with any crashes and recoveries and whatever commands do to other issues,
      claims the issue at most once. */
  lemma LoopClaimsOnce(cfg: Config, acts: seq<Action>, w: World, k: Key)
    requires Run(cfg, START, acts) == Some(w) && OnlyLoopLoads(acts, k)
    ensures Count(w.claims, k) <= 1
  {
    LoopLoadsSingly(cfg, START, acts, k);
    ClaimedOnce(cfg, acts, w, k);
  }

  lemma SaveClaims(cfg: Config, w: World, pid: Pid) returns (w': World)
    requires pid in w.pipes && w.pipes[pid].pc.ClaimSave?
    ensures Step(cfg, w, Save(pid, true)) == Some(w') && Others(w, pid, w')
    ensures Count(w'.claims, w.pipes[pid].key) == Count(w.claims, w.pipes[pid].key) + 1
  {
    w' := SaveStep(w, pid, w.pipes[pid], true).value;
  }

  /** And the condition is needed: a load that does fall there can always be followed by both saves. */
  lemma SecondLoadClaimsTwice(cfg: Config, w: World, p: Pid, a: Action, w1: World, k: Key)
    requires OfKey(w, p, k) && w.pipes[p].pc.ClaimSave? && k !in w.store && Loads(a, k) && Step(cfg, w, a) == Some(w1)
    ensures var saves := [Save(p, true), Save(a.pid, true)];
            Run(cfg, w1, saves).Some? && Count(Run(cfg, w1, saves).value.claims, k) == Count(w.claims, k) + 2
  {
    var first, second := Save(p, true), Save(a.pid, true);
    assert OfKey(w1, a.pid, k) && w1.pipes[a.pid].pc.ClaimSave? && w1.pipes[p] == w.pipes[p];
    var w2 := SaveClaims(cfg, w1, p);
    var w3 := SaveClaims(cfg, w2, a.pid);
    assert [first, second][1..] == [second] && [second][1..] == [];
    assert Run(cfg, w3, []) == Some(w3) && Run(cfg, w2, [second]) == Some(w3);
  }

  /** Passes of the serve loop and of ticks are careful about an issue as long as their loads of it do not
      overlap, none comes before Recover is done, and nobody starts a manual run or a reset on it. */
  lemma PassesAreCareful(cfg: Config, acts: seq<Action>, w: World, k: Key)
    requires Run(cfg, START, acts) == Some(w)
    requires NoManual(acts, k) && SingleLoads(cfg, START, acts, k) && TicksAfterRecovery(cfg, START, acts, k)
    ensures CarefulRun(cfg, START, acts, k)
  {
    RunServed(cfg, START, acts, w, k);
  }

  lemma {:induction false} CarefulSplit(cfg: Config, w: World, a: seq<Action>, b: seq<Action>, k: Key)
    requires Run(cfg, w, a).Some? && CarefulRun(cfg, w, a + b, k)
    ensures CarefulRun(cfg, w, a, k) && CarefulRun(cfg, Run(cfg, w, a).value, b, k)
    decreases |a|
  {
    if a == [] {
      assert a + b == b;
    } else {
      assert (a + b)[1..] == a[1..] + b;
      CarefulSplit(cfg, Step(cfg, w, a[0]).value, a[1..], b, k);
    }
  }

  /** Once the outcome of an issue is stored, no later step develops, merges or rewrites it, over every run
      that is careful about the issue, commands at any time included. */
  lemma FinishedForever(cfg: Config, before: seq<Action>, after: seq<Action>, w: World, w': World, k: Key)
    requires Run(cfg, START, before) == Some(w) && Run(cfg, START, before + after) == Some(w')
    requires CarefulRun(cfg, START, before + after, k) && Finished(w, k)
    ensures Finished(w', k) && w'.store[k] == w.store[k] && Untouched(cfg, w, after, k)
  {
    RunSplit(cfg, START, before, after, w');
    CarefulSplit(cfg, START, before, after, k);
    StartIsOurs();
    RunKeeps(cfg, START, before, w);
    RunSettled(cfg, START, before, w, k);
    RunSettled(cfg, w, after, w', k);
  }

  /** At every point, hence at every crash: a workspace that finish removed belongs to an issue whose
      outcome is stored, on every run that is careful about the issue, manual runs included. */
  lemma CleanedAfterStored(cfg: Config, acts: seq<Action>, w: World, k: Key)
    requires Run(cfg, START, acts) == Some(w) && CarefulRun(cfg, START, acts, k)
    ensures k in w.cleaned ==> Finished(w, k)
  {
    StartIsOurs();
    RunSettled(cfg, START, acts, w, k);
  }

  // An admitted run whose account is unavailable is deferred, and that is stored.
  lemma DeferredOverwrites(cfg: Config, w: World, pid: Pid)
    requires pid in w.pipes && w.pipes[pid].pc.Reserving?
    ensures var acts := [Reserve(pid, None), Save(pid, true)];
            Run(cfg, w, acts).Some? && !Finished(Run(cfg, w, acts).value, w.pipes[pid].key)
  {
    var p, save := w.pipes[pid], Save(pid, true);
    var w1 := Put(w, pid, Go(p, SaveDeferred));
    assert Step(cfg, w, Reserve(pid, None)) == Some(w1);
    var w2 := SaveStep(w1, pid, w1.pipes[pid], true).value;
    assert Step(cfg, w1, save) == Some(w2);
    assert [save][1..] == [] && Run(cfg, w2, []) == Some(w2);
    assert Run(cfg, w1, [save]) == Some(w2);
    assert [Reserve(pid, None), save][1..] == [save];
  }

  /** Care is what it takes: from a finished issue, each careless step is followed by a run that stores
      an unfinished state over the outcome. */
  lemma CarelessOverwrites(cfg: Config, w: World, a: Action, w1: World, k: Key)
    requires Finished(w, k) && !Careful(w, a, k) && Step(cfg, w, a) == Some(w1) && (a.Save? ==> a.ok)
    ensures exists more: seq<Action> :: Run(cfg, w1, more).Some? && !Finished(Run(cfg, w1, more).value, k)
  {
    if a.Save? {
      assert Run(cfg, w1, []) == Some(w1);
    } else {
      EnterEffect(cfg, w, a.pid, w1);
      DeferredOverwrites(cfg, w1, a.pid);
    }
  }
}
