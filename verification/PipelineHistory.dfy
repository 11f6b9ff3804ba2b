/** What a stored outcome means: every pipeline remembers what it saw; Done is stored only on a success, and Failed
    only on a failure. */
module PipelineHistory {
  import opened Leases
  import opened Options
  import opened LeaseStore
  import opened Pipeline
  import opened PipelineOwnership

  // The most recent worker call without an error reported ok.
  predicate LastOk(h: History) {
    match h
    case Nothing => false
    case After(past, e) => if e.Developed? then e.ok else LastOk(past)
  }

  predicate Approved(h: History) {
    h.After? && h.last == Verified(true) && LastOk(h.past)
  }

  predicate AboutToMerge(h: History) {
    h.After? && h.last == MergeLeased && Approved(h.past)
  }

  // The last things seen: an ok worker, a passing verification with no worker call after it, the merge
  // lease, a successful merge.
  predicate Justified(h: History) {
    h.After? && h.last == Event.Merged && AboutToMerge(h.past)
  }

  // After some development, the last thing seen: the loop was stopped; or a pass without an ok worker; or a failed
  // merge under the lease.
  predicate Refuted(h: History) {
    h.After? && h.past.After? &&
    match h.last
    case GaveUp => true
    case Verified(pass) => pass && !LastOk(h.past)
    case MergeFailed => AboutToMerge(h.past)
    case _ => false
  }

  predicate PipeTruth(p: Pipe) {
    && (!p.Admitted() || p.pc.Reserving? || p.pc.Leasing? || p.pc.Denied? || p.pc.SaveDeveloping? || p.pc.Develop? ==> p.hist == Nothing)
    && (p.pc.SaveQA? || p.pc.Verify? || p.pc.Improve? ==> p.hist.After? && p.lastOK == LastOk(p.hist))
    && (p.pc.SaveMerging? || p.pc.AskMerge? ==> Approved(p.hist))
    && (p.pc.CallMerge? ==> AboutToMerge(p.hist))
    && (p.pc.SaveFinal? ==> p.pc.state.Terminal() && Earned(p.pc.state, p.hist))
  }

  predicate Earned(s: AState, h: History) {
    (s.Done? ==> Justified(h)) && (s.Failed? ==> Refuted(h))
  }

  ghost predicate Truthful(w: World) {
    && (forall pid :: pid in w.pipes ==> PipeTruth(w.pipes[pid]))
    && (forall k :: k in w.store && w.store[k].Terminal() ==> k in w.evidence && Earned(w.store[k], w.evidence[k]))
  }

  // Only pipeline `pid` moved, and nothing was stored.
  ghost predicate Silent(w: World, pid: Pid, w': World) {
    Others(w, pid, w') && w'.store == w.store && w'.evidence == w.evidence
  }

  lemma SilentIsTrue(w: World, pid: Pid, w': World)
    requires Truthful(w) && Silent(w, pid, w') && (pid in w'.pipes ==> PipeTruth(w'.pipes[pid]))
    ensures Truthful(w')
  {
  }

  lemma SavedPipeIsTrue(p: Pipe, ok: bool)
    requires PipeTruth(p) && Write(p).Some?
    ensures PipeTruth(Go(p, if p.pc.SaveFinal? && !ok then AfterRun(p) else Write(p).value.1))
    ensures Write(p).value.0.Terminal() ==> p.pc == SaveFinal(Write(p).value.0) && Earned(p.pc.state, p.hist)
  {
  }

  lemma SaveIsTrue(w: World, pid: Pid, ok: bool, w': World)
    requires Truthful(w) && pid in w.pipes && SaveStep(w, pid, w.pipes[pid], ok) == Some(w')
    ensures Truthful(w')
  {
    SavedPipeIsTrue(w.pipes[pid], ok);
  }

  lemma WorkIsTrue(w: World, pid: Pid, r: Worker, prepared: bool, w': World)
    requires pid in w.pipes && PipeTruth(w.pipes[pid]) && WorkStep(w, pid, w.pipes[pid], r, prepared) == Some(w')
    ensures Silent(w, pid, w') && pid in w'.pipes && PipeTruth(w'.pipes[pid])
  {
  }

  lemma JudgeIsTrue(w: World, pid: Pid, v: Verdict, w': World)
    requires pid in w.pipes && PipeTruth(w.pipes[pid]) && JudgeStep(w, pid, w.pipes[pid], v) == Some(w')
    ensures Silent(w, pid, w') && pid in w'.pipes && PipeTruth(w'.pipes[pid])
  {
  }

  lemma MergeIsTrue(w: World, pid: Pid, merged: bool, w': World)
    requires pid in w.pipes && PipeTruth(w.pipes[pid]) && MergeStep(w, pid, w.pipes[pid], merged) == Some(w')
    ensures Silent(w, pid, w') && pid in w'.pipes && PipeTruth(w'.pipes[pid])
  {
  }

  lemma PassPipeIsTrue(cfg: Config, p: Pipe, h: Holds, granted: bool)
    requires PipeTruth(p) && CanPass(p) && !p.pc.Leave?
    ensures PipeTruth(PassPipe(cfg, p, h, granted))
  {
  }

  lemma PassIsTrue(cfg: Config, w: World, pid: Pid, w': World)
    requires pid in w.pipes && PipeTruth(w.pipes[pid]) && PassStep(cfg, w, pid, w.pipes[pid]) == Some(w')
    ensures Silent(w, pid, w') && (pid in w'.pipes ==> PipeTruth(w'.pipes[pid]))
  {
    var p := w.pipes[pid];
    if !p.pc.Leave? { PassPipeIsTrue(cfg, p, PassHolds(cfg, w, p).0, PassHolds(cfg, w, p).1); }
  }

  lemma ReserveIsTrue(w: World, pid: Pid, choice: Option<Account>, w': World)
    requires pid in w.pipes && PipeTruth(w.pipes[pid]) && ReserveStep(w, pid, w.pipes[pid], choice) == Some(w')
    ensures Silent(w, pid, w') && pid in w'.pipes && PipeTruth(w'.pipes[pid])
  {
  }

  lemma CleanupIsTrue(w: World, pid: Pid, wired: bool, w': World)
    requires pid in w.pipes && PipeTruth(w.pipes[pid]) && CleanupStep(w, pid, w.pipes[pid], wired) == Some(w')
    ensures Silent(w, pid, w') && pid in w'.pipes && PipeTruth(w'.pipes[pid])
  {
  }

  lemma PipeStepIsTrue(cfg: Config, w: World, a: Action, w': World)
    requires Truthful(w) && PipeAction(a) && a.pid in w.pipes && PipeStep(cfg, w, a) == Some(w')
    ensures Truthful(w')
  {
    var pid := a.pid;
    assert PipeTruth(w.pipes[pid]);
    if a.Save? { SaveIsTrue(w, pid, a.ok, w'); }
    else {
      if a.Pass? { PassIsTrue(cfg, w, pid, w'); }
      else if a.Work? { WorkIsTrue(w, pid, a.result, a.prepared, w'); }
      else if a.Judge? { JudgeIsTrue(w, pid, a.verdict, w'); }
      else if a.Merge? { MergeIsTrue(w, pid, a.merged, w'); }
      else if a.Reserve? { ReserveIsTrue(w, pid, a.choice, w'); }
      else { CleanupIsTrue(w, pid, a.wired, w'); }
      SilentIsTrue(w, pid, w');
    }
  }

  // What happens outside the pipelines stores nothing and at most starts a run from its entry.
  ghost predicate Outside(w: World, w': World) {
    && w'.store == w.store && w'.evidence == w.evidence && w'.claims == w.claims && w'.cleaned == w.cleaned
    && (forall pid :: pid in w'.pipes ==>
          (pid in w.pipes && w'.pipes[pid] == w.pipes[pid]) ||
          (w'.pipes[pid].hist == Nothing && (w'.pipes[pid].pc.ClaimSave? || w'.pipes[pid].pc.Enter? || w'.pipes[pid].pc.ResetSave?)))
  }

  lemma SpawnIsOutside(w: World, a: Action, w': World)
    requires SpawnAction(a) && SpawnStep(w, a) == Some(w')
    ensures Outside(w, w')
  {
  }

  lemma StepIsOutside(cfg: Config, w: World, a: Action, w': World)
    requires !PipeAction(a) && Step(cfg, w, a) == Some(w')
    ensures Outside(w, w')
  {
    if SpawnAction(a) { SpawnIsOutside(w, a, w'); }
    else if a.Boot? || a.Sweep? || a.Recovered? { assert w'.pipes == w.pipes && w'.store == w.store; }
  }

  lemma OutsideIsTrue(w: World, w': World)
    requires Truthful(w) && Outside(w, w')
    ensures Truthful(w')
  {
  }

  lemma StepIsTrue(cfg: Config, w: World, a: Action, w': World)
    requires Truthful(w) && Step(cfg, w, a) == Some(w')
    ensures Truthful(w')
  {
    if PipeAction(a) { PipeStepIsTrue(cfg, w, a, w'); }
    else {
      StepIsOutside(cfg, w, a, w');
      OutsideIsTrue(w, w');
    }
  }

  lemma {:induction false} RunIsTrue(cfg: Config, w: World, acts: seq<Action>, w': World)
    requires Truthful(w) && Run(cfg, w, acts) == Some(w')
    ensures Truthful(w')
    decreases |acts|
  {
    if acts != [] {
      var w1 := Step(cfg, w, acts[0]).value;
      StepIsTrue(cfg, w, acts[0], w1);
      RunIsTrue(cfg, w1, acts[1..], w');
    }
  }

  /** In every reachable world, each issue stored as Done was stored by a pipeline that last saw its merge
      succeed, right before that was granted the merge lease, right before that saw the verification pass,
      and whose last error-free worker call before that reported ok. */
  lemma DoneIsEarned(cfg: Config, acts: seq<Action>, w: World, k: Key)
    requires Run(cfg, START, acts) == Some(w) && k in w.store && w.store[k] == Done
    ensures k in w.evidence && exists past ::
              w.evidence[k] == After(After(After(past, Verified(true)), MergeLeased), Event.Merged) && LastOk(past)
  {
    RunIsTrue(cfg, START, acts, w);
    var h := w.evidence[k];
    assert Justified(h);
    assert h == After(After(After(h.past.past.past, Verified(true)), MergeLeased), Event.Merged);
  }

  /** And each issue stored as Failed was stored by a pipeline that had run its worker and last saw the loop being
      stopped for good; or saw the verification pass when its last error-free worker call had not reported ok; or
      saw its merge fail while it held the lease. Being refused an account or a lease fails no issue. */
  lemma FailedIsEarned(cfg: Config, acts: seq<Action>, w: World, k: Key)
    requires Run(cfg, START, acts) == Some(w) && k in w.store && w.store[k] == Failed
    ensures k in w.evidence && w.evidence[k].After? && w.evidence[k].past.After?
    ensures match w.evidence[k].last
            case GaveUp => true
            case Verified(pass) => pass && !LastOk(w.evidence[k].past)
            case MergeFailed => w.evidence[k].past.last == MergeLeased
            case _ => false
  {
    RunIsTrue(cfg, START, acts, w);
    assert Refuted(w.evidence[k]);
  }

  // In verification a pipeline can only hear a verdict, and in improvement only call the worker.
  lemma LoopSteps(cfg: Config, w: World, a: Action, w': World)
    requires PipeAction(a) && a.pid in w.pipes && PipeStep(cfg, w, a) == Some(w')
    ensures w.pipes[a.pid].pc.Verify? ==> a.Judge?
    ensures w.pipes[a.pid].pc.Improve? ==> a.Work? && a.pid in w'.pipes && w'.pipes[a.pid].pc.Verify?
  {
  }

  /** Whatever interleaves, after a verdict to go on the pipeline's next step is a worker call, and the one after
      that a verdict again. */
  lemma GoOnIsImproved(cfg: Config, pid: Pid, w: World, w1: World, v: World, a: Action, v1: World, u: World, b: Action, u1: World)
    requires Step(cfg, w, Judge(pid, GoOn)) == Some(w1)
    requires PipeAction(a) && a.pid == pid && pid in w1.pipes && pid in v.pipes && v.pipes[pid] == w1.pipes[pid] && PipeStep(cfg, v, a) == Some(v1)
    requires PipeAction(b) && b.pid == pid && pid in v1.pipes && pid in u.pipes && u.pipes[pid] == v1.pipes[pid] && PipeStep(cfg, u, b) == Some(u1)
    ensures a.Work? && b.Judge?
  {
    assert w1.pipes[pid].pc.Improve?;
    LoopSteps(cfg, v, a, v1);
    LoopSteps(cfg, u, b, u1);
  }
}
