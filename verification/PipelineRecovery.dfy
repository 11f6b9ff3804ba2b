/** What a recovery leaves behind on any run, commands before and during it included: every valid lease is in use,
    except an account's after a run that was forced without a pick, and an issue's that was taken too late. */
module PipelineRecovery {
  import opened Leases
  import opened Options
  import opened LeaseStore
  import opened Pipeline
  import opened PipelineOwnership
  import opened PipelineMerges
  import opened PipelineHistory
  import opened PipelineLifecycle
  import opened PipelineReservations

  // About to release the issue lease, the outcome being stored.
  predicate Dropping(w: World, pid: Pid, k: Key) {
    OfKey(w, pid, k) && w.pipes[pid].pc.DropIssue?
  }

  // The issue's lease is held for a stored issue, by that issue.
  ghost predicate IssueOwned(w: World, k: Key) {
    && (forall o :: HeldByNow(w, IssueSlot(k), o) ==> o == k && k in w.store)
    && (forall pid :: OfKey(w, pid, k) && w.pipes[pid].pc.ClaimLease? ==> k in w.store)
  }

  // Once the issue is finished, and unless Recover still has to deal with the lease, somebody is about to release it.
  ghost predicate IssueClosing(w: World, k: Key) {
    HeldByNow(w, IssueSlot(k), k) && Finished(w, k) && !Waits(w, IssueSlot(k), k) ==> exists pid :: Dropping(w, pid, k)
  }

  /** No claim takes the issue lease when the issue is already finished. */
  predicate InTime(w: World, a: Action, k: Key) {
    a.Pass? && OfKey(w, a.pid, k) && w.pipes[a.pid].pc.ClaimLease? ==> !Finished(w, k)
  }

  ghost predicate LeasedInTime(cfg: Config, w: World, acts: seq<Action>, k: Key)
    decreases |acts|
  {
    acts == [] ||
    (InTime(w, acts[0], k) && (Step(cfg, w, acts[0]).Some? ==> LeasedInTime(cfg, Step(cfg, w, acts[0]).value, acts[1..], k)))
  }

  // Nothing about the issue's lease, record or phase changed, and whoever was about to release it still is.
  ghost predicate IssueStill(w: World, w': World, k: Key) {
    && (forall o :: HeldByNow(w', IssueSlot(k), o) ==> HeldByNow(w, IssueSlot(k), o))
    && w'.phase == w.phase && (k in w'.store <==> k in w.store) && (k in w.store ==> w'.store[k] == w.store[k])
    && (forall pid :: Dropping(w, pid, k) ==> Dropping(w', pid, k))
    && (forall pid :: OfKey(w', pid, k) && w'.pipes[pid].pc.ClaimLease? ==> OfKey(w, pid, k) && w.pipes[pid].pc.ClaimLease?)
  }

  lemma StillIssue(w: World, w': World, k: Key)
    requires IssueOwned(w, k) && IssueStill(w, w', k)
    ensures IssueOwned(w', k) && (IssueClosing(w, k) ==> IssueClosing(w', k))
  {
  }

  // -- the steps of the issue's own pipelines ------------------------------------------------------

  lemma SaveIssue(w: World, pid: Pid, ok: bool, w': World, k: Key)
    requires IssueOwned(w, k) && OfKey(w, pid, k) && SaveStep(w, pid, w.pipes[pid], ok) == Some(w')
    ensures IssueOwned(w', k) && (IssueClosing(w, k) ==> IssueClosing(w', k))
  {
    SaveMoves(w, pid, ok, w');
    assert w'.holds == w.holds && w'.now == w.now;
    forall o | HeldByNow(w', IssueSlot(k), o) ensures HeldByNow(w, IssueSlot(k), o) {}
    forall q | Dropping(w, q, k) ensures Dropping(w', q, k) { assert q != pid; }
    if Finished(w', k) && !Finished(w, k) { assert Dropping(w', pid, k); }
  }

  // What a step without an outcome does to the issue's lease.
  lemma PassIssueLease(cfg: Config, w: World, pid: Pid, w': World, k: Key)
    requires pid in w.pipes && PassStep(cfg, w, pid, w.pipes[pid]) == Some(w')
    ensures var p := w.pipes[pid];
            forall o :: HeldByNow(w', IssueSlot(k), o) ==>
              (HeldByNow(w, IssueSlot(k), o) && !(p.pc.DropIssue? && p.key == k && o == k)) || (p.pc.ClaimLease? && p.key == k && o == k)
  {
  }

  lemma PassIssue(cfg: Config, w: World, pid: Pid, w': World, k: Key)
    requires IssueOwned(w, k) && OfKey(w, pid, k) && PassStep(cfg, w, pid, w.pipes[pid]) == Some(w')
    ensures IssueOwned(w', k) && (IssueClosing(w, k) && InTime(w, Pass(pid), k) ==> IssueClosing(w', k))
  {
    PassMoves(cfg, w, pid, w');
    PassIssueLease(cfg, w, pid, w', k);
    if pid in w'.pipes { EntryOnly(cfg, w, Pass(pid), w'); }
    forall q | Dropping(w, q, k) && q != pid ensures Dropping(w', q, k) {}
  }

  lemma ChosenIssue(cfg: Config, w: World, a: Action, w': World, k: Key)
    requires IssueOwned(w, k) && PipeAction(a) && !a.Save? && !a.Pass? && OfKey(w, a.pid, k) && PipeStep(cfg, w, a) == Some(w')
    ensures IssueOwned(w', k) && (IssueClosing(w, k) ==> IssueClosing(w', k))
  {
    PipeMoves(cfg, w, a, w');
    assert w'.holds == w.holds && w'.now == w.now && !w.pipes[a.pid].pc.DropIssue?;
    EntryOnly(cfg, w, a, w');
    StillIssue(w, w', k);
  }

  lemma OtherIssue(cfg: Config, w: World, a: Action, w': World, k: Key)
    requires IssueOwned(w, k) && PipeAction(a) && a.pid in w.pipes && w.pipes[a.pid].key != k && PipeStep(cfg, w, a) == Some(w')
    ensures IssueOwned(w', k) && (IssueClosing(w, k) ==> IssueClosing(w', k))
  {
    PipeMoves(cfg, w, a, w');
    assert w'.now == w.now;
    if a.Pass? { PassIssueLease(cfg, w, a.pid, w', k); } else { assert w'.holds == w.holds; }
    forall q | Dropping(w, q, k) ensures Dropping(w', q, k) { assert q != a.pid; }
    StillIssue(w, w', k);
  }

  // -- everything else -----------------------------------------------------------------------------

  lemma SweepIssue(w: World, slot: Slot, w': World, k: Key)
    requires IssueOwned(w, k) && RecoverStep(w, Action.Sweep(slot)) == Some(w')
    ensures IssueOwned(w', k) && (IssueClosing(w, k) ==> IssueClosing(w', k))
  {
    forall o | HeldByNow(w', IssueSlot(k), o) ensures HeldByNow(w, IssueSlot(k), o) {}
    forall q | Dropping(w, q, k) ensures Dropping(w', q, k) {}
  }

  lemma OutsideIssue(cfg: Config, w: World, a: Action, w': World, k: Key)
    requires IssueOwned(w, k) && !PipeAction(a) && !SpawnAction(a) && !a.Sweep? && Step(cfg, w, a) == Some(w')
    ensures IssueOwned(w', k) && (IssueClosing(w, k) ==> IssueClosing(w', k))
  {
    assert w'.store == w.store && (w'.pipes == w.pipes || a.Crash?);
    forall o | HeldByNow(w', IssueSlot(k), o) ensures HeldByNow(w, IssueSlot(k), o) {}
    if !a.Crash? {
      forall q | Dropping(w, q, k) ensures Dropping(w', q, k) {}
    }
  }

  lemma SpawnIssue(w: World, a: Action, w': World, k: Key)
    requires IssueOwned(w, k) && SpawnAction(a) && SpawnStep(w, a) == Some(w')
    ensures IssueOwned(w', k) && (IssueClosing(w, k) ==> IssueClosing(w', k))
  {
    SpawnedKeys(w, a, w', k);
    assert w'.holds == w.holds && w'.now == w.now;
    forall q | Dropping(w, q, k) ensures Dropping(w', q, k) { assert q != a.pid; }
    StillIssue(w, w', k);
  }

  lemma StepIssue(cfg: Config, w: World, a: Action, w': World, k: Key)
    requires IssueOwned(w, k) && Step(cfg, w, a) == Some(w')
    ensures IssueOwned(w', k) && (IssueClosing(w, k) && InTime(w, a, k) ==> IssueClosing(w', k))
  {
    if a.Sweep? { SweepIssue(w, a.slot, w', k); }
    else if SpawnAction(a) { SpawnIssue(w, a, w', k); }
    else if !PipeAction(a) { OutsideIssue(cfg, w, a, w', k); }
    else if w.pipes[a.pid].key != k { OtherIssue(cfg, w, a, w', k); }
    else if a.Save? { SaveIssue(w, a.pid, a.ok, w', k); }
    else if a.Pass? { PassIssue(cfg, w, a.pid, w', k); }
    else { ChosenIssue(cfg, w, a, w', k); }
  }

  lemma {:induction false} RunIssue(cfg: Config, w: World, acts: seq<Action>, w': World, k: Key)
    requires IssueOwned(w, k) && Run(cfg, w, acts) == Some(w')
    ensures IssueOwned(w', k) && (IssueClosing(w, k) && LeasedInTime(cfg, w, acts, k) ==> IssueClosing(w', k))
    decreases |acts|
  {
    if acts != [] {
      var w1 := Step(cfg, w, acts[0]).value;
      StepIssue(cfg, w, acts[0], w1, k);
      RunIssue(cfg, w1, acts[1..], w', k);
    }
  }

  // ---------------------------------------------------------------------------------------------
  // Main results
  // ---------------------------------------------------------------------------------------------

  /** Once any recovery is done, a valid account lease belongs to a live pipeline that has the account, or to a
      run that was forced without a picked account and left with it. */
  lemma AccountLeaseIsUsed(cfg: Config, acts: seq<Action>, w: World, r: Account, o: Owner)
    requires Run(cfg, START, acts) == Some(w) && w.phase.Running? && HeldByNow(w, AccountSlot(r), o)
    ensures r in Leaked(cfg, START, acts, {}) || exists pid :: Has(w, pid, r) && w.pipes[pid].key == o
  {
    StartIsOurs();
    RunKeeps(cfg, START, acts, w);
    LostExactly(cfg, acts, w);
    assert r in w.reserved && w.reserved[r] == o;
    if !Orphan(w, r) {
      var pid :| Has(w, pid, r);
      assert w.pipes[pid].key == o;
    }
  }

  /** A valid issue lease always belongs to the issue itself, which is stored; and once any recovery is done, the
      issue is unfinished or a live pipeline is about to release the lease, on every run on which no claim takes it
      when the issue is already finished. */
  lemma IssueLeaseIsUsed(cfg: Config, acts: seq<Action>, w: World, k: Key, o: Owner)
    requires Run(cfg, START, acts) == Some(w) && HeldByNow(w, IssueSlot(k), o)
    ensures o == k && k in w.store
    ensures w.phase.Running? && LeasedInTime(cfg, START, acts, k) ==>
              !w.store[k].Terminal() || exists pid :: Dropping(w, pid, k)
  {
    RunIssue(cfg, START, acts, w, k);
  }
}
