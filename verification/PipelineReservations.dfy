/** Do reservations come back? They do, unless a run is forced without picking an account. */
module PipelineReservations {
  import opened Leases
  import opened Options
  import opened LeaseStore
  import opened Pipeline
  import opened PipelineOwnership
  import opened PipelineHistory

  predicate Has(w: World, pid: Pid, r: Account) {
    pid in w.pipes && w.pipes[pid].account == Some(r)
  }

  // Reserved, and no pipeline is left to release it.
  ghost predicate Orphan(w: World, r: Account) {
    r in w.reserved && forall pid :: !Has(w, pid, r)
  }

  // Forced without a picked account: the run reserves one like any other.
  predicate ForcedAuto(p: Pipe) {
    p.force && p.preferred == ""
  }

  // Who has an account when: a run that was forced onto a picked account never reserves it, any other run has
  // one from the reservation on, and only a forced one leaves with it.
  predicate Keeping(p: Pipe) {
    && (p.account.Some? ==> !(p.force && p.preferred != ""))
    && (p.pc.Leave? && p.account.Some? ==> ForcedAuto(p))
  }

  ghost predicate AllKeeping(w: World) {
    forall pid :: pid in w.pipes ==> Keeping(w.pipes[pid])
  }

  // What one pipeline's step does to the reservations: nothing, take one for itself, or give its own back.
  ghost predicate AccountMove(w: World, pid: Pid, w': World) {
    && pid in w.pipes && Others(w, pid, w')
    && (|| (w'.reserved == w.reserved && pid in w'.pipes && w'.pipes[pid].account == w.pipes[pid].account)
        || (w'.reserved == w.reserved && pid !in w'.pipes)
        || (exists r :: r !in w.reserved && w'.reserved == w.reserved[r := w.pipes[pid].key] &&
                        w.pipes[pid].account.None? && Has(w', pid, r))
        || (exists r :: w'.reserved == w.reserved - {r} && Has(w, pid, r) && pid in w'.pipes && w'.pipes[pid].account.None?))
  }

  lemma PassMovesAccount(cfg: Config, w: World, pid: Pid, w': World)
    requires pid in w.pipes && PassStep(cfg, w, pid, w.pipes[pid]) == Some(w')
    ensures AccountMove(w, pid, w')
  {
    var p := w.pipes[pid];
    if p.pc.Denied? || p.pc.Unreserve? {
      var r := p.account.value;
      assert w'.reserved == w.reserved - {r} && Has(w, pid, r) && w'.pipes[pid].account.None?;
    } else if !Quits(w, p) {
      assert w'.pipes[pid].account == p.account;
    }
  }

  lemma MovesAccount(cfg: Config, w: World, a: Action, w': World)
    requires PipeAction(a) && a.pid in w.pipes && PipeShape(w.pipes[a.pid]) && PipeStep(cfg, w, a) == Some(w')
    ensures AccountMove(w, a.pid, w')
  {
    if a.Pass? { PassMovesAccount(cfg, w, a.pid, w'); }
    else if a.Reserve? {
      if TakesAccount(w.pipes[a.pid], a.choice) { assert Has(w', a.pid, a.choice.value); }
    }
  }

  lemma OrphanMove(w: World, pid: Pid, w': World, r: Account)
    requires Orphan(w, r) && AccountMove(w, pid, w')
    ensures Orphan(w', r)
  {
    assert !Has(w, pid, r);
    forall q ensures !Has(w', q, r) { assert !Has(w, q, r); }
  }

  /** An orphaned reservation outlives everything but a restart: only a crash clears it. */
  lemma OrphanStays(cfg: Config, w: World, a: Action, w': World, r: Account)
    requires Ours(w) && Orphan(w, r) && Step(cfg, w, a) == Some(w') && !a.Crash?
    ensures Orphan(w', r)
  {
    if PipeAction(a) {
      assert PipeShape(w.pipes[a.pid]);
      MovesAccount(cfg, w, a, w');
      OrphanMove(w, a.pid, w', r);
    } else {
      forall q ensures !Has(w', q, r) { assert !Has(w, q, r); }
    }
  }

  // ---------------------------------------------------------------------------------------------
  // Exactly which reservations are lost
  // ---------------------------------------------------------------------------------------------

  lemma PassKeeping(cfg: Config, p: Pipe, h: Holds, granted: bool)
    requires Keeping(p) && PipeShape(p) && CanPass(p) && !p.pc.Leave?
    ensures Keeping(PassPipe(cfg, p, h, granted))
  {
  }

  lemma StepKeeping(cfg: Config, w: World, a: Action, w': World)
    requires PipeAction(a) && a.pid in w.pipes && PipeStep(cfg, w, a) == Some(w')
    requires Keeping(w.pipes[a.pid]) && PipeShape(w.pipes[a.pid])
    ensures a.pid in w'.pipes ==> Keeping(w'.pipes[a.pid])
  {
    var p := w.pipes[a.pid];
    if a.Pass? && !Quits(w, p) { PassKeeping(cfg, p, PassHolds(cfg, w, p).0, PassHolds(cfg, w, p).1); }
    else if a.Reserve? { assert w'.pipes[a.pid] == ReservePipe(p, a.choice); }
  }

  /** A run that was forced without a pick and has reserved an account keeps it to its last step, unless it is
      refused the lease on it. */
  lemma ForcedKeepsAccount(cfg: Config, w: World, a: Action, w': World)
    requires PipeAction(a) && a.pid in w.pipes && PipeStep(cfg, w, a) == Some(w') && PipeShape(w.pipes[a.pid])
    requires ForcedAuto(w.pipes[a.pid]) && w.pipes[a.pid].account.Some? && !w.pipes[a.pid].pc.Denied?
    ensures a.pid in w'.pipes ==> ForcedAuto(w'.pipes[a.pid]) && w'.pipes[a.pid].account == w.pipes[a.pid].account
    ensures a.pid !in w'.pipes ==> w.pipes[a.pid].pc.Leave?
  {
    var p := w.pipes[a.pid];
    if a.Pass? && !Quits(w, p) { ForcedPass(cfg, p, PassHolds(cfg, w, p).0, PassHolds(cfg, w, p).1); }
  }

  lemma ForcedPass(cfg: Config, p: Pipe, h: Holds, granted: bool)
    requires PipeShape(p) && CanPass(p) && !p.pc.Leave? && !p.pc.Denied? && ForcedAuto(p)
    ensures var p' := PassPipe(cfg, p, h, granted); p'.account == p.account && ForcedAuto(p')
  {
  }

  // The step is the last one of a run that was forced without a pick and has an account.
  predicate Leak(w: World, a: Action) {
    a.Pass? && a.pid in w.pipes && w.pipes[a.pid].pc.Leave? && ForcedAuto(w.pipes[a.pid]) && w.pipes[a.pid].account.Some?
  }

  // The accounts such runs left with since the last crash.
  ghost function Leaked(cfg: Config, w: World, acts: seq<Action>, lost: set<Account>): set<Account>
    decreases |acts|
  {
    if acts == [] then lost
    else
      var a := acts[0];
      var lost' := if a.Crash? then {} else if Leak(w, a) then lost + {w.pipes[a.pid].account.value} else lost;
      match Step(cfg, w, a)
      case None => lost'
      case Some(w') => Leaked(cfg, w', acts[1..], lost')
  }

  ghost predicate Lost(w: World, lost: set<Account>) {
    forall r :: Orphan(w, r) <==> r in lost
  }

  // A step that leaves reservations alone, and every holder of one.
  lemma SameOrphans(w: World, w': World, r: Account)
    requires w'.reserved == w.reserved && forall q :: Has(w', q, r) <==> Has(w, q, r)
    ensures Orphan(w', r) <==> Orphan(w, r)
  {
  }

  lemma LeaveLost(w: World, pid: Pid, w': World, lost: set<Account>)
    requires Ours(w) && Lost(w, lost) && pid in w.pipes && w.pipes[pid].account.Some?
    requires Others(w, pid, w') && pid !in w'.pipes && w'.reserved == w.reserved
    ensures Lost(w', lost + {w.pipes[pid].account.value})
  {
    var r0 := w.pipes[pid].account.value;
    forall r ensures Orphan(w', r) <==> r in lost || r == r0 {
      if r == r0 {
        forall q ensures !Has(w', q, r0) {
          if q in w.pipes && q != pid && w.pipes[q].account.Some? { AccountOwnedOnce(w, pid, q); }
        }
      } else {
        forall q ensures Has(w', q, r) <==> Has(w, q, r) {}
        SameOrphans(w, w', r);
      }
    }
  }

  lemma StayLost(w: World, pid: Pid, w': World, lost: set<Account>)
    requires Lost(w, lost) && Others(w, pid, w') && pid in w.pipes && w'.reserved == w.reserved
    requires if pid in w'.pipes then w'.pipes[pid].account == w.pipes[pid].account else w.pipes[pid].account.None?
    ensures Lost(w', lost)
  {
    forall r ensures Orphan(w', r) <==> r in lost {
      forall q ensures Has(w', q, r) <==> Has(w, q, r) {}
      SameOrphans(w, w', r);
    }
  }

  lemma TakeLost(w: World, pid: Pid, w': World, lost: set<Account>, r0: Account)
    requires Lost(w, lost) && Others(w, pid, w') && pid in w.pipes && w.pipes[pid].account.None?
    requires r0 !in w.reserved && w'.reserved == w.reserved[r0 := w.pipes[pid].key] && Has(w', pid, r0)
    ensures Lost(w', lost)
  {
    forall r ensures Orphan(w', r) <==> r in lost {
      if r != r0 {
        forall q ensures Has(w', q, r) <==> Has(w, q, r) {}
      }
    }
  }

  lemma GiveLost(w: World, pid: Pid, w': World, lost: set<Account>, r0: Account)
    requires Lost(w, lost) && Others(w, pid, w') && Has(w, pid, r0) && pid in w'.pipes && w'.pipes[pid].account.None?
    requires w'.reserved == w.reserved - {r0}
    ensures Lost(w', lost)
  {
    forall r ensures Orphan(w', r) <==> r in lost {
      if r != r0 {
        forall q ensures Has(w', q, r) <==> Has(w, q, r) {}
      }
    }
  }

  lemma PipeLost(cfg: Config, w: World, a: Action, w': World, lost: set<Account>)
    requires Ours(w) && AllKeeping(w) && Lost(w, lost) && PipeAction(a) && a.pid in w.pipes && PipeStep(cfg, w, a) == Some(w')
    ensures Lost(w', if Leak(w, a) then lost + {w.pipes[a.pid].account.value} else lost)
  {
    var pid, p := a.pid, w.pipes[a.pid];
    assert PipeShape(p) && Keeping(p);
    MovesAccount(cfg, w, a, w');
    if pid !in w'.pipes {
      QuitsAtEnds(cfg, w, a, w');
      if p.account.Some? { LeaveLost(w, pid, w', lost); } else { StayLost(w, pid, w', lost); }
    } else if w'.reserved == w.reserved && w'.pipes[pid].account == p.account {
      NoLeak(cfg, w, a, w');
      StayLost(w, pid, w', lost);
    } else if p.account.None? {
      var r :| r !in w.reserved && w'.reserved == w.reserved[r := p.key] && Has(w', pid, r);
      TakeLost(w, pid, w', lost, r);
    } else {
      NoLeak(cfg, w, a, w');
      GiveLost(w, pid, w', lost, p.account.value);
    }
  }

  lemma NoLeak(cfg: Config, w: World, a: Action, w': World)
    requires PipeAction(a) && a.pid in w.pipes && PipeStep(cfg, w, a) == Some(w') && a.pid in w'.pipes
    ensures !Leak(w, a)
  {
  }

  // A run with an account is over only by its last step, and only a forced one has it then.
  lemma QuitsAtEnds(cfg: Config, w: World, a: Action, w': World)
    requires PipeAction(a) && a.pid in w.pipes && PipeStep(cfg, w, a) == Some(w') && a.pid !in w'.pipes
    requires PipeShape(w.pipes[a.pid]) && Keeping(w.pipes[a.pid])
    ensures w'.reserved == w.reserved && (Leak(w, a) <==> w.pipes[a.pid].account.Some?)
  {
  }

  lemma OtherLost(cfg: Config, w: World, a: Action, w': World, lost: set<Account>)
    requires AllKeeping(w) && Lost(w, lost) && !PipeAction(a) && Step(cfg, w, a) == Some(w')
    ensures Lost(w', if a.Crash? then {} else lost) && AllKeeping(w')
  {
    if !a.Crash? {
      assert w'.reserved == w.reserved;
      forall r ensures Orphan(w', r) <==> r in lost {
        forall q ensures Has(w', q, r) <==> Has(w, q, r) {}
        SameOrphans(w, w', r);
      }
    }
  }

  lemma StepLost(cfg: Config, w: World, a: Action, w': World, lost: set<Account>)
    requires Ours(w) && AllKeeping(w) && Lost(w, lost) && Step(cfg, w, a) == Some(w')
    ensures Lost(w', if a.Crash? then {} else if Leak(w, a) then lost + {w.pipes[a.pid].account.value} else lost)
    ensures AllKeeping(w')
  {
    if PipeAction(a) {
      PipeLost(cfg, w, a, w', lost);
      assert PipeShape(w.pipes[a.pid]);
      StepKeeping(cfg, w, a, w');
      PipeOthers(cfg, w, a, w');
    } else {
      OtherLost(cfg, w, a, w', lost);
    }
  }

  lemma PipeOthers(cfg: Config, w: World, a: Action, w': World)
    requires PipeAction(a) && a.pid in w.pipes && PipeStep(cfg, w, a) == Some(w') && PipeShape(w.pipes[a.pid])
    ensures Others(w, a.pid, w')
  {
    MovesAccount(cfg, w, a, w');
  }

  lemma {:induction false} RunLost(cfg: Config, w: World, acts: seq<Action>, w': World, lost: set<Account>)
    requires Ours(w) && AllKeeping(w) && Lost(w, lost) && Run(cfg, w, acts) == Some(w')
    ensures Lost(w', Leaked(cfg, w, acts, lost)) && AllKeeping(w')
    decreases |acts|
  {
    if acts != [] {
      var a := acts[0];
      var w1 := Step(cfg, w, a).value;
      StepLost(cfg, w, a, w1, lost);
      StepKeeps(cfg, w, a, w1);
      RunLost(cfg, w1, acts[1..], w', if a.Crash? then {} else if Leak(w, a) then lost + {w.pipes[a.pid].account.value} else lost);
    }
  }

  /** Over every run the reservations that nobody is left to release are exactly those of the runs that were
      forced without a picked account, got one, and ended since the last crash. */
  lemma LostExactly(cfg: Config, acts: seq<Action>, w: World)
    requires Run(cfg, START, acts) == Some(w)
    ensures forall r :: Orphan(w, r) <==> r in Leaked(cfg, START, acts, {})
  {
    StartIsOurs();
    RunLost(cfg, START, acts, w, {});
  }

  // A manual run that is forced and picks no account.
  predicate StartsForcedAuto(a: Action) {
    a.ManualLoad? && a.force && a.preferred == ""
  }

  ghost predicate NoneForcedAuto(w: World) {
    forall pid :: pid in w.pipes ==> !ForcedAuto(w.pipes[pid])
  }

  lemma PipeKeepsForce(cfg: Config, w: World, a: Action, w': World)
    requires PipeAction(a) && a.pid in w.pipes && PipeStep(cfg, w, a) == Some(w') && a.pid in w'.pipes
    ensures w'.pipes[a.pid].force == w.pipes[a.pid].force && w'.pipes[a.pid].preferred == w.pipes[a.pid].preferred
  {
    if a.Pass? { PassKeepsForce(cfg, w.pipes[a.pid], PassHolds(cfg, w, w.pipes[a.pid]).0, PassHolds(cfg, w, w.pipes[a.pid]).1); }
    else if a.Save? { assert exists pc :: w'.pipes[a.pid] == Go(w.pipes[a.pid], pc); }
  }

  lemma PassKeepsForce(cfg: Config, p: Pipe, h: Holds, granted: bool)
    requires CanPass(p)
    ensures PassPipe(cfg, p, h, granted).force == p.force && PassPipe(cfg, p, h, granted).preferred == p.preferred
  {
  }

  lemma StepNoneForced(cfg: Config, w: World, a: Action, w': World)
    requires Ours(w) && NoneForcedAuto(w) && Step(cfg, w, a) == Some(w') && !StartsForcedAuto(a)
    ensures NoneForcedAuto(w')
  {
    if PipeAction(a) { PipeNoneForced(cfg, w, a, w'); }
    else if SpawnAction(a) { SpawnNoneForced(w, a, w'); }
    else { assert a.Crash? || w'.pipes == w.pipes; }
  }

  lemma PipeNoneForced(cfg: Config, w: World, a: Action, w': World)
    requires Ours(w) && NoneForcedAuto(w) && PipeAction(a) && a.pid in w.pipes && PipeStep(cfg, w, a) == Some(w')
    ensures NoneForcedAuto(w')
  {
    assert PipeShape(w.pipes[a.pid]);
    PipeOthers(cfg, w, a, w');
    if a.pid in w'.pipes { PipeKeepsForce(cfg, w, a, w'); }
  }

  lemma SpawnNoneForced(w: World, a: Action, w': World)
    requires NoneForcedAuto(w) && SpawnAction(a) && SpawnStep(w, a) == Some(w') && !StartsForcedAuto(a)
    ensures NoneForcedAuto(w')
  {
  }

  lemma {:induction false} NothingLeaked(cfg: Config, w: World, acts: seq<Action>)
    requires Ours(w) && NoneForcedAuto(w)
    requires forall i :: 0 <= i < |acts| ==> !StartsForcedAuto(acts[i])
    ensures Leaked(cfg, w, acts, {}) == {}
    decreases |acts|
  {
    if acts != [] && Step(cfg, w, acts[0]).Some? {
      var w1 := Step(cfg, w, acts[0]).value;
      StepNoneForced(cfg, w, acts[0], w1);
      StepKeeps(cfg, w, acts[0], w1);
      NothingLeaked(cfg, w1, acts[1..]);
    }
  }

  /** Hence on every run without such a manual run each reservation has a live pipeline, which gives it back
      before it leaves. */
  lemma ReservationsReturn(cfg: Config, acts: seq<Action>, w: World)
    requires Run(cfg, START, acts) == Some(w)
    requires forall i :: 0 <= i < |acts| ==> !StartsForcedAuto(acts[i])
    ensures forall r :: r in w.reserved ==> exists pid :: Has(w, pid, r)
    ensures forall pid :: pid in w.pipes && w.pipes[pid].pc.Leave? ==> w.pipes[pid].account.None?
  {
    StartIsOurs();
    NothingLeaked(cfg, START, acts);
    LostExactly(cfg, acts, w);
    forall r | r in w.reserved ensures exists pid :: Has(w, pid, r) { assert !Orphan(w, r); }
    RunLost(cfg, START, acts, w, {});
    RunNoneForced(cfg, START, acts, w);
  }

  lemma {:induction false} RunNoneForced(cfg: Config, w: World, acts: seq<Action>, w': World)
    requires Ours(w) && NoneForcedAuto(w) && Run(cfg, w, acts) == Some(w')
    requires forall i :: 0 <= i < |acts| ==> !StartsForcedAuto(acts[i])
    ensures NoneForcedAuto(w')
    decreases |acts|
  {
    if acts != [] {
      var w1 := Step(cfg, w, acts[0]).value;
      StepNoneForced(cfg, w, acts[0], w1);
      StepKeeps(cfg, w, acts[0], w1);
      RunNoneForced(cfg, w1, acts[1..], w');
    }
  }
}
