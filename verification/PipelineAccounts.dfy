/** The pipeline's reservations are the Resource Manager's: what its scheduler hands out is what the transition
    system allows, and both go on saying the same about who has which account. */
module PipelineAccounts {
  import opened Leases
  import opened Options
  import opened Pipeline
  import opened PipelineOwnership
  import Scheduler

  const ACCOUNT_KIND := "claude_account"

  // The inventory marks exactly the reserved accounts, with the issue that has each.
  ghost predicate InStep(inv: Scheduler.Inventory, reserved: map<Account, Key>) {
    && Scheduler.Keyed(inv)
    && (forall r :: r in reserved ==> r in inv && reserved[r] != "")
    && (forall r :: r in inv ==> inv[r].reservedBy == if r in reserved then reserved[r] else "")
  }

  // What a pipeline asks of the scheduler: any account, or the one that was picked.
  function Request(p: Pipe): Scheduler.Op {
    Scheduler.Reserve(p.key, Scheduler.Filter(ACCOUNT_KIND, p.preferred, map[]))
  }

  function Offered(a: Scheduler.Answer): Option<Account> {
    if a.Picked? then Some(a.r.id) else None
  }

  /** Whatever the scheduler answers, the pipeline can go on with it, and it fails only if no matching account is
      available; afterwards the two are still in step. */
  lemma SchedulerReserves(w: World, pid: Pid, inv: Scheduler.Inventory, now: int)
    requires InStep(inv, w.reserved) && "" !in inv && pid in w.pipes && w.pipes[pid].pc == Reserving
    requires Named(w.pipes[pid].key) && !(w.pipes[pid].force && w.pipes[pid].preferred != "")
    ensures var p := w.pipes[pid];
            var (inv', a) := Scheduler.Perform(inv, Request(p), now);
            && CanReserve(w, p, Offered(a)) && InStep(inv', ReserveStep(w, pid, p, Offered(a)).value.reserved)
            && (Offered(a).None? <==> forall r :: !Scheduler.Candidate(inv, Request(p).f, now, r))
  {
    var p, f := w.pipes[pid], Request(w.pipes[pid]).f;
    Picks(inv, w.reserved, p, now);
    if r :| Scheduler.Candidate(inv, f, now, r) { Scheduler.CandidateHasBest(inv, f, now, r); }
  }

  // What is picked was available, and is marked for the pipeline's issue.
  lemma Picks(inv: Scheduler.Inventory, reserved: map<Account, Key>, p: Pipe, now: int)
    requires InStep(inv, reserved) && Named(p.key)
    ensures var (inv', a) := Scheduler.Perform(inv, Request(p), now);
            && (Offered(a).Some? <==> Scheduler.Choice(inv, Request(p).f, now).Some?)
            && match Offered(a)
               case None => inv' == inv && forall r :: !Scheduler.Best(inv, Request(p).f, now, r)
               case Some(r) => r in inv && r !in reserved && Scheduler.Candidate(inv, Request(p).f, now, r) &&
                               (p.preferred != "" ==> r == p.preferred) && InStep(inv', reserved[r := p.key])
  {
    Scheduler.ChoiceIsBest(inv, Request(p).f, now);
  }

  lemma ReleasedInStep(inv: Scheduler.Inventory, reserved: map<Account, Key>, r: Account, now: int)
    requires InStep(inv, reserved)
    ensures InStep(Scheduler.Perform(inv, Scheduler.Release(r), now).0, reserved - {r})
  {
  }

  lemma UsedInStep(inv: Scheduler.Inventory, reserved: map<Account, Key>, r: Account, now: int)
    requires InStep(inv, reserved)
    ensures InStep(Scheduler.Perform(inv, Scheduler.RecordUse(r), now).0, reserved)
  {
  }

  /** Giving an account back keeps them in step too, with a recorded use (at the end of a run) or without (when
      the lease was refused). */
  lemma SchedulerReleases(cfg: Config, w: World, pid: Pid, inv: Scheduler.Inventory, now: int, w': World)
    requires InStep(inv, w.reserved) && pid in w.pipes && GivesBack(w.pipes[pid])
    requires PassStep(cfg, w, pid, w.pipes[pid]) == Some(w')
    ensures var r := w.pipes[pid].account.value;
            var used := Scheduler.Perform(inv, Scheduler.RecordUse(r), now).0;
            && InStep(Scheduler.Perform(used, Scheduler.Release(r), now).0, w'.reserved)
            && InStep(Scheduler.Perform(inv, Scheduler.Release(r), now).0, w'.reserved)
  {
    var r := w.pipes[pid].account.value;
    assert w'.reserved == w.reserved - {r};
    UsedInStep(inv, w.reserved, r, now);
    ReleasedInStep(inv, w.reserved, r, now);
    ReleasedInStep(Scheduler.Perform(inv, Scheduler.RecordUse(r), now).0, w.reserved, r, now);
  }
}
