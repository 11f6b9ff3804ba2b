/** Who owns what, in every interleaving: the in-flight guard, the in-memory reservation and the durable
    leases together keep one pipeline per issue, one per account and one inside the merge. */
module PipelineOwnership {
  import opened Leases
  import opened Options
  import opened LeaseStore
  import opened Pipeline

  predicate Named(k: string) { k != "" }

  // One admitted pipeline per issue.
  ghost predicate OnePerIssue(w: World) {
    && (forall pid :: pid in w.pipes ==> Named(w.pipes[pid].key))
    && (forall pid :: pid in w.pipes && w.pipes[pid].Admitted() ==> w.pipes[pid].key in w.inflight)
    && (forall p, q :: p in w.pipes && q in w.pipes && p != q && w.pipes[p].Admitted() && w.pipes[q].Admitted()
                       ==> w.pipes[p].key != w.pipes[q].key)
  }

  ghost predicate PipeShape(p: Pipe) {
    && (p.account.Some? ==> p.Admitted() && Named(p.account.value))
    && (p.merge.Some? ==> p.Admitted())
    && (p.pc.Leasing? || p.pc.Denied? || p.pc.DropAccount? || p.pc.Unreserve? ==> p.account.Some?)
    && (p.pc.SaveFinal? ==> p.pc.state.Terminal())
    && (p.pc.DropAccount? || p.pc.Unreserve? || p.pc.Leave? || p.pc.Leasing? || p.pc.Denied? || p.pc.Reserving? ==> p.merge.None?)
    && (p.pc.Reserving? ==> p.account.None?)
    && (p.pc.Unreserve? || p.pc.DropAccount? ==> !p.force)
  }

  predicate HeldByNow(w: World, s: Slot, o: Owner) {
    HeldBy(w.holds, s, o, w.now)
  }

  // Recover has not dealt with the lease yet: it has not listed the leases, or listed this one under this owner.
  predicate Waits(w: World, s: Slot, o: Owner) {
    w.phase.Down? || (w.phase.Recovering? && s in w.phase.todo && w.phase.todo[s] == o)
  }

  // At the step that gives back the reservation.
  predicate GivesBack(p: Pipe) {
    (p.pc.Unreserve? || p.pc.Denied?) && p.account.Some?
  }

  // A pipeline that has an account has it reserved; a leased account is reserved by its owner, unless the lease
  // is one from before the crash; and who is about to give back a reservation has no lease on it.
  ghost predicate AccountsKept(w: World) {
    && (forall pid :: pid in w.pipes && w.pipes[pid].account.Some? ==>
          var r := w.pipes[pid].account.value; r in w.reserved && w.reserved[r] == w.pipes[pid].key)
    && (forall r, o :: HeldByNow(w, AccountSlot(r), o) ==>
          Waits(w, AccountSlot(r), o) || (r in w.reserved && w.reserved[r] == o))
    && (forall pid :: pid in w.pipes && GivesBack(w.pipes[pid]) ==>
          !HeldByNow(w, AccountSlot(w.pipes[pid].account.value), w.pipes[pid].key))
  }

  ghost predicate Quiet(w: World) {
    !w.phase.Running? ==> w.resume == []
  }

  ghost predicate Ours(w: World) {
    && OnePerIssue(w)
    && (forall pid :: pid in w.pipes ==> PipeShape(w.pipes[pid]))
    && AccountsKept(w)
    && Quiet(w)
    && (forall i :: 0 <= i < |w.resume| ==> Named(w.resume[i].0))
    && (forall k :: k in w.store ==> Named(k))
  }

  lemma StartIsOurs()
    ensures Ours(START)
  {
  }

  // -- frames: what a step of one pipeline must leave alone ---------------------------------------

  ghost predicate Others(w: World, pid: Pid, w': World) {
    forall q :: q != pid ==> (q in w.pipes <==> q in w'.pipes) && (q in w.pipes ==> w'.pipes[q] == w.pipes[q])
  }

  ghost predicate SameTime(w: World, w': World) {
    w'.now == w.now && w'.phase == w.phase && w'.resume == w.resume && forall k :: k in w'.store ==> Named(k)
  }

  ghost predicate SameSlots(w: World, w': World, but: Slot) {
    forall s: Slot :: s != but ==> (s in w'.holds <==> s in w.holds) && (s in w.holds ==> w'.holds[s] == w.holds[s])
  }

  // The pipeline, if it is still there, is the same run of the same issue.
  ghost predicate Continues(w: World, pid: Pid, w': World) {
    pid in w'.pipes ==> pid in w.pipes && w'.pipes[pid].key == w.pipes[pid].key && PipeShape(w'.pipes[pid]) &&
                        (w'.pipes[pid].Admitted() ==> w.pipes[pid].Admitted())
  }

  ghost predicate Local(w: World, pid: Pid, w': World, but: Slot) {
    SameTime(w, w') && Others(w, pid, w') && Continues(w, pid, w') && SameSlots(w, w', but)
  }

  lemma GuardFrame(w: World, pid: Pid, w': World)
    requires OnePerIssue(w) && Others(w, pid, w') && Continues(w, pid, w') && w'.inflight == w.inflight
    ensures OnePerIssue(w')
  {
  }

  lemma AccountsFrame(w: World, pid: Pid, w': World, but: Slot)
    requires AccountsKept(w) && Local(w, pid, w', but) && !but.AccountSlot? && w'.reserved == w.reserved
    requires pid in w'.pipes ==> w'.pipes[pid].account == w.pipes[pid].account && !GivesBack(w'.pipes[pid])
    ensures AccountsKept(w')
  {
    forall r, o ensures HeldByNow(w', AccountSlot(r), o) <==> HeldByNow(w, AccountSlot(r), o) {}
  }

  lemma Assemble(w: World, pid: Pid, w': World, but: Slot)
    requires Ours(w) && Local(w, pid, w', but) && OnePerIssue(w') && AccountsKept(w')
    ensures Ours(w')
  {
  }

  // What a pipeline brings to a step.
  ghost predicate Ready(w: World, pid: Pid) {
    pid in w.pipes && Named(w.pipes[pid].key) && PipeShape(w.pipes[pid]) && forall k :: k in w.store ==> Named(k)
  }

  // -- steps that touch neither accounts nor the guard --------------------------------------------

  ghost predicate Simple(w: World, pid: Pid, w': World, but: Slot) {
    && Local(w, pid, w', but) && !but.AccountSlot?
    && w'.reserved == w.reserved && w'.inflight == w.inflight
    && (pid in w'.pipes ==> w'.pipes[pid].account == w.pipes[pid].account && !GivesBack(w'.pipes[pid]))
  }

  lemma SimpleKeeps(w: World, pid: Pid, w': World, but: Slot)
    requires Ours(w) && Simple(w, pid, w', but)
    ensures Ours(w')
  {
    GuardFrame(w, pid, w');
    AccountsFrame(w, pid, w', but);
    Assemble(w, pid, w', but);
  }

  lemma SaveIsSimple(w: World, pid: Pid, ok: bool, w': World)
    requires Ready(w, pid) && SaveStep(w, pid, w.pipes[pid], ok) == Some(w')
    ensures Simple(w, pid, w', IssueSlot(""))
  {
    var p := w.pipes[pid];
    assert w'.holds == w.holds;
    assert pid in w'.pipes ==> PipeShape(w'.pipes[pid]);
  }

  lemma WorkIsSimple(w: World, pid: Pid, r: Worker, prepared: bool, w': World)
    requires Ready(w, pid) && WorkStep(w, pid, w.pipes[pid], r, prepared) == Some(w')
    ensures Simple(w, pid, w', IssueSlot(""))
  {
  }

  lemma JudgeIsSimple(w: World, pid: Pid, v: Verdict, w': World)
    requires Ready(w, pid) && JudgeStep(w, pid, w.pipes[pid], v) == Some(w')
    ensures Simple(w, pid, w', IssueSlot(""))
  {
  }

  lemma MergeIsSimple(w: World, pid: Pid, merged: bool, w': World)
    requires Ready(w, pid) && MergeStep(w, pid, w.pipes[pid], merged) == Some(w')
    ensures Simple(w, pid, w', IssueSlot(""))
  {
  }

  lemma CleanupIsSimple(w: World, pid: Pid, wired: bool, w': World)
    requires Ready(w, pid) && CleanupStep(w, pid, w.pipes[pid], wired) == Some(w')
    ensures Simple(w, pid, w', IssueSlot(""))
  {
  }

  // The one slot a step without an outcome may touch.
  function Touched(cfg: Config, p: Pipe): Slot {
    if Asked(cfg, p).Some? then Asked(cfg, p).value
    else if Given(cfg, p).Some? then Given(cfg, p).value
    else IssueSlot("")
  }

  lemma PassShape(cfg: Config, p: Pipe, h: Holds, granted: bool)
    requires PipeShape(p) && CanPass(p) && !p.pc.Leave?
    ensures var p' := PassPipe(cfg, p, h, granted);
            PipeShape(p') && p'.key == p.key && (p'.Admitted() ==> p.Admitted() || p.pc.Enter?) &&
            (p'.account == p.account || (p'.account.None? && GivesBack(p))) &&
            (p'.pc.Unreserve? ==> p.pc.DropAccount?) && (p'.pc.Denied? ==> p.pc.Leasing? && !granted)
  {
  }

  lemma PassIsLocal(cfg: Config, w: World, pid: Pid, w': World)
    requires Ready(w, pid) && PassStep(cfg, w, pid, w.pipes[pid]) == Some(w') && !w.pipes[pid].pc.Enter?
    ensures Local(w, pid, w', Touched(cfg, w.pipes[pid]))
  {
    var p := w.pipes[pid];
    var (h, granted) := PassHolds(cfg, w, p);
    if !p.pc.Leave? { PassShape(cfg, p, h, granted); }
  }

  // -- the guard -----------------------------------------------------------------------------------

  lemma EnterKeeps(cfg: Config, w: World, pid: Pid, w': World)
    requires Ours(w) && Ready(w, pid) && w.pipes[pid].pc.Enter?
    requires PassStep(cfg, w, pid, w.pipes[pid]) == Some(w')
    ensures Ours(w')
  {
    var mid := Quit(w, pid);
    QuitIsSimple(w, pid);
    SimpleKeeps(w, pid, mid, IssueSlot(""));
    EnterEffect(cfg, w, pid, w');
    if w' != mid { AdmitKeeps(mid, pid, Go(w.pipes[pid], Reserving)); }
  }

  lemma EnterEffect(cfg: Config, w: World, pid: Pid, w': World)
    requires pid in w.pipes && w.pipes[pid].pc.Enter? && PassStep(cfg, w, pid, w.pipes[pid]) == Some(w')
    ensures var p := w.pipes[pid];
            w' == if p.key in w.inflight then Quit(w, pid)
                  else w.(inflight := w.inflight + {p.key}, pipes := Quit(w, pid).pipes[pid := Go(p, Reserving)])
  {
    var p := w.pipes[pid];
    if p.key in w.inflight { assert w.inflight + {p.key} == w.inflight; }
    else { assert w.pipes[pid := Go(p, Reserving)] == Quit(w, pid).pipes[pid := Go(p, Reserving)]; }
  }

  lemma QuitIsSimple(w: World, pid: Pid)
    requires Ready(w, pid)
    ensures Simple(w, pid, Quit(w, pid), IssueSlot(""))
  {
  }

  lemma AdmitKeeps(w: World, pid: Pid, p: Pipe)
    requires Ours(w) && pid !in w.pipes
    requires p.pc.Reserving? && PipeShape(p) && Named(p.key) && p.key !in w.inflight
    ensures Ours(w.(inflight := w.inflight + {p.key}, pipes := w.pipes[pid := p]))
  {
    var w' := w.(inflight := w.inflight + {p.key}, pipes := w.pipes[pid := p]);
    assert OnePerIssue(w');
    forall r, o ensures HeldByNow(w', AccountSlot(r), o) <==> HeldByNow(w, AccountSlot(r), o) {}
    assert AccountsKept(w');
  }

  lemma LeaveKeeps(cfg: Config, w: World, pid: Pid, w': World)
    requires Ours(w) && Ready(w, pid) && w.pipes[pid].pc.Leave?
    requires PassStep(cfg, w, pid, w.pipes[pid]) == Some(w')
    ensures Ours(w')
  {
    var but := IssueSlot("");
    PassIsLocal(cfg, w, pid, w');
    assert w' == w.(inflight := w.inflight - {w.pipes[pid].key}, pipes := w.pipes - {pid});
    LeaveGuard(w, pid, w');
    AccountsFrame(w, pid, w', but);
    Assemble(w, pid, w', but);
  }

  lemma LeaveGuard(w: World, pid: Pid, w': World)
    requires OnePerIssue(w) && pid in w.pipes && w.pipes[pid].Admitted()
    requires w' == w.(inflight := w.inflight - {w.pipes[pid].key}, pipes := w.pipes - {pid})
    ensures OnePerIssue(w')
  {
  }

  // -- accounts ------------------------------------------------------------------------------------

  // Two pipelines never have the same account.
  lemma AccountOwnedOnce(w: World, p: Pid, q: Pid)
    requires Ours(w) && p in w.pipes && q in w.pipes && p != q
    requires w.pipes[p].account.Some? && w.pipes[q].account.Some?
    ensures w.pipes[p].account != w.pipes[q].account
  {
    assert PipeShape(w.pipes[p]) && PipeShape(w.pipes[q]);
  }

  /** The lease on a reserved account is refused exactly when another owner holds it and Recover has not dealt
      with that lease yet; once Recover is done it never is. */
  lemma LeaseRefusedExactly(cfg: Config, w: World, pid: Pid)
    requires Ours(w) && pid in w.pipes && w.pipes[pid].pc.Leasing?
    ensures w.pipes[pid].account.Some?
    ensures var (p, s) := (w.pipes[pid], AccountSlot(w.pipes[pid].account.value));
            !Take(w.holds, cfg.ttls, s, p.key, w.now).1 <==> exists o :: o != p.key && HeldByNow(w, s, o) && Waits(w, s, o)
  {
    var p := w.pipes[pid];
    assert PipeShape(p);
    var s := AccountSlot(p.account.value);
    if HeldByOther(w.holds, s, p.key, w.now) {
      assert HeldByNow(w, s, w.holds[s].owner);
    }
  }

  lemma NoReserveIsSimple(w: World, pid: Pid, choice: Option<Account>, w': World)
    requires Ready(w, pid) && !TakesAccount(w.pipes[pid], choice) && ReserveStep(w, pid, w.pipes[pid], choice) == Some(w')
    ensures Simple(w, pid, w', IssueSlot(""))
  {
  }

  lemma ReserveIsLocal(w: World, pid: Pid, choice: Option<Account>, w': World)
    requires Ready(w, pid) && TakesAccount(w.pipes[pid], choice) && ReserveStep(w, pid, w.pipes[pid], choice) == Some(w')
    ensures Local(w, pid, w', IssueSlot("")) && w'.inflight == w.inflight && w'.holds == w.holds
    ensures pid in w'.pipes && !GivesBack(w'.pipes[pid])
    ensures choice.value !in w.reserved && w'.pipes[pid].account == choice &&
            w'.reserved == w.reserved[choice.value := w.pipes[pid].key]
  {
  }

  lemma ReserveKeeps(w: World, pid: Pid, choice: Option<Account>, w': World)
    requires Ours(w) && Ready(w, pid)
    requires ReserveStep(w, pid, w.pipes[pid], choice) == Some(w')
    ensures Ours(w')
  {
    if !TakesAccount(w.pipes[pid], choice) {
      NoReserveIsSimple(w, pid, choice, w');
      SimpleKeeps(w, pid, w', IssueSlot(""));
    } else {
      ReserveIsLocal(w, pid, choice, w');
      GuardFrame(w, pid, w');
      ReserveAccounts(w, pid, w', choice.value);
      Assemble(w, pid, w', IssueSlot(""));
    }
  }

  lemma ReserveAccounts(w: World, pid: Pid, w': World, r: Account)
    requires AccountsKept(w) && Others(w, pid, w') && SameTime(w, w') && w'.holds == w.holds && pid in w.pipes && pid in w'.pipes
    requires r !in w.reserved && w'.reserved == w.reserved[r := w.pipes[pid].key]
    requires w'.pipes[pid].account == Some(r) && w'.pipes[pid].key == w.pipes[pid].key && !GivesBack(w'.pipes[pid])
    ensures AccountsKept(w')
  {
    forall r, o ensures HeldByNow(w', AccountSlot(r), o) <==> HeldByNow(w, AccountSlot(r), o) {}
  }

  // The lease on the pipeline's own account came, went or stayed; the reservations are the same.
  lemma LeaseAccounts(w: World, pid: Pid, w': World, r: Account)
    requires Ours(w) && Local(w, pid, w', AccountSlot(r)) && w'.reserved == w.reserved
    requires pid in w.pipes && pid in w'.pipes && w.pipes[pid].account == Some(r) == w'.pipes[pid].account
    requires forall o :: HeldByNow(w', AccountSlot(r), o) ==> HeldByNow(w, AccountSlot(r), o) || o == w.pipes[pid].key
    requires GivesBack(w'.pipes[pid]) ==> !HeldByNow(w', AccountSlot(r), w.pipes[pid].key)
    ensures AccountsKept(w')
  {
    forall r', o | r' != r ensures HeldByNow(w', AccountSlot(r'), o) <==> HeldByNow(w, AccountSlot(r'), o) {}
    OnlyHas(w, pid, r);
  }

  lemma LeasingKeeps(cfg: Config, w: World, pid: Pid, w': World)
    requires Ours(w) && Ready(w, pid) && w.pipes[pid].pc.Leasing?
    requires PassStep(cfg, w, pid, w.pipes[pid]) == Some(w')
    ensures Ours(w')
  {
    var r := w.pipes[pid].account.value;
    PassIsLocal(cfg, w, pid, w');
    GuardFrame(w, pid, w');
    LeaseAccounts(w, pid, w', r);
    Assemble(w, pid, w', AccountSlot(r));
  }

  // Nobody else has the account.
  lemma OnlyHas(w: World, pid: Pid, r: Account)
    requires Ours(w) && pid in w.pipes && w.pipes[pid].account == Some(r)
    ensures forall q :: q in w.pipes && q != pid && w.pipes[q].account.Some? ==> w.pipes[q].account.value != r
  {
    forall q | q in w.pipes && q != pid && w.pipes[q].account.Some? ensures w.pipes[q].account.value != r {
      AccountOwnedOnce(w, pid, q);
    }
  }

  lemma DropAccountKeeps(cfg: Config, w: World, pid: Pid, w': World)
    requires Ours(w) && Ready(w, pid) && w.pipes[pid].pc.DropAccount?
    requires PassStep(cfg, w, pid, w.pipes[pid]) == Some(w')
    ensures Ours(w')
  {
    var r := w.pipes[pid].account.value;
    PassIsLocal(cfg, w, pid, w');
    GuardFrame(w, pid, w');
    LeaseAccounts(w, pid, w', r);
    Assemble(w, pid, w', AccountSlot(r));
  }

  lemma GiveBackAccounts(w: World, pid: Pid, w': World, r: Account)
    requires Ours(w) && Others(w, pid, w') && SameTime(w, w') && w'.holds == w.holds
    requires pid in w.pipes && GivesBack(w.pipes[pid]) && w.pipes[pid].account == Some(r)
    requires w'.reserved == w.reserved - {r} && pid in w'.pipes && w'.pipes[pid].account.None?
    ensures AccountsKept(w')
  {
    forall r', o ensures HeldByNow(w', AccountSlot(r'), o) <==> HeldByNow(w, AccountSlot(r'), o) {}
    OnlyHas(w, pid, r);
  }

  lemma GiveBackKeeps(cfg: Config, w: World, pid: Pid, w': World)
    requires Ours(w) && Ready(w, pid) && GivesBack(w.pipes[pid])
    requires PassStep(cfg, w, pid, w.pipes[pid]) == Some(w')
    ensures Ours(w')
  {
    PassIsLocal(cfg, w, pid, w');
    GuardFrame(w, pid, w');
    GiveBackAccounts(w, pid, w', w.pipes[pid].account.value);
    Assemble(w, pid, w', IssueSlot(""));
  }

  lemma PassKeeps(cfg: Config, w: World, pid: Pid, w': World)
    requires Ours(w) && Ready(w, pid) && PassStep(cfg, w, pid, w.pipes[pid]) == Some(w')
    ensures Ours(w')
  {
    var pc := w.pipes[pid].pc;
    if pc.Enter? { EnterKeeps(cfg, w, pid, w'); }
    else if pc.Leave? { LeaveKeeps(cfg, w, pid, w'); }
    else if pc.Leasing? { LeasingKeeps(cfg, w, pid, w'); }
    else if pc.DropAccount? { DropAccountKeeps(cfg, w, pid, w'); }
    else if pc.Unreserve? || pc.Denied? { GiveBackKeeps(cfg, w, pid, w'); }
    else {
      PassIsLocal(cfg, w, pid, w');
      SimpleKeeps(w, pid, w', Touched(cfg, w.pipes[pid]));
    }
  }

  lemma PipeKeeps(cfg: Config, w: World, a: Action, w': World)
    requires Ours(w) && PipeAction(a) && a.pid in w.pipes && PipeStep(cfg, w, a) == Some(w')
    ensures Ours(w')
  {
    var pid := a.pid;
    assert Ready(w, pid);
    if a.Pass? { PassKeeps(cfg, w, pid, w'); }
    else if a.Reserve? { ReserveKeeps(w, pid, a.choice, w'); }
    else {
      if a.Save? { SaveIsSimple(w, pid, a.ok, w'); }
      else if a.Work? { WorkIsSimple(w, pid, a.result, a.prepared, w'); }
      else if a.Judge? { JudgeIsSimple(w, pid, a.verdict, w'); }
      else if a.Merge? { MergeIsSimple(w, pid, a.merged, w'); }
      else { CleanupIsSimple(w, pid, a.wired, w'); }
      SimpleKeeps(w, pid, w', IssueSlot(""));
    }
  }

  // -- the clock, crashes and recovery --------------------------------------------------------------

  lemma ClockKeeps(w: World, d: nat)
    requires Ours(w)
    ensures Ours(w.(now := w.now + d))
  {
    var w' := w.(now := w.now + d);
    forall s, o ensures HeldByNow(w', s, o) ==> HeldByNow(w, s, o) {}
  }

  lemma ReapKeeps(w: World)
    requires Ours(w)
    ensures Ours(w.(holds := LeaseStore.Sweep(w.holds, w.now)))
  {
    var w' := w.(holds := LeaseStore.Sweep(w.holds, w.now));
    forall s, o ensures HeldByNow(w', s, o) <==> HeldByNow(w, s, o) {}
  }

  // Recover deals with a lease: it is off the list, or it was not there any more.
  lemma SweepKeeps(w: World, slot: Slot, w': World)
    requires Ours(w) && RecoverStep(w, Action.Sweep(slot)) == Some(w')
    ensures Ours(w')
  {
    forall s, o ensures HeldByNow(w', s, o) ==> HeldByNow(w, s, o) {}
    forall r, o | HeldByNow(w', AccountSlot(r), o) ensures Waits(w', AccountSlot(r), o) || (r in w'.reserved && w'.reserved[r] == o) {
      assert HeldByNow(w, AccountSlot(r), o);
    }
  }

  lemma RecoverKeeps(w: World, a: Action, w': World)
    requires Ours(w) && (a.Boot? || a.Recovered?) && RecoverStep(w, a) == Some(w')
    ensures Ours(w')
  {
    forall s, o ensures HeldByNow(w', s, o) <==> HeldByNow(w, s, o) {}
    if a.Recovered? {
      forall i | 0 <= i < |a.order| ensures a.order[i] in w.store { assert a.order[i] in a.order; }
    }
  }

  lemma JoinKeeps(w: World, pid: Pid, p: Pipe)
    requires Ours(w) && pid !in w.pipes
    requires Named(p.key) && !p.Admitted() && p.account.None? && p.merge.None?
    ensures Ours(Put(w, pid, p))
  {
    var w' := Put(w, pid, p);
    assert PipeShape(p);
    assert OnePerIssue(w');
    forall r, o ensures HeldByNow(w', AccountSlot(r), o) <==> HeldByNow(w, AccountSlot(r), o) {}
    assert AccountsKept(w');
  }

  lemma SpawnKeeps(w: World, a: Action, w': World)
    requires Ours(w) && SpawnAction(a) && SpawnStep(w, a) == Some(w')
    ensures Ours(w')
  {
    var w1 := w.(resume := if a.Resume? then w.resume[1..] else w.resume);
    if a.Resume? { ResumeKeeps(w); }
    if Spawned(w, a).Some? {
      assert a.ResetLoad? ==> Named(a.key);
      JoinKeeps(w1, a.pid, Spawned(w, a).value);
    }
  }

  lemma ResumeKeeps(w: World)
    requires Ours(w) && w.phase.Running? && w.resume != []
    ensures Ours(w.(resume := w.resume[1..])) && Named(w.resume[0].0)
  {
    var w' := w.(resume := w.resume[1..]);
    forall r, o ensures HeldByNow(w', AccountSlot(r), o) <==> HeldByNow(w, AccountSlot(r), o) {}
    assert AccountsKept(w');
  }

  lemma CrashKeeps(cfg: Config, w: World, w': World)
    requires Ours(w) && Step(cfg, w, Crash) == Some(w')
    ensures Ours(w')
  {
  }

  lemma PipeStepKeeps(cfg: Config, w: World, a: Action, w': World)
    requires Ours(w) && PipeAction(a) && a.pid in w.pipes && PipeStep(cfg, w, a) == Some(w')
    ensures Ours(w')
  {
    PipeKeeps(cfg, w, a, w');
  }

  lemma OutsideKeeps(cfg: Config, w: World, a: Action, w': World)
    requires Ours(w) && !PipeAction(a) && !SpawnAction(a) && Step(cfg, w, a) == Some(w')
    ensures Ours(w')
  {
    if a.Tick? { ClockKeeps(w, a.d); }
    else if a.ReapNow? { ReapKeeps(w); }
    else if a.Crash? { CrashKeeps(cfg, w, w'); }
    else if a.Sweep? { SweepKeeps(w, a.slot, w'); }
    else { RecoverKeeps(w, a, w'); }
  }

  /** Every step of every interleaving, commands during recovery included, keeps the invariant. */
  lemma StepKeeps(cfg: Config, w: World, a: Action, w': World)
    requires Ours(w) && Step(cfg, w, a) == Some(w')
    ensures Ours(w')
  {
    if PipeAction(a) { PipeStepKeeps(cfg, w, a, w'); }
    else if SpawnAction(a) { SpawnKeeps(w, a, w'); }
    else { OutsideKeeps(cfg, w, a, w'); }
  }

  lemma {:induction false} RunKeeps(cfg: Config, w: World, acts: seq<Action>, w': World)
    requires Ours(w) && Run(cfg, w, acts) == Some(w')
    ensures Ours(w')
    decreases |acts|
  {
    if acts != [] {
      var w1 := Step(cfg, w, acts[0]).value;
      StepKeeps(cfg, w, acts[0], w1);
      RunKeeps(cfg, w1, acts[1..], w');
    }
  }

  lemma {:induction false} RunSplit(cfg: Config, w: World, a: seq<Action>, b: seq<Action>, w': World)
    requires Run(cfg, w, a + b) == Some(w')
    ensures Run(cfg, w, a).Some? && Run(cfg, Run(cfg, w, a).value, b) == Some(w')
    decreases |a|
  {
    if a == [] {
      assert a + b == b;
    } else {
      assert (a + b)[1..] == a[1..] + b;
      RunSplit(cfg, Step(cfg, w, a[0]).value, a[1..], b, w');
    }
  }

  /** Whatever interleaves and whenever it crashes: no two pipelines ever have one account, whether or not its
      lease has lapsed; and once Recover is done an account with a valid lease is reserved by the lease's owner,
      and a pipeline that asks for the lease on the account it reserved is not refused. */
  lemma AccountExclusion(cfg: Config, acts: seq<Action>, w: World)
    requires Run(cfg, START, acts) == Some(w)
    ensures forall p, q :: p in w.pipes && q in w.pipes && p != q && w.pipes[p].account.Some? && w.pipes[q].account.Some?
              ==> w.pipes[p].account != w.pipes[q].account
    ensures w.phase.Running? ==>
              forall r, o :: HeldByNow(w, AccountSlot(r), o) ==> r in w.reserved && w.reserved[r] == o
    ensures w.phase.Running? ==>
              forall p :: p in w.pipes && w.pipes[p].pc.Leasing? && w.pipes[p].account.Some? ==>
                Take(w.holds, cfg.ttls, AccountSlot(w.pipes[p].account.value), w.pipes[p].key, w.now).1
  {
    StartIsOurs();
    RunKeeps(cfg, START, acts, w);
    forall p, q | p in w.pipes && q in w.pipes && p != q && w.pipes[p].account.Some? && w.pipes[q].account.Some?
      ensures w.pipes[p].account != w.pipes[q].account
    {
      AccountOwnedOnce(w, p, q);
    }
    forall p | w.phase.Running? && p in w.pipes && w.pipes[p].pc.Leasing? && w.pipes[p].account.Some?
      ensures Take(w.holds, cfg.ttls, AccountSlot(w.pipes[p].account.value), w.pipes[p].key, w.now).1
    {
      LeaseRefusedExactly(cfg, w, p);
    }
  }
}
