/** Runs from the start that show the failures the other files give conditions for: an issue claimed twice, an
    outcome overwritten, an account that is never given back, two pipelines inside the merge, a recovery that takes
    a lease from a running pipeline, an issue lease that is left behind. */
module PipelineTraces {
  import opened Leases
  import opened Options
  import opened LeaseStore
  import opened Pipeline
  import opened PipelineOwnership
  import opened PipelineMerges
  import opened PipelineHistory
  import opened PipelineLifecycle
  import opened PipelineReservations
  import opened PipelineRecovery

  // -- putting runs together -----------------------------------------------------------------------

  lemma {:induction false} Join(cfg: Config, w: World, a: seq<Action>, w1: World, b: seq<Action>)
    requires Run(cfg, w, a) == Some(w1)
    ensures Run(cfg, w, a + b) == Run(cfg, w1, b)
    decreases |a|
  {
    if a == [] {
      assert a + b == b;
    } else {
      assert (a + b)[1..] == a[1..] + b;
      Join(cfg, Step(cfg, w, a[0]).value, a[1..], w1, b);
    }
  }

  // Some run leads from one world to the other.
  ghost predicate Leads(cfg: Config, w: World, w': World) {
    exists acts: seq<Action> :: Run(cfg, w, acts) == Some(w')
  }

  lemma Then(cfg: Config, w: World, w1: World, w2: World)
    requires Leads(cfg, w, w1) && Leads(cfg, w1, w2)
    ensures Leads(cfg, w, w2)
  {
    var a :| Run(cfg, w, a) == Some(w1);
    var b :| Run(cfg, w1, b) == Some(w2);
    Join(cfg, w, a, w1, b);
  }

  lemma Three(cfg: Config, w: World, a: Action, w1: World, b: Action, w2: World, c: Action, w3: World)
    requires Step(cfg, w, a) == Some(w1) && Step(cfg, w1, b) == Some(w2) && Step(cfg, w2, c) == Some(w3)
    ensures Run(cfg, w, [a, b, c]) == Some(w3) && Leads(cfg, w, w3)
  {
    assert [a, b, c][1..] == [b, c] && [b, c][1..] == [c] && [c][1..] == [];
    assert Run(cfg, w3, []) == Some(w3) && Run(cfg, w2, [c]) == Some(w3) && Run(cfg, w1, [b, c]) == Some(w3);
  }

  lemma Two(cfg: Config, w: World, a: Action, w1: World, b: Action, w2: World)
    requires Step(cfg, w, a) == Some(w1) && Step(cfg, w1, b) == Some(w2)
    ensures Run(cfg, w, [a, b]) == Some(w2) && Leads(cfg, w, w2)
  {
    assert [a, b][1..] == [b] && [b][1..] == [];
    assert Run(cfg, w2, []) == Some(w2) && Run(cfg, w1, [b]) == Some(w2);
  }

  lemma One(cfg: Config, w: World, a: Action, w1: World)
    requires Step(cfg, w, a) == Some(w1)
    ensures Leads(cfg, w, w1)
  {
    assert [a][1..] == [] && Run(cfg, w1, []) == Some(w1);
    assert Run(cfg, w, [a]) == Some(w1);
  }

  // -- single steps --------------------------------------------------------------------------------

  lemma PutTwice(w: World, pid: Pid, p: Pipe, q: Pipe)
    ensures Put(Put(w, pid, p), pid, q) == Put(w, pid, q)
  {
    assert w.pipes[pid := p][pid := q] == w.pipes[pid := q];
  }

  // A write, other than a claim or a reset, that works.
  function Saved(w: World, pid: Pid): World
    requires pid in w.pipes && Write(w.pipes[pid]).Some?
  {
    var p := w.pipes[pid];
    var (state, next) := Write(p).value;
    Put(w, pid, Go(p, next)).(store := w.store[p.key := state],
                              evidence := if p.pc.SaveFinal? then w.evidence[p.key := p.hist] else w.evidence)
  }

  lemma SaveOne(cfg: Config, w: World, pid: Pid)
    requires pid in w.pipes && Write(w.pipes[pid]).Some? && !w.pipes[pid].pc.ClaimSave? && !w.pipes[pid].pc.ResetSave?
    ensures Step(cfg, w, Save(pid, true)) == Some(Saved(w, pid))
  {
  }

  lemma ClaimOne(cfg: Config, w: World, pid: Pid)
    requires pid in w.pipes && w.pipes[pid].pc.ClaimSave?
    ensures var (p, n) := (w.pipes[pid], Count(w.claims, w.pipes[pid].key));
            Step(cfg, w, Save(pid, true)) ==
              Some(Put(w, pid, Go(p, ClaimLease)).(store := w.store[p.key := Claimed], claims := w.claims[p.key := n + 1]))
  {
  }

  lemma WorkOne(cfg: Config, w: World, pid: Pid, r: Worker)
    requires pid in w.pipes && w.pipes[pid].pc.Develop?
    ensures Step(cfg, w, Work(pid, r, false)) == Some(Put(w, pid, WorkPipe(w.pipes[pid], r)))
  {
  }

  lemma ClaimLeaseOne(cfg: Config, w: World, pid: Pid) returns (h: Holds)
    requires pid in w.pipes && w.pipes[pid].pc.ClaimLease?
    ensures Step(cfg, w, Pass(pid)) == Some(Put(w, pid, Go(w.pipes[pid], Enter)).(holds := h))
    ensures SameSlots(w, w.(holds := h), IssueSlot(w.pipes[pid].key))
    ensures Free(w, IssueSlot(w.pipes[pid].key), w.pipes[pid].key) ==> HeldBy(h, IssueSlot(w.pipes[pid].key), w.pipes[pid].key, w.now)
  {
    h := PassHolds(cfg, w, w.pipes[pid]).0;
  }

  lemma EnterOne(cfg: Config, w: World, pid: Pid)
    requires pid in w.pipes && w.pipes[pid].pc.Enter? && w.pipes[pid].key !in w.inflight
    ensures var p := w.pipes[pid];
            Step(cfg, w, Pass(pid)) == Some(Put(w, pid, Go(p, Reserving)).(inflight := w.inflight + {p.key}))
  {
  }

  lemma ReserveOne(cfg: Config, w: World, pid: Pid, r: Account)
    requires pid in w.pipes && w.pipes[pid].pc.Reserving? && w.pipes[pid].preferred == "" && r != "" && r !in w.reserved
    ensures var p := w.pipes[pid];
            Step(cfg, w, Reserve(pid, Some(r))) ==
              Some(Put(w, pid, Go(p, Leasing).(account := Some(r))).(reserved := w.reserved[r := p.key]))
  {
  }

  // The lease the step asks for is free, or already this owner's.
  predicate Free(w: World, s: Slot, o: Owner) {
    s.Name() != "" && o != "" && !HeldByOther(w.holds, s, o, w.now)
  }

  lemma LeaseOne(cfg: Config, w: World, pid: Pid, r: Account) returns (h: Holds)
    requires pid in w.pipes && w.pipes[pid].pc.Leasing? && w.pipes[pid].account == Some(r) && Free(w, AccountSlot(r), w.pipes[pid].key)
    ensures Step(cfg, w, Pass(pid)) == Some(Put(w, pid, Go(w.pipes[pid], SaveDeveloping)).(holds := h))
    ensures SameSlots(w, w.(holds := h), AccountSlot(r)) && HeldBy(h, AccountSlot(r), w.pipes[pid].key, w.now)
  {
    h := PassHolds(cfg, w, w.pipes[pid]).0;
  }

  lemma AskOne(cfg: Config, w: World, pid: Pid) returns (h: Holds)
    requires pid in w.pipes && w.pipes[pid].pc.AskMerge? && Free(w, MergeSlot(cfg.branch), w.pipes[pid].key)
    ensures MergeSlot(cfg.branch) in h && HeldBy(h, MergeSlot(cfg.branch), w.pipes[pid].key, w.now)
    ensures SameSlots(w, w.(holds := h), MergeSlot(cfg.branch))
    ensures Step(cfg, w, Pass(pid)) == Some(Put(w, pid, AtMerge(w.pipes[pid], h[MergeSlot(cfg.branch)].until)).(holds := h))
  {
    h := PassHolds(cfg, w, w.pipes[pid]).0;
  }

  function AtMerge(p: Pipe, until: int): Pipe {
    p.(pc := CallMerge, merge := Some(until), hist := After(p.hist, MergeLeased))
  }

  // The steps after the outcome: each releases something or moves on.
  lemma CloseOne(cfg: Config, w: World, pid: Pid) returns (h: Holds)
    requires pid in w.pipes && (w.pipes[pid].pc.DropIssue? || w.pipes[pid].pc.DropMerge?)
    ensures Step(cfg, w, Pass(pid)) == Some(Put(w, pid, PassPipe(cfg, w.pipes[pid], h, true)).(holds := h))
  {
    h := PassHolds(cfg, w, w.pipes[pid]).0;
  }

  lemma DropAccountOne(cfg: Config, w: World, pid: Pid) returns (h: Holds)
    requires pid in w.pipes && w.pipes[pid].pc.DropAccount? && w.pipes[pid].account.Some?
    ensures Step(cfg, w, Pass(pid)) == Some(Put(w, pid, Go(w.pipes[pid], Unreserve)).(holds := h))
  {
    h := PassHolds(cfg, w, w.pipes[pid]).0;
  }

  lemma UnreserveOne(cfg: Config, w: World, pid: Pid)
    requires pid in w.pipes && w.pipes[pid].pc.Unreserve? && w.pipes[pid].account.Some?
    ensures var p := w.pipes[pid];
            Step(cfg, w, Pass(pid)) ==
              Some(Put(w, pid, Go(p, Leave).(account := None)).(reserved := w.reserved - {p.account.value}))
  {
  }

  lemma LeaveOne(cfg: Config, w: World, pid: Pid)
    requires pid in w.pipes && w.pipes[pid].pc.Leave?
    ensures Step(cfg, w, Pass(pid)) == Some(Quit(w, pid).(inflight := w.inflight - {w.pipes[pid].key}))
  {
  }

  // -- the stages of one pipeline ------------------------------------------------------------------

  // An empty store, and the serve loop is up.
  const UP: World := START.(phase := Running)

  lemma Booted(cfg: Config)
    ensures Run(cfg, START, [Boot, Recovered([])]) == Some(UP) && Leads(cfg, START, UP)
  {
    var w1 := START.(phase := Recovering(map[]));
    assert LeaseStore.Sweep(map[], 0) == map[] && ActiveHolds(map[], 0) == map[];
    assert Step(cfg, START, Boot) == Some(w1);
    assert Lists([], w1.store);
    assert Step(cfg, w1, Recovered([])).Some? && Step(cfg, w1, Recovered([])).value.resume == [];
    Two(cfg, START, Boot, w1, Recovered([]), UP);
  }

  lemma LoadOne(cfg: Config, w: World, a: Action, w1: World)
    requires (a.ServeLoad? || a.TickLoad? || a.ManualLoad?) && a.key !in w.store && Step(cfg, w, a) == Some(w1)
    ensures Spawned(w, a).Some? && w1 == Put(w, a.pid, Spawned(w, a).value)
    ensures Spawned(w, a).value.pc.ClaimSave? && Spawned(w, a).value.key == a.key
  {
  }

  // The claim of an issue nobody knows, and its save.
  lemma Stakes(cfg: Config, w: World, a: Action, w1: World) returns (claims: map<Key, nat>)
    requires (a.ServeLoad? || a.TickLoad? || a.ManualLoad?) && a.key !in w.store && Step(cfg, w, a) == Some(w1)
    ensures Spawned(w, a).Some?
    ensures Leads(cfg, w, Put(w, a.pid, Go(Spawned(w, a).value, ClaimLease)).(store := w.store[a.key := Claimed], claims := claims))
  {
    LoadOne(cfg, w, a, w1);
    var p := Spawned(w, a).value;
    ClaimOne(cfg, w1, a.pid);
    claims := w.claims[a.key := Count(w.claims, a.key) + 1];
    PutTwice(w, a.pid, p, Go(p, ClaimLease));
    Two(cfg, w, a, w1, Save(a.pid, true),
        Put(w, a.pid, Go(p, ClaimLease)).(store := w.store[a.key := Claimed], claims := claims));
  }

  // The same up to the in-flight guard.
  lemma Claims(cfg: Config, w: World, a: Action, w1: World) returns (h: Holds, claims: map<Key, nat>)
    requires (a.ServeLoad? || a.TickLoad? || a.ManualLoad?) && a.key !in w.store && Step(cfg, w, a) == Some(w1)
    ensures Spawned(w, a).Some?
    ensures Leads(cfg, w, Put(w, a.pid, Go(Spawned(w, a).value, Enter)).(store := w.store[a.key := Claimed], claims := claims, holds := h))
    ensures SameSlots(w, w.(holds := h), IssueSlot(a.key))
  {
    claims := Stakes(cfg, w, a, w1);
    LoadOne(cfg, w, a, w1);
    var p := Spawned(w, a).value;
    var w2 := Put(w, a.pid, Go(p, ClaimLease)).(store := w.store[a.key := Claimed], claims := claims);
    h := ClaimLeaseOne(cfg, w2, a.pid);
    PutTwice(w, a.pid, Go(p, ClaimLease), Go(p, Enter));
    var w3 := Put(w, a.pid, Go(p, Enter)).(store := w.store[a.key := Claimed], claims := claims, holds := h);
    One(cfg, w2, Pass(a.pid), w3);
    Then(cfg, w, w2, w3);
  }

  // From the guard to the work, with the account `r`.
  lemma Admits(cfg: Config, w: World, pid: Pid, r: Account) returns (h: Holds)
    requires pid in w.pipes && w.pipes[pid].pc.Enter? && w.pipes[pid].preferred == "" && w.pipes[pid].key !in w.inflight
    requires r !in w.reserved && Free(w, AccountSlot(r), w.pipes[pid].key)
    ensures var p := w.pipes[pid];
            Leads(cfg, w, Put(w, pid, Go(p, SaveDeveloping).(account := Some(r))).(
                                        inflight := w.inflight + {p.key}, reserved := w.reserved[r := p.key], holds := h))
    ensures SameSlots(w, w.(holds := h), AccountSlot(r)) && HeldBy(h, AccountSlot(r), w.pipes[pid].key, w.now)
  {
    var p := w.pipes[pid];
    var p1, p2, p3 := Go(p, Reserving), Go(p, Leasing).(account := Some(r)), Go(p, SaveDeveloping).(account := Some(r));
    var inflight, reserved := w.inflight + {p.key}, w.reserved[r := p.key];
    EnterOne(cfg, w, pid);
    var w1 := Put(w, pid, p1).(inflight := inflight);
    ReserveOne(cfg, w1, pid, r);
    PutTwice(w, pid, p1, p2);
    var w2 := Put(w, pid, p2).(inflight := inflight, reserved := reserved);
    h := LeaseOne(cfg, w2, pid, r);
    PutTwice(w, pid, p2, p3);
    Three(cfg, w, Pass(pid), w1, Reserve(pid, Some(r)), w2, Pass(pid),
          Put(w, pid, p3).(inflight := inflight, reserved := reserved, holds := h));
  }

  // A worker call, up to the verification.
  lemma Develops(cfg: Config, w: World, pid: Pid, r: Worker)
    requires pid in w.pipes && w.pipes[pid].pc.SaveDeveloping?
    ensures var p := w.pipes[pid];
            Leads(cfg, w, Put(w, pid, Go(WorkPipe(Go(p, Develop), r), Verify)).(store := w.store[p.key := QA]))
  {
    var p := w.pipes[pid];
    var p1, p2, p3 := Go(p, Develop), WorkPipe(Go(p, Develop), r), Go(WorkPipe(Go(p, Develop), r), Verify);
    SaveOne(cfg, w, pid);
    var w1 := Put(w, pid, p1).(store := w.store[p.key := Developing]);
    WorkOne(cfg, w1, pid, r);
    PutTwice(w, pid, p1, p2);
    var w2 := Put(w, pid, p2).(store := w.store[p.key := Developing]);
    Two(cfg, w, Save(pid, true), w1, Work(pid, r, false), w2);
    SaveOne(cfg, w2, pid);
    PutTwice(w, pid, p2, p3);
    assert w.store[p.key := Developing][p.key := QA] == w.store[p.key := QA];
    var w3 := Put(w, pid, p3).(store := w.store[p.key := QA]);
    One(cfg, w2, Save(pid, true), w3);
    Then(cfg, w, w2, w3);
  }

  // What a pipeline at the merge has seen.
  function Approval(p: Pipe): Pipe {
    p.(pc := AskMerge, lastOK := true, hist := After(After(p.hist, Developed(true)), Verified(true)))
  }

  // Good work that passes, up to asking for the merge lease.
  lemma Works(cfg: Config, w: World, pid: Pid)
    requires pid in w.pipes && w.pipes[pid].pc.SaveDeveloping?
    ensures Leads(cfg, w, Put(w, pid, Approval(w.pipes[pid])).(store := w.store[w.pipes[pid].key := Merging]))
  {
    var p := w.pipes[pid];
    Develops(cfg, w, pid, Returned(true));
    var p1 := Go(WorkPipe(Go(p, Develop), Returned(true)), Verify);
    var p2 := JudgePipe(p1, Passed);
    var w1 := Put(w, pid, p1).(store := w.store[p.key := QA]);
    PutTwice(w, pid, p1, p2);
    var w2 := Put(w, pid, p2).(store := w.store[p.key := QA]);
    assert Step(cfg, w1, Judge(pid, Passed)) == Some(w2);
    SaveOne(cfg, w2, pid);
    PutTwice(w, pid, p2, Approval(p));
    assert w.store[p.key := QA][p.key := Merging] == w.store[p.key := Merging];
    var w3 := Put(w, pid, Approval(p)).(store := w.store[p.key := Merging]);
    Two(cfg, w1, Judge(pid, Passed), w2, Save(pid, true), w3);
    Then(cfg, w, w1, w3);
  }

  // A merge that succeeds, and Done stored.
  lemma Merges(cfg: Config, w: World, pid: Pid) returns (evidence: map<Key, History>)
    requires pid in w.pipes && w.pipes[pid].pc.CallMerge?
    ensures var p := w.pipes[pid];
            Leads(cfg, w, Put(w, pid, Go(MergePipe(p, true), DropIssue)).(store := w.store[p.key := Done], evidence := evidence))
  {
    var p := w.pipes[pid];
    var p1 := MergePipe(p, true);
    var w1 := Put(w, pid, p1);
    assert Step(cfg, w, Action.Merge(pid, true)) == Some(w1);
    SaveOne(cfg, w1, pid);
    PutTwice(w, pid, p1, Go(p1, DropIssue));
    evidence := w.evidence[p.key := p1.hist];
    Two(cfg, w, Action.Merge(pid, true), w1, Save(pid, true),
        Put(w, pid, Go(p1, DropIssue)).(store := w.store[p.key := Done], evidence := evidence));
  }

  // What finish gives back ...
  lemma Cleans(cfg: Config, w: World, pid: Pid) returns (h: Holds)
    requires pid in w.pipes && w.pipes[pid].pc.DropIssue? && w.pipes[pid].merge.Some?
    ensures Leads(cfg, w, Put(w, pid, Go(w.pipes[pid], DropMerge)).(holds := h))
  {
    var p := w.pipes[pid];
    var p1, p2 := Go(p, Clean), Go(p, DropMerge);
    h := CloseOne(cfg, w, pid);
    var w1 := Put(w, pid, p1).(holds := h);
    PutTwice(w, pid, p1, p2);
    Two(cfg, w, Pass(pid), w1, Cleanup(pid, false), Put(w, pid, p2).(holds := h));
  }

  // ... and the merge lease.
  lemma Closes(cfg: Config, w: World, pid: Pid) returns (h: Holds)
    requires pid in w.pipes && w.pipes[pid].pc.DropIssue? && w.pipes[pid].merge.Some?
    ensures Leads(cfg, w, Put(w, pid, Go(w.pipes[pid], AfterMerge(w.pipes[pid])).(merge := None)).(holds := h))
  {
    var p := w.pipes[pid];
    var p2, p3 := Go(p, DropMerge), Go(p, AfterMerge(p)).(merge := None);
    var h1 := Cleans(cfg, w, pid);
    var w2 := Put(w, pid, p2).(holds := h1);
    h := CloseOne(cfg, w2, pid);
    PutTwice(w, pid, p2, p3);
    One(cfg, w2, Pass(pid), Put(w, pid, p3).(holds := h));
    Then(cfg, w, w2, Put(w, pid, p3).(holds := h));
  }

  // The account's lease, its reservation, and the in-flight mark.
  lemma Leaves(cfg: Config, w: World, pid: Pid) returns (h: Holds)
    requires pid in w.pipes && w.pipes[pid].pc.DropAccount? && w.pipes[pid].account.Some?
    ensures var p := w.pipes[pid];
            Leads(cfg, w, Quit(w, pid).(inflight := w.inflight - {p.key}, reserved := w.reserved - {p.account.value}, holds := h))
  {
    var p := w.pipes[pid];
    var p1, p2, reserved := Go(p, Unreserve), Go(p, Leave).(account := None), w.reserved - {p.account.value};
    h := DropAccountOne(cfg, w, pid);
    var w1 := Put(w, pid, p1).(holds := h);
    UnreserveOne(cfg, w1, pid);
    PutTwice(w, pid, p1, p2);
    var w2 := Put(w, pid, p2).(holds := h, reserved := reserved);
    LeaveOne(cfg, w2, pid);
    assert w.pipes[pid := p2] - {pid} == w.pipes - {pid};
    Three(cfg, w, Pass(pid), w1, Pass(pid), w2, Pass(pid),
          Quit(w, pid).(inflight := w.inflight - {p.key}, reserved := reserved, holds := h));
  }

  // A run at the guard that is not forced, and whose account is free.
  ghost predicate Fit(w: World, pid: Pid, r: Account) {
    && pid in w.pipes && w.pipes[pid] == Fresh(w.pipes[pid].origin, w.pipes[pid].key, Enter, false, "")
    && w.pipes[pid].key !in w.inflight && r !in w.reserved && Free(w, AccountSlot(r), w.pipes[pid].key)
  }

  // The pipeline of such a run when it asks for the merge lease.
  function Asking(p: Pipe, r: Account): Pipe {
    Approval(Go(p, SaveDeveloping).(account := Some(r)))
  }

  function Waiting(w: World, pid: Pid, r: Account, h: Holds): World
    requires pid in w.pipes
  {
    var p := w.pipes[pid];
    Put(w, pid, Asking(p, r)).(store := w.store[p.key := Merging], inflight := w.inflight + {p.key},
                               reserved := w.reserved[r := p.key], holds := h)
  }

  // From the guard to asking for the merge lease ...
  lemma ToAsk(cfg: Config, w: World, pid: Pid, r: Account) returns (h: Holds)
    requires Fit(w, pid, r)
    ensures Leads(cfg, w, Waiting(w, pid, r, h)) && SameSlots(w, w.(holds := h), AccountSlot(r))
    ensures HeldBy(h, AccountSlot(r), w.pipes[pid].key, w.now)
  {
    var p := w.pipes[pid];
    h := Admits(cfg, w, pid, r);
    var p1 := Go(p, SaveDeveloping).(account := Some(r));
    var w1 := Put(w, pid, p1).(inflight := w.inflight + {p.key}, reserved := w.reserved[r := p.key], holds := h);
    Works(cfg, w1, pid);
    PutTwice(w, pid, p1, Approval(p1));
    assert Put(w1, pid, Approval(p1)).(store := w1.store[p.key := Merging]) == Waiting(w, pid, r, h);
    Then(cfg, w, w1, Waiting(w, pid, r, h));
  }

  // ... and into the merge.
  lemma ToMerge(cfg: Config, w: World, pid: Pid, r: Account) returns (w': World)
    requires Fit(w, pid, r) && Free(w, MergeSlot(cfg.branch), w.pipes[pid].key)
    ensures Leads(cfg, w, w') && MergeSlot(cfg.branch) in w'.holds
    ensures HeldByNow(w', MergeSlot(cfg.branch), w.pipes[pid].key) && HeldByNow(w', AccountSlot(r), w.pipes[pid].key)
    ensures var p := w.pipes[pid];
            w' == Waiting(w, pid, r, w'.holds).(
                    pipes := w.pipes[pid := AtMerge(Asking(p, r), w'.holds[MergeSlot(cfg.branch)].until)])
    ensures forall s: Slot :: s != AccountSlot(r) && s != MergeSlot(cfg.branch) ==>
              (s in w'.holds <==> s in w.holds) && (s in w.holds ==> w'.holds[s] == w.holds[s])
  {
    var p := w.pipes[pid];
    var h1 := ToAsk(cfg, w, pid, r);
    var w1 := Waiting(w, pid, r, h1);
    assert Free(w1, MergeSlot(cfg.branch), p.key) by { assert MergeSlot(cfg.branch) != AccountSlot(r); }
    var h := AskOne(cfg, w1, pid);
    PutTwice(w, pid, Asking(p, r), AtMerge(Asking(p, r), h[MergeSlot(cfg.branch)].until));
    w' := Put(w1, pid, AtMerge(Asking(p, r), h[MergeSlot(cfg.branch)].until)).(holds := h);
    One(cfg, w1, Pass(pid), w');
    Then(cfg, w, w1, w');
  }

  // From the guard to the end, with Done stored.
  lemma Completes(cfg: Config, w: World, pid: Pid, r: Account) returns (w': World)
    requires Fit(w, pid, r) && Free(w, MergeSlot(cfg.branch), w.pipes[pid].key)
    ensures Leads(cfg, w, w') && w'.pipes == w.pipes - {pid} && w'.store == w.store[w.pipes[pid].key := Done]
    ensures w'.inflight == w.inflight && w'.phase == w.phase && w'.resume == w.resume
  {
    var p, k := w.pipes[pid], w.pipes[pid].key;
    var w1 := ToMerge(cfg, w, pid, r);
    assert w1.pipes - {pid} == w.pipes - {pid} && w1.pipes[pid].key == k;
    w' := Ends(cfg, w1, pid);
    Then(cfg, w, w1, w');
    assert w.store[k := Merging][k := Done] == w.store[k := Done];
    assert w.inflight + {k} - {k} == w.inflight;
  }

  lemma Ends(cfg: Config, w: World, pid: Pid) returns (w': World)
    requires pid in w.pipes && w.pipes[pid].pc.CallMerge? && w.pipes[pid].merge.Some? && w.pipes[pid].account.Some? && !w.pipes[pid].force
    ensures Leads(cfg, w, w') && w'.pipes == w.pipes - {pid} && w'.store == w.store[w.pipes[pid].key := Done]
    ensures w'.inflight == w.inflight - {w.pipes[pid].key} && w'.phase == w.phase && w'.resume == w.resume
  {
    var p := w.pipes[pid];
    var p1 := Go(MergePipe(p, true), DropIssue);
    var p2 := Go(p1, DropAccount).(merge := None);
    var evidence := Merges(cfg, w, pid);
    var w1 := Put(w, pid, p1).(store := w.store[p.key := Done], evidence := evidence);
    var h := Closes(cfg, w1, pid);
    var w2 := Put(w1, pid, p2).(holds := h);
    Then(cfg, w, w1, w2);
    var h' := Leaves(cfg, w2, pid);
    w' := Quit(w2, pid).(inflight := w2.inflight - {p.key}, reserved := w2.reserved - {p.account.value}, holds := h');
    Then(cfg, w, w2, w');
    assert w2.pipes - {pid} == w.pipes - {pid};
  }

  // ---------------------------------------------------------------------------------------------
  // The runs
  // ---------------------------------------------------------------------------------------------

  lemma Overlap(cfg: Config, k: Key) returns (w1: World, w2: World)
    requires k != ""
    ensures Run(cfg, UP, [ServeLoad(0, k), TickLoad(1, k)]) == Some(w2) && Step(cfg, w1, TickLoad(1, k)) == Some(w2)
    ensures OfKey(w1, 0, k) && w1.pipes[0].pc.ClaimSave? && k !in w1.store && w1.claims == map[]
  {
    w1 := Put(UP, 0, Fresh(Loop, k, ClaimSave, false, ""));
    w2 := Put(w1, 1, Fresh(Command, k, ClaimSave, false, ""));
    assert Step(cfg, UP, ServeLoad(0, k)) == Some(w1);
    assert Step(cfg, w1, TickLoad(1, k)) == Some(w2);
    Two(cfg, UP, ServeLoad(0, k), w1, TickLoad(1, k), w2);
  }

  /** A tick that looks an issue up while a pass of the serve loop is about to save its claim claims it again. */
  lemma TickClaimsTwice(cfg: Config, k: Key) returns (w: World)
    requires k != ""
    ensures Run(cfg, START, [Boot, Recovered([])] + [ServeLoad(0, k), TickLoad(1, k)] + [Save(0, true), Save(1, true)]) == Some(w)
    ensures Count(w.claims, k) == 2
  {
    var boot, loads, saves := [Boot, Recovered([])], [ServeLoad(0, k), TickLoad(1, k)], [Save(0, true), Save(1, true)];
    Booted(cfg);
    var w1, w2 := Overlap(cfg, k);
    SecondLoadClaimsTwice(cfg, w1, 0, TickLoad(1, k), w2, k);
    w := Run(cfg, w2, saves).value;
    Join(cfg, START, boot, UP, loads);
    Join(cfg, START, boot + loads, w2, saves);
  }

  // A run that entered with an old record of a finished issue stores an unfinished state over the outcome.
  lemma StaleOverwrites(cfg: Config, w: World, pid: Pid, k: Key) returns (w': World)
    requires OfKey(w, pid, k) && w.pipes[pid].pc.Enter? && Finished(w, k) && k !in w.inflight
    ensures Leads(cfg, w, w') && !Finished(w', k)
  {
    EnterOne(cfg, w, pid);
    var w1 := Step(cfg, w, Pass(pid)).value;
    CarelessOverwrites(cfg, w, Pass(pid), w1, k);
    var more: seq<Action> :| Run(cfg, w1, more).Some? && !Finished(Run(cfg, w1, more).value, k);
    w' := Run(cfg, w1, more).value;
    One(cfg, w, Pass(pid), w1);
    Then(cfg, w, w1, w');
  }

  // The serve loop is up, knows one issue and is about to run it; nothing else is held.
  ghost predicate JustClaimed(w: World, pid: Pid, origin: Origin, k: Key) {
    && w.phase.Running? && w.resume == [] && w.pipes == map[pid := Fresh(origin, k, Enter, false, "")]
    && w.store == map[k := Claimed] && w.inflight == {} && w.reserved == map[] && OnlyIssues(w.holds)
  }

  ghost predicate OnlyIssues(h: Holds) {
    forall s: Slot :: s in h ==> s.IssueSlot?
  }

  lemma FirstClaim(cfg: Config, k: Key) returns (w: World)
    requires k != ""
    ensures Leads(cfg, START, w) && JustClaimed(w, 0, Loop, k)
  {
    Booted(cfg);
    var p := Fresh(Loop, k, ClaimSave, false, "");
    assert Step(cfg, UP, ServeLoad(0, k)) == Some(Put(UP, 0, p));
    var h, claims := Claims(cfg, UP, ServeLoad(0, k), Put(UP, 0, p));
    w := Put(UP, 0, Go(p, Enter)).(store := UP.store[k := Claimed], claims := claims, holds := h);
    Then(cfg, START, UP, w);
    forall s: Slot | s in h ensures s.IssueSlot? { assert s !in UP.holds; }
  }

  /** A manual run that looked the issue up before its outcome was stored, and enters afterwards, overwrites the
      Done that a pass earned. */
  lemma ManualRunOverwritesDone(cfg: Config, k: Key, r: Account) returns (w: World, w': World)
    requires k != "" && r != "" && cfg.branch != ""
    ensures Leads(cfg, START, w) && k in w.store && w.store[k] == Done
    ensures Leads(cfg, w, w') && !Finished(w', k)
  {
    var w1 := FirstClaim(cfg, k);
    var q := Fresh(Command, k, Enter, false, "");
    var w2 := Put(w1, 1, q);
    assert Step(cfg, w1, ManualLoad(1, k, false, "")) == Some(w2);
    One(cfg, w1, ManualLoad(1, k, false, ""), w2);
    Then(cfg, START, w1, w2);
    w := Completes(cfg, w2, 0, r);
    Then(cfg, START, w2, w);
    assert w.pipes[1] == q;
    w' := StaleOverwrites(cfg, w, 1, k);
  }

  // Recover is at work and has nothing to sweep, while a tick has just claimed an issue.
  lemma EarlyTick(cfg: Config, k: Key) returns (w: World)
    requires k != ""
    ensures Leads(cfg, START, w) && JustClaimed(w.(phase := Running), 0, Command, k) && w.phase == Recovering(map[])
  {
    var w1 := START.(phase := Recovering(map[]));
    assert LeaseStore.Sweep(map[], 0) == map[] && ActiveHolds(map[], 0) == map[];
    assert Step(cfg, START, Boot) == Some(w1);
    One(cfg, START, Boot, w1);
    var p := Fresh(Command, k, ClaimSave, false, "");
    assert Step(cfg, w1, TickLoad(0, k)) == Some(Put(w1, 0, p));
    var h, claims := Claims(cfg, w1, TickLoad(0, k), Put(w1, 0, p));
    w := Put(w1, 0, Go(p, Enter)).(store := w1.store[k := Claimed], claims := claims, holds := h);
    Then(cfg, START, w1, w);
    forall s: Slot | s in h ensures s.IssueSlot? { assert s !in w1.holds; }
  }

  // Recover lists the claim while the tick's run is still under way.
  lemma ListedEarly(cfg: Config, w: World, k: Key) returns (w': World)
    requires w.phase == Recovering(map[]) && w.store == map[k := Claimed]
    ensures Leads(cfg, w, w') && w' == w.(phase := Running, resume := [(k, Claimed)])
  {
    assert Lists([k], w.store);
    w' := Step(cfg, w, Recovered([k])).value;
    assert w'.resume == [(k, Claimed)];
    One(cfg, w, Recovered([k]), w');
  }

  /** No manual run is needed: a tick that claims an issue while Recover works finishes it, and Recover then
      resumes it from the record it listed before. */
  lemma StaleResumeOverwritesDone(cfg: Config, k: Key, r: Account) returns (w: World, w': World)
    requires k != "" && r != "" && cfg.branch != ""
    ensures Leads(cfg, START, w) && k in w.store && w.store[k] == Done && w.pipes == map[]
    ensures Leads(cfg, w, w') && !Finished(w', k)
  {
    var w1 := EarlyTick(cfg, k);
    var w2 := ListedEarly(cfg, w1, k);
    Then(cfg, START, w1, w2);
    w := Completes(cfg, w2, 0, r);
    Then(cfg, START, w2, w);
    assert w.resume[0] == (k, Claimed);
    var w3 := Put(w, 0, Fresh(Loop, k, Enter, false, "")).(resume := w.resume[1..]);
    assert Step(cfg, w, Resume(0, true)) == Some(w3);
    One(cfg, w, Resume(0, true), w3);
    w' := StaleOverwrites(cfg, w3, 0, k);
    Then(cfg, w, w3, w');
  }

  // -- two pipelines inside the merge --------------------------------------------------------------

  predicate InMerge(w: World, pid: Pid) {
    pid in w.pipes && w.pipes[pid].pc.CallMerge? && w.pipes[pid].merge.Some?
  }

  // The issue `k` is inside the merge with the account `r`; nothing else is held.
  ghost predicate FirstIn(cfg: Config, w: World, k: Key, r: Account) {
    && w.phase.Running? && w.pipes.Keys == {0} && InMerge(w, 0) && w.pipes[0].key == k
    && w.store == map[k := Merging] && w.inflight == {k} && w.reserved == map[r := k]
    && HeldByNow(w, MergeSlot(cfg.branch), k) && w.pipes[0].merge == Some(w.holds[MergeSlot(cfg.branch)].until)
    && HeldByNow(w, AccountSlot(r), k)
    && (forall s: Slot :: s in w.holds ==> s.IssueSlot? || s == AccountSlot(r) || s == MergeSlot(cfg.branch))
  }

  lemma GetsIn(cfg: Config, k: Key, r: Account) returns (w: World)
    requires k != "" && r != "" && cfg.branch != ""
    ensures Leads(cfg, START, w) && FirstIn(cfg, w, k, r)
  {
    var w1 := FirstClaim(cfg, k);
    w := ToMerge(cfg, w1, 0, r);
    Then(cfg, START, w1, w);
  }

  // A second issue is claimed.
  lemma SecondClaim(cfg: Config, w: World, a: Action) returns (w': World)
    requires (a.TickLoad? || (a.ManualLoad? && !a.force && a.preferred == "")) && a.key != "" && a.key !in w.store
    requires a.pid !in w.pipes
    ensures Leads(cfg, w, w') && w' == w.(pipes := w.pipes[a.pid := Fresh(Command, a.key, Enter, false, "")],
                                          store := w.store[a.key := Claimed], claims := w'.claims, holds := w'.holds)
    ensures SameSlots(w, w', IssueSlot(a.key))
  {
    var p := Fresh(Command, a.key, ClaimSave, false, "");
    assert Step(cfg, w, a) == Some(Put(w, a.pid, p));
    var h, claims := Claims(cfg, w, a, Put(w, a.pid, p));
    w' := Put(w, a.pid, Go(p, Enter)).(store := w.store[a.key := Claimed], claims := claims, holds := h);
  }

  lemma Lapses(cfg: Config, w: World, k: Key, r: Account) returns (w': World)
    requires FirstIn(cfg, w, k, r)
    ensures Leads(cfg, w, w') && w' == w.(now := w'.now) && w'.holds[MergeSlot(cfg.branch)].until <= w'.now
  {
    var d := w.holds[MergeSlot(cfg.branch)].until - w.now;
    w' := w.(now := w.now + d);
    assert Step(cfg, w, Tick(d)) == Some(w');
    One(cfg, w, Tick(d), w');
  }

  /** A merge that outlasts its lease: a second pipeline is granted the lease and both are inside the merge. */
  lemma LapseLetsSecondIn(cfg: Config, k1: Key, r1: Account, k2: Key, r2: Account) returns (w: World)
    requires "" !in {k1, k2, r1, r2, cfg.branch} && k1 != k2 && r1 != r2
    ensures Leads(cfg, START, w) && InMerge(w, 0) && InMerge(w, 1) && w.pipes[0].key == k1 && w.pipes[1].key == k2
  {
    var w1 := GetsIn(cfg, k1, r1);
    var w2 := Lapses(cfg, w1, k1, r1);
    Then(cfg, START, w1, w2);
    var w3 := SecondClaim(cfg, w2, TickLoad(1, k2));
    Then(cfg, START, w2, w3);
    assert IssueSlot(k2) !in {MergeSlot(cfg.branch), AccountSlot(r1), AccountSlot(r2)};
    w := ToMerge(cfg, w3, 1, r2);
    Then(cfg, START, w3, w);
  }

  // A crash inside the merge, and Recover begins: the merge lease and the account's are on its list.
  lemma Restarts(cfg: Config, w: World, k: Key, r: Account) returns (w': World)
    requires FirstIn(cfg, w, k, r)
    ensures Leads(cfg, w, w') && w'.phase.Recovering? && w'.pipes == map[] && w'.inflight == {} && w'.reserved == map[]
    ensures w'.store == w.store && Waits(w', MergeSlot(cfg.branch), k)
    ensures HeldByNow(w', MergeSlot(cfg.branch), k) && HeldByNow(w', AccountSlot(r), k)
    ensures forall s: Slot :: s in w'.holds ==> s in w.holds
  {
    var w1 := Step(cfg, w, Crash).value;
    w' := Step(cfg, w1, Boot).value;
    Two(cfg, w, Crash, w1, Boot, w');
  }

  // One pipeline is inside the merge; the other, if there is one, is not.
  ghost predicate OneIn(cfg: Config, w: World, k: Key) {
    && InMerge(w, 0) && w.pipes[0].key == k && (forall pid :: pid in w.pipes && pid != 0 ==> w.pipes[pid].merge.None?)
    && HeldByNow(w, MergeSlot(cfg.branch), k) && w.pipes[0].merge == Some(w.holds[MergeSlot(cfg.branch)].until)
  }

  lemma Reruns(cfg: Config, w: World, k: Key) returns (w': World)
    requires k != "" && 0 !in w.pipes && k in w.store && !w.store[k].Terminal()
    ensures Leads(cfg, w, w') && w' == Put(w, 0, Fresh(Command, k, Enter, false, ""))
  {
    w' := Put(w, 0, Fresh(Command, k, Enter, false, ""));
    assert Step(cfg, w, ManualLoad(0, k, false, "")) == Some(w');
    One(cfg, w, ManualLoad(0, k, false, ""), w');
  }

  // The interrupted issue is run again by hand while Recover works ...
  lemma RunsAgain(cfg: Config, w: World, k: Key, r: Account) returns (w': World)
    requires k != "" && r != "" && cfg.branch != ""
    requires w.phase.Recovering? && w.pipes == map[] && w.inflight == {} && w.reserved == map[] && w.store == map[k := Merging]
    requires HeldByNow(w, MergeSlot(cfg.branch), k) && HeldByNow(w, AccountSlot(r), k)
    ensures Leads(cfg, w, w') && w'.phase == w.phase && w'.now == w.now && w'.pipes.Keys == {0} && OneIn(cfg, w', k)
    ensures w'.store.Keys == {k} && w'.inflight == {k} && w'.reserved == map[r := k]
    ensures forall s: Slot :: s in w'.holds ==> s in w.holds || s == AccountSlot(r)
  {
    var w1 := Reruns(cfg, w, k);
    w' := ToMerge(cfg, w1, 0, r);
    Then(cfg, w, w1, w');
  }

  // ... and a second one comes to ask for the lease.
  lemma SecondAsks(cfg: Config, w: World, k1: Key, k2: Key, r: Account) returns (w': World)
    requires k2 != "" && k1 != k2 && r != "" && w.phase.Recovering? && w.pipes.Keys == {0} && OneIn(cfg, w, k1)
    requires w.store.Keys == {k1} && w.inflight == {k1} && r !in w.reserved && AccountSlot(r) !in w.holds
    ensures Leads(cfg, w, w') && w'.phase == w.phase && OneIn(cfg, w', k1)
    ensures 1 in w'.pipes && w'.pipes[1].key == k2 && w'.pipes[1].pc.AskMerge?
  {
    var w1 := SecondClaim(cfg, w, ManualLoad(1, k2, false, ""));
    assert IssueSlot(k2) !in {MergeSlot(cfg.branch), AccountSlot(r)};
    var h := ToAsk(cfg, w1, 1, r);
    assert MergeSlot(cfg.branch) != AccountSlot(r);
    w' := Waiting(w1, 1, r, h);
    Then(cfg, w, w1, w');
  }

  lemma OneInKept(cfg: Config, w: World, k: Key)
    requires OneIn(cfg, w, k)
    ensures MergeKept(cfg, w) && LiveMerger(w, 0)
  {
  }

  // The sweep of the merge lease, and the second pipeline's request.
  lemma SweptAndAsked(cfg: Config, w: World) returns (w1: World, w2: World)
    requires w.phase.Recovering? && MergeSlot(cfg.branch) in w.phase.todo && 1 in w.pipes && w.pipes[1].pc.AskMerge?
    ensures Step(cfg, w, Action.Sweep(MergeSlot(cfg.branch))) == Some(w1) && Step(cfg, w1, Pass(1)) == Some(w2)
  {
    w1 := RecoverStep(w, Action.Sweep(MergeSlot(cfg.branch))).value;
    w2 := PassStep(cfg, w1, 1, w1.pipes[1]).value;
  }

  /** A run that starts while Recover works can lose its merge lease to the sweep, and a second pipeline is
      granted the lease while the first one's still lasts. */
  lemma SweepLetsSecondIn(cfg: Config, k1: Key, r1: Account, k2: Key, r2: Account) returns (w: World)
    requires "" !in {k1, k2, r1, r2, cfg.branch} && k1 != k2 && r1 != r2
    ensures Leads(cfg, START, w) && LiveMerger(w, 0) && LiveMerger(w, 1)
  {
    var w1 := GetsIn(cfg, k1, r1);
    var w2 := Restarts(cfg, w1, k1, r1);
    Then(cfg, START, w1, w2);
    var w3 := RunsAgain(cfg, w2, k1, r1);
    Then(cfg, START, w2, w3);
    assert AccountSlot(r2) !in w3.holds;
    var w4 := SecondAsks(cfg, w3, k1, k2, r2);
    Then(cfg, START, w3, w4);
    w := BothIn(cfg, w4, k1);
  }

  lemma BothIn(cfg: Config, w: World, k: Key) returns (w': World)
    requires Leads(cfg, START, w) && OneIn(cfg, w, k) && Waits(w, MergeSlot(cfg.branch), k) && cfg.branch != ""
    requires w.phase.Recovering?
    requires 1 in w.pipes && w.pipes[1].pc.AskMerge?
    ensures Leads(cfg, START, w') && LiveMerger(w', 0) && LiveMerger(w', 1)
  {
    ReachableIsOurs(cfg, w);
    OneInKept(cfg, w, k);
    var slot := MergeSlot(cfg.branch);
    var w1, w2 := SweptAndAsked(cfg, w);
    Two(cfg, w, Action.Sweep(slot), w1, Pass(1), w2);
    Then(cfg, START, w, w2);
    w' := w2;
    assert !Spares(cfg, w, Action.Sweep(slot));
    UnsparedLetsSecondIn(cfg, w, 0, 1, slot, w1, w2);
  }

  lemma ReachableIsOurs(cfg: Config, w: World)
    requires Leads(cfg, START, w)
    ensures Ours(w)
  {
    var acts: seq<Action> :| Run(cfg, START, acts) == Some(w);
    StartIsOurs();
    RunKeeps(cfg, START, acts, w);
  }

  /** A run that was forced without a picked account fails, and its account stays reserved and leased with nobody
      to give it back. */
  lemma ForcedRunOrphans(cfg: Config, k: Key, r: Account) returns (w: World)
    requires k != "" && r != ""
    ensures Leads(cfg, START, w) && w.pipes == map[] && Orphan(w, r) && HeldByNow(w, AccountSlot(r), k)
  {
    Booted(cfg);
    var load, p := ManualLoad(0, k, true, ""), Fresh(Command, k, ClaimSave, true, "");
    assert Step(cfg, UP, load) == Some(Put(UP, 0, p));
    var h1, claims := Claims(cfg, UP, load, Put(UP, 0, p));
    var w1 := Put(UP, 0, Go(p, Enter)).(store := UP.store[k := Claimed], claims := claims, holds := h1);
    Then(cfg, START, UP, w1);
    var w2 := Leaks(cfg, w1, 0, r);
    w := w2;
    Then(cfg, START, w1, w);
  }

  lemma Leaks(cfg: Config, w: World, pid: Pid, r: Account) returns (w': World)
    requires pid in w.pipes && w.pipes[pid].pc.Enter? && w.pipes[pid].key !in w.inflight && w.pipes[pid].merge.None?
    requires ForcedAuto(w.pipes[pid]) && r !in w.reserved && Free(w, AccountSlot(r), w.pipes[pid].key)
    ensures Leads(cfg, w, w') && w'.pipes == w.pipes - {pid} && w'.reserved == w.reserved[r := w.pipes[pid].key]
    ensures HeldByNow(w', AccountSlot(r), w.pipes[pid].key)
  {
    var p := w.pipes[pid];
    var p1 := Go(p, SaveDeveloping).(account := Some(r));
    var p2 := Go(WorkPipe(Go(p1, Develop), Errored), Verify);
    var h := Admits(cfg, w, pid, r);
    var w1 := Put(w, pid, p1).(inflight := w.inflight + {p.key}, reserved := w.reserved[r := p.key], holds := h);
    Develops(cfg, w1, pid, Errored);
    PutTwice(w, pid, p1, p2);
    var w2 := Put(w1, pid, p2).(store := w1.store[p.key := QA]);
    Then(cfg, w, w1, w2);
    w' := GivesUp(cfg, w2, pid);
    Then(cfg, w, w2, w');
    assert w.pipes[pid := p2] - {pid} == w.pipes - {pid};
  }

  // The verifier is broken and the Store fails: the run just ends.
  lemma GivesUp(cfg: Config, w: World, pid: Pid) returns (w': World)
    requires pid in w.pipes && w.pipes[pid].pc.Verify? && w.pipes[pid].merge.None? && w.pipes[pid].force
    ensures Leads(cfg, w, w') && w'.pipes == w.pipes - {pid} && w'.reserved == w.reserved
    ensures w'.holds == w.holds && w'.now == w.now
  {
    var p := w.pipes[pid];
    var p1 := JudgePipe(p, Broken);
    var p2 := Go(p1, Leave);
    var w1, w2 := Put(w, pid, p1), Put(w, pid, p2);
    assert Step(cfg, w, Judge(pid, Broken)) == Some(w1);
    PutTwice(w, pid, p1, p2);
    assert Step(cfg, w1, Save(pid, false)) == Some(w2);
    LeaveOne(cfg, w2, pid);
    w' := Quit(w2, pid).(inflight := w.inflight - {p.key});
    Three(cfg, w, Judge(pid, Broken), w1, Save(pid, false), w2, Pass(pid), w');
    assert w.pipes[pid := p2] - {pid} == w.pipes - {pid};
  }

  // -- a run that starts before Recover does -------------------------------------------------------

  // Recover deals with everything on its list.
  lemma {:induction false} SweepsAll(cfg: Config, w: World) returns (acts: seq<Action>, w': World)
    requires w.phase.Recovering?
    ensures Run(cfg, w, acts) == Some(w') && (forall a :: a in acts ==> a.Sweep?)
    ensures w' == w.(holds := w'.holds, phase := Recovering(map[]))
    ensures forall s: Slot :: s in w'.holds ==> s in w.holds && w'.holds[s] == w.holds[s]
    ensures forall s: Slot :: s in w.phase.todo && !s.IssueSlot? ==> !HeldBy(w'.holds, s, w.phase.todo[s], w.now)
    decreases |w.phase.todo.Keys|
  {
    if w.phase.todo == map[] {
      acts, w' := [], w;
    } else {
      var slot :| slot in w.phase.todo;
      var w1 := RecoverStep(w, Action.Sweep(slot)).value;
      assert Step(cfg, w, Action.Sweep(slot)) == Some(w1);
      assert w1.phase.todo.Keys == w.phase.todo.Keys - {slot};
      var rest;
      rest, w' := SweepsAll(cfg, w1);
      acts := [Action.Sweep(slot)] + rest;
      assert acts[1..] == rest;
    }
  }

  // A run by hand that has reserved and leased an account while the process is up and Recover has not begun.
  lemma StartsEarly(cfg: Config, k: Key, r: Account) returns (w: World)
    requires k != "" && r != ""
    ensures Leads(cfg, START, w) && w.phase.Down? && w.pipes.Keys == {0} && w.pipes[0].account == Some(r)
    ensures w.reserved == map[r := k] && w.store == map[k := Claimed] && HeldByNow(w, AccountSlot(r), k)
  {
    var load, p := ManualLoad(0, k, false, ""), Fresh(Command, k, ClaimSave, false, "");
    assert Step(cfg, START, load) == Some(Put(START, 0, p));
    var h1, claims := Claims(cfg, START, load, Put(START, 0, p));
    var w1 := Put(START, 0, Go(p, Enter)).(store := START.store[k := Claimed], claims := claims, holds := h1);
    var h2 := Admits(cfg, w1, 0, r);
    w := Put(w1, 0, Go(w1.pipes[0], SaveDeveloping).(account := Some(r))).(inflight := w1.inflight + {k}, reserved := w1.reserved[r := k], holds := h2);
    Then(cfg, START, w1, w);
  }

  /** A command can start a run as soon as the server is up. No command falls into the recovery that follows, and
      yet it ends with a pipeline at work and its account reserved; the sweep took the lease on that account. */
  lemma EarlyRunLosesLease(cfg: Config, k: Key, r: Account) returns (w0: World, sweeps: seq<Action>, w: World)
    requires k != "" && r != ""
    ensures Leads(cfg, START, w0) && w0.phase.Down? && HeldByNow(w0, AccountSlot(r), k)
    ensures Run(cfg, w0, [Boot] + sweeps + [Recovered([k])]) == Some(w) && (forall a :: a in sweeps ==> a.Sweep?)
    ensures w.phase.Running? && Has(w, 0, r) && w.reserved == map[r := k] && !HeldByNow(w, AccountSlot(r), k)
  {
    w0 := StartsEarly(cfg, k, r);
    var w1 := Step(cfg, w0, Boot).value;
    assert w1.phase.todo[AccountSlot(r)] == k && w1.pipes == w0.pipes && w1.reserved == w0.reserved;
    var w2;
    sweeps, w2 := SweepsAll(cfg, w1);
    w := RecoversOne(cfg, w2, k);
    assert [Boot][1..] == [] && Run(cfg, w1, []) == Some(w1);
    Join(cfg, w0, [Boot], w1, sweeps);
    Join(cfg, w0, [Boot] + sweeps, w2, [Recovered([k])]);
  }

  lemma RecoversOne(cfg: Config, w: World, k: Key) returns (w': World)
    requires w.phase == Recovering(map[]) && w.store == map[k := Claimed]
    ensures Run(cfg, w, [Recovered([k])]) == Some(w') && w' == w.(phase := Running, resume := w'.resume)
  {
    assert Lists([k], w.store);
    w' := Step(cfg, w, Recovered([k])).value;
    assert [Recovered([k])][1..] == [] && Run(cfg, w', []) == Some(w');
  }

  // -- an issue lease that is left behind ----------------------------------------------------------

  // No account, and the deferral is not saved: the run leaves, and nothing is stored.
  lemma GoesAway(cfg: Config, w: World, pid: Pid)
    requires pid in w.pipes && w.pipes[pid] == Fresh(w.pipes[pid].origin, w.pipes[pid].key, Enter, false, "")
    requires w.pipes[pid].key !in w.inflight
    ensures Leads(cfg, w, Quit(w, pid))
  {
    var p := w.pipes[pid];
    var inflight := w.inflight + {p.key};
    EnterOne(cfg, w, pid);
    var w1 := Put(w, pid, Go(p, Reserving)).(inflight := inflight);
    PutTwice(w, pid, Go(p, Reserving), Go(p, SaveDeferred));
    var w2 := Put(w, pid, Go(p, SaveDeferred)).(inflight := inflight);
    assert Step(cfg, w1, Reserve(pid, None)) == Some(w2);
    Two(cfg, w, Pass(pid), w1, Reserve(pid, None), w2);
    PutTwice(w, pid, Go(p, SaveDeferred), Go(p, Leave));
    var w3 := Put(w, pid, Go(p, Leave)).(inflight := inflight);
    assert Step(cfg, w2, Save(pid, false)) == Some(w3);
    LeaveOne(cfg, w3, pid);
    assert w.pipes[pid := Go(p, Leave)] - {pid} == w.pipes - {pid} && inflight - {p.key} == w.inflight;
    Two(cfg, w2, Save(pid, false), w3, Pass(pid), Quit(w, pid));
    Then(cfg, w, w2, Quit(w, pid));
  }

  /** The condition on issue leases is needed: a claim that takes the lease when its issue is finished can always
      leave it behind, valid and with nobody to release it. */
  lemma LateClaimLeavesLease(cfg: Config, w: World, pid: Pid, k: Key) returns (w': World)
    requires !InTime(w, Pass(pid), k) && IssueOwned(w, k) && k != "" && k !in w.inflight
    requires w.pipes[pid] == Fresh(w.pipes[pid].origin, k, ClaimLease, false, "")
    ensures Leads(cfg, w, w') && w'.pipes == w.pipes - {pid} && HeldByNow(w', IssueSlot(k), k) && Finished(w', k)
    ensures w'.phase == w.phase
  {
    var p := w.pipes[pid];
    assert Free(w, IssueSlot(k), k) by {
      if HeldByOther(w.holds, IssueSlot(k), k, w.now) { assert HeldByNow(w, IssueSlot(k), w.holds[IssueSlot(k)].owner); }
    }
    var h := ClaimLeaseOne(cfg, w, pid);
    var w1 := Put(w, pid, Go(p, Enter)).(holds := h);
    One(cfg, w, Pass(pid), w1);
    GoesAway(cfg, w1, pid);
    w' := Quit(w1, pid);
    Then(cfg, w, w1, w');
    assert w.pipes[pid := Go(p, Enter)] - {pid} == w.pipes - {pid};
  }

  // The serve loop saved its claim ...
  lemma SavedClaim(cfg: Config, k: Key) returns (w: World)
    requires k != ""
    ensures Leads(cfg, START, w) && w.phase.Running? && w.store == map[k := Claimed] && w.inflight == {} && w.reserved == map[]
    ensures w.pipes == map[0 := Fresh(Loop, k, ClaimLease, false, "")] && w.holds == map[]
  {
    Booted(cfg);
    var p := Fresh(Loop, k, ClaimSave, false, "");
    assert Step(cfg, UP, ServeLoad(0, k)) == Some(Put(UP, 0, p));
    var claims := Stakes(cfg, UP, ServeLoad(0, k), Put(UP, 0, p));
    w := Put(UP, 0, Go(p, ClaimLease)).(store := UP.store[k := Claimed], claims := claims);
    Then(cfg, START, UP, w);
  }

  // ... and before it takes the issue lease, a run by hand finishes the issue.
  lemma FinishedFirst(cfg: Config, k: Key, r: Account) returns (w: World)
    requires k != "" && r != "" && cfg.branch != ""
    ensures Leads(cfg, START, w) && w.phase.Running? && w.store == map[k := Done] && w.inflight == {}
    ensures w.pipes == map[0 := Fresh(Loop, k, ClaimLease, false, "")]
  {
    var w1 := SavedClaim(cfg, k);
    var w2 := Put(w1, 1, Fresh(Command, k, Enter, false, ""));
    assert Step(cfg, w1, ManualLoad(1, k, false, "")) == Some(w2);
    One(cfg, w1, ManualLoad(1, k, false, ""), w2);
    Then(cfg, START, w1, w2);
    w := Completes(cfg, w2, 1, r);
    Then(cfg, START, w2, w);
    assert w2.pipes - {1} == w1.pipes;
    assert w2.store[k := Done] == map[k := Done];
  }

  /** And that happens: a finished issue whose lease is held when no pipeline is left. */
  lemma IssueLeaseLeftBehind(cfg: Config, k: Key, r: Account) returns (w: World)
    requires k != "" && r != "" && cfg.branch != ""
    ensures Leads(cfg, START, w) && w.phase.Running? && w.pipes == map[] && Finished(w, k) && HeldByNow(w, IssueSlot(k), k)
  {
    var w1 := FinishedFirst(cfg, k, r);
    var acts: seq<Action> :| Run(cfg, START, acts) == Some(w1);
    RunIssue(cfg, START, acts, w1, k);
    w := LateClaimLeavesLease(cfg, w1, 0, k);
    Then(cfg, START, w1, w);
  }
}
