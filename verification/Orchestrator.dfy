/** The serve loop, run on its own: ProcessOnce, the pipeline it drives, Recover after a restart, and the
    drain of a whole queue. Every step is a step of the transition system in `Pipeline`, so what is proved
    of all its runs holds of these; what is added here is that a drain ends, and how. */
module Orchestrator {
  import opened Leases
  import opened Options
  import opened LeaseStore
  import opened Pipeline
  import opened PipelineOwnership
  import opened PipelineMerges

  // Time that goes by between two steps, and whether leases are reaped then.
  datatype Wait = Wait(d: nat, reap: bool)

  // What the outside decides while one assignment runs. `saves` answers the Store, write by write; `waits`
  // says how long each step takes.
  datatype Environment = Environment(choice: Option<Account>, dev: Worker, prepared: bool, judge: nat -> Verdict,
                                     improve: nat -> Worker, merged: bool, wired: bool, saves: nat -> bool,
                                     idle: Wait, waits: nat -> Wait)

  // An account is always available, nothing is put off, and the Store works.
  ghost predicate Smooth(e: Environment) {
    && e.choice.Some? && e.choice.value != ""
    && (forall i :: e.judge(i) != PutOff)
    && (forall i :: e.saves(i))
  }

  // The scheduler hands out named accounts.
  predicate Usable(e: Environment) {
    e.choice.Some? ==> e.choice.value != ""
  }

  const DEFAULT_ITERATIONS := 10

  // Who holds the merge lease now.
  function MergeHolder(cfg: Config, w: World): Option<Owner> {
    var s := MergeSlot(cfg.branch);
    if s in w.holds && w.now < w.holds[s].until then Some(w.holds[s].owner) else None
  }

  // No pipeline runs and nothing is held but issue leases.
  ghost predicate Idle(cfg: Config, w: World) {
    && w.phase.Running? && w.pipes == map[] && w.inflight == {} && w.reserved == map[]
    && MergeHolder(cfg, w).None?
  }

  // A serve-loop run: it leaves with nothing, and has a merge lease from the grant to the release only.
  predicate Tidy(p: Pipe) {
    && !p.force && p.preferred == "" && !p.pc.ResetSave? && !p.pc.Denied?
    && (p.pc.Leave? ==> p.account.None?)
    && (p.merge.Some? ==> p.pc.CallMerge? || p.pc.SaveFinal? || p.pc.DropIssue? || p.pc.Clean? || p.pc.DropMerge?)
  }

  // One pipeline of the serve loop runs, and everything that is held is its own.
  ghost predicate Solo(cfg: Config, w: World, pid: Pid) {
    && w.phase.Running? && pid in w.pipes && w.pipes.Keys == {pid}
    && var p := w.pipes[pid];
    && Tidy(p)
    && w.inflight == (if p.Admitted() then {p.key} else {})
    && w.reserved == (if p.account.Some? then map[p.account.value := p.key] else map[])
    && (MergeHolder(cfg, w).Some? ==> p.merge.Some? && MergeHolder(cfg, w).value == p.key)
  }

  ghost predicate SameElsewhere(s: map<Key, AState>, s': map<Key, AState>, k: Key) {
    forall j :: j != k ==> (j in s <==> j in s') && (j in s && j in s' ==> s'[j] == s[j])
  }

  // The merge lease after a step without an outcome: this run's, if it asked for it or has it.
  lemma PassMergeHolder(cfg: Config, w: World, pid: Pid)
    requires Solo(cfg, w, pid) && CanPass(w.pipes[pid])
    ensures var p := w.pipes[pid];
            var (h, granted) := PassHolds(cfg, w, p);
            MergeHolder(cfg, w.(holds := h)).Some? ==>
              MergeHolder(cfg, w.(holds := h)).value == p.key && PassPipe(cfg, p, h, granted).merge.Some?
  {
  }

  lemma LeaseGranted(cfg: Config, w: World, pid: Pid)
    requires Ours(w) && w.phase.Running? && pid in w.pipes
    ensures w.pipes[pid].pc.Leasing? ==> PassHolds(cfg, w, w.pipes[pid]).1
  {
    if w.pipes[pid].pc.Leasing? { LeaseRefusedExactly(cfg, w, pid); }
  }

  lemma PassLeaves(cfg: Config, w: World, pid: Pid, w': World)
    requires Solo(cfg, w, pid) && PipeShape(w.pipes[pid]) && PassStep(cfg, w, pid, w.pipes[pid]) == Some(w') && Quits(w, w.pipes[pid])
    ensures pid !in w'.pipes && Idle(cfg, w') && w'.store == w.store
  {
    assert w.pipes[pid].pc.Leave? && w'.holds == w.holds && w'.now == w.now;
    assert MergeHolder(cfg, w') == MergeHolder(cfg, w);
  }

  lemma PassStays(cfg: Config, w: World, pid: Pid, w': World)
    requires Ours(w) && Solo(cfg, w, pid) && PipeShape(w.pipes[pid]) && PassStep(cfg, w, pid, w.pipes[pid]) == Some(w')
    requires !Quits(w, w.pipes[pid])
    ensures pid in w'.pipes && Solo(cfg, w', pid) && w'.pipes[pid].key == w.pipes[pid].key && w'.store == w.store
  {
    var p := w.pipes[pid];
    LeaseGranted(cfg, w, pid);
    PassMergeHolder(cfg, w, pid);
    var h := PassHolds(cfg, w, p).0;
    assert w'.holds == h && MergeHolder(cfg, w') == MergeHolder(cfg, w.(holds := h));
    PassTidy(cfg, p, h, PassHolds(cfg, w, p).1);
  }

  lemma PassSolo(cfg: Config, w: World, pid: Pid, w': World)
    requires Ours(w) && Solo(cfg, w, pid) && PipeShape(w.pipes[pid]) && PassStep(cfg, w, pid, w.pipes[pid]) == Some(w')
    ensures pid in w'.pipes ==> Solo(cfg, w', pid) && w'.pipes[pid].key == w.pipes[pid].key
    ensures pid !in w'.pipes ==> Idle(cfg, w')
    ensures w'.store == w.store
  {
    if Quits(w, w.pipes[pid]) { PassLeaves(cfg, w, pid, w'); } else { PassStays(cfg, w, pid, w'); }
  }

  lemma PassTidy(cfg: Config, p: Pipe, h: Holds, granted: bool)
    requires Tidy(p) && PipeShape(p) && CanPass(p) && (p.pc.Leasing? ==> granted)
    ensures var p' := PassPipe(cfg, p, h, granted);
            Tidy(p') && p'.key == p.key && (p.pc.Leave? || p'.Admitted() == (p.Admitted() || p.pc.Enter?))
    ensures p.pc.Leave? ==> p.account.None? && p.merge.None?
    ensures PassPipe(cfg, p, h, granted).account == if p.pc.Denied? || p.pc.Unreserve? then None else p.account
  {
  }

  lemma ReserveSolo(cfg: Config, w: World, pid: Pid, choice: Option<Account>, w': World)
    requires Solo(cfg, w, pid) && PipeShape(w.pipes[pid]) && ReserveStep(w, pid, w.pipes[pid], choice) == Some(w')
    ensures pid in w'.pipes && Solo(cfg, w', pid) && w'.pipes[pid].key == w.pipes[pid].key && w'.store == w.store
  {
  }

  lemma SaveSolo(cfg: Config, w: World, pid: Pid, ok: bool, w': World)
    requires Solo(cfg, w, pid) && PipeShape(w.pipes[pid]) && SaveStep(w, pid, w.pipes[pid], ok) == Some(w')
    ensures pid in w'.pipes ==> Solo(cfg, w', pid) && w'.pipes[pid].key == w.pipes[pid].key
    ensures pid !in w'.pipes ==> Idle(cfg, w')
    ensures SameElsewhere(w.store, w'.store, w.pipes[pid].key)
  {
  }

  // What a step that touches nothing but the run's progress leaves as it was.
  predicate SameStanding(p: Pipe, p': Pipe) {
    Tidy(p') && p'.key == p.key && p'.Admitted() == p.Admitted() && p'.account == p.account && p'.merge == p.merge
  }

  lemma PutSolo(cfg: Config, w: World, pid: Pid, p: Pipe, w': World)
    requires Solo(cfg, w, pid) && SameStanding(w.pipes[pid], p)
    requires w'.pipes == w.pipes[pid := p] && w'.holds == w.holds && w'.now == w.now && w'.phase == w.phase
    requires w'.inflight == w.inflight && w'.reserved == w.reserved
    ensures Solo(cfg, w', pid)
  {
  }

  lemma WorkStanding(p: Pipe, r: Worker)
    requires Tidy(p) && PipeShape(p) && (p.pc == Develop || p.pc == Improve)
    ensures SameStanding(p, WorkPipe(p, r))
  {
  }

  lemma JudgeStanding(p: Pipe, v: Verdict)
    requires Tidy(p) && PipeShape(p) && p.pc == Verify
    ensures SameStanding(p, JudgePipe(p, v))
  {
  }

  lemma MergeStanding(p: Pipe, merged: bool)
    requires Tidy(p) && PipeShape(p) && p.pc == CallMerge
    ensures SameStanding(p, MergePipe(p, merged))
  {
  }

  lemma CleanStanding(p: Pipe)
    requires Tidy(p) && PipeShape(p) && p.pc == Clean
    ensures SameStanding(p, Go(p, AfterRun(p)))
  {
  }

  lemma OtherSolo(cfg: Config, w: World, pid: Pid, a: Action, w': World)
    requires Solo(cfg, w, pid) && PipeShape(w.pipes[pid]) && (a.Work? || a.Judge? || a.Merge? || a.Cleanup?)
    requires a.pid == pid && PipeStep(cfg, w, a) == Some(w')
    ensures pid in w'.pipes && Solo(cfg, w', pid) && w'.pipes[pid].key == w.pipes[pid].key && w'.store == w.store
  {
    var p := w.pipes[pid];
    match a {
      case Work(_, r, _) => WorkStanding(p, r);
      case Judge(_, v) => JudgeStanding(p, v);
      case Merge(_, merged) => MergeStanding(p, merged);
      case Cleanup(_, _) => CleanStanding(p);
    }
    PutSolo(cfg, w, pid, w'.pipes[pid], w');
  }

  lemma SoloStep(cfg: Config, w: World, pid: Pid, a: Action, w': World)
    requires Ours(w) && Solo(cfg, w, pid) && PipeShape(w.pipes[pid]) && PipeAction(a) && a.pid == pid
    requires PipeStep(cfg, w, a) == Some(w')
    ensures pid in w'.pipes ==> Solo(cfg, w', pid) && w'.pipes[pid].key == w.pipes[pid].key
    ensures pid !in w'.pipes ==> Idle(cfg, w')
    ensures SameElsewhere(w.store, w'.store, w.pipes[pid].key)
  {
    match a
    case Pass(_) => PassSolo(cfg, w, pid, w');
    case Reserve(_, choice) => ReserveSolo(cfg, w, pid, choice, w');
    case Save(_, ok) => SaveSolo(cfg, w, pid, ok, w');
    case _ => OtherSolo(cfg, w, pid, a, w');
  }

  lemma StepLeavesResume(cfg: Config, w: World, a: Action, w': World)
    requires PipeAction(a) && a.pid in w.pipes && PipeStep(cfg, w, a) == Some(w')
    ensures w'.resume == w.resume
  {
  }

  lemma {:induction false} RunSnoc(cfg: Config, w: World, acts: seq<Action>, a: Action)
    requires Run(cfg, w, acts).Some?
    ensures Run(cfg, w, acts + [a]) == Step(cfg, Run(cfg, w, acts).value, a)
    decreases |acts|
  {
    if acts == [] {
      assert [a][1..] == [] && acts + [a] == [a];
    } else {
      assert (acts + [a])[1..] == acts[1..] + [a];
      RunSnoc(cfg, Step(cfg, w, acts[0]).value, acts[1..], a);
    }
  }

  // On its own, a run is never refused the merge lease.
  lemma MergeGranted(cfg: Config, w: World, pid: Pid)
    requires Ours(w) && Solo(cfg, w, pid) && w.pipes[pid].pc.AskMerge? && cfg.branch != ""
    ensures var (h, granted) := PassHolds(cfg, w, w.pipes[pid]); granted && MergeSlot(cfg.branch) in h
  {
  }

  // The steps open to a run of the serve loop, and where each takes it: None when the run is over.
  predicate Enabled(p: Pipe, a: Action) {
    match a
    case Save(_, _) => Write(p).Some?
    case Pass(_) => CanPass(p)
    case Reserve(_, choice) => p.pc == Reserving && (choice.Some? ==> choice.value != "")
    case Work(_, _, _) => p.pc == Develop || p.pc == Improve
    case Judge(_, _) => p.pc == Verify
    case Merge(_, _) => p.pc == CallMerge
    case Cleanup(_, _) => p.pc == Clean
    case _ => false
  }

  function Goes(p: Pipe, a: Action): Option<Pc>
    requires Enabled(p, a)
  {
    match a
    case Save(_, ok) =>
      if p.pc.ResetSave? || (p.pc.ClaimSave? && !ok) then None
      else if p.pc.SaveFinal? && !ok then Some(AfterRun(p)) else Some(Write(p).value.1)
    case Pass(_) =>
      (match p.pc
       case ClaimLease => Some(Enter)
       case Enter => Some(Reserving)
       case Leasing => Some(SaveDeveloping)
       case AskMerge => Some(CallMerge)
       case DropIssue => Some(Clean)
       case DropMerge => Some(AfterMerge(p))
       case DropAccount => Some(Unreserve)
       case Unreserve => Some(Leave)
       case _ => None)
    case Reserve(_, choice) => Some(ReservePipe(p, choice).pc)
    case Work(_, r, _) => Some(WorkPipe(p, r).pc)
    case Judge(_, v) => Some(JudgePipe(p, v).pc)
    case Merge(_, m) => Some(MergePipe(p, m).pc)
    case Cleanup(_, _) => Some(AfterRun(p))
  }

  // What the step stores for the issue.
  function Stores(p: Pipe, a: Action, store: map<Key, AState>): map<Key, AState>
    requires Enabled(p, a)
  {
    if a.Save? && a.ok then store[p.key := Write(p).value.0] else store
  }

  // What the run does next: it is at `pc`, in iteration `i` of the improvement loop.
  function Choose(pid: Pid, e: Environment, pc: Pc, i: nat, max: nat): Action {
    match pc
    case ClaimSave => Save(pid, e.saves(0))
    case Reserving => Reserve(pid, e.choice)
    case SaveDeveloping => Save(pid, e.saves(1))
    case Develop => Work(pid, e.dev, e.prepared)
    case SaveQA => Save(pid, e.saves(2))
    case Verify => Judge(pid, if i > max then Broken else e.judge(i))
    case Improve => Work(pid, e.improve(i), e.prepared)
    case SaveMerging => Save(pid, e.saves(3))
    case CallMerge => Action.Merge(pid, e.merged)
    case SaveFinal(_) => Save(pid, e.saves(4))
    case SaveDeferred => Save(pid, e.saves(5))
    case Clean => Action.Cleanup(pid, e.wired)
    case _ => Pass(pid)
  }

  // How far the end is; the improvement loop takes two steps for each iteration that is left.
  function Rank(pc: Pc, i: nat, max: nat): int {
    match pc
    case ClaimSave => 21 + 2 * max
    case ClaimLease => 20 + 2 * max
    case Enter => 19 + 2 * max
    case Reserving => 18 + 2 * max
    case Leasing => 17 + 2 * max
    case SaveDeveloping => 16 + 2 * max
    case Develop => 15 + 2 * max
    case SaveQA => 14 + 2 * max
    case Verify => 13 + 2 * (max + 1 - i)
    case Improve => 12 + 2 * (max + 1 - i)
    case SaveMerging => 11
    case AskMerge => 10
    case CallMerge => 9
    case SaveFinal(_) => 8
    case DropIssue => 7
    case Clean => 6
    case SaveDeferred => 5
    case DropMerge => 4
    case DropAccount => 3
    case Unreserve => 2
    case _ => 1
  }

  predicate Ended(k: Key, store: map<Key, AState>) {
    k in store && store[k].Terminal()
  }

  // The run is over but for cleaning up.
  predicate PastFinal(pc: Pc) {
    pc.DropIssue? || pc.Clean? || pc.DropMerge? || pc.DropAccount? || pc.Unreserve? || pc.Leave?
  }

  // Being at `pc`, or at the end (None), allows the outcome that is promised.
  ghost predicate OnTrack(e: Environment, k: Key, at: Option<Pc>, i: nat, max: nat, store: map<Key, AState>) {
    match at
    case None => (k in store || !e.saves(0)) && (Smooth(e) ==> Ended(k, store))
    case Some(pc) =>
      && (pc != ClaimSave ==> k in store)
      && (pc.Improve? ==> i <= max)
      && (Smooth(e) ==> !pc.SaveDeferred? && (PastFinal(pc) ==> Ended(k, store)))
  }

  function NextIteration(pc: Pc, i: nat): nat {
    if pc == Improve then i + 1 else i
  }

  lemma StepOpen(pid: Pid, e: Environment, p: Pipe, i: nat, max: nat)
    requires PipeShape(p) && Tidy(p) && Usable(e)
    ensures var a := Choose(pid, e, p.pc, i, max); PipeAction(a) && a.pid == pid && Enabled(p, a)
  {
  }

  // Being at `pc` in iteration `i` is a step nearer to the end than `p` was.
  ghost predicate Nearer(p: Pipe, a: Action, i: nat, max: nat)
    requires Enabled(p, a)
  {
    var g := Goes(p, a);
    0 < Rank(p.pc, i, max) && (g.Some? ==> 0 < Rank(g.value, NextIteration(p.pc, i), max) < Rank(p.pc, i, max))
  }

  lemma PassNearer(pid: Pid, p: Pipe, i: nat, max: nat)
    requires PipeShape(p) && Tidy(p) && CanPass(p)
    ensures Nearer(p, Pass(pid), i, max)
  {
  }

  lemma ChoiceNearer(pid: Pid, e: Environment, p: Pipe, i: nat, max: nat)
    requires PipeShape(p) && Tidy(p) && 1 <= i <= max + 1 && (p.pc.Improve? ==> i <= max) && !CanPass(p)
    requires Enabled(p, Choose(pid, e, p.pc, i, max))
    ensures Nearer(p, Choose(pid, e, p.pc, i, max), i, max)
  {
  }

  /** Whatever the ceiling, every step brings the end nearer ... */
  lemma StepNearer(pid: Pid, e: Environment, p: Pipe, i: nat, max: nat)
    requires PipeShape(p) && Tidy(p) && 1 <= i <= max + 1 && (p.pc.Improve? ==> i <= max)
    requires Enabled(p, Choose(pid, e, p.pc, i, max))
    ensures Nearer(p, Choose(pid, e, p.pc, i, max), i, max)
  {
    if CanPass(p) { PassNearer(pid, p, i, max); } else { ChoiceNearer(pid, e, p, i, max); }
  }

  // The step keeps what the promised outcome needs; a record appears only by the claim.
  ghost predicate KeepsTrack(e: Environment, p: Pipe, a: Action, i: nat, max: nat, store: map<Key, AState>)
    requires Enabled(p, a)
  {
    OnTrack(e, p.key, Goes(p, a), NextIteration(p.pc, i), max, Stores(p, a, store)) &&
    (p.key in Stores(p, a, store) <==> p.key in store || (p.pc == ClaimSave && e.saves(0)))
  }

  lemma PassOnTrack(pid: Pid, e: Environment, p: Pipe, i: nat, max: nat, store: map<Key, AState>)
    requires PipeShape(p) && Tidy(p) && OnTrack(e, p.key, Some(p.pc), i, max, store) && CanPass(p)
    ensures KeepsTrack(e, p, Pass(pid), i, max, store)
  {
  }

  lemma ChoiceOnTrack(pid: Pid, e: Environment, p: Pipe, i: nat, max: nat, store: map<Key, AState>)
    requires PipeShape(p) && Tidy(p) && Usable(e) && 1 <= i <= max + 1 && OnTrack(e, p.key, Some(p.pc), i, max, store)
    requires Enabled(p, Choose(pid, e, p.pc, i, max)) && !CanPass(p)
    ensures KeepsTrack(e, p, Choose(pid, e, p.pc, i, max), i, max, store)
  {
  }

  /** ... and keeps the run on track to it. */
  lemma StepOnTrack(pid: Pid, e: Environment, p: Pipe, i: nat, max: nat, store: map<Key, AState>)
    requires PipeShape(p) && Tidy(p) && Usable(e) && 1 <= i <= max + 1 && OnTrack(e, p.key, Some(p.pc), i, max, store)
    requires Enabled(p, Choose(pid, e, p.pc, i, max))
    ensures KeepsTrack(e, p, Choose(pid, e, p.pc, i, max), i, max, store)
  {
    if CanPass(p) { PassOnTrack(pid, e, p, i, max, store); } else { ChoiceOnTrack(pid, e, p, i, max, store); }
  }

  // -- how the run ends, and what it asks of the worker and the verifier ---------------------------

  // The verdicts before the `i`th all told it to go on.
  predicate WentOnTo(e: Environment, i: nat) {
    forall j :: 1 <= j < i ==> e.judge(j) == GoOn
  }

  // What the last worker call without an error said, before the `i`th verdict.
  predicate LastOk(e: Environment, i: nat) {
    if i <= 1 then e.dev.Returned? && e.dev.ok
    else if e.improve(i - 1).Returned? then e.improve(i - 1).ok
    else LastOk(e, i - 1)
  }

  // Within the ceiling, the first verdict that does not say to go on is that it passed, and the worker said ok.
  ghost predicate Accepted(e: Environment, max: nat) {
    exists n :: 1 <= n <= max && WentOnTo(e, n) && e.judge(n) == Passed && LastOk(e, n)
  }

  // Within the ceiling, the first verdict that does not say to go on puts the issue off.
  ghost predicate PutsOff(e: Environment, max: nat) {
    exists n :: 1 <= n <= max && WentOnTo(e, n) && e.judge(n) == PutOff
  }

  ghost function Outcome(e: Environment, max: nat): AState {
    if e.choice.None? || PutsOff(e, max) then Claimed
    else if Accepted(e, max) && e.merged then Done
    else Failed
  }

  function CallOf(a: Action): seq<Action> {
    if a.Reserve? || a.Work? || a.Judge? || a.Merge? || a.Cleanup? then [a] else []
  }

  // The calls of a run to the scheduler, the worker, the verifier, the merge and the clean-up, in their order.
  function Calls(acts: seq<Action>): seq<Action> {
    if acts == [] then [] else Calls(acts[..|acts| - 1]) + CallOf(acts[|acts| - 1])
  }

  // The calls up to the `i`th verification: an account, development, and an improvement after every verdict before it.
  function Script(pid: Pid, e: Environment, i: nat): seq<Action> {
    if i <= 1 then [Reserve(pid, e.choice), Work(pid, e.dev, e.prepared)]
    else Script(pid, e, i - 1) + [Judge(pid, e.judge(i - 1)), Work(pid, e.improve(i - 1), e.prepared)]
  }

  // Past the ceiling there is no verification.
  function VerdictAt(e: Environment, n: nat, max: nat): Verdict {
    if n > max then Broken else e.judge(n)
  }

  // The calls after the verdict.
  function Closing(pid: Pid, e: Environment, merge: bool, clean: bool): seq<Action> {
    (if merge then [Action.Merge(pid, e.merged)] else []) + if clean then [Action.Cleanup(pid, e.wired)] else []
  }

  // The run went on exactly as long as it was told to.
  ghost predicate Judged(pid: Pid, e: Environment, max: nat, calls: seq<Action>, merge: bool, clean: bool) {
    exists n :: 1 <= n <= max + 1 && WentOnTo(e, n) && VerdictAt(e, n, max) != GoOn &&
                calls == Script(pid, e, n) + [Judge(pid, VerdictAt(e, n, max))] + Closing(pid, e, merge, clean)
  }

  // The calls of a run that is over: without an account nothing else; with one there is a merge exactly when the
  // work was accepted, and a clean-up exactly when the issue is finished.
  ghost predicate Concluded(pid: Pid, e: Environment, max: nat, calls: seq<Action>) {
    if e.choice.None? then calls == [Reserve(pid, e.choice)]
    else Judged(pid, e, max, calls, Accepted(e, max), Outcome(e, max).Terminal())
  }

  predicate Shows(k: Key, store: map<Key, AState>, s: AState) {
    k in store && store[k] == s
  }

  // The Store shows the phase that the run is in.
  predicate ShowsPhase(k: Key, pc: Pc, store: map<Key, AState>) {
    && (pc.ClaimLease? ==> Shows(k, store, Claimed))
    && (pc.Develop? || pc.SaveQA? ==> Shows(k, store, Developing))
    && (pc.Verify? || pc.Improve? || pc.SaveMerging? ==> Shows(k, store, QA))
    && (pc.AskMerge? || pc.CallMerge? ==> Shows(k, store, Merging))
  }

  // What is known at `at`, with `lastOK` as the run has it and the calls it made, when the Store works.
  ghost predicate OnCourse(pid: Pid, e: Environment, k: Key, at: Option<Pc>, lastOK: bool, i: nat, max: nat,
                           store: map<Key, AState>, calls: seq<Action>)
  {
    match at
    case None => Shows(k, store, Outcome(e, max)) && Concluded(pid, e, max, calls)
    case Some(pc) =>
      ShowsPhase(k, pc, store) &&
      if pc.ClaimSave? || pc.ClaimLease? || pc.Enter? || pc.Reserving? then i == 1 && calls == []
      else if pc.Leasing? || pc.SaveDeveloping? || pc.Develop? then i == 1 && calls == [Reserve(pid, e.choice)] && e.choice.Some?
      else if pc.SaveQA? || pc.Verify? || pc.Improve? then e.choice.Some? && Looping(pid, e, pc, lastOK, i, max, calls)
      else if pc.SaveMerging? || pc.AskMerge? || pc.CallMerge? then
        e.choice.Some? && Accepted(e, max) && !PutsOff(e, max) && Judged(pid, e, max, calls, false, false)
      else if pc.SaveFinal? || pc.DropIssue? || pc.Clean? then
        && e.choice.Some? && Outcome(e, max).Terminal() && Judged(pid, e, max, calls, Accepted(e, max), false)
        && if pc.SaveFinal? then pc.state == Outcome(e, max) else Shows(k, store, Outcome(e, max))
      else if pc.SaveDeferred? then Outcome(e, max) == Claimed && Concluded(pid, e, max, calls)
      else PastFinal(pc) && Shows(k, store, Outcome(e, max)) && Concluded(pid, e, max, calls)
  }

  // In the improvement loop.
  ghost predicate Looping(pid: Pid, e: Environment, pc: Pc, lastOK: bool, i: nat, max: nat, calls: seq<Action>) {
    && lastOK == LastOk(e, i)
    && if pc.Improve? then i <= max && WentOnTo(e, i + 1) && calls == Script(pid, e, i) + [Judge(pid, e.judge(i))]
       else WentOnTo(e, i) && calls == Script(pid, e, i) && (pc.SaveQA? ==> i == 1)
  }

  // Every write works.
  ghost predicate Steady(e: Environment) {
    forall i :: e.saves(i)
  }

  // What the run knows of its worker after the step.
  function Learns(p: Pipe, a: Action): bool {
    if a.Work? then (if a.result.Returned? then a.result.ok else p.pc != Develop && p.lastOK) else p.lastOK
  }

  // There is only one first verdict that does not say to go on.
  lemma OneConclusion(e: Environment, i: nat, n: nat)
    requires 1 <= i && 1 <= n && WentOnTo(e, i) && WentOnTo(e, n) && e.judge(i) != GoOn && e.judge(n) != GoOn
    ensures i == n
  {
  }

  // At the `i`th verdict.
  lemma JudgeOnCourse(pid: Pid, e: Environment, p: Pipe, i: nat, max: nat, store: map<Key, AState>, calls: seq<Action>)
    requires p.pc.Verify? && 1 <= i <= max + 1
    requires OnCourse(pid, e, p.key, Some(p.pc), p.lastOK, i, max, store, calls)
    ensures var a := Judge(pid, VerdictAt(e, i, max));
            OnCourse(pid, e, p.key, Goes(p, a), p.lastOK, i, max, store, calls + [a])
  {
    var v := VerdictAt(e, i, max);
    if v != GoOn {
      assert calls + [Judge(pid, v)] == Script(pid, e, i) + [Judge(pid, v)] + Closing(pid, e, false, false);
      assert Judged(pid, e, max, calls + [Judge(pid, v)], false, false);
      forall n: nat | 1 <= n <= max && WentOnTo(e, n) && e.judge(n) != GoOn ensures i <= max && n == i {
        if i <= max { OneConclusion(e, i, n); }
      }
    }
  }

  lemma PassOnCourse(pid: Pid, e: Environment, p: Pipe, i: nat, max: nat, store: map<Key, AState>, calls: seq<Action>)
    requires PipeShape(p) && Tidy(p) && CanPass(p)
    requires OnCourse(pid, e, p.key, Some(p.pc), p.lastOK, i, max, store, calls)
    ensures OnCourse(pid, e, p.key, Goes(p, Pass(pid)), p.lastOK, i, max, store, calls)
  {
  }

  lemma SaveOnCourse(pid: Pid, e: Environment, p: Pipe, i: nat, max: nat, store: map<Key, AState>, calls: seq<Action>)
    requires PipeShape(p) && Tidy(p) && Write(p).Some? && !p.pc.ResetSave?
    requires OnCourse(pid, e, p.key, Some(p.pc), p.lastOK, i, max, store, calls)
    ensures var a := Save(pid, true);
            OnCourse(pid, e, p.key, Goes(p, a), p.lastOK, i, max, Stores(p, a, store), calls)
  {
  }

  lemma WorkOnCourse(pid: Pid, e: Environment, p: Pipe, i: nat, max: nat, store: map<Key, AState>, calls: seq<Action>)
    requires 1 <= i <= max + 1 && (p.pc.Develop? || p.pc.Improve?)
    requires OnCourse(pid, e, p.key, Some(p.pc), p.lastOK, i, max, store, calls)
    ensures var a := Work(pid, if p.pc.Develop? then e.dev else e.improve(i), e.prepared);
            OnCourse(pid, e, p.key, Goes(p, a), Learns(p, a), NextIteration(p.pc, i), max, store, calls + [a])
  {
    if p.pc.Improve? {
      var (j, w) := (Judge(pid, e.judge(i)), Work(pid, e.improve(i), e.prepared));
      assert Script(pid, e, i) + [j] + [w] == Script(pid, e, i) + [j, w] == Script(pid, e, i + 1);
    }
  }

  // One more call after the verdict.
  lemma JudgedMore(pid: Pid, e: Environment, max: nat, calls: seq<Action>, merge: bool, a: Action)
    requires (Judged(pid, e, max, calls, false, false) && merge && a == Action.Merge(pid, e.merged)) ||
             (Judged(pid, e, max, calls, merge, false) && a == Action.Cleanup(pid, e.wired))
    ensures Judged(pid, e, max, calls + [a], merge, a.Cleanup?)
  {
    var before := if a.Merge? then false else merge;
    var n :| 1 <= n <= max + 1 && WentOnTo(e, n) && VerdictAt(e, n, max) != GoOn &&
             calls == Script(pid, e, n) + [Judge(pid, VerdictAt(e, n, max))] + Closing(pid, e, before, false);
    assert Closing(pid, e, before, false) + [a] == Closing(pid, e, merge, a.Cleanup?);
    assert calls + [a] == Script(pid, e, n) + [Judge(pid, VerdictAt(e, n, max))] + Closing(pid, e, merge, a.Cleanup?);
  }

  lemma OtherOnCourse(pid: Pid, e: Environment, p: Pipe, i: nat, max: nat, store: map<Key, AState>, calls: seq<Action>)
    requires PipeShape(p) && Tidy(p) && !CanPass(p) && (p.pc.Reserving? || p.pc.CallMerge? || p.pc.Clean?)
    requires OnCourse(pid, e, p.key, Some(p.pc), p.lastOK, i, max, store, calls)
    requires Enabled(p, Choose(pid, e, p.pc, i, max))
    ensures var a := Choose(pid, e, p.pc, i, max);
            OnCourse(pid, e, p.key, Goes(p, a), p.lastOK, i, max, store, calls + [a])
  {
    var a := Choose(pid, e, p.pc, i, max);
    if p.pc.CallMerge? || p.pc.Clean? { JudgedMore(pid, e, max, calls, Accepted(e, max), a); }
  }

  /** Every step keeps the run on course to the outcome that the verdicts, the worker and the merge call for. */
  lemma StepOnCourse(pid: Pid, e: Environment, p: Pipe, i: nat, max: nat, store: map<Key, AState>, calls: seq<Action>)
    requires Steady(e) && PipeShape(p) && Tidy(p) && 1 <= i <= max + 1
    requires OnCourse(pid, e, p.key, Some(p.pc), p.lastOK, i, max, store, calls)
    requires Enabled(p, Choose(pid, e, p.pc, i, max))
    ensures var a := Choose(pid, e, p.pc, i, max);
            OnCourse(pid, e, p.key, Goes(p, a), Learns(p, a), NextIteration(p.pc, i), max, Stores(p, a, store), calls + CallOf(a))
  {
    assert calls + [] == calls;
    if CanPass(p) { PassOnCourse(pid, e, p, i, max, store, calls); }
    else if p.pc.Verify? { JudgeOnCourse(pid, e, p, i, max, store, calls); }
    else if p.pc.Develop? || p.pc.Improve? { WorkOnCourse(pid, e, p, i, max, store, calls); }
    else if Write(p).Some? { SaveOnCourse(pid, e, p, i, max, store, calls); }
    else { OtherOnCourse(pid, e, p, i, max, store, calls); }
  }

  function Where(pid: Pid, pipes: map<Pid, Pipe>): Option<Pc> {
    if pid in pipes then Some(pipes[pid].pc) else None
  }

  function Distance(pid: Pid, pipes: map<Pid, Pipe>, i: nat, max: nat): int {
    if pid in pipes then Rank(pipes[pid].pc, i, max) else 0
  }

  // The run is on track, and on course if the Store works, having made these calls.
  ghost predicate Heads(pid: Pid, e: Environment, k: Key, i: nat, max: nat, pipes: map<Pid, Pipe>, store: map<Key, AState>,
                        calls: seq<Action>)
  {
    && 1 <= i <= max + 1 && OnTrack(e, k, Where(pid, pipes), i, max, store)
    && (Steady(e) ==> OnCourse(pid, e, k, Where(pid, pipes), pid in pipes && pipes[pid].lastOK, i, max, store, calls))
  }

  // The calls made between two points of a run.
  ghost predicate Made(before: seq<Action>, after: seq<Action>, made: seq<Action>) {
    after == before + made
  }

  lemma MadeMore(t0: seq<Action>, t1: seq<Action>, t2: seq<Action>, made: seq<Action>, more: seq<Action>)
    requires Made(Calls(t0), Calls(t1), made) && Made(Calls(t1), Calls(t2), more)
    ensures Made(Calls(t0), Calls(t2), made + more)
  {
  }

  // Only the record of `k` may have changed, and it appeared only if it may.
  ghost predicate Moved(was: map<Key, AState>, store: map<Key, AState>, k: Key, may: bool) {
    SameElsewhere(was, store, k) && (k in was ==> k in store) && (k in store ==> k in was || may)
  }

  lemma MovedOn(was: map<Key, AState>, mid: map<Key, AState>, store: map<Key, AState>, k: Key, may: bool)
    requires Moved(was, mid, k, may) && Moved(mid, store, k, may)
    ensures Moved(was, store, k, may)
  {
  }

  lemma HeadsFirst(pid: Pid, e: Environment, k: Key, max: nat, pipes: map<Pid, Pipe>, store: map<Key, AState>)
    requires pid in pipes && (pipes[pid].pc == ClaimSave || (pipes[pid].pc == Enter && k in store))
    ensures Heads(pid, e, k, 1, max, pipes, store, [])
  {
  }

  // Where the chosen step takes the run.
  lemma StepHeads(pid: Pid, e: Environment, i: nat, max: nat, pipes: map<Pid, Pipe>, pipes': map<Pid, Pipe>,
                  store: map<Key, AState>, calls: seq<Action>)
    requires pid in pipes && PipeShape(pipes[pid]) && Tidy(pipes[pid]) && Usable(e)
    requires Heads(pid, e, pipes[pid].key, i, max, pipes, store, calls)
    requires var p, a := pipes[pid], Choose(pid, e, pipes[pid].pc, i, max);
             && Enabled(p, a) && (pid in pipes' <==> Goes(p, a).Some?)
             && (pid in pipes' ==> pipes'[pid].pc == Goes(p, a).value && pipes'[pid].lastOK == Learns(p, a))
    ensures var p, a, next := pipes[pid], Choose(pid, e, pipes[pid].pc, i, max), NextIteration(pipes[pid].pc, i);
            && Heads(pid, e, p.key, next, max, pipes', Stores(p, a, store), calls + CallOf(a))
            && 0 <= Distance(pid, pipes', next, max) < Distance(pid, pipes, i, max)
            && Moved(store, Stores(p, a, store), p.key, e.saves(0))
  {
    var p := pipes[pid];
    StepNearer(pid, e, p, i, max);
    StepOnTrack(pid, e, p, i, max, store);
    if Steady(e) { StepOnCourse(pid, e, p, i, max, store, calls); }
  }

  lemma HeadsLast(pid: Pid, e: Environment, k: Key, i: nat, max: nat, pipes: map<Pid, Pipe>, store: map<Key, AState>,
                  calls: seq<Action>)
    requires pid !in pipes && Heads(pid, e, k, i, max, pipes, store, calls)
    ensures k in store || !e.saves(0)
    ensures Steady(e) ==> k in store && store[k] == Outcome(e, max) && Concluded(pid, e, max, calls)
  {
  }

  lemma StepLearns(cfg: Config, w: World, pid: Pid, a: Action, w': World)
    requires pid in w.pipes && PipeAction(a) && a.pid == pid && PipeStep(cfg, w, a) == Some(w')
    ensures pid in w'.pipes ==> w'.pipes[pid].lastOK == Learns(w.pipes[pid], a)
  {
    if a.Pass? { PassLearns(cfg, w.pipes[pid], PassHolds(cfg, w, w.pipes[pid]).0, PassHolds(cfg, w, w.pipes[pid]).1); }
  }

  lemma PassLearns(cfg: Config, p: Pipe, h: Holds, granted: bool)
    ensures PassPipe(cfg, p, h, granted).lastOK == p.lastOK
  {
  }

  lemma CallsSnoc(acts: seq<Action>, a: Action)
    ensures Calls(acts + [a]) == Calls(acts) + CallOf(a)
  {
    assert (acts + [a])[..|acts|] == acts;
  }

  // Time and reaping disturb neither a run on its own nor an idle world.
  lemma WaitKeeps(cfg: Config, w: World, a: Action, w': World)
    requires (a.Tick? || a.ReapNow?) && Step(cfg, w, a) == Some(w')
    ensures w' == w.(now := w'.now, holds := w'.holds)
    ensures Idle(cfg, w) ==> Idle(cfg, w')
    ensures forall pid :: Solo(cfg, w, pid) ==> Solo(cfg, w', pid)
  {
    assert MergeHolder(cfg, w').Some? ==> MergeHolder(cfg, w') == MergeHolder(cfg, w);
  }

  lemma EnabledSteps(cfg: Config, w: World, pid: Pid, a: Action)
    requires Solo(cfg, w, pid) && PipeShape(w.pipes[pid]) && PipeAction(a) && a.pid == pid && Enabled(w.pipes[pid], a)
    ensures PipeStep(cfg, w, a).Some? && Step(cfg, w, a) == PipeStep(cfg, w, a)
  {
  }

  lemma PassGoes(cfg: Config, w: World, pid: Pid, w': World)
    requires Ours(w) && Solo(cfg, w, pid) && CanPass(w.pipes[pid]) && cfg.branch != ""
    requires PassStep(cfg, w, pid, w.pipes[pid]) == Some(w')
    ensures var g := Goes(w.pipes[pid], Pass(pid));
            (pid in w'.pipes <==> g.Some?) && (g.Some? ==> w'.pipes[pid].pc == g.value) && w'.store == w.store
  {
    var p := w.pipes[pid];
    LeaseGranted(cfg, w, pid);
    if p.pc.AskMerge? { MergeGranted(cfg, w, pid); }
  }

  lemma StepGoes(cfg: Config, w: World, pid: Pid, a: Action, w': World)
    requires Ours(w) && Solo(cfg, w, pid) && PipeAction(a) && a.pid == pid && cfg.branch != ""
    requires Enabled(w.pipes[pid], a) && PipeStep(cfg, w, a) == Some(w')
    ensures var p := w.pipes[pid];
            && w'.store == Stores(p, a, w.store) && (pid in w'.pipes <==> Goes(p, a).Some?)
            && (pid in w'.pipes ==> w'.pipes[pid].pc == Goes(p, a).value)
  {
    if a.Pass? { PassGoes(cfg, w, pid, w'); }
  }

  // A run that joins an idle world is the only one.
  lemma SpawnSolo(cfg: Config, w: World, a: Action, w': World)
    requires Idle(cfg, w) && (a.Resume? || a.ServeLoad?) && SpawnStep(w, a) == Some(w')
    ensures w'.store == w.store
    ensures Spawned(w, a).None? ==> Idle(cfg, w')
    ensures Spawned(w, a).Some? ==> Solo(cfg, w', a.pid) && w'.pipes[a.pid] == Spawned(w, a).value && PipeShape(w'.pipes[a.pid])
  {
  }

  // The first listed issue that has no record.
  function FirstNew(queue: seq<Key>, store: map<Key, AState>): (r: Option<Key>)
    ensures r.None? <==> forall k :: k in queue ==> k in store
    ensures r.Some? ==> r.value in queue && r.value !in store
    decreases |queue|
  {
    if queue == [] then None else if queue[0] !in store then Some(queue[0]) else FirstNew(queue[1..], store)
  }

  lemma {:induction false} FirstNewSkips(queue: seq<Key>, store: map<Key, AState>, i: nat)
    requires i <= |queue| && forall k :: k in queue[..i] ==> k in store
    ensures FirstNew(queue, store) == FirstNew(queue[i..], store)
    decreases i
  {
    if i == 0 {
      assert queue[0..] == queue;
    } else {
      assert queue[0] in queue[..i];
      assert queue[1..][..i - 1] == queue[..i][1..];
      FirstNewSkips(queue[1..], store, i - 1);
      assert queue[1..][i - 1..] == queue[i..];
    }
  }

  // The records of `was` are as they were.
  predicate Extends(was: map<Key, AState>, store: map<Key, AState>) {
    forall k :: k in was ==> k in store && store[k] == was[k]
  }

  function Waiting(queue: seq<Key>, store: map<Key, AState>): set<Key> {
    set k | k in queue && k !in store
  }

  // With no pipeline there is nobody to hold the merge lease.
  lemma RecoveredIdle(cfg: Config, acts: seq<Action>, w: World)
    requires Run(cfg, START, acts) == Some(w) && w.phase.Running?
    requires w.pipes == map[] && w.inflight == {} && w.reserved == map[]
    ensures Idle(cfg, w)
  {
    if MergeHolder(cfg, w).Some? {
      MergeLeaseIsUsed(cfg, acts, w, MergeHolder(cfg, w).value);
    }
  }

  // What one pass does to the store.
  ghost predicate PassEffect(queue: seq<Key>, e: Environment, max: nat, was: map<Key, AState>, store: map<Key, AState>) {
    match FirstNew(queue, was)
    case None => store == was
    case Some(k) =>
      SameElsewhere(was, store, k) && (k in store <==> e.saves(0)) && (Steady(e) ==> k in store && store[k] == Outcome(e, max))
  }

  lemma PassTakesOne(queue: seq<Key>, e: Environment, max: nat, was: map<Key, AState>, store: map<Key, AState>)
    requires PassEffect(queue, e, max, was, store)
    ensures Extends(was, store) && forall k :: k in store ==> k in was || k in queue
    ensures |Waiting(queue, store)| == |Waiting(queue, was)| - (if FirstNew(queue, was).Some? && e.saves(0) then 1 else 0)
    ensures Smooth(e) ==> forall k :: k in store ==> k in was || Ended(k, store)
    ensures FirstNew(queue, was).None? ==> Waiting(queue, store) == {}
  {
    match FirstNew(queue, was)
    case None =>
    case Some(k) =>
      if e.saves(0) {
        assert Waiting(queue, was) == Waiting(queue, store) + {k} && k !in Waiting(queue, store);
      } else {
        assert Waiting(queue, was) == Waiting(queue, store);
      }
  }

  // Recover's list of what it found, in the order the Store gave it.
  function FoundList(order: seq<Key>, store: map<Key, AState>): (r: seq<(Key, AState)>)
    requires forall k :: k in order ==> k in store
    ensures |r| == |order| && forall i :: 0 <= i < |order| ==> r[i] == (order[i], store[order[i]])
  {
    seq(|order|, i requires 0 <= i < |order| => (order[i], store[order[i]]))
  }

  // The first `i` of the listed assignments were driven again, or skipped because they were finished.
  ghost predicate Redriven(order: seq<Key>, was: map<Key, AState>, store: map<Key, AState>, i: nat, active: bool, smooth: bool) {
    && store.Keys == was.Keys && (forall k :: k in order ==> k in store)
    && (forall k :: k in was && was[k].Terminal() ==> store[k] == was[k])
    && (forall j :: i <= j < |order| ==> store[order[j]] == was[order[j]])
    && (!active ==> store == was)
    && (active && smooth ==> forall j :: 0 <= j < i && j < |order| ==> Ended(order[j], store))
  }

  lemma RedrivenStep(order: seq<Key>, was: map<Key, AState>, store: map<Key, AState>, store': map<Key, AState>, i: nat,
                     active: bool, smooth: bool)
    requires Lists(order, was) && i < |order| && Redriven(order, was, store, i, active, smooth)
    requires SameElsewhere(store, store', order[i]) && order[i] in store' && order[i] in was
    requires was[order[i]].Terminal() || !active ==> store' == store
    requires active && smooth ==> Ended(order[i], store')
    ensures Redriven(order, was, store', i + 1, active, smooth)
  {
    assert order[i] in store;
    assert forall k :: k in store' <==> k in store;
    forall j | 0 <= j < |order| && j != i ensures order[j] != order[i] && store'[order[j]] == store[order[j]] {
      assert order[j] in store;
    }
  }

  lemma RedrivenAll(order: seq<Key>, was: map<Key, AState>, store: map<Key, AState>, active: bool, smooth: bool)
    requires Lists(order, was) && Redriven(order, was, store, |order|, active, smooth) && active && smooth
    ensures forall k :: k in store ==> Ended(k, store)
  {
    forall k | k in store ensures Ended(k, store) { assert k in order; }
  }

  function InState(store: map<Key, AState>, s: AState): set<Key> {
    set k | k in store && store[k] == s
  }

  lemma OneMore(store: map<Key, AState>, s: AState, seen: set<Key>, k: Key)
    requires k in store && k !in seen
    ensures |InState(store, s) * (seen + {k})| == |InState(store, s) * seen| + (if store[k] == s then 1 else 0)
  {
    assert InState(store, s) * (seen + {k}) == InState(store, s) * seen + (if store[k] == s then {k} else {});
  }

  // The counts after all records but those in `todo`.
  ghost predicate Tallied(store: map<Key, AState>, todo: set<Key>, done: nat, failed: nat, deferred: nat) {
    var seen := store.Keys - todo;
    done == |InState(store, Done) * seen| && failed == |InState(store, Failed) * seen| && done + failed + deferred == |seen|
  }

  lemma TalliedStep(store: map<Key, AState>, todo: set<Key>, k: Key, done: nat, failed: nat, deferred: nat)
    requires k in todo && k in store && Tallied(store, todo, done, failed, deferred)
    ensures var s := store[k];
            Tallied(store, todo - {k}, if s == Done then done + 1 else done, if s == Failed then failed + 1 else failed,
                    if s == Done || s == Failed then deferred else deferred + 1)
  {
    var seen := store.Keys - todo;
    assert store.Keys - (todo - {k}) == seen + {k};
    OneMore(store, Done, seen, k);
    OneMore(store, Failed, seen, k);
  }

  lemma TalliedAll(store: map<Key, AState>, done: nat, failed: nat, deferred: nat)
    requires Tallied(store, {}, done, failed, deferred)
    ensures done == |InState(store, Done)| && failed == |InState(store, Failed)| && done + failed + deferred == |store|
  {
    assert store.Keys - {} == store.Keys;
    assert InState(store, Done) * store.Keys == InState(store, Done);
    assert InState(store, Failed) * store.Keys == InState(store, Failed);
  }

  lemma EndedSplit(store: map<Key, AState>)
    requires forall k :: k in store ==> Ended(k, store)
    ensures |InState(store, Done)| + |InState(store, Failed)| == |store.Keys|
  {
    assert InState(store, Done) + InState(store, Failed) == store.Keys;
    assert InState(store, Done) !! InState(store, Failed);
  }

  // What the drain promises for a store: every listed issue is there, and finished.
  ghost predicate AllEnded(queue: seq<Key>, store: map<Key, AState>) {
    forall k :: k in queue ==> Ended(k, store)
  }

  class Orchestrator {
    const cfg: Config
    const maxIterations: nat
    var world: World
    ghost var trace: seq<Action>

    // The world was reached by a run from the start. The branch defaults to "development", and the
    // improvement ceiling to ten.
    ghost predicate Valid()
      reads this
    {
      Run(cfg, START, trace) == Some(world) && cfg.branch != "" && maxIterations > 0
    }

    constructor (cfg: Config, iterations: int)
      requires cfg.branch != ""
      ensures Valid() && this.cfg == cfg && world == START
      ensures maxIterations == if iterations <= 0 then 10 else iterations
    {
      this.cfg, world, trace := cfg, START, [];
      maxIterations := if iterations <= 0 then DEFAULT_ITERATIONS else iterations;
    }

    method Do(a: Action)
      requires Valid() && Step(cfg, world, a).Some?
      modifies this
      ensures Valid() && Some(world) == old(Step(cfg, world, a)) && trace == old(trace) + [a]
      ensures old(Ours(world)) && Ours(world)
    {
      StartIsOurs();
      RunKeeps(cfg, START, trace, world);
      RunSnoc(cfg, START, trace, a);
      world := Step(cfg, world, a).value;
      trace := trace + [a];
      RunKeeps(cfg, START, trace, world);
    }

    function Pc(pid: Pid): Pc
      reads this
      requires pid in world.pipes
    {
      world.pipes[pid].pc
    }

    // The one running pipeline is that of issue `k`.
    ghost predicate Runs(pid: Pid, k: Key)
      reads this
    {
      Valid() && Solo(cfg, world, pid) && world.pipes[pid].key == k && PipeShape(world.pipes[pid])
    }

    // ... and has come to `pc`.
    ghost predicate At(pid: Pid, k: Key, pc: Pc)
      reads this
    {
      Runs(pid, k) && Pc(pid) == pc
    }

    // No pipeline is left.
    ghost predicate Gone()
      reads this
    {
      Valid() && Idle(cfg, world)
    }

    // Time goes by.
    method Pause(wait: Wait)
      requires Valid()
      modifies this
      ensures Valid() && world == old(world).(now := old(world).now + wait.d, holds := world.holds)
      ensures old(Gone()) ==> Gone()
      ensures forall pid, k :: old(Runs(pid, k)) ==> Runs(pid, k)
      ensures Calls(trace) == old(Calls(trace))
    {
      ghost var w := world;
      CallsSnoc(trace, Tick(wait.d));
      Do(Tick(wait.d));
      WaitKeeps(cfg, w, Tick(wait.d), world);
      if wait.reap {
        ghost var w1 := world;
        CallsSnoc(trace, ReapNow);
        Do(ReapNow);
        WaitKeeps(cfg, w1, ReapNow, world);
      }
    }

    // A step of the one running pipeline.
    method Take(pid: Pid, k: Key, a: Action)
      requires Runs(pid, k) && PipeAction(a) && a.pid == pid && Enabled(world.pipes[pid], a)
      modifies this
      ensures pid in world.pipes <==> old(Goes(world.pipes[pid], a)).Some?
      ensures pid in world.pipes ==> At(pid, k, old(Goes(world.pipes[pid], a)).value)
      ensures pid !in world.pipes ==> Gone()
      ensures world.store == old(Stores(world.pipes[pid], a, world.store)) && world.resume == old(world.resume)
      ensures pid in world.pipes ==> world.pipes[pid].lastOK == old(Learns(world.pipes[pid], a))
      ensures Made(old(Calls(trace)), Calls(trace), CallOf(a))
    {
      ghost var w := world;
      CallsSnoc(trace, a);
      EnabledSteps(cfg, w, pid, a);
      Do(a);
      SoloStep(cfg, w, pid, a, world);
      StepLeavesResume(cfg, w, a, world);
      StepGoes(cfg, w, pid, a, world);
      StepLearns(cfg, w, pid, a, world);
    }

    // Time goes by, and the one running pipeline takes its next step; `next` is the iteration it is in then.
    method Advance(pid: Pid, k: Key, e: Environment, wait: Wait, i: nat, ghost calls: seq<Action>)
      returns (next: nat, ghost made: seq<Action>)
      requires Runs(pid, k) && Usable(e) && Heads(pid, e, k, i, maxIterations, world.pipes, world.store, calls)
      modifies this
      ensures if pid in world.pipes then Runs(pid, k) else Gone()
      ensures Heads(pid, e, k, next, maxIterations, world.pipes, world.store, calls + made)
      ensures 0 <= Distance(pid, world.pipes, next, maxIterations) < Distance(pid, old(world.pipes), i, maxIterations)
      ensures Made(old(Calls(trace)), Calls(trace), made)
      ensures Moved(old(world.store), world.store, k, e.saves(0)) && world.resume == old(world.resume)
    {
      Pause(wait);
      ghost var pipes, store := world.pipes, world.store;
      StepOpen(pid, e, pipes[pid], i, maxIterations);
      var a := Choose(pid, e, Pc(pid), i, maxIterations);
      next := NextIteration(Pc(pid), i);
      made := CallOf(a);
      Take(pid, k, a);
      StepHeads(pid, e, i, maxIterations, pipes, world.pipes, store, calls);
    }

    /** One run of the serve loop from its claim, or from its resume, to its end. It always comes to an
        end and leaves nothing held, however long each step takes and whichever leases lapse or are reaped
        meanwhile. When the Store works: without an account the issue is left claimed; with one the run develops,
        improves after every verdict that says to go on and verifies again, up to the ceiling, and the issue is Done
        exactly when the first other verdict within the ceiling is a pass, the worker last said ok and the merge
        succeeds, left claimed exactly when that verdict puts it off, and else Failed. */
    method RunAssignment(pid: Pid, k: Key, e: Environment) returns (ghost calls: seq<Action>)
      requires Runs(pid, k) && Usable(e) && (Pc(pid) == ClaimSave || (Pc(pid) == Enter && k in world.store))
      modifies this
      ensures Gone() && SameElsewhere(old(world.store), world.store, k) && world.resume == old(world.resume)
      ensures k in world.store <==> k in old(world.store) || e.saves(0)
      ensures Steady(e) ==> k in world.store && world.store[k] == Outcome(e, maxIterations)
      ensures Made(old(Calls(trace)), Calls(trace), calls) && (Steady(e) ==> Concluded(pid, e, maxIterations, calls))
    {
      var i, step := 1, 0;
      calls := [];
      HeadsFirst(pid, e, k, maxIterations, world.pipes, world.store);
      while pid in world.pipes
        invariant if pid in world.pipes then Runs(pid, k) else Gone()
        invariant Heads(pid, e, k, i, maxIterations, world.pipes, world.store, calls)
        invariant Made(old(Calls(trace)), Calls(trace), calls)
        invariant Moved(old(world.store), world.store, k, e.saves(0)) && world.resume == old(world.resume)
        decreases Distance(pid, world.pipes, i, maxIterations)
      {
        ghost var made, mid, past := [], world.store, trace;
        i, made := Advance(pid, k, e, e.waits(step), i, calls);
        step := step + 1;
        MadeMore(old(trace), past, trace, calls, made);
        calls := calls + made;
        MovedOn(old(world.store), mid, world.store, k, e.saves(0));
      }
      HeadsLast(pid, e, k, i, maxIterations, world.pipes, world.store, calls);
    }

    // claimNext and the run of what it claimed.
    method ProcessOnce(queue: seq<Key>, e: Environment) returns (did: bool)
      requires Gone() && world.resume == [] && Usable(e) && forall k :: k in queue ==> k != ""
      modifies this
      ensures Gone() && world.resume == []
      ensures did == (FirstNew(queue, old(world.store)).Some? && e.saves(0))
      ensures PassEffect(queue, e, maxIterations, old(world.store), world.store)
    {
      Pause(e.idle);
      ghost var found := world;
      for i := 0 to |queue|
        invariant world == found && Gone() && forall k :: k in queue[..i] ==> k in world.store
      {
        var k := queue[i];
        if k in world.store {
          assert queue[..i + 1] == queue[..i] + [k];
          continue;
        }
        FirstNewSkips(queue, world.store, i);
        Start1(ServeLoad(0, k), k);
        var _ := RunAssignment(0, k, e);
        return e.saves(0);
      }
      assert queue[..|queue|] == queue;
      return false;
    }

    // A run begins in an idle world.
    method Start1(a: Action, k: Key)
      requires Gone() && (a.ServeLoad? || a.Resume?) && SpawnStep(world, a).Some? && Spawned(world, a).Some?
      requires Spawned(world, a).value.key == k
      modifies this
      ensures Runs(a.pid, k) && Pc(a.pid) == old(Spawned(world, a).value.pc) && world.store == old(world.store)
      ensures world.resume == if a.Resume? then old(world.resume[1..]) else old(world.resume)
    {
      SpawnSolo(cfg, world, a, SpawnStep(world, a).value);
      Do(a);
    }

    /** The drain ends: every productive pass takes one issue out of what is left. Records it finds are left
        alone. If all goes smoothly every listed issue without a record is claimed and finished. */
    method Drain(queue: seq<Key>, passes: nat -> Environment) returns (claims: nat)
      requires Gone() && world.resume == [] && forall k :: k in queue ==> k != ""
      requires forall i :: Usable(passes(i))
      modifies this
      ensures Gone() && world.resume == [] && Extends(old(world.store), world.store)
      ensures forall k :: k in world.store ==> k in old(world.store) || k in queue
      ensures claims + |Waiting(queue, world.store)| == |Waiting(queue, old(world.store))|
      ensures (forall i :: Smooth(passes(i))) ==>
                Waiting(queue, world.store) == {} && forall k :: k in world.store ==> k in old(world.store) || Ended(k, world.store)
    {
      claims := 0;
      var did := true;
      while did
        invariant Gone() && world.resume == [] && Extends(old(world.store), world.store)
        invariant forall k :: k in world.store ==> k in old(world.store) || k in queue
        invariant claims + |Waiting(queue, world.store)| == |Waiting(queue, old(world.store))|
        invariant (forall i :: Smooth(passes(i))) ==>
                    (did || Waiting(queue, world.store) == {}) && forall k :: k in world.store ==> k in old(world.store) || Ended(k, world.store)
        decreases |Waiting(queue, world.store)|, did
      {
        ghost var before := world.store;
        did := ProcessOnce(queue, passes(claims));
        PassTakesOne(queue, passes(claims), maxIterations, before, world.store);
        if did { claims := claims + 1; }
      }
    }

    /** A crash, whatever was running, and Recover: only issue leases survive it, finished records stay as
        they are, and unfinished ones are driven again if the engine is active. */
    method Restart(order: seq<Key>, active: bool, sweeping: nat -> Wait, passes: nat -> Environment)
      requires Valid() && Lists(order, world.store) && forall i :: Usable(passes(i))
      modifies this
      ensures Gone() && world.resume == [] && world.store.Keys == old(world.store.Keys)
      ensures forall k :: k in old(world.store) && old(world.store)[k].Terminal() ==> world.store[k] == old(world.store)[k]
      ensures !active ==> world.store == old(world.store)
      ensures active && (forall i :: Smooth(passes(i))) ==> forall k :: k in world.store ==> Ended(k, world.store)
    {
      Reboot(order, sweeping);
      ghost var was, smooth := world.store, forall n :: Smooth(passes(n));
      for i := 0 to |order|
        invariant Gone() && world.resume == FoundList(order, was)[i..]
        invariant Redriven(order, was, world.store, i, active, smooth)
      {
        assert order[i] in order && world.resume[0] == FoundList(order, was)[i];
        assert FoundList(order, was)[i..][1..] == FoundList(order, was)[i + 1..];
        ghost var before := world.store;
        ResumeOne(active, passes(i));
        RedrivenStep(order, was, before, world.store, i, active, smooth);
      }
      if active && smooth { RedrivenAll(order, was, world.store, active, smooth); }
    }

    // Recover deals with the active leases it listed.
    method SweepAll(waits: nat -> Wait)
      requires Valid() && world.phase.Recovering?
      modifies this
      ensures Valid() && world == old(world).(now := world.now, holds := world.holds, phase := Recovering(map[]))
    {
      var step := 0;
      while world.phase.todo != map[]
        invariant Valid() && world.phase.Recovering?
        invariant world == old(world).(now := world.now, holds := world.holds, phase := world.phase)
        decreases |world.phase.todo.Keys|
      {
        Pause(waits(step));
        step := step + 1;
        var slot :| slot in world.phase.todo;
        ghost var todo := world.phase.todo;
        Do(Action.Sweep(slot));
        assert world.phase.todo.Keys == todo.Keys - {slot};
      }
    }

    // The crash, and Recover up to the list of assignments: stale leases are swept first.
    method Reboot(order: seq<Key>, waits: nat -> Wait)
      requires Valid() && Lists(order, world.store)
      modifies this
      ensures Gone() && world.store == old(world.store) && world.resume == FoundList(order, world.store)
    {
      Do(Crash);
      Do(Boot);
      SweepAll(waits);
      Do(Recovered(order));
      RecoveredIdle(cfg, trace, world);
    }

    // The next listed assignment is finished, or the engine is idle.
    method Skip(active: bool)
      requires Gone() && world.resume != [] && (world.resume[0].1.Terminal() || !active)
      modifies this
      ensures Gone() && world.resume == old(world.resume[1..]) && world.store == old(world.store)
    {
      SpawnSolo(cfg, world, Resume(0, active), SpawnStep(world, Resume(0, active)).value);
      Do(Resume(0, active));
    }

    // The next listed assignment: skipped if it was finished or the engine is idle, else driven again.
    method ResumeOne(active: bool, e: Environment)
      requires Gone() && world.resume != [] && Usable(e)
      requires world.resume[0].0 in world.store && world.store[world.resume[0].0] == world.resume[0].1
      modifies this
      ensures Gone() && world.resume == old(world.resume[1..])
      ensures var (k, s) := old(world.resume[0]);
              && SameElsewhere(old(world.store), world.store, k) && k in world.store
              && (s.Terminal() || !active ==> world.store == old(world.store))
              && (active && Smooth(e) ==> Ended(k, world.store))
    {
      Pause(e.idle);
      var (k, s) := world.resume[0];
      if s.Terminal() || !active {
        Skip(active);
      } else {
        Start1(Resume(0, active), k);
        var _ := RunAssignment(0, k, e);
      }
    }

    // done, failed and the rest.
    method Tally() returns (done: nat, failed: nat, deferred: nat)
      ensures done == |InState(world.store, Done)| && failed == |InState(world.store, Failed)|
      ensures done + failed + deferred == |world.store|
    {
      done, failed, deferred := 0, 0, 0;
      var todo := world.store.Keys;
      while todo != {}
        invariant todo <= world.store.Keys && Tallied(world.store, todo, done, failed, deferred)
        decreases todo
      {
        var k :| k in todo;
        TalliedStep(world.store, todo, k, done, failed, deferred);
        match world.store[k] {
          case Done => done := done + 1;
          case Failed => failed := failed + 1;
          case _ => deferred := deferred + 1;
        }
        todo := todo - {k};
      }
      TalliedAll(world.store, done, failed, deferred);
    }

    // Phase one: passes until nothing is left, or until the crash.
    method FirstPasses(queue: seq<Key>, restartAfter: nat, first: nat -> Environment)
      requires Gone() && world.resume == [] && forall k :: k in queue ==> k != ""
      requires (forall i :: Smooth(first(i))) && forall k :: k in world.store ==> k in queue && Ended(k, world.store)
      modifies this
      ensures Gone() && world.resume == [] && forall k :: k in world.store ==> k in queue && Ended(k, world.store)
    {
      var claimed := 0;
      while true
        invariant Gone() && world.resume == []
        invariant forall k :: k in world.store ==> k in queue && Ended(k, world.store)
        decreases |Waiting(queue, world.store)|
      {
        ghost var before := world.store;
        var did := ProcessOnce(queue, first(claimed));
        PassTakesOne(queue, first(claimed), maxIterations, before, world.store);
        if !did { break; }
        claimed := claimed + 1;
        if restartAfter > 0 && claimed >= restartAfter { break; }
      }
    }

    /** The whole-run scenario, from an empty Store: some passes, a crash, Recover, and a drain. If all goes
        smoothly every issue ends, and done and failed add up to the number of issues, wherever the restart
        came, however long it all takes, and whether or not the engine is active when it recovers. */
    method Scenario(queue: seq<Key>, restartAfter: nat, first: nat -> Environment, active: bool, sweeping: nat -> Wait,
                    resumed: nat -> Environment, drained: nat -> Environment)
      returns (done: nat, failed: nat, deferred: nat)
      requires Gone() && world.resume == [] && world.store == map[] && forall k :: k in queue ==> k != ""
      requires forall i :: Smooth(first(i)) && Smooth(resumed(i)) && Smooth(drained(i))
      modifies this
      ensures Gone() && world.store.Keys == (set k | k in queue) && AllEnded(queue, world.store)
      ensures done + failed == |set k | k in queue| && deferred == 0
    {
      FirstPasses(queue, restartAfter, first);
      var order := Keys();
      Restart(order, active, sweeping, resumed);
      var _ := Drain(queue, drained);
      assert forall k :: k in queue ==> k !in Waiting(queue, world.store);
      done, failed, deferred := Tally();
      EndedSplit(world.store);
      assert world.store.Keys == set k | k in queue;
      assert |world.store| == |world.store.Keys|;
    }

    // The stored issues, each once.
    method Keys() returns (order: seq<Key>)
      ensures Lists(order, world.store)
    {
      order := [];
      var todo := world.store.Keys;
      while todo != {}
        invariant todo <= world.store.Keys
        invariant forall i, j :: 0 <= i < j < |order| ==> order[i] != order[j]
        invariant forall k :: k in order <==> k in world.store && k !in todo
        decreases todo
      {
        var k :| k in todo;
        order := order + [k];
        todo := todo - {k};
      }
    }
  }
}
