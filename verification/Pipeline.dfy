/** The orchestrator as a labelled transition system.

    Any number of pipelines (goroutines running one issue each) interleave with the serve loop, with
    ticks, with manual runs, with operator resets, with the clock, with lease reaping and with crashes. Each action
    is one step that the code performs atomically: one Store call, one Lease or Resource Manager call,
    one worker, verifier or merge call. A crash erases what lives in memory and keeps what is stored. */
module Pipeline {
  import opened Leases
  import opened Options
  import opened LeaseStore

  type Key = string
  type Account = string
  type Pid = nat

  datatype AState = Claimed | Developing | QA | Merging | Done | Failed
  {
    predicate Terminal() { this == Done || this == Failed }
  }

  // What a pipeline has seen of its worker, its verifier and its merge.
  datatype Event =
    | Developed(ok: bool)      // a worker call without an error, and the ok flag it reported
    | DevelopError
    | Verified(pass: bool)     // the aggregated outcome was, or was not, Pass
    | MergeLeased
    | Merged                   // Merge returned true without an error
    | MergeFailed              // it did not
    | GaveUp                   // the policy stopped the loop for good, or the verification could not be done

  // The same, most recent last.
  datatype History = Nothing | After(past: History, last: Event)

  datatype Pc =
    | ClaimSave | ClaimLease                       // claimNext, or the fresh claim of RunIssue
    | ResetSave                                    // an operator's retry of a finished issue
    | Enter                                        // runAssignment, before the in-flight guard
    | Reserving | Leasing | Denied                // acquireRuntime
    | SaveDeveloping | Develop | SaveQA
    | Verify | Improve                             // the improvement loop
    | SaveMerging | AskMerge | CallMerge           // mergeAndClose
    | SaveDeferred | SaveFinal(state: AState)
    | DropIssue | Clean                            // finish
    | DropMerge | DropAccount | Unreserve | Leave  // the deferred calls, innermost first

  // The serve loop's own goroutine, or a goroutine that a command of the Control Plane started.
  datatype Origin = Loop | Command

  datatype Pipe = Pipe(origin: Origin, key: Key, pc: Pc, force: bool, preferred: Account,
                       account: Option<Account>,   // the account this pipeline reserved and has not released
                       merge: Option<int>,         // the end of the merge lease it was told it holds
                       lastOK: bool, hist: History)
  {
    // Past the in-flight guard.
    predicate Admitted() {
      !pc.ClaimSave? && !pc.ClaimLease? && !pc.ResetSave? && !pc.Enter?
    }
    // Nothing left to do but clean up and release.
    predicate Finishing() {
      pc.DropIssue? || pc.Clean? || pc.DropMerge? || pc.DropAccount? || pc.Unreserve? || pc.Leave?
    }
  }

  // `Down` lasts until Recover lists the leases: the process has crashed, or it is up again, its server already
  // answers commands and Recover is about to begin. `Recovering` carries the leases that Recover listed as active
  // and has not dealt with yet.
  datatype Phase = Down | Recovering(todo: map<Slot, Owner>) | Running

  datatype World = World(
    now: int,
    phase: Phase,
    // durable
    store: map<Key, AState>,
    holds: Holds,
    workspaces: set<Key>,          // issues whose worktree exists
    // in memory
    inflight: set<Key>,
    reserved: map<Account, Key>,
    pipes: map<Pid, Pipe>,
    resume: seq<(Key, AState)>,    // what Recover listed and has not resumed yet
    // history
    cleaned: set<Key>,             // workspaces removed by finish and not prepared again
    claims: map<Key, nat>,         // how often each issue was claimed
    evidence: map<Key, History> // what the pipeline that stored the outcome had seen
  )

  datatype Config = Config(ttls: Ttls, branch: string)

  datatype Worker = Returned(ok: bool) | Errored
  datatype Verdict = Passed | GoOn | PutOff | GiveUp | Broken  // Broken: Verify failed, or the ceiling was hit

  datatype Action =
    | Tick(d: nat)
    | ReapNow
    | Crash
    | Boot                                   // Recover: reap, then list the active leases
    | Sweep(slot: Slot)                      // Recover: deal with one listed lease
    | Recovered(order: seq<Key>)             // Recover: list the assignments; the serve loop goes on
    | Resume(pid: Pid, active: bool)         // the next listed assignment, if the engine is active
    | ServeLoad(pid: Pid, key: Key)          // a pass of the serve loop: claimNext finds an issue not stored
    | TickLoad(pid: Pid, key: Key)           // the same in a pass that the tick command started
    | ManualLoad(pid: Pid, key: Key, force: bool, preferred: Account)
    | ResetLoad(pid: Pid, key: Key)
    | Save(pid: Pid, ok: bool)
    | Pass(pid: Pid)                         // the step has no outcome to choose
    | Reserve(pid: Pid, choice: Option<Account>)
    | Work(pid: Pid, result: Worker, prepared: bool)
    | Judge(pid: Pid, verdict: Verdict)
    | Merge(pid: Pid, merged: bool)
    | Cleanup(pid: Pid, wired: bool)

  const START: World := World(0, Down, map[], map[], {}, {}, map[], map[], [], {}, map[], map[])

  // -- where a pipeline goes when its run returns --------------------------------------------------

  function AfterMerge(p: Pipe): Pc {
    if p.account.Some? && !p.force then DropAccount else Leave
  }

  function AfterRun(p: Pipe): Pc {
    if p.merge.Some? then DropMerge else AfterMerge(p)
  }

  function Go(p: Pipe, pc: Pc): Pipe { p.(pc := pc) }

  function Put(w: World, pid: Pid, p: Pipe): World { w.(pipes := w.pipes[pid := p]) }

  function Quit(w: World, pid: Pid): World { w.(pipes := w.pipes - {pid}) }

  function Count(claims: map<Key, nat>, k: Key): nat {
    if k in claims then claims[k] else 0
  }

  // -- the steps that write the assignment store ---------------------------------------------------

  // What the step writes and where the pipeline goes when the write succeeded.
  function Write(p: Pipe): Option<(AState, Pc)> {
    match p.pc
    case ClaimSave => Some((Claimed, ClaimLease))
    case ResetSave => Some((Claimed, Leave))
    case SaveDeveloping => Some((Developing, Develop))
    case SaveQA => Some((QA, Verify))
    case SaveMerging => Some((Merging, AskMerge))
    case SaveDeferred => Some((Claimed, AfterRun(p)))
    case SaveFinal(s) => Some((s, DropIssue))
    case _ => None
  }

  // A failed claim or finish returns at once; the other writes ignore the error.
  function SaveStep(w: World, pid: Pid, p: Pipe, ok: bool): Option<World> {
    if Write(p).None? then None
    else
      var (s, next) := Write(p).value;
      var stored := if ok then w.store[p.key := s] else w.store;
      var claims := if ok && p.pc.ClaimSave? then w.claims[p.key := Count(w.claims, p.key) + 1] else w.claims;
      var evidence := if ok && p.pc.SaveFinal? then w.evidence[p.key := p.hist] else w.evidence;
      var pipes :=
        if p.pc.ResetSave? || (p.pc.ClaimSave? && !ok) then w.pipes - {pid}
        else w.pipes[pid := Go(p, if p.pc.SaveFinal? && !ok then AfterRun(p) else next)];
      Some(w.(store := stored, claims := claims, evidence := evidence, pipes := pipes))
  }

  // -- the steps without an outcome to choose ------------------------------------------------------

  predicate CanPass(p: Pipe) {
    match p.pc
    case ClaimLease => true
    case Enter => true
    case Leasing => p.account.Some?
    case Denied => p.account.Some?
    case AskMerge => true
    case DropIssue => true
    case DropMerge => true
    case DropAccount => p.account.Some?
    case Unreserve => p.account.Some?
    case Leave => true
    case _ => false
  }

  // The lease the step acquires, if it acquires one.
  function Asked(cfg: Config, p: Pipe): Option<Slot> {
    match p.pc
    case ClaimLease => Some(IssueSlot(p.key))
    case Leasing => if p.account.Some? then Some(AccountSlot(p.account.value)) else None
    case AskMerge => Some(MergeSlot(cfg.branch))
    case _ => None
  }

  // The lease the step releases, if it releases one.
  function Given(cfg: Config, p: Pipe): Option<Slot> {
    match p.pc
    case DropIssue => Some(IssueSlot(p.key))
    case DropMerge => Some(MergeSlot(cfg.branch))
    case DropAccount => if p.account.Some? then Some(AccountSlot(p.account.value)) else None
    case _ => None
  }

  function PassHolds(cfg: Config, w: World, p: Pipe): (Holds, bool) {
    if Asked(cfg, p).Some? then Take(w.holds, cfg.ttls, Asked(cfg, p).value, p.key, w.now)
    else if Given(cfg, p).Some? then (Drop(w.holds, Given(cfg, p).value, p.key), true)
    else (w.holds, true)
  }

  // The pipeline after the step, given the leases after the step and whether a request was granted.
  function PassPipe(cfg: Config, p: Pipe, h: Holds, granted: bool): Pipe {
    match p.pc
    case ClaimLease => Go(p, Enter)
    case Enter => Go(p, Reserving)
    case Leasing => Go(p, if granted then SaveDeveloping else Denied)
    case Denied => Go(p, SaveDeferred).(account := None)
    case AskMerge =>
      if !granted || MergeSlot(cfg.branch) !in h then Go(p, SaveDeferred)
      else p.(pc := CallMerge, merge := Some(h[MergeSlot(cfg.branch)].until), hist := After(p.hist, MergeLeased))
    case DropIssue => Go(p, Clean)
    case DropMerge => Go(p, AfterMerge(p)).(merge := None)
    case DropAccount => Go(p, Unreserve)
    case Unreserve => Go(p, Leave).(account := None)
    case _ => p
  }

  predicate Quits(w: World, p: Pipe) {
    (p.pc.Enter? && p.key in w.inflight) || p.pc.Leave?
  }

  function PassStep(cfg: Config, w: World, pid: Pid, p: Pipe): Option<World> {
    if !CanPass(p) then None
    else
      var (h, granted) := PassHolds(cfg, w, p);
      var inflight := if p.pc.Enter? then w.inflight + {p.key} else if p.pc.Leave? then w.inflight - {p.key} else w.inflight;
      var reserved := if p.pc.Denied? || p.pc.Unreserve? then w.reserved - {p.account.value} else w.reserved;
      var pipes := if Quits(w, p) then w.pipes - {pid} else w.pipes[pid := PassPipe(cfg, p, h, granted)];
      Some(w.(holds := h, inflight := inflight, reserved := reserved, pipes := pipes))
  }

  // -- the steps whose outcome the outside world chooses -------------------------------------------

  // A forced run of a picked account uses it without reserving it.
  predicate TakesAccount(p: Pipe, choice: Option<Account>) {
    choice.Some? && !(p.force && p.preferred != "")
  }

  // The scheduler's choice: an available account, hence one that nobody has reserved.
  predicate CanReserve(w: World, p: Pipe, choice: Option<Account>) {
    p.pc == Reserving &&
    (choice.Some? ==> choice.value != "" && (p.preferred != "" ==> choice.value == p.preferred)) &&
    (TakesAccount(p, choice) ==> choice.value !in w.reserved)
  }

  function ReservePipe(p: Pipe, choice: Option<Account>): Pipe {
    if choice.None? then Go(p, SaveDeferred)
    else if TakesAccount(p, choice) then Go(p, Leasing).(account := choice)
    else Go(p, SaveDeveloping)
  }

  function ReserveStep(w: World, pid: Pid, p: Pipe, choice: Option<Account>): Option<World> {
    if !CanReserve(w, p, choice) then None
    else
      var reserved := if TakesAccount(p, choice) then w.reserved[choice.value := p.key] else w.reserved;
      Some(w.(reserved := reserved, pipes := w.pipes[pid := ReservePipe(p, choice)]))
  }

  function WorkPipe(p: Pipe, r: Worker): Pipe {
    p.(pc := if p.pc == Develop then SaveQA else Verify,
       lastOK := if r.Returned? then r.ok else if p.pc == Develop then false else p.lastOK,
       hist := After(p.hist, if r.Returned? then Developed(r.ok) else DevelopError))
  }

  function WorkStep(w: World, pid: Pid, p: Pipe, r: Worker, prepared: bool): Option<World> {
    if p.pc != Develop && p.pc != Improve then None
    else Some(w.(workspaces := if prepared then w.workspaces + {p.key} else w.workspaces,
                 cleaned := if prepared then w.cleaned - {p.key} else w.cleaned,
                 pipes := w.pipes[pid := WorkPipe(p, r)]))
  }

  function JudgePipe(p: Pipe, v: Verdict): Pipe {
    p.(hist := After(p.hist, if v.GiveUp? || v.Broken? then GaveUp else Verified(v.Passed?)),
       pc := match v
             case Passed => if p.lastOK then SaveMerging else SaveFinal(Failed)
             case GoOn => Improve
             case PutOff => SaveDeferred
             case GiveUp => SaveFinal(Failed)
             case Broken => SaveFinal(Failed))
  }

  function JudgeStep(w: World, pid: Pid, p: Pipe, v: Verdict): Option<World> {
    if p.pc != Verify then None else Some(Put(w, pid, JudgePipe(p, v)))
  }

  function MergePipe(p: Pipe, merged: bool): Pipe {
    if merged then p.(pc := SaveFinal(Done), hist := After(p.hist, Event.Merged)) else p.(pc := SaveFinal(Failed), hist := After(p.hist, MergeFailed))
  }

  function MergeStep(w: World, pid: Pid, p: Pipe, merged: bool): Option<World> {
    if p.pc != CallMerge then None else Some(Put(w, pid, MergePipe(p, merged)))
  }

  function CleanupStep(w: World, pid: Pid, p: Pipe, wired: bool): Option<World> {
    if p.pc != Clean then None
    else Some(w.(workspaces := if wired then w.workspaces - {p.key} else w.workspaces,
                 cleaned := if wired then w.cleaned + {p.key} else w.cleaned,
                 pipes := w.pipes[pid := Go(p, AfterRun(p))]))
  }

  // -- the serve loop, manual runs, recovery -------------------------------------------------------

  function Fresh(origin: Origin, k: Key, pc: Pc, force: bool, preferred: Account): Pipe {
    Pipe(origin, k, pc, force, preferred, None, None, false, Nothing)
  }

  // Recover and then the serve loop's passes run on one goroutine, one pipeline at a time. Ticks and manual
  // runs have goroutines of their own, and nothing keeps any of them from overlapping.
  predicate LoopBusy(w: World) {
    exists pid :: pid in w.pipes && w.pipes[pid].origin == Loop
  }

  predicate SpawnAction(a: Action) {
    a.Resume? || a.ServeLoad? || CommandAction(a)
  }

  predicate CommandAction(a: Action) {
    a.TickLoad? || a.ManualLoad? || a.ResetLoad?
  }

  predicate CanSpawn(w: World, a: Action)
    requires SpawnAction(a)
  {
    a.pid !in w.pipes &&
    match a
    case Resume(_, _) => w.phase.Running? && w.resume != [] && !LoopBusy(w)
    case ServeLoad(_, k) => w.phase.Running? && w.resume == [] && !LoopBusy(w) && k != "" && k !in w.store
    case TickLoad(_, k) => k != "" && k !in w.store
    case ManualLoad(_, k, _, _) => k != ""
    case ResetLoad(_, _) => true
  }

  // The run that starts, if one does.
  function Spawned(w: World, a: Action): Option<Pipe>
    requires SpawnAction(a)
  {
    match a
    case Resume(_, active) =>
      if w.resume == [] || w.resume[0].1.Terminal() || !active then None
      else Some(Fresh(Loop, w.resume[0].0, Enter, false, ""))
    case ServeLoad(_, k) => Some(Fresh(Loop, k, ClaimSave, false, ""))
    case TickLoad(_, k) => Some(Fresh(Command, k, ClaimSave, false, ""))
    case ManualLoad(_, k, force, preferred) =>
      if k !in w.store then Some(Fresh(Command, k, ClaimSave, force, preferred))
      else if w.store[k].Terminal() then None
      else Some(Fresh(Command, k, Enter, force, preferred))
    case ResetLoad(_, k) =>
      if k in w.store && w.store[k].Terminal() then Some(Fresh(Command, k, ResetSave, false, "")) else None
  }

  function SpawnStep(w: World, a: Action): Option<World>
    requires SpawnAction(a)
  {
    if !CanSpawn(w, a) then None
    else
      var p := Spawned(w, a);
      Some(w.(resume := if a.Resume? then w.resume[1..] else w.resume,
              pipes := if p.Some? then w.pipes[a.pid := p.value] else w.pipes))
  }

  // An issue lease is stale when its assignment is finished or unknown; the others always are.
  predicate Stale(w: World, s: Slot, o: Owner) {
    s.IssueSlot? ==> o !in w.store || w.store[o].Terminal()
  }

  function ActiveHolds(h: Holds, now: int): map<Slot, Owner> {
    map s | s in h && now < h[s].until :: h[s].owner
  }

  predicate Lists(order: seq<Key>, store: map<Key, AState>) {
    (forall i, j :: 0 <= i < j < |order| ==> order[i] != order[j]) &&
    (forall k :: k in order ==> k in store) && (forall k :: k in store ==> k in order)
  }

  function RecoverStep(w: World, a: Action): Option<World>
    requires a.Boot? || a.Sweep? || a.Recovered?
  {
    match a
    case Boot =>
      if !w.phase.Down? then None
      else Some(w.(holds := LeaseStore.Sweep(w.holds, w.now), phase := Recovering(ActiveHolds(w.holds, w.now))))
    case Sweep(s) =>
      if !w.phase.Recovering? || s !in w.phase.todo then None
      else
        var o := w.phase.todo[s];
        Some(w.(holds := if Stale(w, s, o) then Drop(w.holds, s, o) else w.holds,
                phase := Recovering(w.phase.todo - {s})))
    case Recovered(order) =>
      if !w.phase.Recovering? || w.phase.todo != map[] || !Lists(order, w.store) then None
      else Some(w.(phase := Running, resume := seq(|order|, i requires 0 <= i < |order| => (order[i], w.store[order[i]]))))
  }

  /** One step: None when the action is not possible here. */
  function Step(cfg: Config, w: World, a: Action): Option<World> {
    match a
    case Tick(d) => Some(w.(now := w.now + d))
    case ReapNow => Some(w.(holds := LeaseStore.Sweep(w.holds, w.now)))
    case Crash => Some(w.(phase := Down, inflight := {}, reserved := map[], pipes := map[], resume := []))
    case Boot => RecoverStep(w, a)
    case Sweep(_) => RecoverStep(w, a)
    case Recovered(_) => RecoverStep(w, a)
    case Resume(_, _) => SpawnStep(w, a)
    case ServeLoad(_, _) => SpawnStep(w, a)
    case TickLoad(_, _) => SpawnStep(w, a)
    case ManualLoad(_, _, _, _) => SpawnStep(w, a)
    case ResetLoad(_, _) => SpawnStep(w, a)
    case _ => if a.pid !in w.pipes then None else PipeStep(cfg, w, a)
  }

  function PipeStep(cfg: Config, w: World, a: Action): Option<World>
    requires PipeAction(a) && a.pid in w.pipes
  {
    var p := w.pipes[a.pid];
    match a
    case Save(pid, ok) => SaveStep(w, pid, p, ok)
    case Pass(pid) => PassStep(cfg, w, pid, p)
    case Reserve(pid, choice) => ReserveStep(w, pid, p, choice)
    case Work(pid, r, prepared) => WorkStep(w, pid, p, r, prepared)
    case Judge(pid, v) => JudgeStep(w, pid, p, v)
    case Merge(pid, merged) => MergeStep(w, pid, p, merged)
    case Cleanup(pid, wired) => CleanupStep(w, pid, p, wired)
  }

  predicate PipeAction(a: Action) {
    a.Save? || a.Pass? || a.Reserve? || a.Work? || a.Judge? || a.Merge? || a.Cleanup?
  }

  function Run(cfg: Config, w: World, acts: seq<Action>): Option<World>
    decreases |acts|
  {
    if acts == [] then Some(w)
    else
      match Step(cfg, w, acts[0])
      case None => None
      case Some(w') => Run(cfg, w', acts[1..])
  }

  /** No command starts a pipeline or a reset before Recover is done. */
  ghost predicate Orderly(cfg: Config, w: World, acts: seq<Action>)
    decreases |acts|
  {
    acts == [] ||
    ((CommandAction(acts[0]) ==> w.phase.Running?) &&
     (Step(cfg, w, acts[0]).Some? ==> Orderly(cfg, Step(cfg, w, acts[0]).value, acts[1..])))
  }
}
