/** The Assignment Engine: one issue at a time through a crash-recoverable state machine.

    `Step` says what one step of `drive` does to the record in memory, to the stored record and to the
    branch; `Engine` is the class that takes the steps, each method proved against it. */
module AssignmentEngine {
  import opened Options
  import FailurePolicy

  type Key = string

  datatype State = Claimed | Developing | QA | Merging | Done | Failed | Unknown(name: string)
  {
    predicate Terminal() { this == Done || this == Failed }
  }

  // What is persisted.
  datatype Rec = Rec(state: State, attempt: nat)

  // How a step ends: saved, the Save returned an error, or the process died before it.
  datatype Ending = Saved | SaveFails | Crash

  // A develop step: Jira failed before the worker was spawned; the worker, the files or the commit
  // failed; everything worked.
  datatype Development = NotSpawned | Spoiled | Committed

  // What the outside decides for one step.
  datatype Fate = Fate(dev: Development, merges: bool, deletes: bool, ending: Ending)

  // One issue: the record being driven, the stored one, whether the assignment branch exists, and what
  // happened so far: worker runs, steps that ended without a save, successful merges.
  datatype Work = Work(a: Rec, stored: Rec, branch: bool, halted: bool, runs: nat, breaks: nat, merges: nat)

  function Max(a: int, b: int): int {
    if a > b then a else b
  }

  // Whether another attempt is made after `n`; the policy decides if one is wired, else the cap does.
  predicate ShouldRetry(retry: Option<FailurePolicy.Retry>, maxAttempts: int, n: nat) {
    match retry
    case Some(p) => FailurePolicy.ShouldRetry(p, n)
    case None => n < maxAttempts
  }

  // Either way it is a cap.
  function Cap(retry: Option<FailurePolicy.Retry>, maxAttempts: int): (cap: int)
    ensures forall n: nat :: ShouldRetry(retry, maxAttempts, n) <==> n < cap
  {
    match retry
    case Some(p) => if p.disableFlaky then 0 else p.maxAttempts
    case None => maxAttempts
  }

  function Store(w: Work, a: Rec, e: Ending): Work {
    match e
    case Saved => w.(a := a, stored := a)
    case _ => w.(a := a, halted := true, breaks := w.breaks + 1)
  }

  function RetryOrFail(cap: int, w: Work, e: Ending): Work {
    var n := w.a.attempt + 1;
    Store(w, Rec(if n < cap then Developing else Failed, n), e)
  }

  function Develop(cap: int, w: Work, f: Fate): Work {
    var w1 := if f.dev.NotSpawned? then w else w.(runs := w.runs + 1);
    if f.dev.Committed? then Store(w1, w.a.(state := QA), f.ending) else RetryOrFail(cap, w1, f.ending)
  }

  // The merge needs the branch; it is deleted before Done is saved.
  function HandOffToMerge(cap: int, w: Work, f: Fate): Work {
    if f.merges && w.branch then
      Store(w.(merges := w.merges + 1, branch := !f.deletes), w.a.(state := Done), f.ending)
    else RetryOrFail(cap, w, f.ending)
  }

  predicate Driven(w: Work) {
    !w.halted && !w.a.state.Terminal() && !w.a.state.Unknown?
  }

  function Step(cap: int, w: Work, f: Fate): Work
    requires Driven(w)
  {
    match w.a.state
    case Claimed => Store(w, w.a.(state := Developing), f.ending)
    case Developing => Develop(cap, w, f)
    case QA => Store(w, w.a.(state := Merging), f.ending)
    case Merging => HandOffToMerge(cap, w, f)
  }

  function Distance(s: State): nat {
    match s
    case Claimed => 4
    case Developing => 3
    case QA => 2
    case Merging => 1
    case _ => 0
  }

  // The whole of drive; fates are numbered from `i`. It ends: attempts run out, or the state advances.
  function Drive(cap: int, w: Work, fate: nat -> Fate, i: nat): (r: (Work, nat))
    ensures !Driven(r.0) && i <= r.1
    decreases Max(0, cap - w.a.attempt), Distance(w.a.state), !w.halted
  {
    if !Driven(w) then (w, i) else Drive(cap, Step(cap, w, fate(i)), fate, i + 1)
  }

  lemma DriveOn(cap: int, w: Work, fate: nat -> Fate, i: nat)
    requires Driven(w)
    ensures var w' := Step(cap, w, fate(i));
            Drive(cap, w, fate, i) == Drive(cap, w', fate, i + 1) &&
            (Max(0, cap - w'.a.attempt) < Max(0, cap - w.a.attempt) ||
             (Max(0, cap - w'.a.attempt) == Max(0, cap - w.a.attempt) &&
              (Distance(w'.a.state) < Distance(w.a.state) || (Distance(w'.a.state) == Distance(w.a.state) && w'.halted))))
  {
  }

  // A new process drives the stored record again.
  function Restart(w: Work): Work {
    w.(a := w.stored, halted := false)
  }

  function Lives(cap: int, w: Work, lives: seq<nat -> Fate>): Work
    decreases |lives|
  {
    if lives == [] then w else Lives(cap, Drive(cap, Restart(w), lives[0], 0).0, lives[1..])
  }

  // ---------------------------------------------------------------------------------------------
  // Bounds over any number of crashes, failed saves and restarts
  // ---------------------------------------------------------------------------------------------

  // Worker runs that the attempts so far account for.
  function Earned(r: Rec): nat {
    match r.state
    case Claimed => r.attempt
    case Developing => r.attempt
    case Failed => r.attempt
    case Unknown(_) => r.attempt
    case _ => r.attempt + 1
  }

  ghost predicate Within(cap: int, r: Rec) {
    if r.state.Failed? then r.attempt <= Max(1, cap) else r.attempt < Max(1, cap)
  }

  ghost predicate Bounded(cap: int, w: Work) {
    && Within(cap, w.stored) && w.runs <= Earned(w.stored) + w.breaks
    && (!w.halted ==> w.a == w.stored)
  }

  lemma StepBounded(cap: int, w: Work, f: Fate)
    requires Driven(w) && Bounded(cap, w)
    ensures Bounded(cap, Step(cap, w, f))
  {
  }

  lemma {:induction false} DriveBounded(cap: int, w: Work, fate: nat -> Fate, i: nat)
    requires Bounded(cap, w)
    ensures Bounded(cap, Drive(cap, w, fate, i).0)
    ensures Drive(cap, w, fate, i).0.breaks <= w.breaks + (if w.halted then 0 else 1)
    decreases Max(0, cap - w.a.attempt), Distance(w.a.state), !w.halted
  {
    if Driven(w) {
      StepBounded(cap, w, fate(i));
      StepBreaks(cap, w, fate(i));
      DriveOn(cap, w, fate, i);
      DriveBounded(cap, Step(cap, w, fate(i)), fate, i + 1);
    }
  }

  lemma StepBreaks(cap: int, w: Work, f: Fate)
    requires Driven(w)
    ensures Step(cap, w, f).breaks == w.breaks + (if Step(cap, w, f).halted then 1 else 0)
  {
  }

  lemma {:induction false} LivesBounded(cap: int, w: Work, lives: seq<nat -> Fate>)
    requires Bounded(cap, w)
    ensures Bounded(cap, Lives(cap, w, lives))
    decreases |lives|
  {
    if lives != [] {
      DriveBounded(cap, Restart(w), lives[0], 0);
      LivesBounded(cap, Drive(cap, Restart(w), lives[0], 0).0, lives[1..]);
    }
  }

  // A freshly stored claim.
  function NewWork(branch: bool): Work {
    Work(Rec(Claimed, 0), Rec(Claimed, 0), branch, false, 0, 0, 0)
  }

  /** Over the whole life of an issue, with c crashes and failed saves, its worker runs at most
      max(1, cap) + c times and the persisted attempt count never exceeds max(1, cap). */
  lemma WorkerRunsBounded(cap: int, branch: bool, lives: seq<nat -> Fate>)
    ensures var w := Lives(cap, NewWork(branch), lives);
            w.runs <= Max(1, cap) + w.breaks && w.stored.attempt <= Max(1, cap)
  {
    LivesBounded(cap, NewWork(branch), lives);
  }

  // ---------------------------------------------------------------------------------------------
  // It does retry
  // ---------------------------------------------------------------------------------------------

  // Failed only when the attempts are used up.
  predicate FailedAtCap(cap: int, w: Work) {
    w.stored.state.Failed? ==> w.stored.attempt == Max(1, cap)
  }

  lemma StepFailsAtCap(cap: int, w: Work, f: Fate)
    requires Driven(w) && Bounded(cap, w) && FailedAtCap(cap, w)
    ensures FailedAtCap(cap, Step(cap, w, f))
  {
  }

  lemma {:induction false} DriveFailsAtCap(cap: int, w: Work, fate: nat -> Fate, i: nat)
    requires Bounded(cap, w) && FailedAtCap(cap, w)
    ensures FailedAtCap(cap, Drive(cap, w, fate, i).0)
    decreases Max(0, cap - w.a.attempt), Distance(w.a.state), !w.halted
  {
    if Driven(w) {
      StepBounded(cap, w, fate(i));
      StepFailsAtCap(cap, w, fate(i));
      DriveOn(cap, w, fate, i);
      DriveFailsAtCap(cap, Step(cap, w, fate(i)), fate, i + 1);
    }
  }

  lemma {:induction false} LivesFailAtCap(cap: int, w: Work, lives: seq<nat -> Fate>)
    requires Bounded(cap, w) && FailedAtCap(cap, w)
    ensures FailedAtCap(cap, Lives(cap, w, lives))
    decreases |lives|
  {
    if lives != [] {
      DriveBounded(cap, Restart(w), lives[0], 0);
      DriveFailsAtCap(cap, Restart(w), lives[0], 0);
      LivesFailAtCap(cap, Drive(cap, Restart(w), lives[0], 0).0, lives[1..]);
    }
  }

  /** Over the whole life of an issue it fails only after max(1, cap) attempts, however often it crashes. */
  lemma FailsOnlyAtCap(cap: int, branch: bool, lives: seq<nat -> Fate>)
    ensures var w := Lives(cap, NewWork(branch), lives);
            w.stored.state.Failed? ==> w.stored.attempt == Max(1, cap)
  {
    LivesFailAtCap(cap, NewWork(branch), lives);
  }

  // An attempt that starts at step `i` goes wrong in development, or two steps later, in the merge.
  predicate GoesWrong(fate: nat -> Fate, i: nat) {
    fate(i).dev != Committed || !fate(i + 2).merges
  }

  // Where the attempt after it starts.
  function NextAttempt(fate: nat -> Fate, i: nat): nat {
    if fate(i).dev != Committed then i + 1 else i + 3
  }

  // The first `n` attempts from step `i` on all go wrong.
  predicate AllWrong(fate: nat -> Fate, i: nat, n: nat)
    decreases n
  {
    n == 0 || (GoesWrong(fate, i) && AllWrong(fate, NextAttempt(fate, i), n - 1))
  }

  ghost predicate AllSaved(fate: nat -> Fate) {
    forall i :: fate(i).ending.Saved?
  }

  // In development, with the record stored and the branch there.
  function Underway(m: nat, runs: nat, breaks: nat, merges: nat): Work {
    Work(Rec(Developing, m), Rec(Developing, m), true, false, runs, breaks, merges)
  }

  // One attempt: done, or back in development, or failed at the cap.
  lemma OneAttempt(cap: int, w: Work, fate: nat -> Fate, i: nat) returns (w': Work)
    requires AllSaved(fate) && w == Underway(w.a.attempt, w.runs, w.breaks, w.merges)
    ensures Drive(cap, w, fate, i) == Drive(cap, w', fate, NextAttempt(fate, i)) && w'.a == w'.stored && !w'.halted
    ensures w'.a == if !GoesWrong(fate, i) then Rec(Done, w.a.attempt)
                    else Rec(if w.a.attempt + 1 < cap then Developing else Failed, w.a.attempt + 1)
    ensures GoesWrong(fate, i) ==> w'.branch
  {
    assert fate(i).ending.Saved? && fate(i + 1).ending.Saved? && fate(i + 2).ending.Saved?;
    DriveOn(cap, w, fate, i);
    w' := Step(cap, w, fate(i));
    if fate(i).dev == Committed {
      DriveOn(cap, w', fate, i + 1);
      w' := Step(cap, w', fate(i + 1));
      DriveOn(cap, w', fate, i + 2);
      w' := Step(cap, w', fate(i + 2));
    }
  }

  lemma {:induction false} Attempts(cap: int, w: Work, fate: nat -> Fate, i: nat)
    requires AllSaved(fate) && w == Underway(w.a.attempt, w.runs, w.breaks, w.merges) && w.a.attempt < Max(1, cap)
    ensures var end := Drive(cap, w, fate, i).0;
            end.a == end.stored && end.a.state == if AllWrong(fate, i, Max(1, cap) - w.a.attempt) then Failed else Done
    decreases Max(1, cap) - w.a.attempt
  {
    var w' := OneAttempt(cap, w, fate, i);
    if w'.a.state.Developing? { Attempts(cap, w', fate, NextAttempt(fate, i)); }
  }

  /** When every save works, an issue whose branch exists is Done if and only if fewer than max(1, cap) attempts go
      wrong before one succeeds; otherwise it is Failed. */
  lemma DoneUnlessAllWrong(cap: int, fate: nat -> Fate)
    requires AllSaved(fate)
    ensures var end := Drive(cap, NewWork(true), fate, 0).0;
            end.a == end.stored && (end.stored.state.Done? <==> !AllWrong(fate, 1, Max(1, cap))) &&
            (end.stored.state.Failed? <==> AllWrong(fate, 1, Max(1, cap)))
  {
    assert fate(0).ending.Saved?;
    DriveOn(cap, NewWork(true), fate, 0);
    Attempts(cap, Step(cap, NewWork(true), fate(0)), fate, 1);
  }

  // Every break happens after a worker has run and before anything is saved.
  function Unlucky(): nat -> Fate {
    i => Fate(Spoiled, false, false, Crash)
  }

  function UnluckyLives(c: nat): (r: seq<nat -> Fate>)
    ensures |r| == c
  {
    seq(c, i => Unlucky())
  }

  lemma UnluckyLife(cap: int, branch: bool, runs: nat, breaks: nat)
    ensures var w := Work(Rec(Developing, 0), Rec(Developing, 0), branch, false, runs, breaks, 0);
            Drive(cap, w, Unlucky(), 0).0.stored == w.stored && Drive(cap, w, Unlucky(), 0).0.branch == branch &&
            Drive(cap, w, Unlucky(), 0).0.runs == runs + 1 && Drive(cap, w, Unlucky(), 0).0.breaks == breaks + 1 &&
            Drive(cap, w, Unlucky(), 0).0.merges == 0
  {
    var w := Work(Rec(Developing, 0), Rec(Developing, 0), branch, false, runs, breaks, 0);
    var w1 := Step(cap, w, Unlucky()(0));
    assert w1.halted && Drive(cap, w1, Unlucky(), 1) == (w1, 1);
  }

  /** The term c cannot be dropped: every crash may cost one more run, and none of them an attempt. */
  lemma {:induction false} EveryCrashMayCostARun(cap: int, w: Work, c: nat)
    requires w.stored == Rec(Developing, 0) && w.merges == 0
    ensures var w' := Lives(cap, w, UnluckyLives(c));
            w'.runs == w.runs + c && w'.breaks == w.breaks + c && w'.stored == w.stored
    decreases c
  {
    if c > 0 {
      UnluckyLife(cap, w.branch, w.runs, w.breaks);
      var w1 := Drive(cap, Restart(w), UnluckyLives(c)[0], 0).0;
      EveryCrashMayCostARun(cap, w1, c - 1);
      assert UnluckyLives(c)[1..] == UnluckyLives(c - 1);
    }
  }

  // ---------------------------------------------------------------------------------------------
  // The branch is deleted before Done is saved
  // ---------------------------------------------------------------------------------------------

  lemma {:induction false} WithoutBranch(cap: int, w: Work, fate: nat -> Fate, i: nat)
    requires !w.branch && !w.stored.state.Done? && (!w.halted ==> w.a == w.stored)
    ensures var r := Drive(cap, w, fate, i).0;
            !r.branch && !r.stored.state.Done? && r.merges == w.merges && (!r.halted ==> r.a == r.stored)
    decreases Max(0, cap - w.a.attempt), Distance(w.a.state), !w.halted
  {
    if Driven(w) { WithoutBranch(cap, Step(cap, w, fate(i)), fate, i + 1); }
  }

  /** An issue whose branch is gone while its record is not Done never becomes Done, in any later life. */
  lemma {:induction false} NeverDoneWithoutBranch(cap: int, w: Work, lives: seq<nat -> Fate>)
    requires !w.branch && !w.stored.state.Done?
    ensures var r := Lives(cap, w, lives); !r.stored.state.Done? && r.merges == w.merges
    decreases |lives|
  {
    if lives != [] {
      WithoutBranch(cap, Restart(w), lives[0], 0);
      NeverDoneWithoutBranch(cap, Drive(cap, Restart(w), lives[0], 0).0, lives[1..]);
    }
  }

  /** Exactly when a merge step leaves an issue in that state: the merge went through, the branch was
      deleted, and Done was not saved. The issue is merged and can only end as Failed. */
  lemma MergedButLost(cap: int, w: Work, f: Fate, lives: seq<nat -> Fate>)
    requires Driven(w) && w.a.state.Merging? && w.a == w.stored && w.branch
    ensures var w' := Step(cap, w, f);
            && (!w'.branch && !w'.stored.state.Done? <==> f.merges && f.deletes && !f.ending.Saved?)
            && (f.merges && f.deletes && !f.ending.Saved? ==>
                  w'.merges == w.merges + 1 && !Lives(cap, w', lives).stored.state.Done?)
  {
    var w' := Step(cap, w, f);
    if f.merges && f.deletes && !f.ending.Saved? { NeverDoneWithoutBranch(cap, w', lives); }
  }

  // ---------------------------------------------------------------------------------------------
  // The engine itself
  // ---------------------------------------------------------------------------------------------

  // What one record may become: finished work stays as it is, and without its branch it is never Done.
  predicate Later(r: Rec, branch: bool, r': Rec, branch': bool) {
    && (r.state.Terminal() ==> r' == r)
    && (!branch && !r.state.Done? ==> !branch' && !r'.state.Done?)
  }

  // What a pass may have done to the records it found.
  ghost predicate AllLater(was: map<Key, Rec>, wasBranches: set<Key>, store: map<Key, Rec>, branches: set<Key>) {
    store.Keys == was.Keys && forall k :: k in was ==> Later(was[k], k in wasBranches, store[k], k in branches)
  }

  lemma OneLater(was: map<Key, Rec>, wasBranches: set<Key>, store: map<Key, Rec>, branches: set<Key>,
                 store': map<Key, Rec>, branches': set<Key>, key: Key)
    requires AllLater(was, wasBranches, store, branches) && key in store && key in store' && store' == store[key := store'[key]]
    requires forall k :: k != key ==> (k in branches' <==> k in branches)
    requires Later(store[key], key in branches, store'[key], key in branches')
    ensures AllLater(was, wasBranches, store', branches')
  {
    forall k | k in was ensures Later(was[k], k in wasBranches, store'[k], k in branches') {
      assert Later(was[k], k in wasBranches, store[k], k in branches);
    }
  }

  ghost predicate EndedUpTo(order: seq<Key>, j: nat, store: map<Key, Rec>) {
    forall i :: 0 <= i < j && i < |order| ==> order[i] in store && store[order[i]].state.Terminal()
  }

  lemma EndedNext(order: seq<Key>, j: nat, store: map<Key, Rec>, store': map<Key, Rec>)
    requires j < |order| && EndedUpTo(order, j, store) && order[j] in store' && store'[order[j]].state.Terminal()
    requires store' == store[order[j] := store'[order[j]]]
    ensures EndedUpTo(order, j + 1, store')
  {
  }

  lemma EndedAll(order: seq<Key>, store: map<Key, Rec>)
    requires EndedUpTo(order, |order|, store) && forall k :: k in store ==> k in order
    ensures forall k :: k in store ==> store[k].state.Terminal()
  {
  }

  // How a call of drive ended.
  datatype End = Finished | Stopped | UnknownState

  function EndOf(w: Work): End {
    if w.halted then Stopped else if w.a.state.Unknown? then UnknownState else Finished
  }

  /** `store` is durable; `branches` is what git holds. `ledger` counts what happened to each issue. */
  class Engine {
    const maxAttempts: int
    const retry: Option<FailurePolicy.Retry>
    var store: map<Key, Rec>
    var branches: set<Key>
    ghost var ledger: map<Key, (nat, nat, nat)>

    constructor (maxAttempts: int, retry: Option<FailurePolicy.Retry>)
      ensures this.maxAttempts == maxAttempts && this.retry == retry && Valid() && store == map[]
    {
      this.maxAttempts, this.retry, store, branches, ledger := maxAttempts, retry, map[], {}, map[];
    }

    function TheCap(): int {
      Cap(retry, maxAttempts)
    }

    // The issue as `Work`, driven with record `a`.
    ghost function WorkOn(key: Key, a: Rec, halted: bool): Work
      reads this
      requires key in store && key in ledger
    {
      Work(a, store[key], key in branches, halted, ledger[key].0, ledger[key].1, ledger[key].2)
    }

    // Every issue is within its bounds.
    ghost predicate Valid()
      reads this
    {
      && store.Keys == ledger.Keys
      && forall k :: k in store ==> Bounded(TheCap(), WorkOn(k, store[k], false))
    }

    // Nothing about the other issues changed.
    twostate predicate OnlyThis(key: Key)
      reads this
    {
      && key in store && store == old(store)[key := store[key]]
      && key in ledger && ledger == old(ledger)[key := ledger[key]]
      && (forall k :: k != key ==> (k in branches <==> k in old(branches)))
    }

    ghost method Tally(key: Key, runs: nat, breaks: nat, merges: nat)
      requires key in ledger
      modifies this`ledger
      ensures ledger == old(ledger)[key := (old(ledger)[key].0 + runs, old(ledger)[key].1 + breaks, old(ledger)[key].2 + merges)]
    {
      ledger := ledger[key := (ledger[key].0 + runs, ledger[key].1 + breaks, ledger[key].2 + merges)];
    }

    method Save(key: Key, a: Rec, e: Ending) returns (ok: bool)
      requires key in store && key in ledger
      modifies this`store, this`ledger
      ensures OnlyThis(key) && ok == e.Saved?
      ensures WorkOn(key, a, !ok) == Store(old(WorkOn(key, a, false)), a, e)
    {
      if e != Saved {
        Tally(key, 0, 1, 0);
        return false;
      }
      store := store[key := a];
      return true;
    }

    method Retry(key: Key, was: Rec, e: Ending) returns (a: Rec, ok: bool)
      requires key in store && key in ledger
      modifies this`store, this`ledger
      ensures OnlyThis(key)
      ensures WorkOn(key, a, !ok) == RetryOrFail(TheCap(), old(WorkOn(key, was, false)), e)
    {
      var n := was.attempt + 1;
      a := Rec(if ShouldRetry(retry, maxAttempts, n) then Developing else Failed, n);
      ok := Save(key, a, e);
    }

    method DevelopOnce(key: Key, was: Rec, f: Fate) returns (a: Rec, ok: bool)
      requires key in store && key in ledger
      modifies this`store, this`ledger
      ensures OnlyThis(key)
      ensures WorkOn(key, a, !ok) == Develop(TheCap(), old(WorkOn(key, was, false)), f)
    {
      if f.dev == NotSpawned {
        a, ok := Retry(key, was, f.ending);
        return;
      }
      Tally(key, 1, 0, 0);
      if f.dev == Spoiled {
        a, ok := Retry(key, was, f.ending);
        return;
      }
      a := was.(state := QA);
      ok := Save(key, a, f.ending);
    }

    method MergeOnce(key: Key, was: Rec, f: Fate) returns (a: Rec, ok: bool)
      requires key in store && key in ledger
      modifies this
      ensures OnlyThis(key)
      ensures WorkOn(key, a, !ok) == HandOffToMerge(TheCap(), old(WorkOn(key, was, false)), f)
    {
      if !f.merges || key !in branches {
        a, ok := Retry(key, was, f.ending);
        return;
      }
      Tally(key, 0, 0, 1);
      if f.deletes { branches := branches - {key}; }
      a := was.(state := Done);
      ok := Save(key, a, f.ending);
    }

    method Advance(key: Key, was: Rec, f: Fate) returns (a: Rec, ok: bool)
      requires key in store && key in ledger && Driven(WorkOn(key, was, false))
      modifies this
      ensures OnlyThis(key)
      ensures WorkOn(key, a, !ok) == Step(TheCap(), old(WorkOn(key, was, false)), f)
    {
      match was.state {
        case Claimed =>
          a := was.(state := Developing);
          ok := Save(key, a, f.ending);
        case Developing => a, ok := DevelopOnce(key, was, f);
        case QA =>
          a := was.(state := Merging);
          ok := Save(key, a, f.ending);
        case Merging => a, ok := MergeOnce(key, was, f);
      }
    }

    // A step of drive, and that it brings the end nearer.
    method DriveOnce(key: Key, was: Rec, fate: nat -> Fate, i: nat) returns (a: Rec, ok: bool)
      requires key in store && key in ledger && Driven(WorkOn(key, was, false))
      modifies this
      ensures OnlyThis(key)
      ensures Drive(TheCap(), WorkOn(key, a, !ok), fate, i + 1) == old(Drive(TheCap(), WorkOn(key, was, false), fate, i))
      ensures Max(0, TheCap() - a.attempt) < Max(0, TheCap() - was.attempt) ||
              (Max(0, TheCap() - a.attempt) == Max(0, TheCap() - was.attempt) &&
               (Distance(a.state) < Distance(was.state) || (Distance(a.state) == Distance(was.state) && !ok)))
    {
      DriveOn(TheCap(), WorkOn(key, was, false), fate, i);
      a, ok := Advance(key, was, fate(i));
    }

    /** Drives one stored issue until it is terminal, a save fails or the process dies; it always ends. */
    method DriveIssue(key: Key, fate: nat -> Fate, from: nat) returns (end: End, i: nat)
      requires key in store && key in ledger
      modifies this
      ensures OnlyThis(key)
      ensures var w := Drive(TheCap(), old(WorkOn(key, store[key], false)), fate, from);
              WorkOn(key, w.0.a, w.0.halted) == w.0 && i == w.1 && end == EndOf(w.0)
    {
      var a := store[key];
      i := from;
      var ok := true;
      ghost var all := Drive(TheCap(), WorkOn(key, a, false), fate, from);
      while ok && !a.state.Terminal() && !a.state.Unknown?
        invariant OnlyThis(key)
        invariant Drive(TheCap(), WorkOn(key, a, !ok), fate, i) == all
        decreases Max(0, TheCap() - a.attempt), Distance(a.state), ok
      {
        a, ok := DriveOnce(key, a, fate, i);
        i := i + 1;
      }
      assert !Driven(WorkOn(key, a, !ok)) && all == (WorkOn(key, a, !ok), i);
      end := if !ok then Stopped else if a.state.Unknown? then UnknownState else Finished;
    }

    method DriveValid(key: Key, fate: nat -> Fate, from: nat) returns (end: End, i: nat)
      requires Valid() && key in store
      modifies this
      ensures Valid() && OnlyThis(key)
      ensures end.Finished? ==> store[key].state.Terminal()
      ensures Later(old(store)[key], key in old(branches), store[key], key in branches)
    {
      ghost var w0 := WorkOn(key, store[key], false);
      DriveBounded(TheCap(), w0, fate, from);
      if key !in branches && !store[key].state.Done? { WithoutBranch(TheCap(), w0, fate, from); }
      end, i := DriveIssue(key, fate, from);
      ghost var w := Drive(TheCap(), w0, fate, from).0;
      assert Bounded(TheCap(), WorkOn(key, w.a, w.halted));
      forall k | k in store ensures Bounded(TheCap(), WorkOn(k, store[k], false)) {
        if k != key { assert WorkOn(k, store[k], false) == old(WorkOn(k, store[k], false)); }
      }
    }

    /** After a restart: every unfinished record is driven on from where it was stored, the first error ends
        the pass, and finished work is left alone. A pass without an error leaves nothing unfinished. */
    method Resume(order: seq<Key>, fate: nat -> Fate) returns (ok: bool)
      requires Valid() && forall k :: k in order <==> k in store
      modifies this
      ensures Valid() && store.Keys == old(store.Keys)
      ensures forall k :: k in old(store) ==> Later(old(store)[k], k in old(branches), store[k], k in branches)
      ensures ok ==> forall k :: k in store ==> store[k].state.Terminal()
    {
      var i := 0;
      for j := 0 to |order|
        invariant Valid() && AllLater(old(store), old(branches), store, branches) && EndedUpTo(order, j, store)
      {
        var key := order[j];
        assert key in order;
        ghost var store0, branches0 := store, branches;
        var end := Finished;
        if !store[key].state.Terminal() {
          end, i := DriveValid(key, fate, i);
          OneLater(old(store), old(branches), store0, branches0, store, branches, key);
        }
        if end != Finished { return false; }
        EndedNext(order, j, store0, store);
      }
      EndedAll(order, store);
      return true;
    }

    method FailClaim(key: Key, failing: Ending) returns (ok: bool)
      requires Valid() && key in store && store[key] == Rec(Claimed, 0)
      modifies this
      ensures Valid() && OnlyThis(key) && ok == failing.Saved?
      ensures store[key] == if ok then Rec(Failed, 0) else Rec(Claimed, 0)
    {
      ok := Save(key, Rec(Failed, 0), failing);
      forall k | k in store ensures Bounded(TheCap(), WorkOn(k, store[k], false)) {
        if k != key { assert WorkOn(k, store[k], false) == old(WorkOn(k, store[k], false)); }
      }
    }

    method Lock(key: Key, made: bool)
      requires Valid() && key !in store
      modifies this
      ensures Valid() && OnlyThis(key) && store[key] == Rec(Claimed, 0)
    {
      store := store[key := Rec(Claimed, 0)];
      ledger := ledger[key := (0, 0, 0)];
      if made { branches := branches + {key}; }
      forall k | k in store ensures Bounded(TheCap(), WorkOn(k, store[k], false)) {
        if k != key { assert WorkOn(k, store[k], false) == old(WorkOn(k, store[k], false)); }
      }
    }

    // Persists the claim before anything else, then makes the branch; a git failure fails the issue.
    method Claim(key: Key, saved: Ending, made: bool, gitOK: bool, failing: Ending) returns (ok: bool)
      requires Valid() && key !in store
      modifies this
      ensures Valid()
      ensures saved.Saved? <==> key in store
      ensures forall k :: k in old(store) ==> k in store && store[k] == old(store)[k]
      ensures forall k :: k in store && k !in old(store) ==> k == key
      ensures ok ==> saved.Saved? && store[key].state.Terminal() == !gitOK
      ensures key in store && store[key].state.Terminal() ==> !gitOK
    {
      if saved != Saved { return false; }
      Lock(key, made);
      if gitOK { return true; }
      ok := FailClaim(key, failing);
    }

    /** Claims and drives the first listed issue that has no record, active or finished; an issue that has
        one is never claimed again and its record is not touched. */
    method ClaimAndRun(queue: seq<Key>, saved: Ending, made: bool, gitOK: bool, failing: Ending, fate: nat -> Fate)
      returns (claimed: Option<Key>, ok: bool)
      requires Valid()
      modifies this
      ensures Valid()
      ensures forall k :: k in old(store) ==> k in store && store[k] == old(store)[k]
      ensures claimed.None? ==> store == old(store) && ok && forall k :: k in queue ==> k in store
      ensures claimed.Some? ==> claimed.value in queue && claimed.value !in old(store) &&
                                (forall k :: k in store && k !in old(store) ==> k == claimed.value) &&
                                (ok ==> claimed.value in store && store[claimed.value].state.Terminal())
      ensures claimed.Some? ==>
                exists j :: 0 <= j < |queue| && queue[j] == claimed.value && forall k :: k in queue[..j] ==> k in old(store)
    {
      for j := 0 to |queue|
        invariant Valid() && store == old(store) && forall k :: k in queue[..j] ==> k in store
      {
        var key := queue[j];
        if key !in store {
          claimed := Some(key);
          ok := Claim(key, saved, made, gitOK, failing);
          if ok {
            var end, _ := DriveValid(key, fate, 0);
            ok := end == Finished;
          }
          return;
        }
        assert queue[..j + 1] == queue[..j] + [key];
      }
      assert queue[..|queue|] == queue;
      return None, true;
    }
  }
}
