/** The improvement loop: verify, ask the policy, improve, until something stops it.

    `IsRun` says of a result everything the source promises about the run behind it, and determines it;
    `Run` is the loop, proved to meet `IsRun`. */
module Improvement {
  import opened Options
  import opened Ordering
  import opened Verification
  import FailurePolicy

  datatype Decision = Continue | Defer | Escalate | GiveUp

  datatype StopInput = StopInput(iteration: int, failures: nat, delta: int, stuck: bool, outcome: Outcome)

  datatype Status = Passed | PolicyDeferred | Escalated | Failed | Exhausted

  datatype Change = Changed(category: string, reason: string, files: seq<string>) | ImproveError(message: string)

  datatype Record = Record(n: nat, outcome: Outcome, failures: nat, delta: int, signature: Signature,
                           category: string, reason: string, files: seq<string>)

  // `status` is None when the verifier itself returned an error.
  datatype Result = Result(status: Option<Status>, iterations: nat, changed: seq<string>, outcome: Outcome, records: seq<Record>)

  // What a verification amounts to.
  datatype Facts = Facts(outcome: Outcome, failures: nat, signature: Signature)

  // What the run meets from outside: the verifier and the improver at each iteration, and the policy.
  datatype World = World(verify: nat -> Option<Facts>, improve: nat -> Change, decide: StopInput -> Decision)

  function Observe(cs: Option<seq<Check>>): Option<Facts> {
    match cs
    case None => None
    case Some(cs) => Some(Facts(Verdict(cs), Failures(cs), SignatureOf(cs)))
  }

  function Meeting(verifier: nat -> Option<seq<Check>>, improve: nat -> Change, decide: StopInput -> Decision): World {
    World((n: nat) => Observe(verifier(n)), improve, decide)
  }

  datatype Engine = Engine(maxIterations: int, stuckThreshold: int)

  // -- the specification ---------------------------------------------------------------------------

  // At `i` the signature repeated and the failures did not drop.
  predicate Repeats(rs: seq<Record>, i: int) {
    0 < i < |rs| && rs[i].signature == rs[i - 1].signature && rs[i].failures >= rs[i - 1].failures
  }

  // The last `threshold + 1` iterations had one signature and no drop in failures.
  predicate Stuck(rs: seq<Record>, i: int, threshold: int) {
    threshold <= i && forall j :: i - threshold < j <= i ==> Repeats(rs, j)
  }

  function InputAt(e: Engine, rs: seq<Record>, i: nat): StopInput
    requires i < |rs|
  {
    StopInput(rs[i].n, rs[i].failures, rs[i].delta, Stuck(rs, i, e.stuckThreshold), rs[i].outcome)
  }

  // What verification number i + 1 leaves in the record.
  ghost predicate Measured(w: World, rs: seq<Record>, i: nat)
    requires i < |rs|
  {
    var v := w.verify(i + 1);
    && v.Some? && rs[i].n == i + 1
    && Facts(rs[i].outcome, rs[i].failures, rs[i].signature) == v.value
    && rs[i].delta == if i == 0 then 0 else rs[i - 1].failures - rs[i].failures
  }

  // An iteration after which the loop goes on: not passed, the policy says continue, one improvement.
  ghost predicate WentOn(e: Engine, w: World, rs: seq<Record>, i: nat)
    requires i < |rs|
  {
    && Measured(w, rs, i) && !rs[i].outcome.Pass? && w.decide(InputAt(e, rs, i)) == Continue
    && match w.improve(i + 1)
       case ImproveError(m) => rs[i].category == "" && rs[i].reason == "improve failed: " + m && rs[i].files == []
       case Changed(c, r, fs) => rs[i].category == c && rs[i].reason == r && rs[i].files == fs
  }

  function StopStatus(d: Decision): Status {
    match d
    case Defer => PolicyDeferred
    case Escalate => Escalated
    case _ => Failed
  }

  function StopReason(d: Decision): string {
    match d
    case Defer => "policy: defer"
    case Escalate => "policy: escalate"
    case _ => "policy: fail"
  }

  // An iteration that ended the run.
  ghost predicate Stopped(e: Engine, w: World, rs: seq<Record>, i: nat, s: Status)
    requires i < |rs|
  {
    && Measured(w, rs, i) && rs[i].category == "" && rs[i].files == []
    && if rs[i].outcome.Pass? then s == Passed && rs[i].reason == "verification passed"
       else
         var d := w.decide(InputAt(e, rs, i));
         d != Continue && s == StopStatus(d) && rs[i].reason == StopReason(d)
  }

  ghost predicate ChangedBy(rs: seq<Record>, f: string) {
    exists i :: 0 <= i < |rs| && f in rs[i].files
  }

  // The files that were changed, each once, sorted.
  ghost predicate ChangedFiles(rs: seq<Record>, files: seq<string>) {
    && (forall i, j :: 0 <= i < j < |files| ==> StrLess(files[i], files[j]))
    && (forall f :: f in files <==> ChangedBy(rs, f))
  }

  ghost predicate IsRun(e: Engine, w: World, r: Result) {
    var n := |r.records|;
    && r.iterations == n && ChangedFiles(r.records, r.changed)
    && match r.status
       case None => n < e.maxIterations && r.outcome == Inconclusive && w.verify(n + 1).None? &&
                    forall i :: 0 <= i < n ==> WentOn(e, w, r.records, i)
       case Some(s) =>
         if s.Exhausted? then
           n >= e.maxIterations && (n > 0 ==> n == e.maxIterations) && r.outcome == Inconclusive &&
           forall i :: 0 <= i < n ==> WentOn(e, w, r.records, i)
         else
           0 < n <= e.maxIterations && Stopped(e, w, r.records, n - 1, s) && r.outcome == r.records[n - 1].outcome &&
           forall i :: 0 <= i < n - 1 ==> WentOn(e, w, r.records, i)
  }

  // -- the loop ------------------------------------------------------------------------------------

  // How long the streak of repeated failures up to `i` is.
  function Streak(rs: seq<Record>, i: int): (k: nat)
    decreases i
  {
    if Repeats(rs, i) then 1 + Streak(rs, i - 1) else 0
  }

  lemma {:induction false} StreakIsStuck(rs: seq<Record>, i: int, threshold: int)
    requires 0 <= i < |rs|
    ensures Streak(rs, i) >= threshold <==> Stuck(rs, i, threshold)
    decreases i
  {
    if Repeats(rs, i) {
      StreakIsStuck(rs, i - 1, threshold - 1);
    } else if threshold > 0 && threshold <= i {
      assert i - threshold < i <= i && !Repeats(rs, i);
    }
  }

  lemma {:induction false} PrefixStreak(rs: seq<Record>, more: seq<Record>, i: int)
    requires i < |rs| && rs <= more
    ensures Streak(more, i) == Streak(rs, i)
    decreases i
  {
    if Repeats(rs, i) { PrefixStreak(rs, more, i - 1); }
  }

  function FilesOf(rec: Record): set<string> {
    set f | f in rec.files
  }

  // Everything changed in the recorded iterations.
  function AllChanged(rs: seq<Record>): set<string>
    decreases |rs|
  {
    if rs == [] then {} else AllChanged(rs[..|rs| - 1]) + FilesOf(rs[|rs| - 1])
  }

  lemma {:induction false} AllChangedBy(rs: seq<Record>, f: string)
    ensures f in AllChanged(rs) <==> ChangedBy(rs, f)
    decreases |rs|
  {
    if rs != [] {
      var init, last := rs[..|rs| - 1], |rs| - 1;
      AllChangedBy(init, f);
      if ChangedBy(init, f) {
        var i :| 0 <= i < |init| && f in init[i].files;
        assert f in rs[i].files;
      }
      if f in rs[last].files { assert ChangedBy(rs, f); }
      if ChangedBy(rs, f) && f !in rs[last].files {
        var i :| 0 <= i < |rs| && f in rs[i].files;
        assert f in init[i].files;
      }
    }
  }

  lemma PrefixRepeats(rs: seq<Record>, more: seq<Record>, i: int)
    requires i < |rs| && rs <= more
    ensures Repeats(more, i) == Repeats(rs, i)
    ensures forall t :: Stuck(more, i, t) == Stuck(rs, i, t)
  {
    assert forall j :: j < |rs| ==> Repeats(more, j) == Repeats(rs, j);
  }

  // Extending the records changes nothing that was said of the earlier ones.
  lemma PrefixWentOn(e: Engine, w: World, rs: seq<Record>, more: seq<Record>)
    requires rs <= more && forall i :: 0 <= i < |rs| ==> WentOn(e, w, rs, i)
    ensures forall i :: 0 <= i < |rs| ==> WentOn(e, w, more, i)
  {
    forall i | 0 <= i < |rs| ensures WentOn(e, w, more, i) {
      assert WentOn(e, w, rs, i);
      PrefixRepeats(rs, more, i);
      assert InputAt(e, more, i) == InputAt(e, rs, i);
    }
  }

  lemma ChangedExactly(rs: seq<Record>, files: seq<string>)
    requires (forall i, j :: 0 <= i < j < |files| ==> StrLess(files[i], files[j])) && forall f :: f in files <==> f in AllChanged(rs)
    ensures ChangedFiles(rs, files)
  {
    forall f ensures f in files <==> ChangedBy(rs, f) { AllChangedBy(rs, f); }
  }

  // `k` is the streak that the loop counts when `rec` comes after `rs`.
  predicate Counted(rs: seq<Record>, rec: Record, k: int) {
    if rs == [] then k == 0
    else if rec.signature == rs[|rs| - 1].signature && rec.failures >= rs[|rs| - 1].failures then k == Streak(rs, |rs| - 1) + 1
    else k == 0
  }

  lemma StreakGrows(rs: seq<Record>, rec: Record, k: int)
    requires Counted(rs, rec, k)
    ensures Streak(rs + [rec], |rs|) == k
  {
    var more := rs + [rec];
    if rs != [] { PrefixStreak(rs, more, |rs| - 1); }
  }

  // `rec` holds what the next verification found.
  ghost predicate Next(w: World, rs: seq<Record>, rec: Record) {
    && rec.n == |rs| + 1 && w.verify(|rs| + 1) == Some(Facts(rec.outcome, rec.failures, rec.signature))
    && rec.delta == if rs == [] then 0 else rs[|rs| - 1].failures - rec.failures
  }

  lemma NextInput(e: Engine, w: World, rs: seq<Record>, rec: Record, k: int)
    requires Next(w, rs, rec) && Counted(rs, rec, k)
    ensures Measured(w, rs + [rec], |rs|) && Streak(rs + [rec], |rs|) == k
    ensures InputAt(e, rs + [rec], |rs|) == StopInput(rec.n, rec.failures, rec.delta, k >= e.stuckThreshold, rec.outcome)
  {
    StreakGrows(rs, rec, k);
    StreakIsStuck(rs + [rec], |rs|, e.stuckThreshold);
  }

  ghost predicate AllWentOn(e: Engine, w: World, rs: seq<Record>) {
    forall i :: 0 <= i < |rs| ==> WentOn(e, w, rs, i)
  }

  // The loop's variables between two iterations.
  ghost predicate Between(e: Engine, w: World, rs: seq<Record>, changed: set<string>, prev: int, last: Signature, k: int) {
    && (rs == [] || |rs| <= e.maxIterations)
    && AllWentOn(e, w, rs)
    && changed == AllChanged(rs)
    && if rs == [] then prev == -1 && last == NoSignature
       else prev == rs[|rs| - 1].failures && last == rs[|rs| - 1].signature && k == Streak(rs, |rs| - 1)
  }

  lemma CountedNext(e: Engine, w: World, rs: seq<Record>, changed: set<string>, prev: int, last: Signature, rec: Record, k: int)
    requires Between(e, w, rs, changed, prev, last, k)
    requires rec.signature.Digest? && rec.delta == if prev >= 0 then prev - rec.failures else 0
    ensures Counted(rs, rec, if rec.signature == last && rec.delta <= 0 then k + 1 else 0)
  {
  }

  lemma Advance(e: Engine, w: World, rs: seq<Record>, changed: set<string>, prev: int, last: Signature, rec: Record, k: int, k': int)
    requires Between(e, w, rs, changed, prev, last, k) && |rs| < e.maxIterations
    requires Counted(rs, rec, k') && WentOn(e, w, rs + [rec], |rs|)
    ensures Between(e, w, rs + [rec], changed + FilesOf(rec), rec.failures, rec.signature, k')
  {
    StreakGrows(rs, rec, k');
    PrefixWentOn(e, w, rs, rs + [rec]);
    assert (rs + [rec])[..|rs|] == rs;
  }

  method Finish(e: Engine, ghost w: World, records: seq<Record>, rec: Record, s: Status, changed: set<string>) returns (r: Result)
    requires |records| < e.maxIterations && !s.Exhausted?
    requires AllWentOn(e, w, records) && changed == AllChanged(records)
    requires Stopped(e, w, records + [rec], |records|, s)
    ensures IsRun(e, w, r)
  {
    var files := SortedStrings(changed);
    PrefixWentOn(e, w, records, records + [rec]);
    assert (records + [rec])[..|records|] == records && rec.files == [];
    ChangedExactly(records + [rec], files);
    return Result(Some(s), |records| + 1, files, rec.outcome, records + [rec]);
  }

  // One improvement, recorded; a failed one is an iteration that changed nothing.
  function Improved(rec: Record, c: Change): Record {
    match c
    case ImproveError(m) => rec.(reason := "improve failed: " + m)
    case Changed(cat, reason, fs) => rec.(category := cat, reason := reason, files := fs)
  }

  // Verified, not passed, told to continue, improved: the loop goes on with one more record.
  lemma Proceeds(e: Engine, w: World, rs: seq<Record>, changed: set<string>, prev: int, last: Signature, k: int,
                 rec: Record, k': int, rec': Record)
    requires Between(e, w, rs, changed, prev, last, k) && |rs| < e.maxIterations
    requires Next(w, rs, rec) && Counted(rs, rec, k') && rec.category == "" && rec.files == [] && !rec.outcome.Pass?
    requires w.decide(StopInput(rec.n, rec.failures, rec.delta, k' >= e.stuckThreshold, rec.outcome)) == Continue
    requires rec' == Improved(rec, w.improve(|rs| + 1))
    ensures Between(e, w, rs + [rec'], changed + FilesOf(rec'), rec'.failures, rec'.signature, k')
  {
    NextInput(e, w, rs, rec', k');
    assert WentOn(e, w, rs + [rec'], |rs|);
    Advance(e, w, rs, changed, prev, last, rec', k, k');
  }

  // Verified, not passed, told to stop.
  method FinishStopped(e: Engine, ghost w: World, records: seq<Record>, bare: Record, d: Decision, changed: set<string>, ghost k: int)
    returns (r: Result)
    requires |records| < e.maxIterations && AllWentOn(e, w, records) && changed == AllChanged(records)
    requires Next(w, records, bare) && Counted(records, bare, k) && bare.category == "" && bare.files == [] && !bare.outcome.Pass?
    requires d == w.decide(StopInput(bare.n, bare.failures, bare.delta, k >= e.stuckThreshold, bare.outcome)) && d != Continue
    ensures IsRun(e, w, r)
  {
    var rec := bare.(reason := StopReason(d));
    NextInput(e, w, records, rec, k);
    r := Finish(e, w, records, rec, StopStatus(d), changed);
  }

  method FinishPassed(e: Engine, ghost w: World, records: seq<Record>, bare: Record, changed: set<string>) returns (r: Result)
    requires |records| < e.maxIterations && AllWentOn(e, w, records) && changed == AllChanged(records)
    requires Next(w, records, bare) && bare.category == "" && bare.files == [] && bare.outcome.Pass?
    ensures IsRun(e, w, r)
  {
    r := Finish(e, w, records, bare.(reason := "verification passed"), Passed, changed);
  }

  lemma MeasuredNext(e: Engine, w: World, rs: seq<Record>, changed: set<string>, prev: int, last: Signature, k: int, rec: Record)
    requires Between(e, w, rs, changed, prev, last, k)
    requires w.verify(|rs| + 1) == Some(Facts(rec.outcome, rec.failures, rec.signature)) && rec.n == |rs| + 1
    requires rec.delta == if prev >= 0 then prev - rec.failures else 0
    ensures Next(w, rs, rec)
  {
  }

  // The record of one verification, before it is known what comes of it.
  method Measure(e: Engine, ghost w: World, records: seq<Record>, ghost changed: set<string>, prevFailures: int,
                 ghost last: Signature, ghost k: int, cs: seq<Check>) returns (rec: Record)
    requires Between(e, w, records, changed, prevFailures, last, k) && w.verify(|records| + 1) == Observe(Some(cs))
    ensures Next(w, records, rec) && rec.signature.Digest? && rec.n == |records| + 1 && rec.category == "" && rec.files == []
    ensures rec.delta == (if prevFailures >= 0 then prevFailures - rec.failures else 0)
  {
    var outcome := Aggregate(cs);
    var failures := CountFailures(cs);
    var sig := MakeSignature(cs);
    var delta := 0;
    if prevFailures >= 0 { delta := prevFailures - failures; }
    rec := Record(|records| + 1, outcome, failures, delta, sig, "", "", []);
    MeasuredNext(e, w, records, changed, prevFailures, last, k, rec);
  }

  method Run(e: Engine, verifier: nat -> Option<seq<Check>>, improve: nat -> Change, decide: StopInput -> Decision)
    returns (r: Result)
    ensures IsRun(e, Meeting(verifier, improve, decide), r)
  {
    ghost var w := Meeting(verifier, improve, decide);
    var records: seq<Record> := [];
    var changed: set<string> := {};
    var prevFailures: int := -1;
    var lastSig := NoSignature;
    var sigRepeat := 0;
    while |records| < e.maxIterations
      invariant Between(e, w, records, changed, prevFailures, lastSig, sigRepeat)
      decreases e.maxIterations - |records|
    {
      var iterN := |records| + 1;
      var results := verifier(iterN);
      if results.None? {
        r := Unfinished(e, w, records, changed, prevFailures, lastSig, sigRepeat, None);
        return;
      }
      var rec := Measure(e, w, records, changed, prevFailures, lastSig, sigRepeat, results.value);
      if rec.outcome == Pass {
        r := FinishPassed(e, w, records, rec, changed);
        return;
      }
      ghost var prev, last, k := prevFailures, lastSig, sigRepeat;
      CountedNext(e, w, records, changed, prev, last, rec, k);
      if rec.signature == lastSig && rec.delta <= 0 { sigRepeat := sigRepeat + 1; } else { sigRepeat := 0; }
      lastSig := rec.signature;
      prevFailures := rec.failures;
      var stuck := sigRepeat >= e.stuckThreshold;
      var d := decide(StopInput(iterN, rec.failures, rec.delta, stuck, rec.outcome));
      if d != Continue {
        r := FinishStopped(e, w, records, rec, d, changed, sigRepeat);
        return;
      }
      var change := improve(iterN);
      Proceeds(e, w, records, changed, prev, last, k, rec, sigRepeat, Improved(rec, change));
      rec := Improved(rec, change);
      changed := changed + FilesOf(rec);
      records := records + [rec];
    }
    r := Unfinished(e, w, records, changed, prevFailures, lastSig, sigRepeat, Some(Exhausted));
  }

  // The run ends between two iterations: at the ceiling, or because the verifier failed.
  method Unfinished(e: Engine, ghost w: World, records: seq<Record>, changed: set<string>, ghost prev: int, ghost last: Signature,
                    ghost k: int, status: Option<Status>) returns (r: Result)
    requires Between(e, w, records, changed, prev, last, k)
    requires (status == Some(Exhausted) && |records| >= e.maxIterations) ||
             (status.None? && |records| < e.maxIterations && w.verify(|records| + 1).None?)
    ensures IsRun(e, w, r)
  {
    var files := SortedStrings(changed);
    ChangedExactly(records, files);
    return Result(status, |records|, files, Inconclusive, records);
  }

  // ---------------------------------------------------------------------------------------------
  // What follows for every run
  // ---------------------------------------------------------------------------------------------

  /** The loop ends within the ceiling, and its records number the verifications that were made. */
  lemma EndsWithinCeiling(e: Engine, w: World, r: Result)
    requires IsRun(e, w, r)
    ensures r.iterations == |r.records| && (r.iterations > 0 ==> r.iterations <= e.maxIterations)
    ensures forall i :: 0 <= i < |r.records| ==> Measured(w, r.records, i)
    ensures r.status.Some? || w.verify(r.iterations + 1).None?
  {
    forall i | 0 <= i < |r.records| ensures Measured(w, r.records, i) {
      assert WentOn(e, w, r.records, i) || i == |r.records| - 1;
    }
  }

  // The last `t + 1` iterations up to `i` failed in the same way, and none brought the failures down.
  predicate NoProgress(rs: seq<Record>, i: nat, t: int)
    requires i < |rs|
  {
    && t <= i && (forall j :: i - t <= j <= i ==> rs[j].signature == rs[i].signature)
    && (forall j :: i - t < j <= i ==> rs[j].delta <= 0)
  }

  // What the records say of one repetition, and of one more.
  lemma RepeatsExactly(e: Engine, w: World, r: Result, i: nat)
    requires IsRun(e, w, r) && 0 < i < |r.records|
    ensures var rs := r.records;
            Repeats(rs, i) <==> rs[i].signature == rs[i - 1].signature && rs[i].delta <= 0
  {
    EndsWithinCeiling(e, w, r);
    assert Measured(w, r.records, i);
  }

  lemma StuckOneMore(rs: seq<Record>, i: nat, t: int)
    requires 0 < t <= i < |rs|
    ensures Stuck(rs, i, t) <==> Repeats(rs, i) && Stuck(rs, i - 1, t - 1)
    ensures NoProgress(rs, i, t) <==> rs[i].signature == rs[i - 1].signature && rs[i].delta <= 0 && NoProgress(rs, i - 1, t - 1)
  {
  }

  /** Being stuck, in terms of what the records say. */
  lemma {:induction false} StuckExactly(e: Engine, w: World, r: Result, i: nat, t: int)
    requires IsRun(e, w, r) && i < |r.records|
    ensures Stuck(r.records, i, t) <==> NoProgress(r.records, i, t)
    decreases i
  {
    if 0 < t <= i {
      RepeatsExactly(e, w, r, i);
      StuckOneMore(r.records, i, t);
      StuckExactly(e, w, r, i - 1, t - 1);
    }
  }

  function SumDeltas(rs: seq<Record>): int
    decreases |rs|
  {
    if rs == [] then 0 else SumDeltas(rs[..|rs| - 1]) + rs[|rs| - 1].delta
  }

  /** The progress that was reported adds up to the progress that was made. */
  lemma DeltasTelescope(e: Engine, w: World, r: Result)
    requires IsRun(e, w, r) && r.records != []
    ensures SumDeltas(r.records) == r.records[0].failures - r.records[|r.records| - 1].failures
  {
    EndsWithinCeiling(e, w, r);
    forall i | 0 <= i < |r.records|
      ensures r.records[i].delta == if i == 0 then 0 else r.records[i - 1].failures - r.records[i].failures
    {
      assert Measured(w, r.records, i);
    }
    assert Measured(w, r.records, 0);
    Telescope(r.records, |r.records|);
    assert r.records[..|r.records|] == r.records;
  }

  lemma {:induction false} Telescope(rs: seq<Record>, n: nat)
    requires 0 < n <= |rs| && rs[0].delta == 0
    requires forall i :: 0 < i < |rs| ==> rs[i].delta == rs[i - 1].failures - rs[i].failures
    ensures SumDeltas(rs[..n]) == rs[0].failures - rs[n - 1].failures
  {
    assert rs[..n][..n - 1] == rs[..n - 1];
    if n > 1 { Telescope(rs, n - 1); } else { assert SumDeltas(rs[..0]) == 0; }
  }

  lemma SameInput(e: Engine, a: seq<Record>, b: seq<Record>, i: nat)
    requires i < |a| && i < |b|
    requires forall j :: 0 <= j <= i ==> a[j].n == b[j].n && a[j].outcome == b[j].outcome && a[j].failures == b[j].failures &&
                                         a[j].signature == b[j].signature && a[j].delta == b[j].delta
    ensures InputAt(e, a, i) == InputAt(e, b, i)
  {
    assert forall j :: j <= i ==> Repeats(a, j) == Repeats(b, j);
  }

  lemma {:induction false} SameRecords(e: Engine, w: World, a: seq<Record>, b: seq<Record>, n: nat)
    requires n <= |a| && n <= |b|
    requires forall i :: 0 <= i < n ==> Measured(w, a, i) && Measured(w, b, i)
    ensures forall i :: 0 <= i < n ==> a[i].failures == b[i].failures && a[i].outcome == b[i].outcome && a[i].n == b[i].n &&
                                       a[i].signature == b[i].signature && a[i].delta == b[i].delta
  {
    if n > 0 {
      SameRecords(e, w, a, b, n - 1);
      assert Measured(w, a, n - 1) && Measured(w, b, n - 1);
    }
  }

  lemma SortedSame(a: seq<string>, b: seq<string>)
    requires forall i, j :: 0 <= i < j < |a| ==> StrLess(a[i], a[j])
    requires forall i, j :: 0 <= i < j < |b| ==> StrLess(b[i], b[j])
    requires forall f :: f in a <==> f in b
    ensures a == b
  {
    var u := set f | f in a;
    StringOrder(u);
    assert Distinct(a) && Distinct(b);
    DistinctByMultiset(a);
    DistinctByMultiset(b);
    forall f ensures multiset(a)[f] == multiset(b)[f] {
      assert (f in multiset(a)) == (f in a) == (f in b) == (f in multiset(b));
    }
    assert multiset(a) == multiset(b);
    SortedUnique(StrLe, a, b, u);
  }

  /** The specification leaves no choice: the outside world determines the whole result. */
  lemma RunIsDetermined(e: Engine, w: World, r1: Result, r2: Result)
    requires IsRun(e, w, r1) && IsRun(e, w, r2)
    ensures r1 == r2
  {
    var a, b := r1.records, r2.records;
    SameLength(e, w, r1, r2);
    SameLength(e, w, r2, r1);
    AllSame(e, w, r1, r2);
    assert a == b;
    SameStatus(e, w, r1, r2);
    SortedSame(r1.changed, r2.changed);
  }

  lemma EachIteration(e: Engine, w: World, r: Result, i: nat)
    requires IsRun(e, w, r) && i < |r.records|
    ensures WentOn(e, w, r.records, i) || (r.status.Some? && Stopped(e, w, r.records, i, r.status.value))
  {
  }

  lemma AllSame(e: Engine, w: World, r1: Result, r2: Result)
    requires IsRun(e, w, r1) && IsRun(e, w, r2) && |r1.records| == |r2.records|
    ensures r1.records == r2.records
  {
    var a, b := r1.records, r2.records;
    EndsWithinCeiling(e, w, r1);
    EndsWithinCeiling(e, w, r2);
    SameRecords(e, w, a, b, |a|);
    forall i | 0 <= i < |a| ensures a[i] == b[i] {
      EachIteration(e, w, r1, i);
      EachIteration(e, w, r2, i);
      SameRecord(e, w, a, b, i, r1.status, r2.status);
    }
  }

  lemma SameRecord(e: Engine, w: World, a: seq<Record>, b: seq<Record>, i: nat, s: Option<Status>, t: Option<Status>)
    requires i < |a| && i < |b|
    requires forall j :: 0 <= j <= i ==> a[j].n == b[j].n && a[j].outcome == b[j].outcome && a[j].failures == b[j].failures &&
                                         a[j].signature == b[j].signature && a[j].delta == b[j].delta
    requires WentOn(e, w, a, i) || (s.Some? && Stopped(e, w, a, i, s.value))
    requires WentOn(e, w, b, i) || (t.Some? && Stopped(e, w, b, i, t.value))
    ensures a[i] == b[i]
  {
    SameInput(e, a, b, i);
  }

  lemma SameStatus(e: Engine, w: World, r1: Result, r2: Result)
    requires IsRun(e, w, r1) && IsRun(e, w, r2) && r1.records == r2.records
    ensures r1.status == r2.status && r1.outcome == r2.outcome
  {
    var i := |r1.records| - 1;
    if i >= 0 {
      assert WentOn(e, w, r1.records, i) || (r1.status.Some? && Stopped(e, w, r1.records, i, r1.status.value));
      assert WentOn(e, w, r2.records, i) || (r2.status.Some? && Stopped(e, w, r2.records, i, r2.status.value));
    }
  }

  lemma SameLength(e: Engine, w: World, r1: Result, r2: Result)
    requires IsRun(e, w, r1) && IsRun(e, w, r2)
    ensures |r1.records| >= |r2.records|
  {
    var a, b := r1.records, r2.records;
    var n := |a|;
    EndsWithinCeiling(e, w, r1);
    EndsWithinCeiling(e, w, r2);
    if n < |b| {
      SameRecords(e, w, a, b, n);
      assert Measured(w, b, n);
      if r1.status.Some? && !r1.status.value.Exhausted? {
        assert WentOn(e, w, b, n - 1);
        SameInput(e, a, b, n - 1);
      }
    }
  }

  // ---------------------------------------------------------------------------------------------
  // Under the Policy Engine
  // ---------------------------------------------------------------------------------------------

  function PolicyDecide(p: FailurePolicy.Policy, s: StopInput): Decision {
    match FailurePolicy.Classify(p, s.iteration, !s.stuck, s.outcome.Blocked?)
    case DoRetry => Continue
    case DoDefer => Defer
    case DoEscalate => Escalate
    case DoFail => GiveUp
  }

  ghost predicate UnderPolicy(p: FailurePolicy.Policy, w: World) {
    forall s :: w.decide(s) == PolicyDecide(p, s)
  }

  /** Within the retry cap the policy always stops the loop first: the number of iterations is at most the
      cap (or one), and the ceiling is never what ends it. */
  lemma PolicyStopsFirst(p: FailurePolicy.Policy, e: Engine, w: World, r: Result)
    requires UnderPolicy(p, w) && IsRun(e, w, r)
    ensures r.iterations <= 1 || r.iterations <= p.retry.maxAttempts
    ensures 1 <= e.maxIterations && p.retry.maxAttempts <= e.maxIterations ==> r.status != Some(Exhausted)
  {
    var n := r.iterations;
    if n >= 2 { assert WentOn(e, w, r.records, n - 2); }
    if n >= 1 && r.status == Some(Exhausted) { assert WentOn(e, w, r.records, n - 1); }
  }

  /** Under the policy the loop goes on after an iteration exactly when that neither passed nor was blocked, is not
      stuck, retries are on and the cap is not reached. */
  lemma PolicyGoesOn(p: FailurePolicy.Policy, e: Engine, w: World, r: Result, i: nat)
    requires UnderPolicy(p, w) && IsRun(e, w, r) && i < |r.records|
    ensures i < |r.records| - 1 || r.status in {None, Some(Exhausted)}
            <==> !r.records[i].outcome.Pass? && !r.records[i].outcome.Blocked? && !p.retry.disableFlaky &&
                 i + 1 < p.retry.maxAttempts && !NoProgress(r.records, i, e.stuckThreshold)
  {
    StuckExactly(e, w, r, i, e.stuckThreshold);
    EachIteration(e, w, r, i);
    EndsWithinCeiling(e, w, r);
    assert Measured(w, r.records, i);
    if i < |r.records| - 1 || r.status in {None, Some(Exhausted)} { assert WentOn(e, w, r.records, i); }
  }

  /** What each ending means under the policy. */
  lemma PolicyVerdicts(p: FailurePolicy.Policy, e: Engine, w: World, r: Result)
    requires UnderPolicy(p, w) && IsRun(e, w, r) && r.status.Some? && !r.status.value.Exhausted?
    ensures var n := r.iterations;
            var stuck := Stuck(r.records, n - 1, e.stuckThreshold);
            var spent := stuck || p.retry.disableFlaky || n >= p.retry.maxAttempts;
            && n > 0
            && (r.status.value.Passed? <==> r.outcome.Pass?)
            && (r.status.value.PolicyDeferred? <==> r.outcome.Blocked?)
            && (r.status.value.Escalated? <==> !r.outcome.Pass? && !r.outcome.Blocked? && spent && n >= p.esc.maxAttempts)
            && (r.status.value.Failed? <==> !r.outcome.Pass? && !r.outcome.Blocked? && spent && n < p.esc.maxAttempts)
  {
  }

  /** With the caps as the application configures them (one number for both, 3 if it is zero), a human is
      called exactly at the cap, and a run fails before the cap only when it is stuck or may not retry. */
  lemma ConfiguredVerdicts(q: FailurePolicy.Policy, e: Engine, w: World, r: Result)
    requires q.esc.maxAttempts == q.retry.maxAttempts
    requires UnderPolicy(FailurePolicy.WithDefaults(q), w) && IsRun(e, w, r) && r.status.Some?
    ensures var n, cap := r.iterations, if q.retry.maxAttempts == 0 then 3 else q.retry.maxAttempts;
            && (r.status.value.Escalated? ==> n >= cap)
            && (r.status.value.Failed? ==> n < cap && (Stuck(r.records, n - 1, e.stuckThreshold) || q.retry.disableFlaky))
  {
    if !r.status.value.Exhausted? { PolicyVerdicts(FailurePolicy.WithDefaults(q), e, w, r); }
  }

  function Marks(n: nat): (s: string)
    ensures |s| == n
  {
    seq(n, i => 'x')
  }

  // A project that fails a little differently every time.
  function Restless(n: nat): Option<seq<Check>> {
    Some([Check("unit", Fail, Marks(n))])
  }

  function RestlessRecord(i: nat): Record {
    Record(i + 1, Fail, 1, 0, Digest("fail|unit|" + Marks(i + 1)), "defect", "", [])
  }

  lemma RestlessFacts(i: nat)
    ensures Observe(Restless(i)) == Some(Facts(Fail, 1, Digest("fail|unit|" + Marks(i))))
  {
    var c := Check("unit", Fail, Marks(i));
    OnePart(c);
    assert Part(c) == "fail|unit|" + Marks(i);
    assert [c][..0] == [];
    assert Verdict([c]) == Fail;
  }

  lemma RestlessWorld(p: FailurePolicy.Policy) returns (w: World)
    ensures w == Meeting(Restless, (n: nat) => Changed("defect", "", []), (s: StopInput) => PolicyDecide(p, s))
    ensures UnderPolicy(p, w) && forall n :: w.improve(n) == Changed("defect", "", [])
    ensures forall n :: w.verify(n) == Some(Facts(Fail, 1, Digest("fail|unit|" + Marks(n))))
  {
    w := Meeting(Restless, (n: nat) => Changed("defect", "", []), (s: StopInput) => PolicyDecide(p, s));
    forall n ensures w.verify(n) == Some(Facts(Fail, 1, Digest("fail|unit|" + Marks(n)))) { RestlessFacts(n); }
  }

  /** Below the cap it is not: if the ceiling is lower than the retry cap and flaky retries are on, there
      is a project on which the ceiling is what ends the loop. */
  lemma CeilingBelowCap(p: FailurePolicy.Policy, e: Engine) returns (w: World, r: Result)
    requires 0 < e.maxIterations < p.retry.maxAttempts && !p.retry.disableFlaky && e.stuckThreshold > 0
    ensures UnderPolicy(p, w) && IsRun(e, w, r) && r.status == Some(Exhausted)
  {
    w := RestlessWorld(p);
    var n := e.maxIterations;
    var rs := seq(n, i requires 0 <= i < n => RestlessRecord(i));
    forall i | 0 <= i < n ensures WentOn(e, w, rs, i) {
      assert rs[i] == RestlessRecord(i) && (i > 0 ==> rs[i - 1] == RestlessRecord(i - 1));
      if i > 0 {
        var a, b := "fail|unit|" + Marks(i + 1), "fail|unit|" + Marks(i);
        assert |a| != |b|;
      }
      assert !Repeats(rs, i);
      assert !Stuck(rs, i, e.stuckThreshold);
    }
    r := Result(Some(Exhausted), n, [], Inconclusive, rs);
    forall f ensures !ChangedBy(rs, f) {}
  }
}
