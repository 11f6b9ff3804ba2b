/** The merge of an assignment branch into the integration branch: a bounded retry protocol against a
    remote that other agents push to. */
module GitMerge {
  import opened Options

  datatype Commit = Commit(id: nat, parents: seq<Commit>)

  // `c` is `head` or one of its ancestors.
  predicate Reaches(head: Commit, c: Commit) {
    head == c || exists i :: 0 <= i < |head.parents| && Reaches(head.parents[i], c)
  }

  lemma {:induction false} ReachesTransitive(a: Commit, b: Commit, c: Commit)
    requires Reaches(a, b) && Reaches(b, c)
    ensures Reaches(a, c)
    decreases a
  {
    if a != b {
      var i :| 0 <= i < |a.parents| && Reaches(a.parents[i], b);
      ReachesTransitive(a.parents[i], b, c);
    }
  }

  function Depth(c: Commit): nat {
    1 + MaxDepth(c.parents)
  }

  function MaxDepth(cs: seq<Commit>): (d: nat)
    ensures forall i :: 0 <= i < |cs| ==> Depth(cs[i]) <= d
  {
    if cs == [] then 0
    else
      assert forall i :: 0 < i < |cs| ==> cs[i] == cs[1..][i - 1];
      var d, rest := Depth(cs[0]), MaxDepth(cs[1..]);
      if d > rest then d else rest
  }

  lemma {:induction false} AncestorIsShallower(a: Commit, b: Commit)
    requires Reaches(a, b)
    ensures a == b || Depth(b) < Depth(a)
    decreases a
  {
    if a != b {
      var i :| 0 <= i < |a.parents| && Reaches(a.parents[i], b);
      AncestorIsShallower(a.parents[i], b);
    }
  }

  // -- the git commands, on the remote's head, the remote-tracking ref and the clone's branch -------

  datatype Repo = Repo(remote: Commit, tracking: Commit, local: Commit)

  // A push without force: the remote takes it when it fast-forwards.
  function Accept(remote: Commit, c: Commit): Commit {
    if Reaches(c, remote) then c else remote
  }

  function AcceptAll(remote: Commit, cs: seq<Commit>): Commit
    decreases |cs|
  {
    if cs == [] then remote else Accept(AcceptAll(remote, cs[..|cs| - 1]), cs[|cs| - 1])
  }

  function Fetched(r: Repo): Repo { r.(tracking := r.remote) }

  function ResetHard(r: Repo): Repo { r.(local := r.tracking) }

  // merge --no-ff: a merge commit, unless the branch is already there.
  function MergedHead(local: Commit, branch: Commit, id: nat): (head: Commit)
    ensures Reaches(head, local) && Reaches(head, branch)
  {
    if Reaches(local, branch) then local
    else
      var head := Commit(id, [local, branch]);
      assert Reaches(head.parents[0], local) && Reaches(head.parents[1], branch);
      head
  }

  function Pushed(r: Repo): Repo { r.(remote := Accept(r.remote, r.local)) }

  // The commands of any number of merges that share the clone, and the pushes of other agents.
  datatype Command = FetchIt | ResetIt | MergeIt(branch: Commit, id: nat) | PushIt | Foreign(c: Commit)

  function Do(r: Repo, c: Command): Repo {
    match c
    case FetchIt => Fetched(r)
    case ResetIt => ResetHard(r)
    case MergeIt(branch, id) => r.(local := MergedHead(r.local, branch, id))
    case PushIt => Pushed(r)
    case Foreign(x) => r.(remote := Accept(r.remote, x))
  }

  function DoAll(r: Repo, cs: seq<Command>): Repo
    decreases |cs|
  {
    if cs == [] then r else Do(DoAll(r, cs[..|cs| - 1]), cs[|cs| - 1])
  }

  // What goes on beside a merge: other agents push, and another run of the engine fetches the shared clone.
  type Aside = c: Command | c.FetchIt? || c.Foreign? witness FetchIt

  predicate NoPush(cs: seq<Aside>) {
    forall c :: c in cs ==> c.FetchIt?
  }

  // What can go wrong besides a conflict: git fails, or it cannot list the conflicting paths.
  datatype MergeFault = Smooth | Fails | Unlisted

  // The push fails, or it arrives and is reported as failed.
  datatype PushFault = Sent | Refused | Lost

  // Everything the outside decides in one attempt, and what goes on beside it before each of its steps.
  datatype Attempt = Attempt(beforeFetch: seq<Aside>, fetchOK: bool, beforeReset: seq<Aside>, resetOK: bool,
                             beforeMerge: seq<Aside>, merging: MergeFault, mergeId: nat,
                             beforePush: seq<Aside>, pushing: PushFault)
  {
    // Nothing fails and nobody else pushes between the fetch and the push.
    predicate Calm() {
      fetchOK && resetOK && merging.Smooth? && pushing.Sent? && NoPush(beforeReset) && NoPush(beforeMerge) && NoPush(beforePush)
    }
  }

  const ATTEMPTS := 4

  datatype Outcome = Landed | Conflicted | Errored

  /** The engine's clone, on the integration branch, and the remote it works against. */
  class Clone {
    var repo: Repo
    ghost var heads: seq<Commit>   // every head the remote ever had, oldest first
    ghost var moves: nat           // how often a push of this clone moved the remote

    // The remote's head only ever moved to a descendant.
    ghost predicate Valid()
      reads this
    {
      && heads != [] && heads[|heads| - 1] == repo.remote
      && forall i, j :: 0 <= i <= j < |heads| ==> Reaches(heads[j], heads[i])
    }

    constructor (repo: Repo)
      ensures Valid() && this.repo == repo && heads == [repo.remote] && moves == 0
    {
      this.repo, heads, moves := repo, [repo.remote], 0;
    }

    ghost method Moved(was: Commit)
      requires heads != [] && heads[|heads| - 1] == was && Reaches(repo.remote, was)
      requires forall i, j :: 0 <= i <= j < |heads| ==> Reaches(heads[j], heads[i])
      modifies this`heads
      ensures Valid() && heads == old(heads) + [repo.remote]
    {
      forall i | 0 <= i < |heads| ensures Reaches(repo.remote, heads[i]) { ReachesTransitive(repo.remote, was, heads[i]); }
      heads := heads + [repo.remote];
    }

    // What goes on beside a merge; a push is taken only as a fast-forward.
    method Others(cs: seq<Aside>)
      requires Valid()
      modifies this
      ensures Valid() && old(heads) <= heads && moves == old(moves) && repo == DoAll(old(repo), cs)
      ensures repo.local == old(repo).local && (repo.tracking == old(repo).tracking || Had(repo.tracking, |old(heads)| - 1))
      ensures NoPush(cs) ==> repo.remote == old(repo).remote
    {
      for i := 0 to |cs|
        invariant Valid() && old(heads) <= heads && moves == old(moves) && repo == DoAll(old(repo), cs[..i])
        invariant repo.local == old(repo).local && (repo.tracking == old(repo).tracking || Had(repo.tracking, |old(heads)| - 1))
        invariant NoPush(cs[..i]) ==> repo.remote == old(repo).remote
      {
        assert cs[..i + 1][..i] == cs[..i] && cs[..i + 1] == cs[..i] + [cs[i]];
        Beside(cs[i]);
      }
      assert cs[..|cs|] == cs;
    }

    method Beside(c: Aside)
      requires Valid()
      modifies this
      ensures Valid() && old(heads) <= heads && moves == old(moves) && repo == Do(old(repo), c)
      ensures c.FetchIt? ==> heads == old(heads)
    {
      if c.FetchIt? {
        repo := repo.(tracking := repo.remote);
      } else {
        ghost var was := repo.remote;
        repo := repo.(remote := Accept(repo.remote, c.c));
        Moved(was);
      }
    }

    // The remote had this head, as its `from`th or later.
    ghost predicate Had(head: Commit, from: int)
      reads this
    {
      exists j :: 0 <= from <= j < |heads| && heads[j] == head
    }

    method Fetch(ok: bool) returns (fetched: bool)
      requires Valid()
      modifies this
      ensures Valid() && heads == old(heads) && moves == old(moves) && fetched == ok
      ensures repo == if ok then Fetched(old(repo)) else old(repo)
    {
      if ok { repo := repo.(tracking := repo.remote); }
      return ok;
    }

    method Reset(ok: bool) returns (done: bool)
      requires Valid()
      modifies this
      ensures Valid() && heads == old(heads) && moves == old(moves) && done == ok
      ensures repo == if ok then ResetHard(old(repo)) else old(repo)
    {
      if ok { repo := repo.(local := repo.tracking); }
      return ok;
    }

    method MergeBranch(branch: Option<Commit>, clashes: (Commit, Commit) -> bool, fault: MergeFault, id: nat)
      returns (o: Outcome)
      requires Valid()
      modifies this
      ensures Valid() && heads == old(heads) && moves == old(moves)
      ensures o.Landed? ==> branch.Some? && repo == old(repo).(local := MergedHead(old(repo).local, branch.value, id))
      ensures !o.Landed? ==> repo == old(repo)
      ensures o.Conflicted? ==> branch.Some? && !Reaches(repo.local, branch.value) && clashes(repo.local, branch.value)
      ensures o.Errored? ==> branch.None? || fault != Smooth
      ensures o.Conflicted? ==> fault.Smooth?
    {
      if branch.None? || fault == Fails { return Errored; }
      if Reaches(repo.local, branch.value) { return Landed; }
      if clashes(repo.local, branch.value) {
        if fault == Unlisted { return Errored; }
        return Conflicted;
      }
      repo := repo.(local := Commit(id, [repo.local, branch.value]));
      return Landed;
    }

    method Push(fault: PushFault) returns (ok: bool)
      requires Valid()
      modifies this
      ensures Valid() && old(heads) <= heads
      ensures repo == if fault.Refused? then old(repo) else Pushed(old(repo))
      ensures moves == old(moves) + (if repo.remote == old(repo).remote then 0 else 1)
      ensures ok <==> fault.Sent? && Reaches(old(repo).local, old(repo).remote)
    {
      if fault.Refused? { return false; }
      if !Reaches(repo.local, repo.remote) { return false; }
      ghost var was := repo.remote;
      if repo.local != was { moves := moves + 1; }
      repo := repo.(remote := repo.local);
      Moved(was);
      return fault.Sent?;
    }

    // One of the heads the remote had from the `from`th on conflicts with the branch and lacks it.
    ghost predicate Conflicting(branch: Commit, clashes: (Commit, Commit) -> bool, from: int)
      reads this
    {
      exists j :: 0 <= from <= j < |heads| && !Reaches(heads[j], branch) && clashes(heads[j], branch)
    }

    // The first half of an attempt: the clone's branch becomes a head that the remote had when it was fetched.
    method TakeNewest(branch: Option<Commit>, a: Attempt) returns (ok: bool)
      requires Valid()
      modifies this
      ensures Valid() && old(heads) <= heads && moves == old(moves)
      ensures ok ==> Had(repo.local, |old(heads)| - 1)
      ensures branch.Some? && Reaches(old(repo).remote, branch.value) && ok ==> Reaches(repo.local, branch.value)
      ensures ok && NoPush(a.beforeReset) && NoPush(a.beforeMerge) ==> repo.local == repo.remote
      ensures !ok ==> !a.Calm()
    {
      Others(a.beforeFetch);
      ok := Fetch(a.fetchOK);
      if !ok { return; }
      ghost var fetched := |heads| - 1;
      Others(a.beforeReset);
      ok := Reset(a.resetOK);
      if !ok { return; }
      assert Had(repo.local, fetched);
      ghost var j :| fetched <= j < |heads| && heads[j] == repo.local;
      InHead(branch, |old(heads)| - 1, j);
      Others(a.beforeMerge);
      assert heads[j] == repo.local;
    }

    // One attempt: take the newest remote, merge, push.
    method Try(branch: Option<Commit>, clashes: (Commit, Commit) -> bool, a: Attempt) returns (o: Outcome)
      requires Valid()
      modifies this
      ensures Valid() && old(heads) <= heads
      ensures o.Landed? ==> branch.Some? && Reaches(repo.remote, branch.value)
      ensures o.Conflicted? ==> branch.Some? && Conflicting(branch.value, clashes, |old(heads)| - 1) && a.merging.Smooth?
      ensures o.Errored? && branch.Some? ==> !a.Calm()
      ensures moves == old(moves) || (moves == old(moves) + 1 && branch.Some? && Reaches(repo.remote, branch.value))
      ensures branch.Some? && Reaches(old(repo).remote, branch.value) ==> moves == old(moves)
      ensures !o.Landed? && !a.pushing.Lost? ==> moves == old(moves)
    {
      var ok := TakeNewest(branch, a);
      if !ok { return Errored; }
      ghost var fetched :| |old(heads)| - 1 <= fetched < |heads| && heads[fetched] == repo.local;
      o := MergeBranch(branch, clashes, a.merging, a.mergeId);
      if !o.Landed? { return; }
      Others(a.beforePush);
      Forward(fetched);
      ok := Push(a.pushing);
      if !ok { return Errored; }
    }

    /** The retry loop. The remote only moves forward and no pushed commit is lost; true means the branch
        is in a head that was pushed; "not merged" without an error means a real conflict with a head that the
        remote had during the call; an error means that all four attempts were disturbed. The call moves the remote at most once,
        and if it reports anything but success it did not move it, unless a push was reported wrongly. */
    method Merge(branch: Option<Commit>, clashes: (Commit, Commit) -> bool, env: seq<Attempt>) returns (o: Outcome)
      requires Valid() && |env| == ATTEMPTS
      modifies this
      ensures Valid() && old(heads) <= heads && Reaches(repo.remote, old(repo).remote)
      ensures o.Landed? ==> branch.Some? && Reaches(repo.remote, branch.value)
      ensures o.Conflicted? ==> branch.Some? && Conflicting(branch.value, clashes, |old(heads)| - 1)
      ensures o.Conflicted? ==> exists i :: 0 <= i < 4 && env[i].merging.Smooth?
      ensures o.Errored? && branch.Some? ==> forall i :: 0 <= i < 4 ==> !env[i].Calm()
      ensures moves == old(moves) || moves == old(moves) + 1
      ensures moves > old(moves) ==> branch.Some? && Reaches(repo.remote, branch.value)
      ensures !o.Landed? && (forall i :: 0 <= i < ATTEMPTS ==> !env[i].pushing.Lost?) ==> moves == old(moves)
    {
      ghost var first := |heads| - 1;
      o := Errored;
      for attempt := 0 to ATTEMPTS
        invariant Valid() && old(heads) <= heads
        invariant o.Errored?
        invariant branch.Some? ==> forall i :: 0 <= i < attempt ==> !env[i].Calm()
        invariant moves == old(moves) || moves == old(moves) + 1
        invariant moves > old(moves) ==> branch.Some? && Reaches(repo.remote, branch.value)
        invariant (forall i :: 0 <= i < attempt ==> !env[i].pushing.Lost?) ==> moves == old(moves)
      {
        label Again:
        o := Try(branch, clashes, env[attempt]);
        Later(branch, |old@Again(heads)| - 1);
        assert Reaches(heads[|heads| - 1], heads[first]);
        if !o.Errored? { return; }
      }
    }

    // The remote is where it was at an earlier head, or past it.
    ghost method Forward(i: int)
      requires Valid() && 0 <= i < |heads|
      ensures Reaches(repo.remote, heads[i])
      ensures Reaches(heads[i], repo.remote) ==> heads[i] == repo.remote
    {
      assert Reaches(heads[|heads| - 1], heads[i]);
      AncestorIsShallower(repo.remote, heads[i]);
      if Reaches(heads[i], repo.remote) { AncestorIsShallower(heads[i], repo.remote); }
    }

    // A branch that an earlier head of the remote contains is in every later one.
    ghost method InHead(branch: Option<Commit>, i: int, j: int)
      requires Valid() && 0 <= i <= j < |heads|
      ensures branch.Some? && Reaches(heads[i], branch.value) ==> Reaches(heads[j], branch.value)
    {
      if branch.Some? && Reaches(heads[i], branch.value) { ReachesTransitive(heads[j], heads[i], branch.value); }
    }

    ghost method Later(branch: Option<Commit>, i: int)
      requires Valid() && 0 <= i < |heads|
      ensures branch.Some? && Reaches(heads[i], branch.value) ==> Reaches(repo.remote, branch.value)
    {
      InHead(branch, i, |heads| - 1);
    }
  }

  // ---------------------------------------------------------------------------------------------
  // Why the merge lease matters
  // ---------------------------------------------------------------------------------------------

  lemma DoAllSnoc(r: Repo, cs: seq<Command>, c: Command)
    ensures DoAll(r, cs + [c]) == Do(DoAll(r, cs), c)
  {
    assert (cs + [c])[..|cs|] == cs;
  }

  // A merge as far as its push, and what happens in the shared clone and in the remote before the push.
  function BeforePush(r: Repo, branch: Commit, id: nat, meanwhile: seq<Command>): Repo {
    DoAll(DoAll(r, [FetchIt, ResetIt, MergeIt(branch, id)]), meanwhile)
  }

  // git reports a push as done when the remote took it or had nothing to take.
  predicate Reported(r: Repo) {
    Reaches(r.local, r.remote)
  }

  lemma {:induction false} LocalKeeps(r: Repo, cs: seq<Command>, branch: Commit)
    requires Reaches(r.local, branch) && ResetIt !in cs
    ensures Reaches(DoAll(r, cs).local, branch)
    decreases |cs|
  {
    if cs != [] {
      var c, before := cs[|cs| - 1], DoAll(r, cs[..|cs| - 1]);
      LocalKeeps(r, cs[..|cs| - 1], branch);
      if c.MergeIt? { ReachesTransitive(Do(before, c).local, before.local, branch); }
    }
  }

  /** As long as nobody resets the clone between a merge and its push, a push that is reported carries the
      branch, whatever else is fetched, merged or pushed in between. */
  lemma UndisturbedReportIsTrue(r: Repo, branch: Commit, id: nat, meanwhile: seq<Command>)
    requires ResetIt !in meanwhile && Reported(BeforePush(r, branch, id, meanwhile))
    ensures Reaches(Pushed(BeforePush(r, branch, id, meanwhile)).remote, branch)
  {
    var merge := [FetchIt, ResetIt, MergeIt(branch, id)];
    assert merge[..2] == [FetchIt, ResetIt] && merge[..2][..1] == [FetchIt];
    LocalKeeps(DoAll(r, merge), meanwhile, branch);
  }

  /** A second merge that starts in between (a fetch and a reset) takes the merged branch back: the push has
      nothing to send and is reported as done, and the branch is in the remote only if it was there anyway. */
  lemma OverlapReportsUnmerged(r: Repo, branch: Commit, id: nat, meanwhile: seq<Command>)
    ensures var now := BeforePush(r, branch, id, meanwhile);
            var reset := BeforePush(r, branch, id, meanwhile + [FetchIt, ResetIt]);
            && Reported(reset) && Pushed(reset).remote == now.remote
            && (Reaches(Pushed(reset).remote, branch) <==> Reaches(now.remote, branch))
  {
    var merged := DoAll(r, [FetchIt, ResetIt, MergeIt(branch, id)]);
    assert meanwhile + [FetchIt, ResetIt] == (meanwhile + [FetchIt]) + [ResetIt];
    DoAllSnoc(merged, meanwhile, FetchIt);
    DoAllSnoc(merged, meanwhile + [FetchIt], ResetIt);
  }

  /** Without the overlap, and whatever other agents pushed in between, a push that is taken carries the
      branch and everything the remote had. */
  lemma TakenPushKeepsAll(r: Repo, branch: Commit, id: nat, others: seq<Commit>, c: Commit)
    requires Reaches(AcceptAll(r.remote, others), c)
    ensures var merged := ResetHard(Fetched(r)).(local := MergedHead(r.remote, branch, id));
            var now := merged.(remote := AcceptAll(r.remote, others));
            && Reaches(Pushed(now).remote, c)
            && (Reaches(now.local, now.remote) ==> Reaches(Pushed(now).remote, branch))
  {
    var local := MergedHead(r.remote, branch, id);
    if Reaches(local, AcceptAll(r.remote, others)) {
      ReachesTransitive(local, AcceptAll(r.remote, others), c);
    }
  }
}
