/** The Lease Manager: time-bounded ownership of a (kind, resource) pair.

    `Perform` is the specification of every operation on the persisted lease table. `Manager` is the
    class whose methods load, change and save records, each proved against `Perform`. The theorems are
    about `Perform` and about runs (`Timed` operations under a non-decreasing clock). */
module Leases {
  import opened Options
  import opened Ordering

  type Kind = string
  type Owner = string

  const KIND_ISSUE: Kind := "issue"
  const KIND_RESOURCE: Kind := "resource"
  const KIND_MERGE: Kind := "merge"

  // Durations and instants are in seconds.
  const ISSUE_TTL := 1800
  const RESOURCE_TTL := 900
  const MERGE_TTL := 600
  const FALLBACK_TTL := 900

  predicate ValidKind(k: Kind) {
    k == KIND_ISSUE || k == KIND_RESOURCE || k == KIND_MERGE
  }

  datatype Lease = Lease(id: string, kind: Kind, resource: string, owner: Owner,
                         createdAt: int, expiresAt: int, renewable: bool, reason: string)
  {
    // Ownership is valid strictly before expiry.
    predicate Active(now: int) { now < expiresAt }
  }

  type Table = map<string, Lease>
  type Ttls = map<Kind, int>

  const DEFAULT_TTLS: Ttls :=
    map[KIND_ISSUE := ISSUE_TTL, KIND_RESOURCE := RESOURCE_TTL, KIND_MERGE := MERGE_TTL]

  function TtlFor(ttls: Ttls, k: Kind): (d: int)
    ensures d > 0
  {
    if k in ttls && ttls[k] > 0 then ttls[k] else FALLBACK_TTL
  }

  function Effective(ttls: Ttls, k: Kind, ttl: int): (d: int)
    ensures d > 0
  {
    if ttl <= 0 then TtlFor(ttls, k) else ttl
  }

  function LeaseId(k: Kind, resource: string): string {
    k + "/" + resource
  }

  datatype Request = Request(kind: Kind, resource: string, owner: Owner, reason: string,
                             renewable: bool, ttl: int)

  datatype Op =
    | Acquire(r: Request)
    | Renew(kind: Kind, resource: string, owner: Owner, ttl: int)
    | Release(kind: Kind, resource: string, owner: Owner)
    | Transfer(kind: Kind, resource: string, owner: Owner, to: Owner, reason: string)
    | Validate(kind: Kind, resource: string, owner: Owner)
    | Get(kind: Kind, resource: string)
    | ListActive
    | Reap
  {
    function Id(): string {
      match this
      case Acquire(r) => LeaseId(r.kind, r.resource)
      case ListActive => ""
      case Reap => ""
      case _ => LeaseId(kind, resource)
    }
  }

  datatype Answer =
    | Rejected                  // malformed request: an error, nothing changed
    | Granted(lease: Lease)
    | Held(lease: Lease)        // another owner's lease is still valid
    | Refused                   // missing, expired, not the owner's, or not renewable
    | Flag(value: bool)
    | Found(record: Lease)
    | Missing
    | Listing(live: Table)
    | Reaped(count: int)

  function Live(t: Table, now: int): Table {
    map id | id in t && t[id].Active(now) :: t[id]
  }

  function Perform(t: Table, ttls: Ttls, op: Op, now: int): (Table, Answer) {
    PerformAt(t, op.Id(), ttls, op, now)
  }

  datatype Effect = Keep | Record(l: Lease) | Erase

  // What an operation on one pair does, given the record found for it.
  function Decide(found: Option<Lease>, ttls: Ttls, op: Op, now: int): (Effect, Answer)
    requires !op.ListActive? && !op.Reap?
  {
    var active := found.Some? && found.value.Active(now);
    match op
    case Acquire(r) =>
      if !ValidKind(r.kind) || r.resource == "" || r.owner == "" then (Keep, Rejected)
      else if active then
        (Keep, if found.value.owner == r.owner then Granted(found.value) else Held(found.value))
      else
        var l := Lease(op.Id(), r.kind, r.resource, r.owner, now, now + Effective(ttls, r.kind, r.ttl), r.renewable, r.reason);
        (Record(l), Granted(l))
    case Renew(k, _, owner, ttl) =>
      if !active || found.value.owner != owner || !found.value.renewable then (Keep, Refused)
      else
        var l := found.value.(expiresAt := now + Effective(ttls, k, ttl));
        (Record(l), Granted(l))
    case Release(_, _, owner) =>
      if found.Some? && found.value.owner == owner then (Erase, Flag(true)) else (Keep, Flag(false))
    case Transfer(k, _, from, to, reason) =>
      if to == "" then (Keep, Rejected)
      else if !active || found.value.owner != from then (Keep, Refused)
      else
        var l := found.value.(owner := to, expiresAt := now + TtlFor(ttls, k),
                              reason := if reason != "" then reason else found.value.reason);
        (Record(l), Granted(l))
    case Validate(_, _, owner) => (Keep, Flag(active && found.value.owner == owner))
    case Get(_, _) => (Keep, match found case Some(l) => Found(l) case None => Missing)
  }

  function Lookup(t: Table, key: string): Option<Lease> {
    if key in t then Some(t[key]) else None
  }

  function Apply(t: Table, key: string, e: Effect): Table {
    match e
    case Keep => t
    case Record(l) => t[key := l]
    case Erase => t - {key}
  }

  // The operation on a store that keeps the record of the pair under `key`.
  function PerformAt(t: Table, key: string, ttls: Ttls, op: Op, now: int): (Table, Answer) {
    if op.ListActive? then (t, Listing(Live(t, now)))
    else if op.Reap? then (Live(t, now), Reaped(|t| - |Live(t, now)|))
    else
      var (e, a) := Decide(Lookup(t, key), ttls, op, now);
      (Apply(t, key, e), a)
  }

  // ---------------------------------------------------------------------------------------------
  // The manager itself
  // ---------------------------------------------------------------------------------------------

  predicate IdLe(a: Lease, b: Lease) {
    StrLe(a.id, b.id)
  }

  lemma IdOrder(t: Table)
    requires forall id :: id in t ==> t[id].id == id
    ensures TotalOrder(IdLe, t.Values)
  {
    forall x, y | x in t.Values && y in t.Values
      ensures IdLe(x, y) || IdLe(y, x)
      ensures IdLe(x, y) && IdLe(y, x) ==> x == y
    {
      StrLeTotal(x.id, y.id);
    }
    forall x, y, z | x in t.Values && y in t.Values && z in t.Values && IdLe(x, y) && IdLe(y, z)
      ensures IdLe(x, z)
    {
      StrLeTransitive(x.id, y.id, z.id);
    }
  }

  /** `store` is the persisted record map; `now` is what the injected clock reads under the mutex. */
  class Manager {
    var store: Table
    const ttl: Ttls

    // Every record is kept under its own id.
    ghost predicate Valid()
      reads this
    {
      forall id :: id in store ==> store[id].id == id
    }

    // An empty store; the durations are the defaults but for those that are overridden.
    constructor (overridden: Ttls)
      ensures Valid() && store == map[] && ttl == DEFAULT_TTLS + overridden
    {
      this.store, this.ttl := map[], DEFAULT_TTLS + overridden;
    }

    method Acquire(r: Request, now: int) returns (a: Answer)
      requires Valid()
      modifies this`store
      ensures Valid()
      ensures (store, a) == Perform(old(store), ttl, Op.Acquire(r), now)
    {
      if !ValidKind(r.kind) { return Rejected; }
      if r.resource == "" || r.owner == "" { return Rejected; }
      var id := LeaseId(r.kind, r.resource);
      if id in store {
        var existing := store[id];
        if existing.Active(now) {
          if existing.owner == r.owner { return Granted(existing); }
          return Held(existing);
        }
      }
      var d := r.ttl;
      if d <= 0 { d := TtlFor(ttl, r.kind); }
      var l := Lease(id, r.kind, r.resource, r.owner, now, now + d, r.renewable, r.reason);
      store := store[id := l];
      return Granted(l);
    }

    method Renew(k: Kind, resource: string, owner: Owner, ttl: int, now: int) returns (a: Answer)
      requires Valid()
      modifies this`store
      ensures Valid()
      ensures (store, a) == Perform(old(store), this.ttl, Op.Renew(k, resource, owner, ttl), now)
    {
      var id := LeaseId(k, resource);
      if id !in store { return Refused; }
      var l := store[id];
      if !l.Active(now) || l.owner != owner || !l.renewable { return Refused; }
      var d := ttl;
      if d <= 0 { d := TtlFor(this.ttl, k); }
      l := l.(expiresAt := now + d);
      store := store[id := l];
      return Granted(l);
    }

    method Release(k: Kind, resource: string, owner: Owner, now: int) returns (a: Answer)
      requires Valid()
      modifies this`store
      ensures Valid()
      ensures (store, a) == Perform(old(store), ttl, Op.Release(k, resource, owner), now)
    {
      var id := LeaseId(k, resource);
      if id !in store { return Flag(false); }
      if store[id].owner != owner { return Flag(false); }
      store := store - {id};
      return Flag(true);
    }

    method Transfer(k: Kind, resource: string, from: Owner, to: Owner, reason: string, now: int) returns (a: Answer)
      requires Valid()
      modifies this`store
      ensures Valid()
      ensures (store, a) == Perform(old(store), ttl, Op.Transfer(k, resource, from, to, reason), now)
    {
      if to == "" { return Rejected; }
      var id := LeaseId(k, resource);
      if id !in store { return Refused; }
      var l := store[id];
      if !l.Active(now) || l.owner != from { return Refused; }
      l := l.(owner := to, expiresAt := now + TtlFor(ttl, k));
      if reason != "" { l := l.(reason := reason); }
      store := store[id := l];
      return Granted(l);
    }

    method Validate(k: Kind, resource: string, owner: Owner, now: int) returns (valid: bool)
      ensures (store, Flag(valid)) == Perform(store, ttl, Op.Validate(k, resource, owner), now)
    {
      var id := LeaseId(k, resource);
      if id !in store { return false; }
      var l := store[id];
      return l.Active(now) && l.owner == owner;
    }

    /** The valid leases, each once and sorted by id, whatever order the store lists its records in. */
    method Active(now: int) returns (out: seq<Lease>)
      requires Valid()
      ensures forall i, j :: 0 <= i < j < |out| ==> StrLess(out[i].id, out[j].id)
      ensures forall l :: l in out <==> exists id :: id in store && store[id] == l && l.Active(now)
    {
      out := [];
      var todo := store.Values;
      while todo != {}
        invariant todo <= store.Values
        invariant Distinct(out)
        invariant forall l :: l in out ==> l in store.Values && l !in todo && l.Active(now)
        invariant forall l :: l in store.Values && l !in todo && l.Active(now) ==> l in out
        decreases todo
      {
        var l :| l in todo;
        if l.Active(now) { out := out + [l]; }
        todo := todo - {l};
      }
      IdOrder(store);
      SortSorts(IdLe, out, store.Values);
      SameElements(Sort(IdLe, out), out);
      SortKeepsDistinct(IdLe, out);
      out := Sort(IdLe, out);
      forall i, j | 0 <= i < j < |out| ensures StrLess(out[i].id, out[j].id) {
        assert out[i] in store.Values && out[j] in store.Values;
      }
    }

    method Reap(now: int) returns (n: nat)
      requires Valid()
      modifies this`store
      ensures Valid()
      ensures (store, Reaped(n)) == Perform(old(store), ttl, Op.Reap, now)
    {
      n := 0;
      var todo := store.Keys;
      while todo != {}
        invariant todo <= old(store).Keys
        invariant store.Keys <= old(store).Keys && todo <= store.Keys
        invariant forall id :: id in store ==> store[id] == old(store)[id]
        invariant forall id :: id in store && id !in todo ==> store[id].Active(now)
        invariant forall id :: id in old(store) && id !in store ==> !old(store)[id].Active(now)
        invariant n + |store| == |old(store)|
        decreases todo
      {
        var id :| id in todo;
        if !store[id].Active(now) {
          assert store.Keys == (store - {id}).Keys + {id};
          store := store - {id};
          n := n + 1;
        }
        todo := todo - {id};
      }
      assert store == Live(old(store), now);
    }
  }

  // ---------------------------------------------------------------------------------------------
  // Runs
  // ---------------------------------------------------------------------------------------------

  datatype Timed = Timed(op: Op, at: int)

  ghost predicate Ordered(ops: seq<Timed>, from: int) {
    ops != [] ==> from <= ops[0].at && Ordered(ops[1..], ops[0].at)
  }

  function Final(t: Table, ttls: Ttls, ops: seq<Timed>): Table
    decreases |ops|
  {
    if ops == [] then t else Final(Perform(t, ttls, ops[0].op, ops[0].at).0, ttls, ops[1..])
  }

  function Answers(t: Table, ttls: Ttls, ops: seq<Timed>): (r: seq<Answer>)
    ensures |r| == |ops|
    decreases |ops|
  {
    if ops == [] then []
    else
      var (t', a) := Perform(t, ttls, ops[0].op, ops[0].at);
      [a] + Answers(t', ttls, ops[1..])
  }

  // ---------------------------------------------------------------------------------------------
  // Exclusion: what an owner who was told "until e" may rely on
  // ---------------------------------------------------------------------------------------------

  // The table still says that `o` owns `id` at least until `e`.
  predicate Told(t: Table, id: string, o: Owner, e: int) {
    id in t && t[id].owner == o && e <= t[id].expiresAt
  }

  // The holder's own three ways of giving up time before `e`.
  predicate GivesUp(op: Timed, ttls: Ttls, id: string, o: Owner, e: int) {
    op.op.Id() == id &&
    match op.op
    case Release(_, _, owner) => owner == o
    case Transfer(_, _, from, _, _) => from == o
    case Renew(k, _, owner, ttl) => owner == o && op.at + Effective(ttls, k, ttl) < e
    case _ => false
  }

  predicate AsksOther(op: Op, id: string, o: Owner) {
    op.Acquire? && op.Id() == id && op.r.owner != o
  }

  lemma GrantIsAPromise(t: Table, ttls: Ttls, op: Op, now: int)
    requires Perform(t, ttls, op, now).1.Granted?
    ensures var (t', a) := Perform(t, ttls, op, now);
            now < a.lease.expiresAt && Told(t', op.Id(), a.lease.owner, a.lease.expiresAt) &&
            a.lease.owner == (match op case Acquire(r) => r.owner case Transfer(_, _, _, to, _) => to case _ => op.owner)
  {
  }

  // How long a lease lasts: as asked for, or the kind's configured duration, or fifteen minutes.
  predicate Lasts(d: int, ttls: Ttls, k: Kind, asked: int) {
    d == if asked > 0 then asked else if k in ttls && ttls[k] > 0 then ttls[k] else 900
  }

  /** Unless they are overridden, an issue is leased for thirty minutes, an account for fifteen, the merge for ten. */
  lemma DefaultDurations(d: int, k: Kind)
    requires Lasts(d, DEFAULT_TTLS, k, 0)
    ensures (k == "issue" ==> d == 1800) && (k == "resource" ==> d == 900) && (k == "merge" ==> d == 600)
  {
    assert DEFAULT_TTLS[KIND_ISSUE] == ISSUE_TTL && DEFAULT_TTLS[KIND_RESOURCE] == RESOURCE_TTL && DEFAULT_TTLS[KIND_MERGE] == MERGE_TTL;
  }

  /** A well-formed request is granted exactly when no other owner's lease is valid; asking again extends
      nothing, and a fresh lease is what was asked for, from now on and for as long. */
  lemma AcquireExactly(t: Table, ttls: Ttls, r: Request, now: int)
    requires ValidKind(r.kind) && r.resource != "" && r.owner != ""
    ensures var id := LeaseId(r.kind, r.resource);
            var valid := id in t && t[id].Active(now);
            var (t', a) := Perform(t, ttls, Op.Acquire(r), now);
            && (a.Granted? <==> !(valid && t[id].owner != r.owner))
            && (a.Held? <==> valid && t[id].owner != r.owner)
            && (valid ==> t' == t && a.lease == t[id])
            && (!valid ==> t' == t[id := a.lease] && a.lease.owner == r.owner && a.lease.createdAt == now &&
                           Lasts(a.lease.expiresAt - now, ttls, r.kind, r.ttl) && a.lease.id == id &&
                           a.lease.kind == r.kind && a.lease.resource == r.resource &&
                           a.lease.renewable == r.renewable && a.lease.reason == r.reason)
  {
  }

  /** A renewal moves the end of the owner's valid, renewable lease, and nothing else about it. */
  lemma RenewExactly(t: Table, ttls: Ttls, k: Kind, resource: string, o: Owner, ttl: int, now: int)
    ensures var id := LeaseId(k, resource);
            var renews := id in t && now < t[id].expiresAt && t[id].owner == o && t[id].renewable;
            var (t', a) := Perform(t, ttls, Renew(k, resource, o, ttl), now);
            if renews then
              && a.Granted? && t' == t[id := a.lease] && a.lease == t[id].(expiresAt := a.lease.expiresAt)
              && Lasts(a.lease.expiresAt - now, ttls, k, ttl)
            else a == Refused && t' == t
  {
  }

  /** A transfer hands a valid lease on for the default duration, with a new reason if one is given. */
  lemma TransferExactly(t: Table, ttls: Ttls, k: Kind, resource: string, o: Owner, to: Owner, reason: string, now: int)
    requires to != ""
    ensures var id := LeaseId(k, resource);
            var held := id in t && now < t[id].expiresAt && t[id].owner == o;
            var (t', a) := Perform(t, ttls, Transfer(k, resource, o, to, reason), now);
            if held then
              && a.Granted? && t' == t[id := a.lease] && a.lease.owner == to && Lasts(a.lease.expiresAt - now, ttls, k, 0)
              && a.lease == t[id].(owner := to, expiresAt := a.lease.expiresAt, reason := a.lease.reason)
              && a.lease.reason == (if reason == "" then t[id].reason else reason)
            else a == Refused && t' == t
  {
  }

  /** Validate says yes to an owner exactly when another one who asks is told that this owner holds the lease. */
  lemma ValidateMeansHeld(t: Table, ttls: Ttls, r: Request, o: Owner, now: int)
    requires ValidKind(r.kind) && r.resource != "" && r.owner != "" && r.owner != o
    ensures var (_, a) := Perform(t, ttls, Op.Acquire(r), now);
            Perform(t, ttls, Validate(r.kind, r.resource, o), now) == (t, Flag(a.Held? && a.lease.owner == o))
  {
  }

  // Every record is that of its own kind and resource.
  ghost predicate WellFormed(t: Table) {
    forall id :: id in t ==> t[id].id == id && LeaseId(t[id].kind, t[id].resource) == id
  }

  lemma {:induction false} RunWellFormed(t: Table, ttls: Ttls, ops: seq<Timed>)
    requires WellFormed(t)
    ensures WellFormed(Final(t, ttls, ops))
    decreases |ops|
  {
    if ops != [] {
      var t' := Perform(t, ttls, ops[0].op, ops[0].at).0;
      assert WellFormed(t');
      RunWellFormed(t', ttls, ops[1..]);
    }
  }

  /** What is listed can be released: after any run, a release of a record under its own kind, resource and owner
      answers true and removes that record and no other. */
  lemma ListedIsReleasable(ttls: Ttls, ops: seq<Timed>, id: string, now: int)
    requires id in Final(map[], ttls, ops)
    ensures var t := Final(map[], ttls, ops);
            Perform(t, ttls, Release(t[id].kind, t[id].resource, t[id].owner), now) == (t - {id}, Flag(true))
  {
    RunWellFormed(map[], ttls, ops);
  }

  // The operations by which an owner acts on its own lease.
  predicate ActsOn(op: Op, id: string, o: Owner) {
    op.Id() == id &&
    match op
    case Renew(_, _, owner, _) => owner == o
    case Release(_, _, owner) => owner == o
    case Transfer(_, _, from, _, _) => from == o
    case _ => false
  }

  /** Over every run that ends before a lease expires, and in which its owner does not act on it, the
      record stays as it is to the last field, whatever everybody else does. */
  lemma {:induction false} OnlyOwnerChanges(t: Table, ttls: Ttls, ops: seq<Timed>, id: string)
    requires id in t && forall i :: 0 <= i < |ops| ==> t[id].Active(ops[i].at) && !ActsOn(ops[i].op, id, t[id].owner)
    ensures id in Final(t, ttls, ops) && Final(t, ttls, ops)[id] == t[id]
    decreases |ops|
  {
    if ops != [] {
      var t' := Perform(t, ttls, ops[0].op, ops[0].at).0;
      assert t[id].Active(ops[0].at) && !ActsOn(ops[0].op, id, t[id].owner);
      assert id in t' && t'[id] == t[id];
      OnlyOwnerChanges(t', ttls, ops[1..], id);
    }
  }

  /** While nobody with the lease gives it up, it stays where it is and no other owner is let in. */
  lemma {:induction false} Exclusion(t: Table, ttls: Ttls, ops: seq<Timed>, id: string, o: Owner, e: int)
    requires Told(t, id, o, e)
    requires forall i :: 0 <= i < |ops| ==> ops[i].at < e && !GivesUp(ops[i], ttls, id, o, e)
    ensures Told(Final(t, ttls, ops), id, o, e)
    ensures forall i :: 0 <= i < |ops| && AsksOther(ops[i].op, id, o) ==>
              Answers(t, ttls, ops)[i].Rejected? || Answers(t, ttls, ops)[i].Held?
    decreases |ops|
  {
    if ops != [] {
      var (t', a) := Perform(t, ttls, ops[0].op, ops[0].at);
      assert !GivesUp(ops[0], ttls, id, o, e);
      assert Told(t', id, o, e);
      Exclusion(t', ttls, ops[1..], id, o, e);
      forall i | 0 <= i < |ops| && AsksOther(ops[i].op, id, o)
        ensures Answers(t, ttls, ops)[i].Rejected? || Answers(t, ttls, ops)[i].Held?
      {
        if i > 0 { assert ops[i] == ops[1..][i - 1]; }
      }
    }
  }

  /** Each of the three ways of giving up is real: afterwards, and before `e`, another owner can be
      let in (for a transfer, the new owner already is). */
  lemma GivingUpLetsOthersIn(t: Table, ttls: Ttls, op: Timed, id: string, o: Owner, e: int, r: Request)
    requires Told(t, id, o, e) && op.at < e && t[id].expiresAt == e
    requires GivesUp(op, ttls, id, o, e) && Perform(t, ttls, op.op, op.at).1 !in {Refused, Rejected}
    requires ValidKind(r.kind) && LeaseId(r.kind, r.resource) == id && r.resource != "" && r.owner != "" && r.owner != o
    requires op.op.Transfer? ==> r.owner == op.op.to
    ensures exists at :: op.at <= at < e &&
              Perform(Perform(t, ttls, op.op, op.at).0, ttls, Acquire(r), at).1.Granted?
  {
    var at := if op.op.Renew? then op.at + Effective(ttls, op.op.kind, op.op.ttl) else op.at;
    assert Perform(Perform(t, ttls, op.op, op.at).0, ttls, Acquire(r), at).1.Granted?;
  }

  /** Releasing never touches a record that belongs to someone else, however late it comes. */
  lemma LateReleaseKeepsSuccessor(t: Table, ttls: Ttls, k: Kind, resource: string, o: Owner, now: int)
    ensures var t' := Perform(t, ttls, Release(k, resource, o), now).0;
            (forall id :: id in t && (t[id].owner != o || id != LeaseId(k, resource)) ==> id in t' && t'[id] == t[id]) &&
            (forall id :: id in t' ==> id in t)
  {
  }

  // ---------------------------------------------------------------------------------------------
  // Reaping is invisible
  // ---------------------------------------------------------------------------------------------

  function StripReaps(ops: seq<Timed>): seq<Timed> {
    if ops == [] then []
    else if ops[0].op.Reap? then StripReaps(ops[1..])
    else [ops[0]] + StripReaps(ops[1..])
  }

  // One operation of a run, the table it found and what it was told.
  datatype Moment = Moment(before: Table, op: Timed, answer: Answer)

  // What the clients of a run see: everything but the reaps.
  function Moments(t: Table, ttls: Ttls, ops: seq<Timed>): seq<Moment>
    decreases |ops|
  {
    if ops == [] then []
    else
      var (t', a) := Perform(t, ttls, ops[0].op, ops[0].at);
      if ops[0].op.Reap? then Moments(t', ttls, ops[1..])
      else [Moment(t, ops[0], a)] + Moments(t', ttls, ops[1..])
  }

  // An expired record of `o` that has not been reaped.
  predicate Leftover(t: Table, id: string, o: Owner, now: int) {
    id in t && t[id].owner == o && !t[id].Active(now)
  }

  // There is a record of the pair, and wherever there is one it has expired.
  predicate OnlyExpired(t1: Table, t2: Table, id: string, now: int) {
    (id in t1 || id in t2) && (id in t1 ==> !t1[id].Active(now)) && (id in t2 ==> !t2[id].Active(now))
  }

  // The same operation, told the same thing; except that Release tells whether there was a record to remove, and
  // Get shows the record, also when it has expired.
  predicate Alike(a: Moment, b: Moment) {
    var (op, now) := (a.op.op, a.op.at);
    && a.op == b.op
    && match op
       case Release(_, _, o) =>
         a.answer != b.answer <==> Leftover(a.before, op.Id(), o, now) != Leftover(b.before, op.Id(), o, now)
       case Get(_, _) =>
         a.answer != b.answer ==> OnlyExpired(a.before, b.before, op.Id(), now)
       case _ => a.answer == b.answer
  }

  ghost predicate AllAlike(a: seq<Moment>, b: seq<Moment>) {
    |a| == |b| && forall i :: 0 <= i < |a| ==> Alike(a[i], b[i])
  }

  // The two tables hold the same valid leases; they may differ in expired records.
  predicate Agree(t1: Table, t2: Table, now: int) {
    Live(t1, now) == Live(t2, now)
  }

  lemma AgreeLater(t1: Table, t2: Table, from: int, now: int)
    requires Agree(t1, t2, from) && from <= now
    ensures Agree(t1, t2, now)
  {
    assert Live(t1, now) == Live(Live(t1, from), now);
    assert Live(t2, now) == Live(Live(t2, from), now);
  }

  lemma DecideOnLive(found: Option<Lease>, ttls: Ttls, op: Op, now: int)
    requires !op.ListActive? && !op.Reap?
    ensures var (e1, a1) := Decide(found, ttls, op, now);
            var (e2, a2) := Decide(if found.Some? && !found.value.Active(now) then None else found, ttls, op, now);
            (op.Release? || op.Get? || a1 == a2) &&
            (e1 == e2 || (e1.Erase? && e2.Keep? && found.Some? && !found.value.Active(now)))
  {
  }

  lemma LiveApply(t: Table, id: string, e: Effect, now: int)
    ensures Live(Apply(t, id, e), now) ==
              match e case Keep => Live(t, now)
                      case Record(l) => if l.Active(now) then Live(t, now)[id := l] else Live(t, now) - {id}
                      case Erase => Live(t, now) - {id}
  {
  }

  // An operation sees and changes only the valid leases, except for Release and Get's answers.
  lemma OnlyLiveMatters(t: Table, id: string, ttls: Ttls, op: Op, now: int)
    requires !op.Reap?
    ensures Agree(PerformAt(t, id, ttls, op, now).0, PerformAt(Live(t, now), id, ttls, op, now).0, now)
    ensures op.Release? || op.Get? || PerformAt(t, id, ttls, op, now).1 == PerformAt(Live(t, now), id, ttls, op, now).1
  {
    var live := Live(t, now);
    assert Live(live, now) == live;
    if !op.ListActive? {
      var e1 := Decide(Lookup(t, id), ttls, op, now).0;
      var e2 := Decide(Lookup(live, id), ttls, op, now).0;
      DecideOnLive(Lookup(t, id), ttls, op, now);
      LiveApply(t, id, e1, now);
      LiveApply(live, id, e2, now);
    }
  }

  lemma StepAgrees(t1: Table, t2: Table, ttls: Ttls, op: Op, from: int, now: int)
    requires from <= now && Agree(t1, t2, from) && !op.Reap?
    ensures Agree(Perform(t1, ttls, op, now).0, Perform(t2, ttls, op, now).0, now)
    ensures op.Release? || op.Get? || Perform(t1, ttls, op, now).1 == Perform(t2, ttls, op, now).1
  {
    AgreeLater(t1, t2, from, now);
    OnlyLiveMatters(t1, op.Id(), ttls, op, now);
    OnlyLiveMatters(t2, op.Id(), ttls, op, now);
  }

  lemma AgreeLookup(t1: Table, t2: Table, id: string, now: int)
    requires Agree(t1, t2, now)
    ensures (id in t1 && t1[id].Active(now)) || (id in t2 && t2[id].Active(now)) ==> Lookup(t1, id) == Lookup(t2, id)
  {
    assert id in Live(t1, now) <==> id in Live(t2, now);
    assert id in Live(t1, now) ==> Live(t1, now)[id] == Live(t2, now)[id];
  }

  /** What a Reap can change, exactly: Release answers differently just when the managers differ on a leftover of
      that owner, and Get only on records that are expired wherever they exist. */
  lemma WhatReapCanChange(t1: Table, t2: Table, id: string, ttls: Ttls, release: Op, get: Op, now: int)
    requires Agree(t1, t2, now) && release.Release? && get.Get?
    ensures PerformAt(t1, id, ttls, release, now).1 != PerformAt(t2, id, ttls, release, now).1
            <==> Leftover(t1, id, release.owner, now) != Leftover(t2, id, release.owner, now)
    ensures PerformAt(t1, id, ttls, get, now).1 != PerformAt(t2, id, ttls, get, now).1 ==> OnlyExpired(t1, t2, id, now)
  {
    AgreeLookup(t1, t2, id, now);
  }

  lemma StepAlike(t1: Table, t2: Table, ttls: Ttls, op: Timed, from: int)
    requires from <= op.at && Agree(t1, t2, from) && !op.op.Reap?
    ensures Alike(Moment(t1, op, Perform(t1, ttls, op.op, op.at).1), Moment(t2, op, Perform(t2, ttls, op.op, op.at).1))
  {
    AgreeLater(t1, t2, from, op.at);
    var id := op.op.Id();
    if op.op.Release? { WhatReapCanChange(t1, t2, id, ttls, op.op, Get("", ""), op.at); }
    else if op.op.Get? { WhatReapCanChange(t1, t2, id, ttls, Release("", "", ""), op.op, op.at); }
    else { StepAgrees(t1, t2, ttls, op.op, from, op.at); }
  }

  // The later of the two times up to which the runs have come.
  function Later(a: int, b: int): int { if a > b then a else b }

  lemma ReapAgrees(t1: Table, t2: Table, from: int, at: int)
    requires Agree(t1, t2, from)
    ensures Agree(Live(t1, at), t2, Later(from, at))
  {
    AgreeLater(t1, t2, from, Later(from, at));
    assert Live(Live(t1, at), Later(from, at)) == Live(t1, Later(from, at));
  }

  lemma SameHead(ops1: seq<Timed>, ops2: seq<Timed>)
    requires ops1 != [] && !ops1[0].op.Reap? && (ops2 != [] ==> !ops2[0].op.Reap?) && StripReaps(ops1) == StripReaps(ops2)
    ensures ops2 != [] && ops2[0] == ops1[0] && StripReaps(ops1[1..]) == StripReaps(ops2[1..])
  {
    assert StripReaps(ops1)[1..] == StripReaps(ops1[1..]);
    if ops2 != [] { assert StripReaps(ops2)[1..] == StripReaps(ops2[1..]); }
  }

  lemma ConsAlike(m: Moment, a: seq<Moment>, n: Moment, b: seq<Moment>)
    requires Alike(m, n) && AllAlike(a, b)
    ensures AllAlike([m] + a, [n] + b)
  {
  }

  /** A bisimulation: two managers that agree on the valid leases answer every two later runs alike that differ
      only in when and how often they reap. */
  lemma {:induction false} ReapIsInvisible(t1: Table, t2: Table, ttls: Ttls, ops1: seq<Timed>, ops2: seq<Timed>, from1: int, from2: int)
    requires Agree(t1, t2, Later(from1, from2)) && Ordered(ops1, from1) && Ordered(ops2, from2)
    requires StripReaps(ops1) == StripReaps(ops2)
    ensures AllAlike(Moments(t1, ttls, ops1), Moments(t2, ttls, ops2))
    decreases |ops1| + |ops2|
  {
    if ops1 != [] && ops1[0].op.Reap? {
      ReapAgrees(t1, t2, Later(from1, from2), ops1[0].at);
      ReapIsInvisible(Live(t1, ops1[0].at), t2, ttls, ops1[1..], ops2, ops1[0].at, from2);
    } else if ops2 != [] && ops2[0].op.Reap? {
      ReapAgrees(t2, t1, Later(from1, from2), ops2[0].at);
      ReapIsInvisible(t1, Live(t2, ops2[0].at), ttls, ops1, ops2[1..], from1, ops2[0].at);
    } else if ops1 != [] {
      var op, now := ops1[0], ops1[0].at;
      SameHead(ops1, ops2);
      StepAlike(t1, t2, ttls, op, Later(from1, from2));
      StepAgrees(t1, t2, ttls, op.op, Later(from1, from2), now);
      var (t1', a1) := Perform(t1, ttls, op.op, now);
      var (t2', a2) := Perform(t2, ttls, op.op, now);
      ReapIsInvisible(t1', t2', ttls, ops1[1..], ops2[1..], now, now);
      ConsAlike(Moment(t1, op, a1), Moments(t1', ttls, ops1[1..]), Moment(t2, op, a2), Moments(t2', ttls, ops2[1..]));
    }
  }

  /** Hence sprinkling any Reaps over a run, or taking them all out, changes nothing that is visible. */
  lemma ReapsAnywhere(t: Table, ttls: Ttls, ops: seq<Timed>, from: int)
    requires Ordered(ops, from)
    ensures AllAlike(Moments(t, ttls, ops), Moments(t, ttls, StripReaps(ops)))
  {
    StrippedOrdered(ops, from);
    ReapIsInvisible(t, t, ttls, ops, StripReaps(ops), from, from);
  }

  lemma {:induction false} StrippedOrdered(ops: seq<Timed>, from: int)
    requires Ordered(ops, from)
    ensures Ordered(StripReaps(ops), from) && StripReaps(StripReaps(ops)) == StripReaps(ops)
    decreases |ops|
  {
    if ops != [] {
      StrippedOrdered(ops[1..], ops[0].at);
      var rest := StripReaps(ops[1..]);
      if !ops[0].op.Reap? {
        assert ([ops[0]] + rest)[1..] == rest;
      } else {
        OrderedEarlier(rest, from, ops[0].at);
      }
    }
  }

  lemma OrderedEarlier(ops: seq<Timed>, from: int, later: int)
    requires Ordered(ops, later) && from <= later
    ensures Ordered(ops, from)
  {
  }

  /** The clock has to be monotone: if it steps back, a Reap in between changes what Validate says. */
  lemma ReapNeedsMonotoneClock(ttls: Ttls)
    ensures exists t, ops: seq<Timed> :: |ops| == 2 && ops[0].op.Reap? && ops[1].at < ops[0].at &&
              !AllAlike(Moments(t, ttls, ops), Moments(t, ttls, StripReaps(ops)))
  {
    var id := LeaseId(KIND_MERGE, "dev");
    var t: Table := map[id := Lease(id, KIND_MERGE, "dev", "A-1", 0, 10, false, "")];
    var ask := Timed(Validate(KIND_MERGE, "dev", "A-1"), 5);
    var ops := [Timed(Reap, 20), ask];
    assert ops[1..] == [ask];
    assert StripReaps([ask]) == [ask];
    assert StripReaps(ops) == [ask];
    assert Perform(t, ttls, Reap, 20).0 == map[];
    assert Moments(t, ttls, [ask])[0] == Moment(t, ask, Flag(true));
    assert Moments(t, ttls, ops)[0] == Moment(map[], ask, Flag(false)) by {
      assert Moments(map[], ttls, [ask])[0] == Moment(map[], ask, Flag(false));
    }
  }
}
