/** The Resource Manager: which account the next run gets.

    `Perform` is the specification of every operation on the in-memory inventory; `Manager` is the class
    that changes the inventory in place, each method proved against `Perform`. */
module Scheduler {
  import opened Options
  import opened Ordering

  datatype Health = Unset | Unknown | Healthy | Degraded | Down | OtherHealth(name: string)

  datatype Availability = Available | Reserved | Cooling | Offline | Paused

  datatype Resource = Resource(
    id: string, kind: string, labels: map<string, string>, health: Health,
    cooldownUntil: Option<int>,       // None is Go's zero time
    usagePct: int, reservations: int, uses: int, failures: int, lastUsed: int, lastHealthAt: int,
    reservedBy: string,               // "" when nobody holds it
    paused: bool)

  type Inventory = map<string, Resource>

  datatype Filter = Filter(kind: string, id: string, labels: map<string, string>)
  {
    predicate Matches(r: Resource) {
      && (kind == "" || r.kind == kind)
      && (id == "" || r.id == id)
      && (forall k :: k in labels ==> (if k in r.labels then r.labels[k] else "") == labels[k])
    }
  }

  function AvailabilityOf(r: Resource, now: int): Availability {
    if r.paused then Paused
    else if r.health == Down then Offline
    else if r.cooldownUntil.Some? && now < r.cooldownUntil.value then Cooling
    else if r.reservedBy != "" then Reserved
    else Available
  }

  function HealthRank(h: Health): int {
    match h
    case Healthy => 0
    case Unknown => 1
    case Degraded => 2
    case _ => 3
  }

  // The scheduling preference: healthier, then less used, then least recently used, then by id.
  predicate Prefers(a: Resource, b: Resource) {
    if HealthRank(a.health) != HealthRank(b.health) then HealthRank(a.health) < HealthRank(b.health)
    else if a.usagePct != b.usagePct then a.usagePct < b.usagePct
    else if a.lastUsed != b.lastUsed then a.lastUsed < b.lastUsed
    else StrLe(a.id, b.id)
  }

  // Every resource is kept under its own id.
  ghost predicate Keyed(inv: Inventory) {
    forall id :: id in inv ==> inv[id].id == id
  }

  predicate Candidate(inv: Inventory, f: Filter, now: int, id: string) {
    id in inv && f.Matches(inv[id]) && AvailabilityOf(inv[id], now) == Available
  }

  ghost predicate Best(inv: Inventory, f: Filter, now: int, id: string) {
    Candidate(inv, f, now, id) && forall other :: Candidate(inv, f, now, other) ==> Prefers(inv[id], inv[other])
  }

  // The resource that selection has to return.
  ghost function Choice(inv: Inventory, f: Filter, now: int): Option<string> {
    if id :| Best(inv, f, now, id) then Some(id) else None
  }

  lemma PrefersIsOrder(s: set<Resource>)
    requires forall x, y :: x in s && y in s && x.id == y.id ==> x == y
    ensures TotalOrder(Prefers, s)
  {
    forall x, y | x in s && y in s
      ensures Prefers(x, y) || Prefers(y, x)
      ensures Prefers(x, y) && Prefers(y, x) ==> x == y
    {
      StrLeTotal(x.id, y.id);
    }
    forall x, y, z | x in s && y in s && z in s && Prefers(x, y) && Prefers(y, z) ensures Prefers(x, z) {
      if x.lastUsed == y.lastUsed == z.lastUsed && StrLe(x.id, y.id) && StrLe(y.id, z.id) {
        StrLeTransitive(x.id, y.id, z.id);
      }
    }
  }

  /** There is one best candidate at most, so no iteration order can matter; and there is one as soon as
      there is any candidate. */
  lemma BestIsUnique(inv: Inventory, f: Filter, now: int, a: string, b: string)
    requires Keyed(inv) && Best(inv, f, now, a) && Best(inv, f, now, b)
    ensures a == b
  {
    StrLeTotal(a, b);
  }

  // As soon as there is a candidate there is a best one.
  lemma CandidateHasBest(inv: Inventory, f: Filter, now: int, id: string)
    requires Keyed(inv) && Candidate(inv, f, now, id)
    ensures exists best :: Best(inv, f, now, best)
  {
    var listed := ListCandidates(inv, f, now, inv.Keys);
    assert inv[id] in listed;
    BestIn(inv, f, now, listed);
  }

  lemma {:induction false} ListCandidates(inv: Inventory, f: Filter, now: int, ids: set<string>) returns (listed: seq<Resource>)
    requires Keyed(inv) && ids <= inv.Keys
    ensures forall r :: r in listed <==> r.id in ids && Candidate(inv, f, now, r.id) && inv[r.id] == r
    decreases ids
  {
    if ids == {} {
      listed := [];
    } else {
      var id :| id in ids;
      listed := ListCandidates(inv, f, now, ids - {id});
      if Candidate(inv, f, now, id) { listed := listed + [inv[id]]; }
    }
  }

  lemma BestIn(inv: Inventory, f: Filter, now: int, listed: seq<Resource>)
    requires Keyed(inv) && listed != []
    requires forall r :: r in listed <==> Candidate(inv, f, now, r.id) && inv[r.id] == r
    ensures Sort(Prefers, listed) != [] && Best(inv, f, now, Sort(Prefers, listed)[0].id)
  {
    var sorted := Sort(Prefers, listed);
    SameElements(sorted, listed);
    PrefersIsOrder(inv.Values);
    SortSorts(Prefers, listed, inv.Values);
    assert sorted[0] in listed;
    forall other | Candidate(inv, f, now, other) ensures Prefers(sorted[0], inv[other]) {
      HeadIsLeast(Prefers, sorted, inv.Values, inv[other]);
    }
  }

  datatype Op =
    | Register(r: Resource)
    | Deregister(id: string)
    | SetHealth(id: string, health: Health)
    | SetUsage(id: string, usage: int)
    | Discover(found: seq<Resource>)
    | Cooldown(id: string, until: int)
    | SetPaused(id: string, paused: bool)
    | Reserve(holder: string, f: Filter)
    | ReserveID(id: string, holder: string)
    | Release(id: string)
    | RecordUse(id: string)
    | RecordFailure(id: string)

  datatype Answer = Nothing | Flag(ok: bool) | Picked(r: Resource) | NonePicked

  function Named(r: Resource): Resource {
    if r.health == Unset then r.(health := Unknown) else r
  }

  function Taken(r: Resource, holder: string, now: int): Resource {
    r.(reservedBy := holder, reservations := r.reservations + 1, lastUsed := now)
  }

  // One discovered entry: a known resource keeps its reservation, pause, cooldown and metrics.
  function Refresh(inv: Inventory, found: Resource, now: int): Inventory {
    if found.id !in inv then inv[found.id := Named(found)]
    else
      var r := inv[found.id].(kind := found.kind, labels := found.labels);
      inv[found.id := if found.health == Unset || found.health == Unknown then r
                      else r.(health := found.health, lastHealthAt := now)]
  }

  function RefreshAll(inv: Inventory, found: seq<Resource>, now: int): Inventory
    decreases |found|
  {
    if found == [] then inv else Refresh(RefreshAll(inv, found[..|found| - 1], now), found[|found| - 1], now)
  }

  function Change(inv: Inventory, id: string, r: Resource -> Resource): Inventory {
    if id in inv then inv[id := r(inv[id])] else inv
  }

  ghost function Perform(inv: Inventory, op: Op, now: int): (Inventory, Answer) {
    match op
    case Register(r) => (inv[r.id := Named(r)], Nothing)
    case Deregister(id) => (inv - {id}, Flag(id in inv))
    case SetHealth(id, h) => (Change(inv, id, (r: Resource) => r.(health := h, lastHealthAt := now)), Nothing)
    case SetUsage(id, u) => (Change(inv, id, (r: Resource) => r.(usagePct := u)), Nothing)
    case Discover(found) => (RefreshAll(inv, found, now), Nothing)
    case Cooldown(id, until) => (Change(inv, id, (r: Resource) => r.(cooldownUntil := Some(until))), Nothing)
    case SetPaused(id, p) => (Change(inv, id, (r: Resource) => r.(paused := p)), Flag(id in inv))
    case Reserve(holder, f) =>
      (match Choice(inv, f, now)
       case None => (inv, NonePicked)
       case Some(id) =>
         if id !in inv then (inv, NonePicked)
         else (inv[id := Taken(inv[id], holder, now)], Picked(Taken(inv[id], holder, now))))
    case ReserveID(id, holder) =>
      if id in inv && AvailabilityOf(inv[id], now) == Available then (inv[id := Taken(inv[id], holder, now)], Flag(true))
      else (inv, Flag(false))
    case Release(id) =>
      (Change(inv, id, (r: Resource) => r.(reservedBy := "")), Flag(id in inv && inv[id].reservedBy != ""))
    case RecordUse(id) => (Change(inv, id, (r: Resource) => r.(uses := r.uses + 1, lastUsed := now)), Nothing)
    case RecordFailure(id) => (Change(inv, id, (r: Resource) => r.(failures := r.failures + 1)), Nothing)
  }

  lemma ChoiceIsBest(inv: Inventory, f: Filter, now: int)
    requires Keyed(inv)
    ensures Choice(inv, f, now).Some? ==> Best(inv, f, now, Choice(inv, f, now).value)
    ensures forall id :: Best(inv, f, now, id) ==> Choice(inv, f, now) == Some(id)
  {
    forall id | Best(inv, f, now, id) ensures Choice(inv, f, now) == Some(id) {
      BestIsUnique(inv, f, now, id, Choice(inv, f, now).value);
    }
  }

  // What a request may be given: a match that is not paused, not down, not cooling and not reserved.
  predicate Fits(r: Resource, f: Filter, now: int) {
    && !r.paused && r.health != Down && r.reservedBy == "" && (r.cooldownUntil.Some? ==> r.cooldownUntil.value <= now)
    && (f.kind != "" ==> r.kind == f.kind) && (f.id != "" ==> r.id == f.id)
    && (forall k :: k in f.labels && k in r.labels ==> r.labels[k] == f.labels[k])
    && (forall k :: k in f.labels && k !in r.labels ==> f.labels[k] == "")
  }

  // Healthy before unknown before degraded before anything else.
  predicate Healthier(h: Health, g: Health) {
    || (h == Healthy && g != Healthy)
    || (h == Unknown && g != Healthy && g != Unknown)
    || (h == Degraded && g != Healthy && g != Unknown && g != Degraded)
  }

  // Healthier; if equally healthy, less used; then used longer ago; then of no larger id.
  predicate Better(a: Resource, b: Resource) {
    || Healthier(a.health, b.health)
    || (!Healthier(b.health, a.health) &&
        (|| a.usagePct < b.usagePct
         || (a.usagePct == b.usagePct && (a.lastUsed < b.lastUsed || (a.lastUsed == b.lastUsed && StrLe(a.id, b.id))))))
  }

  /** The order of the candidates. */
  lemma PrefersTheBetter(a: Resource, b: Resource)
    ensures Prefers(a, b) <==> Better(a, b)
  {
    assert HealthRank(a.health) < HealthRank(b.health) <==> Healthier(a.health, b.health);
  }

  /** What Reserve hands out: a fit one, such that no fit one is healthier, among those of its health none is less
      used, among those none was used longer ago, and among those none has a smaller id. It is marked for the holder
      and nothing else about it, or about any other, changes but its count and its time of use. It fails only if
      nothing fits. */
  lemma ReservesTheBest(inv: Inventory, holder: string, f: Filter, now: int)
    requires Keyed(inv)
    ensures var (inv', a) := Perform(inv, Reserve(holder, f), now);
            match a
            case Picked(r) =>
              && r.id in inv && Fits(inv[r.id], f, now)
              && r == inv[r.id].(reservedBy := holder, reservations := inv[r.id].reservations + 1, lastUsed := now)
              && inv' == inv[r.id := r]
              && forall id :: id in inv && Fits(inv[id], f, now) ==>
                   var (best, other) := (inv[r.id], inv[id]);
                   && !Healthier(other.health, best.health)
                   && (!Healthier(best.health, other.health) ==>
                         && best.usagePct <= other.usagePct
                         && (best.usagePct == other.usagePct ==> best.lastUsed <= other.lastUsed)
                         && (best.usagePct == other.usagePct && best.lastUsed == other.lastUsed ==> !StrLess(id, r.id)))
            case NonePicked => inv' == inv && forall id :: id in inv ==> !Fits(inv[id], f, now)
            case _ => false
  {
    ChoiceIsBest(inv, f, now);
    forall id | id in inv ensures Candidate(inv, f, now, id) <==> Fits(inv[id], f, now) { FitIsCandidate(inv[id], f, now); }
    if Choice(inv, f, now).None? {
      if id :| id in inv && Fits(inv[id], f, now) { CandidateHasBest(inv, f, now, id); }
    } else {
      var best := Choice(inv, f, now).value;
      forall id | id in inv && Fits(inv[id], f, now) ensures Prefers(inv[best], inv[id]) {}
      forall id: string ensures StrLess(id, best) ==> !StrLe(best, id) { StrLeTotal(id, best); }
    }
  }

  lemma FitIsCandidate(r: Resource, f: Filter, now: int)
    ensures Fits(r, f, now) <==> f.Matches(r) && AvailabilityOf(r, now) == Available
  {
  }

  // ---------------------------------------------------------------------------------------------
  // The manager itself
  // ---------------------------------------------------------------------------------------------

  class Manager {
    var res: Inventory

    ghost predicate Valid()
      reads this
    {
      Keyed(res)
    }

    constructor ()
      ensures Valid() && res == map[]
    {
      res := map[];
    }

    /** The available matching resources, best first, from a map iterated in any order. */
    method Candidates(f: Filter, now: int) returns (out: seq<Resource>)
      requires Valid()
      ensures out == [] <==> Choice(res, f, now).None?
      ensures out != [] ==> Choice(res, f, now) == Some(out[0].id) && Candidate(res, f, now, out[0].id) && out[0] == res[out[0].id]
      ensures Sorted(Prefers, out) && forall r :: r in out <==> Candidate(res, f, now, r.id) && res[r.id] == r
    {
      out := [];
      var todo := res.Keys;
      while todo != {}
        invariant todo <= res.Keys
        invariant forall r :: r in out <==> r.id !in todo && Candidate(res, f, now, r.id) && res[r.id] == r
        decreases todo
      {
        var id :| id in todo;
        if f.Matches(res[id]) && AvailabilityOf(res[id], now) == Available { out := out + [res[id]]; }
        todo := todo - {id};
      }
      ChoiceIsBest(res, f, now);
      if Choice(res, f, now).Some? { assert res[Choice(res, f, now).value] in out; }
      if out != [] { BestIn(res, f, now, out); }
      PrefersIsOrder(res.Values);
      SortSorts(Prefers, out, res.Values);
      SameElements(Sort(Prefers, out), out);
      out := Sort(Prefers, out);
    }

    method Select(f: Filter, now: int) returns (r: Option<Resource>)
      requires Valid()
      ensures r.Some? <==> Choice(res, f, now).Some?
      ensures r.Some? ==> Best(res, f, now, r.value.id) && res[r.value.id] == r.value
    {
      var c := Candidates(f, now);
      ChoiceIsBest(res, f, now);
      if |c| == 0 { return None; }
      return Some(c[0]);
    }

    method Reserve(holder: string, f: Filter, now: int) returns (a: Answer)
      requires Valid()
      modifies this
      ensures Valid()
      ensures (res, a) == Perform(old(res), Op.Reserve(holder, f), now)
    {
      var c := Candidates(f, now);
      if |c| == 0 { return NonePicked; }
      var r := Taken(c[0], holder, now);
      res := res[r.id := r];
      return Picked(r);
    }

    method ReserveID(id: string, holder: string, now: int) returns (ok: bool)
      requires Valid()
      modifies this
      ensures Valid()
      ensures (res, Flag(ok)) == Perform(old(res), Op.ReserveID(id, holder), now)
    {
      if id !in res || AvailabilityOf(res[id], now) != Available { return false; }
      res := res[id := Taken(res[id], holder, now)];
      return true;
    }

    method Release(id: string, now: int) returns (ok: bool)
      requires Valid()
      modifies this
      ensures Valid()
      ensures (res, Flag(ok)) == Perform(old(res), Op.Release(id), now)
    {
      if id !in res || res[id].reservedBy == "" {
        assert id in res ==> res == res[id := res[id].(reservedBy := "")];
        return false;
      }
      res := res[id := res[id].(reservedBy := "")];
      return true;
    }

    method RecordUse(id: string, now: int)
      requires Valid()
      modifies this
      ensures Valid()
      ensures res == Perform(old(res), Op.RecordUse(id), now).0
    {
      if id in res { res := res[id := res[id].(uses := res[id].uses + 1, lastUsed := now)]; }
    }

    method Cooldown(id: string, until: int)
      requires Valid()
      modifies this
      ensures Valid()
      ensures forall now :: res == Perform(old(res), Op.Cooldown(id, until), now).0
    {
      if id in res { res := res[id := res[id].(cooldownUntil := Some(until))]; }
    }

    method SetPaused(id: string, paused: bool) returns (ok: bool)
      requires Valid()
      modifies this
      ensures Valid()
      ensures forall now :: (res, Flag(ok)) == Perform(old(res), Op.SetPaused(id, paused), now)
    {
      if id in res { res := res[id := res[id].(paused := paused)]; return true; }
      return false;
    }

    method SetHealth(id: string, h: Health, now: int)
      requires Valid()
      modifies this
      ensures Valid()
      ensures res == Perform(old(res), Op.SetHealth(id, h), now).0
    {
      if id in res { res := res[id := res[id].(health := h, lastHealthAt := now)]; }
    }

    method Register(r: Resource)
      requires Valid()
      modifies this
      ensures Valid()
      ensures forall now :: res == Perform(old(res), Op.Register(r), now).0
    {
      var cp := r;
      if cp.health == Unset { cp := cp.(health := Unknown); }
      res := res[r.id := cp];
    }

    method Deregister(id: string) returns (ok: bool)
      requires Valid()
      modifies this
      ensures Valid()
      ensures forall now :: (res, Flag(ok)) == Perform(old(res), Op.Deregister(id), now)
    {
      if id !in res {
        assert res - {id} == res;
        return false;
      }
      res := res - {id};
      return true;
    }

    method Discover(found: seq<Resource>, now: int)
      requires Valid()
      modifies this
      ensures Valid()
      ensures res == Perform(old(res), Op.Discover(found), now).0
    {
      var i := 0;
      while i < |found|
        invariant 0 <= i <= |found|
        invariant Valid() && res == RefreshAll(old(res), found[..i], now)
      {
        var fr := found[i];
        if fr.id in res {
          var r := res[fr.id].(kind := fr.kind, labels := fr.labels);
          if fr.health != Unset && fr.health != Unknown { r := r.(health := fr.health, lastHealthAt := now); }
          res := res[fr.id := r];
        } else {
          res := res[fr.id := if fr.health == Unset then fr.(health := Unknown) else fr];
        }
        assert found[..i + 1][..i] == found[..i];
        i := i + 1;
      }
      assert found[..i] == found;
    }
  }

  // ---------------------------------------------------------------------------------------------
  // Reservations over runs
  // ---------------------------------------------------------------------------------------------

  datatype Timed = Timed(op: Op, at: int)

  ghost function Final(inv: Inventory, ops: seq<Timed>): Inventory
    decreases |ops|
  {
    if ops == [] then inv else Final(Perform(inv, ops[0].op, ops[0].at).0, ops[1..])
  }

  ghost function Answers(inv: Inventory, ops: seq<Timed>): (r: seq<Answer>)
    ensures |r| == |ops|
    decreases |ops|
  {
    if ops == [] then []
    else
      var (inv', a) := Perform(inv, ops[0].op, ops[0].at);
      [a] + Answers(inv', ops[1..])
  }

  predicate HeldBy(inv: Inventory, id: string, holder: string) {
    id in inv && inv[id].reservedBy == holder
  }

  // Release does not ask who the holder is, and registering an id again replaces its reservation.
  predicate Drops(op: Op, id: string, holder: string) {
    match op
    case Release(i) => i == id
    case Deregister(i) => i == id
    case Register(r) => r.id == id && r.reservedBy != holder
    case _ => false
  }

  predicate HandsOut(op: Op, a: Answer, id: string) {
    (op.Reserve? && a.Picked? && a.r.id == id) || (op.ReserveID? && op.id == id && a == Flag(true))
  }

  // Discovery may change kind, labels and health, and nothing else.
  predicate SameButIdentity(r: Resource, r': Resource) {
    r' == r.(kind := r'.kind, labels := r'.labels, health := r'.health, lastHealthAt := r'.lastHealthAt)
  }

  lemma {:induction false} RefreshKeeps(inv: Inventory, found: seq<Resource>, now: int, id: string)
    requires Keyed(inv)
    ensures Keyed(RefreshAll(inv, found, now))
    ensures id in inv ==> id in RefreshAll(inv, found, now) && SameButIdentity(inv[id], RefreshAll(inv, found, now)[id])
    decreases |found|
  {
    if found != [] { RefreshKeeps(inv, found[..|found| - 1], now, id); }
  }

  lemma PerformKeyed(inv: Inventory, op: Op, now: int)
    requires Keyed(inv)
    ensures Keyed(Perform(inv, op, now).0)
  {
    if op.Discover? { RefreshKeeps(inv, op.found, now, ""); }
  }

  /** One operation ends a reservation exactly when it is one of the three that drop it, and none hands
      a reserved resource to anybody. */
  lemma ReservationStep(inv: Inventory, op: Op, now: int, id: string, holder: string)
    requires Keyed(inv) && HeldBy(inv, id, holder) && holder != ""
    ensures HeldBy(Perform(inv, op, now).0, id, holder) <==> !Drops(op, id, holder)
    ensures !HandsOut(op, Perform(inv, op, now).1, id)
  {
    if op.Discover? { RefreshKeeps(inv, op.found, now, id); }
    if op.Reserve? { ChoiceIsBest(inv, op.f, now); }
  }

  /** A reservation excludes everyone else until it is dropped, over every run of operations. */
  lemma {:induction false} ReservationExcludes(inv: Inventory, ops: seq<Timed>, id: string, holder: string)
    requires Keyed(inv) && HeldBy(inv, id, holder) && holder != ""
    requires forall i :: 0 <= i < |ops| ==> !Drops(ops[i].op, id, holder)
    ensures HeldBy(Final(inv, ops), id, holder)
    ensures forall i :: 0 <= i < |ops| ==> !HandsOut(ops[i].op, Answers(inv, ops)[i], id)
    decreases |ops|
  {
    if ops != [] {
      var inv' := Perform(inv, ops[0].op, ops[0].at).0;
      ReservationStep(inv, ops[0].op, ops[0].at, id, holder);
      PerformKeyed(inv, ops[0].op, ops[0].at);
      ReservationExcludes(inv', ops[1..], id, holder);
      forall i | 0 <= i < |ops| ensures !HandsOut(ops[i].op, Answers(inv, ops)[i], id) {
        if i > 0 { assert ops[i] == ops[1..][i - 1]; }
      }
    }
  }

  // ---------------------------------------------------------------------------------------------
  // Rotation
  // ---------------------------------------------------------------------------------------------

  // A run of work: reserve, perhaps record the use, release.
  datatype Turn = Turn(holder: string, at: int, used: bool, ended: int)

  ghost predicate Advancing(turns: seq<Turn>)
    decreases |turns|
  {
    turns != [] ==>
      turns[0].at <= turns[0].ended && turns[0].holder != "" &&
      (|turns| > 1 ==> turns[0].ended < turns[1].at) && Advancing(turns[1..])
  }

  ghost function TurnOps(t: Turn, id: string): seq<Timed> {
    if t.used then [Timed(RecordUse(id), t.ended), Timed(Release(id), t.ended)] else [Timed(Release(id), t.ended)]
  }

  ghost function TakeTurn(inv: Inventory, f: Filter, t: Turn): (Inventory, Option<string>) {
    var (inv1, a) := Perform(inv, Reserve(t.holder, f), t.at);
    if a.Picked? then (Final(inv1, TurnOps(t, a.r.id)), Some(a.r.id)) else (inv1, None)
  }

  ghost function Picks(inv: Inventory, f: Filter, turns: seq<Turn>): (r: seq<Option<string>>)
    ensures |r| == |turns|
    decreases |turns|
  {
    if turns == [] then []
    else
      var (inv', p) := TakeTurn(inv, f, turns[0]);
      [p] + Picks(inv', f, turns[1..])
  }

  // All matching resources are available, equally healthy and used, and were last used before now.
  ghost predicate Even(inv: Inventory, f: Filter, now: int) {
    && (forall id :: id in inv && f.Matches(inv[id]) ==> AvailabilityOf(inv[id], now) == Available && inv[id].lastUsed < now)
    && (forall a, b :: a in inv && b in inv && f.Matches(inv[a]) && f.Matches(inv[b]) ==>
          HealthRank(inv[a].health) == HealthRank(inv[b].health) && inv[a].usagePct == inv[b].usagePct)
  }

  function Matching(inv: Inventory, f: Filter): set<string> {
    set id | id in inv && f.Matches(inv[id])
  }

  function IdPrefers(inv: Inventory): (string, string) -> bool {
    (a: string, b: string) => a in inv && b in inv && Prefers(inv[a], inv[b])
  }

  // The queue that the scheduler implements: the matching resources in the order of preference.
  ghost predicate Queue(inv: Inventory, f: Filter, q: seq<string>) {
    && Distinct(q) && Sorted(IdPrefers(inv), q)
    && (forall id :: id in q <==> id in Matching(inv, f))
  }

  lemma {:induction false} Enumerate<T>(s: set<T>) returns (q: seq<T>)
    ensures Distinct(q) && |q| == |s| && forall x :: x in q <==> x in s
    decreases s
  {
    if s == {} {
      q := [];
    } else {
      var x :| x in s;
      var rest := Enumerate(s - {x});
      q := [x] + rest;
    }
  }

  lemma QueueExists(inv: Inventory, f: Filter) returns (q: seq<string>)
    requires Keyed(inv)
    ensures Queue(inv, f, q) && |q| == |Matching(inv, f)|
  {
    var s := Enumerate(Matching(inv, f));
    PrefersIsOrder(inv.Values);
    var le := IdPrefers(inv);
    assert TotalOrder(le, inv.Keys) by {
      forall x, y | x in inv.Keys && y in inv.Keys
        ensures le(x, y) || le(y, x)
        ensures le(x, y) && le(y, x) ==> x == y
      {
        assert inv[x] in inv.Values && inv[y] in inv.Values;
      }
      forall x, y, z | x in inv.Keys && y in inv.Keys && z in inv.Keys && le(x, y) && le(y, z) ensures le(x, z) {
        assert inv[x] in inv.Values && inv[y] in inv.Values && inv[z] in inv.Values;
      }
    }
    q := Sort(le, s);
    SortSorts(le, s, inv.Keys);
    SortKeepsDistinct(le, s);
    SameElements(q, s);
  }

  function Rotated(q: seq<string>): seq<string>
    requires q != []
  {
    q[1..] + [q[0]]
  }

  // What a turn does to the resource it got.
  function Used(r: Resource, t: Turn): Resource {
    r.(reservations := r.reservations + 1, uses := if t.used then r.uses + 1 else r.uses,
       lastUsed := if t.used then t.ended else t.at)
  }

  lemma HeadIsBest(inv: Inventory, f: Filter, q: seq<string>, now: int)
    requires Keyed(inv) && Queue(inv, f, q) && Even(inv, f, now) && q != []
    ensures q[0] in q && Best(inv, f, now, q[0])
  {
    assert q[0] in q;
    forall other | Candidate(inv, f, now, other) ensures Prefers(inv[q[0]], inv[other]) {
      assert other in q;
      var j :| 0 <= j < |q| && q[j] == other;
      if j > 0 { assert IdPrefers(inv)(q[0], q[j]); } else { StrLeTotal(q[0], q[0]); }
    }
  }

  lemma TurnEffect(inv: Inventory, f: Filter, q: seq<string>, t: Turn)
    requires Keyed(inv) && Queue(inv, f, q) && Even(inv, f, t.at) && q != [] && t.at <= t.ended && t.holder != ""
    ensures q[0] in q && q[0] in inv && TakeTurn(inv, f, t) == (inv[q[0] := Used(inv[q[0]], t)], Some(q[0]))
  {
    var id := q[0];
    HeadIsBest(inv, f, q, t.at);
    ChoiceIsBest(inv, f, t.at);
    var r1 := Taken(inv[id], t.holder, t.at);
    assert inv[id].reservedBy == "" && inv[id].id == id;
    ReleaseTurn(inv[id := r1], id, t);
    assert Used(inv[id], t) == r1.(reservedBy := "", uses := if t.used then r1.uses + 1 else r1.uses,
                                   lastUsed := if t.used then t.ended else r1.lastUsed);
    assert Perform(inv, Reserve(t.holder, f), t.at) == (inv[id := r1], Picked(r1));
    assert inv[id := r1][id := Used(inv[id], t)] == inv[id := Used(inv[id], t)];
  }

  lemma ReleaseTurn(inv: Inventory, id: string, t: Turn)
    requires id in inv
    ensures Final(inv, TurnOps(t, id)) ==
              inv[id := inv[id].(reservedBy := "", uses := if t.used then inv[id].uses + 1 else inv[id].uses,
                                 lastUsed := if t.used then t.ended else inv[id].lastUsed)]
  {
    var ops := TurnOps(t, id);
    var release := [Timed(Release(id), t.ended)];
    assert release[1..] == [];
    forall i: Inventory | id in i ensures Final(i, release) == i[id := i[id].(reservedBy := "")] {
      assert Final(i, release) == Perform(i, Release(id), t.ended).0;
    }
    if t.used {
      assert ops[1..] == release;
      assert Final(inv, ops) == Final(Perform(inv, RecordUse(id), t.ended).0, release);
    }
  }

  lemma RotatedQueue(inv: Inventory, f: Filter, q: seq<string>, last: Resource)
    requires Keyed(inv) && Queue(inv, f, q) && q != [] && f.Matches(last)
    requires forall i {:trigger q[i]} :: 0 < i < |q| ==> q[i] in inv && Prefers(inv[q[i]], last)
    ensures Queue(inv[q[0] := last], f, Rotated(q))
  {
    assert q[0] in q;
    var inv' := inv[q[0] := last];
    var r := Rotated(q);
    assert Matching(inv', f) == Matching(inv, f);
    forall id ensures id in r <==> id in q { assert q == [q[0]] + q[1..]; }
    forall i, j | 0 <= i < j < |r| ensures r[i] != r[j] && IdPrefers(inv')(r[i], r[j]) {
      assert r[i] == q[i + 1] && q[i + 1] in q && q[0] != q[i + 1];
      if j < |r| - 1 { assert r[j] == q[j + 1] && q[0] != q[j + 1] && IdPrefers(inv)(q[i + 1], q[j + 1]); }
    }
  }

  lemma EvenAfter(inv: Inventory, f: Filter, id: string, t: Turn, later: int)
    requires Keyed(inv) && Even(inv, f, t.at) && id in Matching(inv, f) && t.at <= t.ended < later
    ensures var inv' := inv[id := Used(inv[id], t)]; Keyed(inv') && Even(inv', f, later) && Matching(inv', f) == Matching(inv, f)
  {
    var inv' := inv[id := Used(inv[id], t)];
    assert forall i :: i in inv ==> f.Matches(inv'[i]) == f.Matches(inv[i]);
  }

  /** One turn moves the head of the queue to its end. */
  lemma TurnRotates(inv: Inventory, f: Filter, q: seq<string>, t: Turn, later: int)
    requires Keyed(inv) && Queue(inv, f, q) && Even(inv, f, t.at) && q != []
    requires t.at <= t.ended < later && t.holder != ""
    ensures var (inv', p) := TakeTurn(inv, f, t);
            p == Some(q[0]) && Keyed(inv') && Even(inv', f, later) && Queue(inv', f, Rotated(q)) && Matching(inv', f) == Matching(inv, f)
  {
    TurnEffect(inv, f, q, t);
    var inv' := TakeTurn(inv, f, t).0;
    assert q[0] in Matching(inv, f);
    EvenAfter(inv, f, q[0], t, later);
    forall i {:trigger q[i]} | 0 < i < |q| ensures q[i] in inv && Prefers(inv[q[i]], inv'[q[0]]) {
      assert q[i] in q && q[i] in Matching(inv, f) && q[0] != q[i];
    }
    RotatedQueue(inv, f, q, inv'[q[0]]);
  }

  // Round robin: the queue in order, and after that every pick repeats the one a queue length earlier.
  ghost predicate RoundRobin(picks: seq<Option<string>>, q: seq<string>) {
    && (forall i :: 0 <= i < |picks| && i < |q| ==> picks[i] == Some(q[i]))
    && (forall i :: |q| <= i < |picks| ==> picks[i] == picks[i - |q|])
  }

  lemma RoundRobinShift(rest: seq<Option<string>>, q: seq<string>)
    requires q != [] && RoundRobin(rest, Rotated(q))
    ensures RoundRobin([Some(q[0])] + rest, q)
  {
    var picks := [Some(q[0])] + rest;
    forall i | 0 < i < |picks|
      ensures picks[i] == if i < |q| then Some(q[i]) else picks[i - |q|]
    {
      assert picks[i] == rest[i - 1];
      if i - 1 < |q| { assert rest[i - 1] == Some(Rotated(q)[i - 1]); }
    }
  }

  lemma {:induction false} PicksRoundRobin(inv: Inventory, f: Filter, q: seq<string>, turns: seq<Turn>)
    requires Keyed(inv) && Queue(inv, f, q) && q != [] && Advancing(turns)
    requires turns != [] ==> Even(inv, f, turns[0].at)
    ensures RoundRobin(Picks(inv, f, turns), q)
    decreases |turns|
  {
    if turns != [] {
      var later := if |turns| > 1 then turns[1].at else turns[0].ended + 1;
      TurnRotates(inv, f, q, turns[0], later);
      var inv' := TakeTurn(inv, f, turns[0]).0;
      PicksRoundRobin(inv', f, Rotated(q), turns[1..]);
      RoundRobinShift(Picks(inv', f, turns[1..]), q);
    }
  }

  // The picks from `from` on, `n` of them, name every one of `ids` exactly once.
  ghost predicate OnceEach(picks: seq<Option<string>>, from: nat, n: nat, ids: set<string>)
    requires from + n <= |picks|
  {
    && (forall i :: from <= i < from + n ==> picks[i].Some? && picks[i].value in ids)
    && (forall id :: id in ids ==> exists i :: from <= i < from + n && picks[i] == Some(id))
    && (forall i, j :: from <= i < j < from + n ==> picks[i] != picks[j])
  }

  /** In a round robin every window of one queue length uses each member exactly once. */
  lemma {:induction false} WindowFair(picks: seq<Option<string>>, q: seq<string>, from: nat)
    requires RoundRobin(picks, q) && Distinct(q) && q != [] && from + |q| <= |picks|
    ensures OnceEach(picks, from, |q|, set id | id in q)
    decreases from
  {
    var ids := set id | id in q;
    if from == 0 {
      forall id | id in ids ensures exists i :: 0 <= i < |q| && picks[i] == Some(id) {
        var i :| 0 <= i < |q| && q[i] == id;
        assert picks[i] == Some(id);
      }
    } else {
      WindowFair(picks, q, from - 1);
      var last := from + |q| - 1;
      assert picks[last] == picks[from - 1];
      forall id | id in ids ensures exists i :: from <= i < from + |q| && picks[i] == Some(id) {
        var i :| from - 1 <= i < from - 1 + |q| && picks[i] == Some(id);
        assert i == from - 1 ==> picks[last] == Some(id);
      }
    }
  }

  // Every pick repeats the one `n` earlier.
  ghost predicate Periodic(picks: seq<Option<string>>, n: nat) {
    forall i :: n <= i < |picks| ==> picks[i] == picks[i - n]
  }

  /** Fair rotation: with N matching resources, all available and equally ranked, every N consecutive
      turns use each of them exactly once, and the rotation repeats in the same order. */
  lemma {:induction false} FairRotation(inv: Inventory, f: Filter, turns: seq<Turn>, from: nat)
    requires Keyed(inv) && Advancing(turns) && Matching(inv, f) != {} && from + |Matching(inv, f)| <= |turns|
    requires Even(inv, f, turns[0].at)
    ensures OnceEach(Picks(inv, f, turns), from, |Matching(inv, f)|, Matching(inv, f))
    ensures Periodic(Picks(inv, f, turns), |Matching(inv, f)|)
  {
    var q := QueueExists(inv, f);
    assert q != [] by {
      var id :| id in Matching(inv, f);
      assert id in q;
    }
    PicksRoundRobin(inv, f, q, turns);
    WindowFair(Picks(inv, f, turns), q, from);
    assert Matching(inv, f) == set id | id in q;
  }
}
