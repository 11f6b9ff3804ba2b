/** How lease identities reach storage: the file a record is kept in, and the typed slots the pipeline
    model leases. */
module LeaseStore {
  import opened Leases
  import opened Options

  // -- file names ---------------------------------------------------------------------------------

  function FlatChar(c: char): char {
    if c == '/' || c == '\\' then '_' else c
  }

  function Flat(s: string): (r: string)
    ensures |r| == |s| && forall i :: 0 <= i < |s| ==> r[i] == FlatChar(s[i])
  {
    seq(|s|, i requires 0 <= i < |s| => FlatChar(s[i]))
  }

  function FileName(id: string): string {
    Flat(id) + ".json"
  }

  predicate Plain(s: string) {
    '/' !in s && '\\' !in s
  }

  lemma LeaseIdInjective(k1: Kind, r1: string, k2: Kind, r2: string)
    requires ValidKind(k1) && ValidKind(k2)
    ensures LeaseId(k1, r1) == LeaseId(k2, r2) ==> k1 == k2 && r1 == r2
  {
    var a, b := LeaseId(k1, r1), LeaseId(k2, r2);
    if a == b {
      assert a[..|k1|] == k1 && b[..|k2|] == k2;
      assert a[|k1|] == '/' && b[|k2|] == '/';
      assert a[|k1| + 1..] == r1 && b[|k2| + 1..] == r2;
      assert |k1| == 8 ==> a[5] == 'r';
      assert |k2| == 8 ==> b[5] == 'r';
    }
  }

  /** Two leases share a file exactly when they are of one kind and their resources differ, if at all,
      only by '/', '\' and '_'. */
  lemma FileCollision(k1: Kind, r1: string, k2: Kind, r2: string)
    requires ValidKind(k1) && ValidKind(k2)
    ensures FileName(LeaseId(k1, r1)) == FileName(LeaseId(k2, r2)) <==> k1 == k2 && SameButSeparators(r1, r2)
  {
    var a, b := LeaseId(k1, r1), LeaseId(k2, r2);
    FlatId(k1, r1);
    FlatId(k2, r2);
    FlatExactly(r1, r2);
    var fa, fb := FileName(a), FileName(b);
    if fa == fb {
      assert |a| == |b|;
      assert fa[..|a|] == Flat(a) && fb[..|b|] == Flat(b);
      assert |k1| == 8 ==> Flat(a)[5] == 'r';
      assert |k2| == 8 ==> Flat(b)[5] == 'r';
      assert |k1| == 5 ==> Flat(a)[5] == '_';
      assert |k2| == 5 ==> Flat(b)[5] == '_';
      assert |k1| == |k2|;
      assert Flat(a)[..|k1|] == k1 && Flat(b)[..|k2|] == k2;
      assert Flat(a)[|k1| + 1..] == Flat(r1) && Flat(b)[|k2| + 1..] == Flat(r2);
    }
  }

  lemma FlatId(k: Kind, r: string)
    requires ValidKind(k)
    ensures Flat(LeaseId(k, r)) == k + "_" + Flat(r)
  {
    var id := LeaseId(k, r);
    assert Flat(k) == k;
    forall i | 0 <= i < |id| ensures Flat(id)[i] == (k + "_" + Flat(r))[i] {
      if i > |k| { assert id[i] == r[i - |k| - 1]; }
    }
  }

  // The same text, but that '/', '\\' and '_' are taken for one another.
  predicate SameButSeparators(a: string, b: string) {
    |a| == |b| && forall i :: 0 <= i < |a| ==> a[i] == b[i] || (a[i] in {'/', '\\', '_'} && b[i] in {'/', '\\', '_'})
  }

  lemma FlatExactly(a: string, b: string)
    ensures Flat(a) == Flat(b) <==> SameButSeparators(a, b)
  {
    if Flat(a) == Flat(b) {
      forall i | 0 <= i < |a|
        ensures a[i] == b[i] || (a[i] in {'/', '\\', '_'} && b[i] in {'/', '\\', '_'})
      {
        assert Flat(a)[i] == Flat(b)[i];
      }
    }
  }

  lemma PlainFlat(r: string)
    requires Plain(r)
    ensures Flat(r) == r
  {
    forall i | 0 <= i < |r| ensures Flat(r)[i] == r[i] { assert r[i] in r; }
  }

  // No two of these leases share a file.
  ghost predicate Separate(ids: iset<string>) {
    forall a, b :: a in ids && b in ids && FileName(a) == FileName(b) ==> a == b
  }

  // The leases whose resources have no separators.
  ghost function PlainIds(): iset<string> {
    iset k: Kind, r: string | ValidKind(k) && Plain(r) :: LeaseId(k, r)
  }

  lemma PlainIdsSeparate()
    ensures Separate(PlainIds())
  {
    forall a, b | a in PlainIds() && b in PlainIds() && FileName(a) == FileName(b) ensures a == b {
      var k1, r1 :| ValidKind(k1) && Plain(r1) && a == LeaseId(k1, r1);
      var k2, r2 :| ValidKind(k2) && Plain(r2) && b == LeaseId(k2, r2);
      FileCollision(k1, r1, k2, r2);
      PlainFlat(r1);
      PlainFlat(r2);
    }
  }

  // The directory holds exactly the records of the in-memory table, one file each.
  ghost predicate Mirrors(files: Table, t: Table, ids: iset<string>) {
    && (forall id :: id in t ==> id in ids && t[id].id == id && FileName(id) in files && files[FileName(id)] == t[id])
    && (forall f :: f in files ==> files[f].id in t && FileName(files[f].id) == f)
  }

  lemma MirrorsSave(files: Table, t: Table, ids: iset<string>, l: Lease)
    requires Mirrors(files, t, ids) && Separate(ids) && l.id in ids
    ensures Mirrors(files[FileName(l.id) := l], t[l.id := l], ids)
  {
  }

  lemma MirrorsDelete(files: Table, t: Table, ids: iset<string>, id: string)
    requires Mirrors(files, t, ids) && Separate(ids) && id in ids
    ensures Mirrors(files - {FileName(id)}, t - {id}, ids)
    ensures FileName(id) in files <==> id in t
  {
  }

  lemma MirrorsLive(files: Table, t: Table, ids: iset<string>, now: int)
    requires Mirrors(files, t, ids)
    ensures Mirrors(Live(files, now), Live(t, now), ids)
    ensures Live(files, now).Values == Live(t, now).Values
  {
    forall l | l in Live(files, now).Values ensures l in Live(t, now).Values {
      assert Live(t, now)[l.id] == l;
    }
    forall l | l in Live(t, now).Values ensures l in Live(files, now).Values {
      assert Live(files, now)[FileName(l.id)] == l;
    }
  }

  lemma OneLess(t: Table, id: string)
    requires id in t
    ensures |t - {id}| == |t| - 1
  {
    assert t.Keys == (t - {id}).Keys + {id};
  }

  // There are as many files as records.
  lemma {:induction false} MirrorsCount(files: Table, t: Table, ids: iset<string>)
    requires Mirrors(files, t, ids) && Separate(ids)
    ensures |files| == |t|
    decreases |t|
  {
    if t == map[] {
      assert files == map[];
    } else {
      var id :| id in t;
      MirrorsDelete(files, t, ids, id);
      OneLess(t, id);
      OneLess(files, FileName(id));
      MirrorsCount(files - {FileName(id)}, t - {id}, ids);
    }
  }

  /** For any leases of which no two share a file, the file store is the in-memory store: every operation on
      them answers the same, Reap's count included, and the directory goes on mirroring the table. */
  lemma FilesRefineMemory(files: Table, t: Table, ids: iset<string>, ttls: Ttls, op: Op, now: int)
    requires Mirrors(files, t, ids) && Separate(ids) && (op.ListActive? || op.Reap? || op.Id() in ids)
    ensures var (files', a) := PerformAt(files, FileName(op.Id()), ttls, op, now);
            var (t', b) := Perform(t, ttls, op, now);
            Mirrors(files', t', ids) && if op.ListActive? then a.live.Values == b.live.Values else a == b
  {
    if op.ListActive? || op.Reap? {
      MirrorsLive(files, t, ids, now);
      MirrorsCount(files, t, ids);
      MirrorsCount(Live(files, now), Live(t, now), ids);
    } else {
      OneRefines(files, t, ids, ttls, op, now);
    }
  }

  lemma OneRefines(files: Table, t: Table, ids: iset<string>, ttls: Ttls, op: Op, now: int)
    requires Mirrors(files, t, ids) && Separate(ids) && !op.ListActive? && !op.Reap? && op.Id() in ids
    ensures var (files', a) := PerformAt(files, FileName(op.Id()), ttls, op, now);
            var (t', b) := Perform(t, ttls, op, now);
            Mirrors(files', t', ids) && a == b
  {
    var id := op.Id();
    MirrorsDelete(files, t, ids, id);
    assert Lookup(files, FileName(id)) == Lookup(t, id);
    var e := Decide(Lookup(t, id), ttls, op, now).0;
    if e.Record? { MirrorsSave(files, t, ids, e.l); }
  }

  /** For any two that do share a file it is not: a lease on one resource keeps another owner off the other,
      which the in-memory store would have granted. */
  lemma {:induction false} FilesConfuseSeparators(ttls: Ttls, first: Request, second: Request, now: int)
    requires ValidKind(first.kind) && first.kind == second.kind && first.owner != second.owner
    requires first.resource != second.resource && SameButSeparators(first.resource, second.resource)
    requires "" !in {first.resource, second.resource, first.owner, second.owner}
    ensures var key := FileName(Acquire(second).Id());
            key == FileName(Acquire(first).Id()) &&
            PerformAt(PerformAt(map[], key, ttls, Acquire(first), now).0, key, ttls, Acquire(second), now).1.Held? &&
            Perform(Perform(map[], ttls, Acquire(first), now).0, ttls, Acquire(second), now).1.Granted?
  {
    FileCollision(first.kind, first.resource, second.kind, second.resource);
    LeaseIdInjective(first.kind, first.resource, second.kind, second.resource);
  }

  // -- typed slots --------------------------------------------------------------------------------

  datatype Slot = IssueSlot(key: string) | AccountSlot(account: string) | MergeSlot(branch: string)
  {
    function Kind(): Kind {
      match this
      case IssueSlot(_) => KIND_ISSUE
      case AccountSlot(_) => KIND_RESOURCE
      case MergeSlot(_) => KIND_MERGE
    }
    function Name(): string {
      match this
      case IssueSlot(k) => k
      case AccountSlot(a) => a
      case MergeSlot(b) => b
    }
    function Id(): string { LeaseId(Kind(), Name()) }
  }

  datatype Hold = Hold(owner: Owner, until: int)
  type Holds = map<Slot, Hold>

  predicate HeldBy(h: Holds, s: Slot, o: Owner, now: int) {
    s in h && h[s].owner == o && now < h[s].until
  }

  predicate HeldByOther(h: Holds, s: Slot, o: Owner, now: int) {
    s in h && h[s].owner != o && now < h[s].until
  }

  // Acquire with the default duration of the slot's kind: the new table and whether it was granted.
  function Take(h: Holds, ttls: Ttls, s: Slot, o: Owner, now: int): (r: (Holds, bool))
    ensures r.1 ==> HeldBy(r.0, s, o, now) && !HeldByOther(h, s, o, now)
    ensures forall s' :: s' != s ==> (s' in r.0 <==> s' in h) && (s' in h ==> r.0[s'] == h[s'])
  {
    if s.Name() == "" || o == "" || HeldByOther(h, s, o, now) then (h, false)
    else if HeldBy(h, s, o, now) then (h, true)
    else (h[s := Hold(o, now + TtlFor(ttls, s.Kind()))], true)
  }

  function Drop(h: Holds, s: Slot, o: Owner): (r: Holds)
    ensures forall s' :: s' in r ==> s' in h && r[s'] == h[s']
    ensures forall s' :: s' in h && s' !in r ==> s' == s && h[s].owner == o
    ensures s in r ==> r[s].owner != o
  {
    if s in h && h[s].owner == o then h - {s} else h
  }

  function Sweep(h: Holds, now: int): Holds {
    map s | s in h && now < h[s].until :: h[s]
  }

  ghost predicate Matches(t: Table, h: Holds) {
    forall s: Slot {:trigger s in h} {:trigger s.Id()} ::
      (s.Id() in t <==> s in h) && (s in h ==> t[s.Id()].owner == h[s].owner && t[s.Id()].expiresAt == h[s].until)
  }

  lemma SlotsDiffer(s1: Slot, s2: Slot)
    requires s1 != s2
    ensures s1.Id() != s2.Id()
  {
    LeaseIdInjective(s1.Kind(), s1.Name(), s2.Kind(), s2.Name());
  }

  /** The slot operations are the manager's operations. */
  lemma SlotsRefineManager(t: Table, h: Holds, ttls: Ttls, s: Slot, o: Owner, reason: string, renewable: bool, now: int)
    requires Matches(t, h)
    ensures var (t', a) := Perform(t, ttls, Acquire(Request(s.Kind(), s.Name(), o, reason, renewable, 0)), now);
            var (h', granted) := Take(h, ttls, s, o, now);
            Matches(t', h') && a.Granted? == granted
  {
    var id := s.Id();
    assert id in t <==> s in h;
    forall s': Slot | s' != s ensures s'.Id() != id { SlotsDiffer(s', s); }
  }

  lemma DropsRefineManager(t: Table, h: Holds, ttls: Ttls, s: Slot, o: Owner, now: int)
    requires Matches(t, h)
    ensures Matches(Perform(t, ttls, Release(s.Kind(), s.Name(), o), now).0, Drop(h, s, o))
    ensures Matches(Perform(t, ttls, Reap, now).0, Sweep(h, now))
  {
    var id := s.Id();
    assert id in t <==> s in h;
    forall s': Slot | s' != s ensures s'.Id() != id { SlotsDiffer(s', s); }
  }
}
