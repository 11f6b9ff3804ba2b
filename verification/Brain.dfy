/** The Knowledge Brain: an append-only, versioned store of entries.

    `Perform` says what Create and Update do to the histories; `Brain` is the class over the in-memory
    store, each method proved against it. */
module Knowledge {
  import opened Options
  import opened Ordering

  const ACTIVE := "active"
  const DRAFT := "draft"
  const DEPRECATED := "deprecated"
  const ARCHIVED := "archived"

  const SCHEMA_VERSION := 1

  datatype Entry = Entry(id: string, version: nat, category: string, title: string, body: string, source: string,
                         status: string, createdAt: string, updatedAt: string, schemaVersion: nat)

  // id -> its versions in append order
  type Log = map<string, seq<Entry>>

  predicate ValidSource(s: string) {
    s in {"human", "architecture", "acp", "documentation", "code", "plugin", "migration"}
  }

  predicate ValidStatus(s: string) {
    s in {ACTIVE, DEPRECATED, ARCHIVED, DRAFT}
  }

  predicate ValidEntry(e: Entry) {
    e.id != "" && e.category != "" && e.title != "" && ValidSource(e.source) && ValidStatus(e.status) && e.version >= 1
  }

  predicate IdChar(c: char) {
    'a' <= c <= 'z' || 'A' <= c <= 'Z' || '0' <= c <= '9' || c == '-' || c == '_' || c == '.'
  }

  predicate ValidId(id: string) {
    id != "" && forall c :: c in id ==> IdChar(c)
  }

  datatype Change = Change(category: Option<string>, title: Option<string>, body: Option<string>,
                           source: Option<string>, status: Option<string>)

  const NO_CHANGE := Change(None, None, None, None, None)

  function Or<T>(o: Option<T>, d: T): T {
    if o.Some? then o.value else d
  }

  function Edited(cur: Entry, ch: Change, stamp: string): Entry {
    Entry(cur.id, cur.version + 1, Or(ch.category, cur.category), Or(ch.title, cur.title), Or(ch.body, cur.body),
          Or(ch.source, cur.source), Or(ch.status, cur.status), cur.createdAt, stamp, SCHEMA_VERSION)
  }

  datatype Op =
    | Create(id: string, category: string, title: string, body: string, source: string, status: string)
    | Update(id: string, ch: Change)

  // The entry an operation appends, or None when it is refused.
  function Appended(log: Log, op: Op, stamp: string): Option<Entry> {
    match op
    case Create(id, category, title, body, source, status) =>
      var e := Entry(id, 1, category, title, body, source, status, stamp, stamp, SCHEMA_VERSION);
      if ValidId(id) && Current(log, id).None? && ValidEntry(e) then Some(e) else None
    case Update(id, ch) =>
      match Current(log, id)
      case None => None
      case Some(cur) => if ValidEntry(Edited(cur, ch, stamp)) then Some(Edited(cur, ch, stamp)) else None
  }

  function History(log: Log, id: string): seq<Entry> {
    if id in log then log[id] else []
  }

  function Current(log: Log, id: string): Option<Entry> {
    var h := History(log, id);
    if h == [] then None else Some(h[|h| - 1])
  }

  function Append(log: Log, e: Entry): Log {
    log[e.id := History(log, e.id) + [e]]
  }

  function Perform(log: Log, op: Op, stamp: string): (Log, Option<Entry>) {
    match Appended(log, op, stamp)
    case None => (log, None)
    case Some(e) => (Append(log, e), Some(e))
  }

  // Each history is versions 1..n of one id with one creation time, all valid.
  ghost predicate Versioned(id: string, h: seq<Entry>) {
    h != [] && ValidId(id) &&
    forall i :: 0 <= i < |h| ==> h[i].id == id && h[i].version == i + 1 && h[i].createdAt == h[0].createdAt && ValidEntry(h[i])
  }

  ghost predicate Consistent(log: Log) {
    forall id :: id in log ==> Versioned(id, log[id])
  }

  // -- the Brain itself ---------------------------------------------------------------------------

  predicate VersionLe(a: Entry, b: Entry) {
    a.version <= b.version
  }

  // The histories are stored in version order, so the sort on reading changes nothing.
  lemma SortedHistory(id: string, h: seq<Entry>)
    requires Versioned(id, h)
    ensures Sort(VersionLe, h) == h
  {
    var u := set e | e in h;
    assert TotalOrder(VersionLe, u);
    SortSorts(VersionLe, h, u);
    SameElements(Sort(VersionLe, h), h);
    SortedUnique(VersionLe, h, Sort(VersionLe, h), u);
  }

  class Brain {
    var log: Log

    ghost predicate Valid()
      reads this
    {
      Consistent(log)
    }

    constructor ()
      ensures Valid() && log == map[]
    {
      log := map[];
    }

    method ValidateId(id: string) returns (ok: bool)
      ensures ok == ValidId(id)
    {
      if id == "" { return false; }
      for i := 0 to |id|
        invariant forall c :: c in id[..i] ==> IdChar(c)
      {
        if !IdChar(id[i]) { return false; }
      }
      assert id[..|id|] == id;
      return true;
    }

    method ReadHistory(id: string) returns (h: seq<Entry>)
      requires Valid()
      ensures h == History(log, id)
    {
      if id !in log { return []; }
      SortedHistory(id, log[id]);
      h := Sort(VersionLe, log[id]);
    }

    method Get(id: string) returns (e: Option<Entry>)
      requires Valid()
      ensures e == Current(log, id)
    {
      var h := ReadHistory(id);
      if |h| == 0 { return None; }
      return Some(h[|h| - 1]);
    }

    method Create(id: string, category: string, title: string, body: string, source: string, status: string, stamp: string)
      returns (r: Option<Entry>)
      requires Valid()
      modifies this
      ensures Valid() && (log, r) == Perform(old(log), Op.Create(id, category, title, body, source, status), stamp)
    {
      var ok := ValidateId(id);
      if !ok { return None; }
      var h := ReadHistory(id);
      if |h| > 0 { return None; }
      var e := Entry(id, 1, category, title, body, source, status, stamp, stamp, SCHEMA_VERSION);
      if !ValidEntry(e) { return None; }
      PerformConsistent(log, Op.Create(id, category, title, body, source, status), stamp);
      log := Append(log, e);
      return Some(e);
    }

    method Update(id: string, ch: Change, stamp: string) returns (r: Option<Entry>)
      requires Valid()
      modifies this
      ensures Valid() && (log, r) == Perform(old(log), Op.Update(id, ch), stamp)
    {
      var cur := Get(id);
      if cur.None? { return None; }
      var next := cur.value.(version := cur.value.version + 1, updatedAt := stamp, schemaVersion := SCHEMA_VERSION);
      if ch.category.Some? { next := next.(category := ch.category.value); }
      if ch.title.Some? { next := next.(title := ch.title.value); }
      if ch.body.Some? { next := next.(body := ch.body.value); }
      if ch.source.Some? { next := next.(source := ch.source.value); }
      if ch.status.Some? { next := next.(status := ch.status.value); }
      assert next == Edited(cur.value, ch, stamp);
      if !ValidEntry(next) { return None; }
      PerformConsistent(log, Op.Update(id, ch), stamp);
      log := Append(log, next);
      return Some(next);
    }

    // Deprecate, Archive and Restore.
    method SetStatus(id: string, status: string, stamp: string) returns (r: Option<Entry>)
      requires Valid()
      modifies this
      ensures Valid() && (log, r) == Perform(old(log), Op.Update(id, NO_CHANGE.(status := Some(status))), stamp)
    {
      r := Update(id, NO_CHANGE.(status := Some(status)), stamp);
    }

    // The only write path of the AI: a draft.
    method Propose(id: string, category: string, title: string, body: string, source: string, stamp: string)
      returns (r: Option<Entry>)
      requires Valid()
      modifies this
      ensures Valid() && (log, r) == Perform(old(log), Op.Create(id, category, title, body, source, DRAFT), stamp)
    {
      r := Create(id, category, title, body, source, DRAFT, stamp);
    }

    /** The current entry of every id, sorted by id, whatever order the map lists its keys in. */
    method List() returns (out: seq<Entry>)
      requires Valid()
      ensures forall i, j :: 0 <= i < j < |out| ==> StrLess(out[i].id, out[j].id)
      ensures forall e :: e in out <==> Current(log, e.id) == Some(e)
    {
      var ids := SortedStrings(log.Keys);
      out := [];
      for i := 0 to |ids|
        invariant |out| == i && forall j :: 0 <= j < i ==> out[j].id == ids[j] && Current(log, ids[j]) == Some(out[j])
      {
        assert ids[i] in log && Versioned(ids[i], log[ids[i]]);
        var e := Get(ids[i]);
        if e.Some? { out := out + [e.value]; }
      }
      forall e: Entry | Current(log, e.id) == Some(e) ensures e in out {
        assert e.id in ids;
        var i :| 0 <= i < |ids| && ids[i] == e.id;
        assert out[i] == e;
      }
    }
  }

  // -- over every sequence of operations ------------------------------------------------------------

  datatype Timed = Timed(op: Op, stamp: string)

  function Final(log: Log, ops: seq<Timed>): Log
    decreases |ops|
  {
    if ops == [] then log else Final(Perform(log, ops[0].op, ops[0].stamp).0, ops[1..])
  }

  lemma PerformConsistent(log: Log, op: Op, stamp: string)
    requires Consistent(log)
    ensures Consistent(Perform(log, op, stamp).0)
  {
    var r := Appended(log, op, stamp);
    if r.Some? {
      var h := History(log, r.value.id);
      assert r.value.id in log ==> Versioned(r.value.id, log[r.value.id]);
      assert Versioned(r.value.id, h + [r.value]);
    }
  }

  /** Any sequence of creations, updates and status changes leaves every id with exactly the versions
      1..n, one id and one creation time; an earlier history is a prefix of the later one, so nothing is
      ever rewritten or dropped; and what Get returns is the last record appended. */
  lemma {:induction false} HistoriesGrow(log: Log, ops: seq<Timed>)
    requires Consistent(log)
    ensures Consistent(Final(log, ops))
    ensures forall id :: id in log ==> id in Final(log, ops) && log[id] <= Final(log, ops)[id]
    ensures forall id :: id in log ==> Final(log, ops)[id][0] == log[id][0]
    decreases |ops|
  {
    if ops != [] {
      var log1 := Perform(log, ops[0].op, ops[0].stamp).0;
      PerformConsistent(log, ops[0].op, ops[0].stamp);
      HistoriesGrow(log1, ops[1..]);
      forall id | id in log ensures log[id] <= Final(log, ops)[id] && Final(log, ops)[id][0] == log[id][0] {
        assert log[id] <= log1[id] && log1[id] <= Final(log, ops)[id];
        assert Versioned(id, log[id]);
      }
    }
  }

  /** The record an operation returns is what Get then returns, with the next version number. */
  lemma GetIsLastAppended(log: Log, op: Op, stamp: string)
    requires Consistent(log)
    ensures var (log', r) := Perform(log, op, stamp);
            match r
            case None => log' == log
            case Some(e) =>
              Current(log', e.id) == Some(e) && e.id == op.id && e.version == |History(log, op.id)| + 1 &&
              (op.Create? <==> op.id !in log) && forall id :: id != op.id ==> History(log', id) == History(log, id)
  {
    if op.id in log { assert Versioned(op.id, log[op.id]); }
  }

  // The edit itself names nothing that an entry may not have.
  predicate Acceptable(ch: Change) {
    && ch.category != Some("") && ch.title != Some("")
    && (ch.source.Some? ==> ValidSource(ch.source.value)) && (ch.status.Some? ==> ValidStatus(ch.status.value))
  }

  /** A creation is refused exactly for a bad or known id or a bad field; an update exactly for an unknown
      id or a bad field of its own, never for what it carries forward. What is appended has the fields
      asked for and, where nothing was asked, those of the version before. */
  lemma WhatIsAppended(log: Log, op: Op, stamp: string)
    requires Consistent(log)
    ensures var r := Perform(log, op, stamp).1;
            match op
            case Create(id, c, t, b, src, st) =>
              (r.Some? <==> ValidId(id) && id !in log && c != "" && t != "" && ValidSource(src) && ValidStatus(st)) &&
              (r.Some? ==> r.value == Entry(id, 1, c, t, b, src, st, stamp, stamp, SCHEMA_VERSION))
            case Update(id, ch) =>
              (r.Some? <==> id in log && Acceptable(ch)) &&
              (r.Some? ==>
                 var cur := log[id][|log[id]| - 1];
                 && r.value.category == Or(ch.category, cur.category) && r.value.title == Or(ch.title, cur.title)
                 && r.value.body == Or(ch.body, cur.body) && r.value.source == Or(ch.source, cur.source)
                 && r.value.status == Or(ch.status, cur.status) && r.value.updatedAt == stamp
                 && r.value.createdAt == log[id][0].createdAt)
  {
    if op.id in log { assert Versioned(op.id, log[op.id]); }
  }

  // -- drafts -----------------------------------------------------------------------------------------

  // An operation by which a human approves the entry: an update that names a status.
  predicate SetsStatus(op: Op, id: string) {
    op.Update? && op.id == id && op.ch.status.Some?
  }

  /** A proposal stays a draft under every sequence of operations until one names its status. */
  lemma {:induction false} DraftStays(log: Log, ops: seq<Timed>, id: string)
    requires Consistent(log) && Current(log, id).Some? && Current(log, id).value.status == DRAFT
    requires forall i :: 0 <= i < |ops| ==> !SetsStatus(ops[i].op, id)
    ensures Current(Final(log, ops), id).Some? && Current(Final(log, ops), id).value.status == DRAFT
    decreases |ops|
  {
    if ops != [] {
      PerformConsistent(log, ops[0].op, ops[0].stamp);
      GetIsLastAppended(log, ops[0].op, ops[0].stamp);
      DraftStays(Perform(log, ops[0].op, ops[0].stamp).0, ops[1..], id);
    }
  }
}
