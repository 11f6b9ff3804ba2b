/** The optimizer cache: a content-addressed store in front of the text optimizers, and why a hit gives
    what running the optimizer again would give. */
module OptimizerCache {
  import opened Options
  import opened Text

  // ---------------------------------------------------------------------------------------------
  // Keys
  // ---------------------------------------------------------------------------------------------

  const NUL := '\0'

  predicate NulFree(s: string) {
    NUL !in s
  }

  // What is hashed: every part, followed by a NUL. SHA-256 is taken to be free of collisions, so the key
  // is identified with this text.
  function HashKey(parts: seq<string>): string
    decreases |parts|
  {
    if parts == [] then "" else parts[0] + [NUL] + HashKey(parts[1..])
  }

  function FirstNul(s: string): nat {
    if s == "" || s[0] == NUL then 0 else 1 + FirstNul(s[1..])
  }

  lemma {:induction false} PartEnds(a: string, x: string)
    requires NulFree(a)
    ensures FirstNul(a + [NUL] + x) == |a|
    decreases |a|
  {
    var s := a + [NUL] + x;
    if a == "" {
      assert s[0] == NUL;
    } else {
      assert s[0] == a[0] && a[0] in a && s[1..] == a[1..] + [NUL] + x;
      PartEnds(a[1..], x);
    }
  }

  lemma FirstPart(a: string, x: string, b: string, y: string)
    requires NulFree(a) && NulFree(b) && a + [NUL] + x == b + [NUL] + y
    ensures a == b && x == y
  {
    PartEnds(a, x);
    PartEnds(b, y);
    var s, t := a + [NUL] + x, b + [NUL] + y;
    assert a == s[..|a|] == t[..|b|] == b;
    assert x == s[|a| + 1..] == t[|b| + 1..] == y;
  }

  /** The encoding of equally many parts is injective when all parts but the last are free of NULs. */
  lemma {:induction false} KeyInjective(a: seq<string>, b: seq<string>)
    requires |a| == |b| && forall i :: 0 <= i < |a| - 1 ==> NulFree(a[i]) && NulFree(b[i])
    ensures HashKey(a) == HashKey(b) <==> a == b
    decreases |a|
  {
    if HashKey(a) == HashKey(b) && a != [] {
      if |a| == 1 {
        assert a[1..] == [] && b[1..] == [];
        assert HashKey(a) == a[0] + [NUL] && HashKey(b) == b[0] + [NUL];
        assert a[0] == HashKey(a)[..|HashKey(a)| - 1] && b[0] == HashKey(b)[..|HashKey(b)| - 1];
      } else {
        FirstPart(a[0], HashKey(a[1..]), b[0], HashKey(b[1..]));
        KeyInjective(a[1..], b[1..]);
      }
      assert a == [a[0]] + a[1..] && b == [b[0]] + b[1..];
    }
  }

  /** With a NUL in an earlier part it is not: the boundary between two parts can move. */
  lemma NulMovesBoundary(x: string, y: string, z: string)
    ensures HashKey([x + [NUL] + y, z]) == HashKey([x, y + [NUL] + z])
    ensures [x + [NUL] + y, z] != [x, y + [NUL] + z]
  {
    var a, b := [x + [NUL] + y, z], [x, y + [NUL] + z];
    assert a[1..] == [z] && b[1..] == [y + [NUL] + z] && [z][1..] == [] && b[1..][1..] == [];
    assert HashKey([z]) == z + [NUL];
    assert HashKey([y + [NUL] + z]) == (y + [NUL] + z) + [NUL];
    assert HashKey(a) == (x + [NUL] + y) + [NUL] + (z + [NUL]);
    assert HashKey(b) == x + [NUL] + ((y + [NUL] + z) + [NUL]);
    assert HashKey(a) == HashKey(b);
    assert |a[0]| > |b[0]|;
  }

  // ---------------------------------------------------------------------------------------------
  // Configuration: what the key has to determine
  // ---------------------------------------------------------------------------------------------

  // A configuration value as Go holds it; numbers are int from the schema and float64 from JSON. An object's
  // fields are listed by name, as its JSON text has them.
  datatype Value =
    | Nil | Bool(b: bool) | Int(n: int) | Float(r: real) | Str(s: string)
    | Array(items: seq<Value>) | Object(fields: seq<(string, Value)>)

  type Config = map<string, Value>

  // The same value as JSON text shows it.
  datatype Json =
    | JNull | JBool(b: bool) | JNumber(r: real) | JString(s: string)
    | JArray(items: seq<Json>) | JObject(fields: seq<(string, Json)>)

  function Shown(v: Value): Json {
    match v
    case Nil => JNull
    case Bool(b) => JBool(b)
    case Int(n) => JNumber(n as real)
    case Float(r) => JNumber(r)
    case Str(s) => JString(s)
    case Array(items) => JArray(seq(|items|, i requires 0 <= i < |items| => Shown(items[i])))
    case Object(fields) =>
      JObject(seq(|fields|, i requires 0 <= i < |fields| => (fields[i].0, Shown(fields[i].1))))
  }

  function ShownAll(c: Config): map<string, Json> {
    map k | k in c :: Shown(c[k])
  }

  // Conversion to an integer truncates toward zero.
  function Truncated(r: real): int {
    if r >= 0.0 then r.Floor else -((-r).Floor)
  }

  datatype Read = ReadInt(key: string, def: int) | ReadBool(key: string, flag: bool) | ReadText(key: string, text: string)

  // The tolerant accessors cfgInt, cfgBool and cfgString; a value of another type counts as missing; `blank` is TrimSpace(s) == "".
  function Accessed(c: Config, r: Read, blank: string -> bool): Value {
    match r
    case ReadInt(k, d) => Int(if k in c && c[k].Int? then c[k].n else if k in c && c[k].Float? then Truncated(c[k].r) else d)
    case ReadBool(k, d) => Bool(if k in c && c[k].Bool? then c[k].b else d)
    case ReadText(k, d) => Str(if k in c && c[k].Str? && !blank(c[k].s) then c[k].s else d)
  }

  /** Two configurations with one JSON text are the same to every accessor, even where one holds an int
      and the other a float. */
  lemma SameJsonSameAccess(c1: Config, c2: Config, r: Read, blank: string -> bool)
    requires ShownAll(c1) == ShownAll(c2)
    ensures Accessed(c1, r, blank) == Accessed(c2, r, blank)
  {
    var k := r.key;
    assert (k in c1) == (k in ShownAll(c1)) && (k in c2) == (k in ShownAll(c2));
    if k in c1 {
      assert Shown(c1[k]) == ShownAll(c1)[k] == Shown(c2[k]);
      var n := if c1[k].Int? then c1[k].n else if c2[k].Int? then c2[k].n else 0;
      assert Truncated(n as real) == n;
    }
  }

  // Schema defaults, overlaid with the known, non-nil values.
  function Merged(defaults: Config, over: Config): Config {
    map k | k in defaults :: if k in over && over[k] != Nil then over[k] else defaults[k]
  }

  method MergeConfig(defaults: Config, over: Config) returns (cfg: Config)
    ensures cfg == Merged(defaults, over)
  {
    cfg := defaults;
    var todo := over.Keys;
    while todo != {}
      invariant todo <= over.Keys && cfg.Keys == defaults.Keys
      invariant forall k :: k in defaults ==> cfg[k] == if k in over && k !in todo && over[k] != Nil then over[k] else defaults[k]
      decreases todo
    {
      var k :| k in todo;
      if k in cfg && over[k] != Nil { cfg := cfg[k := over[k]]; }
      todo := todo - {k};
    }
  }

  lemma SameJsonMerged(d: Config, c1: Config, c2: Config)
    requires ShownAll(c1) == ShownAll(c2)
    ensures ShownAll(Merged(d, c1)) == ShownAll(Merged(d, c2))
  {
    forall k | k in d ensures Shown(Merged(d, c1)[k]) == Shown(Merged(d, c2)[k]) {
      assert (k in c1) == (k in ShownAll(c1)) && (k in c2) == (k in ShownAll(c2));
      if k in c1 { assert Shown(c1[k]) == ShownAll(c1)[k] == Shown(c2[k]); }
    }
  }

  // ---------------------------------------------------------------------------------------------
  // Optimizers
  // ---------------------------------------------------------------------------------------------

  // An optimizer reads its configuration through the accessors only; None is an error. One that needs
  // the companion runs elsewhere.
  datatype Optimizer = Optimizer(name: string, companion: bool, defaults: Config, settings: seq<Read>,
                                 compute: (string, seq<Value>) -> Option<string>)

  function Readings(c: Config, settings: seq<Read>, blank: string -> bool): (r: seq<Value>)
    ensures |r| == |settings| && forall i :: 0 <= i < |settings| ==> r[i] == Accessed(c, settings[i], blank)
  {
    seq(|settings|, i requires 0 <= i < |settings| => Accessed(c, settings[i], blank))
  }

  function Optimized(o: Optimizer, content: string, cfg: Config, blank: string -> bool): Option<string> {
    o.compute(content, Readings(Merged(o.defaults, cfg), o.settings, blank))
  }

  /** An in-core optimizer's output is determined by what its cache key is made of. */
  lemma SameJsonSameOutput(o: Optimizer, content: string, c1: Config, c2: Config, blank: string -> bool)
    requires ShownAll(c1) == ShownAll(c2)
    ensures Optimized(o, content, c1, blank) == Optimized(o, content, c2, blank)
  {
    SameJsonMerged(o.defaults, c1, c2);
    var m1, m2 := Merged(o.defaults, c1), Merged(o.defaults, c2);
    forall i | 0 <= i < |o.settings| ensures Accessed(m1, o.settings[i], blank) == Accessed(m2, o.settings[i], blank) {
      SameJsonSameAccess(m1, m2, o.settings[i], blank);
    }
    assert Readings(m1, o.settings, blank) == Readings(m2, o.settings, blank);
  }

  // The configuration a run uses: defaults, the stored values, then the caller's.
  function Effective(o: Optimizer, kept: Config, override: Config): Config {
    Merged(Merged(o.defaults, kept), override)
  }

  // Of two configurations laid over each other, the first that has a value; no keys beyond the third's.
  predicate Layered(first: Config, second: Config, third: Config, cfg: Config) {
    cfg.Keys == third.Keys && forall k :: k in cfg ==>
      if k in first && first[k] != Nil then cfg[k] == first[k]
      else if k in second && second[k] != Nil then cfg[k] == second[k]
      else cfg[k] == third[k]
  }

  /** A run goes by the caller's values, then the stored ones, then the schema's defaults. */
  lemma CallerFirst(o: Optimizer, kept: Config, override: Config)
    ensures Layered(override, kept, o.defaults, Effective(o, kept, override))
  {
    var cfg := Effective(o, kept, override);
    assert cfg.Keys == Merged(o.defaults, kept).Keys == o.defaults.Keys;
  }

  // What a setting is read as: a number without its fraction, a flag or a text as it is, and the setting's own
  // default where there is no value of its type.
  ghost predicate ReadAs(c: Config, r: Read, blank: string -> bool, v: Value) {
    match r
    case ReadInt(k, d) =>
      && v.Int?
      && if k in c && c[k].Float? then
           var x, n := c[k].r, v.n as real;
           if x >= 0.0 then n <= x < n + 1.0 else n - 1.0 < x <= n
         else v.n == if k in c && c[k].Int? then c[k].n else d
    case ReadBool(k, d) => v == if k in c && c[k].Bool? then c[k] else Bool(d)
    case ReadText(k, d) => v == if k in c && c[k].Str? && !blank(c[k].s) then c[k] else Str(d)
  }

  lemma AccessedExactly(c: Config, r: Read, blank: string -> bool, v: Value)
    ensures v == Accessed(c, r, blank) <==> ReadAs(c, r, blank, v)
  {
  }

  // `args` is what the optimizer's settings are read as.
  ghost predicate Arguments(o: Optimizer, c: Config, blank: string -> bool, args: seq<Value>) {
    |args| == |o.settings| && forall i :: 0 <= i < |args| ==> ReadAs(c, o.settings[i], blank, args[i])
  }

  /** What an optimizer computes depends on the content and on what its settings are read as in the
      configuration that is in force. */
  lemma OutputExactly(o: Optimizer, content: string, kept: Config, override: Config, cfg: Config, blank: string -> bool,
                      args: seq<Value>)
    requires Layered(override, kept, o.defaults, cfg) && Arguments(o, cfg, blank, args)
    ensures Optimized(o, content, Effective(o, kept, override), blank) == o.compute(content, args)
  {
    CallerFirst(o, kept, override);
    var eff := Effective(o, kept, override);
    assert eff == cfg;
    assert Merged(o.defaults, eff) == eff;
    forall i | 0 <= i < |args| ensures args[i] == Accessed(eff, o.settings[i], blank) {
      AccessedExactly(eff, o.settings[i], blank, args[i]);
    }
    assert args == Readings(eff, o.settings, blank);
  }

  // -- token estimates -----------------------------------------------------------------------------

  function Words(s: string, space: char -> bool): nat {
    if s == "" then 0
    else if space(s[0]) then Words(s[1..], space)
    else (if |s| == 1 || space(s[1]) then 1 else 0) + Words(s[1..], space)
  }

  predicate EndsWord(s: string, space: char -> bool, i: int)
    requires 0 <= i < |s|
  {
    !space(s[i]) && (i + 1 == |s| || space(s[i + 1]))
  }

  // Where the words from `n` on end.
  function WordEnds(s: string, space: char -> bool, n: nat): set<int> {
    set i | n <= i < |s| && EndsWord(s, space, i)
  }

  lemma {:induction false} WordsFrom(s: string, space: char -> bool, n: nat)
    requires n <= |s|
    ensures Words(s[n..], space) == |WordEnds(s, space, n)|
    decreases |s| - n
  {
    if n == |s| {
      assert WordEnds(s, space, n) == {};
    } else {
      WordsFrom(s, space, n + 1);
      assert s[n..][1..] == s[n + 1..];
      var rest := WordEnds(s, space, n + 1);
      if EndsWord(s, space, n) {
        assert WordEnds(s, space, n) == rest + {n};
      } else {
        assert WordEnds(s, space, n) == rest;
      }
    }
  }

  // About four characters a token, blended with the words, and never fewer tokens than words.
  function Estimate(text: string, space: char -> bool): (n: nat)
    ensures n >= Words(Trim(space, text), space)
  {
    var t := Trim(space, text);
    if t == "" then 0
    else
      var words := Words(t, space);
      var est := (|t| / 4 + words * 13 / 10) / 2;
      if est < words then words else est
  }

  lemma WordsTrimmed(text: string, space: char -> bool)
    ensures Trim(space, text) != "" ==> Words(Trim(space, text), space) > 0
  {
    var t := Trim(space, text);
    TrimExactly(space, text, t);
    if t != "" {
      WordsFrom(t, space, 0);
      assert t[0..] == t;
      assert |t| - 1 in WordEnds(t, space, 0);
    }
  }

  /** An estimate is an eighth of a token a character and 13 twentieths a word, less than two short of that, but
      no fewer than the words; only blank text is estimated at nothing. */
  lemma EstimateExactly(text: string, space: char -> bool)
    ensures var n, words, chars := Estimate(text, space), |WordEnds(Trim(space, text), space, 0)|, |Trim(space, text)|;
            && n >= words && 40 * n > 5 * chars + 26 * words - 60
            && (n == words || 40 * n <= 5 * chars + 26 * words)
    ensures Estimate(text, space) == 0 <==> Blank(space, text)
  {
    var t := Trim(space, text);
    WordsFrom(t, space, 0);
    assert t[0..] == t;
    WordsTrimmed(text, space);
    TrimExactly(space, text, t);
    BlankTrimmed(space, text);
  }

  // ---------------------------------------------------------------------------------------------
  // The cache
  // ---------------------------------------------------------------------------------------------

  datatype Meta = Meta(kind: string, title: string, size: nat, tokens: nat, hits: nat, pinned: bool, createdAt: int,
                       expiresAt: Option<int>)

  // index.json, the blob files, and the lifetime counters.
  datatype Cache = Cache(index: map<string, Meta>, blobs: map<string, string>, hits: nat, misses: nat)

  predicate Expired(m: Meta, now: int) {
    m.expiresAt.Some? && now > m.expiresAt.value
  }

  datatype CacheOp =
    | Get(key: string)
    | Put(kind: string, key: string, title: string, value: string, tokens: nat, written: bool)
    | Clear(kind: string)
    | Pin(key: string, pinned: bool)
    | Expire(key: string)

  predicate Hit(c: Cache, key: string, now: int) {
    key in c.index && !Expired(c.index[key], now) && key in c.blobs
  }

  predicate Cleared(m: Meta, kind: string) {
    !m.pinned && (kind == "" || m.kind == kind)
  }

  function Removed(c: Cache, kind: string): set<string> {
    set k | k in c.index && Cleared(c.index[k], kind)
  }

  function Perform(c: Cache, op: CacheOp, now: int): Cache {
    match op
    case Get(k) =>
      if Hit(c, k, now) then c.(index := c.index[k := c.index[k].(hits := c.index[k].hits + 1)], hits := c.hits + 1)
      else c.(index := c.index - {k},
              blobs := if k in c.index && Expired(c.index[k], now) then c.blobs - {k} else c.blobs,
              misses := c.misses + 1)
    case Put(kind, k, title, v, tokens, written) =>
      if !written then c
      else
        var m := Meta(kind, title, |v|, tokens, if k in c.index then c.index[k].hits else 0,
                      k in c.index && c.index[k].pinned, now, None);
        c.(index := c.index[k := m], blobs := c.blobs[k := v])
    case Clear(kind) => c.(index := c.index - Removed(c, kind), blobs := c.blobs - Removed(c, kind))
    case Pin(k, p) => if k in c.index then c.(index := c.index[k := c.index[k].(pinned := p)]) else c
    case Expire(k) => c.(index := c.index - {k}, blobs := c.blobs - {k})
  }

  lemma RemovedStep(c: Cache, kind: string, todo: set<string>, k: string)
    requires k in todo && k in c.index
    ensures var before, after := Removed(c, kind) - todo, Removed(c, kind) - (todo - {k});
            if Cleared(c.index[k], kind) then after == before + {k} && |after| == |before| + 1 else after == before
  {
  }

  function Stored(c: Cache, key: string, now: int): Option<string> {
    if Hit(c, key, now) then Some(c.blobs[key]) else None
  }

  class CacheStore {
    var cache: Cache

    constructor ()
      ensures cache == Cache(map[], map[], 0, 0)
    {
      cache := Cache(map[], map[], 0, 0);
    }

    method Get(key: string, now: int) returns (v: Option<string>)
      modifies this
      ensures v == Stored(old(cache), key, now) && cache == Perform(old(cache), CacheOp.Get(key), now)
    {
      if key !in cache.index || Expired(cache.index[key], now) {
        if key in cache.index {
          cache := cache.(index := cache.index - {key}, blobs := cache.blobs - {key});
        }
        cache := cache.(misses := cache.misses + 1);
        assert cache.index == old(cache.index) - {key};
        return None;
      }
      if key !in cache.blobs {
        cache := cache.(index := cache.index - {key}, misses := cache.misses + 1);
        return None;
      }
      var e := cache.index[key].(hits := cache.index[key].hits + 1);
      cache := cache.(index := cache.index[key := e], hits := cache.hits + 1);
      return Some(cache.blobs[key]);
    }

    method Put(kind: string, key: string, title: string, value: string, tokens: nat, written: bool, now: int)
      modifies this
      ensures cache == Perform(old(cache), CacheOp.Put(kind, key, title, value, tokens, written), now)
    {
      if !written { return; }
      var hits, pinned := 0, false;
      if key in cache.index { hits, pinned := cache.index[key].hits, cache.index[key].pinned; }
      var e := Meta(kind, title, |value|, tokens, hits, pinned, now, None);
      cache := cache.(index := cache.index[key := e], blobs := cache.blobs[key := value]);
    }

    method Clear(kind: string) returns (removed: nat)
      modifies this
      ensures removed == |Removed(old(cache), kind)|
      ensures forall now :: cache == Perform(old(cache), CacheOp.Clear(kind), now)
    {
      var doomed: set<string> := {};
      var todo := cache.index.Keys;
      removed := 0;
      while todo != {}
        invariant todo <= cache.index.Keys && cache == old(cache)
        invariant doomed == Removed(cache, kind) - todo && removed == |doomed|
        decreases todo
      {
        var k :| k in todo;
        RemovedStep(cache, kind, todo, k);
        if Cleared(cache.index[k], kind) { doomed, removed := doomed + {k}, removed + 1; }
        todo := todo - {k};
      }
      assert Removed(cache, kind) - {} == Removed(cache, kind);
      cache := cache.(index := cache.index - doomed, blobs := cache.blobs - doomed);
    }

    method Pin(key: string, pinned: bool)
      modifies this
      ensures forall now :: cache == Perform(old(cache), CacheOp.Pin(key, pinned), now)
    {
      if key in cache.index { cache := cache.(index := cache.index[key := cache.index[key].(pinned := pinned)]); }
    }

    method Expire(key: string)
      modifies this
      ensures forall now :: cache == Perform(old(cache), CacheOp.Expire(key), now)
    {
      cache := cache.(index := cache.index - {key}, blobs := cache.blobs - {key});
    }
  }

  // ---------------------------------------------------------------------------------------------
  // What stays in the cache
  // ---------------------------------------------------------------------------------------------

  datatype Timed = Timed(op: CacheOp, at: int)

  function Final(c: Cache, ops: seq<Timed>): Cache
    decreases |ops|
  {
    if ops == [] then c else Final(Perform(c, ops[0].op, ops[0].at), ops[1..])
  }

  // Every record has its value and none expires, as in every cache that was filled by storing.
  predicate Whole(c: Cache) {
    c.index.Keys == c.blobs.Keys && forall k :: k in c.index ==> c.index[k].expiresAt == None
  }

  lemma PerformWhole(c: Cache, op: CacheOp, now: int)
    requires Whole(c)
    ensures Whole(Perform(c, op, now))
  {
    var c' := Perform(c, op, now);
    forall k ensures k in c'.index <==> k in c'.blobs { assert k in c.index.Keys <==> k in c.blobs.Keys; }
  }

  // Operations that put something else under the key, take it away, or unpin it.
  predicate Touches(op: CacheOp, key: string) {
    (op.Put? && op.key == key && op.written) || (op.Expire? && op.key == key) || (op.Pin? && op.key == key && !op.pinned)
  }

  // A pinned record, or one that is not in the way of any clearing.
  predicate Safe(m: Meta, op: CacheOp) {
    m.pinned || !op.Clear? || (op.kind != "" && op.kind != m.kind)
  }

  lemma KeptStep(c: Cache, op: CacheOp, at: int, key: string)
    requires Whole(c) && key in c.index && !Touches(op, key) && Safe(c.index[key], op)
    ensures var c' := Perform(c, op, at);
            && key in c'.index && c'.blobs[key] == c.blobs[key] && c'.index[key].kind == c.index[key].kind
            && (c.index[key].pinned ==> c'.index[key].pinned)
  {
    assert key in c.blobs.Keys;
  }

  /** A value stays as it is, for every lookup, until something else is stored under its key, it is made to
      expire, or its kind is cleared; and if it is pinned and stays so, clearing leaves it alone. */
  lemma {:induction false} KeptUntilTouched(c: Cache, ops: seq<Timed>, key: string, now: int)
    requires Whole(c) && key in c.index
    requires forall i :: 0 <= i < |ops| ==> !Touches(ops[i].op, key) && Safe(c.index[key], ops[i].op)
    ensures Stored(Final(c, ops), key, now) == Some(c.blobs[key])
    decreases |ops|
  {
    if ops != [] {
      var c1 := Perform(c, ops[0].op, ops[0].at);
      KeptStep(c, ops[0].op, ops[0].at, key);
      PerformWhole(c, ops[0].op, ops[0].at);
      KeptUntilTouched(c1, ops[1..], key, now);
    }
  }

  /** A value that was made to expire, or cleared with its kind while it was not pinned, is not found again until
      one is stored; one that was stored is found. */
  lemma {:induction false} GoneUntilStored(c: Cache, ops: seq<Timed>, key: string, now: int)
    requires key !in c.index && forall i :: 0 <= i < |ops| ==> !(ops[i].op.Put? && ops[i].op.key == key && ops[i].op.written)
    ensures Stored(Final(c, ops), key, now) == None
    decreases |ops|
  {
    if ops != [] { GoneUntilStored(Perform(c, ops[0].op, ops[0].at), ops[1..], key, now); }
  }

  /** What a lookup finds after one operation, and what the record says. */
  lemma StepExactly(c: Cache, op: CacheOp, at: int, key: string, now: int)
    requires Whole(c)
    ensures Stored(c, key, now) == if key in c.index then Some(c.blobs[key]) else None
    ensures var c' := Perform(c, op, at);
            && (op.Put? && op.key == key && op.written ==> Stored(c', key, now) == Some(op.value))
            && (op.Expire? && op.key == key ==> Stored(c', key, now) == None)
            && (op.Clear? && key in c.index && !Safe(c.index[key], op) ==> Stored(c', key, now) == None)
            && (op.Pin? && op.key == key && key in c.index ==> key in c'.index && c'.index[key].pinned == op.pinned)
    ensures op.Put? && op.written ==> RecordSays(c, op, at, Perform(c, op, at))
    ensures var c', hits := Perform(c, op, at), if key in c.index then c.index[key].hits else 0;
            key in c'.index ==> c'.index[key].hits == if op == Get(key) then hits + 1 else hits
  {
    assert key in c.index.Keys <==> key in c.blobs.Keys;
  }

  // The record is about the stored value; whether it is pinned outlives the value.
  predicate RecordSays(c: Cache, op: CacheOp, at: int, c': Cache)
    requires op.Put?
  {
    && op.key in c'.index
    && var m := c'.index[op.key];
       && m.kind == op.kind && m.title == op.title && m.size == |op.value| && m.tokens == op.tokens
       && m.createdAt == at && (m.pinned <==> op.key in c.index && c.index[op.key].pinned)
  }

  // How many lookups found something, and how many did not.
  function Lookups(c: Cache, ops: seq<Timed>): (nat, nat)
    decreases |ops|
  {
    if ops == [] then (0, 0)
    else
      var op, rest := ops[0].op, Lookups(Perform(c, ops[0].op, ops[0].at), ops[1..]);
      if !op.Get? then rest
      else if Stored(c, op.key, ops[0].at).Some? then (rest.0 + 1, rest.1) else (rest.0, rest.1 + 1)
  }

  /** The lifetime counters are the lookups that found something and those that did not. */
  lemma {:induction false} LookupsAreCounted(c: Cache, ops: seq<Timed>)
    ensures Final(c, ops).hits == c.hits + Lookups(c, ops).0 && Final(c, ops).misses == c.misses + Lookups(c, ops).1
    decreases |ops|
  {
    if ops != [] { LookupsAreCounted(Perform(c, ops[0].op, ops[0].at), ops[1..]); }
  }

  // ---------------------------------------------------------------------------------------------
  // Transparency
  // ---------------------------------------------------------------------------------------------

  // What the optimizers are, what counts as blank space, and the JSON text of a shown configuration.
  datatype Setup = Setup(registry: map<string, Optimizer>, space: char -> bool, blank: string -> bool,
                         encode: map<string, Json> -> string)

  // JSON text says what it encodes, and escapes NUL; optimizer names contain none.
  ghost predicate Faithful(s: Setup) {
    && (forall c :: NulFree(s.encode(c)))
    && (forall c1, c2 :: s.encode(c1) == s.encode(c2) ==> c1 == c2)
    && (forall id :: id in s.registry ==> NulFree(id))
  }

  const PREFIX := "optimizer"

  function RunKey(s: Setup, id: string, cfg: Config, content: string): string {
    HashKey([PREFIX, id, s.encode(ShownAll(cfg)), content])
  }

  predicate InCore(s: Setup, id: string) {
    id in s.registry && !s.registry[id].companion
  }

  /** The key of a run determines its output: two runs with one key have one. */
  lemma KeyDeterminesOutput(s: Setup, id1: string, c1: Config, t1: string, id2: string, c2: Config, t2: string)
    requires Faithful(s) && InCore(s, id1) && id2 in s.registry && RunKey(s, id1, c1, t1) == RunKey(s, id2, c2, t2)
    ensures id1 == id2 && t1 == t2 && Optimized(s.registry[id1], t1, c1, s.blank) == Optimized(s.registry[id2], t2, c2, s.blank)
  {
    var a, b := [PREFIX, id1, s.encode(ShownAll(c1)), t1], [PREFIX, id2, s.encode(ShownAll(c2)), t2];
    KeyInjective(a, b);
    assert a[1] == b[1] && a[2] == b[2] && a[3] == b[3];
    SameJsonSameOutput(s.registry[id1], t1, c1, c2, s.blank);
  }

  // Every value kept under the key of an in-core run is that run's output.
  ghost predicate Coherent(s: Setup, c: Cache) {
    forall id, cfg, content :: InCore(s, id) && RunKey(s, id, cfg, content) in c.blobs ==>
      Optimized(s.registry[id], content, cfg, s.blank) == Some(c.blobs[RunKey(s, id, cfg, content)])
  }

  // Only a run puts something under its key, and it puts its output.
  ghost predicate Honest(s: Setup, op: CacheOp) {
    op.Put? ==> forall id, cfg, content :: InCore(s, id) && RunKey(s, id, cfg, content) == op.key ==>
      Optimized(s.registry[id], content, cfg, s.blank) == Some(op.value)
  }

  lemma PerformCoherent(s: Setup, c: Cache, op: CacheOp, now: int)
    requires Coherent(s, c) && Honest(s, op)
    ensures Coherent(s, Perform(c, op, now))
  {
    var c' := Perform(c, op, now);
    forall id, cfg, content | InCore(s, id) && RunKey(s, id, cfg, content) in c'.blobs
      ensures Optimized(s.registry[id], content, cfg, s.blank) == Some(c'.blobs[RunKey(s, id, cfg, content)])
    {
      var k := RunKey(s, id, cfg, content);
      assert k in c.blobs || (op.Put? && k == op.key);
    }
  }

  lemma RunIsHonest(s: Setup, id: string, cfg: Config, content: string, op: CacheOp)
    requires Faithful(s) && id in s.registry && op.Put? && op.key == RunKey(s, id, cfg, content)
    requires InCore(s, id) ==> Optimized(s.registry[id], content, cfg, s.blank) == Some(op.value)
    ensures Honest(s, op)
  {
    forall id', cfg', content' | InCore(s, id') && RunKey(s, id', cfg', content') == op.key
      ensures Optimized(s.registry[id'], content', cfg', s.blank) == Some(op.value)
    {
      KeyDeterminesOutput(s, id', cfg', content', id, cfg, content);
    }
  }

  /** After any sequence of lookups, stores, clears, pins and expirations, at any times, a hit on the key
      of an in-core run is that run's output. */
  lemma {:induction false} HitsAreOutputs(s: Setup, c: Cache, ops: seq<Timed>, id: string, cfg: Config, content: string, now: int)
    requires Coherent(s, c) && (forall i :: 0 <= i < |ops| ==> Honest(s, ops[i].op)) && InCore(s, id)
    ensures var v := Stored(Final(c, ops), RunKey(s, id, cfg, content), now);
            v.Some? ==> v == Optimized(s.registry[id], content, cfg, s.blank)
    decreases |ops|
  {
    if ops != [] {
      PerformCoherent(s, c, ops[0].op, ops[0].at);
      HitsAreOutputs(s, Perform(c, ops[0].op, ops[0].at), ops[1..], id, cfg, content, now);
    }
  }

  // What a caller gets: the output and the three token figures. Notes, latency and the cached flag differ.
  datatype Report = Report(output: string, before: nat, after: nat, saved: nat)

  // The figures are the estimates before and after, and what that saved.
  predicate Tells(s: Setup, content: string, r: Report) {
    && r.before == Estimate(content, s.space) && r.after == Estimate(r.output, s.space)
    && (r.before >= r.after ==> r.before == r.after + r.saved) && (r.before <= r.after ==> r.saved == 0)
  }

  function Reported(s: Setup, content: string, output: string): (r: Report)
    ensures r.output == output && Tells(s, content, r)
  {
    var before, after := Estimate(content, s.space), Estimate(output, s.space);
    Report(output, before, after, if before > after then before - after else 0)
  }

  // The answer of a run: what the cache has under its key, or the fresh output, which is then stored.
  predicate Answers(o: Optimizer, key: string, kind: string, output: Option<string>, written: bool, now: int,
                    before: Cache, r: Option<Report>, cached: bool, after: Cache)
  {
    var seen, looked := Stored(before, key, now), Perform(before, Get(key), now);
    && (cached <==> seen.Some?)
    && (if cached then r.Some? && r.value.output == seen.value
        else (r.Some? <==> output.Some?) && (r.Some? ==> r.value.output == output.value))
    && after == if cached || r.None? then looked
                else Perform(looked, Put("optimizer", key, o.name + " \U{B7} " + kind, output.value, r.value.after, written), now)
  }

  lemma LookupKeeps(s: Setup, c: Cache, id: string, cfg: Config, content: string, now: int)
    requires Coherent(s, c)
    ensures var key := RunKey(s, id, cfg, content);
            && Coherent(s, Perform(c, Get(key), now))
            && var v := Stored(c, key, now); (InCore(s, id) && v.Some? ==> v == Optimized(s.registry[id], content, cfg, s.blank))
  {
    PerformCoherent(s, c, Get(RunKey(s, id, cfg, content)), now);
  }

  lemma StoreKeeps(s: Setup, c: Cache, id: string, cfg: Config, content: string, title: string, value: string, tokens: nat,
                   written: bool, now: int)
    requires Faithful(s) && Coherent(s, c) && id in s.registry
    requires InCore(s, id) ==> Optimized(s.registry[id], content, cfg, s.blank) == Some(value)
    ensures Coherent(s, Perform(c, Put("optimizer", RunKey(s, id, cfg, content), title, value, tokens, written), now))
  {
    var op := Put(PREFIX, RunKey(s, id, cfg, content), title, value, tokens, written);
    RunIsHonest(s, id, cfg, content, op);
    PerformCoherent(s, c, op, now);
  }

  class Service {
    const setup: Setup
    const store: CacheStore
    var configs: map<string, Config>
    var recorded: nat             // runs that were counted in the statistics

    ghost predicate Valid()
      reads this, store
    {
      Faithful(setup) && Coherent(setup, store.cache)
    }

    constructor (setup: Setup)
      requires Faithful(setup)
      ensures Valid() && this.setup == setup && configs == map[] && fresh(store)
    {
      this.setup, configs, recorded := setup, map[], 0;
      store := new CacheStore();
    }

    /** A lookup, or a run whose output is stored. For an in-core optimizer the caller gets what running it
        would give, hit or miss, whatever happened to the cache before; only a miss is counted. The kind of
        the content plays no part, and neither does whether the value could be written. */
    method RunOptimizer(id: string, kind: string, content: string, override: Config, elsewhere: Option<string>,
                        written: bool, now: int)
      returns (r: Option<Report>, cached: bool)
      requires Valid()
      modifies this, store
      ensures Valid() && configs == old(configs)
      ensures id !in setup.registry ==> r.None? && store.cache == old(store.cache)
      ensures InCore(setup, id) ==>
                var kept := if id in old(configs) then old(configs)[id] else map[];
                var out := Optimized(setup.registry[id], content, Effective(setup.registry[id], kept, override), setup.blank);
                (r.Some? <==> out.Some?) && (r.Some? ==> r.value.output == out.value)
      ensures id in setup.registry ==>
                var o, kept := setup.registry[id], if id in old(configs) then old(configs)[id] else map[];
                var cfg := Effective(o, kept, override);
                var output := if o.companion then elsewhere else Optimized(o, content, cfg, setup.blank);
                Answers(o, RunKey(setup, id, cfg, content), kind, output, written, now, old(store.cache), r, cached, store.cache)
      ensures r.Some? ==> Tells(setup, content, r.value)
      ensures recorded == old(recorded) + (if cached || id !in setup.registry then 0 else 1)
    {
      if id !in setup.registry { return None, false; }
      var o := setup.registry[id];
      var cfg := MergeConfig(o.defaults, if id in configs then configs[id] else map[]);
      cfg := MergeConfig(cfg, override);
      var key := RunKey(setup, id, cfg, content);
      LookupKeeps(setup, store.cache, id, cfg, content, now);
      var v := store.Get(key, now);
      if v.Some? { return Some(Reported(setup, content, v.value)), true; }
      recorded := recorded + 1;
      var res := if o.companion then elsewhere else Optimized(o, content, cfg, setup.blank);
      if res.None? { return None, false; }
      var report := Reported(setup, content, res.value);
      StoreKeeps(setup, store.cache, id, cfg, content, o.name + " \U{B7} " + kind, res.value, report.after, written, now);
      store.Put(PREFIX, key, o.name + " \U{B7} " + kind, res.value, report.after, written, now);
      return Some(report), false;
    }
  }
}
