/** Verification outcomes: how the results of the verifiers reduce to one verdict, one failure count and
    one failure signature. */
module Verification {
  import opened Ordering

  // `Other` is any string that is none of the five outcomes.
  datatype Outcome = Pass | Fail | Blocked | Deferred | Inconclusive | Other(name: string)
  {
    function Name(): string {
      match this
      case Pass => "pass"
      case Fail => "fail"
      case Blocked => "blocked"
      case Deferred => "deferred"
      case Inconclusive => "inconclusive"
      case Other(n) => n
    }
  }

  datatype Check = Check(verifier: string, outcome: Outcome, detail: string)

  function Severity(o: Outcome): nat {
    match o
    case Fail => 4
    case Blocked => 3
    case Inconclusive => 2
    case Deferred => 1
    case _ => 0
  }

  // The worst outcome of the first checks; the first of equally bad ones.
  function Worst(cs: seq<Check>): Outcome
    decreases |cs|
  {
    if cs == [] then Pass
    else
      var rest, last := Worst(cs[..|cs| - 1]), cs[|cs| - 1].outcome;
      if Severity(last) > Severity(rest) then last else rest
  }

  function Verdict(cs: seq<Check>): Outcome {
    if cs == [] then Inconclusive else Worst(cs)
  }

  function Failures(cs: seq<Check>): nat
    decreases |cs|
  {
    if cs == [] then 0 else Failures(cs[..|cs| - 1]) + (if cs[|cs| - 1].outcome.Pass? then 0 else 1)
  }

  method Aggregate(cs: seq<Check>) returns (worst: Outcome)
    ensures worst == Verdict(cs)
  {
    if |cs| == 0 { return Inconclusive; }
    worst := Pass;
    for i := 0 to |cs|
      invariant worst == Worst(cs[..i])
    {
      assert cs[..i + 1][..i] == cs[..i];
      if Severity(cs[i].outcome) > Severity(worst) { worst := cs[i].outcome; }
    }
    assert cs[..|cs|] == cs;
  }

  method CountFailures(cs: seq<Check>) returns (n: nat)
    ensures n == Failures(cs)
  {
    n := 0;
    for i := 0 to |cs|
      invariant n == Failures(cs[..i])
    {
      assert cs[..i + 1][..i] == cs[..i];
      if cs[i].outcome != Pass { n := n + 1; }
    }
    assert cs[..|cs|] == cs;
  }

  /** The most severe outcome wins, wherever it stands. */
  lemma {:induction false} WorstWins(cs: seq<Check>)
    ensures forall c :: c in cs ==> Severity(c.outcome) <= Severity(Worst(cs))
    ensures Worst(cs).Pass? || (Severity(Worst(cs)) > 0 && exists c :: c in cs && c.outcome == Worst(cs))
    decreases |cs|
  {
    if cs != [] {
      var init, last := cs[..|cs| - 1], cs[|cs| - 1];
      WorstWins(init);
      assert cs == init + [last];
      if Severity(last.outcome) > Severity(Worst(init)) { assert last in cs; }
      else if !Worst(init).Pass? {
        var c :| c in init && c.outcome == Worst(init);
        assert c in cs;
      }
    }
  }

  lemma {:induction false} NoFailures(cs: seq<Check>)
    ensures Failures(cs) == 0 <==> forall c :: c in cs ==> c.outcome.Pass?
    decreases |cs|
  {
    if cs != [] {
      NoFailures(cs[..|cs| - 1]);
      assert cs == cs[..|cs| - 1] + [cs[|cs| - 1]];
    }
  }

  // Which of the first `n` checks did not pass.
  function Failing(cs: seq<Check>, n: nat): set<int>
    requires n <= |cs|
  {
    set i | 0 <= i < n && !cs[i].outcome.Pass?
  }

  lemma {:induction false} FailuresUpTo(cs: seq<Check>, n: nat)
    requires n <= |cs|
    ensures Failures(cs[..n]) == |Failing(cs, n)|
    decreases n
  {
    if n == 0 {
      assert Failing(cs, 0) == {};
    } else {
      FailuresUpTo(cs, n - 1);
      assert cs[..n][..n - 1] == cs[..n - 1];
      assert Failing(cs, n) == Failing(cs, n - 1) + (if cs[n - 1].outcome.Pass? then {} else {n - 1});
    }
  }

  /** The failure count is the number of checks that did not pass. */
  lemma FailuresCounted(cs: seq<Check>)
    ensures Failures(cs) == |set i | 0 <= i < |cs| && !cs[i].outcome.Pass?|
  {
    FailuresUpTo(cs, |cs|);
    assert cs[..|cs|] == cs;
  }

  /** The verdict is Pass exactly when there are checks and each of them passed or is of no known outcome. */
  lemma PassExactly(cs: seq<Check>)
    ensures Verdict(cs).Pass? <==> cs != [] && forall c :: c in cs ==> c.outcome.Pass? || c.outcome.Other?
  {
    WorstWins(cs);
    if cs != [] && Worst(cs).Pass? {
      forall c | c in cs ensures c.outcome.Pass? || c.outcome.Other? { assert Severity(c.outcome) <= 0; }
    }
  }

  predicate Has(cs: seq<Check>, o: Outcome) {
    exists c :: c in cs && c.outcome == o
  }

  /** The order of the outcomes: a failure wins over everything, then a blocked check, then an inconclusive one
      (or no check at all), then a deferred one. */
  lemma VerdictExactly(cs: seq<Check>)
    ensures Verdict(cs) == Fail <==> Has(cs, Fail)
    ensures Verdict(cs) == Blocked <==> !Has(cs, Fail) && Has(cs, Blocked)
    ensures Verdict(cs) == Inconclusive <==> cs == [] || (!Has(cs, Fail) && !Has(cs, Blocked) && Has(cs, Inconclusive))
    ensures Verdict(cs) == Deferred <==> Has(cs, Deferred) && forall c :: c in cs ==> c.outcome.Deferred? || c.outcome.Pass? || c.outcome.Other?
    ensures !Verdict(cs).Other?
  {
    WorstWins(cs);
    if cs != [] {
      forall o | Has(cs, o) ensures Severity(o) <= Severity(Worst(cs)) {
        var c :| c in cs && c.outcome == o;
      }
    }
  }

  /** Verdict and failure count disagree exactly on unknown outcomes: a passing verdict comes with
      failures just when one of its checks has an outcome outside the five. */
  lemma PassWithFailures(cs: seq<Check>)
    requires Verdict(cs).Pass?
    ensures Failures(cs) > 0 <==> exists c :: c in cs && c.outcome.Other?
  {
    PassExactly(cs);
    NoFailures(cs);
  }

  // -- the failure signature -----------------------------------------------------------------------

  // SHA-256 is taken to be free of collisions; a digest is never the initial empty string.
  datatype Signature = NoSignature | Digest(text: string)

  function Part(c: Check): string {
    c.outcome.Name() + "|" + c.verifier + "|" + c.detail
  }

  function Parts(cs: seq<Check>): (r: seq<string>)
    ensures |r| == Failures(cs)
    ensures forall p :: p in r ==> p != ""
    decreases |cs|
  {
    if cs == [] then []
    else
      var last := cs[|cs| - 1];
      Parts(cs[..|cs| - 1]) + if last.outcome.Pass? then [] else [Part(last)]
  }

  function Join(parts: seq<string>): string
    decreases |parts|
  {
    if parts == [] then "" else if |parts| == 1 then parts[0] else parts[0] + "\n" + Join(parts[1..])
  }

  function SignatureOf(cs: seq<Check>): Signature {
    Digest(Join(Sort(StrLe, Parts(cs))))
  }

  method MakeSignature(cs: seq<Check>) returns (s: Signature)
    ensures s == SignatureOf(cs)
  {
    var parts := [];
    for i := 0 to |cs|
      invariant parts == Parts(cs[..i])
    {
      assert cs[..i + 1][..i] == cs[..i];
      if cs[i].outcome == Pass { continue; }
      parts := parts + [Part(cs[i])];
    }
    assert cs[..|cs|] == cs;
    s := Digest(Join(Sort(StrLe, parts)));
  }

  // Where a text, or its first line, ends.
  function FirstNewline(s: string): nat {
    if s == "" || s[0] == '\n' then 0 else 1 + FirstNewline(s[1..])
  }

  lemma {:induction false} LineEnds(line: string, rest: string)
    requires '\n' !in line && (rest == "" || rest[0] == '\n')
    ensures FirstNewline(line + rest) == |line|
  {
    if line == "" {
      assert line + rest == rest;
    } else {
      assert (line + rest)[0] == line[0] && line[0] in line && (line + rest)[1..] == line[1..] + rest;
      LineEnds(line[1..], rest);
    }
  }

  predicate Line(s: string) {
    s != "" && '\n' !in s
  }

  // What follows the first part.
  function AfterFirst(parts: seq<string>): string
    requires parts != []
  {
    if |parts| == 1 then "" else "\n" + Join(parts[1..])
  }

  lemma JoinEmpty(p: seq<string>)
    requires forall s :: s in p ==> Line(s)
    ensures Join(p) == "" <==> p == []
  {
    if p != [] { assert p[0] in p; }
  }

  lemma {:induction false} JoinInjective(p: seq<string>, q: seq<string>)
    requires (forall s :: s in p ==> Line(s)) && (forall s :: s in q ==> Line(s)) && Join(p) == Join(q)
    ensures p == q
    decreases |p|
  {
    if p != [] && q != [] {
      var (a, b) := (AfterFirst(p), AfterFirst(q));
      assert p[0] in p && q[0] in q && Line(p[0]) && Line(q[0]);
      assert p[0] + a == Join(p) == Join(q) == q[0] + b;
      LineEnds(p[0], a);
      LineEnds(q[0], b);
      assert p[0] == (p[0] + a)[..|p[0]|] == (q[0] + b)[..|q[0]|] == q[0];
      assert a == (p[0] + a)[|p[0]|..] == (q[0] + b)[|q[0]|..] == b;
      if a != "" {
        assert Join(p[1..]) == a[1..] == b[1..] == Join(q[1..]);
        JoinInjective(p[1..], q[1..]);
      }
      assert p == [p[0]] + p[1..] && q == [q[0]] + q[1..];
    } else {
      JoinEmpty(p);
      JoinEmpty(q);
    }
  }

  /** As long as no failing part contains a newline, two verifications have one signature exactly when the same
      parts failed, each as often, in whatever order the checks came. */
  lemma SignatureExactly(a: seq<Check>, b: seq<Check>)
    requires (forall p :: p in Parts(a) ==> '\n' !in p) && (forall p :: p in Parts(b) ==> '\n' !in p)
    ensures SignatureOf(a) == SignatureOf(b) <==> multiset(Parts(a)) == multiset(Parts(b))
  {
    var p, q := Parts(a), Parts(b);
    SameElements(Sort(StrLe, p), p);
    SameElements(Sort(StrLe, q), q);
    if SignatureOf(a) == SignatureOf(b) {
      JoinInjective(Sort(StrLe, p), Sort(StrLe, q));
    } else if multiset(p) == multiset(q) {
      StringOrder(set s | s in q);
      SortIgnoresOrder(StrLe, p, q, set s | s in q);
      assert false;
    }
  }

  lemma BarEnds(a: string, x: string, b: string, y: string)
    requires '|' !in a && '|' !in b && a + "|" + x == b + "|" + y
    ensures a == b && x == y
  {
    var s := a + "|" + x;
    assert s[|a|] == '|' && forall i :: 0 <= i < |a| ==> s[i] == a[i] && s[i] in a;
    assert s[|b|] == '|' && forall i :: 0 <= i < |b| ==> s[i] == b[i] && s[i] in b by { assert s == b + "|" + y; }
    assert a == s[..|a|] == b && x == s[|a| + 1..] == y;
  }

  /** A part tells verifier, outcome and detail, unless a name contains the bar that separates them. */
  lemma PartTells(c: Check, d: Check)
    requires !c.outcome.Other? && !d.outcome.Other? && '|' !in c.verifier && '|' !in d.verifier
    ensures Part(c) == Part(d) <==> c == d
  {
    if Part(c) == Part(d) {
      assert Part(c) == c.outcome.Name() + "|" + (c.verifier + "|" + c.detail);
      assert Part(d) == d.outcome.Name() + "|" + (d.verifier + "|" + d.detail);
      BarEnds(c.outcome.Name(), c.verifier + "|" + c.detail, d.outcome.Name(), d.verifier + "|" + d.detail);
      BarEnds(c.verifier, c.detail, d.verifier, d.detail);
      NamesDiffer(c.outcome, d.outcome);
    }
  }

  lemma NamesDiffer(o: Outcome, p: Outcome)
    requires !o.Other? && !p.Other? && o.Name() == p.Name()
    ensures o == p
  {
  }

  function Newlines(s: string): nat {
    if s == "" then 0 else (if s[0] == '\n' then 1 else 0) + Newlines(s[1..])
  }

  function AllNewlines(parts: seq<string>): nat {
    if parts == [] then 0 else Newlines(parts[0]) + AllNewlines(parts[1..])
  }

  lemma {:induction false} NewlinesAppend(a: string, b: string)
    ensures Newlines(a + b) == Newlines(a) + Newlines(b)
  {
    if a == "" {
      assert a + b == b;
    } else {
      assert (a + b)[1..] == a[1..] + b;
      NewlinesAppend(a[1..], b);
    }
  }

  lemma {:induction false} JoinNewlines(parts: seq<string>)
    requires parts != []
    ensures Newlines(Join(parts)) == AllNewlines(parts) + |parts| - 1
    decreases |parts|
  {
    if |parts| == 1 {
      assert AllNewlines(parts[1..]) == 0;
    } else {
      JoinNewlines(parts[1..]);
      NewlinesAppend(parts[0], "\n" + Join(parts[1..]));
      NewlinesAppend("\n", Join(parts[1..]));
      assert parts[0] + "\n" + Join(parts[1..]) == parts[0] + ("\n" + Join(parts[1..]));
      assert Newlines("\n") == 1;
    }
  }

  lemma {:induction false} InsertNewlines(x: string, s: seq<string>)
    ensures AllNewlines(Insert(StrLe, x, s)) == Newlines(x) + AllNewlines(s)
  {
    if s != [] && !StrLe(x, s[0]) { InsertNewlines(x, s[1..]); }
  }

  lemma {:induction false} SortNewlines(s: seq<string>)
    ensures AllNewlines(Sort(StrLe, s)) == AllNewlines(s)
  {
    if s != [] {
      SortNewlines(s[1..]);
      InsertNewlines(s[0], Sort(StrLe, s[1..]));
    }
  }

  lemma JoinedOf(cs: seq<Check>)
    ensures Failures(cs) == 0 <==> Join(Sort(StrLe, Parts(cs))) == ""
    ensures Failures(cs) > 0 ==> Newlines(Join(Sort(StrLe, Parts(cs)))) == AllNewlines(Parts(cs)) + Failures(cs) - 1
  {
    var sorted := Sort(StrLe, Parts(cs));
    SameElements(sorted, Parts(cs));
    SortNewlines(Parts(cs));
    if sorted != [] {
      assert sorted[0] in sorted;
      JoinNewlines(sorted);
    }
  }

  /** Equal signatures mean equal failure counts exactly when the failing parts contain equally many
      newlines; in particular when they contain none. */
  lemma {:induction false} SameSignatureSameCount(a: seq<Check>, b: seq<Check>)
    requires SignatureOf(a) == SignatureOf(b)
    ensures Failures(a) == Failures(b) <==> AllNewlines(Parts(a)) == AllNewlines(Parts(b))
  {
    JoinedOf(a);
    JoinedOf(b);
    if Failures(a) == 0 { assert Parts(a) == Parts(b) == []; }
  }

  lemma OnePart(c: Check)
    requires !c.outcome.Pass?
    ensures Parts([c]) == [Part(c)] && Failures([c]) == 1 && SignatureOf([c]) == Digest(Part(c))
  {
    assert [c][..0] == [];
    assert Parts([c]) == [Part(c)];
    assert [Part(c)][1..] == [];
    assert Sort(StrLe, [Part(c)]) == [Part(c)];
  }

  lemma TwoParts(c1: Check, c2: Check)
    requires !c1.outcome.Pass? && !c2.outcome.Pass? && StrLe(Part(c1), Part(c2))
    ensures Failures([c1, c2]) == 2 && SignatureOf([c1, c2]) == Digest(Part(c1) + "\n" + Part(c2))
  {
    assert [c1, c2][..1] == [c1];
    OnePart(c1);
    var p1, p2 := Part(c1), Part(c2);
    assert Parts([c1, c2]) == [p1, p2];
    assert [p1, p2][1..] == [p2] && [p2][1..] == [];
    assert Sort(StrLe, [p2]) == [p2];
    assert Sort(StrLe, [p1, p2]) == [p1, p2];
    assert Join([p2]) == p2;
  }

  /** And counts can differ: any two failures look like one whose detail spans their lines. */
  lemma NewlineHidesFailure(c1: Check, c2: Check)
    requires !c1.outcome.Pass? && !c2.outcome.Pass? && StrLe(Part(c1), Part(c2))
    ensures var one := c1.(detail := c1.detail + "\n" + Part(c2));
            SignatureOf([c1, c2]) == SignatureOf([one]) && Failures([c1, c2]) == 2 && Failures([one]) == 1
  {
    var one := c1.(detail := c1.detail + "\n" + Part(c2));
    TwoParts(c1, c2);
    OnePart(one);
    assert Part(one) == Part(c1) + "\n" + Part(c2);
  }
}
