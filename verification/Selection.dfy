/** The prompt builder: which knowledge entries go into a prompt, in which order, within which budget. */
module Selection {
  import opened Options
  import opened Ordering
  import opened Knowledge
  import opened Text

  // Go's Unicode tables, character by character.
  datatype Chars = Chars(word: char -> bool, lower: char -> char, space: char -> bool)

  datatype Selector = Selector(keywords: seq<string>, context: seq<string>, categories: seq<string>,
                               includeNonActive: bool, maxEntries: int, maxBytes: int)

  function Lower(cs: Chars, s: string): (r: string)
    ensures |r| == |s|
  {
    seq(|s|, i requires 0 <= i < |s| => cs.lower(s[i]))
  }

  function Normalise(cs: Chars, s: string): string {
    Lower(cs, Trim(cs.space, s))
  }

  function Tokenize(cs: Chars, s: string): seq<string> {
    Fields(cs.word, Lower(cs, s), "")
  }

  function Elements<T(!new)>(s: seq<T>): (r: set<T>)
    ensures forall x :: x in r <==> x in s
  {
    set x | x in s
  }

  function TermsOf(cs: Chars, raw: seq<string>): set<string>
    decreases |raw|
  {
    if raw == [] then {} else TermsOf(cs, raw[..|raw| - 1]) + Elements(Tokenize(cs, raw[|raw| - 1]))
  }

  function Query(cs: Chars, sel: Selector): set<string> {
    TermsOf(cs, sel.keywords) + TermsOf(cs, sel.context)
  }

  function Searchable(e: Entry): string {
    e.title + " " + e.body + " " + e.category
  }

  // How many different query terms the entry mentions.
  function Score(cs: Chars, e: Entry, terms: set<string>): nat {
    |Elements(Tokenize(cs, Searchable(e))) * terms|
  }

  predicate Eligible(cs: Chars, sel: Selector, e: Entry) {
    && (sel.includeNonActive || e.status == ACTIVE)
    && (sel.categories == [] || exists i :: 0 <= i < |sel.categories| && Normalise(cs, sel.categories[i]) == Normalise(cs, e.category))
  }

  function Scorer(cs: Chars, sel: Selector): Entry -> nat {
    (e: Entry) => Score(cs, e, Query(cs, sel))
  }

  // Higher score, then category, then id.
  predicate RankLe(score: Entry -> nat, a: Entry, b: Entry) {
    if score(a) != score(b) then score(a) > score(b)
    else if a.category != b.category then StrLe(a.category, b.category)
    else StrLe(a.id, b.id)
  }

  function Rank(score: Entry -> nat): (Entry, Entry) -> bool {
    (a: Entry, b: Entry) => RankLe(score, a, b)
  }

  function Filter(cs: Chars, sel: Selector, es: seq<Entry>): (r: seq<Entry>)
    ensures forall e :: e in r <==> e in es && Eligible(cs, sel, e)
    decreases |es|
  {
    if es == [] then []
    else
      var init, last := es[..|es| - 1], es[|es| - 1];
      assert es == init + [last];
      Filter(cs, sel, init) + if Eligible(cs, sel, last) then [last] else []
  }

  function Ranked(cs: Chars, sel: Selector, es: seq<Entry>): seq<Entry> {
    Sort(Rank(Scorer(cs, sel)), Filter(cs, sel, es))
  }

  // -- rendering -----------------------------------------------------------------------------------

  function RenderEntry(e: Entry): string {
    "\n### [" + e.category + "] " + e.title + "\n" + TrimEnd(c => c == '\n', e.body) + "\n"
  }

  const HEADER := "## Knowledge\n"

  function RenderAll(es: seq<Entry>): string
    decreases |es|
  {
    if es == [] then "" else RenderAll(es[..|es| - 1]) + RenderEntry(es[|es| - 1])
  }

  function RenderContext(es: seq<Entry>): string {
    if es == [] then "" else HEADER + RenderAll(es)
  }

  // The characters that n bytes of UTF-8 can hold are those below this.
  function Capacity(n: nat): nat
    requires 1 <= n <= 4
  {
    if n == 1 then 0x80 else if n == 2 then 0x20 * 0x40 else if n == 3 then 0x10 * 0x40 * 0x40 else 0x08 * 0x40 * 0x40 * 0x40
  }

  // Bytes in UTF-8, as few as can hold the character.
  function Width(c: char): (n: nat)
    ensures n > 0
    ensures forall m: nat :: 1 <= m <= 4 ==> (n <= m <==> (c as int) < Capacity(m))
  {
    var n := c as int;
    if n < 0x80 then 1 else if n < 0x800 then 2 else if n < 0x10000 then 3 else 4
  }

  function Bytes(s: string): (n: nat)
    ensures n >= |s|
    decreases |s|
  {
    if s == "" then 0 else Bytes(s[..|s| - 1]) + Width(s[|s| - 1])
  }

  function Size(e: Entry): (n: nat)
    ensures n > 0
  {
    Bytes(RenderEntry(e))
  }

  function TotalSize(size: Entry -> nat, es: seq<Entry>): nat
    decreases |es|
  {
    if es == [] then 0 else TotalSize(size, es[..|es| - 1]) + size(es[|es| - 1])
  }

  // -- the methods ---------------------------------------------------------------------------------

  method Relevance(cs: Chars, e: Entry, terms: set<string>) returns (n: nat)
    ensures n == Score(cs, e, terms)
  {
    if terms == {} {
      assert Elements(Tokenize(cs, Searchable(e))) * terms == {};
      return 0;
    }
    var haystack := Tokenize(cs, Searchable(e));
    var seen: set<string> := {};
    for i := 0 to |haystack|
      invariant seen == Elements(haystack[..i]) * terms
    {
      assert haystack[..i + 1] == haystack[..i] + [haystack[i]];
      if haystack[i] in terms { seen := seen + {haystack[i]}; }
    }
    assert haystack[..|haystack|] == haystack;
    return |seen|;
  }

  method Candidates(cs: Chars, sel: Selector, all: seq<Entry>) returns (out: seq<Entry>)
    ensures out == Filter(cs, sel, all)
  {
    var cats: set<string> := {};
    for i := 0 to |sel.categories|
      invariant forall c :: c in cats <==> exists j :: 0 <= j < i && Normalise(cs, sel.categories[j]) == c
    {
      cats := cats + {Normalise(cs, sel.categories[i])};
    }
    out := [];
    for i := 0 to |all|
      invariant out == Filter(cs, sel, all[..i])
    {
      var e := all[i];
      assert all[..i + 1][..i] == all[..i];
      assert sel.categories != [] ==> Normalise(cs, sel.categories[0]) in cats;
      if !sel.includeNonActive && e.status != ACTIVE { continue; }
      if |cats| > 0 && Normalise(cs, e.category) !in cats { continue; }
      out := out + [e];
    }
    assert all[..|all|] == all;
  }

  // An entry with the score it was given.
  datatype Scored = Scored(e: Entry, score: nat)

  predicate ScoredLe(a: Scored, b: Scored) {
    if a.score != b.score then a.score > b.score
    else if a.e.category != b.e.category then StrLe(a.e.category, b.e.category)
    else StrLe(a.e.id, b.e.id)
  }

  function Tagged(score: Entry -> nat): Entry -> Scored {
    (e: Entry) => Scored(e, score(e))
  }

  function WithScores(score: Entry -> nat, es: seq<Entry>): (r: seq<Scored>)
    ensures |r| == |es| && forall i :: 0 <= i < |es| ==> r[i] == Scored(es[i], score(es[i]))
  {
    Map(Tagged(score), es)
  }

  lemma SortScored(score: Entry -> nat, s: seq<Entry>)
    ensures Sort(ScoredLe, WithScores(score, s)) == WithScores(score, Sort(Rank(score), s))
  {
    SortMap(Tagged(score), Rank(score), ScoredLe, s);
  }

  method ScoreAll(cs: Chars, sel: Selector, cands: seq<Entry>) returns (scored: seq<Scored>)
    ensures scored == WithScores(Scorer(cs, sel), cands)
  {
    var terms := Query(cs, sel);
    scored := [];
    for i := 0 to |cands|
      invariant scored == WithScores(Scorer(cs, sel), cands[..i])
    {
      var n := Relevance(cs, cands[i], terms);
      scored := scored + [Scored(cands[i], n)];
    }
    assert cands[..|cands|] == cands;
  }

  method Unscored(ghost score: Entry -> nat, ghost es: seq<Entry>, scored: seq<Scored>) returns (out: seq<Entry>)
    requires scored == WithScores(score, es)
    ensures out == es
  {
    out := [];
    for i := 0 to |scored|
      invariant out == es[..i]
    {
      out := out + [scored[i].e];
    }
  }

  method RankAll(cs: Chars, sel: Selector, cands: seq<Entry>) returns (out: seq<Entry>)
    ensures out == Sort(Rank(Scorer(cs, sel)), cands)
  {
    var scored := ScoreAll(cs, sel, cands);
    SortScored(Scorer(cs, sel), cands);
    out := Unscored(Scorer(cs, sel), Sort(Rank(Scorer(cs, sel)), cands), Sort(ScoredLe, scored));
  }

  // Within both budgets; a budget that is not positive is no budget.
  predicate Fits(sel: Selector, size: Entry -> nat, es: seq<Entry>) {
    (sel.maxEntries > 0 ==> |es| <= sel.maxEntries) && (sel.maxBytes > 0 ==> TotalSize(size, es) <= sel.maxBytes)
  }

  // How many of the ranked entries are taken.
  ghost predicate Cut(sel: Selector, size: Entry -> nat, ranked: seq<Entry>, n: nat) {
    && n <= |ranked|
    && if ranked != [] && !Fits(sel, size, ranked[..1]) then n == 1
       else Fits(sel, size, ranked[..n]) && (n < |ranked| ==> !Fits(sel, size, ranked[..n + 1]))
  }

  lemma OneMore(sel: Selector, size: Entry -> nat, ranked: seq<Entry>, n: nat)
    requires n < |ranked|
    ensures TotalSize(size, ranked[..n + 1]) == TotalSize(size, ranked[..n]) + size(ranked[n])
    ensures n > 0 && Fits(sel, size, ranked[..n]) ==> Fits(sel, size, ranked[..1])
  {
    assert ranked[..n + 1][..n] == ranked[..n];
    if n > 0 && Fits(sel, size, ranked[..n]) { FitsShorter(sel, size, ranked, 1, n); }
  }

  method Budget(sel: Selector, size: Entry -> nat, ranked: seq<Entry>) returns (out: seq<Entry>)
    ensures |out| <= |ranked| && out == ranked[..|out|] && Cut(sel, size, ranked, |out|)
  {
    out := [];
    var total := 0;
    for i := 0 to |ranked|
      invariant out == ranked[..i] && total == TotalSize(size, out) && Fits(sel, size, out)
    {
      OneMore(sel, size, ranked, i);
      if sel.maxEntries > 0 && |out| >= sel.maxEntries { return; }
      if sel.maxBytes > 0 && total + size(ranked[i]) > sel.maxBytes {
        if |out| == 0 { out := out + [ranked[i]]; }
        return;
      }
      out := out + [ranked[i]];
      total := total + size(ranked[i]);
      assert out == ranked[..i + 1];
    }
    if ranked != [] { FitsShorter(sel, size, ranked, 1, |ranked|); }
  }

  // What is selected from a ranked list.
  ghost predicate IsSelection(sel: Selector, size: Entry -> nat, ranked: seq<Entry>, out: seq<Entry>) {
    |out| <= |ranked| && out == ranked[..|out|] && Cut(sel, size, ranked, |out|)
  }

  method SelectContext(cs: Chars, sel: Selector, all: seq<Entry>) returns (out: seq<Entry>)
    ensures IsSelection(sel, Size, Ranked(cs, sel, all), out)
  {
    var cands := Candidates(cs, sel, all);
    var ranked := RankAll(cs, sel, cands);
    out := Budget(sel, Size, ranked);
  }

  // ---------------------------------------------------------------------------------------------
  // What selection means
  // ---------------------------------------------------------------------------------------------

  ghost predicate UniqueIds(es: seq<Entry>) {
    forall i, j :: 0 <= i < j < |es| ==> es[i].id != es[j].id
  }

  lemma RankIsOrder(score: Entry -> nat, s: set<Entry>)
    requires forall a, b :: a in s && b in s && a.id == b.id ==> a == b
    ensures TotalOrder(Rank(score), s)
  {
    forall a, b | a in s && b in s
      ensures RankLe(score, a, b) || RankLe(score, b, a)
      ensures RankLe(score, a, b) && RankLe(score, b, a) ==> a == b
    {
      StrLeTotal(a.category, b.category);
      StrLeTotal(a.id, b.id);
    }
    forall a, b, c | a in s && b in s && c in s && RankLe(score, a, b) && RankLe(score, b, c) ensures RankLe(score, a, c) {
      RankTransitive(score, a, b, c);
    }
  }

  lemma RankTransitive(score: Entry -> nat, a: Entry, b: Entry, c: Entry)
    requires RankLe(score, a, b) && RankLe(score, b, c)
    ensures RankLe(score, a, c)
  {
    if score(a) == score(b) == score(c) {
      if a.category == b.category == c.category {
        StrLeTransitive(a.id, b.id, c.id);
      } else {
        StrLeTotal(a.category, b.category);
        StrLeTotal(b.category, c.category);
        if StrLe(a.category, b.category) && StrLe(b.category, c.category) { StrLeTransitive(a.category, b.category, c.category); }
      }
    }
  }

  lemma {:induction false} FilterCounts(cs: Chars, sel: Selector, es: seq<Entry>, e: Entry)
    ensures multiset(Filter(cs, sel, es))[e] == if Eligible(cs, sel, e) then multiset(es)[e] else 0
    decreases |es|
  {
    if es != [] {
      var init, last := es[..|es| - 1], es[|es| - 1];
      assert es == init + [last];
      FilterCounts(cs, sel, init, e);
    }
  }

  lemma UniqueOnce(es: seq<Entry>)
    requires UniqueIds(es)
    ensures forall a, b :: a in es && b in es && a.id == b.id ==> a == b
  {
  }

  /** The ranked list does not depend on the order in which the store lists its entries. */
  lemma RankedIgnoresOrder(cs: Chars, sel: Selector, a: seq<Entry>, b: seq<Entry>)
    requires UniqueIds(a) && multiset(a) == multiset(b)
    ensures Ranked(cs, sel, a) == Ranked(cs, sel, b)
  {
    var score := Scorer(cs, sel);
    forall e ensures multiset(Filter(cs, sel, a))[e] == multiset(Filter(cs, sel, b))[e] {
      FilterCounts(cs, sel, a, e);
      FilterCounts(cs, sel, b, e);
    }
    assert multiset(Filter(cs, sel, a)) == multiset(Filter(cs, sel, b));
    SameElements(a, b);
    UniqueOnce(a);
    RankIsOrder(score, Elements(a));
    SortIgnoresOrder(Rank(score), Filter(cs, sel, a), Filter(cs, sel, b), Elements(a));
  }

  lemma {:induction false} SizeGrows(size: Entry -> nat, es: seq<Entry>, i: nat, j: nat)
    requires i <= j <= |es|
    ensures TotalSize(size, es[..i]) <= TotalSize(size, es[..j])
    decreases j
  {
    if i < j {
      assert es[..j][..j - 1] == es[..j - 1];
      SizeGrows(size, es, i, j - 1);
    }
  }

  lemma FitsShorter(sel: Selector, size: Entry -> nat, es: seq<Entry>, i: nat, j: nat)
    requires i <= j <= |es| && Fits(sel, size, es[..j])
    ensures Fits(sel, size, es[..i])
  {
    SizeGrows(size, es, i, j);
  }

  lemma CutUnique(sel: Selector, size: Entry -> nat, r: seq<Entry>, m: nat, n: nat)
    requires Cut(sel, size, r, m) && Cut(sel, size, r, n)
    ensures m == n
  {
    if m < n && Fits(sel, size, r[..n]) { FitsShorter(sel, size, r, m + 1, n); }
    if n < m && Fits(sel, size, r[..m]) { FitsShorter(sel, size, r, n + 1, m); }
  }

  // A cut is the longest prefix that fits; the top entry alone if that does not.
  lemma CutLongest(sel: Selector, size: Entry -> nat, r: seq<Entry>, n: nat, p: seq<Entry>)
    requires Cut(sel, size, r, n) && p <= r && Fits(sel, size, p) && (r == [] || Fits(sel, size, r[..1]))
    ensures p <= r[..n]
  {
    assert p == r[..|p|];
    if |p| > n { FitsShorter(sel, size, r, n + 1, |p|); }
  }

  lemma CutMonotone(s1: Selector, s2: Selector, size: Entry -> nat, r: seq<Entry>, m: nat, n: nat)
    requires BudgetLe(s1.maxEntries, s2.maxEntries) && BudgetLe(s1.maxBytes, s2.maxBytes)
    requires Cut(s1, size, r, m) && Cut(s2, size, r, n)
    ensures m <= n
  {
    if m > n {
      if Fits(s1, size, r[..m]) {
        assert Fits(s2, size, r[..m]);
        FitsShorter(s2, size, r, 1, m);
        FitsShorter(s2, size, r, n + 1, m);
      }
    }
  }

  /** Selection is a function of the set of current entries. */
  lemma SelectionIgnoresOrder(cs: Chars, sel: Selector, size: Entry -> nat, a: seq<Entry>, b: seq<Entry>,
                              out1: seq<Entry>, out2: seq<Entry>)
    requires UniqueIds(a) && multiset(a) == multiset(b)
    requires IsSelection(sel, size, Ranked(cs, sel, a), out1) && IsSelection(sel, size, Ranked(cs, sel, b), out2)
    ensures out1 == out2
  {
    RankedIgnoresOrder(cs, sel, a, b);
    CutUnique(sel, size, Ranked(cs, sel, a), |out1|, |out2|);
  }

  /** It is the longest prefix of the ranking that fits both budgets; if the top entry alone does not fit,
      it is the top entry. */
  lemma LongestFit(sel: Selector, size: Entry -> nat, ranked: seq<Entry>, out: seq<Entry>)
    requires IsSelection(sel, size, ranked, out)
    ensures if ranked != [] && !Fits(sel, size, ranked[..1]) then out == ranked[..1]
            else Fits(sel, size, out) && out <= ranked && forall p :: p <= ranked && Fits(sel, size, p) ==> p <= out
  {
    if ranked == [] || Fits(sel, size, ranked[..1]) {
      forall p | p <= ranked && Fits(sel, size, p) ensures p <= out { CutLongest(sel, size, ranked, |out|, p); }
    }
  }

  /** Nothing is selected that is not current and eligible, and the ranking leaves nothing eligible out. */
  lemma RankedExactly(cs: Chars, sel: Selector, all: seq<Entry>, out: seq<Entry>)
    requires out <= Ranked(cs, sel, all)
    ensures forall e :: e in Ranked(cs, sel, all) <==> e in all && Eligible(cs, sel, e)
    ensures forall e :: e in out ==> e in all && Eligible(cs, sel, e)
    ensures !sel.includeNonActive ==> forall e :: e in out ==> e.status == ACTIVE
  {
    SameElements(Ranked(cs, sel, all), Filter(cs, sel, all));
  }

  // `t` is a word of the text, in lower case.
  ghost predicate Says(cs: Chars, s: string, t: string) {
    IsField(cs.word, Lower(cs, s), t)
  }

  lemma TokensExactly(cs: Chars, s: string, t: string)
    ensures t in Tokenize(cs, s) <==> Says(cs, s, t)
  {
    FieldsExactly(cs.word, Lower(cs, s), "", t);
    assert "" + Lower(cs, s) == Lower(cs, s);
  }

  ghost predicate Asked(cs: Chars, sel: Selector, t: string) {
    exists s :: (s in sel.keywords || s in sel.context) && Says(cs, s, t)
  }

  // The title, the body or the category says it.
  ghost predicate Mentions(cs: Chars, e: Entry, t: string) {
    Says(cs, e.title, t) || Says(cs, e.body, t) || Says(cs, e.category, t)
  }

  // A blank is no part of a word.
  predicate Plain(cs: Chars) {
    !cs.word(cs.lower(' '))
  }

  lemma {:induction false} TermsExactly(cs: Chars, raw: seq<string>, t: string)
    ensures t in TermsOf(cs, raw) <==> exists s :: s in raw && Says(cs, s, t)
    decreases |raw|
  {
    if raw != [] {
      var init, last := raw[..|raw| - 1], raw[|raw| - 1];
      assert raw == init + [last];
      TermsExactly(cs, init, t);
      TokensExactly(cs, last, t);
      assert Says(cs, last, t) ==> last in raw;
    }
  }

  lemma QueryExactly(cs: Chars, sel: Selector, t: string)
    ensures t in Query(cs, sel) <==> Asked(cs, sel, t)
  {
    TermsExactly(cs, sel.keywords, t);
    TermsExactly(cs, sel.context, t);
  }

  lemma SearchableExactly(cs: Chars, e: Entry, t: string)
    requires Plain(cs)
    ensures t in Tokenize(cs, Searchable(e)) <==> Mentions(cs, e, t)
  {
    TokensExactly(cs, Searchable(e), t);
    var gap, head := Lower(cs, " "), e.title + " " + e.body;
    assert Lower(cs, head) == Lower(cs, e.title) + gap + Lower(cs, e.body);
    assert Lower(cs, Searchable(e)) == Lower(cs, head) + gap + Lower(cs, e.category);
    GapSplits(cs.word, Lower(cs, e.title), gap, Lower(cs, e.body), t);
    GapSplits(cs.word, Lower(cs, head), gap, Lower(cs, e.category), t);
  }

  // `found` is what the question asks for and the entry mentions.
  ghost predicate Found(cs: Chars, sel: Selector, e: Entry, found: set<string>) {
    forall t :: t in found <==> Asked(cs, sel, t) && Mentions(cs, e, t)
  }

  /** An entry's score is the number of different words of the question that it mentions. */
  lemma ScoreExactly(cs: Chars, sel: Selector, e: Entry, found: set<string>)
    requires Plain(cs) && Found(cs, sel, e, found)
    ensures Scorer(cs, sel)(e) == |found|
  {
    var matched := Elements(Tokenize(cs, Searchable(e))) * Query(cs, sel);
    forall t ensures t in matched <==> t in found {
      QueryExactly(cs, sel, t);
      SearchableExactly(cs, e, t);
    }
    assert matched == found;
  }

  lemma RankedOnce(cs: Chars, sel: Selector, all: seq<Entry>, i: nat, j: nat)
    requires UniqueIds(all) && i < j < |Ranked(cs, sel, all)|
    ensures Ranked(cs, sel, all)[i].id != Ranked(cs, sel, all)[j].id
  {
    var r := Ranked(cs, sel, all);
    assert Distinct(all);
    DistinctByMultiset(all);
    forall e ensures multiset(r)[e] <= 1 { FilterCounts(cs, sel, all, e); }
    DistinctByMultiset(r);
    SameElements(r, Filter(cs, sel, all));
    UniqueOnce(all);
    assert r[i] in r && r[j] in r;
  }

  /** In the ranking, an entry stands before another only if it mentions more of the question; or as much, and
      its category comes first; or as much in one category, and its id comes first. */
  lemma RankingMeans(cs: Chars, sel: Selector, all: seq<Entry>, i: nat, j: nat, foundI: set<string>, foundJ: set<string>)
    requires Plain(cs) && UniqueIds(all) && i < j < |Ranked(cs, sel, all)|
    requires Found(cs, sel, Ranked(cs, sel, all)[i], foundI) && Found(cs, sel, Ranked(cs, sel, all)[j], foundJ)
    ensures var a, b := Ranked(cs, sel, all)[i], Ranked(cs, sel, all)[j];
            || |foundI| > |foundJ|
            || (|foundI| == |foundJ| && Earlier(a.category, b.category))
            || (|foundI| == |foundJ| && a.category == b.category && Earlier(a.id, b.id))
  {
    var score, r := Scorer(cs, sel), Ranked(cs, sel, all);
    UniqueOnce(all);
    RankIsOrder(score, Elements(all));
    SortSorts(Rank(score), Filter(cs, sel, all), Elements(all));
    assert RankLe(score, r[i], r[j]);
    RankedOnce(cs, sel, all, i, j);
    ScoreExactly(cs, sel, r[i], foundI);
    ScoreExactly(cs, sel, r[j], foundJ);
    StrLeExactly(r[i].category, r[j].category);
    StrLeExactly(r[i].id, r[j].id);
  }

  // The same name but for case and the white space around it.
  ghost predicate SameName(cs: Chars, a: string, b: string) {
    exists p, q :: Core(cs.space, a, p) && Core(cs.space, b, q) && Lower(cs, p) == Lower(cs, q)
  }

  ghost predicate Core(space: char -> bool, s: string, r: string) {
    Tight(space, r) && exists i :: Inside(space, s, i, r)
  }

  /** Eligible are the active entries, or all if asked for, of a category the selector names, if it names any. */
  lemma EligibleExactly(cs: Chars, sel: Selector, e: Entry)
    ensures Eligible(cs, sel, e) <==>
              && (sel.includeNonActive || e.status == "active")
              && (sel.categories == [] || exists c :: c in sel.categories && SameName(cs, c, e.category))
  {
    forall c ensures SameName(cs, c, e.category) <==> Normalise(cs, c) == Normalise(cs, e.category) {
      SameNormal(cs, c, e.category);
    }
  }

  lemma SameNormal(cs: Chars, a: string, b: string)
    ensures SameName(cs, a, b) <==> Normalise(cs, a) == Normalise(cs, b)
  {
    var p, q := Trim(cs.space, a), Trim(cs.space, b);
    TrimExactly(cs.space, a, p);
    TrimExactly(cs.space, b, q);
    assert Core(cs.space, a, p) && Core(cs.space, b, q);
    if p', q' :| Core(cs.space, a, p') && Core(cs.space, b, q') && Lower(cs, p') == Lower(cs, q') {
      TrimExactly(cs.space, a, p');
      TrimExactly(cs.space, b, q');
    }
  }

  // `a` is a budget no larger than `b`.
  predicate BudgetLe(a: int, b: int) {
    b <= 0 || 0 < a <= b
  }

  // The selectors differ in their budgets only.
  predicate SameQuestion(s1: Selector, s2: Selector) {
    s2 == s1.(maxEntries := s2.maxEntries, maxBytes := s2.maxBytes)
  }

  /** Raising either budget only ever adds entries at the end. */
  lemma BudgetsMonotone(s1: Selector, s2: Selector, size: Entry -> nat, ranked: seq<Entry>, out1: seq<Entry>, out2: seq<Entry>)
    requires SameQuestion(s1, s2) && BudgetLe(s1.maxEntries, s2.maxEntries) && BudgetLe(s1.maxBytes, s2.maxBytes)
    requires IsSelection(s1, size, ranked, out1) && IsSelection(s2, size, ranked, out2)
    ensures out1 <= out2
  {
    CutMonotone(s1, s2, size, ranked, |out1|, |out2|);
  }

  lemma {:induction false} SameFilter(cs: Chars, s1: Selector, s2: Selector, all: seq<Entry>)
    requires SameQuestion(s1, s2)
    ensures Filter(cs, s1, all) == Filter(cs, s2, all)
    decreases |all|
  {
    if all != [] { SameFilter(cs, s1, s2, all[..|all| - 1]); }
  }

  /** The budgets play no part in the ranking. */
  lemma SameRanking(cs: Chars, s1: Selector, s2: Selector, all: seq<Entry>)
    requires SameQuestion(s1, s2)
    ensures Ranked(cs, s1, all) == Ranked(cs, s2, all)
  {
    SameFilter(cs, s1, s2, all);
    assert Query(cs, s1) == Query(cs, s2);
  }

  lemma {:induction false} BytesAppend(a: string, b: string)
    ensures Bytes(a + b) == Bytes(a) + Bytes(b)
    decreases |b|
  {
    if b == "" {
      assert a + b == a;
    } else {
      assert (a + b)[..|a + b| - 1] == a + b[..|b| - 1];
      BytesAppend(a, b[..|b| - 1]);
    }
  }

  lemma {:induction false} RenderedSize(es: seq<Entry>)
    ensures Bytes(RenderAll(es)) == TotalSize(Size, es)
    decreases |es|
  {
    if es != [] {
      RenderedSize(es[..|es| - 1]);
      BytesAppend(RenderAll(es[..|es| - 1]), RenderEntry(es[|es| - 1]));
    }
  }

  // The text without the newlines at its end.
  predicate Body(s: string, b: string) {
    && |b| <= |s| && b == s[..|b|] && (b != "" ==> b[|b| - 1] != '\n')
    && forall k :: |b| <= k < |s| ==> s[k] == '\n'
  }

  // The entry as it is read in a prompt.
  ghost predicate Reads(e: Entry, s: string) {
    exists b :: Body(e.body, b) && s == "\n### [" + e.category + "] " + e.title + "\n" + b + "\n"
  }

  lemma EntryReads(e: Entry)
    ensures Reads(e, RenderEntry(e))
  {
    var newline := (c: char) => c == '\n';
    var b := TrimEnd(newline, e.body);
    TrimEndExactly(newline, e.body);
    forall k | |b| <= k < |e.body| ensures e.body[k] == '\n' {
      assert e.body[k] in e.body[|b|..];
    }
    assert Body(e.body, b);
  }

  lemma {:induction false} RenderPrefix(es: seq<Entry>, i: nat)
    requires i <= |es|
    ensures RenderAll(es[..i]) <= RenderAll(es)
    decreases |es|
  {
    if i < |es| {
      assert es[..|es| - 1][..i] == es[..i];
      RenderPrefix(es[..|es| - 1], i);
    } else {
      assert es[..i] == es;
    }
  }

  /** Every selected entry is read in the prompt, in order: behind the heading and the entries before it. */
  lemma EntriesAreRead(es: seq<Entry>, i: nat)
    requires i < |es|
    ensures exists s :: Reads(es[i], s) && "## Knowledge\n" + RenderAll(es[..i]) + s <= RenderContext(es)
  {
    EntryReads(es[i]);
    RenderPrefix(es, i + 1);
    assert es[..i + 1][..i] == es[..i];
    assert HEADER + RenderAll(es[..i]) + RenderEntry(es[i]) == HEADER + RenderAll(es[..i + 1]);
  }

  /** The rendered slice is the entries plus its heading, which the byte budget does not count: it stays
      within the budget exactly when the entries leave room for the heading. */
  lemma RenderedBudget(sel: Selector, out: seq<Entry>)
    requires out != []
    ensures Bytes(RenderContext(out)) == Bytes(HEADER) + TotalSize(Size, out)
    ensures Bytes(RenderContext(out)) <= sel.maxBytes <==> TotalSize(Size, out) <= sel.maxBytes - Bytes(HEADER)
    ensures Fits(sel, Size, out) && sel.maxBytes > 0 ==> Bytes(RenderContext(out)) <= sel.maxBytes + Bytes(HEADER)
  {
    RenderedSize(out);
    BytesAppend(HEADER, RenderAll(out));
  }

  /** A proposal never reaches a prompt until a human names its status: not after any sequence of
      operations without one. */
  lemma DraftsNeverSelected(cs: Chars, sel: Selector, log: Log, ops: seq<Timed>, id: string, all: seq<Entry>, out: seq<Entry>)
    requires Consistent(log) && Current(log, id).Some? && Current(log, id).value.status == DRAFT
    requires forall i :: 0 <= i < |ops| ==> !SetsStatus(ops[i].op, id)
    requires !sel.includeNonActive && out <= Ranked(cs, sel, all)
    requires forall e :: e in all ==> Current(Final(log, ops), e.id) == Some(e)
    ensures forall e :: e in out ==> e.id != id
  {
    DraftStays(log, ops, id);
    RankedExactly(cs, sel, all, out);
  }
}
