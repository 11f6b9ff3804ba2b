/** Trimming and splitting, with the caller's notion of white space and of words. */
module Text {
  function TrimStart(space: char -> bool, s: string): string {
    if s != "" && space(s[0]) then TrimStart(space, s[1..]) else s
  }

  function TrimEnd(space: char -> bool, s: string): string {
    if s != "" && space(s[|s| - 1]) then TrimEnd(space, s[..|s| - 1]) else s
  }

  function Trim(space: char -> bool, s: string): string {
    TrimEnd(space, TrimStart(space, s))
  }

  predicate Blank(space: char -> bool, s: string) {
    forall c :: c in s ==> space(c)
  }

  // Neither end is white space.
  predicate Tight(space: char -> bool, s: string) {
    s != "" ==> !space(s[0]) && !space(s[|s| - 1])
  }

  lemma {:induction false} TrimStartExactly(space: char -> bool, s: string)
    ensures var r := TrimStart(space, s);
            |r| <= |s| && r == s[|s| - |r|..] && Blank(space, s[..|s| - |r|]) && (r != "" ==> !space(r[0]))
    decreases |s|
  {
    if s != "" && space(s[0]) {
      TrimStartExactly(space, s[1..]);
      var n := |s| - |TrimStart(space, s)|;
      assert s[..n] == [s[0]] + s[1..][..n - 1];
    }
  }

  lemma {:induction false} TrimEndExactly(space: char -> bool, s: string)
    ensures var r := TrimEnd(space, s);
            |r| <= |s| && r == s[..|r|] && Blank(space, s[|r|..]) && (r != "" ==> !space(r[|r| - 1]))
    decreases |s|
  {
    if s != "" && space(s[|s| - 1]) {
      var init, n := s[..|s| - 1], |TrimEnd(space, s)|;
      TrimEndExactly(space, init);
      assert s[n..] == init[n..] + [s[|s| - 1]];
    }
  }

  // `r` is the text from `i` on, with nothing but white space around it.
  predicate Inside(space: char -> bool, s: string, i: int, r: string) {
    0 <= i <= i + |r| <= |s| && r == s[i..i + |r|] && forall k :: 0 <= k < |s| && !(i <= k < i + |r|) ==> space(s[k])
  }

  lemma OneTrimming(space: char -> bool, s: string, i: int, q: string, j: int, r: string)
    requires Inside(space, s, i, q) && Tight(space, q) && Inside(space, s, j, r) && Tight(space, r) && r != ""
    ensures q == r
  {
    var n, m := i + |q|, j + |r|;
    assert !space(s[j]) && !space(s[m - 1]);
    assert i <= j && m <= n;
    assert !space(s[i]) && !space(s[n - 1]);
  }

  /** Trimming cuts white space off both ends, all of it, and nothing else. */
  lemma TrimExactly(space: char -> bool, s: string, r: string)
    ensures r == Trim(space, s) <==> Tight(space, r) && exists i :: Inside(space, s, i, r)
  {
    var t, q := TrimStart(space, s), Trim(space, s);
    TrimStartExactly(space, s);
    TrimEndExactly(space, t);
    var i := |s| - |t|;
    forall k | 0 <= k < |s| && !(i <= k < i + |q|) ensures space(s[k]) {
      assert if k < i then s[k] in s[..i] else s[k] == t[k - i] && t[k - i] in t[|q|..];
    }
    assert Inside(space, s, i, q);
    if j :| Tight(space, r) && Inside(space, s, j, r) {
      if r != "" { OneTrimming(space, s, i, q, j, r); }
      else if q != "" { OneTrimming(space, s, j, r, i, q); }
    }
  }

  lemma BlankTrimmed(space: char -> bool, s: string)
    ensures Trim(space, s) == "" <==> Blank(space, s)
  {
    var r := Trim(space, s);
    TrimExactly(space, s, r);
    var i :| Inside(space, s, i, r);
    assert r != "" ==> r[0] == s[i];
    assert Blank(space, s) <==> forall k :: 0 <= k < |s| ==> space(s[k]);
  }

  // The maximal runs of word characters, after `word`, the one being read.
  function Fields(isWord: char -> bool, s: string, word: string): seq<string>
    decreases |s|
  {
    var done := if word == "" then [] else [word];
    if s == "" then done
    else if isWord(s[0]) then Fields(isWord, s[1..], word + [s[0]])
    else done + Fields(isWord, s[1..], "")
  }

  // A run of word characters that no word character adjoins.
  predicate WholeWord(isWord: char -> bool, s: string, i: int, j: int) {
    && 0 <= i < j <= |s| && (forall k :: i <= k < j ==> isWord(s[k]))
    && (i > 0 ==> !isWord(s[i - 1])) && (j < |s| ==> !isWord(s[j]))
  }

  ghost predicate IsField(isWord: char -> bool, s: string, t: string) {
    exists i, j :: WholeWord(isWord, s, i, j) && t == s[i..j]
  }

  // A word lies before the first gap, as a whole, or behind it.
  lemma BesideGap(isWord: char -> bool, s: string, n: int, i: int, j: int)
    requires 0 <= n < |s| && !isWord(s[n]) && (forall k :: 0 <= k < n ==> isWord(s[k])) && WholeWord(isWord, s, i, j)
    ensures i > n || (i == 0 && j == n)
  {
  }

  lemma BehindGap(isWord: char -> bool, s: string, n: int, i: int, j: int)
    requires 0 <= n < |s| && !isWord(s[n]) && n < i
    ensures WholeWord(isWord, s, i, j) <==> WholeWord(isWord, s[n + 1..], i - n - 1, j - n - 1)
    ensures i <= j <= |s| ==> s[i..j] == s[n + 1..][i - n - 1..j - n - 1]
  {
    var u := s[n + 1..];
    assert forall k :: 0 <= k < |u| ==> u[k] == s[k + n + 1];
    if WholeWord(isWord, u, i - n - 1, j - n - 1) {
      forall k | i <= k < j ensures isWord(s[k]) { assert isWord(u[k - n - 1]); }
    }
  }

  // Behind the first gap, the text can be read on its own.
  lemma AfterGap(isWord: char -> bool, s: string, n: nat, t: string)
    requires n < |s| && !isWord(s[n]) && forall k :: 0 <= k < n ==> isWord(s[k])
    ensures IsField(isWord, s, t) <==> (n > 0 && t == s[..n]) || IsField(isWord, s[n + 1..], t)
  {
    if i, j :| WholeWord(isWord, s, i, j) && t == s[i..j] {
      BesideGap(isWord, s, n, i, j);
      if i > n { BehindGap(isWord, s, n, i, j); }
    }
    if n > 0 && t == s[..n] { assert WholeWord(isWord, s, 0, n) && t == s[0..n]; }
    var u := s[n + 1..];
    if i, j :| WholeWord(isWord, u, i, j) && t == u[i..j] {
      BehindGap(isWord, s, n, i + n + 1, j + n + 1);
    }
  }

  /** Splitting finds exactly the whole words. */
  lemma {:induction false} FieldsExactly(isWord: char -> bool, s: string, word: string, t: string)
    requires forall k :: 0 <= k < |word| ==> isWord(word[k])
    ensures t in Fields(isWord, s, word) <==> IsField(isWord, word + s, t)
    decreases |s|
  {
    var all, n := word + s, |word|;
    if s == "" {
      assert all == word;
      if n > 0 { assert WholeWord(isWord, word, 0, n) && word == word[0..n]; }
      if i, j :| WholeWord(isWord, word, i, j) && t == word[i..j] { assert i == 0 && j == n; }
    } else if isWord(s[0]) {
      FieldsExactly(isWord, s[1..], word + [s[0]], t);
      assert (word + [s[0]]) + s[1..] == all;
    } else {
      FieldsExactly(isWord, s[1..], "", t);
      assert "" + s[1..] == s[1..] == all[n + 1..] && all[..n] == word;
      AfterGap(isWord, all, n, t);
    }
  }

  lemma BeforeGap(isWord: char -> bool, s: string, n: int, i: int, j: int)
    requires 0 <= n < |s| && !isWord(s[n]) && i <= n
    ensures WholeWord(isWord, s, i, j) <==> WholeWord(isWord, s[..n], i, j)
    ensures 0 <= i <= j <= n ==> s[i..j] == s[..n][i..j]
  {
    if WholeWord(isWord, s, i, j) {
      assert j <= n;
      assert forall k :: 0 <= k < n ==> s[..n][k] == s[k];
    }
  }

  lemma BesidesGap(isWord: char -> bool, s: string, n: int, t: string)
    requires 0 <= n < |s| && !isWord(s[n])
    ensures IsField(isWord, s, t) <==> IsField(isWord, s[..n], t) || IsField(isWord, s[n + 1..], t)
  {
    var a, b := s[..n], s[n + 1..];
    if i, j :| WholeWord(isWord, s, i, j) && t == s[i..j] {
      if i > n { BehindGap(isWord, s, n, i, j); } else { BeforeGap(isWord, s, n, i, j); }
    }
    if i, j :| WholeWord(isWord, a, i, j) && t == a[i..j] { BeforeGap(isWord, s, n, i, j); }
    if i, j :| WholeWord(isWord, b, i, j) && t == b[i..j] { BehindGap(isWord, s, n, i + n + 1, j + n + 1); }
  }

  /** A word of two texts with a gap between them is a word of one of them. */
  lemma GapSplits(isWord: char -> bool, a: string, gap: string, b: string, t: string)
    requires |gap| == 1 && !isWord(gap[0])
    ensures IsField(isWord, a + gap + b, t) <==> IsField(isWord, a, t) || IsField(isWord, b, t)
  {
    var s, n := a + gap + b, |a|;
    assert s[..n] == a && s[n + 1..] == b && s[n] == gap[0];
    BesidesGap(isWord, s, n, t);
  }
}
