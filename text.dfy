/** String helpers shared by the hint derivation: the space-joined lists the
    Go loops build with a `sp` separator, first-seen deduplication, and the two
    ways of reading a hint text back (into words and into lines). */
module Text {

  /** The delimiters of the hint grammar: a space and the two parentheses. */
  predicate IsDelim(c: char) {
    c == ' ' || c == '(' || c == ')'
  }

  /** A name that reads back as exactly one word on one line. */
  predicate IsPlain(s: string) {
    |s| > 0 && forall i :: 0 <= i < |s| ==> !IsDelim(s[i]) && s[i] != '\n'
  }

  predicate AllPlain(xs: seq<string>) {
    forall i :: 0 <= i < |xs| ==> IsPlain(xs[i])
  }

  /** The items joined by single spaces: the first one as it is, every later
      one preceded by one space. */
  function Spaced(xs: seq<string>): string
  {
    if |xs| == 0 then ""
    else if |xs| == 1 then xs[0]
    else Spaced(xs[..|xs| - 1]) + " " + xs[|xs| - 1]
  }

  /** Joining one more item adds a space, unless it is the first, and the
      item. */
  lemma SpacedStep(xs: seq<string>, i: nat)
    requires i < |xs|
    ensures Spaced(xs[..i + 1]) == Spaced(xs[..i]) + (if i == 0 then "" else " ") + xs[i]
  {
    assert xs[..i + 1][..i] == xs[..i];
    if i == 0 {
      assert xs[..1] == [xs[0]];
    }
  }

  /** A non-empty joined list ends with the last character of its last item. */
  lemma SpacedLastChar(xs: seq<string>)
    requires |xs| > 0 && |xs[|xs| - 1]| > 0
    ensures |Spaced(xs)| > 0
    ensures Spaced(xs)[|Spaced(xs)| - 1] == xs[|xs| - 1][|xs[|xs| - 1]| - 1]
  {
  }

  lemma ConcatAssoc<T>(a: seq<T>, b: seq<T>, c: seq<T>)
    ensures a + b + c == a + (b + c)
  {
  }

  // ---------------------------------------------------------------------------
  // First-seen deduplication

  /** The items of `s` with every repeat of an item seen earlier dropped. */
  function Dedup(s: seq<string>): (r: seq<string>)
    ensures |r| <= |s|
    ensures forall x :: x in r <==> x in s
  {
    if s == [] then []
    else
      var d := Dedup(s[..|s| - 1]);
      if s[|s| - 1] in s[..|s| - 1] then d else d + [s[|s| - 1]]
  }

  /** Deduplicating one more item keeps it exactly when it was not seen
      before. */
  lemma DedupStep(s: seq<string>, i: nat)
    requires i < |s|
    ensures Dedup(s[..i + 1]) == if s[i] in s[..i] then Dedup(s[..i]) else Dedup(s[..i]) + [s[i]]
  {
    assert s[..i + 1][..i] == s[..i];
  }

  /** Where `x` first occurs in `s`. */
  function FirstIndex(s: seq<string>, x: string): (k: nat)
    requires x in s
    ensures k < |s| && s[k] == x
    ensures forall j :: 0 <= j < k ==> s[j] != x
  {
    if s[0] == x then 0 else 1 + FirstIndex(s[1..], x)
  }

  lemma {:induction false} FirstIndexAppend(s: seq<string>, x: string, y: string)
    requires y in s + [x]
    ensures y in s ==> FirstIndex(s + [x], y) == FirstIndex(s, y)
    ensures y !in s ==> FirstIndex(s + [x], y) == |s|
  {
    var k := FirstIndex(s + [x], y);
    if y in s {
      var k' := FirstIndex(s, y);
      assert (s + [x])[k'] == y;
    }
  }

  /** No name occurs twice in the deduplicated list. */
  lemma {:induction false} DedupDistinct(s: seq<string>)
    ensures forall i, j :: 0 <= i < j < |Dedup(s)| ==> Dedup(s)[i] != Dedup(s)[j]
  {
    if s != [] {
      DedupDistinct(s[..|s| - 1]);
    }
  }

  /** The deduplicated list keeps the order in which names are first seen. */
  lemma {:induction false} DedupFirstSeenOrder(s: seq<string>)
    ensures forall i, j :: 0 <= i < j < |Dedup(s)| ==>
      FirstIndex(s, Dedup(s)[i]) < FirstIndex(s, Dedup(s)[j])
  {
    if s != [] {
      var init, x := s[..|s| - 1], s[|s| - 1];
      assert s == init + [x];
      DedupFirstSeenOrder(init);
      var d, r := Dedup(init), Dedup(s);
      forall i, j | 0 <= i < j < |r|
        ensures FirstIndex(s, r[i]) < FirstIndex(s, r[j])
      {
        assert r[i] in d;
        FirstIndexAppend(init, x, r[i]);
        FirstIndexAppend(init, x, r[j]);
        if j < |d| {
          assert r[i] == d[i] && r[j] == d[j];
        } else {
          assert r[j] == x && x !in init;
        }
      }
    }
  }

  // ---------------------------------------------------------------------------
  // Reading a hint back as words

  /** Length of the longest prefix of `s` free of delimiters. */
  function WordLen(s: string): (k: nat)
    ensures k <= |s|
    ensures forall i :: 0 <= i < k ==> !IsDelim(s[i])
    ensures k < |s| ==> IsDelim(s[k])
  {
    if s == [] || IsDelim(s[0]) then 0 else 1 + WordLen(s[1..])
  }

  /** WordLen is the only length with its three properties. */
  lemma WordLenUnique(s: string, k: nat)
    requires k <= |s|
    requires forall i :: 0 <= i < k ==> !IsDelim(s[i])
    requires k < |s| ==> IsDelim(s[k])
    ensures WordLen(s) == k
  {
  }

  /** The maximal delimiter-free pieces of `s`, in order. */
  function Words(s: string): seq<string>
    decreases |s|
  {
    if s == [] then []
    else if IsDelim(s[0]) then Words(s[1..])
    else
      var k := WordLen(s);
      [s[..k]] + Words(s[k..])
  }

  /** A word that starts `a` is also the first word of `a + c` when `c`
      begins with a delimiter. */
  lemma WordLenBeforeDelim(a: string, c: string)
    requires c != [] && IsDelim(c[0])
    ensures WordLen(a + c) == WordLen(a)
  {
    var s, k := a + c, WordLen(a);
    assert forall i :: 0 <= i < k ==> s[i] == a[i];
    assert k < |s| && s[k] == (if k < |a| then a[k] else c[0]);
    WordLenUnique(s, k);
  }

  /** A delimiter separates the words on its left from those on its right. */
  lemma {:induction false} WordsAround(a: string, d: char, b: string)
    requires IsDelim(d)
    ensures Words(a + [d] + b) == Words(a) + Words(b)
    decreases |a|
  {
    var s := a + [d] + b;
    if a == [] {
      assert s[1..] == b;
    } else if IsDelim(a[0]) {
      assert s[1..] == a[1..] + [d] + b;
      WordsAround(a[1..], d, b);
    } else {
      var k := WordLen(a);
      WordLenBeforeDelim(a, [d] + b);
      assert s == a + ([d] + b);
      assert s[..k] == a[..k];
      assert s[k..] == a[k..] + [d] + b;
      WordsAround(a[k..], d, b);
    }
  }

  /** A parenthesised piece adds no words of its own. */
  lemma WordsBracketed(a: string, x: string)
    ensures Words(a + "(" + x + ")") == Words(a) + Words(x)
  {
    ConcatAssoc(a + "(", x, ")");
    assert "(" == ['('] && ")" == [')'];
    assert x + ")" == x + [')'] + [];
    WordsAround(a, '(', x + ")");
    WordsAround(x, ')', []);
  }

  lemma WordsOfPlain(w: string)
    requires IsPlain(w)
    ensures Words(w) == [w]
  {
    assert WordLen(w) == |w|;
    assert w[..|w|] == w;
  }

  /** Joining plain names with spaces and reading the words back gives the names. */
  lemma {:induction false} SpacedWords(xs: seq<string>)
    requires AllPlain(xs)
    ensures Words(Spaced(xs)) == xs
  {
    if |xs| == 1 {
      WordsOfPlain(xs[0]);
    } else if |xs| > 1 {
      var init := xs[..|xs| - 1];
      SpacedWords(init);
      WordsOfPlain(xs[|xs| - 1]);
      WordsAround(Spaced(init), ' ', xs[|xs| - 1]);
      assert Spaced(init) + " " + xs[|xs| - 1] == Spaced(init) + [' '] + xs[|xs| - 1];
      assert xs == init + [xs[|xs| - 1]];
    }
  }

  // ---------------------------------------------------------------------------
  // Reading a hint back as lines

  /** Each item followed by a newline. */
  function Lines(xs: seq<string>): string
  {
    if xs == [] then "" else Lines(xs[..|xs| - 1]) + xs[|xs| - 1] + "\n"
  }

  lemma {:induction false} LinesAppend(xs: seq<string>, ys: seq<string>)
    ensures Lines(xs + ys) == Lines(xs) + Lines(ys)
  {
    if ys == [] {
      assert xs + ys == xs;
    } else {
      var init, y := ys[..|ys| - 1], ys[|ys| - 1];
      assert (xs + ys)[..|xs + ys| - 1] == xs + init;
      LinesAppend(xs, init);
      ConcatAssoc(Lines(xs), Lines(init), y);
      ConcatAssoc(Lines(xs), Lines(init) + y, "\n");
    }
  }

  predicate NoNewline(s: string) {
    forall i :: 0 <= i < |s| ==> s[i] != '\n'
  }

  predicate AllNoNewline(xs: seq<string>) {
    forall i :: 0 <= i < |xs| ==> NoNewline(xs[i])
  }

  /** Length of the longest prefix of `s` free of newlines. */
  function LineLen(s: string): (k: nat)
    ensures k <= |s|
    ensures forall i :: 0 <= i < k ==> s[i] != '\n'
    ensures k < |s| ==> s[k] == '\n'
  {
    if s == [] || s[0] == '\n' then 0 else 1 + LineLen(s[1..])
  }

  /** LineLen is the only length with its three properties. */
  lemma LineLenUnique(s: string, k: nat)
    requires k <= |s|
    requires forall i :: 0 <= i < k ==> s[i] != '\n'
    requires k < |s| ==> s[k] == '\n'
    ensures LineLen(s) == k
  {
  }

  /** The pieces of `s` between newlines, empty pieces included. */
  function SplitLines(s: string): seq<string>
    decreases |s|
  {
    var k := LineLen(s);
    if k == |s| then [s] else [s[..k]] + SplitLines(s[k + 1..])
  }

  lemma SplitLinesAfter(x: string, rest: string)
    requires NoNewline(x)
    ensures SplitLines(x + "\n" + rest) == [x] + SplitLines(rest)
  {
    var s := x + "\n" + rest;
    LineLenUnique(s, |x|);
    assert s[..|x|] == x;
    assert s[|x| + 1..] == rest;
  }

  /** Splitting text made of whole lines gives back those lines. */
  lemma {:induction false} SplitLinesOfLines(xs: seq<string>, rest: string)
    requires AllNoNewline(xs)
    ensures SplitLines(Lines(xs) + rest) == xs + SplitLines(rest)
  {
    if xs == [] {
      assert Lines(xs) + rest == rest;
    } else {
      var init, x := xs[..|xs| - 1], xs[|xs| - 1];
      var l := Lines(init);
      ConcatAssoc(l + x, "\n", rest);
      ConcatAssoc(l, x, "\n" + rest);
      ConcatAssoc(x, "\n", rest);
      SplitLinesOfLines(init, x + "\n" + rest);
      SplitLinesAfter(x, rest);
      ConcatAssoc(init, [x], SplitLines(rest));
      assert init + [x] == xs;
    }
  }
}
