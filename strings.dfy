/**
 * The few Python `str` primitives the core relies on, stated over `seq<char>`:
 * `isspace`, `strip`, `split(sep)`, `sep.join(parts)`, `split()` on whitespace,
 * code-point ordering of strings, and `sorted` of a set of strings.
 */
module Strings {

  /** `c.isspace()`: the characters Python's `str.strip()` and `str.split()` treat as whitespace. */
  predicate IsSpace(c: char) {
    var n := c as int;
    n == 0x20 || 0x09 <= n <= 0x0D || 0x1C <= n <= 0x1F || n == 0x85 || n == 0xA0 ||
    n == 0x1680 || 0x2000 <= n <= 0x200A || n == 0x2028 || n == 0x2029 ||
    n == 0x202F || n == 0x205F || n == 0x3000
  }

  /** A string with no leading and no trailing whitespace. */
  predicate IsStripped(s: string) {
    s == [] || (!IsSpace(s[0]) && !IsSpace(s[|s| - 1]))
  }

  predicate HasNoSpace(s: string) {
    forall i :: 0 <= i < |s| ==> !IsSpace(s[i])
  }

  /** A string made of whitespace only. */
  predicate AllSpace(s: string) {
    forall i :: 0 <= i < |s| ==> IsSpace(s[i])
  }

  /** The number of whitespace characters `s.lstrip()` drops: the run of whitespace at the start. */
  function LeadingSpace(s: string): (n: nat)
    ensures n <= |s| && AllSpace(s[..n])
    ensures n < |s| ==> !IsSpace(s[n])
  {
    if s != [] && IsSpace(s[0]) then
      var n := 1 + LeadingSpace(s[1..]);
      assert s[..n] == [s[0]] + s[1..][..n - 1];
      n
    else 0
  }

  /** The number of whitespace characters `s.rstrip()` drops: the run of whitespace at the end. */
  function TrailingSpace(s: string): (n: nat)
    ensures n <= |s| && AllSpace(s[|s| - n..])
    ensures n < |s| ==> !IsSpace(s[|s| - n - 1])
  {
    if s != [] && IsSpace(s[|s| - 1]) then
      var u := s[..|s| - 1];
      var m := TrailingSpace(u);
      var t := s[|s| - (m + 1)..];
      assert AllSpace(t) by {
        forall i | 0 <= i < |t| ensures IsSpace(t[i]) {
          if i < m {
            assert t[i] == u[|u| - m..][i];
          }
        }
      }
      assert m + 1 < |s| ==> s[|s| - (m + 1) - 1] == u[|u| - m - 1];
      m + 1
    else 0
  }

  /** `s.strip()`: the piece of `s` left once its leading and trailing whitespace is dropped.
      That piece is contiguous, the characters around it are all whitespace, and it neither starts
      nor ends with whitespace; so it is `s` itself when `s` has no surrounding whitespace. */
  function Strip(s: string): (r: string)
    ensures IsStripped(r)
    ensures exists a: nat :: a + |r| <= |s| && r == s[a..a + |r|] && AllSpace(s[..a]) && AllSpace(s[a + |r|..])
    ensures IsStripped(s) ==> r == s
  {
    var a := LeadingSpace(s);
    if a == |s| then
      assert s[|s|..] == [] && s[|s|..|s|] == [];
      []
    else
      var t := TrailingSpace(s);
      assert a < |s| - t;
      s[a..|s| - t]
  }

  /** `s.split(sep)` for a one-character separator: never empty, and no piece holds `sep`. */
  function Split(s: string, sep: char): (r: seq<string>)
    ensures |r| >= 1
    ensures forall i :: 0 <= i < |r| ==> sep !in r[i]
  {
    if s == [] then [[]]
    else
      var rest := Split(s[1..], sep);
      if s[0] == sep then [[]] + rest
      else [[s[0]] + rest[0]] + rest[1..]
  }

  /** `sep.join(parts)`. */
  function Join(sep: string, parts: seq<string>): string {
    if |parts| == 0 then []
    else if |parts| == 1 then parts[0]
    else parts[0] + sep + Join(sep, parts[1..])
  }

  /** Joining the pieces of a split gives back the original string. */
  lemma {:induction false} JoinSplit(s: string, sep: char)
    ensures Join([sep], Split(s, sep)) == s
  {
    if s != [] {
      var rest := Split(s[1..], sep);
      JoinSplit(s[1..], sep);
      if s[0] == sep {
        assert Split(s, sep) == [[]] + rest;
      } else {
        assert Split(s, sep) == [[s[0]] + rest[0]] + rest[1..];
        if |rest| > 1 {
          assert rest == [rest[0]] + rest[1..];
        }
      }
    }
  }

  lemma {:induction false} SplitPiece(p: string, sep: char, rest: string)
    requires sep !in p
    ensures Split(p, sep) == [p]
    ensures Split(p + [sep] + rest, sep) == [p] + Split(rest, sep)
  {
    if p != [] {
      assert (p + [sep] + rest)[1..] == p[1..] + [sep] + rest;
      SplitPiece(p[1..], sep, rest);
      assert p == [p[0]] + p[1..];
    } else {
      assert p + [sep] + rest == [sep] + rest;
    }
  }

  /** Splitting a join of separator-free pieces gives back the pieces. */
  lemma {:induction false} SplitJoin(parts: seq<string>, sep: char)
    requires |parts| >= 1
    requires forall i :: 0 <= i < |parts| ==> sep !in parts[i]
    ensures Split(Join([sep], parts), sep) == parts
  {
    if |parts| == 1 {
      SplitPiece(parts[0], sep, []);
    } else {
      SplitJoin(parts[1..], sep);
      SplitPiece(parts[0], sep, Join([sep], parts[1..]));
      assert [parts[0]] + parts[1..] == parts;
    }
  }

  /** Length of the leading run of non-whitespace characters. */
  function WordLength(s: string): (n: nat)
    ensures n <= |s|
    ensures HasNoSpace(s[..n])
    ensures n < |s| ==> IsSpace(s[n])
  {
    if s == [] || IsSpace(s[0]) then 0
    else
      var n := 1 + WordLength(s[1..]);
      assert s[..n] == [s[0]] + s[1..][..n - 1];
      n
  }

  /** `s.split()`: the maximal runs of non-whitespace characters, in order. */
  function Words(s: string): (r: seq<string>)
    ensures forall i :: 0 <= i < |r| ==> r[i] != [] && HasNoSpace(r[i])
  {
    if s == [] then []
    else if IsSpace(s[0]) then Words(s[1..])
    else
      var n := WordLength(s);
      [s[..n]] + Words(s[n..])
  }

  lemma {:induction false} WordLengthOfWord(w: string, rest: string)
    requires HasNoSpace(w)
    requires rest == [] || IsSpace(rest[0])
    ensures WordLength(w + rest) == |w|
  {
    if w != [] {
      assert (w + rest)[1..] == w[1..] + rest;
      WordLengthOfWord(w[1..], rest);
    }
  }

  lemma WordsOfWord(w: string, rest: string)
    requires w != [] && HasNoSpace(w)
    requires rest == [] || IsSpace(rest[0])
    ensures Words(w + rest) == [w] + Words(rest)
  {
    var s := w + rest;
    WordLengthOfWord(w, rest);
    assert s[..|w|] == w && s[|w|..] == rest;
  }

  /** `" ".join(words).split()` gives the words back when each is non-empty and has no whitespace. */
  lemma {:induction false} WordsJoin(words: seq<string>)
    requires forall i :: 0 <= i < |words| ==> words[i] != [] && HasNoSpace(words[i])
    ensures Words(Join(" ", words)) == words
  {
    if |words| == 1 {
      WordsOfWord(words[0], []);
      assert words[0] + [] == words[0];
    } else if |words| > 1 {
      var rest := Join(" ", words[1..]);
      WordsJoin(words[1..]);
      assert Words(" " + rest) == Words(rest);
      WordsOfWord(words[0], " " + rest);
      assert words[0] + " " + rest == words[0] + (" " + rest);
      assert [words[0]] + words[1..] == words;
    }
  }

  /** Whitespace in front of a text does not change its words. */
  lemma {:induction false} WordsOfSpace(sp: string, rest: string)
    requires AllSpace(sp)
    ensures Words(sp + rest) == Words(rest)
  {
    if sp != [] {
      var s := sp + rest;
      assert s[0] == sp[0] && IsSpace(s[0]);
      assert Words(s) == Words(s[1..]);
      assert s[1..] == sp[1..] + rest;
      assert AllSpace(sp[1..]) by {
        forall i | 0 <= i < |sp[1..]|
          ensures IsSpace(sp[1..][i])
        {
          assert sp[1..][i] == sp[i + 1];
        }
      }
      WordsOfSpace(sp[1..], rest);
    } else {
      assert sp + rest == rest;
    }
  }

  /** String concatenation is associative; stated apart so that no other facts are in scope. */
  lemma ConcatAssoc(a: string, b: string, c: string)
    ensures a + b + c == a + (b + c)
  {
  }

  /** `(sep.join(words) + trail).split()` gives the words back. */
  lemma {:induction false} WordsJoinTrail(words: seq<string>, sep: string, trail: string)
    requires forall i :: 0 <= i < |words| ==> words[i] != [] && HasNoSpace(words[i])
    requires sep != [] && AllSpace(sep) && AllSpace(trail)
    ensures Words(Join(sep, words) + trail) == words
  {
    if |words| == 0 {
      WordsOfSpace(trail, []);
      assert [] + trail == trail + [];
    } else if |words| == 1 {
      WordsOfSpace(trail, []);
      assert trail + [] == trail;
      assert trail == [] || IsSpace(trail[0]);
      WordsOfWord(words[0], trail);
    } else {
      var tail := words[1..];
      var rest := Join(sep, tail) + trail;
      WordsJoinTrail(tail, sep, trail);
      WordsOfSpace(sep, rest);
      var after := sep + rest;
      assert after[0] == sep[0];
      WordsOfWord(words[0], after);
      assert Join(sep, words) == words[0] + sep + Join(sep, tail);
      ConcatAssoc(words[0] + sep, Join(sep, tail), trail);
      ConcatAssoc(words[0], sep, rest);
      assert Join(sep, words) + trail == words[0] + after;
      assert [words[0]] + tail == words;
    }
  }

  /** `(lead + sep.join(words) + trail).split()` gives the words back for any non-empty whitespace
      separator and any surrounding whitespace, such as one name per line. */
  lemma WordsJoinWith(words: seq<string>, sep: string, lead: string, trail: string)
    requires forall i :: 0 <= i < |words| ==> words[i] != [] && HasNoSpace(words[i])
    requires sep != [] && AllSpace(sep) && AllSpace(lead) && AllSpace(trail)
    ensures Words(lead + Join(sep, words) + trail) == words
  {
    var body := Join(sep, words);
    var tail := body + trail;
    WordsJoinTrail(words, sep, trail);
    WordsOfSpace(lead, tail);
    ConcatAssoc(lead, body, trail);
  }

  /** Python's `a <= b` on strings: lexicographic by code point. */
  predicate LessEq(a: string, b: string) {
    a == [] || (b != [] && (a[0] < b[0] || (a[0] == b[0] && LessEq(a[1..], b[1..]))))
  }

  predicate Less(a: string, b: string) {
    LessEq(a, b) && a != b
  }

  lemma {:induction false} LessEqTotal(a: string, b: string)
    ensures LessEq(a, b) || LessEq(b, a)
  {
    if a != [] && b != [] && a[0] == b[0] {
      LessEqTotal(a[1..], b[1..]);
    }
  }

  lemma {:induction false} LessEqAntisymmetric(a: string, b: string)
    requires LessEq(a, b) && LessEq(b, a)
    ensures a == b
  {
    if a != [] && b != [] {
      LessEqAntisymmetric(a[1..], b[1..]);
      assert a == [a[0]] + a[1..] && b == [b[0]] + b[1..];
    }
  }

  lemma {:induction false} LessEqTransitive(a: string, b: string, c: string)
    requires LessEq(a, b) && LessEq(b, c)
    ensures LessEq(a, c)
  {
    if a != [] && b != [] && c != [] && a[0] == b[0] == c[0] {
      LessEqTransitive(a[1..], b[1..], c[1..]);
    }
  }

  lemma LessTransitive(a: string, b: string, c: string)
    requires Less(a, b) && Less(b, c)
    ensures Less(a, c)
  {
    LessEqTransitive(a, b, c);
    if a == c {
      LessEqAntisymmetric(a, b);
    }
  }

  /** Strictly increasing, hence also free of duplicates. */
  predicate StrictlySorted(s: seq<string>) {
    forall i, j :: 0 <= i < j < |s| ==> Less(s[i], s[j])
  }

  /** Inserts `x` at its place in a strictly sorted sequence. */
  function InsertSorted(x: string, s: seq<string>): (r: seq<string>)
    requires StrictlySorted(s) && x !in s
    ensures StrictlySorted(r)
    ensures |r| == |s| + 1
    ensures forall y :: y in r <==> y == x || y in s
  {
    if s == [] then [x]
    else if Less(x, s[0]) then
      assert forall j :: 0 <= j < |s| ==> Less(x, s[j]) by {
        forall j | 0 < j < |s| ensures Less(x, s[j]) {
          LessTransitive(x, s[0], s[j]);
        }
      }
      [x] + s
    else
      LessEqTotal(x, s[0]);
      var t := InsertSorted(x, s[1..]);
      assert forall y :: y in s[1..] ==> Less(s[0], y);
      [s[0]] + t
  }

  /** `sorted(xs)` for a set of strings: every element once, in increasing order. */
  method SortedStrings(xs: set<string>) returns (r: seq<string>)
    ensures StrictlySorted(r)
    ensures |r| == |xs|
    ensures forall y :: y in r <==> y in xs
  {
    r := [];
    var todo := xs;
    while todo != {}
      invariant StrictlySorted(r)
      invariant todo <= xs
      invariant forall y :: y in r <==> y in xs - todo
      invariant |r| == |xs - todo|
      decreases |todo|
    {
      var x :| x in todo;
      r := InsertSorted(x, r);
      assert xs - (todo - {x}) == (xs - todo) + {x};
      todo := todo - {x};
    }
  }

  /** `list(xs)`: every element of a set once, in some order. */
  method ListOf<T>(xs: set<T>) returns (r: seq<T>)
    ensures |r| == |xs|
    ensures forall y :: y in r <==> y in xs
    ensures forall i, j :: 0 <= i < j < |r| ==> r[i] != r[j]
  {
    r := [];
    var todo := xs;
    while todo != {}
      invariant todo <= xs
      invariant forall y :: y in r <==> y in xs - todo
      invariant forall i, j :: 0 <= i < j < |r| ==> r[i] != r[j]
      invariant |r| == |xs - todo|
      decreases |todo|
    {
      var x :| x in todo;
      assert xs - (todo - {x}) == (xs - todo) + {x};
      r := r + [x];
      todo := todo - {x};
    }
  }

  /** Python's `pat in s` on strings: `pat` occurs as a contiguous piece of `s`. */
  predicate Contains(s: string, pat: string)
    decreases |s|
  {
    |pat| <= |s| && (s[..|pat|] == pat || Contains(s[1..], pat))
  }

  /** `Contains` agrees with "some slice of `s` equals `pat`". */
  lemma {:induction false} ContainsSlice(s: string, pat: string, i: nat)
    requires i + |pat| <= |s| && s[i..i + |pat|] == pat
    ensures Contains(s, pat)
    decreases i
  {
    if i > 0 {
      assert s[1..][i - 1..i - 1 + |pat|] == s[i..i + |pat|];
      ContainsSlice(s[1..], pat, i - 1);
    }
  }
}
