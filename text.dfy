/**
 * The parts of Python's str that the arena relies on: rstrip(), split() and
 * split(sep), join(), int() and str() on integers, and the ordering of
 * strings that list.sort(key=str) uses.
 */
module Text {
  import opened Wrappers

  type String = seq<char>

  /** Python's str.isspace(): the separators of str.split() and str.rstrip(). */
  predicate IsSpace(c: char) {
    c == ' ' || c == '\t' || c == '\n' || c == '\r' || c == '\U{B}' || c == '\U{C}'
    || ('\U{1C}' <= c <= '\U{1F}') || c == '\U{85}' || c == '\U{A0}' || c == '\U{1680}'
    || ('\U{2000}' <= c <= '\U{200A}') || c == '\U{2028}' || c == '\U{2029}'
    || c == '\U{202F}' || c == '\U{205F}' || c == '\U{3000}'
  }

  predicate Blank(s: String) {
    forall i :: 0 <= i < |s| ==> IsSpace(s[i])
  }

  /** s.rstrip(): the longest prefix of s that does not end in whitespace. */
  function RStrip(s: String): (r: String)
    ensures r <= s
    ensures r == [] || !IsSpace(r[|r| - 1])
    ensures forall i :: |r| <= i < |s| ==> IsSpace(s[i])
  {
    if s != [] && IsSpace(s[|s| - 1]) then RStrip(s[..|s| - 1]) else s
  }

  /** One element of the list str.split() returns: non-empty and free of whitespace. */
  predicate IsWord(w: String) {
    w != [] && forall i :: 0 <= i < |w| ==> !IsSpace(w[i])
  }

  /** The length of the run of non-whitespace characters at the front of s. */
  function WordLen(s: String): (n: nat)
    ensures n <= |s|
    ensures forall i :: 0 <= i < n ==> !IsSpace(s[i])
    ensures n == |s| || IsSpace(s[n])
  {
    if s == [] || IsSpace(s[0]) then 0 else 1 + WordLen(s[1..])
  }

  /** s.split() with no argument: the maximal runs of non-whitespace characters, in order. */
  function Words(s: String): (ws: seq<String>)
    ensures forall w :: w in ws ==> IsWord(w)
    ensures ws == [] <==> Blank(s)
    decreases |s|
  {
    if s == [] then []
    else if IsSpace(s[0]) then
      var ws := Words(s[1..]);
      assert Blank(s) <==> Blank(s[1..]) by {
        assert forall i :: 0 < i < |s| ==> s[i] == s[1..][i - 1];
      }
      ws
    else
      var n := WordLen(s);
      [s[..n]] + Words(s[n..])
  }

  /** sep.join(parts) */
  function Join(parts: seq<String>, sep: String): String {
    if parts == [] then []
    else if |parts| == 1 then parts[0]
    else parts[0] + sep + Join(parts[1..], sep)
  }

  /** s.split(sep) for a one-character separator: the pieces between separators, empty pieces included. */
  function SplitOn(s: String, sep: char): (parts: seq<String>)
    ensures |parts| >= 1
    ensures forall p :: p in parts ==> sep !in p
    ensures Join(parts, [sep]) == s
  {
    if s == [] then [[]]
    else
      var rest := SplitOn(s[1..], sep);
      if s[0] == sep then
        assert ([[]] + rest)[1..] == rest;
        [[]] + rest
      else
        var parts := [[s[0]] + rest[0]] + rest[1..];
        assert parts[1..] == rest[1..];
        assert s == [s[0]] + s[1..];
        parts
  }

  lemma {:induction false} SplitOnWithoutSep(p: String, sep: char)
    requires sep !in p
    ensures SplitOn(p, sep) == [p]
  {
    if p != [] {
      SplitOnWithoutSep(p[1..], sep);
    }
  }

  lemma {:induction false} SplitOnCons(p: String, t: String, sep: char)
    requires sep !in p
    ensures SplitOn(p + [sep] + t, sep) == [p] + SplitOn(t, sep)
  {
    var s := p + [sep] + t;
    if p == [] {
      assert s[1..] == t;
    } else {
      assert s[1..] == p[1..] + [sep] + t;
      SplitOnCons(p[1..], t, sep);
      assert s[0] == p[0] != sep;
      assert [p[0]] + p[1..] == p;
    }
  }

  /** Splitting a join on the same separator gives the pieces back. */
  lemma {:induction false} SplitJoin(parts: seq<String>, sep: char)
    requires |parts| >= 1
    requires forall p :: p in parts ==> sep !in p
    ensures SplitOn(Join(parts, [sep]), sep) == parts
  {
    if |parts| == 1 {
      SplitOnWithoutSep(parts[0], sep);
    } else {
      SplitJoin(parts[1..], sep);
      SplitOnCons(parts[0], Join(parts[1..], [sep]), sep);
    }
  }

  /** Joining two non-empty lists of lines is joining their concatenation. */
  lemma {:induction false} JoinAppend(a: seq<String>, b: seq<String>, sep: String)
    requires a != [] && b != []
    ensures Join(a, sep) + sep + Join(b, sep) == Join(a + b, sep)
  {
    if |a| > 1 {
      JoinAppend(a[1..], b, sep);
      assert (a + b)[1..] == a[1..] + b;
    }
  }

  lemma {:induction false} JoinExcludes(parts: seq<String>, sep: String, c: char)
    requires forall p :: p in parts ==> c !in p
    requires c !in sep
    ensures c !in Join(parts, sep)
  {
    if |parts| > 1 {
      JoinExcludes(parts[1..], sep, c);
    }
  }

  lemma WordLenAtSpace(w: String, t: String)
    requires IsWord(w)
    ensures WordLen(w + " " + t) == |w|
  {
    var s := w + " " + t;
    assert s[|w|] == ' ';
    assert forall i :: 0 <= i < |w| ==> s[i] == w[i];
  }

  lemma WordsOfWord(w: String)
    requires IsWord(w)
    ensures Words(w) == [w]
  {
    assert WordLen(w) == |w|;
    assert w[..|w|] == w;
    assert w[|w|..] == [];
  }

  lemma WordsAfterWord(w: String, t: String)
    requires IsWord(w)
    ensures Words(w + " " + t) == [w] + Words(t)
  {
    var s := w + " " + t;
    WordLenAtSpace(w, t);
    assert s[..|w|] == w;
    assert s[|w|..] == " " + t;
    assert (" " + t)[1..] == t;
  }

  /** Splitting words joined by single spaces gives the words back. */
  lemma {:induction false} WordsJoin(parts: seq<String>)
    requires forall p :: p in parts ==> IsWord(p)
    ensures Words(Join(parts, " ")) == parts
  {
    if |parts| == 1 {
      WordsOfWord(parts[0]);
    } else if |parts| > 1 {
      WordsJoin(parts[1..]);
      WordsAfterWord(parts[0], Join(parts[1..], " "));
    }
  }

  /** Words joined by single spaces, then a space and more text: the words come first. */
  lemma {:induction false} WordsJoinThen(parts: seq<String>, t: String)
    requires parts != [] && forall p :: p in parts ==> IsWord(p)
    ensures Words(Join(parts, " ") + " " + t) == parts + Words(t)
  {
    hide Words;
    var first := parts[0];
    assert IsWord(first);
    if |parts| == 1 {
      WordsAfterWord(first, t);
    } else {
      var tail := parts[1..];
      var rest := Join(tail, " ");
      assert Join(parts, " ") + " " + t == first + " " + (rest + " " + t) by {
        assert Join(parts, " ") == first + " " + rest;
      }
      assert forall p :: p in tail ==> p in parts;
      WordsJoinThen(tail, t);
      WordsAfterWord(first, rest + " " + t);
      assert parts == [first] + tail;
    }
  }

  lemma {:induction false} WordLenBlankSuffix(p: String, q: String)
    requires Blank(q)
    ensures WordLen(p + q) == WordLen(p)
  {
    if p != [] && !IsSpace(p[0]) {
      assert (p + q)[1..] == p[1..] + q;
      WordLenBlankSuffix(p[1..], q);
    } else if p == [] {
      assert p + q == q;
    }
  }

  /** Trailing whitespace does not change the words. */
  lemma {:induction false} WordsBlankSuffix(p: String, q: String)
    requires Blank(q)
    ensures Words(p + q) == Words(p)
    decreases |p|
  {
    if p == [] {
      assert p + q == q;
    } else if IsSpace(p[0]) {
      assert (p + q)[1..] == p[1..] + q;
      WordsBlankSuffix(p[1..], q);
    } else {
      var n := WordLen(p);
      WordLenBlankSuffix(p, q);
      assert (p + q)[..n] == p[..n];
      assert (p + q)[n..] == p[n..] + q;
      WordsBlankSuffix(p[n..], q);
    }
  }

  /** s.rstrip().split() == s.split() */
  lemma WordsRStrip(s: String)
    ensures Words(RStrip(s)) == Words(s)
  {
    var r := RStrip(s);
    var q := s[|r|..];
    assert s == r + q;
    WordsBlankSuffix(r, q);
  }

  // ---------------------------------------------------------------------
  // Integers as text
  // ---------------------------------------------------------------------

  predicate IsDigit(c: char) {
    '0' <= c <= '9'
  }

  predicate AllDigits(s: String) {
    forall i :: 0 <= i < |s| ==> IsDigit(s[i])
  }

  function DigitChar(d: nat): (c: char)
    requires d < 10
    ensures IsDigit(c) && c as int - '0' as int == d
  {
    ('0' as int + d) as char
  }

  /** str(n) for a non-negative integer: its decimal digits, most significant first. */
  function NatToString(n: nat): (s: String)
    ensures s != [] && AllDigits(s)
  {
    if n < 10 then [DigitChar(n)] else NatToString(n / 10) + [DigitChar(n % 10)]
  }

  /** str(i) and "{}".format(i) for an integer. */
  function IntToString(i: int): (s: String)
    ensures s != [] && forall k :: 0 <= k < |s| ==> IsDigit(s[k]) || s[k] == '-'
  {
    if i < 0 then "-" + NatToString(-i) else NatToString(i)
  }

  function DigitsValue(s: String): nat
    requires AllDigits(s)
  {
    if s == [] then 0 else 10 * DigitsValue(s[..|s| - 1]) + (s[|s| - 1] as int - '0' as int)
  }

  /**
   * int(s) on decimal text: an optional sign and at least one ASCII digit.
   * Every other text makes int() raise ValueError, which is None here.
   */
  function ParseInt(s: String): Option<int> {
    if s != [] && (s[0] == '-' || s[0] == '+') then
      if |s| > 1 && AllDigits(s[1..]) then
        var v: int := DigitsValue(s[1..]);
        Some(if s[0] == '-' then -v else v)
      else None
    else if s != [] && AllDigits(s) then Some(DigitsValue(s))
    else None
  }

  lemma {:induction false} DigitsRoundTrip(n: nat)
    ensures DigitsValue(NatToString(n)) == n
  {
    if n >= 10 {
      DigitsRoundTrip(n / 10);
      var s := NatToString(n);
      assert s[..|s| - 1] == NatToString(n / 10);
    }
  }

  /** int(str(i)) == i */
  lemma IntRoundTrip(i: int)
    ensures ParseInt(IntToString(i)) == Some(i)
  {
    var s := IntToString(i);
    if i < 0 {
      DigitsRoundTrip(-i);
      assert s[1..] == NatToString(-i);
    } else {
      DigitsRoundTrip(i);
    }
  }

  lemma IntToStringExcludes(i: int, c: char)
    requires !IsDigit(c) && c != '-'
    ensures c !in IntToString(i)
  {
    var s := IntToString(i);
    assert forall k :: 0 <= k < |s| ==> s[k] != c;
  }

  lemma IntToStringIsWord(i: int)
    ensures IsWord(IntToString(i))
  {
  }

  // ---------------------------------------------------------------------
  // Ordering of strings
  // ---------------------------------------------------------------------

  /** Python's a <= b on str: lexicographic comparison of code points. */
  predicate StrLessEq(a: String, b: String)
    decreases |a|
  {
    if a == [] then true
    else if b == [] then false
    else if a[0] != b[0] then a[0] < b[0]
    else StrLessEq(a[1..], b[1..])
  }

  lemma {:induction false} StrLessEqTotal(a: String, b: String)
    ensures StrLessEq(a, b) || StrLessEq(b, a)
    decreases |a|
  {
    if a != [] && b != [] && a[0] == b[0] {
      StrLessEqTotal(a[1..], b[1..]);
    }
  }

  lemma {:induction false} StrLessEqTrans(a: String, b: String, c: String)
    requires StrLessEq(a, b) && StrLessEq(b, c)
    ensures StrLessEq(a, c)
    decreases |a|
  {
    if a != [] && b != [] && c != [] && a[0] == b[0] && b[0] == c[0] {
      StrLessEqTrans(a[1..], b[1..], c[1..]);
    }
  }

  lemma {:induction false} StrLessEqAntisym(a: String, b: String)
    requires StrLessEq(a, b) && StrLessEq(b, a)
    ensures a == b
    decreases |a|
  {
    if a != [] && b != [] {
      StrLessEqAntisym(a[1..], b[1..]);
      assert a == [a[0]] + a[1..] && b == [b[0]] + b[1..];
    }
  }
}
