/** String operations of JavaScript that the form generator relies on:
    white space as `\s` and `String.prototype.trim` see it, `trim`,
    `replace(/\s+/g, ' ')`, `toLowerCase` as far as equality with ASCII words
    goes, `split(/\r?\n/)`, `join('\n')`, `String(n)` on a natural number and
    `padStart(2, '0')`. */
module Strings {

  /** The characters that JavaScript's `\s` class and `trim` treat as white
      space: the WhiteSpace and LineTerminator productions of ECMAScript. */
  predicate IsSpace(c: char) {
    c == '\t' || c == '\n' || c == '\U{000B}' || c == '\U{000C}' || c == '\r'
    || c == ' ' || c == '\U{00A0}' || c == '\U{1680}'
    || ('\U{2000}' <= c <= '\U{200A}')
    || c == '\U{2028}' || c == '\U{2029}' || c == '\U{202F}' || c == '\U{205F}'
    || c == '\U{3000}' || c == '\U{FEFF}'
  }

  predicate AllSpace(s: string) {
    forall k :: 0 <= k < |s| ==> IsSpace(s[k])
  }

  /** `s` does not start or end with white space. */
  predicate Trimmed(s: string) {
    s == [] || (!IsSpace(s[0]) && !IsSpace(s[|s| - 1]))
  }

  /** The characters of `s` that are not white space, in order. */
  function NonSpace(s: string): string {
    if s == [] then []
    else (if IsSpace(s[0]) then [] else [s[0]]) + NonSpace(s[1..])
  }

  /** The length of the run of white space that starts `s`. */
  function LeadingSpaces(s: string): (n: nat)
    ensures n <= |s|
    ensures forall k :: 0 <= k < n ==> IsSpace(s[k])
    ensures n < |s| ==> !IsSpace(s[n])
  {
    if s != [] && IsSpace(s[0]) then 1 + LeadingSpaces(s[1..]) else 0
  }

  /** The length of the run of white space that ends `s`. */
  function TrailingSpaces(s: string): (n: nat)
    ensures n <= |s|
    ensures forall k :: |s| - n <= k < |s| ==> IsSpace(s[k])
    ensures n < |s| ==> !IsSpace(s[|s| - 1 - n])
  {
    if s != [] && IsSpace(s[|s| - 1]) then 1 + TrailingSpaces(s[..|s| - 1]) else 0
  }

  /** `trimStart`: removes the leading white space. */
  function TrimStart(s: string): string {
    s[LeadingSpaces(s)..]
  }

  /** `trimEnd`: removes the trailing white space. */
  function TrimEnd(s: string): string {
    s[..|s| - TrailingSpaces(s)]
  }

  /** `trim`: removes white space at both ends. */
  function Trim(s: string): (r: string)
    ensures Trimmed(r)
    ensures r == [] <==> AllSpace(s)
  {
    var t := TrimStart(s);
    var r := TrimEnd(t);
    assert t != [] ==> !IsSpace(t[0]);
    assert t != [] ==> r != [] && r[0] == t[0];
    r
  }

  /** The run that `LeadingSpaces` counts is all white space. */
  lemma LeadingRunSpace(s: string)
    ensures AllSpace(s[..LeadingSpaces(s)])
  {
    var p := s[..LeadingSpaces(s)];
    assert forall k :: 0 <= k < |p| ==> p[k] == s[k];
  }

  /** The run that `TrailingSpaces` counts is all white space. */
  lemma TrailingRunSpace(t: string)
    ensures AllSpace(t[|t| - TrailingSpaces(t)..])
  {
    var m := |t| - TrailingSpaces(t);
    var e := t[m..];
    assert forall k :: 0 <= k < |e| ==> e[k] == t[m + k];
  }

  /** `trim` removes white space at the two ends only: what it returns is a
      slice of the string with nothing but white space before and after it. */
  lemma TrimSlice(s: string)
    ensures LeadingSpaces(s) + |Trim(s)| <= |s|
    ensures Trim(s) == s[LeadingSpaces(s)..LeadingSpaces(s) + |Trim(s)|]
    ensures AllSpace(s[..LeadingSpaces(s)]) && AllSpace(s[LeadingSpaces(s) + |Trim(s)|..])
  {
    TrimMiddle(s);
    LeadingRunSpace(s);
    TrimAfter(s);
  }

  lemma TrimMiddle(s: string)
    ensures LeadingSpaces(s) + |Trim(s)| <= |s|
    ensures Trim(s) == s[LeadingSpaces(s)..LeadingSpaces(s) + |Trim(s)|]
  {
    var a := LeadingSpaces(s);
    var t := s[a..];
    var m := |t| - TrailingSpaces(t);
    assert Trim(s) == t[..m];
    assert t[..m] == s[a..a + m];
  }

  lemma TrimAfter(s: string)
    ensures LeadingSpaces(s) + |Trim(s)| <= |s|
    ensures AllSpace(s[LeadingSpaces(s) + |Trim(s)|..])
  {
    var a := LeadingSpaces(s);
    var t := s[a..];
    var m := |t| - TrailingSpaces(t);
    assert Trim(s) == t[..m];
    assert s[a + m..] == t[m..];
    TrailingRunSpace(t);
  }

  /** `s.replace(/\s+/g, ' ')`: every maximal run of white space becomes one
      plain space. */
  function Collapse(s: string): string
    decreases |s|
  {
    if s == [] then []
    else if IsSpace(s[0]) then [' '] + Collapse(s[LeadingSpaces(s)..])
    else [s[0]] + Collapse(s[1..])
  }

  /** The only white space is a plain space, never two in a row. */
  predicate SingleSpaced(s: string) {
    forall k :: 0 <= k < |s| && IsSpace(s[k]) ==> s[k] == ' ' && (k + 1 < |s| ==> !IsSpace(s[k + 1]))
  }

  /** ASCII upper-case letters and the KELVIN SIGN are the only characters
      whose JavaScript lower-case form is an ASCII letter; every other
      character is kept, which is exact for comparisons with ASCII words. */
  function LowerChar(c: char): char {
    if 'A' <= c <= 'Z' then (c as int + 32) as char
    else if c == '\U{212A}' then 'k'
    else c
  }

  /** `toLowerCase`, as far as equality with an ASCII word is concerned. */
  function Lower(s: string): (r: string) {
    seq(|s|, i requires 0 <= i < |s| => LowerChar(s[i]))
  }

  /** `lines.join('\n')`. */
  function JoinLines(lines: seq<string>): string {
    if lines == [] then ""
    else if |lines| == 1 then lines[0]
    else lines[0] + "\n" + JoinLines(lines[1..])
  }

  /** `s.split(/\r?\n/)`: cut at every line feed, also taking away a carriage
      return right before it. */
  function SplitLines(s: string): (r: seq<string>)
    ensures |r| >= 1
  {
    if s == [] then [""]
    else if s[0] == '\n' then [""] + SplitLines(s[1..])
    else if s[0] == '\r' && |s| > 1 && s[1] == '\n' then [""] + SplitLines(s[2..])
    else
      var rest := SplitLines(s[1..]);
      [[s[0]] + rest[0]] + rest[1..]
  }

  /** A line that `JoinLines` followed by `SplitLines` gives back unchanged. */
  predicate PlainLine(l: string) {
    (forall k :: 0 <= k < |l| ==> l[k] != '\n') && (l == [] || l[|l| - 1] != '\r')
  }

  /** The decimal digit of `d`. */
  function Digit(d: nat): char
    requires d < 10
  {
    ('0' as int + d) as char
  }

  predicate IsDigit(c: char) {
    '0' <= c <= '9'
  }

  /** `String(n)` for a natural number. */
  function DecimalString(n: nat): string {
    if n < 10 then [Digit(n)] else DecimalString(n / 10) + [Digit(n % 10)]
  }

  /** The number a string of decimal digits stands for. */
  function DecimalValue(s: string): nat
    requires forall k :: 0 <= k < |s| ==> IsDigit(s[k])
  {
    if s == [] then 0
    else
      var last := s[|s| - 1];
      assert IsDigit(last);
      10 * DecimalValue(s[..|s| - 1]) + (last as int - '0' as int)
  }

  /** `s.padStart(2, '0')`. */
  function PadStart2(s: string): (r: string) {
    if |s| >= 2 then s else seq(2 - |s|, _ => '0') + s
  }

  // ---------------------------------------------------------------------
  // Lemmas

  lemma {:induction false} NonSpaceSplit(a: string, b: string)
    ensures NonSpace(a + b) == NonSpace(a) + NonSpace(b)
  {
    if a == [] {
      assert a + b == b;
    } else {
      assert (a + b)[1..] == a[1..] + b;
      NonSpaceSplit(a[1..], b);
      var h := if IsSpace(a[0]) then [] else [a[0]];
      calc {
        NonSpace(a + b);
        h + NonSpace(a[1..] + b);
        h + (NonSpace(a[1..]) + NonSpace(b));
        (h + NonSpace(a[1..])) + NonSpace(b);
      }
    }
  }

  lemma {:induction false} NonSpaceOfSpaces(s: string)
    requires AllSpace(s)
    ensures NonSpace(s) == []
  {
    if s != [] {
      NonSpaceOfSpaces(s[1..]);
    }
  }

  /** Removing white space from the front of a string keeps its non-space
      characters. */
  lemma DropSpacesNonSpace(s: string, n: nat)
    requires n <= |s| && AllSpace(s[..n])
    ensures NonSpace(s[n..]) == NonSpace(s)
  {
    assert s == s[..n] + s[n..];
    NonSpaceSplit(s[..n], s[n..]);
    NonSpaceOfSpaces(s[..n]);
  }

  /** `trim` keeps every non-white-space character, in order. */
  lemma TrimNonSpace(s: string)
    ensures NonSpace(Trim(s)) == NonSpace(s)
  {
    var t := TrimStart(s);
    DropSpacesNonSpace(s, LeadingSpaces(s));
    var m := |t| - TrailingSpaces(t);
    var q := t[m..];
    assert t == Trim(s) + q;
    assert AllSpace(q) by {
      forall k | 0 <= k < |q| ensures IsSpace(q[k]) {
        assert q[k] == t[m + k];
      }
    }
    NonSpaceSplit(Trim(s), q);
    NonSpaceOfSpaces(q);
  }

  /** A string without white space at its ends is its own trim. */
  lemma TrimOfTrimmed(s: string)
    requires Trimmed(s)
    ensures Trim(s) == s
  {
    assert LeadingSpaces(s) == 0;
    assert TrimStart(s) == s;
    assert TrailingSpaces(s) == 0;
  }

  /** Collapsing keeps every non-white-space character, in order. */
  lemma {:induction false} CollapseNonSpace(s: string)
    ensures NonSpace(Collapse(s)) == NonSpace(s)
    decreases |s|
  {
    if s == [] {
    } else if IsSpace(s[0]) {
      var n := LeadingSpaces(s);
      CollapseNonSpace(s[n..]);
      NonSpaceSplit([' '], Collapse(s[n..]));
      DropSpacesNonSpace(s, n);
    } else {
      CollapseNonSpace(s[1..]);
      NonSpaceSplit([s[0]], Collapse(s[1..]));
    }
  }

  /** After collapsing, the first character is white space exactly when it
      was so before, and the result is empty only for the empty string. */
  lemma CollapseFirst(s: string)
    requires s != []
    ensures Collapse(s) != [] && (IsSpace(Collapse(s)[0]) <==> IsSpace(s[0]))
    ensures !IsSpace(s[0]) ==> Collapse(s)[0] == s[0]
  {
  }

  /** Collapsing a string that ends in a non-space character gives a string
      that ends in the same character. */
  lemma {:induction false} CollapseLast(s: string)
    requires s != [] && !IsSpace(s[|s| - 1])
    ensures Collapse(s) != [] && Collapse(s)[|Collapse(s)| - 1] == s[|s| - 1]
    decreases |s|
  {
    if |s| == 1 {
    } else if IsSpace(s[0]) {
      var n := LeadingSpaces(s);
      assert n < |s|;
      var d := s[n..];
      assert d[|d| - 1] == s[|s| - 1];
      CollapseLast(d);
    } else {
      var d := s[1..];
      assert d[|d| - 1] == s[|s| - 1];
      CollapseLast(d);
    }
  }

  /** The output of `Collapse` is single-spaced. */
  lemma {:induction false} CollapseSingleSpaced(s: string)
    ensures SingleSpaced(Collapse(s))
    decreases |s|
  {
    if s == [] {
    } else if IsSpace(s[0]) {
      var d := s[LeadingSpaces(s)..];
      CollapseSingleSpaced(d);
      if d != [] {
        CollapseFirst(d);
      }
      var c := Collapse(s);
      assert c == [' '] + Collapse(d);
      forall k | 0 <= k < |c| && IsSpace(c[k])
        ensures c[k] == ' ' && (k + 1 < |c| ==> !IsSpace(c[k + 1]))
      {
        if k > 0 {
          assert c[k] == Collapse(d)[k - 1];
        }
      }
    } else {
      CollapseSingleSpaced(s[1..]);
      var c := Collapse(s);
      assert c == [s[0]] + Collapse(s[1..]);
      forall k | 0 <= k < |c| && IsSpace(c[k])
        ensures c[k] == ' ' && (k + 1 < |c| ==> !IsSpace(c[k + 1]))
      {
        assert k > 0;
        assert c[k] == Collapse(s[1..])[k - 1];
      }
    }
  }

  /** The leading white space of `a + b` lies inside `a` when `a` ends in a
      non-space character. */
  lemma LeadingSpacesAppend(a: string, b: string)
    requires a != [] && !IsSpace(a[|a| - 1])
    ensures LeadingSpaces(a + b) == LeadingSpaces(a) < |a|
  {
    var n := LeadingSpaces(a);
    var m := LeadingSpaces(a + b);
    assert n < |a|;
    assert (a + b)[n] == a[n];
    assert forall k :: 0 <= k < n ==> IsSpace((a + b)[k]);
  }

  /** The indices of the non-empty strings among the first `n`, in
      increasing order. */
  function NonEmpty(items: seq<string>, n: nat): seq<nat>
    requires n <= |items|
  {
    if n == 0 then []
    else NonEmpty(items, n - 1) + (if items[n - 1] != "" then [n - 1] else [])
  }

  /** `NonEmpty` lists every non-empty string below `n` once, in increasing
      order, and nothing else. */
  lemma {:induction false} NonEmptyShape(items: seq<string>, n: nat)
    requires n <= |items|
    ensures forall j :: 0 <= j < |NonEmpty(items, n)| ==>
      NonEmpty(items, n)[j] < n && items[NonEmpty(items, n)[j]] != ""
    ensures forall j, k :: 0 <= j < k < |NonEmpty(items, n)| ==> NonEmpty(items, n)[j] < NonEmpty(items, n)[k]
    ensures forall i :: 0 <= i < n && items[i] != "" ==> i in NonEmpty(items, n)
  {
    if n > 0 {
      NonEmptyShape(items, n - 1);
      var p := NonEmpty(items, n - 1);
      var r := NonEmpty(items, n);
      assert r == p + (if items[n - 1] != "" then [n - 1] else []);
      assert forall j :: 0 <= j < |p| ==> r[j] == p[j];
    }
  }

  /** Concatenation of sequences regroups freely. */
  lemma Associative<T>(p: seq<T>, x: seq<T>, y: seq<T>)
    ensures p + (x + y) == (p + x) + y
  {
  }

  /** A run of white space never crosses the end of a string that ends in a
      non-space character, so collapsing distributes over the concatenation. */
  lemma {:induction false} CollapseAppend(a: string, b: string)
    requires a == [] || !IsSpace(a[|a| - 1])
    ensures Collapse(a + b) == Collapse(a) + Collapse(b)
    decreases |a|
  {
    if a == [] {
      assert a + b == b;
    } else {
      var ab := a + b;
      assert ab[0] == a[0];
      var n := if IsSpace(a[0]) then LeadingSpaces(a) else 1;
      if IsSpace(a[0]) {
        LeadingSpacesAppend(a, b);
      }
      assert n <= |a| && (n < |a| || !IsSpace(a[0]));
      var d := a[n..];
      assert ab[n..] == d + b;
      assert d == [] || d[|d| - 1] == a[|a| - 1];
      CollapseAppend(d, b);
      var h := if IsSpace(a[0]) then [' '] else [a[0]];
      assert Collapse(ab) == h + Collapse(d + b);
      assert Collapse(a) == h + Collapse(d);
      Associative(h, Collapse(d), Collapse(b));
    }
  }

  /** A string without line feeds is split into itself alone. */
  lemma {:induction false} SplitSingleLine(s: string)
    requires forall k :: 0 <= k < |s| ==> s[k] != '\n'
    ensures SplitLines(s) == [s]
  {
    if s != [] {
      SplitSingleLine(s[1..]);
      assert s[0] == '\r' && |s| > 1 ==> s[1] != '\n';
      assert [s[0]] + s[1..] == s;
    }
  }

  /** A plain line followed by a line feed comes back as the first line. */
  lemma {:induction false} SplitAfterLine(l: string, rest: string)
    requires PlainLine(l)
    ensures SplitLines(l + "\n" + rest) == [l] + SplitLines(rest)
  {
    var s := l + "\n" + rest;
    if l == [] {
      assert s == "\n" + rest;
      assert s[1..] == rest;
    } else {
      assert s[0] == l[0];
      assert s[1..] == l[1..] + "\n" + rest;
      assert l[0] == '\r' ==> |s| > 1 && s[1] != '\n' by {
        if l[0] == '\r' {
          assert |l| > 1;
          assert s[1] == l[1];
        }
      }
      assert PlainLine(l[1..]) by {
        if l[1..] != [] {
          assert l[1..][|l[1..]| - 1] == l[|l| - 1];
        }
      }
      SplitAfterLine(l[1..], rest);
      assert [l[0]] + l[1..] == l;
    }
  }

  /** Splitting undoes joining: the print blocks that the field derivation
      joins with line feeds come apart into the same lines when drawn. */
  lemma {:induction false} SplitJoin(lines: seq<string>)
    requires |lines| >= 1
    requires forall i :: 0 <= i < |lines| ==> PlainLine(lines[i])
    ensures SplitLines(JoinLines(lines)) == lines
  {
    if |lines| == 1 {
      SplitSingleLine(lines[0]);
    } else {
      SplitAfterLine(lines[0], JoinLines(lines[1..]));
      SplitJoin(lines[1..]);
    }
  }

  /** A character other than a line feed or a carriage return ends up on a
      non-empty line. */
  lemma {:induction false} SplitKeepsText(s: string, k: nat)
    requires k < |s| && s[k] != '\n' && s[k] != '\r'
    ensures exists j :: 0 <= j < |SplitLines(s)| && SplitLines(s)[j] != ""
  {
    var r := SplitLines(s);
    if s[0] == '\n' {
      SplitKeepsText(s[1..], k - 1);
      var j :| 0 <= j < |SplitLines(s[1..])| && SplitLines(s[1..])[j] != "";
      assert r[j + 1] != "";
    } else if s[0] == '\r' && |s| > 1 && s[1] == '\n' {
      SplitKeepsText(s[2..], k - 2);
      var j :| 0 <= j < |SplitLines(s[2..])| && SplitLines(s[2..])[j] != "";
      assert r[j + 1] != "";
    } else {
      assert r[0] != "";
    }
  }

  /** `String(n)` has no leading zero, only digits, and reads back as `n`. */
  lemma {:induction false} DecimalRoundTrip(n: nat)
    ensures forall k :: 0 <= k < |DecimalString(n)| ==> IsDigit(DecimalString(n)[k])
    ensures DecimalValue(DecimalString(n)) == n
    ensures DecimalString(n)[0] == '0' ==> n == 0
  {
    var s := DecimalString(n);
    if n >= 10 {
      DecimalRoundTrip(n / 10);
      assert s[..|s| - 1] == DecimalString(n / 10);
    }
  }

  /** The number of decimal digits of `n`. */
  lemma {:induction false} DecimalLength(n: nat)
    ensures n < 10 ==> |DecimalString(n)| == 1
    ensures 10 <= n < 100 ==> |DecimalString(n)| == 2
    ensures 100 <= n < 1000 ==> |DecimalString(n)| == 3
    ensures 1000 <= n < 10000 ==> |DecimalString(n)| == 4
  {
    if n >= 10 {
      DecimalLength(n / 10);
      assert |DecimalString(n)| == |DecimalString(n / 10)| + 1;
      assert 10 <= n < 100 ==> n / 10 < 10;
      assert 100 <= n < 1000 ==> 10 <= n / 10 < 100;
      assert 1000 <= n < 10000 ==> 100 <= n / 10 < 1000;
    }
  }

  /** `String(n).padStart(2, '0')` for `n` below 100 is two digits that read
      back as `n`. */
  lemma TwoDigits(n: nat)
    requires n < 100
    ensures |PadStart2(DecimalString(n))| == 2
    ensures forall k :: 0 <= k < 2 ==> IsDigit(PadStart2(DecimalString(n))[k])
    ensures DecimalValue(PadStart2(DecimalString(n))) == n
  {
    DecimalLength(n);
    DecimalRoundTrip(n);
    var p := PadStart2(DecimalString(n));
    if n < 10 {
      assert p == ['0', Digit(n)];
      assert p[..1] == ['0'];
    }
  }

  /** Lower-casing gives an ASCII word exactly when every character is that
      letter in either case, or the KELVIN SIGN for a `k`. */
  lemma LowerEqualsAscii(s: string, w: string)
    requires forall k :: 0 <= k < |w| ==> 'a' <= w[k] <= 'z'
    ensures Lower(s) == w <==>
      |s| == |w| && forall k :: 0 <= k < |s| ==>
        s[k] == w[k] || s[k] == (w[k] as int - 32) as char || (w[k] == 'k' && s[k] == '\U{212A}')
  {
    if |s| == |w| && Lower(s) != w {
      var k :| 0 <= k < |s| && Lower(s)[k] != w[k];
      assert LowerChar(s[k]) != w[k];
    }
  }

  /** A non-empty run of white space in front of a word, or at the end,
      becomes exactly one plain space. */
  lemma CollapseRun(w: string, b: string)
    requires w != [] && AllSpace(w)
    requires b == [] || !IsSpace(b[0])
    ensures Collapse(w + b) == " " + Collapse(b)
  {
    var s := w + b;
    assert s[0] == w[0];
    assert forall k :: 0 <= k < |w| ==> s[k] == w[k];
    assert b != [] ==> s[|w|] == b[0];
    assert LeadingSpaces(s) == |w|;
    assert s[|w|..] == b;
  }

  /** White space between two words, however long the run, becomes exactly
      one plain space. */
  lemma CollapseBetween(a: string, w: string, b: string)
    requires a != [] && !IsSpace(a[|a| - 1])
    requires w != [] && AllSpace(w)
    requires b == [] || !IsSpace(b[0])
    ensures Collapse(a + w + b) == Collapse(a) + " " + Collapse(b)
  {
    var wb := w + b;
    assert a + w + b == a + wb;
    CollapseAppend(a, wb);
    CollapseRun(w, b);
    Associative(Collapse(a), " ", Collapse(b));
  }

  /** A single space before a word stays a single space. */
  lemma CollapseSpaceBefore(d: string)
    requires d != [] && !IsSpace(d[0])
    ensures Collapse(" " + d) == " " + Collapse(d)
  {
    var s := " " + d;
    assert s[1..] == d;
    assert LeadingSpaces(s) == 1 + LeadingSpaces(d);
  }

  /** A string that does not start or end with white space collapses to a
      string that does not either. */
  lemma CollapseTrimmed(s: string)
    requires s != [] && !IsSpace(s[0]) && !IsSpace(s[|s| - 1])
    ensures Collapse(s) != [] && Trimmed(Collapse(s))
  {
    CollapseFirst(s);
    CollapseLast(s);
  }

  /** `trim` of a single line is a line that survives `JoinLines` and
      `SplitLines`. */
  lemma TrimPlain(s: string)
    requires forall k :: 0 <= k < |s| ==> s[k] != '\n'
    ensures PlainLine(Trim(s))
  {
    var t := TrimStart(s);
    var a := LeadingSpaces(s);
    var r := Trim(s);
    forall k | 0 <= k < |r| ensures r[k] != '\n' {
      assert r[k] == t[k] == s[a + k];
    }
    assert r != [] ==> !IsSpace(r[|r| - 1]);
  }

  /** Two lines side by side make one line. */
  lemma PlainLineAppend(a: string, b: string)
    requires PlainLine(a) && PlainLine(b)
    ensures PlainLine(a + b)
  {
    if b == [] { assert a + b == a; } else { assert (a + b)[|a + b| - 1] == b[|b| - 1]; }
    forall k | 0 <= k < |a + b| ensures (a + b)[k] != '\n' {
      if k < |a| { assert (a + b)[k] == a[k]; } else { assert (a + b)[k] == b[k - |a|]; }
    }
  }

  /** Joining lines that are all non-empty gives the empty string only for
      no lines at all. */
  lemma JoinLinesEmpty(lines: seq<string>)
    requires forall i :: 0 <= i < |lines| ==> lines[i] != ""
    ensures JoinLines(lines) == "" <==> lines == []
  {
    if |lines| > 1 {
      assert |JoinLines(lines)| >= |lines[0]|;
    }
  }
}
