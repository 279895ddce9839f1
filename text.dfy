/** The two JavaScript string operations the command handlers and the
    roster rely on: `String.prototype.split` with a one-character separator
    and `String.prototype.trim`, plus the "split into two trimmed, non-empty
    parts" pattern used by `!find` and by `username#tag` parsing. */
module Text {
  import opened Common

  /** The characters `String.prototype.trim` removes: ECMAScript WhiteSpace
      (TAB, VT, FF, ZWNBSP and every space separator) and LineTerminator. */
  predicate IsWhitespace(c: char) {
    || c == '\t' || c == '\n' || c == '\U{B}' || c == '\U{C}' || c == '\r' || c == ' '
    || c == '\U{A0}' || c == '\U{1680}' || ('\U{2000}' <= c <= '\U{200A}')
    || c == '\U{2028}' || c == '\U{2029}' || c == '\U{202F}' || c == '\U{205F}'
    || c == '\U{3000}' || c == '\U{FEFF}'
  }

  predicate AllWhitespace(s: string) {
    forall k :: 0 <= k < |s| ==> IsWhitespace(s[k])
  }

  /** Neither starts nor ends with whitespace: what `trim` returns. */
  predicate Trimmed(s: string) {
    s == [] || (!IsWhitespace(s[0]) && !IsWhitespace(s[|s| - 1]))
  }

  /** `s[i..j]` is `s` with exactly its leading and trailing whitespace cut
      off: everything before `i` and from `j` on is whitespace, and a
      non-empty factor starts and ends with a non-whitespace character. */
  predicate TrimBounds(s: string, i: int, j: int) {
    && 0 <= i <= j <= |s|
    && (forall k :: 0 <= k < i ==> IsWhitespace(s[k]))
    && (forall k :: j <= k < |s| ==> IsWhitespace(s[k]))
    && (i < j ==> !IsWhitespace(s[i]) && !IsWhitespace(s[j - 1]))
  }

  /** The first index at or after `i` that is not whitespace, or `|s|`. */
  function SkipLeading(s: string, i: nat): (n: nat)
    requires i <= |s|
    requires forall k :: 0 <= k < i ==> IsWhitespace(s[k])
    ensures i <= n <= |s|
    ensures forall k :: 0 <= k < n ==> IsWhitespace(s[k])
    ensures n < |s| ==> !IsWhitespace(s[n])
    decreases |s| - i
  {
    if i < |s| && IsWhitespace(s[i]) then SkipLeading(s, i + 1) else i
  }

  /** The end of `s[..j]` once its trailing whitespace, down to `lo`, is cut. */
  function SkipTrailing(s: string, lo: nat, j: nat): (n: nat)
    requires lo <= j <= |s|
    requires forall k :: j <= k < |s| ==> IsWhitespace(s[k])
    ensures lo <= n <= j
    ensures forall k :: n <= k < |s| ==> IsWhitespace(s[k])
    ensures n > lo ==> !IsWhitespace(s[n - 1])
    decreases j
  {
    if j > lo && IsWhitespace(s[j - 1]) then SkipTrailing(s, lo, j - 1) else j
  }

  /** `s.trim()`: `s` without its leading and trailing whitespace. */
  function Trim(s: string): (r: string)
    ensures exists i, j :: TrimBounds(s, i, j) && r == s[i..j]
    ensures Trimmed(r)
    ensures r == [] <==> AllWhitespace(s)
  {
    var i := SkipLeading(s, 0);
    var j := SkipTrailing(s, i, |s|);
    assert TrimBounds(s, i, j);
    assert j == i ==> AllWhitespace(s);
    assert AllWhitespace(s) ==> i == |s|;
    s[i..j]
  }

  /** `trim` is determined: any factor of `s` that `TrimBounds` describes is
      what `Trim` returns. */
  lemma TrimUnique(s: string, i: int, j: int)
    requires TrimBounds(s, i, j)
    ensures Trim(s) == s[i..j]
  {
    var i', j' :| TrimBounds(s, i', j') && Trim(s) == s[i'..j'];
    if i < j {
      assert !IsWhitespace(s[i]);
      assert Trim(s) != [] by {
        assert !AllWhitespace(s) by { assert !IsWhitespace(s[i]); }
      }
      assert i' < j';
      assert i' == i;
      assert j' == j;
    } else {
      assert AllWhitespace(s) by {
        forall k | 0 <= k < |s| ensures IsWhitespace(s[k]) {
          if k >= j { assert j <= k < |s|; }
        }
      }
    }
  }

  /** Trimming text that is already trimmed changes nothing. */
  lemma TrimOfTrimmed(s: string)
    requires Trimmed(s)
    ensures Trim(s) == s
  {
    assert SkipLeading(s, 0) == 0;
    assert SkipTrailing(s, 0, |s|) == |s|;
    assert s[0..|s|] == s;
  }

  /** Trimming removes exactly the whitespace padding around a trimmed,
      non-empty text. */
  lemma TrimPadded(a: string, x: string, b: string)
    requires AllWhitespace(a) && AllWhitespace(b)
    requires x != [] && Trimmed(x)
    ensures Trim(a + x + b) == x
  {
    var s := a + x + b;
    var i, j := |a|, |a| + |x|;
    forall k | 0 <= k < i ensures IsWhitespace(s[k]) {
      assert s[k] == a[k];
    }
    forall k | j <= k < |s| ensures IsWhitespace(s[k]) {
      assert s[k] == b[k - j];
    }
    assert s[i] == x[0] && s[j - 1] == x[|x| - 1];
    TrimUnique(s, i, j);
    assert s[i..j] == x;
  }

  /** Number of occurrences of `c` in `s`. */
  function Occurrences(s: string, c: char): (n: nat)
    ensures n == 0 <==> c !in s
  {
    if s == [] then 0 else (if s[0] == c then 1 else 0) + Occurrences(s[1..], c)
  }

  /** `s.split(sep)` for a one-character separator: the maximal
      separator-free pieces between the occurrences of `sep`, one more piece
      than there are separators (so `"".split("#")` is `[""]`). */
  function Split(s: string, sep: char): (parts: seq<string>)
    ensures |parts| == Occurrences(s, sep) + 1
    ensures forall i :: 0 <= i < |parts| ==> sep !in parts[i]
  {
    if s == [] then [[]]
    else
      var rest := Split(s[1..], sep);
      if s[0] == sep then [[]] + rest
      else [[s[0]] + rest[0]] + rest[1..]
  }

  /** `parts.join(sep)`. */
  function Join(parts: seq<string>, sep: char): string
    requires |parts| >= 1
  {
    if |parts| == 1 then parts[0] else parts[0] + [sep] + Join(parts[1..], sep)
  }

  /** Splitting loses nothing: joining the pieces back gives the input. */
  lemma {:induction false} JoinSplit(s: string, sep: char)
    ensures Join(Split(s, sep), sep) == s
  {
    if s != [] {
      var rest := Split(s[1..], sep);
      JoinSplit(s[1..], sep);
      if s[0] == sep {
        assert ([[]] + rest)[1..] == rest;
      } else if |rest| > 1 {
        assert ([[s[0]] + rest[0]] + rest[1..])[1..] == rest[1..];
      }
    }
  }

  /** Text without the separator is a single piece. */
  lemma {:induction false} SplitWithoutSeparator(s: string, sep: char)
    requires sep !in s
    ensures Split(s, sep) == [s]
  {
    if s != [] {
      SplitWithoutSeparator(s[1..], sep);
      assert [s[0]] + s[1..] == s;
    }
  }

  /** A separator-free prefix followed by the separator is the first piece. */
  lemma {:induction false} SplitAfterPrefix(a: string, sep: char, b: string)
    requires sep !in a
    ensures Split(a + [sep] + b, sep) == [a] + Split(b, sep)
  {
    if a == [] {
      assert [] + [sep] + b == [sep] + b;
      assert ([sep] + b)[1..] == b;
    } else {
      var s := a + [sep] + b;
      assert s[0] == a[0] && s[0] != sep;
      assert s[1..] == a[1..] + [sep] + b;
      SplitAfterPrefix(a[1..], sep, b);
      var rest := Split(s[1..], sep);
      assert rest == [a[1..]] + Split(b, sep);
      assert rest[0] == a[1..] && rest[1..] == Split(b, sep);
      assert [a[0]] + a[1..] == a;
      calc {
        Split(s, sep);
        [[s[0]] + rest[0]] + rest[1..];
        [a] + Split(b, sep);
      }
    }
  }

  /** Why `split` into exactly two pieces was refused. */
  datatype PairError = WrongPartCount | EmptyPart

  /** Split `s` on `sep`, demand exactly two pieces, trim both and demand that
      neither is empty: the shared shape of `username#tag` and of the
      `!find username,tag` argument. */
  function SplitPair(s: string, sep: char): (r: Result<(string, string), PairError>)
    ensures r == Err(WrongPartCount) <==> Occurrences(s, sep) != 1
    ensures r == Err(EmptyPart) <==>
              Occurrences(s, sep) == 1
              && (AllWhitespace(Split(s, sep)[0]) || AllWhitespace(Split(s, sep)[1]))
    ensures r.Ok? ==> r.value == (Trim(Split(s, sep)[0]), Trim(Split(s, sep)[1]))
    ensures r.Ok? ==> && r.value.0 != [] && Trimmed(r.value.0) && sep !in r.value.0
                      && r.value.1 != [] && Trimmed(r.value.1) && sep !in r.value.1
  {
    var parts := Split(s, sep);
    if |parts| != 2 then Err(WrongPartCount)
    else
      var first := Trim(parts[0]);
      var second := Trim(parts[1]);
      if first == [] || second == [] then Err(EmptyPart) else Ok((first, second))
  }

  /** Round trip: two trimmed, non-empty, separator-free parts joined by the
      separator are split back into exactly those parts. */
  lemma SplitPairOfJoined(a: string, sep: char, b: string)
    requires a != [] && Trimmed(a) && sep !in a
    requires b != [] && Trimmed(b) && sep !in b
    ensures SplitPair(a + [sep] + b, sep) == Ok((a, b))
  {
    SplitAfterPrefix(a, sep, b);
    SplitWithoutSeparator(b, sep);
    TrimOfTrimmed(a);
    TrimOfTrimmed(b);
  }

  /** Round trip with padding: whitespace around either part is trimmed off. */
  lemma SplitPairOfPadded(a: string, x: string, b: string, sep: char, c: string, y: string, d: string)
    requires AllWhitespace(a) && AllWhitespace(b) && AllWhitespace(c) && AllWhitespace(d)
    requires sep !in a && sep !in b && sep !in c && sep !in d
    requires x != [] && Trimmed(x) && sep !in x
    requires y != [] && Trimmed(y) && sep !in y
    ensures SplitPair(a + x + b + [sep] + c + y + d, sep) == Ok((x, y))
  {
    var first, second := a + x + b, c + y + d;
    assert sep !in first && sep !in second;
    assert a + x + b + [sep] + c + y + d == first + [sep] + second;
    SplitAfterPrefix(first, sep, second);
    SplitWithoutSeparator(second, sep);
    TrimPadded(a, x, b);
    TrimPadded(c, y, d);
  }
}
