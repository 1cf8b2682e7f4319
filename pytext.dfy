/** The Python string operations the scrapers rely on: `str.split()` and
    `str.strip()` without arguments (both separate on Unicode whitespace),
    `str.split(sep)` with a one-character separator, and `''.join(parts)`. */
module PyText {

  /** The characters for which Python's `str.isspace()` holds: the separators of
      `str.split()` and the padding `str.strip()` removes. */
  predicate IsSpace(c: char) {
    || c == ' '
    || ('\t' <= c <= '\r')
    || ('\U{1C}' <= c <= '\U{1F}')
    || c == '\U{85}' || c == '\U{A0}' || c == '\U{1680}'
    || ('\U{2000}' <= c <= '\U{200A}')
    || c == '\U{2028}' || c == '\U{2029}' || c == '\U{202F}' || c == '\U{205F}' || c == '\U{3000}'
  }

  predicate NoSpace(s: string) {
    forall i :: 0 <= i < |s| ==> !IsSpace(s[i])
  }

  predicate AllSpace(s: string) {
    forall i :: 0 <= i < |s| ==> IsSpace(s[i])
  }

  /** A token `str.split()` can produce: non-empty and free of whitespace. */
  predicate IsToken(t: string) {
    t != [] && NoSpace(t)
  }

  /** Length of the longest whitespace-free prefix of `s`. */
  function WordLength(s: string): (n: nat)
    ensures n <= |s| && NoSpace(s[..n])
    ensures n < |s| ==> IsSpace(s[n])
    ensures s != [] && !IsSpace(s[0]) ==> n > 0
  {
    if s == [] || IsSpace(s[0]) then 0 else 1 + WordLength(s[1..])
  }

  /** Python's `s.split()`: the maximal whitespace-free runs of `s`, in order. */
  function SplitWhitespace(s: string): (tokens: seq<string>)
    ensures forall i :: 0 <= i < |tokens| ==> IsToken(tokens[i])
    decreases |s|
  {
    if s == [] then []
    else if IsSpace(s[0]) then SplitWhitespace(s[1..])
    else
      var n := WordLength(s);
      [s[..n]] + SplitWhitespace(s[n..])
  }

  lemma {:induction false} WordLengthOfWord(t: string, u: string)
    requires NoSpace(t)
    requires u == [] || IsSpace(u[0])
    ensures WordLength(t + u) == |t|
    decreases |t|
  {
    if t == [] {
      assert t + u == u;
    } else {
      assert (t + u)[1..] == t[1..] + u;
      WordLengthOfWord(t[1..], u);
    }
  }

  lemma {:induction false} WordLengthPrefix(s: string, u: string)
    requires WordLength(s) < |s|
    ensures WordLength(s + u) == WordLength(s)
    decreases |s|
  {
    if !IsSpace(s[0]) {
      assert (s + u)[1..] == s[1..] + u;
      WordLengthPrefix(s[1..], u);
    }
  }

  /** A string without whitespace splits into itself, or into nothing when empty. */
  lemma SplitWord(t: string)
    requires NoSpace(t)
    ensures SplitWhitespace(t) == if t == [] then [] else [t]
  {
    if t != [] {
      WordLengthOfWord(t, []);
      assert t + [] == t;
      assert t[|t|..] == [];
    }
  }

  /** Any single whitespace character separates: the tokens on its two sides are
      split independently. With SplitWord this determines `SplitWhitespace` on
      every string. */
  lemma {:induction false} SplitAtSpace(a: string, c: char, b: string)
    requires IsSpace(c)
    ensures SplitWhitespace(a + [c] + b) == SplitWhitespace(a) + SplitWhitespace(b)
    decreases |a|
  {
    var s := a + [c] + b;
    if a == [] {
      assert s[1..] == b;
    } else if IsSpace(a[0]) {
      assert s[1..] == a[1..] + [c] + b;
      SplitAtSpace(a[1..], c, b);
    } else {
      SplitAtWord(a, c, b);
    }
  }

  lemma {:induction false} SplitAtWord(a: string, c: char, b: string)
    requires IsSpace(c) && a != [] && !IsSpace(a[0])
    ensures SplitWhitespace(a + [c] + b) == SplitWhitespace(a) + SplitWhitespace(b)
    decreases |a|, 0
  {
    var t := [c] + b;
    assert a + [c] + b == a + t;
    assert t[1..] == b;
    if WordLength(a) == |a| {
      SplitWholeWord(a, t);
      SplitWord(a);
    } else {
      var n := WordLength(a);
      SplitWordThenRest(a, t);
      assert a[n..] + t == a[n..] + [c] + b;
      SplitAtSpace(a[n..], c, b);
    }
  }

  lemma SplitWholeWord(a: string, t: string)
    requires a != [] && NoSpace(a) && t != [] && IsSpace(t[0])
    ensures SplitWhitespace(a + t) == [a] + SplitWhitespace(t[1..])
  {
    var s := a + t;
    WordLengthOfWord(a, t);
    assert s[0] == a[0];
    assert s[..|a|] == a;
    assert s[|a|..] == t;
  }

  lemma SplitWordThenRest(a: string, t: string)
    requires a != [] && !IsSpace(a[0]) && WordLength(a) < |a|
    ensures SplitWhitespace(a + t) == [a[..WordLength(a)]] + SplitWhitespace(a[WordLength(a)..] + t)
  {
    var s := a + t;
    var n := WordLength(a);
    WordLengthPrefix(a, t);
    assert s[0] == a[0];
    assert s[..n] == a[..n];
    assert s[n..] == a[n..] + t;
  }

  /** The tokens joined back with single spaces, as `' '.join(tokens)`. */
  function JoinSpace(tokens: seq<string>): string {
    if tokens == [] then []
    else if |tokens| == 1 then tokens[0]
    else tokens[0] + " " + JoinSpace(tokens[1..])
  }

  /** Splitting undoes joining with single spaces. */
  lemma {:induction false} SplitJoinSpace(tokens: seq<string>)
    requires forall i :: 0 <= i < |tokens| ==> IsToken(tokens[i])
    ensures SplitWhitespace(JoinSpace(tokens)) == tokens
    decreases |tokens|
  {
    if tokens == [] {
    } else if |tokens| == 1 {
      SplitWord(tokens[0]);
    } else {
      SplitAtSpace(tokens[0], ' ', JoinSpace(tokens[1..]));
      SplitWord(tokens[0]);
      SplitJoinSpace(tokens[1..]);
      assert tokens == [tokens[0]] + tokens[1..];
    }
  }

  /** A string begins and ends with a non-whitespace character (or is empty). */
  predicate Unpadded(s: string) {
    s == [] || (!IsSpace(s[0]) && !IsSpace(s[|s| - 1]))
  }

  /** Python's `s.strip()`: `s` without its leading and trailing whitespace. */
  function Strip(s: string): (r: string)
    ensures Unpadded(r)
    decreases |s|
  {
    if s != [] && IsSpace(s[0]) then Strip(s[1..])
    else if s != [] && IsSpace(s[|s| - 1]) then Strip(s[..|s| - 1])
    else s
  }

  /** Stripping removes exactly the whitespace padding: this holds of every
      decomposition of a string into padding, an unpadded core and padding. */
  lemma {:induction false} StripPadding(a: string, x: string, b: string)
    requires AllSpace(a) && Unpadded(x) && AllSpace(b)
    ensures Strip(a + x + b) == x
    decreases |a| + |b|
  {
    if a != [] {
      StripLeadingSpace(a + x + b);
      assert (a + x + b)[1..] == a[1..] + x + b;
      StripPadding(a[1..], x, b);
    } else if b != [] && x == [] {
      assert a + x + b == b;
      StripLeadingSpace(b);
      assert b[1..] == a + x + b[1..];
      StripPadding(a, x, b[1..]);
    } else if b != [] {
      assert a + x + b == x + b;
      StripTrailingSpace(x + b);
      assert (x + b)[..|x + b| - 1] == a + x + b[..|b| - 1];
      StripPadding(a, x, b[..|b| - 1]);
    } else {
      assert a + x + b == x;
    }
  }

  lemma StripLeadingSpace(s: string)
    requires s != [] && IsSpace(s[0])
    ensures Strip(s) == Strip(s[1..])
  {
  }

  lemma StripTrailingSpace(s: string)
    requires |s| >= 2 && !IsSpace(s[0]) && IsSpace(s[|s| - 1])
    ensures Strip(s) == Strip(s[..|s| - 1])
  {
  }

  /** Python's `s.split(c)`: the pieces between occurrences of `c`, empty ones
      included, so there is always at least one. */
  function SplitOn(s: string, c: char): (parts: seq<string>)
    ensures |parts| >= 1
    ensures forall i :: 0 <= i < |parts| ==> c !in parts[i]
    decreases |s|
  {
    if s == [] then [""]
    else
      var rest := SplitOn(s[1..], c);
      if s[0] == c then [""] + rest
      else [[s[0]] + rest[0]] + rest[1..]
  }

  /** `c.join(parts)`. */
  function JoinOn(parts: seq<string>, c: char): string
    requires |parts| >= 1
  {
    if |parts| == 1 then parts[0] else parts[0] + [c] + JoinOn(parts[1..], c)
  }

  /** Number of occurrences of `c` in `s`. */
  function Occurrences(s: string, c: char): nat {
    if s == [] then 0 else (if s[0] == c then 1 else 0) + Occurrences(s[1..], c)
  }

  /** Joining the pieces with the separator gives back the original string. */
  lemma {:induction false} JoinSplitOn(s: string, c: char)
    ensures JoinOn(SplitOn(s, c), c) == s
    ensures |SplitOn(s, c)| == Occurrences(s, c) + 1
    decreases |s|
  {
    if s != [] {
      JoinSplitOn(s[1..], c);
      var rest := SplitOn(s[1..], c);
      if s[0] != c {
        var parts := SplitOn(s, c);
        if |rest| == 1 {
          assert parts == [[s[0]] + rest[0]];
        } else {
          assert parts[1..] == rest[1..];
          assert JoinOn(rest, c) == rest[0] + [c] + JoinOn(rest[1..], c);
        }
        assert s == [s[0]] + s[1..];
      } else {
        assert SplitOn(s, c)[1..] == rest;
        assert s == [c] + s[1..];
      }
    }
  }

  lemma {:induction false} SplitOnPiece(p: string, c: char, r: string)
    requires c !in p
    ensures SplitOn(p + [c] + r, c) == [p] + SplitOn(r, c)
    ensures SplitOn(p, c) == [p]
    decreases |p|
  {
    if p == [] {
      assert p + [c] + r == [c] + r;
      assert ([c] + r)[1..] == r;
    } else {
      assert (p + [c] + r)[1..] == p[1..] + [c] + r;
      SplitOnPiece(p[1..], c, r);
      assert p == [p[0]] + p[1..];
    }
  }

  /** Splitting undoes joining, when no piece contains the separator. */
  lemma {:induction false} SplitJoinOn(parts: seq<string>, c: char)
    requires |parts| >= 1
    requires forall i :: 0 <= i < |parts| ==> c !in parts[i]
    ensures SplitOn(JoinOn(parts, c), c) == parts
    decreases |parts|
  {
    if |parts| == 1 {
      SplitOnPiece(parts[0], c, "");
    } else {
      SplitOnPiece(parts[0], c, JoinOn(parts[1..], c));
      SplitJoinOn(parts[1..], c);
      assert parts == [parts[0]] + parts[1..];
    }
  }

  /** Python's `''.join(parts)`. With ConcatAppend its two ensures determine it. */
  function Concat(parts: seq<string>): (s: string)
    ensures parts == [] ==> s == []
    ensures |parts| == 1 ==> s == parts[0]
  {
    if parts == [] then [] else Concat(parts[..|parts| - 1]) + parts[|parts| - 1]
  }

  /** Joining two lists of parts is joining each and concatenating the results. */
  lemma {:induction false} ConcatAppend(a: seq<string>, b: seq<string>)
    ensures Concat(a + b) == Concat(a) + Concat(b)
    decreases |b|
  {
    if b == [] {
      assert a + b == a;
    } else {
      var ab := a + b;
      assert ab[..|ab| - 1] == a + b[..|b| - 1];
      assert ab[|ab| - 1] == b[|b| - 1];
      ConcatAppend(a, b[..|b| - 1]);
    }
  }
}
