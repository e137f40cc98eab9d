/**
 * The handful of Python string operations the K-NET reader relies on:
 * `startswith`, `split()` on whitespace, `strip()`, `split('/')`,
 * `' '.join`, `replace('-', '')`, the leading digit run matched by the
 * regular expression `[0-9]*`, and `int`/`float` of such a run.
 */
module Text {

  /** The characters `str.split()` and `str.strip()` treat as whitespace
      (those for which `str.isspace` holds). */
  const UnicodeSpace: set<char> := {
    ' ', '\t', '\n', '\U{0B}', '\U{0C}', '\r', '\U{1C}', '\U{1D}', '\U{1E}', '\U{1F}',
    '\U{85}', '\U{A0}', '\U{1680}', '\U{2000}', '\U{2001}', '\U{2002}', '\U{2003}',
    '\U{2004}', '\U{2005}', '\U{2006}', '\U{2007}', '\U{2008}', '\U{2009}', '\U{200A}',
    '\U{2028}', '\U{2029}', '\U{202F}', '\U{205F}', '\U{3000}'
  }

  /** The bytes `bytes.split()` and `bytes.strip()` treat as whitespace. */
  const AsciiSpace: set<char> := {' ', '\t', '\n', '\r', '\U{0B}', '\U{0C}'}

  predicate NoSpace(s: string, ws: set<char>) {
    forall i :: 0 <= i < |s| ==> s[i] !in ws
  }

  predicate AllSpace(s: string, ws: set<char>) {
    forall i :: 0 <= i < |s| ==> s[i] in ws
  }

  /** `s.startswith(prefix)` */
  predicate StartsWith(s: string, prefix: string) {
    |prefix| <= |s| && s[..|prefix|] == prefix
  }

  // ---------------------------------------------------------------------
  // Whitespace split and strip
  // ---------------------------------------------------------------------

  /** `s.lstrip()`: drops the leading run of whitespace. */
  function DropSpace(s: string, ws: set<char>): (r: string)
    ensures |r| <= |s|
    ensures AllSpace(s[..|s| - |r|], ws)
    ensures r == [] || r[0] !in ws
    decreases |s|
  {
    if s != [] && s[0] in ws then DropSpace(s[1..], ws) else s
  }

  /** What `lstrip` leaves is a suffix of the string. */
  lemma {:induction false} DropSpaceSuffix(s: string, ws: set<char>)
    ensures DropSpace(s, ws) == s[|s| - |DropSpace(s, ws)|..]
    decreases |s|
  {
    if s != [] && s[0] in ws {
      DropSpaceSuffix(s[1..], ws);
    }
  }

  /** `s.rstrip()`: drops the trailing run of whitespace. */
  function DropSpaceRight(s: string, ws: set<char>): (r: string)
    ensures |r| <= |s| && r == s[..|r|]
    ensures AllSpace(s[|r|..], ws)
    ensures r == [] || r[|r| - 1] !in ws
    decreases |s|
  {
    if s != [] && s[|s| - 1] in ws then DropSpaceRight(s[..|s| - 1], ws) else s
  }

  /** `s.strip()` */
  function Strip(s: string, ws: set<char>): (r: string)
    ensures var d := |s| - |DropSpace(s, ws)|;
      d + |r| <= |s| && r == s[d..d + |r|] && AllSpace(s[..d], ws) && AllSpace(s[d + |r|..], ws)
    ensures r == [] || (r[0] !in ws && r[|r| - 1] !in ws)
  {
    DropSpaceSuffix(s, ws);
    DropSpaceRight(DropSpace(s, ws), ws)
  }

  /** The longest prefix of `s` free of whitespace. */
  function Word(s: string, ws: set<char>): (w: string)
    ensures |w| <= |s| && w == s[..|w|]
    ensures NoSpace(w, ws)
    ensures |w| == |s| || s[|w|] in ws
    decreases |s|
  {
    if s == [] || s[0] in ws then [] else [s[0]] + Word(s[1..], ws)
  }

  /** `s.split()`: the maximal runs of non-whitespace characters, in order. */
  function Split(s: string, ws: set<char>): (r: seq<string>)
    ensures forall k :: 0 <= k < |r| ==> IsToken(r[k], ws)
    decreases |s|
  {
    var t := DropSpace(s, ws);
    if t == [] then []
    else
      var w := Word(t, ws);
      [w] + Split(t[|w|..], ws)
  }

  /** What `str.split()` produces: non-empty, whitespace-free tokens. */
  predicate IsToken(t: string, ws: set<char>) {
    t != [] && NoSpace(t, ws)
  }

  /** Joining non-empty whitespace-free tokens with single spaces and splitting
      the result again gives back the tokens. */
  lemma {:induction false} SplitJoinSpace(ts: seq<string>, ws: set<char>)
    requires ' ' in ws
    requires forall k :: 0 <= k < |ts| ==> IsToken(ts[k], ws)
    ensures Split(JoinWith(ts, ' '), ws) == ts
    decreases |ts|
  {
    if |ts| == 1 {
      SplitWord(ts[0], [], ws);
      assert ts[0] + [] == ts[0];
    } else if |ts| > 1 {
      var rest := JoinWith(ts[1..], ' ');
      assert IsToken(ts[1], ws);
      JoinWithHead(ts[1..], ' ');
      assert DropSpace(" " + rest, ws) == rest;
      SplitDropSpace(" " + rest, ws);
      SplitWord(ts[0], " " + rest, ws);
      SplitJoinSpace(ts[1..], ws);
      assert JoinWith(ts, ' ') == ts[0] + (" " + rest);
    }
  }

  /** A word followed by nothing or by whitespace is the first token. */
  lemma SplitWord(w: string, tail: string, ws: set<char>)
    requires w != [] && NoSpace(w, ws)
    requires tail == [] || tail[0] in ws
    ensures Split(w + tail, ws) == [w] + Split(tail, ws)
  {
    var s := w + tail;
    assert DropSpace(s, ws) == s by {
      assert s[0] == w[0];
    }
    WordOfPrefix(w, tail, ws);
    assert s[|w|..] == tail;
    SplitStep(s, ws);
  }

  /** Leading whitespace does not change the tokens. */
  lemma SplitDropSpace(s: string, ws: set<char>)
    ensures Split(DropSpace(s, ws), ws) == Split(s, ws)
  {
    var d := DropSpace(s, ws);
    assert DropSpace(d, ws) == d;
  }

  lemma JoinWithHead(ts: seq<string>, sep: char)
    requires ts != [] && ts[0] != []
    ensures JoinWith(ts, sep) != [] && JoinWith(ts, sep)[0] == ts[0][0]
  {
  }

  /** The word at the start of `w + u` is `w` when `w` is whitespace-free and
      `u` is empty or starts with whitespace. */
  lemma {:induction false} WordOfPrefix(w: string, u: string, ws: set<char>)
    requires NoSpace(w, ws)
    requires u == [] || u[0] in ws
    ensures Word(w + u, ws) == w
    decreases |w|
  {
    if w == [] {
    } else {
      assert (w + u)[1..] == w[1..] + u;
      WordOfPrefix(w[1..], u, ws);
    }
  }

  lemma {:induction false} DropSpaceAppend(t: string, u: string, ws: set<char>)
    requires DropSpace(t, ws) != []
    ensures DropSpace(t + u, ws) == DropSpace(t, ws) + u
    decreases |t|
  {
    if t[0] in ws {
      assert (t + u)[1..] == t[1..] + u;
      DropSpaceAppend(t[1..], u, ws);
    }
  }

  lemma {:induction false} AllSpaceDrop(s: string, ws: set<char>)
    requires AllSpace(s, ws)
    ensures DropSpace(s, ws) == []
    decreases |s|
  {
    if s != [] {
      AllSpaceDrop(s[1..], ws);
    }
  }

  lemma SplitAllSpace(t: string, u: string, ws: set<char>)
    requires DropSpace(t, ws) == [] && AllSpace(u, ws)
    ensures Split(t + u, ws) == [] == Split(t, ws)
  {
    assert t[..|t|] == t;
    assert AllSpace(t + u, ws);
    AllSpaceDrop(t + u, ws);
  }

  /** One step of `Split`: the first token is the word after the leading
      whitespace. */
  lemma SplitStep(s: string, ws: set<char>)
    requires DropSpace(s, ws) != []
    ensures var d := DropSpace(s, ws);
            Split(s, ws) == [Word(d, ws)] + Split(d[|Word(d, ws)|..], ws)
  {
  }

  /** Trailing whitespace does not change the tokens. */
  lemma {:induction false} SplitTrailingSpace(t: string, u: string, ws: set<char>)
    requires AllSpace(u, ws)
    ensures Split(t + u, ws) == Split(t, ws)
    decreases |t|
  {
    var d := DropSpace(t, ws);
    if d == [] {
      SplitAllSpace(t, u, ws);
    } else {
      DropSpaceAppend(t, u, ws);
      var w := Word(d, ws);
      var rest := d[|w|..];
      assert d == w + rest;
      assert d + u == w + (rest + u);
      WordOfPrefix(w, rest + u, ws);
      assert (d + u)[|w|..] == rest + u;
      SplitTrailingSpace(rest, u, ws);
      SplitStep(t, ws);
      SplitStep(t + u, ws);
    }
  }

  /** Splitting a stripped string gives the same tokens as splitting it raw,
      so `line.strip().split()` is `line.split()`. */
  lemma SplitStrip(s: string, ws: set<char>)
    ensures Split(Strip(s, ws), ws) == Split(s, ws)
  {
    var d := DropSpace(s, ws);
    var r := DropSpaceRight(d, ws);
    assert d == r + d[|r|..];
    SplitTrailingSpace(r, d[|r|..], ws);
    assert DropSpace(d, ws) == d;
  }

  /** A string without whitespace is its own strip. */
  lemma StripNoSpace(s: string, ws: set<char>)
    requires NoSpace(s, ws)
    ensures Strip(s, ws) == s
  {
  }

  // ---------------------------------------------------------------------
  // Split on one separator character, and removing a character
  // ---------------------------------------------------------------------

  function Count(s: string, c: char): nat {
    if s == [] then 0 else (if s[0] == c then 1 else 0) + Count(s[1..], c)
  }

  /** `s.split(c)`: the pieces between occurrences of `c`, empty pieces included. */
  function SplitOn(s: string, c: char): (r: seq<string>)
    ensures |r| == Count(s, c) + 1
    ensures forall k :: 0 <= k < |r| ==> c !in r[k]
    decreases |s|
  {
    if s == [] then [[]]
    else
      var rest := SplitOn(s[1..], c);
      if s[0] == c then [[]] + rest
      else [[s[0]] + rest[0]] + rest[1..]
  }

  /** `sep.join(ps)` */
  function JoinWith(ps: seq<string>, sep: char): string {
    if ps == [] then []
    else if |ps| == 1 then ps[0]
    else ps[0] + [sep] + JoinWith(ps[1..], sep)
  }

  /** Putting the separator back between the pieces restores the string. */
  lemma {:induction false} JoinSplitOn(s: string, c: char)
    ensures JoinWith(SplitOn(s, c), c) == s
    decreases |s|
  {
    if s != [] {
      var rest := SplitOn(s[1..], c);
      JoinSplitOn(s[1..], c);
      if s[0] == c {
        assert s == [c] + s[1..];
      } else {
        assert s == [s[0]] + s[1..];
        if |rest| > 1 {
          assert rest == [rest[0]] + rest[1..];
        }
      }
    }
  }

  /** A piece free of the separator, then the separator: the piece comes
      first, then the pieces of the rest. */
  lemma {:induction false} SplitOnCons(a: string, t: string, c: char)
    requires c !in a
    ensures SplitOn(a + [c] + t, c) == [a] + SplitOn(t, c)
    decreases |a|
  {
    if a == [] {
      assert a + [c] + t == [c] + t;
      assert ([c] + t)[1..] == t;
    } else {
      assert (a + [c] + t)[1..] == a[1..] + [c] + t;
      SplitOnCons(a[1..], t, c);
      assert [a[0]] + a[1..] == a;
    }
  }

  /** `split(c)` undoes `c.join(ps)` when no piece contains `c`. */
  lemma {:induction false} SplitOnJoinWith(ps: seq<string>, c: char)
    requires |ps| > 0
    requires forall k :: 0 <= k < |ps| ==> c !in ps[k]
    ensures SplitOn(JoinWith(ps, c), c) == ps
    decreases |ps|
  {
    if |ps| == 1 {
      SplitOnNone(ps[0], c);
    } else {
      SplitOnJoinWith(ps[1..], c);
      SplitOnCons(ps[0], JoinWith(ps[1..], c), c);
      assert [ps[0]] + ps[1..] == ps;
    }
  }

  /** A string with exactly one separator splits into the two sides. */
  lemma {:induction false} SplitOnPair(a: string, b: string, c: char)
    requires c !in a && c !in b
    ensures SplitOn(a + [c] + b, c) == [a, b]
    decreases |a|
  {
    if a == [] {
      assert a + [c] + b == [c] + b;
      assert ([c] + b)[1..] == b;
      SplitOnNone(b, c);
    } else {
      assert (a + [c] + b)[1..] == a[1..] + [c] + b;
      SplitOnPair(a[1..], b, c);
      assert [a[0]] + a[1..] == a;
    }
  }

  /** A string without the separator is a single piece. */
  lemma {:induction false} SplitOnNone(s: string, c: char)
    requires c !in s
    ensures SplitOn(s, c) == [s]
    decreases |s|
  {
    if s != [] {
      SplitOnNone(s[1..], c);
      assert [s[0]] + s[1..] == s;
    }
  }

  /** `s.replace(c, '')` */
  function RemoveAll(s: string, c: char): (r: string)
    ensures c !in r
    ensures forall x :: x in r ==> x in s
    ensures |r| == |s| - Count(s, c)
    ensures c !in s ==> r == s
    decreases |s|
  {
    if s == [] then []
    else if s[0] == c then RemoveAll(s[1..], c)
    else [s[0]] + RemoveAll(s[1..], c)
  }

  /** Removing from a concatenation removes from each part: the characters
      that stay keep their order. */
  lemma {:induction false} RemoveAllAppend(a: string, b: string, c: char)
    ensures RemoveAll(a + b, c) == RemoveAll(a, c) + RemoveAll(b, c)
    decreases |a|
  {
    if a == [] {
      assert a + b == b;
    } else {
      assert (a + b)[0] == a[0] && (a + b)[1..] == a[1..] + b;
      RemoveAllAppend(a[1..], b, c);
      if a[0] != c {
        assert ([a[0]] + RemoveAll(a[1..], c)) + RemoveAll(b, c) == [a[0]] + (RemoveAll(a[1..], c) + RemoveAll(b, c));
      }
    }
  }

  /** One character is dropped when it is `c` and kept otherwise. */
  lemma RemoveAllChar(x: char, c: char)
    ensures RemoveAll([x], c) == if x == c then [] else [x]
  {
    assert [x][1..] == [];
  }

  // ---------------------------------------------------------------------
  // Leading digit run and decimal values
  // ---------------------------------------------------------------------

  /** The characters matched by `[0-9]`. */
  predicate IsDigit(c: char) {
    '0' <= c <= '9'
  }

  predicate AllDigits(s: string) {
    forall i :: 0 <= i < |s| ==> IsDigit(s[i])
  }

  /** The text matched by `re.search('[0-9]*', s)`: since the pattern also
      matches the empty string, the match is always at position 0. */
  function LeadingDigits(s: string): (r: string)
    ensures |r| <= |s| && r == s[..|r|]
    ensures AllDigits(r)
    ensures |r| == |s| || !IsDigit(s[|r|])
    decreases |s|
  {
    if s != [] && IsDigit(s[0]) then [s[0]] + LeadingDigits(s[1..]) else []
  }

  /** `int(ds)` for a string of ASCII digits. */
  function DigitsValue(ds: string): nat
    requires AllDigits(ds)
    decreases |ds|
  {
    if ds == [] then 0
    else DigitsValue(ds[..|ds| - 1]) * 10 + (ds[|ds| - 1] as int - '0' as int)
  }

  /** The canonical decimal spelling of `n`. */
  function Decimal(n: nat): (s: string)
    ensures s != [] && AllDigits(s)
  {
    if n < 10 then [('0' as int + n) as char]
    else Decimal(n / 10) + [('0' as int + n % 10) as char]
  }

  /** Reading a decimal spelling back gives the number. */
  lemma {:induction false} DecimalRoundTrip(n: nat)
    ensures DigitsValue(Decimal(n)) == n
  {
    if n >= 10 {
      var s := Decimal(n);
      assert s[..|s| - 1] == Decimal(n / 10);
      DecimalRoundTrip(n / 10);
    }
  }

  /** The leading digit run of a digit string followed by a non-digit suffix
      is that digit string. */
  lemma {:induction false} LeadingDigitsOfPrefix(ds: string, suffix: string)
    requires AllDigits(ds)
    requires suffix == [] || !IsDigit(suffix[0])
    ensures LeadingDigits(ds + suffix) == ds
    decreases |ds|
  {
    if ds != [] {
      assert (ds + suffix)[1..] == ds[1..] + suffix;
      LeadingDigitsOfPrefix(ds[1..], suffix);
    }
  }
}
