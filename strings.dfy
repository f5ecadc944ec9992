/** String operations the source takes from Python and JavaScript: ASCII
    case folding, `in`, `startswith`/`endswith`, `split`/`join`, `replace`,
    `strip`, `str(int)` and `f"{n:,}"`. */
module Strings {
  import opened Numbers

  // ---------------------------------------------------------------------------
  // Case folding (ASCII only)

  function LowerChar(c: char): char
  {
    if 'A' <= c <= 'Z' then (c as int + 32) as char else c
  }

  /** `s.lower()`, restricted to ASCII letters. */
  function Lower(s: string): (r: string)
    ensures |r| == |s|
    ensures forall i :: 0 <= i < |s| ==> r[i] == LowerChar(s[i])
  {
    seq(|s|, i requires 0 <= i < |s| => LowerChar(s[i]))
  }

  // ---------------------------------------------------------------------------
  // Prefixes, suffixes, substrings

  predicate StartsWith(s: string, p: string)
  {
    |p| <= |s| && s[..|p|] == p
  }

  lemma StartsWithOwnPrefix(a: string, b: string)
    ensures StartsWith(a + b, a)
  {
    assert (a + b)[..|a|] == a;
  }

  /** One differing character rules a prefix out. */
  lemma DiffersAt(s: string, p: string, k: int)
    requires 0 <= k < |p| && k < |s| && s[k] != p[k]
    ensures !StartsWith(s, p)
  {
    if |p| <= |s| {
      assert s[..|p|][k] == s[k];
    }
  }

  predicate EndsWith(s: string, p: string)
  {
    |p| <= |s| && s[|s| - |p|..] == p
  }

  /** `t` occurs in `s` starting at index `i`. */
  predicate OccursAt(s: string, t: string, i: int)
  {
    0 <= i && i + |t| <= |s| && s[i..i + |t|] == t
  }

  /** Python's `t in s` for strings. */
  predicate Contains(s: string, t: string)
  {
    exists i :: 0 <= i <= |s| - |t| && OccursAt(s, t, i)
  }

  // ---------------------------------------------------------------------------
  // split / join / replace

  /** Python's `s.split(sep)`: cut at every occurrence of `sep`, scanning
      left to right without overlaps. */
  function Split(s: string, sep: string): (parts: seq<string>)
    requires sep != []
    ensures |parts| >= 1
    decreases |s|
  {
    if |s| < |sep| then [s]
    else if s[..|sep|] == sep then [[]] + Split(s[|sep|..], sep)
    else
      var rest := Split(s[1..], sep);
      [[s[0]] + rest[0]] + rest[1..]
  }

  /** Python's `sep.join(parts)`. */
  function Join(parts: seq<string>, sep: string): string
  {
    if |parts| == 0 then []
    else if |parts| == 1 then parts[0]
    else parts[0] + sep + Join(parts[1..], sep)
  }

  /** Joining the pieces of a split with the same separator gives the string back. */
  lemma {:induction false} JoinSplit(s: string, sep: string)
    requires sep != []
    ensures Join(Split(s, sep), sep) == s
    decreases |s|
  {
    if |s| < |sep| {
    } else if s[..|sep|] == sep {
      JoinSplit(s[|sep|..], sep);
      var rest := Split(s[|sep|..], sep);
      assert Split(s, sep) == [[]] + rest;
      assert ([[]] + rest)[1..] == rest;
      assert s == s[..|sep|] + s[|sep|..];
    } else {
      JoinSplit(s[1..], sep);
      var rest := Split(s[1..], sep);
      var parts := [[s[0]] + rest[0]] + rest[1..];
      assert Split(s, sep) == parts;
      if |rest| > 1 {
        assert parts[1..] == rest[1..];
      }
      assert s == [s[0]] + s[1..];
    }
  }

  /** The first piece of a split is a prefix of the string. */
  lemma {:induction false} SplitHeadIsPrefix(s: string, sep: string)
    requires sep != []
    ensures StartsWith(s, Split(s, sep)[0])
    decreases |s|
  {
    if |s| < |sep| {
    } else if s[..|sep|] == sep {
    } else {
      SplitHeadIsPrefix(s[1..], sep);
      var rest := Split(s[1..], sep);
      assert s[1..][..|rest[0]|] == rest[0];
      assert s[..|rest[0]| + 1] == [s[0]] + rest[0];
    }
  }

  /** No piece of a split contains the separator. */
  lemma {:induction false} SplitPartsAvoidSep(s: string, sep: string)
    requires sep != []
    ensures forall k :: 0 <= k < |Split(s, sep)| ==> !Contains(Split(s, sep)[k], sep)
    decreases |s|
  {
    if |s| < |sep| {
    } else if s[..|sep|] == sep {
      SplitPartsAvoidSep(s[|sep|..], sep);
      var rest := Split(s[|sep|..], sep);
      assert Split(s, sep) == [[]] + rest;
    } else {
      SplitPartsAvoidSep(s[1..], sep);
      SplitHeadIsPrefix(s[1..], sep);
      var rest := Split(s[1..], sep);
      var head := [s[0]] + rest[0];
      assert Split(s, sep) == [head] + rest[1..];
      forall i | 0 <= i <= |head| - |sep|
        ensures !OccursAt(head, sep, i)
      {
        if i == 0 {
          assert s[..|head|] == head;
          assert s[..|sep|] == head[..|sep|];
        } else {
          assert rest[0][i - 1..i - 1 + |sep|] == head[i..i + |sep|];
          assert !OccursAt(rest[0], sep, i - 1);
        }
      }
    }
  }

  /** A window that meets a character of `m` cannot equal `t` when `m` and
      `t` share no character. */
  lemma ConcatAvoids(a: string, m: string, b: string, t: string)
    requires t != [] && m != []
    requires !Contains(a, t) && !Contains(b, t)
    requires forall c :: c in m ==> c !in t
    ensures !Contains(a + m + b, t)
  {
    var x := a + m + b;
    forall i | 0 <= i <= |x| - |t|
      ensures !OccursAt(x, t, i)
    {
      if i + |t| <= |a| {
        assert x[i..i + |t|] == a[i..i + |t|];
        assert !OccursAt(a, t, i);
      } else if i >= |a| + |m| {
        var j := i - |a| - |m|;
        assert x[|a| + |m|..] == b;
        assert x[i..i + |t|] == x[|a| + |m|..][j..j + |t|];
        assert !OccursAt(b, t, j);
      } else {
        var p := if i >= |a| then i else |a|;
        assert x[i..i + |t|][p - i] == m[p - |a|];
        assert m[p - |a|] in m;
        assert t[p - i] in t;
      }
    }
  }

  /** Joining pieces free of `t` with a non-empty separator that shares no
      character with `t` gives a string free of `t`. */
  lemma {:induction false} JoinAvoids(parts: seq<string>, sep: string, t: string)
    requires t != [] && sep != []
    requires forall k :: 0 <= k < |parts| ==> !Contains(parts[k], t)
    requires forall c :: c in sep ==> c !in t
    ensures !Contains(Join(parts, sep), t)
  {
    if |parts| == 0 {
    } else if |parts| == 1 {
    } else {
      JoinAvoids(parts[1..], sep, t);
      ConcatAvoids(parts[0], sep, Join(parts[1..], sep), t);
    }
  }

  /** A string without `sep` splits into itself alone. */
  lemma {:induction false} SplitWithoutSep(s: string, sep: string)
    requires sep != []
    requires forall i :: 0 <= i <= |s| - |sep| ==> !OccursAt(s, sep, i)
    ensures Split(s, sep) == [s]
    decreases |s|
  {
    if |s| >= |sep| {
      assert !OccursAt(s, sep, 0);
      forall i | 0 <= i <= |s[1..]| - |sep|
        ensures !OccursAt(s[1..], sep, i)
      {
        assert s[1..][i..i + |sep|] == s[i + 1..i + 1 + |sep|];
        assert !OccursAt(s, sep, i + 1);
      }
      SplitWithoutSep(s[1..], sep);
      assert [s[0]] + s[1..] == s;
    }
  }

  lemma SplitPieceAvoidsSep(s: string, sep: string, k: int)
    requires sep != [] && 0 <= k < |Split(s, sep)|
    ensures !Contains(Split(s, sep)[k], sep)
  {
    SplitPartsAvoidSep(s, sep);
  }

  /** Stripping keeps out every character the string avoided. */
  lemma StripAvoidsChars(s: string, cs: set<char>, ds: set<char>)
    requires forall j :: 0 <= j < |s| ==> s[j] !in ds
    ensures forall j :: 0 <= j < |Strip(s, cs)| ==> Strip(s, cs)[j] !in ds
  {
    var r := Strip(s, cs);
    var at :| 0 <= at <= |s| - |r| && OccursAt(s, r, at);
    forall j | 0 <= j < |r|
      ensures r[j] !in ds
    {
      assert s[at..at + |r|][j] == s[at + j];
    }
  }

  /** Stripping a string free of `t` leaves it free of `t`. */
  lemma StripAvoids(s: string, cs: set<char>, t: string)
    requires !Contains(s, t)
    ensures !Contains(Strip(s, cs), t)
  {
    var r := Strip(s, cs);
    var i :| 0 <= i <= |s| - |r| && OccursAt(s, r, i);
    InfixAvoids(s, r, i, t);
  }

  /** A piece of a string free of `t` is free of `t`. */
  lemma InfixAvoids(s: string, r: string, i: int, t: string)
    requires OccursAt(s, r, i) && !Contains(s, t)
    ensures !Contains(r, t)
  {
    forall k | 0 <= k <= |r| - |t|
      ensures !OccursAt(r, t, k)
    {
      var a, b := r[k..k + |t|], s[i + k..i + k + |t|];
      forall m | 0 <= m < |t|
        ensures a[m] == b[m]
      {
        assert r[k + m] == s[i..i + |r|][k + m];
      }
      assert a == b;
      assert !OccursAt(s, t, i + k);
    }
  }

  /** Python's `s.replace(pat, repl)`. */
  function ReplaceAll(s: string, pat: string, repl: string): string
    requires pat != []
  {
    Join(Split(s, pat), repl)
  }

  /** After replacing every `pat` by a non-empty `repl` that shares no character
      with `pat`, no `pat` is left. */
  lemma ReplaceAllRemoves(s: string, pat: string, repl: string)
    requires pat != [] && repl != []
    requires forall c :: c in repl ==> c !in pat
    ensures !Contains(ReplaceAll(s, pat, repl), pat)
  {
    SplitPartsAvoidSep(s, pat);
    JoinAvoids(Split(s, pat), repl, pat);
  }

  // ---------------------------------------------------------------------------
  // strip / trim / splitting on a character class

  function StripLeft(s: string, cs: set<char>): (r: string)
    ensures |r| <= |s| && r == s[|s| - |r|..]
    ensures r == [] || r[0] !in cs
  {
    if s != [] && s[0] in cs then StripLeft(s[1..], cs) else s
  }

  function StripRight(s: string, cs: set<char>): (r: string)
    ensures |r| <= |s| && r == s[..|r|]
    ensures r == [] || r[|r| - 1] !in cs
  {
    if s != [] && s[|s| - 1] in cs then StripRight(s[..|s| - 1], cs) else s
  }

  /** Python's `s.strip(chars)`. */
  function Strip(s: string, cs: set<char>): (r: string)
    ensures r == [] || (r[0] !in cs && r[|r| - 1] !in cs)
    ensures exists i :: 0 <= i <= |s| - |r| && OccursAt(s, r, i)
  {
    var l := StripLeft(s, cs);
    var r := StripRight(l, cs);
    assert s[|s| - |l|..][..|r|] == s[|s| - |l|..|s| - |l| + |r|];
    assert OccursAt(s, r, |s| - |l|);
    r
  }

  /** What `StripLeft` removes is a run of characters of `cs`. */
  lemma {:induction false} StripLeftRun(s: string, cs: set<char>)
    ensures forall j :: 0 <= j < |s| - |StripLeft(s, cs)| ==> s[j] in cs
  {
    if s != [] && s[0] in cs {
      StripLeftRun(s[1..], cs);
      forall j | 0 < j < |s| - |StripLeft(s, cs)|
        ensures s[j] in cs
      {
        assert s[j] == s[1..][j - 1];
      }
    }
  }

  /** What `StripRight` removes is a run of characters of `cs`. */
  lemma {:induction false} StripRightRun(s: string, cs: set<char>)
    ensures forall j :: |StripRight(s, cs)| <= j < |s| ==> s[j] in cs
  {
    if s != [] && s[|s| - 1] in cs {
      StripRightRun(s[..|s| - 1], cs);
    }
  }

  /** `r` is `s` with its leading run `s[..a]` and its trailing run
      `s[a + |r|..]` of characters of `cs` removed. */
  predicate StrippedAt(s: string, cs: set<char>, r: string, a: int)
  {
    && OccursAt(s, r, a)
    && (forall j :: 0 <= j < a ==> s[j] in cs)
    && (forall j :: a + |r| <= j < |s| ==> s[j] in cs)
  }

  /** What `Strip` cuts after the stripped text is a run of characters of `cs`. */
  lemma StripTrailingRun(s: string, cs: set<char>)
    ensures var l := StripLeft(s, cs);
      forall j :: |s| - |l| + |StripRight(l, cs)| <= j < |s| ==> s[j] in cs
  {
    var l := StripLeft(s, cs);
    var a := |s| - |l|;
    StripRightRun(l, cs);
    assert l == s[a..];
    forall j | a + |StripRight(l, cs)| <= j < |s|
      ensures s[j] in cs
    {
      assert s[j] == l[j - a];
    }
  }

  /** The stripped text occurs in `s` right after the leading run. */
  lemma StripOccurs(s: string, cs: set<char>)
    ensures OccursAt(s, Strip(s, cs), |s| - |StripLeft(s, cs)|)
  {
    var l := StripLeft(s, cs);
    var r := StripRight(l, cs);
    var a := |s| - |l|;
    assert l == s[a..] && r == l[..|r|];
    assert s[a..a + |r|] == s[a..][..|r|];
  }

  /** The stripped text sits in `s` between the leading and the trailing run. */
  lemma StripAt(s: string, cs: set<char>)
    ensures StrippedAt(s, cs, Strip(s, cs), |s| - |StripLeft(s, cs)|)
  {
    StripOccurs(s, cs);
    StripLeftRun(s, cs);
    StripTrailingRun(s, cs);
    assert Strip(s, cs) == StripRight(StripLeft(s, cs), cs);
  }

  /** Stripping removes exactly a leading and a trailing run of characters
      of `cs`: what is left starts and ends outside `cs`. */
  lemma StripIsExact(s: string, cs: set<char>)
    ensures var r := Strip(s, cs);
      && (r == [] || (r[0] !in cs && r[|r| - 1] !in cs))
      && exists a :: 0 <= a <= |s| - |r| && StrippedAt(s, cs, r, a)
  {
    StripAt(s, cs);
    var a := |s| - |StripLeft(s, cs)|;
    assert 0 <= a <= |s| - |Strip(s, cs)|;
  }

  /** A string that neither starts nor ends with a character of `cs` is
      left as it is. */
  lemma StripUnchanged(s: string, cs: set<char>)
    requires s != [] && s[0] !in cs && s[|s| - 1] !in cs
    ensures Strip(s, cs) == s
  {
    assert StripLeft(s, cs) == s;
  }

  const Whitespace: set<char> := {' ', '\t', '\n', '\r', '\U{000B}', '\U{000C}'}

  /** Python's `s.strip()` and JavaScript's `s.trim()`, on ASCII whitespace. */
  function Trim(s: string): string
  {
    Strip(s, Whitespace)
  }

  /** `s.split(/[ds]/)`: cut at every character of `ds`. */
  function SplitAny(s: string, ds: set<char>): (parts: seq<string>)
    ensures |parts| >= 1
    ensures forall k, j :: 0 <= k < |parts| && 0 <= j < |parts[k]| ==> parts[k][j] !in ds
  {
    if s == [] then [[]]
    else
      var rest := SplitAny(s[1..], ds);
      if s[0] in ds then [[]] + rest else [[s[0]] + rest[0]] + rest[1..]
  }

  // ---------------------------------------------------------------------------
  // Numbers as text

  predicate IsDigit(c: char)
  {
    '0' <= c <= '9'
  }

  function DigitChar(d: int): (c: char)
    requires 0 <= d < 10
    ensures IsDigit(c)
  {
    ('0' as int + d) as char
  }

  function DigitValue(c: char): int
  {
    c as int - '0' as int
  }

  /** `str(n)` for a natural number. */
  function NatToString(n: nat): (r: string)
    ensures |r| >= 1
    ensures forall i :: 0 <= i < |r| ==> IsDigit(r[i])
    decreases n
  {
    if n < 10 then [DigitChar(n)] else NatToString(n / 10) + [DigitChar(n % 10)]
  }

  /** `int(s)` for a string of decimal digits. */
  function ParseNat(s: string): int
  {
    if s == [] then 0 else ParseNat(s[..|s| - 1]) * 10 + DigitValue(s[|s| - 1])
  }

  /** Reading back the decimal rendering of a number gives the number. */
  lemma {:induction false} ParseNatToString(n: nat)
    ensures ParseNat(NatToString(n)) == n
    decreases n
  {
    if n >= 10 {
      ParseNatToString(n / 10);
      var s := NatToString(n);
      assert s[..|s| - 1] == NatToString(n / 10);
    }
  }

  /** `str(i)` for an integer. */
  function IntToString(i: int): (r: string)
    ensures i >= 0 ==> r == NatToString(i)
    ensures i < 0 ==> r == "-" + NatToString(-i)
  {
    if i < 0 then "-" + NatToString(-i) else NatToString(i)
  }

  /** Three digits with leading zeros. */
  function Pad3(m: nat): string
    requires m < 1000
  {
    [DigitChar(m / 100), DigitChar(m / 10 % 10), DigitChar(m % 10)]
  }

  function GroupDigits(n: nat): string
    decreases n
  {
    if n < 1000 then NatToString(n) else GroupDigits(n / 1000) + "," + Pad3(n % 1000)
  }

  /** Python's `f"{i:,}"`: decimal digits in groups of three separated by commas. */
  function WithThousands(i: int): string
  {
    if i < 0 then "-" + GroupDigits(-i) else GroupDigits(i)
  }

  /** `f"AED {int(x):,}"`. */
  function Aed(x: real): string
  {
    "AED " + WithThousands(Trunc(x))
  }

  function DropCommas(s: string): string
  {
    if s == [] then [] else (if s[0] == ',' then [] else [s[0]]) + DropCommas(s[1..])
  }

  lemma DropCommasCons(x: char, t: string)
    ensures DropCommas([x] + t) == (if x == ',' then [] else [x]) + DropCommas(t)
  {
    assert ([x] + t)[1..] == t;
  }

  lemma {:induction false} DropCommasConcat(a: string, b: string)
    ensures DropCommas(a + b) == DropCommas(a) + DropCommas(b)
  {
    if a == [] {
      assert a + b == b;
    } else {
      var x, t := a[0], a[1..];
      DropCommasConcat(t, b);
      assert a == [x] + t;
      assert a + b == [x] + (t + b);
      DropCommasCons(x, t);
      DropCommasCons(x, t + b);
    }
  }

  lemma {:induction false} DropCommasDigits(s: string)
    requires forall i :: 0 <= i < |s| ==> IsDigit(s[i])
    ensures DropCommas(s) == s
  {
    if s != [] {
      DropCommasDigits(s[1..]);
    }
  }

  /** The last three digits of a number of four or more digits are `Pad3(n % 1000)`. */
  lemma LastThreeDigits(n: nat)
    requires n >= 1000
    ensures NatToString(n) == NatToString(n / 1000) + Pad3(n % 1000)
  {
    var m := n % 1000;
    assert n / 10 / 10 == n / 100;
    assert n / 100 / 10 == n / 1000;
    assert n / 100 % 10 == m / 100;
    assert n / 10 % 10 == m / 10 % 10;
    assert n % 10 == m % 10;
    calc {
      NatToString(n);
      NatToString(n / 10) + [DigitChar(n % 10)];
      NatToString(n / 100) + [DigitChar(n / 10 % 10)] + [DigitChar(n % 10)];
      NatToString(n / 1000) + [DigitChar(n / 100 % 10)] + [DigitChar(n / 10 % 10)] + [DigitChar(n % 10)];
    }
  }

  /** Removing the thousands separators gives back `str(n)`. */
  lemma {:induction false} GroupDigitsDropCommas(n: nat)
    ensures DropCommas(GroupDigits(n)) == NatToString(n)
    decreases n
  {
    if n < 1000 {
      DropCommasDigits(NatToString(n));
    } else {
      GroupDigitsDropCommas(n / 1000);
      var hi, lo := GroupDigits(n / 1000), Pad3(n % 1000);
      DropCommasConcat(hi + ",", lo);
      DropCommasConcat(hi, ",");
      DropCommasDigits(lo);
      LastThreeDigits(n);
    }
  }

  /** `f"{i:,}"` is `str(i)` with commas inserted. */
  lemma WithThousandsDropCommas(i: int)
    ensures DropCommas(WithThousands(i)) == IntToString(i)
  {
    if i < 0 {
      GroupDigitsDropCommas(-i);
      DropCommasConcat("-", GroupDigits(-i));
    } else {
      GroupDigitsDropCommas(i);
    }
  }
}
