/**
 * The Python string operations the kernel log parser relies on: str.find,
 * str.split with a one-character separator, str.strip, the substring test
 * `p in s`, int() of a string and str() of an int.
 */
module Text {
  import opened Wrappers

  /** Python's str.isspace() for one character. */
  predicate IsSpace(c: char) {
    var n := c as int;
    n == 32 || 9 <= n <= 13 || 28 <= n <= 31 || n == 0x85 || n == 0xA0 || n == 0x1680
    || 0x2000 <= n <= 0x200A || n == 0x2028 || n == 0x2029 || n == 0x202F
    || n == 0x205F || n == 0x3000
  }

  predicate IsDigit(c: char) { '0' <= c <= '9' }

  predicate NoSpace(s: string) { forall i :: 0 <= i < |s| ==> !IsSpace(s[i]) }

  /** str.find with a one-character needle: the first index of `c`, or -1. */
  function Find(s: string, c: char): (r: int)
    ensures -1 <= r < |s|
    ensures r >= 0 ==> s[r] == c
    decreases |s|
  {
    if |s| == 0 then -1
    else if s[0] == c then 0
    else
      var k := Find(s[1..], c);
      if k < 0 then -1 else k + 1
  }

  /** Find reports the first occurrence, and -1 exactly when there is none. */
  lemma {:induction false} FindSpec(s: string, c: char)
    ensures Find(s, c) >= 0 ==> c !in s[..Find(s, c)]
    ensures Find(s, c) < 0 <==> c !in s
    decreases |s|
  {
    if |s| > 0 && s[0] != c {
      FindSpec(s[1..], c);
      assert s == [s[0]] + s[1..];
      var k := Find(s[1..], c);
      if k >= 0 {
        assert s[..k + 1] == [s[0]] + s[1..][..k];
      }
    }
  }

  /** Inverse of Split: the pieces glued back with the separator between them. */
  function Join(parts: seq<string>, sep: char): string
    requires |parts| >= 1
    decreases |parts|
  {
    if |parts| == 1 then parts[0] else parts[0] + [sep] + Join(parts[1..], sep)
  }

  /** str.split(sep): the maximal separator-free pieces, never an empty list. */
  function Split(s: string, sep: char): (r: seq<string>)
    ensures |r| >= 1
    decreases |s|
  {
    var i := Find(s, sep);
    if i < 0 then [s] else [s[..i]] + Split(s[i + 1..], sep)
  }

  /** No piece of a split holds the separator. */
  lemma {:induction false} SplitSpec(s: string, sep: char)
    ensures forall i :: 0 <= i < |Split(s, sep)| ==> sep !in Split(s, sep)[i]
    decreases |s|
  {
    FindSpec(s, sep);
    var i := Find(s, sep);
    if i >= 0 {
      SplitSpec(s[i + 1..], sep);
      PiecesCons(s[..i], Split(s[i + 1..], sep), sep);
    }
  }

  /** A separator-free head in front of separator-free pieces keeps them all separator-free. */
  lemma PiecesCons(a: string, rest: seq<string>, sep: char)
    requires sep !in a
    requires forall i :: 0 <= i < |rest| ==> sep !in rest[i]
    ensures forall i :: 0 <= i < |[a] + rest| ==> sep !in ([a] + rest)[i]
  {
  }

  /** Joining a piece in front of at least one more puts the separator after it. */
  lemma JoinCons(a: string, rest: seq<string>, sep: char)
    requires |rest| >= 1
    ensures Join([a] + rest, sep) == a + [sep] + Join(rest, sep)
  {
    assert ([a] + rest)[1..] == rest;
  }

  /** Join undoes Split: no character is lost or added. */
  lemma {:induction false} JoinSplit(s: string, sep: char)
    ensures Join(Split(s, sep), sep) == s
    decreases |s|
  {
    var i := Find(s, sep);
    if i >= 0 {
      JoinSplit(s[i + 1..], sep);
      JoinSplitStep(s, sep, i, Split(s[i + 1..], sep));
    }
  }

  /** One separator of `s` restored between the head piece and the rejoined rest. */
  lemma JoinSplitStep(s: string, sep: char, i: nat, rest: seq<string>)
    requires i < |s| && s[i] == sep && |rest| >= 1 && Join(rest, sep) == s[i + 1..]
    ensures Join([s[..i]] + rest, sep) == s
  {
    JoinCons(s[..i], rest, sep);
    assert s == s[..i] + [sep] + s[i + 1..];
  }

  /** Splitting after a separator-free head peels that head off. */
  lemma SplitCons(a: string, sep: char, b: string)
    requires sep !in a
    ensures Split(a + [sep] + b, sep) == [a] + Split(b, sep)
  {
    var s := a + [sep] + b;
    FindSpec(s, sep);
    assert s[..|a|] == a;
    assert s[|a|] == sep;
    assert Find(s, sep) == |a|;
    assert s[|a| + 1..] == b;
  }

  /** Split undoes Join when no piece holds the separator. */
  lemma {:induction false} SplitJoin(parts: seq<string>, sep: char)
    requires |parts| >= 1
    requires forall i :: 0 <= i < |parts| ==> sep !in parts[i]
    ensures Split(Join(parts, sep), sep) == parts
    decreases |parts|
  {
    if |parts| == 1 {
      FindSpec(parts[0], sep);
    } else {
      SplitJoin(parts[1..], sep);
      SplitCons(parts[0], sep, Join(parts[1..], sep));
      assert [parts[0]] + parts[1..] == parts;
    }
  }

  /** str.lstrip(): drops the leading whitespace. */
  function TrimLeft(s: string): (r: string)
    ensures |r| <= |s|
    decreases |s|
  {
    if |s| > 0 && IsSpace(s[0]) then TrimLeft(s[1..]) else s
  }

  /** What lstrip keeps is a suffix of `s` starting at a non-blank, and what it drops is blank. */
  lemma {:induction false} TrimLeftSpec(s: string)
    ensures var r := TrimLeft(s);
      r == s[|s| - |r|..] && (r == [] || !IsSpace(r[0]))
      && forall i :: 0 <= i < |s| - |r| ==> IsSpace(s[i])
    decreases |s|
  {
    if |s| > 0 && IsSpace(s[0]) {
      TrimLeftSpec(s[1..]);
      var r := TrimLeft(s);
      assert s[|s| - |r|..] == s[1..][|s| - 1 - |r|..];
      forall i | 1 <= i < |s| - |r| ensures IsSpace(s[i]) {
        assert s[i] == s[1..][i - 1];
      }
    }
  }

  /** str.rstrip(): drops the trailing whitespace. */
  function TrimRight(s: string): (r: string)
    ensures |r| <= |s|
    decreases |s|
  {
    if |s| > 0 && IsSpace(s[|s| - 1]) then TrimRight(s[..|s| - 1]) else s
  }

  /** What rstrip keeps is a prefix of `s` ending at a non-blank, and what it drops is blank. */
  lemma {:induction false} TrimRightSpec(s: string)
    ensures var r := TrimRight(s);
      r == s[..|r|] && (r == [] || !IsSpace(r[|r| - 1]))
      && forall i :: |r| <= i < |s| ==> IsSpace(s[i])
    decreases |s|
  {
    if |s| > 0 && IsSpace(s[|s| - 1]) {
      TrimRightSpec(s[..|s| - 1]);
      var r := TrimRight(s);
      assert s[..|r|] == s[..|s| - 1][..|r|];
      forall i | |r| <= i < |s| - 1 ensures IsSpace(s[i]) {
        assert s[i] == s[..|s| - 1][i];
      }
    }
  }

  /** `piece` occurs in `s` starting at index `lo`. */
  predicate SliceAt(s: string, lo: int, piece: string) {
    0 <= lo && lo + |piece| <= |s| && s[lo..lo + |piece|] == piece
  }

  /** str.strip(): the middle of `s` between leading and trailing whitespace. */
  function Strip(s: string): (r: string)
    ensures |r| <= |s|
  {
    TrimRight(TrimLeft(s))
  }

  /**
   * Strip keeps a contiguous piece of `s` that starts and ends with a
   * non-blank, and removes only whitespace around it.
   */
  lemma StripSlice(s: string)
    ensures var r := Strip(s);
      (r == [] || (!IsSpace(r[0]) && !IsSpace(r[|r| - 1])))
      && exists lo :: (SliceAt(s, lo, r)
        && (forall i :: 0 <= i < lo ==> IsSpace(s[i]))
        && (forall i :: lo + |r| <= i < |s| ==> IsSpace(s[i])))
  {
    var l := TrimLeft(s);
    var r := TrimRight(l);
    TrimLeftSpec(s);
    TrimRightSpec(l);
    var lo := |s| - |l|;
    assert r != [] ==> r[0] == l[0];
    KeptSlice(s, lo, l, r);
    assert forall i :: 0 <= i < lo ==> IsSpace(s[i]);
  }

  /** A prefix `r` of the suffix `l` of `s` sits in `s` where `l` starts; blanks after it in `l` are blanks in `s`. */
  lemma KeptSlice(s: string, lo: nat, l: string, r: string)
    requires lo <= |s| && l == s[lo..] && |r| <= |l| && r == l[..|r|]
    requires forall i :: |r| <= i < |l| ==> IsSpace(l[i])
    ensures SliceAt(s, lo, r) && forall i :: lo + |r| <= i < |s| ==> IsSpace(s[i])
  {
    assert s[lo..lo + |r|] == l[..|r|];
    forall i | lo + |r| <= i < |s|
      ensures IsSpace(s[i])
    {
      assert s[i] == l[i - lo];
    }
  }

  /** Leading blanks in front of a word are exactly what lstrip removes. */
  lemma {:induction false} TrimLeftPadded(pad: string, w: string)
    requires forall i :: 0 <= i < |pad| ==> IsSpace(pad[i])
    requires |w| > 0 && !IsSpace(w[0])
    ensures TrimLeft(pad + w) == w
    decreases |pad|
  {
    if |pad| == 0 {
      assert pad + w == w;
    } else {
      assert (pad + w)[1..] == pad[1..] + w;
      TrimLeftPadded(pad[1..], w);
    }
  }

  /** A whitespace-free word keeps its text under strip, even behind leading blanks. */
  lemma StripPadded(pad: string, w: string)
    requires forall i :: 0 <= i < |pad| ==> IsSpace(pad[i])
    requires |w| > 0 && NoSpace(w)
    ensures Strip(pad + w) == w
  {
    TrimLeftPadded(pad, w);
    TrimRightSpec(w);
    assert TrimRight(w) == w;
  }

  /** The substring test `pat in text`. */
  function Contains(text: string, pat: string): (r: bool)
    ensures r <==> exists i :: SliceAt(text, i, pat)
    decreases |text|
  {
    if pat <= text then
      assert SliceAt(text, 0, pat);
      true
    else if |text| == 0 then
      assert forall i :: SliceAt(text, i, pat) ==> i == 0;
      false
    else
      var b := Contains(text[1..], pat);
      if b then
        var i :| SliceAt(text[1..], i, pat);
        assert SliceAt(text, i + 1, pat);
        true
      else
        assert forall i :: SliceAt(text, i, pat) ==> i == 0 || SliceAt(text[1..], i - 1, pat);
        false
  }

  /** A text built around the pattern contains it. */
  lemma ContainsInfix(before: string, pat: string, after: string)
    ensures Contains(before + pat + after, pat)
  {
    var t := before + pat + after;
    assert t[|before|..|before| + |pat|] == pat;
    assert SliceAt(t, |before|, pat);
  }

  /** A text none of whose characters is the pattern's first one cannot contain it. */
  lemma ContainsNeedsFirstChar(text: string, pat: string)
    requires |pat| > 0 && pat[0] !in text
    ensures !Contains(text, pat)
  {
    forall i | 0 <= i <= |text| - |pat|
      ensures !SliceAt(text, i, pat)
    {
      assert text[i..i + |pat|][0] == text[i];
    }
  }

  function DigitValue(c: char): nat
    requires IsDigit(c)
  {
    c as int - '0' as int
  }

  function DigitChar(d: nat): (c: char)
    requires d < 10
    ensures IsDigit(c) && DigitValue(c) == d
  {
    ('0' as int + d) as char
  }

  /** The value of a run of decimal digits, most significant first. */
  function DigitsValue(ds: string): nat
    requires forall i :: 0 <= i < |ds| ==> IsDigit(ds[i])
    decreases |ds|
  {
    if |ds| == 0 then 0 else DigitsValue(ds[..|ds| - 1]) * 10 + DigitValue(ds[|ds| - 1])
  }

  /** str(n) for a natural number: its shortest decimal digits. */
  function NatToString(n: nat): (r: string)
    ensures |r| >= 1 && (forall i :: 0 <= i < |r| ==> IsDigit(r[i]))
    ensures DigitsValue(r) == n
    decreases n
  {
    if n < 10 then [DigitChar(n)]
    else
      var r := NatToString(n / 10) + [DigitChar(n % 10)];
      assert r[..|r| - 1] == NatToString(n / 10);
      r
  }

  /** str(n), and so "%u" % n, for any Python int. */
  function IntToString(n: int): (r: string)
    ensures |r| >= 1 && NoSpace(r)
    ensures forall i :: 0 <= i < |r| ==> IsDigit(r[i]) || (i == 0 && r[i] == '-')
  {
    if n < 0 then "-" + NatToString(-n) else NatToString(n)
  }

  /** The sign-and-digits core of int(): an optional sign, then one or more digits. */
  function ParseSigned(t: string): Option<int> {
    var neg := |t| > 0 && t[0] == '-';
    var body := if |t| > 0 && (t[0] == '-' || t[0] == '+') then t[1..] else t;
    if |body| > 0 && forall i :: 0 <= i < |body| ==> IsDigit(body[i]) then
      var v: int := DigitsValue(body);
      Some(if neg then -v else v)
    else None
  }

  /** int(s): surrounding whitespace ignored, None where Python raises ValueError. */
  function ParseInt(s: string): Option<int> {
    ParseSigned(Strip(s))
  }

  lemma ParseSignedDigits(d: string)
    requires |d| >= 1 && forall i :: 0 <= i < |d| ==> IsDigit(d[i])
    ensures ParseSigned(d) == Some(DigitsValue(d) as int)
    ensures ParseSigned("-" + d) == Some(-(DigitsValue(d) as int))
  {
    assert IsDigit(d[0]);
    assert ("-" + d)[1..] == d;
  }

  /** int() reads back what str() writes: the harness's header integers round-trip. */
  lemma ParseIntOfIntToString(n: int)
    ensures ParseInt(IntToString(n)) == Some(n)
  {
    var s := IntToString(n);
    StripPadded([], s);
    assert [] + s == s;
    if n < 0 {
      ParseSignedDigits(NatToString(-n));
    } else {
      ParseSignedDigits(NatToString(n));
    }
  }
}
