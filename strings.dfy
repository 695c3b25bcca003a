/**
 * The pieces of Go's `strings` and `fmt` packages that the core relies on:
 * decimal rendering of placeholder numbers (`%d`), `strings.Join`,
 * `strings.ToLower`, `strings.TrimSpace`, `strings.Fields` and
 * `strings.EqualFold`. Strings are sequences of Unicode code points, as Go
 * strings are once decoded as runes.
 */
module Strings {

  // ---------------------------------------------------------------------
  // Decimal digits
  // ---------------------------------------------------------------------

  predicate IsDigit(c: char) { '0' <= c <= '9' }

  predicate AllDigits(s: string) { forall i :: 0 <= i < |s| ==> IsDigit(s[i]) }

  function DigitValue(c: char): nat
    requires IsDigit(c)
  {
    (c as int) - ('0' as int)
  }

  function DigitChar(d: nat): (c: char)
    requires d < 10
    ensures IsDigit(c) && DigitValue(c) == d
  {
    (('0' as int) + d) as char
  }

  /** `fmt.Sprintf("%d", n)` for a non-negative `n`: no sign, no leading zeros. */
  function NatToString(n: nat): (s: string)
    ensures |s| > 0 && AllDigits(s)
    ensures |s| > 1 ==> s[0] != '0'
    decreases n
  {
    if n < 10 then [DigitChar(n)] else NatToString(n / 10) + [DigitChar(n % 10)]
  }

  /** The value of a string of decimal digits, most significant first. */
  function DigitsValue(s: string): nat
    requires AllDigits(s)
    decreases |s|
  {
    if |s| == 0 then 0 else DigitsValue(s[..|s| - 1]) * 10 + DigitValue(s[|s| - 1])
  }

  /** Reading back a rendered number gives the number. */
  lemma {:induction false} DigitsValueOfNatToString(n: nat)
    ensures DigitsValue(NatToString(n)) == n
    decreases n
  {
    if n >= 10 {
      DigitsValueOfNatToString(n / 10);
      var s := NatToString(n);
      assert s[..|s| - 1] == NatToString(n / 10);
    }
  }

  // ---------------------------------------------------------------------
  // strings.Join
  // ---------------------------------------------------------------------

  function Join(parts: seq<string>, sep: string): string
    decreases |parts|
  {
    if |parts| == 0 then ""
    else if |parts| == 1 then parts[0]
    else parts[0] + sep + Join(parts[1..], sep)
  }

  lemma JoinOfThree(x: string, y: string, z: string, sep: string)
    ensures Join([x, y, z], sep) == x + sep + y + sep + z
  {
    assert Join([y, z], sep) == y + sep + z by {
      assert [y, z][1..] == [z];
    }
    assert [x, y, z][1..] == [y, z];
    assert Join([x, y, z], sep) == x + sep + (y + sep + z);
  }

  lemma {:induction false} JoinSnoc(parts: seq<string>, p: string, sep: string)
    requires |parts| > 0
    ensures Join(parts + [p], sep) == Join(parts, sep) + sep + p
    decreases |parts|
  {
    if |parts| > 1 {
      assert (parts + [p])[1..] == parts[1..] + [p];
      JoinSnoc(parts[1..], p, sep);
    } else {
      assert (parts + [p])[1..] == [p];
    }
  }

  // ---------------------------------------------------------------------
  // strings.ToLower (ASCII letters only)
  // ---------------------------------------------------------------------

  function LowerChar(c: char): char
  {
    if 'A' <= c <= 'Z' then ((c as int) + 32) as char else c
  }

  /** Lower-cases the ASCII letters of `s` and leaves every other character alone. */
  function ToLower(s: string): (r: string)
    ensures |r| == |s|
    ensures forall i :: 0 <= i < |s| ==> r[i] == LowerChar(s[i])
  {
    seq(|s|, i requires 0 <= i < |s| => LowerChar(s[i]))
  }

  lemma ToLowerIdempotent(s: string)
    ensures ToLower(ToLower(s)) == ToLower(s)
  {
  }

  /**
   * `strings.EqualFold` against an ASCII word: equal under case folding.
   * (For a word of ASCII letters other than k and s, Unicode simple folding
   * adds no further matches.)
   */
  predicate EqualFoldAscii(a: string, b: string)
  {
    |a| == |b| && forall i :: 0 <= i < |a| ==> LowerChar(a[i]) == LowerChar(b[i])
  }

  // ---------------------------------------------------------------------
  // White space: unicode.IsSpace, strings.TrimSpace, strings.Fields
  // ---------------------------------------------------------------------

  /** `unicode.IsSpace`: the Latin-1 spaces and Unicode's White_Space set. */
  predicate IsSpace(c: char)
  {
    c == ' ' || c == '\t' || c == '\n' || c == '\U{000B}' || c == '\U{000C}' || c == '\r'
    || c == '\U{0085}' || c == '\U{00A0}' || c == '\U{1680}'
    || ('\U{2000}' <= c <= '\U{200A}')
    || c == '\U{2028}' || c == '\U{2029}' || c == '\U{202F}' || c == '\U{205F}' || c == '\U{3000}'
  }

  predicate AllSpace(s: string) { forall i :: 0 <= i < |s| ==> IsSpace(s[i]) }

  predicate NoSpace(s: string) { forall i :: 0 <= i < |s| ==> !IsSpace(s[i]) }

  /** `s` has no white space at either end. */
  predicate Trimmed(s: string) { s == [] || (!IsSpace(s[0]) && !IsSpace(s[|s| - 1])) }

  function TrimLeft(s: string): string
    decreases |s|
  {
    if |s| > 0 && IsSpace(s[0]) then TrimLeft(s[1..]) else s
  }

  function TrimRight(s: string): string
    decreases |s|
  {
    if |s| > 0 && IsSpace(s[|s| - 1]) then TrimRight(s[..|s| - 1]) else s
  }

  /** TrimLeft drops a prefix of white space and stops at the first other character. */
  lemma {:induction false} TrimLeftSpec(s: string)
    ensures var r := TrimLeft(s);
      && |r| <= |s| && r == s[|s| - |r|..]
      && (r == [] || !IsSpace(r[0]))
      && AllSpace(s[..|s| - |r|])
    decreases |s|
  {
    if |s| > 0 && IsSpace(s[0]) {
      var s' := s[1..];
      TrimLeftSpec(s');
      var r := TrimLeft(s');
      assert TrimLeft(s) == r;
      assert s == [s[0]] + s';
      TakeOfConcat([s[0]], s', |s| - |r|);
      AllSpaceConcat([s[0]], s'[..|s'| - |r|]);
    }
  }

  /** TrimRight drops a suffix of white space and stops at the last other character. */
  lemma {:induction false} TrimRightSpec(s: string)
    ensures var r := TrimRight(s);
      && |r| <= |s| && r == s[..|r|]
      && (r == [] || !IsSpace(r[|r| - 1]))
      && AllSpace(s[|r|..])
    decreases |s|
  {
    if |s| > 0 && IsSpace(s[|s| - 1]) {
      var s' := s[..|s| - 1];
      TrimRightSpec(s');
      var r := TrimRight(s');
      assert s'[..|r|] == s[..|r|];
      assert s == s' + [s[|s| - 1]];
      DropOfConcat(s', [s[|s| - 1]], |r|);
      AllSpaceConcat(s'[|r|..], [s[|s| - 1]]);
    }
  }

  /**
   * `strings.TrimSpace`: drops the leading and trailing white space, so the
   * result is no longer than `s` and has no white space at either end.
   */
  function TrimSpace(s: string): (r: string)
    ensures |r| <= |s| && Trimmed(r)
  {
    var l := TrimLeft(s);
    TrimLeftSpec(s);
    TrimRightSpec(l);
    var r := TrimRight(l);
    assert r != [] ==> r[0] == l[0];
    r
  }

  /**
   * TrimSpace leaves an infix of `s` whose surroundings are all white
   * space.
   */
  lemma TrimSpaceSpec(s: string)
    ensures var r := TrimSpace(s); var k := |s| - |TrimLeft(s)|;
      && 0 <= k && k + |r| <= |s| && r == s[k..k + |r|]
      && AllSpace(s[..k]) && AllSpace(s[k + |r|..])
  {
    var l := TrimLeft(s);
    TrimLeftSpec(s);
    TrimRightSpec(l);
    PrefixOfSuffix(s, l, TrimRight(l));
  }

  /** A prefix `r` of a suffix `l` of `s` is an infix of `s`, followed by the rest of `l`. */
  lemma PrefixOfSuffix(s: string, l: string, r: string)
    requires |l| <= |s| && l == s[|s| - |l|..]
    requires |r| <= |l| && r == l[..|r|]
    ensures var k := |s| - |l|;
      && r == s[k..k + |r|]
      && s[k + |r|..] == l[|r|..]
      && (r != [] ==> r[0] == l[0])
  {
  }

  /** TrimSpace gives the empty string exactly when `s` is all white space. */
  lemma TrimSpaceBlank(s: string)
    ensures TrimSpace(s) == [] <==> AllSpace(s)
  {
    if TrimSpace(s) == [] {
      TrimSpaceSpec(s);
      var k := |s| - |TrimLeft(s)|;
      assert s == s[..k] + s[k..];
      AllSpaceConcat(s[..k], s[k..]);
    } else {
      TrimLeftSpec(s);
      TrimRightSpec(TrimLeft(s));
    }
  }

  lemma DropOfConcat<T>(a: seq<T>, b: seq<T>, i: nat)
    requires i <= |a|
    ensures (a + b)[i..] == a[i..] + b
  {
  }

  lemma TakeOfConcat<T>(a: seq<T>, b: seq<T>, i: nat)
    requires |a| <= i <= |a| + |b|
    ensures (a + b)[..i] == a + b[..i - |a|]
  {
  }

  lemma AllSpaceConcat(a: string, b: string)
    requires AllSpace(a) && AllSpace(b)
    ensures AllSpace(a + b)
  {
  }

  lemma {:induction false} TrimLeftOfPadded(w: string, core: string)
    requires AllSpace(w) && (core == [] || !IsSpace(core[0]))
    ensures TrimLeft(w + core) == core
    decreases |w|
  {
    if w != [] {
      assert (w + core)[1..] == w[1..] + core;
      TrimLeftOfPadded(w[1..], core);
    } else {
      assert w + core == core;
    }
  }

  lemma {:induction false} TrimRightOfPadded(core: string, w: string)
    requires AllSpace(w) && (core == [] || !IsSpace(core[|core| - 1]))
    ensures TrimRight(core + w) == core
    decreases |w|
  {
    if w != [] {
      assert (core + w)[..|core + w| - 1] == core + w[..|w| - 1];
      TrimRightOfPadded(core, w[..|w| - 1]);
    } else {
      assert core + w == core;
    }
  }

  /** Padding a trimmed string with white space and trimming gives it back. */
  lemma TrimSpaceOfPadded(w1: string, core: string, w2: string)
    requires AllSpace(w1) && AllSpace(w2) && Trimmed(core)
    ensures TrimSpace(w1 + core + w2) == core
  {
    if core == [] {
      assert w1 + core + w2 == w1 + w2;
      TrimLeftOfPadded(w1 + w2, "");
      assert w1 + w2 + "" == w1 + w2;
    } else {
      assert w1 + core + w2 == w1 + (core + w2);
      TrimLeftOfPadded(w1, core + w2);
      TrimRightOfPadded(core, w2);
    }
  }

  /** Length of the leading run of non-space characters. */
  function NonSpaceRun(s: string): (n: nat)
    ensures n <= |s| && NoSpace(s[..n])
    ensures n < |s| ==> IsSpace(s[n])
    decreases |s|
  {
    if |s| > 0 && !IsSpace(s[0]) then 1 + NonSpaceRun(s[1..]) else 0
  }

  /** `strings.Fields`: the maximal runs of non-space characters, in order. */
  function Fields(s: string): (fs: seq<string>)
    ensures forall k :: 0 <= k < |fs| ==> |fs[k]| > 0 && NoSpace(fs[k])
    decreases |s|
  {
    if |s| == 0 then []
    else if IsSpace(s[0]) then Fields(s[1..])
    else
      var n := NonSpaceRun(s);
      [s[..n]] + Fields(s[n..])
  }

  /** A string has no fields exactly when it is all white space. */
  lemma {:induction false} FieldsEmptyIffBlank(s: string)
    ensures Fields(s) == [] <==> AllSpace(s)
    decreases |s|
  {
    if |s| > 0 && IsSpace(s[0]) {
      FieldsEmptyIffBlank(s[1..]);
      if AllSpace(s[1..]) {
        forall i | 0 <= i < |s| ensures IsSpace(s[i]) {
          if i > 0 { assert s[i] == s[1..][i - 1]; }
        }
      }
    }
  }

  lemma {:induction false} FieldsSkipsSpace(w: string, s: string)
    requires AllSpace(w)
    ensures Fields(w + s) == Fields(s)
    decreases |w|
  {
    if w != [] {
      assert (w + s)[1..] == w[1..] + s;
      FieldsSkipsSpace(w[1..], s);
    } else {
      assert w + s == s;
    }
  }

  lemma {:induction false} NonSpaceRunOfWord(a: string, rest: string)
    requires NoSpace(a) && (rest == [] || IsSpace(rest[0]))
    ensures NonSpaceRun(a + rest) == |a|
    decreases |a|
  {
    if a != [] {
      assert (a + rest)[1..] == a[1..] + rest;
      NonSpaceRunOfWord(a[1..], rest);
    } else {
      assert a + rest == rest;
    }
  }

  lemma FieldsOfWord(a: string, rest: string)
    requires |a| > 0 && NoSpace(a) && (rest == [] || IsSpace(rest[0]))
    ensures Fields(a + rest) == [a] + Fields(rest)
  {
    NonSpaceRunOfWord(a, rest);
    var s := a + rest;
    assert s[..|a|] == a;
    assert s[|a|..] == rest;
  }

  lemma Regroup<T>(x: seq<T>, y: seq<T>, z: seq<T>, u: seq<T>)
    ensures x + y + z + u == x + (y + z + u)
  {
    assert y + z + u == y + (z + u);
  }

  /** White space, then a word ending at white space or at the end. */
  lemma FieldsOfSpacedWord(w: string, a: string, rest: string)
    requires AllSpace(w) && |a| > 0 && NoSpace(a) && (rest == [] || IsSpace(rest[0]))
    ensures Fields(w + a + rest) == [a] + Fields(rest)
  {
    assert w + a + rest == w + (a + rest);
    FieldsSkipsSpace(w, a + rest);
    FieldsOfWord(a, rest);
  }

  /**
   * Two words separated by white space, with optional white space around
   * them, split into exactly those two fields.
   */
  lemma FieldsOfTwoWords(w1: string, a: string, w2: string, b: string, w3: string)
    requires AllSpace(w1) && AllSpace(w2) && AllSpace(w3) && |w2| > 0
    requires |a| > 0 && NoSpace(a) && |b| > 0 && NoSpace(b)
    ensures Fields(w1 + a + w2 + b + w3) == [a, b]
  {
    var tail := w2 + b + w3;
    Regroup(w1 + a, w2, b, w3);
    FieldsOfSpacedWord(w2, b, w3);
    FieldsEmptyIffBlank(w3);
    assert Fields(tail) == [b];
    assert IsSpace(tail[0]);
    FieldsOfSpacedWord(w1, a, tail);
  }
}
