/** Colour and geometry helpers of `src/sdf_ui/core/util.py`: normalising
    0..255 channel values, parsing `#RRGGBB` strings, and the collinearity
    test used by the glyph assembler. Floats are modelled as exact reals. */
module Util {
  import opened Common

  /** `values /= 255` applied elementwise. */
  function Normalized(vs: seq<real>): (ns: seq<real>)
    ensures |ns| == |vs|
    ensures forall i :: 0 <= i < |vs| ==> ns[i] * 255.0 == vs[i]
  {
    seq(|vs|, i requires 0 <= i < |vs| => vs[i] / 255.0)
  }

  /** `rgb_col(r, g, b, *a)`: the tuple of all arguments, each divided by 255. */
  function RgbCol(r: real, g: real, b: real, a: seq<real>): (col: seq<real>)
    ensures |col| == 3 + |a|
    ensures col[0] * 255.0 == r && col[1] * 255.0 == g && col[2] * 255.0 == b
    ensures forall i :: 0 <= i < |a| ==> col[3 + i] * 255.0 == a[i]
  {
    var ns := Normalized([r, g, b] + a);
    assert forall i :: 0 <= i < |a| ==> ([r, g, b] + a)[3 + i] == a[i];
    ns
  }

  /** `str.lstrip("#")`: drops every leading '#'. */
  function LStripHash(s: string): (t: string)
    ensures |t| <= |s| && t == s[|s| - |t|..]
    ensures t == [] || t[0] != '#'
    ensures forall i :: 0 <= i < |s| - |t| ==> s[i] == '#'
  {
    if s != [] && s[0] == '#' then LStripHash(s[1..]) else s
  }

  /** The characters Python's `int()` strips from both ends of its argument
      (the ASCII ones: space, \t, \n, \v, \f, \r and \x1c..\x1f). */
  predicate IsSpace(c: char) {
    c == ' ' || ('\t' <= c <= '\r') || ('\U{1C}' <= c <= '\U{1F}')
  }

  predicate IsHexDigit(c: char) {
    ('0' <= c <= '9') || ('a' <= c <= 'f') || ('A' <= c <= 'F')
  }

  /** The digit a hex character stands for, in either case. */
  function HexValue(c: char): (v: nat)
    requires IsHexDigit(c)
    ensures v < 16
  {
    if '0' <= c <= '9' then c as int - '0' as int
    else if 'a' <= c <= 'f' then c as int - 'a' as int + 10
    else c as int - 'A' as int + 10
  }

  /** A hex digit is the character its value indexes in the lower-case or
      the upper-case digit table. */
  lemma HexValueDigit(c: char)
    requires IsHexDigit(c)
    ensures "0123456789abcdef"[HexValue(c)] == c || "0123456789ABCDEF"[HexValue(c)] == c
  {
  }

  /** `str.strip()` for that white space: the ends are peeled off one
      character at a time, the leading ones first. */
  function StripSpace(s: string): (t: string)
    ensures |t| <= |s|
    ensures t == [] || (!IsSpace(t[0]) && !IsSpace(t[|t| - 1]))
    decreases |s|
  {
    if s == [] then s
    else if IsSpace(s[0]) then StripSpace(s[1..])
    else if IsSpace(s[|s| - 1]) then StripSpace(s[..|s| - 1])
    else s
  }

  /** The length of the leading run of white space. */
  function LeadingSpaces(s: string): (n: nat)
    ensures n <= |s|
  {
    if s != [] && IsSpace(s[0]) then 1 + LeadingSpaces(s[1..]) else 0
  }

  /** `t` is the infix of `s` at offset p, and everything around it is
      white space. */
  predicate Infix(s: string, p: nat, t: string) {
    p + |t| <= |s| && t == s[p..p + |t|]
    && (forall i :: 0 <= i < p ==> IsSpace(s[i]))
    && (forall i :: p + |t| <= i < |s| ==> IsSpace(s[i]))
  }

  /** `strip()` keeps exactly the infix of `s` between its leading and its
      trailing white space. */
  lemma {:induction false} StripSpaceInfix(s: string)
    ensures Infix(s, LeadingSpaces(s), StripSpace(s))
    decreases |s|
  {
    if s == [] {
    } else if IsSpace(s[0]) {
      StripSpaceInfix(s[1..]);
      InfixAfterSpace(s, LeadingSpaces(s[1..]), StripSpace(s));
    } else if IsSpace(s[|s| - 1]) {
      StripSpaceInfix(s[..|s| - 1]);
      assert LeadingSpaces(s[..|s| - 1]) == 0;
      InfixBeforeSpace(s, StripSpace(s));
    } else {
      assert s[0..|s|] == s;
    }
  }

  lemma InfixAfterSpace(s: string, p: nat, t: string)
    requires s != [] && IsSpace(s[0]) && Infix(s[1..], p, t)
    ensures Infix(s, p + 1, t)
  {
    assert t == s[p + 1..p + 1 + |t|];
    forall i | 0 <= i < p + 1
      ensures IsSpace(s[i])
    {
      if i > 0 { assert s[i] == s[1..][i - 1]; }
    }
    forall i | p + 1 + |t| <= i < |s|
      ensures IsSpace(s[i])
    {
      assert s[i] == s[1..][i - 1];
    }
  }

  lemma InfixBeforeSpace(s: string, t: string)
    requires s != [] && IsSpace(s[|s| - 1]) && Infix(s[..|s| - 1], 0, t)
    ensures Infix(s, 0, t)
  {
    assert t == s[0..|t|];
    forall i | |t| <= i < |s|
      ensures IsSpace(s[i])
    {
      if i < |s| - 1 { assert s[i] == s[..|s| - 1][i]; }
    }
  }

  /** The value of a non-empty run of hex digits, most significant first. */
  function DigitsValue(ds: string): (v: nat)
    requires forall i :: 0 <= i < |ds| ==> IsHexDigit(ds[i])
    decreases |ds|
  {
    if ds == [] then 0
    else DigitsValue(ds[..|ds| - 1]) * 16 + HexValue(ds[|ds| - 1])
  }

  predicate AllHex(ds: string) {
    ds != [] && forall i :: 0 <= i < |ds| ==> IsHexDigit(ds[i])
  }

  /** Python's `int(t, 16)` for the ASCII strings of at most two characters
      that `hex_col` hands it: surrounding white space is ignored, one sign
      is allowed, and everything else must be hex digits. A string with no
      digit raises ValueError. (Underscores and the `0x` prefix need at least
      three characters, so they cannot occur here.) */
  function ParseInt16(t: string): (r: Result<int>)
    ensures r.Failure? ==> r.error == ValueError
    ensures AllHex(t) ==> r == Success(DigitsValue(t))
  {
    var u := StripSpace(t);
    if u != [] && (u[0] == '+' || u[0] == '-') then
      var v: int := if AllHex(u[1..]) then DigitsValue(u[1..]) else 0;
      if AllHex(u[1..]) then Success(if u[0] == '-' then -v else v)
      else Failure(ValueError)
    else if AllHex(u) then Success(DigitsValue(u))
    else Failure(ValueError)
  }

  /** Exactly the texts `int(t, 16)` accepts, and their values: after white
      space is stripped, hex digits, optionally after one sign. */
  lemma ParseInt16Exact(t: string)
    ensures var u := StripSpace(t);
            ParseInt16(t).Success? <==> AllHex(u) || (u != [] && (u[0] == '+' || u[0] == '-') && AllHex(u[1..]))
    ensures var u := StripSpace(t);
            (AllHex(u) ==> ParseInt16(t) == Success(DigitsValue(u)))
            && (u != [] && u[0] == '+' && AllHex(u[1..]) ==> ParseInt16(t) == Success(DigitsValue(u[1..])))
            && (u != [] && u[0] == '-' && AllHex(u[1..]) ==> ParseInt16(t).Success? && ParseInt16(t).value + DigitsValue(u[1..]) == 0)
  {
  }

  /** `hex_col(string, alpha)`: strip the leading '#'s, read the channels at
      offsets 0, 2 and 4 as two-character base-16 numbers (in that order, the
      first bad one raising ValueError), and normalise them and `alpha`. */
  function HexCol(s: string, alpha: real): (r: Result<seq<real>>)
    ensures r.Success? ==> |r.value| == 4 && r.value[3] * 255.0 == alpha
    ensures r.Failure? ==> r.error == ValueError
    ensures |LStripHash(s)| <= 4 ==> r == Failure(ValueError)
  {
    var g := LStripHash(s);
    var red :- ParseInt16(Slice(g, 0, 2));
    var green :- ParseInt16(Slice(g, 2, 4));
    var blue :- ParseInt16(Slice(g, 4, 6));
    Success(RgbCol(red as real, green as real, blue as real, [alpha]))
  }

  /** A character `int(t, 16)` never accepts anywhere in `t`: neither a hex
      digit, nor white space, nor a sign. */
  predicate Stray(c: char) {
    !IsHexDigit(c) && !IsSpace(c) && c != '+' && c != '-'
  }

  /** A stray character anywhere in the string makes `int(t, 16)` fail. */
  lemma StrayFails(t: string, k: int)
    requires 0 <= k < |t| && Stray(t[k])
    ensures ParseInt16(t) == Failure(ValueError)
  {
    ParseInt16Exact(t);
    var u := StripSpace(t);
    StripSpaceInfix(t);
    var p := LeadingSpaces(t);
    assert Infix(t, p, u);
    assert p <= k < p + |u|;
    assert u[k - p] == t[k];
    if k - p > 0 {
      assert u[1..][k - p - 1] == t[k];
    }
  }

  /** A stray character among the first six of `g` spoils one of the three
      pairs `hex_col` reads. */
  lemma StrayPairs(g: string)
    ensures (exists k :: 0 <= k < 6 && k < |g| && Stray(g[k])) ==>
              ParseInt16(Slice(g, 0, 2)).Failure? || ParseInt16(Slice(g, 2, 4)).Failure?
              || ParseInt16(Slice(g, 4, 6)).Failure?
  {
    if k :| 0 <= k < 6 && k < |g| && Stray(g[k]) {
      var lo := if k < 2 then 0 else if k < 4 then 2 else 4;
      var pair := Slice(g, lo, lo + 2);
      assert pair == g[lo..if lo + 2 <= |g| then lo + 2 else |g|];
      assert pair[k - lo] == g[k];
      StrayFails(pair, k - lo);
    }
  }

  /** `hex_col` succeeds exactly when all three of its pairs parse. */
  lemma HexColSucceeds(s: string, alpha: real)
    ensures var g := LStripHash(s);
            HexCol(s, alpha).Success? <==>
              ParseInt16(Slice(g, 0, 2)).Success? && ParseInt16(Slice(g, 2, 4)).Success?
              && ParseInt16(Slice(g, 4, 6)).Success?
  {
  }

  /** A stray character among the six after the '#'s makes `hex_col` raise
      ValueError, e.g. `hex_col("#zz0000")`. */
  lemma HexColStray(s: string, alpha: real)
    requires var g := LStripHash(s); exists k :: 0 <= k < 6 && k < |g| && Stray(g[k])
    ensures HexCol(s, alpha) == Failure(ValueError)
  {
    StrayPairs(LStripHash(s));
  }

  /** The default `alpha=255` of `hex_col`. */
  const DefaultAlpha: real := 255.0

  /** Twice the signed area of the triangle (x1,y1), (x2,y2), (x3,y3). */
  function Area2(x1: real, y1: real, x2: real, y2: real, x3: real, y3: real): real {
    x1 * (y2 - y3) + x2 * (y3 - y1) + x3 * (y1 - y2)
  }

  /** `collinear`: the absolute area expression is at most 1e-9. */
  predicate Collinear(x1: real, y1: real, x2: real, y2: real, x3: real, y3: real) {
    Abs(Area2(x1, y1, x2, y2, x3, y3)) <= 0.000000001
  }

  // ---- properties ----

  /** A string of k '#'s, six hex digits and any tail parses to the three
      two-digit channel values; the tail (including an `AA` alpha pair) is
      ignored and `alpha` alone gives the fourth channel. */
  lemma {:induction false} HexColDigits(hashes: nat, d: string, tail: string, alpha: real)
    requires |d| == 6 && AllHex(d)
    ensures var s := seq(hashes, _ => '#') + d + tail;
            var r := HexCol(s, alpha);
            r.Success? && |r.value| == 4
            && r.value[0] * 255.0 == (HexValue(d[0]) * 16 + HexValue(d[1])) as real
            && r.value[1] * 255.0 == (HexValue(d[2]) * 16 + HexValue(d[3])) as real
            && r.value[2] * 255.0 == (HexValue(d[4]) * 16 + HexValue(d[5])) as real
            && r.value[3] * 255.0 == alpha
  {
    var s := seq(hashes, _ => '#') + d + tail;
    assert s == seq(hashes, _ => '#') + (d + tail);
    StripHashes(hashes, d + tail);
    var g := d + tail;
    PairValue(g, 0);
    PairValue(g, 2);
    PairValue(g, 4);
  }

  lemma {:induction false} StripHashes(k: nat, rest: string)
    requires rest == [] || rest[0] != '#'
    ensures LStripHash(seq(k, _ => '#') + rest) == rest
  {
    if k > 0 {
      var s := seq(k, _ => '#') + rest;
      assert s[1..] == seq(k - 1, _ => '#') + rest;
      StripHashes(k - 1, rest);
    } else {
      assert seq(k, _ => '#') + rest == rest;
    }
  }

  lemma PairValue(g: string, i: nat)
    requires i + 2 <= |g| && IsHexDigit(g[i]) && IsHexDigit(g[i + 1])
    ensures ParseInt16(Slice(g, i, i + 2)) == Success(HexValue(g[i]) * 16 + HexValue(g[i + 1]))
  {
    var t := Slice(g, i, i + 2);
    assert t == [g[i], g[i + 1]];
    assert AllHex(t);
    assert t[..1] == [g[i]];
    assert t[..1][..0] == [];
    assert DigitsValue(t[..1]) == HexValue(g[i]);
    assert DigitsValue(t) == HexValue(g[i]) * 16 + HexValue(g[i + 1]);
  }

  /** The default alpha of `hex_col` normalises to exactly 1.0. */
  lemma HexColDefaultAlpha(s: string)
    requires HexCol(s, DefaultAlpha).Success?
    ensures HexCol(s, DefaultAlpha).value[3] == 1.0
  {
  }

  /** `collinear` does not depend on the order of the three points. */
  lemma CollinearSymmetric(x1: real, y1: real, x2: real, y2: real, x3: real, y3: real)
    ensures Collinear(x1, y1, x2, y2, x3, y3) == Collinear(x2, y2, x1, y1, x3, y3)
    ensures Collinear(x1, y1, x2, y2, x3, y3) == Collinear(x2, y2, x3, y3, x1, y1)
  {
    assert Area2(x2, y2, x1, y1, x3, y3) == -Area2(x1, y1, x2, y2, x3, y3);
    assert Area2(x2, y2, x3, y3, x1, y1) == Area2(x1, y1, x2, y2, x3, y3);
  }

  /** Two coincident points make any triple collinear. */
  lemma CollinearCoincident(x1: real, y1: real, x3: real, y3: real)
    ensures Collinear(x1, y1, x1, y1, x3, y3)
  {
    assert Area2(x1, y1, x1, y1, x3, y3) == 0.0;
  }

  /** The documented example `collinear(0, 0, 1, 1, 2, 2)` is True. */
  lemma CollinearExample()
    ensures Collinear(0.0, 0.0, 1.0, 1.0, 2.0, 2.0)
  {
  }
}
