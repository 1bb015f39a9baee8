/** The arithmetic of `src/sdf_ui/ascii.py`: `rgb_to_hex`, the symbol-table
    lookup, and the partition of the image into the cells of the ASCII
    picture, with the two converters' row/column loops. Pixel data, PIL's
    enhance/invert and the numpy averages are collaborators: each converter
    receives the per-cell average as a function of the crop box. */
module Ascii {
  import opened Common
  import Util

  type Byte = x: int | 0 <= x < 256

  // ---- rgb_to_hex ----

  function HexDigit(d: nat): (c: char)
    requires d < 16
    ensures Util.IsHexDigit(c) && Util.HexValue(c) == d
    ensures ('0' <= c <= '9') || ('a' <= c <= 'f')
  {
    "0123456789abcdef"[d]
  }

  predicate IsLowerHex(c: char) {
    ('0' <= c <= '9') || ('a' <= c <= 'f')
  }

  /** The shortest lower-case hex numeral of n ("0" for zero). */
  function HexNumeral(n: nat): (s: string)
    ensures Util.AllHex(s) && Util.DigitsValue(s) == n
    ensures forall i :: 0 <= i < |s| ==> IsLowerHex(s[i])
    ensures n < 16 <==> |s| == 1
    ensures 16 <= n < 256 ==> |s| == 2
    ensures n >= 256 ==> |s| > 2
  {
    if n < 16 then
      var s := [HexDigit(n)];
      assert s[..0] == [];
      s
    else
      var t := HexNumeral(n / 16);
      var s := t + [HexDigit(n % 16)];
      AppendDigit(t, HexDigit(n % 16));
      assert forall i :: 0 <= i < |t| ==> s[i] == t[i];
      s
  }

  /** Appending a digit to a numeral multiplies its value by 16 and adds the digit. */
  lemma AppendDigit(t: string, c: char)
    requires Util.AllHex(t) && Util.IsHexDigit(c)
    ensures Util.AllHex(t + [c]) && Util.DigitsValue(t + [c]) == Util.DigitsValue(t) * 16 + Util.HexValue(c)
  {
    var s := t + [c];
    assert s[..|s| - 1] == t;
  }

  /** Python's `'%02x' % n`: lower-case hex, a leading '-' for negatives,
      zero-padded to at least two characters. */
  function Format02x(n: int): (s: string)
    ensures 0 <= n < 256 ==> |s| == 2 && Util.AllHex(s) && Util.DigitsValue(s) == n
    ensures 0 <= n ==> forall i :: 0 <= i < |s| ==> IsLowerHex(s[i])
    ensures n < 0 ==> |s| >= 2 && s[0] == '-'
    ensures n >= 256 ==> |s| > 2
  {
    if n < 0 then "-" + HexNumeral(-n)
    else if n < 16 then
      var s := "0" + HexNumeral(n);
      assert s[..1] == "0" && s[..1][..0] == [];
      s
    else HexNumeral(n)
  }

  /** `rgb_to_hex(rgb)`: `'%02x%02x%02x' % rgb[:3]`; a tuple with fewer than
      three components leaves the format without arguments (TypeError). */
  function RgbToHex(rgb: seq<int>): (r: Result<string>)
    ensures r.Success? <==> |rgb| >= 3
    ensures r.Failure? ==> r.error == TypeError
  {
    if |rgb| < 3 then Failure(TypeError)
    else Success(Format02x(rgb[0]) + Format02x(rgb[1]) + Format02x(rgb[2]))
  }

  /** Only the first three components are formatted (`rgb[:3]`): an alpha
      channel or anything after it is ignored. */
  lemma RgbToHexFirstThree(rgb: seq<int>, extra: seq<int>)
    requires |rgb| == 3
    ensures RgbToHex(rgb + extra) == RgbToHex(rgb)
  {
    var t := rgb + extra;
    assert t[0] == rgb[0] && t[1] == rgb[1] && t[2] == rgb[2];
  }

  /** Three components in 0..255 give six lower-case hex digits, two per
      component, each pair reading back as its component. */
  lemma RgbToHexBytes(rgb: seq<int>)
    requires |rgb| >= 3 && forall i :: 0 <= i < 3 ==> 0 <= rgb[i] < 256
    ensures var s := RgbToHex(rgb).value;
            |s| == 6 && (forall i :: 0 <= i < 6 ==> IsLowerHex(s[i]))
            && Util.DigitsValue(s[0..2]) == rgb[0]
            && Util.DigitsValue(s[2..4]) == rgb[1]
            && Util.DigitsValue(s[4..6]) == rgb[2]
  {
    var a, b, c := Format02x(rgb[0]), Format02x(rgb[1]), Format02x(rgb[2]);
    var s := RgbToHex(rgb).value;
    assert s == a + b + c;
    assert |a| == 2 && |b| == 2 && |c| == 2;
    assert s[0..2] == a && s[2..4] == b && s[4..6] == c;
    forall i | 0 <= i < 6
      ensures IsLowerHex(s[i])
    {
      if i < 2 {
        assert s[i] == a[i];
      } else if i < 4 {
        assert s[i] == b[i - 2];
      } else {
        assert s[i] == c[i - 4];
      }
    }
  }

  /** Round trip with `hex_col`: `hex_col("#" + rgb_to_hex(c))` is `c / 255`
      componentwise, with alpha 1.0. */
  lemma HexRoundTrip(rgb: seq<int>)
    requires |rgb| >= 3 && forall i :: 0 <= i < 3 ==> 0 <= rgb[i] < 256
    ensures var r := Util.HexCol("#" + RgbToHex(rgb).value, Util.DefaultAlpha);
            r.Success? && |r.value| == 4
            && r.value[0] == rgb[0] as real / 255.0
            && r.value[1] == rgb[1] as real / 255.0
            && r.value[2] == rgb[2] as real / 255.0
            && r.value[3] == 1.0
  {
    var s := RgbToHex(rgb).value;
    RgbToHexBytes(rgb);
    HexColOfSix(s);
    Channels(Util.HexCol("#" + s, Util.DefaultAlpha).value, s, rgb);
  }

  /** Each pair of digits read back by `hex_col` is the component it came from. */
  lemma Channels(v: seq<real>, s: string, rgb: seq<int>)
    requires |v| == 4 && |s| == 6 && Util.AllHex(s) && |rgb| >= 3
    requires v[0] * 255.0 == (Util.HexValue(s[0]) * 16 + Util.HexValue(s[1])) as real
    requires v[1] * 255.0 == (Util.HexValue(s[2]) * 16 + Util.HexValue(s[3])) as real
    requires v[2] * 255.0 == (Util.HexValue(s[4]) * 16 + Util.HexValue(s[5])) as real
    requires Util.DigitsValue(s[0..2]) == rgb[0]
    requires Util.DigitsValue(s[2..4]) == rgb[1]
    requires Util.DigitsValue(s[4..6]) == rgb[2]
    ensures v[0] == rgb[0] as real / 255.0 && v[1] == rgb[1] as real / 255.0 && v[2] == rgb[2] as real / 255.0
  {
    PairDigits(s, 0);
    PairDigits(s, 2);
    PairDigits(s, 4);
    Unscale(v[0], rgb[0] as real);
    Unscale(v[1], rgb[1] as real);
    Unscale(v[2], rgb[2] as real);
  }

  /** `hex_col` of '#' and six hex digits reads the three digit pairs. */
  lemma HexColOfSix(s: string)
    requires |s| == 6 && Util.AllHex(s)
    ensures var r := Util.HexCol("#" + s, Util.DefaultAlpha);
            r.Success? && |r.value| == 4
            && r.value[0] * 255.0 == (Util.HexValue(s[0]) * 16 + Util.HexValue(s[1])) as real
            && r.value[1] * 255.0 == (Util.HexValue(s[2]) * 16 + Util.HexValue(s[3])) as real
            && r.value[2] * 255.0 == (Util.HexValue(s[4]) * 16 + Util.HexValue(s[5])) as real
            && r.value[3] == 1.0
  {
    Util.HexColDigits(1, s, "", Util.DefaultAlpha);
    assert seq(1, _ => '#') == "#";
    assert "#" + s + "" == "#" + s;
  }

  lemma Unscale(x: real, y: real)
    requires x * 255.0 == y
    ensures x == y / 255.0
  {
  }

  lemma PairDigits(s: string, i: nat)
    requires i + 2 <= |s| && Util.IsHexDigit(s[i]) && Util.IsHexDigit(s[i + 1])
    ensures Util.DigitsValue(s[i..i + 2]) == Util.HexValue(s[i]) * 16 + Util.HexValue(s[i + 1])
  {
    var t := s[i..i + 2];
    assert t[..1] == [s[i]] && t[..1][..0] == [];
    assert Util.DigitsValue(t[..1]) == Util.HexValue(s[i]);
  }

  // ---- symbol tables ----

  /** The 70-level table; the source literal's `\|` keeps its backslash. */
  const HighResTable: string := "$@B%8&WM#*oahkbdpqwmZO0QLCJUYXzcvunxrjft/\\|()1{}[]?-_+~<>i!lI;:,\"^`'. "
  /** The 10-level table. */
  const LowResTable: string := "@%#*+=-:. "

  lemma TableSizes()
    ensures |HighResTable| == 70 && |LowResTable| == 10
  {
  }

  /** `int((avg * levels) / 255)`. */
  function SymbolIndex(avg: int, levels: nat): (k: int)
    ensures 0 <= avg <= 255 ==> 0 <= k <= levels
    ensures avg == 0 ==> k == 0
    ensures avg == 255 ==> k == levels
  {
    ScaledBounds(avg, levels);
    Trunc((avg * levels) as real / 255.0)
  }

  lemma ScaledBounds(avg: int, levels: nat)
    ensures var q := (avg * levels) as real / 255.0;
            (0 <= avg <= 255 ==> 0.0 <= q <= levels as real)
            && (avg == 0 ==> q == 0.0)
            && (avg == 255 ==> q == levels as real)
  {
    var p := avg * levels;
    if 0 <= avg <= 255 {
      assert 0 <= p <= 255 * levels by {
        MulLe(avg, 255, levels);
      }
      assert p as real <= (255 * levels) as real;
      assert (255 * levels) as real / 255.0 == levels as real;
    }
  }

  lemma MulLe(a: int, b: int, c: nat)
    requires 0 <= a <= b
    ensures 0 <= a * c <= b * c
  {
  }

  /** The character chosen for a cell of average luminance `avg`. */
  function Symbol(avg: Byte, moreLevels: bool): (c: char)
    ensures moreLevels ==> c in HighResTable
    ensures !moreLevels ==> c in LowResTable
    ensures avg == 0 ==> c == (if moreLevels then HighResTable[0] else LowResTable[0])
    ensures avg == 255 ==> c == (if moreLevels then HighResTable[69] else LowResTable[9])
  {
    if moreLevels then HighResTable[SymbolIndex(avg, 69)] else LowResTable[SymbolIndex(avg, 9)]
  }

  // ---- cell layout ----

  /** Cell width `W / cols`, cell height `width / scale` and the row count
      `int(H / height)` of a converter. */
  datatype Layout = Layout(cellWidth: real, cellHeight: real, rows: int)

  /** The layout a converter computes before its loops, with the exceptions
      raised on the way: a zero divisor at any of the three divisions, then
      `exit(0)` when the picture has more columns or rows than pixels. */
  function LayoutOf(width: nat, height: nat, cols: int, scale: real): (r: Result<Layout>)
    ensures cols == 0 || scale == 0.0 || width == 0 ==> r == Failure(ZeroDivisionError)
    ensures r.Failure? ==> r.error in {ZeroDivisionError, SystemExit}
    ensures r.Success? ==> cols <= width && r.value.rows <= height
    ensures r.Success? && cols > 0 ==> r.value.cellWidth >= 1.0 && r.value.cellWidth * cols as real == width as real
    ensures r.Success? && cols > 0 && scale > 0.0 ==>
              r.value.cellHeight > 0.0 && r.value.rows as real * r.value.cellHeight <= height as real
  {
    if cols == 0 then Failure(ZeroDivisionError)
    else
      var nw := width as real / cols as real;
      if scale == 0.0 then Failure(ZeroDivisionError)
      else
        var nh := nw / scale;
        if nh == 0.0 then Failure(ZeroDivisionError)
        else
          var rows := Trunc(height as real / nh);
          if cols > width || rows > height then Failure(SystemExit)
          else
            LayoutBounds(width, height, cols, scale, nw, nh, rows);
            Success(Layout(nw, nh, rows))
  }

  lemma LayoutBounds(width: nat, height: nat, cols: int, scale: real, nw: real, nh: real, rows: int)
    requires cols != 0 && scale != 0.0 && nw == width as real / cols as real && nh == nw / scale && nh != 0.0
    requires rows == Trunc(height as real / nh) && cols <= width
    ensures cols > 0 ==> nw >= 1.0 && nw * cols as real == width as real
    ensures cols > 0 && scale > 0.0 ==> nh > 0.0 && rows as real * nh <= height as real
  {
    if cols > 0 {
      assert nw * cols as real == width as real;
      assert nw >= 1.0;
      if scale > 0.0 {
        assert nh * scale == nw;
        assert nh > 0.0;
        var q := height as real / nh;
        assert q * nh == height as real;
        assert rows as real <= q;
        MulMono(rows as real, q, nh);
      }
    }
  }

  lemma MulMono(a: real, b: real, c: real)
    requires a <= b && c > 0.0
    ensures a * c <= b * c
  {
  }

  /** The half-open pixel range `[int(k * size), int((k + 1) * size))` of
      cell k of n, the last one stretched to `extent`. */
  function Span(k: int, n: int, size: real, extent: nat): (int, int) {
    (Trunc(k as real * size), if k == n - 1 then extent else Trunc((k + 1) as real * size))
  }

  lemma FloorMono(a: real, b: real)
    requires 0.0 <= a <= b
    ensures Trunc(a) <= Trunc(b)
  {
  }

  /** Span k of a tiling is not inverted. */
  lemma SpanOrdered(k: int, n: int, size: real, extent: nat)
    requires 0 <= k < n && size > 0.0 && (n - 1) as real * size <= extent as real
    ensures Span(k, n, size, extent).0 <= Span(k, n, size, extent).1
  {
    var lo, hi := k as real * size, (k + 1) as real * size;
    SpanBounds(k, n, size, extent);
    TruncOrdered(lo, if k == n - 1 then extent as real else hi);
    assert Trunc(extent as real) == extent;
  }

  /** The real ends of span k are ordered. */
  lemma SpanBounds(k: int, n: int, size: real, extent: nat)
    requires 0 <= k < n && size > 0.0 && (n - 1) as real * size <= extent as real
    ensures 0.0 <= k as real * size
    ensures k < n - 1 ==> k as real * size <= (k + 1) as real * size
    ensures k == n - 1 ==> k as real * size <= extent as real
  {
    MulMono(0.0, k as real, size);
    Distrib(k, size);
  }

  lemma TruncOrdered(lo: real, hi: real)
    requires 0.0 <= lo <= hi
    ensures Trunc(lo) <= Trunc(hi)
  {
    FloorMono(lo, hi);
  }

  /** The n spans start at 0, each ends where the next begins, the last ends
      at `extent`, and none is inverted: together they tile `[0, extent)`. */
  lemma SpansTile(n: int, size: real, extent: nat)
    requires n >= 1 && size > 0.0 && (n - 1) as real * size <= extent as real
    ensures Span(0, n, size, extent).0 == 0
    ensures forall k :: 0 <= k < n - 1 ==> Span(k, n, size, extent).1 == Span(k + 1, n, size, extent).0
    ensures Span(n - 1, n, size, extent).1 == extent
    ensures forall k :: 0 <= k < n ==> Span(k, n, size, extent).0 <= Span(k, n, size, extent).1
  {
    SpanFirst(n, size, extent);
    forall k | 0 <= k < n - 1
      ensures Span(k, n, size, extent).1 == Span(k + 1, n, size, extent).0
    {
      SpanJoin(k, n, size, extent);
    }
    forall k | 0 <= k < n
      ensures Span(k, n, size, extent).0 <= Span(k, n, size, extent).1
    {
      SpanOrdered(k, n, size, extent);
    }
  }

  lemma SpanFirst(n: int, size: real, extent: nat)
    ensures Span(0, n, size, extent).0 == 0
  {
    assert 0 as real * size == 0.0;
  }

  /** Span k ends where span k + 1 begins. */
  lemma SpanJoin(k: int, n: int, size: real, extent: nat)
    requires 0 <= k < n - 1
    ensures Span(k, n, size, extent).1 == Span(k + 1, n, size, extent).0
  {
  }

  /** In a tiling, every pixel of `[0, extent)` lies in exactly one span. */
  lemma {:induction false} SpansPartition(n: int, size: real, extent: nat, x: int)
    requires n >= 1 && size > 0.0 && (n - 1) as real * size <= extent as real
    requires 0 <= x < extent
    ensures exists k :: 0 <= k < n && Span(k, n, size, extent).0 <= x < Span(k, n, size, extent).1
    ensures forall k, k' ::
              (0 <= k < n && 0 <= k' < n
               && Span(k, n, size, extent).0 <= x < Span(k, n, size, extent).1
               && Span(k', n, size, extent).0 <= x < Span(k', n, size, extent).1)
              ==> k == k'
  {
    SpansTile(n, size, extent);
    // the last span whose start is at most x contains x
    var k := 0;
    while k < n - 1 && Span(k + 1, n, size, extent).0 <= x
      invariant 0 <= k <= n - 1
      invariant Span(k, n, size, extent).0 <= x
      decreases n - k
    {
      k := k + 1;
    }
    assert Span(k, n, size, extent).0 <= x < Span(k, n, size, extent).1;
    forall k1, k2 | 0 <= k1 < k2 < n
      ensures Span(k1, n, size, extent).1 <= Span(k2, n, size, extent).0
    {
      StartsMono(n, size, extent, k1 + 1, k2);
    }
  }

  lemma StartsMono(n: int, size: real, extent: nat, a: int, b: int)
    requires size > 0.0 && 0 <= a <= b
    ensures Span(a, n, size, extent).0 <= Span(b, n, size, extent).0
  {
    TruncMulMono(a, b, size);
  }

  lemma TruncMulMono(a: int, b: int, size: real)
    requires size > 0.0 && 0 <= a <= b
    ensures Trunc(a as real * size) <= Trunc(b as real * size)
  {
    MulMono(a as real, b as real, size);
    MulMono(0.0, a as real, size);
    FloorMono(a as real * size, b as real * size);
  }

  lemma Distrib(k: int, size: real)
    ensures (k + 1) as real * size == k as real * size + size
  {
  }

  lemma DivMul(a: real, b: real)
    requires b != 0.0
    ensures (a / b) * b == a
  {
  }

  lemma TruncStep(lo: real, d: real)
    requires lo >= 0.0 && d >= 1.0
    ensures Trunc(lo) < Trunc(lo + d)
  {
    FloorMono(lo + 1.0, lo + d);
  }

  lemma InnerColumnWide(i: int, cols: int, nw: real, width: nat)
    requires 0 <= i < cols - 1 && nw >= 1.0
    ensures Span(i, cols, nw, width).0 < Span(i, cols, nw, width).1
  {
    assert i != cols - 1;
    TruncGap(i, nw);
  }

  lemma TruncGap(i: int, nw: real)
    requires 0 <= i && nw >= 1.0
    ensures Trunc(i as real * nw) < Trunc((i + 1) as real * nw)
  {
    MulMono(0.0, i as real, nw);
    Distrib(i, nw);
    TruncStep(i as real * nw, nw);
  }

  lemma LastColumnWide(cols: int, nw: real, width: nat)
    requires cols >= 1 && nw >= 1.0 && nw * cols as real == width as real
    ensures Span(cols - 1, cols, nw, width).0 < Span(cols - 1, cols, nw, width).1
  {
    var lo := (cols - 1) as real * nw;
    MulMono(0.0, (cols - 1) as real, nw);
    Distrib(cols - 1, nw);
    FloorMono(lo, width as real - 1.0);
  }

  /** Column i of `cols` columns of width `nw = W / cols >= 1` is at least
      one pixel wide. */
  lemma ColumnWide(i: int, cols: int, nw: real, width: nat)
    requires 0 <= i < cols && nw >= 1.0 && nw * cols as real == width as real
    ensures Span(i, cols, nw, width).0 < Span(i, cols, nw, width).1
  {
    if i < cols - 1 {
      InnerColumnWide(i, cols, nw, width);
    } else {
      LastColumnWide(cols, nw, width);
    }
  }

  /** `cols` columns of width `nw = W / cols` tile `[0, W)`; when `nw >= 1`
      each is at least one pixel wide. */
  lemma ColumnsTile(cols: int, nw: real, width: nat)
    requires cols >= 1 && nw >= 1.0 && nw * cols as real == width as real
    ensures forall i :: 0 <= i < cols ==> Span(i, cols, nw, width).0 < Span(i, cols, nw, width).1
    ensures Span(0, cols, nw, width).0 == 0
    ensures Span(cols - 1, cols, nw, width).1 == width
    ensures forall i :: 0 <= i < cols - 1 ==> Span(i, cols, nw, width).1 == Span(i + 1, cols, nw, width).0
  {
    SpanFirst(cols, nw, width);
    forall i | 0 <= i < cols - 1
      ensures Span(i, cols, nw, width).1 == Span(i + 1, cols, nw, width).0
    {
      SpanJoin(i, cols, nw, width);
    }
    forall i | 0 <= i < cols
      ensures Span(i, cols, nw, width).0 < Span(i, cols, nw, width).1
    {
      ColumnWide(i, cols, nw, width);
    }
  }

  /** The columns of a converter tile `[0, W)`, each at least one pixel
      wide; its rows tile `[0, H)`. */
  lemma CellsTile(width: nat, height: nat, cols: int, scale: real)
    requires LayoutOf(width, height, cols, scale).Success? && cols >= 1 && scale > 0.0
    ensures var lay := LayoutOf(width, height, cols, scale).value;
            (forall i :: 0 <= i < cols ==>
               Span(i, cols, lay.cellWidth, width).0 < Span(i, cols, lay.cellWidth, width).1)
            && Span(0, cols, lay.cellWidth, width).0 == 0
            && Span(cols - 1, cols, lay.cellWidth, width).1 == width
            && (forall i :: 0 <= i < cols - 1 ==>
                  Span(i, cols, lay.cellWidth, width).1 == Span(i + 1, cols, lay.cellWidth, width).0)
            && (lay.rows >= 1 ==>
                  Span(0, lay.rows, lay.cellHeight, height).0 == 0
                  && Span(lay.rows - 1, lay.rows, lay.cellHeight, height).1 == height
                  && (forall j :: 0 <= j < lay.rows - 1 ==>
                        Span(j, lay.rows, lay.cellHeight, height).1 == Span(j + 1, lay.rows, lay.cellHeight, height).0)
                  && (forall j :: 0 <= j < lay.rows ==>
                        Span(j, lay.rows, lay.cellHeight, height).0 <= Span(j, lay.rows, lay.cellHeight, height).1))
  {
    var lay := LayoutOf(width, height, cols, scale).value;
    ColumnsTile(cols, lay.cellWidth, width);
    if lay.rows >= 1 {
      RowsTile(lay.rows, lay.cellHeight, height);
    }
  }

  lemma RowsTile(rows: int, nh: real, height: nat)
    requires rows >= 1 && nh > 0.0 && rows as real * nh <= height as real
    ensures Span(0, rows, nh, height).0 == 0
    ensures Span(rows - 1, rows, nh, height).1 == height
    ensures forall j :: 0 <= j < rows - 1 ==> Span(j, rows, nh, height).1 == Span(j + 1, rows, nh, height).0
    ensures forall j :: 0 <= j < rows ==> Span(j, rows, nh, height).0 <= Span(j, rows, nh, height).1
  {
    Distrib(rows - 1, nh);
    SpansTile(rows, nh, height);
  }

  // ---- the converters ----

  /** A PIL crop box `(x1, y1, x2, y2)`. */
  datatype Box = Box(x1: int, y1: int, x2: int, y2: int)

  /** The crop box of column i, row j. */
  function CellBox(lay: Layout, width: nat, height: nat, cols: int, i: int, j: int): Box {
    var (x1, x2) := Span(i, cols, lay.cellWidth, width);
    var (y1, y2) := Span(j, lay.rows, lay.cellHeight, height);
    Box(x1, y1, x2, y2)
  }

  /** A crop box holding no pixel. Its average is NaN (or PIL refuses the
      box), and `int()` of the average raises ValueError. */
  predicate EmptyBox(b: Box) {
    b.x2 <= b.x1 || b.y2 <= b.y1
  }

  /** Row j holds a cell whose crop box is empty. */
  predicate RowHasEmpty(lay: Layout, width: nat, height: nat, cols: int, j: int) {
    exists i :: 0 <= i < cols && EmptyBox(CellBox(lay, width, height, cols, i, j))
  }

  /** Some row of the picture holds a cell whose crop box is empty. */
  predicate HasEmptyCell(lay: Layout, width: nat, height: nat, cols: int) {
    exists j :: 0 <= j < lay.rows && RowHasEmpty(lay, width, height, cols, j)
  }

  /** The symbol of column i, row j. */
  function SymbolAt(lay: Layout, width: nat, height: nat, cols: int, i: int, j: int, moreLevels: bool,
                    luminance: Box -> Byte): char
  {
    Symbol(luminance(CellBox(lay, width, height, cols, i, j)), moreLevels)
  }

  /** `row` is row j of the picture: one symbol per column. */
  predicate SymbolRow(row: string, lay: Layout, width: nat, height: nat, cols: int, j: int, moreLevels: bool,
                      luminance: Box -> Byte)
  {
    |row| == Max(cols, 0)
    && forall i {:trigger row[i]} :: 0 <= i < |row| ==>
         row[i] == SymbolAt(lay, width, height, cols, i, j, moreLevels, luminance)
  }

  /** `convert_image_to_ascii`, without the terminal output: one string per row,
      one symbol per column, chosen from the cell's average luminance. */
  method ConvertImageToAscii(width: nat, height: nat, cols: int, scale: real, moreLevels: bool,
                             luminance: Box -> Byte)
    returns (r: Result<seq<string>>)
    ensures LayoutOf(width, height, cols, scale).Failure? ==>
              r == Failure(LayoutOf(width, height, cols, scale).error)
    ensures LayoutOf(width, height, cols, scale).Success? ==>
              var lay := LayoutOf(width, height, cols, scale).value;
              HasEmptyCell(lay, width, height, cols) ==> r == Failure(ValueError)
    ensures LayoutOf(width, height, cols, scale).Success? ==>
              var lay := LayoutOf(width, height, cols, scale).value;
              !HasEmptyCell(lay, width, height, cols) ==>
                r.Success? && |r.value| == Max(lay.rows, 0)
                && forall j :: 0 <= j < |r.value| ==>
                     SymbolRow(r.value[j], lay, width, height, cols, j, moreLevels, luminance)
  {
    var layout := LayoutOf(width, height, cols, scale);
    if layout.Failure? {
      return Failure(layout.error);
    }
    var lay := layout.value;
    var image: seq<string> := [];
    var j := 0;
    while j < lay.rows
      invariant 0 <= j <= Max(lay.rows, 0)
      invariant |image| == j
      invariant forall jj :: 0 <= jj < j ==> !RowHasEmpty(lay, width, height, cols, jj)
      invariant forall jj :: 0 <= jj < j ==>
                  SymbolRow(image[jj], lay, width, height, cols, jj, moreLevels, luminance)
    {
      var cells := AsciiRow(lay, width, height, cols, j, moreLevels, luminance);
      if cells.Failure? {
        return Failure(ValueError);
      }
      var row := cells.value;
      ghost var prev := image;
      image := image + [row];
      assert image[j] == row && forall jj :: 0 <= jj < j ==> image[jj] == prev[jj];
      j := j + 1;
    }
    return Success(image);
  }

  /** The per-channel average colour of a crop of an RGBA image. */
  datatype Rgba = Rgba(r: Byte, g: Byte, b: Byte, a: Byte)

  /** One coloured cell: a space on the cell's colour, or the cell's symbol
      in that colour. The `console` package's style attribute of the cell is
      named after the colour's hex code. */
  datatype Cell = Background(clr: Rgba) | Foreground(clr: Rgba, symbol: char) {
    /** `rgb_to_hex(clr)`: the code in the name `"t_" + code` of the style. */
    function Hex(): string {
      RgbToHex([clr.r, clr.g, clr.b, clr.a]).value
    }
  }

  function ColoredCell(avg: Byte, clr: Rgba, moreLevels: bool, asBackground: bool): (c: Cell)
    ensures asBackground <==> c.Background?
    ensures c.clr == clr
    ensures c.Foreground? ==> c.symbol == Symbol(avg, moreLevels)
  {
    if asBackground then Background(clr) else Foreground(clr, Symbol(avg, moreLevels))
  }

  /** Every cell's style code is six lower-case hex digits, one pair per
      colour channel; the alpha channel does not take part. */
  lemma CellHex(c: Cell)
    ensures var h := c.Hex();
            |h| == 6 && (forall i :: 0 <= i < 6 ==> IsLowerHex(h[i]))
            && Util.DigitsValue(h[0..2]) == c.clr.r
            && Util.DigitsValue(h[2..4]) == c.clr.g
            && Util.DigitsValue(h[4..6]) == c.clr.b
  {
    RgbToHexBytes([c.clr.r, c.clr.g, c.clr.b, c.clr.a]);
  }

  /** The cell of column i, row j. */
  function CellAt(lay: Layout, width: nat, height: nat, cols: int, i: int, j: int, moreLevels: bool,
                  asBackground: bool, luminance: Box -> Byte, colour: Box -> Rgba): Cell
  {
    var box := CellBox(lay, width, height, cols, i, j);
    ColoredCell(luminance(box), colour(box), moreLevels, asBackground)
  }

  /** `row` is row j of the coloured picture: one cell per column. */
  predicate CellRow(row: seq<Cell>, lay: Layout, width: nat, height: nat, cols: int, j: int, moreLevels: bool,
                    asBackground: bool, luminance: Box -> Byte, colour: Box -> Rgba)
  {
    |row| == Max(cols, 0)
    && forall i {:trigger row[i]} :: 0 <= i < |row| ==>
         row[i] == CellAt(lay, width, height, cols, i, j, moreLevels, asBackground, luminance, colour)
  }

  /** `convert_image_to_ascii_colored`, without the terminal output: one list of
      cells per row. */
  method ConvertImageToAsciiColored(width: nat, height: nat, cols: int, scale: real, moreLevels: bool,
                                    asBackground: bool, luminance: Box -> Byte, colour: Box -> Rgba)
    returns (r: Result<seq<seq<Cell>>>)
    ensures LayoutOf(width, height, cols, scale).Failure? ==>
              r == Failure(LayoutOf(width, height, cols, scale).error)
    ensures LayoutOf(width, height, cols, scale).Success? ==>
              var lay := LayoutOf(width, height, cols, scale).value;
              HasEmptyCell(lay, width, height, cols) ==> r == Failure(ValueError)
    ensures LayoutOf(width, height, cols, scale).Success? ==>
              var lay := LayoutOf(width, height, cols, scale).value;
              !HasEmptyCell(lay, width, height, cols) ==>
                r.Success? && |r.value| == Max(lay.rows, 0)
                && forall j :: 0 <= j < |r.value| ==>
                     CellRow(r.value[j], lay, width, height, cols, j, moreLevels, asBackground, luminance, colour)
  {
    var layout := LayoutOf(width, height, cols, scale);
    if layout.Failure? {
      return Failure(layout.error);
    }
    var lay := layout.value;
    var image: seq<seq<Cell>> := [];
    var j := 0;
    while j < lay.rows
      invariant 0 <= j <= Max(lay.rows, 0)
      invariant |image| == j
      invariant forall jj :: 0 <= jj < j ==> !RowHasEmpty(lay, width, height, cols, jj)
      invariant forall jj :: 0 <= jj < j ==>
                  CellRow(image[jj], lay, width, height, cols, jj, moreLevels, asBackground, luminance, colour)
    {
      var cells := ColoredRow(lay, width, height, cols, j, moreLevels, asBackground, luminance, colour);
      if cells.Failure? {
        return Failure(ValueError);
      }
      var row := cells.value;
      ghost var prev := image;
      image := image + [row];
      assert image[j] == row && forall jj :: 0 <= jj < j ==> image[jj] == prev[jj];
      j := j + 1;
    }
    return Success(image);
  }

  /** The inner `for i in range(cols)` loop of `convert_image_to_ascii_colored`:
      row j, or ValueError at its first empty cell. */
  method ColoredRow(lay: Layout, width: nat, height: nat, cols: int, j: int, moreLevels: bool,
                    asBackground: bool, luminance: Box -> Byte, colour: Box -> Rgba)
    returns (r: Result<seq<Cell>>)
    ensures RowHasEmpty(lay, width, height, cols, j) ==> r == Failure(ValueError)
    ensures !RowHasEmpty(lay, width, height, cols, j) ==>
              r.Success? && CellRow(r.value, lay, width, height, cols, j, moreLevels, asBackground, luminance, colour)
  {
    var row: seq<Cell> := [];
    var i := 0;
    while i < cols
      invariant 0 <= i <= Max(cols, 0)
      invariant |row| == i
      invariant forall ii :: 0 <= ii < i ==> !EmptyBox(CellBox(lay, width, height, cols, ii, j))
      invariant forall ii {:trigger row[ii]} :: 0 <= ii < i ==>
                  row[ii] == CellAt(lay, width, height, cols, ii, j, moreLevels, asBackground, luminance, colour)
    {
      if EmptyBox(CellBox(lay, width, height, cols, i, j)) {
        return Failure(ValueError);
      }
      var cell := CellAt(lay, width, height, cols, i, j, moreLevels, asBackground, luminance, colour);
      ghost var prev := row;
      row := row + [cell];
      assert row[i] == cell && forall ii :: 0 <= ii < i ==> row[ii] == prev[ii];
      i := i + 1;
    }
    return Success(row);
  }

  /** The inner `for i in range(cols)` loop of `convert_image_to_ascii`: row j,
      or ValueError at its first empty cell. */
  method AsciiRow(lay: Layout, width: nat, height: nat, cols: int, j: int, moreLevels: bool,
                  luminance: Box -> Byte)
    returns (r: Result<string>)
    ensures RowHasEmpty(lay, width, height, cols, j) ==> r == Failure(ValueError)
    ensures !RowHasEmpty(lay, width, height, cols, j) ==>
              r.Success? && SymbolRow(r.value, lay, width, height, cols, j, moreLevels, luminance)
  {
    var row := "";
    var i := 0;
    while i < cols
      invariant 0 <= i <= Max(cols, 0)
      invariant |row| == i
      invariant forall ii :: 0 <= ii < i ==> !EmptyBox(CellBox(lay, width, height, cols, ii, j))
      invariant forall ii :: 0 <= ii < i ==>
                  row[ii] == SymbolAt(lay, width, height, cols, ii, j, moreLevels, luminance)
    {
      if EmptyBox(CellBox(lay, width, height, cols, i, j)) {
        return Failure(ValueError);
      }
      row := row + [SymbolAt(lay, width, height, cols, i, j, moreLevels, luminance)];
      i := i + 1;
    }
    return Success(row);
  }

  // ---- when the converters fail ----

  /** A row of height `nh >= 1` is at least one pixel high. */
  lemma RowWide(j: int, rows: int, nh: real, height: nat)
    requires 0 <= j < rows && nh >= 1.0 && rows as real * nh <= height as real
    ensures Span(j, rows, nh, height).0 < Span(j, rows, nh, height).1
  {
    if j < rows - 1 {
      InnerColumnWide(j, rows, nh, height);
    } else {
      var lo := (rows - 1) as real * nh;
      MulMono(0.0, (rows - 1) as real, nh);
      Distrib(rows - 1, nh);
      FloorMono(lo, height as real - 1.0);
    }
  }

  /** Once the layout is accepted, cells at least one pixel high (`W / cols >=
      scale`) leave no crop box empty, so neither converter raises ValueError. */
  lemma NoEmptyCells(width: nat, height: nat, cols: int, scale: real)
    requires LayoutOf(width, height, cols, scale).Success? && scale > 0.0
    requires LayoutOf(width, height, cols, scale).value.cellHeight >= 1.0
    ensures !HasEmptyCell(LayoutOf(width, height, cols, scale).value, width, height, cols)
  {
    var lay := LayoutOf(width, height, cols, scale).value;
    forall j, i | 0 <= j < lay.rows && 0 <= i < cols
      ensures !EmptyBox(CellBox(lay, width, height, cols, i, j))
    {
      ColumnWide(i, cols, lay.cellWidth, width);
      RowWide(j, lay.rows, lay.cellHeight, height);
    }
  }

  /** Ten columns of a 10 x 10 image at scale 1.05 pass the layout checks
      (ten rows of height 1 / 1.05), but row 0 is the empty range `[0, 0)`,
      so both converters raise ValueError. */
  lemma ThinRowsFail()
    ensures LayoutOf(10, 10, 10, 1.05).Success?
    ensures var lay := LayoutOf(10, 10, 10, 1.05).value;
            lay.rows == 10 && HasEmptyCell(lay, 10, 10, 10)
  {
    var lay := LayoutOf(10, 10, 10, 1.05).value;
    assert lay.cellWidth == 1.0;
    assert lay.cellHeight == 1.0 / 1.05;
    assert Trunc(10.0 / (1.0 / 1.05)) == 10;
    assert Span(0, 10, 1.0 / 1.05, 10) == (0, 0);
    assert EmptyBox(CellBox(lay, 10, 10, 10, 0, 0));
    assert RowHasEmpty(lay, 10, 10, 10, 0);
  }
}
