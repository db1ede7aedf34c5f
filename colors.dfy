/**
 * The RGBA color value of src/core/color.rs and every conversion it offers:
 * packing into `u32` (0xRRGGBBAA) and `i32` (0xRRGGBB), the `"0x"` hex text
 * form and its parser, 3- and 4-component arrays and tuples, the foreign
 * record, and `fade`.
 *
 * Rust's shifts and masks are written arithmetically: a byte shifted left
 * into a field that no other byte occupies and OR-ed in is the same as adding
 * it multiplied by a power of two; `(v >> k) & 0xff` is `(v / 2^k) % 256`.
 * Dafny's `/` and `%` are Euclidean, which for a positive divisor is floor
 * division, so the same formula is also exact for the arithmetic right shift
 * of a negative `i32`.
 */
module Colors {
  import opened Wrappers
  import Ffi
  import Math

  type u8 = Ffi.u8
  type i32 = Ffi.i32
  type u32 = Ffi.u32

  datatype Color = Color(red: u8, green: u8, blue: u8, alpha: u8)

  const LIGHTGRAY := Color(200, 200, 200, 255)
  const GRAY := Color(130, 130, 130, 255)
  const DARKGRAY := Color(80, 80, 80, 255)
  const YELLOW := Color(253, 249, 0, 255)
  const GOLD := Color(255, 203, 0, 255)
  const ORANGE := Color(255, 161, 0, 255)
  const PINK := Color(255, 109, 194, 255)
  const RED := Color(230, 41, 55, 255)
  const MAROON := Color(190, 33, 55, 255)
  const GREEN := Color(0, 228, 48, 255)
  const LIME := Color(0, 158, 47, 255)
  const DARKGREEN := Color(0, 117, 44, 255)
  const SKYBLUE := Color(102, 191, 255, 255)
  const BLUE := Color(0, 121, 241, 255)
  const DARKBLUE := Color(0, 82, 172, 255)
  const PURPLE := Color(200, 122, 255, 255)
  const VIOLET := Color(135, 60, 190, 255)
  const DARKPURPLE := Color(112, 31, 126, 255)
  const BEIGE := Color(211, 176, 131, 255)
  const BROWN := Color(127, 106, 79, 255)
  const DARKBROWN := Color(76, 63, 47, 255)
  const WHITE := Color(255, 255, 255, 255)
  const BLACK := Color(0, 0, 0, 255)
  const BLANK := Color(0, 0, 0, 0)
  const MAGENTA := Color(255, 0, 255, 255)
  const RAYWHITE := Color(245, 245, 245, 255)

  /**
   * `fade`: keeps red, green and blue and sets alpha to
   * `(255.0 * clamp(alpha, 0.0, 1.0)) as u8`. The product lies in [0, 255],
   * where Rust's truncating cast is the floor.
   */
  function Fade(c: Color, alpha: real): (r: Color)
    ensures r.red == c.red && r.green == c.green && r.blue == c.blue
    ensures alpha >= 1.0 ==> r.alpha == 255
    ensures alpha <= 0.0 ==> r.alpha == 0
    ensures 0.0 <= alpha <= 1.0 ==> r.alpha as real <= 255.0 * alpha < r.alpha as real + 1.0
  {
    var scaled := 255.0 * Math.ClampReal(alpha, 0.0, 1.0);
    Color(c.red, c.green, c.blue, scaled.Floor)
  }

  /** A larger fade factor never gives a smaller alpha. */
  lemma FadeMonotone(c: Color, a: real, b: real)
    requires a <= b
    ensures Fade(c, a).alpha <= Fade(c, b).alpha
  {
    var x := 255.0 * Math.ClampReal(a, 0.0, 1.0);
    var y := 255.0 * Math.ClampReal(b, 0.0, 1.0);
    assert x <= y;
  }

  /** Fading by 1.0 returns the color unchanged exactly when it is already opaque. */
  lemma FadeByOne(c: Color)
    ensures Fade(c, 1.0) == c <==> c.alpha == 255
  {
  }

  lemma FadeTestCases()
    ensures Fade(BLUE, 1.0) == Color(0, 121, 241, 255)
    ensures Fade(BLUE, 0.5) == Color(0, 121, 241, 127)
    ensures Fade(BLUE, 0.0) == Color(0, 121, 241, 0)
  {
  }

  // ---- Arrays and tuples ----

  type Rgb = s: seq<u8> | |s| == 3 witness [0, 0, 0]

  type Rgba = s: seq<u8> | |s| == 4 witness [0, 0, 0, 0]

  /** `Into<[u8; 3]>`: the alpha channel is dropped. */
  function ToRgbArray(c: Color): (a: Rgb)
    ensures a[0] == c.red && a[1] == c.green && a[2] == c.blue
  {
    [c.red, c.green, c.blue]
  }

  /** `From<[u8; 3]>`: opaque, and the same three components come back out. */
  function FromRgbArray(a: Rgb): (c: Color)
    ensures c.alpha == 255
    ensures ToRgbArray(c) == a
  {
    Color(a[0], a[1], a[2], 255)
  }

  /** `Into<[u8; 4]>`: red, green, blue, alpha in that order. */
  function ToRgbaArray(c: Color): (a: Rgba)
    ensures a[0] == c.red && a[1] == c.green && a[2] == c.blue && a[3] == c.alpha
  {
    [c.red, c.green, c.blue, c.alpha]
  }

  /** `From<[u8; 4]>`: converting back gives the same array. */
  function FromRgbaArray(a: Rgba): (c: Color)
    ensures ToRgbaArray(c) == a
  {
    Color(a[0], a[1], a[2], a[3])
  }

  /** `Into<(u8, u8, u8)>`. */
  function ToRgbTuple(c: Color): (t: (u8, u8, u8))
    ensures t.0 == c.red && t.1 == c.green && t.2 == c.blue
  {
    (c.red, c.green, c.blue)
  }

  /** `From<(u8, u8, u8)>`: opaque, and the same three components come back out. */
  function FromRgbTuple(t: (u8, u8, u8)): (c: Color)
    ensures c.alpha == 255
    ensures ToRgbTuple(c) == t
  {
    Color(t.0, t.1, t.2, 255)
  }

  /** `Into<(u8, u8, u8, u8)>`. */
  function ToRgbaTuple(c: Color): (t: (u8, u8, u8, u8))
    ensures t.0 == c.red && t.1 == c.green && t.2 == c.blue && t.3 == c.alpha
  {
    (c.red, c.green, c.blue, c.alpha)
  }

  /** `From<(u8, u8, u8, u8)>`: converting back gives the same tuple. */
  function FromRgbaTuple(t: (u8, u8, u8, u8)): (c: Color)
    ensures ToRgbaTuple(c) == t
  {
    Color(t.0, t.1, t.2, t.3)
  }

  /** `Into<ffi::Color>`, a transmute: red to r, green to g, blue to b, alpha to a. */
  function ToFfi(c: Color): (f: Ffi.Color)
    ensures f.r == c.red && f.g == c.green && f.b == c.blue && f.a == c.alpha
  {
    Ffi.Color(c.red, c.green, c.blue, c.alpha)
  }

  /** `From<ffi::Color>`: converting back gives the same record. */
  function FromFfi(f: Ffi.Color): (c: Color)
    ensures ToFfi(c) == f
  {
    Color(f.r, f.g, f.b, f.a)
  }

  /** The lossless conversions are also exact in the other direction; the 3-component ones keep all but alpha. */
  lemma ComponentRoundTrips(c: Color)
    ensures FromRgbaArray(ToRgbaArray(c)) == c
    ensures FromRgbaTuple(ToRgbaTuple(c)) == c
    ensures FromFfi(ToFfi(c)) == c
    ensures FromRgbArray(ToRgbArray(c)) == c.(alpha := 255)
    ensures FromRgbTuple(ToRgbTuple(c)) == c.(alpha := 255)
  {
  }

  lemma ComponentTestCases()
    ensures FromRgbArray([0, 121, 241]) == BLUE
    ensures FromRgbaArray([0, 121, 241, 255]) == BLUE
    ensures FromRgbaTuple((0, 121, 241, 255)) == BLUE
    ensures FromRgbTuple((0, 121, 241)) == BLUE
    ensures ToRgbArray(BLUE) == [0, 121, 241]
    ensures ToRgbaArray(BLUE) == [0, 121, 241, 255]
  {
  }

  // ---- Packed integers ----

  /** `Into<u32>`: 0xRRGGBBAA, red in the top byte and alpha in the bottom one. */
  function IntoU32(c: Color): (v: u32)
    ensures v / 0x100_0000 == c.red && v % 0x100 == c.alpha
  {
    c.red * 0x100_0000 + c.green * 0x1_0000 + c.blue * 0x100 + c.alpha
  }

  /** `From<u32>`: each byte of 0xRRGGBBAA becomes one component; the top byte is red and the bottom one alpha. */
  function FromU32(v: u32): (c: Color)
    ensures c.red == v / 0x100_0000 && c.alpha == v % 0x100
  {
    Color((v / 0x100_0000) % 0x100, (v / 0x1_0000) % 0x100, (v / 0x100) % 0x100, v % 0x100)
  }

  /** `Into<i32>`: 0xRRGGBB; alpha is dropped, so the value is never negative. */
  function IntoI32(c: Color): (v: i32)
    ensures 0 <= v <= 0xFF_FFFF
  {
    c.red * 0x1_0000 + c.green * 0x100 + c.blue
  }

  /**
   * `From<i32>`: bits 16-23, 8-15 and 0-7 become red, green and blue; alpha
   * is 255. Bits 24-31 (including the sign) are ignored.
   */
  function FromI32(v: i32): (c: Color)
    ensures c.alpha == 255
  {
    Color((v / 0x1_0000) % 0x100, (v / 0x100) % 0x100, v % 0x100, 255)
  }

  /** Splitting off the low byte of `q * 256 + r` gives back `q` and `r`. */
  lemma ByteSplit(q: int, r: int)
    requires 0 <= r < 0x100
    ensures (q * 0x100 + r) / 0x100 == q && (q * 0x100 + r) % 0x100 == r
  {
  }

  /** Dividing by 256 twice is dividing by 65536, also for negative values. */
  lemma DivTwice(v: int)
    ensures v / 0x1_0000 == (v / 0x100) / 0x100
  {
    var q := v / 0x100;
    var r := v % 0x100;
    assert v == q * 0x100 + r;
    var q2 := q / 0x100;
    var r2 := q % 0x100;
    assert q == q2 * 0x100 + r2;
    assert v == q2 * 0x1_0000 + (r2 * 0x100 + r);
    assert 0 <= r2 * 0x100 + r < 0x1_0000;
  }

  /** Packing into `u32` and unpacking gives the color back. */
  lemma {:induction false} U32RoundTrip(c: Color)
    ensures FromU32(IntoU32(c)) == c
  {
    var v := IntoU32(c);
    var hi := c.red * 0x100 + c.green;
    var mid := hi * 0x100 + c.blue;
    assert v == mid * 0x100 + c.alpha;
    ByteSplit(mid, c.alpha);
    ByteSplit(hi, c.blue);
    ByteSplit(c.red, c.green);
    DivTwice(v);
    DivTwice(v / 0x100);
    assert v / 0x100_0000 == ((v / 0x100) / 0x1_0000) by {
      var q := v / 0x100;
      assert v / 0x100_0000 == q / 0x1_0000 by {
        assert v == q * 0x100 + v % 0x100;
      }
    }
  }

  /** Unpacking a `u32` and packing it again gives the same value. */
  lemma {:induction false} U32Exact(v: u32)
    ensures IntoU32(FromU32(v)) == v
  {
    var q1 := v / 0x100;
    var q2 := q1 / 0x100;
    var q3 := q2 / 0x100;
    assert v == q1 * 0x100 + v % 0x100;
    assert q1 == q2 * 0x100 + q1 % 0x100;
    assert q2 == q3 * 0x100 + q2 % 0x100;
    assert q3 < 0x100;
    DivTwice(v);
    DivTwice(q1);
    assert v / 0x100_0000 == q3 by {
      assert v == q3 * 0x100_0000 + ((q2 % 0x100) * 0x1_0000 + (q1 % 0x100) * 0x100 + v % 0x100);
    }
  }

  /** Packing into `i32` and unpacking gives the color back, made opaque. */
  lemma {:induction false} I32RoundTrip(c: Color)
    ensures FromI32(IntoI32(c)) == c.(alpha := 255)
  {
    var v := IntoI32(c);
    var hi := c.red * 0x100 + c.green;
    assert v == hi * 0x100 + c.blue;
    ByteSplit(hi, c.blue);
    ByteSplit(c.red, c.green);
    DivTwice(v);
  }

  /** Unpacking any `i32`, negative ones included, and packing again keeps exactly its low 24 bits. */
  lemma {:induction false} I32KeepsLow24Bits(v: i32)
    ensures IntoI32(FromI32(v)) == v % 0x100_0000
  {
    var q1 := v / 0x100;
    var q2 := q1 / 0x100;
    assert v == q1 * 0x100 + v % 0x100;
    assert q1 == q2 * 0x100 + q1 % 0x100;
    DivTwice(v);
    var low := (q2 % 0x100) * 0x1_0000 + (q1 % 0x100) * 0x100 + v % 0x100;
    assert 0 <= low < 0x100_0000;
    assert v == (q2 / 0x100) * 0x100_0000 + low by {
      assert q2 == (q2 / 0x100) * 0x100 + q2 % 0x100;
    }
  }

  lemma PackedTestCases()
    ensures FromI32(0x00_79_F1) == BLUE
    ensures FromU32(0x00_79_F1_FF) == BLUE
    ensures IntoI32(BLUE) == 0x00_79_F1
    ensures IntoU32(BLUE) == 0x00_79_F1_FF
  {
  }

  // ---- Hex text ----

  /** The digit set of `from_str_radix(_, 16)` (`char::to_digit(16)`): both letter cases. */
  predicate IsHexDigit(ch: char) {
    '0' <= ch <= '9' || 'a' <= ch <= 'f' || 'A' <= ch <= 'F'
  }

  /** The value of a hex digit; 0 for anything else. */
  function DigitValue(ch: char): (d: nat)
    ensures d < 16
  {
    if '0' <= ch <= '9' then ch as int - '0' as int
    else if 'a' <= ch <= 'f' then ch as int - 'a' as int + 10
    else if 'A' <= ch <= 'F' then ch as int - 'A' as int + 10
    else 0
  }

  /** The upper-case digit that `{:X}` prints for `d`. */
  function UpperHexChar(d: nat): (ch: char)
    requires d < 16
    ensures IsHexDigit(ch) && DigitValue(ch) == d
    ensures '0' <= ch <= '9' || 'A' <= ch <= 'F'
  {
    if d < 10 then ('0' as int + d) as char else ('A' as int + d - 10) as char
  }

  /** `{:02X}`: a byte as exactly two upper-case hex digits, high nibble first. */
  function FormatByte(b: u8): (s: string)
    ensures |s| == 2
  {
    [UpperHexChar(b / 16), UpperHexChar(b % 16)]
  }

  /** The number a run of hex digits denotes, most significant digit first. */
  function HexNat(ds: string): nat
  {
    if ds == [] then 0 else HexNat(ds[..|ds| - 1]) * 16 + DigitValue(ds[|ds| - 1])
  }

  predicate AllHexDigits(ds: string) {
    forall i :: 0 <= i < |ds| ==> IsHexDigit(ds[i])
  }

  /** Reading two more digits shifts the value left by one byte. */
  lemma {:induction false} HexNatAppendPair(ds: string, x: char, y: char)
    ensures HexNat(ds + [x, y]) == HexNat(ds) * 0x100 + DigitValue(x) * 16 + DigitValue(y)
  {
    var s := ds + [x, y];
    assert s[..|s| - 1] == ds + [x];
    assert (ds + [x])[..|ds|] == ds;
  }

  /** A formatted byte reads back as that byte. */
  lemma {:induction false} HexNatFormatByte(ds: string, b: u8)
    ensures HexNat(ds + FormatByte(b)) == HexNat(ds) * 0x100 + b
  {
    HexNatAppendPair(ds, UpperHexChar(b / 16), UpperHexChar(b % 16));
  }

  /** `to_string`: `"0x"` followed by the four components as `{:02X}`, in R, G, B, A order. */
  function ToString(c: Color): (s: string)
    ensures |s| == 10 && s[..2] == "0x"
    ensures forall i :: 2 <= i < 10 ==> '0' <= s[i] <= '9' || 'A' <= s[i] <= 'F'
  {
    "0x" + FormatByte(c.red) + FormatByte(c.green) + FormatByte(c.blue) + FormatByte(c.alpha)
  }

  /** Each pair of digits `to_string` prints denotes one component, in R, G, B, A order. */
  lemma ToStringDigits(c: Color)
    ensures HexNat(ToString(c)[2..4]) == c.red && HexNat(ToString(c)[4..6]) == c.green
    ensures HexNat(ToString(c)[6..8]) == c.blue && HexNat(ToString(c)[8..10]) == c.alpha
  {
    var s := ToString(c);
    assert s[2..4] == [] + FormatByte(c.red);
    assert s[4..6] == [] + FormatByte(c.green);
    assert s[6..8] == [] + FormatByte(c.blue);
    assert s[8..10] == [] + FormatByte(c.alpha);
    HexNatFormatByte([], c.red);
    HexNatFormatByte([], c.green);
    HexNatFormatByte([], c.blue);
    HexNatFormatByte([], c.alpha);
  }

  /** The kinds of Rust's `ParseIntError`. */
  datatype IntErrorKind = Empty | InvalidDigit | PosOverflow | NegOverflow

  /**
   * The digit loop of `from_str_radix(_, 16)`: digits are consumed left to
   * right; the first non-digit gives `InvalidDigit`, and the first digit that
   * takes the accumulated value beyond `max` (or, for a negative number,
   * below `min`) gives the matching overflow error.
   */
  function Accumulate(ds: string, negative: bool, min: int, max: int): (r: Result<int, IntErrorKind>)
    requires min <= 0 <= max
    ensures r.Ok? ==> min <= r.value <= max
    ensures r.Ok? && !negative ==> r.value >= 0
    ensures r.Ok? && negative ==> r.value <= 0
  {
    if ds == [] then Ok(0)
    else
      match Accumulate(ds[..|ds| - 1], negative, min, max)
      case Err(e) => Err(e)
      case Ok(acc) =>
        var ch := ds[|ds| - 1];
        if !IsHexDigit(ch) then Err(InvalidDigit)
        else if negative then
          (if acc * 16 - DigitValue(ch) < min then Err(NegOverflow) else Ok(acc * 16 - DigitValue(ch)))
        else
          (if acc * 16 + DigitValue(ch) > max then Err(PosOverflow) else Ok(acc * 16 + DigitValue(ch)))
  }

  /**
   * `from_str_radix(src, 16)` for an integer type with bounds `min..=max`:
   * an empty string is `Empty`; a lone sign is `InvalidDigit`; a leading `+`
   * is skipped, and a leading `-` only for a signed type.
   */
  function FromStrRadix16(src: string, signed: bool, min: int, max: int): (r: Result<int, IntErrorKind>)
    requires min <= 0 <= max
    ensures r.Ok? ==> min <= r.value <= max
    ensures src == [] ==> r == Err(Empty)
  {
    if src == [] then Err(Empty)
    else if |src| == 1 && (src[0] == '+' || src[0] == '-') then Err(InvalidDigit)
    else if src[0] == '+' then Accumulate(src[1..], false, min, max)
    else if src[0] == '-' && signed then Accumulate(src[1..], true, min, max)
    else Accumulate(src, false, min, max)
  }

  predicate OxAt(s: string, j: int)
    requires 0 <= j && j + 1 < |s|
  {
    s[j] == '0' && s[j + 1] == 'x'
  }

  /** `str::find("0x")`: the index of the first occurrence of `"0x"`, if any. */
  function Find0x(s: string): (r: Option<nat>)
    ensures r.Some? ==> r.value + 1 < |s| && OxAt(s, r.value)
    ensures r.Some? ==> forall j :: 0 <= j < r.value ==> !OxAt(s, j)
    ensures r.None? ==> forall j :: 0 <= j && j + 1 < |s| ==> !OxAt(s, j)
  {
    if |s| < 2 then None
    else if s[0] == '0' && s[1] == 'x' then Some(0)
    else
      match Find0x(s[1..])
      case None =>
        assert forall j :: 1 <= j && j + 1 < |s| ==> (OxAt(s, j) <==> OxAt(s[1..], j - 1));
        None
      case Some(i) =>
        assert forall j :: 1 <= j && j + 1 < |s| ==> (OxAt(s, j) <==> OxAt(s[1..], j - 1));
        Some(i + 1)
  }

  /** What `from_str` parses: everything after the first `"0x"`, or the whole string when there is none. */
  function Body(s: string): (b: string)
    ensures |b| <= |s|
  {
    match Find0x(s)
    case Some(i) => s[i + 2..]
    case None => s
  }

  /**
   * `FromStr::from_str`: a 6-character body is read as an `i32` and
   * converted by `From<i32>` (opaque); any other body is read as a `u32` and
   * converted by `From<u32>`.
   */
  function FromStr(s: string): (r: Result<Color, IntErrorKind>)
    ensures Body(s) == [] ==> r == Err(Empty)
  {
    var body := Body(s);
    if |body| == 6 then
      match FromStrRadix16(body, true, -0x8000_0000, 0x7FFF_FFFF)
      case Ok(v) => Ok(FromI32(v))
      case Err(e) => Err(e)
    else
      match FromStrRadix16(body, false, 0, 0xFFFF_FFFF)
      case Ok(v) => Ok(FromU32(v))
      case Err(e) => Err(e)
  }

  /** A run of digits whose value fits is read as exactly that value; no prefix of it can overflow. */
  lemma {:induction false} AccumulateDigits(ds: string, max: int)
    requires 0 <= max && AllHexDigits(ds) && HexNat(ds) <= max
    ensures Accumulate(ds, false, 0, max) == Ok(HexNat(ds))
  {
    if ds != [] {
      var pre := ds[..|ds| - 1];
      assert AllHexDigits(pre) by {
        forall i | 0 <= i < |pre| ensures IsHexDigit(pre[i]) {
          assert pre[i] == ds[i];
        }
      }
      AccumulateDigits(pre, max);
      assert IsHexDigit(ds[|ds| - 1]);
    }
  }

  /** A character that is not a digit makes the digit loop fail, whatever precedes or follows it. */
  lemma {:induction false} AccumulateRejects(ds: string, negative: bool, min: int, max: int, i: nat)
    requires min <= 0 <= max
    requires i < |ds| && !IsHexDigit(ds[i])
    ensures Accumulate(ds, negative, min, max).Err?
  {
    if i < |ds| - 1 {
      var pre := ds[..|ds| - 1];
      assert pre[i] == ds[i];
      AccumulateRejects(pre, negative, min, max, i);
    }
  }

  /** A body of digits only, none of them a sign, goes straight to the digit loop. */
  lemma DigitsSkipSign(body: string, signed: bool, min: int, max: int)
    requires min <= 0 <= max
    requires |body| > 0 && AllHexDigits(body)
    ensures FromStrRadix16(body, signed, min, max) == Accumulate(body, false, min, max)
  {
    assert IsHexDigit(body[0]);
  }

  /** Text without `"0x"` is its own body. */
  lemma BodyWithout0x(s: string)
    requires forall j :: 0 <= j && j + 1 < |s| ==> !OxAt(s, j)
    ensures Body(s) == s
  {
  }

  /** Everything up to and including the first `"0x"` is dropped. */
  lemma BodyAfterPrefix(p: string, s: string)
    requires forall j :: 0 <= j && j + 1 < |p| ==> !OxAt(p, j)
    ensures Body(p + "0x" + s) == s
  {
    var t := p + "0x" + s;
    assert OxAt(t, |p|);
    forall j | 0 <= j < |p|
      ensures !OxAt(t, j)
    {
      if j + 1 < |p| {
        assert t[j] == p[j] && t[j + 1] == p[j + 1];
        assert !OxAt(p, j);
      } else {
        assert t[j + 1] == '0';
      }
    }
    assert t[|p| + 2..] == s;
  }

  /** A leading `"0x"` is dropped and nothing else. */
  lemma BodyWith0x(s: string)
    ensures Body("0x" + s) == s
  {
    var t := "0x" + s;
    assert OxAt(t, 0);
    assert t[2..] == s;
  }

  /** Hex digits never contain `"0x"` (`x` is not a hex digit). */
  lemma DigitsHaveNo0x(ds: string)
    requires AllHexDigits(ds)
    ensures forall j :: 0 <= j && j + 1 < |ds| ==> !OxAt(ds, j)
  {
    forall j | 0 <= j && j + 1 < |ds| ensures !OxAt(ds, j) {
      assert IsHexDigit(ds[j + 1]);
    }
  }

  /** Parsing what `to_string` prints gives the color back. */
  lemma {:induction false} FromStrToString(c: Color)
    ensures FromStr(ToString(c)) == Ok(c)
  {
    var body := FormatByte(c.red) + FormatByte(c.green) + FormatByte(c.blue) + FormatByte(c.alpha);
    assert ToString(c) == "0x" + body;
    BodyWith0x(body);
    assert AllHexDigits(body);
    HexNatFormatByte([], c.red);
    assert [] + FormatByte(c.red) == FormatByte(c.red);
    HexNatFormatByte(FormatByte(c.red), c.green);
    HexNatFormatByte(FormatByte(c.red) + FormatByte(c.green), c.blue);
    HexNatFormatByte(FormatByte(c.red) + FormatByte(c.green) + FormatByte(c.blue), c.alpha);
    assert HexNat(body) == IntoU32(c);
    DigitsSkipSign(body, false, 0, 0xFFFF_FFFF);
    AccumulateDigits(body, 0xFFFF_FFFF);
    U32RoundTrip(c);
  }

  /** With or without a leading `"0x"`, text that contains no other `"0x"` parses the same. */
  lemma FromStrPrefixOptional(s: string)
    requires forall j :: 0 <= j && j + 1 < |s| ==> !OxAt(s, j)
    ensures FromStr("0x" + s) == FromStr(s)
  {
    BodyWith0x(s);
    BodyWithout0x(s);
  }

  /** The value of the two digits at `ds[i..i + 2]`. */
  function PairAt(ds: string, i: nat): nat
    requires i + 2 <= |ds|
  {
    DigitValue(ds[i]) * 16 + DigitValue(ds[i + 1])
  }

  /** Six digits denote three pairs, most significant first. */
  lemma HexNatSix(ds: string)
    requires |ds| == 6
    ensures HexNat(ds) == PairAt(ds, 0) * 0x1_0000 + PairAt(ds, 2) * 0x100 + PairAt(ds, 4)
  {
    var p1, p2 := ds[..2], ds[..4];
    assert p1 == [] + [ds[0], ds[1]] && p2 == p1 + [ds[2], ds[3]] && ds == p2 + [ds[4], ds[5]];
    HexNatAppendPair([], ds[0], ds[1]);
    HexNatAppendPair(p1, ds[2], ds[3]);
    HexNatAppendPair(p2, ds[4], ds[5]);
  }

  /** Eight digits denote four pairs, most significant first. */
  lemma HexNatEight(ds: string)
    requires |ds| == 8
    ensures HexNat(ds) == PairAt(ds, 0) * 0x100_0000 + PairAt(ds, 2) * 0x1_0000 + PairAt(ds, 4) * 0x100 + PairAt(ds, 6)
  {
    var p1, p2, p3 := ds[..2], ds[..4], ds[..6];
    assert p1 == [] + [ds[0], ds[1]] && p2 == p1 + [ds[2], ds[3]];
    assert p3 == p2 + [ds[4], ds[5]] && ds == p3 + [ds[6], ds[7]];
    HexNatAppendPair([], ds[0], ds[1]);
    HexNatAppendPair(p1, ds[2], ds[3]);
    HexNatAppendPair(p2, ds[4], ds[5]);
    HexNatAppendPair(p3, ds[6], ds[7]);
  }

  /** Six digits, either letter case, read as RRGGBB with alpha 255. */
  lemma {:induction false} FromStrSixDigits(ds: string)
    requires |ds| == 6 && AllHexDigits(ds)
    ensures FromStr(ds) == Ok(Color(PairAt(ds, 0), PairAt(ds, 2), PairAt(ds, 4), 255))
  {
    DigitsHaveNo0x(ds);
    BodyWithout0x(ds);
    HexNatSix(ds);
    var c := Color(PairAt(ds, 0), PairAt(ds, 2), PairAt(ds, 4), 255);
    assert HexNat(ds) == IntoI32(c);
    DigitsSkipSign(ds, true, -0x8000_0000, 0x7FFF_FFFF);
    assert Accumulate(ds, false, -0x8000_0000, 0x7FFF_FFFF) == Ok(HexNat(ds)) by {
      AccumulateDigitsFrom(ds, -0x8000_0000, 0x7FFF_FFFF);
    }
    I32RoundTrip(c);
  }

  /** Eight digits, either letter case, read as RRGGBBAA. */
  lemma {:induction false} FromStrEightDigits(ds: string)
    requires |ds| == 8 && AllHexDigits(ds)
    ensures FromStr(ds) == Ok(Color(PairAt(ds, 0), PairAt(ds, 2), PairAt(ds, 4), PairAt(ds, 6)))
  {
    DigitsHaveNo0x(ds);
    BodyWithout0x(ds);
    HexNatEight(ds);
    var c := Color(PairAt(ds, 0), PairAt(ds, 2), PairAt(ds, 4), PairAt(ds, 6));
    assert HexNat(ds) == IntoU32(c);
    DigitsSkipSign(ds, false, 0, 0xFFFF_FFFF);
    AccumulateDigits(ds, 0xFFFF_FFFF);
    U32RoundTrip(c);
  }

  /** Digits read the same with a leading `"0x"`. */
  lemma FromStrPrefixedDigits(ds: string)
    requires AllHexDigits(ds)
    ensures FromStr("0x" + ds) == FromStr(ds)
  {
    DigitsHaveNo0x(ds);
    FromStrPrefixOptional(ds);
  }

  /** `AccumulateDigits` for an arbitrary non-positive lower bound. */
  lemma {:induction false} AccumulateDigitsFrom(ds: string, min: int, max: int)
    requires min <= 0 <= max && AllHexDigits(ds) && HexNat(ds) <= max
    ensures Accumulate(ds, false, min, max) == Ok(HexNat(ds))
  {
    if ds != [] {
      var pre := ds[..|ds| - 1];
      assert AllHexDigits(pre) by {
        forall i | 0 <= i < |pre| ensures IsHexDigit(pre[i]) {
          assert pre[i] == ds[i];
        }
      }
      AccumulateDigitsFrom(pre, min, max);
      assert IsHexDigit(ds[|ds| - 1]);
    }
  }

  /**
   * A body holding a character that is neither a hex digit nor an accepted
   * leading sign (`+` always, `-` only on the 6-character signed path) is
   * rejected.
   */
  lemma {:induction false} FromStrRejectsNonDigit(s: string, i: nat)
    requires i < |Body(s)| && !IsHexDigit(Body(s)[i])
    requires i == 0 ==> Body(s)[0] != '+' && (Body(s)[0] != '-' || |Body(s)| != 6)
    ensures FromStr(s).Err?
  {
    var body := Body(s);
    if |body| == 6 {
      RadixRejects(body, true, -0x8000_0000, 0x7FFF_FFFF, i);
    } else {
      RadixRejects(body, false, 0, 0xFFFF_FFFF, i);
    }
  }

  lemma {:induction false} RadixRejects(src: string, signed: bool, min: int, max: int, i: nat)
    requires min <= 0 <= max
    requires i < |src| && !IsHexDigit(src[i])
    requires i == 0 ==> src[0] != '+' && (src[0] != '-' || !signed)
    ensures FromStrRadix16(src, signed, min, max).Err?
  {
    if |src| == 1 && (src[0] == '+' || src[0] == '-') {
    } else if src[0] == '+' {
      AccumulateRejects(src[1..], false, min, max, i - 1);
    } else if src[0] == '-' && signed {
      AccumulateRejects(src[1..], true, min, max, i - 1);
    } else {
      AccumulateRejects(src, false, min, max, i);
    }
  }

  lemma ToStringTestCase()
    ensures ToString(BLUE) == "0x0079F1FF"
  {
    assert FormatByte(0) == "00" && FormatByte(121) == "79";
    assert FormatByte(241) == "F1" && FormatByte(255) == "FF";
  }

  lemma FromStrSixTestCase()
    ensures FromStr("0079F1") == Ok(BLUE)
  {
    FromStrSixDigits("0079F1");
  }

  lemma FromStrEightTestCase()
    ensures FromStr("0079F1FF") == Ok(BLUE)
  {
    FromStrEightDigits("0079F1FF");
  }

  lemma FromStrPrefixedSixTestCase()
    ensures FromStr("0x0079F1") == Ok(BLUE)
  {
    FromStrPrefixedSix();
    assert "0x" + "0079F1" == "0x0079F1";
  }

  lemma FromStrPrefixedSix()
    ensures FromStr("0x" + "0079F1") == Ok(BLUE)
  {
    FromStrSixTestCase();
    FromStrPrefixedDigits("0079F1");
  }

  lemma FromStrPrefixedEightTestCase()
    ensures FromStr("0x0079F1FF") == Ok(BLUE)
  {
    ToStringTestCase();
    FromStrToString(BLUE);
  }
}
