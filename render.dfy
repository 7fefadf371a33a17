/** The arithmetic the display performs before drawing: the text of the
    scale setting (`"+%d"` for a positive transposition, `"%d"` otherwise)
    and the note indicator's colour, a 5:6:5 value dimmed by the volume. */
module Render {
  import opened Wrappers
  import CInt

  // ---------------------------------------------------------------------
  // Decimal text as `printf("%d")` writes it

  function DigitChar(d: int): char
    requires 0 <= d < 10
  {
    ('0' as int + d) as char
  }

  predicate IsDigit(c: char) { '0' <= c <= '9' }

  /** The decimal digits of `n`, most significant first, without leading zeros. */
  function Digits(n: nat): (s: string)
    ensures |s| >= 1
    ensures forall i | 0 <= i < |s| :: IsDigit(s[i])
    decreases n
  {
    if n < 10 then [DigitChar(n)] else Digits(n / 10) + [DigitChar(n % 10)]
  }

  /** `printf("%d", x)`. */
  function Decimal(x: int): string
  {
    if x < 0 then "-" + Digits(-x) else Digits(x)
  }

  /** The text shown for the scale setting. */
  function ScaleLabel(scale: int): string
  {
    if scale > 0 then "+" + Decimal(scale) else Decimal(scale)
  }

  /** A reference reader for such text: the value of a string of digits. */
  function DigitsValue(s: string): int
    requires forall i | 0 <= i < |s| :: IsDigit(s[i])
    decreases |s|
  {
    if s == [] then 0 else DigitsValue(s[..|s| - 1]) * 10 + (s[|s| - 1] as int - '0' as int)
  }

  /** An optional sign followed by at least one digit. */
  function ParseSigned(s: string): Option<int>
  {
    if |s| >= 2 && (s[0] == '+' || s[0] == '-') && forall i | 1 <= i < |s| :: IsDigit(s[i]) then
      var v := DigitsValue(s[1..]);
      Some(if s[0] == '-' then -v else v)
    else if |s| >= 1 && forall i | 0 <= i < |s| :: IsDigit(s[i]) then
      Some(DigitsValue(s))
    else None
  }

  lemma {:induction false} DigitsRoundTrip(n: nat)
    ensures DigitsValue(Digits(n)) == n
    decreases n
  {
    if n >= 10 {
      var s := Digits(n);
      assert s[..|s| - 1] == Digits(n / 10);
      DigitsRoundTrip(n / 10);
    }
  }

  /** A positive number has no leading zero. */
  lemma {:induction false} DigitsLead(n: nat)
    ensures (Digits(n)[0] == '0') <==> n == 0
    ensures |Digits(n)| == 1 <==> n < 10
    decreases n
  {
    if n >= 10 {
      DigitsLead(n / 10);
    }
  }

  /** The sign of the label: '+' exactly for a positive scale, "0" exactly for
      zero, '-' exactly for a negative scale. */
  lemma ScaleLabelSign(scale: int)
    ensures ScaleLabel(scale)[0] == '+' <==> scale > 0
    ensures ScaleLabel(scale) == "0" <==> scale == 0
    ensures ScaleLabel(scale)[0] == '-' <==> scale < 0
    ensures scale != 0 ==> ScaleLabel(scale)[1..] == Digits(CInt.Abs(scale))
  {
    DigitsLead(CInt.Abs(scale));
    if scale > 0 {
      assert ScaleLabel(scale)[1..] == Digits(scale);
    } else if scale < 0 {
      assert ScaleLabel(scale)[1..] == Digits(-scale);
    }
  }

  /** Reading the label back gives the scale. */
  lemma ScaleLabelRoundTrip(scale: int)
    ensures ParseSigned(ScaleLabel(scale)) == Some(scale)
  {
    var l := ScaleLabel(scale);
    DigitsRoundTrip(CInt.Abs(scale));
    if scale != 0 {
      ScaleLabelSign(scale);
      assert l[1..] == Digits(CInt.Abs(scale));
      assert forall i | 1 <= i < |l| :: IsDigit(l[i]) by {
        forall i | 1 <= i < |l| ensures IsDigit(l[i]) {
          assert l[i] == l[1..][i - 1];
        }
      }
    }
  }

  // ---------------------------------------------------------------------
  // The note indicator's colour

  /** The volume at which the colour reaches full brightness. */
  const VOL_SAT := 16

  /** A `uint16_t` 5:6:5 colour. */
  predicate IsColor(c: int) { 0 <= c < 0x10000 }

  /** The red, green and blue fields of a colour, as the rows of `COLOR_TABLE`
      extract them with `(c >> 11) & 0x1F`, `(c >> 5) & 0x3F` and `c & 0x1F`:
      on a non-negative value a right shift is a division by a power of two
      and such a mask a remainder. */
  function Red(c: int): int requires IsColor(c) { c / 2048 % 32 }
  function Green(c: int): int requires IsColor(c) { c / 32 % 64 }
  function Blue(c: int): int requires IsColor(c) { c % 32 }

  /** `field * vol / VOL_SAT`, computed in `int`, for a volume already capped. */
  function Dim(field: nat, vol: int): int
    requires 0 <= vol <= VOL_SAT
  {
    field * vol / VOL_SAT
  }

  /** `(r << 11) | (g << 5) | b`. For fields within their widths the three
      shifted values occupy disjoint bits, so the `|` adds them; OrIsSum
      states this in 16-bit arithmetic. */
  function Pack(r: int, g: int, b: int): int
  {
    r * 2048 + g * 32 + b
  }

  /** The shifts and the `|` of Pack, on 16-bit values, are the sum Pack uses. */
  lemma OrIsSum(r: bv16, g: bv16, b: bv16)
    requires r < 0x20 && g < 0x40 && b < 0x20
    ensures (r << 11) | (g << 5) | b == r * 2048 + g * 32 + b
    ensures ((r << 11) | (g << 5) | b) as int == Pack(r as int, g as int, b as int)
  {
    assert (r * 2048 + g * 32 + b) as int == r as int * 2048 + g as int * 32 + b as int;
  }

  /** A colour with each field dimmed by `vol / VOL_SAT`. */
  function DimColor(c: int, vol: int): int
    requires IsColor(c) && 0 <= vol <= VOL_SAT
  {
    Pack(Dim(Red(c), vol), Dim(Green(c), vol), Dim(Blue(c), vol))
  }

  /** The volume as `DisplayUI_sound` caps it. */
  function Capped(vol: int): (v: int)
    requires vol >= 0
    ensures 0 <= v <= VOL_SAT && v <= vol
    ensures vol <= VOL_SAT ==> v == vol
    ensures vol > VOL_SAT ==> v == VOL_SAT
  {
    if vol > VOL_SAT then VOL_SAT else vol
  }

  /** `palette` holds the colours of octaves 3 to 6 (the M5 constants
      ORANGE, YELLOW, GREEN and CYAN, kept opaque), the rows of `COLOR_TABLE`. */
  predicate IsPalette(palette: seq<int>)
  {
    |palette| == 4 && forall i | 0 <= i < 4 :: IsColor(palette[i])
  }

  /** The colour `DisplayUI_sound` draws with: the row `COLOR_TABLE[octave - 3]`
      dimmed by the capped volume. The row is read without a range check, so
      any octave outside 3 to 6 reads outside the table; the model gives None
      there rather than any particular colour. */
  function SoundColor(palette: seq<int>, octave: int, vol: int): (r: Option<int>)
    requires IsPalette(palette) && vol >= 0
    ensures r.Some? <==> 3 <= octave <= 6
    ensures r.Some? ==> IsColor(r.value)
  {
    if 0 <= octave - 3 < 4 then
      DimColorFields(palette[octave - 3], Capped(vol));
      Some(DimColor(palette[octave - 3], Capped(vol)))
    else None
  }

  /** Each field is scaled down, never up; volume 0 gives 0 and full volume
      the field itself. */
  lemma DimBounds(field: nat, vol: int)
    requires 0 <= vol <= VOL_SAT
    ensures 0 <= Dim(field, vol) <= field
    ensures vol == 0 ==> Dim(field, vol) == 0
    ensures vol == VOL_SAT ==> Dim(field, vol) == field
  {
    assert field * vol <= field * VOL_SAT;
  }

  /** Three in-range fields pack into 16 bits, so storing the result in a
      `uint16_t` loses nothing, and the colour's fields are exactly them again. */
  lemma PackRoundTrip(r: int, g: int, b: int)
    requires 0 <= r < 0x20 && 0 <= g < 0x40 && 0 <= b < 0x20
    ensures IsColor(Pack(r, g, b))
    ensures Red(Pack(r, g, b)) == r && Green(Pack(r, g, b)) == g && Blue(Pack(r, g, b)) == b
  {
    var c := Pack(r, g, b);
    assert c / 2048 == r;
    assert c / 32 == r * 64 + g;
    assert c % 32 == b;
  }

  /** A colour is recovered from its own three fields. */
  lemma UnpackRepack(c: int)
    requires IsColor(c)
    ensures Pack(Red(c), Green(c), Blue(c)) == c
  {
    var q := c / 32;
    assert c == q * 32 + c % 32;
    assert q == q / 64 * 64 + q % 64;
    assert q / 64 == c / 2048 < 32;
  }

  /** Dimming scales each field of the colour down from its own value. */
  lemma DimColorFields(c: int, vol: int)
    requires IsColor(c) && 0 <= vol <= VOL_SAT
    ensures IsColor(DimColor(c, vol))
    ensures var d := DimColor(c, vol);
      Red(d) == Dim(Red(c), vol) <= Red(c) &&
      Green(d) == Dim(Green(c), vol) <= Green(c) &&
      Blue(d) == Dim(Blue(c), vol) <= Blue(c)
  {
    DimBounds(Red(c), vol);
    DimBounds(Green(c), vol);
    DimBounds(Blue(c), vol);
    PackRoundTrip(Dim(Red(c), vol), Dim(Green(c), vol), Dim(Blue(c), vol));
  }

  /** Volume 0 dims a colour to black. */
  lemma DimToBlack(c: int)
    requires IsColor(c)
    ensures DimColor(c, 0) == 0
  {
    DimBounds(Red(c), 0);
    DimBounds(Green(c), 0);
    DimBounds(Blue(c), 0);
    assert DimColor(c, 0) == Pack(0, 0, 0);
  }

  /** Volume 16 leaves a colour as it is. */
  lemma DimToFull(c: int)
    requires IsColor(c)
    ensures DimColor(c, VOL_SAT) == c
  {
    DimBounds(Red(c), VOL_SAT);
    DimBounds(Green(c), VOL_SAT);
    DimBounds(Blue(c), VOL_SAT);
    assert DimColor(c, VOL_SAT) == Pack(Red(c), Green(c), Blue(c));
    UnpackRepack(c);
  }

  /** The drawn colour: the octave's colour dimmed by min(vol, 16) / 16, so
      volume 0 is black and any volume from 16 up shows the table colour. */
  lemma SoundColorDims(palette: seq<int>, octave: int, vol: int)
    requires IsPalette(palette) && 3 <= octave <= 6 && vol >= 0
    ensures vol <= VOL_SAT ==> SoundColor(palette, octave, vol) == Some(DimColor(palette[octave - 3], vol))
    ensures vol == 0 ==> SoundColor(palette, octave, vol) == Some(0)
    ensures vol >= VOL_SAT ==> SoundColor(palette, octave, vol) == Some(palette[octave - 3])
  {
    var c := palette[octave - 3];
    var r := SoundColor(palette, octave, vol);
    assert r == Some(DimColor(c, Capped(vol)));
    DimToBlack(c);
    DimToFull(c);
  }
}
