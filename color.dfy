/**
 * The byte-channel `Color` of include/Ace/Color.h: four UInt8 channels,
 * decoded from a packed 32-bit value or built channel by channel, with
 * channel-wise `+` and `-` that wrap around as UInt8 does.
 */
module Colors {
  import opened FixedWidth

  type UInt8 = x: int | 0 <= x < 0x100
  type UInt32 = x: int | 0 <= x < 0x1_0000_0000

  datatype Color = Color(r: UInt8, g: UInt8, b: UInt8, a: UInt8)

  /** The packed colour constants of the struct. */
  const Red: UInt32 := 0xFF00_0000
  const Green: UInt32 := 0x00FF_0000
  const Blue: UInt32 := 0x0000_FF00

  /** The channel constructor with its defaulted arguments: `Color()` is all zero. */
  function Default(): (c: Color)
    ensures c.r == 0 && c.g == 0 && c.b == 0 && c.a == 0
  {
    Color(0, 0, 0, 0)
  }

  /**
   * The hex constructor. Masking one byte of a 32-bit value and shifting it
   * down by a whole number of bytes is division by a power of 256 followed by
   * the remainder modulo 256.
   */
  function FromHex(hex: UInt32): (c: Color)
  {
    Color(hex / 0x100_0000,
          (hex / 0x1_0000) % 0x100,
          (hex / 0x100) % 0x100,
          hex % 0x100)
  }

  /** Re-packs the four channels, red in the top byte. */
  function Packed(c: Color): (hex: UInt32)
  {
    c.r * 0x100_0000 + c.g * 0x1_0000 + c.b * 0x100 + c.a
  }

  /** `operator+`: the int sums are narrowed back to UInt8 by the constructor. */
  function Add(c: Color, d: Color): (s: Color)
  {
    Color(Narrow8(c.r + d.r), Narrow8(c.g + d.g), Narrow8(c.b + d.b), Narrow8(c.a + d.a))
  }

  /** `operator-`: the int differences are narrowed back to UInt8 by the constructor. */
  function Sub(c: Color, d: Color): (s: Color)
  {
    Color(Narrow8(c.r - d.r), Narrow8(c.g - d.g), Narrow8(c.b - d.b), Narrow8(c.a - d.a))
  }

  /** Decoding then re-packing gives back the original 32-bit value. */
  lemma {:induction false} HexRoundTrip(hex: UInt32)
    ensures Packed(FromHex(hex)) == hex
  {
    var c := FromHex(hex);
    var q1 := hex / 0x100;
    var q2 := q1 / 0x100;
    var q3 := q2 / 0x100;
    assert hex == q1 * 0x100 + c.a;
    assert q1 == q2 * 0x100 + c.b;
    assert q2 == q3 * 0x100 + c.g;
    assert q2 == hex / 0x1_0000;
    assert q3 == hex / 0x100_0000;
  }

  /** Packing then decoding gives back the original channels. */
  lemma {:induction false} PackedRoundTrip(c: Color)
    ensures FromHex(Packed(c)) == c
  {
    var hex := Packed(c);
    assert hex == ((c.r * 0x100 + c.g) * 0x100 + c.b) * 0x100 + c.a;
    var q1 := (c.r * 0x100 + c.g) * 0x100 + c.b;
    assert hex / 0x100 == q1 && hex % 0x100 == c.a;
    assert q1 / 0x100 == c.r * 0x100 + c.g && q1 % 0x100 == c.b;
    assert (c.r * 0x100 + c.g) / 0x100 == c.r && (c.r * 0x100 + c.g) % 0x100 == c.g;
    HexRoundTrip(hex);
  }

  /** The named constants decode to full red, green and blue with zero alpha. */
  lemma ConstantsDecode()
    ensures FromHex(Red) == Color(255, 0, 0, 0)
    ensures FromHex(Green) == Color(0, 255, 0, 0)
    ensures FromHex(Blue) == Color(0, 0, 255, 0)
  {
  }

  /** `+` is channel-wise addition modulo 256, hence commutative. */
  lemma AddCommutes(c: Color, d: Color)
    ensures Add(c, d) == Add(d, c)
    ensures Add(c, d).r == (c.r + d.r) % 256 && Add(c, d).g == (c.g + d.g) % 256
    ensures Add(c, d).b == (c.b + d.b) % 256 && Add(c, d).a == (c.a + d.a) % 256
  {
  }

  /** `-` is channel-wise subtraction modulo 256. */
  lemma SubIsModular(c: Color, d: Color)
    ensures Sub(c, d).r == (c.r - d.r) % 256 && Sub(c, d).g == (c.g - d.g) % 256
    ensures Sub(c, d).b == (c.b - d.b) % 256 && Sub(c, d).a == (c.a - d.a) % 256
  {
  }

  /** `-` undoes `+` under UInt8 wrap-around. */
  lemma {:induction false} SubUndoesAdd(c: Color, d: Color)
    ensures Sub(Add(c, d), d) == c
  {
    var s := Add(c, d);
    WrapCancel(c.r, d.r);
    WrapCancel(c.g, d.g);
    WrapCancel(c.b, d.b);
    WrapCancel(c.a, d.a);
    assert Sub(s, d) == Color(c.r, c.g, c.b, c.a);
  }

  lemma WrapCancel(x: UInt8, y: UInt8)
    ensures Narrow8(Narrow8(x + y) - y) == x
  {
  }

  /** `+` then `-` by the same colour, from the other side: `(c - d) + d == c`. */
  lemma {:induction false} AddUndoesSub(c: Color, d: Color)
    ensures Add(Sub(c, d), d) == c
  {
    var s := Sub(c, d);
    WrapUncancel(c.r, d.r);
    WrapUncancel(c.g, d.g);
    WrapUncancel(c.b, d.b);
    WrapUncancel(c.a, d.a);
    assert Add(s, d) == Color(c.r, c.g, c.b, c.a);
  }

  lemma WrapUncancel(x: UInt8, y: UInt8)
    ensures Narrow8(Narrow8(x - y) + y) == x
  {
  }
}
