/** Fixed-width integer behaviour of the engine's UInt8/UInt32/Int32 types. */
module FixedWidth {
  const U8Mod: int := 0x100
  const U32Mod: int := 0x1_0000_0000
  /** The largest UInt32, the value of `UInt32(-1)`. */
  const U32Max: int := 0xFFFF_FFFF

  /**
   * Conversion to UInt8 (keeps the low eight bits) of an int in the range
   * that sums and differences of two UInt8 values take.
   */
  function Narrow8(x: int): (r: int)
    requires -U8Mod < x < 2 * U8Mod
    ensures 0 <= r < U8Mod && (r == x || r == x + U8Mod || r == x - U8Mod)
  {
    if x < 0 then x + U8Mod else if x >= U8Mod then x - U8Mod else x
  }

  /** Conversion of any integer to UInt32 (keeps the low 32 bits). */
  function Wrap32(x: int): (r: int)
    ensures 0 <= r < U32Mod
  {
    x % U32Mod
  }

  /** Two's-complement reading of a UInt32 bit pattern as an Int32. */
  function ToInt32(u: int): (r: int)
    requires 0 <= u < U32Mod
    ensures -0x8000_0000 <= r < 0x8000_0000
    ensures Wrap32(r) == u
  {
    if u < 0x8000_0000 then u else u - U32Mod
  }
}

/** The Option type, standing for nullable pointers. */
module Wrappers {
  datatype Option<+T> = None | Some(value: T) {
    function GetOr(default: T): T {
      match this
      case Some(v) => v
      case None => default
    }
  }
}

/** Plain value types shared by the rendering modules (float fields modelled as reals). */
module Geometry {
  datatype Vec2 = Vec2(x: real, y: real)
  datatype Vec3 = Vec3(x: real, y: real, z: real)
  datatype Vec4 = Vec4(x: real, y: real, z: real, w: real)
  datatype Rect = Rect(x: real, y: real, width: real, height: real)
  /** Floating-point colour, one real per channel. */
  datatype Color32 = Color32(r: real, g: real, b: real, a: real)
  /** One vertex of a quad: position (w holds the instance slot), texture coordinate and colour. */
  datatype Vertex = Vertex(position: Vec4, uv: Vec2, color: Color32)
}
