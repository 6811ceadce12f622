/**
 * The `Sprite` of src/Ace/Sprite.cpp: a quad of four vertices held in a
 * fixed array that every operation rewrites in place. Each operation is
 * specified by a function on the quad's value; the lemmas relate those.
 */
module Sprites {
  import opened Geometry
  import opened Wrappers

  /** `Sprite::size`, the number of vertices of a quad. */
  const Size: nat := 4

  /** The colour literal 0xFFFFFFFF of the `triangle` table, read as a Color32 (every channel 255/255). */
  const White: Color32 := Color32(1.0, 1.0, 1.0, 1.0)

  /** The `triangle` table: a unit quad centred on the origin, corners counter-clockwise from the top right. */
  function Triangle(): (t: seq<Vertex>)
    ensures |t| == Size
  {
    [ Vertex(Vec4(0.5, 0.5, 0.0, 0.0), Vec2(1.0, 0.0), White),
      Vertex(Vec4(-0.5, 0.5, 0.0, 0.0), Vec2(0.0, 0.0), White),
      Vertex(Vec4(-0.5, -0.5, 0.0, 0.0), Vec2(0.0, 1.0), White),
      Vertex(Vec4(0.5, -0.5, 0.0, 0.0), Vec2(1.0, 1.0), White) ]
  }

  /** The part of a sprite-sheet entry that `SetSprite` reads. */
  datatype SpriteData = SpriteData(texcoord: Rect)

  /** Vertex `i` with its x/y replaced by the table's x/y times `s`. */
  function ScaledVertex(v: Vertex, i: nat, s: Vec2): Vertex
    requires i < Size
  {
    v.(position := v.position.(x := Triangle()[i].position.x * s.x, y := Triangle()[i].position.y * s.y))
  }

  /** The quad after `Scale(s)`: positions are recomputed from the table, not from the current quad. */
  function Scaled(q: seq<Vertex>, s: Vec2): (r: seq<Vertex>)
    requires |q| == Size
    ensures |r| == Size
    ensures forall i :: 0 <= i < Size ==>
      r[i].position.z == q[i].position.z && r[i].position.w == q[i].position.w &&
      r[i].uv == q[i].uv && r[i].color == q[i].color
  {
    seq(Size, i requires 0 <= i < Size => ScaledVertex(q[i], i, s))
  }

  /** The quad after `Move(p)`: every vertex is translated by `p`. */
  function Moved(q: seq<Vertex>, p: Vec3): (r: seq<Vertex>)
    requires |q| == Size
    ensures |r| == Size
    ensures forall i :: 0 <= i < Size ==>
      r[i].position.w == q[i].position.w && r[i].uv == q[i].uv && r[i].color == q[i].color
  {
    seq(Size, i requires 0 <= i < Size =>
      q[i].(position := q[i].position.(x := q[i].position.x + p.x,
                                       y := q[i].position.y + p.y,
                                       z := q[i].position.z + p.z)))
  }

  /** The quad after `Colorize(c)`. */
  function Colorized(q: seq<Vertex>, c: Color32): (r: seq<Vertex>)
    requires |q| == Size
    ensures |r| == Size
    ensures forall i :: 0 <= i < Size ==>
      r[i].color == c && r[i].position == q[i].position && r[i].uv == q[i].uv
  {
    seq(Size, i requires 0 <= i < Size => q[i].(color := c))
  }

  /**
   * The quad after `Texcoord(rect)`: vertices 1 and 2 take the rectangle's
   * left edge and 0 and 3 its right edge; 0 and 1 take its top edge and 2
   * and 3 its bottom edge.
   */
  function Texcoorded(q: seq<Vertex>, rect: Rect): (r: seq<Vertex>)
    requires |q| == Size
    ensures |r| == Size
    ensures forall i :: 0 <= i < Size ==> r[i].position == q[i].position && r[i].color == q[i].color
  {
    var left, right := rect.x, rect.x + rect.width;
    var top, bottom := rect.y, rect.y + rect.height;
    [ q[0].(uv := Vec2(right, top)),
      q[1].(uv := Vec2(left, top)),
      q[2].(uv := Vec2(left, bottom)),
      q[3].(uv := Vec2(right, bottom)) ]
  }

  /** Vertex `i` of the quad after `FlipUV(axis)`: one uv coordinate comes from the diagonal partner `(i + 2) % 4`. */
  function FlippedVertex(q: seq<Vertex>, i: nat, axis: bool): Vertex
    requires |q| == Size && i < Size
  {
    var partner := q[(i + 2) % Size];
    if axis then q[i].(uv := q[i].uv.(x := partner.uv.x))
    else q[i].(uv := q[i].uv.(y := partner.uv.y))
  }

  /** The quad after `FlipUV(axis)`: `true` swaps uv.x, `false` swaps uv.y, between vertices 0 and 2 and between 1 and 3. */
  function FlippedUV(q: seq<Vertex>, axis: bool): (r: seq<Vertex>)
    requires |q| == Size
    ensures |r| == Size
    ensures forall i :: 0 <= i < Size ==>
      r[i].position == q[i].position && r[i].color == q[i].color &&
      (axis ==> r[i].uv.y == q[i].uv.y) && (!axis ==> r[i].uv.x == q[i].uv.x)
  {
    seq(Size, i requires 0 <= i < Size => FlippedVertex(q, i, axis))
  }

  /** The quad after `SetInstanceID(id)`. */
  function WithInstance(q: seq<Vertex>, id: real): (r: seq<Vertex>)
    requires |q| == Size
    ensures |r| == Size
    ensures forall i :: 0 <= i < Size ==>
      r[i].position.w == id && r[i].position.x == q[i].position.x &&
      r[i].position.y == q[i].position.y && r[i].position.z == q[i].position.z &&
      r[i].uv == q[i].uv && r[i].color == q[i].color
  {
    seq(Size, i requires 0 <= i < Size => q[i].(position := q[i].position.(w := id)))
  }

  class Sprite {
    /** The four vertices; the array object belongs to the sprite and never changes. */
    const vertexData: array<Vertex>

    ghost predicate Valid()
      reads this
    {
      vertexData.Length == Size
    }

    /** The default constructor copies the `triangle` table. */
    constructor ()
      ensures Valid() && fresh(vertexData)
      ensures vertexData[..] == Triangle()
    {
      var t := Triangle();
      vertexData := new Vertex[Size](i requires 0 <= i < Size => t[i]);
      new;
      assert vertexData[..] == t;
    }

    /** The constructor from an array of four vertices. */
    constructor FromArray(data: seq<Vertex>)
      requires |data| == Size
      ensures Valid() && fresh(vertexData)
      ensures vertexData[..] == data
    {
      vertexData := new Vertex[Size](i requires 0 <= i < Size => data[i]);
      new;
      assert vertexData[..] == data;
    }

    /** The constructor from four separate vertices. */
    constructor FromVertices(v1: Vertex, v2: Vertex, v3: Vertex, v4: Vertex)
      ensures Valid() && fresh(vertexData)
      ensures vertexData[..] == [v1, v2, v3, v4]
    {
      var vs := [v1, v2, v3, v4];
      vertexData := new Vertex[Size](i requires 0 <= i < Size => vs[i]);
      new;
      assert vertexData[..] == vs;
    }

    /** `SetSprite(sprite)`: a null entry is ignored, otherwise its texture rectangle is applied. */
    method SetSprite(sprite: Option<SpriteData>)
      requires Valid()
      modifies vertexData
      ensures sprite.None? ==> vertexData[..] == old(vertexData[..])
      ensures sprite.Some? ==> vertexData[..] == Texcoorded(old(vertexData[..]), sprite.value.texcoord)
    {
      if sprite.None? {
        return;
      }
      Texcoord(sprite.value.texcoord);
    }

    /** `Scale(v)`: positions are recomputed from the table. */
    method Scale(s: Vec2)
      requires Valid()
      modifies vertexData
      ensures vertexData[..] == Scaled(old(vertexData[..]), s)
    {
      var i := 0;
      while i < Size
        invariant 0 <= i <= Size
        invariant forall k :: 0 <= k < i ==> vertexData[k] == ScaledVertex(old(vertexData[k]), k, s)
        invariant forall k :: i <= k < Size ==> vertexData[k] == old(vertexData[k])
      {
        var v := vertexData[i];
        vertexData[i] := v.(position := v.position.(x := Triangle()[i].position.x * s.x));
        v := vertexData[i];
        vertexData[i] := v.(position := v.position.(y := Triangle()[i].position.y * s.y));
        i := i + 1;
      }
    }

    /** `Move(p)`: translates every vertex. */
    method Move(p: Vec3)
      requires Valid()
      modifies vertexData
      ensures vertexData[..] == Moved(old(vertexData[..]), p)
    {
      var i := 0;
      while i < Size
        invariant 0 <= i <= Size
        invariant forall k :: 0 <= k < i ==> vertexData[k] == Moved(old(vertexData[..]), p)[k]
        invariant forall k :: i <= k < Size ==> vertexData[k] == old(vertexData[k])
      {
        var pos := vertexData[i].position;
        vertexData[i] := vertexData[i].(position := pos.(x := pos.x + p.x, y := pos.y + p.y, z := pos.z + p.z));
        i := i + 1;
      }
    }

    /** `Colorize(c)`: every vertex gets colour `c`. */
    method Colorize(c: Color32)
      requires Valid()
      modifies vertexData
      ensures vertexData[..] == Colorized(old(vertexData[..]), c)
    {
      var i := 0;
      while i < Size
        invariant 0 <= i <= Size
        invariant forall k :: 0 <= k < i ==> vertexData[k] == old(vertexData[k]).(color := c)
        invariant forall k :: i <= k < Size ==> vertexData[k] == old(vertexData[k])
      {
        vertexData[i] := vertexData[i].(color := c);
        i := i + 1;
      }
    }

    /** `Texcoord(rect)`: eight field assignments, in the source's order. */
    method Texcoord(rect: Rect)
      requires Valid()
      modifies vertexData
      ensures vertexData[..] == Texcoorded(old(vertexData[..]), rect)
    {
      vertexData[1] := vertexData[1].(uv := vertexData[1].uv.(x := rect.x));
      vertexData[0] := vertexData[0].(uv := vertexData[0].uv.(y := rect.y));

      vertexData[0] := vertexData[0].(uv := vertexData[0].uv.(x := rect.x + rect.width));
      vertexData[1] := vertexData[1].(uv := vertexData[1].uv.(y := rect.y));

      vertexData[3] := vertexData[3].(uv := vertexData[3].uv.(x := rect.x + rect.width));
      vertexData[2] := vertexData[2].(uv := vertexData[2].uv.(y := rect.y + rect.height));

      vertexData[2] := vertexData[2].(uv := vertexData[2].uv.(x := rect.x));
      vertexData[3] := vertexData[3].(uv := vertexData[3].uv.(y := rect.y + rect.height));
    }

    /** `FlipUV(axis)`: copies the quad, then assigns one uv coordinate of each vertex from the copy. */
    method FlipUV(axis: bool)
      requires Valid()
      modifies vertexData
      ensures vertexData[..] == FlippedUV(old(vertexData[..]), axis)
    {
      var temp := vertexData[..];
      if axis {
        vertexData[0] := vertexData[0].(uv := vertexData[0].uv.(x := temp[2].uv.x));
        vertexData[1] := vertexData[1].(uv := vertexData[1].uv.(x := temp[3].uv.x));
        vertexData[2] := vertexData[2].(uv := vertexData[2].uv.(x := temp[0].uv.x));
        vertexData[3] := vertexData[3].(uv := vertexData[3].uv.(x := temp[1].uv.x));
      } else {
        vertexData[0] := vertexData[0].(uv := vertexData[0].uv.(y := temp[2].uv.y));
        vertexData[1] := vertexData[1].(uv := vertexData[1].uv.(y := temp[3].uv.y));
        vertexData[2] := vertexData[2].(uv := vertexData[2].uv.(y := temp[0].uv.y));
        vertexData[3] := vertexData[3].(uv := vertexData[3].uv.(y := temp[1].uv.y));
      }
    }

    /** `SetColor(index, c)`: only vertex `index` changes, and only its colour. */
    method SetColor(index: nat, c: Color32)
      requires Valid() && index < Size
      modifies vertexData
      ensures vertexData[..] == old(vertexData[..])[index := old(vertexData[index]).(color := c)]
    {
      vertexData[index] := vertexData[index].(color := c);
    }

    /** `SetUV(index, uv)`: only vertex `index` changes, and only its texture coordinate. */
    method SetUV(index: nat, uv: Vec2)
      requires Valid() && index < Size
      modifies vertexData
      ensures vertexData[..] == old(vertexData[..])[index := old(vertexData[index]).(uv := uv)]
    {
      vertexData[index] := vertexData[index].(uv := uv);
    }

    /** `SetPosition(index, p)`: only x and y of vertex `index` change; z and w are kept. */
    method SetPosition(index: nat, p: Vec2)
      requires Valid() && index < Size
      modifies vertexData
      ensures vertexData[..] == old(vertexData[..])[index := old(vertexData[index]).(position := old(vertexData[index]).position.(x := p.x, y := p.y))]
    {
      var pos := vertexData[index].position;
      vertexData[index] := vertexData[index].(position := pos.(x := p.x));
      pos := vertexData[index].position;
      vertexData[index] := vertexData[index].(position := pos.(y := p.y));
    }

    /** `SetInstanceID(id)`: the UInt8 `id` goes into position.w of all four vertices. */
    method SetInstanceID(id: nat)
      requires Valid() && id < 0x100
      modifies vertexData
      ensures vertexData[..] == WithInstance(old(vertexData[..]), id as real)
    {
      vertexData[0] := vertexData[0].(position := vertexData[0].position.(w := id as real));
      vertexData[1] := vertexData[1].(position := vertexData[1].position.(w := id as real));
      vertexData[2] := vertexData[2].(position := vertexData[2].position.(w := id as real));
      vertexData[3] := vertexData[3].(position := vertexData[3].position.(w := id as real));
    }
  }

  /** Flipping twice along the same axis restores the quad. */
  lemma {:induction false} FlipTwice(q: seq<Vertex>, axis: bool)
    requires |q| == Size
    ensures FlippedUV(FlippedUV(q, axis), axis) == q
  {
    var r := FlippedUV(FlippedUV(q, axis), axis);
    forall i | 0 <= i < Size
      ensures r[i] == q[i]
    {
      assert (((i + 2) % Size) + 2) % Size == i;
    }
  }

  /** The second `Scale` wins: scaling forgets any earlier scale and any earlier x/y. */
  lemma {:induction false} ScaleLastWins(q: seq<Vertex>, a: Vec2, b: Vec2)
    requires |q| == Size
    ensures Scaled(Scaled(q, a), b) == Scaled(q, b)
  {
    var l, r := Scaled(Scaled(q, a), b), Scaled(q, b);
    forall i | 0 <= i < Size
      ensures l[i] == r[i]
    {
    }
  }

  /** Two moves add up to one move by the sum of the offsets. */
  lemma {:induction false} MovesCompose(q: seq<Vertex>, a: Vec3, b: Vec3)
    requires |q| == Size
    ensures Moved(Moved(q, a), b) == Moved(q, Vec3(a.x + b.x, a.y + b.y, a.z + b.z))
  {
    var l, r := Moved(Moved(q, a), b), Moved(q, Vec3(a.x + b.x, a.y + b.y, a.z + b.z));
    forall i | 0 <= i < Size
      ensures l[i] == r[i]
    {
    }
  }

  /** The texture coordinates of the `triangle` table are exactly `Texcoord` of the unit rectangle. */
  lemma TableUsesTexcoordLayout()
    ensures Texcoorded(Triangle(), Rect(0.0, 0.0, 1.0, 1.0)) == Triangle()
  {
  }

  /** Flipping uv.x after `Texcoord(rect)` equals `Texcoord` of the rectangle mirrored left to right. */
  lemma {:induction false} FlipXMirrorsRect(q: seq<Vertex>, rect: Rect)
    requires |q| == Size
    ensures FlippedUV(Texcoorded(q, rect), true)
         == Texcoorded(q, Rect(rect.x + rect.width, rect.y, -rect.width, rect.height))
  {
    var t := Texcoorded(q, rect);
    var l := FlippedUV(t, true);
    var r := Texcoorded(q, Rect(rect.x + rect.width, rect.y, -rect.width, rect.height));
    forall i | 0 <= i < Size
      ensures l[i] == r[i]
    {
      assert l[i] == FlippedVertex(t, i, true);
    }
  }

  /** Flipping uv.y after `Texcoord(rect)` equals `Texcoord` of the rectangle mirrored top to bottom. */
  lemma {:induction false} FlipYMirrorsRect(q: seq<Vertex>, rect: Rect)
    requires |q| == Size
    ensures FlippedUV(Texcoorded(q, rect), false)
         == Texcoorded(q, Rect(rect.x, rect.y + rect.height, rect.width, -rect.height))
  {
    var t := Texcoorded(q, rect);
    var l := FlippedUV(t, false);
    var r := Texcoorded(q, Rect(rect.x, rect.y + rect.height, rect.width, -rect.height));
    forall i | 0 <= i < Size
      ensures l[i] == r[i]
    {
      assert l[i] == FlippedVertex(t, i, false);
    }
  }
}
