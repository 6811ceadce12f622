/**
 * The decision logic of src/Ace/GLGraphicsDevice.cpp. Every OpenGL call the
 * device makes is an abstract `GlCall` event; an operation returns the
 * events it issues, in order.
 */
module GLDevice {
  import opened FixedWidth
  import opened Geometry
  import opened Wrappers

  /** The server-side capabilities the device switches on and off. */
  datatype Capability = Blend | DepthTest | StencilTest | ScissorTest | CullFace

  datatype BufferType = VertexBuffer | IndexBuffer
  datatype BufferTarget = ArrayBuffer | ElementArrayBuffer
  datatype BufferUsage = Static | Dynamic | Streaming
  datatype Face = Back | Front | FrontAndBack
  datatype CullingMode = CullBack | CullFront | CullBoth
  datatype Filter = Nearest | Linear | NearestMipmapNearest | LinearMipmapNearest | NearestMipmapLinear | LinearMipmapLinear
  datatype Wrap = Repeat | ClampToEdge

  datatype GlCall =
    | Enable(cap: Capability)
    | Disable(cap: Capability)
    | BindBuffer(target: BufferTarget, id: nat)
    | BufferUpload(target: BufferTarget, vertices: seq<Vertex>, usage: BufferUsage)
    /** The three `glVertexAttribPointer` calls and their `glEnableVertexAttribArray`. */
    | VertexLayout
    | UseProgram(program: nat)
    | BlendFunc(src: nat, dst: nat)
    | DepthFunc(test: nat)
    | CullFaceMode(face: Face)
    | DrawArrays(count: nat)
    | DrawElements(count: nat)
    | TexMinFilter(filter: Filter)
    | TexMagFilter(filter: Filter)
    | TexWrapS(wrap: Wrap)

  /**
   * `GetIndex(clear, offset)`: the Int32 `clear` minus the UInt32 `offset` is
   * computed in UInt32, read back as an Int32, and clamped below at 0.
   */
  function GetIndex(clear: int, offset: nat): (r: nat)
    requires -0x8000_0000 <= clear < 0x8000_0000 && offset < U32Mod
    ensures r < 0x8000_0000
  {
    var index := ToInt32(Wrap32(clear - offset));
    if index > 0 then index else 0
  }

  /** Without wrap-around, `GetIndex` is the difference when positive and 0 otherwise. */
  lemma {:induction false} GetIndexClamps(clear: int, offset: nat)
    requires 0 <= clear < 0x8000_0000 && offset < 0x8000_0000
    ensures GetIndex(clear, offset) == if clear > offset then clear - offset else 0
  {
    var d := clear - offset;
    if d < 0 {
      assert Wrap32(d) == d + U32Mod;
    }
  }

  /** The `GLEnables` table; slot 0 is the "no feature" placeholder. */
  function EnableTable(index: nat): Capability
    requires 1 <= index < 5
  {
    [Blend, Blend, DepthTest, StencilTest, ScissorTest][index]
  }

  /** `GLEnable(status, index)`: index 0 issues nothing, any other slot one enable or disable. */
  function GLEnable(status: bool, index: nat): (calls: seq<GlCall>)
    requires index < 5
    ensures index == 0 <==> calls == []
    ensures index != 0 ==>
      |calls| == 1 && (calls[0].Enable? || calls[0].Disable?) &&
      calls[0].Enable? == status && calls[0].cap == EnableTable(index)
  {
    if index == 0 then []
    else if status then [Enable(EnableTable(index))]
    else [Disable(EnableTable(index))]
  }

  /** The `GLBufferTargets` table. */
  function Target(kind: BufferType): BufferTarget {
    if kind == VertexBuffer then ArrayBuffer else ElementArrayBuffer
  }

  /** `src` with every position.w set to the instance number `j`. */
  function Tagged(src: seq<Vertex>, j: nat): (r: seq<Vertex>)
    ensures |r| == |src|
  {
    seq(|src|, i requires 0 <= i < |src| => src[i].(position := src[i].position.(w := j as real)))
  }

  /** The upload `BufferData` builds for `instances > 0`: copies 0 .. instances-1 of `src`, each tagged with its number. */
  function Replicated(src: seq<Vertex>, instances: nat): (r: seq<Vertex>)
  {
    if instances == 0 then [] else Replicated(src, instances - 1) + Tagged(src, instances - 1)
  }

  lemma MulStep(j: nat, count: nat, instances: nat)
    requires j < instances
    ensures (j + 1) * count == j * count + count && j * count + count <= count * instances
  {
    assert (j + 1) * count <= instances * count;
  }

  /**
   * The replicated upload has `count * instances` vertices, and the vertex at
   * `i + j * count` is `src[i]` with position.w set to `j`.
   */
  lemma {:induction false} ReplicatedAt(src: seq<Vertex>, instances: nat, i: nat, j: nat)
    requires i < |src| && j < instances
    ensures |Replicated(src, instances)| == |src| * instances
    ensures Replicated(src, instances)[i + j * |src|]
         == src[i].(position := src[i].position.(w := j as real))
  {
    var n := instances - 1;
    var prefix := Replicated(src, n);
    ReplicatedLength(src, n);
    ReplicatedLength(src, instances);
    assert Replicated(src, instances) == prefix + Tagged(src, n);
    if j < n {
      ReplicatedAt(src, n, i, j);
      MulBound(i, j, |src|, n);
      assert (prefix + Tagged(src, n))[i + j * |src|] == prefix[i + j * |src|];
    } else {
      assert i + j * |src| == |prefix| + i;
      assert (prefix + Tagged(src, n))[|prefix| + i] == Tagged(src, n)[i];
    }
  }

  lemma MulBound(i: nat, j: nat, width: nat, n: nat)
    requires i < width && j < n
    ensures i + j * width < width * n
  {
    MulStep(j, width, n);
  }

  lemma {:induction false} ReplicatedLength(src: seq<Vertex>, instances: nat)
    ensures |Replicated(src, instances)| == |src| * instances
  {
    if instances > 0 {
      ReplicatedLength(src, instances - 1);
      MulStep(instances - 1, |src|, instances);
    }
  }

  /**
   * The nested loop of `BufferData` for `instances > 0`: fills a fresh array
   * of `count * instances` vertices, copy `j` of `data[0 .. count]` at offset
   * `j * count` with position.w set to `j`.
   */
  method ReplicateInstances(data: seq<Vertex>, count: nat, instances: nat) returns (upload: seq<Vertex>)
    requires count <= |data|
    ensures upload == Replicated(data[..count], instances)
  {
    var src := data[..count];
    var instance := new Vertex[count * instances];
    var j := 0;
    while j < instances
      invariant 0 <= j <= instances
      invariant j * count <= count * instances
      invariant instance[..j * count] == Replicated(src, j)
    {
      MulStep(j, count, instances);
      var i := 0;
      while i < count
        invariant 0 <= i <= count
        invariant instance[..j * count] == Replicated(src, j)
        invariant forall k :: 0 <= k < i ==> instance[j * count + k] == Tagged(src, j)[k]
      {
        instance[i + j * count] := data[i];
        instance[i + j * count] := instance[i + j * count].(position := instance[i + j * count].position.(w := j as real));
        i := i + 1;
      }
      assert instance[..(j + 1) * count] == instance[..j * count] + instance[j * count..(j + 1) * count];
      assert instance[j * count..(j + 1) * count] == Tagged(src, j);
      j := j + 1;
    }
    assert instance[..] == instance[..instances * count];
    upload := instance[..];
  }

  /** A device buffer: `impl` is its GL object id, or null. */
  class Buffer {
    var impl: Option<nat>
    var kind: BufferType
    var size: nat

    constructor (impl: Option<nat>, kind: BufferType)
      ensures this.impl == impl && this.kind == kind && size == 0
    {
      this.impl := impl;
      this.kind := kind;
      size := 0;
    }
  }

  /**
   * `BufferData`: records `count * instances` as the buffer's size, binds the
   * buffer, uploads either the replicated instances or the `count` source
   * vertices, and unbinds.
   */
  method BufferData(buffer: Buffer, count: nat, data: seq<Vertex>, usage: BufferUsage, instances: nat)
    returns (calls: seq<GlCall>)
    requires buffer.impl.Some?
    requires count <= |data|
    requires count < U32Mod && instances < 0x8000_0000 && count * instances < 0x8000_0000
    modifies buffer
    ensures buffer.size == count * instances
    ensures buffer.impl == old(buffer.impl) && buffer.kind == old(buffer.kind)
    ensures var target := Target(buffer.kind);
      calls == [BindBuffer(target, buffer.impl.value),
                BufferUpload(target, if instances > 0 then Replicated(data[..count], instances) else data[..count], usage),
                BindBuffer(target, 0)]
  {
    var target := Target(buffer.kind);
    buffer.size := Wrap32(count * instances);
    calls := [BindBuffer(target, buffer.impl.value)];
    if instances > 0 {
      var upload := ReplicateInstances(data, count, instances);
      calls := calls + [BufferUpload(target, upload, usage)];
    } else {
      calls := calls + [BufferUpload(target, data[..count], usage)];
    }
    calls := calls + [BindBuffer(target, 0)];
  }

  /** `SetBuffer(buffer, kind)`: a buffer without a GL object binds nothing. */
  function SetBuffer(buffer: Buffer, kind: BufferType): (calls: seq<GlCall>)
    reads buffer
    ensures buffer.impl.None? <==> calls == []
    ensures buffer.impl.Some? ==> calls[0] == BindBuffer(Target(kind), buffer.impl.value)
    ensures buffer.impl.Some? ==> (VertexLayout in calls <==> kind == VertexBuffer)
  {
    if buffer.impl.None? then []
    else [BindBuffer(Target(kind), buffer.impl.value)] + if kind == VertexBuffer then [VertexLayout] else []
  }

  datatype MaterialFlags = MaterialFlags(blendSrc: nat, blendDst: nat, depth: nat, culling: CullingMode)
  /** A material: `impl` is its GL program id, or null when creation failed. */
  datatype Material = Material(impl: Option<nat>, flags: MaterialFlags)

  /** The culling face `SetMaterialFlags` picks; `None` is its 0, "culling off". */
  function CullingChoice(mode: CullingMode): (culling: Option<Face>)
    ensures culling.None? <==> mode == CullBoth
    ensures culling == Some(Front) <==> mode == CullFront
    ensures culling.Some? ==> culling.value != FrontAndBack
  {
    if mode == CullBoth then None
    else if mode == CullFront then Some(Front)
    else Some(Back)
  }

  /** `SetMaterialFlags`: blend and depth functions, then face culling on with the chosen face, or off. */
  function MaterialFlagCalls(flags: MaterialFlags): (calls: seq<GlCall>)
    ensures |calls| >= 3
    ensures Disable(CullFace) in calls <==> flags.culling == CullBoth
    ensures CullFaceMode(Back) in calls <==> flags.culling == CullBack
  {
    var culling := CullingChoice(flags.culling);
    [BlendFunc(flags.blendSrc, flags.blendDst), DepthFunc(flags.depth)] +
    if culling.Some? then [Enable(CullFace), CullFaceMode(culling.value)] else [Disable(CullFace)]
  }

  /** `Draw(material, elements, indicies)`: the array path when there are no indices, the indexed path otherwise. */
  function Draw(material: Material, elements: nat, indices: nat): (calls: seq<GlCall>)
    requires material.impl.Some?
    ensures |calls| >= 2
    ensures calls[0] == UseProgram(material.impl.value)
    ensures calls[|calls| - 1] == if indices == 0 then DrawArrays(elements) else DrawElements(indices)
    ensures forall k :: 0 <= k < |calls| - 1 ==> !calls[k].DrawArrays? && !calls[k].DrawElements?
  {
    [UseProgram(material.impl.value)] + MaterialFlagCalls(material.flags) +
    if indices == 0 then [DrawArrays(elements)] else [DrawElements(indices)]
  }

  /** The `GLFilters` table. */
  function FilterAt(index: nat): Filter
    requires index < 6
  {
    [Nearest, Linear, NearestMipmapNearest, LinearMipmapNearest, NearestMipmapLinear, LinearMipmapLinear][index]
  }

  /** The `GLWraps` table. */
  function WrapAt(index: nat): Wrap
    requires index < 2
  {
    if index == 0 then Repeat else ClampToEdge
  }

  datatype TextureFlags = TextureFlags(magFiltering: nat, minFiltering: nat, mipmaps: bool, wrapMode: nat)

  /**
   * `SetTextureFlags`: with mipmaps on, the four plain (min, mag) pairs move
   * `min` to the matching mipmap filter, `2 + min + 2 * mag`; every other
   * `min`, and `mag` always, is looked up unchanged.
   */
  method SetTextureFlags(flags: TextureFlags) returns (calls: seq<GlCall>)
    requires flags.minFiltering < 6 && flags.magFiltering < 6 && flags.wrapMode < 2
    ensures var mag, min := flags.magFiltering, flags.minFiltering;
      var chosen := if flags.mipmaps && min < 2 && mag < 2 then 2 + min + 2 * mag else min;
      calls == [TexMinFilter(FilterAt(chosen)), TexMagFilter(FilterAt(mag)), TexWrapS(WrapAt(flags.wrapMode))]
  {
    var mag := flags.magFiltering;
    var min := flags.minFiltering;
    if flags.mipmaps {
      if min == 0 && mag == 0 {
        min := 2;
      } else if min == 1 && mag == 0 {
        min := 3;
      } else if min == 0 && mag == 1 {
        min := 4;
      } else if min == 1 && mag == 1 {
        min := 5;
      }
    }
    calls := [TexMinFilter(FilterAt(min)), TexMagFilter(FilterAt(mag)), TexWrapS(WrapAt(flags.wrapMode))];
  }

  /** The filter a mipmapped filter applies within one mipmap level. */
  function WithinLevel(f: Filter): Filter
    requires f != Nearest && f != Linear
  {
    if f == NearestMipmapNearest || f == NearestMipmapLinear then Nearest else Linear
  }

  /** The filter a mipmapped filter applies between mipmap levels. */
  function BetweenLevels(f: Filter): Filter
    requires f != Nearest && f != Linear
  {
    if f == NearestMipmapNearest || f == LinearMipmapNearest then Nearest else Linear
  }

  /**
   * With mipmaps on, a plain (min, mag) pair becomes the mipmapped filter
   * that keeps `min` within a level and uses `mag` between levels.
   */
  lemma MipmapRemap(min: nat, mag: nat)
    requires min < 2 && mag < 2
    ensures var f := FilterAt(2 + min + 2 * mag);
      f != Nearest && f != Linear &&
      WithinLevel(f) == FilterAt(min) && BetweenLevels(f) == FilterAt(mag)
  {
  }
}
