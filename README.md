# Acerba sprite batching, colours, sprites, boxes and GL device decisions in Dafny

This project models the core of the Acerba engine's 2D rendering path:

- the sprite batching pass of `SpriteManagerImpl`:
  - the scan of the Material component pool;
  - grouping by material;
  - the depth ordering of sprite positions;
  - the growable quad index table;
  - the per-group upload and draw;
- the byte-channel `Color`, with its hex decoding and its UInt8 `+`/`-`;
- the four-vertex `Sprite` quad and its in-place edits;
- the axis-aligned bounding box `AABB`;
- the decision logic of the OpenGL graphics device:
  - index clamping;
  - enabling features;
  - instance replication in `BufferData`;
  - the null-buffer guard;
  - the array/indexed draw choice;
  - culling;
  - the mipmap filter remap.

The form follows the code:

- `SpriteManager`, `Sprite`, `AABB` and `Buffer` are classes whose methods change their fields or arrays in place. Each method is proved against a function of the old state.
- `Color`, the box tests and the device's selections are functions on values.
- Every OpenGL call is an abstract event (`GlCall`, `BatchDraw`).

The component pools, entity handles and scene are not part of this model. They are represented by a `Scene` value:

- Material-pool slots, each a material id and its owner entity;
- Sprite-pool slots, each a vertex quad and its owner;
- entity records, each with a component count, an optional Sprite-pool index and a depth.

Files:

- `base.dfy`: fixed-width integers (UInt8/UInt32/Int32 conversions), `Option`, and vectors and vertices.
- `color.dfy`: module `Colors`.
- `sprite.dfy`: module `Sprites`.
- `aabb.dfy`: module `Boxes`.
- `gl_device.dfy`: module `GLDevice`.
- `batching.dfy`: module `Batching`, the functions that specify the batching pass: candidates, groups, the largest-group position and the index-table pattern.
- `sprite_manager.dfy`: module `SpriteManagement`, the `SpriteManager` class.

## What the batching pass does, as written

The code differs from an idealised batcher, and the model follows the code:

- **Groups span the whole scan.** Groups are formed while the Material pool is scanned: one per distinct material, in order of first appearance. They are not contiguous runs of the depth-sorted list.
- **Every group has size 1.** A group starts at `start = UInt32(-1)`, `end = 0`, and both counters are bumped together, so `end - start` is 1 modulo 2^32 however many sprites share the material.
- **The table request is always 0.** `Draw` passes `_handleIndices` the *position* of the first largest group, which is therefore always 0.
- **Nothing is ever drawn from the scratch list.** `_sortIndices` sizes its result from `m_sprites`, which is empty whenever `_sort` runs: it is constructed empty and cleared at the end of every `Draw`. So `_sort` appends nothing. Each batch's read `m_sprites[groups[i].start]` is therefore out of range; the model records that read as `None`.

## Model

| member | source | states |
|---|---|---|
| Batching.Slots | src/Ace/SpriteManager.cpp:67-70 | a Material-pool slot is collected iff its entity has more than one component and owns a Sprite; collected slots come in pool order |
| Batching.Candidates | src/Ace/SpriteManager.cpp:67-93 | the (material, sprite copy, entity handle) triples the scan collects from the first k Material-pool slots, in pool order; characterised by `CandidatesOfSlots` and `HandlesInRange` |
| Batching.HandlesInRange | src/Ace/SpriteManager.cpp:92 | every collected handle names an entity of the scene, so the depth lookup of `_sortIndices` is defined |
| Batching.CandidatesOfSlots | src/Ace/SpriteManager.cpp:67-93 | the pass collects exactly one (material, sprite copy, handle) pair per qualifying slot, in pool order, so sprites and handles have equal length |
| Batching.AddToGroupsHit | src/Ace/SpriteManager.cpp:74-83 | a pair whose material already has a group bumps both counters of the first such group and changes no other group |
| Batching.AddToGroupsMiss | src/Ace/SpriteManager.cpp:84-88 | a pair of a new material appends a group with `start = 2^32-1`, `end = 0` |
| Batching.AddToGroups | src/Ace/SpriteManager.cpp:74-88 | one pass of the group search for one pair: bump both counters of the first group with that material, or else append a new group; characterised by `AddToGroupsHit` and `AddToGroupsMiss` |
| Batching.GroupsOf | src/Ace/SpriteManager.cpp:71-88 | the groups after the search has seen a sequence of materials, starting from no groups; characterised by `GroupsOfMatch`, `GroupCount` and `EveryGroupHasSizeOne` |
| Batching.MatchAfterHit | src/Ace/SpriteManager.cpp:74-83 | bumping a group keeps the description: one group per material, in first-appearance order, counters tracking the number of pairs |
| Batching.MatchAfterMiss | src/Ace/SpriteManager.cpp:84-88 | appending a new group keeps the same description |
| Batching.GroupsOfMatch | src/Ace/SpriteManager.cpp:71-88 | exactly one group per distinct material, in order of first appearance; a material met c times has `end = c-1` and `start = c-2` modulo 2^32; slots that do not qualify touch no group |
| Batching.GroupCount | src/Ace/SpriteManager.cpp:71-88 | there are as many groups as distinct materials among the pairs |
| Batching.EveryGroupHasSizeOne | src/Ace/SpriteManager.cpp:25-29 | since both counters move together, `end - start` is 1 modulo 2^32 for every group |
| Batching.MaxGroupPosition | src/Ace/SpriteManager.cpp:154-155 | `max_element` under the size order: 0 for no groups, otherwise the first position of a largest group |
| Batching.TableRequestIsZero | src/Ace/SpriteManager.cpp:154-155 | the table size `Draw` requests is always 0 |
| Batching.ThreeEntityExample | src/Ace/SpriteManager.cpp:71-88 | materials 1, 2, 1 give the groups (1, start 0, end 1) and (2, start 2^32-1, end 0) |
| Batching.QuadPattern | src/Ace/SpriteManager.cpp:115-123 | quad j of the table reads 6j, 6j+1, 6j+2, 6j, 6j+2, 6j+3 (as UInt32) |
| Batching.FillOverrunsAllocation | src/Ace/SpriteManager.cpp:113-141 | as written, on the first call (from quad 0) and on growth (from quad `m_size`), the fill of quads up to `newSize` fails `FillFits`, the requirement of `FillQuads`, for a table of `newSize` slots: its last write, `6(newSize-1)+3` at slot `6 newSize - 1`, lies past the allocation; a table of `6 newSize` slots satisfies it |
| SpriteManagement.SpriteAt | src/Ace/SpriteManager.cpp:162 | the read of `m_sprites[start]` yields a quad exactly when `start` is a position of the list |
| SpriteManagement.SpriteManager.constructor | src/Ace/SpriteManager.cpp:172-179 | no sprites, no table, size 0 |
| SpriteManagement.SpriteManager.SortIndices | src/Ace/SpriteManager.cpp:44-54 | the result is a permutation of `[0, m_sprites.size())` with non-increasing depth keys |
| SpriteManagement.SpriteManager.AddToGroupList | src/Ace/SpriteManager.cpp:71-88 | the inner search loop computes one grouping step |
| SpriteManagement.SpriteManager.ScanStateMeaning | src/Ace/SpriteManager.cpp:67-94 | the slot-by-slot scan yields exactly the candidate pairs and the groups of their materials |
| SpriteManagement.SpriteManager.Scan | src/Ace/SpriteManager.cpp:58-94 | the scan loop returns the candidate sprites and handles in pool order and the groups of their materials |
| SpriteManagement.SpriteManager.Sort | src/Ace/SpriteManager.cpp:56-106 | `m_sprites` gains the collected sprites at depth-sorted positions of the old `m_sprites`; from an empty list it stays empty; returns the groups; the table is untouched |
| SpriteManagement.SpriteManager.CopyPrefix | src/Ace/SpriteManager.cpp:128 | `std::copy` of n slots copies them and leaves the rest of the target unchanged |
| SpriteManagement.SpriteManager.FillQuads | src/Ace/SpriteManager.cpp:133-141 | quads from..to-1 get the six-index pattern, and earlier slots are unchanged |
| SpriteManagement.SpriteManager.HandleIndices | src/Ace/SpriteManager.cpp:109-145 | the first call allocates and fills every quad with `m_size = n`; with a table and n <= m_size nothing changes; growth keeps the first `m_size-1` slots, fills quads m_size..n-1 and sets `m_size = n`; `m_size` never decreases |
| SpriteManagement.SpriteManager.Submit | src/Ace/SpriteManager.cpp:158-166 | one batch per group, in group order: `end - start` vertices, `6 * (end - start)` indices, the override material when given |
| SpriteManagement.SpriteManager.Draw | src/Ace/SpriteManager.cpp:149-170 | one batch per distinct material, in first-appearance order; each batch has 1 vertex count, 6 indices and an out-of-range read; the table keeps its size; `m_sprites` is left empty |
| Colors.Default | include/Ace/Color.h:18-21 | the defaulted channel constructor gives all-zero channels |
| Colors.FromHex | include/Ace/Color.h:23-29 | the four bytes of the 32-bit value, red the highest; characterised by `HexRoundTrip`, `PackedRoundTrip` and `ConstantsDecode` |
| Colors.Add | include/Ace/Color.h:31-34 | channel sums narrowed back to UInt8; characterised by `AddCommutes`, `SubUndoesAdd` and `AddUndoesSub` |
| Colors.Sub | include/Ace/Color.h:36-39 | channel differences narrowed back to UInt8; characterised by `SubIsModular`, `SubUndoesAdd` and `AddUndoesSub` |
| Colors.HexRoundTrip | include/Ace/Color.h:23-29 | every 32-bit value is rebuilt from the decoded bytes as r*2^24 + g*2^16 + b*2^8 + a |
| Colors.PackedRoundTrip | include/Ace/Color.h:23-29 | decoding the packed channels gives back the colour |
| Colors.ConstantsDecode | include/Ace/Color.h:12-29 | `Red`, `Green`, `Blue` decode to (255,0,0,0), (0,255,0,0), (0,0,255,0) |
| Colors.AddCommutes | include/Ace/Color.h:31-34 | `+` is channel-wise addition modulo 256, and commutative |
| Colors.SubIsModular | include/Ace/Color.h:36-39 | `-` is channel-wise subtraction modulo 256 |
| Colors.SubUndoesAdd | include/Ace/Color.h:31-39 | `(c + d) - d == c` |
| Colors.AddUndoesSub | include/Ace/Color.h:31-39 | `(c - d) + d == c` |
| Sprites.Triangle | src/Ace/Sprite.cpp:8-13 | the default quad table, four vertices with colour 0xFFFFFFFF read as (1, 1, 1, 1); its uvs are characterised by `TableUsesTexcoordLayout`, its positions are the base of `Scale` |
| Sprites.Sprite.constructor | src/Ace/Sprite.cpp:8-18 | the default sprite is the four `triangle` vertices |
| Sprites.Sprite.FromArray | src/Ace/Sprite.cpp:29-33 | the sprite holds the four given vertices |
| Sprites.Sprite.FromVertices | src/Ace/Sprite.cpp:35-39 | the sprite holds v1..v4 in order |
| Sprites.Sprite.SetSprite | src/Ace/Sprite.cpp:42-50 | a null entry leaves the sprite unchanged; otherwise its texture rectangle is applied |
| Sprites.Scaled | src/Ace/Sprite.cpp:73-80 | scaling keeps z, w, uv and colour of every vertex |
| Sprites.Sprite.Scale | src/Ace/Sprite.cpp:73-80 | each vertex's x/y becomes the `triangle` x/y times the scale |
| Sprites.ScaleLastWins | src/Ace/Sprite.cpp:73-80 | `Scale(a); Scale(b)` equals `Scale(b)` |
| Sprites.Moved | src/Ace/Sprite.cpp:91-99 | a move keeps w, uv and colour |
| Sprites.Sprite.Move | src/Ace/Sprite.cpp:91-99 | every vertex is translated by the offset |
| Sprites.MovesCompose | src/Ace/Sprite.cpp:91-99 | two moves equal one move by the sum of the offsets |
| Sprites.Colorized | src/Ace/Sprite.cpp:101-107 | all four colours become c; positions and uvs are unchanged |
| Sprites.Sprite.Colorize | src/Ace/Sprite.cpp:101-107 | the array becomes the colourised quad |
| Sprites.Texcoorded | src/Ace/Sprite.cpp:109-122 | texture coordinates change and positions and colours do not |
| Sprites.Sprite.Texcoord | src/Ace/Sprite.cpp:109-122 | vertices 1, 2 get uv.x = x and 0, 3 get x + width; vertices 0, 1 get uv.y = y and 2, 3 get y + height |
| Sprites.TableUsesTexcoordLayout | src/Ace/Sprite.cpp:8-13 | the `triangle` uvs are the `Texcoord` layout of the unit rectangle |
| Sprites.FlippedUV | src/Ace/Sprite.cpp:124-142 | a flip changes one uv coordinate and nothing else |
| Sprites.Sprite.FlipUV | src/Ace/Sprite.cpp:124-142 | `true` swaps uv.x between vertices 0 and 2 and between 1 and 3; `false` does the same for uv.y |
| Sprites.FlipTwice | src/Ace/Sprite.cpp:124-142 | flipping twice on the same axis is the identity |
| Sprites.FlipXMirrorsRect | src/Ace/Sprite.cpp:109-142 | flipping uv.x after `Texcoord(r)` equals `Texcoord` of r mirrored left to right |
| Sprites.FlipYMirrorsRect | src/Ace/Sprite.cpp:109-142 | flipping uv.y after `Texcoord(r)` equals `Texcoord` of r mirrored top to bottom |
| Sprites.Sprite.SetColor | src/Ace/Sprite.cpp:144-147 | only vertex i's colour changes (i < 4) |
| Sprites.Sprite.SetUV | src/Ace/Sprite.cpp:149-152 | only vertex i's uv changes (i < 4) |
| Sprites.Sprite.SetPosition | src/Ace/Sprite.cpp:154-158 | only x and y of vertex i change; z and w are kept (i < 4) |
| Sprites.WithInstance | src/Ace/Sprite.cpp:160-166 | position.w becomes the id on all four vertices and nothing else changes |
| Sprites.Sprite.SetInstanceID | src/Ace/Sprite.cpp:160-166 | the array becomes the quad with that instance id |
| Boxes.Split | src/Ace/AABB.cpp:13-36 | the four quadrants meet at the centre; for a well-formed box they are well-formed and inside it |
| Boxes.AABB.constructor | src/Ace/AABB.cpp:38 | the box has the given corners |
| Boxes.Center | src/Ace/AABB.cpp:40-43 | the centre is equidistant from both corners on both axes, and inside a well-formed box |
| Boxes.Colliding | src/Ace/AABB.cpp:45-52 | the box-box test: the closed intervals overlap on both axes; characterised by `CollidingSymmetric` and `CollidingMeansSharedPoint` |
| Boxes.ContainsPoint | src/Ace/AABB.cpp:54-59 | the box-point test: the point lies in the closed box; characterised by `PointIsDegenerateBox` |
| Boxes.Merged | src/Ace/AABB.cpp:61-65 | the box after `Update` with the other box's `min` and then its `max`; characterised by `MergeContains` |
| Boxes.CollidingSymmetric | src/Ace/AABB.cpp:45-52 | box-box collision is symmetric |
| Boxes.CollidingMeansSharedPoint | src/Ace/AABB.cpp:45-59 | two well-formed boxes collide iff some point lies in both |
| Boxes.PointIsDegenerateBox | src/Ace/AABB.cpp:54-59 | the point test holds iff `min <= p <= max` on both axes, i.e. the box collides with the point's degenerate box |
| Boxes.AABB.Merge | src/Ace/AABB.cpp:61-65 | merging updates with `other`'s two corners; a well-formed box ends up containing both of them, even when `other` is the box itself |
| Boxes.MergeContains | src/Ace/AABB.cpp:61-65 | a merged well-formed box is well-formed, contains both corners of `other` and keeps every point it held |
| Boxes.AABB.Reset | src/Ace/AABB.cpp:67-71 | `min` becomes the highest float and `max` the lowest |
| Boxes.Updated | src/Ace/AABB.cpp:73-79 | `Update` never raises `min` nor lowers `max` |
| Boxes.AABB.Update | src/Ace/AABB.cpp:73-79 | the box becomes the updated box, following the `if`/`else if` per axis |
| Boxes.UpdateContains | src/Ace/AABB.cpp:73-79 | a well-formed box stays well-formed and contains the vertex after `Update` |
| Boxes.UpdateAfterReset | src/Ace/AABB.cpp:67-79 | one `Update` of a reset box moves only `min`: the box is not well-formed and does not contain the vertex |
| GLDevice.GetIndex | src/Ace/GLGraphicsDevice.cpp:27-32 | the Int32 difference, clamped below at 0 |
| GLDevice.GetIndexClamps | src/Ace/GLGraphicsDevice.cpp:27-32 | without wrap-around, the result is `clear - offset` when positive and 0 otherwise |
| GLDevice.GLEnable | src/Ace/GLGraphicsDevice.cpp:34-49 | index 0 issues nothing; any other index issues exactly one enable (status true) or disable of that table slot |
| GLDevice.ReplicatedLength | src/Ace/GLGraphicsDevice.cpp:121-134 | the replicated upload has `count * instances` vertices |
| GLDevice.ReplicatedAt | src/Ace/GLGraphicsDevice.cpp:121-134 | element `i + j*count` is `data[i]` with position.w = j |
| GLDevice.Replicated | src/Ace/GLGraphicsDevice.cpp:121-134 | the upload for `instances > 0`: copies 0 .. instances-1 of the source, copy j with position.w = j; characterised by `ReplicatedLength` and `ReplicatedAt` |
| GLDevice.ReplicateInstances | src/Ace/GLGraphicsDevice.cpp:121-135 | the nested loop fills the array with the replicated instances |
| GLDevice.Buffer.constructor | src/Ace/GLGraphicsDevice.cpp:106-112 | `CreateBuffer`: the buffer has the requested type, its GL object and size 0 |
| GLDevice.BufferData | src/Ace/GLGraphicsDevice.cpp:114-145 | size becomes `count * instances` (0 when there are no instances); bind, upload the replicated vertices (instances > 0) or exactly the `count` source vertices, unbind |
| GLDevice.SetBuffer | src/Ace/GLGraphicsDevice.cpp:156-176 | a null buffer issues nothing; otherwise it binds first, and sets the vertex layout iff it is a vertex buffer |
| GLDevice.CullingChoice | src/Ace/GLGraphicsDevice.cpp:406-415 | `Both` turns culling off, `Front` culls front faces, every other mode culls back faces |
| GLDevice.MaterialFlagCalls | src/Ace/GLGraphicsDevice.cpp:371-426 | face culling is disabled iff the mode is `Both`, and back faces are culled iff it is `Back` |
| GLDevice.Draw | src/Ace/GLGraphicsDevice.cpp:345-359 | the program is used first; the last call draws arrays with `elements` when `indicies == 0`, else elements with `indicies`; no earlier call draws |
| GLDevice.SetTextureFlags | src/Ace/GLGraphicsDevice.cpp:428-474 | with mipmaps, (min, mag) in {0,1}^2 moves min to `2 + min + 2*mag`; every other min, and mag always, is used unchanged |
| GLDevice.MipmapRemap | src/Ace/GLGraphicsDevice.cpp:430-465 | with mipmaps on, each plain (min, mag) pair becomes the mipmapped filter that filters like `min` within a level and like `mag` between levels |

## Left out

- OpenGL, SDL and stb calls are foreign. Each one the core makes appears as an abstract event carrying its arguments.
- The component pools, entity handles and `Scene` are not part of this model. A `Scene` value stands in for them, and a well-formedness predicate stands for "every handle is valid".
- `m_buffer` in `SpriteManagerImpl` is represented by the `BatchDraw` events; the buffer object itself is not modelled. The same goes for `Material.cpp`, which only forwards to the device.
- Float arithmetic is modelled as exact `real` arithmetic: positions, uvs, `GetCenter`, `Move` and `Scale`. The `float` limits used by `Reset` are exact constants. Rounding is not modelled.
- The `Color32` struct, the `Color`/`Color32` conversions and the scalar `*` and `/` on colours are float arithmetic and are left out.
- `Sprite(float)`, `Rotate`, `Scale(Texture, float)` and the scaled `SetSprite` overload need trigonometry or float division and are left out.
- `GraphicsDevice::Enable` is left out: the `Features` flag values live in a header that is not part of this model. `GetIndex` and `GLEnable`, which it combines, are modelled.
- The rest of the device is left out: `Draw(Material, Mesh)`, `Clear`, `Present`, `Viewport`, `Scissor`, `BufferSubData`, `CreateShader`, `CreateMaterial` and texture uploads. `CreateBuffer` is modelled by the `Buffer` constructor; the GL object id it obtains is a parameter.
- `AABB::DefaultMin` and `AABB::DefaultMax` only return the two sentinels; they appear as the constants `Boxes.Highest` and `Boxes.Lowest`.
- `SpriteManager::GetInstance`, the destructors and `delete[]` are left out. Memory reclamation has no counterpart in the model.
- SpriteManagement.SpriteManager.SortIndices: `std::sort` is not stable, and the order it picks among equal depths is not specified. The contract states only the permutation and the non-increasing keys; the model happens to sort by insertion.
- SpriteManagement.SpriteManager.HandleIndices: the growth path with `m_size == 0` and an existing table is a precondition. There, `m_size - 1u` wraps to 2^32-1 and `std::copy` would read far out of bounds. `Draw` never reaches this path, because it always requests size 0.
- SpriteManagement.SpriteManager.HandleIndices: slots of a new table that are neither copied nor filled are left unconstrained, as `new UInt32[]` leaves them indeterminate.
- GLDevice.BufferData requires `count < 2^32`, `instances < 2^31` and `count * instances < 2^31`. `count` is a UInt32. The loop counter `j` is an `int` that counts up to `instances`, so `instances >= 2^31` overflows it even when `count == 0`. The allocation size and the element index `i + j * count` are UInt32 products; with the product below 2^31 neither wraps. Outside these bounds the copy would write through wrapped indices.
- GLDevice.BufferData requires the buffer to have a GL object, since the code dereferences `buffer.impl` unchecked.
- GLDevice.GetIndex requires `clear` to lie in the Int32 range and `offset` in the UInt32 range. `clear` is a template parameter that the code passes through `static_cast<Int32>`; the model assumes the cast does not change its value. `offset` is a UInt32 parameter.
- GLDevice.Draw requires the material to have a GL program. The code dereferences `material.impl` unchecked, and `CreateMaterial` leaves `impl` null when linking fails, so a failed material reaching `Draw` is undefined behaviour, which the model does not describe.
- GLDevice.GLEnable requires `index < 5`. `GLEnables[index]` is an unchecked read of a five-entry table; larger indices read past it.
- GLDevice.SetTextureFlags requires the min and mag filter indices below 6 and the wrap index below 2. `GLFilters[...]` and `GLWraps[...]` are unchecked reads of six- and two-entry tables.
- Sprites.Sprite.SetColor, Sprites.Sprite.SetUV and Sprites.Sprite.SetPosition require `index < 4`. The code indexes the four-element array without a check, so larger indices are undefined behaviour.

## Findings

| source | as written | input that shows it | evidently intended | confidence | as-written member | corrected member |
|---|---|---|---|---|---|---|
| src/Ace/SpriteManager.cpp:113-141 | the index table is allocated with `newSize` slots, but the fill loop writes the six slots `6j .. 6j+5` of every quad `j < newSize` | `_handleIndices(1)` on a fresh manager: allocates 1 slot, writes slots 0..5 | allocate six slots per quad (`new UInt32[6 * newSize]`) | not executed | Batching.FillOverrunsAllocation | SpriteManagement.SpriteManager.HandleIndices |
