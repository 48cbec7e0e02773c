# MeshLine: line-to-ribbon vertex expansion

This project models `THREE.BufferMeshLineGeometry.prototype.fromGeometry` from
MeshLine.js, along with `updateFromObject`, which forwards to it. The function
turns a polyline of `n` points into the vertex attributes of a triangle-strip
ribbon. It fills flat float buffers of `4n - 4` vertices:
- `position`: 3 floats per vertex;
- `other`: the neighbouring point, 3 floats per vertex;
- `miter`: 1 float per vertex, +1 or -1.

Each point `i` owns the block that starts at `baseIdx = 4i - 2`. If `i > 0` it
writes its trailing pair (end of segment `i-1 -> i`). If `i < n - 1` it writes
its leading pair (start of segment `i -> i+1`). When the colour list has
exactly one entry per vertex, a `color` buffer is filled with the same slot
mapping. The finished buffers are registered in the geometry's attribute map.

Files:
- `expansion.dfy` (module `Expansion`): the slot arithmetic (expansion
  length, block offset, the two guards, which point owns a slot, the
  neighbour index and the miter sign). It also holds `Ribbon`, a reference
  definition of the output built one segment at a time rather than one point
  at a time, and the lemmas linking the two views.
- `meshline.dfy` (module `MeshLine`):
  - `Float32Attribute`: a class over a zero-initialised `array<real>`, with
    `SetXYZ` and `SetX`.
  - `BufferMeshLineGeometry`: a class whose `attributes` map is updated in
    place. `FromGeometry` runs the two loops of the source over those arrays.
    Its contract says the buffers hold exactly `Ribbon(vertices)` and that
    every slot is written once.
- `examples.dfy` (module `MeshLineExamples`): concrete runs proved from the
  contracts alone. They cover the usage example at the top of MeshLine.js,
  the degenerate polylines, and an expansion repeated with a colour list that
  no longer matches.

The model follows the code as written, including these behaviours:
- There is one polyline per geometry. There is no multi-line buffer, no
  group table, no `visible` flag and no uniform per-line colour.
- When the colour list has the wrong length, the code adds no `color`
  attribute at all. It does not register a default-filled one. A `color`
  attribute from an earlier expansion stays registered
  (`MeshLineExamples.StaleColourAttribute`).
- An empty polyline is not skipped silently. `expCount` is -4, so the buffer
  length `expCount * 3` is negative and allocation fails. `FromGeometry`
  reports this as `ok == false` and leaves the attributes unchanged.

## Model

| member | source | states |
|---|---|---|
| `Expansion.ExpCount` | MeshLine.js:118-123 | The expansion length is negative exactly for an empty polyline. It is 0 for one point. Otherwise it is 4 slots per interior point plus 2 per endpoint. |
| `Expansion.EndsSegment` | MeshLine.js:136-140 | The guard `baseIdx >= 0` holds exactly when `i >= 1`, so reading `srcVerts[i - 1]` is in range. |
| `Expansion.StartsSegment` | MeshLine.js:148-151 | The guard `baseIdx + 3 < expCount` holds exactly when `i + 1 < n`, so reading `srcVerts[i + 1]` is in range. |
| `Expansion.MiterAt` | MeshLine.js:143-157 | Only +1 and -1 are ever written as a miter. |
| `Expansion.GuardsInRange` | MeshLine.js:136-151 | Under the guards, both neighbour reads fall inside the point list and every written slot falls inside `[0, expCount)`. |
| `Expansion.PointSlotsExact` | MeshLine.js:134-159 | Point `i` writes exactly the slots `k` with `(k + 2) / 4 == i`. |
| `Expansion.EachSlotOnce` | MeshLine.js:134-159 | Every slot in `[0, 4n - 4)` is written by one point and by no other point: no gaps, no overwrites. |
| `Expansion.NeighbourAdjacent` | MeshLine.js:140-156 | A slot's position index and its neighbour index both lie in the point list and differ by exactly 1. |
| `Expansion.Ribbon` | MeshLine.js:118-123 | The reference ribbon, one quad per segment, has `4n - 4` vertices for `n >= 1`. It is empty for 0 or 1 points. |
| `Expansion.RibbonAt` | MeshLine.js:134-159 | Slot `k` of the ribbon has position `pts[(k+2)/4]`. Its neighbour is the next point when `k % 4` is 0 or 1 and the previous point when it is 2 or 3. Its miter is -1 when `k % 4` is 0 or 3 and +1 otherwise. |
| `Expansion.Lockstep` | MeshLine.js:169-184 | For a colour list as long as the point list, colour slot `k` and position slot `k` come from the same source index. |
| `Expansion.MiterBalance` | MeshLine.js:143-157 | Of the `4n - 4` vertices, exactly `2n - 2` have miter +1 and `2n - 2` have miter -1. |
| `MeshLine.Float32Attribute.constructor` | MeshLine.js:129-131 | A new attribute buffer is a fresh array of the requested number of floats, all zero. |
| `MeshLine.Float32Attribute.SetXYZ` | MeshLine.js:141-142 | `setXYZ(i, ...)` writes floats `3i`, `3i+1` and `3i+2` and nothing else. The call must stay inside the buffer. |
| `MeshLine.Float32Attribute.SetX` | MeshLine.js:143 | `setX(i, v)` writes float `i` of a one-float attribute and nothing else. |
| `MeshLine.ExpansionNames` | MeshLine.js:164-187 | A `color` attribute is among the registered names exactly when the colour list is as long as the vertex list. |
| `MeshLine.WriteVertex` | MeshLine.js:141-146 | Writing one slot sets its position, other position and miter. Every other slot of the three buffers is left unchanged. |
| `MeshLine.WriteColour` | MeshLine.js:177-178 | Writing one colour slot sets that slot only. |
| `MeshLine.ExpandPoint` | MeshLine.js:135-158 | One loop iteration writes exactly the slots point `i` owns. Each gets its own position, the neighbour of its pair, and the closed-form miter. All other slots are left unchanged. |
| `MeshLine.ExpandVertices` | MeshLine.js:133-159 | After the first loop, the position, other and miter buffers hold the reference ribbon, and each slot has been written exactly once. |
| `MeshLine.ColourPoint` | MeshLine.js:174-183 | One colour-loop iteration writes the colour of point `i` into exactly the slots point `i` owns. All other slots are left unchanged. |
| `MeshLine.ExpandColours` | MeshLine.js:170-184 | After the colour loop, colour slot `k` holds the colour of the point at position slot `k`, and each slot has been written exactly once. |
| `MeshLine.BufferMeshLineGeometry.constructor` | MeshLine.js:104-106 | A new buffer geometry has no attributes. |
| `MeshLine.BufferMeshLineGeometry.AddAttribute` | MeshLine.js:164-166 | Registering an attribute sets that name and leaves every other name unchanged. |
| `MeshLine.BufferMeshLineGeometry.AttachExpansion` | MeshLine.js:129-166 | Allocates fresh position, other and miter buffers of `3(4n-4)`, `3(4n-4)` and `4n-4` floats. It fills them with the ribbon, marks them for update and registers them under their three names. |
| `MeshLine.BufferMeshLineGeometry.AttachColours` | MeshLine.js:169-187 | Allocates a fresh colour buffer, fills it in lockstep with the positions, marks it for update and registers it as `color`. |
| `MeshLine.BufferMeshLineGeometry.FromGeometry` | MeshLine.js:117-190 | It fails, changing nothing, exactly when the polyline is empty. Otherwise the attributes hold the expansion, including a `color` attribute iff the colour list matches the vertex list. The registered names grow by exactly those names, and every other attribute is kept. Every slot is written exactly once. |
| `MeshLine.BufferMeshLineGeometry.UpdateFromObject` | MeshLine.js:111-115 | A MeshLine's geometry is re-expanded as by `FromGeometry`. Any other object leaves the attributes unchanged. |
| `MeshLineExamples.UsageExample` | MeshLine.js:2-6 | For the points (0,0,0), (6,0,0), (6,0,6), the miters are `[-1,+1,+1,-1,-1,+1,+1,-1]` and the positions are points `[0,0,1,1,1,1,2,2]`. |
| `MeshLineExamples.DegenerateLines` | MeshLine.js:123-148 | One point gives three empty buffers. No points makes the expansion fail and leaves the geometry without attributes. |
| `MeshLineExamples.StaleColourAttribute` | MeshLine.js:169-187 | After expanding three coloured points and then four uncoloured points, the old 8-item colour buffer is still registered beside a 12-item position buffer. |

## Left out

- The GLSL vertex and fragment shader strings and the `MeshLineMaterial`
  constructor and accessors (`linewidth`, `linecolor`). They are GPU code and
  pass-through uniform plumbing.
- The `THREE.MeshLine` constructor, prototype wiring and `drawMode`. These are
  scene-graph calls into three.js base classes.
- The unused locals `lineSegCount`, `innerPtCount`, `totalSegCount` and
  `faceCount`. They have no observable effect.
- Float32 rounding. Coordinates and colours are reals copied exactly, while a
  `Float32Array` rounds each stored number to single precision. Nothing in
  the expansion computes with coordinates.
- The three.js internals of `Float32Attribute`, `addAttribute` and
  `needsUpdate`. They are modelled as a zero-initialised array, an entry in
  the attribute map, and a boolean flag.
- The allocation failure for an empty polyline is an exception thrown by the
  typed-array allocation in JavaScript. The model returns `ok == false`
  instead, with the same effect: no attribute is changed.
- Colours are read through their `x`, `y` and `z` fields, as the source reads
  them. Whether the caller's colour objects provide those fields is outside
  the model; three.js's own colour class names them `r`, `g` and `b`.
- `MeshLine.Float32Attribute.SetXYZ`: its requirement that the item lie
  inside the buffer is stronger than JavaScript, which silently ignores an
  out-of-range typed-array write. The model uses the requirement to prove
  that the guards never produce such a write.
