# nebulatracer: registry, geometry loading, trace write-back and compute-program table

This project models the bookkeeping of the `nebulatracer` native library. That library is a HashLink
extension. It wraps the Embree ray-intersection library and, in one variant, OpenGL compute
shaders. The Embree and OpenGL calls themselves are foreign. The model keeps what the C++ code
around them decides:

- **Raytracer registry** (`Raytracers.Registry`). `raytracers` is a map from `int` ids to
  instances, and `nextID` is a counter. Create, dispose, build, refit and rebuild change them the
  way the source does. A ghost set `issued` records every id ever handed out, so the class
  invariant and the create contract say that ids are never reused. nebulatracer.cpp:53-86 and
  nebulatracer.cpp:121-190 repeat embree.cpp's registry and `loadGeometry` line for line, so the
  same members model both files. Only nebulatracer.cpp's `traceRay`, which also writes a distance,
  has a member of its own.
- **Geometry flattening** (`Geometry`, `Registry.LoadGeometry`). The parsed document is a sequence
  of meshes, each a sequence of parts. `loadGeometry` replaces the scene and walks meshes and then
  parts with nested loops. For each part it copies both arrays with a loop and attaches one
  triangle geometry, then commits the scene. `Flatten` is the specification. Lemmas show that it
  is a bijection between parts and geometries, ordered by mesh and then by part. The item counts
  are `|indices| / 3` and `|vertices| / 3`, truncating.
- **Trace results** (`Registry.TraceRay*`). Each output pointer is a `Cell`, and each packet
  output array is a Dafny `array`. The intersector is a function parameter. The contracts say that
  `hit` is set exactly when the geomID is not `RTC_INVALID_GEOMETRY_ID`, that lane i goes to
  output pair i, which mask each width passes, and that nothing is written on an early return.
  The binding methods show what the host sees for an absent id: hit false, geomID 0, dist 0.0f.
- **Compute-program table** (`ProgramTable`, `Compute.ComputeContext`). `programs` is a map from
  `int` to `GLuint`. A create stores under `programs.size() + 1`, which can land on a live key.
  Lookups in `set_compute_shader` and `run_compute_shader` go through `operator[]`, which
  default-inserts. A remove always ends with the key absent. Lemmas over sequences of table
  operations show that a live program can be lost, and that a counter-keyed table never loses one.
  `run_compute_shader` reads `programs[id]` but never binds it. The context therefore tracks the
  bound program, and the dispatch runs that program rather than the entry for `id`.

Foreign results are method parameters: handles from `rtcNewDevice`, `rtcNewScene` and
`CreateProgram`; compile and link status; the mapped output buffer; HashLink's freshly allocated
byte buffer. Floats are IEEE 754 bit patterns and are never computed with.

## Model

| member | source | states |
|---|---|---|
| `Geometry.Attach` | nebulatracer/embree.cpp:336 | Attaching appends the geometry. The id it returns is the geometry's position, and nothing else in the scene changes. |
| `Geometry.Commit` | nebulatracer/embree.cpp:341 | After a commit, the acceleration structure reflects exactly the attached geometry. Handle, flags and geometry are unchanged. |
| `Geometry.Build` | nebulatracer/embree.cpp:62-63 | A build sets exactly DYNAMIC and ROBUST and commits exactly the attached geometry. Handle and geometry are unchanged. |
| `Geometry.BuildIdempotent` | nebulatracer/embree.cpp:59-65 | Building twice gives the same scene as building once. A build commits exactly the attached geometry. |
| `Geometry.PartGeometry` | nebulatracer/embree.cpp:296-333 | Both buffers equal the part's arrays element for element. Triangle and vertex counts are the number of whole triples, so a trailing partial triple is dropped, not rejected. |
| `Geometry.PartsGeometries` | nebulatracer/embree.cpp:291-338 | One geometry per part of a mesh, in part order. |
| `Geometry.Flatten` | nebulatracer/embree.cpp:287-339 | The number of geometries equals the total number of parts over all meshes. |
| `Geometry.OffsetStep` | nebulatracer/embree.cpp:287-291 | The parts of mesh i sit right after those of meshes 0..i-1. |
| `Geometry.FlattenAt` | nebulatracer/embree.cpp:287-338 | Part j of mesh i becomes geometry Offset(i)+j, built from that part. |
| `Geometry.FlattenCovers` | nebulatracer/embree.cpp:287-338 | Every geometry comes from one mesh part. With FlattenAt and FlattenOrdered this makes the flattening a bijection between parts and geometries. |
| `Geometry.FlattenOrdered` | nebulatracer/embree.cpp:287-291 | Geometries are ordered by mesh index and then by part index. |
| `Raytracers.InitialRayHit` | nebulatracer/embree.cpp:84-100 | Origin and direction come from the ray. tnear is 0, tfar is +infinity, time is 0, mask is -1 (all bits), id is 0 and flags are 0. geomID, primID and instID[0] are all `RTC_INVALID_GEOMETRY_ID`. The packet lanes are set up in the same way at embree.cpp:124-138. |
| `Raytracers.HitOf` | nebulatracer/embree.cpp:104-105 | `hit` is true exactly when the geomID differs from `RTC_INVALID_GEOMETRY_ID`. The geomID is passed through. |
| `Raytracers.IntersectPacket` | nebulatracer/embree.cpp:144 | The result for lane k depends only on mask entry k and ray record k. |
| `Raytracers.AttachParts` | nebulatracer/embree.cpp:291-338 | The inner loop of `loadGeometry`. The scene gains exactly the part geometries of one mesh, appended in part order after what was attached before. Handle, flags and commit state are unchanged. |
| `Raytracers.CopyBuffer` | nebulatracer/embree.cpp:299-306 | The newly allocated buffer holds the input array element for element. |
| `Raytracers.Built` | nebulatracer/embree.cpp:59-65 | `buildBVH`'s effect on the registry. The key set is unchanged, a present instance keeps its device and its scene is built, and every other entry is untouched. |
| `Raytracers.BuiltTwice` | nebulatracer/embree.cpp:59-65 | Applying `buildBVH`'s effect twice is the same as applying it once. |
| `Raytracers.Registry.constructor` | nebulatracer/embree.cpp:41-43 | The registry starts empty with `nextID` 0 and the invariant holds. |
| `Raytracers.Registry.CreateRaytracer` | nebulatracer/embree.cpp:45-49 | Inserts a new instance under the old `nextID`, which was never issued. `nextID` grows by exactly 1 and no existing entry changes. |
| `Raytracers.Registry.DisposeRaytracer` | nebulatracer/embree.cpp:51-57 | The id ends absent. Every other entry, `nextID` and the issued ids are unchanged. An absent id changes nothing. |
| `Raytracers.Registry.BuildBVH` | nebulatracer/embree.cpp:59-65 | The registry becomes `Built` of the old registry: a present id's scene gets DYNAMIC and ROBUST and is committed, and an absent id changes nothing. |
| `Raytracers.Registry.RefitBVH` | nebulatracer/embree.cpp:67-70 | Exactly the effect of BuildBVH. |
| `Raytracers.Registry.RebuildBVH` | nebulatracer/embree.cpp:72-74 | Exactly the effect of BuildBVH. |
| `Raytracers.Registry.BuildTwice` | nebulatracer/embree.cpp:59-65 | Two builds in a row leave the registry as one build does. |
| `Raytracers.Registry.LoadGeometry` | nebulatracer/embree.cpp:274-343 | The instance keeps its device. It gets a fresh scene with DYNAMIC and ROBUST, holding exactly `Flatten` of the document, committed. Nothing of the old scene survives and nothing else changes. |
| `Raytracers.Registry.TraceRay` | nebulatracer/embree.cpp:76-106 | A null ray, hit or geomID pointer, or an absent id, writes nothing. Otherwise geomID is the traced id and hit is true exactly when that id is valid. |
| `Raytracers.Registry.TraceRayWithDistance` | nebulatracer/nebulatracer.cpp:88-119 | As TraceRay, and in addition the distance output receives `tfar` after intersection. |
| `Raytracers.Registry.TracePacket` | nebulatracer/embree.cpp:114-155 | An absent id leaves both output arrays untouched. Otherwise output pair i holds lane i's result, traced with mask entry i, for every i. |
| `Raytracers.Registry.TraceRay4` | nebulatracer/embree.cpp:108-156 | Width 4. Every lane uses mask -1 and lane i is written to output pair i. An absent id writes nothing. |
| `Raytracers.Registry.TraceRay8` | nebulatracer/embree.cpp:158-202 | Width 8. Every lane uses mask -1 and lane i is written to output pair i. An absent id writes nothing. |
| `Raytracers.Registry.TraceRay16` | nebulatracer/embree.cpp:204-271 | Width 16. Lane i uses the caller's `valid(i+1)` and is written to output pair i. An absent id writes nothing. |
| `Raytracers.Registry.TraceRayBinding` | nebulatracer/embree.cpp:378-396 | An absent id yields hit false and geomID 0. Otherwise the result is the mapped traced result. |
| `Raytracers.Registry.TraceRayDistanceBinding` | nebulatracer/nebulatracer.cpp:386-406 | An absent id yields hit false, dist 0.0f and geomID 0. Otherwise hit and geomID come from the trace, and dist is `tfar` after intersection as it is passed to `hl_dyn_seti`, before any conversion that call makes. |
| `Raytracers.Registry.TraceRays4Binding` | nebulatracer/embree.cpp:399-429 | Four results in input order. An absent id yields all false and 0. |
| `Raytracers.Registry.TraceRays8Binding` | nebulatracer/embree.cpp:432-464 | Eight results in input order. An absent id yields all false and 0. |
| `Raytracers.Registry.TraceRays16Binding` | nebulatracer/embree.cpp:467-514 | Sixteen results in input order, with the caller's masks. An absent id yields all false and 0. |
| `ProgramTable.AfterCreate` | nebulatracer/nebulatracer.cpp:337 | The program is stored under the old size plus 1. Other entries are unchanged. The table grows only when that key was not live; otherwise the old program is overwritten. |
| `ProgramTable.Subscript` | nebulatracer/nebulatracer.cpp:343 | `operator[]` returns the entry, or 0 with `id ↦ 0` inserted when the id is absent, so the table grows by one. |
| `ProgramTable.AfterRemove` | nebulatracer/nebulatracer.cpp:347-352 | The id ends absent, present or not before, and every other entry is unchanged. |
| `ProgramTable.LookupShiftsCreateKey` | nebulatracer/nebulatracer.cpp:337-343 | Looking up an absent id moves the next create key up by one. |
| `ProgramTable.Step` | nebulatracer/nebulatracer.cpp:334-352 | One table operation as written touches only its own key: the create key for a create, the id otherwise. A create stores its program there. A remove leaves the key absent. A set or run makes it present, keeps a live entry, and writes 0 for an absent one. |
| `ProgramTable.Steps` | nebulatracer/nebulatracer.cpp:294-345 | Operations in order. A run of set and run calls alone never loses or changes a stored program. |
| `ProgramTable.CreateAfterRemoveOverwrites` | nebulatracer/nebulatracer.cpp:334-352 | create p1, create p2, remove 1, create p3 leaves exactly {2 ↦ p3}. |
| `ProgramTable.LookupPushesCreateOntoLiveKey` | nebulatracer/nebulatracer.cpp:337-343 | A collision without any remove. create p1, set 3, create p2 leaves {1 ↦ p1, 3 ↦ p2}: the lookup grew the table, so the create key is 3. A further create p3 leaves {1 ↦ p1, 3 ↦ p3}, and p2 is lost. |
| `ProgramTable.AsWrittenLosesLivePrograms` | nebulatracer/nebulatracer.cpp:334-352 | Key 2 is live and is never removed, yet a later create replaces its program. |
| `ProgramTable.StepFixed` | nebulatracer/nebulatracer.cpp:334-352 | Corrected table, which differs from Step only in the create key: a create stores under the counter and the counter grows by one. Every live key below the counter that the operation does not remove keeps its program. |
| `ProgramTable.FixedKeepsLivePrograms` | nebulatracer/nebulatracer.cpp:334-352 | Corrected table: a live key below the counter, which covers every key a create handed out, keeps its program through any operations that do not remove it. |
| `Compute.LoadComputeShader` | nebulatracer/nebulatracer.cpp:222-248 | The created program is returned even when compile or link fails. Each failure is logged exactly when it happens, compile before link. |
| `Compute.ReadBack` | nebulatracer/nebulatracer.cpp:316-325 | The output has the allocated buffer's length whether or not mapping succeeded. When mapping succeeded it holds the mapped buffer's bytes, all `sizeInBytesOut` of them. When it failed it holds the allocation as it was. |
| `Compute.ComputeContext.constructor` | nebulatracer/nebulatracer.cpp:250 | The program table starts empty. |
| `Compute.ComputeContext.CreateComputeShader` | nebulatracer/nebulatracer.cpp:334-339 | The table becomes AfterCreate of the old table with the loaded program. The bound program is unchanged. |
| `Compute.ComputeContext.SetComputeShader` | nebulatracer/nebulatracer.cpp:341-345 | Binds `programs[id]`, whatever its link status. An absent id is default-inserted and 0 is bound. |
| `Compute.ComputeContext.RemoveComputeShader` | nebulatracer/nebulatracer.cpp:347-352 | Deletes the looked-up handle, 0 if absent, and the table becomes AfterRemove. |
| `Compute.ComputeContext.RunComputeShader` | nebulatracer/nebulatracer.cpp:294-332 | The table gets `id` default-inserted and the dispatch runs the program already bound. The output has exactly `sizeInBytesOut` bytes either way, and a mapping failure is logged. |
| `Compute.ComputeContext.RunComputeShaderFromSrc` | nebulatracer/nebulatracer.cpp:252-292 | Binds and runs the freshly loaded program when it linked. When it did not, `UseProgram` refuses it and the program bound before stays bound and runs. The table is unchanged and the output has exactly `sizeInBytesOut` bytes. |

## Left out

- Embree itself: `rtcIntersect1/4/8/16`, geometry and buffer creation, and scene release. Intersection is a function parameter that nothing constrains. The packet form sees lane i's mask entry and record only. Commit is the `built` field of the scene value. `rtcCommitGeometry` and `rtcReleaseGeometry` are folded into attaching.
- Floating point: coordinates, `tnear`, `tfar` and distances are opaque `Float32` bit patterns. The `(float)` and `(unsigned)` casts of JSON numbers belong to parsing, so the document already holds the cast values.
- JSON parsing with parson: the model starts from a parsed `Document`. A missing or non-array member is already an empty sequence there. A non-object mesh element is `Mesh([])`. A non-object part element is `MeshPart([], [])`: `json_array_get_count(parts)` still counts it, so it gets its own empty geometry and a geomID.
- HashLink marshalling: reading ray fields with `hl_dyn_getd`, and the dynamic result objects. The fields `hit{n}` and `geomID{n}` are positions `n-1` of the returned sequences.
- OpenGL and GLFW: `initOpenGL`, context switching, buffer objects, `DispatchCompute`, `MemoryBarrier` and buffer deletion. Only the table, the bound program, the log and the output buffer are kept.
- Locking: every registry operation is modelled as atomic, and concurrent queries are not modelled. `loadGeometry` takes no lock in the source.
- Memory ownership: the leaked `new[]` buffers, instance deletion and program deletion beyond the handle returned.
- Pointer identity: instances and scenes are values in the map. `LoadGeometry` stores the new scene once it is complete, where the source stores the handle first and fills it afterwards. No one else can observe the difference in a sequential model.
- Raytracers.Registry.LoadGeometry: requires the id to be present, because the source's unchecked `raytracers[id]` dereferences null for an absent id.
- Raytracers.Registry.CreateRaytracer: requires `nextID < INT32_MAX`, because the source's `nextID++` on an `int` is undefined past that.
- Raytracers.Registry.TraceRayWithDistance: requires a non-null `distOut` whenever the trace proceeds, because the source writes it without a check.
- Raytracers.Registry.TraceRay4: the rays and output arrays are non-null sequences and arrays, because the source dereferences every pointer unchecked. The same holds for TraceRay8, TraceRay16 and TracePacket. The 2×N output pointers are assumed pairwise distinct, since they are distinct slots of two arrays in the model. Every caller in these files passes distinct `&hits[i]` and `&geomIDs[i]`. With aliased pointers the source lets the later lane's write win, and this is not modelled.
- Compute.ComputeContext.SetComputeShader: binds `programs[id]` even when that program failed to link. GL's `UseProgram` refuses an unlinked program and keeps the earlier binding, but the table does not record link status, so this refusal is not modelled here.
- Compute.ComputeContext.RunComputeShader: the contents of an unmapped output buffer are whatever the allocation held. The same holds for RunComputeShaderFromSrc.
- Compute.ComputeContext.RunComputeShader, Compute.ComputeContext.RunComputeShaderFromSrc: the input buffer and `sizeInBytesIn` go to the dispatcher unchecked. So a `sizeInBytesIn` larger than the host's buffer (an over-read by `BufferData`) or negative (a GL error) is GL's business and is not modelled. A negative `sizeInBytesOut` is not modelled either: the allocation handed in must have exactly `sizeInBytesOut` bytes, so `hl_alloc_bytes` of a negative size is left out. The dispatcher's mapped buffer is assumed to have `sizeInBytesOut` bytes, the size `BufferData` gave it.
- Raytracers.Registry.TraceRayDistanceBinding: `dist` is the float handed to `hl_dyn_seti(result, ..., &hlt_f32, dist)`, before that call's conversion of its value parameter to `int`. That conversion truncates the distance, and for a miss (tfar +infinity) it is undefined. The HashLink side is not part of this model.
- Splitting many rays into packets of 16, 8, 4 and 1 is done by the host code, which is not part of this model.

## Findings

| source | as written | input that shows it | evidently intended | confidence | as-written member | corrected member |
|---|---|---|---|---|---|---|
| nebulatracer/nebulatracer.cpp:337 | the new program's key is `programs.size() + 1` | create p1, create p2, remove 1, create p3: key 2 now maps to p3, and p2 is lost although key 2 was never removed. A lookup triggers it too: create p1, set 3, create p2, create p3 ends as {1 ↦ p1, 3 ↦ p3} (`ProgramTable.LookupPushesCreateOntoLiveKey`) | a key not currently in use, e.g. from a counter as `nextID` is for raytracers | high (not executed) | `ProgramTable.AsWrittenLosesLivePrograms` | `ProgramTable.FixedKeepsLivePrograms` |

`Compute.ComputeContext` keeps the as-written key, because it models the source as it is. The
corrected table in `ProgramTable` differs from `ProgramTable.Step` only in taking the create key
from a counter. Lookups there still default-insert, as in the source.
