/** The raytracer registry (`raytracers`, `nextID`), the operations on it,
    the single-ray and packet traces, and the HashLink bindings' default
    outputs. The accelerator's intersection entry points are function
    parameters: nothing is assumed about them beyond being functions. */
module Raytracers {
  import opened Basics
  import opened Geometry

  /** `RTC_INVALID_GEOMETRY_ID`, i.e. `(unsigned int)-1`. */
  const INVALID_GEOMETRY_ID: uint32 := 0xFFFF_FFFF

  /** A `RaytracerInstance`: its device and its current scene. */
  datatype Instance = Instance(device: DeviceToken, scene: Scene)

  /** `SimpleRay`: origin and direction as the binding read them. */
  datatype SimpleRay = SimpleRay(posx: Float32, posy: Float32, posz: Float32,
                                 dirx: Float32, diry: Float32, dirz: Float32)

  /** The ray half of `RTCRayHit` (one lane of `RTCRayHitN`). */
  datatype RayRecord = RayRecord(
    orgX: Float32, orgY: Float32, orgZ: Float32,
    dirX: Float32, dirY: Float32, dirZ: Float32,
    tnear: Float32, tfar: Float32, time: Float32,
    mask: uint32, id: uint32, flags: uint32)

  /** The hit half of `RTCRayHit`. */
  datatype HitRecord = HitRecord(geomID: uint32, primID: uint32, instID0: uint32)

  datatype RayHit = RayHit(ray: RayRecord, hit: HitRecord)

  /** `rtcIntersect1`: updates the ray-hit record against a scene. */
  type Intersector = (Scene, RayHit) -> RayHit

  /** One lane of `rtcIntersect4/8/16`: the lane's valid-mask entry and record. */
  type LaneIntersector = (Scene, int, RayHit) -> RayHit

  /** What the binding hands back to the host. */
  datatype HitResult = HitResult(hit: bool, geomID: uint32)
  datatype DistHitResult = DistHitResult(hit: bool, dist: Float32, geomID: uint32)

  /** The record every trace sets up before intersecting: the ray's origin and
      direction, tnear = 0, tfar = +infinity, time 0, mask -1, id 0, flags 0,
      and every hit id set to the invalid sentinel. */
  function InitialRayHit(r: SimpleRay): (h: RayHit)
    ensures h.ray.orgX == r.posx && h.ray.orgY == r.posy && h.ray.orgZ == r.posz
    ensures h.ray.dirX == r.dirx && h.ray.dirY == r.diry && h.ray.dirZ == r.dirz
    ensures h.ray.tnear == FLOAT_ZERO && h.ray.tfar == FLOAT_INFINITY && h.ray.time == FLOAT_ZERO
    ensures h.ray.mask == 0xFFFF_FFFF && h.ray.id == 0 && h.ray.flags == 0
    ensures h.hit.geomID == INVALID_GEOMETRY_ID && h.hit.primID == INVALID_GEOMETRY_ID
    ensures h.hit.instID0 == INVALID_GEOMETRY_ID
  {
    RayHit(
      RayRecord(r.posx, r.posy, r.posz, r.dirx, r.diry, r.dirz,
                FLOAT_ZERO, FLOAT_INFINITY, FLOAT_ZERO, 0xFFFF_FFFF, 0, 0),
      HitRecord(INVALID_GEOMETRY_ID, INVALID_GEOMETRY_ID, INVALID_GEOMETRY_ID))
  }

  /** The result mapping: `hit` is set exactly when the geomID is valid, and
      the geomID is passed through unchanged. */
  function HitOf(geomID: uint32): (r: HitResult)
    ensures r.hit <==> geomID != INVALID_GEOMETRY_ID
    ensures r.geomID == geomID
  {
    HitResult(geomID != INVALID_GEOMETRY_ID, geomID)
  }

  /** geomID of a single-ray trace. */
  function TracedGeomID(scene: Scene, ray: SimpleRay, intersect: Intersector): uint32 {
    intersect(scene, InitialRayHit(ray)).hit.geomID
  }

  /** geomID of lane-i of a packet trace, given that lane's mask entry. */
  function LaneGeomID(scene: Scene, valid: int, ray: SimpleRay, intersect: LaneIntersector): uint32 {
    intersect(scene, valid, InitialRayHit(ray)).hit.geomID
  }

  /** `rtcIntersectN` over a whole packet: lane k sees mask k and record k only. */
  function IntersectPacket(scene: Scene, valid: seq<int>, packet: seq<RayHit>, intersect: LaneIntersector): (r: seq<RayHit>)
    requires |valid| == |packet|
    ensures |r| == |packet|
    ensures forall k :: 0 <= k < |packet| ==> r[k] == intersect(scene, valid[k], packet[k])
  {
    seq(|packet|, k requires 0 <= k < |packet| => intersect(scene, valid[k], packet[k]))
  }

  /** The registry after `buildBVH(id)`: a present instance keeps its device
      and its scene is built; every other entry, and the key set, is as it
      was. An absent id changes nothing. */
  function Built(rs: map<int, Instance>, id: int): (r: map<int, Instance>)
    ensures r.Keys == rs.Keys
    ensures id in rs ==> r[id].device == rs[id].device && r[id].scene == Build(rs[id].scene)
    ensures forall k :: k in rs && k != id ==> r[k] == rs[k]
  {
    if id in rs then rs[id := rs[id].(scene := Build(rs[id].scene))] else rs
  }

  /** Building twice is building once. */
  lemma BuiltTwice(rs: map<int, Instance>, id: int)
    ensures Built(Built(rs, id), id) == Built(rs, id)
  {
    if id in rs {
      BuildIdempotent(rs[id].scene);
    }
  }

  /** `valid4` and `valid8`: every lane active. */
  const ALL_VALID_4: seq<int> := [-1, -1, -1, -1]
  const ALL_VALID_8: seq<int> := [-1, -1, -1, -1, -1, -1, -1, -1]

  class Registry {
    /** `raytracers`: live instances by id. */
    var raytracers: map<int, Instance>
    /** `nextID`: the id the next `createRaytracer` hands out. */
    var nextID: int
    /** Every id ever handed out, live or disposed. */
    ghost var issued: set<int>

    /** Ids are handed out as 0, 1, 2, ... and every live id is one of them. */
    ghost predicate Valid()
      reads this
    {
      && 0 <= nextID <= INT32_MAX
      && (forall k :: k in issued <==> 0 <= k < nextID)
      && (forall k :: k in raytracers ==> k in issued)
    }

    /** The globals' initial values: an empty map and `nextID = 0`. */
    constructor ()
      ensures Valid()
      ensures raytracers == map[] && nextID == 0 && issued == {}
    {
      raytracers := map[];
      nextID := 0;
      issued := {};
    }

    /** `createRaytracer`: a new instance (the accelerator's fresh device and
        scene handles are parameters) under the old `nextID`, which was never
        handed out before; `nextID` grows by one; no other entry changes. The
        source's `nextID++` on a C `int` is undefined at INT32_MAX, hence the
        precondition. */
    method CreateRaytracer(device: DeviceToken, sceneToken: SceneToken)
      requires Valid() && nextID < INT32_MAX
      modifies this
      ensures Valid()
      ensures old(nextID) !in old(issued) && old(nextID) !in old(raytracers)
      ensures nextID == old(nextID) + 1 && issued == old(issued) + {old(nextID)}
      ensures raytracers == old(raytracers)[old(nextID) := Instance(device, NewScene(sceneToken))]
      ensures forall k :: k in old(raytracers) ==> k in raytracers && raytracers[k] == old(raytracers)[k]
    {
      var id := nextID;
      nextID := nextID + 1;
      issued := issued + {id};
      raytracers := raytracers[id := Instance(device, NewScene(sceneToken))];
    }

    /** `disposeRaytracer`: removes `id` when present, nothing otherwise;
        `nextID` is untouched, so the id is never handed out again. */
    method DisposeRaytracer(id: int)
      requires Valid()
      modifies this
      ensures Valid()
      ensures nextID == old(nextID) && issued == old(issued)
      ensures id !in raytracers
      ensures forall k :: k != id ==> (k in raytracers <==> k in old(raytracers))
      ensures forall k :: k != id && k in raytracers ==> raytracers[k] == old(raytracers)[k]
      ensures id !in old(raytracers) ==> raytracers == old(raytracers)
    {
      if id in raytracers {
        raytracers := raytracers - {id};
      }
    }

    /** `buildBVH`: on a present id sets DYNAMIC|ROBUST and commits that
        instance's scene; on an absent id changes nothing. */
    method BuildBVH(id: int)
      requires Valid()
      modifies this
      ensures Valid()
      ensures nextID == old(nextID) && issued == old(issued)
      ensures raytracers == Built(old(raytracers), id)
    {
      if id in raytracers {
        var instance := raytracers[id];
        raytracers := raytracers[id := instance.(scene := Build(instance.scene))];
      }
    }

    /** `refitBVH`: an alias of `buildBVH`. */
    method RefitBVH(id: int)
      requires Valid()
      modifies this
      ensures Valid()
      ensures nextID == old(nextID) && issued == old(issued)
      ensures raytracers == Built(old(raytracers), id)
    {
      BuildBVH(id);
    }

    /** `rebuildBVH`: an alias of `buildBVH`. */
    method RebuildBVH(id: int)
      requires Valid()
      modifies this
      ensures Valid()
      ensures nextID == old(nextID) && issued == old(issued)
      ensures raytracers == Built(old(raytracers), id)
    {
      BuildBVH(id);
    }

    /** Building twice leaves the registry as building once does. */
    method BuildTwice(id: int)
      requires Valid()
      modifies this
      ensures Valid()
      ensures nextID == old(nextID) && issued == old(issued)
      ensures raytracers == Built(old(raytracers), id)
    {
      BuildBVH(id);
      BuildBVH(id);
      BuiltTwice(old(raytracers), id);
    }

    /** `loadGeometry`: the instance keeps its device and gets a fresh scene
        (handle supplied by the caller, standing for `rtcNewScene`) holding
        exactly one geometry per mesh part, in document order, committed. The
        source indexes `raytracers[id]` unchecked, hence the precondition. */
    method LoadGeometry(doc: Document, id: int, freshScene: SceneToken)
      requires Valid() && id in raytracers
      modifies this
      ensures Valid()
      ensures nextID == old(nextID) && issued == old(issued)
      ensures raytracers == old(raytracers)[id := Instance(old(raytracers)[id].device, LoadedScene(freshScene, doc))]
    {
      var device := raytracers[id].device;
      // rtcReleaseScene(scene); raytracer->scene = rtcNewScene(device): the new
      // scene value is stored into the map once it is complete, below.
      var scene := NewScene(freshScene);
      scene := scene.(flags := DYNAMIC_ROBUST);
      var meshes := doc.geometry;
      for i := 0 to |meshes|
        invariant unchanged(this)
        invariant scene == Scene(freshScene, DYNAMIC_ROBUST, Flatten(meshes[..i]), None)
      {
        scene := AttachParts(scene, meshes[i].meshParts);
        assert meshes[..i + 1][..i] == meshes[..i];
      }
      assert meshes[..|meshes|] == meshes;
      scene := Commit(scene);
      raytracers := raytracers[id := Instance(device, scene)];
    }

    /** `traceRay` (embree.cpp variant). With a null ray, hit or geomID
        pointer, or an absent id, nothing is written; otherwise `*hitOut` is
        true exactly when the traced geomID is valid and `*geomIDOut` is it. */
    method TraceRay(id: int, ray: Option<SimpleRay>, hitOut: Cell?<bool>, geomIDOut: Cell?<uint32>, intersect: Intersector)
      requires Valid()
      modifies hitOut, geomIDOut
      ensures if ray.Some? && hitOut != null && geomIDOut != null && id in raytracers
              then geomIDOut.value == TracedGeomID(raytracers[id].scene, ray.value, intersect)
                   && hitOut.value == (geomIDOut.value != INVALID_GEOMETRY_ID)
              else (hitOut != null ==> unchanged(hitOut)) && (geomIDOut != null ==> unchanged(geomIDOut))
    {
      if ray.None? || hitOut == null || geomIDOut == null { return; }
      if id !in raytracers { return; }
      var instance := raytracers[id];
      var rayhit := InitialRayHit(ray.value);
      rayhit := intersect(instance.scene, rayhit);
      hitOut.value := rayhit.hit.geomID != INVALID_GEOMETRY_ID;
      geomIDOut.value := rayhit.hit.geomID;
    }

    /** `traceRay` (nebulatracer.cpp variant), which also writes the hit
        distance (`tfar` after intersection). The guard does not test
        `distOut`, which is then written, hence the precondition. */
    method TraceRayWithDistance(id: int, ray: Option<SimpleRay>, hitOut: Cell?<bool>, geomIDOut: Cell?<uint32>,
                                distOut: Cell?<Float32>, intersect: Intersector)
      requires Valid()
      requires ray.Some? && hitOut != null && geomIDOut != null && id in raytracers ==> distOut != null
      modifies hitOut, geomIDOut, distOut
      ensures if ray.Some? && hitOut != null && geomIDOut != null && id in raytracers
              then var traced := intersect(raytracers[id].scene, InitialRayHit(ray.value));
                   && geomIDOut.value == traced.hit.geomID
                   && hitOut.value == (geomIDOut.value != INVALID_GEOMETRY_ID)
                   && distOut != null && distOut.value == traced.ray.tfar
              else (hitOut != null ==> unchanged(hitOut)) && (geomIDOut != null ==> unchanged(geomIDOut))
                   && (distOut != null ==> unchanged(distOut))
    {
      if ray.None? || hitOut == null || geomIDOut == null { return; }
      if id !in raytracers { return; }
      var instance := raytracers[id];
      var rayhit := InitialRayHit(ray.value);
      rayhit := intersect(instance.scene, rayhit);
      hitOut.value := rayhit.hit.geomID != INVALID_GEOMETRY_ID;
      geomIDOut.value := rayhit.hit.geomID;
      distOut.value := rayhit.ray.tfar;
    }

    /** The body shared by `traceRay4/8/16`: an absent id writes nothing;
        otherwise lane i is set up from ray i, traced with mask entry i, and
        its result written to output pair i. */
    method TracePacket(id: int, rays: seq<SimpleRay>, valid: seq<int>,
                       hits: array<bool>, geomIDs: array<uint32>, intersect: LaneIntersector)
      requires Valid()
      requires |rays| == |valid| == hits.Length == geomIDs.Length
      modifies hits, geomIDs
      ensures id !in raytracers ==> hits[..] == old(hits[..]) && geomIDs[..] == old(geomIDs[..])
      ensures id in raytracers ==> forall i :: 0 <= i < |rays| ==>
                geomIDs[i] == LaneGeomID(raytracers[id].scene, valid[i], rays[i], intersect)
                && hits[i] == (geomIDs[i] != INVALID_GEOMETRY_ID)
    {
      if id !in raytracers { return; }
      var instance := raytracers[id];
      var packet: seq<RayHit> := [];
      for i := 0 to |rays|
        invariant |packet| == i
        invariant forall k :: 0 <= k < i ==> packet[k] == InitialRayHit(rays[k])
      {
        packet := packet + [InitialRayHit(rays[i])];
      }
      packet := IntersectPacket(instance.scene, valid, packet, intersect);
      for i := 0 to |rays|
        invariant forall k :: 0 <= k < i ==> geomIDs[k] == packet[k].hit.geomID
        invariant forall k :: 0 <= k < i ==> hits[k] == (packet[k].hit.geomID != INVALID_GEOMETRY_ID)
      {
        hits[i] := packet[i].hit.geomID != INVALID_GEOMETRY_ID;
        geomIDs[i] := packet[i].hit.geomID;
      }
    }

    /** `traceRay4`: every lane valid. */
    method TraceRay4(id: int, rays: seq<SimpleRay>, hits: array<bool>, geomIDs: array<uint32>, intersect: LaneIntersector)
      requires Valid()
      requires |rays| == 4 && hits.Length == 4 && geomIDs.Length == 4
      modifies hits, geomIDs
      ensures id !in raytracers ==> hits[..] == old(hits[..]) && geomIDs[..] == old(geomIDs[..])
      ensures id in raytracers ==> forall i :: 0 <= i < 4 ==>
                geomIDs[i] == LaneGeomID(raytracers[id].scene, -1, rays[i], intersect)
                && hits[i] == (geomIDs[i] != INVALID_GEOMETRY_ID)
    {
      TracePacket(id, rays, ALL_VALID_4, hits, geomIDs, intersect);
    }

    /** `traceRay8`: every lane valid. */
    method TraceRay8(id: int, rays: seq<SimpleRay>, hits: array<bool>, geomIDs: array<uint32>, intersect: LaneIntersector)
      requires Valid()
      requires |rays| == 8 && hits.Length == 8 && geomIDs.Length == 8
      modifies hits, geomIDs
      ensures id !in raytracers ==> hits[..] == old(hits[..]) && geomIDs[..] == old(geomIDs[..])
      ensures id in raytracers ==> forall i :: 0 <= i < 8 ==>
                geomIDs[i] == LaneGeomID(raytracers[id].scene, -1, rays[i], intersect)
                && hits[i] == (geomIDs[i] != INVALID_GEOMETRY_ID)
    {
      TracePacket(id, rays, ALL_VALID_8, hits, geomIDs, intersect);
    }

    /** `traceRay16`: lane i uses the caller's `valid(i+1)`. */
    method TraceRay16(id: int, rays: seq<SimpleRay>, valid: seq<int>, hits: array<bool>, geomIDs: array<uint32>,
                      intersect: LaneIntersector)
      requires Valid()
      requires |rays| == 16 && |valid| == 16 && hits.Length == 16 && geomIDs.Length == 16
      modifies hits, geomIDs
      ensures id !in raytracers ==> hits[..] == old(hits[..]) && geomIDs[..] == old(geomIDs[..])
      ensures id in raytracers ==> forall i :: 0 <= i < 16 ==>
                geomIDs[i] == LaneGeomID(raytracers[id].scene, valid[i], rays[i], intersect)
                && hits[i] == (geomIDs[i] != INVALID_GEOMETRY_ID)
    {
      TracePacket(id, rays, valid, hits, geomIDs, intersect);
    }

    // -------------------------------------------------------------------------
    // HashLink bindings: each one starts from zeroed outputs, so an absent id
    // comes back as "no hit, geomID 0" rather than as the invalid sentinel.
    // -------------------------------------------------------------------------

    /** `trace_ray_embree`. */
    method TraceRayBinding(id: int, ray: SimpleRay, intersect: Intersector) returns (r: HitResult)
      requires Valid()
      ensures id !in raytracers ==> r == HitResult(false, 0)
      ensures id in raytracers ==> r == HitOf(TracedGeomID(raytracers[id].scene, ray, intersect))
    {
      var hit := new Cell(false);
      var geomID := new Cell(0 as uint32);
      TraceRay(id, Some(ray), hit, geomID, intersect);
      r := HitResult(hit.value, geomID.value);
    }

    /** `trace_ray_embree` of nebulatracer.cpp, with `dist` starting at 0.0f. */
    method TraceRayDistanceBinding(id: int, ray: SimpleRay, intersect: Intersector) returns (r: DistHitResult)
      requires Valid()
      ensures id !in raytracers ==> r == DistHitResult(false, FLOAT_ZERO, 0)
      ensures id in raytracers ==>
                var traced := intersect(raytracers[id].scene, InitialRayHit(ray));
                r.hit == (traced.hit.geomID != INVALID_GEOMETRY_ID) && r.geomID == traced.hit.geomID
                && r.dist == traced.ray.tfar
    {
      var hit := new Cell(false);
      var dist := new Cell(FLOAT_ZERO);
      var geomID := new Cell(0 as uint32);
      TraceRayWithDistance(id, Some(ray), hit, geomID, dist, intersect);
      r := DistHitResult(hit.value, dist.value, geomID.value);
    }

    /** `trace_rays4_embree`: `hit(i+1)`/`geomID(i+1)` are positions i. */
    method TraceRays4Binding(id: int, rays: seq<SimpleRay>, intersect: LaneIntersector)
      returns (hits: seq<bool>, geomIDs: seq<uint32>)
      requires Valid() && |rays| == 4
      ensures |hits| == 4 && |geomIDs| == 4
      ensures id !in raytracers ==> hits == [false, false, false, false] && geomIDs == [0, 0, 0, 0]
      ensures id in raytracers ==> forall i :: 0 <= i < 4 ==>
                HitResult(hits[i], geomIDs[i]) == HitOf(LaneGeomID(raytracers[id].scene, -1, rays[i], intersect))
    {
      var hitsOut := new bool[4](_ => false);
      var geomIDsOut := new uint32[4](_ => 0);
      TraceRay4(id, rays, hitsOut, geomIDsOut, intersect);
      hits, geomIDs := hitsOut[..], geomIDsOut[..];
    }

    /** `trace_rays8_embree`. */
    method TraceRays8Binding(id: int, rays: seq<SimpleRay>, intersect: LaneIntersector)
      returns (hits: seq<bool>, geomIDs: seq<uint32>)
      requires Valid() && |rays| == 8
      ensures |hits| == 8 && |geomIDs| == 8
      ensures id !in raytracers ==> forall i :: 0 <= i < 8 ==> !hits[i] && geomIDs[i] == 0
      ensures id in raytracers ==> forall i :: 0 <= i < 8 ==>
                HitResult(hits[i], geomIDs[i]) == HitOf(LaneGeomID(raytracers[id].scene, -1, rays[i], intersect))
    {
      var hitsOut := new bool[8](_ => false);
      var geomIDsOut := new uint32[8](_ => 0);
      TraceRay8(id, rays, hitsOut, geomIDsOut, intersect);
      hits, geomIDs := hitsOut[..], geomIDsOut[..];
    }

    /** `trace_rays16_embree`: the caller's masks are passed through in order. */
    method TraceRays16Binding(id: int, rays: seq<SimpleRay>, valid: seq<int>, intersect: LaneIntersector)
      returns (hits: seq<bool>, geomIDs: seq<uint32>)
      requires Valid() && |rays| == 16 && |valid| == 16
      ensures |hits| == 16 && |geomIDs| == 16
      ensures id !in raytracers ==> forall i :: 0 <= i < 16 ==> !hits[i] && geomIDs[i] == 0
      ensures id in raytracers ==> forall i :: 0 <= i < 16 ==>
                HitResult(hits[i], geomIDs[i]) == HitOf(LaneGeomID(raytracers[id].scene, valid[i], rays[i], intersect))
    {
      var hitsOut := new bool[16](_ => false);
      var geomIDsOut := new uint32[16](_ => 0);
      TraceRay16(id, rays, valid, hitsOut, geomIDsOut, intersect);
      hits, geomIDs := hitsOut[..], geomIDsOut[..];
    }
  }

  /** The inner loop of `loadGeometry`: for each part of one mesh, copy both
      arrays, count whole triples and attach one triangle geometry. The
      parts' geometries end up after the ones already there, in part order. */
  method AttachParts(scene: Scene, parts: seq<MeshPart>) returns (r: Scene)
    ensures r == scene.(attached := scene.attached + PartsGeometries(parts))
  {
    r := scene;
    for j := 0 to |parts|
      invariant r == scene.(attached := scene.attached + PartsGeometries(parts[..j]))
    {
      var part := parts[j];
      var inds := CopyBuffer(part.indices);
      var verts := CopyBuffer(part.vertices);
      var triangleCount := inds.Length / 3;
      var vertexCount3 := verts.Length / 3;
      var geom := TriangleGeometry(verts[..], vertexCount3, inds[..], triangleCount);
      var attached := Attach(r, geom);
      r := attached.0;
      assert parts[..j + 1] == parts[..j] + [parts[j]];
    }
    assert parts[..|parts|] == parts;
  }

  /** The `new unsigned[n]` / `new float[n]` copy loops of `loadGeometry`. */
  method CopyBuffer<T(0)>(src: seq<T>) returns (dst: array<T>)
    ensures fresh(dst) && dst[..] == src
  {
    dst := new T[|src|];
    for k := 0 to |src|
      invariant forall m :: 0 <= m < k ==> dst[m] == src[m]
    {
      dst[k] := src[k];
    }
    assert dst[..] == src;
  }
}
