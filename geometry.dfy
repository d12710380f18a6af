/** The parsed mesh document, the accelerator's scene as a value, and the
    flattening of meshes and mesh parts into one ordered list of triangle
    geometries that `loadGeometry` performs. */
module Geometry {
  import opened Basics

  // ---------------------------------------------------------------------------
  // The parsed document: {"geometry": [{"meshParts": [{"indices": [...],
  // "vertices": [...]}, ...]}, ...]}. An absent or non-array member is already
  // an empty sequence here; indices are the values after the `(unsigned)` cast
  // and vertices the values after the `(float)` cast.
  // ---------------------------------------------------------------------------

  datatype MeshPart = MeshPart(indices: seq<uint32>, vertices: seq<Float32>)
  datatype Mesh = Mesh(meshParts: seq<MeshPart>)
  datatype Document = Document(geometry: seq<Mesh>)

  /** One triangle geometry as handed to the accelerator: the shared vertex
      buffer (FLOAT3 items, stride 12 bytes) with its item count, and the shared
      index buffer (UINT3 items, stride 12 bytes) with its item count. */
  datatype TriangleGeometry = TriangleGeometry(
    vertexBuffer: seq<Float32>, vertexCount: nat,
    indexBuffer: seq<uint32>, triangleCount: nat)

  /** Opaque handles returned by `rtcNewDevice` and `rtcNewScene`. */
  datatype DeviceToken = DeviceToken(handle: nat)
  datatype SceneToken = SceneToken(handle: nat)

  datatype SceneFlag = Dynamic | Robust

  /** `RTC_SCENE_FLAG_DYNAMIC | RTC_SCENE_FLAG_ROBUST`. */
  const DYNAMIC_ROBUST: set<SceneFlag> := {Dynamic, Robust}

  /** An accelerator scene: its handle, its flags, the geometries attached so
      far (the geometry at position k has geomID k, as the accelerator numbers
      attachments to a fresh scene from 0), and what the last commit built the
      acceleration structure from (`None` before the first commit). */
  datatype Scene = Scene(
    token: SceneToken, flags: set<SceneFlag>,
    attached: seq<TriangleGeometry>, built: Option<seq<TriangleGeometry>>)

  /** What `rtcNewScene` yields: no flags, no geometry, nothing built. */
  function NewScene(token: SceneToken): Scene {
    Scene(token, {}, [], None)
  }

  /** `rtcAttachGeometry`: appends; the returned geomID is the new position. */
  function Attach(s: Scene, g: TriangleGeometry): (r: (Scene, nat))
    ensures r.0.attached == s.attached + [g] && r.1 < |r.0.attached| && r.0.attached[r.1] == g
    ensures r.0.token == s.token && r.0.flags == s.flags && r.0.built == s.built
  {
    (s.(attached := s.attached + [g]), |s.attached|)
  }

  /** `rtcCommitScene`: the acceleration structure now reflects exactly the
      attached geometry. */
  function Commit(s: Scene): (r: Scene)
    ensures r.built == Some(s.attached)
    ensures r.token == s.token && r.flags == s.flags && r.attached == s.attached
  {
    s.(built := Some(s.attached))
  }

  /** `buildBVH` on a present instance: set DYNAMIC|ROBUST, then commit. */
  function Build(s: Scene): (r: Scene)
    ensures r.flags == DYNAMIC_ROBUST && r.built == Some(s.attached)
    ensures r.token == s.token && r.attached == s.attached
  {
    Commit(s.(flags := DYNAMIC_ROBUST))
  }

  lemma BuildIdempotent(s: Scene)
    ensures Build(Build(s)) == Build(s)
    ensures Build(s).attached == s.attached && Build(s).built == Some(s.attached)
  {
  }

  // ---------------------------------------------------------------------------
  // Flattening
  // ---------------------------------------------------------------------------

  /** The geometry created for one mesh part: both buffers are the part's
      arrays element for element, and the item counts are the number of WHOLE
      triples (integer division truncates a trailing partial triple). */
  function PartGeometry(part: MeshPart): (g: TriangleGeometry)
    ensures g.indexBuffer == part.indices && g.vertexBuffer == part.vertices
    ensures 3 * g.triangleCount <= |part.indices| < 3 * g.triangleCount + 3
    ensures 3 * g.vertexCount <= |part.vertices| < 3 * g.vertexCount + 3
  {
    TriangleGeometry(part.vertices, |part.vertices| / 3, part.indices, |part.indices| / 3)
  }

  /** The geometries of a list of parts, in part order. */
  function PartsGeometries(parts: seq<MeshPart>): (r: seq<TriangleGeometry>)
    ensures |r| == |parts|
    ensures forall j :: 0 <= j < |parts| ==> r[j] == PartGeometry(parts[j])
  {
    if |parts| == 0 then [] else PartsGeometries(parts[..|parts| - 1]) + [PartGeometry(parts[|parts| - 1])]
  }

  /** Number of parts over all meshes. */
  function PartCount(meshes: seq<Mesh>): nat {
    if |meshes| == 0 then 0 else PartCount(meshes[..|meshes| - 1]) + |meshes[|meshes| - 1].meshParts|
  }

  /** All part geometries, ordered by mesh and, inside a mesh, by part. */
  function Flatten(meshes: seq<Mesh>): (r: seq<TriangleGeometry>)
    ensures |r| == PartCount(meshes)
  {
    if |meshes| == 0 then [] else Flatten(meshes[..|meshes| - 1]) + PartsGeometries(meshes[|meshes| - 1].meshParts)
  }

  /** Position in the flattened list (and so geomID) of part 0 of mesh i. */
  function Offset(meshes: seq<Mesh>, i: nat): nat
    requires i <= |meshes|
  {
    PartCount(meshes[..i])
  }

  /** The scene `loadGeometry` leaves behind: a fresh scene with DYNAMIC|ROBUST,
      exactly the document's geometry attached, and committed. */
  function LoadedScene(token: SceneToken, doc: Document): Scene {
    Scene(token, DYNAMIC_ROBUST, Flatten(doc.geometry), Some(Flatten(doc.geometry)))
  }

  /** Parts of mesh i occupy positions Offset(i) .. Offset(i+1)-1, so meshes
      follow one another in document order. */
  lemma {:induction false} OffsetStep(meshes: seq<Mesh>, i: nat)
    requires i < |meshes|
    ensures Offset(meshes, i + 1) == Offset(meshes, i) + |meshes[i].meshParts|
    ensures Offset(meshes, |meshes|) == PartCount(meshes)
  {
    assert meshes[..i + 1][..i] == meshes[..i];
    assert meshes[..|meshes|] == meshes;
  }

  /** Part j of mesh i becomes geometry Offset(i) + j. */
  lemma {:induction false} FlattenAt(meshes: seq<Mesh>, i: nat, j: nat)
    requires i < |meshes| && j < |meshes[i].meshParts|
    ensures Offset(meshes, i) + j < |Flatten(meshes)|
    ensures Flatten(meshes)[Offset(meshes, i) + j] == PartGeometry(meshes[i].meshParts[j])
  {
    var init := meshes[..|meshes| - 1];
    if i == |meshes| - 1 {
      assert meshes[..i] == init;
    } else {
      FlattenAt(init, i, j);
      assert init[..i] == meshes[..i];
    }
  }

  /** Every flattened geometry comes from some part: with FlattenAt (each part
      has a position) and FlattenOrdered (distinct parts have distinct
      positions) this makes the flattening a bijection between parts and
      geometries. */
  lemma {:induction false} FlattenCovers(meshes: seq<Mesh>, k: nat) returns (i: nat, j: nat)
    requires k < |Flatten(meshes)|
    ensures i < |meshes| && j < |meshes[i].meshParts|
    ensures k == Offset(meshes, i) + j
    ensures Flatten(meshes)[k] == PartGeometry(meshes[i].meshParts[j])
  {
    var n := |meshes|;
    var init := meshes[..n - 1];
    if k < |Flatten(init)| {
      i, j := FlattenCovers(init, k);
      assert init[..i] == meshes[..i];
    } else {
      i, j := n - 1, k - |Flatten(init)|;
      assert meshes[..i] == init;
    }
  }

  /** Geometries from an earlier mesh come before those of a later one, and
      inside one mesh earlier parts come first. */
  lemma {:induction false} FlattenOrdered(meshes: seq<Mesh>, i1: nat, j1: nat, i2: nat, j2: nat)
    requires i1 < |meshes| && j1 < |meshes[i1].meshParts|
    requires i2 < |meshes| && j2 < |meshes[i2].meshParts|
    requires i1 < i2 || (i1 == i2 && j1 < j2)
    ensures Offset(meshes, i1) + j1 < Offset(meshes, i2) + j2
  {
    if i1 < i2 {
      OffsetMonotone(meshes, i1 + 1, i2);
      OffsetStep(meshes, i1);
    }
  }

  lemma {:induction false} OffsetMonotone(meshes: seq<Mesh>, a: nat, b: nat)
    requires a <= b <= |meshes|
    ensures Offset(meshes, a) <= Offset(meshes, b)
    decreases b - a
  {
    if a < b {
      OffsetStep(meshes, a);
      OffsetMonotone(meshes, a + 1, b);
    }
  }
}
