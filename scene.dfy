/** The engine objects the mesh debugger reads: meshes, the two components
    that carry a mesh, and the selected game object with its children.
    They are read-only to the debugger, so they are values here. */
module Scene {
  import opened Wrappers

  /** A Vector3, in a mesh's local space or in world space. */
  datatype Point = Point(x: real, y: real, z: real)

  /** A Vector2 texture coordinate. */
  datatype Uv = Uv(u: real, v: real)

  /** A Transform component, by identity. Where it maps a local point is the
      engine's business (`TransformPoint`), so the overlay receives that map
      as a parameter. */
  datatype Transform = Transform(instanceId: int)

  /** A triangle mesh: `triangles` holds three vertex indices per face;
      `vertices` and `uv` are indexed by vertex. */
  datatype Mesh = Mesh(vertices: seq<Point>, triangles: seq<int>, uv: seq<Uv>)

  /** `triangles.Length / 3`: the number of whole faces. */
  function FaceCount(m: Mesh): nat
  {
    |m.triangles| / 3
  }

  /** Face `f` of the mesh lies wholly inside `triangles`. */
  lemma FaceWithinTriangles(m: Mesh, f: int)
    requires 0 <= f < FaceCount(m)
    ensures 3 * f + 3 <= |m.triangles|
  {
    var n := |m.triangles|;
    assert n == 3 * (n / 3) + n % 3;
  }

  /** Every entry of `triangles` indexes a buffer of `bound` elements. */
  predicate IndicesBelow(triangles: seq<int>, bound: int)
  {
    forall i :: 0 <= i < |triangles| ==> 0 <= triangles[i] < bound
  }

  datatype MeshFilter = MeshFilter(sharedMesh: Mesh, transform: Transform)

  datatype SkinnedMeshRenderer = SkinnedMeshRenderer(sharedMesh: Mesh, transform: Transform)

  /** A game object with at most one component of each kind (the engine
      forbids a second MeshFilter or SkinnedMeshRenderer on one object) and
      its children in hierarchy order. */
  datatype GameObject = GameObject(
    meshFilter: Option<MeshFilter>,
    skinnedMeshRenderer: Option<SkinnedMeshRenderer>,
    children: seq<GameObject>)

  /** The object and all its descendants in depth-first order, the object
      itself first: the order in which `GetComponentInChildren` searches. */
  function Preorder(g: GameObject): (r: seq<GameObject>)
    ensures |r| >= 1 && r[0] == g
    decreases g, 1
  {
    [g] + PreorderAll(g.children)
  }

  function PreorderAll(gs: seq<GameObject>): seq<GameObject>
    decreases gs, 0
  {
    if gs == [] then [] else Preorder(gs[0]) + PreorderAll(gs[1..])
  }

  /** The first object of `gs` that `pick` finds a component on. */
  function FirstFound<C>(gs: seq<GameObject>, pick: GameObject -> Option<C>): (r: Option<C>)
    ensures r.None? <==> forall i :: 0 <= i < |gs| ==> pick(gs[i]).None?
    ensures r.Some? ==> exists i :: 0 <= i < |gs| && pick(gs[i]) == r &&
                                    forall j :: 0 <= j < i ==> pick(gs[j]).None?
  {
    if gs == [] then None
    else if pick(gs[0]).Some? then pick(gs[0])
    else
      var r := FirstFound(gs[1..], pick);
      assert forall i :: 1 <= i < |gs| ==> gs[i] == gs[1..][i - 1];
      r
  }

  /** The search stops at the first object that has the component. */
  lemma {:induction false} FirstFoundIsFirst<C>(gs: seq<GameObject>, pick: GameObject -> Option<C>, k: int)
    requires 0 <= k < |gs| && pick(gs[k]).Some?
    requires forall j :: 0 <= j < k ==> pick(gs[j]).None?
    ensures FirstFound(gs, pick) == pick(gs[k])
  {
    if k > 0 {
      assert pick(gs[0]).None?;
      assert gs[1..][k - 1] == gs[k];
      FirstFoundIsFirst(gs[1..], pick, k - 1);
    }
  }

  /** `GetComponentInChildren<C>()`: the component on the object itself, or
      else on the first descendant, in depth-first order, that has one. */
  function GetComponentInChildren<C>(g: GameObject, pick: GameObject -> Option<C>): Option<C>
  {
    FirstFound(Preorder(g), pick)
  }

  function MeshFilterOf(g: GameObject): Option<MeshFilter>
  {
    g.meshFilter
  }

  function SkinnedMeshRendererOf(g: GameObject): Option<SkinnedMeshRenderer>
  {
    g.skinnedMeshRenderer
  }
}
