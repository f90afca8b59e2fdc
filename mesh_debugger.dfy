/** The mesh debugger editor window: it binds to the mesh of the selected
    game object, steps through its faces and draws the current face in the
    scene view. */
module MeshDebugging {
  import opened Wrappers
  import opened Scene
  import opened FaceNavigation

  // ---------------------------------------------------------------------
  // Selection binding

  /** The mesh the window binds to for a selection: the shared mesh of the
      first MeshFilter among the selected object and its descendants, or
      else that of the first SkinnedMeshRenderer, or none. */
  function SelectedMesh(selection: Option<GameObject>): (r: Option<Mesh>)
    ensures selection.None? ==> r.None?
  {
    if selection.None? then None
    else
      var filter := GetComponentInChildren(selection.value, MeshFilterOf);
      if filter.Some? then Some(filter.value.sharedMesh)
      else
        var skinned := GetComponentInChildren(selection.value, SkinnedMeshRendererOf);
        if skinned.Some? then Some(skinned.value.sharedMesh) else None
  }

  /** A MeshFilter anywhere under the selection wins over every
      SkinnedMeshRenderer, even one on the selected object itself: the mesh
      bound is that of the first MeshFilter in depth-first order. */
  lemma MeshFilterWins(g: GameObject, k: int)
    requires 0 <= k < |Preorder(g)| && Preorder(g)[k].meshFilter.Some?
    requires forall j :: 0 <= j < k ==> Preorder(g)[j].meshFilter.None?
    ensures SelectedMesh(Some(g)) == Some(Preorder(g)[k].meshFilter.value.sharedMesh)
  {
    assert forall j :: 0 <= j < k ==> MeshFilterOf(Preorder(g)[j]).None?;
    FirstFoundIsFirst(Preorder(g), MeshFilterOf, k);
  }

  /** The SkinnedMeshRenderer is used only when no object under the
      selection has a MeshFilter; then the first one in depth-first order
      gives the mesh. */
  lemma SkinnedMeshFallback(g: GameObject, k: int)
    requires forall j :: 0 <= j < |Preorder(g)| ==> Preorder(g)[j].meshFilter.None?
    requires 0 <= k < |Preorder(g)| && Preorder(g)[k].skinnedMeshRenderer.Some?
    requires forall j :: 0 <= j < k ==> Preorder(g)[j].skinnedMeshRenderer.None?
    ensures SelectedMesh(Some(g)) == Some(Preorder(g)[k].skinnedMeshRenderer.value.sharedMesh)
  {
    assert forall j :: 0 <= j < |Preorder(g)| ==> MeshFilterOf(Preorder(g)[j]).None?;
    assert forall j :: 0 <= j < k ==> SkinnedMeshRendererOf(Preorder(g)[j]).None?;
    FirstFoundIsFirst(Preorder(g), SkinnedMeshRendererOf, k);
    assert GetComponentInChildren(g, MeshFilterOf).None?;
    assert GetComponentInChildren(g, SkinnedMeshRendererOf) == Preorder(g)[k].skinnedMeshRenderer;
  }

  /** No mesh is bound exactly when no object under the selection carries
      either component. */
  lemma NoMeshFound(g: GameObject)
    ensures SelectedMesh(Some(g)).None? <==>
            forall j :: 0 <= j < |Preorder(g)| ==>
              Preorder(g)[j].meshFilter.None? && Preorder(g)[j].skinnedMeshRenderer.None?
  {
    if SelectedMesh(Some(g)).None? {
      assert GetComponentInChildren(g, MeshFilterOf).None?;
      assert GetComponentInChildren(g, SkinnedMeshRendererOf).None?;
      forall j | 0 <= j < |Preorder(g)|
        ensures Preorder(g)[j].meshFilter.None? && Preorder(g)[j].skinnedMeshRenderer.None?
      {
        assert MeshFilterOf(Preorder(g)[j]).None?;
        assert SkinnedMeshRendererOf(Preorder(g)[j]).None?;
      }
    } else if GetComponentInChildren(g, MeshFilterOf).Some? {
      var i :| 0 <= i < |Preorder(g)| && MeshFilterOf(Preorder(g)[i]).Some?;
      assert Preorder(g)[i].meshFilter.Some?;
    } else {
      var i :| 0 <= i < |Preorder(g)| && SkinnedMeshRendererOf(Preorder(g)[i]).Some?;
      assert Preorder(g)[i].skinnedMeshRenderer.Some?;
    }
  }

  // ---------------------------------------------------------------------
  // Face resolution

  /** The three entries of `triangles` that make up face `f`. */
  function Corners(triangles: seq<int>, f: int): (r: seq<int>)
    requires 0 <= f && 3 * f + 3 <= |triangles|
    ensures |r| == 3
    ensures forall k :: 0 <= k < 3 ==> r[k] == triangles[3 * f + k]
  {
    [triangles[f * 3], triangles[f * 3 + 1], triangles[f * 3 + 2]]
  }

  /** The corners of faces `0 .. count - 1`, one face after another. */
  function AllCorners(triangles: seq<int>, count: nat): seq<int>
    requires 3 * count <= |triangles|
  {
    if count == 0 then [] else AllCorners(triangles, count - 1) + Corners(triangles, count - 1)
  }

  /** Face by face, the corners read back the index buffer in order: no
      entry is skipped or read twice, and only a trailing remainder of fewer
      than three entries belongs to no face. */
  lemma {:induction false} CornersTileTriangles(triangles: seq<int>, count: nat)
    requires 3 * count <= |triangles|
    ensures AllCorners(triangles, count) == triangles[..3 * count]
  {
    if count > 0 {
      CornersTileTriangles(triangles, count - 1);
      assert triangles[..3 * count] == triangles[..3 * (count - 1)] + triangles[3 * (count - 1)..3 * count];
    }
  }

  datatype VertexInfo = VertexInfo(index: int, uv: Uv)

  /** The three vertices of a face, named after the colour of their markers. */
  datatype FaceData = FaceData(red: VertexInfo, green: VertexInfo, blue: VertexInfo)

  /** The inspector's readout of face `f`: each corner's vertex index, and
      the UV stored at that same index. */
  function ResolveFace(m: Mesh, f: int): (r: FaceData)
    requires 0 <= f < FaceCount(m)
    requires IndicesBelow(m.triangles, |m.uv|)
    ensures [r.red.index, r.green.index, r.blue.index] == m.triangles[3 * f..3 * f + 3]
    ensures 0 <= r.red.index < |m.uv| && r.red.uv == m.uv[r.red.index]
    ensures 0 <= r.green.index < |m.uv| && r.green.uv == m.uv[r.green.index]
    ensures 0 <= r.blue.index < |m.uv| && r.blue.uv == m.uv[r.blue.index]
  {
    var c := Corners(m.triangles, f);
    FaceData(VertexInfo(c[0], m.uv[c[0]]), VertexInfo(c[1], m.uv[c[1]]), VertexInfo(c[2], m.uv[c[2]]))
  }

  /** What the window shows: a notice when no mesh is bound, otherwise the
      face count, the face index as it stood when the pass began, and the
      vertex data of the face reached by the pass. */
  datatype InspectorView =
    | NoMeshNotice
    | FaceView(numFaces: int, shownFace: int, face: FaceData)

  // ---------------------------------------------------------------------
  // Scene overlay

  datatype Color = Red | Green | Blue | White | Rgba(r: real, g: real, b: real, a: real)

  datatype TextAnchor =
    | UpperLeft | UpperCenter | UpperRight
    | MiddleLeft | MiddleCenter | MiddleRight
    | LowerLeft | LowerCenter | LowerRight

  datatype TextClipping = Overflow | Clip | Ellipsis

  /** The label-style fields the window sets; the rest of a GUIStyle is left
      out. */
  class GUIStyle {
    var textColor: Color
    var fixedWidth: real
    var fixedHeight: real
    var alignment: TextAnchor
    var fontSize: int
    var clipping: TextClipping

    /** `new GUIStyle(other)`: a copy of another style. */
    constructor Copy(other: GUIStyle)
      ensures textColor == other.textColor && fixedWidth == other.fixedWidth
      ensures fixedHeight == other.fixedHeight && alignment == other.alignment
      ensures fontSize == other.fontSize && clipping == other.clipping
    {
      textColor := other.textColor;
      fixedWidth := other.fixedWidth;
      fixedHeight := other.fixedHeight;
      alignment := other.alignment;
      fontSize := other.fontSize;
      clipping := other.clipping;
    }
  }

  /** The style the window gives its vertex labels. */
  ghost predicate IsLabelStyle(s: GUIStyle)
    reads s
  {
    && s.textColor == White && s.fixedWidth == 40.0 && s.fixedHeight == 20.0
    && s.alignment == MiddleCenter && s.fontSize == 12 && s.clipping == Overflow
  }

  /** The calls made on the scene view's immediate-mode `Handles`: setting
      the current colour, a sphere marker, a dotted line and a text label
      (the label's text is the vertex index). Marker size and dash spacing
      are left out. */
  datatype DrawCommand =
    | SetColor(color: Color)
    | Sphere(position: Point)
    | DottedLine(from: Point, to: Point)
    | Label(position: Point, index: int, style: GUIStyle)

  /** What ends up on screen, with the colour in force when it was drawn. */
  datatype Drawn =
    | Marker(color: Color, position: Point)
    | Edge(color: Color, from: Point, to: Point)
    | Text(position: Point, index: int, style: GUIStyle)

  /** Replays a command sequence against `Handles.color`, which starts as
      `color`. */
  function Render(commands: seq<DrawCommand>, color: Color): seq<Drawn>
  {
    if commands == [] then []
    else
      match commands[0]
      case SetColor(c) => Render(commands[1..], c)
      case Sphere(p) => [Marker(color, p)] + Render(commands[1..], color)
      case DottedLine(a, b) => [Edge(color, a, b)] + Render(commands[1..], color)
      case Label(p, i, s) => [Text(p, i, s)] + Render(commands[1..], color)
  }

  /** The overlay for one face: whatever colour `Handles` had before, it
      shows a red, a green and a blue marker on the three corners, a closed
      white dotted outline p1-p2-p3-p1, and each corner's index beside it. */
  function Overlay(p1: Point, p2: Point, p3: Point, i1: int, i2: int, i3: int, style: GUIStyle): (commands: seq<DrawCommand>)
    ensures forall c :: Render(commands, c) == Outline(p1, p2, p3, i1, i2, i3, style)
  {
    var commands :=
      [ SetColor(Red), Sphere(p1), SetColor(Green), Sphere(p2), SetColor(Blue), Sphere(p3),
        SetColor(White), DottedLine(p1, p2), DottedLine(p2, p3), DottedLine(p3, p1),
        Label(p1, i1, style), Label(p2, i2, style), Label(p3, i3, style) ];
    OverlayRendersOutline(commands, p1, p2, p3, i1, i2, i3, style);
    commands
  }

  /** The face as it should look on screen. */
  function Outline(p1: Point, p2: Point, p3: Point, i1: int, i2: int, i3: int, style: GUIStyle): seq<Drawn>
  {
    [ Marker(Red, p1), Marker(Green, p2), Marker(Blue, p3),
      Edge(White, p1, p2), Edge(White, p2, p3), Edge(White, p3, p1),
      Text(p1, i1, style), Text(p2, i2, style), Text(p3, i3, style) ]
  }

  lemma OverlayRendersOutline(commands: seq<DrawCommand>, p1: Point, p2: Point, p3: Point,
                              i1: int, i2: int, i3: int, style: GUIStyle)
    requires commands ==
      [ SetColor(Red), Sphere(p1), SetColor(Green), Sphere(p2), SetColor(Blue), Sphere(p3),
        SetColor(White), DottedLine(p1, p2), DottedLine(p2, p3), DottedLine(p3, p1),
        Label(p1, i1, style), Label(p2, i2, style), Label(p3, i3, style) ]
    ensures forall c :: Render(commands, c) == Outline(p1, p2, p3, i1, i2, i3, style)
  {
    var l3 := [Text(p3, i3, style)];
    var l2 := [Text(p2, i2, style)] + l3;
    var l1 := [Text(p1, i1, style)] + l2;
    var e3 := [Edge(White, p3, p1)] + l1;
    var e2 := [Edge(White, p2, p3)] + e3;
    var e1 := [Edge(White, p1, p2)] + e2;
    var m3 := [Marker(Blue, p3)] + e1;
    var m2 := [Marker(Green, p2)] + m3;
    var m1 := [Marker(Red, p1)] + m2;
    assert Render(commands[13..], White) == [];
    assert Render(commands[12..], White) == l3;
    assert Render(commands[11..], White) == l2;
    assert Render(commands[10..], White) == l1;
    assert Render(commands[9..], White) == e3;
    assert Render(commands[8..], White) == e2;
    assert Render(commands[7..], White) == e1;
    assert Render(commands[6..], Blue) == e1;
    assert Render(commands[5..], Blue) == m3;
    assert Render(commands[4..], Green) == m3;
    assert Render(commands[3..], Green) == m2;
    assert Render(commands[2..], Red) == m2;
    assert Render(commands[1..], Red) == m1;
    assert m1 == Outline(p1, p2, p3, i1, i2, i3, style);
  }

  /** The vertex-label style: a copy of the skin's label style, white,
      40 by 20, centred, 12-point, not clipped. */
  method NewLabelStyle(skinLabel: GUIStyle) returns (style: GUIStyle)
    ensures fresh(style) && IsLabelStyle(style)
  {
    style := new GUIStyle.Copy(skinLabel);
    style.textColor := White;
    style.fixedWidth := 40.0;
    style.fixedHeight := 20.0;
    style.alignment := MiddleCenter;
    style.fontSize := 12;
    style.clipping := Overflow;
  }

  // ---------------------------------------------------------------------
  // The window

  class MeshDebugger {
    var currentMesh: Option<Mesh>
    var currentMeshFilter: Option<MeshFilter>
    var currentSkinnedMeshRenderer: Option<SkinnedMeshRenderer>
    var currentFace: int
    var numFaces: int
    var newFace: int
    var labelStyle: GUIStyle?
    var p1: Point
    var p2: Point
    var p3: Point

    /** The face count belongs to the bound mesh, the current face is a face
        of it (or 0 while there is none), and the bound mesh came from the
        component the overlay takes its transform from. */
    ghost predicate Valid()
      reads this
    {
      && (currentMesh.None? ==> numFaces == 0 && currentFace == 0)
      && (currentMesh.Some? ==>
            && numFaces == FaceCount(currentMesh.value)
            && 0 <= currentFace && (currentFace < numFaces || currentFace == 0)
            && (|| (currentMeshFilter.Some? && currentMesh.value == currentMeshFilter.value.sharedMesh)
                || (currentMeshFilter.None? && currentSkinnedMeshRenderer.Some? &&
                    currentMesh.value == currentSkinnedMeshRenderer.value.sharedMesh)))
    }

    /** The transform of the component the bound mesh came from. */
    function BoundTransform(): Transform
      reads this
      requires currentMeshFilter.Some? || currentSkinnedMeshRenderer.Some?
    {
      if currentMeshFilter.Some? then currentMeshFilter.value.transform
      else currentSkinnedMeshRenderer.value.transform
    }

    constructor ()
      ensures Valid()
      ensures currentMesh.None? && currentMeshFilter.None? && currentSkinnedMeshRenderer.None?
      ensures currentFace == 0 && numFaces == 0 && newFace == 0 && labelStyle == null
    {
      currentMesh, currentMeshFilter, currentSkinnedMeshRenderer := None, None, None;
      currentFace, numFaces, newFace := 0, 0, 0;
      labelStyle := null;
      p1, p2, p3 := Point(0.0, 0.0, 0.0), Point(0.0, 0.0, 0.0), Point(0.0, 0.0, 0.0);
    }

    /** Rebinds to the current selection and goes back to face 0. With no
        selected object the MeshFilter field keeps its old value. */
    method OnSelectionChange(selection: Option<GameObject>)
      modifies this
      ensures Valid()
      ensures currentMesh == SelectedMesh(selection)
      ensures numFaces == if currentMesh.Some? then FaceCount(currentMesh.value) else 0
      ensures currentFace == 0 && newFace == 0
      ensures selection.None? ==> currentMeshFilter == old(currentMeshFilter) &&
                                  currentSkinnedMeshRenderer.None?
      ensures selection.Some? ==>
                currentMeshFilter == GetComponentInChildren(selection.value, MeshFilterOf) &&
                currentSkinnedMeshRenderer ==
                  (if currentMeshFilter.Some? then None
                   else GetComponentInChildren(selection.value, SkinnedMeshRendererOf))
      ensures labelStyle == old(labelStyle) && p1 == old(p1) && p2 == old(p2) && p3 == old(p3)
    {
      currentMesh := None;
      currentSkinnedMeshRenderer := None;
      numFaces := 0;

      if selection.Some? {
        currentMeshFilter := GetComponentInChildren(selection.value, MeshFilterOf);

        if currentMeshFilter.Some? {
          currentMesh := Some(currentMeshFilter.value.sharedMesh);
          numFaces := |currentMesh.value.triangles| / 3;
        } else {
          currentSkinnedMeshRenderer := GetComponentInChildren(selection.value, SkinnedMeshRendererOf);

          if currentSkinnedMeshRenderer.Some? {
            currentMesh := Some(currentSkinnedMeshRenderer.value.sharedMesh);
            numFaces := |currentMesh.value.triangles| / 3;
          }
        }
      }

      currentFace := 0;
      newFace := currentFace;
    }

    /** One pass of the window's GUI. `typed` is what the "Jump to face"
        field returns (the current face unless the user edited it);
        `previousPressed` and `nextPressed` are the two buttons. */
    method OnGUI(typed: int, previousPressed: bool, nextPressed: bool) returns (view: InspectorView)
      requires Valid()
      requires currentMesh.Some? ==> numFaces > 0 && IndicesBelow(currentMesh.value.triangles, |currentMesh.value.uv|)
      modifies this
      ensures Valid()
      ensures currentMesh == old(currentMesh) && currentMeshFilter == old(currentMeshFilter)
      ensures currentSkinnedMeshRenderer == old(currentSkinnedMeshRenderer) && numFaces == old(numFaces)
      ensures labelStyle == old(labelStyle) && p1 == old(p1) && p2 == old(p2) && p3 == old(p3)
      ensures currentMesh.None? ==> view == NoMeshNotice && currentFace == old(currentFace) && newFace == old(newFace)
      ensures currentMesh.Some? ==>
                && newFace == typed
                && currentFace == Navigate(old(currentFace), numFaces, typed, previousPressed, nextPressed)
                && view == FaceView(numFaces, old(currentFace), ResolveFace(currentMesh.value, currentFace))
    {
      if currentMesh.None? {
        return NoMeshNotice;
      }
      var shownFace := currentFace;
      var n := numFaces;

      newFace := typed;
      var face := currentFace;

      if typed != face {
        if typed >= 0 && typed < n {
          face := typed;
        }
      }
      assert face == JumpTo(shownFace, typed, n);
      ghost var jumped := face;

      if previousPressed {
        face := CsRemainder(face - 1, n);

        if face < 0 {
          face := face + n;
        }
      }
      assert face == if previousPressed then PreviousFace(jumped, n) else jumped;

      if nextPressed {
        face := CsRemainder(face + 1, n);
      }
      assert face == Navigate(shownFace, n, typed, previousPressed, nextPressed);

      currentFace := face;
      view := FaceView(numFaces, shownFace, ResolveFace(currentMesh.value, currentFace));
    }

    /** Draws the current face in the scene view. `transformPoint` is the
        engine's `Transform.TransformPoint`; `skinLabel` is the editor
        skin's label style, copied the first time. */
    method OnSceneGUI(transformPoint: (Transform, Point) -> Point, skinLabel: GUIStyle) returns (drawn: seq<DrawCommand>)
      requires Valid()
      requires currentMesh.Some? ==> numFaces > 0 && IndicesBelow(currentMesh.value.triangles, |currentMesh.value.vertices|)
      modifies this
      ensures Valid()
      ensures currentMesh == old(currentMesh) && currentMeshFilter == old(currentMeshFilter)
      ensures currentSkinnedMeshRenderer == old(currentSkinnedMeshRenderer) && numFaces == old(numFaces)
      ensures currentFace == old(currentFace) && newFace == old(newFace)
      ensures currentMesh.None? ==> drawn == [] && unchanged(this)
      ensures currentMesh.Some? ==>
                var m := currentMesh.value;
                var c := Corners(m.triangles, currentFace);
                && p1 == transformPoint(BoundTransform(), m.vertices[c[0]])
                && p2 == transformPoint(BoundTransform(), m.vertices[c[1]])
                && p3 == transformPoint(BoundTransform(), m.vertices[c[2]])
                && labelStyle != null
                && (old(labelStyle) != null ==> labelStyle == old(labelStyle))
                && (old(labelStyle) == null ==> fresh(labelStyle) && IsLabelStyle(labelStyle))
                && drawn == Overlay(p1, p2, p3, c[0], c[1], c[2], labelStyle)
    {
      if currentMesh.None? {
        return [];
      }

      var m := currentMesh.value;
      FaceWithinTriangles(m, currentFace);
      var index1 := m.triangles[currentFace * 3];
      var index2 := m.triangles[currentFace * 3 + 1];
      var index3 := m.triangles[currentFace * 3 + 2];

      if currentMeshFilter.Some? {
        var t := currentMeshFilter.value.transform;
        p1 := transformPoint(t, m.vertices[index1]);
        p2 := transformPoint(t, m.vertices[index2]);
        p3 := transformPoint(t, m.vertices[index3]);
      } else if currentSkinnedMeshRenderer.Some? {
        var t := currentSkinnedMeshRenderer.value.transform;
        p1 := transformPoint(t, m.vertices[index1]);
        p2 := transformPoint(t, m.vertices[index2]);
        p3 := transformPoint(t, m.vertices[index3]);
      }

      drawn := [SetColor(Red), Sphere(p1), SetColor(Green), Sphere(p2), SetColor(Blue), Sphere(p3)];
      drawn := drawn + [SetColor(White), DottedLine(p1, p2), DottedLine(p2, p3), DottedLine(p3, p1)];

      if labelStyle == null {
        labelStyle := NewLabelStyle(skinLabel);
      }

      drawn := drawn + [Label(p1, index1, labelStyle), Label(p2, index2, labelStyle), Label(p3, index3, labelStyle)];
      assert Corners(m.triangles, currentFace) == [index1, index2, index3];
      assert drawn == Overlay(p1, p2, p3, index1, index2, index3, labelStyle);
    }
  }
}
