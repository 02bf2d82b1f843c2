/**
 * The scene of assets/js/GLmainpage.js and its `drawScene`: an ordered list
 * of plain objects tagged by a `type` string, and one frame's worth of draw
 * calls.
 *
 * Only what reaches the GPU is kept: which buffer is bound, how many vertices
 * `drawArrays(gl.TRIANGLES, 0, n)` covers, and which inputs build the
 * model-view matrix. The matrices themselves (gl-matrix, floating point), the
 * projection, and the clear/bind/uniform calls are not part of this model.
 */
module Render {
  import opened Wrappers
  import opened Meshes

  /**
   * A scene object as `createPyramid` / `createTerrain` build it. `kind` is
   * the object's `type` string; any string can stand there, and only
   * "pyramid" and "terrain" are drawn.
   */
  datatype SceneObject = SceneObject(kind: string, position: seq<real>, size: Option<real>, link: string)

  /** The two vertex buffers an object can be drawn with. */
  datatype MeshKind = Pyramid | Terrain

  /** What `initPyramidBuffers` / `initTerrainBuffers` return: a buffer handle and its vertex count. */
  datatype MeshBuffer = MeshBuffer(numVertices: nat)

  /**
   * The inputs of an object's model-view matrix: a translation, and for the
   * main page a rotation by `angle` about the vertical axis [0, 1, 0].
   */
  datatype ModelView = Translate(offset: seq<real>) | TranslateRotateY(offset: seq<real>, angle: real)

  /** One `drawArrays(gl.TRIANGLES, 0, count)` with `mesh`'s buffer bound. */
  datatype DrawCall = DrawCall(mesh: MeshKind, count: nat, modelView: ModelView)

  /** What one `drawScene` issues: its draw calls and, in order, the unknown types it logged. */
  datatype Frame = Frame(calls: seq<DrawCall>, unknownTypes: seq<string>)

  /** The type dispatch of the draw loop: the buffer an object's `type` selects, if any. */
  function MeshFor(kind: string): (m: Option<MeshKind>)
    ensures m == Some(Pyramid) <==> kind == "pyramid"
    ensures m == Some(Terrain) <==> kind == "terrain"
  {
    if kind == "pyramid" then Some(Pyramid)
    else if kind == "terrain" then Some(Terrain)
    else None
  }

  function CreatePyramid(position: seq<real>): (o: SceneObject)
    ensures MeshFor(o.kind) == Some(Pyramid)
    ensures o.position == position && o.size == None
  {
    SceneObject("pyramid", position, None, "https://example.com/pyramid-link")
  }

  function CreateTerrain(position: seq<real>, size: real): (o: SceneObject)
    ensures MeshFor(o.kind) == Some(Terrain)
    ensures o.position == position && o.size == Some(size)
  {
    SceneObject("terrain", position, Some(size), "https://example.com/terrain-link")
  }

  /** The module-level `objects` list: two pyramids, then one terrain. */
  function Objects(): (os: seq<SceneObject>)
    ensures |os| == 3
    ensures MeshFor(os[0].kind) == MeshFor(os[1].kind) == Some(Pyramid)
    ensures MeshFor(os[2].kind) == Some(Terrain)
  {
    [ CreatePyramid([1.0, -10.0, 0.0]),
      CreatePyramid([1.0, -1.0, 0.0]),
      CreateTerrain([2.0, 0.0, 0.0], 5.0) ]
  }

  function InitPyramidBuffers(): (b: MeshBuffer)
    ensures b.numVertices == 18
  {
    MeshBuffer(NumVertices(PyramidPositions()))
  }

  /**
   * The terrain buffer, built from the table as written; the corrected
   * table would report the same count.
   */
  function InitTerrainBuffers(): (b: MeshBuffer)
    ensures b.numVertices == 6
    ensures b.numVertices == NumVertices(TerrainPositions())
  {
    MeshBuffer(NumVertices(TerrainPositionsAsWritten()))
  }

  /**
   * Each buffer's count is the number of vertices the shader reads from its
   * table, so every draw covers the whole table and nothing past it.
   */
  lemma BufferCountsAreVertexCounts()
    ensures InitPyramidBuffers().numVertices == |Vertices(PyramidPositions())|
    ensures InitTerrainBuffers().numVertices == |Vertices(TerrainPositionsAsWritten())|
  {
  }


  function BufferFor(m: MeshKind, pyramidBuffers: MeshBuffer, terrainBuffers: MeshBuffer): MeshBuffer
  {
    match m
    case Pyramid => pyramidBuffers
    case Terrain => terrainBuffers
  }

  /** Frames issued one after the other. */
  function Concat(f: Frame, g: Frame): Frame
  {
    Frame(f.calls + g.calls, f.unknownTypes + g.unknownTypes)
  }

  /**
   * What `drawScene` issues for `objects`, as a function: every recognised
   * object contributes one draw call, every other one its logged type.
   */
  function RenderFrame(objects: seq<SceneObject>, position: seq<real>, rotation: real,
                       pyramidBuffers: MeshBuffer, terrainBuffers: MeshBuffer): (f: Frame)
    ensures |f.calls| + |f.unknownTypes| == |objects|
    decreases |objects|
  {
    if objects == [] then Frame([], [])
    else
      var rest := RenderFrame(objects[1..], position, rotation, pyramidBuffers, terrainBuffers);
      match MeshFor(objects[0].kind)
      case Some(m) =>
        var call := DrawCall(m, BufferFor(m, pyramidBuffers, terrainBuffers).numVertices,
                             TranslateRotateY(position, rotation));
        Frame([call] + rest.calls, rest.unknownTypes)
      case None => Frame(rest.calls, [objects[0].kind] + rest.unknownTypes)
  }

  /** Rendering a list is rendering its two halves one after the other. */
  lemma {:induction false} RenderFrameAppend(xs: seq<SceneObject>, ys: seq<SceneObject>, position: seq<real>,
                                             rotation: real, pyramidBuffers: MeshBuffer, terrainBuffers: MeshBuffer)
    ensures RenderFrame(xs + ys, position, rotation, pyramidBuffers, terrainBuffers)
         == Concat(RenderFrame(xs, position, rotation, pyramidBuffers, terrainBuffers),
                   RenderFrame(ys, position, rotation, pyramidBuffers, terrainBuffers))
    decreases |xs|
  {
    if xs == [] {
      assert xs + ys == ys;
    } else {
      assert (xs + ys)[1..] == xs[1..] + ys;
      RenderFrameAppend(xs[1..], ys, position, rotation, pyramidBuffers, terrainBuffers);
    }
  }

  /**
   * `drawScene`'s loop: for each object in order, build the model-view
   * inputs from the shared position and rotation, pick the buffer by type,
   * and draw it; an unknown type is logged and skipped (`continue`).
   */
  method DrawScene(objects: seq<SceneObject>, position: seq<real>, rotation: real,
                   pyramidBuffers: MeshBuffer, terrainBuffers: MeshBuffer) returns (frame: Frame)
    ensures frame == RenderFrame(objects, position, rotation, pyramidBuffers, terrainBuffers)
  {
    frame := Frame([], []);
    var i := 0;
    while i < |objects|
      invariant 0 <= i <= |objects|
      invariant frame == RenderFrame(objects[..i], position, rotation, pyramidBuffers, terrainBuffers)
    {
      var obj := objects[i];
      assert objects[..i + 1] == objects[..i] + [obj];
      RenderFrameAppend(objects[..i], [obj], position, rotation, pyramidBuffers, terrainBuffers);
      i := i + 1;
      var modelView := TranslateRotateY(position, rotation);
      var objectBuffers: MeshBuffer;
      var mesh: MeshKind;
      if obj.kind == "pyramid" {
        objectBuffers, mesh := pyramidBuffers, Pyramid;
      } else if obj.kind == "terrain" {
        objectBuffers, mesh := terrainBuffers, Terrain;
      } else {
        frame := Frame(frame.calls, frame.unknownTypes + [obj.kind]);
        continue;
      }
      frame := Frame(frame.calls + [DrawCall(mesh, objectBuffers.numVertices, modelView)], frame.unknownTypes);
    }
    assert objects[..i] == objects;
  }

  /** The buffers of the recognised objects, in list order: the reference for what is drawn. */
  function KnownMeshes(objects: seq<SceneObject>): seq<MeshKind>
    decreases |objects|
  {
    if objects == [] then []
    else (match MeshFor(objects[0].kind) case Some(m) => [m] case None => []) + KnownMeshes(objects[1..])
  }

  /** The types of the unrecognised objects, in list order. */
  function UnknownKinds(objects: seq<SceneObject>): seq<string>
    decreases |objects|
  {
    if objects == [] then []
    else (if MeshFor(objects[0].kind).None? then [objects[0].kind] else []) + UnknownKinds(objects[1..])
  }

  /**
   * Exactly one draw per recognised object, in list order, covering that
   * kind's buffer; every draw uses the same model-view inputs (the shared
   * position and rotation); every other object is logged, in order.
   */
  lemma {:induction false} DrawnInOrder(objects: seq<SceneObject>, position: seq<real>, rotation: real,
                                        pyramidBuffers: MeshBuffer, terrainBuffers: MeshBuffer)
    ensures var f := RenderFrame(objects, position, rotation, pyramidBuffers, terrainBuffers);
      var known := KnownMeshes(objects);
      && |f.calls| == |known|
      && (forall j :: 0 <= j < |f.calls| ==>
            f.calls[j] == DrawCall(known[j], BufferFor(known[j], pyramidBuffers, terrainBuffers).numVertices,
                                   TranslateRotateY(position, rotation)))
      && f.unknownTypes == UnknownKinds(objects)
    decreases |objects|
  {
    if objects != [] {
      DrawnInOrder(objects[1..], position, rotation, pyramidBuffers, terrainBuffers);
    }
  }

  /** The `type` strings of a list of objects. */
  function Kinds(objects: seq<SceneObject>): (ks: seq<string>)
    ensures |ks| == |objects|
  {
    seq(|objects|, j requires 0 <= j < |objects| => objects[j].kind)
  }

  /**
   * An object's own `position`, `size` and `link` are never read: two lists
   * with the same types in the same order render identically.
   */
  lemma {:induction false} PlacementIsIgnored(a: seq<SceneObject>, b: seq<SceneObject>, position: seq<real>,
                                              rotation: real, pyramidBuffers: MeshBuffer, terrainBuffers: MeshBuffer)
    requires Kinds(a) == Kinds(b)
    ensures RenderFrame(a, position, rotation, pyramidBuffers, terrainBuffers)
         == RenderFrame(b, position, rotation, pyramidBuffers, terrainBuffers)
    decreases |a|
  {
    if a != [] {
      assert a[0].kind == Kinds(a)[0] == Kinds(b)[0] == b[0].kind;
      assert Kinds(a[1..]) == Kinds(a)[1..] == Kinds(b)[1..] == Kinds(b[1..]);
      PlacementIsIgnored(a[1..], b[1..], position, rotation, pyramidBuffers, terrainBuffers);
    }
  }

  /** An object of an unknown type draws nothing; the objects around it are drawn as if it were absent. */
  lemma UnknownIsSkipped(xs: seq<SceneObject>, o: SceneObject, ys: seq<SceneObject>, position: seq<real>,
                         rotation: real, pyramidBuffers: MeshBuffer, terrainBuffers: MeshBuffer)
    requires MeshFor(o.kind) == None
    ensures RenderFrame(xs + [o] + ys, position, rotation, pyramidBuffers, terrainBuffers).calls
         == RenderFrame(xs + ys, position, rotation, pyramidBuffers, terrainBuffers).calls
  {
    RenderFrameAppend(xs + [o], ys, position, rotation, pyramidBuffers, terrainBuffers);
    RenderFrameAppend(xs, [o], position, rotation, pyramidBuffers, terrainBuffers);
    RenderFrameAppend(xs, ys, position, rotation, pyramidBuffers, terrainBuffers);
  }

  /** The vertex counts of a frame's draw calls, in order. */
  function Counts(f: Frame): (cs: seq<nat>)
    ensures |cs| == |f.calls|
  {
    seq(|f.calls|, j requires 0 <= j < |f.calls| => f.calls[j].count)
  }

  /** The page's own scene draws 18, 18 and 6 vertices, and logs nothing. */
  lemma MainSceneCounts(position: seq<real>, rotation: real)
    ensures var f := RenderFrame(Objects(), position, rotation, InitPyramidBuffers(), InitTerrainBuffers());
      Counts(f) == [18, 18, 6] && f.unknownTypes == []
  {
    var os := Objects();
    assert os[2..][1..] == [];
    assert os[1..][1..] == os[2..];
  }
}
