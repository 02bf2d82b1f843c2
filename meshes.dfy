/**
 * The static vertex tables of the two WebGL pages and the vertex count that
 * each buffer reports to its draw call.
 *
 * A table is a flat list of coordinates that `vertexAttribPointer(..., 3,
 * gl.FLOAT, ...)` reads as consecutive (x, y, z) triples. JavaScript numbers
 * are IEEE doubles uploaded as 32-bit floats; here every coordinate is a
 * `real`, so rounding is not modelled (all the literals below are exact
 * binary fractions anyway).
 */
module Meshes {

  datatype Vec3 = Vec3(x: real, y: real, z: real)

  /**
   * `numVertices: positions.length / 3`. JavaScript divides exactly; the
   * count reaches `drawArrays` as a GLsizei, which drops a fraction, so the
   * number of vertices drawn is the number of whole triples.
   */
  function NumVertices(positions: seq<real>): (n: nat)
    ensures 3 * n <= |positions| < 3 * n + 3
  {
    |positions| / 3
  }

  /** The i-th vertex of a flat table. */
  function VertexAt(flat: seq<real>, i: nat): (v: Vec3)
    requires 3 * i + 2 < |flat|
  {
    Vec3(flat[3 * i], flat[3 * i + 1], flat[3 * i + 2])
  }

  /** The table as the vertex shader sees it: one vertex per whole triple, in order. */
  function Vertices(flat: seq<real>): (vs: seq<Vec3>)
    ensures |vs| == NumVertices(flat)
    ensures forall i :: 0 <= i < |vs| ==> 3 * i + 2 < |flat| && vs[i] == VertexAt(flat, i)
    decreases |flat|
  {
    if |flat| < 3 then []
    else [Vec3(flat[0], flat[1], flat[2])] + Vertices(flat[3..])
  }

  /** The inverse of Vertices: write the vertices back as a flat table. */
  function Flatten(vs: seq<Vec3>): (flat: seq<real>)
    ensures |flat| == 3 * |vs|
  {
    if vs == [] then []
    else [vs[0].x, vs[0].y, vs[0].z] + Flatten(vs[1..])
  }

  /** Reading a table written from vertices gives those vertices back. */
  lemma {:induction false} VerticesOfFlatten(vs: seq<Vec3>)
    ensures Vertices(Flatten(vs)) == vs
  {
    if vs != [] {
      var flat := Flatten(vs);
      assert flat[3..] == Flatten(vs[1..]);
      VerticesOfFlatten(vs[1..]);
    }
  }

  /** A table of whole triples is exactly its vertices written out. */
  lemma {:induction false} FlattenOfVertices(flat: seq<real>)
    requires |flat| % 3 == 0
    ensures Flatten(Vertices(flat)) == flat
  {
    if |flat| >= 3 {
      var vs := Vertices(flat);
      assert vs[1..] == Vertices(flat[3..]);
      FlattenOfVertices(flat[3..]);
    }
  }

  /**
   * The pyramid of both pages (assets/js/GLmainpage.js and
   * assets/js/gamecode.js carry the same table): a square base drawn as two
   * triangles, then the front, right, back and left faces, each closed by
   * the apex (0, 0.5, 0).
   */
  function PyramidPositions(): (s: seq<real>)
    ensures |s| == 54
  {
    [ // base
      -0.5, -0.5,  0.5,   0.5, -0.5,  0.5,   0.5, -0.5, -0.5,
      -0.5, -0.5,  0.5,   0.5, -0.5, -0.5,  -0.5, -0.5, -0.5,
      // front
      -0.5, -0.5,  0.5,   0.5, -0.5,  0.5,   0.0,  0.5,  0.0,
      // right
       0.5, -0.5,  0.5,   0.5, -0.5, -0.5,   0.0,  0.5,  0.0,
      // back
       0.5, -0.5, -0.5,  -0.5, -0.5, -0.5,   0.0,  0.5,  0.0,
      // left
      -0.5, -0.5, -0.5,  -0.5, -0.5,  0.5,   0.0,  0.5,  0.0 ]
  }

  /** The pyramid table of assets/js/gamecode.js, written out separately as it is there. */
  function GamePyramidPositions(): (s: seq<real>)
    ensures |s| == 54
    ensures s == PyramidPositions()
  {
    [ -0.5, -0.5,  0.5,   0.5, -0.5,  0.5,   0.5, -0.5, -0.5,
      -0.5, -0.5,  0.5,   0.5, -0.5, -0.5,  -0.5, -0.5, -0.5,
      -0.5, -0.5,  0.5,   0.5, -0.5,  0.5,   0.0,  0.5,  0.0,
       0.5, -0.5,  0.5,   0.5, -0.5, -0.5,   0.0,  0.5,  0.0,
       0.5, -0.5, -0.5,  -0.5, -0.5, -0.5,   0.0,  0.5,  0.0,
      -0.5, -0.5, -0.5,  -0.5, -0.5,  0.5,   0.0,  0.5,  0.0 ]
  }

  /** The pyramid table is whole triples: writing its vertices back gives the table itself. */
  lemma PyramidIsItsVertices()
    ensures Flatten(Vertices(PyramidPositions())) == PyramidPositions()
  {
    var p := PyramidPositions();
    FlattenOfVertices(p);
  }

  /**
   * Two triangles (a, b, c) and (c, d, a) that together cover the quad
   * a-b-c-d, split along its diagonal a-c.
   */
  predicate IsSplitQuad(flat: seq<real>)
  {
    |flat| == 18 &&
    VertexAt(flat, 3) == VertexAt(flat, 2) &&
    VertexAt(flat, 5) == VertexAt(flat, 0)
  }

  /** The terrain table exactly as assets/js/GLmainpage.js writes it. */
  function TerrainPositionsAsWritten(): (s: seq<real>)
    ensures |s| == 18
  {
    [ -5.0, -1.0, -2.0,  -2.0, -1.0,  2.0,   2.0, -1.0,  2.0,
       2.0, -1.0,  2.0,   2.0, -1.0, -2.0,  -2.0, -1.0, -2.0 ]
  }

  /** The terrain table, as written, is whole triples too: six vertices and nothing left over. */
  lemma TerrainIsItsVertices()
    ensures Flatten(Vertices(TerrainPositionsAsWritten())) == TerrainPositionsAsWritten()
  {
    var w := TerrainPositionsAsWritten();
    FlattenOfVertices(w);
  }

  /**
   * As written, the first corner (-5, -1, -2) is not a corner of the second
   * triangle: the two triangles meet in the single point (2, -1, 2), so
   * they do not tile a quad and leave a wedge of the square uncovered.
   */
  lemma TerrainAsWrittenIsNotAQuad()
    ensures !IsSplitQuad(TerrainPositionsAsWritten())
    ensures var w := TerrainPositionsAsWritten();
      VertexAt(w, 3) == VertexAt(w, 2) &&
      VertexAt(w, 0) !in [VertexAt(w, 3), VertexAt(w, 4), VertexAt(w, 5)] &&
      VertexAt(w, 1) !in [VertexAt(w, 3), VertexAt(w, 4), VertexAt(w, 5)]
  {
  }

  /**
   * The terrain as evidently intended: the first coordinate -2.0 instead of
   * -5.0, so the two triangles cover the flat square [-2, 2] x [-2, 2] at
   * height -1 and draw the same number of vertices.
   */
  function TerrainPositions(): (s: seq<real>)
    ensures |s| == 18
    ensures IsSplitQuad(s)
    ensures s == TerrainPositionsAsWritten()[0 := -2.0]
    ensures NumVertices(s) == NumVertices(TerrainPositionsAsWritten())
    ensures forall i :: 0 <= i < 6 ==> VertexAt(s, i).y == -1.0
  {
    [ -2.0, -1.0, -2.0,  -2.0, -1.0,  2.0,   2.0, -1.0,  2.0,
       2.0, -1.0,  2.0,   2.0, -1.0, -2.0,  -2.0, -1.0, -2.0 ]
  }

  /** Every vertex the shader reads from the corrected terrain lies at height -1. */
  lemma TerrainIsFlat()
    ensures forall v :: v in Vertices(TerrainPositions()) ==> v.y == -1.0
  {
    var vs := Vertices(TerrainPositions());
    forall v | v in vs
      ensures v.y == -1.0
    {
      var i :| 0 <= i < |vs| && vs[i] == v;
    }
  }
}
