/**
 * The host-side geometry of the widget: four vertex records and twelve
 * 32-bit unsigned indices that group into four triangular faces of a
 * tetrahedron. Vertex positions and colours are floats and are not modelled;
 * what is modelled exactly is the index list and the integer facts that make
 * it a closed, consistently wound triangle mesh.
 */
module Mesh {

  /** The `unsigned int` element type of the index array. */
  newtype uint32 = x: int | 0 <= x < 0x1_0000_0000

  /** Size in bytes of one index, as handed to the index buffer allocation. */
  const IndexSize: nat := 4

  /**
   * A vertex record. Its float position and colour are opaque here; `corner`
   * names which of the four hard-coded vertex literals it is (0 to 3, in the
   * order they are pushed).
   */
  datatype Vertex = Vertex(corner: nat)

  /** One triangle, as three consecutive entries of an index list. */
  datatype Face = Face(a: int, b: int, c: int)

  /** The four vertices pushed by the geometry builder, in order. */
  const TetraVertices: seq<Vertex> := [Vertex(0), Vertex(1), Vertex(2), Vertex(3)]

  /** The twelve indices pushed by the geometry builder, in order. */
  const TetraIndices: seq<uint32> := [0, 2, 1, 0, 1, 3, 3, 1, 2, 3, 2, 0]

  /** Groups an index list into its consecutive triples. */
  function Faces(ix: seq<uint32>): (fs: seq<Face>)
    requires |ix| % 3 == 0
    ensures 3 * |fs| == |ix|
    ensures forall t :: 0 <= t < |fs| ==>
              fs[t] == Face(ix[3 * t] as int, ix[3 * t + 1] as int, ix[3 * t + 2] as int)
    decreases |ix|
  {
    if ix == [] then []
    else [Face(ix[0] as int, ix[1] as int, ix[2] as int)] + Faces(ix[3..])
  }

  /** Every index names one of the `n` vertices. */
  predicate InRange(ix: seq<uint32>, n: nat) {
    forall i :: 0 <= i < |ix| ==> ix[i] as int < n
  }

  /** A face whose three corners are pairwise distinct. */
  predicate Proper(f: Face) {
    f.a != f.b && f.b != f.c && f.c != f.a
  }

  /** The index list splits into whole triangles, none of them degenerate. */
  predicate Nondegenerate(ix: seq<uint32>) {
    |ix| % 3 == 0 && forall f :: f in Faces(ix) ==> Proper(f)
  }

  /** Walking the face's corners in order traverses the directed edge u -> v. */
  predicate HasEdge(f: Face, u: int, v: int) {
    (f.a == u && f.b == v) || (f.b == u && f.c == v) || (f.c == u && f.a == v)
  }

  /** The number of faces of `fs` that traverse the directed edge u -> v. */
  function EdgeCount(fs: seq<Face>, u: int, v: int): (k: nat)
    ensures k <= |fs|
    ensures k == 0 <==> forall t :: 0 <= t < |fs| ==> !HasEdge(fs[t], u, v)
  {
    if fs == [] then 0
    else (if HasEdge(fs[0], u, v) then 1 else 0) + EdgeCount(fs[1..], u, v)
  }

  /**
   * Closed and consistently oriented over `n` vertices: every directed edge
   * between two distinct vertices is traversed by exactly one face. Then each
   * undirected edge borders exactly two faces, which traverse it in opposite
   * directions, so all faces wind the same way as seen from outside.
   */
  predicate ClosedOriented(fs: seq<Face>, n: nat) {
    forall u, v :: 0 <= u < n && 0 <= v < n && u != v ==> EdgeCount(fs, u, v) == 1
  }

  /** A valid mesh over `n` vertices: the three facts the renderer relies on. */
  predicate ValidMesh(ix: seq<uint32>, n: nat) {
    InRange(ix, n) && Nondegenerate(ix) && ClosedOriented(Faces(ix), n)
  }

  /** A non-degenerate face never traverses an edge in both directions. */
  lemma ProperFaceIsOneWay(f: Face, u: int, v: int)
    requires Proper(f)
    ensures !(HasEdge(f, u, v) && HasEdge(f, v, u))
  {
  }

  /** An edge counted once is traversed by some face, and that face is unique. */
  lemma {:induction false} EdgeCountOne(fs: seq<Face>, u: int, v: int)
    requires EdgeCount(fs, u, v) == 1
    ensures exists t :: 0 <= t < |fs| && HasEdge(fs[t], u, v)
    ensures forall t, t' :: 0 <= t < |fs| && 0 <= t' < |fs| && HasEdge(fs[t], u, v) && HasEdge(fs[t'], u, v) ==> t == t'
  {
    if HasEdge(fs[0], u, v) {
      assert EdgeCount(fs[1..], u, v) == 0;
      forall t | 1 <= t < |fs| ensures !HasEdge(fs[t], u, v) {
        assert fs[t] == fs[1..][t - 1];
      }
    } else {
      EdgeCountOne(fs[1..], u, v);
      var t :| 0 <= t < |fs[1..]| && HasEdge(fs[1..][t], u, v);
      assert HasEdge(fs[t + 1], u, v);
      forall t, t' | 0 <= t < |fs| && 0 <= t' < |fs| && HasEdge(fs[t], u, v) && HasEdge(fs[t'], u, v)
        ensures t == t'
      {
        assert t != 0 && t' != 0;
        assert fs[t] == fs[1..][t - 1] && fs[t'] == fs[1..][t' - 1];
      }
    }
  }

  /**
   * In a closed, consistently oriented mesh of proper faces, the edge u -> v
   * lies in exactly one face and its reverse v -> u in exactly one other.
   */
  lemma OppositeEdgesInDistinctFaces(ix: seq<uint32>, n: nat, u: int, v: int)
    requires ValidMesh(ix, n)
    requires 0 <= u < n && 0 <= v < n && u != v
    ensures exists t, t' :: 0 <= t < |Faces(ix)| && 0 <= t' < |Faces(ix)| && t != t' &&
              HasEdge(Faces(ix)[t], u, v) && HasEdge(Faces(ix)[t'], v, u)
  {
    var fs := Faces(ix);
    EdgeCountOne(fs, u, v);
    EdgeCountOne(fs, v, u);
    var t :| 0 <= t < |fs| && HasEdge(fs[t], u, v);
    var t' :| 0 <= t' < |fs| && HasEdge(fs[t'], v, u);
    assert fs[t] in fs;
    ProperFaceIsOneWay(fs[t], u, v);
  }

  /** The builder's index list, read as faces. */
  lemma TetraFaces()
    ensures Faces(TetraIndices) == [Face(0, 2, 1), Face(0, 1, 3), Face(3, 1, 2), Face(3, 2, 0)]
  {
  }

  /** Every index of the builder's list names one of its four vertices. */
  lemma TetraInRange()
    ensures InRange(TetraIndices, 4)
  {
  }

  /** The builder's four triangles each have three distinct corners. */
  lemma TetraNondegenerate()
    ensures Nondegenerate(TetraIndices)
  {
    TetraFaces();
  }

  /** Every directed edge among the four vertices is traversed exactly once. */
  lemma TetraClosedOriented()
    ensures ClosedOriented(Faces(TetraIndices), 4)
  {
    TetraFaces();
    var fs := [Face(0, 2, 1), Face(0, 1, 3), Face(3, 1, 2), Face(3, 2, 0)];
    forall u, v | 0 <= u < 4 && 0 <= v < 4 && u != v
      ensures EdgeCount(fs, u, v) == 1
    {
      assert EdgeCount(fs[3..], u, v) == if HasEdge(fs[3], u, v) then 1 else 0;
      assert EdgeCount(fs[2..], u, v) == (if HasEdge(fs[2], u, v) then 1 else 0) + EdgeCount(fs[3..], u, v);
      assert EdgeCount(fs[1..], u, v) == (if HasEdge(fs[1], u, v) then 1 else 0) + EdgeCount(fs[2..], u, v);
    }
  }

  /**
   * The builder's geometry is a valid mesh over its four vertices: twelve
   * indices, each below 4, in four proper triangles, every directed edge
   * traversed by exactly one of them.
   */
  lemma TetraMeshValid()
    ensures |TetraVertices| == 4 && |TetraIndices| == 12
    ensures ValidMesh(TetraIndices, |TetraVertices|)
  {
    TetraInRange();
    TetraNondegenerate();
    TetraClosedOriented();
  }
}
