/**
 * The mesh builders of the simple demo, makeCylinder and makeBall. Each one
 * fills a position array, a colour array and a triangle index array through a
 * cursor `a` that is advanced before every write (`array[++a] = v`), and then
 * wraps the three arrays in a shape. Java's exceptions for a bad resolution
 * are the Failure side of a Result.
 */
module Simple {
  import opened Wrappers
  import opened Scene
  import Render

  /** The Java exceptions the builders raise for a resolution below 2. */
  datatype JavaException = NegativeArraySize | ArrayIndexOutOfBounds

  /**
   * A float the builders store. The colour components are literals; the
   * positions computed with Math.cos and Math.sin stay symbolic, named by
   * what they are computed from.
   */
  datatype Float =
    | Lit(value: int)
    | CylinderX(ring: int)    // scale * cos(ring * angle) + x
    | CylinderY(ring: int)    // scale * sin(ring * angle) + y
    | CylinderZ(top: bool)    // scale + z on the top ring, -1 * scale + z on the bottom ring
    | BallX(v: int)           // cos(v * phi) * sin(v * theta)
    | BallY(v: int)           // sin(v * phi) * sin(v * theta)
    | BallZ(v: int)           // cos(v * theta)

  // ---------------------------------------------------------------------------
  // Triangle lists and the index arrays they are written to
  // ---------------------------------------------------------------------------

  /** Three vertex indices, in the (winding) order they are written. */
  datatype Triangle = Triangle(p: int, q: int, s: int)
  {
    function Corners(): (cs: seq<int>)
    {
      [p, q, s]
    }

    predicate Within(lo: int, hi: int)
    {
      lo <= p < hi && lo <= q < hi && lo <= s < hi
    }

    /** Two corners name the same vertex: the triangle has no area. */
    predicate Degenerate()
    {
      p == q || q == s || s == p
    }
  }

  /** The index array of a triangle list: three entries per triangle, in list order. */
  function IndexList(ts: seq<Triangle>): (idx: seq<int>)
  {
    if ts == [] then [] else IndexList(ts[..|ts| - 1]) + ts[|ts| - 1].Corners()
  }

  lemma IndexListSnoc(ts: seq<Triangle>, t: Triangle)
    ensures IndexList(ts + [t]) == IndexList(ts) + t.Corners()
  {
    assert (ts + [t])[..|ts|] == ts;
  }

  /** Every triangle takes three slots. */
  lemma {:induction false} IndexListLength(ts: seq<Triangle>)
    ensures |IndexList(ts)| == 3 * |ts|
    decreases |ts|
  {
    if ts != [] {
      IndexListLength(ts[..|ts| - 1]);
    }
  }

  lemma {:induction false} IndexListAppend(a: seq<Triangle>, b: seq<Triangle>)
    ensures IndexList(a + b) == IndexList(a) + IndexList(b)
    decreases |b|
  {
    if b == [] {
      assert a + b == a;
    } else {
      var init := b[..|b| - 1];
      assert (a + b)[..|a + b| - 1] == a + init;
      IndexListAppend(a, init);
    }
  }

  /** Corner c of triangle j sits in slot 3j + c. */
  lemma {:induction false} IndexListAt(ts: seq<Triangle>, j: int, c: int)
    requires 0 <= j < |ts| && 0 <= c < 3
    ensures 3 * j + c < |IndexList(ts)| && IndexList(ts)[3 * j + c] == ts[j].Corners()[c]
    decreases |ts|
  {
    var init := ts[..|ts| - 1];
    IndexListLength(init);
    IndexListLength(ts);
    if j < |ts| - 1 {
      IndexListAt(init, j, c);
    }
  }

  /** Triangle j occupies slots 3j .. 3j + 2. */
  lemma IndexListSlice(ts: seq<Triangle>, j: int)
    requires 0 <= j < |ts|
    ensures 3 * j + 3 <= |IndexList(ts)| && IndexList(ts)[3 * j .. 3 * j + 3] == ts[j].Corners()
  {
    IndexListAt(ts, j, 0);
    IndexListAt(ts, j, 1);
    IndexListAt(ts, j, 2);
  }

  /** Two neighbouring triangles occupy six neighbouring slots. */
  lemma IndexListPair(ts: seq<Triangle>, j: int, at: int)
    requires 0 <= j && j + 1 < |ts| && at == 3 * j
    ensures at + 6 <= |IndexList(ts)|
    ensures IndexList(ts)[at .. at + 6] == [ts[j].p, ts[j].q, ts[j].s, ts[j + 1].p, ts[j + 1].q, ts[j + 1].s]
  {
    var all := IndexList(ts);
    IndexListSlice(ts, j);
    IndexListSlice(ts, j + 1);
    assert all[3 * j .. 3 * j + 6] == all[3 * j .. 3 * j + 3] + all[3 * j + 3 .. 3 * j + 6];
  }

  /** If every triangle stays within [lo, hi), so does every entry of the index array. */
  lemma {:induction false} IndexListWithin(ts: seq<Triangle>, lo: int, hi: int)
    requires forall j :: 0 <= j < |ts| ==> ts[j].Within(lo, hi)
    ensures forall k :: 0 <= k < |IndexList(ts)| ==> lo <= IndexList(ts)[k] < hi
    decreases |ts|
  {
    if ts != [] {
      IndexListWithin(ts[..|ts| - 1], lo, hi);
    }
  }

  /** The slots 0, 1, ..., n - 1, in order. */
  function Slots(n: nat): (slots: seq<int>)
  {
    seq(n, k => k)
  }

  // ---------------------------------------------------------------------------
  // The cylinder's triangles
  // ---------------------------------------------------------------------------

  /** The top fan: (0, i + 1, i + 2) for each i < r - 2 (none when r < 2). */
  function TopFan(r: int): (fan: seq<Triangle>)
  {
    seq(if r >= 2 then r - 2 else 0, i => Triangle(0, i + 1, i + 2))
  }

  /**
   * The bottom fan: (r, i + 2, i + 1) for each r <= i < 2r - 2, written here
   * with k = i - r. It is centred on vertex r and wound the other way round.
   */
  function BottomFan(r: int): (fan: seq<Triangle>)
  {
    seq(if r >= 2 then r - 2 else 0, k => Triangle(r, r + k + 2, r + k + 1))
  }

  /**
   * Side triangle k: for quad i = k / 2, between top vertices i, i + 1 and
   * bottom vertices r + i, r + i + 1, either (i, r + i, r + i + 1) or
   * (i, r + i + 1, i + 1). The source writes the last corner as
   * (i + 1) % r, which is i + 1 for every i the loop reaches.
   */
  function SideTriangle(r: int, k: int): (t: Triangle)
  {
    var i := k / 2;
    if k % 2 == 0 then Triangle(i, r + i, r + i + 1) else Triangle(i, r + i + 1, i + 1)
  }

  /** A value already below the modulus is its own remainder. */
  lemma ModBelow(x: int, m: int)
    requires 0 <= x < m
    ensures x % m == x
  {
  }

  /** The sides: two triangles for each i < r - 1. */
  function Sides(r: int): (ts: seq<Triangle>)
    requires r >= 1
  {
    seq(2 * (r - 1), k => SideTriangle(r, k))
  }

  /** Quad i < r - 1 of the sides. */
  lemma SidePair(r: int, i: int)
    requires r >= 1 && 0 <= i < r - 1
    ensures 2 * i + 2 <= |Sides(r)|
    ensures Sides(r)[2 * i] == Triangle(i, r + i, r + i + 1)
    ensures Sides(r)[2 * i + 1] == Triangle(i, r + i + 1, i + 1)
  {
    assert SideTriangle(r, 2 * i) == Triangle(i, r + i, r + i + 1);
    assert SideTriangle(r, 2 * i + 1) == Triangle(i, r + i + 1, i + 1);
  }

  /** The first i + 1 quads are the first i quads followed by quad i. */
  lemma SidesPrefixPair(r: int, i: int)
    requires r >= 1 && 0 <= i < r - 1
    ensures 2 * i + 2 <= |Sides(r)|
    ensures Sides(r)[..2 * i + 2] == Sides(r)[..2 * i] + [Triangle(i, r + i, r + i + 1)] + [Triangle(i, r + i + 1, i + 1)]
  {
    SidePair(r, i);
  }

  /** The "correction for last side": the quad between top vertices r - 1, 0 and bottom vertices 2r - 1, r. */
  function Seam(r: int): (ts: seq<Triangle>)
  {
    [Triangle(r - 1, 2 * r - 1, r), Triangle(r - 1, r, 0)]
  }

  /** All triangles of the cylinder, in the order makeCylinder writes them. */
  function CylinderTriangles(r: int): (ts: seq<Triangle>)
    requires r >= 1
  {
    TopFan(r) + BottomFan(r) + Sides(r) + Seam(r)
  }

  /** The index array makeCylinder (and makeBall) builds. */
  function CylinderIndices(r: int): (idx: seq<int>)
    requires r >= 1
  {
    IndexList(CylinderTriangles(r))
  }

  /** Triangle t of the top ring moved onto the bottom ring (vertex v to v + r), its winding reversed. */
  function Mirror(t: Triangle, r: int): (m: Triangle)
  {
    Triangle(t.p + r, t.s + r, t.q + r)
  }

  /**
   * The side wall as one uniform ring of r quads: quad i joins top vertices
   * i, (i + 1) % r with bottom vertices r + i, r + (i + 1) % r.
   */
  function Ring(r: int): (ts: seq<Triangle>)
    requires r >= 1
  {
    seq(2 * r, k =>
      var i := k / 2;
      var j := (i + 1) % r;
      if k % 2 == 0 then Triangle(i, r + i, r + j) else Triangle(i, r + j, j))
  }

  /** The index array has 2·3·(r - 2) entries for the fans and 6r for the sides: 12r - 12. */
  lemma CylinderIndicesLength(r: int)
    requires r >= 2
    ensures |CylinderIndices(r)| == 12 * r - 12
  {
    IndexListLength(CylinderTriangles(r));
  }

  /** The four groups follow one another in the index array: top fan, bottom fan, sides, seam. */
  lemma CylinderIndicesLayout(r: int)
    requires r >= 2
    ensures CylinderIndices(r)
      == IndexList(TopFan(r)) + IndexList(BottomFan(r)) + IndexList(Sides(r)) + IndexList(Seam(r))
  {
    IndexListAppend(TopFan(r), BottomFan(r));
    IndexListAppend(TopFan(r) + BottomFan(r), Sides(r));
    IndexListAppend(TopFan(r) + BottomFan(r) + Sides(r), Seam(r));
  }

  /** Slots 3i .. 3i + 2 hold the top-fan triangle (0, i + 1, i + 2), for i < r - 2. */
  lemma TopFanSlots(r: int, i: int)
    requires r >= 2 && 0 <= i < r - 2
    ensures 3 * i + 3 <= |CylinderIndices(r)|
    ensures CylinderIndices(r)[3 * i .. 3 * i + 3] == [0, i + 1, i + 2]
  {
    var ts := CylinderTriangles(r);
    assert ts[i] == Triangle(0, i + 1, i + 2);
    IndexListSlice(ts, i);
  }

  /**
   * For the bottom loop's r <= i < 2r - 2, slots 3(i - 2) .. 3(i - 2) + 2
   * (right after the 3(r - 2) slots of the top fan) hold (r, i + 2, i + 1).
   */
  lemma BottomFanSlots(r: int, i: int)
    requires r >= 2 && r <= i < 2 * r - 2
    ensures 3 * (i - 2) + 3 <= |CylinderIndices(r)|
    ensures CylinderIndices(r)[3 * (i - 2) .. 3 * (i - 2) + 3] == [r, i + 2, i + 1]
  {
    var ts := CylinderTriangles(r);
    assert ts[i - 2] == BottomFan(r)[i - r] == Triangle(r, i + 2, i + 1);
    IndexListSlice(ts, i - 2);
  }

  /** Side triangle k sits after the 2(r - 2) fan triangles. */
  lemma CylinderTrianglesSide(r: int, k: int)
    requires r >= 2 && 0 <= k < |Sides(r)|
    ensures 2 * (r - 2) + k < |CylinderTriangles(r)|
    ensures CylinderTriangles(r)[2 * (r - 2) + k] == Sides(r)[k]
  {
    var fans := TopFan(r) + BottomFan(r);
    assert |fans| == 2 * (r - 2);
    assert CylinderTriangles(r) == fans + (Sides(r) + Seam(r));
  }

  /** Quad i < r - 1 of the sides, as triangles 2(r - 2) + 2i and 2(r - 2) + 2i + 1 of the whole cylinder. */
  lemma CylinderQuad(r: int, i: int)
    requires r >= 2 && 0 <= i < r - 1
    ensures 2 * (r - 2) + 2 * i + 1 < |CylinderTriangles(r)|
    ensures CylinderTriangles(r)[2 * (r - 2) + 2 * i] == Triangle(i, r + i, r + i + 1)
    ensures CylinderTriangles(r)[2 * (r - 2) + 2 * i + 1] == Triangle(i, r + i + 1, i + 1)
  {
    SidePair(r, i);
    CylinderTrianglesSide(r, 2 * i);
    CylinderTrianglesSide(r, 2 * i + 1);
  }

  /**
   * For i < r - 1, the six slots after the fans and the first i quads hold
   * (i, r + i, r + i + 1) and (i, r + i + 1, i + 1): the modulo in the source
   * never wraps inside this loop.
   */
  lemma SideSlots(r: int, i: int)
    requires r >= 2 && 0 <= i < r - 1
    ensures 6 * (r - 2) + 6 * i + 6 <= |CylinderIndices(r)|
    ensures CylinderIndices(r)[6 * (r - 2) + 6 * i .. 6 * (r - 2) + 6 * i + 6]
      == [i, r + i, r + i + 1, i, r + i + 1, i + 1]
  {
    CylinderQuad(r, i);
    IndexListPair(CylinderTriangles(r), 2 * (r - 2) + 2 * i, 6 * (r - 2) + 6 * i);
  }

  /** The last six slots close the seam: (r - 1, 2r - 1, r) and (r - 1, r, 0). */
  lemma SeamSlots(r: int)
    requires r >= 2
    ensures |CylinderIndices(r)| == 12 * r - 12
    ensures CylinderIndices(r)[12 * r - 18 ..] == [r - 1, 2 * r - 1, r, r - 1, r, 0]
  {
    var ts := CylinderTriangles(r);
    var j := 4 * r - 6;
    CylinderIndicesLength(r);
    assert ts[j] == Triangle(r - 1, 2 * r - 1, r);
    assert ts[j + 1] == Triangle(r - 1, r, 0);
    IndexListPair(ts, j, 12 * r - 18);
  }

  /** The top fan uses only top-ring vertices [0, r), the bottom fan only bottom-ring vertices [r, 2r). */
  lemma FansStayOnTheirRing(r: int)
    requires r >= 2
    ensures forall j :: 0 <= j < |TopFan(r)| ==> TopFan(r)[j].Within(0, r)
    ensures forall j :: 0 <= j < |BottomFan(r)| ==> BottomFan(r)[j].Within(r, 2 * r)
  {
  }

  /** The bottom fan is the top fan moved down by r with its winding reversed. */
  lemma BottomFanMirrorsTop(r: int)
    ensures |BottomFan(r)| == |TopFan(r)|
    ensures forall k :: 0 <= k < |TopFan(r)| ==> BottomFan(r)[k] == Mirror(TopFan(r)[k], r)
  {
  }

  /** The sides loop and the seam correction together build exactly the uniform ring of r quads. */
  lemma SidesCloseRing(r: int)
    requires r >= 2
    ensures Sides(r) + Seam(r) == Ring(r)
  {
    var lhs, rhs := Sides(r) + Seam(r), Ring(r);
    forall k | 0 <= k < 2 * r
      ensures lhs[k] == rhs[k]
    {
      var i := k / 2;
      if k < 2 * (r - 1) {
        assert i < r - 1;
        assert (i + 1) % r == i + 1;
      } else {
        assert i == r - 1;
        assert (i + 1) % r == 0;
      }
    }
  }

  /** Every entry of the index array names one of the 2r vertices of the position array. */
  lemma CylinderIndicesInRange(r: int)
    requires r >= 2
    ensures forall k :: 0 <= k < |CylinderIndices(r)| ==> 0 <= CylinderIndices(r)[k] < 2 * r
  {
    var ts := CylinderTriangles(r);
    forall j | 0 <= j < |ts|
      ensures ts[j].Within(0, 2 * r)
    {
      if j >= 2 * (r - 2) && j < 2 * (r - 2) + 2 * (r - 1) {
        var k := j - 2 * (r - 2);
        assert k / 2 < r - 1;
      }
    }
    IndexListWithin(ts, 0, 2 * r);
  }

  /** For r >= 2 no triangle has two equal corners. */
  lemma NoDegenerateTriangles(r: int)
    requires r >= 2
    ensures forall j :: 0 <= j < |CylinderTriangles(r)| ==> !CylinderTriangles(r)[j].Degenerate()
  {
    var ts := CylinderTriangles(r);
    forall j | 0 <= j < |ts|
      ensures !ts[j].Degenerate()
    {
      if j >= 2 * (r - 2) && j < 2 * (r - 2) + 2 * (r - 1) {
        var k := j - 2 * (r - 2);
        assert k / 2 < r - 1;
      }
    }
  }

  // ---------------------------------------------------------------------------
  // Colours and positions
  // ---------------------------------------------------------------------------

  /** Float k of the colour array: each group of six is (1, 1, 1) then (0, 0, 0). */
  function ColorValue(k: int): (v: Float)
  {
    if k % 6 < 3 then Lit(1) else Lit(0)
  }

  /** The colour array: 6r floats, that is 2r vertices of 3 components. */
  function Colors(r: int): (cs: seq<Float>)
    requires r >= 0
  {
    seq(6 * r, ColorValue)
  }

  /** Vertex v is white (1, 1, 1) when v is even and black (0, 0, 0) when v is odd. */
  lemma VertexColor(r: int, v: int)
    requires 0 <= v < 2 * r
    ensures 3 * v + 3 <= |Colors(r)|
    ensures Colors(r)[3 * v .. 3 * v + 3]
      == if v % 2 == 0 then [Lit(1), Lit(1), Lit(1)] else [Lit(0), Lit(0), Lit(0)]
  {
    var m := v / 2;
    assert 3 * v == 6 * m + 3 * (v % 2);
    assert (3 * v) % 6 == 3 * (v % 2);
    assert (3 * v + 1) % 6 == 3 * (v % 2) + 1;
    assert (3 * v + 2) % 6 == 3 * (v % 2) + 2;
  }

  /**
   * Float k of the cylinder's position array: coordinate k % 3 of vertex k / 3.
   * Vertex i < r is point i of the top ring, vertex r + i point i of the bottom ring.
   */
  function CylinderPosition(r: int, k: int): (v: Float)
  {
    var v, c := k / 3, k % 3;
    var ring := if v < r then v else v - r;
    if c == 0 then CylinderX(ring) else if c == 1 then CylinderY(ring) else CylinderZ(v < r)
  }

  /** The cylinder's position array: 6r floats. */
  function CylinderPositions(r: int): (ps: seq<Float>)
    requires r >= 0
  {
    seq(6 * r, k => CylinderPosition(r, k))
  }

  /** Bottom vertex r + i lies straight below top vertex i: same x and y, the bottom z instead of the top one. */
  lemma BottomBelowTop(r: int, i: int)
    requires 0 <= i < r
    ensures 3 * (r + i) + 3 <= |CylinderPositions(r)|
    ensures CylinderPositions(r)[3 * (r + i)] == CylinderPositions(r)[3 * i] == CylinderX(i)
    ensures CylinderPositions(r)[3 * (r + i) + 1] == CylinderPositions(r)[3 * i + 1] == CylinderY(i)
    ensures CylinderPositions(r)[3 * i + 2] == CylinderZ(true)
    ensures CylinderPositions(r)[3 * (r + i) + 2] == CylinderZ(false)
  {
    var top, bottom := 3 * i, 3 * (r + i);
    assert top / 3 == i && (top + 1) / 3 == i && (top + 2) / 3 == i;
    assert bottom / 3 == r + i && (bottom + 1) / 3 == r + i && (bottom + 2) / 3 == r + i;
  }

  /** The length makeBall gives its position array: 2(r - 2)·3r + 3r + 6 floats, never empty. */
  function BallFloats(r: int): (n: int)
    ensures n > 0 && n % 3 == 0
  {
    BallFloatsFactor(r);
    2 * (r - 2) * 3 * r + 3 * r + 6
  }

  lemma BallFloatsFactor(r: int)
    ensures 2 * (r - 2) * 3 * r + 3 * r + 6 == 3 * (2 * r * r - 3 * r + 2)
    ensures 2 * r * r - 3 * r + 2 > 0
  {
    if r >= 2 {
      assert r * r >= 2 * r;
    } else if r <= 0 {
      assert r * r >= 0;
    }
  }

  /** Float k of the ball's position array: coordinate k % 3 of vertex k / 3. */
  function BallPosition(k: int): (v: Float)
  {
    var v, c := k / 3, k % 3;
    if c == 0 then BallX(v) else if c == 1 then BallY(v) else BallZ(v)
  }

  function BallPositions(r: int): (ps: seq<Float>)
  {
    seq(BallFloats(r), BallPosition)
  }

  /**
   * From r = 2 on the ball has at least as many vertices as the 2r its index
   * array and colour array cover, and from r = 3 on strictly more: its colour
   * stream is shorter than its position stream.
   */
  lemma BallVerticesCoverIndices(r: int)
    requires r >= 2
    ensures BallFloats(r) / 3 >= 2 * r
    ensures r >= 3 ==> BallFloats(r) / 3 > 2 * r == |Colors(r)| / 3
  {
    BallFloatsFactor(r);
    assert 2 * r * r - 5 * r + 2 == (2 * r - 1) * (r - 2);
    assert (2 * r - 1) * (r - 2) >= 0;
    if r >= 3 {
      assert (2 * r - 1) * (r - 2) > 0;
    }
  }

  // ---------------------------------------------------------------------------
  // The shapes and their drawability
  // ---------------------------------------------------------------------------

  function ColorElement(r: int): (e: VertexElement<Float>)
    requires r >= 0
  {
    VertexElement(Color, 3, Colors(r))
  }

  /** The shape makeCylinder returns: 2r vertices, positions then colours, and the index array. */
  function CylinderShape(r: int): (shape: Shape<Float>)
    requires r >= 2
  {
    Shape(VertexData(2 * r, [VertexElement(Position, 3, CylinderPositions(r)), ColorElement(r)], Some(CylinderIndices(r))))
  }

  /** The shape makeBall returns: the ball's positions, the cylinder's colours and the cylinder's indices. */
  function BallShape(r: int): (shape: Shape<Float>)
    requires r >= 2
  {
    Shape(VertexData(BallFloats(r) / 3, [VertexElement(Position, 3, BallPositions(r)), ColorElement(r)], Some(CylinderIndices(r))))
  }

  /** Every stream of the cylinder holds exactly its 2r vertices: 6r position floats and 6r colour floats. */
  lemma CylinderStreamsMatchVertexCount(r: int)
    requires r >= 2
    ensures CylinderShape(r).vertexData.StreamsMatchVertexCount()
  {
  }

  /**
   * The ball keeps the stream invariant only at r = 2. For larger r its
   * position stream has (6r² - 9r + 6) / 3 vertices while the colour stream,
   * sized 6r as for the cylinder, covers only 2r of them.
   */
  lemma BallStreamsMatchVertexCountIffTwo(r: int)
    requires r >= 2
    ensures BallShape(r).vertexData.StreamsMatchVertexCount() <==> r == 2
    ensures r >= 3 ==> |ColorElement(r).data| < BallShape(r).vertexData.vertexCount * 3
  {
    var vd := BallShape(r).vertexData;
    if r == 2 {
      assert BallFloats(2) == 12;
    } else {
      BallVerticesCoverIndices(r);
      assert vd.elements[1] == ColorElement(r);
    }
  }

  /** At r = 3 the ball has 11 vertices (33 position floats) but only 18 colour floats, enough for 6. */
  lemma BallColorStreamShortAtThree()
    ensures BallShape(3).vertexData.vertexCount == 11
    ensures |BallShape(3).vertexData.elements[0].data| == 33
    ensures |BallShape(3).vertexData.elements[1].data| == 18
    ensures !BallShape(3).vertexData.StreamsMatchVertexCount()
  {
    assert BallFloats(3) == 33;
    assert BallShape(3).vertexData.elements[1].data == Colors(3);
  }

  /** A three-component element holding at least 3m floats can be read at every vertex below m. */
  lemma ThreeComponentReadable(e: VertexElement<Float>, m: int, i: int)
    requires e.components == 3 && |e.data| >= 3 * m && 0 <= i < m
    ensures Render.Readable(e, i)
  {
    Render.BlocksIsProduct(i, 3);
  }

  /** Render context draw never reads past the cylinder's arrays. */
  lemma CylinderShapeDrawable(r: int)
    requires r >= 2
    ensures Render.ShapeDrawable(CylinderShape(r))
  {
    var vd := CylinderShape(r).vertexData;
    var indices := CylinderIndices(r);
    CylinderIndicesInRange(r);
    forall k | 0 <= k < |indices|
      ensures Render.AllReadable(vd.elements, indices[k])
    {
      ThreeComponentReadable(vd.elements[0], 2 * r, indices[k]);
      ThreeComponentReadable(vd.elements[1], 2 * r, indices[k]);
    }
  }

  /** Nor past the ball's: its indices stay below 2r, the vertices its colours cover. */
  lemma BallShapeDrawable(r: int)
    requires r >= 2
    ensures Render.ShapeDrawable(BallShape(r))
  {
    var vd := BallShape(r).vertexData;
    var indices := CylinderIndices(r);
    CylinderIndicesInRange(r);
    BallVerticesCoverIndices(r);
    forall k | 0 <= k < |indices|
      ensures Render.AllReadable(vd.elements, indices[k])
    {
      ThreeComponentReadable(vd.elements[0], 2 * r, indices[k]);
      ThreeComponentReadable(vd.elements[1], 2 * r, indices[k]);
    }
  }

  /** As drawn, vertex i gets glColor3f(1, 1, 1) when i is even and glColor3f(0, 0, 0) when i is odd. */
  lemma DrawnVertexColor(r: int, i: int)
    requires 0 <= i < 2 * r
    ensures Render.Readable(ColorElement(r), i)
    ensures var w := if i % 2 == 0 then Lit(1) else Lit(0);
      Render.Emit(ColorElement(r), i) == Some(Render.Color3(w, w, w))
  {
    ThreeComponentReadable(ColorElement(r), 2 * r, i);
    Render.BlocksIsProduct(i, 3);
    VertexColor(r, i);
  }

  // ---------------------------------------------------------------------------
  // The builders
  // ---------------------------------------------------------------------------

  /**
   * The cursor state of the index loops: slots 0 .. a hold the triangles
   * `done`, and `written` lists the slots written so far, in order.
   */
  ghost predicate Filled(indices: array<int>, a: int, done: seq<Triangle>, written: seq<int>)
    reads indices
  {
    a == 3 * |done| - 1 && a < indices.Length && indices[..a + 1] == IndexList(done) && written == Slots(a + 1)
  }

  /** Three `indices[++a] = v` steps: t's corners go to slots a + 1, a + 2, a + 3. */
  method PutTriangle(indices: array<int>, a: int, t: Triangle, ghost done: seq<Triangle>, ghost written: seq<int>)
    returns (next: int, ghost written': seq<int>)
    requires Filled(indices, a, done, written) && a + 3 < indices.Length
    modifies indices
    ensures next == a + 3 && Filled(indices, next, done + [t], written')
  {
    next := a + 1;
    indices[next] := t.p;
    next := next + 1;
    indices[next] := t.q;
    next := next + 1;
    indices[next] := t.s;
    written' := written + [a + 1, a + 2, a + 3];
    IndexListSnoc(done, t);
    assert indices[..next + 1] == old(indices[..a + 1]) + t.Corners();
    assert Slots(next + 1) == Slots(a + 1) + [a + 1, a + 2, a + 3];
  }

  /**
   * The index array of makeCylinder and makeBall. new int[12r - 12] fails for
   * r < 1; for r = 1 the array is empty and the first seam write overflows
   * it. Otherwise the cursor writes every slot exactly once, in order
   * (`written` lists the slots written), and the array is CylinderIndices(r).
   */
  method IndexArray(r: int) returns (res: Result<array<int>, JavaException>, ghost written: seq<int>)
    ensures r < 1 ==> res == Failure(NegativeArraySize)
    ensures r == 1 ==> res == Failure(ArrayIndexOutOfBounds)
    ensures r >= 2 ==> res.Success? && res.value[..] == CylinderIndices(r) && written == Slots(12 * r - 12)
  {
    written := [];
    if 12 * r - 12 < 0 {
      return Failure(NegativeArraySize), written;
    }
    var indices := new int[12 * r - 12];
    var a := -1;
    ghost var done: seq<Triangle> := [];
    a, done, written := FillTopFan(indices, r, a, done, written);
    a, done, written := FillBottomFan(indices, r, a, done, written);
    a, done, written := FillSides(indices, r, a, done, written);
    // correction for last side
    if indices.Length < a + 7 {
      return Failure(ArrayIndexOutOfBounds), written;
    }
    a, done, written := CloseSeam(indices, r, a, done, written);
    assert indices[..] == indices[..a + 1];
    return Success(indices), written;
  }

  /** The top loop: (0, i + 1, i + 2) for i < r - 2. */
  method FillTopFan(indices: array<int>, r: int, a: int, ghost done: seq<Triangle>, ghost written: seq<int>)
    returns (a': int, ghost done': seq<Triangle>, ghost written': seq<int>)
    requires r >= 1 && indices.Length == 12 * r - 12
    requires a == -1 && done == [] && Filled(indices, a, done, written)
    modifies indices
    ensures Filled(indices, a', done', written') && done' == TopFan(r)
  {
    a', done', written' := a, done, written;
    var i := 0;
    while i < r - 2
      invariant 0 <= i <= |TopFan(r)| && done' == TopFan(r)[..i]
      invariant Filled(indices, a', done', written')
    {
      var t := Triangle(0, i + 1, i + 2);
      assert TopFan(r)[..i + 1] == done' + [t];
      a', written' := PutTriangle(indices, a', t, done', written');
      done' := done' + [t];
      i := i + 1;
    }
  }

  /** The bottom loop: (r, i + 2, i + 1) for r <= i < 2r - 2. */
  method FillBottomFan(indices: array<int>, r: int, a: int, ghost done: seq<Triangle>, ghost written: seq<int>)
    returns (a': int, ghost done': seq<Triangle>, ghost written': seq<int>)
    requires r >= 1 && indices.Length == 12 * r - 12
    requires Filled(indices, a, done, written) && done == TopFan(r)
    modifies indices
    ensures Filled(indices, a', done', written') && done' == TopFan(r) + BottomFan(r)
  {
    a', done', written' := a, done, written;
    var i := r;
    while i < 2 * r - 2
      invariant r <= i && i - r <= |BottomFan(r)| && done' == TopFan(r) + BottomFan(r)[..i - r]
      invariant Filled(indices, a', done', written')
    {
      var t := Triangle(r, i + 2, i + 1);
      assert BottomFan(r)[..i - r + 1] == BottomFan(r)[..i - r] + [t];
      a', written' := PutTriangle(indices, a', t, done', written');
      Render.AppendAssociates(TopFan(r), BottomFan(r)[..i - r], [t]);
      done' := done' + [t];
      i := i + 1;
    }
    assert BottomFan(r)[..i - r] == BottomFan(r);
  }

  /** One pass of the sides loop: triangles (i, r + i, r + i + 1) and (i, r + i + 1, (i + 1) % r). */
  method FillSideQuad(indices: array<int>, r: int, i: int, a: int, ghost done: seq<Triangle>, ghost written: seq<int>)
    returns (a': int, ghost done': seq<Triangle>, ghost written': seq<int>)
    requires r >= 1 && 0 <= i < r - 1 && indices.Length == 12 * r - 12
    requires Filled(indices, a, done, written) && done == (TopFan(r) + BottomFan(r)) + Sides(r)[..2 * i]
    modifies indices
    ensures Filled(indices, a', done', written') && done' == (TopFan(r) + BottomFan(r)) + Sides(r)[..2 * i + 2]
  {
    var t1 := Triangle(i, r + i, r + i + 1);
    var t2 := Triangle(i, r + i + 1, (i + 1) % r);
    SidesPrefixPair(r, i);
    ModBelow(i + 1, r);
    a', written' := PutTriangle(indices, a, t1, done, written);
    a', written' := PutTriangle(indices, a', t2, done + [t1], written');
    Render.AppendAssociates(TopFan(r) + BottomFan(r), Sides(r)[..2 * i], [t1]);
    Render.AppendAssociates(TopFan(r) + BottomFan(r), Sides(r)[..2 * i] + [t1], [t2]);
    done' := done + [t1] + [t2];
  }

  /** The sides loop: (i, r + i, r + i + 1) and (i, r + i + 1, (i + 1) % r) for i < r - 1. */
  method FillSides(indices: array<int>, r: int, a: int, ghost done: seq<Triangle>, ghost written: seq<int>)
    returns (a': int, ghost done': seq<Triangle>, ghost written': seq<int>)
    requires r >= 1 && indices.Length == 12 * r - 12
    requires Filled(indices, a, done, written) && done == TopFan(r) + BottomFan(r)
    modifies indices
    ensures Filled(indices, a', done', written') && done' == TopFan(r) + BottomFan(r) + Sides(r)
  {
    a', done', written' := a, done, written;
    var i := 0;
    while i < r - 1
      invariant 0 <= i <= r - 1 && done' == (TopFan(r) + BottomFan(r)) + Sides(r)[..2 * i]
      invariant Filled(indices, a', done', written')
    {
      a', done', written' := FillSideQuad(indices, r, i, a', done', written');
      i := i + 1;
    }
    assert Sides(r)[..2 * i] == Sides(r);
  }

  /** The correction for the last side: (r - 1, 2r - 1, r) and (r - 1, r, 0), in the last six slots. */
  method CloseSeam(indices: array<int>, r: int, a: int, ghost done: seq<Triangle>, ghost written: seq<int>)
    returns (a': int, ghost done': seq<Triangle>, ghost written': seq<int>)
    requires r >= 1 && a + 6 < indices.Length
    requires Filled(indices, a, done, written) && done == TopFan(r) + BottomFan(r) + Sides(r)
    modifies indices
    ensures Filled(indices, a', done', written') && done' == CylinderTriangles(r)
  {
    var t1, t2 := Triangle(r - 1, 2 * r - 1, r), Triangle(r - 1, r, 0);
    a', written' := PutTriangle(indices, a, t1, done, written);
    a', written' := PutTriangle(indices, a', t2, done + [t1], written');
    done' := done + [t1] + [t2];
  }

  /** The colour array: new float[6r] fails for r < 0; otherwise it alternates white and black vertices. */
  method ColorArray(r: int) returns (res: Result<array<Float>, JavaException>)
    ensures r < 0 ==> res == Failure(NegativeArraySize)
    ensures r >= 0 ==> res.Success? && res.value[..] == Colors(r)
  {
    if 6 * r < 0 {
      return Failure(NegativeArraySize);
    }
    var c := new Float[6 * r];
    var a := -1;
    for i := 0 to r
      invariant a == 6 * i - 1
      invariant forall k :: 0 <= k <= a ==> c[k] == ColorValue(k)
    {
      a := a + 1;
      c[a] := Lit(1);
      a := a + 1;
      c[a] := Lit(1);
      a := a + 1;
      c[a] := Lit(1);
      a := a + 1;
      c[a] := Lit(0);
      a := a + 1;
      c[a] := Lit(0);
      a := a + 1;
      c[a] := Lit(0);
    }
    return Success(c);
  }

  /** The cylinder's position array: new float[6r] fails for r < 0; the top ring, then the bottom ring. */
  method CylinderPositionArray(r: int) returns (res: Result<array<Float>, JavaException>)
    ensures r < 0 ==> res == Failure(NegativeArraySize)
    ensures r >= 0 ==> res.Success? && res.value[..] == CylinderPositions(r)
  {
    if 6 * r < 0 {
      return Failure(NegativeArraySize);
    }
    var cylinder := new Float[6 * r];
    var a := -1;
    // top
    for i := 0 to r
      invariant a == 3 * i - 1
      invariant forall k :: 0 <= k <= a ==> cylinder[k] == CylinderPosition(r, k)
    {
      a := a + 1;
      cylinder[a] := CylinderX(i);
      a := a + 1;
      cylinder[a] := CylinderY(i);
      a := a + 1;
      cylinder[a] := CylinderZ(true);
    }
    // bottom
    for i := 0 to r
      invariant a == 3 * r + 3 * i - 1
      invariant forall k :: 0 <= k <= a ==> cylinder[k] == CylinderPosition(r, k)
    {
      a := a + 1;
      cylinder[a] := CylinderX(i);
      a := a + 1;
      cylinder[a] := CylinderY(i);
      a := a + 1;
      cylinder[a] := CylinderZ(false);
    }
    return Success(cylinder);
  }

  /** The ball's position array: BallFloats(r) floats, three per vertex, for every r. */
  method BallPositionArray(r: int) returns (ball: array<Float>)
    ensures ball[..] == BallPositions(r)
  {
    ball := new Float[BallFloats(r)];
    var a := -1;
    for i := 0 to ball.Length / 3
      invariant a == 3 * i - 1
      invariant forall k :: 0 <= k <= a ==> ball[k] == BallPosition(k)
    {
      a := a + 1;
      ball[a] := BallX(i);
      a := a + 1;
      ball[a] := BallY(i);
      a := a + 1;
      ball[a] := BallZ(i);
    }
  }

  /**
   * makeCylinder: for r >= 2 the cylinder shape; r <= 0 fails allocating an
   * array of negative size (the positions for r < 0, the indices for r = 0)
   * and r = 1 fails writing the seam into the empty index array.
   */
  method MakeCylinder(r: int) returns (res: Result<Shape<Float>, JavaException>)
    ensures r <= 0 ==> res == Failure(NegativeArraySize)
    ensures r == 1 ==> res == Failure(ArrayIndexOutOfBounds)
    ensures r >= 2 ==> res == Success(CylinderShape(r))
  {
    var cylinder := CylinderPositionArray(r);
    if cylinder.Failure? {
      return Failure(cylinder.error);
    }
    // the colour array has the positions' length: it cannot fail once they were allocated
    var c := ColorArray(r);
    var indices;
    ghost var written;
    indices, written := IndexArray(r);
    if indices.Failure? {
      return Failure(indices.error);
    }
    var vertexData := VertexData(cylinder.value.Length / 3,
      [VertexElement(Position, 3, cylinder.value[..]), VertexElement(Color, 3, c.value[..])],
      Some(indices.value[..]));
    return Success(Shape(vertexData));
  }

  /**
   * makeBall: the same colour and index arrays as makeCylinder with a ball's
   * positions; its position array is never of negative size, so r < 0 fails
   * at the colour array, r = 0 at the index array and r = 1 at the seam.
   */
  method MakeBall(r: int) returns (res: Result<Shape<Float>, JavaException>)
    ensures r <= 0 ==> res == Failure(NegativeArraySize)
    ensures r == 1 ==> res == Failure(ArrayIndexOutOfBounds)
    ensures r >= 2 ==> res == Success(BallShape(r))
  {
    var ball := BallPositionArray(r);
    var c := ColorArray(r);
    if c.Failure? {
      return Failure(c.error);
    }
    var indices;
    ghost var written;
    indices, written := IndexArray(r);
    if indices.Failure? {
      return Failure(indices.error);
    }
    var vertexData := VertexData(ball.Length / 3,
      [VertexElement(Position, 3, ball[..]), VertexElement(Color, 3, c.value[..])],
      Some(indices.value[..]));
    return Success(Shape(vertexData));
  }
}
