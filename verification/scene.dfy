/**
 * The jrtr data the render context reads: matrices, vertex data, shapes,
 * render items and the scene manager. Their Java classes are not part of
 * this model; each is reduced here to the fields the render context uses.
 */
module Scene {
  import opened Wrappers

  /** One row of a 4x4 matrix. */
  datatype Row<F> = Row(c0: F, c1: F, c2: F, c3: F)
  {
    function At(j: int): (x: F)
      requires 0 <= j < 4
    {
      if j == 0 then c0 else if j == 1 then c1 else if j == 2 then c2 else c3
    }
  }

  /**
   * A 4x4 matrix (javax.vecmath.Matrix4f), stored row by row. Its entries are
   * of an abstract type F: the model never computes with them.
   */
  datatype Matrix4<F> = Matrix4(r0: Row<F>, r1: Row<F>, r2: Row<F>, r3: Row<F>)
  {
    /** Matrix4f.getElement(i, j): the entry in row i, column j. */
    function Get(i: int, j: int): (x: F)
      requires 0 <= i < 4 && 0 <= j < 4
    {
      (if i == 0 then r0 else if i == 1 then r1 else if i == 2 then r2 else r3).At(j)
    }
  }

  /** VertexData.Semantic: what a vertex element stream means. */
  datatype Semantic = Position | Normal | TexCoord | Color

  /** VertexData.VertexElement: a flat stream of `components` values per vertex. */
  datatype VertexElement<F> = VertexElement(semantic: Semantic, components: int, data: seq<F>)

  /**
   * VertexData: the vertex count given at construction, the element streams in
   * the order they were added, and the triangle index array (null until
   * addIndices is called).
   */
  datatype VertexData<F> = VertexData(vertexCount: int, elements: seq<VertexElement<F>>, indices: Option<seq<int>>)
  {
    /**
     * The vertex-data invariant: each stream holds exactly vertexCount
     * vertices of its own width.
     */
    predicate StreamsMatchVertexCount()
    {
      forall q :: 0 <= q < |elements| ==> |elements[q].data| == vertexCount * elements[q].components
    }
  }

  /** Shape: the mesh to draw. Its transformation travels with the render item. */
  datatype Shape<F> = Shape(vertexData: VertexData<F>)

  /** RenderItem: what the scene iterator yields, a shape (possibly null) and its transformation. */
  datatype RenderItem<F> = RenderItem(shape: Option<Shape<F>>, t: Matrix4<F>)

  /**
   * The scene manager as the render context sees it: the items its iterator
   * yields, in order, the camera matrix and the frustum's projection matrix.
   */
  datatype SceneManager<F> = SceneManager(items: seq<RenderItem<F>>, camera: Matrix4<F>, projection: Matrix4<F>)
}
