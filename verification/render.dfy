/**
 * GLRenderContext: the renderer that walks the scene and issues immediate-mode
 * OpenGL calls. The GL2 handle is modelled as an append-only log of commands,
 * so the order of the calls, the conditions under which a call is skipped, the
 * offsets of the values passed and the dispatch over (semantic, components)
 * become statements about that log.
 */
module Render {
  import opened Wrappers
  import opened Scene

  /** The two matrix stacks the context selects with glMatrixMode. */
  datatype MatrixStack = Projection | ModelView

  /** One call on the GL2 handle. */
  datatype Cmd<F> =
    | ClearColorBuffer                 // glClear(GL_COLOR_BUFFER_BIT)
    | ClearDepthBuffer                 // glClear(GL_DEPTH_BUFFER_BIT)
    | MatrixMode(stack: MatrixStack)
    | LoadMatrix(entries: seq<F>)      // glLoadMatrixf(entries, 0)
    | BeginTriangles                   // glBegin(GL_TRIANGLES)
    | Vertex2(a0: F, a1: F)
    | Vertex3(a0: F, a1: F, a2: F)
    | Vertex4(a0: F, a1: F, a2: F, a3: F)
    | Normal3(a0: F, a1: F, a2: F)
    | TexCoord2(a0: F, a1: F)
    | TexCoord3(a0: F, a1: F, a2: F)
    | TexCoord4(a0: F, a1: F, a2: F, a3: F)
    | Color3(a0: F, a1: F, a2: F)
    | Color4(a0: F, a1: F, a2: F, a3: F)
    | End
    | Flush

  /** The values a per-vertex command passes, in argument order ([] for the others). */
  function Args<F>(c: Cmd<F>): (vals: seq<F>)
  {
    match c
    case Vertex2(a0, a1) => [a0, a1]
    case Vertex3(a0, a1, a2) => [a0, a1, a2]
    case Vertex4(a0, a1, a2, a3) => [a0, a1, a2, a3]
    case Normal3(a0, a1, a2) => [a0, a1, a2]
    case TexCoord2(a0, a1) => [a0, a1]
    case TexCoord3(a0, a1, a2) => [a0, a1, a2]
    case TexCoord4(a0, a1, a2, a3) => [a0, a1, a2, a3]
    case Color3(a0, a1, a2) => [a0, a1, a2]
    case Color4(a0, a1, a2, a3) => [a0, a1, a2, a3]
    case _ => []
  }

  predicate IsVertex<F>(c: Cmd<F>) { c.Vertex2? || c.Vertex3? || c.Vertex4? }
  predicate IsNormal<F>(c: Cmd<F>) { c.Normal3? }
  predicate IsTexCoord<F>(c: Cmd<F>) { c.TexCoord2? || c.TexCoord3? || c.TexCoord4? }
  predicate IsColor<F>(c: Cmd<F>) { c.Color3? || c.Color4? }

  /** A command that passes one vertex attribute (only these occur between Begin and End). */
  predicate IsAttribute<F>(c: Cmd<F>) { IsVertex(c) || IsNormal(c) || IsTexCoord(c) || IsColor(c) }

  // ---------------------------------------------------------------------------
  // Matrix flattening (matrix4fToFloat16)
  // ---------------------------------------------------------------------------

  /**
   * The 16 values OpenGL expects for a matrix: column-major, so slot j*4+i
   * holds the entry of row i, column j.
   */
  function Flatten<F>(m: Matrix4<F>): (f: seq<F>)
    ensures |f| == 16
  {
    seq(16, k requires 0 <= k < 16 => m.Get(k % 4, k / 4))
  }

  /** Slot j*4+i of the flattened matrix holds the entry of row i, column j. */
  lemma FlattenTransposes<F>(m: Matrix4<F>)
    ensures forall i, j :: 0 <= i < 4 && 0 <= j < 4 ==> Flatten(m)[j * 4 + i] == m.Get(i, j)
  {
    forall i, j | 0 <= i < 4 && 0 <= j < 4
      ensures Flatten(m)[j * 4 + i] == m.Get(i, j)
    {
      var k := j * 4 + i;
      assert k % 4 == i && k / 4 == j;
    }
  }

  /** Sixteen values that hold every entry at its column-major slot are the flattened matrix. */
  lemma FlattenFromSlots<F>(a: seq<F>, m: Matrix4<F>)
    requires |a| == 16
    requires forall c, j :: 0 <= c < 4 && 0 <= j < 4 ==> a[j * 4 + c] == m.Get(c, j)
    ensures a == Flatten(m)
  {
    forall k | 0 <= k < 16
      ensures a[k] == Flatten(m)[k]
    {
      assert k == (k / 4) * 4 + k % 4;
    }
  }

  /** Reads a column-major array of 16 values back into a matrix. */
  function Unflatten<F>(f: seq<F>): (m: Matrix4<F>)
    requires |f| == 16
  {
    Matrix4(Row(f[0], f[4], f[8], f[12]),
            Row(f[1], f[5], f[9], f[13]),
            Row(f[2], f[6], f[10], f[14]),
            Row(f[3], f[7], f[11], f[15]))
  }

  /** Flattening loses nothing: the matrix can be read back from the array. */
  lemma FlattenRoundTrip<F>(m: Matrix4<F>)
    ensures Unflatten(Flatten(m)) == m
  {
    var f := Flatten(m);
    assert f[0] == m.Get(0, 0) && f[4] == m.Get(0, 1) && f[8] == m.Get(0, 2) && f[12] == m.Get(0, 3);
    assert f[1] == m.Get(1, 0) && f[5] == m.Get(1, 1) && f[9] == m.Get(1, 2) && f[13] == m.Get(1, 3);
    assert f[2] == m.Get(2, 0) && f[6] == m.Get(2, 1) && f[10] == m.Get(2, 2) && f[14] == m.Get(2, 3);
    assert f[3] == m.Get(3, 0) && f[7] == m.Get(3, 1) && f[11] == m.Get(3, 2) && f[15] == m.Get(3, 3);
  }

  /** Every array of 16 values is the flattening of exactly one matrix. */
  lemma UnflattenRoundTrip<F>(f: seq<F>)
    requires |f| == 16
    ensures Flatten(Unflatten(f)) == f
  {
    var g := Flatten(Unflatten(f));
    forall k | 0 <= k < 16
      ensures g[k] == f[k]
    {
      assert g[(k / 4) * 4 + k % 4] == Unflatten(f).Get(k % 4, k / 4);
    }
  }

  /** The slot matrix4fToFloat16 writes at step p of its nested loops (row p/4, column p%4). */
  function TransposedSlot(p: int): (slot: int)
  {
    4 * (p % 4) + p / 4
  }

  /** The slots matrix4fToFloat16 writes, in the order it writes them. */
  function TransposedOrder(): (slots: seq<int>)
  {
    seq(16, TransposedSlot)
  }

  /** Transposing twice is the identity: the slot of the slot of p is p. */
  lemma TransposedSlotInvolution(p: int)
    requires 0 <= p < 16
    ensures 0 <= TransposedSlot(p) < 16 && TransposedSlot(TransposedSlot(p)) == p
  {
    var row, col := p / 4, p % 4;
    assert 0 <= row < 4 && 0 <= col < 4 && p == 4 * row + col;
    var s := 4 * col + row;
    assert s / 4 == col && s % 4 == row;
  }

  /** The loops of matrix4fToFloat16 write each of the 16 slots exactly once. */
  lemma TransposedOrderVisitsEachSlotOnce()
    ensures |TransposedOrder()| == 16
    ensures forall s :: 0 <= s < 16 ==> s in TransposedOrder()
    ensures forall p, q :: 0 <= p < q < 16 ==> TransposedOrder()[p] != TransposedOrder()[q]
  {
    var order := TransposedOrder();
    forall p, q | 0 <= p < q < 16
      ensures order[p] != order[q]
    {
      TransposedSlotInvolution(p);
      TransposedSlotInvolution(q);
    }
    forall s | 0 <= s < 16
      ensures s in order
    {
      TransposedSlotInvolution(s);
      assert order[TransposedSlot(s)] == s;
    }
  }

  // ---------------------------------------------------------------------------
  // The per-vertex dispatch of draw
  // ---------------------------------------------------------------------------

  /** The (semantic, components) pairs draw emits a command for; it silently skips all others. */
  predicate Handled(s: Semantic, n: int)
  {
    match s
    case Position => 2 <= n <= 4
    case TexCoord => 2 <= n <= 4
    case Normal => n == 3 || n == 4
    case Color => n == 3 || n == 4
  }

  /**
   * j blocks of h entries each: j * h, spelt out as repeated addition so that
   * offsets into the data arrays and into the log stay linear for the solver.
   */
  function Blocks(j: nat, h: nat): (total: nat)
  {
    if j == 0 then 0 else Blocks(j - 1, h) + h
  }

  lemma {:induction false} BlocksIsProduct(j: nat, h: nat)
    ensures Blocks(j, h) == j * h
  {
    if j > 0 {
      BlocksIsProduct(j - 1, h);
      assert j * h == (j - 1) * h + h;
    }
  }

  lemma {:induction false} BlocksMonotone(j: nat, n: nat, h: nat)
    requires j < n
    ensures Blocks(j, h) + h <= Blocks(n, h)
    decreases n
  {
    if j < n - 1 {
      BlocksMonotone(j, n - 1, h);
    }
  }

  /**
   * Draw can read the values of vertex i from element e without leaving its
   * data array: the n values from data[i * n] on. The offset i * n is written
   * as Blocks(i, n), repeated addition, only to keep the solver's arithmetic
   * linear; ReadableBounds states the same condition as (i + 1) * n <= |data|.
   */
  predicate Readable<F>(e: VertexElement<F>, i: int)
  {
    Handled(e.semantic, e.components) ==> 0 <= i && Blocks(i, e.components) + e.components <= |e.data|
  }

  /** Readable says that the last value of vertex i, data[(i + 1) * n - 1], exists. */
  lemma ReadableBounds<F>(e: VertexElement<F>, i: int)
    ensures Readable(e, i) <==>
      (Handled(e.semantic, e.components) ==> 0 <= i && (i + 1) * e.components <= |e.data|)
  {
    if Handled(e.semantic, e.components) && 0 <= i {
      BlocksIsProduct(i, e.components);
      assert (i + 1) * e.components == i * e.components + e.components;
    }
  }

  predicate AllReadable<F>(elements: seq<VertexElement<F>>, i: int)
  {
    forall q :: 0 <= q < |elements| ==> Readable(elements[q], i)
  }

  /**
   * A shape draw can walk without an out-of-range read: every element it
   * handles holds the values of every vertex the index array names.
   */
  predicate ShapeDrawable<F>(shape: Shape<F>)
  {
    var vd := shape.vertexData;
    vd.indices.Some? ==> IndicesReadable(vd.elements, vd.indices.value)
  }

  /** Every vertex the index array names is readable from every element draw handles. */
  predicate IndicesReadable<F>(elements: seq<VertexElement<F>>, indices: seq<int>)
  {
    forall k :: 0 <= k < |indices| ==> AllReadable(elements, indices[k])
  }

  predicate ItemsDrawable<F>(items: seq<RenderItem<F>>)
  {
    forall k :: 0 <= k < |items| && items[k].shape.Some? ==> ShapeDrawable(items[k].shape.value)
  }

  /**
   * The command draw issues for element e at vertex index i: the if-chain over
   * the semantic and then over the number of components. A NORMAL element with
   * four components issues glVertex4f, as the source does.
   */
  function Emit<F>(e: VertexElement<F>, i: int): (r: Option<Cmd<F>>)
    requires Readable(e, i)
  {
    var d, n := e.data, e.components;
    // b is i * n, the index of the first value of vertex i
    var b := if Handled(e.semantic, n) then Blocks(i, n) else 0;
    match e.semantic
    case Position =>
      if n == 2 then Some(Vertex2(d[b], d[b + 1]))
      else if n == 3 then Some(Vertex3(d[b], d[b + 1], d[b + 2]))
      else if n == 4 then Some(Vertex4(d[b], d[b + 1], d[b + 2], d[b + 3]))
      else None
    case Normal =>
      if n == 3 then Some(Normal3(d[b], d[b + 1], d[b + 2]))
      else if n == 4 then Some(Vertex4(d[b], d[b + 1], d[b + 2], d[b + 3]))
      else None
    case TexCoord =>
      if n == 2 then Some(TexCoord2(d[b], d[b + 1]))
      else if n == 3 then Some(TexCoord3(d[b], d[b + 1], d[b + 2]))
      else if n == 4 then Some(TexCoord4(d[b], d[b + 1], d[b + 2], d[b + 3]))
      else None
    case Color =>
      if n == 3 then Some(Color3(d[b], d[b + 1], d[b + 2]))
      else if n == 4 then Some(Color4(d[b], d[b + 1], d[b + 2], d[b + 3]))
      else None
  }

  /**
   * Emit issues a command exactly for the handled pairs, and its kind follows
   * the semantic: positions (and four-component normals) become vertices,
   * three-component normals normals, texture coordinates and colours their own.
   */
  lemma EmitClassifies<F>(e: VertexElement<F>, i: int)
    requires Readable(e, i)
    ensures Emit(e, i).Some? <==> Handled(e.semantic, e.components)
    ensures Emit(e, i).Some? ==> (IsVertex(Emit(e, i).value) <==> e.semantic == Position || (e.semantic == Normal && e.components == 4))
    ensures Emit(e, i).Some? ==> (IsNormal(Emit(e, i).value) <==> e.semantic == Normal && e.components == 3)
    ensures Emit(e, i).Some? ==> (IsTexCoord(Emit(e, i).value) <==> e.semantic == TexCoord)
    ensures Emit(e, i).Some? ==> (IsColor(Emit(e, i).value) <==> e.semantic == Color)
    ensures e.semantic == Normal && e.components == 4 ==> Emit(e, i).Some? && Emit(e, i).value.Vertex4?
  {
  }

  /**
   * For vertex index i, an n-component element passes data[i*n], ...,
   * data[i*n + n - 1], in that order.
   */
  lemma EmitPassesVertexSlice<F>(e: VertexElement<F>, i: int)
    requires Readable(e, i) && Handled(e.semantic, e.components)
    ensures 0 <= i * e.components && (i + 1) * e.components <= |e.data|
    ensures Args(Emit(e, i).value) == e.data[i * e.components .. (i + 1) * e.components]
  {
    ReadableBounds(e, i);
    BlocksIsProduct(i, e.components);
  }

  /** The commands Emit contributes to the log: one, or none for an unhandled element. */
  function Emitted<F>(e: VertexElement<F>, i: int): (cmds: seq<Cmd<F>>)
    requires Readable(e, i)
  {
    match Emit(e, i)
    case Some(c) => [c]
    case None => []
  }

  /** The inner loop of draw: the commands for vertex index i, element by element. */
  function VertexCmds<F>(elements: seq<VertexElement<F>>, i: int): (cmds: seq<Cmd<F>>)
    requires AllReadable(elements, i)
  {
    if elements == [] then []
    else VertexCmds(elements[..|elements| - 1], i) + Emitted(elements[|elements| - 1], i)
  }

  /** The outer loop of draw: the commands for the index array, index by index. */
  function TriangleCmds<F>(elements: seq<VertexElement<F>>, indices: seq<int>): (cmds: seq<Cmd<F>>)
    requires forall j :: 0 <= j < |indices| ==> AllReadable(elements, indices[j])
  {
    if indices == [] then []
    else TriangleCmds(elements, indices[..|indices| - 1]) + VertexCmds(elements, indices[|indices| - 1])
  }

  /** What draw adds to the log for a shape with transformation t. */
  function DrawLog<F>(shape: Shape<F>, t: Matrix4<F>, camera: Matrix4<F>, mul: (Matrix4<F>, Matrix4<F>) -> Matrix4<F>): (cmds: seq<Cmd<F>>)
    requires ShapeDrawable(shape)
  {
    var vd := shape.vertexData;
    match vd.indices
    case None => []
    case Some(indices) =>
      [MatrixMode(ModelView), LoadMatrix(Flatten(mul(camera, t))), BeginTriangles]
      + TriangleCmds(vd.elements, indices) + [End]
  }

  /** What the display loop adds for one render item: nothing when its shape is null. */
  function ItemLog<F>(item: RenderItem<F>, camera: Matrix4<F>, mul: (Matrix4<F>, Matrix4<F>) -> Matrix4<F>): (cmds: seq<Cmd<F>>)
    requires item.shape.Some? ==> ShapeDrawable(item.shape.value)
  {
    if item.shape.Some? then DrawLog(item.shape.value, item.t, camera, mul) else []
  }

  /** What the display loop adds for the items, in iterator order. */
  function ItemsLog<F>(items: seq<RenderItem<F>>, camera: Matrix4<F>, mul: (Matrix4<F>, Matrix4<F>) -> Matrix4<F>): (cmds: seq<Cmd<F>>)
    requires ItemsDrawable(items)
  {
    if items == [] then []
    else ItemsLog(items[..|items| - 1], camera, mul) + ItemLog(items[|items| - 1], camera, mul)
  }

  /** What beginFrame adds: clear both buffers, then load the projection matrix. */
  function FramePrologue<F>(scene: SceneManager<F>): (cmds: seq<Cmd<F>>)
  {
    [ClearColorBuffer, ClearDepthBuffer, MatrixMode(Projection), LoadMatrix(Flatten(scene.projection))]
  }

  /** What display adds to the log for one frame. */
  function FrameLog<F>(scene: SceneManager<F>, mul: (Matrix4<F>, Matrix4<F>) -> Matrix4<F>): (cmds: seq<Cmd<F>>)
    requires ItemsDrawable(scene.items)
  {
    FramePrologue(scene) + ItemsLog(scene.items, scene.camera, mul) + [Flush]
  }

  // ---------------------------------------------------------------------------
  // Properties of the log
  // ---------------------------------------------------------------------------

  /** The number of times c occurs in log. */
  function Count<F(==)>(log: seq<Cmd<F>>, c: Cmd<F>): (n: nat)
  {
    if log == [] then 0
    else Count(log[..|log| - 1], c) + (if log[|log| - 1] == c then 1 else 0)
  }

  lemma {:induction false} CountAppend<F>(a: seq<Cmd<F>>, b: seq<Cmd<F>>, c: Cmd<F>)
    ensures Count(a + b, c) == Count(a, c) + Count(b, c)
    decreases |b|
  {
    if b == [] {
      assert a + b == a;
    } else {
      assert (a + b)[..|a + b| - 1] == a + b[..|b| - 1];
      CountAppend(a, b[..|b| - 1], c);
    }
  }

  /** A command that does not occur in log is counted zero times. */
  lemma {:induction false} CountAbsent<F>(log: seq<Cmd<F>>, c: Cmd<F>)
    requires c !in log
    ensures Count(log, c) == 0
    decreases |log|
  {
    if log != [] {
      assert forall x :: x in log[..|log| - 1] ==> x in log;
      CountAbsent(log[..|log| - 1], c);
    }
  }

  /** The elements draw emits a command for, in list order. */
  function HandledElements<F(==)>(elements: seq<VertexElement<F>>): (r: seq<VertexElement<F>>)
    ensures forall e :: e in r ==> e in elements && Handled(e.semantic, e.components)
    ensures forall e :: e in elements && Handled(e.semantic, e.components) ==> e in r
  {
    if elements == [] then []
    else
      var last := elements[|elements| - 1];
      HandledElements(elements[..|elements| - 1]) + (if Handled(last.semantic, last.components) then [last] else [])
  }

  /** HandledElements keeps a single element exactly when its pair is handled. */
  lemma HandledElementsSingle<F>(e: VertexElement<F>)
    ensures HandledElements([e]) == if Handled(e.semantic, e.components) then [e] else []
  {
    assert [e][..0] == [];
  }

  /**
   * HandledElements distributes over concatenation; with HandledElementsSingle
   * this makes it the order-preserving filter by Handled, so "the q-th handled
   * element" is the q-th element of the list that draw does not skip.
   */
  lemma {:induction false} HandledElementsAppend<F>(a: seq<VertexElement<F>>, b: seq<VertexElement<F>>)
    ensures HandledElements(a + b) == HandledElements(a) + HandledElements(b)
    decreases |b|
  {
    if b == [] {
      assert a + b == a;
    } else {
      var init, last := b[..|b| - 1], b[|b| - 1];
      var tail := if Handled(last.semantic, last.components) then [last] else [];
      assert (a + b)[..|a + b| - 1] == a + init;
      assert (a + b)[|a + b| - 1] == last;
      HandledElementsAppend(a, init);
      AppendAssociates(HandledElements(a), HandledElements(init), tail);
    }
  }

  /**
   * The inner loop issues exactly one command per handled element, in list
   * order, and that command is the element's dispatch for vertex i.
   */
  lemma {:induction false} VertexCmdsEnumerate<F>(elements: seq<VertexElement<F>>, i: int)
    requires AllReadable(elements, i)
    ensures |VertexCmds(elements, i)| == |HandledElements(elements)|
    ensures forall q :: 0 <= q < |HandledElements(elements)| ==>
      Emit(HandledElements(elements)[q], i) == Some(VertexCmds(elements, i)[q])
    decreases |elements|
  {
    if elements != [] {
      var init, last := elements[..|elements| - 1], elements[|elements| - 1];
      VertexCmdsEnumerate(init, i);
      EmitClassifies(last, i);
      assert HandledElements(elements) == HandledElements(init) + (if Handled(last.semantic, last.components) then [last] else []);
      assert VertexCmds(elements, i) == VertexCmds(init, i) + Emitted(last, i);
    }
  }

  /** The blocks laid end to end, first block first. */
  function Concat<T>(blocks: seq<seq<T>>): (flat: seq<T>)
  {
    if blocks == [] then [] else Concat(blocks[..|blocks| - 1]) + blocks[|blocks| - 1]
  }

  /** When every block holds h entries, entry q of block j sits at j * h + q. */
  lemma {:induction false} ConcatAt<T>(blocks: seq<seq<T>>, h: nat, j: nat, q: nat)
    requires forall k :: 0 <= k < |blocks| ==> |blocks[k]| == h
    requires j < |blocks| && q < h
    ensures |Concat(blocks)| == Blocks(|blocks|, h)
    ensures Blocks(j, h) + q < |Concat(blocks)| && Concat(blocks)[Blocks(j, h) + q] == blocks[j][q]
    decreases |blocks|
  {
    var n := |blocks|;
    var init := blocks[..n - 1];
    var front, back := Concat(init), blocks[n - 1];
    assert Concat(blocks) == front + back;
    if n == 1 {
      assert front == [];
    } else {
      var k := if j < n - 1 then j else 0;
      ConcatAt(init, h, k, q);
      if j < n - 1 {
        BlocksMonotone(j, n - 1, h);
        assert (front + back)[Blocks(j, h) + q] == front[Blocks(j, h) + q];
      } else {
        assert (front + back)[Blocks(j, h) + q] == back[q];
      }
    }
  }

  /** The per-index blocks of the index loop of draw. */
  function VertexBlocks<F>(elements: seq<VertexElement<F>>, indices: seq<int>): (r: seq<seq<Cmd<F>>>)
    requires IndicesReadable(elements, indices)
    ensures |r| == |indices|
  {
    seq(|indices|, k requires 0 <= k < |indices| => VertexCmds(elements, indices[k]))
  }

  /** The index loop lays the inner loop's commands for each index end to end. */
  lemma {:induction false} TriangleCmdsConcat<F>(elements: seq<VertexElement<F>>, indices: seq<int>)
    requires IndicesReadable(elements, indices)
    ensures TriangleCmds(elements, indices) == Concat(VertexBlocks(elements, indices))
    decreases |indices|
  {
    if indices != [] {
      var n := |indices|;
      var init := indices[..n - 1];
      TriangleCmdsConcat(elements, init);
      assert VertexBlocks(elements, indices)[..n - 1] == VertexBlocks(elements, init);
    }
  }

  /**
   * Between Begin and End, draw issues one command per (index, handled
   * element) pair: the block for the j-th index comes j-th, and within it the
   * command for the q-th handled element comes q-th and is that element's
   * dispatch for the index.
   */
  lemma TriangleCmdsEnumerate<F>(elements: seq<VertexElement<F>>, indices: seq<int>, j: int, q: int)
    requires IndicesReadable(elements, indices)
    requires 0 <= j < |indices| && 0 <= q < |HandledElements(elements)|
    ensures |TriangleCmds(elements, indices)| == |indices| * |HandledElements(elements)|
    ensures var x := j * |HandledElements(elements)| + q;
      x < |TriangleCmds(elements, indices)| &&
      Emit(HandledElements(elements)[q], indices[j]) == Some(TriangleCmds(elements, indices)[x])
  {
    var h := |HandledElements(elements)|;
    var blocks := VertexBlocks(elements, indices);
    VertexBlocksLength(elements, indices);
    VertexCmdsEnumerate(elements, indices[j]);
    TriangleCmdsConcat(elements, indices);
    ConcatAt(blocks, h, j, q);
    BlocksIsProduct(j, h);
    BlocksIsProduct(|indices|, h);
  }

  /** Each block holds one command per handled element. */
  lemma VertexBlocksLength<F>(elements: seq<VertexElement<F>>, indices: seq<int>)
    requires IndicesReadable(elements, indices)
    ensures forall k :: 0 <= k < |indices| ==> |VertexBlocks(elements, indices)[k]| == |HandledElements(elements)|
  {
    forall k | 0 <= k < |indices|
      ensures |VertexBlocks(elements, indices)[k]| == |HandledElements(elements)|
    {
      VertexCmdsEnumerate(elements, indices[k]);
    }
  }

  /** Draw issues |indices| * |handled elements| commands between Begin and End. */
  lemma TriangleCmdsLength<F>(elements: seq<VertexElement<F>>, indices: seq<int>)
    requires IndicesReadable(elements, indices)
    ensures |TriangleCmds(elements, indices)| == |indices| * |HandledElements(elements)|
  {
    var h := |HandledElements(elements)|;
    TriangleCmdsConcat(elements, indices);
    VertexBlocksLength(elements, indices);
    ConcatLength(VertexBlocks(elements, indices), h);
    BlocksIsProduct(|indices|, h);
  }

  lemma {:induction false} ConcatLength<T>(blocks: seq<seq<T>>, h: nat)
    requires forall k :: 0 <= k < |blocks| ==> |blocks[k]| == h
    ensures |Concat(blocks)| == Blocks(|blocks|, h)
    decreases |blocks|
  {
    if blocks != [] {
      ConcatLength(blocks[..|blocks| - 1], h);
    }
  }

  /** Every command between Begin and End passes a vertex attribute. */
  lemma {:induction false} TriangleCmdsAreAttributes<F>(elements: seq<VertexElement<F>>, indices: seq<int>)
    requires IndicesReadable(elements, indices)
    ensures forall c :: c in TriangleCmds(elements, indices) ==> IsAttribute(c)
    decreases |indices|
  {
    if indices != [] {
      var n := |indices|;
      TriangleCmdsAreAttributes(elements, indices[..n - 1]);
      VertexCmdsAreAttributes(elements, indices[n - 1]);
    }
  }

  lemma {:induction false} VertexCmdsAreAttributes<F>(elements: seq<VertexElement<F>>, i: int)
    requires AllReadable(elements, i)
    ensures forall c :: c in VertexCmds(elements, i) ==> IsAttribute(c)
    decreases |elements|
  {
    if elements != [] {
      var init := elements[..|elements| - 1];
      VertexCmdsAreAttributes(init, i);
    }
  }

  /** draw issues nothing exactly when the shape's index array is null. */
  lemma DrawLogEmptyIffNoIndices<F>(shape: Shape<F>, t: Matrix4<F>, camera: Matrix4<F>, mul: (Matrix4<F>, Matrix4<F>) -> Matrix4<F>)
    requires ShapeDrawable(shape)
    ensures shape.vertexData.indices.None? <==> DrawLog(shape, t, camera, mul) == []
  {
  }

  /**
   * With an index array, draw selects the MODELVIEW stack, loads camera * t
   * (the camera on the left), and brackets |indices| * |handled elements|
   * attribute commands between Begin and End.
   */
  lemma DrawLogShape<F>(shape: Shape<F>, t: Matrix4<F>, camera: Matrix4<F>, mul: (Matrix4<F>, Matrix4<F>) -> Matrix4<F>)
    requires ShapeDrawable(shape) && shape.vertexData.indices.Some?
    ensures var log := DrawLog(shape, t, camera, mul);
      && |log| == 4 + |shape.vertexData.indices.value| * |HandledElements(shape.vertexData.elements)|
      && log[0] == MatrixMode(ModelView)
      && log[1].LoadMatrix? && Unflatten(log[1].entries) == mul(camera, t)
      && log[2] == BeginTriangles && log[|log| - 1] == End
      && (forall k :: 3 <= k < |log| - 1 ==> IsAttribute(log[k]))
  {
    var vd := shape.vertexData;
    var indices := vd.indices.value;
    var body := TriangleCmds(vd.elements, indices);
    var log := DrawLog(shape, t, camera, mul);
    assert log == [MatrixMode(ModelView), LoadMatrix(Flatten(mul(camera, t))), BeginTriangles] + body + [End];
    FlattenRoundTrip(mul(camera, t));
    TriangleCmdsLength(vd.elements, indices);
    TriangleCmdsAreAttributes(vd.elements, indices);
    forall k | 3 <= k < |log| - 1
      ensures IsAttribute(log[k])
    {
      assert log[k] == body[k - 3];
    }
  }

  /** A drawn shape contributes one Begin, one End and no Flush to the log. */
  lemma DrawLogCounts<F>(shape: Shape<F>, t: Matrix4<F>, camera: Matrix4<F>, mul: (Matrix4<F>, Matrix4<F>) -> Matrix4<F>)
    requires ShapeDrawable(shape) && shape.vertexData.indices.Some?
    ensures Count(DrawLog(shape, t, camera, mul), BeginTriangles) == 1
    ensures Count(DrawLog(shape, t, camera, mul), End) == 1
    ensures Count(DrawLog(shape, t, camera, mul), Flush) == 0
  {
    var vd := shape.vertexData;
    var body := TriangleCmds(vd.elements, vd.indices.value);
    var head: seq<Cmd<F>> := [MatrixMode(ModelView), LoadMatrix(Flatten(mul(camera, t))), BeginTriangles];
    assert DrawLog(shape, t, camera, mul) == head + body + [End];
    TriangleCmdsAreAttributes(vd.elements, vd.indices.value);
    CountAbsent(body, BeginTriangles);
    CountAbsent(body, End);
    CountAbsent(body, Flush);
    HeadCounts(head[0], head[1], head[2]);
    CountAppend(head, body, BeginTriangles);
    CountAppend(head + body, [End], BeginTriangles);
    CountAppend(head, body, End);
    CountAppend(head + body, [End], End);
    CountAppend(head, body, Flush);
    CountAppend(head + body, [End], Flush);
  }

  lemma CountSingle<F>(a: Cmd<F>, c: Cmd<F>)
    ensures Count([a], c) == if a == c then 1 else 0
  {
    assert [a][..0] == [];
  }

  lemma HeadCounts<F>(a: Cmd<F>, b: Cmd<F>, c: Cmd<F>)
    requires !a.BeginTriangles? && !a.End? && !a.Flush? && !b.BeginTriangles? && !b.End? && !b.Flush?
    ensures Count([a, b, c], BeginTriangles) == (if c.BeginTriangles? then 1 else 0)
    ensures Count([a, b, c], End) == (if c.End? then 1 else 0)
    ensures Count([a, b, c], Flush) == (if c.Flush? then 1 else 0)
  {
    assert [a, b, c] == [a] + [b] + [c];
    forall x: Cmd<F> | x == BeginTriangles || x == End || x == Flush
      ensures Count([a, b, c], x) == (if c == x then 1 else 0)
    {
      CountSingle(a, x);
      CountSingle(b, x);
      CountSingle(c, x);
      CountAppend([a], [b], x);
      CountAppend([a] + [b], [c], x);
    }
  }

  /** An item display actually draws: its shape is not null and has an index array. */
  predicate Drawn<F>(item: RenderItem<F>)
  {
    item.shape.Some? && item.shape.value.vertexData.indices.Some?
  }

  /** The items display draws, in iterator order. */
  function DrawnItems<F(==)>(items: seq<RenderItem<F>>): (r: seq<RenderItem<F>>)
    ensures |r| <= |items|
    ensures forall k :: 0 <= k < |r| ==> r[k] in items && Drawn(r[k])
    ensures forall k :: 0 <= k < |items| && Drawn(items[k]) ==> items[k] in r
    ensures ItemsDrawable(items) ==> ItemsDrawable(r)
  {
    if items == [] then []
    else
      var last := items[|items| - 1];
      DrawnItems(items[..|items| - 1]) + (if Drawn(last) then [last] else [])
  }

  /** DrawnItems keeps a single item exactly when that item is drawn. */
  lemma DrawnItemsSingle<F>(x: RenderItem<F>)
    ensures DrawnItems([x]) == if Drawn(x) then [x] else []
  {
    assert [x][..0] == [];
  }

  /**
   * DrawnItems distributes over concatenation; with DrawnItemsSingle this
   * makes it the order-preserving filter by Drawn.
   */
  lemma {:induction false} DrawnItemsAppend<F>(a: seq<RenderItem<F>>, b: seq<RenderItem<F>>)
    ensures DrawnItems(a + b) == DrawnItems(a) + DrawnItems(b)
    decreases |b|
  {
    if b == [] {
      assert a + b == a;
    } else {
      var init, last := b[..|b| - 1], b[|b| - 1];
      var tail := if Drawn(last) then [last] else [];
      assert (a + b)[..|a + b| - 1] == a + init;
      assert (a + b)[|a + b| - 1] == last;
      DrawnItemsAppend(a, init);
      AppendAssociates(DrawnItems(a), DrawnItems(init), tail);
    }
  }

  /** Items are drawn in iterator order: the log of a concatenation is the concatenation of the logs. */
  lemma {:induction false} ItemsLogAppend<F>(a: seq<RenderItem<F>>, b: seq<RenderItem<F>>, camera: Matrix4<F>, mul: (Matrix4<F>, Matrix4<F>) -> Matrix4<F>)
    requires ItemsDrawable(a) && ItemsDrawable(b)
    ensures ItemsDrawable(a + b)
    ensures ItemsLog(a + b, camera, mul) == ItemsLog(a, camera, mul) + ItemsLog(b, camera, mul)
    decreases |b|
  {
    forall k | 0 <= k < |a + b| && (a + b)[k].shape.Some?
      ensures ShapeDrawable((a + b)[k].shape.value)
    {
      if k < |a| {
        assert (a + b)[k] == a[k];
      } else {
        assert (a + b)[k] == b[k - |a|];
      }
    }
    if b == [] {
      assert a + b == a;
    } else {
      var init := b[..|b| - 1];
      var last := b[|b| - 1];
      assert (a + b)[..|a + b| - 1] == a + init;
      assert (a + b)[|a + b| - 1] == last;
      ItemsLogAppend(a, init, camera, mul);
      assert ItemsLog(a + b, camera, mul) == ItemsLog(a + init, camera, mul) + ItemLog(last, camera, mul);
    }
  }

  /**
   * Items whose shape is null, and shapes without an index array, contribute
   * nothing: the log is that of the drawn items alone.
   */
  lemma {:induction false} ItemsLogSkipsUndrawn<F>(items: seq<RenderItem<F>>, camera: Matrix4<F>, mul: (Matrix4<F>, Matrix4<F>) -> Matrix4<F>)
    requires ItemsDrawable(items)
    ensures ItemsLog(items, camera, mul) == ItemsLog(DrawnItems(items), camera, mul)
    decreases |items|
  {
    if items != [] {
      var init := items[..|items| - 1];
      var last := items[|items| - 1];
      ItemsLogSkipsUndrawn(init, camera, mul);
      var tail := if Drawn(last) then [last] else [];
      ItemsLogAppend(DrawnItems(init), tail, camera, mul);
      if Drawn(last) {
        assert tail[..0] == [];
      } else if last.shape.Some? {
        DrawLogEmptyIffNoIndices(last.shape.value, last.t, camera, mul);
      }
    }
  }

  /**
   * Every drawn item brackets its vertices with exactly one Begin and one
   * End, and no item issues a Flush.
   */
  lemma {:induction false} ItemsLogCounts<F>(items: seq<RenderItem<F>>, camera: Matrix4<F>, mul: (Matrix4<F>, Matrix4<F>) -> Matrix4<F>)
    requires ItemsDrawable(items)
    ensures Count(ItemsLog(items, camera, mul), BeginTriangles) == |DrawnItems(items)|
    ensures Count(ItemsLog(items, camera, mul), End) == |DrawnItems(items)|
    ensures Count(ItemsLog(items, camera, mul), Flush) == 0
    decreases |items|
  {
    if items != [] {
      var init := items[..|items| - 1];
      var last := items[|items| - 1];
      ItemsLogCounts(init, camera, mul);
      var front := ItemsLog(init, camera, mul);
      var back := ItemLog(last, camera, mul);
      forall x: Cmd<F> | x == BeginTriangles || x == End || x == Flush
        ensures Count(front + back, x) == Count(front, x) + Count(back, x)
      {
        CountAppend(front, back, x);
      }
      if Drawn(last) {
        DrawLogCounts(last.shape.value, last.t, camera, mul);
      } else if last.shape.Some? {
        DrawLogEmptyIffNoIndices(last.shape.value, last.t, camera, mul);
      }
    }
  }

  /**
   * A frame clears both buffers, loads the projection, draws the items, and
   * ends with the one and only Flush of the frame; Begin and End come once per
   * drawn item.
   */
  lemma FrameLogShape<F>(scene: SceneManager<F>, mul: (Matrix4<F>, Matrix4<F>) -> Matrix4<F>)
    requires ItemsDrawable(scene.items)
    ensures var log := FrameLog(scene, mul);
      && |log| >= 5
      && log[..4] == [ClearColorBuffer, ClearDepthBuffer, MatrixMode(Projection), LoadMatrix(Flatten(scene.projection))]
      && log[|log| - 1] == Flush
      && Count(log, Flush) == 1
      && Count(log, BeginTriangles) == |DrawnItems(scene.items)|
      && Count(log, End) == |DrawnItems(scene.items)|
  {
    var prologue := FramePrologue(scene);
    var body := ItemsLog(scene.items, scene.camera, mul);
    assert FrameLog(scene, mul) == prologue + body + [Flush];
    ItemsLogCounts(scene.items, scene.camera, mul);
    assert prologue == [ClearColorBuffer, ClearDepthBuffer] + [MatrixMode(Projection), LoadMatrix(Flatten(scene.projection))];
    forall x: Cmd<F> | x == BeginTriangles || x == End || x == Flush
      ensures Count(prologue, x) == 0
    {
      CountAbsent(prologue, x);
    }
    forall x: Cmd<F> | x == BeginTriangles || x == End || x == Flush
      ensures Count(prologue + body + [Flush], x) == Count(body, x) + (if x == Flush then 1 else 0)
    {
      CountAppend(prologue, body, x);
      CountAppend(prologue + body, [Flush], x);
      CountSingle(Flush, x);
    }
  }

  lemma VertexCmdsSnoc<F>(elements: seq<VertexElement<F>>, i: int, q: int)
    requires AllReadable(elements, i) && 0 <= q < |elements|
    ensures AllReadable(elements[..q], i) && AllReadable(elements[..q + 1], i)
    ensures VertexCmds(elements[..q + 1], i) == VertexCmds(elements[..q], i) + Emitted(elements[q], i)
  {
    assert elements[..q + 1][..q] == elements[..q];
  }

  lemma TriangleCmdsSnoc<F>(elements: seq<VertexElement<F>>, indices: seq<int>, j: int)
    requires IndicesReadable(elements, indices)
    requires 0 <= j < |indices|
    ensures IndicesReadable(elements, indices[..j]) && IndicesReadable(elements, indices[..j + 1])
    ensures TriangleCmds(elements, indices[..j + 1]) == TriangleCmds(elements, indices[..j]) + VertexCmds(elements, indices[j])
  {
    assert indices[..j + 1][..j] == indices[..j];
  }

  lemma ItemsLogSnoc<F>(items: seq<RenderItem<F>>, k: int, camera: Matrix4<F>, mul: (Matrix4<F>, Matrix4<F>) -> Matrix4<F>)
    requires ItemsDrawable(items) && 0 <= k < |items|
    ensures ItemsDrawable(items[..k]) && ItemsDrawable(items[..k + 1])
    ensures ItemsLog(items[..k + 1], camera, mul) == ItemsLog(items[..k], camera, mul) + ItemLog(items[k], camera, mul)
  {
    assert items[..k + 1][..k] == items[..k];
  }

  /**
   * Appending to the log in two steps or in one gives the same log. Dafny
   * knows this fact; stating it where a proof needs it spares the solver a
   * costly search for it, and is the only reason for this lemma.
   */
  lemma AppendAssociates<T>(a: seq<T>, b: seq<T>, c: seq<T>)
    ensures (a + b) + c == a + (b + c)
  {
  }

  // ---------------------------------------------------------------------------
  // The render context
  // ---------------------------------------------------------------------------

  /**
   * GLRenderContext. `log` is what has been sent to the GL2 handle so far;
   * `mul` is Matrix4f.mul (the product camera * t), left uninterpreted.
   */
  class GLRenderContext<F(0)>
  {
    var sceneManager: Option<SceneManager<F>>
    var log: seq<Cmd<F>>
    const mul: (Matrix4<F>, Matrix4<F>) -> Matrix4<F>

    /** No scene manager yet and nothing drawn; the depth-test and clear-colour set-up is not logged. */
    constructor (mul: (Matrix4<F>, Matrix4<F>) -> Matrix4<F>)
      ensures sceneManager == None && log == [] && this.mul == mul
    {
      this.mul := mul;
      sceneManager := None;
      log := [];
    }

    /** setSceneManager: the scene the next frames draw. */
    method SetSceneManager(scene: SceneManager<F>)
      modifies this`sceneManager
      ensures sceneManager == Some(scene) && log == old(log)
    {
      sceneManager := Some(scene);
    }

    /**
     * matrix4fToFloat16: copy a matrix into a new 16-slot array in column-major
     * order. `slots` records where each write of the nested loops went.
     */
    method Matrix4fToFloat16(m: Matrix4<F>) returns (f: array<F>, ghost slots: seq<int>)
      ensures f.Length == 16 && f[..] == Flatten(m)
      ensures slots == TransposedOrder()
    {
      f := new F[16];
      slots := [];
      for i := 0 to 4
        invariant |slots| == 4 * i
        invariant forall p :: 0 <= p < |slots| ==> slots[p] == TransposedSlot(p)
        invariant forall c, j :: 0 <= c < i && 0 <= j < 4 ==> f[j * 4 + c] == m.Get(c, j)
      {
        for j := 0 to 4
          invariant |slots| == 4 * i + j
          invariant forall p :: 0 <= p < |slots| ==> slots[p] == TransposedSlot(p)
          invariant forall c, j' :: 0 <= c < i && 0 <= j' < 4 ==> f[j' * 4 + c] == m.Get(c, j')
          invariant forall j' :: 0 <= j' < j ==> f[j' * 4 + i] == m.Get(i, j')
        {
          f[j * 4 + i] := m.Get(i, j);
          slots := slots + [j * 4 + i];
        }
      }
      FlattenFromSlots(f[..], m);
    }

    /** beginFrame: clear the colour and depth buffers and load the projection matrix. */
    method BeginFrame()
      requires sceneManager.Some?
      modifies this`log
      ensures log == old(log) + FramePrologue(sceneManager.value)
    {
      log := log + [ClearColorBuffer];
      log := log + [ClearDepthBuffer];
      log := log + [MatrixMode(Projection)];
      var f, _ := Matrix4fToFloat16(sceneManager.value.projection);
      log := log + [LoadMatrix(f[..])];
    }

    /** endFrame: flush. */
    method EndFrame()
      modifies this`log
      ensures log == old(log) + [Flush]
    {
      log := log + [Flush];
    }

    /**
     * draw: nothing for a shape without indices; otherwise load camera * t on
     * the MODELVIEW stack and issue, between Begin and End, the dispatch of
     * every element (in list order) for every index (in array order).
     */
    method Draw(item: RenderItem<F>)
      requires sceneManager.Some? && item.shape.Some? && ShapeDrawable(item.shape.value)
      modifies this`log
      ensures log == old(log) + ItemLog(item, sceneManager.value.camera, mul)
    {
      var vertexData := item.shape.value.vertexData;
      var elements := vertexData.elements;
      if vertexData.indices.None? {
        return;
      }
      var indices := vertexData.indices.value;
      log := log + [MatrixMode(ModelView)];
      var t := mul(sceneManager.value.camera, item.t);
      var f, _ := Matrix4fToFloat16(t);
      log := log + [LoadMatrix(f[..])];
      log := log + [BeginTriangles];
      DrawTriangles(elements, indices);
      ghost var camera := sceneManager.value.camera;
      assert DrawLog(item.shape.value, item.t, camera, mul)
        == [MatrixMode(ModelView), LoadMatrix(Flatten(t)), BeginTriangles] + TriangleCmds(elements, indices) + [End];
      log := log + [End];
    }

    /** The loop of draw over the index array, between Begin and End. */
    method DrawTriangles(elements: seq<VertexElement<F>>, indices: seq<int>)
      requires IndicesReadable(elements, indices)
      modifies this`log
      ensures log == old(log) + TriangleCmds(elements, indices)
    {
      for j := 0 to |indices|
        invariant IndicesReadable(elements, indices[..j])
        invariant log == old(log) + TriangleCmds(elements, indices[..j])
      {
        DrawIndexAt(elements, indices, j, old(log));
      }
      assert indices[..|indices|] == indices;
    }

    /** One turn of the index loop of draw: the commands for vertex indices[j]. */
    method DrawIndexAt(elements: seq<VertexElement<F>>, indices: seq<int>, j: int, ghost start: seq<Cmd<F>>)
      requires IndicesReadable(elements, indices) && 0 <= j < |indices|
      requires IndicesReadable(elements, indices[..j]) && log == start + TriangleCmds(elements, indices[..j])
      modifies this`log
      ensures IndicesReadable(elements, indices[..j + 1])
      ensures log == start + TriangleCmds(elements, indices[..j + 1])
    {
      TriangleCmdsSnoc(elements, indices, j);
      DrawVertex(elements, indices[j]);
      AppendAssociates(start, TriangleCmds(elements, indices[..j]), VertexCmds(elements, indices[j]));
    }

    /** The inner loop of draw: walk the element list for vertex index i. */
    method DrawVertex(elements: seq<VertexElement<F>>, i: int)
      requires AllReadable(elements, i)
      modifies this`log
      ensures log == old(log) + VertexCmds(elements, i)
    {
      var q := 0;
      while q < |elements|
        invariant 0 <= q <= |elements|
        invariant log == old(log) + VertexCmds(elements[..q], i)
      {
        var c := Emit(elements[q], i);
        if c.Some? {
          log := log + [c.value];
        }
        VertexCmdsSnoc(elements, i, q);
        q := q + 1;
      }
      assert elements[..q] == elements;
    }

    /**
     * display: begin the frame, draw every item of the scene whose shape is
     * not null, in iterator order, and end the frame.
     */
    method Display()
      requires sceneManager.Some? && ItemsDrawable(sceneManager.value.items)
      modifies this`log
      ensures log == old(log) + FrameLog(sceneManager.value, mul)
    {
      ghost var scene, start := sceneManager.value, log;
      ghost var prologue, body := FramePrologue(scene), ItemsLog(scene.items, scene.camera, mul);
      BeginFrame();
      DrawItems(sceneManager.value);
      AppendAssociates(start, prologue, body);
      EndFrame();
      AppendAssociates(start, prologue + body, [Flush]);
    }

    /** The item loop of display: draw skips every item whose shape is null. */
    method DrawItems(scene: SceneManager<F>)
      requires sceneManager == Some(scene) && ItemsDrawable(scene.items)
      modifies this`log
      ensures log == old(log) + ItemsLog(scene.items, scene.camera, mul)
    {
      var items := scene.items;
      var k := 0;
      while k < |items|
        invariant 0 <= k <= |items|
        invariant ItemsDrawable(items[..k])
        invariant log == old(log) + ItemsLog(items[..k], scene.camera, mul)
      {
        DrawItemAt(scene, k, old(log));
        k := k + 1;
      }
      assert items[..k] == items;
    }

    /** One turn of the item loop: draw item k if its shape is not null. */
    method DrawItemAt(scene: SceneManager<F>, k: int, ghost start: seq<Cmd<F>>)
      requires sceneManager == Some(scene) && ItemsDrawable(scene.items) && 0 <= k < |scene.items|
      requires ItemsDrawable(scene.items[..k]) && log == start + ItemsLog(scene.items[..k], scene.camera, mul)
      modifies this`log
      ensures ItemsDrawable(scene.items[..k + 1])
      ensures log == start + ItemsLog(scene.items[..k + 1], scene.camera, mul)
    {
      ItemsLogSnoc(scene.items, k, scene.camera, mul);
      DrawIfShaped(scene.items[k]);
      AppendAssociates(start, ItemsLog(scene.items[..k], scene.camera, mul), ItemLog(scene.items[k], scene.camera, mul));
    }

    /** The body of the item loop: an item whose shape is null is skipped. */
    method DrawIfShaped(r: RenderItem<F>)
      requires sceneManager.Some? && (r.shape.Some? ==> ShapeDrawable(r.shape.value))
      modifies this`log
      ensures log == old(log) + ItemLog(r, sceneManager.value.camera, mul)
    {
      if r.shape.Some? {
        Draw(r);
      }
    }
  }
}
