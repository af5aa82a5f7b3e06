/**
 * The bookkeeping of the batch renderer: the static index array that turns
 * every four vertices into two triangles, the vertex buffer that quads are
 * appended to, the automatic flush when it is full, and the projection
 * matrix kept in step with the window size and camera position.
 */
module Rendering {
  import opened Matrices

  const MAX_QUAD_COUNT: int := 1000
  const MAX_INDEX_COUNT: int := MAX_QUAD_COUNT * 6
  /** Nine floats of four bytes each: position (3), texture coordinate (2), colour (4). */
  const VERTEX_BYTE_SIZE: int := 4 * 9
  const VERTICES_SIZE: int := (MAX_QUAD_COUNT * 4) * VERTEX_BYTE_SIZE
  /** The bytes one quad adds to the vertex buffer. */
  const QUAD_BYTE_SIZE: int := 4 * VERTEX_BYTE_SIZE

  /** The corner of a quad that each of its six indices names: triangles (0, 1, 2) and (2, 3, 0). */
  function Corner(j: int): (c: int)
    requires 0 <= j < 6
    ensures 0 <= c < 4
  {
    [0, 1, 2, 2, 3, 0][j]
  }

  /** The index at position `i` of the index array. */
  function IndexPattern(i: int): int
    requires 0 <= i
  {
    4 * (i / 6) + Corner(i % 6)
  }

  /** The six indices the index-array loop writes for quad `q`. */
  function QuadIndices(q: int): (r: seq<int>)
    ensures |r| == 6
  {
    var offset := 4 * q;
    [0 + offset, 1 + offset, 2 + offset, 2 + offset, 3 + offset, 0 + offset]
  }

  /** The index array for the first `n` quads. */
  function IndexArray(n: nat): (r: seq<int>)
  {
    if n == 0 then [] else IndexArray(n - 1) + QuadIndices(n - 1)
  }

  /**
   * The index array for `n` quads has 6n entries following the pattern
   * 4k + {0, 1, 2, 2, 3, 0}, and each names a vertex among the first 4n.
   */
  lemma {:induction false} IndexArrayFollowsPattern(n: nat)
    ensures |IndexArray(n)| == 6 * n
    ensures forall i :: 0 <= i < 6 * n ==> IndexArray(n)[i] == IndexPattern(i)
    ensures forall i :: 0 <= i < 6 * n ==> 0 <= IndexArray(n)[i] < 4 * n
  {
    if n > 0 {
      IndexArrayFollowsPattern(n - 1);
      var prefix := IndexArray(n - 1);
      var r := IndexArray(n);
      assert r == prefix + QuadIndices(n - 1);
      forall i | 0 <= i < 6 * n
        ensures r[i] == IndexPattern(i) && 0 <= r[i] < 4 * n
      {
        if i < 6 * (n - 1) {
          assert r[i] == prefix[i];
        } else {
          var j := i - 6 * (n - 1);
          assert i / 6 == n - 1 && i % 6 == j;
          assert r[i] == QuadIndices(n - 1)[j];
        }
      }
    }
  }

  /** The six indices of quad `q` name exactly its four vertices 4q .. 4q + 3. */
  lemma QuadIndicesCoverQuad(q: int)
    ensures (set j | 0 <= j < 6 :: QuadIndices(q)[j]) == {4 * q, 4 * q + 1, 4 * q + 2, 4 * q + 3}
  {
    var s := set j | 0 <= j < 6 :: QuadIndices(q)[j];
    assert QuadIndices(q)[0] == 4 * q && QuadIndices(q)[1] == 4 * q + 1;
    assert QuadIndices(q)[2] == 4 * q + 2 && QuadIndices(q)[4] == 4 * q + 3;
    assert s == {4 * q, 4 * q + 1, 4 * q + 2, 4 * q + 3};
  }

  /** The index-array loop of the constructor, with the int buffer as a growing sequence. */
  method BuildIndexArray() returns (indices: seq<int>)
    ensures indices == IndexArray(MAX_QUAD_COUNT)
    ensures |indices| == MAX_INDEX_COUNT
    ensures forall i :: 0 <= i < |indices| ==> indices[i] == IndexPattern(i)
    ensures forall i :: 0 <= i < |indices| ==> 0 <= indices[i] < 4 * MAX_QUAD_COUNT
  {
    indices := [];
    var indexOffset := 0;
    var i := 0;
    while i < MAX_INDEX_COUNT
      invariant 0 <= i <= MAX_INDEX_COUNT && i % 6 == 0
      invariant indexOffset == 4 * (i / 6)
      invariant indices == IndexArray(i / 6)
    {
      indices := indices + [0 + indexOffset, 1 + indexOffset, 2 + indexOffset,
                            2 + indexOffset, 3 + indexOffset, 0 + indexOffset];
      indexOffset := indexOffset + 4;
      i := i + 6;
    }
    IndexArrayFollowsPattern(MAX_QUAD_COUNT);
  }

  /** The nine floats of one vertex, in buffer order. */
  function Vertex(x: real, y: real, z: real, u: real, v: real, red: real, green: real, blue: real, alpha: real): (r: seq<real>)
    ensures |r| * 4 == VERTEX_BYTE_SIZE
  {
    [x, y, z, u, v, red, green, blue, alpha]
  }

  /**
   * The four vertices `addQuad` appends, given the texture rectangle already
   * divided by the atlas size: corners (x, y), (x + w, y), (x + w, y + h),
   * (x, y + h), each with the matching corner of the texture rectangle.
   */
  function Quad(x: real, y: real, z: real, width: real, height: real,
                u: real, v: real, textureWidth: real, textureHeight: real,
                red: real, green: real, blue: real, alpha: real): (r: seq<real>)
    ensures |r| * 4 == QUAD_BYTE_SIZE
  {
    Vertex(x, y, z, u, v, red, green, blue, alpha) +
    Vertex(x + width, y, z, u + textureWidth, v, red, green, blue, alpha) +
    Vertex(x + width, y + height, z, u + textureWidth, v + textureHeight, red, green, blue, alpha) +
    Vertex(x, y + height, z, u, v + textureHeight, red, green, blue, alpha)
  }

  /** Whether corner `c` of a quad lies on its right (x + w) side. */
  predicate RightCorner(c: int)
  {
    c == 1 || c == 2
  }

  /** Whether corner `c` of a quad lies on its lower (y + h) side. */
  predicate LowerCorner(c: int)
  {
    c == 2 || c == 3
  }

  /**
   * Vertex `c` of a quad sits at the matching corner of the rectangle and of
   * the texture rectangle, and carries the same depth and colour as the others.
   */
  lemma QuadCorners(x: real, y: real, z: real, width: real, height: real,
                    u: real, v: real, textureWidth: real, textureHeight: real,
                    red: real, green: real, blue: real, alpha: real, c: int)
    requires 0 <= c < 4
    ensures var q := Quad(x, y, z, width, height, u, v, textureWidth, textureHeight, red, green, blue, alpha);
            && q[9 * c] == (if RightCorner(c) then x + width else x)
            && q[9 * c + 1] == (if LowerCorner(c) then y + height else y)
            && q[9 * c + 2] == z
            && q[9 * c + 3] == (if RightCorner(c) then u + textureWidth else u)
            && q[9 * c + 4] == (if LowerCorner(c) then v + textureHeight else v)
            && q[9 * c + 5 .. 9 * c + 9] == [red, green, blue, alpha]
  {
  }

  /** The projection and the vertex data of one upload-and-draw of the batch. */
  datatype DrawCall = DrawCall(projection: seq<real>, vertexData: seq<real>)

  /** The projection the renderer sets up for a window of the given size. */
  function WindowProjection(e: seq<real>, windowWidth: real, windowHeight: real): (r: seq<real>)
    requires |e| == 16 && windowWidth != 0.0 && windowHeight != 0.0
    ensures |r| == 16
  {
    Projected(e, 0.0, windowWidth, windowHeight, 0.0, 0.0, 10.0)
  }

  /**
   * Before any camera move, the window projection sends the top-left pixel
   * (0, 0) to the top-left corner (-1, 1) of clip space and the pixel
   * (width, height) to the bottom-right corner (1, -1).
   */
  lemma WindowProjectionCorners(windowWidth: real, windowHeight: real)
    requires windowWidth != 0.0 && windowHeight != 0.0
    ensures Transform(WindowProjection(IdentityElements(), windowWidth, windowHeight), 0.0, 0.0, 0.0) == (-1.0, 1.0, -1.0, 1.0)
    ensures Transform(WindowProjection(IdentityElements(), windowWidth, windowHeight), windowWidth, windowHeight, 0.0) == (1.0, -1.0, -1.0, 1.0)
  {
    var p := WindowProjection(IdentityElements(), windowWidth, windowHeight);
    AxisAlignedTransform(p, 0.0, 0.0, 0.0);
    AxisAlignedTransform(p, windowWidth, windowHeight, 0.0);
    AxisMapsRangeToUnit(0.0, windowWidth);
    AxisMapsRangeToUnit(windowHeight, 0.0);
    AxisMapsRangeToUnit(0.0, 10.0);
    assert p[10] * 0.0 == 0.0;
    assert p[0] * windowWidth + p[12] == 1.0;
    assert p[5] * windowHeight + p[13] == -1.0;
  }

  /** The translation `setCameraPosition` stores for a camera at (x, y, z). */
  function CameraOffset(x: real, y: real, z: real, windowWidth: real, windowHeight: real): (real, real, real)
    requires windowWidth != 0.0 && windowHeight != 0.0
  {
    (x / (windowWidth / -2.0), y / (windowHeight / 2.0), z)
  }

  /** The pixel the camera is set to lands in the centre of the view. */
  lemma CameraCentresView(x: real, y: real, z: real, windowWidth: real, windowHeight: real)
    requires windowWidth != 0.0 && windowHeight != 0.0
    ensures var offset := CameraOffset(x, y, z, windowWidth, windowHeight);
            var p := WithPosition(WindowProjection(IdentityElements(), windowWidth, windowHeight), offset.0, offset.1, offset.2);
            Transform(p, x, y, 0.0).0 == 0.0 && Transform(p, x, y, 0.0).1 == 0.0
  {
    var offset := CameraOffset(x, y, z, windowWidth, windowHeight);
    var p := WithPosition(WindowProjection(IdentityElements(), windowWidth, windowHeight), offset.0, offset.1, offset.2);
    AxisAlignedTransform(p, x, y, 0.0);
    assert p[0] == 2.0 / windowWidth && p[12] == x / (windowWidth / -2.0);
    assert p[0] * x + p[12] == 0.0 by {
      assert x / (windowWidth / -2.0) == -(2.0 * x) / windowWidth;
    }
    assert p[5] == 2.0 / -windowHeight && p[13] == y / (windowHeight / 2.0);
    assert p[5] * y + p[13] == 0.0 by {
      assert y / (windowHeight / 2.0) == (2.0 * y) / windowHeight;
    }
  }

  class Renderer {
    /** The vertex byte buffer, one slot per four-byte float. */
    const vertices: array<real>
    /** The byte position of the vertex buffer. */
    var position: int
    const matrix: Matrix4f
    var windowWidth: real
    var windowHeight: real
    /** The element buffer uploaded once by the constructor. */
    const elementData: seq<int>
    /** The batches handed to the graphics library, oldest first. */
    var drawn: seq<DrawCall>

    /** The buffer state between calls: a whole number of quads, never full. */
    predicate Valid()
      reads this
    {
      Buffered() && position % QUAD_BYTE_SIZE == 0 && position < VERTICES_SIZE
    }

    /** The buffer state around a single float write. */
    predicate Buffered()
      reads this
    {
      vertices.Length * 4 == VERTICES_SIZE && 0 <= position <= VERTICES_SIZE && position % 4 == 0
    }

    /** The floats written since the last flush. */
    function Pending(): seq<real>
      requires Buffered()
      reads this, vertices
    {
      vertices[..position / 4]
    }

    /** Sets up the buffers and the projection for a window of the given size. */
    constructor (windowWidth: real, windowHeight: real)
      requires windowWidth != 0.0 && windowHeight != 0.0
      ensures Valid() && fresh(vertices) && fresh(matrix)
      ensures position == 0 && drawn == []
      ensures this.windowWidth == windowWidth && this.windowHeight == windowHeight
      ensures matrix.Elements() == WindowProjection(IdentityElements(), windowWidth, windowHeight)
      ensures elementData == IndexArray(MAX_QUAD_COUNT)
    {
      vertices := new real[VERTICES_SIZE / 4](_ => 0.0);
      position := 0;
      var m := new Matrix4f();
      matrix := m;
      this.windowWidth := windowWidth;
      this.windowHeight := windowHeight;
      var _ := m.Orthographic(0.0, windowWidth, windowHeight, 0.0, 0.0, 10.0);
      var indices := BuildIndexArray();
      elementData := indices;
      drawn := [];
    }

    /** `putFloat` on the byte buffer: four bytes at the position, which then moves on. */
    method PutFloat(value: real)
      requires Buffered() && position + 4 <= VERTICES_SIZE
      modifies vertices, this`position
      ensures Buffered() && position == old(position) + 4
      ensures forall k :: 0 <= k < old(position) / 4 ==> vertices[k] == old(vertices[k])
      ensures vertices[old(position) / 4] == value
    {
      vertices[position / 4] := value;
      position := position + 4;
    }

    /** `addVertex`: nine floats after the pending ones; the earlier ones stay as they are. */
    method AddVertex(x: real, y: real, z: real, u: real, v: real, red: real, green: real, blue: real, alpha: real)
      requires Buffered() && position + VERTEX_BYTE_SIZE <= VERTICES_SIZE
      modifies vertices, this`position
      ensures Buffered() && position == old(position) + VERTEX_BYTE_SIZE
      ensures Pending() == old(Pending()) + Vertex(x, y, z, u, v, red, green, blue, alpha)
    {
      ghost var start := Pending();
      ghost var slot := position / 4;
      PutFloat(x);
      PutFloat(y);
      PutFloat(z);
      PutFloat(u);
      PutFloat(v);
      PutFloat(red);
      PutFloat(green);
      PutFloat(blue);
      PutFloat(alpha);
      assert vertices[..slot] == start;
      assert vertices[slot..slot + 9] == Vertex(x, y, z, u, v, red, green, blue, alpha);
      assert Pending() == vertices[..slot] + vertices[slot..slot + 9];
    }

    /** The four `addVertex` calls of `addQuad`, on the texture rectangle already divided by the atlas size. */
    method AddQuadVertices(x: real, y: real, z: real, width: real, height: real,
                           u: real, v: real, textureWidth: real, textureHeight: real,
                           red: real, green: real, blue: real, alpha: real)
      requires Valid()
      modifies vertices, this`position
      ensures Buffered() && position == old(position) + QUAD_BYTE_SIZE
      ensures Pending() == old(Pending()) + Quad(x, y, z, width, height, u, v, textureWidth, textureHeight, red, green, blue, alpha)
    {
      ghost var start := Pending();
      ghost var first := Vertex(x, y, z, u, v, red, green, blue, alpha);
      ghost var second := Vertex(x + width, y, z, u + textureWidth, v, red, green, blue, alpha);
      ghost var third := Vertex(x + width, y + height, z, u + textureWidth, v + textureHeight, red, green, blue, alpha);
      ghost var fourth := Vertex(x, y + height, z, u, v + textureHeight, red, green, blue, alpha);
      AddVertex(x, y, z, u, v, red, green, blue, alpha);
      AddVertex(x + width, y, z, u + textureWidth, v, red, green, blue, alpha);
      AddVertex(x + width, y + height, z, u + textureWidth, v + textureHeight, red, green, blue, alpha);
      AddVertex(x, y + height, z, u, v + textureHeight, red, green, blue, alpha);
      assert Pending() == start + first + second + third + fourth;
      assert start + first + second + third + fourth == start + (first + second + third + fourth);
    }

    /**
     * Draws the pending batch with the current projection and empties the
     * buffer; an empty buffer draws nothing.
     */
    method Flush()
      requires Buffered()
      modifies this`position, this`drawn
      ensures Buffered()
      ensures old(position) == 0 ==> position == 0 && drawn == old(drawn)
      ensures old(position) != 0 ==> position == 0 && drawn == old(drawn) + [DrawCall(matrix.Elements(), old(Pending()))]
    {
      if position != 0 {
        drawn := drawn + [DrawCall(matrix.Elements(), vertices[..position / 4])];
        position := 0;
      }
    }

    /**
     * Appends one textured quad, with the atlas reduced to its size in
     * pixels, and draws the batch once it holds the maximum number of quads.
     */
    method AddQuad(x: real, y: real, z: real, width: real, height: real,
                   xTextureCoord: real, yTextureCoord: real, textureWidth: real, textureHeight: real,
                   red: real, green: real, blue: real, alpha: real, atlasWidth: real, atlasHeight: real)
      requires Valid() && atlasWidth != 0.0 && atlasHeight != 0.0
      modifies vertices, this`position, this`drawn
      ensures Valid()
      ensures var quad := Quad(x, y, z, width, height, xTextureCoord / atlasWidth, yTextureCoord / atlasHeight,
                               textureWidth / atlasWidth, textureHeight / atlasHeight, red, green, blue, alpha);
              if old(position) + QUAD_BYTE_SIZE == VERTICES_SIZE then
                position == 0 && drawn == old(drawn) + [DrawCall(matrix.Elements(), old(Pending()) + quad)]
              else
                position == old(position) + QUAD_BYTE_SIZE && drawn == old(drawn) && Pending() == old(Pending()) + quad
    {
      var xTextureCoordRatio := xTextureCoord / atlasWidth;
      var yTextureCoordRatio := yTextureCoord / atlasHeight;
      var textureWidthRatio := textureWidth / atlasWidth;
      var textureHeightRatio := textureHeight / atlasHeight;
      AddQuadVertices(x, y, z, width, height, xTextureCoordRatio, yTextureCoordRatio,
                      textureWidthRatio, textureHeightRatio, red, green, blue, alpha);

      if position == VERTICES_SIZE {
        Flush();
      }
    }

    method GetWindowWidth() returns (r: real)
      ensures r == windowWidth
    {
      r := windowWidth;
    }

    method GetWindowHeight() returns (r: real)
      ensures r == windowHeight
    {
      r := windowHeight;
    }

    /** Centres the camera on the pixel (x, y): stores the matching translation. */
    method SetCameraPosition(x: real, y: real, z: real)
      requires windowWidth != 0.0 && windowHeight != 0.0
      modifies matrix
      ensures var offset := CameraOffset(x, y, z, windowWidth, windowHeight);
              matrix.Elements() == WithPosition(old(matrix.Elements()), offset.0, offset.1, offset.2)
    {
      var _ := matrix.SetPosition(x / (windowWidth / -2.0), y / (windowHeight / 2.0), z);
    }

    /** Records the new window size and redoes the projection for it. */
    method SetWindowSize(windowWidth: real, windowHeight: real)
      requires windowWidth != 0.0 && windowHeight != 0.0
      modifies this`windowWidth, this`windowHeight, matrix
      ensures this.windowWidth == windowWidth && this.windowHeight == windowHeight
      ensures matrix.Elements() == WindowProjection(old(matrix.Elements()), windowWidth, windowHeight)
    {
      this.windowWidth := windowWidth;
      this.windowHeight := windowHeight;
      var _ := matrix.Orthographic(0.0, windowWidth, windowHeight, 0.0, 0.0, 10.0);
    }
  }

  /** Resizing the window overwrites the translation, so it discards any camera position set before. */
  lemma ResizeDiscardsCamera(e: seq<real>, x: real, y: real, z: real, windowWidth: real, windowHeight: real)
    requires |e| == 16 && windowWidth != 0.0 && windowHeight != 0.0
    ensures WindowProjection(WithPosition(e, x, y, z), windowWidth, windowHeight) == WindowProjection(e, windowWidth, windowHeight)
  {
    var lhs := WindowProjection(WithPosition(e, x, y, z), windowWidth, windowHeight);
    var rhs := WindowProjection(e, windowWidth, windowHeight);
    assert forall i :: 0 <= i < 16 ==> lhs[i] == rhs[i];
  }

  /**
   * Starting from an empty buffer, `k` calls of `addQuad` (at most the
   * buffer's capacity) draw nothing until the thousandth, which draws the
   * whole batch and empties the buffer; before that the buffer holds `k`
   * quads.
   */
  method FlushComesEveryThousandQuads(r: Renderer, k: nat, x: real, y: real, z: real, width: real, height: real,
                                      xTextureCoord: real, yTextureCoord: real, textureWidth: real, textureHeight: real,
                                      red: real, green: real, blue: real, alpha: real, atlasWidth: real, atlasHeight: real)
    requires r.Valid() && r.position == 0 && k <= MAX_QUAD_COUNT
    requires atlasWidth != 0.0 && atlasHeight != 0.0
    modifies r.vertices, r`position, r`drawn
    ensures r.Valid()
    ensures |r.drawn| == old(|r.drawn|) + (if k == MAX_QUAD_COUNT then 1 else 0)
    ensures r.drawn[..old(|r.drawn|)] == old(r.drawn)
    ensures r.position == if k == MAX_QUAD_COUNT then 0 else k * QUAD_BYTE_SIZE
  {
    var i := 0;
    while i < k
      invariant 0 <= i <= k && r.Valid()
      invariant r.position == if i == MAX_QUAD_COUNT then 0 else i * QUAD_BYTE_SIZE
      invariant |r.drawn| == old(|r.drawn|) + (if i == MAX_QUAD_COUNT then 1 else 0)
      invariant r.drawn[..old(|r.drawn|)] == old(r.drawn)
    {
      r.AddQuad(x, y, z, width, height, xTextureCoord, yTextureCoord, textureWidth, textureHeight,
                red, green, blue, alpha, atlasWidth, atlasHeight);
      i := i + 1;
    }
  }
}
