/**
 * AssetStudio/Extensions/SpriteExtensions.cs: the sprite outline mesh decoder (`GetTriangles`) for
 * the legacy and the stream encodings, and the rect and texture lookups through a packing atlas.
 *
 * Each decoding loop of the source is a method proved equal to a specification function; the
 * properties of the decoder are lemmas about those functions.  A thrown exception (an array index
 * out of range, a read past the end of a buffer) is an `Err` value.
 */
module SpriteExtensions {
  import opened Wrappers
  import opened Geometry
  import opened Assets
  import Editor
  import VectorExtensions

  datatype DecodeError =
    | NoPositionChannel   // `m_Channels[0]` on an empty channel table
    | NoSuchStream        // `m_Streams[m_Channel.stream]` out of range
    | VertexReadPastEnd   // `ReadVector3` past the end of the vertex bytes
    | IndexReadPastEnd    // `ReadUInt16` past the end of the index buffer
    | IndexOutOfRange     // a vertex array indexed outside its bounds
    | CursorOutOfRange    // a cursor set beyond `MaxPosition`, which `MemoryStream` refuses

  /** A decoded triangle: the `Vector2[]` of its corners. */
  type Triangle = seq<Vector2>

  /**
   * The reading of four little-endian bytes as a single-precision float (`BinaryReader.ReadSingle`).
   * The decoder only moves these values around, so the model takes the reading as a parameter.
   */
  type Float32Reader = seq<byte> -> real

  /** Every decoded triangle has exactly three corners. */
  predicate AllTriangles(ts: seq<Triangle>) {
    forall i :: 0 <= i < |ts| ==> |ts[i]| == 3
  }

  // ----- Legacy encoding: a vertex array and a flat index array -----

  /** Every index of a complete triple names a vertex. */
  predicate LegacyIndicesInRange(vertexCount: nat, indices: seq<nat>) {
    forall k :: 0 <= k < |indices| / 3 * 3 ==> indices[k] < vertexCount
  }

  function LegacyTriangles(vertices: seq<SpriteVertex>, indices: seq<nat>): (r: Result<seq<Triangle>, DecodeError>)
    ensures r.Ok? ==> AllTriangles(r.value)
  {
    if LegacyIndicesInRange(|vertices|, indices) then
      Ok(seq(|indices| / 3, i requires 0 <= i < |indices| / 3 =>
        [vertices[indices[3 * i]].pos.Xy(), vertices[indices[3 * i + 1]].pos.Xy(), vertices[indices[3 * i + 2]].pos.Xy()]))
    else
      Err(IndexOutOfRange)
  }

  /**
   * Legacy decoding succeeds exactly when the complete triples index existing vertices; it then
   * yields `|indices| / 3` triangles, triangle i being the XY of the three indexed vertices in order.
   */
  lemma LegacyGather(vertices: seq<SpriteVertex>, indices: seq<nat>, i: nat)
    ensures LegacyTriangles(vertices, indices).Ok? <==> LegacyIndicesInRange(|vertices|, indices)
    ensures LegacyTriangles(vertices, indices).Ok? ==> |LegacyTriangles(vertices, indices).value| == |indices| / 3
    ensures LegacyTriangles(vertices, indices).Ok? && i < |indices| / 3 ==>
      LegacyTriangles(vertices, indices).value[i] ==
        [vertices[indices[3 * i]].pos.Xy(), vertices[indices[3 * i + 1]].pos.Xy(), vertices[indices[3 * i + 2]].pos.Xy()]
  {
  }

  /** An index at or beyond the vertex count in a complete triple makes legacy decoding fail. */
  lemma LegacyBadIndexFails(vertices: seq<SpriteVertex>, indices: seq<nat>, k: nat)
    requires k < |indices| / 3 * 3 && indices[k] >= |vertices|
    ensures LegacyTriangles(vertices, indices) == Err(IndexOutOfRange)
  {
  }

  /** One or two trailing indices after the last complete triple are ignored. */
  lemma LegacyTrailingIndicesIgnored(vertices: seq<SpriteVertex>, indices: seq<nat>, extra: seq<nat>)
    requires |indices| % 3 == 0 && |extra| < 3
    ensures LegacyTriangles(vertices, indices + extra) == LegacyTriangles(vertices, indices)
  {
    var all := indices + extra;
    assert |all| / 3 == |indices| / 3;
    assert |indices| / 3 * 3 == |indices|;
    assert forall k :: 0 <= k < |indices| ==> all[k] == indices[k];
    assert LegacyIndicesInRange(|vertices|, all) <==> LegacyIndicesInRange(|vertices|, indices);
    if LegacyIndicesInRange(|vertices|, indices) {
      assert LegacyTriangles(vertices, all).value == LegacyTriangles(vertices, indices).value;
    }
  }

  /** The legacy branch of `GetTriangles`: a gather loop filling a triangle array. */
  method DecodeLegacy(vertexArray: seq<SpriteVertex>, indices: seq<nat>) returns (r: Result<seq<Triangle>, DecodeError>)
    ensures r == LegacyTriangles(vertexArray, indices)
  {
    var vertices := seq(|vertexArray|, j requires 0 <= j < |vertexArray| => vertexArray[j].pos.Xy());
    var triangleCount := |indices| / 3;
    var triangles := new Triangle[triangleCount];
    var i := 0;
    while i < triangleCount
      invariant 0 <= i <= triangleCount
      invariant forall k :: 0 <= k < 3 * i ==> indices[k] < |vertices|
      invariant forall j :: 0 <= j < i ==>
        triangles[j] == [vertexArray[indices[3 * j]].pos.Xy(), vertexArray[indices[3 * j + 1]].pos.Xy(),
                         vertexArray[indices[3 * j + 2]].pos.Xy()]
    {
      var first := indices[i * 3];
      var second := indices[i * 3 + 1];
      var third := indices[i * 3 + 2];
      if |vertices| <= first || |vertices| <= second || |vertices| <= third {
        return Err(IndexOutOfRange);
      }
      triangles[i] := [vertices[first], vertices[second], vertices[third]];
      i := i + 1;
    }
    assert LegacyIndicesInRange(|vertexArray|, indices);
    assert triangles[..] == LegacyTriangles(vertexArray, indices).value;
    return Ok(triangles[..]);
  }

  // ----- Stream encoding: interleaved vertex bytes, a 16-bit index buffer and submeshes -----

  /** `ReadUInt16` at byte offset p: little-endian. */
  function U16At(buf: seq<byte>, p: nat): nat
    requires p + 2 <= |buf|
  {
    (buf[p] as int) + 256 * (buf[p + 1] as int)
  }

  /** `ReadVector3` at byte offset p: three consecutive 4-byte floats. */
  function Vector3At(data: seq<byte>, p: nat, f32: Float32Reader): Vector3
    requires p + 12 <= |data|
  {
    Vector3(f32(data[p..p + 4]), f32(data[p + 4..p + 8]), f32(data[p + 8..p + 12]))
  }

  /**
   * Byte offset of the v-th vertex read when the cursor starts at `start` and every read advances
   * it by 12 bytes and then by `stride - 12`.
   */
  function VertexOffset(start: nat, stride: nat, v: nat): nat {
    if v == 0 then start else VertexOffset(start, stride, v - 1) + stride
  }

  /** The cursor walk lands on the closed-form offset `start + v * stride`. */
  lemma {:induction false} VertexOffsetClosedForm(start: nat, stride: nat, v: nat)
    ensures VertexOffset(start, stride, v) == start + v * stride
  {
    if v > 0 {
      VertexOffsetClosedForm(start, stride, v - 1);
      assert v * stride == (v - 1) * stride + stride;
    }
  }

  /** The 12 bytes of the v-th position lie inside the vertex data. */
  predicate VertexInBounds(data: seq<byte>, start: nat, stride: nat, v: nat) {
    VertexOffset(start, stride, v) + 12 <= |data|
  }

  /** X and Y of the v-th position. */
  function PositionAt(data: seq<byte>, start: nat, stride: nat, v: nat, f32: Float32Reader): Vector2
    requires VertexInBounds(data, start, stride, v)
  {
    Vector3At(data, VertexOffset(start, stride, v), f32).Xy()
  }

  /** `int.MaxValue`: a `MemoryStream` throws when its position is set beyond it. */
  const MaxPosition: nat := 0x7FFF_FFFF

  /**
   * The skip after the v-th read lands at an acceptable position.  The skip `stride - 12` is
   * unsigned 32-bit arithmetic: below 12 it wraps to more than 2^31, beyond `MaxPosition`.
   */
  predicate SkipFits(start: nat, stride: nat, v: nat) {
    12 <= stride && VertexOffset(start, stride, v + 1) <= MaxPosition
  }

  /** Iteration v of the vertex loop completes: its read fits in the vertex bytes and its skip fits. */
  predicate StepFits(data: seq<byte>, start: nat, stride: nat, v: nat) {
    VertexInBounds(data, start, stride, v) && SkipFits(start, stride, v)
  }

  /** The first iteration from `from` on that does not complete, or `count` when all of them do. */
  function FirstUnfit(data: seq<byte>, start: nat, stride: nat, from: nat, count: nat): nat
    decreases count - from
  {
    if count <= from then count
    else if !StepFits(data, start, stride, from) then from
    else FirstUnfit(data, start, stride, from + 1, count)
  }

  /**
   * The vertex loop of one submesh: seek to `start`, then `count` positions, one per stride, keeping
   * X and Y.  The first iteration that does not complete decides the error: a read past the end, or
   * a skip beyond `MaxPosition`.
   */
  function ReadPositions(data: seq<byte>, start: nat, stride: nat, count: nat, f32: Float32Reader)
    : (r: Result<seq<Vector2>, DecodeError>)
    ensures r.Ok? ==> |r.value| == count
    ensures r.Err? ==> r.error == VertexReadPastEnd || r.error == CursorOutOfRange
  {
    if MaxPosition < start then
      Err(CursorOutOfRange)
    else if forall v :: 0 <= v < count ==> VertexInBounds(data, start, stride, v) && SkipFits(start, stride, v) then
      Ok(seq(count, v requires 0 <= v < count => PositionAt(data, start, stride, v, f32)))
    else if VertexInBounds(data, start, stride, FirstUnfit(data, start, stride, 0, count)) then
      Err(CursorOutOfRange)
    else
      Err(VertexReadPastEnd)
  }

  /** The raw 16-bit index number k (0-based) of a run starting at byte p. */
  function RawIndex(ib: seq<byte>, p: nat, k: nat): nat
    requires p + 2 * k + 2 <= |ib|
  {
    U16At(ib, p + 2 * k)
  }

  /** One iteration of the index loop: three reads, rebasing by `firstVertex`, then the gather. */
  function ReadTriangle(ib: seq<byte>, p: nat, firstVertex: nat, vertices: seq<Vector2>): Result<Triangle, DecodeError> {
    if |ib| < p + 6 then
      Err(IndexReadPastEnd)
    else
      var first := U16At(ib, p) - firstVertex;
      var second := U16At(ib, p + 2) - firstVertex;
      var third := U16At(ib, p + 4) - firstVertex;
      if 0 <= first < |vertices| && 0 <= second < |vertices| && 0 <= third < |vertices| then
        Ok([vertices[first], vertices[second], vertices[third]])
      else
        Err(IndexOutOfRange)
  }

  /** The index loop of one submesh: `n` triangles read from byte p onwards, in order. */
  function TrianglesFrom(ib: seq<byte>, p: nat, n: nat, firstVertex: nat, vertices: seq<Vector2>)
    : (r: Result<seq<Triangle>, DecodeError>)
    ensures r.Ok? ==> |r.value| == n && AllTriangles(r.value)
    decreases n
  {
    if n == 0 then
      Ok([])
    else
      var t :- ReadTriangle(ib, p, firstVertex, vertices);
      var rest :- TrianglesFrom(ib, p + 6, n - 1, firstVertex, vertices);
      Ok([t] + rest)
  }

  /** The index loop of one submesh: seek to `firstByte`, then `indexCount / 3` triangles. */
  function IndexTriples(ib: seq<byte>, firstByte: nat, indexCount: nat, firstVertex: nat, vertices: seq<Vector2>)
    : (r: Result<seq<Triangle>, DecodeError>)
    ensures r.Ok? ==> |r.value| == indexCount / 3 && AllTriangles(r.value)
  {
    if MaxPosition < firstByte then Err(CursorOutOfRange)
    else TrianglesFrom(ib, firstByte, indexCount / 3, firstVertex, vertices)
  }

  /** Where the vertex cursor is set for a submesh: its first vertex's position channel in the stream. */
  function VertexStart(stream: StreamInfo, channel: ChannelInfo, sm: SubMesh): nat {
    stream.offset + sm.firstVertex * stream.stride + channel.offset
  }

  /** Everything one submesh contributes: its local vertices, then its triangles. */
  function SubMeshTriangles(data: seq<byte>, ib: seq<byte>, stream: StreamInfo, channel: ChannelInfo,
                            sm: SubMesh, f32: Float32Reader): (r: Result<seq<Triangle>, DecodeError>)
    ensures r.Ok? ==> |r.value| == sm.indexCount / 3 && AllTriangles(r.value)
  {
    var vertices :- ReadPositions(data, VertexStart(stream, channel, sm),
                                  stream.stride, sm.vertexCount, f32);
    IndexTriples(ib, sm.firstByte, sm.indexCount, sm.firstVertex, vertices)
  }

  /** The submesh loop: the triangles of all submeshes concatenated in submesh order. */
  function SubMeshesTriangles(data: seq<byte>, ib: seq<byte>, stream: StreamInfo, channel: ChannelInfo,
                              subMeshes: seq<SubMesh>, f32: Float32Reader): (r: Result<seq<Triangle>, DecodeError>)
    decreases |subMeshes|
  {
    if subMeshes == [] then
      Ok([])
    else
      var before :- SubMeshesTriangles(data, ib, stream, channel, subMeshes[..|subMeshes| - 1], f32);
      Chain(before, SubMeshTriangles(data, ib, stream, channel, subMeshes[|subMeshes| - 1], f32))
  }

  /** The stream branch of `GetTriangles`: only channel 0 is read, through the stream it names. */
  function StreamTriangles(vd: VertexData, ib: seq<byte>, subMeshes: seq<SubMesh>, f32: Float32Reader)
    : (r: Result<seq<Triangle>, DecodeError>)
  {
    if |vd.channels| == 0 then
      Err(NoPositionChannel)
    else
      var channel := vd.channels[0];
      if |vd.streams| <= channel.stream then
        Err(NoSuchStream)
      else
        SubMeshesTriangles(vd.data, ib, vd.streams[channel.stream], channel, subMeshes, f32)
  }

  /** `GetTriangles` on render data: the encoding picks the decoder. */
  function MeshTriangles(mesh: MeshData, f32: Float32Reader): (r: Result<seq<Triangle>, DecodeError>)
  {
    match mesh
    case LegacyMesh(vertices, indices) => LegacyTriangles(vertices, indices)
    case StreamMesh(vd, ib, subMeshes) => StreamTriangles(vd, ib, subMeshes, f32)
  }

  // ----- Properties of the stream decoder -----

  /** The cursor never moves backwards. */
  lemma {:induction false} VertexOffsetMonotone(start: nat, stride: nat, u: nat, v: nat)
    requires u <= v
    ensures VertexOffset(start, stride, u) <= VertexOffset(start, stride, v)
    decreases v
  {
    if u < v {
      VertexOffsetMonotone(start, stride, u, v - 1);
    }
  }

  /**
   * The vertex loop succeeds exactly when the seek target is an acceptable position and either
   * there is nothing to read, or the stride is at least 12, the last read fits in the buffer and
   * the last skip lands at an acceptable position.
   */
  lemma ReadPositionsSucceeds(data: seq<byte>, start: nat, stride: nat, count: nat, f32: Float32Reader)
    ensures ReadPositions(data, start, stride, count, f32).Ok?
            <==> start <= MaxPosition
                 && (count == 0
                     || (12 <= stride && VertexInBounds(data, start, stride, count - 1)
                         && VertexOffset(start, stride, count) <= MaxPosition))
  {
    if count > 0 && 12 <= stride && VertexInBounds(data, start, stride, count - 1)
       && VertexOffset(start, stride, count) <= MaxPosition {
      forall u | 0 <= u < count
        ensures VertexInBounds(data, start, stride, u) && SkipFits(start, stride, u)
      {
        VertexOffsetMonotone(start, stride, u, count - 1);
        VertexOffsetMonotone(start, stride, u + 1, count);
      }
    }
    if count > 0 && ReadPositions(data, start, stride, count, f32).Ok? {
      assert VertexInBounds(data, start, stride, count - 1) && SkipFits(start, stride, count - 1);
    }
  }

  /** `FirstUnfit` finds the iteration v that fails after all iterations from `from` to v complete. */
  lemma {:induction false} FirstUnfitIs(data: seq<byte>, start: nat, stride: nat, from: nat, count: nat, v: nat)
    requires from <= v < count && !StepFits(data, start, stride, v)
    requires forall u :: from <= u < v ==> StepFits(data, start, stride, u)
    ensures FirstUnfit(data, start, stride, from, count) == v
    decreases v - from
  {
    if from < v {
      FirstUnfitIs(data, start, stride, from + 1, count, v);
    }
  }

  /**
   * Local vertex v of a submesh is the position read at
   * `stream.offset + (firstVertex + v) * stride + channel.offset`.
   */
  lemma VertexReadAt(data: seq<byte>, stream: StreamInfo, channel: ChannelInfo, sm: SubMesh,
                     f32: Float32Reader, v: nat)
    requires ReadPositions(data, VertexStart(stream, channel, sm),
                           stream.stride, sm.vertexCount, f32).Ok?
    requires v < sm.vertexCount
    ensures stream.offset + (sm.firstVertex + v) * stream.stride + channel.offset + 12 <= |data|
    ensures ReadPositions(data, VertexStart(stream, channel, sm),
                          stream.stride, sm.vertexCount, f32).value[v]
            == Vector3At(data, stream.offset + (sm.firstVertex + v) * stream.stride + channel.offset, f32).Xy()
  {
    var start := VertexStart(stream, channel, sm);
    VertexOffsetClosedForm(start, stream.stride, v);
    assert (sm.firstVertex + v) * stream.stride == sm.firstVertex * stream.stride + v * stream.stride;
    assert VertexInBounds(data, start, stream.stride, v);
  }

  /** The raw indices that a run of n triangles starting at byte p reads all exist and rebase into range. */
  predicate RunIndicesValid(ib: seq<byte>, p: nat, n: nat, firstVertex: nat, vertexCount: nat) {
    forall k :: 0 <= k < 3 * n ==>
      p + 2 * k + 2 <= |ib| && 0 <= RawIndex(ib, p, k) - firstVertex < vertexCount
  }

  /** One unfolding of the index loop: the first triangle, then the rest of the run. */
  lemma TrianglesFromUnfold(ib: seq<byte>, p: nat, n: nat, firstVertex: nat, vertices: seq<Vector2>)
    requires n > 0
    ensures var t := ReadTriangle(ib, p, firstVertex, vertices);
            TrianglesFrom(ib, p, n, firstVertex, vertices) ==
              if t.Ok? then Chain([t.value], TrianglesFrom(ib, p + 6, n - 1, firstVertex, vertices)) else Err(t.error)
  {
  }

  /** A single triangle read succeeds exactly when its three indices are readable and in range. */
  lemma ReadTriangleSucceeds(ib: seq<byte>, p: nat, firstVertex: nat, vertices: seq<Vector2>)
    ensures ReadTriangle(ib, p, firstVertex, vertices).Ok? <==> RunIndicesValid(ib, p, 1, firstVertex, |vertices|)
  {
    if RunIndicesValid(ib, p, 1, firstVertex, |vertices|) {
      assert p + 2 * 2 + 2 <= |ib|;
      assert RawIndex(ib, p, 0) == U16At(ib, p);
      assert RawIndex(ib, p, 1) == U16At(ib, p + 2);
      assert RawIndex(ib, p, 2) == U16At(ib, p + 4);
    }
  }

  /** Raw index k of the run that starts one triangle later is raw index k + 3 of this run. */
  lemma RawIndexShift(ib: seq<byte>, p: nat, k: nat)
    requires p + 2 * (k + 3) + 2 <= |ib|
    ensures RawIndex(ib, p + 6, k) == RawIndex(ib, p, k + 3)
  {
    assert p + 6 + 2 * k == p + 2 * (k + 3);
  }

  /** The indices of a run of n + 1 triangles are those of its first triangle and of the remaining run. */
  lemma RunIndicesSplit(ib: seq<byte>, p: nat, n: nat, firstVertex: nat, vertexCount: nat)
    ensures RunIndicesValid(ib, p, n + 1, firstVertex, vertexCount) <==>
              RunIndicesValid(ib, p, 1, firstVertex, vertexCount) && RunIndicesValid(ib, p + 6, n, firstVertex, vertexCount)
  {
    if RunIndicesValid(ib, p, n + 1, firstVertex, vertexCount) {
      forall k | 0 <= k < 3 * n
        ensures p + 6 + 2 * k + 2 <= |ib| && 0 <= RawIndex(ib, p + 6, k) - firstVertex < vertexCount
      {
        var j := k + 3;
        assert 0 <= j < 3 * (n + 1);
        assert p + 2 * j + 2 <= |ib| && 0 <= RawIndex(ib, p, j) - firstVertex < vertexCount;
        RawIndexShift(ib, p, k);
      }
    }
    if RunIndicesValid(ib, p, 1, firstVertex, vertexCount) && RunIndicesValid(ib, p + 6, n, firstVertex, vertexCount) {
      forall k | 3 <= k < 3 * (n + 1)
        ensures p + 2 * k + 2 <= |ib| && 0 <= RawIndex(ib, p, k) - firstVertex < vertexCount
      {
        var j := k - 3;
        assert 0 <= j < 3 * n;
        assert p + 6 + 2 * j + 2 <= |ib| && 0 <= RawIndex(ib, p + 6, j) - firstVertex < vertexCount;
        RawIndexShift(ib, p, j);
      }
    }
  }

  /**
   * The index loop of a submesh succeeds exactly when every one of its `3n` reads fits in the
   * index buffer and every rebased index lies in `[0, vertexCount)`: a raw index below
   * `firstVertex` or past the local vertices fails rather than clamping or wrapping.
   */
  lemma {:induction false} TrianglesFromSucceeds(ib: seq<byte>, p: nat, n: nat, firstVertex: nat, vertices: seq<Vector2>)
    ensures TrianglesFrom(ib, p, n, firstVertex, vertices).Ok? <==> RunIndicesValid(ib, p, n, firstVertex, |vertices|)
    decreases n
  {
    if n > 0 {
      TrianglesFromUnfold(ib, p, n, firstVertex, vertices);
      TrianglesFromSucceeds(ib, p + 6, n - 1, firstVertex, vertices);
      ReadTriangleSucceeds(ib, p, firstVertex, vertices);
      RunIndicesSplit(ib, p, n - 1, firstVertex, |vertices|);
    }
  }

  /**
   * Triangle i of a successful run is made of the local vertices named by raw indices 3i, 3i+1 and
   * 3i+2 minus `firstVertex`, in that order.
   */
  lemma {:induction false} TriangleAt(ib: seq<byte>, p: nat, n: nat, firstVertex: nat, vertices: seq<Vector2>, i: nat)
    requires TrianglesFrom(ib, p, n, firstVertex, vertices).Ok? && i < n
    ensures p + 6 * i + 6 <= |ib|
    ensures var a, b, c := RawIndex(ib, p, 3 * i) - firstVertex, RawIndex(ib, p, 3 * i + 1) - firstVertex,
                           RawIndex(ib, p, 3 * i + 2) - firstVertex;
            0 <= a < |vertices| && 0 <= b < |vertices| && 0 <= c < |vertices| &&
            TrianglesFrom(ib, p, n, firstVertex, vertices).value[i] == [vertices[a], vertices[b], vertices[c]]
    decreases i
  {
    TrianglesFromUnfold(ib, p, n, firstVertex, vertices);
    var t := ReadTriangle(ib, p, firstVertex, vertices);
    var rest := TrianglesFrom(ib, p + 6, n - 1, firstVertex, vertices);
    assert t.Ok? && rest.Ok?;
    assert TrianglesFrom(ib, p, n, firstVertex, vertices).value == [t.value] + rest.value;
    if i == 0 {
      assert RawIndex(ib, p, 0) == U16At(ib, p);
      assert RawIndex(ib, p, 1) == U16At(ib, p + 2);
      assert RawIndex(ib, p, 2) == U16At(ib, p + 4);
    } else {
      var j := i - 1;
      TriangleAt(ib, p + 6, n - 1, firstVertex, vertices, j);
      assert p + 6 + 6 * j + 6 <= |ib|;
      RawIndexShift(ib, p, 3 * j);
      RawIndexShift(ib, p, 3 * j + 1);
      RawIndexShift(ib, p, 3 * j + 2);
      assert 3 * j + 3 == 3 * i;
      assert TrianglesFrom(ib, p, n, firstVertex, vertices).value[i] == rest.value[j];
    }
  }

  /** An index equal to `firstVertex` becomes local vertex 0. */
  lemma FirstVertexRebasesToZero(ib: seq<byte>, p: nat, n: nat, firstVertex: nat, vertices: seq<Vector2>)
    requires TrianglesFrom(ib, p, n, firstVertex, vertices).Ok? && n > 0
    requires p + 2 <= |ib| && RawIndex(ib, p, 0) == firstVertex
    ensures TrianglesFrom(ib, p, n, firstVertex, vertices).value[0][0] == vertices[0]
  {
    TriangleAt(ib, p, n, firstVertex, vertices, 0);
  }

  /** One step of the submesh loop: the last submesh is chained onto the triangles of the others. */
  lemma SubMeshesUnfold(data: seq<byte>, ib: seq<byte>, stream: StreamInfo, channel: ChannelInfo,
                        init: seq<SubMesh>, last: SubMesh, f32: Float32Reader)
    ensures var ri := SubMeshesTriangles(data, ib, stream, channel, init, f32);
            SubMeshesTriangles(data, ib, stream, channel, init + [last], f32) ==
              if ri.Ok? then Chain(ri.value, SubMeshTriangles(data, ib, stream, channel, last, f32)) else ri
  {
    assert (init + [last])[..|init + [last]| - 1] == init;
  }

  /** Decoding the submeshes of `a + b` is decoding `a`, then `b`, and concatenating. */
  lemma {:induction false} SubMeshesAppend(data: seq<byte>, ib: seq<byte>, stream: StreamInfo, channel: ChannelInfo,
                                           a: seq<SubMesh>, b: seq<SubMesh>, f32: Float32Reader)
    ensures var ra := SubMeshesTriangles(data, ib, stream, channel, a, f32);
            SubMeshesTriangles(data, ib, stream, channel, a + b, f32) ==
              if ra.Ok? then Chain(ra.value, SubMeshesTriangles(data, ib, stream, channel, b, f32)) else ra
    decreases |b|
  {
    var ra := SubMeshesTriangles(data, ib, stream, channel, a, f32);
    if b == [] {
      assert a + b == a;
      if ra.Ok? {
        assert ra.value + [] == ra.value;
      }
    } else {
      var b', x := b[..|b| - 1], b[|b| - 1];
      assert b == b' + [x];
      assert a + b == (a + b') + [x];
      SubMeshesAppend(data, ib, stream, channel, a, b', f32);
      SubMeshesUnfold(data, ib, stream, channel, a + b', x, f32);
      SubMeshesUnfold(data, ib, stream, channel, b', x, f32);
      var rb' := SubMeshesTriangles(data, ib, stream, channel, b', f32);
      var rx := SubMeshTriangles(data, ib, stream, channel, x, f32);
      if ra.Ok? && rb'.Ok? {
        ChainAssociative(ra.value, rb'.value, rx);
      }
    }
  }

  /** One pass of the submesh loop: after the first s submeshes decoded to `done`, submesh s extends them. */
  lemma SubMeshesStep(data: seq<byte>, ib: seq<byte>, stream: StreamInfo, channel: ChannelInfo,
                      subMeshes: seq<SubMesh>, s: nat, done: seq<Triangle>, f32: Float32Reader)
    requires s < |subMeshes|
    requires SubMeshesTriangles(data, ib, stream, channel, subMeshes[..s], f32) == Ok(done)
    ensures SubMeshesTriangles(data, ib, stream, channel, subMeshes[..s + 1], f32)
            == Chain(done, SubMeshTriangles(data, ib, stream, channel, subMeshes[s], f32))
  {
    assert subMeshes[..s + 1] == subMeshes[..s] + [subMeshes[s]];
    SubMeshesUnfold(data, ib, stream, channel, subMeshes[..s], subMeshes[s], f32);
  }

  /** A failing prefix of the submeshes is the failure of the whole list. */
  lemma SubMeshesFailureSticks(data: seq<byte>, ib: seq<byte>, stream: StreamInfo, channel: ChannelInfo,
                               subMeshes: seq<SubMesh>, s: nat, f32: Float32Reader)
    requires s <= |subMeshes|
    requires SubMeshesTriangles(data, ib, stream, channel, subMeshes[..s], f32).Err?
    ensures SubMeshesTriangles(data, ib, stream, channel, subMeshes, f32)
            == SubMeshesTriangles(data, ib, stream, channel, subMeshes[..s], f32)
  {
    SubMeshesAppend(data, ib, stream, channel, subMeshes[..s], subMeshes[s..], f32);
    assert subMeshes[..s] + subMeshes[s..] == subMeshes;
  }

  /** Sum of the per-submesh triangle counts `indexCount / 3`. */
  function TriangleCountSum(subMeshes: seq<SubMesh>): nat
    decreases |subMeshes|
  {
    if subMeshes == [] then 0
    else TriangleCountSum(subMeshes[..|subMeshes| - 1]) + subMeshes[|subMeshes| - 1].indexCount / 3
  }

  /** A successful stream decode has one triangle per complete index triple of every submesh. */
  lemma {:induction false} StreamTriangleCount(data: seq<byte>, ib: seq<byte>, stream: StreamInfo, channel: ChannelInfo,
                                               subMeshes: seq<SubMesh>, f32: Float32Reader)
    requires SubMeshesTriangles(data, ib, stream, channel, subMeshes, f32).Ok?
    ensures |SubMeshesTriangles(data, ib, stream, channel, subMeshes, f32).value| == TriangleCountSum(subMeshes)
    decreases |subMeshes|
  {
    if subMeshes != [] {
      StreamTriangleCount(data, ib, stream, channel, subMeshes[..|subMeshes| - 1], f32);
    }
  }

  /** Concatenation keeps the three-corner shape. */
  lemma AllTrianglesAppend(a: seq<Triangle>, b: seq<Triangle>)
    requires AllTriangles(a) && AllTriangles(b)
    ensures AllTriangles(a + b)
  {
    forall i | 0 <= i < |a + b|
      ensures |(a + b)[i]| == 3
    {
      if i >= |a| {
        assert (a + b)[i] == b[i - |a|];
      }
    }
  }

  /** Every triangle the submesh loop produces has three corners. */
  lemma {:induction false} SubMeshesAllTriangles(data: seq<byte>, ib: seq<byte>, stream: StreamInfo, channel: ChannelInfo,
                                                 subMeshes: seq<SubMesh>, f32: Float32Reader)
    requires SubMeshesTriangles(data, ib, stream, channel, subMeshes, f32).Ok?
    ensures AllTriangles(SubMeshesTriangles(data, ib, stream, channel, subMeshes, f32).value)
    decreases |subMeshes|
  {
    if subMeshes != [] {
      var init := subMeshes[..|subMeshes| - 1];
      SubMeshesAllTriangles(data, ib, stream, channel, init, f32);
      AllTrianglesAppend(SubMeshesTriangles(data, ib, stream, channel, init, f32).value,
                         SubMeshTriangles(data, ib, stream, channel, subMeshes[|subMeshes| - 1], f32).value);
    }
  }

  /** Every triangle `GetTriangles` produces, from either encoding, has three corners. */
  lemma MeshAllTriangles(mesh: MeshData, f32: Float32Reader)
    requires MeshTriangles(mesh, f32).Ok?
    ensures AllTriangles(MeshTriangles(mesh, f32).value)
  {
    if mesh.StreamMesh? {
      var vd := mesh.vertexData;
      SubMeshesAllTriangles(vd.data, mesh.indexBuffer, vd.streams[vd.channels[0].stream], vd.channels[0],
                            mesh.subMeshes, f32);
    }
  }

  /** Only channel 0 matters, and among the streams only the one it names. */
  lemma StreamReadsChannelZeroOnly(vd: VertexData, ib: seq<byte>, subMeshes: seq<SubMesh>, f32: Float32Reader,
                                   otherChannels: seq<ChannelInfo>, otherStreams: seq<StreamInfo>)
    requires |vd.channels| > 0 && vd.channels[0].stream < |vd.streams| && vd.channels[0].stream < |otherStreams|
    requires otherStreams[vd.channels[0].stream] == vd.streams[vd.channels[0].stream]
    ensures StreamTriangles(vd.(channels := [vd.channels[0]] + otherChannels, streams := otherStreams), ib, subMeshes, f32)
            == StreamTriangles(vd, ib, subMeshes, f32)
  {
  }

  // ----- The decoding loops -----

  /** The vertex loop: seek once, then read a position and skip the rest of the stride, `count` times. */
  method ReadVertices(data: seq<byte>, start: nat, stride: nat, count: nat, f32: Float32Reader)
    returns (r: Result<seq<Vector2>, DecodeError>)
    ensures r == ReadPositions(data, start, stride, count, f32)
  {
    if MaxPosition < start {
      return Err(CursorOutOfRange);
    }
    var vertices := new Vector2[count];
    var position: int := start;
    var v := 0;
    while v < count
      invariant 0 <= v <= count
      invariant position == VertexOffset(start, stride, v)
      invariant forall u :: 0 <= u < v ==> VertexInBounds(data, start, stride, u) && SkipFits(start, stride, u)
      invariant forall u :: 0 <= u < v ==> vertices[u] == PositionAt(data, start, stride, u, f32)
    {
      if |data| < position + 12 {
        assert !VertexInBounds(data, start, stride, v);
        FirstUnfitIs(data, start, stride, 0, count, v);
        return Err(VertexReadPastEnd);
      }
      vertices[v] := Vector3At(data, position, f32).Xy();
      assert vertices[v] == PositionAt(data, start, stride, v, f32);
      position := position + 12;
      if stride < 12 || MaxPosition < position + stride - 12 {
        assert !StepFits(data, start, stride, v);
        FirstUnfitIs(data, start, stride, 0, count, v);
        return Err(CursorOutOfRange);
      }
      position := position + stride - 12;
      v := v + 1;
    }
    assert vertices[..] == seq(count, u requires 0 <= u < count => PositionAt(data, start, stride, u, f32));
    return Ok(vertices[..]);
  }

  /** The index loop: seek to `firstByte`, then read `indexCount / 3` rebased triples. */
  method ReadIndexTriples(ib: seq<byte>, firstByte: nat, indexCount: nat, firstVertex: nat, vertices: seq<Vector2>)
    returns (r: Result<seq<Triangle>, DecodeError>)
    ensures r == IndexTriples(ib, firstByte, indexCount, firstVertex, vertices)
  {
    if MaxPosition < firstByte {
      return Err(CursorOutOfRange);
    }
    var triangleCount := indexCount / 3;
    var position := firstByte;
    var triangles: seq<Triangle> := [];
    var i := 0;
    ChainEmpty(TrianglesFrom(ib, firstByte, triangleCount, firstVertex, vertices));
    while i < triangleCount
      invariant 0 <= i <= triangleCount
      invariant position == firstByte + 6 * i
      invariant TrianglesFrom(ib, firstByte, triangleCount, firstVertex, vertices)
                == Chain(triangles, TrianglesFrom(ib, position, triangleCount - i, firstVertex, vertices))
    {
      ghost var start := position;
      TrianglesFromUnfold(ib, start, triangleCount - i, firstVertex, vertices);
      if |ib| < position + 2 {
        return Err(IndexReadPastEnd);
      }
      var first := U16At(ib, position) - firstVertex;
      position := position + 2;
      if |ib| < position + 2 {
        return Err(IndexReadPastEnd);
      }
      var second := U16At(ib, position) - firstVertex;
      position := position + 2;
      if |ib| < position + 2 {
        return Err(IndexReadPastEnd);
      }
      var third := U16At(ib, position) - firstVertex;
      position := position + 2;
      if !(0 <= first < |vertices|) || !(0 <= second < |vertices|) || !(0 <= third < |vertices|) {
        return Err(IndexOutOfRange);
      }
      var triangle := [vertices[first], vertices[second], vertices[third]];
      assert ReadTriangle(ib, start, firstVertex, vertices) == Ok(triangle);
      ChainAssociative(triangles, [triangle], TrianglesFrom(ib, position, triangleCount - i - 1, firstVertex, vertices));
      triangles := triangles + [triangle];
      i := i + 1;
    }
    assert TrianglesFrom(ib, position, 0, firstVertex, vertices) == Ok([]);
    assert triangles + [] == triangles;
    return Ok(triangles);
  }

  /** One pass of the submesh loop: the vertex loop, then the index loop on the vertices it read. */
  method DecodeSubMesh(data: seq<byte>, ib: seq<byte>, stream: StreamInfo, channel: ChannelInfo, subMesh: SubMesh,
                       f32: Float32Reader) returns (r: Result<seq<Triangle>, DecodeError>)
    ensures r == SubMeshTriangles(data, ib, stream, channel, subMesh, f32)
  {
    var vertexPosition := VertexStart(stream, channel, subMesh);
    var vertices := ReadVertices(data, vertexPosition, stream.stride, subMesh.vertexCount, f32);
    if vertices.Err? {
      return Err(vertices.error);
    }
    r := ReadIndexTriples(ib, subMesh.firstByte, subMesh.indexCount, subMesh.firstVertex, vertices.value);
  }

  /** The stream branch of `GetTriangles`: the submesh loop over the two cursors. */
  method DecodeStream(vd: VertexData, ib: seq<byte>, subMeshes: seq<SubMesh>, f32: Float32Reader)
    returns (r: Result<seq<Triangle>, DecodeError>)
    ensures r == StreamTriangles(vd, ib, subMeshes, f32)
  {
    if |vd.channels| == 0 {
      return Err(NoPositionChannel);
    }
    var channel := vd.channels[0];
    if |vd.streams| <= channel.stream {
      return Err(NoSuchStream);
    }
    var stream := vd.streams[channel.stream];
    var triangles: seq<Triangle> := [];
    var s := 0;
    while s < |subMeshes|
      invariant 0 <= s <= |subMeshes|
      invariant SubMeshesTriangles(vd.data, ib, stream, channel, subMeshes[..s], f32) == Ok(triangles)
    {
      var subTriangles := DecodeSubMesh(vd.data, ib, stream, channel, subMeshes[s], f32);
      SubMeshesStep(vd.data, ib, stream, channel, subMeshes, s, triangles, f32);
      if subTriangles.Err? {
        SubMeshesFailureSticks(vd.data, ib, stream, channel, subMeshes, s + 1, f32);
        return Err(subTriangles.error);
      }
      triangles := triangles + subTriangles.value;
      s := s + 1;
    }
    assert subMeshes[..s] == subMeshes;
    return Ok(triangles);
  }

  /** `GetTriangles`: decode a sprite's outline mesh from whichever encoding its render data carries. */
  method GetTriangles(sprite: Sprite, f32: Float32Reader) returns (r: Result<seq<Triangle>, DecodeError>)
    ensures r == MeshTriangles(sprite.rd.mesh, f32)
    ensures r.Ok? ==> AllTriangles(r.value)
  {
    match sprite.rd.mesh {
      case LegacyMesh(vertices, indices) =>
        r := DecodeLegacy(vertices, indices);
      case StreamMesh(vd, ib, subMeshes) =>
        r := DecodeStream(vd, ib, subMeshes, f32);
    }
    if r.Ok? {
      MeshAllTriangles(sprite.rd.mesh, f32);
    }
  }

  // ----- Rect and texture lookup -----

  /** The sprite names a packing atlas and the reference resolves. */
  predicate AtlasResolves(c: Container, s: Sprite) {
    s.spriteAtlas.Some? && TryGetAtlas(c, s.spriteAtlas.value).Some?
  }

  /** `GetRect`: the atlas entry's texture rect, no rect when the atlas lacks the key, else the sprite's own. */
  function GetRect(c: Container, s: Sprite): Option<Rectf> {
    if s.spriteAtlas.Some? && TryGetAtlas(c, s.spriteAtlas.value).Some? then
      var atlas := TryGetAtlas(c, s.spriteAtlas.value).value;
      if s.renderDataKey in atlas.renderDataMap then Some(atlas.renderDataMap[s.renderDataKey].textureRect)
      else Option.None
    else
      Some(s.rd.textureRect)
  }

  /** `GetTexture`: the same three-way choice, resolving the chosen texture reference. */
  function GetTexture(c: Container, s: Sprite): Option<Texture2D> {
    if s.spriteAtlas.Some? && TryGetAtlas(c, s.spriteAtlas.value).Some? then
      var atlas := TryGetAtlas(c, s.spriteAtlas.value).value;
      if s.renderDataKey in atlas.renderDataMap then TryGetTexture(c, atlas.renderDataMap[s.renderDataKey].texture)
      else Option.None
    else
      TryGetTexture(c, s.rd.texture)
  }

  /** `GetAlignment`: the alignment of the sprite's nominal pivot. */
  function GetAlignment(s: Sprite): Editor.SpriteAlignment {
    VectorExtensions.ToAlignment(s.pivot)
  }

  /**
   * The rect is unknown exactly when the atlas resolves but has no entry for the sprite's key; an
   * unknown rect implies an unknown texture. Rect and texture come from the same place: both from
   * the atlas entry when the atlas resolves and has the key, both from the sprite's own render data
   * when the atlas does not resolve. Without an atlas reference the container's atlases play no part.
   */
  lemma RectLookupOutcomes(c: Container, c': Container, s: Sprite)
    ensures GetRect(c, s).None? <==> AtlasResolves(c, s) && s.renderDataKey !in c.atlases[s.spriteAtlas.value].renderDataMap
    ensures AtlasResolves(c, s) && s.renderDataKey in c.atlases[s.spriteAtlas.value].renderDataMap ==>
              GetRect(c, s) == Some(c.atlases[s.spriteAtlas.value].renderDataMap[s.renderDataKey].textureRect) &&
              GetTexture(c, s) == TryGetTexture(c, c.atlases[s.spriteAtlas.value].renderDataMap[s.renderDataKey].texture)
    ensures !AtlasResolves(c, s) ==>
              GetRect(c, s) == Some(s.rd.textureRect) && GetTexture(c, s) == TryGetTexture(c, s.rd.texture)
    ensures GetRect(c, s).None? ==> GetTexture(c, s).None?
    ensures s.spriteAtlas.None? && c'.textures == c.textures ==>
              GetRect(c, s) == GetRect(c', s) && GetTexture(c, s) == GetTexture(c', s)
  {
  }
}
