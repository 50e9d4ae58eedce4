/**
 * Read-only records for the objects the asset container hands to the sprite code.  Object
 * references (`PPtr<T>`) are resolved through the container's maps: a reference whose target is
 * missing is one that `TryGet` cannot resolve.
 */
module Assets {
  import opened Wrappers
  import opened Geometry
  import opened Quaternions

  /** One byte of a serialized buffer. */
  type byte = x: int | 0 <= x < 256

  /** An object reference: file index and path id. */
  datatype PPtr = PPtr(fileId: int, pathId: int)

  datatype Texture2D = Texture2D(name: string)

  /** Per-sprite render data held by an atlas (only the fields the core reads). */
  datatype SpriteAtlasData = SpriteAtlasData(texture: PPtr, textureRect: Rectf)

  /** `m_RenderDataKey`: a GUID and a 64-bit id. */
  datatype RenderDataKey = RenderDataKey(guid: nat, id: int)

  datatype SpriteAtlas = SpriteAtlas(
    packedSprites: seq<PPtr>,
    renderDataMap: map<RenderDataKey, SpriteAtlasData>)

  /** A vertex channel: which stream it lives in and its byte offset within one vertex. */
  datatype ChannelInfo = ChannelInfo(stream: nat, offset: nat)

  /** A vertex stream: its byte offset in the vertex buffer and its stride. */
  datatype StreamInfo = StreamInfo(offset: nat, stride: nat)

  datatype SubMesh = SubMesh(firstByte: nat, indexCount: nat, firstVertex: nat, vertexCount: nat)

  /** Channel table, stream table and the interleaved vertex bytes (`m_DataSize`). */
  datatype VertexData = VertexData(channels: seq<ChannelInfo>, streams: seq<StreamInfo>, data: seq<byte>)

  datatype SpriteVertex = SpriteVertex(pos: Vector3)

  /**
   * The two mesh encodings.  The source tells them apart by whether `vertices` is null; here the
   * distinction is the constructor.
   */
  datatype MeshData =
    | LegacyMesh(vertices: seq<SpriteVertex>, indices: seq<nat>)
    | StreamMesh(vertexData: VertexData, indexBuffer: seq<byte>, subMeshes: seq<SubMesh>)

  datatype SpriteRenderData = SpriteRenderData(texture: PPtr, textureRect: Rectf, mesh: MeshData)

  datatype SpriteBone = SpriteBone(name: string, position: Vector3, rotation: Quat, length: real, parentId: int)

  datatype Sprite = Sprite(
    name: string,
    rect: Rectf,
    pivot: Vector2,
    border: Vector4,
    pixelsToUnits: real,
    spriteAtlas: Option<PPtr>,
    renderDataKey: RenderDataKey,
    rd: SpriteRenderData,
    bones: seq<SpriteBone>,
    physicsShape: seq<seq<Vector2>>)

  /** The objects a reference can resolve to. */
  datatype Container = Container(
    sprites: map<PPtr, Sprite>,
    atlases: map<PPtr, SpriteAtlas>,
    textures: map<PPtr, Texture2D>)

  function TryGetSprite(c: Container, p: PPtr): Option<Sprite> {
    if p in c.sprites then Some(c.sprites[p]) else None
  }

  function TryGetAtlas(c: Container, p: PPtr): Option<SpriteAtlas> {
    if p in c.atlases then Some(c.atlases[p]) else None
  }

  function TryGetTexture(c: Container, p: PPtr): Option<Texture2D> {
    if p in c.textures then Some(c.textures[p]) else None
  }
}
