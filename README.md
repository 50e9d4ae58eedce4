# Sprite meta reconstruction in AssetStudio, in Dafny

This project models the part of AssetStudio that rebuilds the editor import settings of a sprite
texture (a Unity `.meta` file) from a sprite extracted out of a compiled asset bundle. It covers:

- the outline mesh decoder `GetTriangles`, for both mesh encodings:
  - the legacy vertex/index arrays (engines before 5.6);
  - the interleaved vertex stream with sub-meshes and a 16-bit index buffer (5.6 and later);
- the rect and texture lookups through a packing atlas (`GetRect`, `GetTexture`);
- alignment inference from a pivot (`ToAlignment`, `GetAlignment`);
- the unit-to-pixel conversion of bones, outline and physics shape;
- the meta records and their constructors: `MCSprite`, the three `MCSpriteSheet` constructors, the
  single-sprite and atlas `MCTextureImporter` constructors and `TextureMeta`;
- the YAML converter that writes vectors as flow mappings;
- the editor enumerations with their integer codes;
- the `Quaternion` value type.

Modules follow the source files:

| module | file | content |
|---|---|---|
| `Wrappers` | – | `Option`, `Result`, `Outcome`; `Chain`, a sequencing helper for `Result` |
| `Geometry` | – | `Vector2`, `Vector3`, `Vector4`, `Rectf` over reals |
| `Editor` | `Classes/Editor/TextureImporter.cs` | `SpriteAlignment`, `TextureImporterType`, `SpriteImportMode`, `TextureImporterNPOTScale` |
| `Quaternions` | `Math/Quaternion.cs` | the value `Quat`, and the class `Quaternion` whose indexer and `XYZ` setter overwrite fields in place |
| `VectorExtensions` | `Extensions/VectorExtensions.cs` | `ToAlignment` |
| `Assets` | – | read-only records of the container objects (`Sprite`, `SpriteAtlas`, render data, mesh buffers), with references resolved through maps |
| `SpriteExtensions` | `Extensions/SpriteExtensions.cs` | the decoder and the lookups |
| `Metas` | `Metas/TextureMeta.cs`, `Metas/MetaObject.cs` | the meta records and their constructors |
| `YamlVectors` | `Metas/TextureMeta.cs` | `VectorConverter`, with an emitter that records its events |

How the source maps onto Dafny:

- **Loops become methods.** Each loop-based operation of the source is a method with a loop, and its
  postcondition equates the result with a specification function. Examples:
  - the two decoding loops;
  - the bone, outline and physics-shape conversions in the `MCSprite` constructor;
  - the entry loop of the sheet constructors;
  - the matching loop of the atlas importer.
- **Properties are lemmas.** What the source promises is proved as lemmas about those functions.
- **Exceptions are errors.** Each exception the source can throw is an `Err` value:
  - an array index out of range;
  - a read past the end of a buffer;
  - a missing dictionary key.
- **Absent values are `None`.** A null reference that the source stores and does not dereference
  becomes `None`.

## Model

| member | source | states |
|---|---|---|
| `Editor.SpriteAlignmentCodes` | AssetStudio/Classes/Editor/TextureImporter.cs:115-157 | the ten alignments have the codes 0..9, and decoding a code gives its alignment back |
| `Editor.SpriteAlignmentCodeInjective` | AssetStudio/Classes/Editor/TextureImporter.cs:115-157 | distinct alignments have distinct codes |
| `Editor.TextureImporterTypeAliases` | AssetStudio/Classes/Editor/TextureImporter.cs:12-63 | two type names share a code exactly when they are Default/Image, Bump/NormalMap or Cubemap/Reflection |
| `Editor.ImportModeAndScaleCodesInjective` | AssetStudio/Classes/Editor/TextureImporter.cs:68-109 | sprite import modes and NPOT scales have distinct codes |
| `Editor.SpriteAlignment.Code` | AssetStudio/Classes/Editor/TextureImporter.cs:115-157 | the enum value of an alignment, between 0 and 9; its values are given by `SpriteAlignmentCodes` |
| `Editor.TextureImporterTypeName.Code` | AssetStudio/Classes/Editor/TextureImporter.cs:12-63 | the enum value of a texture type name, at most 12; Sprite is 8 and Default 0; shared values are given by `TextureImporterTypeAliases` |
| `Editor.SpriteImportMode.Code` | AssetStudio/Classes/Editor/TextureImporter.cs:68-86 | None 0, Single 1, Multiple 2, Polygon 3, at most 3; distinct per `ImportModeAndScaleCodesInjective` |
| `Editor.TextureImporterNPOTScale.Code` | AssetStudio/Classes/Editor/TextureImporter.cs:91-109 | None 0, ToNearest 1, ToLarger 2, ToSmaller 3, at most 3; distinct per `ImportModeAndScaleCodesInjective` |
| `Editor.SpriteAlignmentOfCode` | AssetStudio/Classes/Editor/TextureImporter.cs:115-157 | the member a code names, if any: a reference inverse of `Code`, which `SpriteAlignmentCodes` proves inverse in both directions |
| `Quaternions.Component` | AssetStudio/Math/Quaternion.cs:30-42 | the indexer getter fails exactly outside 0..3, with the exception naming the parameter `index` and the message "Invalid Quaternion index!" |
| `Quaternions.SetThenGet` | AssetStudio/Math/Quaternion.cs:30-54 | setting an index succeeds exactly where getting it does; the value set is read back and the other components are unchanged |
| `Quaternions.WithComponent` | AssetStudio/Math/Quaternion.cs:44-54 | the indexer setter as a value; specified by `SetThenGet` |
| `Quaternions.XyzRoundTrip` | AssetStudio/Math/Quaternion.cs:214-226 | the XYZ getter and setter are inverse, setting XYZ leaves W unchanged, and the (Vector3, w) constructor sets all four components |
| `Quaternions.Xyz` | AssetStudio/Math/Quaternion.cs:222-225 | the XYZ getter; specified by `XyzRoundTrip` |
| `Quaternions.WithXyz` | AssetStudio/Math/Quaternion.cs:216-221 | the XYZ setter as a value; specified by `XyzRoundTrip` |
| `Quaternions.FromXyzW` | AssetStudio/Math/Quaternion.cs:23-29 | the (Vector3, w) constructor as a value; specified by `XyzRoundTrip` |
| `Quaternions.DotSymmetric` | AssetStudio/Math/Quaternion.cs:74-77 | the dot product is symmetric |
| `Quaternions.Dot` | AssetStudio/Math/Quaternion.cs:74-77 | the sum of the four component products; `DotSymmetric`, `DotEqualsSelf` and `NegatedNotDotEqual` state its properties |
| `Quaternions.ExactlyEqualsIsEquality` | AssetStudio/Math/Quaternion.cs:62-72 | `Equals` is component-wise equality; `Equals(object)` is false for a null or non-quaternion argument |
| `Quaternions.ExactlyEquals` | AssetStudio/Math/Quaternion.cs:69-72 | `Equals(Quaternion)`; `ExactlyEqualsIsEquality` proves it is equality of values |
| `Quaternions.EqualsObject` | AssetStudio/Math/Quaternion.cs:62-67 | `Equals(object)`; specified by `ExactlyEqualsIsEquality` |
| `Quaternions.DotEqualsSymmetric` | AssetStudio/Math/Quaternion.cs:79-92 | `==` is symmetric, and `!=` is its negation |
| `Quaternions.DotEquals` | AssetStudio/Math/Quaternion.cs:79-87 | `==` through `IsEqualUsingDot`; specified by `DotEqualsSymmetric`, `DotEqualsSelf` and `NegatedNotDotEqual` |
| `Quaternions.DotNotEquals` | AssetStudio/Math/Quaternion.cs:89-92 | `!=`; `DotEqualsSymmetric` proves it is the negation of `==` |
| `Quaternions.DotEqualsSelf` | AssetStudio/Math/Quaternion.cs:79-87 | `q == q` holds exactly when the squared norm exceeds 1 − kEpsilon, so `==` is not reflexive (the zero quaternion, or one of squared norm 1/2 such as (0.5, 0, 0, 0.5)) |
| `Quaternions.NegatedNotDotEqual` | AssetStudio/Math/Quaternion.cs:74-92 | the dot product of any q with −q is minus its squared norm, never positive, so `q == -q` is false for every q, although for a unit q the two are the same rotation |
| `Quaternions.IdentityDotEqualsItself` | AssetStudio/Math/Quaternion.cs:228-234 | identity is (0,0,0,1) and equals itself under `==` |
| `Quaternions.Quaternion.constructor` | AssetStudio/Math/Quaternion.cs:16-22 | the four-component constructor stores its arguments |
| `Quaternions.Quaternion.FromVector` | AssetStudio/Math/Quaternion.cs:23-29 | the (Vector3, w) constructor stores the vector as XYZ and w as W |
| `Quaternions.Quaternion.Get` | AssetStudio/Math/Quaternion.cs:30-42 | index 0..3 reads X, Y, Z, W; any other index is the out-of-range exception for the parameter `index` |
| `Quaternions.Quaternion.Set` | AssetStudio/Math/Quaternion.cs:44-54 | index 0..3 overwrites that component only; any other index fails and leaves the quaternion unchanged |
| `Quaternions.Quaternion.SetXyz` | AssetStudio/Math/Quaternion.cs:214-226 | the XYZ setter overwrites X, Y, Z and keeps W |
| `VectorExtensions.ToAlignment` | AssetStudio/Extensions/VectorExtensions.cs:12-56 | the if-chain of exact comparisons; specified by `CanonicalPivotsMapToAnchors`, `AnchorDeterminesPivot` and `CustomExactlyOffGrid` against the reference table `AnchorPivot` |
| `VectorExtensions.CanonicalPivotsMapToAnchors` | AssetStudio/Extensions/VectorExtensions.cs:12-56 | each of the nine anchor pivots maps to its named alignment; only Custom has no anchor |
| `VectorExtensions.AnchorDeterminesPivot` | AssetStudio/Extensions/VectorExtensions.cs:12-56 | a pivot that maps to a named alignment is that alignment's anchor |
| `VectorExtensions.CustomExactlyOffGrid` | AssetStudio/Extensions/VectorExtensions.cs:12-56 | a pivot maps to Custom exactly when a coordinate is not 0, 0.5 or 1 |
| `VectorExtensions.NoTolerance` | AssetStudio/Extensions/VectorExtensions.cs:16-19 | (0.5+δ, 0.5) is Center only for δ = 0: it is Custom for every other δ except ±0.5, which give RightCenter and LeftCenter (exact comparison, no tolerance) |
| `VectorExtensions.CanonicalPivotsDistinct` | AssetStudio/Extensions/VectorExtensions.cs:12-56 | two anchor pivots have the same alignment exactly when they are equal |
| `VectorExtensions.ColumnsAndRows` | AssetStudio/Extensions/VectorExtensions.cs:12-56 | for an anchor pivot, x = 0 / x = 1 / y = 1 / y = 0 is exactly the left column / right column / top row / bottom row |
| `SpriteExtensions.LegacyTriangles` | AssetStudio/Extensions/SpriteExtensions.cs:31-45 | a decoded legacy mesh consists of three-corner triangles |
| `SpriteExtensions.LegacyGather` | AssetStudio/Extensions/SpriteExtensions.cs:31-45 | legacy decoding succeeds exactly when every index of a complete triple names a vertex; it gives length(indices)/3 triangles, triangle i holding the XY of vertices 3i, 3i+1, 3i+2 |
| `SpriteExtensions.LegacyBadIndexFails` | AssetStudio/Extensions/SpriteExtensions.cs:38-41 | one out-of-range index in a complete triple makes the whole decode fail |
| `SpriteExtensions.LegacyTrailingIndicesIgnored` | AssetStudio/Extensions/SpriteExtensions.cs:34 | one or two indices after the last complete triple are ignored |
| `SpriteExtensions.DecodeLegacy` | AssetStudio/Extensions/SpriteExtensions.cs:33-44 | the selection and triangle loops compute `LegacyTriangles` |
| `SpriteExtensions.VertexOffsetClosedForm` | AssetStudio/Extensions/SpriteExtensions.cs:58-65 | after v reads, advancing the cursor by 12 and then by stride − 12 each time, the cursor is at start + v·stride |
| `SpriteExtensions.ReadPositions` | AssetStudio/Extensions/SpriteExtensions.cs:60-65 | reading positions yields one vertex per count; otherwise a seek beyond int.MaxValue is refused, and the first iteration that does not complete decides between a read past the end and a skip beyond int.MaxValue (a stride below 12 wraps the unsigned skip there) |
| `SpriteExtensions.ReadPositionsSucceeds` | AssetStudio/Extensions/SpriteExtensions.cs:58-65 | reading the vertex positions succeeds exactly when the seek target is at most int.MaxValue and either there are none, or the stride is at least 12, the last position lies wholly inside the vertex bytes and the last skip lands at most at int.MaxValue |
| `SpriteExtensions.VertexReadAt` | AssetStudio/Extensions/SpriteExtensions.cs:58-65 | vertex v of a sub-mesh is the XY of the float triple at stream offset + (firstVertex + v)·stride + channel offset |
| `SpriteExtensions.TrianglesFrom` | AssetStudio/Extensions/SpriteExtensions.cs:67-77 | a decoded index run gives exactly the requested number of three-corner triangles |
| `SpriteExtensions.TrianglesFromSucceeds` | AssetStudio/Extensions/SpriteExtensions.cs:67-77 | an index run decodes exactly when all its 16-bit indices are in the buffer and, rebased by firstVertex, name a vertex of the sub-mesh |
| `SpriteExtensions.ReadTriangleSucceeds` | AssetStudio/Extensions/SpriteExtensions.cs:72-75 | one index triple decodes exactly when its three rebased indices are in range |
| `SpriteExtensions.ReadTriangle` | AssetStudio/Extensions/SpriteExtensions.cs:72-76 | one pass of the index loop: three 16-bit reads rebased by firstVertex, then the gather; specified by `ReadTriangleSucceeds` and `TriangleAt` |
| `SpriteExtensions.TriangleAt` | AssetStudio/Extensions/SpriteExtensions.cs:70-77 | triangle i holds the sub-mesh vertices named by the little-endian indices 3i, 3i+1, 3i+2 after firstByte, minus firstVertex |
| `SpriteExtensions.FirstVertexRebasesToZero` | AssetStudio/Extensions/SpriteExtensions.cs:72 | an index equal to firstVertex names the sub-mesh's first vertex |
| `SpriteExtensions.SubMeshTriangles` | AssetStudio/Extensions/SpriteExtensions.cs:56-78 | one sub-mesh gives indexCount/3 three-corner triangles; its failures are those of `ReadPositions` and `IndexTriples` |
| `SpriteExtensions.IndexTriples` | AssetStudio/Extensions/SpriteExtensions.cs:67-77 | a seek beyond int.MaxValue is refused; otherwise the index run of `TrianglesFrom`, giving indexCount/3 three-corner triangles |
| `SpriteExtensions.FirstUnfitIs` | AssetStudio/Extensions/SpriteExtensions.cs:61-65 | the first vertex iteration that does not complete is the one after which all earlier ones completed |
| `SpriteExtensions.SubMeshesAppend` | AssetStudio/Extensions/SpriteExtensions.cs:56-78 | decoding a concatenation of sub-mesh lists is the concatenation of the decodings, and the first failure wins |
| `SpriteExtensions.SubMeshesTriangles` | AssetStudio/Extensions/SpriteExtensions.cs:56-78 | the sub-mesh loop as a function; specified by `SubMeshesAppend`, `SubMeshesStep`, `SubMeshesFailureSticks`, `StreamTriangleCount` and `SubMeshesAllTriangles` |
| `SpriteExtensions.SubMeshesStep` | AssetStudio/Extensions/SpriteExtensions.cs:56-78 | one pass of the sub-mesh loop chains the next sub-mesh's triangles onto those decoded so far |
| `SpriteExtensions.SubMeshesFailureSticks` | AssetStudio/Extensions/SpriteExtensions.cs:56-78 | a failing prefix of the sub-meshes is the failure of the whole mesh: the first exception ends decoding |
| `SpriteExtensions.StreamTriangleCount` | AssetStudio/Extensions/SpriteExtensions.cs:56-81 | a decoded stream mesh has the sum over sub-meshes of indexCount/3 triangles |
| `SpriteExtensions.SubMeshesAllTriangles` | AssetStudio/Extensions/SpriteExtensions.cs:56-81 | every triangle of a decoded stream mesh has three corners |
| `SpriteExtensions.MeshAllTriangles` | AssetStudio/Extensions/SpriteExtensions.cs:29-83 | every triangle from either encoding has three corners |
| `SpriteExtensions.StreamReadsChannelZeroOnly` | AssetStudio/Extensions/SpriteExtensions.cs:50-51 | the stream decoder depends only on channel 0 and the stream it names; other channels and streams are irrelevant |
| `SpriteExtensions.StreamTriangles` | AssetStudio/Extensions/SpriteExtensions.cs:46-82 | the stream branch: channel 0, its stream, then the sub-mesh loop; specified by `StreamReadsChannelZeroOnly` and `StreamTriangleCount` |
| `SpriteExtensions.MeshTriangles` | AssetStudio/Extensions/SpriteExtensions.cs:29-83 | `GetTriangles` on render data, choosing the decoder by encoding; specified by `LegacyGather`, `StreamTriangleCount` and `MeshAllTriangles` |
| `SpriteExtensions.ReadVertices` | AssetStudio/Extensions/SpriteExtensions.cs:58-65 | the vertex loop reads the positions `ReadPositions` specifies |
| `SpriteExtensions.ReadIndexTriples` | AssetStudio/Extensions/SpriteExtensions.cs:67-77 | the seek and the index loop build the triangles `IndexTriples` specifies |
| `SpriteExtensions.DecodeSubMesh` | AssetStudio/Extensions/SpriteExtensions.cs:58-77 | one pass of the sub-mesh loop computes `SubMeshTriangles` |
| `SpriteExtensions.DecodeStream` | AssetStudio/Extensions/SpriteExtensions.cs:46-82 | the sub-mesh loop computes `StreamTriangles`: channel 0 and its stream are located, and the triangles of all sub-meshes are appended in order |
| `SpriteExtensions.GetTriangles` | AssetStudio/Extensions/SpriteExtensions.cs:24-83 | dispatches on the mesh encoding to the decoder `MeshTriangles` specifies; every triangle has three corners |
| `SpriteExtensions.RectLookupOutcomes` | AssetStudio/Extensions/SpriteExtensions.cs:85-119 | `GetRect` is null exactly when the atlas resolves but lacks the render-data key. Rect and texture come from the same place: the atlas entry's rect and resolved texture when the atlas resolves and has the key, the render data's rect and resolved texture when no atlas resolves. A null rect implies a null texture; without an atlas reference the container's atlases play no part |
| `SpriteExtensions.GetRect` | AssetStudio/Extensions/SpriteExtensions.cs:85-99 | the three-way rect lookup; specified by `RectLookupOutcomes` |
| `SpriteExtensions.GetTexture` | AssetStudio/Extensions/SpriteExtensions.cs:102-119 | the three-way texture lookup, resolving the chosen reference; specified by `RectLookupOutcomes` |
| `SpriteExtensions.GetAlignment` | AssetStudio/Extensions/SpriteExtensions.cs:14-17 | the alignment of the nominal pivot; `SpriteMetaFields` and `SingleImporterFields` state where it is stored |
| `Metas.UnitValueToPixel` | AssetStudio/Metas/TextureMeta.cs:160-165 | the conversion is the linear map unit·ppu + pivot·band |
| `Metas.UnitValueToPixelInverse` | AssetStudio/Metas/TextureMeta.cs:160-165 | subtracting pivot·band and dividing by ppu recovers the unit value |
| `Metas.BoneLengthUnitToPixel` | AssetStudio/Metas/TextureMeta.cs:167-170 | a length is scaled by pixels-per-unit with no offset; 0 stays 0 |
| `Metas.BonePosUnitToPixel` | AssetStudio/Metas/TextureMeta.cs:172-178 | Z is dropped; a child bone is only scaled; a root bone is also shifted by the pivot times the rect's width and height |
| `Metas.BoneOriginExample` | AssetStudio/Metas/TextureMeta.cs:167-178 | pivot (0.5, 0.5), rect 100×50, ppu 100: a root bone at the origin lands on (50, 25), a child bone on (0, 0), and length 0 stays 0 |
| `Metas.ConvertBones` | AssetStudio/Metas/TextureMeta.cs:119-131 | the bone loop builds `SpriteBones`, one converted bone per sprite bone |
| `Metas.SpriteBonesConverted` | AssetStudio/Metas/TextureMeta.cs:119-131 | entry i of `SpriteBones` is sprite bone i converted as `BoneConverted` describes (the properties listed for `SpriteMetaBone`) |
| `Metas.ConvertPoints` | AssetStudio/Metas/TextureMeta.cs:132-155 | a fresh array of the requested size whose leading entries are the points mapped to pixels |
| `Metas.ConvertOutline` | AssetStudio/Metas/TextureMeta.cs:132-144 | the outline loop builds `ToPixels` of the triangles |
| `Metas.ConvertShape` | AssetStudio/Metas/TextureMeta.cs:146-155 | the physics-shape loop builds `ToPixels` of the shape |
| `Metas.NewMCSprite` | AssetStudio/Metas/TextureMeta.cs:108-156 | the `MCSprite` constructor computes `SpriteMeta` |
| `Metas.SpriteMeta` | AssetStudio/Metas/TextureMeta.cs:108-156 | the `MCSprite` constructor as a function; specified by `SpriteMetaFields`, `SpriteMetaBone`, `OutlineFromTriangles` and `PhysicsShapeKeepsShape` |
| `Metas.SpriteMetaFields` | AssetStudio/Metas/TextureMeta.cs:108-131 | `MCSprite` fails exactly when the triangles fail to decode, with that error. On success: version 2; name, pivot, border and ID copied; rect from `GetRect`; alignment code of the nominal pivot; one bone per sprite bone |
| `Metas.SpriteMetaBone` | AssetStudio/Metas/TextureMeta.cs:119-131 | bone i keeps the sprite bone's name, parent and rotation; its length is scaled by ppu and its Z set to 0; a child's position is scaled, and a root's is also shifted by the pivot times the rect's width and height |
| `Metas.OutlineFromTriangles` | AssetStudio/Metas/TextureMeta.cs:132-144 | one three-point polygon per decoded triangle; point (i, j) is the triangle corner × ppu + (pivot − (0.5, 0.5)) × (width, height) |
| `Metas.PhysicsShapeKeepsShape` | AssetStudio/Metas/TextureMeta.cs:146-155 | the physics shape keeps the number of polygons and each polygon's point count, each point mapped like the outline |
| `Metas.ToPixelInverse` | AssetStudio/Metas/TextureMeta.cs:132-155 | the point transform is undone by subtracting the offset and dividing by ppu |
| `Metas.OutlineIgnoresAtlas` | AssetStudio/Metas/TextureMeta.cs:132-155 | outline and physics shape do not depend on the atlas: the same in any container |
| `Metas.OutlinePointExample` | AssetStudio/Metas/TextureMeta.cs:132-144 | pivot (0, 1), rect 100×50, ppu 100: the point (0.5, −0.5) maps to (0, −25) |
| `Metas.SheetEntries` | AssetStudio/Metas/TextureMeta.cs:201-225 | a successful entry loop has one entry per sprite |
| `Metas.SheetEntry` | AssetStudio/Metas/TextureMeta.cs:215-222 | one entry: null for an unresolved reference, else the ID looked up by name and the conversion; specified through `SheetEntriesAreConversions` and `SheetEntriesOnlyDecodeFails` |
| `Metas.Resolve` | AssetStudio/Metas/TextureMeta.cs:211-225 | one resolution per reference |
| `Metas.SheetEntriesFailureSticks` | AssetStudio/Metas/TextureMeta.cs:201-225 | once an entry fails, later sprites do not change the outcome (the constructor throws) |
| `Metas.SheetEntriesSucceed` | AssetStudio/Metas/TextureMeta.cs:201-225 | when every name has an ID and every present sprite converts, the entry loop succeeds |
| `Metas.SheetEntriesOnlyDecodeFails` | AssetStudio/Metas/TextureMeta.cs:201-225 | when every present sprite's name has an ID, only a decoding failure can make the loop fail |
| `Metas.SheetEntriesAreConversions` | AssetStudio/Metas/TextureMeta.cs:201-225 | a successful loop has an entry exactly where the sprite is present, namely `MCSprite(sprite, ids[sprite.name])` |
| `Metas.NewSingleSheet` | AssetStudio/Metas/TextureMeta.cs:190-199 | the single-sprite sheet computes `SingleSheet`: no entries; bones, outline and physics shape of `MCSprite(sprite, 0)`; the given sprite GUID |
| `Metas.SingleSheet` | AssetStudio/Metas/TextureMeta.cs:190-199 | the single-sprite sheet as a function; specified by `SingleImporterFields` |
| `Metas.FillEntries` | AssetStudio/Metas/TextureMeta.cs:201-225 | the entry loop computes `SheetEntries` |
| `Metas.NewSpritesSheet` | AssetStudio/Metas/TextureMeta.cs:201-210 | the sprite-array sheet computes `SpritesSheet` |
| `Metas.SpritesSheet` | AssetStudio/Metas/TextureMeta.cs:201-210 | the sprite-array sheet as a function: the entries of `SheetEntries` on every sprite, no sheet-level mesh data |
| `Metas.NewPtrsSheet` | AssetStudio/Metas/TextureMeta.cs:211-225 | the reference-array sheet computes `PtrsSheet`; unresolved references leave null entries |
| `Metas.PtrsSheet` | AssetStudio/Metas/TextureMeta.cs:211-225 | the reference-array sheet as a function: the entries of `SheetEntries` on the resolved references, no sheet-level mesh data |
| `Metas.InternalIdInjective` | AssetStudio/Metas/TextureMeta.cs:288 | internal IDs 213·100000 + 2i are distinct for distinct i, even, and at least 21300000 |
| `Metas.IsMatch` | AssetStudio/Metas/TextureMeta.cs:280-283 | a packed reference resolves to a sprite whose `GetTexture` is present and has the target's name; `MatchedIndicesFilter` states the matches are exactly these |
| `Metas.Scan` | AssetStudio/Metas/TextureMeta.cs:274-297 | the matching loop keeps one table row per match, each mapping the Sprite class ID; every match is a packed sprite resolving to the target texture by name, and its name has an ID |
| `Metas.MatchedIndicesFilter` | AssetStudio/Metas/TextureMeta.cs:278-286 | matched indices are strictly increasing and are exactly the packed positions whose sprite matches the texture |
| `Metas.ScanFollowsIndices` | AssetStudio/Metas/TextureMeta.cs:278-295 | match k is the packed sprite at the k-th matched index, with table row {213: internal ID of that index} and its name, even when names repeat |
| `Metas.TableIdsDistinct` | AssetStudio/Metas/TextureMeta.cs:287-293 | the rows of the ID table carry distinct internal IDs |
| `Metas.ScanIdsDomain` | AssetStudio/Metas/TextureMeta.cs:294 | the ID dictionary holds a name exactly when some matched sprite has it |
| `Metas.ScanIdsLastWriteWins` | AssetStudio/Metas/TextureMeta.cs:293-294 | a name's ID is the one in the table row of its last match: a later sprite with the same name overwrites an earlier one's ID |
| `Metas.SharedNameSharesId` | AssetStudio/Metas/TextureMeta.cs:211-300 | two matched sprites with the same name get the same internal ID in the sheet, although their rows of the ID table carry different IDs |
| `Metas.FirstNonzeroSnoc` | AssetStudio/Metas/TextureMeta.cs:285 | the first nonzero value of a list followed by x is x when the list has none |
| `Metas.ScanPixelsToUnits` | AssetStudio/Metas/TextureMeta.cs:285 | the importer's pixels-per-unit is that of the first match with a nonzero value, else 0 |
| `Metas.MatchedConvertible` | AssetStudio/Metas/TextureMeta.cs:299 | every matched sprite handed to the sheet can be converted |
| `Metas.AtlasImporterOnlyDecodeFails` | AssetStudio/Metas/TextureMeta.cs:267-300 | the atlas importer never fails on a missing name; only decoding can fail |
| `Metas.AtlasImporterSucceeds` | AssetStudio/Metas/TextureMeta.cs:267-300 | the atlas importer succeeds exactly when every matched sprite converts with the ID its name maps to; then sheet entry k is match k so converted |
| `Metas.MatchedResolved` | AssetStudio/Metas/TextureMeta.cs:211-225 | every matched reference resolves to its sprite, and every matched name has an ID |
| `Metas.SingleImporterFields` | AssetStudio/Metas/TextureMeta.cs:252-265 | version 11, type Sprite (8), mode Single (1), alpha 1, NPOT None (0), empty ID table; the sprite's ppu, pivot, border and alignment code; the sheet of `MCSprite(sprite, 0)` with the sprite GUID; fails exactly when the sprite does |
| `Metas.AtlasImporterFields` | AssetStudio/Metas/TextureMeta.cs:267-300 | version 11, type Sprite (8), mode Multiple (2), alpha 1, alignment 0, NPOT scale 0, zero pivot and border; the scan's ID table and ppu; a sheet with one entry per match and no sheet-level mesh data |
| `Metas.NewSingleImporter` | AssetStudio/Metas/TextureMeta.cs:252-265 | the single-sprite importer constructor computes `SingleImporter` |
| `Metas.SingleImporter` | AssetStudio/Metas/TextureMeta.cs:252-265 | the single-sprite importer as a function; specified by `SingleImporterFields` |
| `Metas.AtlasImporter` | AssetStudio/Metas/TextureMeta.cs:267-300 | the atlas importer as a function; specified by `AtlasImporterFields`, `AtlasImporterSucceeds`, `AtlasImporterOnlyDecodeFails` and `SharedNameSharesId` |
| `Metas.NewAtlasImporter` | AssetStudio/Metas/TextureMeta.cs:267-300 | the matching loop and the sheet built from its matches compute `AtlasImporter` |
| `Metas.TextureMetaFields` | AssetStudio/Metas/TextureMeta.cs:302-312 | a meta holds format version 2 (AssetStudio/Metas/MetaObject.cs:16-20), the given GUID and the importer, and fails exactly when the importer does |
| `Metas.GetMeta` | AssetStudio/Extensions/SpriteExtensions.cs:19-22 | `GetMeta` computes the single-sprite `TextureMeta` |
| `Metas.SpriteTextureMeta` | AssetStudio/Metas/TextureMeta.cs:305-308 | `TextureMeta(Sprite)` as a function; specified by `TextureMetaFields` |
| `Metas.AtlasTextureMeta` | AssetStudio/Metas/TextureMeta.cs:309-312 | `TextureMeta(Texture2D, SpriteAtlas)` as a function; specified by `TextureMetaFields` |
| `Metas.NewAtlasTextureMeta` | AssetStudio/Metas/TextureMeta.cs:309-312 | the atlas meta constructor computes `AtlasTextureMeta` |
| `YamlVectors.Components` | AssetStudio/Metas/TextureMeta.cs:56-93 | a vector has at most four components, one per key name |
| `YamlVectors.Accepts` | AssetStudio/Metas/TextureMeta.cs:43-46 | the converter takes exactly the three vector types; `FlowMappingKeyOrder` ties it to the keys written |
| `YamlVectors.FlowMapping` | AssetStudio/Metas/TextureMeta.cs:56-93 | the events `WriteYaml` emits; specified by `FlowMappingKeyOrder` and `FlowMappingRoundTrip` |
| `YamlVectors.Emitter.Emit` | AssetStudio/Metas/TextureMeta.cs:56-93 | the emitter appends the event it is given |
| `YamlVectors.KeyedComponentsSnoc` | AssetStudio/Metas/TextureMeta.cs:63-89 | writing one more component appends the next key name and that component |
| `YamlVectors.EmitComponent` | AssetStudio/Metas/TextureMeta.cs:63-64 | after the first k components, the key event of position k is followed by its component event |
| `YamlVectors.EmitVector2` | AssetStudio/Metas/TextureMeta.cs:59-68 | the Vector2 branch emits x and y, each key followed by its component |
| `YamlVectors.EmitVector3` | AssetStudio/Metas/TextureMeta.cs:69-78 | the Vector3 branch emits x, y and z, each key followed by its component |
| `YamlVectors.EmitVector4` | AssetStudio/Metas/TextureMeta.cs:79-90 | the Vector4 branch emits x, y, z and w, each key followed by its component |
| `YamlVectors.WriteYaml` | AssetStudio/Metas/TextureMeta.cs:56-93 | appends exactly `FlowMapping(value)` to the emitter's events |
| `YamlVectors.KeyedComponentsLayout` | AssetStudio/Metas/TextureMeta.cs:56-93 | keys and components alternate: position 2k holds key k, position 2k+1 component k |
| `YamlVectors.FlowMappingKeyOrder` | AssetStudio/Metas/TextureMeta.cs:43-93 | a flow mapping opens and closes, keys follow x, y, z, w each with its component, and it holds keys exactly when `Accepts` accepts the type |
| `YamlVectors.FlowMappingRoundTrip` | AssetStudio/Metas/TextureMeta.cs:56-93 | reading back the written mapping gives the vector: no component is lost or reordered |

## Left out

- YAML serialization through YamlDotNet:
  - the serializer builders and `ToString` of `MetaObject` and `TextureMeta`;
  - `CreateMetaSerializerBuilder`;
  - the rendering of a scalar.
  The converter's output is modelled as emitter events; how the library writes them is not modelled.
- `VectorConverter.ReadYaml` returns null in the source, so it is not modelled. `ParseFlowMapping` is a reference inverse of the writer, not a model of it.
- `VectorConverter.WriteYaml` is given a value and its type separately. When the type names a vector type but the value is of another type, the unboxing cast throws. Here the value carries its own type, so that mismatch cannot be expressed. A type that is none of the three vector types gives the empty mapping `{}`, in the source and in the model.
- `Guid.NewGuid()` is randomness: the file GUID and the sheet's sprite GUID are parameters.
- Floats are modelled as reals. Rounding, NaN, infinities and single-precision overflow are not modelled. Reading a little-endian float (`ReadSingle`) is a function parameter, since the decoder only moves such values around.
- Unsigned 32-bit overflow is not modelled. This covers the internal ID `(uint)(213 * 100000 + i * 2)`, the vertex cursor `offset + firstVertex * stride + channel offset` and the index arithmetic of the decoder; all are unbounded integers here. The one wrap-around that matters for ordinary inputs is modelled: for a stride below 12 the skip `stride - 12` wraps, and the decoder fails after its first position read (`SpriteExtensions.ReadPositions`). The `MemoryStream` position limit is modelled too: a seek or skip beyond int.MaxValue is refused (`SpriteExtensions.CursorOutOfRange`).
- `Metas.BoneLengthUnitToPixel`, `Metas.BonePosUnitToPixel`, `Metas.UnitValueToPixel`: these require pixels-per-unit ≠ 0. The source divides and then multiplies, which gives NaN for a zero value. The sprite constructor requires it only when the sprite has bones.
- `Metas.SpriteMeta`: a sprite with a root bone whose `GetRect` is null makes the source dereference null. The model requires such a sprite to have a rect. `MCRect` itself stores a null rect as `None`, as the source does.
- The quaternion members that are not in the core are not modelled: Euler angles, rotations, multiplication, `Normalize`, `Length` and `GetHashCode`. Only the constructors, the indexer, `XYZ`, `identity`, `Dot`, `Equals` and `==`/`!=` are modelled.
- C#'s `Quaternion` is a struct. The class `Quaternions.Quaternion` models one variable of that type, whose components the indexer setter and the `XYZ` setter overwrite. Copy semantics are not modelled.
- The `ClassIDType` enumeration is not part of this model. Only the constant 213 for `Sprite` is used.
- The empty `TextureImporter` class has nothing to model.
- The asset container is not part of this model: object reading, `PPtr.TryGet` and the Vector/Rectf source files. References resolve through the maps of `Assets.Container`.
- Disposing of the two readers in the stream decoder is not modelled, since it has no observable effect on the result.
- The legacy encoding's index array holds 16-bit values in the source. The model allows any natural number, since all that matters is whether an index is in range.
- What the code does not do, and the model therefore does not do either:
  - The outline transform adds no atlas texture-offset term. Only the pivot offset relative to the nominal rect is applied (`Metas.OutlineIgnoresAtlas`).
  - The serialized pivot is the nominal pivot; it is not recomputed against the packed texture rect.
  - The alignment is inferred from that nominal pivot.
  - A root bone at the unit origin does not land on (0, 0). The code shifts a root bone by the pivot's share of the rect, so with pivot (0.5, 0.5), a 100×50 rect and 100 pixels per unit it lands on (50, 25) (`Metas.BoneOriginExample`). Only a child bone at the origin lands on (0, 0).
- Internal IDs in an atlas sheet are not always unique. The atlas importer keys its name-to-ID dictionary by sprite name, and the last write wins. Matched sprites that share a name therefore all get the last one's ID in the sheet, while their rows of the ID table keep distinct IDs, one of which no sheet entry uses (`Metas.SharedNameSharesId`). The model keeps this behaviour.
- Malformed buffers fail with one error kind each; the error does not say which sub-mesh or stream it came from. An index count that is not a multiple of 3 is not an error: the remainder is ignored, as in the code (`SpriteExtensions.LegacyTrailingIndicesIgnored`).
- `VectorExtensions.NoTolerance`: exact comparison does not make every nudged centre pivot (0.5 + δ, 0.5), δ ≠ 0, Custom. δ = ±0.5 reaches the edge midpoints, RightCenter and LeftCenter. The lemma states exactly that.
