/**
 * `VectorConverter` of AssetStudio/Metas/TextureMeta.cs: the YAML type converter that writes a
 * vector as a flow-style mapping `{x: .., y: ..}`.  YamlDotNet's emitter is modelled as the list
 * of events it has been given; the serializer's rendering of a key or a float is one scalar event.
 */
module YamlVectors {
  import opened Wrappers
  import opened Geometry

  /** The runtime types a converter is asked about. */
  datatype RuntimeType = Vector2Type | Vector3Type | Vector4Type | OtherType(name: string)

  /** A value handed to the converter, tagged with its runtime type. */
  datatype VectorValue = V2(v2: Vector2) | V3(v3: Vector3) | V4(v4: Vector4) | Other(typeName: string)

  function TypeOf(v: VectorValue): RuntimeType {
    match v
    case V2(_) => Vector2Type
    case V3(_) => Vector3Type
    case V4(_) => Vector4Type
    case Other(name) => OtherType(name)
  }

  /** `Accepts`: exactly the three vector types. */
  predicate Accepts(t: RuntimeType) {
    t == Vector2Type || t == Vector3Type || t == Vector4Type
  }

  /** The emitter events the converter produces. */
  datatype YamlEvent =
    | MappingStart(flow: bool)   // `new MappingStart(null, null, false, MappingStyle.Flow)`
    | Key(name: string)          // `SerializeValue(emitter, "x", typeof(string))`
    | Component(value: real)     // `SerializeValue(emitter, vector.X, typeof(float))`
    | MappingEnd

  /** An emitter that records what it is given, in order. */
  class Emitter {
    var events: seq<YamlEvent>

    constructor()
      ensures events == []
    {
      events := [];
    }

    method Emit(e: YamlEvent)
      modifies this
      ensures events == old(events) + [e]
    {
      events := events + [e];
    }
  }

  /** The key names in arity order. */
  const KeyNames: seq<string> := ["x", "y", "z", "w"]

  /** The components of a value in arity order; nothing for a type the converter does not accept. */
  function Components(v: VectorValue): (r: seq<real>)
    ensures |r| <= |KeyNames|
  {
    match v
    case V2(p) => [p.x, p.y]
    case V3(p) => [p.x, p.y, p.z]
    case V4(p) => [p.x, p.y, p.z, p.w]
    case Other(_) => []
  }

  /** Each component preceded by its key. */
  function KeyedComponents(cs: seq<real>): seq<YamlEvent>
    requires |cs| <= |KeyNames|
  {
    if cs == [] then []
    else KeyedComponents(cs[..|cs| - 1]) + [Key(KeyNames[|cs| - 1]), Component(cs[|cs| - 1])]
  }

  /** Everything `WriteYaml` emits for one value. */
  function FlowMapping(v: VectorValue): seq<YamlEvent> {
    [MappingStart(true)] + KeyedComponents(Components(v)) + [MappingEnd]
  }

  /** Appending one component to the keyed part appends its key and the component. */
  lemma KeyedComponentsSnoc(cs: seq<real>, c: real)
    requires |cs| < |KeyNames|
    ensures KeyedComponents(cs + [c]) == KeyedComponents(cs) + [Key(KeyNames[|cs|]), Component(c)]
  {
    assert (cs + [c])[..|cs|] == cs;
  }

  /**
   * One key and its component, the two `SerializeValue` calls of one vector component: after the
   * components `cs`, the key of the next position and its value.
   */
  method EmitComponent(emitter: Emitter, ghost start: seq<YamlEvent>, ghost cs: seq<real>, key: string, value: real)
    requires |cs| < |KeyNames| && key == KeyNames[|cs|]
    requires emitter.events == start + KeyedComponents(cs)
    modifies emitter
    ensures emitter.events == start + KeyedComponents(cs + [value])
  {
    emitter.Emit(Key(key));
    emitter.Emit(Component(value));
    KeyedComponentsSnoc(cs, value);
  }

  /** The branch for a `Vector2`: keys x and y with their components. */
  method EmitVector2(emitter: Emitter, vector: Vector2)
    modifies emitter
    ensures emitter.events == old(emitter.events) + KeyedComponents([vector.x, vector.y])
  {
    ghost var start := emitter.events;
    assert emitter.events == start + KeyedComponents([]);
    EmitComponent(emitter, start, [], "x", vector.x);
    EmitComponent(emitter, start, [vector.x], "y", vector.y);
    assert [vector.x] + [vector.y] == [vector.x, vector.y];
  }

  /** The branch for a `Vector3`: keys x, y and z with their components. */
  method EmitVector3(emitter: Emitter, vector: Vector3)
    modifies emitter
    ensures emitter.events == old(emitter.events) + KeyedComponents([vector.x, vector.y, vector.z])
  {
    ghost var start := emitter.events;
    assert emitter.events == start + KeyedComponents([]);
    EmitComponent(emitter, start, [], "x", vector.x);
    EmitComponent(emitter, start, [vector.x], "y", vector.y);
    assert [vector.x] + [vector.y] == [vector.x, vector.y];
    EmitComponent(emitter, start, [vector.x, vector.y], "z", vector.z);
    assert [vector.x, vector.y] + [vector.z] == [vector.x, vector.y, vector.z];
  }

  /** The branch for a `Vector4`: keys x, y, z and w with their components. */
  method EmitVector4(emitter: Emitter, vector: Vector4)
    modifies emitter
    ensures emitter.events == old(emitter.events) + KeyedComponents([vector.x, vector.y, vector.z, vector.w])
  {
    ghost var start := emitter.events;
    assert emitter.events == start + KeyedComponents([]);
    EmitComponent(emitter, start, [], "x", vector.x);
    EmitComponent(emitter, start, [vector.x], "y", vector.y);
    assert [vector.x] + [vector.y] == [vector.x, vector.y];
    EmitComponent(emitter, start, [vector.x, vector.y], "z", vector.z);
    assert [vector.x, vector.y] + [vector.z] == [vector.x, vector.y, vector.z];
    EmitComponent(emitter, start, [vector.x, vector.y, vector.z], "w", vector.w);
    assert [vector.x, vector.y, vector.z] + [vector.w] == [vector.x, vector.y, vector.z, vector.w];
  }

  /** `WriteYaml`: open a flow mapping, write each key and component by type, close the mapping. */
  method WriteYaml(emitter: Emitter, value: VectorValue)
    modifies emitter
    ensures emitter.events == old(emitter.events) + FlowMapping(value)
  {
    emitter.Emit(MappingStart(true));
    ghost var started := emitter.events;
    match value {
      case V2(vector) => EmitVector2(emitter, vector);
      case V3(vector) => EmitVector3(emitter, vector);
      case V4(vector) => EmitVector4(emitter, vector);
      case Other(_) =>
    }
    assert emitter.events == started + KeyedComponents(Components(value));
    emitter.Emit(MappingEnd);
  }

  /**
   * The keyed part alternates keys and components: at position 2k the k-th key name, at 2k + 1
   * the k-th component.
   */
  lemma {:induction false} KeyedComponentsLayout(cs: seq<real>, k: nat)
    requires |cs| <= |KeyNames|
    ensures |KeyedComponents(cs)| == 2 * |cs|
    ensures k < |cs| ==> KeyedComponents(cs)[2 * k] == Key(KeyNames[k]) && KeyedComponents(cs)[2 * k + 1] == Component(cs[k])
    decreases |cs|
  {
    if cs != [] {
      var init := cs[..|cs| - 1];
      KeyedComponentsLayout(init, k);
      if k < |init| {
        assert init[k] == cs[k];
      }
    }
  }

  /**
   * The mapping is flow-style and its keys follow arity order (x, y; x, y, z; x, y, z, w), each
   * followed by its component; a type the converter does not accept gives an empty mapping.
   */
  lemma FlowMappingKeyOrder(v: VectorValue, k: nat)
    ensures |FlowMapping(v)| == 2 + 2 * |Components(v)|
    ensures FlowMapping(v)[0] == MappingStart(true) && FlowMapping(v)[|FlowMapping(v)| - 1] == MappingEnd
    ensures Accepts(TypeOf(v)) <==> |FlowMapping(v)| > 2
    ensures k < |Components(v)| ==>
              FlowMapping(v)[1 + 2 * k] == Key(KeyNames[k]) && FlowMapping(v)[2 + 2 * k] == Component(Components(v)[k])
  {
    KeyedComponentsLayout(Components(v), k);
  }

  /** Reading a flow mapping back: the inverse of `FlowMapping` on the vector types. */
  function ParseFlowMapping(events: seq<YamlEvent>): Option<VectorValue> {
    if |events| < 2 || events[0] != MappingStart(true) || events[|events| - 1] != MappingEnd then None
    else
      var body := events[1..|events| - 1];
      if |body| == 4 && body[0] == Key("x") && body[1].Component? && body[2] == Key("y") && body[3].Component? then
        Some(V2(Vector2(body[1].value, body[3].value)))
      else if |body| == 6 && body[0] == Key("x") && body[1].Component? && body[2] == Key("y") && body[3].Component?
              && body[4] == Key("z") && body[5].Component? then
        Some(V3(Vector3(body[1].value, body[3].value, body[5].value)))
      else if |body| == 8 && body[0] == Key("x") && body[1].Component? && body[2] == Key("y") && body[3].Component?
              && body[4] == Key("z") && body[5].Component? && body[6] == Key("w") && body[7].Component? then
        Some(V4(Vector4(body[1].value, body[3].value, body[5].value, body[7].value)))
      else None
  }

  /** Writing a vector and reading it back gives the vector: no component is lost or reordered. */
  lemma FlowMappingRoundTrip(v: VectorValue)
    requires Accepts(TypeOf(v))
    ensures ParseFlowMapping(FlowMapping(v)) == Some(v)
  {
    var body := FlowMapping(v)[1..|FlowMapping(v)| - 1];
    assert body == KeyedComponents(Components(v));
    var cs := Components(v);
    KeyedComponentsLayout(cs, 0);
    KeyedComponentsLayout(cs, 1);
    if |cs| > 2 {
      KeyedComponentsLayout(cs, 2);
    }
    if |cs| > 3 {
      KeyedComponentsLayout(cs, 3);
    }
  }
}
