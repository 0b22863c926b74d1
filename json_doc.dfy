/** The shared JSON working document, abstracted to what the pack/unpack
    helpers select: top-level keys holding either a scalar or an object of
    named scalars. Serialisation and parsing belong to the JSON library and
    appear only as the `Deserialized` outcome of an opaque parser. */
module JsonDoc {

  datatype Option<T> = None | Some(value: T)

  /** The values the `msgPack` overloads store. `JRounded(x, places)` stands
      for `roundToDec(x, places)`, whose floating-point result is not modelled. */
  datatype JsonValue =
    | JBool(b: bool)
    | JInt(i: int)
    | JString(s: string)
    | JRounded(x: real, places: nat)

  datatype JsonNode = Scalar(v: JsonValue) | Object(members: map<string, JsonValue>)

  type Document = map<string, JsonNode>

  const EmptyDoc: Document := map[]

  /** What `deserializeJson(doc, text)` reports and leaves in the document. */
  datatype Deserialized = Deserialized(error: bool, doc: Document)

  /** `doc[group][param] = v`. A missing group becomes an object; a group
      holding a scalar cannot take members, and the assignment then has no
      effect. */
  function Pack(doc: Document, group: string, param: string, v: JsonValue): (d: Document)
    ensures group in d
    ensures forall k :: k in doc && k != group ==> k in d && d[k] == doc[k]
    ensures forall k :: k in d ==> k in doc || k == group
    ensures group !in doc ==> d[group] == Object(map[param := v])
    ensures group in doc && doc[group].Object? ==> d[group] == Object(doc[group].members[param := v])
    ensures group in doc && doc[group].Scalar? ==> d == doc
  {
    if group !in doc then doc[group := Object(map[param := v])]
    else match doc[group]
      case Object(m) => doc[group := Object(m[param := v])]
      case Scalar(_) => doc
  }

  /** `doc[param]` read as a scalar; `None` for a missing key or an object,
      which the typed conversions turn into their default. */
  function TopLevel(doc: Document, param: string): (r: Option<JsonValue>)
    ensures r.Some? <==> param in doc && doc[param].Scalar?
    ensures r.Some? ==> doc[param] == Scalar(r.value)
  {
    if param in doc && doc[param].Scalar? then Some(doc[param].v) else None
  }

  /** `doc[group][param]`; `None` when the group is missing or not an object,
      or has no such member. */
  function Member(doc: Document, group: string, param: string): (r: Option<JsonValue>)
    ensures r.Some? <==> group in doc && doc[group].Object? && param in doc[group].members
    ensures r.Some? ==> doc[group].members[param] == r.value
  {
    if group in doc && doc[group].Object? && param in doc[group].members
    then Some(doc[group].members[param])
    else None
  }

  /** A packed value is read back from its group, unless the group already
      held a scalar. */
  lemma PackThenMember(doc: Document, group: string, param: string, v: JsonValue)
    requires group !in doc || doc[group].Object?
    ensures Member(Pack(doc, group, param, v), group, param) == Some(v)
  {
  }

  /** Packing one member leaves every other member and every other top-level
      key as it was. */
  lemma PackKeepsOthers(doc: Document, group: string, param: string, v: JsonValue,
                        g: string, p: string)
    requires g != group || p != param
    ensures Member(Pack(doc, group, param, v), g, p) == Member(doc, g, p)
    ensures g != group ==> TopLevel(Pack(doc, group, param, v), g) == TopLevel(doc, g)
  {
  }

  /** `msgPack` has no empty-group rule, while `msgUnpack` reads the top level
      for an empty group: a value packed under group "" is stored in an object
      named "" and is not what unpacking with group "" reads. */
  lemma PackUngroupedIsNotTopLevel(param: string, v: JsonValue)
    ensures Member(Pack(EmptyDoc, "", param, v), "", param) == Some(v)
    ensures TopLevel(Pack(EmptyDoc, "", param, v), param) == None
  {
  }
}
