/** The part of the plugin protocol's type system that the remote-state data
    source uses: type descriptors, values tagged with a descriptor, and the
    static schema with a dynamic hole handed to the serialiser. */
module TfTypes {
  import opened Outcomes

  /** A type descriptor. `DynamicPseudoType` stands for "any type", to be
      fixed by the value at serialisation time. */
  datatype Type =
    | String
    | Number
    | Bool
    | Tuple(elementTypes: seq<Type>)
    | Object(attributeTypes: map<string, Type>)
    | DynamicPseudoType

  /** The payload of a value. A number is an exact integer here (see README). */
  datatype Data =
    | DString(s: string)
    | DNumber(n: int)
    | DBool(b: bool)
    | DTuple(elements: seq<Value>)
    | DObject(attributes: map<string, Value>)

  /** A value tagged with the descriptor it was built with. */
  datatype Value = Value(ty: Type, data: Data)

  /** The value is well typed: its descriptor and its payload have the same
      shape all the way down (scalar with scalar, tuple with tuple of equal
      length, object with object of equal key set). */
  predicate Conforms(v: Value)
    decreases v
  {
    match v.data
    case DString(_) => v.ty == String
    case DNumber(_) => v.ty == Number
    case DBool(_) => v.ty == Bool
    case DTuple(es) =>
      && v.ty.Tuple?
      && |v.ty.elementTypes| == |es|
      && forall i :: 0 <= i < |es| ==> es[i].ty == v.ty.elementTypes[i] && Conforms(es[i])
    case DObject(fields) =>
      && v.ty.Object?
      && v.ty.attributeTypes.Keys == fields.Keys
      && forall k :: k in fields ==> fields[k].ty == v.ty.attributeTypes[k] && Conforms(fields[k])
  }

  /** `ty` is an instance of `schema`: equal to it except that every
      `DynamicPseudoType` in the schema may stand for any type. */
  predicate Instantiates(schema: Type, ty: Type)
    decreases schema
  {
    match schema
    case DynamicPseudoType => true
    case Tuple(ss) =>
      && ty.Tuple?
      && |ss| == |ty.elementTypes|
      && forall i :: 0 <= i < |ss| ==> Instantiates(ss[i], ty.elementTypes[i])
    case Object(sm) =>
      && ty.Object?
      && sm.Keys == ty.attributeTypes.Keys
      && forall k :: k in sm ==> Instantiates(sm[k], ty.attributeTypes[k])
    case _ => schema == ty
  }

  /** What the serialiser is handed: a static schema (possibly with dynamic
      holes) and a value that must be well typed and fit that schema. */
  predicate FitsSchema(schema: Type, v: Value)
  {
    Conforms(v) && Instantiates(schema, v.ty)
  }

  /** The serialised form handed back to the host. The wire encoding itself
      is not modelled: only the pair of schema and value it is made from. */
  datatype DynamicValue = DynamicValue(schema: Type, value: Value)

  /** The error the serialiser gives for a value that does not fit its
      schema (the library's own wording is not modelled). */
  const SchemaMismatch := "value does not fit the schema"

  /** `tfprotov5.NewDynamicValue`: encodes `v` against `schema`. A value that
      is ill typed or does not fit the schema cannot be encoded. Whether the
      foreign wire encoder fails on a value that does fit is not visible
      here, so that verdict is the parameter `wireError`. */
  function NewDynamicValue(schema: Type, v: Value, wireError: Option<string>): (r: Result<DynamicValue, string>)
    ensures r.Success? <==> FitsSchema(schema, v) && wireError.None?
    ensures r.Success? ==> r.value.schema == schema && r.value.value == v && FitsSchema(r.value.schema, r.value.value)
    ensures !FitsSchema(schema, v) ==> r == Failure(SchemaMismatch)
    ensures FitsSchema(schema, v) && wireError.Some? ==> r == Failure(wireError.value)
  {
    if !FitsSchema(schema, v) then Failure(SchemaMismatch)
    else
      match wireError
      case None => Success(DynamicValue(schema, v))
      case Some(e) => Failure(e)
  }

  /** Why `Value.As` into a Go string failed. */
  datatype AsError =
    | Absent                   // the attribute is not in the record
    | KindMismatch(actual: Type) // it holds something other than a string

  /** `valMap[key].As(&s)`: the key is present and holds a string. */
  function AsString(fields: map<string, Value>, key: string): (r: Result<string, AsError>)
    ensures r.Success? <==> key in fields && fields[key].data.DString?
    ensures r.Success? ==> fields[key].data == DString(r.value)
    ensures r == Failure(Absent) <==> key !in fields
  {
    if key !in fields then Failure(Absent)
    else if fields[key].data.DString? then Success(fields[key].data.s)
    else Failure(KindMismatch(fields[key].ty))
  }
}
