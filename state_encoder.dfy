/** The dynamic value encoder of the remote-state data source: it turns a
    state file (output name to untyped Go value) into the two parallel maps
    `stateTypes` and `tftypesState`, and wraps them in the envelope object. */
module StateEncoder {
  import opened Outcomes
  import opened TfTypes

  newtype int64 = x: int | -0x8000_0000_0000_0000 <= x < 0x8000_0000_0000_0000

  /** A Go value of static type `interface{}`, by its dynamic type. Every
      dynamic type the encoder has no case for is `OtherKind`, carrying the
      name Go prints for it with `%T`. */
  datatype Untyped =
    | Str(s: string)
    | Int64(n: int64)
    | Boolean(b: bool)
    | List(elements: seq<Untyped>)
    | OtherKind(goType: string)

  /** The name `%T` prints for the dynamic type of `u`. */
  function GoTypeName(u: Untyped): string
  {
    match u
    case Str(_) => "string"
    case Int64(_) => "int64"
    case Boolean(_) => "bool"
    case List(_) => "[]interface {}"
    case OtherKind(t) => t
  }

  /** The message of the panic raised on a list element that is not a string. */
  function PanicMessage(element: Untyped): string
  {
    "unknown type " + GoTypeName(element)
  }

  function StringValue(s: string): Value
  {
    Value(String, DString(s))
  }

  /** The `types` and `elements` slices built for one list. */
  datatype Elements = Elements(types: seq<Type>, values: seq<Value>)

  /** The inner loop over a list, element by element from the front: each
      string is appended to both slices; the first element of any other
      kind stops the loop with that element as the error. */
  function EncodeStrings(es: seq<Untyped>): (r: Result<Elements, Untyped>)
    decreases |es|
    ensures r.Success? <==> forall i :: 0 <= i < |es| ==> es[i].Str?
    ensures r.Success? ==>
      && |r.value.types| == |es|
      && |r.value.values| == |es|
      && forall i :: 0 <= i < |es| ==> r.value.types[i] == String && r.value.values[i] == StringValue(es[i].s)
    ensures r.Failure? ==>
      exists i :: 0 <= i < |es| && es[i] == r.error && !es[i].Str? && forall j :: 0 <= j < i ==> es[j].Str?
  {
    if es == [] then Success(Elements([], []))
    else
      var last := es[|es| - 1];
      match EncodeStrings(es[..|es| - 1])
      case Failure(e) => Failure(e)
      case Success(acc) =>
        if last.Str? then Success(Elements(acc.types + [String], acc.values + [StringValue(last.s)]))
        else Failure(last)
  }

  /** What the encoder does with one top-level field. */
  datatype FieldEncoding =
    | Encoded(ty: Type, value: Value)
    | Skipped                        // no case of the type switch matches
    | Unsupported(element: Untyped)  // a list element that makes it panic

  /** One iteration of the outer loop: the type switch on the field's value. */
  function EncodeField(v: Untyped): (r: FieldEncoding)
    ensures r.Encoded? ==> r.value.ty == r.ty && Conforms(r.value)
    ensures r.Skipped? <==> v.OtherKind?
    ensures r.Unsupported? <==> v.List? && exists i :: 0 <= i < |v.elements| && !v.elements[i].Str?
    ensures r.Unsupported? ==> r.element in v.elements && !r.element.Str?
    ensures v.List? && r.Encoded? ==>
      r.ty.Tuple? && |r.ty.elementTypes| == |v.elements| && forall t :: t in r.ty.elementTypes ==> t == String
  {
    match v
    case Str(s) => Encoded(String, StringValue(s))
    case Int64(n) => Encoded(Number, Value(Number, DNumber(n as int)))
    case Boolean(b) => Encoded(Bool, Value(Bool, DBool(b)))
    case List(es) =>
      (match EncodeStrings(es)
       case Success(el) => Encoded(Tuple(el.types), Value(Tuple(el.types), DTuple(el.values)))
       case Failure(e) => Unsupported(e))
    case OtherKind(_) => Skipped
  }

  /** Some field of the state file holds a list with a non-string element. */
  predicate HasUnsupportedElement(state: map<string, Untyped>)
  {
    exists k :: k in state && EncodeField(state[k]).Unsupported?
  }

  /** `stateTypes` once every field has been visited. */
  function StateTypes(state: map<string, Untyped>): map<string, Type>
  {
    map k | k in state && EncodeField(state[k]).Encoded? :: EncodeField(state[k]).ty
  }

  /** `tftypesState` once every field has been visited. */
  function StateValues(state: map<string, Untyped>): map<string, Value>
  {
    map k | k in state && EncodeField(state[k]).Encoded? :: EncodeField(state[k]).value
  }

  /** The two maps the encoder returns. */
  datatype EncodedState = EncodedState(stateTypes: map<string, Type>, tftypesState: map<string, Value>)

  /** The state-file part of `ReadDataSource`: fills `tftypesState` and
      `stateTypes` one field at a time; a non-string list element stops it
      with that element (where the Go code panics). */
  method EncodeStateFile(stateFile: map<string, Untyped>) returns (r: Result<EncodedState, Untyped>)
    ensures r.Success? <==> !HasUnsupportedElement(stateFile)
    ensures r.Success? ==> r.value == EncodedState(StateTypes(stateFile), StateValues(stateFile))
    ensures r.Failure? ==> exists k :: k in stateFile && EncodeField(stateFile[k]) == Unsupported(r.error)
  {
    var tftypesState: map<string, Value> := map[];
    var stateTypes: map<string, Type> := map[];
    var pending := stateFile.Keys;
    ghost var visited: map<string, Untyped> := map[];
    while pending != {}
      invariant pending <= stateFile.Keys
      invariant visited == stateFile - pending
      invariant stateTypes == StateTypes(visited)
      invariant tftypesState == StateValues(visited)
      invariant !HasUnsupportedElement(visited)
      decreases pending
    {
      var k :| k in pending;
      ghost var e := EncodeField(stateFile[k]);
      match stateFile[k] {
        case Str(val) =>
          tftypesState := tftypesState[k := Value(String, DString(val))];
          stateTypes := stateTypes[k := String];
          assert e == Encoded(String, Value(String, DString(val)));
        case Int64(val) =>
          tftypesState := tftypesState[k := Value(Number, DNumber(val as int))];
          stateTypes := stateTypes[k := Number];
          assert e == Encoded(Number, Value(Number, DNumber(val as int)));
        case Boolean(val) =>
          tftypesState := tftypesState[k := Value(Bool, DBool(val))];
          stateTypes := stateTypes[k := Bool];
          assert e == Encoded(Bool, Value(Bool, DBool(val)));
        case List(val) =>
          var encoded := EncodeList(val);
          if encoded.Failure? {
            return Failure(encoded.error);
          }
          var types, elements := encoded.value.types, encoded.value.values;
          tftypesState := tftypesState[k := Value(Tuple(types), DTuple(elements))];
          stateTypes := stateTypes[k := Tuple(types)];
          assert e == Encoded(Tuple(types), Value(Tuple(types), DTuple(elements)));
        case OtherKind(_) =>
          assert e == Skipped;
      }
      TypesStep(stateFile, visited, k);
      ValuesStep(stateFile, visited, k);
      UnsupportedStep(visited, k, stateFile[k]);
      visited := visited[k := stateFile[k]];
      pending := pending - {k};
      assert visited == stateFile - pending;
    }
    assert visited == stateFile;
    return Success(EncodedState(stateTypes, tftypesState));
  }

  /** The inner loop of the list case: appends each string element to
      `elements` and its descriptor to `types`, and stops at the first
      element of any other kind. */
  method EncodeList(val: seq<Untyped>) returns (r: Result<Elements, Untyped>)
    ensures r == EncodeStrings(val)
    ensures r.Failure? ==> EncodeField(List(val)) == Unsupported(r.error)
  {
    var elements: seq<Value> := [];
    var types: seq<Type> := [];
    var i := 0;
    while i < |val|
      invariant 0 <= i <= |val|
      invariant EncodeStrings(val[..i]) == Success(Elements(types, elements))
    {
      match val[i] {
        case Str(el) =>
          assert val[..i + 1][..i] == val[..i];
          elements := elements + [Value(String, DString(el))];
          types := types + [String];
        case _ =>
          FirstNonStringIsError(val, i);
          return Failure(val[i]);
      }
      i := i + 1;
    }
    assert val[..i] == val;
    return Success(Elements(types, elements));
  }

  /** When the elements before `i` are strings and `val[i]` is not, the
      inner loop fails with `val[i]`. */
  lemma FirstNonStringIsError(val: seq<Untyped>, i: nat)
    requires i < |val| && !val[i].Str?
    requires EncodeStrings(val[..i]).Success?
    ensures EncodeStrings(val) == Failure(val[i])
  {
    var prefix := val[..i];
    assert forall j :: 0 <= j < i ==> val[j] == prefix[j] && prefix[j].Str?;
    var r := EncodeStrings(val);
    assert r.Failure?;
    var n :| 0 <= n < |val| && val[n] == r.error && !val[n].Str? && forall j :: 0 <= j < n ==> val[j].Str?;
    assert n == i;
  }

  /** Visiting field `k` after the fields of `visited` extends `stateTypes`
      by the descriptor of `k` and nothing else. */
  lemma TypesStep(stateFile: map<string, Untyped>, visited: map<string, Untyped>, k: string)
    requires k in stateFile && k !in visited
    ensures var e := EncodeField(stateFile[k]);
      StateTypes(visited[k := stateFile[k]]) == if e.Encoded? then StateTypes(visited)[k := e.ty] else StateTypes(visited)
  {
  }

  /** Likewise for `tftypesState`. */
  lemma ValuesStep(stateFile: map<string, Untyped>, visited: map<string, Untyped>, k: string)
    requires k in stateFile && k !in visited
    ensures var e := EncodeField(stateFile[k]);
      StateValues(visited[k := stateFile[k]]) == if e.Encoded? then StateValues(visited)[k := e.value] else StateValues(visited)
  {
  }

  /** Visiting a field whose list is all strings (or that is no list) adds
      no unsupported element. */
  lemma UnsupportedStep(visited: map<string, Untyped>, k: string, v: Untyped)
    requires !HasUnsupportedElement(visited) && !EncodeField(v).Unsupported?
    ensures !HasUnsupportedElement(visited[k := v])
  {
  }

  /** Reading an encoded value back as a Go value: the inverse of the
      encoding for the kinds it supports (scalars and tuples of strings). */
  function Decode(v: Value): Option<Untyped>
  {
    match v.data
    case DString(s) => Some(Str(s))
    case DNumber(n) =>
      if -0x8000_0000_0000_0000 <= n < 0x8000_0000_0000_0000 then Some(Int64(n as int64)) else None
    case DBool(b) => Some(Boolean(b))
    case DTuple(es) =>
      if forall i :: 0 <= i < |es| ==> es[i].data.DString?
      then Some(List(seq(|es|, i requires 0 <= i < |es| && es[i].data.DString? => Str(es[i].data.s))))
      else None
    case DObject(_) => None
  }

  /** Decoding an encoded field gives back the field's value unchanged:
      strings, integers and booleans keep their payload, lists keep their
      length, their elements and their order. */
  lemma FieldRoundTrip(v: Untyped)
    requires EncodeField(v).Encoded?
    ensures Decode(EncodeField(v).value) == Some(v)
  {
    if v.List? {
      var es := v.elements;
      var vs := EncodeStrings(es).value.values;
      var back := seq(|vs|, i requires 0 <= i < |vs| && vs[i].data.DString? => Str(vs[i].data.s));
      assert forall i :: 0 <= i < |es| ==> back[i] == es[i];
      assert back == es;
    }
  }

  /** Which fields are encoded: exactly the strings, integers, booleans and
      all-string lists. Every other kind is skipped without an error. */
  lemma EncodedKeys(state: map<string, Untyped>, k: string)
    ensures k in StateTypes(state) <==> k in StateValues(state)
    ensures k in StateTypes(state) <==>
      && k in state
      && !state[k].OtherKind?
      && (state[k].List? ==> forall i :: 0 <= i < |state[k].elements| ==> state[k].elements[i].Str?)
  {
  }

  /** The two maps have the same key set, drawn from the state file, and the
      object they make together is well typed: every value carries the
      descriptor stored under its key. */
  lemma StateObjectConforms(state: map<string, Untyped>)
    ensures StateTypes(state).Keys == StateValues(state).Keys <= state.Keys
    ensures Conforms(Value(Object(StateTypes(state)), DObject(StateValues(state))))
  {
  }

  /** Decoding every value of `tftypesState` gives back the state file
      without its skipped fields. */
  lemma StateRoundTrip(state: map<string, Untyped>)
    requires !HasUnsupportedElement(state)
    ensures StateValues(state).Keys == set k | k in state && !state[k].OtherKind?
    ensures forall k :: k in StateValues(state) ==> Decode(StateValues(state)[k]) == Some(state[k])
  {
    forall k | k in StateValues(state)
      ensures Decode(StateValues(state)[k]) == Some(state[k])
    {
      FieldRoundTrip(state[k]);
    }
  }

  /** The state file the data source currently encodes in place of the
      remote state it does not yet fetch. */
  const StateFileLiteral: map<string, Untyped> :=
    map["foo" := List([Str("a"), Str("b"), Str("c")]), "hello" := Int64(123), "quuz" := Boolean(false)]

  /** The list in the literal encodes as a tuple of three strings, in order. */
  lemma ListLiteralEncoding()
    ensures EncodeField(List([Str("a"), Str("b"), Str("c")])) ==
      Encoded(Tuple([String, String, String]),
              Value(Tuple([String, String, String]), DTuple([StringValue("a"), StringValue("b"), StringValue("c")])))
  {
    var el := EncodeStrings([Str("a"), Str("b"), Str("c")]).value;
    assert el.types == [String, String, String];
    assert el.values == [StringValue("a"), StringValue("b"), StringValue("c")];
  }

  /** The literal encodes without a panic. */
  lemma StateFileLiteralAccepted()
    ensures !HasUnsupportedElement(StateFileLiteral)
  {
    ListLiteralEncoding();
    assert StateFileLiteral.Keys == {"foo", "hello", "quuz"};
  }

  /** The literal's descriptors: "foo" a tuple of three strings, "hello" a
      number, "quuz" a boolean. */
  lemma StateFileLiteralTypes()
    ensures StateTypes(StateFileLiteral) == map["foo" := Tuple([String, String, String]), "hello" := Number, "quuz" := Bool]
  {
    ListLiteralEncoding();
    assert StateFileLiteral.Keys == {"foo", "hello", "quuz"};
  }

  /** The literal's values carry the input payloads unchanged. */
  lemma StateFileLiteralValues()
    ensures StateValues(StateFileLiteral) == map[
      "foo" := Value(Tuple([String, String, String]), DTuple([StringValue("a"), StringValue("b"), StringValue("c")])),
      "hello" := Value(Number, DNumber(123)),
      "quuz" := Value(Bool, DBool(false))]
  {
    ListLiteralEncoding();
    assert StateFileLiteral.Keys == {"foo", "hello", "quuz"};
  }
}
