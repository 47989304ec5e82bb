/** The remote-state data source's read request: extract organization and
    workspace from the config, encode the state file, wrap it in the
    envelope object and hand it to the serialiser. */
module RemoteStateDataSource {
  import opened Outcomes
  import opened TfTypes
  import opened StateEncoder
  import opened ConfigExtractor

  const EnvelopeKeys: set<string> := {"workspace", "organization", "state_output"}

  /** The static schema of the envelope: `state_output` is a dynamic hole. */
  function EnvelopeSchema(): Type
  {
    Object(map["workspace" := String, "organization" := String, "state_output" := DynamicPseudoType])
  }

  /** The envelope's concrete type, with the hole filled by the object type
      built from `stateTypes`. */
  function EnvelopeType(stateTypes: map<string, Type>): Type
  {
    Object(map["workspace" := String, "organization" := String, "state_output" := Object(stateTypes)])
  }

  /** The envelope value handed to the serialiser. */
  function Envelope(orgName: string, wsName: string, stateTypes: map<string, Type>, tftypesState: map<string, Value>): Value
  {
    Value(EnvelopeType(stateTypes), DObject(map[
      "workspace" := Value(String, DString(wsName)),
      "organization" := Value(String, DString(orgName)),
      "state_output" := Value(Object(stateTypes), DObject(tftypesState))]))
  }

  /** The envelope has exactly the three keys; reading workspace and
      organization back as strings gives the names it was built from, and
      `state_output` is the object of the two encoded maps. */
  lemma EnvelopeFields(orgName: string, wsName: string, stateTypes: map<string, Type>, tftypesState: map<string, Value>)
    ensures var env := Envelope(orgName, wsName, stateTypes, tftypesState);
      && env.data.DObject?
      && env.data.attributes.Keys == EnvelopeKeys
      && AsString(env.data.attributes, "workspace") == Success(wsName)
      && AsString(env.data.attributes, "organization") == Success(orgName)
      && env.data.attributes["state_output"] == Value(Object(stateTypes), DObject(tftypesState))
  {
    var env := Envelope(orgName, wsName, stateTypes, tftypesState);
    assert env.data.attributes.Keys == EnvelopeKeys;
  }

  /** When the object of the two encoded maps is well typed, so is the
      envelope, and its type fills the dynamic hole of the static schema. */
  lemma EnvelopeFitsSchema(orgName: string, wsName: string, stateTypes: map<string, Type>, tftypesState: map<string, Value>)
    requires Conforms(Value(Object(stateTypes), DObject(tftypesState)))
    ensures FitsSchema(EnvelopeSchema(), Envelope(orgName, wsName, stateTypes, tftypesState))
  {
    var env := Envelope(orgName, wsName, stateTypes, tftypesState);
    assert env.data.attributes.Keys == EnvelopeKeys;
    assert Conforms(env.data.attributes["workspace"]);
    assert Conforms(env.data.attributes["organization"]);
    assert EnvelopeSchema().attributeTypes.Keys == EnvelopeKeys;
    assert EnvelopeType(stateTypes).attributeTypes.Keys == EnvelopeKeys;
  }

  datatype Severity = SeverityError

  datatype Diagnostic = Diagnostic(severity: Severity, summary: string, detail: string)

  /** The response: diagnostics, and the serialised state when there is one. */
  datatype Response = Response(diagnostics: seq<Diagnostic>, state: Option<DynamicValue>)

  /** How a read request ends: with a response, or with a panic that takes
      the plugin process down. */
  datatype ReadOutcome = Returned(response: Response) | Panicked(message: string)

  datatype Request = Request(config: RawConfig, providerMeta: RawConfig)

  const ConfigSummary := "Error retrieving values from the config"
  const EncodingSummary := "Error encoding state"

  /** The response for a config that could not be read. */
  function ConfigErrorResponse(e: ExtractError): Response
  {
    Response([Diagnostic(SeverityError, ConfigSummary, ConfigSummary + ": " + ErrorText(e))], None)
  }

  /** The response for an envelope the serialiser rejected. */
  function EncodingErrorResponse(reason: string): Response
  {
    Response([Diagnostic(SeverityError, EncodingSummary, EncodingSummary + ": " + reason)], None)
  }

  /** `ReadDataSource`. `stateFile` stands for the remote state outputs the
      data source is meant to fetch; `wireError` is the verdict of the
      foreign serialiser on the envelope. The metadata extraction is run
      and its result dropped, so nothing below depends on `providerMeta`. */
  method ReadDataSource(req: Request, stateFile: map<string, Untyped>, wireError: Option<string>) returns (out: ReadOutcome)
    ensures RetrieveValues(req.config).Failure? ==>
      out == Returned(ConfigErrorResponse(RetrieveValues(req.config).error))
    ensures RetrieveValues(req.config).Success? && HasUnsupportedElement(stateFile) ==>
      && out.Panicked?
      && exists k :: k in stateFile && EncodeField(stateFile[k]).Unsupported? && out.message == PanicMessage(EncodeField(stateFile[k]).element)
    ensures RetrieveValues(req.config).Success? && !HasUnsupportedElement(stateFile) && wireError.Some? ==>
      out == Returned(EncodingErrorResponse(wireError.value))
    ensures RetrieveValues(req.config).Success? && !HasUnsupportedElement(stateFile) && wireError.None? ==>
      var (orgName, wsName) := RetrieveValues(req.config).value;
      out == Returned(Response([], Some(DynamicValue(EnvelopeSchema(),
        Envelope(orgName, wsName, StateTypes(stateFile), StateValues(stateFile))))))
    ensures out.Returned? && out.response.state.Some? ==>
      && out.response.diagnostics == []
      && FitsSchema(out.response.state.value.schema, out.response.state.value.value)
    ensures out.Returned? && out.response.state.None? ==>
      |out.response.diagnostics| == 1 && out.response.diagnostics[0].severity == SeverityError
  {
    var _ := RetrieveMetaAsWritten(req.providerMeta);
    var values := RetrieveValues(req.config);
    if values.Failure? {
      return Returned(ConfigErrorResponse(values.error));
    }
    var (orgName, wsName) := values.value;

    var encoded := EncodeStateFile(stateFile);
    if encoded.Failure? {
      return Panicked(PanicMessage(encoded.error));
    }
    var stateTypes, tftypesState := encoded.value.stateTypes, encoded.value.tftypesState;

    StateObjectConforms(stateFile);
    EnvelopeFitsSchema(orgName, wsName, stateTypes, tftypesState);
    var state := NewDynamicValue(EnvelopeSchema(), Envelope(orgName, wsName, stateTypes, tftypesState), wireError);
    if state.Failure? {
      return Returned(EncodingErrorResponse(state.error));
    }
    return Returned(Response([], Some(state.value)));
  }
}
