/** The config extractor of the remote-state data source: `retrieveValues`
    reads organization and workspace from the data source's config,
    `retrieveMeta` reads hostname and token from the provider metadata. */
module ConfigExtractor {
  import opened Outcomes
  import opened TfTypes

  /** A config as the host sends it, after the library has tried to
      unmarshal it against the fixed object schema and to assign the result
      to a Go map. The library's own checks are not modelled: they either
      yield the record or fail with a reason. */
  datatype RawConfig =
    | Record(fields: map<string, Value>)
    | UnmarshalFails(reason: string)   // `config.Unmarshal` returned an error
    | NotAMap(reason: string)          // `val.As(&valMap)` returned an error

  /** The errors the extractors return, one per early return. `quoted` is
      the attribute name the message quotes. */
  datatype ExtractError =
    | Unmarshal(reason: string)
    | AssignMap(reason: string)
    | AssignField(quoted: string, cause: AsError)

  /** Text for the library's own error from `As`. */
  function CauseText(cause: AsError): string
  {
    match cause
    case Absent => "attribute is absent"
    case KindMismatch(_) => "attribute is not a string"
  }

  const FieldPrefix := "Error assigning '"

  /** The message `err.Error()` gives for each error. A field error quotes
      its quoted right after the fixed prefix. */
  function ErrorText(e: ExtractError): (text: string)
    ensures e.AssignField? ==>
      |FieldPrefix| + |e.quoted| <= |text| && text[|FieldPrefix|..|FieldPrefix| + |e.quoted|] == e.quoted
  {
    match e
    case Unmarshal(reason) => "Error unmarshalling config: " + reason
    case AssignMap(reason) => "Error assigning Value to Golang map: " + reason
    case AssignField(quoted, cause) =>
      var text := FieldPrefix + quoted + "' Value to Golang string: " + CauseText(cause);
      assert text[|FieldPrefix|..|FieldPrefix| + |quoted|] == quoted;
      text
  }

  /** The common shape of both extractors: unmarshal, assign to a map, then
      read two string attributes in a fixed order, returning the first
      failure. `firstLabel` and `secondLabel` are the names the error
      messages quote for the two reads. */
  function ExtractPair(config: RawConfig, first: string, firstLabel: string, second: string, secondLabel: string)
    : (r: Result<(string, string), ExtractError>)
    ensures r.Success? <==> config.Record? && AsString(config.fields, first).Success? && AsString(config.fields, second).Success?
    ensures r.Success? ==>
      config.fields[first].data == DString(r.value.0) && config.fields[second].data == DString(r.value.1)
    ensures config.UnmarshalFails? ==> r == Failure(Unmarshal(config.reason))
    ensures config.NotAMap? ==> r == Failure(AssignMap(config.reason))
    ensures config.Record? && AsString(config.fields, first).Failure? ==>
      r == Failure(AssignField(firstLabel, AsString(config.fields, first).error))
    ensures config.Record? && AsString(config.fields, first).Success? && AsString(config.fields, second).Failure? ==>
      r == Failure(AssignField(secondLabel, AsString(config.fields, second).error))
  {
    match config
    case UnmarshalFails(reason) => Failure(Unmarshal(reason))
    case NotAMap(reason) => Failure(AssignMap(reason))
    case Record(fields) =>
      match AsString(fields, first)
      case Failure(cause) => Failure(AssignField(firstLabel, cause))
      case Success(a) =>
        match AsString(fields, second)
        case Failure(cause) => Failure(AssignField(secondLabel, cause))
        case Success(b) => Success((a, b))
  }

  /** `retrieveValues`: organization, then workspace. On success the pair is
      (organization, workspace). */
  function RetrieveValues(config: RawConfig): (r: Result<(string, string), ExtractError>)
    ensures r.Success? <==>
      config.Record? && AsString(config.fields, "organization").Success? && AsString(config.fields, "workspace").Success?
    ensures r.Success? ==>
      && config.fields["organization"].data == DString(r.value.0)
      && config.fields["workspace"].data == DString(r.value.1)
    ensures config.Record? && AsString(config.fields, "organization").Failure? ==>
      r == Failure(AssignField("organization", AsString(config.fields, "organization").error))
    ensures config.Record? && AsString(config.fields, "organization").Success? && AsString(config.fields, "workspace").Failure? ==>
      r == Failure(AssignField("workspace", AsString(config.fields, "workspace").error))
  {
    ExtractPair(config, "organization", "organization", "workspace", "workspace")
  }

  /** The attributes of the provider-metadata schema. */
  const MetaAttributes: set<string> := {"hostname", "token", "ssl_skip_verify"}

  /** `retrieveMeta` as written: hostname, then token, but the two failure
      messages were copied from `retrieveValues` and still quote
      'organization' and 'workspace'. */
  function RetrieveMetaAsWritten(meta: RawConfig): (r: Result<(string, string), ExtractError>)
    ensures r.Success? <==>
      meta.Record? && AsString(meta.fields, "hostname").Success? && AsString(meta.fields, "token").Success?
    ensures r.Success? ==>
      && meta.fields["hostname"].data == DString(r.value.0)
      && meta.fields["token"].data == DString(r.value.1)
    ensures meta.Record? && AsString(meta.fields, "hostname").Failure? ==>
      r == Failure(AssignField("organization", AsString(meta.fields, "hostname").error))
    ensures meta.Record? && AsString(meta.fields, "hostname").Success? && AsString(meta.fields, "token").Failure? ==>
      r == Failure(AssignField("workspace", AsString(meta.fields, "token").error))
  {
    ExtractPair(meta, "hostname", "organization", "token", "workspace")
  }

  /** `retrieveMeta` with each failure message quoting the attribute read. */
  function RetrieveMeta(meta: RawConfig): (r: Result<(string, string), ExtractError>)
    ensures r.Success? <==>
      meta.Record? && AsString(meta.fields, "hostname").Success? && AsString(meta.fields, "token").Success?
    ensures r.Success? ==>
      && meta.fields["hostname"].data == DString(r.value.0)
      && meta.fields["token"].data == DString(r.value.1)
    ensures meta.Record? && AsString(meta.fields, "hostname").Failure? ==>
      r == Failure(AssignField("hostname", AsString(meta.fields, "hostname").error))
    ensures meta.Record? && AsString(meta.fields, "hostname").Success? && AsString(meta.fields, "token").Failure? ==>
      r == Failure(AssignField("token", AsString(meta.fields, "token").error))
  {
    ExtractPair(meta, "hostname", "hostname", "token", "token")
  }

  /** A field error names an attribute whose read failed, with that read's
      cause. */
  ghost predicate NamesFailingField(config: RawConfig, r: Result<(string, string), ExtractError>)
  {
    r.Failure? && r.error.AssignField? ==>
      config.Record? && AsString(config.fields, r.error.quoted) == Failure(r.error.cause)
  }

  /** Every field error of `retrieveValues` and of the corrected
      `retrieveMeta` names the attribute that failed; for the metadata that
      is always one of its schema's attributes. */
  lemma ErrorsNameFailingField(config: RawConfig)
    ensures NamesFailingField(config, RetrieveValues(config))
    ensures NamesFailingField(config, RetrieveMeta(config))
    ensures RetrieveMeta(config).Failure? && RetrieveMeta(config).error.AssignField? ==>
      RetrieveMeta(config).error.quoted in MetaAttributes
  {
  }

  /** Whenever the hostname read of `retrieveMeta` as written fails, the
      error quotes 'organization', which is not an attribute of the
      metadata schema at all. */
  lemma MetaErrorBlamesOrganization(fields: map<string, Value>)
    requires AsString(fields, "hostname").Failure?
    ensures RetrieveMetaAsWritten(Record(fields)) == Failure(AssignField("organization", AsString(fields, "hostname").error))
    ensures "organization" !in MetaAttributes
  {
  }

  /** A missing token is reported as a token error however the hostname
      read went, as long as it succeeded: the two reads are independent. */
  lemma MissingTokenReported(fields: map<string, Value>)
    requires AsString(fields, "hostname").Success? && "token" !in fields
    ensures RetrieveMeta(Record(fields)) == Failure(AssignField("token", Absent))
  {
  }
}
