# Remote-state data source: config extraction and dynamic value encoding

A Dafny model of the read path of the `tfe_remote_state` data source
(`tfe/data_source_remote_state.go`). The data source answers a "read data
source" request in two steps:

- **Config extraction.** `retrieveValues` reads the organization and the
  workspace from the data source's config. `retrieveMeta` reads the hostname
  and the token from the provider metadata. Each one unmarshals the record,
  assigns it to a map and reads two string attributes in a fixed order. It
  returns the first failure with a field-specific message.
- **Dynamic value encoding.** The data source walks a state file, a map from
  output name to untyped Go value. Every string, `int64`, `bool` or list of
  strings gets a type descriptor in `stateTypes` and a tagged value in
  `tftypesState`. Values of any other kind are skipped. The two maps go into
  an envelope object with keys `workspace`, `organization` and
  `state_output`, which is handed to the serialiser together with a static
  schema in which `state_output` is a dynamic hole.

Files and modules:

- `outcomes.dfy` (`Outcomes`): the `Option` and `Result` wrappers.
- `tftypes.dfy` (`TfTypes`): type descriptors, tagged values, and the
  well-typedness predicate `Conforms`. It also holds `Instantiates`, which
  says a type fills a schema's dynamic holes, and `FitsSchema`, which joins
  the two. Last come the abstractions of the two library calls:
  `NewDynamicValue` and `As` into a string (`AsString`).
- `state_encoder.dfy` (`StateEncoder`): untyped Go values and the encoder.
  The method `EncodeStateFile` has the two nested loops of the source. It is
  proved against the specification functions `EncodeField`, `StateTypes`,
  `StateValues` and `HasUnsupportedElement`. The lemmas cover key sets, well
  typedness, the decode round trip and the hard-coded state file.
- `config_extractor.dfy` (`ConfigExtractor`): `RetrieveValues` and
  `RetrieveMeta`, both built from the shared `ExtractPair`, plus their error
  messages.
- `data_source_remote_state.dfy` (`RemoteStateDataSource`): the envelope,
  diagnostics, responses and the `ReadDataSource` method.

Behaviour worth knowing:

- A list element that is not a string makes the code panic, which takes
  the plugin process down. The encoder returns `Failure(element)` and
  `ReadDataSource` turns that into a `Panicked` outcome carrying the
  panic's message.
- A failed attribute read is reported with the attribute name the message
  quotes and the library's own `As` error as its cause.
- `retrieveMeta`'s failure messages quote the wrong attribute names (see
  Findings). Its result is discarded, so the messages never reach a user.

## Model

| member | source | states |
|---|---|---|
| TfTypes.AsString | tfe/data_source_remote_state.go:141-148 | reading an attribute as a Go string succeeds iff the key is present and holds a string, and then returns that string; it fails with `Absent` iff the key is missing |
| TfTypes.NewDynamicValue | tfe/data_source_remote_state.go:81-97 | the serialiser succeeds iff the value is well typed, fits the static schema and the foreign wire encoder reports no error; a value that does not fit is rejected whatever the wire encoder would say; on success the schema and value are kept |
| StateEncoder.EncodeStrings | tfe/data_source_remote_state.go:65-75 | the list loop succeeds iff every element is a string; then `types` has one `String` per element and `elements` holds each input string at its position; otherwise it fails with the first element that is not a string |
| StateEncoder.EncodeList | tfe/data_source_remote_state.go:64-75 | the imperative append loop computes exactly `EncodeStrings`, and on failure the field is reported unsupported with that element |
| StateEncoder.FirstNonStringIsError | tfe/data_source_remote_state.go:67-74 | when all elements before position i are strings and the one at i is not, the list fails with the element at i |
| StateEncoder.EncodeField | tfe/data_source_remote_state.go:54-78 | an encoded field's value carries the descriptor stored with it and is well typed; a field is skipped iff its kind is none of string, int64, bool or list; it is unsupported iff it is a list with a non-string element, and the error is such an element; an encoded list is a tuple with as many element types as the list has elements, all `String` |
| StateEncoder.EncodeStateFile | tfe/data_source_remote_state.go:51-79 | the key-by-key loop succeeds iff no field holds a list with a non-string element; on success it returns exactly `StateTypes` and `StateValues` of the state file; on failure the error is the offending element of some field |
| StateEncoder.FieldRoundTrip | tfe/data_source_remote_state.go:55-77 | decoding an encoded field gives back the input: strings and bools unchanged, the int64 unchanged, lists with the same elements in the same order |
| StateEncoder.EncodedKeys | tfe/data_source_remote_state.go:53-78 | a key is in `stateTypes` iff it is in `tftypesState`, iff it is in the state file with a string, int64, bool or all-string list; any other kind is absent from both maps |
| StateEncoder.StateObjectConforms | tfe/data_source_remote_state.go:51-79 | `stateTypes` and `tftypesState` have the same key set, drawn from the state file, and every value has the type stored under its key, so the `state_output` object is well typed |
| StateEncoder.StateRoundTrip | tfe/data_source_remote_state.go:51-79 | when no list holds a non-string, `tftypesState` has exactly the non-skipped keys and decodes back to the state file's values |
| StateEncoder.ListLiteralEncoding | tfe/data_source_remote_state.go:47 | the list `["a", "b", "c"]` encodes as a tuple of three `String` types holding "a", "b", "c" in order |
| StateEncoder.StateFileLiteralAccepted | tfe/data_source_remote_state.go:46-50 | the hard-coded state file never reaches the panic |
| StateEncoder.StateFileLiteralTypes | tfe/data_source_remote_state.go:46-50 | the hard-coded state file's descriptors are a three-string tuple for "foo", `Number` for "hello" and `Bool` for "quuz" |
| StateEncoder.StateFileLiteralValues | tfe/data_source_remote_state.go:46-50 | the hard-coded state file's values are its payloads unchanged: "a", "b", "c"; 123; false |
| ConfigExtractor.ErrorText | tfe/data_source_remote_state.go:141-148 | a field error's message quotes the attribute name immediately after the fixed "Error assigning '" prefix |
| ConfigExtractor.ExtractPair | tfe/data_source_remote_state.go:119-151 | unmarshal, then map assignment, then the first attribute, then the second: each failure is returned with its own error, the first failure wins, and success returns exactly the two strings found |
| ConfigExtractor.RetrieveValues | tfe/data_source_remote_state.go:119-151 | succeeds iff the config unmarshals and both organization and workspace hold strings, returning exactly (organization, workspace); an organization failure is reported whatever the workspace holds; a workspace failure is reported only after organization succeeded |
| ConfigExtractor.RetrieveMetaAsWritten | tfe/data_source_remote_state.go:153-188 | succeeds iff hostname and token both hold strings, returning exactly (hostname, token); a hostname failure is reported first, quoting 'organization'; a token failure is reported only after hostname succeeded, quoting 'workspace' |
| ConfigExtractor.RetrieveMeta | tfe/data_source_remote_state.go:153-188 | succeeds iff hostname and token both hold strings, returning exactly (hostname, token); a hostname failure is reported first, quoting 'hostname'; a token failure is reported only after hostname succeeded, quoting 'token' |
| ConfigExtractor.ErrorsNameFailingField | tfe/data_source_remote_state.go:141-148 | every field error of `RetrieveValues` and of the corrected `RetrieveMeta` names an attribute whose read failed, with that read's cause; for the metadata that attribute belongs to its schema |
| ConfigExtractor.MetaErrorBlamesOrganization | tfe/data_source_remote_state.go:175-178 | whenever the hostname read fails, `retrieveMeta` as written reports it as an 'organization' error, and 'organization' is not an attribute of the metadata schema |
| ConfigExtractor.MissingTokenReported | tfe/data_source_remote_state.go:179-182 | when hostname reads fine and token is missing, the metadata extraction fails with a token error |
| RemoteStateDataSource.EnvelopeFields | tfe/data_source_remote_state.go:87-97 | the envelope has exactly the keys workspace, organization and state_output; reading workspace and organization gives back the extracted names; state_output is the object of `stateTypes` and `tftypesState` |
| RemoteStateDataSource.EnvelopeFitsSchema | tfe/data_source_remote_state.go:81-97 | when the state_output object is well typed, the envelope is well typed and its type fills the dynamic hole of the static schema |
| RemoteStateDataSource.ReadDataSource | tfe/data_source_remote_state.go:22-113 | a config error gives one error diagnostic with the config summary and no state; otherwise an unsupported list element gives a panic naming such an element's Go type; otherwise a serialiser error gives one "Error encoding state" diagnostic and no state; otherwise the state is the envelope of the extracted names and the encoded maps, with no diagnostics, and it fits the static schema; the provider metadata is read by `retrieveMeta` as written and never influences the outcome |

## Findings

| source | as written | input that shows it | evidently intended | confidence | as-written member | corrected member |
|---|---|---|---|---|---|---|
| tfe/data_source_remote_state.go:175-182 | the hostname and token failures return "Error assigning 'organization' …" and "Error assigning 'workspace' …", messages copied from `retrieveValues` | any metadata record whose hostname read fails: the failure is reported as an 'organization' error | each message quotes the attribute it failed to read ('hostname', 'token') | high, not executed | ConfigExtractor.MetaErrorBlamesOrganization | ConfigExtractor.ErrorsNameFailingField |

`ConfigExtractor.RetrieveMetaAsWritten` models the code as written, and
`MetaErrorBlamesOrganization` exhibits the discrepancy on it.
`ConfigExtractor.RetrieveMeta` is the corrected version. `ReadDataSource`
runs the as-written one, as line 24 does. Its result is discarded, so the
discrepancy never reaches a response.

## Left out

- Wire serialisation in `tfprotov5.NewDynamicValue` is not modelled. It is a foreign msgpack encoder, so whether it fails is the `wireError` parameter. The model proves only that the pair handed to it is well typed and fits the static schema.
- The internals of `config.Unmarshal` and `Value.As` are not modelled. The request carries each record as already unmarshalled (`Record`) or as failing in one of the two library steps, with the library's reason.
- TfTypes.AsString: the library's `As` into a Go string reads a null attribute, or the zero Value of a missing key, as "" and returns no error, where the model fails with `Absent`. The `Absent` failure path is a property of the abstraction, not of the program. The library's error texts are not modelled either: `CauseText` gives fixed wording in their place.
- The integer-to-float conversion `big.NewFloat(float64(val))` is not modelled. A number is the exact integer, while the program rounds every `int64` of magnitude above 2^53 to the nearest `float64`.
- StateEncoder.FieldRoundTrip: its `int64` case describes the program only for |n| <= 2^53; above that the program's `float64(val)` rounds (2^53 + 1 encodes as 2^53) and the value does not round-trip.
- StateEncoder.StateRoundTrip: likewise holds of the program only when every `int64` in the state file has |n| <= 2^53.
- TfTypes.NewDynamicValue: its rejection of a value that does not fit the schema uses a fixed message (`SchemaMismatch`), not the library's wording.
- Logging and the `stderr` handle are left out. They are side-effect output only.
- The commented-out `readRemoteStateOutput` and the unused `remoteStateFile` and `outputValue` structs are left out. The first is a network client that the code never calls.
- `ValidateDataSourceConfig` is left out. It always returns an empty response.
- The state file is a parameter of `ReadDataSource`. The code uses a hard-coded literal in place of the fetch, and the `StateFileLiteral` lemmas cover that literal.
- Go's map iteration order is not modelled. With several offending fields, which element the panic message names depends on that order. `ReadDataSource` therefore states only that the message names the Go type of some offending element.
- The panic is a `Panicked` outcome of `ReadDataSource`, not a process abort. The context argument and the always-nil Go error result are not modelled.
- The `state_output` attribute of the config schema and the `ssl_skip_verify` attribute of the metadata schema are never read by the code, and the model does not read them either.
