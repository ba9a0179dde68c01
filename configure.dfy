/**
 * The configure callback the provider is built with (main.go:137-170): it
 * decodes the configuration into a map of strings, reads its `jq` attribute
 * as a string and, if all three steps succeed, returns an empty function set.
 */
module ConfigPayload {
  import opened Wrappers
  import opened Protocol

  /** The summary of the one diagnostic every decode failure produces. */
  const InvalidPayload: string := "Invalid configure payload"

  /** The configuration attribute that holds the query text. */
  const CodeAttribute: string := "jq"

  /** The map-of-strings decode of the configuration (first two steps). */
  function DecodeAttributes<T>(codec: TfCodec<T>, config: DynamicValue): Result<map<string, T>, string>
  {
    var res :- codec.unmarshal(config, MapType(StringType));
    codec.asMap(res)
  }

  /** The value of the `jq` attribute; a missing key gives the zero value, as Go's map indexing does. */
  function CodeValue<T>(codec: TfCodec<T>, cfg: map<string, T>): T
  {
    if CodeAttribute in cfg then cfg[CodeAttribute] else codec.zero
  }

  /** The single-diagnostic failure the callback returns for a decode error with text `detail`. */
  function Invalid(detail: string): ConfigureResult
  {
    ConfigureResult(None, [Diagnostic(SeverityError, InvalidPayload, detail)])
  }

  /**
   * The configure callback. The decoded code string is not used yet: the
   * function set it yields on success is always empty.
   */
  function Configure<T>(codec: TfCodec<T>, config: DynamicValue): (r: ConfigureResult)
    // Exactly two shapes: a nil set with one Error diagnostic, or an empty set with none.
    ensures r.functions.None? <==> |r.diagnostics| == 1
    ensures r.functions.Some? ==> r.functions.value == map[] && r.diagnostics == []
    ensures r.functions.None? ==>
      r.diagnostics[0].severity == SeverityError && r.diagnostics[0].summary == InvalidPayload
    // Each step fails the whole call with that step's error text as the detail.
    ensures codec.unmarshal(config, MapType(StringType)).Failure? ==>
      r == Invalid(codec.unmarshal(config, MapType(StringType)).error)
    ensures codec.unmarshal(config, MapType(StringType)).Success? ==>
      var res := codec.unmarshal(config, MapType(StringType)).value;
      (codec.asMap(res).Failure? ==> r == Invalid(codec.asMap(res).error)) &&
      (codec.asMap(res).Success? ==>
        var code := codec.asString(CodeValue(codec, codec.asMap(res).value));
        (code.Failure? ==> r == Invalid(code.error)) &&
        (code.Success? ==> r == ConfigureResult(Some(map[]), [])))
  {
    match DecodeAttributes(codec, config)
    case Failure(e) => Invalid(e)
    case Success(cfg) =>
      match codec.asString(CodeValue(codec, cfg))
      case Failure(e) => Invalid(e)
      case Success(_) => ConfigureResult(Some(map[]), [])
  }
}
