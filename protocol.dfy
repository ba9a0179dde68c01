/**
 * The values exchanged with the host over the provider protocol (version 6),
 * and the seams through which the model reaches the codecs it does not model.
 */
module Protocol {
  import opened Wrappers

  newtype byte = x: int | 0 <= x < 256

  /** A dynamically typed value on the wire: its msgpack bytes. */
  datatype DynamicValue = DynamicValue(msgPack: seq<byte>)

  /** The tftypes the core names. */
  datatype TfType = StringType | DynamicPseudoType | MapType(elementType: TfType)

  datatype FunctionParameter = FunctionParameter(name: string, paramType: TfType, allowNullValue: bool)

  /** The declaration of a callable function: what GetProviderSchema and GetFunctions publish. */
  datatype FunctionSignature = FunctionSignature(
    parameters: seq<FunctionParameter>,
    variadicParameter: Option<FunctionParameter>,
    returnType: TfType)

  datatype SchemaAttribute = SchemaAttribute(name: string, attributeType: TfType, required: bool)

  /** The provider's configuration schema, handed back unchanged by GetProviderSchema. */
  datatype Schema = Schema(attributes: seq<SchemaAttribute>)

  datatype FunctionError = FunctionError(text: string)

  datatype Severity = SeverityError | SeverityWarning

  datatype Diagnostic = Diagnostic(severity: Severity, summary: string, detail: string)

  /** What a function implementation returns: Go's pair of nullable pointers. */
  datatype ImplResult = ImplResult(result: Option<DynamicValue>, error: Option<FunctionError>)

  /** A registered function: its published signature and its implementation. */
  datatype Function = Function(signature: FunctionSignature, impl: seq<DynamicValue> -> ImplResult)

  /** What the configure callback hands back: a function set (`None` is a nil map) and diagnostics. */
  datatype ConfigureResult = ConfigureResult(functions: Option<map<string, Function>>, diagnostics: seq<Diagnostic>)

  /**
   * The tftypes decoding steps, left uninterpreted: `DynamicValue.Unmarshal`
   * against an expected type, `Value.As` into a map or a string, and the zero
   * `Value` that indexing a Go map with a missing key yields.
   */
  datatype TfCodec<!T> = TfCodec(
    unmarshal: (DynamicValue, TfType) -> Result<T, string>,
    asMap: T -> Result<map<string, T>, string>,
    asString: T -> Result<string, string>,
    zero: T)

  /**
   * The cty msgpack steps, left uninterpreted: decoding bytes as a
   * dynamically typed cty value, asking whether a value is a known, non-null
   * string and reading it as one, and encoding a string as a dynamically
   * typed value.
   */
  datatype CtyCodec<!C> = CtyCodec(
    unmarshal: seq<byte> -> Result<C, string>,
    isString: C -> bool,
    asString: C -> string,
    marshalString: string -> Result<seq<byte>, string>)
}
