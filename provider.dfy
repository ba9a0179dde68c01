/**
 * The provider server (main.go:17-121): a registry of static functions fixed
 * at construction and of dynamic functions replaced by every configure call,
 * the protocol methods that publish and dispatch them, and the resource and
 * data-source methods that are all refused.
 */
module Provider {
  import opened Wrappers
  import opened Protocol

  /** The error text of every resource and data-source method. */
  const NotSupported: string := "not supported"

  /** The error text of CallFunction for a name found in neither set. */
  function UnknownFunction(name: string): string
  {
    "unknown function " + name
  }

  /** The names of a dynamic set; a nil set has none. */
  function DynamicNames(dynamicSet: Option<map<string, Function>>): set<string>
  {
    if dynamicSet.Some? then dynamicSet.value.Keys else {}
  }

  /** The function CallFunction dispatches `name` to: the static set is consulted first. */
  function Resolve(staticSet: map<string, Function>, dynamicSet: Option<map<string, Function>>, name: string): (r: Option<Function>)
    ensures r.Some? <==> name in staticSet.Keys + DynamicNames(dynamicSet)
    ensures name in staticSet ==> r == Some(staticSet[name])
    ensures name !in staticSet && r.Some? ==> dynamicSet.Some? && name in dynamicSet.value && r.value == dynamicSet.value[name]
  {
    if name in staticSet then Some(staticSet[name])
    else if dynamicSet.Some? && name in dynamicSet.value then Some(dynamicSet.value[name])
    else None
  }

  /** The signatures of a function set, by name. */
  function Signatures(fs: map<string, Function>): (r: map<string, FunctionSignature>)
    ensures r.Keys == fs.Keys
    ensures forall n :: n in fs ==> r[n] == fs[n].signature
  {
    map n | n in fs :: fs[n].signature
  }

  /** The signatures GetFunctions publishes: both sets, a dynamic entry overriding a static one. */
  function Advertised(staticSet: map<string, Function>, dynamicSet: Option<map<string, Function>>): (r: map<string, FunctionSignature>)
    ensures r.Keys == staticSet.Keys + DynamicNames(dynamicSet)
    ensures forall n :: n in DynamicNames(dynamicSet) ==> r[n] == dynamicSet.value[n].signature
    ensures forall n :: n in staticSet && n !in DynamicNames(dynamicSet) ==> r[n] == staticSet[n].signature
  {
    if dynamicSet.Some? then Signatures(staticSet) + Signatures(dynamicSet.value) else Signatures(staticSet)
  }

  /** The response of CallFunction for an implementation's result: both halves passed on unchanged. */
  datatype CallFunctionResponse = CallFunctionResponse(result: Option<DynamicValue>, error: Option<FunctionError>)

  datatype FunctionMetadata = FunctionMetadata(name: string)

  datatype ServerCapabilities = ServerCapabilities(getProviderSchemaOptional: bool)

  datatype GetMetadataResponse = GetMetadataResponse(capabilities: ServerCapabilities, functions: seq<FunctionMetadata>)

  datatype GetProviderSchemaResponse = GetProviderSchemaResponse(
    capabilities: ServerCapabilities,
    provider: Schema,
    functions: map<string, FunctionSignature>)

  datatype ValidateProviderConfigResponse = ValidateProviderConfigResponse(preparedConfig: Option<DynamicValue>)

  datatype ConfigureProviderResponse = ConfigureProviderResponse(diagnostics: seq<Diagnostic>)

  datatype StopProviderResponse = StopProviderResponse

  datatype GetFunctionsResponse = GetFunctionsResponse(functions: map<string, FunctionSignature>)

  /** The eight resource and data-source methods of the protocol. */
  datatype ResourceOperation =
    | ValidateResourceConfig
    | UpgradeResourceState
    | ReadResource
    | PlanResourceChange
    | ApplyResourceChange
    | ImportResourceState
    | ValidateDataResourceConfig
    | ReadDataSource

  /** `names` lists every name of `keys` once and nothing else. */
  ghost predicate ListsExactly(names: seq<FunctionMetadata>, keys: set<string>)
  {
    && (forall i :: 0 <= i < |names| ==> names[i].name in keys)
    && (forall n :: n in keys ==> exists i :: 0 <= i < |names| && names[i].name == n)
    && (forall i, j :: 0 <= i < j < |names| ==> names[i].name != names[j].name)
  }

  class FunctionProvider {
    const providerSchema: Schema
    const staticFunctions: map<string, Function>
    var dynamicFunctions: Option<map<string, Function>>
    const configure: DynamicValue -> ConfigureResult

    /** A provider before any configure call: its dynamic set is nil. */
    constructor (schema: Schema, staticSet: map<string, Function>, configure: DynamicValue -> ConfigureResult)
      ensures providerSchema == schema && staticFunctions == staticSet && this.configure == configure
      ensures dynamicFunctions == None
    {
      providerSchema := schema;
      staticFunctions := staticSet;
      this.configure := configure;
      dynamicFunctions := None;
    }

    /** Lists the names of the static functions only, in map order. */
    method GetMetadata() returns (resp: GetMetadataResponse)
      ensures resp.capabilities.getProviderSchemaOptional
      ensures |resp.functions| == |staticFunctions|
      ensures ListsExactly(resp.functions, staticFunctions.Keys)
    {
      var functions: seq<FunctionMetadata> := [];
      var remaining := staticFunctions.Keys;
      while remaining != {}
        invariant remaining <= staticFunctions.Keys
        invariant |functions| + |remaining| == |staticFunctions.Keys|
        invariant forall i :: 0 <= i < |functions| ==> functions[i].name in staticFunctions.Keys - remaining
        invariant forall n :: n in staticFunctions.Keys - remaining ==>
          exists i :: 0 <= i < |functions| && functions[i].name == n
        invariant forall i, j :: 0 <= i < j < |functions| ==> functions[i].name != functions[j].name
        decreases remaining
      {
        var name :| name in remaining;
        ghost var listed := functions;
        functions := functions + [FunctionMetadata(name)];
        forall n | n in staticFunctions.Keys - (remaining - {name})
          ensures exists i :: 0 <= i < |functions| && functions[i].name == n
        {
          if n == name {
            assert functions[|listed|].name == n;
          } else {
            assert n in staticFunctions.Keys - remaining;
            var i :| 0 <= i < |listed| && listed[i].name == n;
            assert functions[i].name == n;
          }
        }
        remaining := remaining - {name};
      }
      assert staticFunctions.Keys - remaining == staticFunctions.Keys;
      resp := GetMetadataResponse(ServerCapabilities(true), functions);
    }

    /** Publishes the configuration schema and the signatures of the static functions only. */
    method GetProviderSchema() returns (resp: GetProviderSchemaResponse)
      ensures resp.capabilities.getProviderSchemaOptional
      ensures resp.provider == providerSchema
      ensures resp.functions == Signatures(staticFunctions)
    {
      var functions: map<string, FunctionSignature> := map[];
      var remaining := staticFunctions.Keys;
      while remaining != {}
        invariant remaining <= staticFunctions.Keys
        invariant functions.Keys == staticFunctions.Keys - remaining
        invariant forall n :: n in functions ==> functions[n] == staticFunctions[n].signature
        decreases remaining
      {
        var name :| name in remaining;
        functions := functions[name := staticFunctions[name].signature];
        remaining := remaining - {name};
      }
      resp := GetProviderSchemaResponse(ServerCapabilities(true), providerSchema, functions);
    }

    /** Accepts any configuration, handing it back as the prepared one. */
    method ValidateProviderConfig(config: Option<DynamicValue>) returns (resp: ValidateProviderConfigResponse)
      ensures resp.preparedConfig == config
    {
      resp := ValidateProviderConfigResponse(config);
    }

    /**
     * Replaces the dynamic set with whatever the configure callback returns,
     * a nil set included, and passes its diagnostics on.
     */
    method ConfigureProvider(config: DynamicValue) returns (resp: ConfigureProviderResponse)
      modifies this
      ensures dynamicFunctions == configure(config).functions
      ensures resp.diagnostics == configure(config).diagnostics
      // A failed configure forgets every dynamic function installed before it.
      ensures configure(config).functions.None? ==>
        forall n :: Resolve(staticFunctions, dynamicFunctions, n).Some? <==> n in staticFunctions
    {
      var r := configure(config);
      dynamicFunctions := r.functions;
      resp := ConfigureProviderResponse(r.diagnostics);
    }

    method StopProvider() returns (resp: StopProviderResponse)
    {
      resp := StopProviderResponse;
    }

    /** Every resource and data-source method fails with "not supported" and no response. */
    method Unsupported(op: ResourceOperation) returns (r: Result<(), string>)
      ensures r == Failure(NotSupported)
    {
      r := Failure(NotSupported);
    }

    /**
     * Runs the function `name` resolves to and returns its result and error
     * unchanged; a name in neither set is an RPC error naming it.
     */
    method CallFunction(name: string, args: seq<DynamicValue>) returns (r: Result<CallFunctionResponse, string>)
      ensures name in staticFunctions ==>
        r == Success(CallFunctionResponse(staticFunctions[name].impl(args).result, staticFunctions[name].impl(args).error))
      ensures Resolve(staticFunctions, dynamicFunctions, name).Some? ==>
        var out := Resolve(staticFunctions, dynamicFunctions, name).value.impl(args);
        r == Success(CallFunctionResponse(out.result, out.error))
      ensures r.Failure? <==> name !in staticFunctions.Keys + DynamicNames(dynamicFunctions)
      ensures r.Failure? ==> r.error == UnknownFunction(name)
    {
      if name in staticFunctions {
        var out := staticFunctions[name].impl(args);
        return Success(CallFunctionResponse(out.result, out.error));
      }
      if dynamicFunctions.Some? {
        if name in dynamicFunctions.value {
          var out := dynamicFunctions.value[name].impl(args);
          return Success(CallFunctionResponse(out.result, out.error));
        }
      }
      return Failure(UnknownFunction(name));
    }

    /** Publishes the signatures of both sets; on a shared name the dynamic one is written last and wins. */
    method GetFunctions() returns (resp: GetFunctionsResponse)
      ensures resp.functions == Advertised(staticFunctions, dynamicFunctions)
    {
      var functions: map<string, FunctionSignature> := map[];
      var remaining := staticFunctions.Keys;
      while remaining != {}
        invariant remaining <= staticFunctions.Keys
        invariant functions.Keys == staticFunctions.Keys - remaining
        invariant forall n :: n in functions ==> functions[n] == staticFunctions[n].signature
        decreases remaining
      {
        var name :| name in remaining;
        functions := functions[name := staticFunctions[name].signature];
        remaining := remaining - {name};
      }
      // Ranging over a nil map visits nothing.
      var dynamicSet := if dynamicFunctions.Some? then dynamicFunctions.value else map[];
      remaining := dynamicSet.Keys;
      while remaining != {}
        invariant remaining <= dynamicSet.Keys
        invariant functions.Keys == staticFunctions.Keys + (dynamicSet.Keys - remaining)
        invariant forall n :: n in dynamicSet.Keys - remaining ==> functions[n] == dynamicSet[n].signature
        invariant forall n :: n in staticFunctions && n !in dynamicSet.Keys - remaining ==>
          functions[n] == staticFunctions[n].signature
        decreases remaining
      {
        var name :| name in remaining;
        functions := functions[name := dynamicSet[name].signature];
        remaining := remaining - {name};
      }
      resp := GetFunctionsResponse(functions);
    }
  }

  /** A name can be called exactly when GetFunctions publishes it. */
  lemma CallableIffAdvertised(staticSet: map<string, Function>, dynamicSet: Option<map<string, Function>>, name: string)
    ensures Resolve(staticSet, dynamicSet, name).Some? <==> name in Advertised(staticSet, dynamicSet)
  {
  }

  /**
   * On a name in both sets, GetFunctions publishes the dynamic signature while
   * CallFunction runs the static implementation.
   */
  lemma SharedNameAsymmetry(staticSet: map<string, Function>, dynamicSet: map<string, Function>, name: string)
    requires name in staticSet && name in dynamicSet
    ensures Resolve(staticSet, Some(dynamicSet), name) == Some(staticSet[name])
    ensures Advertised(staticSet, Some(dynamicSet))[name] == dynamicSet[name].signature
  {
  }

  /** After a failed configure (a nil set) no dynamic name resolves, whatever was installed before. */
  lemma FailedConfigureClearsDynamic(staticSet: map<string, Function>, r: ConfigureResult, name: string)
    requires r.functions.None?
    ensures Resolve(staticSet, r.functions, name).Some? <==> name in staticSet
  {
  }
}
