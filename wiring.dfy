/**
 * The provider as the program builds it: a FunctionProvider whose configure
 * callback is the one of main.go:137-170.
 */
module Wiring {
  import opened Wrappers
  import opened Protocol
  import opened ConfigPayload
  import opened Provider

  /**
   * A provider configured successfully and then with a payload that does not
   * decode: the failed call leaves no dynamic function, so a non-static name
   * is unknown again.
   */
  method ReconfigureThenCall<T>(
    codec: TfCodec<T>, staticSet: map<string, Function>,
    good: DynamicValue, bad: DynamicValue, name: string, args: seq<DynamicValue>)
    returns (first: ConfigureProviderResponse, second: ConfigureProviderResponse, r: Result<CallFunctionResponse, string>)
    requires Configure(codec, good).functions.Some?
    requires Configure(codec, bad).functions.None?
    requires name !in staticSet
    ensures first.diagnostics == []
    ensures |second.diagnostics| == 1 && second.diagnostics[0].summary == InvalidPayload
    ensures r == Failure(UnknownFunction(name))
  {
    var p := new FunctionProvider(Schema([]), staticSet, config => Configure(codec, config));
    first := p.ConfigureProvider(good);
    second := p.ConfigureProvider(bad);
    r := p.CallFunction(name, args);
  }

  /** Before any configure call, a static function is already callable and runs its implementation. */
  method CallBeforeConfigure<T>(
    codec: TfCodec<T>, staticSet: map<string, Function>, name: string, args: seq<DynamicValue>)
    returns (r: Result<CallFunctionResponse, string>)
    requires name in staticSet
    ensures r == Success(CallFunctionResponse(staticSet[name].impl(args).result, staticSet[name].impl(args).error))
  {
    var p := new FunctionProvider(Schema([]), staticSet, config => Configure(codec, config));
    r := p.CallFunction(name, args);
  }
}
