# jq function provider — a Dafny model

This project models the request-handling core of an OpenTofu/Terraform
*function provider* that exposes one function, `exec`. The function runs a jq
query against an input object and returns the JSON text of the result.

The model has four parts:

- **The provider server** (`provider.dfy`, module `Provider`). `FunctionProvider`
  is a class. Its static function set, configuration schema and configure
  callback are `const`: the Go code never writes those fields after
  construction. Its `dynamicFunctions` field is the one thing that changes.
  `Option.None` stands for Go's nil map. `CallFunction` looks a name up in the
  static set first and then in the dynamic set. `GetFunctions` publishes both
  sets, with a dynamic entry written last so that it wins. `GetMetadata` and
  `GetProviderSchema` publish the static set only. `ConfigureProvider`
  overwrites the dynamic set with whatever the configure callback returns.
  The eight resource and data-source methods always fail with `not supported`.
  The pure functions `Resolve` and `Advertised` state the lookup and the
  publication rules. The loop methods are proved against them.
- **The configure callback** (`configure.dfy`, module `ConfigPayload`). It runs
  three decode steps: the payload as a map of strings, that map as a Go map,
  and the `jq` attribute as a string. The first failure yields a nil set and
  one Error diagnostic whose summary is `Invalid configure payload` and whose
  detail is the step's error text. Success yields an empty set.
- **The `exec` pipeline** (`exec.dfy`, module `JqExec`). The query's output is
  a finite stream of `Item`s: a value, a halt (with or without a payload), or
  another error. The `Collect` loop drains the stream. A payload-less halt
  ends collection and keeps what was gathered. Any other error fails the call
  with its text. `Normalize` is the arity rule of `processOutput`. `ParseArg`
  decodes the input argument. `Exec` chains the stages and is proved equal to
  the function `ExecOutcome`. Only the first two arguments are read; later
  variadic arguments are ignored, as in the Go code.
- **Wiring** (`wiring.dfy`, module `Wiring`). A provider built with the real
  configure callback, driven through configure and call sequences.

The wire codecs are parameters of the model, not definitions: `TfCodec`
(tftypes), `CtyCodec` (cty msgpack decoding, the string check and read behind `AsString`, and encoding) and `Jq` (query parsing, running, and
JSON decoding and encoding). Their results are abstract success-or-failure
values.

Three behaviours of the code are easy to get wrong, and the model keeps them as written:

- With zero collected values, `store` is a nil Go slice, and `encoding/json`
  writes it as `null`, not `[]`. The model hands the encoder `Whole([])` (the
  whole, empty list). It does not claim that the text is `[]`.
- A failed configure call does not keep the previous dynamic set. It installs
  the nil set that the callback returned (main.go:58). See
  `Provider.FailedConfigureClearsDynamic`.
- `ConfigureProvider` writes the field directly. There is no atomic swap.

## Model

| member | source | states |
|---|---|---|
| `ConfigPayload.Configure` | main.go:137-170 | Each of the three decode steps, in order, fails the callback with a nil set and exactly one Error diagnostic `Invalid configure payload`, whose detail is that step's error text. A missing `jq` key is read as the zero value. If every step succeeds, the result is an empty set with no diagnostics. |
| `Provider.Resolve` | main.go:90-107 | A name resolves exactly when it is in the static set or in a non-nil dynamic set. A static entry is always the one chosen. A dynamic entry is chosen only for names that are not static. |
| `Provider.Advertised` | main.go:109-121 | The published names are the union of the static and dynamic names. On a name in both sets, the dynamic signature is published. A nil dynamic set adds nothing. |
| `Provider.FunctionProvider.constructor` | main.go:22-27 | A new provider has the given static set, schema and callback, and a nil dynamic set. |
| `Provider.FunctionProvider.GetMetadata` | main.go:29-39 | The response lists every static name exactly once and nothing else. Dynamic names are not listed. The capability flag is set. |
| `Provider.FunctionProvider.GetProviderSchema` | main.go:40-51 | The response holds the provider schema unchanged and the signatures of exactly the static functions, keyed by name. The capability flag is set. |
| `Provider.FunctionProvider.ValidateProviderConfig` | main.go:52-55 | The submitted configuration, nil included, comes back unchanged as the prepared configuration. |
| `Provider.FunctionProvider.ConfigureProvider` | main.go:56-62 | The dynamic set becomes exactly the set the callback returned, nil included. The callback's diagnostics are returned as given. The static set, schema and callback are constants and cannot change. After a failed configure, only static names resolve, whatever dynamic set was installed before. |
| `Provider.FunctionProvider.Unsupported` | main.go:66-89 | Each of the eight resource and data-source methods fails with the error `not supported` and returns no response. |
| `Provider.FunctionProvider.CallFunction` | main.go:90-108 | A static name runs the static implementation. Its result and error are returned unchanged, and any dynamic entry of that name is ignored. Otherwise a name in a non-nil dynamic set runs that implementation. A name in neither set fails with exactly `unknown function <name>`. |
| `Provider.FunctionProvider.GetFunctions` | main.go:109-121 | The two loops build exactly `Advertised`: every static signature, then every dynamic signature, with the later write winning. |
| `Provider.CallableIffAdvertised` | main.go:90-121 | `CallFunction` finds a name exactly when `GetFunctions` publishes it. |
| `Provider.SharedNameAsymmetry` | main.go:90-121 | On a name in both sets, `GetFunctions` publishes the dynamic signature, but `CallFunction` runs the static implementation. |
| `Provider.FailedConfigureClearsDynamic` | main.go:98-107 | A nil dynamic set, which a failed configure installs, resolves exactly the static names. |
| `JqExec.FirstStop` | main.go:214-227 | The index where collection stops: every earlier item is a value, and the item at that index, if any, is not a value. |
| `JqExec.Values` | main.go:226 | The values of an all-value stream, in emission order, one for each item. |
| `JqExec.Collect` | main.go:212-227 | The collector loop computes `Collected`. It appends values in order, breaks on a payload-less halt or at the end of the stream, and returns the error text of any other error. |
| `JqExec.CollectedAtStop` | main.go:214-224 | When only values come before the first halt or error: a payload-less halt gives the values before it, and any other stop gives that item's error text. What comes after the stop never matters. |
| `JqExec.CollectsEverything` | main.go:214-218 | A stream with no halt and no error yields all its values, in order. |
| `JqExec.HaltKeepsPrefix` | main.go:219-222 | A payload-less halt ends collection successfully and keeps exactly the values emitted before it. |
| `JqExec.ErrorDiscardsValues` | main.go:219-224 | A halt with a payload, or any other error, fails collection with that item's text and keeps no values. |
| `JqExec.Normalize` | main.go:265-274 | What is encoded holds exactly the collected values, in order. It is a single bare value exactly when there is one value, and the whole list otherwise, including the empty list. |
| `JqExec.ParseArg` | main.go:255-263 | For an argument that decodes to a string or not at all: it fails exactly when the msgpack bytes do not decode, and the error text is then always `problem parsing the argument`. Otherwise the result is the JSON decoding of the string, and JSON errors are never reported. |
| `JqExec.AsImplResult` | main.go:187-243 | Every `exec` outcome returns exactly one of a result or a function error. A failure's text is the stage's error text. |
| `JqExec.Exec` | main.go:187-243 | On every call for which the Go closure does not panic (`Returns`), it returns the pipeline's outcome. The stages run in order: decode the code, read it as a string, parse it, parse the input argument, collect, JSON-encode, msgpack-encode. The first failing stage's error text becomes the function error. Only the first two arguments are read. |
| `JqExec.ExecCodeOnlyFailsEarly` | main.go:188-203 | A call with only the code argument does not panic when the code fails to decode or to parse, and returns that error. |
| `JqExec.ExecIgnoresExtraArguments` | main.go:198-205 | The outcome depends on the first two arguments only: further variadic arguments are ignored. |
| `JqExec.ExecReturnsValuesBeforeHalt` | main.go:210-243 | Once the arguments decode, a run that ends in a payload-less halt returns the encoding of the values before the halt. |
| `JqExec.ExecReportsRunError` | main.go:219-224 | Once the arguments decode, a run that raises an error, or halts with a payload, returns no result and a function error carrying that text. |
| `JqExec.ExecUnwrapsSingleValue` | main.go:265-268 | A run that emits exactly one value encodes that value on its own, not wrapped in a list. |
| `Wiring.ReconfigureThenCall` | main.go:56-107 | A provider built with the real configure callback, configured successfully and then with a payload that does not decode, reports one `Invalid configure payload` diagnostic and then fails a non-static name with `unknown function <name>`. |
| `Wiring.CallBeforeConfigure` | main.go:90-97 | With the real configure callback, a static function is callable before any configure call and its result and error come back unchanged. |

## Left out

- The tftypes, cty msgpack and `encoding/json` codecs (main.go:138, 147, 158, 188, 194, 235, 257, 261, 267, 270) are parameters. Each returns an abstract success or failure, and the JSON and msgpack grammars are not modelled.
- JqExec.ParseArg: requires that the argument decodes to a string or not at all. The Go `cty.Value.AsString` (main.go:261) panics on a decoded null, unknown or non-string value, and the published variadic parameter (dynamic type, null allowed, main.go:178-182) admits such values, so `exec(".", null)` crashes the provider instead of returning an error. The model does not describe that crash.
- The gojq parser and evaluator (main.go:200, 210) are the `Jq` parameter. A run is a given finite stream, so a query that never terminates is not modelled.
- JqExec.Exec: requires `Returns`, the calls on which the Go closure does not panic. It shuts out a call with no argument (index panic at main.go:188), a call with only the code argument whose code decodes and parses (index panic at main.go:205), and a second argument that decodes to a non-string (panic at main.go:261). A code-only call whose code fails to decode or parse is admitted and returns that error (`JqExec.ExecCodeOnlyFailsEarly`).
- The `main` bootstrap (`tf6server.Serve`) and the literals it builds (main.go:123-253) are not modelled. These are the provider schema with its `jq` attribute and the `exec` signature. As a result, `Exec` is not installed as the `impl` of a concrete provider's `exec` entry; the `Wiring` module does install the real configure callback.
- `StopProvider` is modelled as a method with nothing to promise: it returns an empty response.
- Go's random map iteration order is a nondeterministic choice (`:|`) in the loops. The contracts hold for every order.
- `context.Context` parameters and concurrent calls are not modelled. Go's nil-versus-empty distinction for the response slices and maps is not modelled either.
