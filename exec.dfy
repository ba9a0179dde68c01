/**
 * The `exec` function (main.go:187-274): decode the query text from the first
 * argument, parse it, decode the input object from the second, run the query,
 * collect what it emits, normalise the arity and encode the JSON text of the
 * result as a string value.
 */
module JqExec {
  import opened Wrappers
  import opened Protocol

  /**
   * One step of the query's output stream: a value, a halt (the payload is
   * `None` for `halt` and for `halt_error` on null: gojq keeps a nil value for
   * both), or any other runtime error. Halts and errors carry their error text.
   */
  datatype Item<V> = Emit(value: V) | Halt(payload: Option<V>, message: string) | Raise(message: string)

  /**
   * What `processOutput` hands to the JSON encoder: one value on its own, or
   * the whole collected list. `Whole([])` is a nil Go slice, which
   * encoding/json writes as `null`.
   */
  datatype Payload<V> = Single(value: V) | Whole(values: seq<V>) {
    function Elements(): seq<V>
    {
      if Single? then [value] else values
    }
  }

  /**
   * The query engine and the JSON codec, left uninterpreted: parsing query
   * text, running a program on an input object (a finite stream), decoding
   * JSON text into an object (errors ignored, so always some map) and
   * encoding a payload as JSON text.
   */
  datatype Jq<!P, !V> = Jq(
    parse: string -> Result<P, string>,
    run: (P, map<string, V>) -> seq<Item<V>>,
    unmarshalJson: string -> map<string, V>,
    marshalJson: Payload<V> -> Result<string, string>)

  /** The one error text of `parseArg`: the decoder's own message is dropped. */
  const ArgumentParseError: string := "problem parsing the argument"

  /** The index of the first item that is not a value, or the length of the stream if there is none. */
  function FirstStop<V>(items: seq<Item<V>>): (k: nat)
    ensures k <= |items|
    ensures forall i :: 0 <= i < k ==> items[i].Emit?
    ensures k < |items| ==> !items[k].Emit?
  {
    if items == [] || !items[0].Emit? then 0 else 1 + FirstStop(items[1..])
  }

  /** The values of a stream made only of values, in order. */
  function Values<V>(items: seq<Item<V>>): (vs: seq<V>)
    requires forall i :: 0 <= i < |items| ==> items[i].Emit?
    ensures |vs| == |items|
    ensures forall i :: 0 <= i < |items| ==> vs[i] == items[i].value
  {
    if items == [] then [] else [items[0].value] + Values(items[1..])
  }

  /**
   * What the collector makes of a stream: the values before the first
   * non-value item when that item is a payload-less halt or the stream ends
   * there, and that item's error text otherwise.
   */
  function Collected<V>(items: seq<Item<V>>): Result<seq<V>, string>
  {
    var k := FirstStop(items);
    if k < |items| && !(items[k].Halt? && items[k].payload.None?) then Failure(items[k].message)
    else Success(Values(items[..k]))
  }

  /** The collector loop: drains the stream into `store` under the halt and error rules. */
  method Collect<V>(items: seq<Item<V>>) returns (r: Result<seq<V>, string>)
    ensures r == Collected(items)
  {
    var store: seq<V> := [];
    var i := 0;
    while i < |items|
      invariant i <= FirstStop(items)
      invariant store == Values(items[..i])
    {
      var item := items[i];
      if !item.Emit? {
        if item.Halt? && item.payload.None? {
          break;
        }
        return Failure(item.message);
      }
      assert items[..i + 1] == items[..i] + [item];
      store := store + [item.value];
      i := i + 1;
    }
    return Success(store);
  }

  /** A stream with no halt and no error yields all its values, in emission order. */
  lemma CollectsEverything<V>(items: seq<Item<V>>)
    requires forall i :: 0 <= i < |items| ==> items[i].Emit?
    ensures Collected(items) == Success(Values(items))
  {
    assert items[..|items|] == items;
  }

  /**
   * When `pre` holds only values, the first non-value item of
   * `pre + [stop] + rest` is `stop`, and the collected result depends on
   * `pre` and `stop` alone: nothing after the first halt or error is looked at.
   */
  lemma CollectedAtStop<V>(pre: seq<Item<V>>, stop: Item<V>, rest: seq<Item<V>>)
    requires forall i :: 0 <= i < |pre| ==> pre[i].Emit?
    requires !stop.Emit?
    ensures FirstStop(pre + [stop] + rest) == |pre|
    ensures Collected(pre + [stop] + rest) ==
      if stop.Halt? && stop.payload.None? then Success(Values(pre)) else Failure(stop.message)
  {
    var items := pre + [stop] + rest;
    assert items[|pre|] == stop;
    assert forall i :: 0 <= i < |pre| ==> items[i] == pre[i];
    assert items[..|pre|] == pre;
  }

  /** A payload-less halt ends collection successfully, keeping exactly the values before it. */
  lemma HaltKeepsPrefix<V>(pre: seq<Item<V>>, message: string, rest: seq<Item<V>>)
    requires forall i :: 0 <= i < |pre| ==> pre[i].Emit?
    ensures Collected(pre + [Halt(None, message)] + rest) == Success(Values(pre))
  {
    CollectedAtStop(pre, Halt(None, message), rest);
  }

  /** A halt with a payload, or any other error, fails the call with its text, discarding the values. */
  lemma ErrorDiscardsValues<V>(pre: seq<Item<V>>, stop: Item<V>, rest: seq<Item<V>>)
    requires forall i :: 0 <= i < |pre| ==> pre[i].Emit?
    requires stop.Raise? || (stop.Halt? && stop.payload.Some?)
    ensures Collected(pre + [stop] + rest) == Failure(stop.message)
  {
    CollectedAtStop(pre, stop, rest);
  }

  /**
   * The arity rule of `processOutput`: exactly one value is encoded on its
   * own, any other number as the whole list; either way the payload holds
   * the collected values, in order.
   */
  function Normalize<V>(store: seq<V>): (p: Payload<V>)
    ensures p.Elements() == store
    ensures p.Single? <==> |store| == 1
  {
    if |store| == 1 then Single(store[0]) else Whole(store)
  }

  /**
   * The argument decodes to no value, or to a string: `AsString` does not
   * panic on it.
   */
  predicate DecodesToString<C>(cty: CtyCodec<C>, arg: DynamicValue)
  {
    cty.unmarshal(arg.msgPack).Success? ==> cty.isString(cty.unmarshal(arg.msgPack).value)
  }

  /** `parseArg`: decode the argument as a string, then read it as a JSON object, ignoring JSON errors. */
  function ParseArg<C, V>(cty: CtyCodec<C>, unmarshalJson: string -> map<string, V>, arg: DynamicValue): (r: Result<map<string, V>, string>)
    requires DecodesToString(cty, arg)
    ensures r.Failure? <==> cty.unmarshal(arg.msgPack).Failure?
    ensures r.Failure? ==> r.error == ArgumentParseError
    ensures r.Success? ==> r.value == unmarshalJson(cty.asString(cty.unmarshal(arg.msgPack).value))
  {
    match cty.unmarshal(arg.msgPack)
    case Failure(_) => Failure(ArgumentParseError)
    case Success(v) => Success(unmarshalJson(cty.asString(v)))
  }

  /** The JSON text of the collected values, encoded as a string value. */
  function Encoded<C, P, V>(cty: CtyCodec<C>, jq: Jq<P, V>, store: seq<V>): Result<DynamicValue, string>
  {
    var output :- jq.marshalJson(Normalize(store));
    var bytes :- cty.marshalString(output);
    Success(DynamicValue(bytes))
  }

  /** The query program of the first argument: decode it as a string, then parse it. */
  function Query<T, P, V>(codec: TfCodec<T>, jq: Jq<P, V>, code: DynamicValue): Result<P, string>
  {
    var codeVal :- codec.unmarshal(code, StringType);
    var text :- codec.asString(codeVal);
    jq.parse(text)
  }

  /**
   * The closure returns instead of panicking: there is a first argument, and
   * once the query parses there is a second one that decodes to a string
   * or not at all.
   */
  predicate Returns<T, C, P, V>(codec: TfCodec<T>, cty: CtyCodec<C>, jq: Jq<P, V>, args: seq<DynamicValue>)
  {
    |args| >= 1 &&
    (Query(codec, jq, args[0]).Success? ==> |args| >= 2 && DecodesToString(cty, args[1]))
  }

  /** The query program and the input object `exec` runs on, when both decode. */
  function Prepared<T, C, P, V>(codec: TfCodec<T>, cty: CtyCodec<C>, jq: Jq<P, V>, args: seq<DynamicValue>): Result<(P, map<string, V>), string>
    requires Returns(codec, cty, jq, args)
  {
    var query :- Query(codec, jq, args[0]);
    var input :- ParseArg(cty, jq.unmarshalJson, args[1]);
    Success((query, input))
  }

  /** The whole `exec` pipeline: every stage's first error is the call's error. */
  function ExecOutcome<T, C, P, V>(codec: TfCodec<T>, cty: CtyCodec<C>, jq: Jq<P, V>, args: seq<DynamicValue>): Result<DynamicValue, string>
    requires Returns(codec, cty, jq, args)
  {
    var (query, input) :- Prepared(codec, cty, jq, args);
    var store :- Collected(jq.run(query, input));
    Encoded(cty, jq, store)
  }

  /** The implementation's pair of nullable results for an outcome. */
  function AsImplResult(outcome: Result<DynamicValue, string>): (r: ImplResult)
    ensures r.result.Some? <==> r.error.None?
    ensures r.result.Some? <==> outcome.Success?
    ensures outcome.Success? ==> r.result.value == outcome.value
    ensures outcome.Failure? ==> r.error.value.text == outcome.error
  {
    match outcome
    case Success(v) => ImplResult(Some(v), None)
    case Failure(e) => ImplResult(None, Some(FunctionError(e)))
  }

  /** The implementation of `exec`, on the calls for which Go does not panic. */
  method Exec<T, C, P, V>(codec: TfCodec<T>, cty: CtyCodec<C>, jq: Jq<P, V>, args: seq<DynamicValue>) returns (r: ImplResult)
    requires Returns(codec, cty, jq, args)
    ensures r == AsImplResult(ExecOutcome(codec, cty, jq, args))
  {
    var codeVal := codec.unmarshal(args[0], StringType);
    if codeVal.Failure? {
      return ImplResult(None, Some(FunctionError(codeVal.error)));
    }
    var code := codec.asString(codeVal.value);
    if code.Failure? {
      return ImplResult(None, Some(FunctionError(code.error)));
    }
    var rest := args[1..];
    var query := jq.parse(code.value);
    if query.Failure? {
      return ImplResult(None, Some(FunctionError(query.error)));
    }
    var parsedArg := ParseArg(cty, jq.unmarshalJson, rest[0]);
    if parsedArg.Failure? {
      return ImplResult(None, Some(FunctionError(parsedArg.error)));
    }
    var store := Collect(jq.run(query.value, parsedArg.value));
    if store.Failure? {
      return ImplResult(None, Some(FunctionError(store.error)));
    }
    var output := jq.marshalJson(Normalize(store.value));
    if output.Failure? {
      return ImplResult(None, Some(FunctionError(output.error)));
    }
    var result := cty.marshalString(output.value);
    if result.Failure? {
      return ImplResult(None, Some(FunctionError(result.error)));
    }
    return ImplResult(Some(DynamicValue(result.value)), None);
  }

  /** A call with only the code argument returns the error of decoding or parsing that code. */
  lemma ExecCodeOnlyFailsEarly<T, C, P, V>(codec: TfCodec<T>, cty: CtyCodec<C>, jq: Jq<P, V>, code: DynamicValue)
    requires Query(codec, jq, code).Failure?
    ensures Returns(codec, cty, jq, [code])
    ensures ExecOutcome(codec, cty, jq, [code]) == Failure(Query(codec, jq, code).error)
  {
  }

  /** Only the first two arguments are read: any further variadic argument is ignored. */
  lemma ExecIgnoresExtraArguments<T, C, P, V>(codec: TfCodec<T>, cty: CtyCodec<C>, jq: Jq<P, V>, args: seq<DynamicValue>)
    requires |args| >= 2
    requires Returns(codec, cty, jq, args)
    ensures Returns(codec, cty, jq, args[..2])
    ensures ExecOutcome(codec, cty, jq, args) == ExecOutcome(codec, cty, jq, args[..2])
  {
  }

  /** Once the arguments decode, a halt-terminated run returns the encoding of the values before the halt. */
  lemma ExecReturnsValuesBeforeHalt<T, C, P, V>(
    codec: TfCodec<T>, cty: CtyCodec<C>, jq: Jq<P, V>, args: seq<DynamicValue>,
    query: P, input: map<string, V>, pre: seq<Item<V>>, message: string, rest: seq<Item<V>>)
    requires Returns(codec, cty, jq, args)
    requires Prepared(codec, cty, jq, args) == Success((query, input))
    requires jq.run(query, input) == pre + [Halt(None, message)] + rest
    requires forall i :: 0 <= i < |pre| ==> pre[i].Emit?
    ensures ExecOutcome(codec, cty, jq, args) == Encoded(cty, jq, Values(pre))
  {
    HaltKeepsPrefix(pre, message, rest);
  }

  /** Once the arguments decode, a run that fails fails the call with that error's text. */
  lemma ExecReportsRunError<T, C, P, V>(
    codec: TfCodec<T>, cty: CtyCodec<C>, jq: Jq<P, V>, args: seq<DynamicValue>,
    query: P, input: map<string, V>, pre: seq<Item<V>>, stop: Item<V>, rest: seq<Item<V>>)
    requires Returns(codec, cty, jq, args)
    requires Prepared(codec, cty, jq, args) == Success((query, input))
    requires jq.run(query, input) == pre + [stop] + rest
    requires forall i :: 0 <= i < |pre| ==> pre[i].Emit?
    requires stop.Raise? || (stop.Halt? && stop.payload.Some?)
    ensures AsImplResult(ExecOutcome(codec, cty, jq, args)) == ImplResult(None, Some(FunctionError(stop.message)))
  {
    ErrorDiscardsValues(pre, stop, rest);
  }

  /** A run that emits exactly one value and ends has that value encoded on its own, not in a list. */
  lemma ExecUnwrapsSingleValue<T, C, P, V>(
    codec: TfCodec<T>, cty: CtyCodec<C>, jq: Jq<P, V>, args: seq<DynamicValue>,
    query: P, input: map<string, V>, v: V)
    requires Returns(codec, cty, jq, args)
    requires Prepared(codec, cty, jq, args) == Success((query, input))
    requires jq.run(query, input) == [Emit(v)]
    ensures ExecOutcome(codec, cty, jq, args) ==
      (var output :- jq.marshalJson(Single(v)); var bytes :- cty.marshalString(output); Success(DynamicValue(bytes)))
  {
    CollectsEverything([Emit(v)]);
  }
}
