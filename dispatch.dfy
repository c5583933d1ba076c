/** The dispatcher: allow-list check, parameter binding and normalisation of whatever
    the handler returns or raises into one output value. */
module Dispatch {
  import opened Types

  const Unauthorized := "Unauthorized function access"
  const ExecutedSuccessfully := "Executed Successfully"

  function RequiresParameters(name: string): string
  {
    "Error: Function " + name + " requires parameters."
  }

  /** The call made to a handler: its name and the keyword arguments bound (None: no arguments). */
  datatype Invocation = Invocation(name: string, args: Option<Params>)

  /** What dispatching produced, and which handler it called, if any. */
  datatype Dispatched = Dispatched(output: Value, invoked: Option<Invocation>)

  /** Parameters are passed only when they form a non-empty mapping. */
  function BindParams(params: Option<Params>): (bound: Option<Params>)
    ensures bound.None? <==> params.None? || params.value == map[]
    ensures bound.Some? ==> bound == params
  {
    match params
    case Some(p) => if |p| > 0 then Some(p) else None
    case None => None
  }

  /** Every outcome becomes a value: a truthy result unchanged, a falsy one the success
      marker, a TypeError the parameter message, any other exception its message. */
  function Normalize(name: string, outcome: HandlerOutcome): (out: Value)
    ensures outcome.Returns? && Truthy(outcome.result) ==> out == outcome.result
    ensures outcome.Returns? && !Truthy(outcome.result) ==> out == Str(ExecutedSuccessfully)
    ensures outcome.RaisesTypeError? ==> out == Str(RequiresParameters(name))
    ensures outcome.RaisesOther? ==> out == Str(outcome.message)
    ensures outcome.Returns? ==> Truthy(out)
  {
    match outcome
    case Returns(v) => if Truthy(v) then v else Str(ExecutedSuccessfully)
    case RaisesTypeError(_) => Str(RequiresParameters(name))
    case RaisesOther(msg) => Str(msg)
  }

  /** execute_function: a name outside the allow-list raises a ValueError that the generic
      handler turns into its message; only an allowed name reaches a handler. */
  function ExecuteFunction(allowed: map<string, Handler>, name: string, params: Option<Params>): (r: Dispatched)
    ensures r.invoked.Some? <==> name in allowed
    ensures r.invoked.Some? ==> r.invoked.value == Invocation(name, BindParams(params))
    ensures name !in allowed ==> r.output == Str(Unauthorized)
    ensures name in allowed ==> r.output == Normalize(name, allowed[name](BindParams(params)))
  {
    if name !in allowed then
      Dispatched(Normalize(name, RaisesOther(Unauthorized)), None)
    else
      var args := BindParams(params);
      Dispatched(Normalize(name, allowed[name](args)), Some(Invocation(name, args)))
  }

  /** A zero-argument handler that returns nothing yields the success marker, and one that
      needs parameters but is called without them yields the parameter message. */
  lemma NoParamsOutcomes(allowed: map<string, Handler>, name: string, params: Option<Params>)
    requires name in allowed
    requires params.None? || params == Some(map[])
    ensures allowed[name](None) == Returns(NoneValue) ==>
      ExecuteFunction(allowed, name, params).output == Str(ExecutedSuccessfully)
    ensures allowed[name](None).RaisesTypeError? ==>
      ExecuteFunction(allowed, name, params).output == Str(RequiresParameters(name))
  {
  }
}
