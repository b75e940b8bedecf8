/** One fetch-verify-compile attempt for a uri (`buildRequestOpenUri`), with the
    normalisation of whatever it threw before the waiters are told. */
module Attempt {
  import opened JsValues
  import Sandbox

  /** A call the attempt makes into an injected collaborator, in the order made. */
  datatype Call = Fetch(url: string) | Verify | Evaluate(code: string)

  /** What the collaborators produced: the `data` of the fetched response (or the
      fetcher's rejection), the verifier's verdict, and what evaluating the
      compiled text returned. Each is consulted only if the attempt gets that far. */
  datatype Externals = Externals(response: Try<Value>, verdict: Try<Value>, evaluation: Try<Value>)

  /** The calls an attempt made and what it produced: a component, or a throw. */
  datatype Run = Run(calls: seq<Call>, result: Try<nat>)

  function ExpectedStringMessage(kind: string): string
  {
    "[DynamicComponent]: Expected string data, encountered " + kind + "."
  }

  function FailedToVerifyMessage(uri: string): string
  {
    "[DynamicComponent]: Failed to verify \"" + uri + "\"."
  }

  /** The payload was a string and the verifier answered exactly `true`. */
  predicate Verified(x: Externals)
  {
    x.response.Returned? && x.response.value.Str? && x.verdict == Returned(Bool(true))
  }

  /** The attempt: fetch, require string data, require `verify(...) === true`,
      then compile the data with the global namespace's bindings. */
  function RunAttempt(uri: string, keys: seq<string>, x: Externals): (r: Run)
    ensures 1 <= |r.calls| <= 3 && r.calls[0] == Fetch(uri)
    ensures |r.calls| >= 2 <==> x.response.Returned? && x.response.value.Str?
    ensures |r.calls| >= 2 ==> r.calls[1] == Verify
    ensures |r.calls| == 3 <==> Verified(x)
    ensures Verified(x) ==> r.calls[2] == Evaluate(Sandbox.Prelude(keys, x.response.value.s))
    ensures r.result.Returned? <==> Verified(x) && x.evaluation.Returned? && x.evaluation.value.Function?
    ensures r.result.Returned? ==> x.evaluation.value == Function(r.result.value)
    ensures x.response.Threw? ==> r.result == Threw(x.response.thrown)
    ensures x.response.Returned? && x.response.value.Str? && x.verdict.Threw? ==> r.result == Threw(x.verdict.thrown)
    ensures Verified(x) ==> r.result == Sandbox.CreateComponent(x.evaluation)
  {
    match x.response
    case Threw(e) => Run([Fetch(uri)], Threw(e))
    case Returned(data) =>
      if !data.Str? then
        Run([Fetch(uri)], Threw(MakeError(ExpectedStringMessage(TypeOf(data)))))
      else
        match x.verdict
        case Threw(e) => Run([Fetch(uri), Verify], Threw(e))
        case Returned(v) =>
          if v != Bool(true) then
            Run([Fetch(uri), Verify], Threw(MakeError(FailedToVerifyMessage(uri))))
          else
            Run([Fetch(uri), Verify, Evaluate(Sandbox.Prelude(keys, data.s))],
                Sandbox.CreateComponent(x.evaluation))
  }

  /** Compilation is never reached unverified: every run that does not verify
      fails, and says why. */
  lemma UnverifiedRunsFail(uri: string, keys: seq<string>, x: Externals)
    requires !Verified(x)
    ensures forall c :: c in RunAttempt(uri, keys, x).calls ==> !c.Evaluate?
    ensures RunAttempt(uri, keys, x).result.Threw?
    ensures x.response.Returned? && !x.response.value.Str? ==>
              RunAttempt(uri, keys, x).result.thrown == MakeError(ExpectedStringMessage(TypeOf(x.response.value)))
    ensures x.response.Returned? && x.response.value.Str? && x.verdict.Returned? ==>
              RunAttempt(uri, keys, x).result.thrown == MakeError(FailedToVerifyMessage(uri))
  {
  }

  /** The catch block exactly as written: a thrown string becomes an Error, a
      value whose `message` is a string becomes a fresh Error with that message,
      anything else is passed on. Reading `e.message` throws when `e` is null or
      undefined, and then no completion happens at all (`None`). */
  function CatchAsWritten(e: Value): (r: Option<Value>)
    ensures r.None? <==> (e.Null? || e.Undefined?)
  {
    if e.Str? then Some(MakeError(e.s))
    else
      match ReadProperty(e, "message")
      case Threw(_) => None
      case Returned(m) => if m.Str? then Some(MakeError(m.s)) else Some(e)
  }

  /** The message a thrown value carries, when it carries one as a string. */
  function ThrownMessage(e: Value): Option<string>
  {
    if e.Str? then Some(e.s)
    else if e.Object? && Get(e.props, "message").Str? then Some(Get(e.props, "message").s)
    else None
  }

  /** The catch block as intended: the same normalisation, but a thrown null or
      undefined is passed on like any other value without a message. */
  function Normalise(e: Value): (r: Value)
    ensures ThrownMessage(e).Some? ==> r == MakeError(ThrownMessage(e).value)
    ensures ThrownMessage(e).None? ==> r == e
  {
    if e.Str? then MakeError(e.s)
    else if e.Object? && Get(e.props, "message").Str? then MakeError(Get(e.props, "message").s)
    else e
  }

  /** A thrown `"boom"` and a thrown `Error("boom")` reach the waiters alike. */
  lemma StringAndErrorAgree(s: string)
    ensures Normalise(Str(s)) == Normalise(MakeError(s)) == MakeError(s)
  {
  }

  /** Normalising twice changes nothing. */
  lemma NormaliseIdempotent(e: Value)
    ensures Normalise(Normalise(e)) == Normalise(e)
    ensures ThrownMessage(Normalise(e)) == ThrownMessage(e)
  {
  }

  /** The catch block as written and as intended agree except on null and undefined. */
  lemma CatchAsWrittenAgrees(e: Value)
    requires !e.Null? && !e.Undefined?
    ensures CatchAsWritten(e) == Some(Normalise(e))
  {
  }

  /** The discrepancy: a collaborator that rejects with `undefined` (or a compiled
      source that throws `null`) leaves the catch block throwing, so completion is
      never called and every queued waiter is left pending. */
  lemma CatchAsWrittenDropsNullish()
    ensures CatchAsWritten(Undefined) == None && CatchAsWritten(Null) == None
    ensures Normalise(Undefined) == Undefined && Normalise(Null) == Null
  {
  }

  /** What the attempt leaves for completion: the error handed to it, if any
      (`Undefined` when the attempt succeeded, as `shouldComplete(uri)` passes none). */
  function CompletionError(r: Run): (e: Value)
    ensures r.result.Returned? ==> !Truthy(e)
    ensures r.result.Threw? && CatchAsWritten(r.result.thrown).Some? ==> e == CatchAsWritten(r.result.thrown).value
  {
    match r.result
    case Returned(_) => Undefined
    case Threw(e) => Normalise(e)
  }
}
