/**
 * The request-then-check pattern shared by every data hook in src/lib/hooks: await the API
 * call, then throw `new Error(response.message || response.error || fallback)` unless the
 * envelope says `status: "success"` and carries data.
 */
module HookCommon {
  import opened Wrappers
  import opened Thrown
  import opened ApiClient

  /** `response.message || response.error || fallback` */
  function FailureMessage<T>(env: Envelope<T>, fallback: string): (r: string)
    ensures env.message.Some? && env.message.value != "" ==> r == env.message.value
    ensures (env.message.None? || env.message.value == "") && env.error.Some? && env.error.value != "" ==> r == env.error.value
    ensures r == fallback || env.message == Some(r) || env.error == Some(r)
    ensures fallback != "" ==> r != ""
  {
    if env.message.Some? && env.message.value != "" then env.message.value
    else if env.error.Some? && env.error.value != "" then env.error.value
    else fallback
  }

  /** The envelope check of the fetch, create, update and profile calls. */
  function RequireData<T>(env: Envelope<T>, fallback: string): (r: Result<T, Thrown>)
    ensures r.Success? <==> env.status == "success" && env.data.Some?
    ensures r.Success? ==> r.value == env.data.value
    ensures r.Failure? ==> r.error == PlainError(FailureMessage(env, fallback))
  {
    if env.status != "success" || env.data.None? then Failure(PlainError(FailureMessage(env, fallback)))
    else Success(env.data.value)
  }

  /** A whole request as a hook awaits it: the verb settles, then the envelope is checked. */
  function Settle<T>(verb: Verb, outcome: HttpOutcome<T>, fallback: string): Result<T, Thrown> {
    match VerbResult(verb, outcome)
    case Failure(e) => Failure(e)
    case Success(env) => RequireData(env, fallback)
  }

  /** The envelope check of the delete call, which needs no data: `status !== "success"` throws. */
  function RequireSuccess<T>(env: Envelope<T>, fallback: string): (r: Result<(), Thrown>)
    ensures r.Success? <==> env.status == "success"
    ensures r.Failure? ==> r.error == PlainError(FailureMessage(env, fallback))
  {
    if env.status != "success" then Failure(PlainError(FailureMessage(env, fallback))) else Success(())
  }

  /** A request awaited for its status alone. */
  function SettleStatus<T>(verb: Verb, outcome: HttpOutcome<T>, fallback: string): Result<(), Thrown> {
    match VerbResult(verb, outcome)
    case Failure(e) => Failure(e)
    case Success(env) => RequireSuccess(env, fallback)
  }

  /** A request succeeds exactly when a 2xx response carries a successful envelope with data. */
  lemma SettleSucceedsIff<T>(verb: Verb, outcome: HttpOutcome<T>, fallback: string)
    ensures Settle(verb, outcome, fallback).Success? <==>
              outcome.Response? && IsOk(outcome.code) &&
              outcome.body.status == "success" && outcome.body.data.Some?
    ensures Settle(verb, outcome, fallback).Success? ==>
              Settle(verb, outcome, fallback).value == outcome.body.data.value
  {
  }

  /** A request that succeeds leaves storage as it was. */
  lemma SettleSuccessKeepsStorage<T>(verb: Verb, outcome: HttpOutcome<T>, fallback: string, items: map<string, string>)
    requires Settle(verb, outcome, fallback).Success?
    ensures AfterRequest(verb, outcome, items) == items
  {
  }

  /**
   * Everything a request can reject with is an `Error`, so the catch blocks' fallback message
   * is never used: the stored message is always the thrown one.
   */
  lemma SettleRejectsWithErrors<T>(verb: Verb, outcome: HttpOutcome<T>, fallback: string)
    ensures var s := Settle(verb, outcome, fallback);
            s.Failure? ==> s.error.IsError() && MessageOr(s.error, fallback) == s.error.message
  {
  }

  /** `limit !== undefined ? base + "?limit=" + limit : base` */
  function WithLimit(base: string, limit: Option<int>): (r: string)
    ensures limit.None? ==> r == base
    ensures limit.Some? ==> r == base + "?limit=" + Text.IntToDecimal(limit.value)
  {
    match limit
    case None => base
    case Some(n) => base + "?limit=" + Text.IntToDecimal(n)
  }

  /** Distinct limits request distinct URLs, and the query is only added when a limit is given. */
  lemma WithLimitInjective(base: string, a: Option<int>, b: Option<int>)
    requires WithLimit(base, a) == WithLimit(base, b)
    ensures a == b
  {
    if a.Some? && b.Some? {
      var p := base + "?limit=";
      assert WithLimit(base, a)[|p|..] == Text.IntToDecimal(a.value);
      assert WithLimit(base, b)[|p|..] == Text.IntToDecimal(b.value);
      Text.IntToDecimalInjective(a.value, b.value);
    }
  }
}
