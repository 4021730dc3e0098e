/**
 * fallbackOrchestrator.js: `executeWithFallback` tries an ordered list of
 * providers strictly one after another, stops at the first success, keeps
 * the last error and, when every attempt in the budget fails, throws one
 * wrapped `PipelineError`. Each provider's `run` is an abstract outcome; the
 * events handed to the observability bus are returned as a log, together
 * with the indices of the providers whose `run` was invoked.
 */
module FallbackOrchestrator {
  import opened Wrappers
  import opened Js
  import opened Errors
  import opened Logs

  /** What awaiting `p.run(runArgs)` gives: a value or a thrown error. */
  datatype Outcome = Resolves(output: JsValue) | Rejects(error: ErrorValue)

  /** An entry of the provider list: a falsy entry, or an object with a `name`
      and, when `run` is a function, the outcome of calling it. */
  datatype Provider = Absent | Provider(name: JsValue, run: Option<Outcome>)

  /** The `providers` argument: something other than an array, or an array. */
  datatype ProviderList = NotAnArray | Array(items: seq<Provider>)

  /** The value returned on success. */
  datatype Success = Success(providerUsed: JsValue, output: JsValue)

  /** The `fallback.*` events, without their `latencyMs` (a clock reading). */
  datatype Event =
    | Attempt(requestId: JsValue, provider: JsValue, attempt: nat, op: JsValue)
    | Succeeded(requestId: JsValue, provider: JsValue, attempt: nat, op: JsValue)
    | Failed(requestId: JsValue, provider: JsValue, attempt: nat, op: JsValue, errorCode: JsValue, message: string)

  /** The longest message `safeErrorMessage` keeps. */
  const MaxMessageLength: nat := 500

  /** The text `safeErrorMessage` truncates: "" for a falsy value, a thrown
      string itself, the message of an `Error` instance, otherwise
      `JSON.stringify(err)` ("" when that fails). */
  function UntruncatedMessage(err: ErrorValue): (r: string)
    ensures Falsy(err) ==> r == ""
    ensures err.Thrown? && err.value.Str? ==> r == err.value.s
    ensures err.Pipeline? ==> r == err.error.message
    ensures err.Object? && err.isError ==> r == (if Truthy(err.fields.message) then ToStr(err.fields.message) else "")
    ensures err.Object? && !err.isError ==> r == err.json.GetOr("")
  {
    match err
    case Thrown(v) => if Truthy(v) then ToStr(v) else ""
    case Pipeline(e) => e.message
    case Object(f, isError, _, json) =>
      if isError then (if Truthy(f.message) then ToStr(f.message) else "")
      else json.GetOr("")
  }

  /** `safeErrorMessage(err)`: a prefix of the error's text, at most 500 long. */
  function SafeErrorMessage(err: ErrorValue): (r: string)
    ensures |r| <= MaxMessageLength
    ensures r <= UntruncatedMessage(err)
    ensures |UntruncatedMessage(err)| <= MaxMessageLength ==> r == UntruncatedMessage(err)
    ensures Falsy(err) ==> r == ""
  {
    var text := UntruncatedMessage(err);
    if |text| <= MaxMessageLength then text else text[..MaxMessageLength]
  }

  /** `op = "run"`: the default operation name. */
  function OpName(op: JsValue): JsValue {
    if op == Undefined then Str("run") else op
  }

  /** `p?.name || \`provider_${i}\``. */
  function ProviderName(p: Provider, i: nat): (r: JsValue)
    ensures Truthy(r)
    ensures p.Provider? && Truthy(p.name) ==> r == p.name
  {
    if p.Provider? && Truthy(p.name) then p.name else Str("provider_" + NatText(i))
  }

  /** `attemptsLimit`: `min(maxAttempts, length)` for a positive number,
      otherwise the whole list. */
  function AttemptBudget(length: nat, maxAttempts: JsValue): (n: nat)
    requires 0 < length
    ensures 1 <= n <= length
    ensures maxAttempts.Num? && 0 < maxAttempts.n < length ==> n == maxAttempts.n
    ensures !(maxAttempts.Num? && 0 < maxAttempts.n < length) ==> n == length
  {
    if maxAttempts.Num? && maxAttempts.n > 0 then
      (if maxAttempts.n < length then maxAttempts.n else length)
    else length
  }

  /** The provider has a `run` function. */
  predicate HasRun(p: Provider) {
    p.Provider? && p.run.Some?
  }

  /** The provider's `run` resolves. */
  predicate Succeeds(p: Provider) {
    HasRun(p) && p.run.value.Resolves?
  }

  /** The error caught for a failed attempt: the rejection of `run`, or the
      MODEL_FAILED `PipelineError` for a provider without `run`. */
  function AttemptError(p: Provider, i: nat, requestId: JsValue): (e: ErrorValue)
    requires !Succeeds(p)
    ensures HasRun(p) ==> e == p.run.value.error
    ensures !HasRun(p) ==>
      && e.Pipeline?
      && e.error.code == Code(ModelFailed)
      && e.error.message == "Provider \"" + ToStr(ProviderName(p, i)) + "\" missing run()"
      && e.error.meta == map["requestId" := requestId, "provider" := ProviderName(p, i)]
      && ToCanonicalErrorCode(e) == Some(Code(ModelFailed))
  {
    if HasRun(p) then p.run.value.error
    else
      var name := ProviderName(p, i);
      Pipeline(NewPipelineError(
        Code(ModelFailed),
        Str("Provider \"" + ToStr(name) + "\" missing run()"),
        map["requestId" := requestId, "provider" := name]))
  }

  /** `toCanonicalErrorCode(err) || fallback`. */
  function CanonicalOr(err: ErrorValue, fallback: ErrorCode): (code: JsValue)
    ensures Truthy(code)
    ensures Falsy(err) ==> code == Code(fallback)
  {
    var r := ToCanonicalErrorCode(err);
    if r.Some? && Truthy(r.value) then r.value else Code(fallback)
  }

  /** The index of the first provider among the first n whose `run` resolves,
      or n when there is none. */
  function FirstSuccess(ps: seq<Provider>, n: nat): (k: nat)
    requires n <= |ps|
    ensures k <= n
    ensures forall j :: 0 <= j < k ==> !Succeeds(ps[j])
    ensures k < n ==> Succeeds(ps[k])
  {
    if n == 0 then 0
    else
      var k := FirstSuccess(ps, n - 1);
      if k < n - 1 then k
      else if Succeeds(ps[n - 1]) then n - 1
      else n
  }

  /** How many attempts are made: up to and including the first success. */
  function AttemptsMade(ps: seq<Provider>, n: nat): (m: nat)
    requires n <= |ps|
    ensures m <= n
    ensures 0 < n ==> 0 < m
  {
    var k := FirstSuccess(ps, n);
    if k < n then k + 1 else n
  }

  /** The index of attempt i + 1 when its provider's `run` is invoked. */
  function InvokedAt(p: Provider, i: nat): seq<nat> {
    if HasRun(p) then [i] else []
  }

  /** The indices below m of the providers that have a `run` function, in order. */
  function Invoked(ps: seq<Provider>, m: nat): seq<nat>
    requires m <= |ps|
  {
    if m == 0 then [] else Invoked(ps, m - 1) + InvokedAt(ps[m - 1], m - 1)
  }

  /** The `fallback.succeeded` or `fallback.failed` event of attempt i + 1. */
  function OutcomeEvent(p: Provider, i: nat, requestId: JsValue, op: JsValue): Event {
    var name := ProviderName(p, i);
    if Succeeds(p) then Succeeded(requestId, name, i + 1, op)
    else
      var err := AttemptError(p, i, requestId);
      Failed(requestId, name, i + 1, op, CanonicalOr(err, ModelFailed), SafeErrorMessage(err))
  }

  /** The error thrown for an empty or non-array provider list. */
  function NoProvidersError(requestId: JsValue): PipelineError {
    NewPipelineError(Code(ModelFailed), Str("No providers supplied to fallback orchestrator"),
                     map["requestId" := requestId])
  }

  /** The error thrown after the last attempt failed with lastErr: its
      canonical code (MODEL_FAILED when there is none) and the safe message
      as the cause. */
  function ExhaustionOf(lastErr: ErrorValue, requestId: JsValue): (e: PipelineError)
    ensures e.code == CanonicalOr(lastErr, ModelFailed) && Truthy(e.code)
    ensures Falsy(lastErr) ==> e.code == Code(ModelFailed)
    ensures e.message == "All providers failed (fallback exhausted)"
    ensures e.meta.Keys == {"requestId", "cause"} && e.meta["requestId"] == requestId
    ensures e.meta["cause"] == Str(SafeErrorMessage(lastErr)) && |SafeErrorMessage(lastErr)| <= MaxMessageLength
  {
    NewPipelineError(CanonicalOr(lastErr, ModelFailed), Str("All providers failed (fallback exhausted)"),
                     map["requestId" := requestId, "cause" := Str(SafeErrorMessage(lastErr))])
  }

  /** The error thrown when all n attempts failed, built from the last one. */
  function ExhaustedError(ps: seq<Provider>, n: nat, requestId: JsValue): PipelineError
    requires 0 < n <= |ps| && !Succeeds(ps[n - 1])
  {
    ExhaustionOf(AttemptError(ps[n - 1], n - 1, requestId), requestId)
  }

  /** The events of the first m attempts: each attempt's `fallback.attempt`
      followed by its outcome event. */
  function Trace(ps: seq<Provider>, m: nat, requestId: JsValue, op: JsValue): seq<Event>
    requires m <= |ps|
  {
    Blocks(AttemptBlocks(ps, requestId, op), m)
  }

  /** Attempt j + 1's events, for each index j of the list. */
  function AttemptBlocks(ps: seq<Provider>, requestId: JsValue, op: JsValue): nat -> seq<Event> {
    (j: nat) => if j < |ps| then AttemptEvents(ps[j], j, requestId, op) else []
  }

  /** The two events of attempt i + 1: `fallback.attempt`, then its outcome. */
  function AttemptEvents(p: Provider, i: nat, requestId: JsValue, op: JsValue): seq<Event> {
    [Attempt(requestId, ProviderName(p, i), i + 1, op), OutcomeEvent(p, i, requestId, op)]
  }

  /** `executeWithFallback({providers, runArgs, requestId, op, maxAttempts})`:
      a non-array or empty list fails at once with MODEL_FAILED; otherwise the
      attempt loop runs over the budget. */
  method ExecuteWithFallback(providers: ProviderList, requestId: JsValue, op: JsValue, maxAttempts: JsValue)
    returns (result: Result<Success, PipelineError>, events: seq<Event>, invoked: seq<nat>)
    ensures providers.NotAnArray? || providers.items == [] ==>
      result == Err(NoProvidersError(requestId)) && events == [] && invoked == []
    ensures providers.Array? && providers.items != [] ==>
      var ps := providers.items;
      var n := AttemptBudget(|ps|, maxAttempts);
      var k := FirstSuccess(ps, n);
      && (k < n ==> result == Ok(Success(ProviderName(ps[k], k), ps[k].run.value.output)))
      && (k == n ==> result == Err(ExhaustedError(ps, n, requestId)))
      && events == Trace(ps, AttemptsMade(ps, n), requestId, OpName(op))
      && invoked == Invoked(ps, AttemptsMade(ps, n))
  {
    if providers.NotAnArray? || providers.items == [] {
      return Err(NoProvidersError(requestId)), [], [];
    }
    var ps := providers.items;
    result, events, invoked := AttemptInOrder(ps, AttemptBudget(|ps|, maxAttempts), requestId, OpName(op));
  }

  /** The `for` loop of `executeWithFallback`: attempts providers 0 .. n - 1 in
      order, returning at the first success and otherwise throwing the
      exhaustion error built from the last failure. */
  method AttemptInOrder(ps: seq<Provider>, n: nat, requestId: JsValue, opName: JsValue)
    returns (result: Result<Success, PipelineError>, events: seq<Event>, invoked: seq<nat>)
    requires 0 < n <= |ps|
    ensures var k := FirstSuccess(ps, n);
      && (k < n ==> result == Ok(Success(ProviderName(ps[k], k), ps[k].run.value.output)))
      && (k == n ==> result == Err(ExhaustedError(ps, n, requestId)))
      && events == Trace(ps, AttemptsMade(ps, n), requestId, opName)
      && invoked == Invoked(ps, AttemptsMade(ps, n))
  {
    events, invoked := [], [];
    var lastErr := Thrown(Null);
    var i := 0;
    while i < n
      invariant i <= n && Attempted(ps, i, requestId, opName, lastErr, events, invoked)
    {
      var output, err, step, calls := TryProvider(ps[i], i, requestId, opName);
      if output.Some? {
        SucceededStep(ps, n, i, requestId, opName, lastErr, events, invoked);
        return Ok(Success(ProviderName(ps[i], i), output.value)), events + step, invoked + calls;
      }
      FailedStep(ps, i, requestId, opName, lastErr, events, invoked);
      events, invoked, lastErr := events + step, invoked + calls, err;
      i := i + 1;
    }
    Exhausted(ps, n, requestId, opName, lastErr, events, invoked);
    result := Err(ExhaustionOf(lastErr, requestId));
  }

  /** The state after i failed attempts: no success so far, the last error
      caught, and the events and invocations of those attempts. */
  ghost predicate Attempted(ps: seq<Provider>, i: nat, requestId: JsValue, opName: JsValue,
                            lastErr: ErrorValue, events: seq<Event>, invoked: seq<nat>)
  {
    && i <= |ps|
    && FirstSuccess(ps, i) == i
    && (0 < i ==> lastErr == AttemptError(ps[i - 1], i - 1, requestId))
    && events == Trace(ps, i, requestId, opName)
    && invoked == Invoked(ps, i)
  }

  /** One pass of the loop body: emit `fallback.attempt`, await `run` (or fail
      at once when it is missing), and emit `fallback.succeeded` with the
      output or `fallback.failed` with the canonical code and safe message of
      the caught error. */
  method TryProvider(p: Provider, i: nat, requestId: JsValue, opName: JsValue)
    returns (output: Option<JsValue>, err: ErrorValue, step: seq<Event>, calls: seq<nat>)
    ensures output.Some? <==> Succeeds(p)
    ensures output.Some? ==> output.value == p.run.value.output
    ensures output.None? ==> err == AttemptError(p, i, requestId)
    ensures step == AttemptEvents(p, i, requestId, opName)
    ensures calls == InvokedAt(p, i)
  {
    var name := ProviderName(p, i);
    var attempt := Attempt(requestId, name, i + 1, opName);
    if !HasRun(p) {
      // a provider without `run` fails this attempt with MODEL_FAILED
      err := AttemptError(p, i, requestId);
      calls := [];
    } else {
      calls := [i];
      match p.run.value
      case Resolves(out) =>
        return Some(out), Thrown(Undefined), [attempt, Succeeded(requestId, name, i + 1, opName)], calls;
      case Rejects(e) =>
        err := e;
    }
    output := None;
    step := [attempt, Failed(requestId, name, i + 1, opName, CanonicalOr(err, ModelFailed), SafeErrorMessage(err))];
  }

  /** A failed attempt at index i extends the state to i + 1 attempts. */
  lemma FailedStep(ps: seq<Provider>, i: nat, requestId: JsValue, opName: JsValue,
                   lastErr: ErrorValue, events: seq<Event>, invoked: seq<nat>)
    requires Attempted(ps, i, requestId, opName, lastErr, events, invoked) && i < |ps| && !Succeeds(ps[i])
    ensures Attempted(ps, i + 1, requestId, opName, AttemptError(ps[i], i, requestId),
                      events + AttemptEvents(ps[i], i, requestId, opName), invoked + InvokedAt(ps[i], i))
  {
  }

  /** A success at index i after i failed attempts is the first success, and
      the attempts end with it. */
  lemma SucceededStep(ps: seq<Provider>, n: nat, i: nat, requestId: JsValue, opName: JsValue,
                      lastErr: ErrorValue, events: seq<Event>, invoked: seq<nat>)
    requires Attempted(ps, i, requestId, opName, lastErr, events, invoked) && i < n <= |ps| && Succeeds(ps[i])
    ensures FirstSuccess(ps, n) == i && AttemptsMade(ps, n) == i + 1
    ensures events + AttemptEvents(ps[i], i, requestId, opName) == Trace(ps, i + 1, requestId, opName)
    ensures invoked + InvokedAt(ps[i], i) == Invoked(ps, i + 1)
  {
    FirstSuccessIs(ps, n, i);
  }

  /** After n failed attempts the budget is exhausted and the last error is
      that of attempt n. */
  lemma Exhausted(ps: seq<Provider>, n: nat, requestId: JsValue, opName: JsValue,
                  lastErr: ErrorValue, events: seq<Event>, invoked: seq<nat>)
    requires 0 < n && Attempted(ps, n, requestId, opName, lastErr, events, invoked)
    ensures FirstSuccess(ps, n) == n && AttemptsMade(ps, n) == n
    ensures ExhaustedError(ps, n, requestId) == ExhaustionOf(lastErr, requestId)
  {
  }

  /** Event ordering: attempt j + 1 contributes exactly two events, its
      `fallback.attempt` numbered j + 1 and then its single outcome event. */
  lemma TraceShape(ps: seq<Provider>, m: nat, requestId: JsValue, op: JsValue)
    requires m <= |ps|
    ensures |Trace(ps, m, requestId, op)| == 2 * m
    ensures forall j :: 0 <= j < m ==>
      Trace(ps, m, requestId, op)[2 * j] == Attempt(requestId, ProviderName(ps[j], j), j + 1, op)
      && Trace(ps, m, requestId, op)[2 * j + 1] == OutcomeEvent(ps[j], j, requestId, op)
  {
    var f := AttemptBlocks(ps, requestId, op);
    PairBlocksLength(f, m);
    forall j | 0 <= j < m
      ensures Trace(ps, m, requestId, op)[2 * j] == Attempt(requestId, ProviderName(ps[j], j), j + 1, op)
      ensures Trace(ps, m, requestId, op)[2 * j + 1] == OutcomeEvent(ps[j], j, requestId, op)
    {
      var block := AttemptEvents(ps[j], j, requestId, op);
      assert f(j) == block;
      PairBlocksAt(f, m, j);
      var t := Blocks(f, m);
      assert t[2 * j] == t[2 * j..2 * j + 2][0] == block[0];
      assert t[2 * j + 1] == t[2 * j..2 * j + 2][1] == block[1];
    }
  }

  /** The first success is determined by which providers before it fail. */
  lemma FirstSuccessIs(ps: seq<Provider>, n: nat, k: nat)
    requires k <= n <= |ps|
    requires forall j :: 0 <= j < k ==> !Succeeds(ps[j])
    requires k < n ==> Succeeds(ps[k])
    ensures FirstSuccess(ps, n) == k
  {
  }

  /** A provider's `run` is invoked exactly when it is among the first m
      attempts and has a `run` function; each index appears once, in order. */
  lemma {:induction false} InvokedExactly(ps: seq<Provider>, m: nat)
    requires m <= |ps|
    ensures forall x: nat :: x in Invoked(ps, m) <==> (x < m && HasRun(ps[x]))
    ensures forall a, b :: 0 <= a < b < |Invoked(ps, m)| ==> Invoked(ps, m)[a] < Invoked(ps, m)[b]
  {
    if m > 0 {
      InvokedExactly(ps, m - 1);
      var prev := Invoked(ps, m - 1);
      assert forall x :: x in prev ==> x < m - 1;
      var cur := Invoked(ps, m);
      assert cur == prev + (if HasRun(ps[m - 1]) then [m - 1] else []);
      forall a, b | 0 <= a < b < |cur| ensures cur[a] < cur[b] {
        if b < |prev| {
          assert cur[a] == prev[a] && cur[b] == prev[b];
        } else {
          assert cur[a] == prev[a] && prev[a] in prev;
        }
      }
    }
  }

  /** Short-circuit: on success at index k no provider after k has its `run`
      invoked, and the success is the last event. */
  lemma ShortCircuit(ps: seq<Provider>, n: nat)
    requires 0 < n <= |ps| && FirstSuccess(ps, n) < n
    ensures forall x :: x in Invoked(ps, AttemptsMade(ps, n)) ==> x <= FirstSuccess(ps, n)
    ensures FirstSuccess(ps, n) in Invoked(ps, AttemptsMade(ps, n))
  {
    InvokedExactly(ps, AttemptsMade(ps, n));
  }

  /** Spelled out for [A fails, B succeeds, C]: B is used, A and B are invoked
      and C's `run` never is. */
  lemma FailThenSucceed(a: Provider, b: Provider, c: Provider, maxAttempts: JsValue)
    requires HasRun(a) && !Succeeds(a) && Succeeds(b)
    ensures var ps := [a, b, c];
      var n := AttemptBudget(3, maxAttempts);
      n >= 2 ==> FirstSuccess(ps, n) == 1 && AttemptsMade(ps, n) == 2 && Invoked(ps, 2) == [0, 1]
  {
    var ps := [a, b, c];
    var n := AttemptBudget(3, maxAttempts);
    if n >= 2 {
      FirstSuccessIs(ps, n, 1);
      assert Invoked(ps, 1) == [0];
      assert Invoked(ps, 2) == [0] + [1];
    }
  }

  /** Exhaustion: when all three providers fail and no attempt limit is given,
      three attempts are made and the thrown code is the canonical code of the
      third provider's error. */
  lemma AllThreeFail(a: Provider, b: Provider, c: Provider, requestId: JsValue)
    requires !Succeeds(a) && !Succeeds(b) && !Succeeds(c)
    ensures var ps := [a, b, c];
      && AttemptBudget(3, Undefined) == 3
      && FirstSuccess(ps, 3) == 3
      && AttemptsMade(ps, 3) == 3
      && ExhaustedError(ps, 3, requestId).code == CanonicalOr(AttemptError(c, 2, requestId), ModelFailed)
  {
    FirstSuccessIs([a, b, c], 3, 3);
  }

  /** The exhaustion code: MODEL_FAILED when the last provider had no `run` or
      threw a falsy value, the code of a thrown `PipelineError`, and otherwise
      a canonical code other than RATE_LIMITED. */
  lemma ExhaustionCode(ps: seq<Provider>, n: nat, requestId: JsValue)
    requires 0 < n <= |ps| && !Succeeds(ps[n - 1])
    ensures var last := ps[n - 1];
      var code := ExhaustedError(ps, n, requestId).code;
      && (!HasRun(last) ==> code == Code(ModelFailed))
      && (HasRun(last) && Falsy(last.run.value.error) ==> code == Code(ModelFailed))
      && (HasRun(last) && last.run.value.error.Pipeline? && Truthy(last.run.value.error.error.code) ==>
            code == last.run.value.error.error.code)
      && (HasRun(last) && !Falsy(last.run.value.error) && !last.run.value.error.Pipeline? ==>
            code in AllCodes && code != Code(RateLimited))
  {
  }
}
