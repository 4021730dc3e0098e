/**
 * errors.js: the canonical error codes, the `PipelineError` wrapper and the
 * first-match-wins classifier `toCanonicalErrorCode` that maps any failure
 * value to a canonical code.
 */
module Errors {
  import opened Wrappers
  import opened Js

  /** The frozen `ERRORS` enumeration. */
  datatype ErrorCode =
    | ModelFailed
    | Timeout
    | QuotaExceeded
    | RateLimited
    | InvalidRequest
    | ProviderUnavailable
    | InternalError

  /** The string value of `ERRORS.<code>`. */
  function Name(c: ErrorCode): string {
    match c
    case ModelFailed => "MODEL_FAILED"
    case Timeout => "TIMEOUT"
    case QuotaExceeded => "QUOTA_EXCEEDED"
    case RateLimited => "RATE_LIMITED"
    case InvalidRequest => "INVALID_REQUEST"
    case ProviderUnavailable => "PROVIDER_UNAVAILABLE"
    case InternalError => "INTERNAL_ERROR"
  }

  /** `ERRORS.<code>` as a JavaScript value. */
  function Code(c: ErrorCode): JsValue {
    Str(Name(c))
  }

  /** The values of the `ERRORS` object. */
  const AllCodes: set<JsValue> := set c: ErrorCode :: Code(c)

  /** Distinct codes have distinct names, so a code string identifies its code. */
  lemma NamesAreDistinct(a: ErrorCode, b: ErrorCode)
    ensures Name(a) == Name(b) ==> a == b
  {
  }

  /** Extra diagnostic fields of a `PipelineError` (`meta`). */
  type Meta = map<string, JsValue>

  /** An instance of `PipelineError`, as its constructor leaves it. */
  datatype PipelineError = PipelineError(code: JsValue, message: string, meta: Meta)

  /** `new Error(v).message`: empty for `undefined`, otherwise `String(v)`. */
  function ErrorMessageOf(v: JsValue): string {
    if v == Undefined then "" else ToStr(v)
  }

  /** `new PipelineError(code, message, meta)`: a falsy code becomes
      INTERNAL_ERROR and a falsy message falls back to the code, which
      `Error` turns into text unless it is undefined. */
  function NewPipelineError(code: JsValue, message: JsValue, meta: Meta): (e: PipelineError)
    ensures Truthy(e.code)
    ensures Truthy(code) ==> e.code == code
    ensures !Truthy(code) ==> e.code == Code(InternalError)
    ensures Truthy(message) ==> e.message == ToStr(message)
    ensures !Truthy(message) && code != Undefined ==> e.message == ToStr(code)
    ensures !Truthy(message) && code == Undefined ==> e.message == ""
    ensures e.meta == meta
  {
    PipelineError(Or(code, Code(InternalError)), ErrorMessageOf(Or(message, code)), meta)
  }

  /** The fields of an error object that the classifier reads; `kind` is `err.type`. */
  datatype ErrorFields = ErrorFields(
    code: JsValue, status: JsValue, statusCode: JsValue, name: JsValue, kind: JsValue, message: JsValue)

  /** Any failure value: a thrown primitive (including null and undefined), a
      `PipelineError`, or another object, with whether it is an `Error`
      instance, its `String(err)` text and its `JSON.stringify` text (None
      when stringifying throws or yields undefined). */
  datatype ErrorValue =
    | Thrown(value: JsValue)
    | Pipeline(error: PipelineError)
    | Object(fields: ErrorFields, isError: bool, text: string, json: Option<string>)

  /** `!err`: only primitives can be falsy; objects are always truthy. */
  predicate Falsy(e: ErrorValue) {
    e.Thrown? && !Truthy(e.value)
  }

  /** `err.code || err.status || err.statusCode || err.name || err.type`;
      a primitive has none of these properties. */
  function RawCode(e: ErrorValue): (r: JsValue)
    ensures !e.Object? ==> r == Undefined
    ensures e.Object? ==> var f := e.fields;
      && (Truthy(r) <==> Truthy(f.code) || Truthy(f.status) || Truthy(f.statusCode) || Truthy(f.name) || Truthy(f.kind))
      && (Truthy(f.code) ==> r == f.code)
      && (!Truthy(f.code) && Truthy(f.status) ==> r == f.status)
      && (!Truthy(f.code) && !Truthy(f.status) && Truthy(f.statusCode) ==> r == f.statusCode)
      && (!Truthy(f.code) && !Truthy(f.status) && !Truthy(f.statusCode) && Truthy(f.name) ==> r == f.name)
      && (!Truthy(f.code) && !Truthy(f.status) && !Truthy(f.statusCode) && !Truthy(f.name) ==> r == f.kind)
  {
    match e
    case Object(f, _, _, _) => Or(f.code, Or(f.status, Or(f.statusCode, Or(f.name, f.kind))))
    case _ => Undefined
  }

  /** `String(err.message || err || "")`, before lower-casing. */
  function MessageText(e: ErrorValue): (r: string)
    ensures Falsy(e) ==> r == ""
    ensures e.Thrown? && e.value.Str? ==> r == e.value.s
    ensures e.Pipeline? ==> r != "" && (e.error.message != "" ==> r == e.error.message)
    ensures e.Object? && Truthy(e.fields.message) ==> r == ToStr(e.fields.message)
    ensures e.Object? && !Truthy(e.fields.message) ==> r == e.text
  {
    match e
    case Thrown(v) => if Truthy(v) then ToStr(v) else ""
    case Pipeline(p) => if p.message != "" then p.message else "PipelineError"
    case Object(f, _, text, _) => if Truthy(f.message) then ToStr(f.message) else text
  }

  predicate TimeoutSignal(raw: JsValue, msg: string) {
    raw == Str("ETIMEDOUT") || raw == Str("TIMEOUT") || Contains(msg, "timeout")
  }

  predicate QuotaSignal(raw: JsValue, msg: string) {
    raw == Num(429) || raw == Str("429")
    || Contains(msg, "quota") || Contains(msg, "rate limit") || Contains(msg, "too many requests")
  }

  predicate InvalidSignal(raw: JsValue, msg: string) {
    raw == Num(400) || raw == Str("400") || Contains(msg, "invalid") || Contains(msg, "bad request")
  }

  predicate UnavailableSignal(raw: JsValue, msg: string) {
    raw == Num(503) || raw == Str("503") || Contains(msg, "unavailable") || Contains(msg, "service down")
  }

  predicate FailureSignal(msg: string) {
    Contains(msg, "failed") || Contains(msg, "error")
  }

  /** The rule chain of `toCanonicalErrorCode` over the raw code and the
      lower-cased message; RATE_LIMITED is never produced. */
  function Classify(raw: JsValue, msg: string): (c: ErrorCode)
    ensures c != RateLimited
  {
    if TimeoutSignal(raw, msg) then Timeout
    else if QuotaSignal(raw, msg) then QuotaExceeded
    else if InvalidSignal(raw, msg) then InvalidRequest
    else if UnavailableSignal(raw, msg) then ProviderUnavailable
    else if FailureSignal(msg) then ModelFailed
    else InternalError
  }

  /** `toCanonicalErrorCode(err)`: null for a falsy value, the code of a
      `PipelineError` unchanged, otherwise a member of `ERRORS` other than
      RATE_LIMITED. */
  function ToCanonicalErrorCode(e: ErrorValue): (r: Option<JsValue>)
    ensures r.None? <==> Falsy(e)
    ensures e.Pipeline? ==> r == Some(e.error.code)
    ensures !Falsy(e) && !e.Pipeline? ==> r.Some? && r.value in AllCodes && r.value != Code(RateLimited)
  {
    if Falsy(e) then None
    else if e.Pipeline? then Some(e.error.code)
    else Some(Code(Classify(RawCode(e), Lower(MessageText(e)))))
  }

  /** First match wins: each code is produced exactly when its rule matches
      and no earlier rule does. */
  lemma RulePrecedence(raw: JsValue, msg: string)
    ensures Classify(raw, msg) == Timeout <==> TimeoutSignal(raw, msg)
    ensures Classify(raw, msg) == QuotaExceeded <==> !TimeoutSignal(raw, msg) && QuotaSignal(raw, msg)
    ensures Classify(raw, msg) == InvalidRequest <==>
      !TimeoutSignal(raw, msg) && !QuotaSignal(raw, msg) && InvalidSignal(raw, msg)
    ensures Classify(raw, msg) == ProviderUnavailable <==>
      !TimeoutSignal(raw, msg) && !QuotaSignal(raw, msg) && !InvalidSignal(raw, msg) && UnavailableSignal(raw, msg)
    ensures Classify(raw, msg) == ModelFailed <==>
      !TimeoutSignal(raw, msg) && !QuotaSignal(raw, msg) && !InvalidSignal(raw, msg)
      && !UnavailableSignal(raw, msg) && FailureSignal(msg)
  {
  }

  /** Message matching ignores case: a message that mentions "TIMEOUT" in any
      capitalisation classifies as TIMEOUT, whatever else it says. */
  lemma {:induction false} TimeoutInAnyCase(e: ErrorValue, word: string)
    requires !e.Pipeline? && !Falsy(e)
    requires Lower(word) == "timeout" && Contains(MessageText(e), word)
    ensures ToCanonicalErrorCode(e) == Some(Code(Timeout))
  {
    LowerKeepsOccurrence(MessageText(e), word);
  }

  /** Status codes: an error object whose code field is falsy classifies by its
      status 429 / 400 / 503 (number or string) as QUOTA_EXCEEDED /
      INVALID_REQUEST / PROVIDER_UNAVAILABLE, unless the message already
      matches an earlier rule. */
  lemma StatusCodes(f: ErrorFields, isError: bool, text: string, json: Option<string>)
    requires !Truthy(f.code)
    ensures var e := Object(f, isError, text, json);
      var msg := Lower(MessageText(e));
      && ((f.status == Num(429) || f.status == Str("429")) && !Contains(msg, "timeout") ==>
            ToCanonicalErrorCode(e) == Some(Code(QuotaExceeded)))
      && ((f.status == Num(400) || f.status == Str("400")) && !Contains(msg, "timeout")
          && !QuotaSignal(f.status, msg) ==>
            ToCanonicalErrorCode(e) == Some(Code(InvalidRequest)))
      && ((f.status == Num(503) || f.status == Str("503")) && !Contains(msg, "timeout")
          && !QuotaSignal(f.status, msg) && !InvalidSignal(f.status, msg) ==>
            ToCanonicalErrorCode(e) == Some(Code(ProviderUnavailable)))
  {
  }

  /** A truthy `code` hides the status: with code "ECONNRESET" and status 429
      the 429 rule does not fire, and a message without any rule word gives
      INTERNAL_ERROR. */
  lemma CodeHidesStatus(isError: bool, text: string, json: Option<string>)
    ensures var f := ErrorFields(Str("ECONNRESET"), Num(429), Undefined, Undefined, Undefined, Str("boom"));
      ToCanonicalErrorCode(Object(f, isError, text, json)) == Some(Code(InternalError))
  {
    var msg := Lower("boom");
    ShorterNeverContains(msg, "timeout");
    ShorterNeverContains(msg, "quota");
    ShorterNeverContains(msg, "rate limit");
    ShorterNeverContains(msg, "too many requests");
    ShorterNeverContains(msg, "invalid");
    ShorterNeverContains(msg, "bad request");
    ShorterNeverContains(msg, "unavailable");
    ShorterNeverContains(msg, "service down");
    ShorterNeverContains(msg, "failed");
    ShorterNeverContains(msg, "error");
  }

  /** The thrown message "Request timeout exceeded" classifies as TIMEOUT. */
  lemma RequestTimeoutExample()
    ensures ToCanonicalErrorCode(Thrown(Str("Request timeout exceeded"))) == Some(Code(Timeout))
  {
    var s := "Request timeout exceeded";
    assert s[8..15] == "timeout";
    ContainsAt(s, "timeout", 8);
    LowerOfLowercase("timeout");
    TimeoutInAnyCase(Thrown(Str(s)), "timeout");
  }

  /** An error whose message contains "timeout" and "quota" is a TIMEOUT: the
      timeout rule comes first. */
  lemma TimeoutBeatsQuota(e: ErrorValue)
    requires !e.Pipeline? && !Falsy(e)
    requires Contains(Lower(MessageText(e)), "timeout") && Contains(Lower(MessageText(e)), "quota")
    ensures ToCanonicalErrorCode(e) == Some(Code(Timeout))
  {
  }
}
