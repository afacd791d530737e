/** Exposure/Request.swift: the request object that wraps one URL session
    task, its response validation, and the messages of its networking
    errors.  The URL session, its task and the delegate's operation queue
    are outside the model: the commands the request sends them are recorded,
    and the response and data the task delivers are fields set by the
    session. */
module HttpRequest {
  import opened Wrappers
  import opened Errors
  import Decimal

  /** The part of an `HTTPURLResponse` validation looks at. */
  datatype HttpResponse = HttpResponse(statusCode: int)

  /** `Request.ValidationResult`. */
  datatype ValidationResult = Valid | Invalid(error: Error)

  /** A validation closure: `validate(statusCode:)` builds `StatusCode`, any
      other closure given to `validate(_:)` is `Custom`.  The closure sees the
      response and the received data. */
  datatype Validation =
    | StatusCode(acceptable: seq<int>)
    | Custom(check: (HttpResponse, Option<seq<int>>) -> ValidationResult)

  /** The commands a request forwards to its URL session task. */
  datatype TaskCommand = ResumeTask | SuspendTask | CancelTask

  /** `acceptableStatusCodes`: `Array(200..<300)`. */
  const AcceptableStatusCodes: seq<int> := seq(100, i => 200 + i)

  /** The acceptable codes are exactly the "Successful 2xx" class of section
      15.3 of RFC 9110. */
  lemma AcceptableStatusCodesAreSuccessful(code: int)
    ensures code in AcceptableStatusCodes <==> 200 <= code < 300
  {
    if 200 <= code < 300 {
      assert AcceptableStatusCodes[code - 200] == code;
    }
  }

  /** `validate(statusCode:response:)`. */
  function ValidateStatusCode(acceptable: seq<int>, response: HttpResponse): (r: ValidationResult)
    ensures r.Valid? <==> response.statusCode in acceptable
    ensures r.Invalid? ==> r.error == NetworkingError(UnacceptableStatusCode(response.statusCode))
  {
    if response.statusCode in acceptable then Valid
    else Invalid(NetworkingError(UnacceptableStatusCode(response.statusCode)))
  }

  /** What a validation closure decides about a response. */
  function Evaluate(v: Validation, response: HttpResponse, data: Option<seq<int>>): ValidationResult {
    match v
    case StatusCode(acceptable) => ValidateStatusCode(acceptable, response)
    case Custom(check) => check(response, data)
  }

  /** The body of the closure `validate(_:)` appends: it records the
      validation's error only when a response exists and no error is recorded
      yet. */
  function Execute(error: Option<Error>, response: Option<HttpResponse>, data: Option<seq<int>>,
                   v: Validation): (r: Option<Error>)
    ensures error.Some? ==> r == error
    ensures response.None? ==> r == error
    ensures error.None? && response.Some? ==>
              (r.None? <==> Evaluate(v, response.value, data).Valid?)
    ensures r.Some? && error.None? ==> Evaluate(v, response.value, data) == Invalid(r.value)
  {
    if response.Some? && error.None? then
      match Evaluate(v, response.value, data)
      case Valid => error
      case Invalid(e) => Some(e)
    else error
  }

  /** The recorded error after the closures run one after the other, in the
      order they were appended. */
  function ExecuteAll(error: Option<Error>, response: Option<HttpResponse>, data: Option<seq<int>>,
                      vs: seq<Validation>): Option<Error>
    decreases |vs|
  {
    if vs == [] then error
    else ExecuteAll(Execute(error, response, data, vs[0]), response, data, vs[1..])
  }

  /** An error recorded before the validations run is never overwritten. */
  lemma {:induction false} RecordedErrorIsKept(error: Option<Error>, response: Option<HttpResponse>,
                                               data: Option<seq<int>>, vs: seq<Validation>)
    requires error.Some?
    ensures ExecuteAll(error, response, data, vs) == error
    decreases |vs|
  {
    if vs != [] {
      RecordedErrorIsKept(error, response, data, vs[1..]);
    }
  }

  /** Without a response no validation records anything. */
  lemma {:induction false} NoResponseNoError(error: Option<Error>, data: Option<seq<int>>, vs: seq<Validation>)
    ensures ExecuteAll(error, None, data, vs) == error
    decreases |vs|
  {
    if vs != [] {
      NoResponseNoError(error, data, vs[1..]);
    }
  }

  /** With a response and no earlier error, the recorded error is that of the
      first failing validation, and there is none when all pass. */
  lemma {:induction false} FirstFailureWins(response: HttpResponse, data: Option<seq<int>>, vs: seq<Validation>)
    ensures var r := ExecuteAll(None, Some(response), data, vs);
      && (r.None? <==> forall i :: 0 <= i < |vs| ==> Evaluate(vs[i], response, data).Valid?)
      && (r.Some? ==> exists i :: 0 <= i < |vs| && Evaluate(vs[i], response, data) == Invalid(r.value)
                                && forall j :: 0 <= j < i ==> Evaluate(vs[j], response, data).Valid?)
    decreases |vs|
  {
    if vs != [] {
      var first := Evaluate(vs[0], response, data);
      if first.Valid? {
        FirstFailureWins(response, data, vs[1..]);
        var r := ExecuteAll(None, Some(response), data, vs[1..]);
        if r.Some? {
          var i :| 0 <= i < |vs[1..]| && Evaluate(vs[1..][i], response, data) == Invalid(r.value)
                   && forall j :: 0 <= j < i ==> Evaluate(vs[1..][j], response, data).Valid?;
          assert Evaluate(vs[i + 1], response, data) == Invalid(r.value);
          assert forall j :: 0 <= j < i + 1 ==> Evaluate(vs[j], response, data).Valid? by {
            forall j | 0 <= j < i + 1 ensures Evaluate(vs[j], response, data).Valid? {
              if j > 0 { assert vs[j] == vs[1..][j - 1]; }
            }
          }
        } else {
          forall i | 0 <= i < |vs| ensures Evaluate(vs[i], response, data).Valid? {
            if i > 0 { assert vs[i] == vs[1..][i - 1]; }
          }
        }
      } else {
        RecordedErrorIsKept(Some(first.error), Some(response), data, vs[1..]);
      }
    }
  }

  const UnacceptablePrefix: string := "Unacceptable status code "
  const UnacceptableSuffix: string := " in http response"

  /** The status code written in an "Unacceptable status code" message. */
  function StatusCodeInMessage(message: string): Option<int> {
    var p, q := |UnacceptablePrefix|, |UnacceptableSuffix|;
    if |message| >= p + q && message[..p] == UnacceptablePrefix && message[|message| - q..] == UnacceptableSuffix
    then Decimal.ParseInt(message[p..|message| - q])
    else None
  }

  /** A code written between the prefix and the suffix is read back. */
  lemma CodeReadsBack(code: int)
    ensures StatusCodeInMessage(UnacceptablePrefix + Decimal.IntToString(code) + UnacceptableSuffix) == Some(code)
  {
    var digits := Decimal.IntToString(code);
    var m := UnacceptablePrefix + digits + UnacceptableSuffix;
    var p, q := |UnacceptablePrefix|, |UnacceptableSuffix|;
    assert m[..p] == UnacceptablePrefix;
    assert m[|m| - q..] == UnacceptableSuffix;
    assert m[p..|m| - q] == digits;
    Decimal.ParseIntToString(code);
  }

  /** A message that does not start with "Un" carries no status code. */
  lemma NoCodeWithoutPrefix(m: string)
    requires |m| >= 2 && (m[0] != 'U' || m[1] != 'n')
    ensures StatusCodeInMessage(m) == None
  {
    if |m| >= |UnacceptablePrefix| {
      assert m[..|UnacceptablePrefix|][0] == m[0] && m[..|UnacceptablePrefix|][1] == m[1];
    }
  }

  /** A message that does not end in "e" carries no status code. */
  lemma NoCodeWithoutSuffix(m: string)
    requires |m| >= 1 && m[|m| - 1] != 'e'
    ensures StatusCodeInMessage(m) == None
  {
    var q := |UnacceptableSuffix|;
    if |m| >= q {
      assert m[|m| - q..][q - 1] == m[|m| - 1];
    }
  }

  /** `Networking.message`.  Only the message of `unacceptableStatusCode`
      carries a status code, and it is that error's code. */
  function Message(n: Networking): (m: string)
    ensures StatusCodeInMessage(m).Some? <==> n.UnacceptableStatusCode?
    ensures n.UnacceptableStatusCode? ==> StatusCodeInMessage(m) == Some(n.code)
  {
    match n
    case InvalidUrl(url) =>
      var m := "Invalid URL in URLConvertible " + url;
      NoCodeWithoutPrefix(m);
      m
    case UnacceptableStatusCode(code) =>
      CodeReadsBack(code);
      UnacceptablePrefix + Decimal.IntToString(code) + UnacceptableSuffix
    case NoResponseData =>
      var m := "Response data was null";
      NoCodeWithoutPrefix(m);
      m
    case ParameterEncodingFailedMissingUrl =>
      var m := "URLRequest is missing an url to encode parameters onto";
      NoCodeWithoutSuffix(m);
      m
  }

  /** `Request`: one URL session task (or none), the delegate's recorded
      error, and the validation closures queued on it. */
  class Request {
    /** Whether the delegate holds a URL session task. */
    const hasTask: bool
    /** Commands sent to the task, in order. */
    var taskCommands: seq<TaskCommand>
    /** `delegate.queue.isSuspended`. */
    var queueSuspended: bool
    /** What the task delivered, set by the URL session; `task?.response`
        is nil without a task (`Valid`). */
    var response: Option<HttpResponse>
    var data: Option<seq<int>>
    /** `delegate.error`. */
    var error: Option<Error>
    var validations: seq<Validation>

    /** Without a task there is nothing that could have delivered a response
        or data. */
    predicate Valid()
      reads this
    {
      !hasTask ==> response == None && data == None
    }

    /** `init(session:requestTask:error:)`: the delegate starts with the
        given error and no validations. */
    constructor (hasTask: bool, queueSuspended: bool, error: Option<Error>)
      ensures this.hasTask == hasTask && this.queueSuspended == queueSuspended && this.error == error
      ensures taskCommands == [] && validations == [] && response == None && data == None
      ensures Valid()
    {
      this.hasTask := hasTask;
      this.queueSuspended := queueSuspended;
      this.error := error;
      taskCommands := [];
      validations := [];
      response := None;
      data := None;
    }

    /** `resume()`: resumes the task; without a task it only unsuspends the
        delegate's queue. */
    method Resume()
      requires Valid()
      modifies this`taskCommands, this`queueSuspended
      ensures Valid()
      ensures hasTask ==> taskCommands == old(taskCommands) + [ResumeTask] && queueSuspended == old(queueSuspended)
      ensures !hasTask ==> taskCommands == old(taskCommands) && !queueSuspended
    {
      if !hasTask {
        queueSuspended := false;
        return;
      }
      taskCommands := taskCommands + [ResumeTask];
    }

    /** `suspend()`: suspends the task; a no-op without one. */
    method Suspend()
      requires Valid()
      modifies this`taskCommands
      ensures Valid()
      ensures taskCommands == old(taskCommands) + (if hasTask then [SuspendTask] else [])
    {
      if !hasTask {
        return;
      }
      taskCommands := taskCommands + [SuspendTask];
    }

    /** `cancel()`: cancels the task; a no-op without one. */
    method Cancel()
      requires Valid()
      modifies this`taskCommands
      ensures Valid()
      ensures taskCommands == old(taskCommands) + (if hasTask then [CancelTask] else [])
    {
      if !hasTask {
        return;
      }
      taskCommands := taskCommands + [CancelTask];
    }

    /** `validate(_:)`: appends exactly one closure, after those already
        queued. */
    method Validate(v: Validation)
      requires Valid()
      modifies this`validations
      ensures Valid()
      ensures validations == old(validations) + [v]
    {
      validations := validations + [v];
    }

    /** `validate(statusCode:)`. */
    method ValidateStatusCodes(acceptable: seq<int>)
      requires Valid()
      modifies this`validations
      ensures Valid()
      ensures validations == old(validations) + [StatusCode(acceptable)]
    {
      Validate(StatusCode(acceptable));
    }

    /** `validate()`: status codes 200 through 299. */
    method ValidateDefault()
      requires Valid()
      modifies this`validations
      ensures Valid()
      ensures validations == old(validations) + [StatusCode(AcceptableStatusCodes)]
    {
      ValidateStatusCodes(AcceptableStatusCodes);
    }

    /** Running the queued closure at index `i`. */
    method RunValidation(i: nat)
      requires Valid() && i < |validations|
      modifies this`error
      ensures Valid()
      ensures error == Execute(old(error), response, data, validations[i])
      ensures !hasTask ==> error == old(error)
    {
      if response.Some? && error.None? {
        var result := Evaluate(validations[i], response.value, data);
        if result.Invalid? {
          error := Some(result.error);
        }
      }
    }
  }
}
