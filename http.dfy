/**
 * The boundary to the HTTP client and the status-to-error mapping that every
 * Org agent method follows. The client itself is not modelled: a call is
 * described by a `Request` and its outcome is an input.
 */
module Http {
  import opened JsValue

  /** The error object the HTTP client reports when no response arrived. */
  datatype TransportError = TransportError(reason: string)

  /** What one client call reports: no response at all, or a status with its decoded body. */
  datatype Outcome =
    | TransportFailure(cause: TransportError)
    | Response(statusCode: int, body: Value)

  datatype Verb = Get | Put | Post | Delete

  /** The `qs` option of a paginated call. */
  datatype Query = Query(perPage: int, page: Value)

  /** The options object handed to the client: `url`, `json`, `body`, the `bearer` header and `qs`. */
  datatype Request = Request(
    verb: Verb,
    url: string,
    json: bool,
    body: Option<Value>,
    bearer: string,
    query: Option<Query>)

  /**
   * Why a call failed: the client's own error passed on unchanged, an `Error`
   * whose `statusCode` property was set from the response, or an exception the
   * JavaScript runtime raised (a property read on `undefined`).
   */
  datatype Failure =
    | Transport(cause: TransportError)
    | Typed(message: string, statusCode: int)
    | ScriptFault(kind: string)

  datatype Result<+T> = Ok(value: T) | Fail(error: Failure)

  /** What one explicit status row of a method's table does. */
  datatype Verdict = Reject(message: string) | AcceptWith(value: Value)

  /** A method's explicit status rows, in the order its code tests them. */
  type StatusTable = seq<(int, Verdict)>

  /** The verdict of the first row for `status`, if any. */
  function Find(table: StatusTable, status: int): (r: Option<Verdict>)
    decreases |table|
  {
    if table == [] then None
    else if table[0].0 == status then Some(table[0].1)
    else Find(table[1..], status)
  }

  /**
   * The mapping every agent method applies to its call's outcome: a transport
   * error is passed on; an explicit row wins over everything else; any other
   * status of 400 or more becomes an error carrying the body; the rest succeed
   * with the body.
   */
  function Classify(table: StatusTable, outcome: Outcome): (r: Result<Value>)
    ensures outcome.TransportFailure? <==> r.Fail? && r.error.Transport?
    ensures outcome.TransportFailure? ==> r.error.cause == outcome.cause
    ensures r.Fail? && r.error.Typed? ==> r.error.statusCode == outcome.statusCode
    ensures r.Fail? ==> !r.error.ScriptFault?
  {
    match outcome
    case TransportFailure(e) => Fail(Transport(e))
    case Response(status, body) =>
      match Find(table, status)
      case Some(Reject(message)) => Fail(Typed(message, status))
      case Some(AcceptWith(v)) => Ok(v)
      case None => if status >= 400 then Fail(Typed(ErrorMessage(body), status)) else Ok(body)
  }

  /** `Find` returns the verdict of the first row whose status matches. */
  lemma {:induction false} FindFirst(table: StatusTable, status: int, i: nat)
    requires i < |table| && table[i].0 == status
    requires forall j :: 0 <= j < i ==> table[j].0 != status
    ensures Find(table, status) == Some(table[i].1)
    decreases i
  {
    if i > 0 {
      FindFirst(table[1..], status, i - 1);
    }
  }

  /** `Find` fails exactly when no row has the status. */
  lemma {:induction false} FindNone(table: StatusTable, status: int)
    ensures Find(table, status).None? <==> forall j :: 0 <= j < |table| ==> table[j].0 != status
    decreases |table|
  {
    if table != [] {
      FindNone(table[1..], status);
      assert forall j :: 1 <= j < |table| ==> table[j] == table[1..][j - 1];
    }
  }

  /** An explicit row takes precedence over the generic fallback for 400 and above. */
  lemma ClassifyExplicit(table: StatusTable, status: int, body: Value, i: nat)
    requires i < |table| && table[i].0 == status
    requires forall j :: 0 <= j < i ==> table[j].0 != status
    ensures table[i].1.Reject? ==> Classify(table, Response(status, body)) == Fail(Typed(table[i].1.message, status))
    ensures table[i].1.AcceptWith? ==> Classify(table, Response(status, body)) == Ok(table[i].1.value)
  {
    FindFirst(table, status, i);
  }

  /** A status of 400 or more without a row becomes an error whose message is the body. */
  lemma ClassifyFallback(table: StatusTable, status: int, body: Value)
    requires forall j :: 0 <= j < |table| ==> table[j].0 != status
    requires status >= 400
    ensures Classify(table, Response(status, body)) == Fail(Typed(ErrorMessage(body), status))
  {
    FindNone(table, status);
  }

  /** A status below 400 without a row is a success carrying the body unchanged. */
  lemma ClassifySuccess(table: StatusTable, status: int, body: Value)
    requires forall j :: 0 <= j < |table| ==> table[j].0 != status
    requires status < 400
    ensures Classify(table, Response(status, body)) == Ok(body)
  {
    FindNone(table, status);
  }
}
