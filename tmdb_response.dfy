/**
 * What a TheMovieDB completion handler receives, and the ordered chain of
 * guards every handler in the two view controllers runs over it:
 *
 *   0. the transport error is nil;
 *   1. the response is an HTTP response whose status is in 200...299;
 *   2. data is present;
 *   3. the data decodes to a JSON object (a non-object traps on a forced cast);
 *   4. the in-band `status_code` check;
 *   5. the expected key is present with the expected type.
 *
 * The network and JSONSerialization are not modelled: a handler receives the
 * already decoded `Response`.
 */
module TmdbResponse {
  import opened Wrappers

  /**
   * A decoded JSON value. Numbers are split into integers and numbers with a
   * fraction; of the latter only `truncated`, the integer part rounded toward
   * zero, is kept, because that is all a cast to `Int` can see of them.
   */
  datatype Json =
    | JNull
    | JBool(b: bool)
    | JInt(i: int)
    | JFraction(truncated: int)
    | JString(s: string)
    | JArray(items: seq<Json>)
    | JObject(fields: map<string, Json>)

  type JsonObject = map<string, Json>

  /** What JSONSerialization makes of the bytes that came back. */
  datatype Payload =
    | Malformed                   // not JSON at all: jsonObject throws
    | NonObject                   // valid JSON whose top level is not an object
    | Object(fields: JsonObject)

  /**
   * The triple a data task hands its completion handler: whether `error` is
   * non-nil, the HTTP status (None when the response is not an HTTP response),
   * and the data, already decoded.
   */
  datatype Response = Response(error: bool, status: Option<int>, data: Option<Payload>)

  datatype Failure =
    | TransportError
    | StatusNot2xx(status: Option<int>)
    | NoData
    | NotJson
    | RemoteError(code: int)          // the body carries an integer `status_code`
    | MissingField(key: string)       // the expected key is absent or of the wrong type
    | NoStatusCode                    // favorite toggle: `status_code` absent
    | UnexpectedCode(code: int)       // favorite toggle: a code the rule does not accept

  /** The end of a guard chain: the handler goes on with a value, returns early, or traps. */
  datatype Outcome<T> = Accepted(value: T) | Rejected(failure: Failure) | Trapped

  const StatusCodeKey: string := "status_code"

  /** The "Successful 2xx" class of section 15.3 of RFC 9110. */
  predicate Successful(status: int) {
    200 <= status <= 299
  }

  /**
   * `value as? Int` in Swift 3: any JSON number casts, and one with a fraction
   * is truncated toward zero; booleans, strings and the rest do not cast.
   */
  function AsInt(j: Json): (n: Option<int>)
    ensures n.Some? <==> j.JInt? || j.JFraction?
    ensures j.JInt? ==> n == Some(j.i)
    ensures j.JFraction? ==> n == Some(j.truncated)
  {
    match j
    case JInt(i) => Some(i)
    case JFraction(t) => Some(t)
    case _ => None
  }

  /** `parsedData[status_code] as? Int`. */
  function InBandStatus(body: JsonObject): Option<int> {
    if StatusCodeKey in body then AsInt(body[StatusCodeKey]) else None
  }

  /** The decoded top-level object of a response, when there is one. */
  function Body(r: Response): Option<JsonObject> {
    if r.data.Some? && r.data.value.Object? then Some(r.data.value.fields) else None
  }

  /**
   * Which guard of the chain an outcome stopped at; 6 means it passed them all.
   * A trap happens at the decoding guard, like a parse failure.
   */
  function Stage<T>(o: Outcome<T>): nat {
    match o
    case Accepted(_) => 6
    case Trapped => 3
    case Rejected(f) =>
      match f
      case TransportError => 0
      case StatusNot2xx(_) => 1
      case NoData => 2
      case NotJson => 3
      case RemoteError(_) => 4
      case NoStatusCode => 4
      case MissingField(_) => 5
      case UnexpectedCode(_) => 5
  }

  /** Guard k (k < 4) of the shared transport-and-decoding prefix, judged on its own. */
  predicate ReceiveGuardFails(r: Response, k: nat) {
    if k == 0 then r.error
    else if k == 1 then !(r.status.Some? && Successful(r.status.value))
    else if k == 2 then r.data.None?
    else k == 3 && r.data.Some? && !r.data.value.Object?
  }

  /**
   * The first four guards, as every handler writes them. The outcome names the
   * first guard that fails: every earlier guard passes and that one fails.
   */
  function Receive(r: Response): (o: Outcome<JsonObject>)
    ensures forall k: nat :: k < Stage(o) ==> !ReceiveGuardFails(r, k)
    ensures o.Accepted? || (Stage(o) < 4 && ReceiveGuardFails(r, Stage(o)))
    ensures o.Accepted? <==> Body(r).Some? && !r.error && r.status.Some? && Successful(r.status.value)
    ensures o.Accepted? ==> Body(r) == Some(o.value)
    ensures o.Trapped? <==> !r.error && r.status.Some? && Successful(r.status.value) && r.data == Some(NonObject)
    ensures o.Rejected? ==> Stage(o) < 4
    ensures o.Rejected? && o.failure.StatusNot2xx? ==> o.failure.status == r.status
  {
    if r.error then Rejected(TransportError)
    else if !(r.status.Some? && Successful(r.status.value)) then Rejected(StatusNot2xx(r.status))
    else if r.data.None? then Rejected(NoData)
    else
      match r.data.value
      case Malformed => Rejected(NotJson)
      case NonObject => Trapped
      case Object(fields) => Accepted(fields)
  }

  /** The key each handler looks for, and the Swift type it casts the value to. */
  datatype Expect =
    | RequestTokenField   // request_token as? String
    | SuccessFlag         // success as? Bool, and it is true
    | SessionIDField      // session_id as? String
    | UserIDField         // id as? Int
    | ResultsList         // results as? [[String: AnyObject]]

  /** What a handler takes out of a validated body. */
  datatype Value = Text(s: string) | Number(n: int) | Confirmed | Objects(list: seq<JsonObject>)

  /** TheMovieDB's names for the expected keys. */
  function Key(e: Expect): string {
    match e
    case RequestTokenField => "request_token"
    case SuccessFlag => "success"
    case SessionIDField => "session_id"
    case UserIDField => "id"
    case ResultsList => "results"
  }

  /** The shape of value each expectation yields. */
  predicate Fits(e: Expect, v: Value) {
    match e
    case RequestTokenField => v.Text?
    case SessionIDField => v.Text?
    case UserIDField => v.Number?
    case SuccessFlag => v == Confirmed
    case ResultsList => v.Objects?
  }

  predicate AllObjects(items: seq<Json>) {
    forall i :: 0 <= i < |items| ==> items[i].JObject?
  }

  function ObjectFields(items: seq<Json>): (list: seq<JsonObject>)
    requires AllObjects(items)
    ensures |list| == |items|
    ensures forall i :: 0 <= i < |items| ==> items[i] == JObject(list[i])
  {
    seq(|items|, i requires 0 <= i < |items| && AllObjects(items) => items[i].fields)
  }

  /**
   * The conditional cast of the expected key. It fails when the key is absent
   * or its value has another type; for `success`, also when it is false.
   */
  function Extract(e: Expect, body: JsonObject): (v: Option<Value>)
    ensures v.Some? ==> Fits(e, v.value)
    ensures v.Some? <==> Key(e) in body && Casts(e, body[Key(e)])
    ensures v.Some? && v.value.Text? ==> body[Key(e)] == JString(v.value.s)
    ensures v.Some? && v.value.Number? ==> AsInt(body[Key(e)]) == Some(v.value.n)
    ensures v.Some? && v.value.Objects? ==>
              && body[Key(e)].JArray?
              && |v.value.list| == |body[Key(e)].items|
              && forall i :: 0 <= i < |v.value.list| ==> body[Key(e)].items[i] == JObject(v.value.list[i])
  {
    if Key(e) !in body then None
    else
      var j := body[Key(e)];
      match e
      case RequestTokenField => if j.JString? then Some(Text(j.s)) else None
      case SessionIDField => if j.JString? then Some(Text(j.s)) else None
      case UserIDField => if AsInt(j).Some? then Some(Number(AsInt(j).value)) else None
      case SuccessFlag => if j == JBool(true) then Some(Confirmed) else None
      case ResultsList => if j.JArray? && AllObjects(j.items) then Some(Objects(ObjectFields(j.items))) else None
  }

  /** Whether a JSON value passes the conditional cast an expectation performs. */
  predicate Casts(e: Expect, j: Json) {
    match e
    case RequestTokenField => j.JString?
    case SessionIDField => j.JString?
    case UserIDField => AsInt(j).Some?
    case SuccessFlag => j == JBool(true)
    case ResultsList => j.JArray? && AllObjects(j.items)
  }

  /** Guard k of a handler's whole chain, judged on its own. */
  predicate GuardFails(r: Response, e: Expect, k: nat) {
    if k < 4 then ReceiveGuardFails(r, k)
    else if k == 4 then Body(r).Some? && InBandStatus(Body(r).value).Some?
    else k == 5 && Body(r).Some? && Extract(e, Body(r).value).None?
  }

  /**
   * The full chain of a handler that expects `e`. The outcome stops at the
   * first failing guard; an integer `status_code` rejects the body before the
   * expected key is looked at; a trap happens exactly where the forced cast
   * meets a non-object.
   */
  function Validate(r: Response, e: Expect): (o: Outcome<Value>)
    ensures forall k: nat :: k < Stage(o) ==> !GuardFails(r, e, k)
    ensures Stage(o) < 6 ==> GuardFails(r, e, Stage(o))
    ensures o.Trapped? <==> Receive(r).Trapped?
    ensures o.Accepted? ==> Body(r).Some? && Extract(e, Body(r).value) == Some(o.value) && Fits(e, o.value)
    ensures o.Rejected? && o.failure.StatusNot2xx? ==> o.failure.status == r.status
    ensures o.Rejected? && o.failure.RemoteError? ==>
              Body(r).Some? && InBandStatus(Body(r).value) == Some(o.failure.code)
    ensures o.Rejected? && o.failure.MissingField? ==> o.failure.key == Key(e)
    ensures o.Rejected? ==> !o.failure.NoStatusCode? && !o.failure.UnexpectedCode?
  {
    match Receive(r)
    case Rejected(f) => Rejected(f)
    case Trapped => Trapped
    case Accepted(body) =>
      if InBandStatus(body).Some? then Rejected(RemoteError(InBandStatus(body).value))
      else
        match Extract(e, body)
        case None => Rejected(MissingField(Key(e)))
        case Some(v) => Accepted(v)
  }

  /** No response in the sequence makes a handler trap. */
  predicate NoTraps(rs: seq<Response>) {
    forall i :: 0 <= i < |rs| ==> !Receive(rs[i]).Trapped?
  }

  /**
   * The chain accepts exactly when every guard passes, read as one conjunction
   * rather than as a sequence of early returns.
   */
  lemma AcceptedIffAllGuardsPass(r: Response, e: Expect)
    ensures Validate(r, e).Accepted? <==>
              && !r.error
              && r.status.Some? && Successful(r.status.value)
              && Body(r).Some?
              && InBandStatus(Body(r).value).None?
              && Key(e) in Body(r).value && Casts(e, Body(r).value[Key(e)])
  {
  }

  /**
   * An integer `status_code` rejects the body even when the expected key is
   * present and well typed.
   */
  lemma InBandErrorWins(r: Response, e: Expect, body: JsonObject, code: int)
    requires !r.error && r.status.Some? && Successful(r.status.value)
    requires r.data == Some(Object(body))
    requires StatusCodeKey in body && AsInt(body[StatusCodeKey]) == Some(code)
    ensures Validate(r, e) == Rejected(RemoteError(code))
  {
  }

  /**
   * A fractional number reads as its truncation wherever an `Int` is cast:
   * a `status_code` of 3.5 is in-band error 3, and an `id` of 42.5 is 42.
   */
  lemma {:induction false} FractionsTruncate(r: Response, body: JsonObject, code: int, id: int)
    requires !r.error && r.status.Some? && Successful(r.status.value)
    requires r.data == Some(Object(body))
    ensures StatusCodeKey in body && body[StatusCodeKey] == JFraction(code) ==>
              Validate(r, UserIDField) == Rejected(RemoteError(code))
    ensures StatusCodeKey !in body && "id" in body && body["id"] == JFraction(id) ==>
              Validate(r, UserIDField) == Accepted(Number(id))
  {
    if StatusCodeKey in body && body[StatusCodeKey] == JFraction(code) {
      assert InBandStatus(body) == Some(code);
    }
    if StatusCodeKey !in body && "id" in body && body["id"] == JFraction(id) {
      assert Extract(UserIDField, body) == Some(Number(id));
    }
  }

  /** validate_with_login passes only when `success` is the boolean true. */
  lemma SuccessMustBeTrue(r: Response, body: JsonObject)
    requires Receive(r) == Accepted(body) && InBandStatus(body).None?
    ensures Validate(r, SuccessFlag).Accepted? <==> "success" in body && body["success"] == JBool(true)
    ensures "success" !in body || body["success"] == JBool(false) || AsInt(body["success"]).Some? ==>
              Validate(r, SuccessFlag) == Rejected(MissingField("success"))
  {
  }
}
