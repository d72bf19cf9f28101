/**
 * The JSON-RPC 2.0 envelopes (request, response, error) with their field
 * defaults and the structural validation pydantic performs on them, plus the
 * server's error taxonomy. Fields are validated in declaration order: `id`
 * first, then `jsonrpc`, so a bad version can still report the request's id.
 */
module JsonRpcModel {
  import opened JsonValue
  import opened Wrappers
  import PyText

  /** The only version accepted in the `jsonrpc` member (section 4 of the JSON-RPC 2.0 Specification). */
  const Version: string := "2.0"

  /** A request id: an integer or a string. */
  datatype Id = IntId(n: int) | StrId(s: string)

  /** The `id` an envelope gets when none is given. */
  const DefaultId: Id := IntId(0)

  function IdToJson(id: Id): (j: Json)
  {
    match id
    case IntId(n) => JInt(n)
    case StrId(s) => JStr(s)
  }

  /** The kind of one field-level validation failure, as pydantic reports it. */
  datatype ErrorType =
    | Missing
    | WrongType(expected: string)
    | NotLiteral(expected: string)
    | TooSmall(bound: int)
    | TooLarge(bound: int)

  /** One entry of a validation error list: where it happened and what went wrong. */
  datatype FieldError = FieldError(loc: seq<string>, kind: ErrorType)

  /** The protocol errors the server raises. */
  datatype RpcError =
    | ParseError
    | InvalidRequest(fromId: Id)
    | MethodNotFound(message: string)
    | InvalidParams(data: seq<FieldError>, fromId: Id)

  /** Error codes of section 5.1 of the JSON-RPC 2.0 Specification. */
  function Code(e: RpcError): (c: int)
    ensures -32768 <= c <= -32000
  {
    match e
    case ParseError => -32700
    case InvalidRequest(_) => -32600
    case MethodNotFound(_) => -32601
    case InvalidParams(_, _) => -32602
  }

  lemma {:induction false} CodesIdentifyKinds(a: RpcError, b: RpcError)
    requires Code(a) == Code(b)
    ensures a.ParseError? <==> b.ParseError?
    ensures a.InvalidRequest? <==> b.InvalidRequest?
    ensures a.MethodNotFound? <==> b.MethodNotFound?
    ensures a.InvalidParams? <==> b.InvalidParams?
  {
  }

  /**
   * What a step of request handling can raise: a protocol error, a pydantic
   * `ValidationError` (its error list), or any other exception.
   */
  datatype Failure =
    | Protocol(error: RpcError)
    | Invalid(errors: seq<FieldError>)
    | Fatal(reason: string)

  datatype Result<T> = Ok(value: T) | Err(failure: Failure)

  datatype Request = Request(id: Id, jsonrpc: string, methodName: string, params: Json)

  datatype Response = Response(id: Id, jsonrpc: string, result: Json)

  /** The optional `data` member of an error object: a dict, a list or None. */
  datatype ErrorData = NoData | DictData(fields: map<string, Json>) | ListData(items: seq<Json>)

  /** The error object of section 5.1 of the JSON-RPC 2.0 Specification. */
  datatype ErrorDetail = ErrorDetail(code: int, message: string, data: ErrorData)

  datatype ErrorEnvelope = ErrorEnvelope(id: Id, jsonrpc: string, error: ErrorDetail)

  /** A successful response built from its result alone, as `JSONRPCResponse(result=...)` does. */
  function NewResponse(result: Json): (r: Response)
    ensures r.id == DefaultId && r.jsonrpc == Version && r.result == result
  {
    Response(DefaultId, Version, result)
  }

  // ---------------------------------------------------------------------------
  // Validation of a decoded document, field by field.

  /** The outcome of validating one field: its value, or the errors it produced. */
  datatype FieldCheck<T> = Accepted(value: T) | Rejected(errors: seq<FieldError>)

  /**
   * pydantic's lax `int`: an int as it is, a bool as 1 or 0, and a string
   * holding a decimal integer as that integer; anything else is refused.
   */
  function LaxInt(j: Json): (r: Option<int>)
    ensures j.JInt? ==> r == Some(j.i)
    ensures j.JBool? ==> r == Some(if j.b then 1 else 0)
    ensures j.JStr? ==> r == PyText.ParseInt(j.s)
    ensures r.Some? ==> j.JInt? || j.JBool? || j.JStr?
  {
    match j
    case JInt(n) => Some(n)
    case JBool(b) => Some(if b then 1 else 0)
    case JStr(s) => PyText.ParseInt(s)
    case _ => None
  }

  /** An int and its decimal text are both accepted as that int. */
  lemma {:induction false} LaxIntOfText(n: int)
    ensures LaxInt(JStr(PyText.IntToString(n))) == Some(n)
    ensures LaxInt(JInt(n)) == Some(n)
  {
    PyText.ParseIntToString(n);
  }

  /**
   * The `id` field, an `int | str` defaulting to 0. In pydantic's smart union
   * a string matches `str` exactly and stays a string (even "7"); any other
   * value is an id only if the lax `int` accepts it, so `true` is the id 1.
   */
  function CheckId(doc: map<string, Json>): (r: FieldCheck<Id>)
    ensures "id" !in doc ==> r == Accepted(DefaultId)
    ensures "id" in doc ==> (r.Accepted? <==> doc["id"].JStr? || LaxInt(doc["id"]).Some?)
    ensures "id" in doc && doc["id"].JStr? ==> r == Accepted(StrId(doc["id"].s))
    ensures "id" in doc && !doc["id"].JStr? && r.Accepted? ==> r.value == IntId(LaxInt(doc["id"]).value)
    ensures r.Accepted? && "id" in doc && (doc["id"].JInt? || doc["id"].JStr?) ==> doc["id"] == IdToJson(r.value)
  {
    if "id" !in doc then Accepted(DefaultId)
    else match doc["id"]
      case JStr(s) => Accepted(StrId(s))
      case j =>
        match LaxInt(j)
        case Some(n) => Accepted(IntId(n))
        case None => Rejected([FieldError(["id"], WrongType("int | str"))])
  }

  /**
   * `validate_jsonrpc`: runs only on a present member (a default is not
   * validated); anything but "2.0" raises Invalid Request carrying the id
   * validated so far, or 0. An accepted value is returned upper-cased.
   */
  function CheckVersion(doc: map<string, Json>, validatedId: Option<Id>): (r: Result<string>)
    ensures r.Ok? ==> r.value == Version
    ensures r.Err? <==> "jsonrpc" in doc && doc["jsonrpc"] != JStr(Version)
    ensures r.Err? ==> r.failure == Protocol(InvalidRequest(validatedId.GetOr(DefaultId)))
  {
    if "jsonrpc" !in doc then Ok(Version)
    else if doc["jsonrpc"] != JStr(Version) then Err(Protocol(InvalidRequest(validatedId.GetOr(DefaultId))))
    else
      UpperKeepsVersion();
      Ok(PyText.Upper(doc["jsonrpc"].s))
  }

  /** Upper-casing leaves "2.0" as it is, so validation is idempotent. */
  lemma {:induction false} UpperKeepsVersion()
    ensures PyText.Upper(Version) == Version
  {
    assert forall k | 0 <= k < |Version| :: PyText.UpperChar(Version[k]) == Version[k];
  }

  function Validated(c: FieldCheck<Id>): (id: Option<Id>)
  {
    if c.Accepted? then Some(c.value) else None
  }

  function ErrorsOf<T>(c: FieldCheck<T>): (errors: seq<FieldError>)
  {
    if c.Rejected? then c.errors else []
  }

  /** A required `str` field. */
  function CheckStr(doc: map<string, Json>, name: string): (r: FieldCheck<string>)
    ensures r.Accepted? <==> name in doc && doc[name].JStr?
    ensures r.Accepted? ==> doc[name] == JStr(r.value)
  {
    if name !in doc then Rejected([FieldError([name], Missing)])
    else if !doc[name].JStr? then Rejected([FieldError([name], WrongType("str"))])
    else Accepted(doc[name].s)
  }

  /** A required field of any type. */
  function CheckAny(doc: map<string, Json>, name: string): (r: FieldCheck<Json>)
    ensures r.Accepted? <==> name in doc
    ensures r.Accepted? ==> r.value == doc[name]
  {
    if name in doc then Accepted(doc[name]) else Rejected([FieldError([name], Missing)])
  }

  /**
   * `JSONRPCRequest.model_validate`: a document that is not an object fails
   * as a whole; a bad version raises at once; otherwise every field error is
   * collected, in declaration order.
   */
  function ValidateRequest(doc: Json): (r: Result<Request>)
    ensures r.Ok? ==> doc.JObj? && "method" in doc.fields && "params" in doc.fields
    ensures r.Ok? ==> doc.fields["method"] == JStr(r.value.methodName) && r.value.params == doc.fields["params"]
    ensures r.Ok? ==> r.value.jsonrpc == Version
    ensures r.Ok? && "id" !in doc.fields ==> r.value.id == DefaultId
    ensures r.Ok? ==> CheckId(doc.fields) == Accepted(r.value.id)
    ensures r.Ok? && "id" in doc.fields && (doc.fields["id"].JInt? || doc.fields["id"].JStr?) ==>
              doc.fields["id"] == IdToJson(r.value.id)
    ensures doc.JObj? && "jsonrpc" in doc.fields && doc.fields["jsonrpc"] != JStr(Version) ==>
              r == Err(Protocol(InvalidRequest(Validated(CheckId(doc.fields)).GetOr(DefaultId))))
    ensures r.Err? && r.failure.Protocol? ==> doc.JObj? && "jsonrpc" in doc.fields && doc.fields["jsonrpc"] != JStr(Version)
  {
    if !doc.JObj? then Err(Invalid([FieldError([], WrongType("object"))]))
    else
      var fields := doc.fields;
      var id := CheckId(fields);
      match CheckVersion(fields, Validated(id))
      case Err(f) => Err(f)
      case Ok(version) =>
        var methodName := CheckStr(fields, "method");
        var params := CheckAny(fields, "params");
        if id.Accepted? && methodName.Accepted? && params.Accepted? then
          Ok(Request(id.value, version, methodName.value, params.value))
        else
          Err(Invalid(ErrorsOf(id) + ErrorsOf(methodName) + ErrorsOf(params)))
  }

  /** The validator's `id` is the one already validated: an invalid id leaves 0. */
  lemma {:induction false} BadVersionReportsValidatedId(fields: map<string, Json>)
    requires "jsonrpc" in fields && fields["jsonrpc"] != JStr(Version)
    ensures "id" in fields && fields["id"].JInt? ==>
              ValidateRequest(JObj(fields)) == Err(Protocol(InvalidRequest(IntId(fields["id"].i))))
    ensures "id" in fields && fields["id"].JStr? ==>
              ValidateRequest(JObj(fields)) == Err(Protocol(InvalidRequest(StrId(fields["id"].s))))
    ensures "id" in fields && fields["id"].JBool? ==>
              ValidateRequest(JObj(fields)) == Err(Protocol(InvalidRequest(IntId(if fields["id"].b then 1 else 0))))
    ensures ("id" !in fields || !(fields["id"].JInt? || fields["id"].JStr? || fields["id"].JBool?)) ==>
              ValidateRequest(JObj(fields)) == Err(Protocol(InvalidRequest(DefaultId)))
  {
  }

  /** A bool id passes the lax `int`: `"id": true` is the id 1 and `"id": false` the id 0. */
  lemma {:induction false} BoolIdIsInt(methodName: string, params: Json, b: bool)
    ensures ValidateRequest(JObj(map["id" := JBool(b), "method" := JStr(methodName), "params" := params]))
            == Ok(Request(IntId(if b then 1 else 0), Version, methodName, params))
  {
    var fields := map["id" := JBool(b), "method" := JStr(methodName), "params" := params];
    assert CheckId(fields) == Accepted(IntId(if b then 1 else 0));
  }

  // ---------------------------------------------------------------------------
  // Encoding (`model_dump`) and decoding (`model_validate`) of the envelopes.

  function EncodeRequest(q: Request): (j: Json)
  {
    JObj(map["id" := IdToJson(q.id), "jsonrpc" := JStr(q.jsonrpc), "method" := JStr(q.methodName), "params" := q.params])
  }

  function EncodeResponse(r: Response): (j: Json)
  {
    JObj(map["id" := IdToJson(r.id), "jsonrpc" := JStr(r.jsonrpc), "result" := r.result])
  }

  function EncodeErrorData(d: ErrorData): (j: Json)
  {
    match d
    case NoData => JNull
    case DictData(fields) => JObj(fields)
    case ListData(items) => JArr(items)
  }

  function EncodeErrorDetail(e: ErrorDetail): (j: Json)
  {
    JObj(map["code" := JInt(e.code), "message" := JStr(e.message), "data" := EncodeErrorData(e.data)])
  }

  function EncodeError(e: ErrorEnvelope): (j: Json)
  {
    JObj(map["id" := IdToJson(e.id), "jsonrpc" := JStr(e.jsonrpc), "error" := EncodeErrorDetail(e.error)])
  }

  /** Response and error envelopes carry exactly the base fields plus `result` or `error`. */
  lemma {:induction false} EnvelopeFields(r: Response, e: ErrorEnvelope)
    ensures EncodeResponse(r).fields.Keys == {"id", "jsonrpc", "result"}
    ensures EncodeError(e).fields.Keys == {"id", "jsonrpc", "error"}
    ensures EncodeResponse(r).fields.Keys * EncodeError(e).fields.Keys == {"id", "jsonrpc"}
  {
  }

  /** `JSONRPCResponse.model_validate`. */
  function DecodeResponse(doc: Json): (r: Result<Response>)
    ensures r.Ok? ==> r.value.jsonrpc == Version && doc.JObj? && "result" in doc.fields
  {
    if !doc.JObj? then Err(Invalid([FieldError([], WrongType("object"))]))
    else
      var fields := doc.fields;
      var id := CheckId(fields);
      match CheckVersion(fields, Validated(id))
      case Err(f) => Err(f)
      case Ok(version) =>
        var result := CheckAny(fields, "result");
        if id.Accepted? && result.Accepted? then Ok(Response(id.value, version, result.value))
        else Err(Invalid(ErrorsOf(id) + ErrorsOf(result)))
  }

  /** The `data` member: a dict, a list or None, defaulting to None. */
  function CheckErrorData(doc: map<string, Json>): (r: FieldCheck<ErrorData>)
    ensures "data" !in doc ==> r == Accepted(NoData)
  {
    if "data" !in doc then Accepted(NoData)
    else match doc["data"]
      case JNull => Accepted(NoData)
      case JObj(f) => Accepted(DictData(f))
      case JArr(items) => Accepted(ListData(items))
      case _ => Rejected([FieldError(["data"], WrongType("dict | list | None"))])
  }

  /** `RPCErrorDetail.model_validate`: a (lax) int `code`, a str `message`, the optional `data`. */
  function DecodeErrorDetail(doc: Json): (r: Result<ErrorDetail>)
    ensures r.Ok? ==> doc.JObj? && "code" in doc.fields && LaxInt(doc.fields["code"]) == Some(r.value.code)
    ensures r.Ok? ==> "message" in doc.fields && doc.fields["message"] == JStr(r.value.message)
  {
    if !doc.JObj? then Err(Invalid([FieldError([], WrongType("object"))]))
    else
      var fields := doc.fields;
      var code := if "code" !in fields then Rejected([FieldError(["code"], Missing)])
                  else if LaxInt(fields["code"]).Some? then Accepted(LaxInt(fields["code"]).value)
                  else Rejected([FieldError(["code"], WrongType("int"))]);
      var message := CheckStr(fields, "message");
      var data := CheckErrorData(fields);
      if code.Accepted? && message.Accepted? && data.Accepted? then
        Ok(ErrorDetail(code.value, message.value, data.value))
      else
        Err(Invalid(ErrorsOf(code) + ErrorsOf(message) + ErrorsOf(data)))
  }

  /** `JSONRPCError.model_validate`. */
  function DecodeError(doc: Json): (r: Result<ErrorEnvelope>)
    ensures r.Ok? ==> r.value.jsonrpc == Version && doc.JObj? && "error" in doc.fields
  {
    if !doc.JObj? then Err(Invalid([FieldError([], WrongType("object"))]))
    else
      var fields := doc.fields;
      var id := CheckId(fields);
      match CheckVersion(fields, Validated(id))
      case Err(f) => Err(f)
      case Ok(version) =>
        if !id.Accepted? then Err(Invalid(ErrorsOf(id) + (if "error" in fields then [] else [FieldError(["error"], Missing)])))
        else if "error" !in fields then Err(Invalid([FieldError(["error"], Missing)]))
        else match DecodeErrorDetail(fields["error"])
          case Err(Invalid(errs)) => Err(Invalid(errs))
          case Err(f) => Err(f)
          case Ok(detail) => Ok(ErrorEnvelope(id.value, version, detail))
  }

  /** Encoding then decoding a request gives it back, provided its version is "2.0". */
  lemma {:induction false} RequestRoundTrip(q: Request)
    requires q.jsonrpc == Version
    ensures ValidateRequest(EncodeRequest(q)) == Ok(q)
  {
    UpperKeepsVersion();
  }

  lemma {:induction false} ResponseRoundTrip(r: Response)
    requires r.jsonrpc == Version
    ensures DecodeResponse(EncodeResponse(r)) == Ok(r)
  {
    UpperKeepsVersion();
  }

  lemma {:induction false} ErrorRoundTrip(e: ErrorEnvelope)
    requires e.jsonrpc == Version
    ensures DecodeError(EncodeError(e)) == Ok(e)
  {
    UpperKeepsVersion();
    var d := EncodeErrorDetail(e.error);
    assert DecodeErrorDetail(d) == Ok(e.error) by {
      match e.error.data
      case NoData =>
      case DictData(f) =>
      case ListData(items) =>
    }
  }

  /** A request with only `method` and `params` takes the defaults id 0 and version "2.0". */
  lemma {:induction false} RequestDefaults(methodName: string, params: Json)
    ensures ValidateRequest(JObj(map["method" := JStr(methodName), "params" := params]))
            == Ok(Request(DefaultId, Version, methodName, params))
  {
  }

  /** `method` and `params` have no default: leaving either out fails validation. */
  lemma {:induction false} RequestNeedsMethodAndParams(fields: map<string, Json>)
    requires "method" !in fields || "params" !in fields
    ensures ValidateRequest(JObj(fields)).Err?
  {
  }
}
