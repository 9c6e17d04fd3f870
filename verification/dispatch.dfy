/** How the requests-based client turns a response into the method's
    result (pydantic_client/clients/sync_client.py, `_request`): a mock
    response short-circuits everything; otherwise the transport is called,
    an HTTP error status raises, and the declared response model picks one
    of five ways to read the body. */
module Dispatch {
  import opened Wrappers
  import opened Values

  /** What the transport returns: status, body text, raw bytes, and the
      outcome of decoding the body as JSON. */
  datatype Reply = Reply(status: int, text: string, content: seq<bv8>, json: Result<Value>)

  /** A result of `_request`: a Python value, or raw bytes. */
  datatype Output = Val(v: Value) | Bytes(b: seq<bv8>)

  /** How the body is read, in the order the source tests for it. */
  datatype ResponseKind =
    | AsText
    | AsBytes
    | Extracted(path: Value)
    | RawJson
    | Validated(c: Class)

  /** `not response_model or response_model is dict or
      getattr(response_model, '__module__', None) == 'inspect'`. */
  predicate RawJsonFirst(model: Annotation) {
    match model
    case NoneAnn => true
    case EmptyAnn => true
    case OtherAnn(text) => text == ""
    case Cls(c) => c == DictClass || (c.OtherClass? && c.moduleName == "inspect")
    case Generic(_, _) => false
  }

  /** The branch `_request` takes for a response model and an extract path
      once the status check has passed. */
  function Kind(model: Annotation, extractPath: Value): (k: ResponseKind)
    ensures k == AsText <==> model == Cls(StrClass)
    ensures k == AsBytes <==> model == Cls(BytesClass)
    ensures k.Extracted? <==> model != Cls(StrClass) && model != Cls(BytesClass) && Truthy(extractPath)
    ensures k.Extracted? ==> k.path == extractPath
    ensures k.Validated? <==> IsModelClass(model) && !Truthy(extractPath)
    ensures k.Validated? ==> model == Cls(k.c)
    ensures k == RawJson <==> model != Cls(StrClass) && model != Cls(BytesClass) && !Truthy(extractPath) &&
                              !IsModelClass(model)
  {
    if model == Cls(StrClass) then AsText
    else if model == Cls(BytesClass) then AsBytes
    else if Truthy(extractPath) then Extracted(extractPath)
    else if RawJsonFirst(model) then RawJson
    else if IsModelClass(model) then Validated(model.c)
    else RawJson
  }

  /** The parameters handed to the transport: the dumped request without
      the two entries only `_request` reads. */
  function Sent(dumped: map<string, Value>): (sent: map<string, Value>)
    ensures "response_model" !in sent && "response_extract_path" !in sent
    ensures forall k :: k in dumped && k != "response_model" && k != "response_extract_path" ==>
      k in sent && sent[k] == dumped[k]
    ensures forall k :: k in sent ==> k in dumped
  {
    dumped - {"response_model", "response_extract_path"}
  }

  /** `response.raise_for_status()`: 4xx and 5xx statuses raise. */
  predicate ErrorStatus(status: int) {
    400 <= status < 600
  }

  /** `RequestsWebClient._request`. `mock` is what the mock lookup found
      (`Null` for none), `dumped` the dumped request parameters, `model` the
      response model. The transport (after the `before_request` hook),
      nested extraction and pydantic validation are the parameters `send`,
      `extract` and `validate`. */
  function Request(mock: Value, dumped: map<string, Value>, model: Annotation,
                   send: map<string, Value> -> Reply,
                   extract: (Value, Value, Annotation) -> Result<Value>,
                   validate: (Class, Value) -> Result<Value>): (r: Result<Output>)
    ensures mock != Null ==> r == Ok(Val(mock))
    ensures mock == Null && ErrorStatus(send(Sent(dumped)).status) ==>
      r == Err(HttpError(send(Sent(dumped)).status))
  {
    if mock != Null then Ok(Val(mock))
    else
      var reply := send(Sent(dumped));
      if ErrorStatus(reply.status) then Err(HttpError(reply.status))
      else
        match Kind(model, ExtractPath(dumped))
        case AsText => Ok(Val(Str(reply.text)))
        case AsBytes => Ok(Bytes(reply.content))
        case Extracted(p) =>
          var data :- reply.json;
          var v :- extract(data, p, model);
          Ok(Val(v))
        case RawJson =>
          var data :- reply.json;
          Ok(Val(data))
        case Validated(c) =>
          var data :- reply.json;
          var v :- validate(c, data);
          Ok(Val(v))
  }

  /** The extract path `_request` reads from the dumped parameters. */
  function ExtractPath(dumped: map<string, Value>): Value {
    if "response_extract_path" in dumped then dumped["response_extract_path"] else Null
  }

  /** A mock response is returned as it is, whatever the transport would
      have answered. */
  lemma MockShortCircuits(mock: Value, dumped: map<string, Value>, model: Annotation,
                          send1: map<string, Value> -> Reply, send2: map<string, Value> -> Reply,
                          extract: (Value, Value, Annotation) -> Result<Value>,
                          validate: (Class, Value) -> Result<Value>)
    requires mock != Null
    ensures Request(mock, dumped, model, send1, extract, validate) ==
            Request(mock, dumped, model, send2, extract, validate)
  {
  }

  /** The transport sees only `Sent(dumped)`: two transports that answer
      that request alike give the same result. */
  lemma TransportSeesSentOnly(mock: Value, dumped: map<string, Value>, model: Annotation,
                              send1: map<string, Value> -> Reply, send2: map<string, Value> -> Reply,
                              extract: (Value, Value, Annotation) -> Result<Value>,
                              validate: (Class, Value) -> Result<Value>)
    requires send1(Sent(dumped)) == send2(Sent(dumped))
    ensures Request(mock, dumped, model, send1, extract, validate) ==
            Request(mock, dumped, model, send2, extract, validate)
  {
  }

  /** Without a mock and with a successful status, the result is read the
      way `Kind` says: text and bytes are returned even when an extract
      path is set; otherwise a set path sends the decoded JSON through
      extraction; a model is validated; anything else is the decoded JSON. */
  lemma ReadsByKind(dumped: map<string, Value>, model: Annotation,
                    send: map<string, Value> -> Reply,
                    extract: (Value, Value, Annotation) -> Result<Value>,
                    validate: (Class, Value) -> Result<Value>)
    requires !ErrorStatus(send(Sent(dumped)).status)
    ensures var reply := send(Sent(dumped));
      var r := Request(Null, dumped, model, send, extract, validate);
      match Kind(model, ExtractPath(dumped))
      case AsText => r == Ok(Val(Str(reply.text)))
      case AsBytes => r == Ok(Bytes(reply.content))
      case Extracted(p) =>
        (reply.json.Err? ==> r == Err(reply.json.error)) &&
        (reply.json.Ok? ==> r.Ok? == extract(reply.json.value, p, model).Ok? &&
                            (r.Ok? ==> r.value == Val(extract(reply.json.value, p, model).value)))
      case RawJson =>
        (reply.json.Err? ==> r == Err(reply.json.error)) &&
        (reply.json.Ok? ==> r == Ok(Val(reply.json.value)))
      case Validated(c) =>
        (reply.json.Err? ==> r == Err(reply.json.error)) &&
        (reply.json.Ok? ==> r.Ok? == validate(c, reply.json.value).Ok? &&
                            (r.Ok? ==> r.value == Val(validate(c, reply.json.value).value)))
  {
  }
}
