/** The oldest request builder (pydantic_client/proxy.py): a `Proxy` sends
    every argument of the call, path arguments included, as the body, and
    builds the result by calling the descriptor's response type on the raw
    response. The synchronous and asynchronous proxies differ only in
    awaiting the client; one model covers both. */
module Proxies {
  import opened Wrappers
  import opened ODict
  import opened Values
  import opened PyFormat
  import opened Descriptors

  /** `Proxy._apply_args`: the bound arguments without `self`. Models are
      not dumped. */
  function ApplyArgs(bound: Args): (f: Args)
    ensures forall e :: e in f <==> e in bound && e.key != "self"
  {
    Remove(bound, "self")
  }

  /** `{arg: val for arg, val in args.items() if arg in keys}`: every
      argument named by a placeholder, whatever its value. */
  function PathArgs(keys: seq<string>, args: Args): (qa: map<string, Value>)
    ensures forall k :: k in qa <==> k in Keys(args) && k in keys
    ensures forall k :: k in qa ==> ODict.Get(args, k) == Some(qa[k])
  {
    map k | k in Keys(args) && k in keys :: ODict.Get(args, k).value
  }

  /** `Proxy._get_url`: the template rendered with the placeholder
      arguments; the arguments themselves are left in place. */
  function GetUrl(url: string, args: Args, show: Value -> string): (r: Result<string>)
    ensures r.Ok? <==>
      Fields(url).Some? && forall n :: n in Fields(url).value ==> n in Keys(args) && n in RegexKeys(url)
  {
    FormatOk(url, PathArgs(RegexKeys(url), args), show);
    Format(url, PathArgs(RegexKeys(url), args), show)
  }

  /** The condition under which `get_request` logs that the url still
      holds a placeholder. It only logs. */
  predicate LooksUnformatted(url: string) {
    '{' in url && '}' in url
  }

  /** The keyword arguments `get_request` passes to `HttpRequest`. */
  datatype Request = Request(url: string, data: Value, jsonBody: Value, httpMethod: string)

  /** `Proxy.get_request` on the bound arguments of the call. */
  function GetRequest(info: MethodInfo, bound: Args, show: Value -> string): (r: Result<Request>)
    ensures r.Ok? <==> GetUrl(info.url, ApplyArgs(bound), show).Ok?
    ensures r.Ok? ==> r.value.url == GetUrl(info.url, ApplyArgs(bound), show).value
    ensures r.Ok? ==> r.value.httpMethod == info.httpMethod
    ensures r.Ok? && info.formBody ==> r.value.jsonBody == Dict(map[]) && r.value.data == Dict(ToMap(ApplyArgs(bound)))
    ensures r.Ok? && !info.formBody ==> r.value.data == Dict(map[]) && r.value.jsonBody == Dict(ToMap(ApplyArgs(bound)))
  {
    var args := ApplyArgs(bound);
    var url :- GetUrl(info.url, args, show);
    var body := Dict(ToMap(args));
    if info.formBody then Ok(Request(url, body, Dict(map[]), info.httpMethod))
    else Ok(Request(url, Dict(map[]), body, info.httpMethod))
  }

  /** The body carries every argument but `self`, path arguments included,
      with its value unchanged (a model stays a model). */
  lemma BodyHasEveryArgument(info: MethodInfo, bound: Args, show: Value -> string, e: Entry<string, Value>)
    requires GetRequest(info, bound, show).Ok?
    requires Wf(bound) && e in bound && e.key != "self"
    ensures var r := GetRequest(info, bound, show).value;
      var body := if info.formBody then r.data else r.jsonBody;
      body.Dict? && e.key in body.entries && body.entries[e.key] == e.val
  {
    var args := ApplyArgs(bound);
    RemoveWf(bound, "self");
    GetUnique(args, e.key, e.val);
    var i :| 0 <= i < |args| && args[i] == e;
    assert Keys(args)[i] == e.key;
  }

  /** Unlike the container parser, the proxy substitutes falsy arguments
      too: a one-line template without `{{` renders exactly when it is
      well formed and every placeholder has an argument. */
  lemma RendersWhenEveryPlaceholderBound(url: string, args: Args, show: Value -> string)
    requires '\n' !in url && NoDoubleOpen(url)
    ensures GetUrl(url, args, show).Ok? <==>
      Fields(url).Some? && forall n :: n in Fields(url).value ==> n in Keys(args)
  {
    FormatOk(url, PathArgs(RegexKeys(url), args), show);
    if Fields(url).Some? {
      RegexKeysAreFields(url);
    }
  }

  /** A url that still looks unformatted is sent all the same: the request
      is built whenever rendering succeeds. */
  lemma WarningNeverFails(info: MethodInfo, bound: Args, show: Value -> string)
    requires GetUrl(info.url, ApplyArgs(bound), show).Ok?
    requires LooksUnformatted(GetUrl(info.url, ApplyArgs(bound), show).value)
    ensures GetRequest(info, bound, show).Ok?
    ensures GetRequest(info, bound, show).value.url == GetUrl(info.url, ApplyArgs(bound), show).value
  {
  }

  /** `ClientProxy.__call__` and `AsyncClientProxy.__call__`: the request is
      sent with `doRequest`, and `response_type(**raw_response)` builds the
      result, which needs a class to call and a dict to unpack. `construct`
      stands for calling the class with keyword arguments. */
  function Invoke(info: MethodInfo, bound: Args, show: Value -> string, doRequest: Request -> Value,
                  construct: (Class, map<string, Value>) -> Result<Value>): (r: Result<Value>)
    ensures GetRequest(info, bound, show).Err? ==> r == Err(GetRequest(info, bound, show).error)
    ensures r.Ok? ==> (GetRequest(info, bound, show).Ok? && info.responseType.Cls? &&
                       doRequest(GetRequest(info, bound, show).value).Dict? &&
                       construct(info.responseType.c, doRequest(GetRequest(info, bound, show).value).entries) == r)
    ensures GetRequest(info, bound, show).Ok? && !info.responseType.Cls? ==> r.Err? && r.error.TypeError?
  {
    var request :- GetRequest(info, bound, show);
    var raw := doRequest(request);
    if !info.responseType.Cls? then Err(TypeError("response type is not callable"))
    else if !raw.Dict? then Err(TypeError("argument after ** must be a mapping"))
    else construct(info.responseType.c, raw.entries)
  }

  /** With a descriptor from `parse_func`, the result is built by the `val`
      wrapper model around the return annotation, or fails when the method
      has no return annotation (or returns `None`). */
  lemma ParsedResult(url: string, func: Func, verb: string, formBody: bool, bound: Args, show: Value -> string,
                     doRequest: Request -> Value, construct: (Class, map<string, Value>) -> Result<Value>)
    requires GetRequest(ParseFunc(url, func, verb, formBody), bound, show).Ok?
    ensures func.ret == EmptyAnn || func.ret == NoneAnn ==>
      Invoke(ParseFunc(url, func, verb, formBody), bound, show, doRequest, construct).Err?
    ensures var raw := doRequest(GetRequest(ParseFunc(url, func, verb, formBody), bound, show).value);
      Invoke(ParseFunc(url, func, verb, formBody), bound, show, doRequest, construct).Ok? ==>
        raw.Dict? && construct(ValWrapper(func.ret).c, raw.entries) ==
          Invoke(ParseFunc(url, func, verb, formBody), bound, show, doRequest, construct)
  {
  }
}
