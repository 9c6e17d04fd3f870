/** Method descriptors of the oldest decorator generation
    (pydantic_client/utility.py and pydantic_client/decorators.py): a
    decorated function is replaced by a `MethodInfo` record built from its
    annotations. */
module Descriptors {
  import opened Wrappers
  import opened Values

  /** pydantic_client/schema/method_info.py. `responseType` is `NoneAnn`
      when the source stores `None`. */
  datatype MethodInfo = MethodInfo(
    func: Func,
    httpMethod: string,
    url: string,
    requestType: map<string, Annotation>,
    responseType: Annotation,
    formBody: bool)

  /** The annotated parameters of a signature, by name. */
  function ParamAnnotations(ps: seq<Param>): (m: map<string, Annotation>)
    ensures forall i :: 0 <= i < |ps| && ps[i].annotation != EmptyAnn ==> ps[i].name in m
    ensures forall k :: k in m ==> exists i :: 0 <= i < |ps| && ps[i].name == k && ps[i].annotation == m[k]
    ensures forall k :: k in m ==> m[k] != EmptyAnn
    decreases |ps|
  {
    if |ps| == 0 then map[]
    else
      var m := ParamAnnotations(ps[..|ps| - 1]);
      var p := ps[|ps| - 1];
      if p.annotation != EmptyAnn then m[p.name := p.annotation] else m
  }

  /** `inspect.getfullargspec(func).annotations`: every annotated parameter,
      plus `"return"` when the return value is annotated. A parameter
      cannot be called `return`, which is a Python keyword. */
  function Annotations(f: Func): (ann: map<string, Annotation>)
    ensures "return" in ann <==> f.ret != EmptyAnn
    ensures "return" in ann ==> ann["return"] == f.ret
    ensures forall k :: k in ann && k != "return" <==> k in ParamAnnotations(f.params) && k != "return"
  {
    var params := ParamAnnotations(f.params);
    if f.ret != EmptyAnn then params["return" := f.ret] else params - {"return"}
  }

  /** The pydantic model `class T(BaseModel): val: <a>` that
      `create_response_type` builds around a return annotation. */
  function ValWrapper(a: Annotation): Annotation {
    Cls(ModelClass("T", [Field("val", a)]))
  }

  /** `create_response_type(annotations)`: pops `"return"` from the map it
      is given and returns the shrunken map with the response type. */
  function CreateResponseType(ann: map<string, Annotation>): (r: (map<string, Annotation>, Annotation))
    ensures "return" !in r.0
    ensures forall k :: k in ann && k != "return" ==> k in r.0 && r.0[k] == ann[k]
    ensures forall k :: k in r.0 ==> k in ann
    ensures r.1 == NoneAnn <==> "return" !in ann || ann["return"] == NoneAnn
    ensures r.1 != NoneAnn ==> r.1 == ValWrapper(ann["return"])
  {
    var rest := ann - {"return"};
    if "return" !in ann || ann["return"] == NoneAnn then (rest, NoneAnn)
    else (rest, ValWrapper(ann["return"]))
  }

  /** `parse_func(url=..., func=..., method=..., form_body=...)`. */
  function ParseFunc(url: string, func: Func, verb: string, formBody: bool): (info: MethodInfo)
    ensures info.func == func && info.url == url && info.httpMethod == verb && info.formBody == formBody
    ensures "return" !in info.requestType
    ensures forall k :: k in info.requestType <==> k in Annotations(func) && k != "return"
    ensures info.responseType == NoneAnn <==> func.ret == EmptyAnn || func.ret == NoneAnn
    ensures info.responseType != NoneAnn ==> info.responseType == ValWrapper(func.ret)
  {
    var r := CreateResponseType(Annotations(func));
    MethodInfo(func, verb, url, r.0, r.1, formBody)
  }

  /** The decorator `rest(url, method, form_body)` before it is applied. */
  datatype Route = Route(url: string, verb: string, formBody: bool)

  /** decorators.py `rest`, with the source's defaults. */
  function Rest(url: string, verb: string := "GET", formBody: bool := false): Route {
    Route(url, verb, formBody)
  }

  /** Applying the decorator: the function is replaced by its `MethodInfo`. */
  function Decorate(r: Route, func: Func): MethodInfo {
    ParseFunc(r.url, func, r.verb, r.formBody)
  }

  /** `partial(rest, method=...)`: the four verb helpers. There is no `patch`. */
  function Get(url: string, formBody: bool := false): Route { Rest(url, "GET", formBody) }
  function Post(url: string, formBody: bool := false): Route { Rest(url, "POST", formBody) }
  function Delete(url: string, formBody: bool := false): Route { Rest(url, "DELETE", formBody) }
  function Put(url: string, formBody: bool := false): Route { Rest(url, "PUT", formBody) }

  /** Decorating with a verb helper yields a descriptor with that verb, the
      given url and form flag (false by default), and never a `"return"`
      request annotation. */
  lemma VerbHelpers(url: string, func: Func)
    ensures Decorate(Get(url), func).httpMethod == "GET"
    ensures Decorate(Post(url), func).httpMethod == "POST"
    ensures Decorate(Delete(url), func).httpMethod == "DELETE"
    ensures Decorate(Put(url), func).httpMethod == "PUT"
    ensures Decorate(Rest(url), func).httpMethod == "GET"
    ensures !Decorate(Rest(url), func).formBody && !Decorate(Post(url), func).formBody
    ensures Decorate(Post(url, true), func).formBody
    ensures Decorate(Get(url), func).url == url && Decorate(Get(url), func).func == func
    ensures "return" !in Decorate(Rest(url), func).requestType
  {
  }

  /** A descriptor built by the decorators never has `bytes` as its response
      type: it is `None` or the `val` wrapper model. */
  lemma ParsedResponseNeverBytes(url: string, func: Func, verb: string, formBody: bool)
    ensures ParseFunc(url, func, verb, formBody).responseType != Cls(BytesClass)
  {
  }
}
