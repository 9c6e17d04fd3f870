/** The newest request builder (pydantic_client/decorators_new.py): a
    decorated method's bound arguments are split, by HTTP verb and by whether
    each value is a pydantic model, into the rendered path, the query map,
    the JSON or form body and the headers handed to the client's
    `_request`. The synchronous and asynchronous wrappers do the same work;
    one model covers both. */
module RestNew {
  import opened Wrappers
  import opened Text
  import opened ODict
  import opened Values
  import opened PyFormat

  /** The verbs whose model arguments become the body. */
  predicate BodyVerb(verb: string) {
    verb in ["POST", "PUT", "PATCH"]
  }

  /** The verbs whose plain arguments become query parameters. */
  predicate QueryVerb(verb: string) {
    verb in ["GET", "DELETE"]
  }

  /** The keyword arguments of the `self._request(...)` call. The two
      optional maps stand for an argument that is `None`. */
  datatype Call = Call(
    verb: string,
    path: string,
    params: Option<Args>,
    json: Option<map<string, Value>>,
    data: Option<map<string, Value>>,
    headers: Value,
    responseModel: Option<Class>)

  /** `return_type if isinstance(return_type, type) and issubclass(return_type,
      BaseModel) else None`. */
  function ResponseModel(ret: Annotation): (m: Option<Class>)
    ensures m.Some? <==> IsModelClass(ret)
    ensures m.Some? ==> ret == Cls(m.value)
  {
    if IsModelClass(ret) then Some(ret.c) else None
  }

  /** The dump of the last model-valued argument, or `None` when no
      argument is a model: the value `body_data` holds after the loop. */
  function LastModelDump(ps: Args): (b: Option<map<string, Value>>)
    ensures b.Some? <==> exists i :: 0 <= i < |ps| && ps[i].val.Model?
    ensures b.Some? ==> exists i :: 0 <= i < |ps| && ps[i].val.Model? && ps[i].val.fields == b.value &&
                                    forall j :: i < j < |ps| ==> !ps[j].val.Model?
    decreases |ps|
  {
    if |ps| == 0 then None
    else
      var last := ps[|ps| - 1];
      if last.val.Model? then Some(last.val.fields)
      else
        var b := LastModelDump(ps[..|ps| - 1]);
        assert forall i :: 0 <= i < |ps| - 1 ==> ps[..|ps| - 1][i] == ps[i];
        b
  }

  /** The arguments that are not models, in signature order. */
  function NonModels(ps: Args): (q: Args)
    ensures |q| <= |ps|
    ensures forall e :: e in q <==> e in ps && !e.val.Model?
    decreases |ps|
  {
    if |ps| == 0 then []
    else
      var q := NonModels(ps[..|ps| - 1]);
      var last := ps[|ps| - 1];
      assert ps == ps[..|ps| - 1] + [last];
      if last.val.Model? then q else q + [last]
  }

  /** The classification loop over the leftover arguments. A model argument
      overwrites `body_data` on a body verb (in form and JSON mode alike);
      any other argument is appended to the query on a query verb; every
      other combination drops the argument. */
  method Classify(verb: string, pool: Args) returns (body: Option<map<string, Value>>, query: Args)
    ensures body == (if BodyVerb(verb) then LastModelDump(pool) else None)
    ensures query == (if QueryVerb(verb) then NonModels(pool) else [])
  {
    body := None;
    query := [];
    var i := 0;
    while i < |pool|
      invariant 0 <= i <= |pool|
      invariant body == (if BodyVerb(verb) then LastModelDump(pool[..i]) else None)
      invariant query == (if QueryVerb(verb) then NonModels(pool[..i]) else [])
    {
      var e := pool[i];
      assert pool[..i + 1][..i] == pool[..i];
      assert pool[..i + 1][i] == e;
      if e.val.Model? {
        if BodyVerb(verb) {
          body := Some(e.val.fields);
        }
      } else {
        if QueryVerb(verb) {
          query := query + [e];
        }
      }
      i := i + 1;
    }
    assert pool[..i] == pool;
  }

  /** The arguments left after `self` and `request_headers` are popped. */
  function Pool(args: Args): Args {
    Remove(Remove(args, "self"), "request_headers")
  }

  /** The arguments left after the placeholder names are popped too. */
  function Leftover(path: string, args: Args): Args {
    RemoveAll(Pool(args), SplitKeys(path))
  }

  /** The `_request` call built from the rendered path, the leftover
      arguments and the popped headers. A query verb sends the non-model
      arguments as the query and no body; a body verb sends no query and
      puts the dump of the last model argument in the slot the form flag
      selects (none when no argument is a model); any other verb sends
      neither. */
  function Assemble(verb: string, formBody: bool, rendered: string, pool: Args, headers: Value,
                    ret: Annotation): (c: Call)
    ensures c.verb == verb && c.path == rendered && c.headers == headers
    ensures c.responseModel.Some? <==> IsModelClass(ret)
    ensures c.params.Some? <==> QueryVerb(verb)
    ensures c.params.Some? ==> forall e :: e in c.params.value <==> e in pool && !e.val.Model?
    ensures c.json.Some? <==> BodyVerb(verb) && !formBody && LastModelDump(pool).Some?
    ensures c.data.Some? <==> BodyVerb(verb) && formBody && LastModelDump(pool).Some?
    ensures c.json.Some? ==> c.json == LastModelDump(pool)
    ensures c.data.Some? ==> c.data == LastModelDump(pool)
    ensures !(c.json.Some? && c.data.Some?)
    ensures !QueryVerb(verb) && !BodyVerb(verb) ==> c.params.None? && c.json.None? && c.data.None?
  {
    var body := if BodyVerb(verb) then LastModelDump(pool) else None;
    Call(
      verb,
      rendered,
      if QueryVerb(verb) then Some(NonModels(pool)) else None,
      if !formBody && BodyVerb(verb) then body else None,
      if formBody && BodyVerb(verb) then body else None,
      headers,
      ResponseModel(ret))
  }

  /** One call of a method decorated with `rest(verb, form_body)(path)`, on
      the bound arguments (defaults applied, `self` included) and the
      method's return annotation; `show` renders a value into the path.
      `self` and `request_headers` are popped first, the path is rendered
      from what is left, and the placeholder names are then popped before
      the remaining arguments are classified. */
  function Invoke(verb: string, formBody: bool, path: string, ret: Annotation, args: Args,
                  show: Value -> string): (r: Result<Call>)
    ensures "self" !in Keys(args) ==> r == Err(KeyError("self"))
    ensures r.Ok? ==> Format(path, ToMap(Pool(args)), show) == Ok(r.value.path)
    ensures r.Ok? ==> r == Ok(Assemble(verb, formBody, r.value.path, Leftover(path, args),
                                       ODict.Get(args, "request_headers").GetOr(Null), ret))
  {
    if "self" !in Keys(args) then Err(KeyError("self"))
    else
      var headers := ODict.Get(args, "request_headers").GetOr(Null);
      var rendered :- Format(path, ToMap(Pool(args)), show);
      Ok(Assemble(verb, formBody, rendered, Leftover(path, args), headers, ret))
  }

  /** Once `self` is present, the call fails exactly when the path cannot
      be rendered: a placeholder with no argument is an error, never left
      in the path. */
  lemma InvokeOk(verb: string, formBody: bool, path: string, ret: Annotation, args: Args, show: Value -> string)
    requires "self" in Keys(args)
    ensures Invoke(verb, formBody, path, ret, args, show).Ok? <==>
      Fields(path).Some? && forall n :: n in Fields(path).value ==> n in Keys(Pool(args))
  {
    FormatOk(path, ToMap(Pool(args)), show);
  }

  /** The leftover arguments are exactly the bound arguments other than
      `self`, `request_headers` and the names the placeholder loop pops, with
      the values they were passed. So `request_headers` is never a query
      parameter or a body, and a path argument is never sent twice. */
  lemma LeftoverContents(path: string, args: Args)
    ensures forall e :: e in Leftover(path, args) <==>
      e in args && e.key !in ["self", "request_headers"] + SplitKeys(path)
  {
  }

  /** A path that renders never names `self` or `request_headers`: both are
      popped before rendering, so such a placeholder has no argument. */
  lemma PoppedNamesNotFields(path: string, args: Args, show: Value -> string)
    requires Format(path, ToMap(Pool(args)), show).Ok?
    ensures Fields(path).Some?
    ensures "self" !in Fields(path).value && "request_headers" !in Fields(path).value
  {
    FormatOk(path, ToMap(Pool(args)), show);
  }

  /** Form mode and JSON mode send the same body: switching the flag moves
      it from `json` to `data` and changes nothing else. */
  lemma FormSwapsSlots(verb: string, path: string, ret: Annotation, args: Args, show: Value -> string, c: Call)
    requires Invoke(verb, false, path, ret, args, show) == Ok(c)
    ensures Invoke(verb, true, path, ret, args, show) == Ok(c.(json := None, data := c.json))
  {
  }

  /** The five bindings at the end of the module: `get` and `delete` fix
      the verb with JSON mode, `post`, `put` and `patch` take the form flag. */
  datatype Endpoint = Endpoint(verb: string, formBody: bool, path: string)

  function Get(path: string): Endpoint { Endpoint("GET", false, path) }
  function Delete(path: string): Endpoint { Endpoint("DELETE", false, path) }
  function Post(path: string, formBody: bool := false): Endpoint { Endpoint("POST", formBody, path) }
  function Put(path: string, formBody: bool := false): Endpoint { Endpoint("PUT", formBody, path) }
  function Patch(path: string, formBody: bool := false): Endpoint { Endpoint("PATCH", formBody, path) }

  /** A call through an endpoint binding. */
  function InvokeEndpoint(e: Endpoint, ret: Annotation, args: Args, show: Value -> string): Result<Call> {
    Invoke(e.verb, e.formBody, e.path, ret, args, show)
  }

  /** The bindings fix the verb; only `post`, `put` and `patch` take a
      form flag, and it defaults to JSON mode. */
  lemma Bindings(path: string, formBody: bool)
    ensures Get(path) == Endpoint("GET", false, path) && Delete(path) == Endpoint("DELETE", false, path)
    ensures Post(path) == Endpoint("POST", false, path) && Post(path, formBody).formBody == formBody
    ensures Put(path, formBody) == Endpoint("PUT", formBody, path)
    ensures Patch(path, formBody) == Endpoint("PATCH", formBody, path)
  {
  }
}
