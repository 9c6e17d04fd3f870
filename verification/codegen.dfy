/** The OpenAPI-to-client generator (pydantic_client/cli.py): OpenAPI 3.0
    Schema Objects (section 4.7.24) and Reference Objects (section 4.7.23)
    become Python type strings and pydantic class text, and each operation
    becomes a decorated method stub. The loaded document is a JSON value
    whose objects keep their key order. */
module Codegen {
  import opened Wrappers
  import opened Text
  import opened ODict

  /** A loaded JSON or YAML value. An object's entries come in document
      order, and a loaded object never repeats a key: `Get` sees the first
      entry for a key, while `Items` visits them all, so members that rely
      on the two agreeing require `Wf` of the entries. */
  datatype Json =
    | JNull
    | JBool(b: bool)
    | JNum(n: int)
    | JStr(s: string)
    | JArr(items: seq<Json>)
    | JObj(entries: seq<Entry<string, Json>>)

  /** Python truthiness of a loaded value. */
  predicate JTruthy(j: Json) {
    match j
    case JNull => false
    case JBool(b) => b
    case JNum(n) => n != 0
    case JStr(s) => s != ""
    case JArr(items) => |items| > 0
    case JObj(entries) => |entries| > 0
  }

  /** `str(j)` inside an f-string: a string is itself; anything else is
      rendered by `show`. */
  function PyStr(j: Json, show: Json -> string): string {
    if j.JStr? then j.s else show(j)
  }

  /** The position of the first entry with key `k`, or -1. */
  function FindKey(es: seq<Entry<string, Json>>, k: string): (i: int)
    ensures -1 <= i < |es|
    ensures i >= 0 ==> es[i].key == k && Get(es, k) == Some(es[i].val)
    ensures i < 0 ==> Get(es, k) == None && k !in Keys(es)
    decreases |es|
  {
    if |es| == 0 then -1
    else if es[0].key == k then 0
    else
      KeysCons(es);
      var i := FindKey(es[1..], k);
      if i < 0 then -1 else i + 1
  }

  /** `d.get(k, default)` on a loaded mapping. */
  function GetOr(es: seq<Entry<string, Json>>, k: string, default: Json): (v: Json)
    ensures Get(es, k).Some? ==> v == Get(es, k).value
    ensures Get(es, k).None? ==> v == default
  {
    match Get(es, k)
    case Some(x) => x
    case None => default
  }

  /** `j.get(k, default)`: only a mapping has `get`. */
  function JGet(j: Json, k: string, default: Json): (r: Result<Json>)
    ensures r.Ok? <==> j.JObj?
    ensures r.Ok? ==> r.value == GetOr(j.entries, k, default)
    ensures r.Err? ==> r.error.AttributeError?
  {
    if j.JObj? then Ok(GetOr(j.entries, k, default)) else Err(AttributeError("get"))
  }

  /** `j[k]` with a string key. */
  function JIndex(j: Json, k: string): (r: Result<Json>)
    ensures r.Ok? <==> j.JObj? && k in Keys(j.entries)
    ensures r.Ok? ==> Get(j.entries, k) == Some(r.value)
    ensures j.JObj? && k !in Keys(j.entries) ==> r == Err(KeyError(k))
  {
    if !j.JObj? then Err(TypeError("indices must be integers"))
    else
      var i := FindKey(j.entries, k);
      if i < 0 then Err(KeyError(k)) else Ok(j.entries[i].val)
  }

  /** `k in j`. */
  function JIn(j: Json, k: string): (r: Result<bool>)
    ensures j.JObj? ==> r == Ok(k in Keys(j.entries))
    ensures j.JArr? ==> r == Ok(JStr(k) in j.items)
    ensures j.JStr? ==> r == Ok(ContainsSub(j.s, k))
    ensures j.JNull? || j.JBool? || j.JNum? ==> r.Err? && r.error.TypeError?
  {
    match j
    case JObj(es) => Ok(k in Keys(es))
    case JArr(items) => Ok(JStr(k) in items)
    case JStr(s) => Ok(ContainsSub(s, k))
    case _ => Err(TypeError("argument is not iterable"))
  }

  /** `j.items()`: only a mapping has `items`. */
  function Items(j: Json): (r: Result<seq<Entry<string, Json>>>)
    ensures r.Ok? <==> j.JObj?
    ensures r.Ok? ==> r.value == j.entries
  {
    if j.JObj? then Ok(j.entries) else Err(AttributeError("items"))
  }

  /** What `for x in j` visits: the items of a list, the keys of a mapping,
      the characters of a string. */
  function Iterate(j: Json): (r: Result<seq<Json>>)
    ensures r.Ok? <==> j.JArr? || j.JObj? || j.JStr?
    ensures j.JArr? ==> r == Ok(j.items)
    ensures j.JObj? ==> r.Ok? && |r.value| == |j.entries| &&
                        forall i :: 0 <= i < |j.entries| ==> r.value[i] == JStr(j.entries[i].key)
  {
    match j
    case JArr(items) => Ok(items)
    case JObj(es) => Ok(seq(|es|, i requires 0 <= i < |es| => JStr(es[i].key)))
    case JStr(s) => Ok(seq(|s|, i requires 0 <= i < |s| => JStr([s[i]])))
    case _ => Err(TypeError("object is not iterable"))
  }

  /** `ref.split("/")[-1]`: the name a Reference Object points at. */
  function RefName(ref: Json): (r: Result<string>)
    ensures r.Ok? <==> ref.JStr?
    ensures r.Ok? ==> '/' !in r.value && EndsWith(ref.s, r.value)
    ensures r.Ok? && |r.value| < |ref.s| ==> ref.s[|ref.s| - |r.value| - 1] == '/'
  {
    if ref.JStr? then Ok(AfterLast(ref.s, '/')) else Err(AttributeError("split"))
  }

  /** The primitive part of `openapi_type_to_py`'s table, with `Any` for
      any other hashable type value. */
  function PrimitiveType(typ: Json): string {
    if typ == JStr("string") then "str"
    else if typ == JStr("integer") then "int"
    else if typ == JStr("number") then "float"
    else if typ == JStr("boolean") then "bool"
    else if typ == JStr("object") then "dict"
    else "Any"
  }

  /** `openapi_type_to_py(schema, models)`; `models` is never read. A
      reference wins over everything else; an array wraps its item type
      (`dict` for a missing `items`); a missing `type` means object. A
      schema that is not a mapping fails: with AttributeError when it gets
      as far as `.get`, and with TypeError otherwise. */
  function TypeToPy(schema: Json): (r: Result<string>)
    ensures r.Ok? ==> schema.JObj?
    ensures !schema.JObj? ==> r.Err? && (r.error.AttributeError? <==> ReachesGet(schema))
    ensures !schema.JObj? && !ReachesGet(schema) ==> r.Err? && r.error.TypeError?
    decreases schema
  {
    if !schema.JObj? then Err(NonMappingError(schema))
    else
      var es := schema.entries;
      var ri := FindKey(es, "$ref");
      if ri >= 0 then RefName(es[ri].val)
      else
        var ti := FindKey(es, "type");
        var typ := if ti >= 0 then es[ti].val else JStr("object");
        if typ == JStr("array") then
          var ii := FindKey(es, "items");
          if ii < 0 then Ok("List[dict]")
          else
            var inner :- TypeToPy(es[ii].val);
            Ok("List[" + inner + "]")
        else if typ.JArr? || typ.JObj? then Err(TypeError("unhashable type"))
        else Ok(PrimitiveType(typ))
  }

  /** A non-mapping schema that passes the `"$ref" in schema` test
      without containing `"$ref"`, so that `schema.get` is reached: a
      string without that substring, or a list without that element. */
  predicate ReachesGet(schema: Json) {
    (schema.JStr? && !ContainsSub(schema.s, "$ref")) ||
    (schema.JArr? && JStr("$ref") !in schema.items)
  }

  /** What `openapi_type_to_py` raises for a schema that is not a mapping:
      `in` on `None`, a number or a bool is a TypeError; a string or list
      that contains `"$ref"` fails on the string index `schema["$ref"]`;
      any other string or list has no `.get`. */
  function NonMappingError(schema: Json): Error
    requires !schema.JObj?
  {
    match schema
    case JStr(t) =>
      if ContainsSub(t, "$ref") then TypeError("string indices must be integers") else AttributeError("get")
    case JArr(items) =>
      if JStr("$ref") in items then TypeError("list indices must be integers") else AttributeError("get")
    case _ => TypeError("argument is not iterable")
  }

  /** A reference wins over everything else. */
  lemma RefCase(es: seq<Entry<string, Json>>)
    requires Get(es, "$ref").Some?
    ensures TypeToPy(JObj(es)) == RefName(Get(es, "$ref").value)
  {
    var ri := FindKey(es, "$ref");
  }

  /** Without a reference: a missing `type` means object; an array wraps its
      item type (`dict` for a missing `items`) and fails exactly when the
      item schema does; any other hashable `type` goes through the table. */
  lemma TypeCases(es: seq<Entry<string, Json>>)
    requires Get(es, "$ref").None?
    ensures Get(es, "type").None? ==> TypeToPy(JObj(es)) == Ok("dict")
    ensures Get(es, "type") == Some(JStr("array")) && Get(es, "items").None? ==> TypeToPy(JObj(es)) == Ok("List[dict]")
    ensures Get(es, "type") == Some(JStr("array")) && Get(es, "items").Some? ==>
      var inner := TypeToPy(Get(es, "items").value);
      (TypeToPy(JObj(es)).Ok? <==> inner.Ok?) &&
      (inner.Ok? ==> TypeToPy(JObj(es)) == Ok("List[" + inner.value + "]"))
    ensures (Get(es, "type").Some? && Get(es, "type").value != JStr("array") &&
             !Get(es, "type").value.JArr? && !Get(es, "type").value.JObj?) ==>
      TypeToPy(JObj(es)) == Ok(PrimitiveType(Get(es, "type").value))
  {
    var ri := FindKey(es, "$ref");
    var ti := FindKey(es, "type");
    var ii := FindKey(es, "items");
  }

  /** `{"type": "array", "items": items}`. */
  function ArrayOf(items: Json): Json {
    JObj([Entry("type", JStr("array")), Entry("items", items)])
  }

  /** A nested array schema translates to nested `List[...]`. */
  lemma ArrayOfType(items: Json)
    ensures TypeToPy(ArrayOf(items)).Ok? <==> TypeToPy(items).Ok?
    ensures TypeToPy(items).Ok? ==> TypeToPy(ArrayOf(items)) == Ok("List[" + TypeToPy(items).value + "]")
  {
    var es := ArrayOf(items).entries;
    assert Get(es, "$ref") == None;
    assert Get(es, "type") == Some(JStr("array"));
    assert Get(es, "items") == Some(items);
    TypeCases(es);
  }

  /** An empty schema is an object, so a missing `items` is the same as
      `items: {}`. */
  lemma EmptySchemaIsDict()
    ensures TypeToPy(JObj([])) == Ok("dict")
    ensures TypeToPy(JObj([Entry("type", JStr("array"))])) == Ok("List[dict]")
    ensures TypeToPy(ArrayOf(JObj([]))) == Ok("List[dict]")
  {
    TypeCases([]);
    assert "List[" + "dict" + "]" == "List[dict]";
    ArrayOfType(JObj([]));
    var es := [Entry("type", JStr("array"))];
    assert Get(es, "$ref") == None && Get(es, "items") == None && Get(es, "type") == Some(JStr("array"));
    TypeCases(es);
  }

  /** A reference wins whatever `type` says. */
  lemma RefWinsOverType(ref: string, typ: Json)
    ensures TypeToPy(JObj([Entry("type", typ), Entry("$ref", JStr(ref))])) == Ok(AfterLast(ref, '/'))
  {
    var es := [Entry("type", typ), Entry("$ref", JStr(ref))];
    assert Get(es, "$ref") == Some(JStr(ref));
    RefCase(es);
  }

  /** One line of a generated class body. */
  function FieldLine(field: string, typ: string, required: bool): string {
    "    " + field + ": " + typ + (if required then "" else " = None")
  }

  /** The line `gen_pydantic_model` emits for one property; the property's
      schema is translated before the `field in required` test. */
  function FieldLineOf(prop: Entry<string, Json>, required: Json): (r: Result<string>)
    ensures r.Ok? <==> TypeToPy(prop.val).Ok? && JIn(required, prop.key).Ok?
    ensures TypeToPy(prop.val).Err? ==> r == Err(TypeToPy(prop.val).error)
    ensures r.Ok? ==> r.value == FieldLine(prop.key, TypeToPy(prop.val).value, JIn(required, prop.key).value)
  {
    var typ :- TypeToPy(prop.val);
    var req :- JIn(required, prop.key);
    Ok(FieldLine(prop.key, typ, req))
  }

  /** The field lines of `gen_pydantic_model`, one per property, in
      property order; the first failing property's error wins. */
  function FieldLines(props: seq<Entry<string, Json>>, required: Json): (r: Result<seq<string>>)
    ensures r.Ok? <==> forall i :: 0 <= i < |props| ==> FieldLineOf(props[i], required).Ok?
    ensures r.Ok? ==> |r.value| == |props|
    ensures r.Ok? ==> forall i :: 0 <= i < |props| ==> FieldLineOf(props[i], required) == Ok(r.value[i])
    decreases |props|
  {
    if |props| == 0 then Ok([])
    else
      var rest := FieldLines(props[1..], required);
      assert forall i :: 0 < i < |props| ==> props[i] == props[1..][i - 1];
      var line :- FieldLineOf(props[0], required);
      var tail :- rest;
      Ok([line] + tail)
  }

  /** The class text `gen_pydantic_model` returns for given body lines. */
  function ClassText(name: string, lines: seq<string>): string {
    "class " + name + "(BaseModel):\n" + Join(lines, "\n") + "\n"
  }

  /** `gen_pydantic_model(name, schema, models)`: required properties get no
      default, the others ` = None`; no properties gives a `pass` body. */
  function GenModel(name: string, schema: Json): (r: Result<string>)
    ensures r.Ok? <==> schema.JObj? && GetOr(schema.entries, "properties", JObj([])).JObj? &&
                       FieldLines(GetOr(schema.entries, "properties", JObj([])).entries,
                                  GetOr(schema.entries, "required", JArr([]))).Ok?
    ensures r.Ok? ==> var props := GetOr(schema.entries, "properties", JObj([])).entries;
      var lines := FieldLines(props, GetOr(schema.entries, "required", JArr([]))).value;
      r.value == ClassText(name, if |props| == 0 then ["    pass"] else lines)
  {
    if !schema.JObj? then Err(AttributeError("get"))
    else
      var required := GetOr(schema.entries, "required", JArr([]));
      var properties := GetOr(schema.entries, "properties", JObj([]));
      var props :- Items(properties);
      var lines :- FieldLines(props, required);
      Ok(ClassText(name, if |lines| == 0 then ["    pass"] else lines))
  }

  /** The class text splits back, line by line, into the header, the body
      lines and a final empty piece, when no name or type holds a newline. */
  lemma ClassTextLines(name: string, lines: seq<string>)
    requires |lines| >= 1
    requires '\n' !in name && forall l :: l in lines ==> '\n' !in l
    ensures Split(ClassText(name, lines), '\n') == ["class " + name + "(BaseModel):"] + lines + [""]
  {
    var header := "class " + name + "(BaseModel):";
    var parts := [header] + lines + [""];
    JoinCons(header, lines + [""], "\n");
    JoinAppendEmpty(lines, "\n");
    assert parts == [header] + (lines + [""]);
    assert ClassText(name, lines) == Join(parts, "\n");
    SplitJoin(parts, '\n');
  }

  lemma {:induction false} JoinAppendEmpty(parts: seq<string>, sep: string)
    requires |parts| >= 1
    ensures Join(parts + [""], sep) == Join(parts, sep) + sep
    decreases |parts|
  {
    if |parts| == 1 {
      assert parts + [""] == [parts[0], ""];
    } else {
      JoinAppendEmpty(parts[1..], sep);
      assert (parts + [""])[1..] == parts[1..] + [""];
    }
  }

  /** `collect_models(components)`: one class text per schema, stored in
      document order. */
  function CollectFrom(schemas: seq<Entry<string, Json>>, acc: seq<Entry<string, string>>)
    : (r: Result<seq<Entry<string, string>>>)
    ensures r.Ok? <==> forall i :: 0 <= i < |schemas| ==> GenModel(schemas[i].key, schemas[i].val).Ok?
    ensures r.Ok? ==> forall k :: k in Keys(r.value) <==> k in Keys(acc) || k in Keys(schemas)
    decreases |schemas|
  {
    if |schemas| == 0 then Ok(acc)
    else
      var rest := schemas[1..];
      assert forall i :: 0 < i < |schemas| ==> schemas[i] == rest[i - 1];
      KeysCons(schemas);
      var m :- GenModel(schemas[0].key, schemas[0].val);
      CollectFrom(rest, Put(acc, schemas[0].key, m))
  }

  function CollectModels(components: Json): (r: Result<seq<Entry<string, string>>>)
    ensures r.Ok? ==> components.JObj? && forall k :: k in Keys(r.value) <==> k in Keys(components.entries)
  {
    var schemas :- Items(components);
    CollectFrom(schemas, [])
  }

  /** With distinct schema names, every name's class text is the one
      `gen_pydantic_model` produces for its schema. */
  lemma {:induction false} CollectFromContents(schemas: seq<Entry<string, Json>>, acc: seq<Entry<string, string>>,
                                               k: string)
    requires Wf(schemas)
    requires CollectFrom(schemas, acc).Ok?
    ensures Get(schemas, k).Some? ==>
      Get(CollectFrom(schemas, acc).value, k) == Some(GenModel(k, Get(schemas, k).value).value)
    ensures Get(schemas, k).None? ==> Get(CollectFrom(schemas, acc).value, k) == Get(acc, k)
    decreases |schemas|
  {
    if |schemas| > 0 {
      KeysCons(schemas);
      var rest := schemas[1..];
      var m := GenModel(schemas[0].key, schemas[0].val).value;
      var acc' := Put(acc, schemas[0].key, m);
      assert CollectFrom(schemas, acc) == CollectFrom(rest, acc');
      CollectFromContents(rest, acc', k);
      PutGet(acc, schemas[0].key, m, k);
      if k == schemas[0].key {
        RestLacksHead(schemas);
      }
    }
  }

  lemma RestLacksHead(schemas: seq<Entry<string, Json>>)
    requires |schemas| > 0 && Wf(schemas)
    ensures Get(schemas[1..], schemas[0].key).None?
  {
    KeysCons(schemas);
  }

  /** `method_decorator(method)`: the five lower-case verbs map to the
      decorator of the same name; anything else is a `KeyError`. */
  function MethodDecorator(verb: string): (r: Result<string>)
    ensures r.Ok? <==> verb in ["get", "post", "put", "patch", "delete"]
    ensures r.Ok? ==> r.value == verb
    ensures r.Err? ==> r.error == KeyError(verb)
  {
    if verb in ["get", "post", "put", "patch", "delete"] then Ok(verb) else Err(KeyError(verb))
  }

  /** The shared test of `get_req_model` and `get_resp_model`: a truthy
      schema holding `$ref` names the referenced model. */
  function SchemaRef(schema: Json): (r: Result<Option<string>>)
    ensures !JTruthy(schema) ==> r == Ok(None)
    ensures schema.JObj? && JTruthy(schema) ==>
      (Get(schema.entries, "$ref").None? ==> r == Ok(None)) &&
      (Get(schema.entries, "$ref").Some? ==>
        (r.Ok? <==> Get(schema.entries, "$ref").value.JStr?) &&
        (r.Ok? ==> r.value == Some(RefName(Get(schema.entries, "$ref").value).value)))
  {
    if !JTruthy(schema) then Ok(None)
    else
      var isRef :- JIn(schema, "$ref");
      if !isRef then Ok(None)
      else
        var ref :- JIndex(schema, "$ref");
        var name :- RefName(ref);
        Ok(Some(name))
  }

  function FirstRef(content: seq<Entry<string, Json>>): (r: Result<Option<string>>)
    ensures r.Ok? && r.value.Some? ==> '/' !in r.value.value
    decreases |content|
  {
    if |content| == 0 then Ok(None)
    else
      var schema :- JGet(content[0].val, "schema", JNull);
      var found :- SchemaRef(schema);
      if found.Some? then Ok(found) else FirstRef(content[1..])
  }

  /** `get_req_model(operation)`: the first media type of the request body
      whose schema is a reference, or `None`. */
  function GetReqModel(op: Json): (r: Result<Option<string>>)
    ensures r.Ok? ==> op.JObj?
    ensures r.Ok? && r.value.Some? ==> '/' !in r.value.value
    ensures op.JObj? && Get(op.entries, "requestBody").None? ==> r == Ok(None)
  {
    var body :- JGet(op, "requestBody", JObj([]));
    var content :- JGet(body, "content", JObj([]));
    var media :- Items(content);
    FirstRef(media)
  }

  lemma ListNoSlash(name: string)
    requires '/' !in name
    ensures '/' !in "List[" + name + "]"
  {
    var s := "List[" + name + "]";
    assert forall i :: 0 <= i < |s| ==> s[i] == '/' ==> 5 <= i < |s| - 1 && s[i] == name[i - 5];
  }

  /** One media type of a response: its schema's reference, or, for an
      array whose items are a reference, `List[...]` around that name. */
  function RespOfMedia(obj: Json): (r: Result<Option<string>>)
    ensures r.Ok? && r.value.Some? ==> '/' !in r.value.value
  {
    var schema :- JGet(obj, "schema", JNull);
    var found :- SchemaRef(schema);
    if found.Some? then Ok(found)
    else if !JTruthy(schema) then Ok(None)
    else ArrayOfRef(schema)
  }

  /** The array branch of the response lookup: `List[...]` around the
      name of the items' reference, `None` for any other schema. */
  function ArrayOfRef(schema: Json): (r: Result<Option<string>>)
    ensures r.Ok? && r.value.Some? ==> '/' !in r.value.value
  {
    var typ :- JGet(schema, "type", JNull);
    if typ != JStr("array") then Ok(None)
    else
      var items :- JIndex(schema, "items");
      var itemRef :- JIn(items, "$ref");
      if !itemRef then Ok(None)
      else
        var ref :- JIndex(items, "$ref");
        var name :- RefName(ref);
        ListNoSlash(name);
        Ok(Some("List[" + name + "]"))
  }

  /** The inner loop of `get_resp_model`: the first media type that names
      a model. */
  function RespFromContent(content: seq<Entry<string, Json>>): (r: Result<Option<string>>)
    ensures r.Ok? && r.value.Some? ==> '/' !in r.value.value
    decreases |content|
  {
    if |content| == 0 then Ok(None)
    else
      var found :- RespOfMedia(content[0].val);
      if found.Some? then Ok(found) else RespFromContent(content[1..])
  }

  /** A status code `get_resp_model` looks at. */
  predicate Success(code: string) {
    StartsWith(code, "2")
  }

  function RespFromCodes(responses: seq<Entry<string, Json>>): (r: Result<string>)
    ensures r.Ok? ==> '/' !in r.value
    decreases |responses|
  {
    if |responses| == 0 then Ok("Any")
    else if !Success(responses[0].key) then RespFromCodes(responses[1..])
    else
      var content :- JGet(responses[0].val, "content", JObj([]));
      var media :- Items(content);
      var found :- RespFromContent(media);
      if found.Some? then Ok(found.value) else RespFromCodes(responses[1..])
  }

  /** `get_resp_model(operation)`. */
  function GetRespModel(op: Json): (r: Result<string>)
    ensures r.Ok? ==> op.JObj? && '/' !in r.value
    ensures op.JObj? && Get(op.entries, "responses").None? ==> r == Ok("Any")
  {
    var responses :- JGet(op, "responses", JObj([]));
    var codes :- Items(responses);
    RespFromCodes(codes)
  }

  /** The responses `get_resp_model` reads: those with a 2xx code. */
  function SuccessOnly(responses: seq<Entry<string, Json>>): (s: seq<Entry<string, Json>>)
    ensures forall e :: e in s <==> e in responses && Success(e.key)
    decreases |responses|
  {
    if |responses| == 0 then []
    else if Success(responses[0].key) then [responses[0]] + SuccessOnly(responses[1..])
    else SuccessOnly(responses[1..])
  }

  /** Non-2xx responses are ignored entirely: dropping them changes
      nothing, whatever they hold. */
  lemma {:induction false} OnlySuccessCodesRead(responses: seq<Entry<string, Json>>)
    ensures RespFromCodes(responses) == RespFromCodes(SuccessOnly(responses))
    decreases |responses|
  {
    if |responses| > 0 {
      OnlySuccessCodesRead(responses[1..]);
      if Success(responses[0].key) {
        var s := SuccessOnly(responses);
        assert s[0] == responses[0] && s[1..] == SuccessOnly(responses[1..]);
      }
    }
  }

  /** Which model a media-type object names, stated independently of the
      lookup loops: `SchemaOf` is its `schema` (`None` when absent). */
  function SchemaOf(obj: Json): Json
    requires obj.JObj?
  {
    GetOr(obj.entries, "schema", JNull)
  }

  /** The schema is an object whose `$ref` is the string `ref`. */
  predicate RefMedia(obj: Json, ref: string) {
    obj.JObj? && SchemaOf(obj).JObj? && Get(SchemaOf(obj).entries, "$ref") == Some(JStr(ref))
  }

  /** The schema is absent or empty, or an object without `$ref`. */
  predicate NoRefMedia(obj: Json) {
    obj.JObj? && (!JTruthy(SchemaOf(obj)) || (SchemaOf(obj).JObj? && "$ref" !in Keys(SchemaOf(obj).entries)))
  }

  /** The schema has no `$ref` and is an array whose `items` object has the
      string `$ref` `ref`. */
  predicate ArrayRefMedia(obj: Json, ref: string) {
    NoRefMedia(obj) && SchemaOf(obj).JObj? &&
    Get(SchemaOf(obj).entries, "type") == Some(JStr("array")) &&
    GetOr(SchemaOf(obj).entries, "items", JNull).JObj? &&
    Get(GetOr(SchemaOf(obj).entries, "items", JNull).entries, "$ref") == Some(JStr(ref))
  }

  /** Neither form: no `$ref`, and not an array whose items object has one. */
  predicate PlainMedia(obj: Json) {
    NoRefMedia(obj) &&
    (JTruthy(SchemaOf(obj)) ==>
      GetOr(SchemaOf(obj).entries, "type", JNull) != JStr("array") ||
      (GetOr(SchemaOf(obj).entries, "items", JNull).JObj? &&
       "$ref" !in Keys(GetOr(SchemaOf(obj).entries, "items", JNull).entries)))
  }

  lemma SchemaRefOf(obj: Json, ref: string)
    requires RefMedia(obj, ref)
    ensures SchemaRef(SchemaOf(obj)) == Ok(Some(AfterLast(ref, '/')))
  {
    assert "$ref" in Keys(SchemaOf(obj).entries);
  }

  /** `get_req_model`'s loop returns the reference of the first media type
      that has one, skipping those without. */
  lemma {:induction false} FirstRefAt(media: seq<Entry<string, Json>>, i: nat, ref: string)
    requires i < |media| && RefMedia(media[i].val, ref)
    requires forall j :: 0 <= j < i ==> NoRefMedia(media[j].val)
    ensures FirstRef(media) == Ok(Some(AfterLast(ref, '/')))
    decreases i
  {
    if i == 0 {
      SchemaRefOf(media[0].val, ref);
    } else {
      assert NoRefMedia(media[0].val);
      assert forall j :: 0 <= j < i - 1 ==> media[1..][j] == media[j + 1];
      FirstRefAt(media[1..], i - 1, ref);
    }
  }

  lemma {:induction false} FirstRefNone(media: seq<Entry<string, Json>>)
    requires forall j :: 0 <= j < |media| ==> NoRefMedia(media[j].val)
    ensures FirstRef(media) == Ok(None)
    decreases |media|
  {
    if |media| > 0 {
      assert NoRefMedia(media[0].val);
      assert forall j :: 0 <= j < |media| - 1 ==> media[1..][j] == media[j + 1];
      FirstRefNone(media[1..]);
    }
  }

  /** `get_req_model` names the model of the first media type of the
      request body whose schema has a `$ref`: the reference's last segment;
      it gives `None` when no media type has one. */
  lemma ReqModelOf(op: Json, body: Json, media: seq<Entry<string, Json>>, i: nat, ref: string)
    requires op.JObj? && Get(op.entries, "requestBody") == Some(body)
    requires body.JObj? && Get(body.entries, "content") == Some(JObj(media))
    ensures i < |media| && RefMedia(media[i].val, ref) && (forall j :: 0 <= j < i ==> NoRefMedia(media[j].val)) ==>
      GetReqModel(op) == Ok(Some(AfterLast(ref, '/')))
    ensures (forall j :: 0 <= j < |media| ==> NoRefMedia(media[j].val)) ==> GetReqModel(op) == Ok(None)
  {
    if i < |media| && RefMedia(media[i].val, ref) && (forall j :: 0 <= j < i ==> NoRefMedia(media[j].val)) {
      FirstRefAt(media, i, ref);
    }
    if forall j :: 0 <= j < |media| ==> NoRefMedia(media[j].val) {
      FirstRefNone(media);
    }
  }

  /** One media type of a response, for each of the three forms. */
  lemma RefMediaModel(obj: Json, ref: string)
    requires RefMedia(obj, ref)
    ensures RespOfMedia(obj) == Ok(Some(AfterLast(ref, '/')))
  {
    SchemaRefOf(obj, ref);
  }

  lemma ArrayMediaModel(obj: Json, ref: string)
    requires ArrayRefMedia(obj, ref)
    ensures RespOfMedia(obj) == Ok(Some("List[" + AfterLast(ref, '/') + "]"))
  {
    var schema := SchemaOf(obj);
    assert "type" in Keys(schema.entries);
    ArrayItemsModel(schema, GetOr(schema.entries, "items", JNull), ref);
    assert RespOfMedia(obj) == ArrayOfRef(schema);
  }

  lemma ArrayItemsModel(schema: Json, items: Json, ref: string)
    requires schema.JObj? && Get(schema.entries, "type") == Some(JStr("array"))
    requires Get(schema.entries, "items") == Some(items)
    requires items.JObj? && Get(items.entries, "$ref") == Some(JStr(ref))
    ensures ArrayOfRef(schema) == Ok(Some("List[" + AfterLast(ref, '/') + "]"))
  {
    assert "items" in Keys(schema.entries) && "$ref" in Keys(items.entries);
  }

  lemma PlainMediaModel(obj: Json)
    requires PlainMedia(obj)
    ensures RespOfMedia(obj) == Ok(None)
  {
  }

  lemma ContentStep(media: seq<Entry<string, Json>>)
    requires |media| > 0 && RespOfMedia(media[0].val) == Ok(None)
    ensures RespFromContent(media) == RespFromContent(media[1..])
  {
  }

  lemma ContentHead(media: seq<Entry<string, Json>>, name: string)
    requires |media| > 0 && RespOfMedia(media[0].val) == Ok(Some(name))
    ensures RespFromContent(media) == Ok(Some(name))
  {
  }

  /** The inner loop of `get_resp_model` returns the model of the first
      media type naming one, and `None` when none does. */
  lemma {:induction false} ContentFirst(media: seq<Entry<string, Json>>, i: nat, name: string)
    requires i < |media| && RespOfMedia(media[i].val) == Ok(Some(name))
    requires forall j :: 0 <= j < i ==> RespOfMedia(media[j].val) == Ok(None)
    ensures RespFromContent(media) == Ok(Some(name))
    decreases i
  {
    if i == 0 {
      ContentHead(media, name);
    } else {
      ContentStep(media);
      var rest := media[1..];
      forall j | 0 <= j < i - 1
        ensures RespOfMedia(rest[j].val) == Ok(None)
      {
        assert rest[j] == media[j + 1];
      }
      ContentFirst(rest, i - 1, name);
    }
  }

  lemma {:induction false} ContentNone(media: seq<Entry<string, Json>>)
    requires forall j :: 0 <= j < |media| ==> RespOfMedia(media[j].val) == Ok(None)
    ensures RespFromContent(media) == Ok(None)
    decreases |media|
  {
    if |media| > 0 {
      ContentStep(media);
      assert forall j :: 0 <= j < |media| - 1 ==> media[1..][j] == media[j + 1];
      ContentNone(media[1..]);
    }
  }

  /** The `content` of a response, `{}` when absent. */
  function ContentOf(resp: Json): Json
    requires resp.JObj?
  {
    GetOr(resp.entries, "content", JObj([]))
  }

  /** A response `get_resp_model` passes over: not a 2xx code, or every
      media type of its content names no model. */
  predicate SilentResponse(e: Entry<string, Json>) {
    !Success(e.key) ||
    (e.val.JObj? && ContentOf(e.val).JObj? &&
     forall j :: 0 <= j < |ContentOf(e.val).entries| ==> PlainMedia(ContentOf(e.val).entries[j].val))
  }

  lemma SilentNone(e: Entry<string, Json>)
    requires Success(e.key) && SilentResponse(e)
    ensures RespFromContent(ContentOf(e.val).entries) == Ok(None)
  {
    var media := ContentOf(e.val).entries;
    forall j | 0 <= j < |media|
      ensures RespOfMedia(media[j].val) == Ok(None)
    {
      PlainMediaModel(media[j].val);
    }
    ContentNone(media);
  }

  /** Media type `i` of response `k` is the first place a model can be
      named: response `k` is 2xx with content `media`, every response
      before it is silent and every media type before `i` is plain. */
  predicate FirstModelAt(codes: seq<Entry<string, Json>>, k: nat, media: seq<Entry<string, Json>>, i: nat) {
    k < |codes| && Success(codes[k].key) &&
    codes[k].val.JObj? && Get(codes[k].val.entries, "content") == Some(JObj(media)) &&
    i < |media| && (forall j :: 0 <= j < i ==> PlainMedia(media[j].val)) &&
    (forall j :: 0 <= j < k ==> SilentResponse(codes[j]))
  }

  lemma CodesStep(codes: seq<Entry<string, Json>>)
    requires |codes| > 0 && SilentResponse(codes[0])
    ensures RespFromCodes(codes) == RespFromCodes(codes[1..])
  {
    if Success(codes[0].key) {
      SilentNone(codes[0]);
    }
  }

  lemma CodesHead(codes: seq<Entry<string, Json>>, media: seq<Entry<string, Json>>, name: string)
    requires |codes| > 0 && Success(codes[0].key)
    requires codes[0].val.JObj? && Get(codes[0].val.entries, "content") == Some(JObj(media))
    requires RespFromContent(media) == Ok(Some(name))
    ensures RespFromCodes(codes) == Ok(name)
  {
    assert ContentOf(codes[0].val) == JObj(media);
  }

  /** A media list whose first naming entry is `i`, the others before it
      plain, names what entry `i` names. */
  lemma PlainThenFirst(media: seq<Entry<string, Json>>, i: nat, name: string)
    requires i < |media| && RespOfMedia(media[i].val) == Ok(Some(name))
    requires forall j :: 0 <= j < i ==> PlainMedia(media[j].val)
    ensures RespFromContent(media) == Ok(Some(name))
  {
    forall j | 0 <= j < i
      ensures RespOfMedia(media[j].val) == Ok(None)
    {
      PlainMediaModel(media[j].val);
    }
    ContentFirst(media, i, name);
  }

  /** The outer loop of `get_resp_model` returns what the first 2xx
      response naming a model names. */
  lemma {:induction false} CodesFirst(codes: seq<Entry<string, Json>>, k: nat, media: seq<Entry<string, Json>>, name: string)
    requires k < |codes| && Success(codes[k].key)
    requires codes[k].val.JObj? && Get(codes[k].val.entries, "content") == Some(JObj(media))
    requires RespFromContent(media) == Ok(Some(name))
    requires forall j :: 0 <= j < k ==> SilentResponse(codes[j])
    ensures RespFromCodes(codes) == Ok(name)
    decreases k
  {
    if k == 0 {
      CodesHead(codes, media, name);
    } else {
      CodesStep(codes);
      var rest := codes[1..];
      forall j | 0 <= j < k - 1
        ensures SilentResponse(rest[j])
      {
        assert rest[j] == codes[j + 1];
      }
      CodesFirst(rest, k - 1, media, name);
    }
  }

  lemma {:induction false} CodesNone(codes: seq<Entry<string, Json>>)
    requires forall j :: 0 <= j < |codes| ==> SilentResponse(codes[j])
    ensures RespFromCodes(codes) == Ok("Any")
    decreases |codes|
  {
    if |codes| > 0 {
      CodesStep(codes);
      assert forall j :: 0 <= j < |codes| - 1 ==> codes[1..][j] == codes[j + 1];
      CodesNone(codes[1..]);
    }
  }

  /** `get_resp_model` names the model of the first media type, in the
      first 2xx response that has one, whose schema has a `$ref` (its last
      segment) or is an array of `$ref` items (`List[...]` of it); with no
      such media type it gives `Any`. */
  lemma RespModelOf(op: Json, codes: seq<Entry<string, Json>>, k: nat, media: seq<Entry<string, Json>>, i: nat, ref: string)
    requires op.JObj? && Get(op.entries, "responses") == Some(JObj(codes))
    ensures FirstModelAt(codes, k, media, i) && RefMedia(media[i].val, ref) ==>
      GetRespModel(op) == Ok(AfterLast(ref, '/'))
    ensures FirstModelAt(codes, k, media, i) && ArrayRefMedia(media[i].val, ref) ==>
      GetRespModel(op) == Ok("List[" + AfterLast(ref, '/') + "]")
    ensures (forall j :: 0 <= j < |codes| ==> SilentResponse(codes[j])) ==> GetRespModel(op) == Ok("Any")
  {
    if FirstModelAt(codes, k, media, i) && RefMedia(media[i].val, ref) {
      RefMediaModel(media[i].val, ref);
      PlainThenFirst(media, i, AfterLast(ref, '/'));
      CodesFirst(codes, k, media, AfterLast(ref, '/'));
    }
    if FirstModelAt(codes, k, media, i) && ArrayRefMedia(media[i].val, ref) {
      var name := "List[" + AfterLast(ref, '/') + "]";
      ArrayMediaModel(media[i].val, ref);
      PlainThenFirst(media, i, name);
      CodesFirst(codes, k, media, name);
    }
    if forall j :: 0 <= j < |codes| ==> SilentResponse(codes[j]) {
      CodesNone(codes);
    }
  }

  /** A parameter `parse_parameters` skips: an old-style body parameter. */
  predicate BodyParam(p: Json) {
    p.JObj? && Get(p.entries, "in") == Some(JStr("body"))
  }

  /** The text `parse_parameters` emits for one parameter: `p["name"]` is
      required; `required` defaults to false and `schema` to `{}`. */
  function ParamLine(p: Json, show: Json -> string): (r: Result<string>)
    ensures r.Ok? ==> p.JObj? && "name" in Keys(p.entries)
    ensures p.JObj? && "name" !in Keys(p.entries) ==> r == Err(KeyError("name"))
    ensures r.Ok? ==> var name := PyStr(Get(p.entries, "name").value, show);
      var typ := TypeToPy(GetOr(p.entries, "schema", JObj([])));
      var tail := if JTruthy(GetOr(p.entries, "required", JBool(false))) then "" else " = None";
      typ.Ok? && r.value == name + ": " + typ.value + tail
  {
    var name :- JIndex(p, "name");
    var required := GetOr(p.entries, "required", JBool(false));
    var schema := GetOr(p.entries, "schema", JObj([]));
    var typ :- TypeToPy(schema);
    Ok(PyStr(name, show) + ": " + typ + (if JTruthy(required) then "" else " = None"))
  }

  /** The loop of `parse_parameters`: `p.get("in")` needs a mapping. */
  function ParamLines(ps: seq<Json>, show: Json -> string): (r: Result<seq<string>>)
    ensures r.Ok? ==> forall i :: 0 <= i < |ps| ==> ps[i].JObj?
    decreases |ps|
  {
    if |ps| == 0 then Ok([])
    else if !ps[0].JObj? then Err(AttributeError("get"))
    else if BodyParam(ps[0]) then
      var rest := ParamLines(ps[1..], show);
      assert forall i :: 0 < i < |ps| ==> ps[i] == ps[1..][i - 1];
      rest
    else
      var line :- ParamLine(ps[0], show);
      var rest := ParamLines(ps[1..], show);
      assert forall i :: 0 < i < |ps| ==> ps[i] == ps[1..][i - 1];
      var tail :- rest;
      Ok([line] + tail)
  }

  /** `parse_parameters(parameters)`. Only a list can give lines: the
      items of a mapping or a string are strings, which have no `.get`, so
      those succeed only when empty. */
  function ParseParameters(parameters: Json, show: Json -> string): (r: Result<seq<string>>)
    ensures r.Ok? ==> parameters.JArr? || parameters == JObj([]) || parameters == JStr("")
    ensures r.Ok? && !parameters.JArr? ==> r.value == []
    ensures r.Ok? && parameters.JArr? ==>
      |r.value| == |NonBody(parameters.items)| &&
      forall i :: 0 <= i < |r.value| ==> ParamLine(NonBody(parameters.items)[i], show) == Ok(r.value[i])
  {
    var ps :- Iterate(parameters);
    var r := ParamLines(ps, show);
    if r.Ok? then
      ParamLinesSkipBody(ps, show);
      assert |ps| > 0 ==> ps[0].JObj?;
      r
    else
      r
  }

  /** The parameters that are not body parameters, in order. */
  function NonBody(ps: seq<Json>): (q: seq<Json>)
    ensures forall p :: p in q <==> p in ps && !BodyParam(p)
    decreases |ps|
  {
    if |ps| == 0 then []
    else if BodyParam(ps[0]) then NonBody(ps[1..])
    else [ps[0]] + NonBody(ps[1..])
  }

  /** `parse_parameters` emits one line per non-body parameter, in order,
      each the line that parameter alone produces. */
  lemma {:induction false} ParamLinesSkipBody(ps: seq<Json>, show: Json -> string)
    requires ParamLines(ps, show).Ok?
    ensures |ParamLines(ps, show).value| == |NonBody(ps)|
    ensures forall i :: 0 <= i < |NonBody(ps)| ==> ParamLine(NonBody(ps)[i], show) == Ok(ParamLines(ps, show).value[i])
    decreases |ps|
  {
    if |ps| > 0 {
      ParamLinesSkipBody(ps[1..], show);
      var q := NonBody(ps);
      var r := ParamLines(ps, show).value;
      if !BodyParam(ps[0]) {
        assert q == [ps[0]] + NonBody(ps[1..]);
        assert r == [ParamLine(ps[0], show).value] + ParamLines(ps[1..], show).value;
        forall i | 0 <= i < |q|
          ensures ParamLine(q[i], show) == Ok(r[i])
        {
          if i > 0 {
            assert q[i] == NonBody(ps[1..])[i - 1];
          }
        }
      }
    }
  }

  /** `client_type.lower() in ["aiohttp", "httpx"]`. */
  predicate IsAsyncClient(clientType: string) {
    Lower(clientType) in ["aiohttp", "httpx"]
  }

  /** The method parameters: `self`, the parameter lines, and the request
      model as `<lower-cased name>: <Name>` when there is a (non-empty)
      one. */
  function SignatureParams(paramStrs: seq<string>, reqModel: Option<string>): (ps: seq<string>)
    ensures |ps| >= 1 && ps[0] == "self"
    ensures reqModel.Some? && reqModel.value != "" ==>
      |ps| == |paramStrs| + 2 && ps[|ps| - 1] == Lower(reqModel.value) + ": " + reqModel.value
    ensures !(reqModel.Some? && reqModel.value != "") ==> |ps| == |paramStrs| + 1
    ensures forall i :: 0 <= i < |paramStrs| ==> ps[i + 1] == paramStrs[i]
  {
    if reqModel.Some? && reqModel.value != "" then
      ["self"] + paramStrs + [Lower(reqModel.value) + ": " + reqModel.value]
    else ["self"] + paramStrs
  }

  /** The first line of a generated method. */
  function DecoratorLine(deco: string, path: string): string {
    "    @" + deco + "(\"" + path + "\")\n"
  }

  /** The rest of a generated method after its decorator line and the
      optional `async ` prefix. */
  function DefTail(name: string, params: seq<string>, resp: string, summary: string): (t: string)
    ensures StartsWith(t, "def ")
  {
    "def " + name + "(" + Join(params, ", ") + ") -> " + resp + ":\n" +
    "        \"\"\"" + summary + "\"\"\"\n" +
    "        ...\n"
  }

  /** `generate_method(path, method, operation, client_type)`. The
      unknown-verb `KeyError` comes first; `summary` defaults to the empty
      string and `parameters` to `[]`; a missing `operationId` is a
      `KeyError` once everything else has been computed. */
  function GenerateMethod(path: string, verb: string, op: Json, clientType: string, show: Json -> string)
    : (r: Result<string>)
    ensures MethodDecorator(verb).Err? ==> r == Err(KeyError(verb))
    ensures r.Ok? ==> op.JObj? && "operationId" in Keys(op.entries)
  {
    var deco :- MethodDecorator(verb);
    if !op.JObj? then Err(AttributeError("get"))
    else
      var summary := GetOr(op.entries, "summary", JStr(""));
      var parameters := GetOr(op.entries, "parameters", JArr([]));
      var paramStrs :- ParseParameters(parameters, show);
      var reqModel :- GetReqModel(op);
      var resp :- GetRespModel(op);
      var opid :- JIndex(op, "operationId");
      Ok(MethodText(deco, path, IsAsyncClient(clientType), PyStr(opid, show),
                    SignatureParams(paramStrs, reqModel), resp, PyStr(summary, show)))
  }

  /** The text of a generated method. */
  function MethodText(deco: string, path: string, isAsync: bool, name: string, params: seq<string>, resp: string,
                      summary: string): string {
    DecoratorLine(deco, path) + "    " + (if isAsync then "async " else "") + DefTail(name, params, resp, summary)
  }

  /** A generated method starts with its decorator line, and its `def` line
      carries the `async ` prefix exactly for an asynchronous client. */
  lemma MethodTextShape(deco: string, path: string, isAsync: bool, name: string, params: seq<string>, resp: string,
                        summary: string)
    ensures var text := MethodText(deco, path, isAsync, name, params, resp, summary);
      var line := DecoratorLine(deco, path);
      StartsWith(text, line) &&
      (StartsWith(text[|line|..], "    async def ") <==> isAsync) &&
      (StartsWith(text[|line|..], "    def ") <==> !isAsync)
  {
    var line := DecoratorLine(deco, path);
    var tail := DefTail(name, params, resp, summary);
    var rest := "    " + (if isAsync then "async " else "") + tail;
    var text := MethodText(deco, path, isAsync, name, params, resp, summary);
    assert text == line + rest;
    assert text[..|line|] == line;
    assert text[|line|..] == rest;
    AsyncPrefix(isAsync, tail);
  }

  lemma AsyncPrefix(isAsync: bool, tail: string)
    requires StartsWith(tail, "def ")
    ensures var rest := "    " + (if isAsync then "async " else "") + tail;
      (StartsWith(rest, "    async def ") <==> isAsync) && (StartsWith(rest, "    def ") <==> !isAsync)
  {
    var rest := "    " + (if isAsync then "async " else "") + tail;
    if isAsync {
      assert rest[4] == 'a';
      assert rest[..14] == "    async " + tail[..4];
    } else {
      assert rest[4] == 'd';
      assert rest[..8] == "    " + tail[..4];
    }
  }

  /** Everything a generated method is made of: the decorator for the verb,
      `async` exactly for an asynchronous client, the operationId as name,
      `self` first and the request model last among the parameters, and the
      response model as return annotation. */
  lemma GeneratedMethod(path: string, verb: string, op: Json, clientType: string, show: Json -> string, text: string)
    requires GenerateMethod(path, verb, op, clientType, show) == Ok(text)
    ensures op.JObj? && MethodDecorator(verb) == Ok(verb)
    ensures var paramStrs := ParseParameters(GetOr(op.entries, "parameters", JArr([])), show);
      var reqModel := GetReqModel(op);
      paramStrs.Ok? && reqModel.Ok? && GetRespModel(op).Ok? && JIndex(op, "operationId").Ok? &&
      text == MethodText(verb, path, IsAsyncClient(clientType), PyStr(JIndex(op, "operationId").value, show),
                         SignatureParams(paramStrs.value, reqModel.value), GetRespModel(op).value,
                         PyStr(GetOr(op.entries, "summary", JStr("")), show))
  {
  }

  /** The operationId `main` invents when an operation has none: the verb,
      `_`, then the path without its surrounding slashes in which every
      character that is not an ASCII letter or digit became `_`. */
  function FallbackOperationId(path: string, verb: string): (id: string)
    ensures var s := Strip(path, {'/'});
      StartsWith(id, verb + "_") && |id| == |verb| + 1 + |s| &&
      forall i :: 0 <= i < |s| ==> id[|verb| + 1 + i] == (if IsAsciiAlnum(s[i]) then s[i] else '_')
    ensures forall i :: |verb| + 1 <= i < |id| ==> IsAsciiAlnum(id[i]) || id[i] == '_'
  {
    PrefixedReplace(verb + "_", Strip(path, {'/'}))
  }

  /** `prefix` followed by `s` with its non-alphanumeric characters
      replaced by `_`. */
  function PrefixedReplace(prefix: string, s: string): (id: string)
    ensures StartsWith(id, prefix) && |id| == |prefix| + |s|
    ensures forall i :: 0 <= i < |s| ==> id[|prefix| + i] == (if IsAsciiAlnum(s[i]) then s[i] else '_')
    ensures forall i :: |prefix| <= i < |id| ==> IsAsciiAlnum(id[i]) || id[i] == '_'
  {
    var id := prefix + ReplaceNonAlnum(s);
    assert id[..|prefix|] == prefix;
    assert forall i :: 0 <= i < |s| ==> id[|prefix| + i] == ReplaceNonAlnum(s)[i];
    assert forall i :: |prefix| <= i < |id| ==> id[i] == ReplaceNonAlnum(s)[i - |prefix|];
    id
  }

  /** The operationId step of `main`: a falsy `operationId` is replaced by
      the fallback, stored back into the operation. */
  function WithOperationId(path: string, verb: string, op: Json): (r: Result<Json>)
    ensures r.Ok? <==> op.JObj?
    ensures r.Ok? && JTruthy(GetOr(op.entries, "operationId", JNull)) ==> r.value == op
    ensures r.Ok? ==> r.value.JObj? && "operationId" in Keys(r.value.entries)
    ensures r.Ok? ==> forall k :: k != "operationId" ==> Get(r.value.entries, k) == Get(op.entries, k)
  {
    var opid :- JGet(op, "operationId", JNull);
    if JTruthy(opid) then
      assert Get(op.entries, "operationId").Some?;
      Ok(op)
    else
      var es := Put(op.entries, "operationId", JStr(FallbackOperationId(path, verb)));
      PutFrames(op.entries, "operationId", JStr(FallbackOperationId(path, verb)));
      Ok(JObj(es))
  }

  /** Without an operationId, the stored id is the fallback. */
  lemma FallbackStored(path: string, verb: string, op: Json)
    requires op.JObj? && !JTruthy(GetOr(op.entries, "operationId", JNull))
    ensures WithOperationId(path, verb, op).Ok?
    ensures Get(WithOperationId(path, verb, op).value.entries, "operationId") == Some(JStr(FallbackOperationId(path, verb)))
  {
    PutGet(op.entries, "operationId", JStr(FallbackOperationId(path, verb)), "operationId");
  }

  /** `GET /pets/{id}` without an operationId becomes `get_pets__id_`. */
  lemma FallbackExample()
    ensures FallbackOperationId("/pets/{id}", "get") == "get_pets__id_"
  {
    var inner := "pets/{id}";
    assert "/pets/{id}" == "/" + inner;
    StripLeadingSlash(inner);
    PetsReplaced();
    FallbackOf("/pets/{id}", "get", inner, "pets__id_");
    PetsJoined();
  }

  lemma PetsJoined()
    ensures "get" + "_" + "pets__id_" == "get_pets__id_"
  {
    var j := "get" + "_" + "pets__id_";
    assert |j| == 13;
    assert forall i :: 0 <= i < 13 ==> j[i] == "get_pets__id_"[i];
  }

  lemma FallbackOf(path: string, verb: string, inner: string, replaced: string)
    requires Strip(path, {'/'}) == inner && ReplaceNonAlnum(inner) == replaced
    ensures FallbackOperationId(path, verb) == verb + "_" + replaced
  {
  }

  lemma PetsReplaced()
    ensures ReplaceNonAlnum("pets/{id}") == "pets__id_"
  {
    var r := ReplaceNonAlnum("pets/{id}");
    assert r[4] == '_' && r[5] == '_' && r[8] == '_';
    assert forall i :: 0 <= i < 9 ==> r[i] == "pets__id_"[i];
  }

  lemma StripLeadingSlash(inner: string)
    requires |inner| > 0 && inner[0] != '/' && inner[|inner| - 1] != '/'
    ensures Strip("/" + inner, {'/'}) == inner
  {
    StripOneLeading('/', inner, {'/'});
  }

  lemma StripOneLeading(c: char, inner: string, chars: set<char>)
    requires c in chars && |inner| > 0 && inner[0] !in chars && inner[|inner| - 1] !in chars
    ensures Strip([c] + inner, chars) == inner
  {
    assert ([c] + inner)[1..] == inner;
  }
}
