/** Tool descriptors for the Agno agent framework
    (pydantic_client/tools/agno.py): a function's signature and docstring
    become a JSON-schema-like description of its parameters. */
module AgnoTools {
  import opened Wrappers
  import opened Text
  import opened ODict
  import opened Values

  /** `_get_parameter_type(param)` on the parameter's annotation. */
  function ParameterType(a: Annotation): (t: string)
    ensures a.Generic? && a.origin == ListClass ==> t == "array"
    ensures a.Generic? && a.origin == DictClass ==> t == "object"
    ensures IsModelClass(a) ==> t == "object"
    ensures !a.Cls? && !a.Generic? ==> t == "string"
    ensures a.Generic? && a.origin != ListClass && a.origin != DictClass ==> t == "string"
    ensures t in {"string", "integer", "number", "boolean", "array", "object"}
  {
    match a
    case Generic(origin, _) =>
      if origin == ListClass then "array"
      else if origin == DictClass then "object"
      // a parameterised generic is not an instance of `type`
      else "string"
    case Cls(c) => if c.ModelClass? then "object" else TypeMap(c)
    // the `inspect` empty sentinel is a class, but not in the table
    case EmptyAnn => "string"
    case NoneAnn => "string"
    case OtherAnn(_) => "string"
  }

  /** `type_map.get(annotation, "string")`. */
  function TypeMap(c: Class): string {
    match c
    case StrClass => "string"
    case IntClass => "integer"
    case FloatClass => "number"
    case BoolClass => "boolean"
    case ListClass => "array"
    case DictClass => "object"
    case _ => "string"
  }

  /** For a plain class, the table and the model rule agree with the JSON
      type a value of that class is encoded as. */
  lemma ClassTypes()
    ensures ParameterType(Cls(StrClass)) == "string" && ParameterType(Cls(IntClass)) == "integer"
    ensures ParameterType(Cls(FloatClass)) == "number" && ParameterType(Cls(BoolClass)) == "boolean"
    ensures ParameterType(Cls(ListClass)) == "array" && ParameterType(Cls(DictClass)) == "object"
    ensures ParameterType(Cls(BytesClass)) == "string"
    ensures forall n, m :: ParameterType(Cls(OtherClass(n, m))) == "string"
  {
  }

  /** A generic and its bare origin class get the same type when the
      origin is `list` or `dict`. */
  lemma GenericMatchesOrigin(origin: Class, args: seq<Annotation>)
    requires origin == ListClass || origin == DictClass
    ensures ParameterType(Generic(origin, args)) == ParameterType(Cls(origin))
  {
  }

  /** The docstring marker `:param name:` that introduces a parameter's
      description. */
  function Marker(name: string): (m: string)
    ensures |m| == |name| + 8 && m[0] == ':' && m[|m| - 1] == ':'
  {
    ":param " + name + ":"
  }

  /** The description `create_agno_tool` gives parameter `name`: the
      stripped rest of the line after `:param name:`, cut at any second
      occurrence of the marker; empty when the marker is absent. */
  function ParamDoc(doc: string, name: string): (d: string)
    ensures !ContainsSub(doc, Marker(name)) ==> d == ""
    ensures '\n' !in d
  {
    var marker := Marker(name);
    match AfterSub(doc, marker)
    case None => ""
    case Some(after) =>
      var line := TakeUntil(BeforeSub(after, marker), '\n');
      StripKeepsOut(line, Whitespace, '\n');
      StripSpace(line)
  }

  /** When the marker first occurs right after `pre` and the rest of its
      line does not repeat it, the description is that rest of the line,
      stripped. Earlier `:param` lines for other parameters, and colons in
      the description, are allowed. */
  lemma ParamDocOfLine(pre: string, name: string, line: string, rest: string)
    requires !ContainsSub(pre + Marker(name)[..|Marker(name)| - 1], Marker(name))
    requires '\n' !in name && '\n' !in line && !ContainsSub(line, Marker(name))
    ensures ParamDoc(pre + Marker(name) + line + "\n" + rest, name) == StripSpace(line)
  {
    MarkerNoNewline(name);
    MarkerLine(pre, Marker(name), line, rest);
  }

  lemma MarkerNoNewline(name: string)
    requires '\n' !in name
    ensures '\n' !in Marker(name)
  {
    assert Marker(name) == ":param " + name + ":";
  }

  lemma MarkerLine(pre: string, marker: string, line: string, rest: string)
    requires |marker| > 0 && '\n' !in marker && !ContainsSub(pre + marker[..|marker| - 1], marker)
    requires '\n' !in line && !ContainsSub(line, marker)
    ensures AfterSub(pre + marker + line + "\n" + rest, marker) == Some(line + "\n" + rest)
    ensures TakeUntil(BeforeSub(line + "\n" + rest, marker), '\n') == line
  {
    var tail := line + "\n" + rest;
    assert pre + marker + line + "\n" + rest == pre + marker + tail;
    AfterSubFirst(pre, marker, tail);
    assert tail == line + ("\n" + rest);
    LineBeforeMarker(line, marker, "\n" + rest);
  }

  lemma LineBeforeMarker(line: string, marker: string, tail: string)
    requires |marker| > 0 && '\n' !in marker && '\n' !in line && !ContainsSub(line, marker)
    requires |tail| > 0 && tail[0] == '\n'
    ensures TakeUntil(BeforeSub(line + tail, marker), '\n') == line
  {
    BeforeSubKeeps(line, marker, tail);
    var b := BeforeSub(line + tail, marker);
    assert StartsWith(b, line + [tail[0]]);
    assert b[..|line|] == line && b[|line|] == '\n';
    TakeUntilAt(line, b, '\n');
  }

  /** One parameter entry of a tool. `properties` is present for a model
      parameter only: one type per field of the model. */
  datatype ParamSpec = ParamSpec(
    kind: string,
    description: string,
    required: bool,
    properties: Option<seq<Entry<string, string>>>)

  datatype Tool = Tool(name: string, description: string, parameters: seq<Entry<string, ParamSpec>>)

  /** `{field_name: {"type": ...} for field_name, field_type in
      annotation.__annotations__.items()}`. */
  function FieldTypes(fields: seq<Field>): (r: seq<Entry<string, string>>)
    ensures |r| == |fields|
    ensures forall i :: 0 <= i < |fields| ==> r[i] == Entry(fields[i].name, ParameterType(fields[i].ann))
  {
    seq(|fields|, i requires 0 <= i < |fields| => Entry(fields[i].name, ParameterType(fields[i].ann)))
  }

  /** The entry `create_agno_tool` stores for one parameter. */
  function ParamSpecOf(p: Param, doc: string): (s: ParamSpec)
    ensures s.kind == ParameterType(p.annotation)
    ensures s.description == ParamDoc(doc, p.name)
    ensures s.required <==> !p.hasDefault
    ensures s.properties.Some? <==> IsModelClass(p.annotation)
    ensures s.properties.Some? ==> s.properties.value == FieldTypes(p.annotation.c.fields)
  {
    ParamSpec(
      ParameterType(p.annotation),
      ParamDoc(doc, p.name),
      !p.hasDefault,
      if IsModelClass(p.annotation) then Some(FieldTypes(p.annotation.c.fields)) else None)
  }

  /** The names of a signature's parameters, in order. */
  function ParamNames(ps: seq<Param>): (ns: seq<string>)
    ensures |ns| == |ps|
    ensures forall i :: 0 <= i < |ps| ==> ns[i] == ps[i].name
  {
    seq(|ps|, i requires 0 <= i < |ps| => ps[i].name)
  }

  /** The parameter loop, in signature order, skipping `self`. */
  function ToolParams(ps: seq<Param>, doc: string, acc: seq<Entry<string, ParamSpec>>)
    : seq<Entry<string, ParamSpec>>
    decreases |ps|
  {
    if |ps| == 0 then acc
    else if ps[0].name == "self" then ToolParams(ps[1..], doc, acc)
    else ToolParams(ps[1..], doc, Put(acc, ps[0].name, ParamSpecOf(ps[0], doc)))
  }

  /** The loop adds an entry for every parameter except `self`, and no
      other. */
  lemma {:induction false} ToolParamsKeys(ps: seq<Param>, doc: string, acc: seq<Entry<string, ParamSpec>>)
    ensures forall k :: k in Keys(ToolParams(ps, doc, acc)) <==>
      k in Keys(acc) || (k in ParamNames(ps) && k != "self")
    decreases |ps|
  {
    if |ps| > 0 {
      var acc' := if ps[0].name == "self" then acc else Put(acc, ps[0].name, ParamSpecOf(ps[0], doc));
      assert forall k :: k in Keys(acc') <==> k in Keys(acc) || (ps[0].name != "self" && k == ps[0].name);
      ToolParamsKeys(ps[1..], doc, acc');
      assert ParamNames(ps) == [ps[0].name] + ParamNames(ps[1..]);
    }
  }

  /** `description or doc.strip().split("\n")[0]`. */
  function ToolDescription(description: Option<string>, doc: string): (d: string)
    ensures description.Some? && description.value != "" ==> d == description.value
    ensures !(description.Some? && description.value != "") ==>
      '\n' !in d && StartsWith(StripSpace(doc), d) && d == Split(StripSpace(doc), '\n')[0]
  {
    if description.Some? && description.value != "" then description.value
    else
      SplitFirst(StripSpace(doc), '\n');
      TakeUntil(StripSpace(doc), '\n')
  }

  /** `create_agno_tool(func, description)`. */
  function CreateTool(func: Func, description: Option<string>): (t: Tool)
    ensures t.name == func.name
    ensures t.description == ToolDescription(description, func.doc.GetOr(""))
    ensures "self" !in Keys(t.parameters)
    ensures forall k :: k in Keys(t.parameters) <==> k in ParamNames(func.params) && k != "self"
  {
    var doc := func.doc.GetOr("");
    ToolParamsKeys(func.params, doc, []);
    Tool(func.name, ToolDescription(description, doc), ToolParams(func.params, doc, []))
  }

  /** With distinct parameter names, each named parameter other than
      `self` is described by its own entry. */
  lemma {:induction false} ToolParamsEntry(ps: seq<Param>, doc: string, acc: seq<Entry<string, ParamSpec>>, i: nat)
    requires i < |ps| && ps[i].name != "self"
    requires forall j, k :: 0 <= j < k < |ps| ==> ps[j].name != ps[k].name
    ensures Get(ToolParams(ps, doc, acc), ps[i].name) == Some(ParamSpecOf(ps[i], doc))
    decreases |ps|
  {
    var rest := ps[1..];
    var acc' := if ps[0].name == "self" then acc else Put(acc, ps[0].name, ParamSpecOf(ps[0], doc));
    assert ToolParams(ps, doc, acc) == ToolParams(rest, doc, acc');
    if i == 0 {
      PutGet(acc, ps[0].name, ParamSpecOf(ps[0], doc), ps[0].name);
      forall j | 0 <= j < |rest|
        ensures rest[j].name != ps[0].name
      {
        assert rest[j] == ps[j + 1];
      }
      ToolParamsKeeps(rest, doc, acc', ps[0].name);
    } else {
      assert rest[i - 1] == ps[i];
      forall j, k | 0 <= j < k < |rest|
        ensures rest[j].name != rest[k].name
      {
        assert rest[j] == ps[j + 1] && rest[k] == ps[k + 1];
      }
      ToolParamsEntry(rest, doc, acc', i - 1);
    }
  }

  /** In a tool built from a signature (whose names are distinct), every
      parameter but `self` has the entry built from its own annotation,
      default and docstring line. */
  lemma ToolParameter(func: Func, description: Option<string>, i: nat)
    requires i < |func.params| && func.params[i].name != "self"
    requires forall j, k :: 0 <= j < k < |func.params| ==> func.params[j].name != func.params[k].name
    ensures Get(CreateTool(func, description).parameters, func.params[i].name)
      == Some(ParamSpecOf(func.params[i], func.doc.GetOr("")))
  {
    ToolParamsEntry(func.params, func.doc.GetOr(""), [], i);
  }

  /** Parameters with other names do not touch an existing entry. */
  lemma {:induction false} ToolParamsKeeps(ps: seq<Param>, doc: string, acc: seq<Entry<string, ParamSpec>>, k: string)
    requires forall j :: 0 <= j < |ps| ==> ps[j].name != k
    ensures Get(ToolParams(ps, doc, acc), k) == Get(acc, k)
    decreases |ps|
  {
    if |ps| > 0 {
      if ps[0].name != "self" {
        PutGet(acc, ps[0].name, ParamSpecOf(ps[0], doc), k);
      }
      var acc' := if ps[0].name == "self" then acc else Put(acc, ps[0].name, ParamSpecOf(ps[0], doc));
      ToolParamsKeeps(ps[1..], doc, acc', k);
    }
  }

  /** `register_agno_tool(description)(func)`: the wrapper calls `func`
      unchanged and carries the tool built from `func`. */
  datatype Registered = Registered(wrapped: Func, agnoTool: Tool)

  function RegisterTool(description: Option<string>, func: Func): (r: Registered)
    ensures r.wrapped == func
    ensures r.agnoTool.name == func.name
    ensures description.Some? && description.value != "" ==> r.agnoTool.description == description.value
    ensures forall k :: k in Keys(r.agnoTool.parameters) <==> k in ParamNames(func.params) && k != "self"
  {
    Registered(func, CreateTool(func, description))
  }
}
