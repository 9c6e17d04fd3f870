/** The Python values and annotations the library inspects at run time.

    A pydantic model instance is represented by what `model_dump()` returns
    for it: `Model(cls, fields)` carries the class name and the dumped field
    map, so dumping is the projection `Dump`. Annotations are a closed
    datatype standing for the classes and typing constructs the source tests
    with `is`, `isinstance`, `issubclass` and `__origin__`. */
module Values {
  import opened Wrappers
  import opened Text
  import opened ODict

  datatype Value =
    | Null
    | Bool(b: bool)
    | Int(i: int)
    | Str(s: string)
    | List(items: seq<Value>)
    | Dict(entries: map<string, Value>)
    | Model(cls: string, fields: map<string, Value>)

  /** Bound call arguments in signature order (`BoundArguments.arguments`). */
  type Args = seq<Entry<string, Value>>

  /** Python truthiness: `None`, `False`, `0`, and empty strings, lists and
      dicts are false; a pydantic model defines neither `__bool__` nor
      `__len__` and is always true. */
  predicate Truthy(v: Value) {
    match v
    case Null => false
    case Bool(b) => b
    case Int(i) => i != 0
    case Str(s) => s != ""
    case List(items) => |items| > 0
    case Dict(entries) => |entries| > 0
    case Model(_, _) => true
  }

  /** `model_dump()` applied where the source applies it to a model. */
  function Dump(v: Value): (r: Value)
    ensures v.Model? ==> r == Dict(v.fields)
    ensures !v.Model? ==> r == v
    ensures !r.Model?
  {
    if v.Model? then Dict(v.fields) else v
  }

  /** Python `key in container` for the value shapes JSON decoding produces. */
  function PyIn(container: Value, key: string): (r: Result<bool>)
    ensures container.Dict? ==> r == Ok(key in container.entries)
    ensures container.List? ==> r == Ok(Str(key) in container.items)
    ensures container.Str? ==> r == Ok(ContainsSub(container.s, key))
    ensures container.Null? || container.Bool? || container.Int? ==> r.Err?
  {
    match container
    case Dict(entries) => Ok(key in entries)
    case List(items) => Ok(Str(key) in items)
    case Str(s) => Ok(ContainsSub(s, key))
    // iterating a model yields (name, value) pairs, never a bare string
    case Model(_, _) => Ok(false)
    case _ => Err(TypeError("argument is not iterable"))
  }

  /** Python `container[key]` with a string key. */
  function GetItem(container: Value, key: string): (r: Result<Value>)
    ensures r.Ok? <==> container.Dict? && key in container.entries
    ensures r.Ok? ==> r.value == container.entries[key]
  {
    match container
    case Dict(entries) => if key in entries then Ok(entries[key]) else Err(KeyError(key))
    case _ => Err(TypeError("indices must be integers or the object is not subscriptable"))
  }

  /** Python `container[0]`. */
  function First(container: Value): (r: Result<Value>)
    ensures r.Ok? <==> (container.List? && |container.items| > 0) || (container.Str? && |container.s| > 0)
  {
    match container
    case List(items) => if |items| > 0 then Ok(items[0]) else Err(IndexError("list index out of range"))
    case Str(s) => if |s| > 0 then Ok(Str([s[0]])) else Err(IndexError("string index out of range"))
    case Dict(entries) => Err(KeyError("0"))
    case _ => Err(TypeError("object is not subscriptable"))
  }

  /** The classes an annotation can name. `ModelClass` is a subclass of
      pydantic's `BaseModel`; its fields are its own `__annotations__`. */
  datatype Class =
    | StrClass
    | IntClass
    | FloatClass
    | BoolClass
    | ListClass
    | DictClass
    | BytesClass
    | ModelClass(name: string, fields: seq<Field>)
    | OtherClass(name: string, moduleName: string)

  datatype Field = Field(name: string, ann: Annotation)

  /** What an annotation slot can hold: a class, a parameterised generic
      (`List[int]`, whose `__origin__` is `origin`), the `inspect` module's
      "empty" sentinel class, the value `None`, or any other object. */
  datatype Annotation =
    | Cls(c: Class)
    | Generic(origin: Class, args: seq<Annotation>)
    | EmptyAnn
    | NoneAnn
    | OtherAnn(text: string)

  /** `isinstance(a, type) and issubclass(a, BaseModel)`. */
  predicate IsModelClass(a: Annotation) {
    a.Cls? && a.c.ModelClass?
  }

  /** A parameter of a Python function, as `inspect.signature` reports it;
      `annotation` is `EmptyAnn` when the parameter is not annotated. */
  datatype Param = Param(name: string, annotation: Annotation, hasDefault: bool)

  /** A Python function: identity, name, parameters in order, return
      annotation (`EmptyAnn` when absent) and docstring. */
  datatype Func = Func(id: nat, name: string, params: seq<Param>, ret: Annotation, doc: Option<string>)
}
