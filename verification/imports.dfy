/** Python name resolution: the `from module import name, ...` statement
    and attribute lookup on an object, used to state which imports and
    attribute accesses in the library resolve. */
module PyImports {
  import opened Wrappers

  /** The names defined at the top level of pydantic_client/decorators.py. */
  const DecoratorsNames: set<string> := {"partial", "Callable", "MethodInfo", "parse_func", "rest", "get", "post", "delete", "put"}

  /** `from module import a, b, ...`: fails on the first name the module does
      not define. */
  function ImportNames(names: seq<string>, defined: set<string>): (r: Result<()>)
    ensures r.Ok? <==> forall i :: 0 <= i < |names| ==> names[i] in defined
    ensures r.Err? ==> exists i :: 0 <= i < |names| && r.error == ImportError(names[i]) && names[i] !in defined &&
                                   forall j :: 0 <= j < i ==> names[j] in defined
    decreases |names|
  {
    if |names| == 0 then Ok(())
    else if names[0] !in defined then Err(ImportError(names[0]))
    else
      var r := ImportNames(names[1..], defined);
      assert forall i :: 0 < i < |names| ==> names[i] == names[1..][i - 1];
      if r.Err? then
        var k :| 0 <= k < |names| - 1 && r.error == ImportError(names[1..][k]) && names[1..][k] !in defined &&
                 forall j :: 0 <= j < k ==> names[1..][j] in defined;
        assert names[k + 1] == names[1..][k];
        r
      else r
  }

  /** The names defined at the top level of pydantic_client/main.py. */
  const MainNames: set<string> := {"container", "ClientConfig", "PydanticClientManager"}

  /** The attributes schema/client_config.py declares on `ClientConfig`:
      its three fields and `load_toml`. The attributes it inherits from
      `pydantic.BaseModel` all start with `model_` or are dunder names. */
  const ClientConfigAttributes: set<string> := {"base_url", "headers", "http2", "load_toml"}

  /** `ClientConfig` has no `get_client`. */
  lemma NoGetClient()
    ensures GetAttr("get_client", ClientConfigAttributes) == Err(AttributeError("get_client"))
  {
    assert "get_client"[0] == 'g';
  }

  /** `obj.name`: fails with AttributeError when the object has no such
      attribute. */
  function GetAttr(name: string, attributes: set<string>): (r: Result<()>)
    ensures r.Ok? <==> name in attributes
    ensures r.Err? ==> r.error == AttributeError(name)
  {
    if name in attributes then Ok(()) else Err(AttributeError(name))
  }
}
