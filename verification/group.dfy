/** Endpoint groups (pydantic_client/group.py): a url prefix shared by a
    set of decorated methods. The helpers build the oldest generation's
    routes (`Descriptors.Route`) with the prefix prepended. */
module Groups {
  import opened Wrappers
  import opened Text
  import opened Values
  import opened Descriptors
  import opened PyImports

  /** The names group.py imports from the decorators module. */
  const GroupImports: seq<string> := ["delete", "get", "patch", "post", "put"]

  /** As written, importing group.py fails: the decorators module defines no
      `patch`. */
  lemma GroupImportFails()
    ensures ImportNames(GroupImports, DecoratorsNames) == Err(ImportError("patch"))
  {
    assert GroupImports[0] in DecoratorsNames && GroupImports[1] in DecoratorsNames;
    assert GroupImports[2] !in DecoratorsNames;
    assert GroupImports[1..][1..] == ["patch", "post", "put"];
  }

  /** The `patch` helper the import expects, defined like its four siblings
      (`partial(rest, method="PATCH")`); the group model uses it. */
  function Patch(url: string, formBody: bool := false): (r: Route)
    ensures r.verb == "PATCH" && r.url == url && r.formBody == formBody
    ensures forall func :: Decorate(r, func) == ParseFunc(url, func, "PATCH", formBody)
  {
    Rest(url, "PATCH", formBody)
  }

  datatype Group = Group(urlPrefix: string, name: Option<string>)

  /** `Group(url_prefix, name=None)`: the prefix is stored without trailing
      slashes; the name is stored as given. */
  function NewGroup(urlPrefix: string, name: Option<string> := None): (g: Group)
    ensures |g.urlPrefix| == 0 || g.urlPrefix[|g.urlPrefix| - 1] != '/'
    ensures StartsWith(urlPrefix, g.urlPrefix) && forall i :: |g.urlPrefix| <= i < |urlPrefix| ==> urlPrefix[i] == '/'
    ensures g.name == name
  {
    Group(RStrip(urlPrefix, {'/'}), name)
  }

  function GroupGet(g: Group, url: string): Route { Get(g.urlPrefix + url) }
  function GroupPut(g: Group, url: string, formBody: bool := false): Route { Put(g.urlPrefix + url, formBody) }
  function GroupPost(g: Group, url: string, formBody: bool := false): Route { Post(g.urlPrefix + url, formBody) }
  function GroupPatch(g: Group, url: string, formBody: bool := false): Route { Patch(g.urlPrefix + url, formBody) }
  function GroupDelete(g: Group, url: string): Route { Delete(g.urlPrefix + url) }

  /** Every helper's url is the prefix followed by the given url, with no
      separator added; `put`, `post` and `patch` forward the form flag and
      `get` and `delete` use JSON mode. */
  lemma HelperRoutes(g: Group, url: string, formBody: bool)
    ensures GroupGet(g, url) == Route(g.urlPrefix + url, "GET", false)
    ensures GroupDelete(g, url) == Route(g.urlPrefix + url, "DELETE", false)
    ensures GroupPut(g, url, formBody) == Route(g.urlPrefix + url, "PUT", formBody)
    ensures GroupPost(g, url, formBody) == Route(g.urlPrefix + url, "POST", formBody)
    ensures GroupPatch(g, url, formBody) == Route(g.urlPrefix + url, "PATCH", formBody)
    ensures GroupPost(g, url) == Route(g.urlPrefix + url, "POST", false)
  {
  }

  /** A trailing slash on the prefix makes no difference to the group. */
  lemma TrailingSlashIgnored(prefix: string, name: Option<string>)
    ensures NewGroup(prefix + "/", name) == NewGroup(prefix, name)
  {
    assert (prefix + "/")[..|prefix|] == prefix;
  }

  /** `Group("/book").get("/{book_id}")` routes `GET /book/{book_id}`. */
  lemma BookExample()
    ensures GroupGet(NewGroup("/book"), "/{book_id}") == Route("/book/{book_id}", "GET", false)
    ensures NewGroup("/book").name == None
  {
    var p := "/book";
    assert p[4] == 'k';
    assert RStrip(p, {'/'}) == p;
  }
}
