/** The middle request builder (pydantic_client/container.py): `Parser`
    turns a `MethodInfo` and the call's bound arguments into the keyword
    arguments of an `HttpRequest`, and `Container` holds the two registries
    that route a decorated call to its client. */
module Containers {
  import opened Wrappers
  import opened Text
  import opened ODict
  import opened Values
  import opened PyFormat
  import opened Descriptors

  /** `Parser._apply_args`: the bound arguments without `self`, every model
      replaced by its dump and every other value kept, in order. */
  function ApplyArgs(bound: Args): (f: Args)
    ensures Keys(f) == Keys(Remove(bound, "self"))
    ensures "self" !in Keys(f)
    ensures forall i :: 0 <= i < |f| ==> f[i].val == Dump(Remove(bound, "self")[i].val)
    ensures forall e :: e in f ==> !e.val.Model?
  {
    var d := Remove(bound, "self");
    seq(|d|, i requires 0 <= i < |d| => Entry(d[i].key, Dump(d[i].val)))
  }

  /** An argument other than `self` that is not a model is passed on as it
      is; a model argument is passed on as its field map. */
  lemma ApplyArgsKeeps(bound: Args, e: Entry<string, Value>)
    requires e in bound && e.key != "self"
    ensures !e.val.Model? ==> e in ApplyArgs(bound)
    ensures e.val.Model? ==> Entry(e.key, Dict(e.val.fields)) in ApplyArgs(bound)
  {
    var d := Remove(bound, "self");
    var i :| 0 <= i < |d| && d[i] == e;
    assert ApplyArgs(bound)[i] == Entry(e.key, Dump(e.val));
  }

  /** `{arg: val for arg, val in args.items() if arg in keys and val}`. */
  function QueryArgs(keys: seq<string>, args: Args): (qa: map<string, Value>)
    ensures forall k :: k in qa <==> k in Keys(args) && k in keys && Truthy(ODict.Get(args, k).value)
    ensures forall k :: k in qa ==> ODict.Get(args, k) == Some(qa[k])
  {
    map k | k in Keys(args) && k in keys && Truthy(ODict.Get(args, k).value) :: ODict.Get(args, k).value
  }

  /** `urlparse(url)` reduced to its path and query: the fragment after the
      first `#` is cut off, then the query after the first `?`. */
  function UrlParts(url: string): (parts: (string, string))
    ensures '#' !in parts.0 && '?' !in parts.0
    ensures StartsWith(url, parts.0)
    ensures |parts.0| == |url| || url[|parts.0|] == '?' || url[|parts.0|] == '#'
    ensures QueryFollows(url, parts.0) ==>
      var q := |parts.0| + 1;
      '#' !in parts.1 && StartsWith(url[q..], parts.1) &&
      (q + |parts.1| == |url| || url[q + |parts.1|] == '#')
    ensures !QueryFollows(url, parts.0) ==> parts.1 == ""
  {
    var u := TakeUntil(url, '#');
    var path := TakeUntil(u, '?');
    assert url[..|u|] == u && u[..|path|] == path;
    if |path| < |u| then
      assert url[|path|] == u[|path|];
      assert url[|path| + 1..][..|u| - |path| - 1] == u[|path| + 1..];
      (path, u[|path| + 1..])
    else
      (path, "")
  }

  /** In `url`, a `?` comes right after its prefix `path`. */
  predicate QueryFollows(url: string, path: string) {
    |path| < |url| && url[|path|] == '?'
  }

  /** `parse_qsl(query)` without percent-decoding: the pieces between `&`,
      skipping empty pieces, pieces without `=` and pairs whose value is
      empty; the name ends at the first `=`. */
  function ParseQsl(query: string): seq<(string, string)> {
    PairsOf(Split(query, '&'))
  }

  /** What a rendered query keeps: pairs whose name has no `=` or `&` and
      whose value is non-empty without `&`. */
  predicate WellFormedPair(p: (string, string)) {
    '=' !in p.0 && '&' !in p.0 && '&' !in p.1 && |p.1| > 0
  }

  /** A query piece with a `=` that is not its last character: the first
      `=` then has a non-empty value after it. */
  predicate HasValue(piece: string) {
    exists i :: 0 <= i < |piece| - 1 && piece[i] == '='
  }

  /** The pieces `parse_qsl` turns into pairs, in order. */
  function WithValues(pieces: seq<string>): (kept: seq<string>)
    ensures forall p :: p in kept <==> p in pieces && HasValue(p)
    decreases |pieces|
  {
    if |pieces| == 0 then []
    else if HasValue(pieces[0]) then [pieces[0]] + WithValues(pieces[1..])
    else WithValues(pieces[1..])
  }

  /** The pairs are, in order, the pieces with a value, each split at its
      first `=`. */
  function PairsOf(pieces: seq<string>): (pairs: seq<(string, string)>)
    requires forall p :: p in pieces ==> '&' !in p
    ensures forall p :: p in pairs ==> WellFormedPair(p)
    ensures |pairs| == |WithValues(pieces)|
    ensures forall i :: 0 <= i < |pairs| ==>
      '=' !in pairs[i].0 && pairs[i].0 + "=" + pairs[i].1 == WithValues(pieces)[i]
    decreases |pieces|
  {
    if |pieces| == 0 then []
    else
      var piece := pieces[0];
      var name := TakeUntil(piece, '=');
      var rest := PairsOf(pieces[1..]);
      PieceSplit(piece);
      assert WithValues(pieces) == (if HasValue(piece) then [piece] else []) + WithValues(pieces[1..]);
      if |name| == |piece| || |name| + 1 == |piece| then rest
      else
        var value := piece[|name| + 1..];
        assert forall c :: c in value ==> c in piece;
        assert forall c :: c in name ==> c in piece;
        ConsPair((name, value), piece, rest, WithValues(pieces[1..]));
        [(name, value)] + rest
  }

  /** Putting a piece's pair in front of the pairs of the pieces after it
      keeps the two lists matched index by index. */
  lemma ConsPair(p: (string, string), piece: string, pairs: seq<(string, string)>, kept: seq<string>)
    requires '=' !in p.0 && p.0 + "=" + p.1 == piece
    requires |pairs| == |kept|
    requires forall i :: 0 <= i < |pairs| ==> '=' !in pairs[i].0 && pairs[i].0 + "=" + pairs[i].1 == kept[i]
    ensures var ps := [p] + pairs; var ks := [piece] + kept;
      |ps| == |ks| && forall i :: 0 <= i < |ps| ==> '=' !in ps[i].0 && ps[i].0 + "=" + ps[i].1 == ks[i]
  {
    var ps := [p] + pairs;
    var ks := [piece] + kept;
    assert forall i :: 1 <= i < |ps| ==> ps[i] == pairs[i - 1] && ks[i] == kept[i - 1];
  }

  /** A piece has a value iff its first `=` is not its last character, and
      then it is the name, `=`, and the value. */
  lemma PieceSplit(piece: string)
    ensures var name := TakeUntil(piece, '=');
      (HasValue(piece) <==> |name| + 1 < |piece|) &&
      (HasValue(piece) ==> name + "=" + piece[|name| + 1..] == piece)
  {
    var name := TakeUntil(piece, '=');
    assert piece[..|name|] == name;
    assert forall j :: 0 <= j < |name| ==> piece[j] == name[j] && piece[j] != '=';
    if |name| + 1 < |piece| {
      assert piece[|name|] == '=';
      assert piece == piece[..|name|] + [piece[|name|]] + piece[|name| + 1..];
    }
  }

  /** `"&".join(f"{k}={v}" for k, v in pairs)`. */
  function QueryString(pairs: seq<(string, string)>): string {
    Join(seq(|pairs|, i requires 0 <= i < |pairs| => pairs[i].0 + "=" + pairs[i].1), "&")
  }

  /** The pairs whose value has no `{` left in it. */
  function Unrendered(pairs: seq<(string, string)>): (kept: seq<(string, string)>)
    ensures forall p :: p in kept <==> p in pairs && '{' !in p.1
    decreases |pairs|
  {
    if |pairs| == 0 then []
    else if '{' in pairs[0].1 then Unrendered(pairs[1..])
    else [pairs[0]] + Unrendered(pairs[1..])
  }

  lemma TakeUntilSep(a: string, b: string, c: char)
    requires c !in a
    ensures TakeUntil(a + [c] + b, c) == a
    decreases |a|
  {
    if |a| > 0 {
      TakeUntilSep(a[1..], b, c);
      assert (a + [c] + b)[1..] == a[1..] + [c] + b;
    }
  }

  /** Parsing a rendered query string gives back the pairs it was rendered
      from. */
  lemma {:induction false} QueryStringRoundTrip(pairs: seq<(string, string)>)
    requires forall p :: p in pairs ==> WellFormedPair(p)
    ensures ParseQsl(QueryString(pairs)) == pairs
  {
    var pieces := seq(|pairs|, i requires 0 <= i < |pairs| => pairs[i].0 + "=" + pairs[i].1);
    if |pairs| == 0 {
      assert QueryString(pairs) == "";
    } else {
      forall p | p in pieces ensures '&' !in p {
        var i :| 0 <= i < |pieces| && pieces[i] == p;
        assert pairs[i] in pairs;
      }
      SplitJoin(pieces, '&');
      PiecesParse(pairs, pieces);
    }
  }

  lemma {:induction false} PiecesParse(pairs: seq<(string, string)>, pieces: seq<string>)
    requires forall p :: p in pairs ==> WellFormedPair(p)
    requires |pieces| == |pairs|
    requires forall i :: 0 <= i < |pairs| ==> pieces[i] == pairs[i].0 + "=" + pairs[i].1
    requires forall p :: p in pieces ==> '&' !in p
    ensures PairsOf(pieces) == pairs
    decreases |pairs|
  {
    if |pairs| > 0 {
      var p := pairs[0];
      assert p in pairs;
      TakeUntilSep(p.0, p.1, '=');
      assert pieces[0] == p.0 + ['='] + p.1;
      assert pieces[0][|p.0| + 1..] == p.1;
      PiecesParse(pairs[1..], pieces[1..]);
    }
  }

  /** The rendered path and the query string `_get_url` builds from them. */
  function JoinQuery(path: string, qs: string): (url: string)
    ensures qs == "" ==> url == path
    ensures qs != "" ==> url == path + "?" + qs
  {
    if qs != "" then path + "?" + qs else path
  }

  /** `Parser._get_url`: substitutes the truthy arguments named by
      placeholders, pops every placeholder name from the arguments (this is
      visible to the caller, which reuses the map), and keeps only the query
      pairs whose value was rendered. Returns the url and the arguments
      left. */
  function GetUrl(url: string, args: Args, show: Value -> string): (r: Result<(string, Args)>)
    ensures r.Ok? <==> Format(url, QueryArgs(RegexKeys(url), args), show).Ok?
    ensures r.Ok? ==> forall e :: e in r.value.1 <==> e in args && e.key !in RegexKeys(url)
    ensures r.Ok? ==>
      var parts := UrlParts(Format(url, QueryArgs(RegexKeys(url), args), show).value);
      r.value.0 == JoinQuery(parts.0, QueryString(Unrendered(ParseQsl(parts.1))))
  {
    var keys := RegexKeys(url);
    var rendered :- Format(url, QueryArgs(keys, args), show);
    var parts := UrlParts(rendered);
    Ok((JoinQuery(parts.0, QueryString(Unrendered(ParseQsl(parts.1)))), RemoveAll(args, keys)))
  }

  /** A placeholder whose argument is missing or falsy makes rendering
      fail: nothing is substituted for it. */
  lemma MissingOrFalsyFails(url: string, args: Args, show: Value -> string, n: string)
    requires Fields(url).Some? && n in Fields(url).value
    requires n !in Keys(args) || !Truthy(ODict.Get(args, n).value)
    ensures GetUrl(url, args, show).Err?
  {
    FormatOk(url, QueryArgs(RegexKeys(url), args), show);
  }

  /** Conversely, a well-formed one-line template without `{{` renders when
      every placeholder has a truthy argument. */
  lemma AllTruthyRenders(url: string, args: Args, show: Value -> string)
    requires Fields(url).Some? && '\n' !in url && NoDoubleOpen(url)
    requires forall n :: n in Fields(url).value ==> n in Keys(args) && Truthy(ODict.Get(args, n).value)
    ensures GetUrl(url, args, show).Ok?
  {
    RegexKeysAreFields(url);
    FormatOk(url, QueryArgs(RegexKeys(url), args), show);
  }

  /** The query string of the url reads back as exactly the pairs of the
      rendered url's query whose value holds no `{`: nothing unrendered is
      sent, and nothing rendered is lost. */
  lemma UrlQueryRoundTrip(url: string, args: Args, show: Value -> string)
    requires GetUrl(url, args, show).Ok?
    ensures var parts := UrlParts(Format(url, QueryArgs(RegexKeys(url), args), show).value);
      var kept := Unrendered(ParseQsl(parts.1));
      ParseQsl(QueryString(kept)) == kept &&
      (GetUrl(url, args, show).value.0 == parts.0 <==> |kept| == 0)
  {
    var parts := UrlParts(Format(url, QueryArgs(RegexKeys(url), args), show).value);
    var kept := Unrendered(ParseQsl(parts.1));
    QueryStringRoundTrip(kept);
    if |kept| > 0 {
      assert ParseQsl("") == [];
      assert QueryString(kept) != "";
      assert |GetUrl(url, args, show).value.0| > |parts.0|;
    }
  }

  /** `Parser.dict_to_body`. */
  function DictToBody(funcArgs: Args): (body: Value)
    ensures |funcArgs| == 1 && funcArgs[0].key == "request_headers" ==>
      body == Dict(map["request_headers" := funcArgs[0].val])
    ensures |funcArgs| == 1 && funcArgs[0].key != "request_headers" ==> body == funcArgs[0].val
    ensures |funcArgs| != 1 ==> body == Dict(map[])
  {
    if |funcArgs| == 1 then
      if funcArgs[0].key == "request_headers" then Dict(ToMap(funcArgs)) else funcArgs[0].val
    else Dict(map[])
  }

  /** `body.pop("request_headers", None)`: the body without that key and the
      popped value. Only a dict has a two-argument `pop`. */
  function PopHeaders(body: Value): (r: Result<(Value, Value)>)
    ensures r.Ok? <==> body.Dict?
    ensures r.Ok? ==> r.value.0 == Dict(body.entries - {"request_headers"})
    ensures r.Ok? ==> r.value.1 == (if "request_headers" in body.entries then body.entries["request_headers"] else Null)
    ensures body.List? ==> r.Err? && r.error.TypeError?
    ensures !body.Dict? && !body.List? ==> r.Err? && r.error.AttributeError?
  {
    match body
    case Dict(m) =>
      Ok((Dict(m - {"request_headers"}), if "request_headers" in m then m["request_headers"] else Null))
    case List(_) => Err(TypeError("pop expected at most 1 argument, got 2"))
    case _ => Err(AttributeError("object has no attribute 'pop'"))
  }

  /** The keyword arguments `get_request` passes to `HttpRequest`. */
  datatype Request = Request(
    url: string,
    data: Value,
    jsonBody: Value,
    httpMethod: string,
    requestHeaders: Value,
    isFile: bool)

  /** `Parser.get_request` on the bound arguments of the call. */
  function GetRequest(info: MethodInfo, bound: Args, show: Value -> string): (r: Result<Request>)
    ensures r.Ok? ==> r.value.httpMethod == info.httpMethod
    ensures r.Ok? ==> (r.value.isFile <==> info.responseType == Cls(BytesClass))
    ensures r.Ok? && info.formBody ==> r.value.jsonBody == Dict(map[])
    ensures r.Ok? && !info.formBody ==> r.value.data == Dict(map[])
    ensures r.Ok? <==> GetUrl(info.url, ApplyArgs(bound), show).Ok? &&
                       PopHeaders(DictToBody(GetUrl(info.url, ApplyArgs(bound), show).value.1)).Ok?
    ensures r.Ok? ==> r.value.url == GetUrl(info.url, ApplyArgs(bound), show).value.0
    ensures r.Ok? ==>
      var popped := PopHeaders(DictToBody(GetUrl(info.url, ApplyArgs(bound), show).value.1)).value;
      (if info.formBody then r.value.data else r.value.jsonBody) == popped.0 && r.value.requestHeaders == popped.1
  {
    var funcArgs := ApplyArgs(bound);
    var u :- GetUrl(info.url, funcArgs, show);
    var popped :- PopHeaders(DictToBody(u.1));
    var body := popped.0;
    Ok(Request(
      u.0,
      if info.formBody then body else Dict(map[]),
      if info.formBody then Dict(map[]) else body,
      info.httpMethod,
      popped.1,
      info.responseType == Cls(BytesClass)))
  }

  /** What reaches the body and the headers depends on the arguments left
      after the url is built: a lone dict argument (a dumped model) is sent
      as its entries less a `request_headers` entry, which becomes the
      headers; a lone non-dict argument makes `pop` fail; a lone
      `request_headers` argument becomes the headers with an empty body; none,
      or two or more, give an empty body and no headers, so a
      `request_headers` argument is lost whenever anything else is left. */
  lemma BodyAndHeaders(rest: Args)
    ensures |rest| == 1 && rest[0].key == "request_headers" ==>
      PopHeaders(DictToBody(rest)) == Ok((Dict(map[]), rest[0].val))
    ensures |rest| == 1 && rest[0].key != "request_headers" && rest[0].val.Dict? ==>
      PopHeaders(DictToBody(rest)).Ok? &&
      PopHeaders(DictToBody(rest)).value.0 == Dict(rest[0].val.entries - {"request_headers"})
    ensures |rest| == 1 && rest[0].key != "request_headers" && !rest[0].val.Dict? ==>
      PopHeaders(DictToBody(rest)).Err?
    ensures |rest| != 1 ==> PopHeaders(DictToBody(rest)) == Ok((Dict(map[]), Null))
  {
    if |rest| == 1 && rest[0].key == "request_headers" {
      assert map["request_headers" := rest[0].val] - {"request_headers"} == map[];
    }
  }

  /** A method descriptor built by `parse_func` never asks for a file
      download: `is_file` would need `bytes` as the response type. */
  lemma ParsedNeverFile(url: string, func: Func, verb: string, formBody: bool, bound: Args, show: Value -> string)
    requires GetRequest(ParseFunc(url, func, verb, formBody), bound, show).Ok?
    ensures !GetRequest(ParseFunc(url, func, verb, formBody), bound, show).value.isFile
  {
    ParsedResponseNeverBytes(url, func, verb, formBody);
  }

  /** A protocol instance or a client, by identity. */
  type ObjId = nat

  /** `Container`: the client bound to each protocol instance and the
      method descriptor bound to each decorated function. */
  datatype Container = Container(protocolClients: map<ObjId, ObjId>, funcBindings: map<Func, MethodInfo>)

  /** `Container()`: both registries empty. */
  function EmptyContainer(): (c: Container)
    ensures c.protocolClients == map[] && c.funcBindings == map[]
  {
    Container(map[], map[])
  }

  /** `bind_protocol`: the instance now routes to `client`, replacing any
      earlier binding; nothing else changes. */
  function BindProtocol(c: Container, protocol: ObjId, client: ObjId): (r: Container)
    ensures protocol in r.protocolClients && r.protocolClients[protocol] == client
    ensures forall p :: p != protocol ==> (p in r.protocolClients <==> p in c.protocolClients)
    ensures forall p :: p != protocol && p in c.protocolClients ==> r.protocolClients[p] == c.protocolClients[p]
    ensures r.funcBindings == c.funcBindings
  {
    c.(protocolClients := c.protocolClients[protocol := client])
  }

  /** `bind_func`: the function now maps to `info`, replacing any earlier
      binding; nothing else changes. */
  function BindFunc(c: Container, func: Func, info: MethodInfo): (r: Container)
    ensures func in r.funcBindings && r.funcBindings[func] == info
    ensures forall f :: f != func ==> (f in r.funcBindings <==> f in c.funcBindings)
    ensures forall f :: f != func && f in c.funcBindings ==> r.funcBindings[f] == c.funcBindings[f]
    ensures r.protocolClients == c.protocolClients
  {
    c.(funcBindings := c.funcBindings[func := info])
  }

  /** `do_func(func, *args, **kwargs)`: `instance` is `args[0]` (`None` when
      there are no positional arguments), `bound` the arguments bound to the
      function's signature, and `doRequest` the client's `do_request`. The
      checks run in the source's order: binding, instance, request, client. */
  function DoFunc(c: Container, func: Func, instance: Option<ObjId>, bound: Args, show: Value -> string,
                  doRequest: (ObjId, Request) -> Value): (r: Result<Value>)
    ensures func !in c.funcBindings ==> r.Err? && r.error.ValueError?
    ensures func in c.funcBindings && instance.None? ==> r.Err? && r.error.IndexError?
    ensures r.Ok? <==> (func in c.funcBindings && instance.Some? && instance.value in c.protocolClients &&
                        GetRequest(c.funcBindings[func], bound, show).Ok?)
    ensures r.Ok? ==>
      r.value == doRequest(c.protocolClients[instance.value], GetRequest(c.funcBindings[func], bound, show).value)
  {
    if func !in c.funcBindings then Err(ValueError("No router info found for function"))
    else if instance.None? then Err(IndexError("tuple index out of range"))
    else
      var request :- GetRequest(c.funcBindings[func], bound, show);
      if instance.value !in c.protocolClients then Err(AttributeError("'NoneType' object has no attribute 'do_request'"))
      else Ok(doRequest(c.protocolClients[instance.value], request))
  }
}
