/** The state every web client shares (pydantic_client/base.py): the base
    url, the default headers and the timeout, and how a request path is
    joined to the base url. */
module BaseClient {
  import opened Wrappers
  import opened Text
  import opened Values

  datatype WebClient = WebClient(baseUrl: string, headers: Value, timeout: Value)

  /** `BaseWebClient.__init__`: trailing slashes are stripped from the base
      url, and missing (or empty) headers become an empty dict. */
  function Init(baseUrl: string, headers: Value := Null, timeout: Value := Int(30)): (c: WebClient)
    ensures |c.baseUrl| == 0 || c.baseUrl[|c.baseUrl| - 1] != '/'
    ensures StartsWith(baseUrl, c.baseUrl) && forall i :: |c.baseUrl| <= i < |baseUrl| ==> baseUrl[i] == '/'
    ensures Truthy(headers) ==> c.headers == headers
    ensures !Truthy(headers) ==> c.headers == Dict(map[])
    ensures c.timeout == timeout
  {
    WebClient(RStrip(baseUrl, {'/'}), if Truthy(headers) then headers else Dict(map[]), timeout)
  }

  /** `BaseWebClient.from_config(config)`: `base_url` must be present (and a
      string, since it is stripped); `headers` is optional and `timeout`
      defaults to 30. */
  function FromConfig(config: map<string, Value>): (r: Result<WebClient>)
    ensures "base_url" !in config ==> r == Err(KeyError("base_url"))
    ensures "base_url" in config && !config["base_url"].Str? ==> r.Err? && r.error.AttributeError?
    ensures r.Ok? <==> "base_url" in config && config["base_url"].Str?
    ensures r.Ok? ==> r.value == Init(config["base_url"].s,
                                      if "headers" in config then config["headers"] else Null,
                                      if "timeout" in config then config["timeout"] else Int(30))
  {
    if "base_url" !in config then Err(KeyError("base_url"))
    else if !config["base_url"].Str? then Err(AttributeError("rstrip"))
    else
      var headers := if "headers" in config then config["headers"] else Null;
      var timeout := if "timeout" in config then config["timeout"] else Int(30);
      Ok(Init(config["base_url"].s, headers, timeout))
  }

  /** `BaseWebClient._make_url(path)`: the base, one slash, and the path
      after its run of leading slashes. The part of the path left out is
      all slashes, and the part kept does not start with one. */
  function MakeUrl(c: WebClient, path: string): (url: string)
    ensures StartsWith(url, c.baseUrl + "/")
    ensures EndsWith(path, url[|c.baseUrl| + 1..])
    ensures forall i :: 0 <= i < |path| - (|url| - |c.baseUrl| - 1) ==> path[i] == '/'
    ensures |url| > |c.baseUrl| + 1 ==> url[|c.baseUrl| + 1] != '/'
  {
    c.baseUrl + "/" + LStrip(path, {'/'})
  }

  /** For a client built by `Init`, the url is the stripped base, exactly one
      slash, and the path without its leading slashes. */
  lemma OneSlashAtJoin(baseUrl: string, path: string)
    ensures var c := Init(baseUrl);
      var url := MakeUrl(c, path);
      |url| > |c.baseUrl| && url[|c.baseUrl|] == '/' &&
      (|c.baseUrl| == 0 || url[|c.baseUrl| - 1] != '/') &&
      (|url| == |c.baseUrl| + 1 || url[|c.baseUrl| + 1] != '/')
  {
    var c := Init(baseUrl);
    var rest := LStrip(path, {'/'});
    var url := MakeUrl(c, path);
    assert url == c.baseUrl + "/" + rest;
    assert |url| > |c.baseUrl| + 1 ==> url[|c.baseUrl| + 1] == rest[0];
  }

  /** Leading slashes on the path make no difference. */
  lemma LeadingSlashIgnored(c: WebClient, path: string)
    ensures MakeUrl(c, "/" + path) == MakeUrl(c, path)
  {
    assert ("/" + path)[1..] == path;
  }

  /** A trailing slash on the base url makes no difference. */
  lemma TrailingSlashIgnored(baseUrl: string, path: string)
    ensures MakeUrl(Init(baseUrl + "/"), path) == MakeUrl(Init(baseUrl), path)
  {
    assert (baseUrl + "/")[..|baseUrl|] == baseUrl;
  }

  /** An example: base `api/`, path `/test`. */
  lemma MakeUrlExample()
    ensures MakeUrl(Init("api/"), "/test") == "api/test"
  {
    var base, path := "api", "test";
    assert base[2] == 'i' && path[0] == 't';
    assert RStrip(base, {'/'}) == base && LStrip(path, {'/'}) == path;
    assert (base + "/")[..3] == base && ("/" + path)[1..] == path;
  }
}
