# pydantic-client, modelled in Dafny

pydantic-client turns an annotated Python protocol class into an HTTP client.
Each method carries a path template such as `/users/{user_id}`. Calling the
method binds its arguments to that template and builds a request:

- the rendered path,
- the query parameters,
- a JSON or form body,
- the headers.

A transport (requests, aiohttp or httpx) then sends the request, and the
declared return type decides how the response is read.

The repository keeps three generations of the request builder side by side:

- `container.Parser`;
- `proxy.Proxy`;
- `decorators_new.rest`.

They disagree with each other, and each is modelled separately, exactly as
written.

The modules, one per file:

| file | module | models |
|---|---|---|
| wrappers.dfy | `Wrappers` | `Option`, `Result` and the Python exception classes the code raises |
| text.dfy | `Text` | the `str` operations used: one-character `split`, `join`, `strip`/`lstrip`/`rstrip`, substring search and ASCII case mapping |
| odict.dfy | `ODict` | insertion-ordered Python dicts as sequences of entries |
| values.dfy | `Values` | run-time values, classes and annotations, `in`, indexing and truthiness |
| fmt.dfy | `PyFormat` | `str.format(**kwargs)` on a path template, and the two ways the code finds placeholder names |
| descriptors.dfy | `Descriptors` | `utility.py` and `decorators.py`: building `MethodInfo` |
| rest_new.dfy | `RestNew` | `decorators_new.py`: argument classification into path, query, body and headers |
| container.dfy | `Containers` | `container.py`: `Parser` and `Container` |
| proxy.dfy | `Proxies` | `proxy.py` |
| dispatch.dfy | `Dispatch` | `clients/sync_client.py` `_request`: mock short-circuit, status check, response-kind dispatch |
| base_client.dfy | `BaseClient` | `base.py`: base url, headers, timeout, url joining |
| imports.dfy | `PyImports` | Python's `from m import a, b` |
| group.dfy | `Groups` | `group.py` |
| registries.dfy | `Registries` | `factory.py` and `main.py` |
| codegen.dfy | `Codegen` | the pure helpers of `cli.py`, which turn OpenAPI 3.0 Schema and Reference Objects (sections 4.7.24 and 4.7.23 of the OpenAPI Specification 3.0.3) into Python text |
| agno.dfy | `AgnoTools` | `tools/agno.py`: tool descriptors from signatures and docstrings |
| encoders.dfy | `Encoders` | `clients/encoders.py`: decoding one server-sent-events chunk (section 9.2.6 of the HTML Standard) |

Behaviour from outside the library is a function parameter the contracts
quantify over:

- `show` stands for the value-to-text conversion of `str.format` and f-strings.
- `send` is the transport.
- `extract` is nested extraction.
- `validate` is pydantic's `model_validate`.
- `construct` is calling a class with keyword arguments.
- `doRequest` is a client's `do_request`.
- `parse` is JSON decoding.

Fresh objects (a protocol instance, a built client) are given by identity,
as parameters.

## Model

| member | source | states |
|---|---|---|
| PyFormat.FormatOk | pydantic_client/decorators_new.py:28 | `template.format(**args)` succeeds exactly when the template is well formed and every field it names has an argument, so a placeholder with no argument fails rather than rendering |
| PyFormat.FormatLocal | pydantic_client/decorators_new.py:28 | the rendered text depends only on the arguments whose names the template uses |
| PyFormat.FormatLiteral | pydantic_client/decorators_new.py:28 | a template without braces renders as itself and names no field |
| PyFormat.SplitKeysScan | pydantic_client/decorators_new.py:31-33 | the names the `split('{')`/`split('}')` loop pops equal those of an independent left-to-right scan for `{` |
| PyFormat.FieldsInSplitKeys | pydantic_client/decorators_new.py:28-33 | every field `format` substituted is among the names the loop pops afterwards |
| PyFormat.SplitKeys | pydantic_client/decorators_new.py:31-33 | one name per `{` in the path, each free of `{` and `}`; the loop's names are the left-to-right scan of `SplitKeysScan` |
| PyFormat.RegexKeys | pydantic_client/container.py:17 | every name `findall` gives is free of `}` and of newlines; on well-formed one-line templates the names are the format fields (`RegexKeysAreFields`) |
| PyFormat.RegexKeysAreFields | pydantic_client/container.py:17-35 | for a well-formed one-line template without `{{`, `re.findall(r"{(.*?)}")` finds exactly the fields `format` substitutes, in order |
| Descriptors.Annotations | pydantic_client/utility.py:27-28 | the annotation map holds `return` exactly when the function has a return annotation, and otherwise the annotated parameters |
| Descriptors.CreateResponseType | pydantic_client/utility.py:9-17 | `return` is popped from the map; the result is None when there was no return annotation (or it was `None`), otherwise a model whose single field `val` has the return type; other entries are kept |
| Descriptors.ParseFunc | pydantic_client/utility.py:20-36 | the function, verb, url and form flag are passed through unchanged; `request_type` never holds `return`; the response type follows `create_response_type` |
| Descriptors.VerbHelpers | pydantic_client/decorators.py:8-27 | `rest` defaults to GET and JSON mode; `get`, `post`, `delete` and `put` fix their verb; decorating replaces the function by its `MethodInfo` |
| Descriptors.ParsedResponseNeverBytes | pydantic_client/utility.py:14-17 | a descriptor from `parse_func` never has `bytes` as its response type, because the return type is always wrapped |
| RestNew.ResponseModel | pydantic_client/decorators_new.py:23-25 | the response model is the return annotation exactly when it is a BaseModel subclass, else None |
| RestNew.LastModelDump | pydantic_client/decorators_new.py:42-49 | the body is the dump of the last model-valued argument in signature order, and is present exactly when some argument is a model |
| RestNew.NonModels | pydantic_client/decorators_new.py:50-52 | the query candidates are exactly the arguments that are not models |
| RestNew.Classify | pydantic_client/decorators_new.py:36-52 | the classification loop yields the last model dump for POST/PUT/PATCH (none otherwise) and the non-model arguments for GET/DELETE (none otherwise) |
| RestNew.Assemble | pydantic_client/decorators_new.py:54-62 | `params` is set iff the verb is GET/DELETE; `json` iff a body verb in JSON mode has a model; `data` iff a body verb in form mode has a model; `json` and `data` are never both set; the headers are the popped `request_headers` |
| RestNew.Invoke | pydantic_client/decorators_new.py:13-62 | a call without `self` fails with KeyError; a successful call's path is the template rendered from the arguments left after `self` and `request_headers` are popped, and the rest of the call is assembled from the leftover arguments |
| RestNew.InvokeOk | pydantic_client/decorators_new.py:17-28 | with `self` bound, the call fails exactly when the path cannot be rendered |
| RestNew.LeftoverContents | pydantic_client/decorators_new.py:17-33 | the classified arguments are exactly the bound ones other than `self`, `request_headers` and the placeholder names, with their values; so headers never reach query or body |
| RestNew.PoppedNamesNotFields | pydantic_client/decorators_new.py:17-28 | a path that renders names neither `self` nor `request_headers` |
| RestNew.FormSwapsSlots | pydantic_client/decorators_new.py:42-59 | switching `form_body` moves the same body from `json` to `data` and changes nothing else |
| RestNew.Bindings | pydantic_client/decorators_new.py:129-133 | the five module bindings fix their verb; only `post`, `put` and `patch` take a form flag |
| Containers.ApplyArgs | pydantic_client/container.py:19-31 | `self` is dropped; every model argument is replaced by its dump and the other values are kept, in order |
| Containers.ApplyArgsKeeps | pydantic_client/container.py:27-31 | a non-model argument is passed on unchanged and a model argument as its field map |
| Containers.QueryArgs | pydantic_client/container.py:36-37 | the substitution map holds exactly the truthy arguments named by placeholders |
| Containers.UrlParts | pydantic_client/container.py:44 | the path part runs up to the first `?` or `#` (or the end); the query is the text after that `?` up to the first `#` (or the end), and empty when the path part is not followed by `?` |
| Containers.PairsOf | pydantic_client/container.py:48-49 | the pairs are, in order, the pieces that have a `=` before their last character, each split at its first `=` into a name without `=` and a non-empty value |
| Containers.Unrendered | pydantic_client/container.py:48-50 | exactly the pairs whose value has no `{` are kept |
| Containers.QueryStringRoundTrip | pydantic_client/container.py:48-51 | parsing a joined query string gives back the pairs it was joined from |
| Containers.JoinQuery | pydantic_client/container.py:51 | the result is the bare path for an empty query string, else `path?query` |
| Containers.GetUrl | pydantic_client/container.py:33-51 | rendering succeeds exactly when `format` does on the truthy placeholder arguments; every placeholder name is removed from the arguments, substituted or not; the url is the rendered path plus the rendered query pairs |
| Containers.MissingOrFalsyFails | pydantic_client/container.py:36-42 | a placeholder whose argument is missing or falsy makes `_get_url` fail |
| Containers.AllTruthyRenders | pydantic_client/container.py:35-42 | a well-formed one-line template without `{{` renders when every placeholder has a truthy argument |
| Containers.UrlQueryRoundTrip | pydantic_client/container.py:44-51 | the url's query reads back as exactly the rendered pairs, and the url is the bare path iff no pair survives |
| Containers.DictToBody | pydantic_client/container.py:53-60 | one remaining argument gives its value, or the whole map when it is `request_headers`; zero or several give `{}` |
| Containers.PopHeaders | pydantic_client/container.py:71 | a dict body loses its `request_headers` entry, which becomes the headers; any other body makes `pop` raise |
| Containers.GetRequest | pydantic_client/container.py:62-85 | the url is `_get_url`'s; the body goes to `data` with `json_body={}` in form mode and the reverse otherwise; the verb is the descriptor's; `is_file` iff the response type is `bytes` |
| Containers.BodyAndHeaders | pydantic_client/container.py:54-71 | what reaches body and headers for one, none or several leftover arguments, including a lost `request_headers` |
| Containers.ParsedNeverFile | pydantic_client/container.py:84 | a request built from a `parse_func` descriptor never has `is_file` set |
| Containers.EmptyContainer | pydantic_client/container.py:89-91 | a new container has no bindings |
| Containers.BindProtocol | pydantic_client/container.py:93-94 | the instance now maps to the client, replacing any earlier entry; nothing else changes |
| Containers.BindFunc | pydantic_client/container.py:96-97 | the function now maps to the descriptor, replacing any earlier entry; nothing else changes |
| Containers.DoFunc | pydantic_client/container.py:99-107 | an unbound function raises ValueError and a call without positional arguments IndexError; otherwise the result is the bound client's `do_request` on the built request |
| Proxies.ApplyArgs | pydantic_client/proxy.py:20-25 | only `self` is removed; model values are kept as they are |
| Proxies.PathArgs | pydantic_client/proxy.py:27-29 | the substitution map holds every argument named by a placeholder, falsy ones included |
| Proxies.GetUrl | pydantic_client/proxy.py:27-30 | rendering succeeds iff the template is well formed and every field is both a `findall` name and an argument |
| Proxies.GetRequest | pydantic_client/proxy.py:32-49 | the body is the full argument map in `data` (form mode) or `json_body`, the other is `{}`; the verb is the descriptor's |
| Proxies.BodyHasEveryArgument | pydantic_client/proxy.py:39-42 | every argument but `self`, path arguments included, is in the body with its value |
| Proxies.RendersWhenEveryPlaceholderBound | pydantic_client/proxy.py:27-30 | a one-line template without `{{` renders exactly when it is well formed and every placeholder has an argument |
| Proxies.WarningNeverFails | pydantic_client/proxy.py:35-37 | when the rendered url still contains `{` and `}`, the warning branch, the request is built all the same with that url |
| Proxies.Invoke | pydantic_client/proxy.py:54-57 | the result is `response_type(**raw_response)`: it needs a class and a dict response, and a request failure is passed on |
| Proxies.ParsedResult | pydantic_client/proxy.py:54-65 | with a `parse_func` descriptor the result is built by the `val` wrapper model, and fails when there is no return annotation |
| Dispatch.Kind | pydantic_client/clients/sync_client.py:42-54 | the branch order: `str` gives text and `bytes` content even with an extract path; then a truthy extract path; then no model, `dict` or an `inspect` sentinel give raw JSON; then a model is validated; anything else is raw JSON |
| Dispatch.Sent | pydantic_client/clients/sync_client.py:33-35 | the transport parameters lack `response_model` and `response_extract_path` and keep everything else |
| Dispatch.Request | pydantic_client/clients/sync_client.py:27-54 | a mock is returned unchanged; otherwise a 4xx/5xx status raises before any reading |
| Dispatch.MockShortCircuits | pydantic_client/clients/sync_client.py:29-31 | with a mock the transport's answer makes no difference |
| Dispatch.TransportSeesSentOnly | pydantic_client/clients/sync_client.py:33-39 | the result depends on the transport only through its answer to the stripped parameters |
| Dispatch.ReadsByKind | pydantic_client/clients/sync_client.py:42-54 | after a successful status, the result of each branch: text, content, extraction, raw JSON or validation, with JSON decoding errors passed on |
| BaseClient.Init | pydantic_client/base.py:10-18 | the base url loses exactly its trailing slashes; falsy headers become `{}`; the timeout is kept |
| BaseClient.FromConfig | pydantic_client/base.py:20-26 | a missing `base_url` raises KeyError; `headers` is optional and `timeout` defaults to 30 |
| BaseClient.MakeUrl | pydantic_client/base.py:28-29 | the url starts with the base and one slash; what follows is a suffix of the path that does not start with a slash, and the part of the path dropped before it is all slashes |
| BaseClient.OneSlashAtJoin | pydantic_client/base.py:16-29 | for a client from `__init__` there is exactly one slash at the join |
| BaseClient.LeadingSlashIgnored | pydantic_client/base.py:28-29 | `_make_url("/p")` equals `_make_url("p")` |
| BaseClient.TrailingSlashIgnored | pydantic_client/base.py:16-29 | a trailing slash on the base url makes no difference |
| BaseClient.MakeUrlExample | pydantic_client/base.py:16-29 | base `api/` with path `/test` gives `api/test` |
| PyImports.ImportNames | pydantic_client/group.py:3 | an import succeeds iff the module defines every name, and otherwise fails on the first missing one |
| Groups.GroupImportFails | pydantic_client/group.py:3 | importing group.py fails with ImportError on `patch` |
| Groups.Patch | pydantic_client/group.py:42-43 | the `patch` helper the group needs: verb PATCH, url and form flag forwarded, decorating like the other verbs |
| Groups.NewGroup | pydantic_client/group.py:29-31 | the prefix loses exactly its trailing slashes; the name is kept |
| Groups.HelperRoutes | pydantic_client/group.py:33-46 | each helper's url is prefix followed by url with no separator added; put/post/patch forward the form flag, get/delete use JSON mode |
| Groups.TrailingSlashIgnored | pydantic_client/group.py:29-30 | `Group("p/")` equals `Group("p")` |
| Groups.BookExample | pydantic_client/group.py:29-34 | `Group("/book").get("/{book_id}")` routes `GET /book/{book_id}` |
| Registries.Lookup | pydantic_client/factory.py:28-37 | one entry is returned whatever is asked; otherwise a missing argument or an unregistered class raises ValueError and a registered class gives its value |
| Registries.SingleIgnoresArgument | pydantic_client/factory.py:29-30 | with one entry the argument does not matter |
| Registries.LookupOk | pydantic_client/main.py:24-33 | lookup succeeds iff there is exactly one entry or the class is registered |
| Registries.FactoryRegisterImportFails | pydantic_client/factory.py:15-20 | `register`'s wrapper fails with ImportError, as main.py defines no `PydanticClient`; with that name defined it would still fail with AttributeError on `get_client` |
| Registries.FactoryRegisterAsWritten | pydantic_client/factory.py:14-24 | the wrapper as written succeeds iff main.py defines `PydanticClient` and `ClientConfig` has `get_client`, and then does what `FactoryRegister` does |
| Registries.FactoryRegister | pydantic_client/factory.py:14-24 | the built client is stored under the class, overwriting, other entries unchanged; the class is returned |
| Registries.FactoryRegisterThenGet | pydantic_client/factory.py:19-37 | a registered class's client is found again |
| Registries.ManagerRegister | pydantic_client/main.py:15-20 | as intended: the fresh instance is bound to the web client in the container and stored under the class; the class is returned; other bindings unchanged |
| Registries.ManagerRegisterAsWritten | pydantic_client/main.py:15-20 | the wrapper as written succeeds iff `ClientConfig` has `get_client`, and then does what `ManagerRegister` does |
| Registries.ManagerRegisterFails | pydantic_client/main.py:16 | `register`'s wrapper fails with AttributeError: `ClientConfig` has no `get_client` |
| PyImports.GetAttr | pydantic_client/main.py:16 | attribute lookup succeeds iff the name is an attribute, and otherwise raises AttributeError naming it |
| Registries.ManagerRegisterThenGet | pydantic_client/main.py:15-33 | `get` on a registered class gives an instance bound to its web client |
| Codegen.RefName | pydantic_client/cli.py:10 | the name is the text after the last `/` of the reference |
| Codegen.TypeToPy | pydantic_client/cli.py:7-22 | only a mapping translates; a string or list that does not contain `"$ref"` fails with AttributeError, and every other non-mapping with TypeError; what a mapping translates to is stated by `RefCase`, `TypeCases` and `ArrayOfType` |
| Codegen.RefCase | pydantic_client/cli.py:9-11 | a schema with `$ref` maps to the reference's last segment, whatever else it holds |
| Codegen.TypeCases | pydantic_client/cli.py:12-22 | a missing `type` is `dict`; an array is `List[item]` (`List[dict]` without items) and fails iff its item fails; other types go through the table, `Any` for unknown |
| Codegen.ArrayOfType | pydantic_client/cli.py:13-15 | an array schema translates to `List[...]` around its item's translation |
| Codegen.EmptySchemaIsDict | pydantic_client/cli.py:12-15 | `{}` is `dict` and an array without items is `List[dict]` |
| Codegen.RefWinsOverType | pydantic_client/cli.py:9-12 | `$ref` beats `type` |
| Codegen.FieldLines | pydantic_client/cli.py:29-32 | one field line per property, in order, each the line that property alone gives |
| Codegen.FieldLineOf | pydantic_client/cli.py:29-32 | a property's line fails iff its type or the `in required` test fails, the type's error first; otherwise it is the field line for that name, type and requiredness |
| Codegen.GenModel | pydantic_client/cli.py:25-35 | the class text has required fields without default, others ` = None`, and a `pass` body when there are no properties |
| Codegen.ClassTextLines | pydantic_client/cli.py:33-35 | the class text splits back into header, body lines and a final empty piece |
| Codegen.CollectFrom | pydantic_client/cli.py:38-43 | collection succeeds iff every schema generates, and the result's names are the schemas' names |
| Codegen.CollectModels | pydantic_client/cli.py:38-43 | `collect_models` gives one entry per schema name |
| Codegen.CollectFromContents | pydantic_client/cli.py:40-43 | every name's class text is the one generated from its own schema |
| Codegen.MethodDecorator | pydantic_client/cli.py:46-53 | the five lower-case verbs map to themselves and anything else raises KeyError |
| Codegen.GetReqModel | pydantic_client/cli.py:56-64 | no request body gives None; a found name contains no `/` |
| Codegen.FirstRefAt | pydantic_client/cli.py:59-63 | the loop over media types returns the last segment of the first schema `$ref`, skipping media types whose schema has none |
| Codegen.FirstRef | pydantic_client/cli.py:60-64 | the loop over media types gives a name without `/`; which one is stated by `FirstRefAt` and `FirstRefNone` |
| Codegen.FirstRefNone | pydantic_client/cli.py:59-64 | with no schema `$ref` in any media type the loop gives None |
| Codegen.ReqModelOf | pydantic_client/cli.py:56-64 | for an operation whose request body has content `media`: the first media type with a schema `$ref` names the model by the reference's last segment, and none gives None |
| Codegen.GetRespModel | pydantic_client/cli.py:67-80 | no responses gives `Any`; a found name contains no `/` |
| Codegen.RefMediaModel | pydantic_client/cli.py:73-75 | a media type whose schema has a `$ref` names the reference's last segment |
| Codegen.ArrayMediaModel | pydantic_client/cli.py:76-78 | a media type whose schema is an array of `$ref` items names `List[...]` around the reference's last segment |
| Codegen.PlainMediaModel | pydantic_client/cli.py:72-78 | a media type with neither form names nothing |
| Codegen.ContentFirst | pydantic_client/cli.py:72-78 | the loop over one response's media types returns what the first naming media type names |
| Codegen.RespFromContent | pydantic_client/cli.py:73-79 | the loop over one response's media types gives a name without `/`; which one is stated by `ContentFirst` and `ContentNone` |
| Codegen.ContentNone | pydantic_client/cli.py:72-78 | with no naming media type the loop gives None |
| Codegen.CodesFirst | pydantic_client/cli.py:69-78 | the loop over responses returns what the first 2xx response naming a model names, passing over silent ones |
| Codegen.RespFromCodes | pydantic_client/cli.py:69-80 | the loop over responses gives a name without `/`; which one is stated by `CodesFirst` and `CodesNone` |
| Codegen.CodesNone | pydantic_client/cli.py:69-79 | with every response silent the result is `Any` |
| Codegen.RespModelOf | pydantic_client/cli.py:67-80 | in the first 2xx response with a naming media type, that media type's schema `$ref` gives its last segment and an array of `$ref` items gives `List[...]` of it; with none the result is `Any` |
| Codegen.SuccessOnly | pydantic_client/cli.py:70-71 | the kept responses are exactly those whose code starts with `2` |
| Codegen.OnlySuccessCodesRead | pydantic_client/cli.py:69-71 | dropping non-2xx responses does not change the result |
| Codegen.ParamLine | pydantic_client/cli.py:88-92 | a parameter line is `name: type`, with ` = None` unless required; a missing `name` raises KeyError |
| Codegen.ParseParameters | pydantic_client/cli.py:83-93 | only a list gives lines (an empty mapping or string gives none, any other non-list fails); for a list, one line per non-body parameter, in order, each that parameter's own line |
| Codegen.NonBody | pydantic_client/cli.py:86-87 | the kept parameters are exactly those not `in: body` |
| Codegen.ParamLinesSkipBody | pydantic_client/cli.py:83-93 | one line per non-body parameter, in order, each that parameter's own line |
| Codegen.SignatureParams | pydantic_client/cli.py:102-104 | `self` first, then the parameter lines, then `<lowered name>: <Name>` for a request model |
| Codegen.GenerateMethod | pydantic_client/cli.py:96-112 | an unknown verb raises KeyError first; a generated method needs an `operationId` |
| Codegen.MethodTextShape | pydantic_client/cli.py:106-111 | the method text starts with the decorator line, and the `def` line has `async ` iff the client is asynchronous |
| Codegen.GeneratedMethod | pydantic_client/cli.py:96-112 | a generated method is made of the verb's decorator, the operationId, the signature parameters, the response model and the summary |
| Codegen.FallbackOperationId | pydantic_client/cli.py:151 | the fallback is `verb_` followed by the slash-stripped path, character by character, with each ASCII letter or digit kept and every other character replaced by `_` |
| Codegen.WithOperationId | pydantic_client/cli.py:149-152 | a truthy operationId leaves the operation as it is; otherwise one is stored, so the operation always has one, and every other entry keeps its value |
| Codegen.FallbackStored | pydantic_client/cli.py:149-152 | without an operationId the stored one is the fallback |
| Codegen.FallbackExample | pydantic_client/cli.py:151 | `get /pets/{id}` gets `get_pets__id_` |
| AgnoTools.ParameterType | pydantic_client/tools/agno.py:9-33 | list and dict generics are `array` and `object`, a model is `object`, any non-class is `string`, and the result is always a JSON-schema type name |
| AgnoTools.ClassTypes | pydantic_client/tools/agno.py:11-31 | the table for the plain classes, with `string` for any other class |
| AgnoTools.GenericMatchesOrigin | pydantic_client/tools/agno.py:21-26 | `List[X]` and `Dict[K, V]` get the same type as `list` and `dict` |
| AgnoTools.ParamDoc | pydantic_client/tools/agno.py:52-55 | an absent `:param name:` marker gives an empty description, and a description never spans lines |
| AgnoTools.ParamDocOfLine | pydantic_client/tools/agno.py:52-55 | when the marker first occurs right after `pre` and the rest of its line does not repeat it, the description is the rest of that line, stripped |
| AgnoTools.FieldTypes | pydantic_client/tools/agno.py:63-73 | one property per model field, in order, typed by the field's annotation |
| AgnoTools.ParamSpecOf | pydantic_client/tools/agno.py:49-73 | a parameter's entry: its type, its docstring description, `required` iff it has no default, and properties iff it is a model |
| AgnoTools.ToolParamsKeys | pydantic_client/tools/agno.py:44-47 | the loop adds an entry for every parameter except `self` and no other |
| AgnoTools.ToolDescription | pydantic_client/tools/agno.py:41-42 | a non-empty description wins; otherwise the first line of the stripped docstring |
| AgnoTools.CreateTool | pydantic_client/tools/agno.py:36-78 | the tool has the function's name, the description above, and parameters for exactly the non-`self` parameters |
| AgnoTools.ToolParameter | pydantic_client/tools/agno.py:45-73 | each non-`self` parameter's entry is the one built from its own annotation, default and docstring |
| AgnoTools.RegisterTool | pydantic_client/tools/agno.py:81-91 | the wrapper calls the function unchanged and carries the tool built from it |
| Encoders.SseAsWritten | pydantic_client/clients/encoders.py:10-13 | a chunk that is not a data chunk, or that contains `[DONE]`, gives None |
| Encoders.SseAsWrittenFails | pydantic_client/clients/encoders.py:1-13 | every chunk past the guard raises NameError for `json` |
| Encoders.SseDecode | pydantic_client/clients/encoders.py:10-18 | with `json` imported: guarded chunks give None, a decoding error is passed on, and an empty object gives None |
| Encoders.DeltaDecoded | pydantic_client/clients/encoders.py:13-18 | a first choice whose delta has text content gives a message with exactly that text |
| Encoders.EmptyDeltaSkipped | pydantic_client/clients/encoders.py:16-18 | a delta without `content` gives None |
| Encoders.NoChoicesSkipped | pydantic_client/clients/encoders.py:14-15 | an object without `choices` gives None |
| Encoders.DoneSkipped | pydantic_client/clients/encoders.py:11-12 | any chunk containing `[DONE]` gives None without being decoded |

## Left out

- Transports: `async_client.py`, the top-level `sync_client.py`, `stream_client.py` and `clients/*` other than `sync_client.py` and `encoders.py` are network I/O. Where a result depends on them they are the parameters `send` and `doRequest`.
- `choose_wrapper` (decorators_new.py:117-120): picking the sync or async wrapper is coroutine detection. The two wrappers are identical line for line and are modelled once.
- Helpers whose code is not part of this model: `_get_mock_response`, `dump_request_params`, `before_request` and `_extract_nested_data`. The mock lookup's result is an input, and extraction is the parameter `extract`.
- Dispatch.Request: treats `response_model` as present in the dumped parameters. The code pops it without a default, so a dump lacking it would raise KeyError. `dump_request_params` is not part of this model.
- Containers.ApplyArgs: takes arguments already bound to the signature. The errors `inspect.getcallargs` raises for a bad call are not modelled. The same holds for Proxies.ApplyArgs and RestNew.Invoke.
- Containers.UrlParts: splits off only the fragment and the query. An absolute url's scheme and host stay in the path part. `urlparse` also strips leading C0 control characters and spaces from the url (`" /a?x=1"` gives path `/a`), splits `;params` off the last path segment (`/a;b` has path `/a`) and removes tab, CR and LF characters; none of these is modelled.
- Containers.PairsOf: does no percent-decoding and does not turn `+` into a space, both of which `parse_qsl` does.
- `str.format`: format specs and conversions (`{x!r:>4}`), attribute and index fields (`{a.b}`, `{a[0]}`) are left out. A field containing `.`, `[`, `!` or `:` is treated as a plain name. Value-to-text conversion is the parameter `show`.
- Text.Lower: maps ASCII only. `str.lower` also maps other scripts.
- Values.Dump: represents a model by its already-dumped fields, so `model_dump` is one level deep.
- `HttpRequest`: only the keyword arguments `get_request` passes are modelled. Whether the record accepts `json_body` (it declares `json`) is left to pydantic.
- `cli.main`: argument parsing, file reading, YAML/JSON loading and file writing are left out. Only the operationId fallback is modelled.
- Codegen.TypeToPy: the error of a non-mapping schema is modelled by kind only (AttributeError or TypeError), not by Python's message text.
- JSON numbers: loaded numbers are integers only. YAML's integer keys (status codes written unquoted) are not modelled; codes are strings.
- `openapi_type_to_py`'s `models` argument: never read by the code, so it is omitted.
- RestNew.Invoke: does not model the NameError `get_type_hints(func)` raises on every call (decorators_new.py:39 and :92) when an annotation is a string naming nothing; the hints themselves are never used.
- Descriptors.CreateResponseType: always builds the `val` wrapper. Pydantic refuses to create the class (utility.py:14-15) when the return type is one it cannot build a schema for, such as an arbitrary class; schema generation is not part of this model.
- `ClientConfig`, `schema/*` and `load_toml`: plain records and file I/O.
- AgnoTools.ParamDocOfLine: states the description only when the marker's line ends with a newline. A marker on the docstring's last line is covered by `ParamDoc` itself.

## Findings

| source | as written | input that shows it | evidently intended | confidence | as-written member | corrected member |
|---|---|---|---|---|---|---|
| pydantic_client/clients/encoders.py:1-13 | `json.loads` is called but the module never imports `json` | the chunk `data: {"choices": []}` raises NameError | `import json`, so the payload is decoded | not executed | Encoders.SseAsWrittenFails | Encoders.SseDecode |
| pydantic_client/group.py:3 | imports `patch` from decorators.py, which defines only `get`, `post`, `delete` and `put` | `import pydantic_client.group` raises ImportError | a `patch` helper like the other four, with verb PATCH | not executed | Groups.GroupImportFails | Groups.Patch |
| pydantic_client/factory.py:15 | imports `PydanticClient` from main.py, which defines no such name | applying `factory.register(config)` to any class raises ImportError | a client builder that exists, whose built client is stored under the class | not executed | Registries.FactoryRegisterImportFails | Registries.FactoryRegister |
| pydantic_client/main.py:16 | calls `client_config.get_client()`, but `ClientConfig` defines no `get_client` (factory.py:20 does the same) | `manager.register(ClientConfig(base_url="http://x"))(P)` raises AttributeError | build the configured web client and bind the fresh instance to it | not executed | Registries.ManagerRegisterFails | Registries.ManagerRegister |

## Where the code and its tests differ

tests/test_unknown_args_behavior.py:28-103 and its lines 128-164 declare clients through an older decorator interface. The model follows the code in each case.

- The tests expect a validation error for two model arguments (`post_twice_body_models`) and for a model argument on GET (`get_request_with_body`). In decorators_new.py:42-52 neither fails: the last model wins, and on GET/DELETE models are dropped (`RestNew.LastModelDump`, `RestNew.Assemble`).
- The tests pass a leftover-argument policy, `unknown_args_behavior='query'` or `'not_allow'`. None of the three request builders takes such a policy.
  - decorators_new.py:40-52 drops non-model arguments on POST/PUT/PATCH (`RestNew.Classify`).
  - container.py:53-60 keeps a single leftover argument as the body (`Containers.DictToBody`).
