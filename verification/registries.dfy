/** The two client registries (pydantic_client/factory.py and
    pydantic_client/main.py): insertion-ordered maps from a protocol class
    to a built client or a protocol instance, with the same lookup rule.
    Classes and instances are identified by `ObjId`; creating an object is
    modelled by the caller passing its fresh identity. */
module Registries {
  import opened Wrappers
  import opened ODict
  import opened Containers
  import opened PyImports

  /** A registry: `{protocol_class: value}` in insertion order. */
  type Registry = seq<Entry<ObjId, ObjId>>

  /** `get_client(protocol_class=None)` and `get(protocol_class=None)`: a
      single registered value is returned whatever is asked for; otherwise
      the class is required and must be registered. Stored values are
      objects, so always truthy. */
  function Lookup(d: Registry, protocolClass: Option<ObjId>): (r: Result<ObjId>)
    ensures |d| == 1 ==> r == Ok(d[0].val)
    ensures |d| != 1 && protocolClass.None? ==> r.Err? && r.error.ValueError?
    ensures |d| != 1 && protocolClass.Some? ==>
      (Get(d, protocolClass.value).None? ==> r.Err? && r.error.ValueError?) &&
      (Get(d, protocolClass.value).Some? ==> r == Ok(Get(d, protocolClass.value).value))
  {
    if |d| == 1 then Ok(d[0].val)
    else if protocolClass.None? then Err(ValueError("Multiple clients exists, protocol_class is required"))
    else
      match Get(d, protocolClass.value)
      case None => Err(ValueError("client for protocol_class not found"))
      case Some(client) => Ok(client)
  }

  /** With one registered entry, the argument is ignored. */
  lemma SingleIgnoresArgument(d: Registry, a: Option<ObjId>, b: Option<ObjId>)
    requires |d| == 1
    ensures Lookup(d, a) == Lookup(d, b)
  {
  }

  /** Lookup succeeds exactly when there is one entry or the class is
      registered. */
  lemma LookupOk(d: Registry, protocolClass: Option<ObjId>)
    ensures Lookup(d, protocolClass).Ok? <==>
      |d| == 1 || (protocolClass.Some? && protocolClass.value in Keys(d))
  {
  }

  /** `PydanticClientFactory`. */
  datatype Factory = Factory(clients: Registry)

  /** The names the factory's `register` wrapper imports from main.py. */
  const FactoryImports: seq<string> := ["PydanticClient"]

  /** `factory.register(config)(protocol_class)` as written, where
      `mainNames` are the names main.py defines. The wrapper imports
      `PydanticClient` (factory.py:15), then asks the config for
      `get_client` (factory.py:20) before anything is stored. */
  function FactoryRegisterAsWritten(mainNames: set<string>, f: Factory, protocolClass: ObjId, built: ObjId)
    : (r: Result<(Factory, ObjId)>)
    ensures r.Ok? ==> r.value == FactoryRegister(f, protocolClass, built)
    ensures r.Ok? <==> "PydanticClient" in mainNames && "get_client" in ClientConfigAttributes
  {
    var _ :- ImportNames(FactoryImports, mainNames);
    var _ :- GetAttr("get_client", ClientConfigAttributes);
    Ok(FactoryRegister(f, protocolClass, built))
  }

  /** As written, registering with the factory fails on the import, and
      would fail on `get_client` even if main.py defined `PydanticClient`;
      the registry is never changed. */
  lemma FactoryRegisterImportFails(f: Factory, protocolClass: ObjId, built: ObjId)
    ensures FactoryRegisterAsWritten(MainNames, f, protocolClass, built) == Err(ImportError("PydanticClient"))
    ensures FactoryRegisterAsWritten(MainNames + {"PydanticClient"}, f, protocolClass, built)
      == Err(AttributeError("get_client"))
  {
    assert FactoryImports[0] !in MainNames;
    assert ImportNames(FactoryImports, MainNames + {"PydanticClient"}) == Ok(());
    NoGetClient();
  }

  /** `factory.register(config)(protocol_class)` as intended, once the
      client can be built: `built` is the client the builder chain produces. The class
      is stored (overwriting any previous entry) and returned unchanged. */
  function FactoryRegister(f: Factory, protocolClass: ObjId, built: ObjId): (r: (Factory, ObjId))
    ensures r.1 == protocolClass
    ensures Get(r.0.clients, protocolClass) == Some(built)
    ensures forall c :: c != protocolClass ==> Get(r.0.clients, c) == Get(f.clients, c)
    ensures protocolClass in Keys(f.clients) ==> Keys(r.0.clients) == Keys(f.clients)
    ensures protocolClass !in Keys(f.clients) ==> Keys(r.0.clients) == Keys(f.clients) + [protocolClass]
  {
    forall c | c != protocolClass
      ensures Get(Put(f.clients, protocolClass, built), c) == Get(f.clients, c)
    {
      PutGet(f.clients, protocolClass, built, c);
    }
    PutGet(f.clients, protocolClass, built, protocolClass);
    (Factory(Put(f.clients, protocolClass, built)), protocolClass)
  }

  /** `factory.get_client(protocol_class)`. */
  function FactoryGetClient(f: Factory, protocolClass: Option<ObjId>): Result<ObjId> {
    Lookup(f.clients, protocolClass)
  }

  /** A registered class is found again, whatever else the registry
      holds. */
  lemma FactoryRegisterThenGet(f: Factory, protocolClass: ObjId, built: ObjId)
    ensures FactoryGetClient(FactoryRegister(f, protocolClass, built).0, Some(protocolClass)) == Ok(built)
  {
    var d := FactoryRegister(f, protocolClass, built).0.clients;
    if |d| == 1 {
      assert d == [d[0]];
      assert Get(d, protocolClass) == Some(built);
    }
  }

  /** `PydanticClientManager`: the registry of protocol instances. The
      container the instances are bound in is passed alongside. */
  datatype Manager = Manager(clients: Registry)

  /** `manager.register(config)(protocol_class)` as intended: `webClient`
      is the client built from the config and `protocol` the fresh instance of the class.
      The instance is bound to the client in the container, stored under its
      class, and the class is returned unchanged. */
  function ManagerRegister(m: Manager, c: Container, protocolClass: ObjId, protocol: ObjId, webClient: ObjId)
    : (r: (Manager, Container, ObjId))
    ensures r.2 == protocolClass
    ensures Get(r.0.clients, protocolClass) == Some(protocol)
    ensures forall k :: k != protocolClass ==> Get(r.0.clients, k) == Get(m.clients, k)
    ensures protocol in r.1.protocolClients && r.1.protocolClients[protocol] == webClient
    ensures r.1.funcBindings == c.funcBindings
    ensures forall p :: p != protocol && p in c.protocolClients ==>
      p in r.1.protocolClients && r.1.protocolClients[p] == c.protocolClients[p]
  {
    forall k | k != protocolClass
      ensures Get(Put(m.clients, protocolClass, protocol), k) == Get(m.clients, k)
    {
      PutGet(m.clients, protocolClass, protocol, k);
    }
    PutGet(m.clients, protocolClass, protocol, protocolClass);
    (Manager(Put(m.clients, protocolClass, protocol)), BindProtocol(c, protocol, webClient), protocolClass)
  }

  /** `manager.register(config)(protocol_class)` as written: main.py:16
      asks the config for `get_client`, which `ClientConfig` does not
      define, before the instance is created, bound or stored. */
  function ManagerRegisterAsWritten(m: Manager, c: Container, protocolClass: ObjId, protocol: ObjId, webClient: ObjId)
    : (r: Result<(Manager, Container, ObjId)>)
    ensures r.Ok? ==> r.value == ManagerRegister(m, c, protocolClass, protocol, webClient)
    ensures r.Ok? <==> "get_client" in ClientConfigAttributes
  {
    var _ :- GetAttr("get_client", ClientConfigAttributes);
    Ok(ManagerRegister(m, c, protocolClass, protocol, webClient))
  }

  /** As written, registering with the manager always raises AttributeError,
      so neither the registry nor the container changes. */
  lemma ManagerRegisterFails(m: Manager, c: Container, protocolClass: ObjId, protocol: ObjId, webClient: ObjId)
    ensures ManagerRegisterAsWritten(m, c, protocolClass, protocol, webClient) == Err(AttributeError("get_client"))
  {
    NoGetClient();
  }

  /** `manager.get(protocol_class)`. */
  function ManagerGet(m: Manager, protocolClass: Option<ObjId>): Result<ObjId> {
    Lookup(m.clients, protocolClass)
  }

  /** The instance `get` returns for a registered class is bound to the web
      client in the container. */
  lemma ManagerRegisterThenGet(m: Manager, c: Container, protocolClass: ObjId, protocol: ObjId, webClient: ObjId)
    ensures var r := ManagerRegister(m, c, protocolClass, protocol, webClient);
      ManagerGet(r.0, Some(protocolClass)) == Ok(protocol) &&
      r.1.protocolClients[ManagerGet(r.0, Some(protocolClass)).value] == webClient
  {
    var d := ManagerRegister(m, c, protocolClass, protocol, webClient).0.clients;
    if |d| == 1 {
      assert d == [d[0]];
      assert Get(d, protocolClass) == Some(protocol);
    }
  }
}
