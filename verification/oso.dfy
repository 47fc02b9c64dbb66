/** The process-wide Oso client (oso.py): `init` derives the client's keyword
    arguments and installs the client; `get_oso` hands it out. Also the shape of
    the client's `list_local` request, which the rewriters issue. */
module OsoClient {
  import opened Wrappers
  import opened Values

  const UrlKwarg: string := "url"
  const ApiKeyKwarg: string := "api_key"
  const DataBindingsKwarg: string := "data_bindings"

  const UrlVariable: string := "OSO_URL"
  const ApiKeyVariable: string := "OSO_API_KEY"
  const DefaultUrl: string := "https://api.osohq.com"

  const DataBindingsUnsupported: string := "manual data_bindings are not supported yet"
  const NotInitialized: string :=
    "sqlalchemy_oso_cloud must be initialized before getting the Oso client"

  /** The process environment, as read by `os.getenv`. */
  type Environment = map<string, string>

  /** An `oso_cloud.Oso` client, identified by the keyword arguments it was
      constructed with. */
  datatype Client = Client(config: Kwargs)

  /** The module-global `oso`: `None` until `init` succeeds. */
  datatype State = State(oso: Option<Client>)

  const Uninitialized: State := State(None)

  /** `os.getenv(name, default)`. */
  function GetEnv(env: Environment, name: string, default: Value): Value {
    if name in env then Str(env[name]) else default
  }

  /** The keyword arguments `init` passes to `Oso(...)`, where `bindingsPath` is
      the name of the temporary file holding the fixed data-bindings YAML. */
  function ClientConfig(kwargs: Kwargs, env: Environment, bindingsPath: string): (r: Result<Kwargs, Error>)
    ensures r.Failure? <==> DataBindingsKwarg in kwargs
    ensures r.Failure? ==> r.error == NotImplementedError(DataBindingsUnsupported)
    ensures r.Success? ==>
      && r.value.Keys == kwargs.Keys + {UrlKwarg, ApiKeyKwarg, DataBindingsKwarg}
      && (forall k :: k in kwargs ==> r.value[k] == kwargs[k])
    ensures r.Success? && UrlKwarg !in kwargs ==>
      r.value[UrlKwarg] == (if UrlVariable in env then Str(env[UrlVariable]) else Str(DefaultUrl))
    ensures r.Success? && ApiKeyKwarg !in kwargs ==>
      r.value[ApiKeyKwarg] == (if ApiKeyVariable in env then Str(env[ApiKeyVariable]) else NoneValue)
    ensures r.Success? ==> r.value[DataBindingsKwarg] == Str(bindingsPath)
  {
    var withUrl :=
      if UrlKwarg !in kwargs then kwargs[UrlKwarg := GetEnv(env, UrlVariable, Str(DefaultUrl))]
      else kwargs;
    var withKey :=
      if ApiKeyKwarg !in withUrl then withUrl[ApiKeyKwarg := GetEnv(env, ApiKeyVariable, NoneValue)]
      else withUrl;
    if DataBindingsKwarg in withKey then
      Failure(NotImplementedError(DataBindingsUnsupported))
    else
      Success(withKey[DataBindingsKwarg := Str(bindingsPath)])
  }

  /** `init(registry, **kwargs)`: the state afterwards and whether it raised.
      The registry is not consulted. */
  function Init(st: State, registry: Value, kwargs: Kwargs, env: Environment, bindingsPath: string)
    : (r: (State, Result<(), Error>))
    ensures r.1.Failure? <==> DataBindingsKwarg in kwargs
    ensures r.1.Failure? ==> r.0 == st && r.1.error == NotImplementedError(DataBindingsUnsupported)
    ensures r.1.Success? ==>
      && r.0.oso.Some?
      && ClientConfig(kwargs, env, bindingsPath) == Success(r.0.oso.value.config)
  {
    match ClientConfig(kwargs, env, bindingsPath)
    case Failure(e) => (st, Failure(e))
    case Success(config) => (State(Some(Client(config))), Success(()))
  }

  /** `get_oso()`: the installed client, or `RuntimeError` before `init`. */
  function GetOso(st: State): (r: Result<Client, Error>)
    ensures r.Failure? <==> st.oso.None?
    ensures r.Failure? ==> r.error == RuntimeError(NotInitialized)
    ensures r.Success? ==> st.oso == Some(r.value)
  {
    match st.oso
    case None => Failure(RuntimeError(NotInitialized))
    case Some(client) => Success(client)
  }

  /** After a successful `init`, `get_oso` returns the client `init` built, and
      that client points at the data-bindings file, carries the caller's
      `url`/`api_key` when given, and nothing else of the caller's changes. */
  lemma GetOsoAfterInit(st: State, registry: Value, kwargs: Kwargs, env: Environment, bindingsPath: string)
    requires DataBindingsKwarg !in kwargs
    ensures var after := Init(st, registry, kwargs, env, bindingsPath).0;
      && GetOso(after).Success?
      && GetOso(after).value.config[DataBindingsKwarg] == Str(bindingsPath)
      && (forall k :: k in kwargs ==> GetOso(after).value.config[k] == kwargs[k])
  {
  }

  /** `get_oso` before any successful `init` raises, whatever `init` calls
      failed in between. */
  lemma FailedInitLeavesUninitialized(registry: Value, kwargs: Kwargs, env: Environment, bindingsPath: string)
    requires DataBindingsKwarg in kwargs
    ensures GetOso(Init(Uninitialized, registry, kwargs, env, bindingsPath).0)
      == Failure(RuntimeError(NotInitialized))
  {
  }

  /** There is no double-initialisation guard: a second `init` replaces the
      client, and the result does not depend on what was installed before. */
  lemma SecondInitReplaces(st1: State, st2: State, registry: Value, kwargs: Kwargs, env: Environment, bindingsPath: string)
    requires DataBindingsKwarg !in kwargs
    ensures Init(st1, registry, kwargs, env, bindingsPath) == Init(st2, registry, kwargs, env, bindingsPath)
  {
  }

  /** The `registry` argument has no effect. */
  lemma InitIgnoresRegistry(st: State, registry1: Value, registry2: Value, kwargs: Kwargs, env: Environment, bindingsPath: string)
    ensures Init(st, registry1, kwargs, env, bindingsPath) == Init(st, registry2, kwargs, env, bindingsPath)
  {
  }

  /** The arguments of `list_local(actor=..., action=..., resource_type=..., column=...)`. */
  datatype FilterRequest = FilterRequest(actor: Value, action: string, resourceType: string, column: string)

  /** The authorization service behind `list_local`: an SQL predicate text, or a
      failure the library does not interpret. */
  type Service = (Client, FilterRequest) -> Result<string, Error>

  /** A value together with the `list_local` requests issued to produce it, in
      order. */
  datatype Traced<+T> = Traced(value: T, requests: seq<FilterRequest>)
}
