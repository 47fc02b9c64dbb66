# sqlalchemy-oso-cloud, modelled in Dafny

This project models the core of `sqlalchemy-oso-cloud`. The library connects
SQLAlchemy models to the Oso Cloud authorization service. It lets a query be
restricted to the rows an actor may access: it finds the single model a
statement selects and asks Oso's `list_local` for an SQL predicate over that
model's `<tablename>.id` column. It then attaches the predicate as a
`with_loader_criteria(..., include_aliases=True)` option. Around that
rewriter sit:

- a process-wide client singleton (`init` / `get_oso`);
- three schema-tagging wrappers that mark relationships and columns in their
  `info` dictionaries;
- a `Session` subclass that forces the library's `Query` class;
- an earlier `AuthorizedSelect` variant that authorizes every model it finds.

Each module is pure. State and effects are passed explicitly:

- The global `oso` variable is a value, `OsoClient.State(oso: Option<Client>)`.
  `Init` returns the next state together with its outcome.
- The authorization service is a function parameter,
  `Service = (Client, FilterRequest) -> Result<string, Error>`. A failure it
  returns is handed back unchanged.
- Every operation that may call the service returns a `Traced` value. This
  pairs the result with the exact sequence of `list_local` requests issued.
  "No request before a usage error" is therefore an ordinary postcondition.
- The environment is a `map<string, string>`. The name of the temporary
  data-bindings file is a parameter.
- SQLAlchemy objects are opaque records: column descriptions, loader-criteria
  options, statements, mapped columns and relationships.
- Iterating over a Python `set` happens in an order the program does not
  control. It is modelled by the nondeterministic method `Sql.Iterate`, so the
  two rewriters that iterate over sets are methods.
- A model class carries an identity, because Python compares classes by identity and not by name.
- Exceptions are `Failure(Error)` values that carry the source's exact
  messages.

Files: `wrappers.dfy` (Option/Result), `values.dfy` (Python values, kwargs,
exceptions), `orm.dfy`, `oso.dfy`, `sql.dfy` (the SQLAlchemy records and the
AND semantics of loader criteria), `auth.dfy`, `select.dfy`, `session.dfy`.

Notes on the code's behaviour:

- `init` has no double-initialisation guard. A second call replaces the client
  (`OsoClient.SecondInitReplaces`).
- The filter column is always `<tablename>.id`, not the model's declared
  primary key.
- No filter is cached.
- `init` ignores its registry argument and installs a fixed bindings file
  (`OsoClient.InitIgnoresRegistry`).

## Model

| member | source | states |
|---|---|---|
| Auth.ExtractUniqueModels | src/sqlalchemy_oso_cloud/auth.py:11-18 | a model is in the result iff some column description has it as its entity (`None` entities contribute nothing); duplicates collapse, so the result has at most as many models as there are descriptions |
| Auth.CreateAuthCriteriaForModel | src/sqlalchemy_oso_cloud/auth.py:21-33 | before `init` it raises `RuntimeError` and issues no request; otherwise it issues exactly one `list_local` request with the actor, the action, `resource_type = model.__name__` and `column = "<tablename>.id"`; a service failure comes back unchanged; on success the criteria are the constant `literal_column` of the service's SQL text |
| Auth.Authorized | src/sqlalchemy_oso_cloud/auth.py:36-76 | more than one model raises ValueError "Currently only single model authorization is supported." and zero models raise "Must provide a model to authorize against.", both with no request; a single non-`Resource` model gives an empty option list with no request (even before `init`); a single `Resource` model gives exactly one option for that model, with `include_aliases=True` and the filter the service returned; the result has at most one option |
| Auth.ApplyAuthorizationOptions | src/sqlalchemy_oso_cloud/auth.py:79-87 | a statement over two or more distinct entities fails with the multiple-models error, and one over none with the no-model error, both with no request; a statement over exactly one model gives the statement with exactly the options `authorized` produced for that model appended, and the same requests and errors; a non-`Resource` model leaves the statement unchanged; the selected columns and the existing options are kept |
| Auth.SameNamedClassesStayDistinct | src/sqlalchemy_oso_cloud/auth.py:13-17 | models are compared by class identity, as Python's `set` does: any statement with columns of two classes of different identity, even ones sharing a name and a table, has both among its models and at least two models, which `Auth.ApplyAuthorizationOptions` refuses with the multiple-models error |
| Auth.AuthorizationConjoins | src/sqlalchemy_oso_cloud/auth.py:64-76 | the authorized statement admits a row of the model iff the original statement admits it and the service's filter holds, so chained authorizations intersect; rows of other models are filtered exactly as before |
| Sql.WithOptionsConjoins | src/sqlalchemy_oso_cloud/auth.py:85-87 | attaching options with `.options(...)` keeps every criterion already on the statement: a row of a model passes iff it passed before and every new clause for that model holds |
| Sql.Iterate | src/sqlalchemy_oso_cloud/select.py:27-30 | iterating over a set visits every element exactly once, in some order |
| Orm.TagKeysDistinct | src/sqlalchemy_oso_cloud/orm.py:14-16 | the three info keys are pairwise distinct |
| Orm.Relation | src/sqlalchemy_oso_cloud/orm.py:18-30 | the relationship receives the caller's arguments unchanged; its `info` gains the relation key mapped to `None` and keeps every other entry, so its tags are the previous tags plus the relation tag |
| Orm.Attribute | src/sqlalchemy_oso_cloud/orm.py:32-43 | the mapped column receives the caller's arguments unchanged; its column `info` gains the attribute key mapped to `None` and keeps every other entry |
| Orm.RemoteRelation | src/sqlalchemy_oso_cloud/orm.py:45-63 | fails with ValueError "remote_class_name is required" iff the keyword is absent; otherwise the column receives the positional arguments unchanged and every keyword except `remote_class_name`; the column `info` maps the remote-relation key to the given class name and keeps every other entry; reading the tags back gives that class name |
| OsoClient.ClientConfig | src/sqlalchemy_oso_cloud/oso.py:15-27 | `data_bindings` among the caller's keywords raises NotImplementedError; otherwise every caller keyword is kept; a missing `url` becomes `$OSO_URL` or else "https://api.osohq.com"; a missing `api_key` becomes `$OSO_API_KEY` or else `None`; `data_bindings` is the temporary file's path |
| OsoClient.Init | src/sqlalchemy_oso_cloud/oso.py:15-29 | a rejected call leaves the global client as it was and raises NotImplementedError; a successful one installs a client constructed with exactly the derived keywords |
| OsoClient.GetOso | src/sqlalchemy_oso_cloud/oso.py:31-34 | raises RuntimeError with the "must be initialized" message iff no client is installed, and otherwise returns the installed client |
| OsoClient.GetOsoAfterInit | src/sqlalchemy_oso_cloud/oso.py:24-34 | after a successful `init`, `get_oso` returns the client `init` constructed; that client points at the bindings file and keeps every caller keyword |
| OsoClient.FailedInitLeavesUninitialized | src/sqlalchemy_oso_cloud/oso.py:21-23 | an `init` that rejects `data_bindings` leaves `get_oso` raising as before |
| OsoClient.SecondInitReplaces | src/sqlalchemy_oso_cloud/oso.py:28-29 | the outcome of `init` does not depend on any client installed earlier, so a second call replaces the first |
| OsoClient.InitIgnoresRegistry | src/sqlalchemy_oso_cloud/oso.py:9-15 | the outcome of `init` does not depend on the registry argument |
| Select.Wrap | src/sqlalchemy_oso_cloud/select.py:13-22 | wrapping a statement keeps it and captures the global client; before `init` it raises RuntimeError |
| Select.ExtractUniqueModels | src/sqlalchemy_oso_cloud/select.py:41-48 | a model is in the result iff some column description has it as its entity |
| Select.CreateAuthFilter | src/sqlalchemy_oso_cloud/select.py:50-62 | exactly one request on the captured client, for `model.__name__` and `"<tablename>.id"`; a failure comes back unchanged; on success the criteria are the constant `literal_column` of the service's SQL text |
| Select.BuildOptions | src/sqlalchemy_oso_cloud/select.py:28-38 | request k is for model k; on success there is one option per model, in order, each with `include_aliases=True` and the filter its own request returned; on failure the loop stopped at the first failing request: every earlier request succeeded, the last one failed, and its error is returned |
| Select.AuthorizedFor | src/sqlalchemy_oso_cloud/select.py:25-39 | with no models the statement is returned unchanged and no request is made; the models asked are distinct models of the statement, one per request; on failure every request before the last succeeded and the last one's error is returned unchanged; on success the client and selected columns are kept and the old options are a prefix; the new options name exactly the distinct models, one each, with no limit on their number and no `Resource` check; each new option carries the filter answered to its request |
| Sessions.NewSession | src/sqlalchemy_oso_cloud/session.py:25-33 | a caller-supplied `query_cls` raises ValueError iff present; otherwise the base session receives the positional arguments and every keyword unchanged, plus `query_cls` set to the library's `Query` |
| Sessions.Query | src/sqlalchemy_oso_cloud/session.py:67-75 | entities and keywords reach SQLAlchemy unchanged; a session whose `query_cls` is the library's `Query` builds queries of that class |
| Sessions.SessionQueriesAreAuthorizable | src/sqlalchemy_oso_cloud/session.py:23-33 | every session the subclass constructs builds its legacy queries with the library's `Query` class, whether SQLAlchemy reads the `query_cls` argument or the `_query_cls` class attribute |

## Left out

- The binding compiler and role mappings. They do not exist in this code: `init` installs a fixed YAML string with one `has_relation` fact. Names that `tests/models.py` uses, such as `HasRole` and `remote_resource_name`, are not defined in `orm.py`.
- The content of that YAML, the writing of the temporary file, and its deletion when the `with` block ends. The model sees only the file's name.
- Reading the environment. The environment is a map parameter.
- The `oso_cloud.Oso` client and `list_local` policy evaluation. The service is an arbitrary function parameter, and a client is identified by the keywords it was constructed with. Argument validation inside `Oso(...)` is not modelled.
- SQLAlchemy internals: statement compilation and execution, eager loading, and how loader criteria reach aliases and subclasses. An option records only its entity, its constant criteria and its `include_aliases` flag. `Sql.Admits` gives rows the abstract meaning that all clauses for an entity must hold.
- OsoClient.Init: the outcome does not model the temporary-file path being gone once `init` returns.
- Sessions.Query: does not model the RuntimeError that `Query.__init__` raises before `init`, because `query.py` is not part of this model.
- Sessions.QueryClassOf: how SQLAlchemy's own `Session` picks its query class is reduced to "the `query_cls` argument if it is not `None`, else the `_query_cls` class attribute". Both are the library's `Query` here.
- `query.py`, `select_cls.py`, `select_impl.py` and `__init__.py`. They only delegate to `_apply_authorization_options`, copy `__dict__` in constructors, or re-export names.
- Select.Wrap: only the branch that wraps an existing `Select` is modelled. The other branch builds a statement from raw arguments inside SQLAlchemy. The unused `_auth_cache` and the module-level `select()` factory are left out too.
- Python-level failures the code does not handle, such as a column description without an `entity` key, a model without `__tablename__`, or `issubclass` called on a non-class. Models are well-formed records by construction.
