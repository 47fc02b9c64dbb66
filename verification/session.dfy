/** The session wrapper (session.py): a SQLAlchemy `Session` whose legacy
    queries are always built by this library's `Query` class. */
module Sessions {
  import opened Wrappers
  import opened Values

  const QueryClsKwarg: string := "query_cls"

  /** The library's `Query` class (query.py). */
  const QueryClass: Value := Cls("sqlalchemy_oso_cloud.query.Query")

  /** The class attribute `Session._query_cls`. */
  const SessionQueryCls: Value := QueryClass

  const QueryClsUnsupported: string :=
    "sqlalchemy_oso_cloud does not currently support combining with other query classes"

  /** A session, seen as the arguments `sqlalchemy.orm.Session.__init__`
      received. */
  datatype Session = Session(args: seq<Value>, kwargs: Kwargs)

  /** The query class a SQLAlchemy session uses: its `query_cls` argument when
      one was given, otherwise the class attribute. */
  function QueryClassOf(s: Session): Value {
    if QueryClsKwarg in s.kwargs && s.kwargs[QueryClsKwarg] != NoneValue then s.kwargs[QueryClsKwarg]
    else SessionQueryCls
  }

  /** `Session(*args, **kwargs)`: a caller-supplied `query_cls` is refused;
      otherwise every argument is forwarded as given, plus `query_cls=Query`. */
  function NewSession(args: seq<Value>, kwargs: Kwargs): (r: Result<Session, Error>)
    ensures r.Failure? <==> QueryClsKwarg in kwargs
    ensures r.Failure? ==> r.error == ValueError(QueryClsUnsupported)
    ensures r.Success? ==>
      && r.value.args == args
      && r.value.kwargs.Keys == kwargs.Keys + {QueryClsKwarg}
      && r.value.kwargs[QueryClsKwarg] == QueryClass
      && (forall k :: k in kwargs ==> r.value.kwargs[k] == kwargs[k])
  {
    if QueryClsKwarg in kwargs then Failure(ValueError(QueryClsUnsupported))
    else Success(Session(args, kwargs[QueryClsKwarg := QueryClass]))
  }

  /** What `session.query(*entities, **kwargs)` builds: an instance of the
      session's query class over the given entities. */
  datatype LegacyQuery = LegacyQuery(cls: Value, entities: seq<Value>, session: Session, kwargs: Kwargs)

  /** `Session.query`: hands its entities and keywords to SQLAlchemy as given. */
  function Query(s: Session, entities: seq<Value>, kwargs: Kwargs): (r: LegacyQuery)
    ensures r.entities == entities && r.kwargs == kwargs && r.session == s
    ensures QueryClsKwarg in s.kwargs && s.kwargs[QueryClsKwarg] == QueryClass ==> r.cls == QueryClass
  {
    LegacyQuery(QueryClassOf(s), entities, s, kwargs)
  }

  /** Every session this class constructs builds its legacy queries with the
      library's `Query`, so they all carry `.authorized(...)`. */
  lemma SessionQueriesAreAuthorizable(args: seq<Value>, kwargs: Kwargs, entities: seq<Value>, queryKwargs: Kwargs)
    requires QueryClsKwarg !in kwargs
    ensures NewSession(args, kwargs).Success?
    ensures Query(NewSession(args, kwargs).value, entities, queryKwargs).cls == QueryClass
  {
  }
}
