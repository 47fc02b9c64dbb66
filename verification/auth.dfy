/** The query rewriter (auth.py): find the one model a statement selects, ask
    the authorization service for a row filter on it, and attach that filter as
    a loader-criteria option. */
module Auth {
  import opened Wrappers
  import opened Values
  import opened Orm
  import opened OsoClient
  import opened Sql

  const MultipleModels: string := "Currently only single model authorization is supported."
  const NoModel: string := "Must provide a model to authorize against."

  /** `extract_unique_models`: the distinct entities of the column
      descriptions; plain columns (entity `None`) contribute nothing. */
  function ExtractUniqueModels(descs: seq<ColumnDescription>): (models: set<Model>)
    ensures forall m :: m in models <==> exists i :: 0 <= i < |descs| && descs[i].entity == Some(m)
    ensures |models| <= |descs|
  {
    if descs == [] then {}
    else
      var rest := ExtractUniqueModels(descs[..|descs| - 1]);
      var last := descs[|descs| - 1];
      assert forall i :: 0 <= i < |descs| - 1 ==> descs[..|descs| - 1][i] == descs[i];
      if last.entity.Some? then rest + {last.entity.value} else rest
  }

  /** The row-filter request for `model`: its class name, and the `id` column
      of its table. */
  function FilterRequestFor(model: Model, actor: Value, action: string): FilterRequest {
    FilterRequest(actor, action, model.name, model.tablename + ".id")
  }

  /** `create_auth_criteria_for_model`: fetch the global client, issue one
      `list_local` request, and wrap the returned SQL as a criteria callable
      that ignores the class it is called with. */
  function CreateAuthCriteriaForModel(st: State, service: Service, model: Model, actor: Value, action: string)
    : (r: Traced<Result<Criteria, Error>>)
    ensures st.oso.None? ==> r == Traced(Failure(RuntimeError(NotInitialized)), [])
    ensures st.oso.Some? ==> r.requests == [FilterRequestFor(model, actor, action)]
    ensures r.requests != [] ==>
      && r.requests[0].actor == actor && r.requests[0].action == action
      && r.requests[0].resourceType == model.name
      && r.requests[0].column == model.tablename + ".id"
    ensures st.oso.Some? ==>
      (r.value.Success? <==> service(st.oso.value, FilterRequestFor(model, actor, action)).Success?)
    ensures st.oso.Some? && r.value.Failure? ==>
      service(st.oso.value, FilterRequestFor(model, actor, action)) == Failure(r.value.error)
    ensures r.value.Success? ==>
      r.value.value == ConstantCriteria(LiteralColumn(service(st.oso.value, FilterRequestFor(model, actor, action)).value))
  {
    match GetOso(st)
    case Failure(e) => Traced(Failure(e), [])
    case Success(client) =>
      var req := FilterRequestFor(model, actor, action);
      match service(client, req)
      case Failure(e) => Traced(Failure(e), [req])
      case Success(sqlFilter) => Traced(Success(ConstantCriteria(LiteralColumn(sqlFilter))), [req])
  }

  /** `authorized(actor, action, *models)`: the loader-criteria options for one
      model. Zero or several models are refused before any request; a model
      that is not a `Resource` yields no option and no request. */
  function Authorized(st: State, service: Service, actor: Value, action: string, models: seq<Model>)
    : (r: Traced<Result<seq<LoaderCriteria>, Error>>)
    ensures |models| > 1 ==> r == Traced(Failure(ValueError(MultipleModels)), [])
    ensures |models| == 0 ==> r == Traced(Failure(ValueError(NoModel)), [])
    ensures |models| == 1 ==>
      r.requests == (if models[0].isResource && st.oso.Some?
                     then [FilterRequestFor(models[0], actor, action)] else [])
    ensures |models| == 1 && !models[0].isResource ==> r.value == Success([])
    ensures |models| == 1 && models[0].isResource && st.oso.None? ==>
      r.value == Failure(RuntimeError(NotInitialized))
    ensures r.value.Success? ==> |models| == 1 && |r.value.value| == (if models[0].isResource then 1 else 0)
    ensures r.value.Success? && r.value.value != [] ==>
      && r.value.value[0].entity == models[0]
      && r.value.value[0].includeAliases
      && st.oso.Some?
      && service(st.oso.value, FilterRequestFor(models[0], actor, action))
         == Success(r.value.value[0].criteria.clause.text)
    ensures r.value.Failure? && r.requests != [] ==>
      service(st.oso.value, r.requests[0]) == Failure(r.value.error)
  {
    if |models| > 1 then Traced(Failure(ValueError(MultipleModels)), [])
    else if |models| == 0 then Traced(Failure(ValueError(NoModel)), [])
    else
      var model := models[0];
      if !model.isResource then Traced(Success([]), [])
      else
        var auth := CreateAuthCriteriaForModel(st, service, model, actor, action);
        match auth.value
        case Failure(e) => Traced(Failure(e), auth.requests)
        case Success(criteria) =>
          Traced(Success([LoaderCriteria(model, criteria, true)]), auth.requests)
  }

  /** A set with one element is that element's singleton. */
  lemma SingletonSet<T>(s: set<T>, x: T, y: T)
    requires |s| == 1 && x in s && y in s
    ensures x == y
  {
    if x != y {
      assert {x, y} <= s;
      assert |{x, y}| == 2;
      SubsetCardinality({x, y}, s);
    }
  }

  /** Iterating over a one-element set yields just that element. */
  lemma IterationOfSingleton<T>(s: set<T>, xs: seq<T>, m: T)
    requires |s| == 1 && m in s
    requires |xs| == |s| && forall x :: x in xs <==> x in s
    ensures xs == [m]
  {
    assert xs[0] in s;
    SingletonSet(s, xs[0], m);
  }

  lemma SubsetCardinality<T>(a: set<T>, b: set<T>)
    requires a <= b
    ensures |a| <= |b|
  {
    assert b == a + (b - a);
  }

  /** `query_obj.options(*auth_options)` applied to the outcome of `authorized`:
      the same requests and error, or the statement with the options added. */
  function AttachOptions(stmt: Statement, auth: Traced<Result<seq<LoaderCriteria>, Error>>)
    : (r: Traced<Result<Statement, Error>>)
    ensures auth.value == Success([]) ==> r.value == Success(stmt)
  {
    match auth.value
    case Failure(e) => Traced(Failure(e), auth.requests)
    case Success(opts) =>
      assert opts == [] ==> WithOptions(stmt, opts) == stmt;
      Traced(Success(WithOptions(stmt, opts)), auth.requests)
  }

  /** `_apply_authorization_options(query_obj, actor, action)`: extract the
      statement's models, authorize them, and return the statement with the
      resulting options attached. */
  method ApplyAuthorizationOptions(st: State, service: Service, stmt: Statement, actor: Value, action: string)
    returns (r: Traced<Result<Statement, Error>>)
    ensures var models := ExtractUniqueModels(stmt.descriptions);
      |models| > 1 ==> r == Traced(Failure(ValueError(MultipleModels)), [])
    ensures ExtractUniqueModels(stmt.descriptions) == {} ==>
      r == Traced(Failure(ValueError(NoModel)), [])
    ensures |ExtractUniqueModels(stmt.descriptions)| == 1 ==>
      forall m :: m in ExtractUniqueModels(stmt.descriptions) ==>
      var auth := Authorized(st, service, actor, action, [m]);
      && r.requests == auth.requests
      && (r.value.Success? <==> auth.value.Success?)
      && (r.value.Success? ==> r.value.value == WithOptions(stmt, auth.value.value))
      && (r.value.Failure? ==> r.value.error == auth.value.error)
    ensures |ExtractUniqueModels(stmt.descriptions)| == 1 ==>
      forall m :: m in ExtractUniqueModels(stmt.descriptions) && !m.isResource ==>
      r == Traced(Success(stmt), [])
    ensures r.value.Success? ==>
      && r.value.value.descriptions == stmt.descriptions
      && |stmt.options| <= |r.value.value.options| <= |stmt.options| + 1
      && r.value.value.options[..|stmt.options|] == stmt.options
  {
    var models := ExtractUniqueModels(stmt.descriptions);
    var ordered := Iterate(models);
    var auth := Authorized(st, service, actor, action, ordered);
    r := AttachOptions(stmt, auth);
    if |models| == 1 {
      forall m | m in models
        ensures ordered == [m]
      {
        IterationOfSingleton(models, ordered, m);
      }
    }
  }

  /** Two classes with different identities are two models, even when they
      share a class name and a table name: a statement selecting columns of
      both is refused rather than filtered once. */
  lemma SameNamedClassesStayDistinct(a: Model, b: Model, stmt: Statement, i: nat, j: nat)
    requires a.id != b.id
    requires i < |stmt.descriptions| && stmt.descriptions[i].entity == Some(a)
    requires j < |stmt.descriptions| && stmt.descriptions[j].entity == Some(b)
    ensures {a, b} <= ExtractUniqueModels(stmt.descriptions)
    ensures |ExtractUniqueModels(stmt.descriptions)| >= 2
  {
    SubsetCardinality({a, b}, ExtractUniqueModels(stmt.descriptions));
  }

  /** A statement authorized for a `Resource` model admits a row of that model
      exactly when the original statement admits it and the service's filter
      holds of it; rows of every other model are filtered as before. Chaining
      two authorizations therefore yields the intersection of both. */
  lemma AuthorizationConjoins(st: State, service: Service, stmt: Statement, actor: Value, action: string,
                              m: Model, other: Model, holds: LiteralColumn -> bool)
    requires m.isResource && st.oso.Some?
    requires service(st.oso.value, FilterRequestFor(m, actor, action)).Success?
    ensures var auth := Authorized(st, service, actor, action, [m]);
      && auth.value.Success?
      && (Admits(WithOptions(stmt, auth.value.value), m, holds) <==>
            Admits(stmt, m, holds)
            && holds(LiteralColumn(service(st.oso.value, FilterRequestFor(m, actor, action)).value)))
      && (other != m ==>
            (Admits(WithOptions(stmt, auth.value.value), other, holds) <==> Admits(stmt, other, holds)))
  {
  }
}
