/** The earlier statement wrapper (select.py): an `AuthorizedSelect` captures
    the global client when it is built, and `authorized_for` attaches one
    loader-criteria option per distinct model, with no limit on how many models
    there are and no `Resource` check. */
module Select {
  import opened Wrappers
  import opened Values
  import opened Orm
  import opened OsoClient
  import opened Sql
  import Auth

  /** An `AuthorizedSelect`: the wrapped statement and the client `get_oso`
      returned when it was constructed. */
  datatype AuthorizedSelect = AuthorizedSelect(stmt: Statement, oso: Client)

  /** `AuthorizedSelect(existing_select)`: copies the statement and fetches the
      global client, which raises before `init`. */
  function Wrap(st: State, stmt: Statement): (r: Result<AuthorizedSelect, Error>)
    ensures r.Failure? <==> st.oso.None?
    ensures r.Failure? ==> r.error == RuntimeError(NotInitialized)
    ensures r.Success? ==> r.value.stmt == stmt && st.oso == Some(r.value.oso)
  {
    match GetOso(st)
    case Failure(e) => Failure(e)
    case Success(client) => Success(AuthorizedSelect(stmt, client))
  }

  /** `_extract_unique_models`: the distinct non-`None` entities of the
      statement's column descriptions (the same extraction as auth.py). */
  function ExtractUniqueModels(sel: AuthorizedSelect): (models: set<Model>)
    ensures forall m :: m in models <==>
      exists i :: 0 <= i < |sel.stmt.descriptions| && sel.stmt.descriptions[i].entity == Some(m)
  {
    Auth.ExtractUniqueModels(sel.stmt.descriptions)
  }

  /** `_create_auth_filter`: one `list_local` request on the captured client;
      its answer becomes a criteria callable that ignores the class argument. */
  function CreateAuthFilter(sel: AuthorizedSelect, service: Service, model: Model, actor: Value, action: string)
    : (r: Traced<Result<Criteria, Error>>)
    ensures r.requests == [Auth.FilterRequestFor(model, actor, action)]
    ensures r.value.Failure? ==> service(sel.oso, r.requests[0]) == Failure(r.value.error)
    ensures r.value.Success? ==>
      && service(sel.oso, r.requests[0]).Success?
      && r.value.value == ConstantCriteria(LiteralColumn(service(sel.oso, r.requests[0]).value))
  {
    var req := Auth.FilterRequestFor(model, actor, action);
    match service(sel.oso, req)
    case Failure(e) => Traced(Failure(e), [req])
    case Success(sqlFilter) => Traced(Success(ConstantCriteria(LiteralColumn(sqlFilter))), [req])
  }

  /** The requests end at the first failure: the last one failed with `error`
      and every earlier one succeeded. */
  ghost predicate StopsAtFirstFailure(reqs: seq<FilterRequest>, oso: Client, service: Service, error: Error) {
    && reqs != []
    && service(oso, reqs[|reqs| - 1]) == Failure(error)
    && forall k :: 0 <= k < |reqs| - 1 ==> service(oso, reqs[k]).Success?
  }

  /** The loop of `authorized_for` over the models in iteration order: one
      request and one option per model, stopping at the first failing request. */
  method BuildOptions(sel: AuthorizedSelect, service: Service, actor: Value, action: string, ordered: seq<Model>)
    returns (r: Traced<Result<seq<LoaderCriteria>, Error>>)
    ensures |r.requests| <= |ordered|
    ensures forall k :: 0 <= k < |r.requests| ==> r.requests[k] == Auth.FilterRequestFor(ordered[k], actor, action)
    ensures r.value.Failure? ==> StopsAtFirstFailure(r.requests, sel.oso, service, r.value.error)
    ensures r.value.Success? ==>
      && |r.value.value| == |ordered| == |r.requests|
      && forall k :: 0 <= k < |ordered| ==>
           && r.value.value[k].entity == ordered[k]
           && r.value.value[k].includeAliases
           && r.requests[k] == Auth.FilterRequestFor(r.value.value[k].entity, actor, action)
           && service(sel.oso, r.requests[k]) == Success(r.value.value[k].criteria.clause.text)
  {
    var opts: seq<LoaderCriteria> := [];
    var reqs: seq<FilterRequest> := [];
    var i := 0;
    while i < |ordered|
      invariant 0 <= i <= |ordered|
      invariant |opts| == i && |reqs| == i
      invariant forall k :: 0 <= k < i ==> reqs[k] == Auth.FilterRequestFor(ordered[k], actor, action)
      invariant forall k :: 0 <= k < i ==> service(sel.oso, reqs[k]).Success?
      invariant forall k :: 0 <= k < i ==>
        && opts[k].entity == ordered[k]
        && opts[k].includeAliases
        && service(sel.oso, reqs[k]) == Success(opts[k].criteria.clause.text)
    {
      var auth := CreateAuthFilter(sel, service, ordered[i], actor, action);
      match auth.value
      case Failure(e) =>
        r := Traced(Failure(e), reqs + auth.requests);
        return;
      case Success(criteria) =>
        opts := opts + [LoaderCriteria(ordered[i], criteria, true)];
        reqs := reqs + auth.requests;
      i := i + 1;
    }
    r := Traced(Success(opts), reqs);
  }

  /** `added` holds one option per model of `models`, and option i carries the
      filter the service answered to request i, which was issued for the
      option's own model. */
  ghost predicate OnePerModel(added: seq<LoaderCriteria>, reqs: seq<FilterRequest>, models: set<Model>,
                              oso: Client, service: Service, actor: Value, action: string) {
    && |added| == |models| == |reqs|
    && (forall m :: m in models <==> exists i :: 0 <= i < |added| && added[i].entity == m)
    && (forall i :: 0 <= i < |added| ==>
          && added[i].includeAliases
          && reqs[i] == Auth.FilterRequestFor(added[i].entity, actor, action)
          && service(oso, reqs[i]) == Success(added[i].criteria.clause.text))
  }

  /** Request i was issued for model `asked[i]`, a model of `models`, and no
      model was asked twice. */
  ghost predicate AskedOnce(asked: seq<Model>, reqs: seq<FilterRequest>, models: set<Model>, actor: Value, action: string) {
    && |asked| == |reqs|
    && (forall i :: 0 <= i < |asked| ==>
          asked[i] in models && reqs[i] == Auth.FilterRequestFor(asked[i], actor, action))
    && (forall i, j :: 0 <= i < j < |asked| ==> asked[i] != asked[j])
  }

  /** Requests issued in the order of an iteration of `models` were asked for
      distinct models of the set. */
  lemma AskedInIterationOrder(models: set<Model>, ordered: seq<Model>, reqs: seq<FilterRequest>, actor: Value, action: string)
    requires forall x :: x in ordered <==> x in models
    requires |reqs| <= |ordered|
    requires forall k :: 0 <= k < |reqs| ==> reqs[k] == Auth.FilterRequestFor(ordered[k], actor, action)
    requires forall i, j :: 0 <= i < j < |ordered| ==> ordered[i] != ordered[j]
    ensures AskedOnce(ordered[..|reqs|], reqs, models, actor, action)
  {
  }

  /** Options built one per element of an iteration of `models` mention
      exactly the models of the set. */
  lemma CoversModels(models: set<Model>, ordered: seq<Model>, opts: seq<LoaderCriteria>, reqs: seq<FilterRequest>,
                     oso: Client, service: Service, actor: Value, action: string)
    requires forall x :: x in ordered <==> x in models
    requires |ordered| == |models|
    requires |opts| == |ordered| == |reqs|
    requires forall k :: 0 <= k < |ordered| ==>
      && opts[k].entity == ordered[k]
      && opts[k].includeAliases
      && reqs[k] == Auth.FilterRequestFor(opts[k].entity, actor, action)
      && service(oso, reqs[k]) == Success(opts[k].criteria.clause.text)
    ensures OnePerModel(opts, reqs, models, oso, service, actor, action)
  {
  }

  /** `authorized_for(actor, action)`: for every distinct model, in set order,
      request a filter and build an option; the first failing request aborts
      the loop and its error is returned unchanged. `asked` lists the models
      requested, in order: each at most once. On success the statement gains exactly one
      option per model, each built from the request issued for that model. */
  method AuthorizedFor(sel: AuthorizedSelect, service: Service, actor: Value, action: string)
    returns (r: Traced<Result<AuthorizedSelect, Error>>, ghost asked: seq<Model>)
    ensures ExtractUniqueModels(sel) == {} ==> r == Traced(Success(sel), [])
    ensures |r.requests| <= |ExtractUniqueModels(sel)|
    ensures AskedOnce(asked, r.requests, ExtractUniqueModels(sel), actor, action)
    ensures r.value.Failure? ==> StopsAtFirstFailure(r.requests, sel.oso, service, r.value.error)
    ensures r.value.Success? ==>
      && r.value.value.oso == sel.oso
      && r.value.value.stmt.descriptions == sel.stmt.descriptions
      && |r.value.value.stmt.options| >= |sel.stmt.options|
    ensures r.value.Success? ==>
      var added := r.value.value.stmt.options[|sel.stmt.options|..];
      && r.value.value.stmt.options == sel.stmt.options + added
      && OnePerModel(added, r.requests, ExtractUniqueModels(sel), sel.oso, service, actor, action)
  {
    var models := ExtractUniqueModels(sel);
    var ordered := Iterate(models);
    var built := BuildOptions(sel, service, actor, action, ordered);
    AskedInIterationOrder(models, ordered, built.requests, actor, action);
    asked := ordered[..|built.requests|];
    match built.value
    case Failure(e) =>
      r := Traced(Failure(e), built.requests);
    case Success(opts) =>
      CoversModels(models, ordered, opts, built.requests, sel.oso, service, actor, action);
      var result := sel.(stmt := WithOptions(sel.stmt, opts));
      assert result.stmt.options[|sel.stmt.options|..] == opts;
      r := Traced(Success(result), built.requests);
      if models == {} {
        assert result == sel;
      }
  }
}
