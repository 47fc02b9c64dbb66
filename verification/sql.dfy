/** The SQLAlchemy objects the rewriters handle, as opaque records: a
    statement's column descriptions, `literal_column` clauses, the criteria
    callables and `with_loader_criteria` options, and the generative
    `.options(...)` copy. */
module Sql {
  import opened Wrappers
  import opened Orm

  /** One entry of `column_descriptions`; `entity` is `None` for a plain
      expression that belongs to no mapped class. */
  datatype ColumnDescription = ColumnDescription(name: string, entity: Option<Model>)

  /** `literal_column(text)`: an SQL fragment spliced in verbatim. */
  datatype LiteralColumn = LiteralColumn(text: string)

  /** The criteria callable `lambda cls: criteria`. */
  datatype Criteria = ConstantCriteria(clause: LiteralColumn) {
    /** Calling the criteria with the class being loaded. */
    function ApplyTo(cls: Model): LiteralColumn {
      clause
    }
  }

  /** `with_loader_criteria(entity, criteria, include_aliases=...)`. */
  datatype LoaderCriteria = LoaderCriteria(entity: Model, criteria: Criteria, includeAliases: bool)

  /** A `Query` or `Select`: what it selects, and the options attached so far. */
  datatype Statement = Statement(descriptions: seq<ColumnDescription>, options: seq<LoaderCriteria>)

  /** `stmt.options(*opts)`: a copy of the statement with `opts` appended; the
      receiver itself is a value and stays as it was. */
  function WithOptions(stmt: Statement, opts: seq<LoaderCriteria>): Statement {
    stmt.(options := stmt.options + opts)
  }

  /** The clauses the options attach to rows of `m`, in order. */
  function CriteriaOn(opts: seq<LoaderCriteria>, m: Model): seq<LiteralColumn> {
    if opts == [] then []
    else
      var last := opts[|opts| - 1];
      CriteriaOn(opts[..|opts| - 1], m)
      + (if last.entity == m then [last.criteria.ApplyTo(m)] else [])
  }

  /** Loader criteria for one entity AND together: a row of `m` survives when
      every clause attached to `m` holds of it (`holds` interprets a clause). */
  ghost predicate Admits(stmt: Statement, m: Model, holds: LiteralColumn -> bool) {
    forall c :: c in CriteriaOn(stmt.options, m) ==> holds(c)
  }

  /** Appending options appends exactly their clauses for each entity. */
  lemma {:induction false} CriteriaOnAppend(a: seq<LoaderCriteria>, b: seq<LoaderCriteria>, m: Model)
    ensures CriteriaOn(a + b, m) == CriteriaOn(a, m) + CriteriaOn(b, m)
    decreases |b|
  {
    if b == [] {
      assert a + b == a;
    } else {
      var b' := b[..|b| - 1];
      assert (a + b)[..|a + b| - 1] == a + b';
      assert (a + b)[|a + b| - 1] == b[|b| - 1];
      CriteriaOnAppend(a, b', m);
    }
  }

  /** Attaching options through `.options(...)` keeps every criterion already
      present: the new statement admits a row of `m` exactly when the old one
      does and the new clauses for `m` hold. */
  lemma WithOptionsConjoins(stmt: Statement, opts: seq<LoaderCriteria>, m: Model, holds: LiteralColumn -> bool)
    ensures Admits(WithOptions(stmt, opts), m, holds) <==>
      Admits(stmt, m, holds) && forall c :: c in CriteriaOn(opts, m) ==> holds(c)
  {
    CriteriaOnAppend(stmt.options, opts, m);
  }

  /** Iterating over a Python `set`: every element once, in an order the
      program does not control. */
  method Iterate<T>(s: set<T>) returns (xs: seq<T>)
    ensures |xs| == |s|
    ensures forall x :: x in xs <==> x in s
    ensures forall i, j :: 0 <= i < j < |xs| ==> xs[i] != xs[j]
  {
    var rest := s;
    xs := [];
    while rest != {}
      invariant rest <= s
      invariant forall x :: x in xs <==> x in s && x !in rest
      invariant |xs| + |rest| == |s|
      invariant forall i, j :: 0 <= i < j < |xs| ==> xs[i] != xs[j]
      decreases |rest|
    {
      var x :| x in rest;
      xs := xs + [x];
      rest := rest - {x};
    }
  }
}
