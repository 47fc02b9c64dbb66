/** Declarative tagging of ORM schema elements (orm.py): the `Resource` marker
    and the wrappers that mark a relationship or column as the source of Oso
    facts by writing a key into its `info` dictionary. */
module Orm {
  import opened Wrappers
  import opened Values

  /** The `info` dictionary SQLAlchemy keeps on a column or relationship. */
  type Info = map<string, Value>

  const RelationInfoKey: string := "_oso.relation"
  const AttributeInfoKey: string := "_oso.attribute"
  const RemoteRelationInfoKey: string := "_oso.remote_relation"

  /** The keyword `remote_relation` demands and consumes. */
  const RemoteClassNameKwarg: string := "remote_class_name"
  const RemoteClassNameRequired: string := "remote_class_name is required"

  /** A mapped model class: its identity (Python sets and `==` compare classes
      by identity, so two classes with the same name and table stay distinct),
      its `__name__`, its `__tablename__`, and whether it subclasses the
      `Resource` mixin. */
  datatype Model = Model(id: nat, name: string, tablename: string, isResource: bool)

  /** What `sqlalchemy.orm.relationship(*args, **kwargs)` builds, seen as an
      opaque record of its arguments plus its `info` dictionary. */
  datatype Relationship = Relationship(args: seq<Value>, kwargs: Kwargs, info: Info)

  /** The `Column` behind a mapped column; only its `info` is inspected. */
  datatype Column = Column(info: Info)

  /** What `sqlalchemy.orm.mapped_column(*args, **kwargs)` builds. */
  datatype MappedColumn = MappedColumn(args: seq<Value>, kwargs: Kwargs, column: Column)

  /** SQLAlchemy seeds a new element's `info` from an `info=` dict argument. */
  function InitialInfo(kwargs: Kwargs): Info {
    if "info" in kwargs && kwargs["info"].Dict? then kwargs["info"].entries else map[]
  }

  function NewRelationship(args: seq<Value>, kwargs: Kwargs): Relationship {
    Relationship(args, kwargs, InitialInfo(kwargs))
  }

  function NewMappedColumn(args: seq<Value>, kwargs: Kwargs): MappedColumn {
    MappedColumn(args, kwargs, Column(InitialInfo(kwargs)))
  }

  /** The kind of Oso fact an `info` dictionary declares. */
  datatype Tag = RelationTag | AttributeTag | RemoteRelationTag(remoteClassName: Value)

  /** The tags a reader of the schema recovers from an `info` dictionary. */
  function Tags(info: Info): set<Tag> {
    (if RelationInfoKey in info then {RelationTag} else {})
    + (if AttributeInfoKey in info then {AttributeTag} else {})
    + (if RemoteRelationInfoKey in info then {RemoteRelationTag(info[RemoteRelationInfoKey])} else {})
  }

  /** The tags of `info` other than remote-relation tags. */
  function LocalTags(info: Info): set<Tag> {
    set t | t in Tags(info) && !t.RemoteRelationTag?
  }

  /** `relation(*args, **kwargs)`: a relationship built from the same arguments,
      whose `info` additionally maps the relation key to `None`. */
  function Relation(args: seq<Value>, kwargs: Kwargs): (r: Relationship)
    ensures r.args == args && r.kwargs == kwargs
    ensures r.info.Keys == InitialInfo(kwargs).Keys + {RelationInfoKey}
    ensures r.info[RelationInfoKey] == NoneValue
    ensures forall k :: k in InitialInfo(kwargs) && k != RelationInfoKey ==>
      r.info[k] == InitialInfo(kwargs)[k]
    ensures Tags(r.info) == Tags(InitialInfo(kwargs)) + {RelationTag}
  {
    var rel := NewRelationship(args, kwargs);
    rel.(info := rel.info[RelationInfoKey := NoneValue])
  }

  /** `attribute(*args, **kwargs)`: a mapped column built from the same
      arguments, whose column `info` additionally maps the attribute key to
      `None`. */
  function Attribute(args: seq<Value>, kwargs: Kwargs): (r: MappedColumn)
    ensures r.args == args && r.kwargs == kwargs
    ensures r.column.info.Keys == InitialInfo(kwargs).Keys + {AttributeInfoKey}
    ensures r.column.info[AttributeInfoKey] == NoneValue
    ensures forall k :: k in InitialInfo(kwargs) && k != AttributeInfoKey ==>
      r.column.info[k] == InitialInfo(kwargs)[k]
    ensures Tags(r.column.info) == Tags(InitialInfo(kwargs)) + {AttributeTag}
  {
    var col := NewMappedColumn(args, kwargs);
    col.(column := col.column.(info := col.column.info[AttributeInfoKey := NoneValue]))
  }

  /** `remote_relation(*args, **kwargs)`: fails without `remote_class_name`;
      otherwise builds a mapped column from the arguments minus that keyword
      and records the class name under the remote-relation key. */
  function RemoteRelation(args: seq<Value>, kwargs: Kwargs): (r: Result<MappedColumn, Error>)
    ensures r.Failure? <==> RemoteClassNameKwarg !in kwargs
    ensures r.Failure? ==> r.error == ValueError(RemoteClassNameRequired)
    ensures r.Success? ==>
      && r.value.args == args
      && r.value.kwargs.Keys == kwargs.Keys - {RemoteClassNameKwarg}
      && (forall k :: k in r.value.kwargs ==> r.value.kwargs[k] == kwargs[k])
    ensures r.Success? ==>
      && r.value.column.info.Keys == InitialInfo(kwargs).Keys + {RemoteRelationInfoKey}
      && r.value.column.info[RemoteRelationInfoKey] == kwargs[RemoteClassNameKwarg]
      && (forall k :: k in InitialInfo(kwargs) && k != RemoteRelationInfoKey ==>
            r.value.column.info[k] == InitialInfo(kwargs)[k])
    ensures r.Success? ==>
      Tags(r.value.column.info) ==
        LocalTags(InitialInfo(kwargs)) + {RemoteRelationTag(kwargs[RemoteClassNameKwarg])}
  {
    if RemoteClassNameKwarg !in kwargs then
      Failure(ValueError(RemoteClassNameRequired))
    else
      var remoteClassName := kwargs[RemoteClassNameKwarg];
      var forwarded := kwargs - {RemoteClassNameKwarg};
      assert InitialInfo(forwarded) == InitialInfo(kwargs);
      var col := NewMappedColumn(args, forwarded);
      Success(col.(column := col.column.(info := col.column.info[RemoteRelationInfoKey := remoteClassName])))
  }

  /** The three info keys are pairwise distinct, so tagging an element as one
      kind never overwrites a tag of another kind. */
  lemma TagKeysDistinct()
    ensures RelationInfoKey != AttributeInfoKey
    ensures RelationInfoKey != RemoteRelationInfoKey
    ensures AttributeInfoKey != RemoteRelationInfoKey
  {
  }
}
