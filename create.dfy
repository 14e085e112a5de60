/** Schema and configuration bootstrap of bmkit/create.py: inferring the
    record model's field types from a sample record, deriving the default
    path template from the model, and the guard that keeps `create_datadir`
    from deleting a directory it did not create. */
module Create {
  import opened Results
  import opened BlobMeta

  // ---------------------------------------------------------------------------
  // Sample records and field types
  // ---------------------------------------------------------------------------

  /** The exact runtime type of a sample value; every type other than the four
      the table knows is `OtherType`, named as Python names it. */
  datatype PyType = StrType | IntType | FloatType | BoolType | OtherType(name: string)

  /** The peewee field classes the model is built from. */
  datatype FieldType = CharField(unique: bool) | IntegerField | FloatField | BooleanField

  /** TYPE_TO_FIELD_TYPE: looked up by exact type, so a bool is not an int. */
  const TypeToFieldType: map<PyType, FieldType> :=
    map[StrType := CharField(false), IntType := IntegerField,
        FloatType := FloatField, BoolType := BooleanField]

  /** One item of the sample record: a field name and the type of its value. */
  datatype Entry = Entry(key: string, sample: PyType)

  predicate DistinctKeys(record: seq<Entry>)
  {
    forall i, j :: 0 <= i < j < |record| ==> record[i].key != record[j].key
  }

  /** A sample record is a Python dict: its items in order, keys distinct. */
  type SampleRecord = record: seq<Entry> | DistinctKeys(record)

  /** One declared field of the model (`model_attrs`, in insertion order). */
  datatype Column = Column(name: string, kind: FieldType)

  /** ValueError (no `path` key) or RuntimeError (a value of unknown type). */
  datatype ModelError = MissingPath | UnknownType(field: string)

  function Keys(record: seq<Entry>): set<string>
  {
    set e | e in record :: e.key
  }

  function Names(columns: seq<Column>): set<string>
  {
    set c | c in columns :: c.name
  }

  /** The field names of the model class, that is the declared ones and the primary
      key `id` that peewee adds. */
  function BlobFieldNames(columns: seq<Column>): set<string>
  {
    Names(columns) + {"id"}
  }

  /** Every entry other than `path` has a type the table knows. */
  predicate Supported(record: seq<Entry>)
  {
    forall i :: 0 <= i < |record| && record[i].key != "path" ==> record[i].sample in TypeToFieldType
  }

  /** The position of the first entry, other than `path`, of unknown type. */
  function FirstUnsupported(record: seq<Entry>): (i: nat)
    requires !Supported(record)
    ensures i < |record| && record[i].key != "path" && record[i].sample !in TypeToFieldType
    ensures Supported(record[..i])
  {
    if record[0].key != "path" && record[0].sample !in TypeToFieldType then 0
    else
      var i := 1 + FirstUnsupported(record[1..]);
      assert record[..i] == [record[0]] + record[1..][..i - 1];
      i
  }

  /** One entry of unknown type makes the whole record unsupported. */
  lemma UnsupportedWitness(record: seq<Entry>, i: nat)
    requires i < |record| && record[i].key != "path" && record[i].sample !in TypeToFieldType
    ensures !Supported(record)
  {
  }

  /** Every entry of a supported prefix is supported. */
  lemma SupportedPrefixEntry(record: seq<Entry>, i: nat, j: nat)
    requires j < i <= |record| && Supported(record[..i])
    ensures record[j].key != "path" ==> record[j].sample in TypeToFieldType
  {
    assert record[..i][j] == record[j];
  }

  /** No entry of unknown type lies inside a supported prefix. */
  lemma NotBefore(record: seq<Entry>, i: nat, j: nat)
    requires i <= |record| && j < |record| && Supported(record[..i])
    requires record[j].key != "path" && record[j].sample !in TypeToFieldType
    ensures i <= j
  {
    if j < i {
      SupportedPrefixEntry(record, i, j);
    }
  }

  /** An entry of unknown type after a supported prefix is the first one. */
  lemma FirstUnsupportedAt(record: seq<Entry>, i: nat)
    requires i < |record| && Supported(record[..i])
    requires record[i].key != "path" && record[i].sample !in TypeToFieldType
    ensures !Supported(record) && FirstUnsupported(record) == i
  {
    UnsupportedWitness(record, i);
    var first := FirstUnsupported(record);
    NotBefore(record, i, first);
    NotBefore(record, first, i);
  }

  /** The columns declared for the entries other than `path`, in order. */
  function Columns(record: seq<Entry>): seq<Column>
    requires Supported(record)
  {
    if record == [] then []
    else
      var last := record[|record| - 1];
      assert Supported(record[..|record| - 1]) by {
        forall i | 0 <= i < |record| - 1 ensures record[..|record| - 1][i] == record[i] { }
      }
      Columns(record[..|record| - 1]) +
        (if last.key == "path" then [] else [Column(last.key, TypeToFieldType[last.sample])])
  }

  /** The model `model_from_dict` builds from a sample record: `path` first, as
      a unique CharField, then one column per other item, typed by the table;
      or the error it raises. */
  function InferredModel(record: SampleRecord): Result<seq<Column>, ModelError>
  {
    if "path" !in Keys(record) then Err(MissingPath)
    else if !Supported(record) then Err(UnknownType(record[FirstUnsupported(record)].key))
    else Ok([Column("path", CharField(true))] + Columns(record))
  }

  // ---------------------------------------------------------------------------
  // model_from_dict
  // ---------------------------------------------------------------------------

  /** Builds the model's columns item by item, skipping `path`, and stops at
      the first value whose type the table does not know. */
  method ModelFromDict(record: SampleRecord) returns (r: Result<seq<Column>, ModelError>)
    ensures r == InferredModel(record)
  {
    if "path" !in Keys(record) {
      return Err(MissingPath);
    }
    var attrs := [Column("path", CharField(true))];
    for i := 0 to |record|
      invariant Supported(record[..i])
      invariant attrs == [Column("path", CharField(true))] + Columns(record[..i])
    {
      var e := record[i];
      assert record[..i + 1][..i] == record[..i];
      if e.key == "path" {
        ColumnsSnoc(record[..i + 1]);
        continue;
      }
      if e.sample !in TypeToFieldType {
        FirstUnsupportedAt(record, i);
        return Err(UnknownType(e.key));
      }
      ColumnsSnoc(record[..i + 1]);
      attrs := attrs + [Column(e.key, TypeToFieldType[e.sample])];
    }
    assert record[..|record|] == record;
    return Ok(attrs);
  }

  // ---------------------------------------------------------------------------
  // Properties of the inferred model
  // ---------------------------------------------------------------------------

  /** The keys of a record with one more entry are the keys before plus its
      key, which is new. */
  lemma KeysSnoc(record: SampleRecord)
    requires record != []
    ensures var n := |record| - 1;
      DistinctKeys(record[..n]) &&
      Keys(record) == Keys(record[..n]) + {record[n].key} &&
      record[n].key !in Keys(record[..n])
  {
    var n := |record| - 1;
    var prefix := record[..n];
    assert forall i | 0 <= i < n :: prefix[i] == record[i];
    forall k | k in Keys(record) ensures k in Keys(prefix) + {record[n].key} {
      var i :| 0 <= i < |record| && record[i].key == k;
      if i < n {
        assert prefix[i] in prefix;
      }
    }
    forall k | k in Keys(prefix) ensures k in Keys(record) {
      var i :| 0 <= i < n && prefix[i].key == k;
      assert record[i] in record;
    }
    assert record[n] in record;
  }

  /** The prefix of a supported record is supported, and its columns are
      those of the prefix followed by the last entry's, if it is not `path`. */
  lemma ColumnsSnoc(record: seq<Entry>)
    requires Supported(record) && record != []
    ensures var n := |record| - 1;
      Supported(record[..n]) &&
      Columns(record) == Columns(record[..n]) +
        (if record[n].key == "path" then [] else [Column(record[n].key, TypeToFieldType[record[n].sample])])
  {
  }

  /** The columns of the non-`path` entries are named by exactly those keys. */
  lemma {:induction false} ColumnsNames(record: SampleRecord)
    requires Supported(record)
    ensures Names(Columns(record)) == Keys(record) - {"path"}
    decreases |record|
  {
    if record != [] {
      var n := |record| - 1;
      ColumnsSnoc(record);
      KeysSnoc(record);
      var prefix: SampleRecord := record[..n];
      ColumnsNames(prefix);
      var tail := if record[n].key == "path" then [] else [Column(record[n].key, TypeToFieldType[record[n].sample])];
      assert Names(Columns(record)) == Names(Columns(prefix)) + Names(tail);
    }
  }

  /** No two of those columns share a name: a dict's keys are distinct. */
  lemma {:induction false} ColumnsDistinct(record: SampleRecord)
    requires Supported(record)
    ensures forall i, j :: 0 <= i < j < |Columns(record)| ==> Columns(record)[i].name != Columns(record)[j].name
    decreases |record|
  {
    if record != [] {
      var n := |record| - 1;
      ColumnsSnoc(record);
      KeysSnoc(record);
      var prefix: SampleRecord := record[..n];
      ColumnsDistinct(prefix);
      ColumnsNames(prefix);
      var columns := Columns(record);
      forall i, j | 0 <= i < j < |columns| ensures columns[i].name != columns[j].name {
        if j >= |Columns(prefix)| {
          assert columns[i] == Columns(prefix)[i];
          assert columns[i].name in Names(Columns(prefix));
        }
      }
    }
  }

  /** Each entry other than `path` has its column, typed by the table. */
  lemma {:induction false} ColumnsTyped(record: SampleRecord)
    requires Supported(record)
    ensures forall e :: e in record && e.key != "path" ==> Column(e.key, TypeToFieldType[e.sample]) in Columns(record)
    decreases |record|
  {
    if record != [] {
      var n := |record| - 1;
      ColumnsSnoc(record);
      KeysSnoc(record);
      var prefix: SampleRecord := record[..n];
      ColumnsTyped(prefix);
      assert record == prefix + [record[n]];
    }
  }

  /** What a successful inference yields: `path` as a unique CharField in
      first place, every other key once, typed by the table, and so the
      model's field set is the record's keys plus `id`. */
  lemma InferredModelShape(record: SampleRecord)
    requires InferredModel(record).Ok?
    ensures var columns := InferredModel(record).value;
      columns[0] == Column("path", CharField(true)) &&
      (forall c :: c in columns[1..] ==> c.name != "path") &&
      (forall i, j :: 0 <= i < j < |columns| ==> columns[i].name != columns[j].name) &&
      (forall e :: e in record && e.key != "path" ==> Column(e.key, TypeToFieldType[e.sample]) in columns) &&
      Names(columns) == Keys(record) &&
      BlobFieldNames(columns) == Keys(record) + {"id"}
  {
    assert "path" in Keys(record) && Supported(record);
    PathColumnNames(record);
    PathColumnsDistinct(record);
    ColumnsTyped(record);
  }

  /** Behind the `path` column, the names are the other keys. */
  lemma PathColumnNames(record: SampleRecord)
    requires "path" in Keys(record) && Supported(record)
    ensures var columns := [Column("path", CharField(true))] + Columns(record);
      (forall c :: c in columns[1..] ==> c.name != "path") && Names(columns) == Keys(record)
  {
    var rest := Columns(record);
    var columns := [Column("path", CharField(true))] + rest;
    assert columns[1..] == rest;
    ColumnsNames(record);
    assert forall c :: c in rest ==> c.name in Names(rest);
    assert Names(columns) == {"path"} + Names(rest);
  }

  /** With the `path` column in front, the column names are still distinct. */
  lemma PathColumnsDistinct(record: SampleRecord)
    requires Supported(record)
    ensures var columns := [Column("path", CharField(true))] + Columns(record);
      forall i, j :: 0 <= i < j < |columns| ==> columns[i].name != columns[j].name
  {
    var rest := Columns(record);
    var columns := [Column("path", CharField(true))] + rest;
    ColumnsNames(record);
    ColumnsDistinct(record);
    forall i, j | 0 <= i < j < |columns| ensures columns[i].name != columns[j].name {
      assert columns[j] == rest[j - 1];
      if i == 0 {
        assert rest[j - 1].name in Names(rest);
      } else {
        assert columns[i] == rest[i - 1];
      }
    }
  }

  /** The three outcomes of inference and when each happens. */
  lemma InferredModelOutcome(record: SampleRecord)
    ensures InferredModel(record) == Err(MissingPath) <==> "path" !in Keys(record)
    ensures InferredModel(record).Ok? <==>
      "path" in Keys(record) &&
      forall e :: e in record && e.key != "path" ==> e.sample in TypeToFieldType
    ensures InferredModel(record).Err? && InferredModel(record).error.UnknownType? ==>
      exists i :: 0 <= i < |record| && record[i].key == InferredModel(record).error.field &&
        record[i].key != "path" && record[i].sample !in TypeToFieldType
  {
    if !Supported(record) {
      var i := FirstUnsupported(record);
      assert record[i] in record;
    }
  }

  // ---------------------------------------------------------------------------
  // Default configuration
  // ---------------------------------------------------------------------------

  /** mangle_pythonic_to_filesystem: every `_` becomes `-`, every other
      character stays, so the length is kept and no `_` is left. */
  function Mangle(name: string): (r: string)
    ensures |r| == |name|
    ensures '_' !in r
  {
    seq(|name|, j requires 0 <= j < |name| => if name[j] == '_' then '-' else name[j])
  }

  /** Mangling leaves a name without `_` as it is. */
  lemma MangleKeepsPlainNames(name: string)
    requires '_' !in name
    ensures Mangle(name) == name
  {
  }

  /** A name with neither `_` nor `-` is mangled only from itself, so its
      directory name is produced by no other field. */
  lemma MangleOnlyFromItself(name: string, plain: string)
    requires '-' !in plain && '_' !in plain
    ensures Mangle(name) == plain <==> name == plain
    ensures ByName(name) == "by-" + plain <==> name == plain
  {
    if Mangle(name) == plain {
      forall j | 0 <= j < |name| ensures name[j] == plain[j] { }
    }
    if ByName(name) == "by-" + plain {
      assert Mangle(name) == ByName(name)[3..];
    }
    if name == plain {
      MangleKeepsPlainNames(name);
    }
  }

  /** The directory name under which a field's values are listed. */
  function ByName(field: string): string
  {
    "by-" + Mangle(field)
  }

  predicate Reserved(field: string)
  {
    field == "path" || field == "id"
  }

  /** The `pathdefs` mapping built over the model's fields in order: each
      field other than `path` and `id` adds `by-<mangled name>` -> [field],
      a later field overwriting an earlier one with the same mangled name. */
  function DefaultPathdefs(fields: seq<string>): map<string, Template>
  {
    if fields == [] then map[]
    else
      var previous := DefaultPathdefs(fields[..|fields| - 1]);
      var field := fields[|fields| - 1];
      if Reserved(field) then previous else previous[ByName(field) := Fields([field])]
  }

  /** The configuration document: its one top-level key is `pathdefs`. */
  datatype Config = Config(pathdefs: Template)

  /** autogenerate_config_from_model, over the model's field names. */
  method AutogenerateConfig(fields: seq<string>) returns (config: Config)
    ensures config == Config(Fixed(DefaultPathdefs(fields)))
  {
    var pathdefs: map<string, Template> := map[];
    for i := 0 to |fields|
      invariant pathdefs == DefaultPathdefs(fields[..i])
    {
      assert fields[..i + 1][..i] == fields[..i];
      if fields[i] == "path" || fields[i] == "id" {
        continue;
      }
      pathdefs := pathdefs[ByName(fields[i]) := Fields([fields[i]])];
    }
    assert fields[..|fields|] == fields;
    return Config(Fixed(pathdefs));
  }

  /** The directories of the default template are exactly `by-<mangled name>`
      for the fields other than `path` and `id`, and each lists one field. */
  lemma {:induction false} DefaultPathdefsEntries(fields: seq<string>)
    ensures DefaultPathdefs(fields).Keys == set f | f in fields && !Reserved(f) :: ByName(f)
    ensures forall key :: key in DefaultPathdefs(fields) ==>
      exists f :: f in fields && !Reserved(f) && key == ByName(f) && DefaultPathdefs(fields)[key] == Fields([f])
    decreases |fields|
  {
    if fields != [] {
      var prefix := fields[..|fields| - 1];
      DefaultPathdefsEntries(prefix);
      assert fields == prefix + [fields[|fields| - 1]];
    }
  }

  /** A field's directory lists that field unless a later field mangles to the
      same name, in which case the later one wins. */
  lemma {:induction false} DefaultPathdefsLastWins(fields: seq<string>, i: nat)
    requires i < |fields| && !Reserved(fields[i])
    requires forall j :: i < j < |fields| ==> ByName(fields[j]) != ByName(fields[i])
    ensures ByName(fields[i]) in DefaultPathdefs(fields)
    ensures DefaultPathdefs(fields)[ByName(fields[i])] == Fields([fields[i]])
    decreases |fields|
  {
    var n := |fields| - 1;
    if i < n {
      var prefix := fields[..n];
      assert prefix[i] == fields[i];
      DefaultPathdefsLastWins(prefix, i);
    }
  }

  /** No directory is generated for the reserved fields. */
  lemma NoReservedDirectories(fields: seq<string>)
    ensures "by-path" !in DefaultPathdefs(fields)
    ensures "by-id" !in DefaultPathdefs(fields)
  {
    DefaultPathdefsEntries(fields);
    forall f | f in fields && !Reserved(f)
      ensures ByName(f) != "by-path" && ByName(f) != "by-id"
    {
      MangleOnlyFromItself(f, "path");
      MangleOnlyFromItself(f, "id");
    }
  }

  /** Under the default template a field's directory is one level of values
      of that field, each holding leaves; nothing goes deeper. */
  lemma DefaultTemplateResolution(model: set<string>, fields: seq<string>, i: nat,
                                  value: string, leaf: string, more: seq<string>)
    requires i < |fields| && !Reserved(fields[i]) && fields[i] in model
    requires forall j :: i < j < |fields| ==> ByName(fields[j]) != ByName(fields[i])
    requires more != []
    ensures var t := Fixed(DefaultPathdefs(fields));
      var dir := ByName(fields[i]);
      Resolve(model, t, [dir]) == Directory([]) &&
      Resolve(model, t, [dir, value]) == Directory([Eq(fields[i], value)]) &&
      Resolve(model, t, [dir, value, leaf]) == Leaf([Eq(fields[i], value)], leaf) &&
      Resolve(model, t, [dir, value, leaf] + more) == LookupError(TooManyParts)
  {
    var t := Fixed(DefaultPathdefs(fields));
    DefaultPathdefsLastWins(fields, i);
    var f := fields[i];
    assert [f][..1] == [f];
    assert Zip([f], [value], 1) == [Eq(f, value)];
    assert Zip([f], [value, leaf], 1) == [Eq(f, value)];
    assert [ByName(f), value, leaf][1..] == [value, leaf];
    assert [ByName(f), value][1..] == [value];
    LeafIsFinal(model, t, [ByName(f), value, leaf], more);
  }

  // ---------------------------------------------------------------------------
  // create_datadir
  // ---------------------------------------------------------------------------

  /** FileExistsError, or RuntimeError for a directory without the signature. */
  datatype DatadirError = AlreadyExists | SignatureMissing

  /** The data directory as `create_datadir` sees it: whether it exists and
      the names of the files in it. */
  class DataDir {
    /** The name of the signature file that marks a data directory. */
    const signature: string
    var present: bool
    var entries: set<string>

    ghost predicate Valid()
      reads this
    {
      !present ==> entries == {}
    }

    constructor (signature: string, present: bool, entries: set<string>)
      requires !present ==> entries == {}
      ensures Valid()
      ensures this.signature == signature && this.present == present && this.entries == entries
    {
      this.signature := signature;
      this.present := present;
      this.entries := entries;
    }

    /** Refuses to replace an existing directory unless asked to, and even
        then only one that carries the signature; otherwise (re)creates the
        directory holding just the signature. */
    method CreateDatadir(deleteExisting: bool) returns (outcome: Outcome<DatadirError>)
      requires Valid()
      modifies this
      ensures Valid()
      ensures old(present) && !deleteExisting ==>
        outcome == Fail(AlreadyExists) && unchanged(this)
      ensures old(present) && deleteExisting && signature !in old(entries) ==>
        outcome == Fail(SignatureMissing) && unchanged(this)
      ensures !old(present) || (deleteExisting && signature in old(entries)) ==>
        outcome == Pass && present && entries == {signature}
    {
      if present {
        if !deleteExisting {
          return Fail(AlreadyExists);
        }
        if signature !in entries {
          return Fail(SignatureMissing);
        }
        // shutil.rmtree
        present, entries := false, {};
      }
      // mkdir, then touch the signature
      present := true;
      entries := entries + {signature};
      return Pass;
    }
  }

  // ---------------------------------------------------------------------------
  // The cases of tests/test_create.py
  // ---------------------------------------------------------------------------

  /** test_model_from_dict, first case: a record without `path` is refused. */
  lemma ModelFromDictEmptyCase()
    ensures InferredModel([]) == Err(MissingPath)
  {
  }

  /** test_model_from_dict, second case: `{'path': ''}` gives just the fields
      `id` and `path`; the type of the `path` sample does not matter. */
  lemma ModelFromDictPathOnlyCase(sample: PyType)
    ensures InferredModel([Entry("path", sample)]) == Ok([Column("path", CharField(true))])
    ensures BlobFieldNames(InferredModel([Entry("path", sample)]).value) == {"id", "path"}
  {
    var single: SampleRecord := [Entry("path", sample)];
    assert single[0] in single;
    assert "path" in Keys(single);
    assert Supported(single);
    assert Columns(single) == [];
    assert InferredModel(single).Ok?;
    assert InferredModel(single).value == [Column("path", CharField(true))] + Columns(single);
    assert [Column("path", CharField(true))] + Columns(single) == [Column("path", CharField(true))];
    assert Names([Column("path", CharField(true))]) == {"path"};
  }

  /** The columns of the third case's record, entry by entry. */
  lemma TypedCaseColumns(record: seq<Entry>)
    requires record == [Entry("path", StrType), Entry("int", IntType), Entry("float", FloatType), Entry("str", StrType)]
    ensures Supported(record)
    ensures Columns(record) == [Column("int", IntegerField), Column("float", FloatField), Column("str", CharField(false))]
  {
    var p1, p2, p3 := record[..1], record[..2], record[..3];
    assert p3[..2] == p2 && p2[..1] == p1 && p1[..0] == [];
    ColumnsSnoc(p1);
    ColumnsSnoc(p2);
    ColumnsSnoc(p3);
    ColumnsSnoc(record);
  }

  /** test_model_from_dict, third case: int, float and str samples give an
      IntegerField, a FloatField and a CharField. */
  lemma ModelFromDictTypedCase()
    ensures var record: SampleRecord :=
        [Entry("path", StrType), Entry("int", IntType), Entry("float", FloatType), Entry("str", StrType)];
      InferredModel(record) == Ok([Column("path", CharField(true)), Column("int", IntegerField),
                                   Column("float", FloatField), Column("str", CharField(false))])
  {
    var record: SampleRecord :=
      [Entry("path", StrType), Entry("int", IntType), Entry("float", FloatType), Entry("str", StrType)];
    assert record[0] in record;
    TypedCaseColumns(record);
    assert [Column("path", CharField(true))] + Columns(record) ==
      [Column("path", CharField(true)), Column("int", IntegerField),
       Column("float", FloatField), Column("str", CharField(false))];
  }

  /** A value of a type outside the table (a list, say) is refused, naming its field. */
  lemma ModelFromDictUnknownTypeCase()
    ensures InferredModel([Entry("path", StrType), Entry("tags", OtherType("list"))]) == Err(UnknownType("tags"))
  {
    var bad: SampleRecord := [Entry("path", StrType), Entry("tags", OtherType("list"))];
    assert bad[0] in bad;
    assert bad[1].key != "path" && bad[1].sample !in TypeToFieldType;
    assert FirstUnsupported(bad) == 1 by {
      assert bad[1..][0] == bad[1];
    }
  }

  lemma MangleCases()
    ensures Mangle("foo") == "foo"
    ensures Mangle("bar_with_underscores") == "bar-with-underscores"
  {
    MangleKeepsPlainNames("foo");
  }

  /** The default pathdefs for a model whose fields are id, path and two others. */
  lemma DefaultPathdefsOfFour(c: string, d: string)
    requires !Reserved(c) && !Reserved(d)
    ensures DefaultPathdefs(["id", "path", c, d]) == map[ByName(c) := Fields([c])][ByName(d) := Fields([d])]
  {
    var fields := ["id", "path", c, d];
    assert fields[..3] == ["id", "path", c];
    assert fields[..3][..2] == ["id", "path"];
    assert fields[..3][..2][..1] == ["id"];
    assert fields[..3][..2][..1][..0] == [];
    assert DefaultPathdefs(fields[..3][..2][..1]) == map[];
    assert DefaultPathdefs(fields[..3][..2]) == map[];
    assert DefaultPathdefs(fields[..3]) == map[ByName(c) := Fields([c])];
  }

  lemma ByNameCases()
    ensures ByName("foo") == "by-foo"
    ensures ByName("bar_with_underscores") == "by-bar-with-underscores"
  {
    MangleCases();
    assert "by-" + "foo" == "by-foo";
    assert "by-" + "bar-with-underscores" == "by-bar-with-underscores";
  }

  /** test_autogenerate_config_from_model: a model with fields id, path, foo
      and bar_with_underscores gets one directory per other field, named by
      the mangled field name (`by-foo` and `by-bar-with-underscores`, as
      MangleCases shows); NoReservedDirectories rules out `by-path`. */
  method AutogenerateConfigCase() returns (config: Config)
    ensures config.pathdefs.Fixed?
    ensures config.pathdefs.children.Keys == {"by-foo", "by-bar-with-underscores"}
    ensures config.pathdefs.children["by-foo"] == Fields(["foo"])
    ensures config.pathdefs.children["by-bar-with-underscores"] == Fields(["bar_with_underscores"])
  {
    config := AutogenerateConfig(["id", "path", "foo", "bar_with_underscores"]);
    DefaultPathdefsOfFour("foo", "bar_with_underscores");
    ByNameCases();
  }

  /** test_create_datadir: an existing directory is not clobbered without
      delete_existing, nor with it when the signature is missing; a removed
      directory is created again, and a second creation with delete_existing
      wipes what was added in between. */
  method CreateDatadirCase(signature: string) returns (first: Outcome<DatadirError>, second: Outcome<DatadirError>,
                                                      third: Outcome<DatadirError>, fourth: Outcome<DatadirError>,
                                                      fooRemains: bool)
    requires signature != "foo"
    ensures first == Fail(AlreadyExists) && second == Fail(SignatureMissing)
    ensures third == Pass && fourth == Pass && !fooRemains
  {
    var dir := new DataDir(signature, true, {});
    first := dir.CreateDatadir(false);
    second := dir.CreateDatadir(true);
    // tmp_path.rmdir()
    dir.present := false;
    third := dir.CreateDatadir(false);
    // (tmp_path / 'foo').touch()
    dir.entries := dir.entries + {"foo"};
    fourth := dir.CreateDatadir(true);
    fooRemains := "foo" in dir.entries;
  }
}
