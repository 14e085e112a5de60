/** The path-template resolver of bmkit/blobmeta.py.

    A path template ("pathdefs") is a tree: a mapping node is a fixed branch
    whose keys are literal directory names, a list node is a sequence of field
    names, each consuming one path segment as the value of an equality filter.
    The segment that arrives after the list is used up names a single record
    (the leaf); a segment after that is an error.  The query is modelled as
    the list of equality filters it conjoins. */
module BlobMeta {
  import opened Results

  // ---------------------------------------------------------------------------
  // FilenameMapper: the name codec between record ids and leaf names
  // ---------------------------------------------------------------------------

  /** A row of the record store, as far as the name codec looks at it. */
  datatype Record = Record(id: int)

  /** A record's leaf name is its id. */
  function RecordToName(record: Record): (name: int)
    ensures name == record.id
  {
    record.id
  }

  /** A leaf name is used as the id unchanged (no parsing, whatever its type). */
  function NameToId<T>(name: T): (id: T)
    ensures id == name
  {
    name
  }

  /** Decoding a record's leaf name gives back its id. */
  lemma NameCodecRoundTrip(record: Record)
    ensures NameToId(RecordToName(record)) == record.id
  {
  }

  /** Encoding the record a leaf name decodes to gives back the name. */
  lemma NameCodecRoundTripFromName(name: int)
    ensures RecordToName(Record(NameToId(name))) == name
  {
  }

  // ---------------------------------------------------------------------------
  // Templates, filters and results
  // ---------------------------------------------------------------------------

  datatype Template =
    | Fixed(children: map<string, Template>)
    | Fields(fields: seq<string>)

  /** One conjunct `field == value` of the query. */
  datatype Filter = Eq(field: string, value: string)

  /** Why a path was refused: the three ways the source raises LookupError. */
  datatype LookupFailure =
    | NoSuchChild(segment: string)   // a segment that is not a key of a fixed branch
    | UnknownField(field: string)    // a template field that the record model lacks (KeyError)
    | TooManyParts                   // the path goes on past the leaf segment

  /** What a path resolves to: a directory query, a leaf query, or an error. */
  datatype Resolution =
    | Directory(filters: seq<Filter>)
    | Leaf(filters: seq<Filter>, id: string)
    | LookupError(failure: LookupFailure)

  /** The source's FilesystemQuery record: whether the path is a directory and
      the conjunction of filters selecting its records. */
  datatype FilesystemQuery = FilesystemQuery(isDirectory: bool, query: seq<Filter>)

  /** The filesystem query of a successful resolution; a leaf adds `id == name`. */
  function QueryOf(r: Resolution): (q: Option<FilesystemQuery>)
    ensures q.None? <==> r.LookupError?
    ensures q.Some? ==> (q.value.isDirectory <==> r.Directory?)
    ensures q.Some? ==> |r.filters| <= |q.value.query| && q.value.query[..|r.filters|] == r.filters
    ensures r.Directory? ==> |q.value.query| == |r.filters|
    ensures r.Leaf? ==> |q.value.query| == |r.filters| + 1 && q.value.query[|r.filters|] == Eq("id", r.id)
  {
    match r
    case Directory(filters) => Some(FilesystemQuery(true, filters))
    case Leaf(filters, id) => Some(FilesystemQuery(false, filters + [Eq("id", id)]))
    case LookupError(_) => None
  }

  // ---------------------------------------------------------------------------
  // The specification of path resolution
  // ---------------------------------------------------------------------------

  predicate AllKnown(model: set<string>, fields: seq<string>)
  {
    forall j :: 0 <= j < |fields| ==> fields[j] in model
  }

  /** The position of the first field the model lacks. */
  function FirstUnknown(model: set<string>, fields: seq<string>): (j: nat)
    requires !AllKnown(model, fields)
    ensures j < |fields| && fields[j] !in model
    ensures AllKnown(model, fields[..j])
  {
    if fields[0] !in model then 0
    else
      var j := 1 + FirstUnknown(model, fields[1..]);
      assert fields[..j] == [fields[0]] + fields[1..][..j - 1];
      j
  }

  /** The first n fields paired with the first n segments. */
  function Zip(fields: seq<string>, segments: seq<string>, n: nat): (filters: seq<Filter>)
    requires n <= |fields| && n <= |segments|
  {
    seq(n, j requires 0 <= j < n => Eq(fields[j], segments[j]))
  }

  /** Resolution of the segments that arrive at a field-sequence node: each of
      the first |fields| segments filters on the next field, the one after them
      is the leaf, and any further segment is refused. */
  function ResolveFields(model: set<string>, fields: seq<string>, segments: seq<string>): Resolution
  {
    var consumed := if |segments| <= |fields| then |segments| else |fields|;
    if !AllKnown(model, fields[..consumed]) then
      LookupError(UnknownField(fields[FirstUnknown(model, fields[..consumed])]))
    else if |segments| <= |fields| then
      Directory(Zip(fields, segments, |segments|))
    else if |segments| == |fields| + 1 then
      Leaf(Zip(fields, segments, |fields|), NameToId(segments[|fields|]))
    else
      LookupError(TooManyParts)
  }

  /** Every field of a known prefix is in the model. */
  lemma KnownPrefixEntry(model: set<string>, fields: seq<string>, n: nat, j: nat)
    requires j < n <= |fields| && AllKnown(model, fields[..n])
    ensures fields[j] in model
  {
    assert fields[..n][j] == fields[j];
  }

  /** A field the model lacks, after known ones, is the first unknown field. */
  lemma FirstUnknownAt(model: set<string>, fields: seq<string>, j: nat)
    requires j < |fields| && fields[j] !in model && AllKnown(model, fields[..j])
    ensures !AllKnown(model, fields) && FirstUnknown(model, fields) == j
  {
    var first := FirstUnknown(model, fields);
    if first < j {
      KnownPrefixEntry(model, fields, j, first);
    } else if first > j {
      KnownPrefixEntry(model, fields, first, j);
    }
  }

  /** One more segment at a field list whose first `cursor` fields are known:
      an unknown next field is the error, a known one extends the filters. */
  lemma ResolveFieldsNext(model: set<string>, fields: seq<string>, segments: seq<string>, cursor: nat)
    requires cursor < |fields| && cursor < |segments| && AllKnown(model, fields[..cursor])
    ensures fields[cursor] !in model ==>
      ResolveFields(model, fields, segments) == LookupError(UnknownField(fields[cursor]))
    ensures fields[cursor] in model ==>
      AllKnown(model, fields[..cursor + 1]) &&
      Zip(fields, segments, cursor + 1) == Zip(fields, segments, cursor) + [Eq(fields[cursor], segments[cursor])]
  {
    var consumed := if |segments| <= |fields| then |segments| else |fields|;
    if fields[cursor] !in model {
      var prefix := fields[..consumed];
      assert prefix[cursor] == fields[cursor];
      var j := FirstUnknown(model, prefix);
      if j < cursor {
        KnownPrefixEntry(model, fields, cursor, j);
      } else if j > cursor {
        KnownPrefixEntry(model, prefix, j, cursor);
      }
    } else {
      assert fields[..cursor + 1] == fields[..cursor] + [fields[cursor]];
    }
  }

  /** Segments beyond an all-known field list: one more is the leaf, any
      further one is refused. */
  lemma ResolveFieldsBeyond(model: set<string>, fields: seq<string>, segments: seq<string>)
    requires |fields| < |segments| && AllKnown(model, fields)
    ensures ResolveFields(model, fields, segments) ==
      if |segments| == |fields| + 1 then Leaf(Zip(fields, segments, |fields|), segments[|fields|])
      else LookupError(TooManyParts)
  {
    assert fields[..|fields|] == fields;
  }

  /** Resolution of a path against a template over a model with the given
      field names: fixed branches are followed key by key, and the rest of the
      path is handed to the first field-sequence node reached. */
  function Resolve(model: set<string>, t: Template, path: seq<string>): Resolution
    decreases |path|
  {
    if path == [] then Directory([])
    else
      match t
      case Fixed(children) =>
        if path[0] in children then Resolve(model, children[path[0]], path[1..])
        else LookupError(NoSuchChild(path[0]))
      case Fields(fields) => ResolveFields(model, fields, path)
  }

  /** The node reached by following `keys` through fixed branches only. */
  function Descend(t: Template, keys: seq<string>): Option<Template>
    decreases |keys|
  {
    if keys == [] then Some(t)
    else
      match t
      case Fixed(children) =>
        if keys[0] in children then Descend(children[keys[0]], keys[1..]) else None
      case Fields(_) => None
  }

  // ---------------------------------------------------------------------------
  // Properties of path resolution
  // ---------------------------------------------------------------------------

  /** The empty path is the root directory, with no filter, whatever the template. */
  lemma EmptyPathIsRoot(model: set<string>, t: Template)
    ensures Resolve(model, t, []) == Directory([])
  {
  }

  /** Following fixed branches adds nothing: resolving `keys + rest` is
      resolving `rest` at the node that `keys` leads to. */
  lemma {:induction false} ResolveThroughBranches(model: set<string>, t: Template, keys: seq<string>, rest: seq<string>)
    requires Descend(t, keys).Some?
    ensures Resolve(model, t, keys + rest) == Resolve(model, Descend(t, keys).value, rest)
    decreases |keys|
  {
    if keys == [] {
      assert keys + rest == rest;
    } else {
      assert (keys + rest)[1..] == keys[1..] + rest;
      ResolveThroughBranches(model, t.children[keys[0]], keys[1..], rest);
    }
  }

  lemma {:induction false} DescendAppend(t: Template, keys: seq<string>, more: seq<string>)
    requires Descend(t, keys).Some?
    ensures Descend(t, keys + more) == Descend(Descend(t, keys).value, more)
    decreases |keys|
  {
    if keys == [] {
      assert keys + more == more;
    } else {
      assert (keys + more)[1..] == keys[1..] + more;
      DescendAppend(t.children[keys[0]], keys[1..], more);
    }
  }

  /** At a fixed branch the path so far is a directory without filters, a
      segment that is not a key is refused, and a key descends to its child. */
  lemma BranchStep(model: set<string>, t: Template, keys: seq<string>, segment: string, rest: seq<string>)
    requires Descend(t, keys).Some? && Descend(t, keys).value.Fixed?
    ensures Resolve(model, t, keys) == Directory([])
    ensures var children := Descend(t, keys).value.children;
      (segment !in children ==> Resolve(model, t, keys + [segment] + rest) == LookupError(NoSuchChild(segment))) &&
      (segment in children ==> Descend(t, keys + [segment]) == Some(children[segment]))
  {
    ResolveThroughBranches(model, t, keys, []);
    assert keys + [] == keys;
    ResolveThroughBranches(model, t, keys, [segment] + rest);
    assert keys + [segment] + rest == keys + ([segment] + rest);
    DescendAppend(t, keys, [segment]);
  }

  /** At a field-sequence node each further segment, up to the length of the
      list, adds exactly one filter: the next field equal to that segment. */
  lemma FieldStep(model: set<string>, t: Template, keys: seq<string>, values: seq<string>, segment: string)
    requires Descend(t, keys).Some? && Descend(t, keys).value.Fields?
    requires var fields := Descend(t, keys).value.fields;
      |values| < |fields| && AllKnown(model, fields[..|values| + 1])
    ensures var fields := Descend(t, keys).value.fields;
      Resolve(model, t, keys + values).Directory? &&
      Resolve(model, t, keys + values + [segment]) ==
        Directory(Resolve(model, t, keys + values).filters + [Eq(fields[|values|], segment)])
  {
    var fields := Descend(t, keys).value.fields;
    var n := |values|;
    assert AllKnown(model, fields[..n]) by {
      assert forall j :: 0 <= j < n ==> fields[..n][j] == fields[..n + 1][j];
    }
    ResolveThroughBranches(model, t, keys, values);
    ResolveThroughBranches(model, t, keys, values + [segment]);
    assert keys + values + [segment] == keys + (values + [segment]);
    assert Zip(fields, values + [segment], n + 1) == Zip(fields, values, n) + [Eq(fields[n], segment)];
  }

  /** At a field-sequence node whose fields are all known and all given a
      value, the next segment is the leaf: the filters so far, and the query
      adds `id == segment`. */
  lemma LeafStep(model: set<string>, t: Template, keys: seq<string>, values: seq<string>, segment: string)
    requires Descend(t, keys).Some? && Descend(t, keys).value.Fields?
    requires var fields := Descend(t, keys).value.fields;
      |values| == |fields| && AllKnown(model, fields)
    ensures Resolve(model, t, keys + values).Directory?
    ensures var filters := Resolve(model, t, keys + values).filters;
      Resolve(model, t, keys + values + [segment]) == Leaf(filters, segment) &&
      QueryOf(Resolve(model, t, keys + values + [segment])) ==
        Some(FilesystemQuery(false, filters + [Eq("id", segment)]))
  {
    var fields := Descend(t, keys).value.fields;
    var n := |values|;
    ResolveThroughBranches(model, t, keys, values);
    ResolveThroughBranches(model, t, keys, values + [segment]);
    assert keys + values + [segment] == keys + (values + [segment]);
    assert fields[..n] == fields;
    ResolveFieldsBeyond(model, fields, values + [segment]);
    assert Zip(fields, values + [segment], n) == Zip(fields, values, n);
  }

  /** A path whose last segment is a leaf cannot be extended: any further
      segment is refused as too many parts. */
  lemma {:induction false} LeafIsFinal(model: set<string>, t: Template, path: seq<string>, more: seq<string>)
    requires Resolve(model, t, path).Leaf?
    requires more != []
    ensures Resolve(model, t, path + more) == LookupError(TooManyParts)
    decreases |path|
  {
    assert (path + more)[0] == path[0];
    match t
    case Fixed(children) =>
      assert (path + more)[1..] == path[1..] + more;
      LeafIsFinal(model, children[path[0]], path[1..], more);
    case Fields(fields) =>
      assert fields[..|fields|] == fields;
  }

  /** A refused path stays refused whatever follows it, with the same error:
      the walk stops at the first bad segment and never reads the rest. */
  lemma {:induction false} ErrorIsFinal(model: set<string>, t: Template, path: seq<string>, more: seq<string>)
    requires Resolve(model, t, path).LookupError?
    ensures Resolve(model, t, path + more) == Resolve(model, t, path)
    decreases |path|
  {
    if more == [] {
      assert path + more == path;
    } else {
      assert (path + more)[0] == path[0];
      match t
      case Fixed(children) =>
        if path[0] in children {
          assert (path + more)[1..] == path[1..] + more;
          ErrorIsFinal(model, children[path[0]], path[1..], more);
        }
      case Fields(fields) =>
        var n := if |path| <= |fields| then |path| else |fields|;
        var m := if |path + more| <= |fields| then |path + more| else |fields|;
        if !AllKnown(model, fields[..n]) {
          var j := FirstUnknown(model, fields[..n]);
          assert fields[..n][..j] == fields[..j] == fields[..m][..j];
          assert fields[..n][j] == fields[j] == fields[..m][j];
          FirstUnknownAt(model, fields[..m], j);
        } else {
          assert n == m == |fields|;
        }
    }
  }

  /** Every proper prefix of a path that resolves is a directory. */
  lemma ValidPrefixIsDirectory(model: set<string>, t: Template, path: seq<string>, more: seq<string>)
    requires more != [] && !Resolve(model, t, path + more).LookupError?
    ensures Resolve(model, t, path).Directory?
  {
    if Resolve(model, t, path).Leaf? {
      LeafIsFinal(model, t, path, more);
    } else if Resolve(model, t, path).LookupError? {
      ErrorIsFinal(model, t, path, more);
    }
  }

  /** The filters of a result carry, in order, the segments that selected
      them, all on fields of the model; a leaf's id is its last segment, and
      its query adds `id == that segment`. */
  lemma {:induction false} FiltersEchoSegments(model: set<string>, t: Template, path: seq<string>)
    ensures var r := Resolve(model, t, path);
      r.Directory? ==>
        |r.filters| <= |path| &&
        forall j :: 0 <= j < |r.filters| ==>
          r.filters[j].field in model && r.filters[j].value == path[|path| - |r.filters| + j]
    ensures var r := Resolve(model, t, path);
      r.Leaf? ==>
        |r.filters| < |path| && r.id == path[|path| - 1] &&
        QueryOf(r) == Some(FilesystemQuery(false, r.filters + [Eq("id", path[|path| - 1])])) &&
        forall j :: 0 <= j < |r.filters| ==>
          r.filters[j].field in model && r.filters[j].value == path[|path| - 1 - |r.filters| + j]
    decreases |path|
  {
    if path != [] {
      match t
      case Fixed(children) =>
        if path[0] in children {
          FiltersEchoSegments(model, children[path[0]], path[1..]);
        }
      case Fields(fields) =>
        if |path| <= |fields| {
          assert fields[..|path|][0..] == fields[..|path|];
        } else {
          assert forall j :: 0 <= j < |fields| ==> fields[..|fields|][j] == fields[j];
        }
    }
  }

  /** Where a path splits into fixed-branch keys `path[..k]` leading to a field
      list whose every field the model has and whose length is the number of
      segments left before the last one. */
  predicate LeafSplitAt(model: set<string>, t: Template, path: seq<string>, k: nat)
  {
    k < |path| &&
    var node := Descend(t, path[..k]);
    node.Some? && node.value.Fields? &&
    |node.value.fields| == |path| - k - 1 && AllKnown(model, node.value.fields)
  }

  /** A path resolves to a leaf exactly when it walks fixed branches to a field
      list, gives one value per field, and then one more segment. */
  lemma {:induction false} LeafIff(model: set<string>, t: Template, path: seq<string>)
    ensures Resolve(model, t, path).Leaf? <==> exists k: nat :: LeafSplitAt(model, t, path, k)
    decreases |path|
  {
    if exists k: nat :: LeafSplitAt(model, t, path, k) {
      var k: nat :| LeafSplitAt(model, t, path, k);
      var fields := Descend(t, path[..k]).value.fields;
      ResolveThroughBranches(model, t, path[..k], path[k..]);
      assert path[..k] + path[k..] == path;
      assert fields[..|fields|] == fields;
    }
    if Resolve(model, t, path).Leaf? {
      assert path != [];
      match t
      case Fixed(children) =>
        var child := children[path[0]];
        LeafIff(model, child, path[1..]);
        var k: nat :| LeafSplitAt(model, child, path[1..], k);
        assert path[..k + 1] == [path[0]] + path[1..][..k];
        assert LeafSplitAt(model, t, path, k + 1);
      case Fields(fields) =>
        assert fields[..|fields|] == fields;
        assert path[..0] == [];
        assert LeafSplitAt(model, t, path, 0);
    }
  }

  /** A worked example: records filed by genre under `by-genre/<genre>/<id>`. */
  lemma GenreExample(model: set<string>)
    requires "genre" in model
    ensures var t := Fixed(map["by-genre" := Fields(["genre"])]);
      Resolve(model, t, ["by-genre", "sf"]) == Directory([Eq("genre", "sf")]) &&
      Resolve(model, t, ["by-genre", "sf", "1"]) == Leaf([Eq("genre", "sf")], "1") &&
      Resolve(model, t, ["by-genre", "sf", "1", "extra"]) == LookupError(TooManyParts) &&
      Resolve(model, t, ["by-author"]) == LookupError(NoSuchChild("by-author"))
  {
    var fields := ["genre"];
    assert fields[..1] == fields;
    assert Zip(fields, ["sf"], 1) == [Eq("genre", "sf")];
    assert Zip(fields, ["sf", "1"], 1) == [Eq("genre", "sf")];
    assert ["by-genre", "sf"][1..] == ["sf"];
    assert ["by-genre", "sf", "1"][1..] == ["sf", "1"];
    assert ["by-genre", "sf", "1", "extra"][1..] == ["sf", "1", "extra"];
  }

  // ---------------------------------------------------------------------------
  // BlobMeta: the resolver as the source runs it
  // ---------------------------------------------------------------------------

  class BlobMeta {
    /** The field names of the record model (`Blob._meta.fields`). */
    const model: set<string>
    /** The path template; it is never changed after construction. */
    const pathdefs: Template

    constructor (model: set<string>, pathdefs: Template)
      ensures this.model == model && this.pathdefs == pathdefs
    {
      this.model := model;
      this.pathdefs := pathdefs;
    }

    /** Walks the path segment by segment, as `path_to_query` does: a mapping
        node is descended by key; a list node is turned into a cursor on its
        first use; each segment then takes the next field, and a segment
        arriving at an exhausted cursor is the leaf. */
    method PathToQuery(path: seq<string>) returns (r: Resolution)
      ensures r == Resolve(model, pathdefs, path)
    {
      var node := pathdefs;
      var iterating := false;
      var fields: seq<string> := [];
      var cursor := 0;
      var query: seq<Filter> := [];
      var i := 0;
      while i < |path|
        invariant i <= |path|
        invariant !iterating ==>
          query == [] && Resolve(model, pathdefs, path) == Resolve(model, node, path[i..])
        invariant iterating ==>
          cursor <= |fields| && cursor <= i && AllKnown(model, fields[..cursor]) &&
          query == Zip(fields, path[i - cursor..], cursor) &&
          Resolve(model, pathdefs, path) == ResolveFields(model, fields, path[i - cursor..])
      {
        var part := path[i];
        if !iterating && node.Fixed? {
          if part !in node.children {
            return LookupError(NoSuchChild(part));
          }
          assert path[i..][1..] == path[i + 1..];
          node := node.children[part];
          i := i + 1;
          continue;
        }
        if !iterating {
          fields, cursor, iterating := node.fields, 0, true;
        }
        ghost var segments := path[i - cursor..];
        if cursor == |fields| {
          // the field list is exhausted: this segment is the leaf
          assert fields[..cursor] == fields;
          ResolveFieldsBeyond(model, fields, segments);
          if i + 1 < |path| {
            return LookupError(TooManyParts);
          }
          return Leaf(query, NameToId(part));
        }
        var field := fields[cursor];
        ResolveFieldsNext(model, fields, segments, cursor);
        cursor := cursor + 1;
        if field !in model {
          return LookupError(UnknownField(field));
        }
        query := query + [Eq(field, part)];
        i := i + 1;
        assert segments == path[i - cursor..];
      }
      return Directory(query);
    }
  }

  /** The resolver keeps no state between calls: resolving the same path twice
      on the same object gives the same result. */
  method ResolveTwice(blobMeta: BlobMeta, path: seq<string>) returns (first: Resolution, second: Resolution)
    ensures first == second
  {
    first := blobMeta.PathToQuery(path);
    second := blobMeta.PathToQuery(path);
  }
}
