# blobmetafs core: path templates and schema bootstrap

blobmetafs presents a store of JSON records as a read-only filesystem. A
*path template* (`pathdefs`) decides the directory tree. A mapping node is a
fixed branch whose keys are literal directory names. A list node is a
sequence of record-model field names. Each path segment below a list node
is the value of an equality filter on the next field. The segment after the
last field names a single record (the leaf), by id. Any segment after that
is refused.

This project models, in Dafny:

- `bmkit/blobmeta.py`
  - `BlobMeta.path_to_query`, which turns a path into a filesystem query or
    a `LookupError`;
  - the `FilenameMapper` name codec;
  - the `FilesystemQuery` record.
- `bmkit/create.py`
  - `model_from_dict`, which infers the record model's fields and types from
    one sample record;
  - the `TYPE_TO_FIELD_TYPE` table;
  - `mangle_pythonic_to_filesystem` and `autogenerate_config_from_model`,
    which derive the default path template from the model;
  - the guard of `create_datadir`, which refuses to delete a directory that
    does not carry the signature file.

Files:

- `results.dfy`: `Option`, `Result` and `Outcome`.
- `blobmeta.dfy`, module `BlobMeta`:
  - `Resolve` is a declarative specification of path resolution.
  - Lemmas state its properties.
  - The class `BlobMeta` holds the source's step-by-step loop
    (`PathToQuery`), proved equal to `Resolve`.
- `create.dfy`, module `Create`:
  - `InferredModel` and `DefaultPathdefs` are the specifications of model
    inference and default configuration.
  - The methods `ModelFromDict` and `AutogenerateConfig` are the source's
    loops, proved against those specifications.
  - The class `DataDir` holds the data-directory guard.
  - The cases of `tests/test_create.py` are restated as lemmas and methods.

A query is modelled as the list of equality filters it conjoins, in the
order the source adds them. A leaf adds `id == name` on top (`QueryOf`). The
resolver is given the record model as the set of its field names, the names of
`Blob._meta.fields`, supplied by the caller. For a model inferred from a
sample record that set is `Create.BlobFieldNames`: the declared columns plus
the `id` primary key that peewee adds.

## Model

| member | source | states |
|---|---|---|
| `BlobMeta.BlobMeta.PathToQuery` | bmkit/blobmeta.py:18-40 | the segment-by-segment walk (mapping lookup, lazy iterator over the field list, StopIteration handling, one filter per segment) returns exactly the resolution `Resolve` specifies for the path, errors included |
| `BlobMeta.BlobMeta.constructor` | bmkit/blobmeta.py:15-17 | the resolver keeps the record model and the template it is given |
| `BlobMeta.ResolveTwice` | bmkit/blobmeta.py:18-22 | resolution keeps no state between calls: the same path on the same resolver gives the same result twice |
| `BlobMeta.RecordToName` | bmkit/blobmeta.py:7-9 | a record's leaf name is its id |
| `BlobMeta.NameToId` | bmkit/blobmeta.py:10-12 | a leaf name is used as the id as it is, without parsing |
| `BlobMeta.NameCodecRoundTrip` | bmkit/blobmeta.py:6-12 | decoding the leaf name of a record gives back the record's id |
| `BlobMeta.NameCodecRoundTripFromName` | bmkit/blobmeta.py:6-12 | encoding the record a name decodes to gives back the name |
| `BlobMeta.QueryOf` | bmkit/blobmeta.py:35-40 | builds the `FilesystemQuery` record (line 4): an error has no query; the query is a directory exactly when the resolution is; it starts with the resolution's filters; a directory adds nothing, and a leaf adds exactly one last filter `id == name` |
| `BlobMeta.EmptyPathIsRoot` | bmkit/blobmeta.py:22-40 | a path with no parts is a directory with no filter, whatever the template |
| `BlobMeta.ResolveThroughBranches` | bmkit/blobmeta.py:23-27 | following fixed keys adds no filter: resolving `keys + rest` is resolving `rest` at the node the keys lead to |
| `BlobMeta.BranchStep` | bmkit/blobmeta.py:23-27 | at a mapping node the path so far is a filterless directory; a segment that is not a key is refused with that segment named; a key descends to its child |
| `BlobMeta.FieldStep` | bmkit/blobmeta.py:28-39 | at a field list each further segment, up to the list's length, appends exactly one filter: the next field equal to that segment |
| `BlobMeta.LeafStep` | bmkit/blobmeta.py:30-38 | at a field list whose fields are all known and all given a value, the next segment is the leaf: the filters gathered so far, and a query that adds `id == segment` |
| `BlobMeta.ResolveFieldsNext` | bmkit/blobmeta.py:30-39 | after known fields, a segment whose field the model lacks is refused naming that field; a known field extends the filters by one |
| `BlobMeta.ResolveFieldsBeyond` | bmkit/blobmeta.py:30-38 | once the field list is used up, exactly one more segment is the leaf with that id, and two or more are "too many parts" |
| `BlobMeta.FirstUnknown` | bmkit/blobmeta.py:39 | the field reported as unknown is the first one in the list the model lacks; all before it are known |
| `BlobMeta.FirstUnknownAt` | bmkit/blobmeta.py:39 | a field the model lacks that follows only known fields is exactly the one reported, however many fields come after it |
| `BlobMeta.LeafIsFinal` | bmkit/blobmeta.py:32-34 | a leaf cannot be extended: any nonempty continuation is refused as too many parts |
| `BlobMeta.ErrorIsFinal` | bmkit/blobmeta.py:22-39 | a refused path stays refused whatever follows it, with the identical error naming the same segment or field: the walk raises at the first bad part and never reads the rest |
| `BlobMeta.ValidPrefixIsDirectory` | bmkit/blobmeta.py:22-40 | every proper prefix of a path that resolves (to a directory or a leaf) is a directory |
| `BlobMeta.FiltersEchoSegments` | bmkit/blobmeta.py:35-40 | the filters carry, in order, the trailing segments of the path, each on a field of the model; a leaf's id is the last segment, and its query adds `id == last segment` |
| `BlobMeta.LeafIff` | bmkit/blobmeta.py:30-38 | a path is a leaf if and only if it follows fixed keys to a field list whose fields are all known, gives one segment per field, and then exactly one more |
| `BlobMeta.GenreExample` | bmkit/blobmeta.py:18-40 | under `{by-genre: [genre]}`: `by-genre/sf` filters genre == sf; `by-genre/sf/1` is leaf 1; a fourth part is refused; an unknown top directory is refused |
| `Create.ModelFromDict` | bmkit/create.py:26-39 | the item-by-item loop returns exactly the specified inference: `path` missing is an error; otherwise the first item of unknown type is reported; otherwise `path` as a unique CharField, then one typed column per other item |
| `Create.FirstUnsupported` | bmkit/create.py:32-38 | the item reported as of unknown type is the first such item other than `path`; all before it are supported |
| `Create.FirstUnsupportedAt` | bmkit/create.py:35-38 | an item of unknown type reached after supported items is exactly the one the specification reports |
| `Create.InferredModelOutcome` | bmkit/create.py:26-39 | inference fails with the missing-path error if and only if there is no `path` key; it succeeds if and only if `path` is present and every other value's type is in the table; an unknown-type error names an item whose type is not in the table |
| `Create.InferredModelShape` | bmkit/create.py:29-38 | a successful model has the unique `path` CharField first, no other column called `path`, distinct column names, one column per other key typed by the table, and field names equal to the record's keys plus `id` |
| `Create.ColumnsNames` | bmkit/create.py:32-38 | the declared columns other than `path` are named by exactly the record's other keys |
| `Create.ColumnsDistinct` | bmkit/create.py:32-38 | no two declared columns share a name |
| `Create.ColumnsTyped` | bmkit/create.py:7-12 | every item other than `path` gets the field class the table maps its value's exact type to |
| `Create.Mangle` | bmkit/create.py:49-50 | mangling keeps the length and leaves no underscore |
| `Create.MangleKeepsPlainNames` | bmkit/create.py:49-50 | a name without underscores is unchanged by mangling |
| `Create.MangleOnlyFromItself` | bmkit/create.py:49-57 | a name with neither `_` nor `-` is the mangling of itself only, and `by-<name>` is the directory of that field only |
| `Create.AutogenerateConfig` | bmkit/create.py:52-58 | the loop over the model's fields builds exactly the specified `pathdefs` mapping under the config's one key |
| `Create.DefaultPathdefsEntries` | bmkit/create.py:52-58 | the generated directories are exactly `by-<mangled name>` for the fields other than `path` and `id`, and each lists one field that mangles to it |
| `Create.DefaultPathdefsLastWins` | bmkit/create.py:54-57 | a field's directory lists that field unless a later field mangles to the same name |
| `Create.NoReservedDirectories` | bmkit/create.py:55-56 | no `by-path` and no `by-id` directory is ever generated |
| `Create.DefaultTemplateResolution` | bmkit/create.py:57 | under the generated template a field's directory is filterless, a value below it filters on that field, the next segment is a leaf, and anything deeper is refused |
| `Create.DataDir.constructor` | bmkit/create.py:14-15 | a data directory is described by its signature name, whether it exists, and its entries; an absent directory has no entries |
| `Create.DataDir.CreateDatadir` | bmkit/create.py:14-24 | an existing directory is left untouched: without `delete_existing` the result is the already-exists error; without the signature it is the signature-missing error. Otherwise the directory exists afterwards and holds only the signature file |
| `Create.ModelFromDictEmptyCase` | tests/test_create.py:23-24 | `{}` is refused for lacking `path` |
| `Create.ModelFromDictPathOnlyCase` | tests/test_create.py:25-26 | `{'path': ''}` gives only the `path` column, so the fields are `id` and `path` |
| `Create.ModelFromDictTypedCase` | tests/test_create.py:27-30 | int, float and str samples give an IntegerField, a FloatField and a CharField, after `path` |
| `Create.ModelFromDictUnknownTypeCase` | bmkit/create.py:35-38 | a value of a type outside the table is refused, naming its field |
| `Create.MangleCases` | tests/test_create.py:37-44 | `foo` stays `foo`; `bar_with_underscores` becomes `bar-with-underscores` |
| `Create.ByNameCases` | tests/test_create.py:43-44 | the directory names `by-foo` and `by-bar-with-underscores` |
| `Create.DefaultPathdefsOfFour` | tests/test_create.py:37-45 | a model with fields id, path and two others gets exactly the two other fields' directories |
| `Create.AutogenerateConfigCase` | tests/test_create.py:37-45 | the test's model gets directories `by-foo` -> [foo] and `by-bar-with-underscores` -> [bar_with_underscores], and no others |
| `Create.CreateDatadirCase` | tests/test_create.py:6-20 | the test's sequence: refusal without `delete_existing`, then refusal without the signature, then creation after removal, then re-creation that wipes an added file |

## Left out

- The FUSE adapter (`blobmetafs/main.py`), the command-line tools
  (`bmkit/main.py`, `blobmetatools`), executing queries against SQLite,
  `create_schema_from_sample_record` and `populate_sample_records` are not
  part of this model. They are I/O around the core.
- Path splitting by `pathlib` is not modelled. A path is given as its list of
  parts. An absolute path's leading `/` is then its own first part. A mapping
  template must have it as a key; a list template takes it as the value of
  its first field.
- The `SIGNATURE` constant lives in `bmkit/__init__.py`, which is not part of
  this model. It is a parameter of `DataDir`.
- `Create.DataDir.CreateDatadir`: the directory is abstracted to an
  existence flag and a set of entry names. `mkdir` and `touch` become
  updates to those fields. Nested contents and file-system errors are not
  modelled.
- `Create.ModelFromDict`: the result is the list of declared columns, in
  insertion order, not a peewee class. Building the class dynamically with
  `type(...)` is not modelled.
  - The implicit `id` primary key appears only in `BlobFieldNames`.
  - Sample values are modelled by their exact runtime type only. Other
    types are `OtherType`.
- `BlobMeta.NameCodecRoundTrip`: `name_to_id` returns the leaf name
  unchanged. Python's int/str difference between a record id and a path
  segment is not modelled. The model's leaf id is the segment string.
- A template is modelled as nested mappings and lists of field names.
  - Other values the source would iterate over, such as a string (iterated
    character by character), are not modelled.
  - A mapping inside a list is not modelled either.
- The field list of a template is turned into an iterator lazily in the
  source. The model walks it with an index, which visits the same fields in
  the same order.
- A `KeyError` from the model's field table is a subclass of `LookupError`
  in Python. The model reports it as `LookupError(UnknownField(field))`.
- The error messages' text is not modelled. The error kind and the
  offending segment or field are.
- A segment is never parsed into a typed value: `name_to_id` returns it
  unchanged (bmkit/blobmeta.py:11-12).
- A template field the record model lacks is reported only when a path
  reaches it (the `KeyError` at bmkit/blobmeta.py:39), not when the template
  is loaded.
