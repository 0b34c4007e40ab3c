# harlequin-wherobots in Dafny

A model of the core of the Harlequin adapter for Wherobots DB. It covers how
`HarlequinWherobotsConnection` turns the remote catalog hierarchy into the tree the Harlequin
data catalog shows, and how each table's schema fields become column entries. It also covers
the small pure pieces around them:
- the authentication headers;
- the host `HarlequinWherobotsAdapter.connect` picks;
- the columns `HarlequinWherobotsCursor` reports.

Modules, one per file:

- `Wrappers` (`wrappers.dfy`): `Option` and `Result`.
- `Sequences` (`sequences.dfy`): the order-preserving subsequence relation the field filters keep.
- `Text` (`text.dfy`): substring containment, used to state what labels and warnings mention.
- `Catalog` (`catalog.dfy`): the `CatalogItem` entry of the tree, and the path property of
  qualified identifiers.
- `SchemaTypes` (`schema_types.dfy`): the raw field-type values and the type-label normaliser.
  The normaliser follows the test suite, not the code (see below).
- `SchemaPlacement` (`schema_placement.dfy`): where a schema response keeps its field list,
  what the code as written does with the raw "schema" value, and how the rest of the model
  reads it (see "## Findings").
- `TableSchema` (`table_schema.dfy`): `__get_table_schema`. One schema response becomes the
  table's column entries, which are appended in one step to the table's `children` list (the
  `ChildList` class).
- `CatalogModel` (`catalog_model.dfy`): the hierarchy datatype and the tree `__build_catalog`
  returns, as a reference function (`CatalogTree`), with the lemmas about its shape, its
  identifiers, its schema tasks and failure isolation.
- `CatalogBuilder` (`catalog_builder.dfy`): `__build_catalog` as the source writes it. The
  nested loops build the entries and submit one schema task per table. Each task holds the
  table's still-empty `children` list. The wait then runs every task. `BuildCatalog` is proved to
  return exactly `CatalogTree`. This module also holds `get_catalog` and its two fatal errors.
- `Connection` (`connection.dfy`): the header selection in the connection constructor.
- `Adapter` (`adapter.dfy`): the host derivation in `connect`.
- `Cursor` (`cursor.dfy`): `columns()`.

The schema endpoint is modelled as a function from the request to the
outcome (`Fetcher`). The request is made of the catalog's `extId`, the database and the table.
The outcome is a connection failure, or a status with a decoded body.
The source runs the schema tasks on a thread pool of five workers. Each task
writes only the fresh list created for its own table, and the builder reads the lists only
after waiting for all tasks. Running the tasks one after another in submission order therefore
yields the same tree, and that is what `WaitAll` does.

Where the code and its tests disagree, the model follows the code, except for the type label
and for where the field list sits:

- A schema body without a "schema" entry makes the code raise `KeyError`, while
  `tests/test_get_table_schema.py:341-363` expects an empty list and no exception.
  `GetTableSchema` returns `Failure(MissingSchema)` and leaves the list unchanged. Inside the
  builder the exception stays in the task's future, so the table's children are empty there
  (`ChildrenAfterFetch`), which is what the test observes.
- The code copies a field's "type" value verbatim into the type label (`adapter.py:209`). The
  tests expect struct, list and map descriptors reduced to their "type" tag, and malformed types
  turned into an "unknown ..." label with a logged warning. `Normalize` states the tests'
  contract. For a text type, the only case the code handles as the tests expect, the two agree.
- The code iterates the "schema" entry itself (`adapter.py:211`), while the tests put the field
  list under `schema["fields"]`. Iterating that object yields its keys, and the code then
  raises TypeError, so as written a table whose schema is such an object gets no columns. The
  model reads the field list wherever it sits (`SchemaPlacement.ReadSchema`): a decoded body
  carries "the field list", or none when the "schema" entry is missing. This follows the tests.
  `SchemaPlacement.FetchColumnsAsWritten` models the code as written for where the field list
  is read; its type labels still go through `Normalize`. "## Findings" records the difference.

## Model

| member | source | states |
|---|---|---|
| SchemaTypes.Normalize | tests/test_get_table_schema.py:367-476 | a text type passes through unchanged; a compound descriptor with a "type" tag yields exactly that tag, whatever it nests; a descriptor without a tag yields a label containing "unknown", "missing type" and the field's qualified name, with a warning containing "Missing 'type'"; any other value yields a label containing "unknown", "invalid type" and the qualified name, with a warning containing "Unexpected field_type format"; a warning is produced exactly for the malformed types |
| TableSchema.ColumnNodes | harlequin_wherobots/adapter.py:204-212 | one column entry per field, in field order, with qualified identifier `catalog.db.table.name`, query name and label equal to the field name, the normalised type label and no children |
| TableSchema.MalformedFieldsInOrder | tests/test_get_table_schema.py:413-476 | the fields whose type draws a warning are taken from the field list in its order, the others dropped |
| TableSchema.MalformedFieldsComplete | tests/test_get_table_schema.py:413-476 | every field whose type draws a warning is kept, as often as it occurs in the field list |
| TableSchema.SchemaWarnings | tests/test_get_table_schema.py:413-476 | one warning per malformed field, in field order; each is exactly that field's `Normalize` warning |
| TableSchema.SchemaWarningsMention | tests/test_get_table_schema.py:413-476 | each warning names its field's qualified name and carries the headline "Missing 'type'" for a descriptor without a tag or "Unexpected field_type format" for a value that is neither text nor a mapping |
| TableSchema.ChildrenEmptyUnlessColumnsFetched | harlequin_wherobots/adapter.py:200-212 | a table's children end up empty exactly when the request failed, the status was not 200, the body could not be decoded, had no "schema" entry or listed no fields; otherwise they are the column entries of the fields |
| TableSchema.GetTableSchema | harlequin_wherobots/adapter.py:193-212 | a non-200 status adds nothing and raises nothing; a failed request, an undecodable body or a missing "schema" entry raise and leave `into` unchanged; otherwise all column entries are appended to `into` in one step and the warnings are returned |
| CatalogModel.CatalogTreeShape | harlequin_wherobots/adapter.py:143-188 | one catalog entry per catalog, one db entry per database, one table entry per table, each in input order, with type labels "catalog", "db" and "table", identifiers `c`, `c.d` and `c.d.t`, query name equal to the identifier, the own name as label, and each table's children the result of its own schema task |
| CatalogModel.EachTableGetsItsOwnFetch | harlequin_wherobots/adapter.py:151-169 | read in order, the table entries of the tree correspond one to one to the submitted schema tasks, and each entry's children are its own task's result |
| CatalogModel.DatabaseTasksAreTheTables | harlequin_wherobots/adapter.py:148-169 | within one catalog, a schema task is submitted exactly for the tables of its databases |
| CatalogModel.SchemaTasksAreTheTables | harlequin_wherobots/adapter.py:146-169 | a schema task is submitted exactly for the tables of the hierarchy, each with its own catalog's `extId` and name and its database's and table's names |
| CatalogModel.TableNodePathsExtend | harlequin_wherobots/adapter.py:204-210 | every column entry's qualified identifier is its table's identifier followed by a dot and the column's label |
| CatalogModel.QualifiedIdentifiersArePaths | harlequin_wherobots/adapter.py:154-184 | every entry's qualified identifier is the dot-joined path of labels from its catalog down to itself, at every level including columns |
| CatalogModel.FetchFailureIsolated | harlequin_wherobots/adapter.py:190-202 | a schema fetch that fails in any way, or lists no fields, leaves only its own table without columns; every other table entry and the shape of the tree stay the same |
| CatalogBuilder.SubmitTables | harlequin_wherobots/adapter.py:150-169 | the table loop makes one table entry per table, in order, and submits one task per table holding that entry's own fresh, empty `children` list |
| CatalogBuilder.SubmitDatabases | harlequin_wherobots/adapter.py:148-179 | the database loop makes one db entry per database holding its table entries, and submits the tasks of all its tables in order |
| CatalogBuilder.WaitAll | harlequin_wherobots/adapter.py:190 | once every task has finished, each task's list holds exactly that task's result |
| CatalogBuilder.BuildCatalog | harlequin_wherobots/adapter.py:143-191 | the builder returns exactly the reference tree `CatalogTree`, and submits the schema tasks in the order `SchemaTasks` lists them |
| CatalogBuilder.GetCatalog | harlequin_wherobots/adapter.py:124-141 | a failed hierarchy request or an error status gives "Error reading catalog information", a malformed hierarchy gives "Invalid catalog data!", and otherwise the whole tree is returned, however many schema fetches fail |
| SchemaPlacement.ReadSchema | harlequin_wherobots/adapter.py:200-211 | the model's view of a raw response: a connection failure stays one, the status is kept, an undecodable body stays undecodable, a missing "schema" entry stays missing, and a decoded "schema" value gives its field list, which is the value itself for a list and the "fields" entry for an object; an object has that entry exactly when "fields" is one of its keys (the `SchemaValue` type) |
| SchemaPlacement.FetchColumnsAsWritten | harlequin_wherobots/adapter.py:200-212 | the code as written for where the field list is read (type labels still go through `Normalize`): a non-200 status gives no columns and no exception; for a 200 response whose "schema" value is an object, it raises TypeError exactly when the object has a key, and an empty object gives no columns and no warnings |
| SchemaPlacement.ObjectSchemaLosesColumns | harlequin_wherobots/adapter.py:211 | a schema object holding its field list under "fields" makes the code as written raise, while the intended reading gives one column per field |
| SchemaPlacement.ObjectSchemaExample | tests/test_get_table_schema.py:19-56 | for the tests' response shape with one text field "id" of type "long", the code as written raises, and the intended reading gives the one column `test_catalog.test_db.test_table.id` labelled "long" |
| SchemaPlacement.ReadAgreesWithCodeOnFieldLists | harlequin_wherobots/adapter.py:196-212 | for every response except a 200 one whose "schema" value is an object, the as-written placement and the intended reading give the same result; both build the columns with `Normalize`, so this is about where the field list is read only |
| Connection.AuthHeaders | harlequin_wherobots/adapter.py:93-97 | a non-empty token gives only `Authorization: Bearer <token>`; without one, a non-empty API key gives only `X-API-Key`; with neither there are no headers |
| Connection.OneCredentialHeader | harlequin_wherobots/adapter.py:93-97 | at most one credential header is sent, never both |
| Connection.TokenWins | harlequin_wherobots/adapter.py:94-97 | with a token given, the API key does not change the headers |
| Adapter.ConnectHost | harlequin_wherobots/adapter.py:254-260 | more than one connection string is an error; none gives the driver's default endpoint; one gives a host that is exactly "api." followed by that string |
| Cursor.NonKeyColumns | harlequin_wherobots/adapter.py:45-49 | no column is a primary-key field, every field outside the key is a column, every column comes from a field, the columns keep the fields' order, and each non-key (name, type) pair occurs among the columns exactly as often as among the fields, so repeated column names are kept |
| Cursor.Columns | harlequin_wherobots/adapter.py:39-49 | no schema yet gives no columns; a schema without a "primaryKey" entry raises; otherwise the columns are the non-key fields as (name, type) pairs in order |
| Cursor.EmptyKeyKeepsAllFields | harlequin_wherobots/adapter.py:45-49 | with an empty primary key every field is a column, in order |

## Left out

- HTTP and JSON: `requests.get`, `raise_for_status` and `response.json()` are not modelled as
  I/O. The schema endpoint is the `Fetcher` function, and the hierarchy request is the
  `HierarchyOutcome` value `GetCatalog` receives.
- Concurrency: the thread pool's worker count, thread names and `shutdown(wait=True)`. Tasks
  run one after another in submission order, which gives the same tree because each writes
  only its own list.
- The Wherobots driver: `connect`, `connect_direct`, the `Runtime[...]` and `Region[...]`
  lookups, `cursor.execute`, `cancel`, `close`, and the `HarlequinConnectionError` raised when
  opening the connection fails. They call into a library that is not part of this model.
- `HarlequinWherobotsCursor.fetchall` and `set_limit`: the table schema comes from pandas
  `build_table_schema` and the results are converted by pyarrow. `Columns` takes the stored
  schema as its input. `set_limit` returns the cursor unchanged.
- Logging setup from environment variables and the log calls. The warnings the normaliser
  logs are returned as strings instead.
- `cli_options.py` and `options.py`: declarations of option objects, with no logic.
- `DEFAULT_ENDPOINT` is a constant of the driver. `ConnectHost` takes it as a parameter.
- SchemaTypes.Normalize: follows the tests, not the code, which copies the "type" value
  verbatim. The two agree on text types. The tests check only the headline of a warning, and
  the model's warning text also names the field's qualified name.
- SchemaPlacement.FetchColumnsAsWritten: as written only for where the field list is read.
  Its columns are built with `ColumnNodes`, so a type label goes through `Normalize`, where
  the code copies the "type" value verbatim and logs no warning.
- TableSchema.GetTableSchema: takes the response as `ReadSchema` sees it, with the field list
  read wherever it sits. Where the "schema" value is an object, the code as written raises
  instead, so there its table gets no columns (see "## Findings").
- TableSchema.GetTableSchema: a field lacking its "name" or "type" key, or a "schema" value of
  the wrong shape, would raise in the code. The model's decoded body always carries well-formed
  fields, so these cases are not modelled.
- CatalogBuilder.GetCatalog: every way a hierarchy body can be malformed is one case, a body
  of `None`. The model does not separate a missing "catalogs" key from a missing "name".
- Cursor.Columns: a "fields" entry missing from the stored schema, or a field without a
  "name" or "type", would raise in the code. `build_table_schema` always writes them, so they
  are not modelled.

## Findings

| source | as written | input that shows it | evidently intended | confidence | as-written member | corrected member |
|---|---|---|---|---|---|---|
| harlequin_wherobots/adapter.py:211 | iterates the body's "schema" value itself; for an object this yields its keys, and `field['name']` on a key string raises TypeError, so inside the builder the table gets no columns | a 200 response with body `{"schema": {"type": "struct", "fields": [{"name": "id", "type": "long"}]}}`, the shape tests/test_get_table_schema.py:24-35 uses | iterate the object's "fields" list, one column per field | not executed; high, since every test with fields uses this shape | SchemaPlacement.ObjectSchemaLosesColumns | SchemaPlacement.ReadSchema |
