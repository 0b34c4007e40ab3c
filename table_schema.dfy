/**
 * Fetching one table's schema and turning its fields into column entries
 * (`HarlequinWherobotsConnection.__get_table_schema`).
 */
module TableSchema {
  import opened Wrappers
  import opened Text
  import opened Catalog
  import opened SchemaTypes
  import opened Sequences

  /** One entry of a table schema's field list: its "name" and its raw "type" value. */
  datatype Field = Field(name: string, fieldType: FieldType)

  /** The variable parts of the URL https://<host>/catalog/<catalogId>/databases/<db>/tables/<table>. */
  datatype SchemaRequest = SchemaRequest(catalogId: string, db: string, table: string)

  /** The decoded body of a schema response. */
  datatype SchemaBody =
    /** `response.json()` raises */
    | Undecodable
    /** the field list under the body's "schema" entry; None when there is no such entry */
    | Decoded(fields: Option<seq<Field>>)

  /** What one GET of the schema URL gives back. */
  datatype FetchOutcome =
    /** `requests.get` raises (unreachable host, timeout, ...) */
    | ConnectionFailed
    | Response(status: int, body: SchemaBody)

  /** The schema endpoint as one connection sees it: its host and headers are fixed. */
  type Fetcher = SchemaRequest -> FetchOutcome

  /** The exceptions `__get_table_schema` lets escape. */
  datatype SchemaError =
    | RequestFailed
    | InvalidJson
    /** KeyError: the body has no "schema" entry */
    | MissingSchema
    /** TypeError: an entry of the iterated schema value is a string, not a field object */
    | FieldNotAnObject

  /** The arguments `__build_catalog` submits for one table, besides the `into` list. */
  datatype SchemaTask = SchemaTask(catalogId: string, catalog: string, db: string, table: string)

  function RequestOf(task: SchemaTask): SchemaRequest {
    SchemaRequest(task.catalogId, task.db, task.table)
  }

  /** The column entry made from one field. */
  function ColumnNode(catalog: string, db: string, table: string, field: Field): CatalogItem {
    var qualified := catalog + "." + db + "." + table + "." + field.name;
    CatalogItem(qualified, field.name, field.name, Normalize(field.fieldType, qualified).typeLabel, [])
  }

  /** The column entries of a table, one per field and in field order. */
  function ColumnNodes(catalog: string, db: string, table: string, fields: seq<Field>): (nodes: seq<CatalogItem>)
    ensures |nodes| == |fields|
    ensures forall i | 0 <= i < |fields| ::
      var qualified := catalog + "." + db + "." + table + "." + fields[i].name;
      && nodes[i].qualifiedIdentifier == qualified
      && nodes[i].queryName == fields[i].name
      && nodes[i].displayLabel == fields[i].name
      && nodes[i].typeLabel == Normalize(fields[i].fieldType, qualified).typeLabel
      && nodes[i].children == []
  {
    if fields == [] then []
    else [ColumnNode(catalog, db, table, fields[0])] + ColumnNodes(catalog, db, table, fields[1..])
  }

  /** The fields whose type the normaliser rejects, in field order. */
  function MalformedFields(fields: seq<Field>): (malformed: seq<Field>)
    ensures forall f | f in malformed :: f in fields && IsMalformed(f.fieldType)
  {
    if fields == [] then []
    else
      var rest := MalformedFields(fields[1..]);
      if IsMalformed(fields[0].fieldType) then [fields[0]] + rest else rest
  }

  /** Every malformed field is kept, as often as it occurs in `fields`. */
  lemma {:induction false} MalformedFieldsComplete(fields: seq<Field>)
    ensures forall f: Field | IsMalformed(f.fieldType) :: multiset(MalformedFields(fields))[f] == multiset(fields)[f]
  {
    if fields != [] {
      MalformedFieldsComplete(fields[1..]);
      assert fields == [fields[0]] + fields[1..];
      assert multiset(fields) == multiset{fields[0]} + multiset(fields[1..]);
    }
  }

  /** The malformed fields keep their field order: dropping the others from `fields` gives them. */
  lemma {:induction false} MalformedFieldsInOrder(fields: seq<Field>)
    ensures IsSubsequence(MalformedFields(fields), fields)
  {
    if fields != [] {
      MalformedFieldsInOrder(fields[1..]);
    }
  }

  /** The warnings logged while the column entries are built: one per malformed field, in order. */
  function SchemaWarnings(catalog: string, db: string, table: string, fields: seq<Field>): (warnings: seq<string>)
    ensures |warnings| == |MalformedFields(fields)|
    ensures forall k | 0 <= k < |warnings| ::
      var field := MalformedFields(fields)[k];
      var qualified := catalog + "." + db + "." + table + "." + field.name;
      Normalize(field.fieldType, qualified).warning == Some(warnings[k])
  {
    if fields == [] then []
    else
      var qualified := catalog + "." + db + "." + table + "." + fields[0].name;
      var first := Normalize(fields[0].fieldType, qualified).warning;
      assert MalformedFields(fields)
        == (if IsMalformed(fields[0].fieldType) then [fields[0]] else []) + MalformedFields(fields[1..]);
      (if first.Some? then [first.value] else []) + SchemaWarnings(catalog, db, table, fields[1..])
  }

  /**
   * Each warning names the field's qualified name and carries the headline for its kind of
   * malformed type.
   */
  lemma SchemaWarningsMention(catalog: string, db: string, table: string, fields: seq<Field>)
    ensures var warnings := SchemaWarnings(catalog, db, table, fields);
      forall k | 0 <= k < |warnings| ::
        var field := MalformedFields(fields)[k];
        var qualified := catalog + "." + db + "." + table + "." + field.name;
        && Contains(warnings[k], qualified)
        && (field.fieldType.Compound? ==> Contains(warnings[k], "Missing 'type'"))
        && (field.fieldType.Other? ==> Contains(warnings[k], "Unexpected field_type format"))
  {
  }

  /** The column entries a schema fetch contributes and the warnings it logs. */
  datatype SchemaColumns = SchemaColumns(nodes: seq<CatalogItem>, warnings: seq<string>)

  /**
   * What `__get_table_schema` does with one response: a non-200 status contributes nothing,
   * an undecodable body or one without a "schema" entry raises, and otherwise every field
   * becomes a column entry.
   */
  function FetchColumns(catalog: string, db: string, table: string, response: FetchOutcome)
    : Result<SchemaColumns, SchemaError>
  {
    match response
    case ConnectionFailed => Failure(RequestFailed)
    case Response(status, body) =>
      if status != 200 then Success(SchemaColumns([], []))
      else
        match body
        case Undecodable => Failure(InvalidJson)
        case Decoded(None) => Failure(MissingSchema)
        case Decoded(Some(fields)) =>
          Success(SchemaColumns(ColumnNodes(catalog, db, table, fields), SchemaWarnings(catalog, db, table, fields)))
  }

  /**
   * The children of a table entry once its task has finished. The list starts empty; an
   * exception raised by the task stays inside its future, so the list is then left empty.
   */
  function ChildrenAfterFetch(fetch: Fetcher, task: SchemaTask): seq<CatalogItem> {
    match FetchColumns(task.catalog, task.db, task.table, fetch(RequestOf(task)))
    case Success(columns) => columns.nodes
    case Failure(_) => []
  }

  /** A 200 response whose body carries a non-empty field list. */
  predicate HasColumns(response: FetchOutcome) {
    && response.Response?
    && response.status == 200
    && response.body.Decoded?
    && response.body.fields.Some?
    && response.body.fields.value != []
  }

  /**
   * A table ends up with no columns exactly when its fetch failed, answered with a non-200
   * status, had an undecodable body, had no "schema" entry or listed no fields; otherwise it
   * has one column per field.
   */
  lemma ChildrenEmptyUnlessColumnsFetched(fetch: Fetcher, task: SchemaTask)
    ensures ChildrenAfterFetch(fetch, task) == [] <==> !HasColumns(fetch(RequestOf(task)))
    ensures HasColumns(fetch(RequestOf(task))) ==>
      ChildrenAfterFetch(fetch, task)
        == ColumnNodes(task.catalog, task.db, task.table, fetch(RequestOf(task)).body.fields.value)
  {
    var response := fetch(RequestOf(task));
    var columns := FetchColumns(task.catalog, task.db, task.table, response);
    if HasColumns(response) {
      var nodes := ColumnNodes(task.catalog, task.db, task.table, response.body.fields.value);
      assert columns.Success? && columns.value.nodes == nodes;
      assert |nodes| == |response.body.fields.value| > 0;
    } else if columns.Success? {
      assert columns.value.nodes == [];
    }
  }

  /** The `children` list of one table entry, which the table's schema task appends to. */
  class ChildList {
    var items: seq<CatalogItem>
    /** The task this list was handed to (a proof device: the list itself does not know it). */
    ghost const owner: SchemaTask
    /** How many tasks were submitted before this list's own (a proof device as well). */
    ghost const position: nat

    constructor (ghost owner: SchemaTask, ghost position: nat)
      ensures items == [] && this.owner == owner && this.position == position
    {
      items := [];
      this.owner := owner;
      this.position := position;
    }
  }

  /**
   * `__get_table_schema(catalog_id, catalog, db, table, into)`: fetch the schema and append
   * the column entries to `into` in one step, after all of them are built. Returns the
   * warnings logged, or the exception that escapes; on an exception `into` is unchanged.
   */
  method GetTableSchema(fetch: Fetcher, catalogId: string, catalog: string, db: string, table: string, into: ChildList)
    returns (outcome: Result<seq<string>, SchemaError>)
    modifies into
    ensures var expected := FetchColumns(catalog, db, table, fetch(SchemaRequest(catalogId, db, table)));
      && (expected.Success? ==>
            outcome == Success(expected.value.warnings) && into.items == old(into.items) + expected.value.nodes)
      && (expected.Failure? ==> outcome == Failure(expected.error) && into.items == old(into.items))
    ensures into.items == old(into.items) + ChildrenAfterFetch(fetch, SchemaTask(catalogId, catalog, db, table))
  {
    var response := fetch(SchemaRequest(catalogId, db, table));
    match response {
      case ConnectionFailed =>
        return Failure(RequestFailed);
      case Response(status, body) =>
        if status != 200 {
          // errors getting a table's schema are ignored
          return Success([]);
        }
        match body {
          case Undecodable =>
            return Failure(InvalidJson);
          case Decoded(None) =>
            return Failure(MissingSchema);
          case Decoded(Some(fields)) =>
            var columns := ColumnNodes(catalog, db, table, fields);
            var warnings := SchemaWarnings(catalog, db, table, fields);
            into.items := into.items + columns;
            return Success(warnings);
        }
    }
  }
}
