/**
 * Where a schema response keeps its field list. `__get_table_schema` iterates the body's
 * "schema" value itself, which yields the fields when that value is a list of field objects.
 * The service's responses, as the tests show them, hold an object there instead, whose
 * "fields" entry is the list; iterating an object yields its keys, and reading "name" from a
 * key string raises TypeError. The rest of the model reads the field list wherever it sits
 * (`ReadSchema`); `FetchColumnsAsWritten` is what the code does with the raw value, as far as
 * where the field list is read: its type labels still go through the test-derived `Normalize`,
 * where the code copies the "type" value verbatim.
 */
module SchemaPlacement {
  import opened Wrappers
  import opened Catalog
  import opened SchemaTypes
  import opened TableSchema

  /** The shape of the body's "schema" value. */
  datatype SchemaShape =
    /** a list of field objects */
    | FieldArray(items: seq<Field>)
    /** an object: its keys in order, and its "fields" entry when there is one */
    | SchemaObject(keys: seq<string>, fields: Option<seq<Field>>)

  /** A "schema" value a JSON body can hold: an object has a "fields" entry exactly when "fields" is one of its keys. */
  type SchemaValue = v: SchemaShape | v.SchemaObject? ==> (v.fields.Some? <==> "fields" in v.keys)
    witness FieldArray([])

  datatype RawBody = RawUndecodable | RawDecoded(schema: Option<SchemaValue>)

  /** One GET of the schema URL, with the body as the service sends it. */
  datatype RawOutcome = RawConnectionFailed | RawResponse(status: int, body: RawBody)

  /** The field list of a "schema" value: the value itself, or an object's "fields" entry. */
  function FieldListOf(schema: SchemaValue): Option<seq<Field>> {
    match schema
    case FieldArray(fields) => Some(fields)
    case SchemaObject(_, fields) => fields
  }

  /** A raw response as the rest of the model sees it: the field list read wherever it sits. */
  function ReadSchema(response: RawOutcome): (read: FetchOutcome)
    ensures response.RawConnectionFailed? <==> read.ConnectionFailed?
    ensures response.RawResponse? ==> read.status == response.status
    ensures response.RawResponse? && response.body.RawUndecodable? ==> read.body == Undecodable
    ensures response.RawResponse? && response.body.RawDecoded? && response.body.schema.None? ==>
      read.body == Decoded(None)
    ensures response.RawResponse? && response.body.RawDecoded? && response.body.schema.Some? ==>
      read.body == Decoded(FieldListOf(response.body.schema.value))
  {
    match response
    case RawConnectionFailed => ConnectionFailed
    case RawResponse(status, RawUndecodable) => Response(status, Undecodable)
    case RawResponse(status, RawDecoded(None)) => Response(status, Decoded(None))
    case RawResponse(status, RawDecoded(Some(schema))) => Response(status, Decoded(FieldListOf(schema)))
  }

  /**
   * `__get_table_schema` as written for where the field list is read: the "schema" value itself
   * is iterated. A list gives its fields; an object gives its keys, so a non-empty object raises
   * on its first key. The columns of a list are built as in the rest of the model, so their type
   * labels go through `Normalize`.
   */
  function FetchColumnsAsWritten(catalog: string, db: string, table: string, response: RawOutcome)
    : (r: Result<SchemaColumns, SchemaError>)
    ensures response.RawResponse? && response.status != 200 ==> r == Success(SchemaColumns([], []))
    ensures response.RawResponse? && response.status == 200 && response.body.RawDecoded?
            && response.body.schema.Some? && response.body.schema.value.SchemaObject? ==>
      && (r == Failure(FieldNotAnObject) <==> response.body.schema.value.keys != [])
      && (response.body.schema.value.keys == [] ==> r == Success(SchemaColumns([], [])))
  {
    match response
    case RawConnectionFailed => Failure(RequestFailed)
    case RawResponse(status, body) =>
      if status != 200 then Success(SchemaColumns([], []))
      else
        match body
        case RawUndecodable => Failure(InvalidJson)
        case RawDecoded(None) => Failure(MissingSchema)
        case RawDecoded(Some(FieldArray(fields))) =>
          Success(SchemaColumns(ColumnNodes(catalog, db, table, fields), SchemaWarnings(catalog, db, table, fields)))
        case RawDecoded(Some(SchemaObject(keys, _))) =>
          if keys == [] then Success(SchemaColumns([], [])) else Failure(FieldNotAnObject)
  }

  /**
   * A schema object that holds its field list under "fields" makes the code as written raise,
   * so inside the builder the table gets no columns; read as intended, every field becomes a
   * column.
   */
  lemma {:induction false} ObjectSchemaLosesColumns(catalog: string, db: string, table: string,
                                                    keys: seq<string>, fields: seq<Field>)
    requires "fields" in keys
    ensures var response := RawResponse(200, RawDecoded(Some(SchemaObject(keys, Some(fields)))));
      && FetchColumnsAsWritten(catalog, db, table, response) == Failure(FieldNotAnObject)
      && FetchColumns(catalog, db, table, ReadSchema(response)).Success?
      && |FetchColumns(catalog, db, table, ReadSchema(response)).value.nodes| == |fields|
  {
    assert keys != [];
  }

  /** The body of tests/test_get_table_schema.py's first case, cut down to its first field. */
  lemma ObjectSchemaExample()
    ensures var response := RawResponse(200, RawDecoded(Some(SchemaObject(["type", "fields"],
                                                                          Some([Field("id", TextType("long"))])))));
      && FetchColumnsAsWritten("test_catalog", "test_db", "test_table", response).Failure?
      && FetchColumns("test_catalog", "test_db", "test_table", ReadSchema(response))
           == Success(SchemaColumns([CatalogItem("test_catalog.test_db.test_table.id", "id", "id", "long", [])], []))
  {
    var fields := [Field("id", TextType("long"))];
    assert fields[1..] == [];
    assert MalformedFields(fields) == [];
    var warnings := SchemaWarnings("test_catalog", "test_db", "test_table", fields);
    assert |warnings| == 0;
    var qualified := "test_catalog" + "." + "test_db" + "." + "test_table" + "." + "id";
    assert qualified == "test_catalog.test_db.test_table.id";
    var nodes := ColumnNodes("test_catalog", "test_db", "test_table", fields);
    assert nodes == [CatalogItem(qualified, "id", "id", "long", [])];
  }

  /**
   * Reading the field list wherever it sits changes nothing where the code already reads it:
   * for every response except a 200 one whose "schema" value is an object, the as-written
   * placement and `ReadSchema` give the same result (both build columns the same way, with
   * `Normalize`).
   */
  lemma ReadAgreesWithCodeOnFieldLists(catalog: string, db: string, table: string, response: RawOutcome)
    requires !(response.RawResponse? && response.status == 200 && response.body.RawDecoded?
               && response.body.schema.Some? && response.body.schema.value.SchemaObject?)
    ensures FetchColumnsAsWritten(catalog, db, table, response) == FetchColumns(catalog, db, table, ReadSchema(response))
  {
    match response
    case RawConnectionFailed =>
    case RawResponse(status, body) =>
      if status == 200 {
        match body
        case RawUndecodable =>
        case RawDecoded(None) =>
        case RawDecoded(Some(schema)) =>
          assert schema.FieldArray?;
      }
  }
}
