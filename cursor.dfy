/**
 * `HarlequinWherobotsCursor.columns`: the result columns the table view shows, read from the
 * table schema kept by the last `fetchall`.
 */
module Cursor {
  import opened Wrappers
  import opened Sequences

  /** One entry of the schema's "fields" list. */
  datatype SchemaField = SchemaField(name: string, fieldType: string)

  /** The table schema `fetchall` stores: its "fields" and, when present, its "primaryKey". */
  datatype FrameSchema = FrameSchema(fields: seq<SchemaField>, primaryKey: Option<seq<string>>)

  /** A schema without a "primaryKey" entry makes the lookup raise KeyError. */
  datatype ColumnsError = MissingPrimaryKey

  /** The (name, type) pair of every field. */
  function Pairs(fields: seq<SchemaField>): seq<(string, string)> {
    seq(|fields|, i requires 0 <= i < |fields| => (fields[i].name, fields[i].fieldType))
  }

  /**
   * The (name, type) pairs of the fields whose name is not part of the key, in field order;
   * a field that occurs twice gives two columns.
   */
  function NonKeyColumns(fields: seq<SchemaField>, key: seq<string>): (columns: seq<(string, string)>)
    ensures forall c | c in columns :: c.0 !in key
    ensures forall f | f in fields && f.name !in key :: (f.name, f.fieldType) in columns
    ensures forall c | c in columns :: exists f | f in fields :: c == (f.name, f.fieldType)
    ensures IsSubsequence(columns, Pairs(fields))
    ensures forall c: (string, string) | c.0 !in key :: multiset(columns)[c] == multiset(Pairs(fields))[c]
  {
    if fields == [] then []
    else
      var head := (fields[0].name, fields[0].fieldType);
      var rest := NonKeyColumns(fields[1..], key);
      PairsCons(fields);
      if fields[0].name !in key then [head] + rest else rest
  }

  lemma PairsCons(fields: seq<SchemaField>)
    requires fields != []
    ensures Pairs(fields) == [(fields[0].name, fields[0].fieldType)] + Pairs(fields[1..])
    ensures forall f | f in fields[1..] :: f in fields
  {
  }

  /**
   * `columns()`: nothing before the first `fetchall`; otherwise every field outside the
   * primary key, as (name, type) pairs in field order.
   */
  function Columns(schema: Option<FrameSchema>): (columns: Result<seq<(string, string)>, ColumnsError>)
    ensures schema.None? ==> columns == Success([])
    ensures columns.Failure? <==> schema.Some? && schema.value.primaryKey.None?
    ensures columns.Success? && schema.Some? ==>
      columns.value == NonKeyColumns(schema.value.fields, schema.value.primaryKey.value)
  {
    match schema
    case None => Success([])
    case Some(FrameSchema(fields, None)) => Failure(MissingPrimaryKey)
    case Some(FrameSchema(fields, Some(key))) => Success(NonKeyColumns(fields, key))
  }

  /** Without a primary key to drop, every field is a column, in order. */
  lemma {:induction false} EmptyKeyKeepsAllFields(fields: seq<SchemaField>)
    ensures NonKeyColumns(fields, []) == Pairs(fields)
  {
    if fields != [] {
      EmptyKeyKeepsAllFields(fields[1..]);
      PairsCons(fields);
      assert NonKeyColumns(fields, []) == [(fields[0].name, fields[0].fieldType)] + NonKeyColumns(fields[1..], []);
    }
  }
}
