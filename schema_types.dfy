/**
 * Column type descriptors of the table-schema endpoint and the type-label normaliser.
 *
 * TEST-DERIVED: adapter.py copies a field's "type" value into the column's type label
 * unchanged. The normaliser below follows what tests/test_get_table_schema.py asserts instead:
 * a compound descriptor is reduced to its "type" tag, and a malformed type becomes an
 * "unknown ..." label with one logged warning. For a text type the code and the tests agree:
 * the name passes through.
 */
module SchemaTypes {
  import opened Wrappers
  import opened Text

  /** The raw "type" value of one schema field. */
  datatype FieldType =
    /** a primitive type given by name, e.g. "long" or "geometry" */
    | TextType(name: string)
    /**
     * a mapping: a struct, list or map descriptor. `kind` is its "type" tag when present;
     * `nested` stands for the types it carries (a struct's fields, a list's element, a map's
     * key and value).
     */
    | Compound(kind: Option<string>, nested: seq<FieldType>)
    /** any other JSON value: a number, a list, a boolean or null */
    | Other

  /** The types the tests treat as malformed: a mapping without a tag, or neither text nor mapping. */
  predicate IsMalformed(t: FieldType) {
    t.Other? || (t.Compound? && t.kind.None?)
  }

  /** A column's type label and the warning logged while producing it, if any. */
  datatype Normalized = Normalized(typeLabel: string, warning: Option<string>)

  /**
   * The type label of a field whose qualified name is `qualifiedName`. It never fails, and it
   * warns exactly when the type is malformed.
   */
  function Normalize(t: FieldType, qualifiedName: string): (r: Normalized)
    ensures t.TextType? ==> r.typeLabel == t.name
    ensures t.Compound? && t.kind.Some? ==> r.typeLabel == t.kind.value
    ensures t.Compound? && t.kind.None? ==>
      && Contains(r.typeLabel, "unknown")
      && Contains(r.typeLabel, "missing type")
      && Contains(r.typeLabel, qualifiedName)
      && r.warning.Some? && Contains(r.warning.value, "Missing 'type'")
      && Contains(r.warning.value, qualifiedName)
    ensures t.Other? ==>
      && Contains(r.typeLabel, "unknown")
      && Contains(r.typeLabel, "invalid type")
      && Contains(r.typeLabel, qualifiedName)
      && r.warning.Some? && Contains(r.warning.value, "Unexpected field_type format")
      && Contains(r.warning.value, qualifiedName)
    ensures r.warning.Some? <==> IsMalformed(t)
  {
    match t
    case TextType(name) => Normalized(name, None)
    case Compound(Some(kind), _) => Normalized(kind, None)
    case Compound(None, _) =>
      UnknownLabelMentions("missing type", qualifiedName);
      WarningMentions("Missing 'type'", " key in a complex field type", qualifiedName);
      Normalized(UnknownLabel("missing type", qualifiedName),
                 Some(Warning("Missing 'type'", " key in a complex field type", qualifiedName)))
    case Other =>
      UnknownLabelMentions("invalid type", qualifiedName);
      WarningMentions("Unexpected field_type format", " (neither text nor a mapping)", qualifiedName);
      Normalized(UnknownLabel("invalid type", qualifiedName),
                 Some(Warning("Unexpected field_type format", " (neither text nor a mapping)", qualifiedName)))
  }

  /** The sentinel label, e.g. "unknown (missing type) for cat.db.table.field". */
  function UnknownLabel(reason: string, qualifiedName: string): string {
    "unknown" + " (" + reason + ") for " + qualifiedName
  }

  /** The logged warning, e.g. "Missing 'type' key in a complex field type for cat.db.table.field". */
  function Warning(headline: string, detail: string, qualifiedName: string): string {
    headline + detail + " for " + qualifiedName
  }

  lemma UnknownLabelMentions(reason: string, qualifiedName: string)
    ensures Contains(UnknownLabel(reason, qualifiedName), "unknown")
    ensures Contains(UnknownLabel(reason, qualifiedName), reason)
    ensures Contains(UnknownLabel(reason, qualifiedName), qualifiedName)
  {
    var opening := "unknown" + " (";
    ContainsPrefix("unknown", " (");
    ContainsExtended(opening, "unknown", reason);
    ContainsExtended(opening + reason, "unknown", ") for ");
    ContainsExtended(opening + reason + ") for ", "unknown", qualifiedName);
    ContainsSuffix(opening, reason);
    ContainsExtended(opening + reason, reason, ") for ");
    ContainsExtended(opening + reason + ") for ", reason, qualifiedName);
    ContainsSuffix(opening + reason + ") for ", qualifiedName);
  }

  lemma WarningMentions(headline: string, detail: string, qualifiedName: string)
    ensures Contains(Warning(headline, detail, qualifiedName), headline)
    ensures Contains(Warning(headline, detail, qualifiedName), qualifiedName)
  {
    ContainsPrefix(headline, detail);
    ContainsExtended(headline + detail, headline, " for ");
    ContainsExtended(headline + detail + " for ", headline, qualifiedName);
    ContainsSuffix(headline + detail + " for ", qualifiedName);
  }
}
