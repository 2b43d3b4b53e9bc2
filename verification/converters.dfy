/** Loading the reference table (database/converters.py): every entry of the
    USDA file becomes one document stamped with its key as `food_id`, source
    `usda` and confidence 1.0, and the table is replaced by those documents.
    Reading the file and decoding its JSON are parameters. */
module Converters {
  import opened Wrappers
  import opened Records
  import NutritionDb

  /** A decoded file as the conversion sees it: a JSON object's entries in
      file order; a list or a string (which have a length but no `items`);
      or a number, a boolean or `null` (which have no length), each with
      its Python type name. */
  datatype Document =
    | Entries(entries: seq<(string, Json)>)
    | Sized(typeName: string)
    | Unsized(typeName: string)

  /** `json.load`: the decoded document, `None` for `JSONDecodeError`. */
  type Decoder = string -> Option<Document>

  /** The value `convert_nutrition_data` returns (or the exception it
      lets escape) and the table as it is left. */
  datatype Conversion = Conversion(returned: Result<bool, PyError>, table: Store)

  const UsdaSource: string := "usda"

  predicate IsMetadataKey(k: string) {
    k == "food_id" || k == "source" || k == "confidence"
  }

  /** The document for one entry: a copy of the entry with the three
      metadata keys set, whatever the entry held under them. */
  function Stamp(key: string, data: Record): (doc: Record)
    ensures doc.Keys == data.Keys + {"food_id", "source", "confidence"}
    ensures doc["food_id"] == JStr(key) && doc["source"] == JStr(UsdaSource) && doc["confidence"] == JFloat(1.0)
    ensures forall k :: k in data && !IsMetadataKey(k) ==> doc[k] == data[k]
  {
    data["food_id" := JStr(key)]["source" := JStr(UsdaSource)]["confidence" := JFloat(1.0)]
  }

  /** Stamping a stamped document again changes nothing. */
  lemma StampIdempotent(key: string, data: Record)
    ensures Stamp(key, Stamp(key, data)) == Stamp(key, data)
  {
    var once := Stamp(key, data);
    assert Stamp(key, once).Keys == once.Keys;
  }

  /** The message of the exception a non-dictionary entry raises: a list
      has `copy` but rejects a string index; other values have no
      `copy`. */
  function EntryError(value: Json): PyError
    requires !value.JObj?
  {
    match value
    case JArr(_) => TypeError("list indices must be integers or slices, not str")
    case JStr(_) => AttributeError("'str' object has no attribute 'copy'")
    case JInt(_) => AttributeError("'int' object has no attribute 'copy'")
    case JFloat(_) => AttributeError("'float' object has no attribute 'copy'")
    case JBool(_) => AttributeError("'bool' object has no attribute 'copy'")
    case JNull => AttributeError("'NoneType' object has no attribute 'copy'")
  }

  predicate AllObjects(entries: seq<(string, Json)>) {
    forall i :: 0 <= i < |entries| ==> entries[i].1.JObj?
  }

  /** The converted documents, one per entry in order, or the error of the
      first entry that is not a dictionary. */
  method StampAll(entries: seq<(string, Json)>) returns (r: Result<Store, PyError>)
    ensures r.Ok? <==> AllObjects(entries)
    ensures r.Ok? ==> |r.value| == |entries|
    ensures r.Ok? ==> forall i :: 0 <= i < |entries| ==> r.value[i] == Stamp(entries[i].0, entries[i].1.fields)
    ensures r.Err? ==>
      exists j :: 0 <= j < |entries| && !entries[j].1.JObj? && AllObjects(entries[..j]) && r.error == EntryError(entries[j].1)
  {
    var converted: Store := [];
    for n := 0 to |entries|
      invariant |converted| == n
      invariant AllObjects(entries[..n])
      invariant forall i :: 0 <= i < n ==> converted[i] == Stamp(entries[i].0, entries[i].1.fields)
    {
      var (key, value) := entries[n];
      if !value.JObj? {
        assert AllObjects(entries[..n]);
        return Err(EntryError(value));
      }
      converted := converted + [Stamp(key, value.fields)];
      assert entries[..n + 1] == entries[..n] + [entries[n]];
    }
    assert entries[..|entries|] == entries;
    return Ok(converted);
  }

  /** `convert_nutrition_data`. `file` is the input file's text, `None`
      when it does not exist. A missing file or undecodable text returns
      false and leaves the table alone. `len()` of a document without a
      length raises before the table is touched; any other document
      truncates the table first, so a later failure (a document without
      `items`, an entry that is not a dictionary) leaves it empty. */
  method ConvertNutritionData(file: Option<string>, decode: Decoder, table: Store) returns (c: Conversion)
    ensures file.None? ==> c == Conversion(Ok(false), table)
    ensures file.Some? && decode(file.value).None? ==> c == Conversion(Ok(false), table)
    ensures c.returned == Ok(true) <==>
      file.Some? && decode(file.value).Some? && decode(file.value).value.Entries? &&
      AllObjects(decode(file.value).value.entries)
    ensures c.returned == Ok(true) ==>
      var entries := decode(file.value).value.entries;
      |c.table| == |entries| &&
      forall i :: 0 <= i < |entries| ==> c.table[i] == Stamp(entries[i].0, entries[i].1.fields)
    ensures c.returned.Err? ==> c.table == [] || c.table == table
    ensures c.returned.Err? && decode(file.value).value.Entries? ==> c.table == []
  {
    if file.None? {
      return Conversion(Ok(false), table);
    }
    var decoded := decode(file.value);
    if decoded.None? {
      return Conversion(Ok(false), table);
    }
    match decoded.value
    case Sized(name) =>
      return Conversion(Err(AttributeError("'" + name + "' object has no attribute 'items'")), []);
    case Unsized(name) =>
      return Conversion(Err(TypeError("object of type '" + name + "' has no len()")), table);
    case Entries(entries) =>
      var converted := StampAll(entries);
      if converted.Err? {
        return Conversion(Err(converted.error), []);
      }
      return Conversion(Ok(true), converted.value);
  }

  /** After a conversion of entries with distinct keys, every key finds its
      own document. */
  lemma ConvertedKeysAreFound(entries: seq<(string, Json)>, table: Store, i: int)
    requires AllObjects(entries)
    requires forall a, b :: 0 <= a < b < |entries| ==> entries[a].0 != entries[b].0
    requires |table| == |entries|
    requires forall j :: 0 <= j < |entries| ==> table[j] == Stamp(entries[j].0, entries[j].1.fields)
    requires 0 <= i < |entries|
    ensures NutritionDb.GetFoodById(table, entries[i].0) == Some(table[i])
  {
    var key := entries[i].0;
    assert NutritionDb.HasId(table[i], key);
    forall j | 0 <= j < |table| && j != i
      ensures !NutritionDb.HasId(table[j], key)
    {
      assert table[j]["food_id"] == JStr(entries[j].0);
    }
    assert NutritionDb.FirstWithId(table, key, i);
  }
}
