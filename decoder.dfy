/** The result decoder of `brichka run`: the type-directed reformatting of
    complex values (`is_complex_type` .. `convert_field_value`), the row and
    table builders, and the dispatch on the result type. */
module Decoder {
  import opened Wrappers
  import opened Text
  import opened Json
  import opened JsonRoundTrip
  import opened Api

  // ---------------------------------------------------------------------------
  // Complex values

  /** `is_complex_type`: the trimmed type text starts with `{}` or with `[`. */
  predicate IsComplexType(fieldType: string) {
    StartsWith(Trim(fieldType), "{}") || StartsWith(Trim(fieldType), "[")
  }

  /** The `"type"` member of a descriptor, when it is a string. */
  function TypeName(schema: Json): Option<string> {
    match Member(schema, "type")
    case Some(Str(name)) => Some(name)
    case _ => None
  }

  /** `format_complex_value`: the type text is parsed as a descriptor; a text
      that does not parse formats the value as plain JSON. */
  function FormatComplexValue(typeText: string, value: Json): Result<string> {
    match Parse(typeText)
    case None => Ok(Serialize(value))
    case Some(schema) => FormatBySchema(schema, value)
  }

  /** `format_complex_value` once the descriptor is parsed.  The nested calls
      of the source pass `to_string` of a sub-descriptor, and parsing that text
      gives the sub-descriptor back (`FormatComplexValueOfSerialized`), so the
      recursion is stated on the descriptor itself. */
  function FormatBySchema(schema: Json, value: Json): Result<string>
    decreases schema, 3
  {
    if TypeName(schema) == Some("struct") then StructValue(schema, value)
    else if TypeName(schema) == Some("array") then ArrayValue(schema, value)
    else Ok(Serialize(value))
  }

  /** `format_array_value`. */
  function ArrayValue(schema: Json, value: Json): Result<string>
    decreases schema, 2
  {
    match Member(schema, "elementType")
    case Some(elementType) =>
      if value.Arr? && IsComplexType(Serialize(elementType)) then
        match FormatElements(elementType, value.items)
        case Err(e) => Err(e)
        case Ok(elements) => Ok(Serialize(Arr(elements)))
      else Ok(Serialize(value))
    case None => Ok(Serialize(value))
  }

  /** Each element formatted with the element descriptor and parsed back; the
      first failure is the result. */
  function FormatElements(elementType: Json, items: seq<Json>): Result<seq<Json>>
    decreases elementType, 4, |items|
  {
    if items == [] then Ok([])
    else
      match FormatBySchema(elementType, items[0])
      case Err(e) => Err(e)
      case Ok(text) =>
        match ParseResult(text)
        case Err(e) => Err(e)
        case Ok(element) =>
          match FormatElements(elementType, items[1..])
          case Err(e) => Err(e)
          case Ok(rest) => Ok([element] + rest)
  }

  /** The `"fields"` array of a struct descriptor. */
  function FieldsOf(schema: Json): Option<seq<Json>> {
    match Member(schema, "fields")
    case Some(Arr(fields)) => Some(fields)
    case _ => None
  }

  /** `format_struct_value`: with a `fields` array and an array value, the
      object of the named fields, rendered with a space after every `":`. */
  function StructValue(schema: Json, value: Json): Result<string>
    decreases schema, 2
  {
    if FieldsOf(schema).Some? && value.Arr? then
      match StructObject(schema, value.items, |FieldsOf(schema).value|)
      case Err(e) => Err(e)
      case Ok(fields) => Ok(SpaceAfterKeys(Serialize(Obj(fields))))
    else Ok(Serialize(value))
  }

  /** `json_str.replace("\":", "\": ")`. */
  function SpaceAfterKeys(text: string): string {
    ReplaceAll(text, "\":", "\": ")
  }

  /** The object built by the loop of `format_struct_value` over its first `n` fields. */
  function StructObject(schema: Json, values: seq<Json>, n: nat): Result<map<string, Json>>
    requires FieldsOf(schema).Some? && n <= |FieldsOf(schema).value|
    decreases schema, 1, n
  {
    if n == 0 then Ok(map[])
    else
      AddEntry(StructObject(schema, values, n - 1), FieldEntry(schema, values, n - 1))
  }

  /** One `insert` of the struct loop, after the failures so far. */
  function AddEntry(fields: Result<map<string, Json>>, entry: Result<Option<(string, Json)>>): Result<map<string, Json>> {
    match fields
    case Err(e) => Err(e)
    case Ok(m) =>
      match entry
      case Err(e) => Err(e)
      case Ok(None) => Ok(m)
      case Ok(Some((name, v))) => Ok(m[name := v])
  }

  /** The name of a field descriptor, when it is a string. */
  function NameOf(field: Json): Option<string> {
    match Member(field, "name")
    case Some(Str(name)) => Some(name)
    case _ => None
  }

  /** The entry field `i` adds: none without a string name or without a value
      at position `i`; otherwise the positional value, reformatted through
      its descriptor when its `"type"` serializes to a complex type text. */
  function FieldEntry(schema: Json, values: seq<Json>, i: nat): Result<Option<(string, Json)>>
    requires FieldsOf(schema).Some? && i < |FieldsOf(schema).value|
    decreases schema, 0
  {
    var field := FieldsOf(schema).value[i];
    match NameOf(field)
    case None => Ok(None)
    case Some(name) =>
      if i >= |values| then Ok(None)
      else
        match Member(field, "type")
        case None => Ok(Some((name, values[i])))
        case Some(fieldType) =>
          if !IsComplexType(Serialize(fieldType)) then Ok(Some((name, values[i])))
          else
            match FormatBySchema(fieldType, values[i])
            case Err(e) => Err(e)
            case Ok(text) =>
              match ParseResult(text)
              case Err(e) => Err(e)
              case Ok(v) => Ok(Some((name, v)))
  }

  /** One round of the loop of `format_struct_value`: the entry field `i`
      adds, calling `format_complex_value` on the text of a complex field type. */
  method FormatField(schema: Json, values: seq<Json>, i: nat) returns (r: Result<Option<(string, Json)>>)
    requires FieldsOf(schema).Some? && i < |FieldsOf(schema).value|
    ensures r == FieldEntry(schema, values, i)
  {
    var field := FieldsOf(schema).value[i];
    var name := NameOf(field);
    if name.None? || i >= |values| {
      return Ok(None);
    }
    var fieldValue := values[i];
    var fieldType := Member(field, "type");
    if fieldType.None? || !IsComplexType(Serialize(fieldType.value)) {
      return Ok(Some((name.value, fieldValue)));
    }
    FormatComplexValueOfSerialized(fieldType.value, fieldValue);
    var text := FormatComplexValue(Serialize(fieldType.value), fieldValue);
    if text.Err? {
      return Err(text.error);
    }
    var parsed := ParseResult(text.value);
    if parsed.Err? {
      return Err(parsed.error);
    }
    r := Ok(Some((name.value, parsed.value)));
  }

  /** `format_struct_value` as the loop of the source, which builds the
      object one field at a time. */
  method FormatStructValue(schema: Json, value: Json) returns (r: Result<string>)
    ensures r == StructValue(schema, value)
  {
    var fields := FieldsOf(schema);
    if fields.None? || !value.Arr? {
      return Ok(Serialize(value));
    }
    var values := value.items;
    var obj: map<string, Json> := map[];
    for i := 0 to |fields.value|
      invariant StructObject(schema, values, i) == Ok(obj)
    {
      var entry := FormatField(schema, values, i);
      if entry.Err? {
        StructObjectFailed(schema, values, i + 1, |fields.value|);
        return Err(entry.error);
      }
      if entry.value.Some? {
        obj := obj[entry.value.value.0 := entry.value.value.1];
      }
    }
    r := Ok(SpaceAfterKeys(Serialize(Obj(obj))));
  }

  /** Once a field fails, the whole struct fails with that error. */
  lemma {:induction false} StructObjectFailed(schema: Json, values: seq<Json>, n: nat, m: nat)
    requires FieldsOf(schema).Some? && n <= m <= |FieldsOf(schema).value|
    requires StructObject(schema, values, n).Err?
    ensures StructObject(schema, values, m) == StructObject(schema, values, n)
    decreases m
  {
    if m > n {
      StructObjectFailed(schema, values, n, m - 1);
    }
  }

  /** `convert_field_value`: `null` stays `null`; a value whose type text is
      complex is formatted and parsed back, keeping the value itself when
      formatting fails; any other value is kept. */
  function ConvertFieldValue(fieldType: string, value: Json): Result<Json> {
    if value.Null? then Ok(Null)
    else if IsComplexType(fieldType) then
      match FormatComplexValue(fieldType, value)
      case Ok(text) => ParseResult(text)
      case Err(_) => Ok(value)
    else Ok(value)
  }

  // ---------------------------------------------------------------------------
  // What a complex type text can parse to

  /** Skipping JSON whitespace either stops at other Unicode whitespace (or
      at the end) or has dropped exactly what `trim_start` drops. */
  lemma {:induction false} SkipThenTrim(s: string)
    ensures var u := SkipWhitespace(s);
      u == [] || IsWhitespace(u[0]) || TrimStart(s) == u
    decreases |s|
  {
    if s != [] && IsJsonWhitespace(s[0]) {
      SkipThenTrim(s[1..]);
    }
  }

  /** A complex type text either does not parse or parses to the empty
      object or to an array. */
  lemma ParseOfComplexType(t: string)
    requires IsComplexType(t)
    ensures Parse(t).Some? ==> Parse(t).value == Obj(map[]) || Parse(t).value.Arr?
  {
    var u := SkipWhitespace(t);
    SkipThenTrim(t);
    if u != [] && !IsWhitespace(u[0]) {
      TrimEndDrops(u);
      var v := TrimEnd(u);
      assert v == u[..|v|];
      if StartsWith(v, "[") {
        assert u[0] == '[';
        ParseValueOfArray(u);
      } else {
        assert u[0] == '{' && u[1] == '}';
        ParseValueOfObject(u);
        ParseObjectStart(u[1..]);
      }
    }
  }

  /** The empty object and arrays: the only descriptors whose text is complex. */
  predicate IsComplexDescriptor(j: Json) {
    j == Obj(map[]) || j.Arr?
  }

  /** A descriptor whose text is complex has no `"type"` member. */
  lemma ComplexDescriptor(j: Json)
    requires IsComplexType(Serialize(j))
    ensures IsComplexDescriptor(j)
    ensures TypeName(j).None?
  {
    ParseSerialize(j);
    ParseOfComplexType(Serialize(j));
  }

  /** The text of the empty object and of an array is complex. */
  lemma ComplexTypeOfDescriptor(j: Json)
    requires IsComplexDescriptor(j)
    ensures IsComplexType(Serialize(j))
  {
    var t := Serialize(j);
    if j.Arr? {
      assert t == "[" + SerializeItems(j.items) + "]";
    } else {
      assert SortedKeys(j.fields.Keys) == [];
      assert t == "{}";
    }
    assert TrimStart(t) == t;
    assert TrimEnd(t) == t;
  }

  /** The nested calls format the value as plain JSON. */
  lemma FormatBySchemaOfComplex(schema: Json, value: Json)
    requires IsComplexType(Serialize(schema))
    ensures FormatBySchema(schema, value) == Ok(Serialize(value))
  {
    ComplexDescriptor(schema);
  }

  /** Formatting through the text of a descriptor is formatting through the
      descriptor. */
  lemma FormatComplexValueOfSerialized(schema: Json, value: Json)
    ensures FormatComplexValue(Serialize(schema), value) == FormatBySchema(schema, value)
  {
    ParseSerialize(schema);
  }

  /** `format_complex_value` on a complex type text formats the value as
      plain JSON. */
  lemma FormatComplexValueOfComplexType(t: string, value: Json)
    requires IsComplexType(t)
    ensures FormatComplexValue(t, value) == Ok(Serialize(value))
  {
    ParseOfComplexType(t);
  }

  /** `convert_field_value` returns its input for every type text. */
  lemma ConvertFieldValueIdentity(fieldType: string, value: Json)
    ensures ConvertFieldValue(fieldType, value) == Ok(value)
  {
    if !value.Null? && IsComplexType(fieldType) {
      FormatComplexValueOfComplexType(fieldType, value);
      ParseSerialize(value);
    }
  }

  // ---------------------------------------------------------------------------
  // Positional objects

  /** The map a loop of `insert`s builds from the first `n` positions: a
      position adds its value under its name when it has a name and a value;
      a later position overwrites an earlier one with the same name. */
  function Assoc(names: seq<Option<string>>, values: seq<Json>, n: nat): map<string, Json>
    requires n <= |names|
    decreases n
  {
    if n == 0 then map[]
    else
      var m := Assoc(names, values, n - 1);
      if names[n - 1].Some? && n - 1 < |values| then m[names[n - 1].value := values[n - 1]] else m
  }

  /** The keys are exactly the names of positions below `n` that have a value. */
  lemma {:induction false} AssocKeys(names: seq<Option<string>>, values: seq<Json>, n: nat)
    requires n <= |names|
    ensures forall k :: k in Assoc(names, values, n) <==>
      exists i :: 0 <= i < n && i < |values| && names[i] == Some(k)
    decreases n
  {
    if n > 0 {
      AssocKeys(names, values, n - 1);
    }
  }

  /** A name holds the value of the last position that carries it. */
  lemma {:induction false} AssocLastWins(names: seq<Option<string>>, values: seq<Json>, n: nat, i: nat)
    requires n <= |names| && i < n && i < |values| && names[i].Some?
    requires forall j :: i < j < n && j < |values| ==> names[j] != names[i]
    ensures names[i].value in Assoc(names, values, n)
    ensures Assoc(names, values, n)[names[i].value] == values[i]
    decreases n
  {
    if i < n - 1 {
      AssocLastWins(names, values, n - 1, i);
    }
  }

  /** The names of the field descriptors. */
  function FieldNames(fields: seq<Json>): (r: seq<Option<string>>)
    ensures |r| == |fields| && forall i :: 0 <= i < |fields| ==> r[i] == NameOf(fields[i])
  {
    seq(|fields|, i requires 0 <= i < |fields| => NameOf(fields[i]))
  }

  /** Every field entry is the named positional value itself. */
  lemma FieldEntryIsPositional(schema: Json, values: seq<Json>, i: nat)
    requires FieldsOf(schema).Some? && i < |FieldsOf(schema).value|
    ensures var name := NameOf(FieldsOf(schema).value[i]);
      FieldEntry(schema, values, i) == if name.Some? && i < |values| then Ok(Some((name.value, values[i]))) else Ok(None)
  {
    var field := FieldsOf(schema).value[i];
    if NameOf(field).Some? && i < |values| && Member(field, "type").Some? {
      var fieldType := Member(field, "type").value;
      if IsComplexType(Serialize(fieldType)) {
        FormatBySchemaOfComplex(fieldType, values[i]);
        ParseSerialize(values[i]);
      }
    }
  }

  /** The struct loop builds the positional object of the named fields. */
  lemma {:induction false} StructObjectIsPositional(schema: Json, values: seq<Json>, n: nat)
    requires FieldsOf(schema).Some? && n <= |FieldsOf(schema).value|
    ensures StructObject(schema, values, n) == Ok(Assoc(FieldNames(FieldsOf(schema).value), values, n))
    decreases n
  {
    if n > 0 {
      var names := FieldNames(FieldsOf(schema).value);
      StructObjectIsPositional(schema, values, n - 1);
      FieldEntryIsPositional(schema, values, n - 1);
      var m := Assoc(names, values, n - 1);
      assert StructObject(schema, values, n) == AddEntry(Ok(m), FieldEntry(schema, values, n - 1));
      if names[n - 1].Some? && n - 1 < |values| {
        assert FieldEntry(schema, values, n - 1) == Ok(Some((names[n - 1].value, values[n - 1])));
        assert Assoc(names, values, n) == m[names[n - 1].value := values[n - 1]];
      } else {
        assert FieldEntry(schema, values, n - 1) == Ok(None);
        assert Assoc(names, values, n) == m;
      }
    }
  }

  /** `format_struct_value`: with a `fields` array and an array value, it
      renders the object holding, for every named field with a value at its
      position, that value (the last such field wins a repeated name; extra
      values are ignored); otherwise it renders the value unchanged. */
  lemma StructValueShape(schema: Json, value: Json)
    ensures FieldsOf(schema).None? || !value.Arr? ==> StructValue(schema, value) == Ok(Serialize(value))
    ensures FieldsOf(schema).Some? && value.Arr? ==>
      StructValue(schema, value) == Ok(SpaceAfterKeys(Serialize(Obj(Assoc(FieldNames(FieldsOf(schema).value), value.items, |FieldsOf(schema).value|)))))
  {
    if FieldsOf(schema).Some? && value.Arr? {
      StructObjectIsPositional(schema, value.items, |FieldsOf(schema).value|);
    }
  }

  /** With a complex element type the elements are mapped one to one. */
  lemma {:induction false} FormatElementsIdentity(elementType: Json, items: seq<Json>)
    requires IsComplexType(Serialize(elementType))
    ensures FormatElements(elementType, items) == Ok(items)
    decreases |items|
  {
    if items != [] {
      FormatBySchemaOfComplex(elementType, items[0]);
      ParseSerialize(items[0]);
      FormatElementsIdentity(elementType, items[1..]);
      FormatElementsCons(elementType, items);
    }
  }

  lemma FormatElementsCons(elementType: Json, items: seq<Json>)
    requires items != []
    requires FormatBySchema(elementType, items[0]) == Ok(Serialize(items[0]))
    requires Parse(Serialize(items[0])) == Some(items[0])
    requires FormatElements(elementType, items[1..]) == Ok(items[1..])
    ensures FormatElements(elementType, items) == Ok(items)
  {
    assert [items[0]] + items[1..] == items;
  }

  /** `format_array_value` renders the value unchanged. */
  lemma ArrayValueIdentity(schema: Json, value: Json)
    ensures ArrayValue(schema, value) == Ok(Serialize(value))
  {
    var elementType := Member(schema, "elementType");
    if elementType.Some? && value.Arr? && IsComplexType(Serialize(elementType.value)) {
      FormatElementsIdentity(elementType.value, value.items);
    }
  }

  /** `format_complex_value` never fails; only a `"struct"` descriptor with a
      `fields` array, applied to an array value, changes the rendering. */
  lemma FormatComplexValueShape(t: string, value: Json)
    ensures FormatComplexValue(t, value).Ok?
    ensures (Parse(t).None? || TypeName(Parse(t).value) != Some("struct")) ==> FormatComplexValue(t, value) == Ok(Serialize(value))
  {
    if Parse(t).Some? {
      var schema := Parse(t).value;
      StructValueShape(schema, value);
      ArrayValueIdentity(schema, value);
      if FieldsOf(schema).Some? && value.Arr? {
        StructObjectIsPositional(schema, value.items, |FieldsOf(schema).value|);
      }
    }
  }

  // ---------------------------------------------------------------------------
  // Rows and tables

  const DataNotArray: string := "Data is not an array"
  const RowNotArray: string := "Row is not an array"

  /** The message for a row whose length differs from the schema's. */
  function LengthMismatch(rowLength: nat, schemaLength: nat): string {
    "Row length " + NatText(rowLength) + " doesn't match schema length " + NatText(schemaLength)
  }

  /** The object `build_row_object` builds from the first `n` values. */
  function RowFields(schema: seq<Column>, values: seq<Json>, n: nat): Result<map<string, Json>>
    requires n <= |values| <= |schema|
    decreases n
  {
    if n == 0 then Ok(map[])
    else
      match RowFields(schema, values, n - 1)
      case Err(e) => Err(e)
      case Ok(fields) =>
        match ConvertFieldValue(schema[n - 1].tpe, values[n - 1])
        case Err(e) => Err(e)
        case Ok(v) => Ok(fields[schema[n - 1].name := v])
  }

  lemma {:induction false} RowFieldsFailed(schema: seq<Column>, values: seq<Json>, n: nat, m: nat)
    requires n <= m <= |values| <= |schema|
    requires RowFields(schema, values, n).Err?
    ensures RowFields(schema, values, m) == RowFields(schema, values, n)
    decreases m
  {
    if m > n {
      RowFieldsFailed(schema, values, n, m - 1);
    }
  }

  /** `build_row_object`: one entry per value, named by the column at its
      position.  The source indexes the schema by the value's position, so
      the row may not be longer than the schema. */
  method BuildRowObject(schema: seq<Column>, row: seq<Json>) returns (r: Result<map<string, Json>>)
    requires |row| <= |schema|
    ensures r == RowFields(schema, row, |row|)
  {
    var obj: map<string, Json> := map[];
    for i := 0 to |row|
      invariant RowFields(schema, row, i) == Ok(obj)
    {
      var fieldValue := ConvertFieldValue(schema[i].tpe, row[i]);
      RowFieldsStep(schema, row, i, obj);
      if fieldValue.Err? {
        return Err(fieldValue.error);
      }
      obj := obj[schema[i].name := fieldValue.value];
    }
    r := Ok(obj);
  }

  /** One more value either extends the row object or ends the build with its error. */
  lemma RowFieldsStep(schema: seq<Column>, values: seq<Json>, n: nat, fields: map<string, Json>)
    requires n < |values| <= |schema|
    requires RowFields(schema, values, n) == Ok(fields)
    ensures var v := ConvertFieldValue(schema[n].tpe, values[n]);
            && (v.Ok? ==> RowFields(schema, values, n + 1) == Ok(fields[schema[n].name := v.value]))
            && (v.Err? ==> RowFields(schema, values, |values|) == Err(v.error))
  {
    if ConvertFieldValue(schema[n].tpe, values[n]).Err? {
      RowFieldsFailed(schema, values, n + 1, |values|);
    }
  }

  /** The column names, position by position. */
  function ColumnNames(schema: seq<Column>): (r: seq<Option<string>>)
    ensures |r| == |schema| && forall i :: 0 <= i < |schema| ==> r[i] == Some(schema[i].name)
  {
    seq(|schema|, i requires 0 <= i < |schema| => Some(schema[i].name))
  }

  /** A row object maps every column name to the value at its position, the
      last column winning a repeated name. */
  lemma {:induction false} RowFieldsArePositional(schema: seq<Column>, values: seq<Json>, n: nat)
    requires n <= |values| <= |schema|
    ensures RowFields(schema, values, n) == Ok(Assoc(ColumnNames(schema), values, n))
    decreases n
  {
    if n > 0 {
      RowFieldsArePositional(schema, values, n - 1);
      ConvertFieldValueIdentity(schema[n - 1].tpe, values[n - 1]);
    }
  }

  /** A row is an array of the schema's length. */
  predicate FitsSchema(schema: seq<Column>, row: Json) {
    row.Arr? && |row.items| == |schema|
  }

  /** What is wrong with a row, if anything. */
  function RowProblem(schema: seq<Column>, row: Json): Option<string> {
    if !row.Arr? then Some(RowNotArray)
    else if |row.items| != |schema| then Some(LengthMismatch(|row.items|, |schema|))
    else None
  }

  /** The objects of the first `n` rows, or the error of the first bad row. */
  function TableRows(schema: seq<Column>, rows: seq<Json>, n: nat): Result<seq<Json>>
    requires n <= |rows|
    decreases n
  {
    if n == 0 then Ok([])
    else
      match TableRows(schema, rows, n - 1)
      case Err(e) => Err(e)
      case Ok(objects) =>
        var row := rows[n - 1];
        match RowProblem(schema, row)
        case Some(problem) => Err(problem)
        case None =>
          match RowFields(schema, row.items, |row.items|)
          case Err(e) => Err(e)
          case Ok(fields) => Ok(objects + [Obj(fields)])
  }

  /** `format_table_result` on a snapshot. */
  function TableResult(schema: seq<Column>, data: Json): Result<seq<Json>> {
    if !data.Arr? then Err(DataNotArray) else TableRows(schema, data.items, |data.items|)
  }

  lemma {:induction false} TableRowsFailed(schema: seq<Column>, rows: seq<Json>, n: nat, m: nat)
    requires n <= m <= |rows|
    requires TableRows(schema, rows, n).Err?
    ensures TableRows(schema, rows, m) == TableRows(schema, rows, n)
    decreases m
  {
    if m > n {
      TableRowsFailed(schema, rows, n, m - 1);
    }
  }

  /** `format_table_result`: checks every row and builds its object, stopping
      at the first bad row. */
  method FormatTableResult(schema: seq<Column>, data: Json) returns (r: Result<seq<Json>>)
    ensures r == TableResult(schema, data)
  {
    if !data.Arr? {
      return Err(DataNotArray);
    }
    var rows := data.items;
    var result: seq<Json> := [];
    for i := 0 to |rows|
      invariant TableRows(schema, rows, i) == Ok(result)
    {
      var row := rows[i];
      if !row.Arr? {
        TableRowsFailed(schema, rows, i + 1, |rows|);
        return Err(RowNotArray);
      }
      if |row.items| != |schema| {
        TableRowsFailed(schema, rows, i + 1, |rows|);
        return Err(LengthMismatch(|row.items|, |schema|));
      }
      var obj := BuildRowObject(schema, row.items);
      if obj.Err? {
        TableRowsFailed(schema, rows, i + 1, |rows|);
        return Err(obj.error);
      }
      result := result + [Obj(obj.value)];
    }
    r := Ok(result);
  }

  /** The objects of the rows, one per row, each mapping the column names to
      the row's values. */
  function RowObjects(schema: seq<Column>, rows: seq<Json>, n: nat): (r: seq<Json>)
    requires n <= |rows| && forall i :: 0 <= i < n ==> FitsSchema(schema, rows[i])
    ensures |r| == n && forall i :: 0 <= i < n ==> r[i] == RowObject(schema, rows[i])
  {
    seq(n, i requires 0 <= i < n => RowObject(schema, rows[i]))
  }

  /** The object of a row: the column names mapped to the row's values. */
  function RowObject(schema: seq<Column>, row: Json): Json
    requires FitsSchema(schema, row)
  {
    Obj(Assoc(ColumnNames(schema), row.items, |row.items|))
  }

  /** When every row is an array of the schema's length, the table holds one
      object per row, mapping the column names to that row's values. */
  lemma {:induction false} TableRowsAllGood(schema: seq<Column>, rows: seq<Json>, n: nat)
    requires n <= |rows| && forall i :: 0 <= i < n ==> FitsSchema(schema, rows[i])
    ensures TableRows(schema, rows, n) == Ok(RowObjects(schema, rows, n))
    decreases n
  {
    if n > 0 {
      TableRowsAllGood(schema, rows, n - 1);
      var row := rows[n - 1];
      RowFieldsArePositional(schema, row.items, |row.items|);
      assert RowObjects(schema, rows, n) == RowObjects(schema, rows, n - 1) + [RowObject(schema, row)];
    }
  }

  /** Otherwise the table fails with the problem of the first bad row, and
      no partial result is returned. */
  lemma {:induction false} TableRowsFirstBad(schema: seq<Column>, rows: seq<Json>, n: nat, k: nat)
    requires k < n <= |rows|
    requires forall i :: 0 <= i < k ==> FitsSchema(schema, rows[i])
    requires !FitsSchema(schema, rows[k])
    ensures TableRows(schema, rows, n) == Err(RowProblem(schema, rows[k]).value)
    decreases n
  {
    if n - 1 == k {
      TableRowsAllGood(schema, rows, k);
    } else {
      TableRowsFirstBad(schema, rows, n - 1, k);
    }
  }

  // ---------------------------------------------------------------------------
  // The command result

  const MissingSummary: string := "Error result is missing summary"
  const MissingTextData: string := "Text result is missing data"
  const MissingTableData: string := "Table result is missing data"
  const MissingSchema: string := "Missing schema for tabular data"
  const UnexpectedType: string := "Failed to format command results. Unexpected result type "

  /** `CommandRunResult`. */
  datatype CommandRunResult =
    | Text(value: string)
    | Error(message: string, cause: Option<string>)
    | Table(path: string)

  /** The table rows the routine writes out: where, and the text written. */
  datatype Spill = Spill(path: string, content: string)

  /** What `format_command_result` returns, with the file it writes. */
  datatype Formatted = Formatted(result: CommandRunResult, spill: Option<Spill>)

  /** `Path::join`: an absolute name replaces the base; otherwise a separator
      is added unless the base is empty or already ends with one. */
  function JoinPath(base: string, name: string): string {
    if name != [] && name[0] == '/' then name
    else if base == [] || base[|base| - 1] == '/' then base + name
    else base + "/" + name
  }

  /** `temp_dir/brichka/results/<id>.jsonl`. */
  function ResultPath(tempDir: string, commandId: string): string {
    JoinPath(JoinPath(JoinPath(tempDir, "brichka"), "results"), commandId + ".jsonl")
  }

  /** `format_command_result` on a terminal reply; the source unwraps the
      reply's results, so they must be present.  A table is written, as one
      JSON array, to the result path, which the result then names. */
  function CommandOutcome(info: CommandInfo, tempDir: string): Result<Formatted>
    requires info.results.Some?
  {
    var results := info.results.value;
    if results.resultType == "error" then
      if results.summary.None? then Err(MissingSummary)
      else Ok(Formatted(Error(results.summary.value, results.cause), None))
    else if results.resultType == "text" then
      if results.data.None? then Err(MissingTextData)
      else Ok(Formatted(Text(Serialize(results.data.value)), None))
    else if results.resultType == "table" then
      if results.data.None? then Err(MissingTableData)
      else if results.schema.None? then Err(MissingSchema)
      else
        match TableResult(results.schema.value, results.data.value)
        case Err(e) => Err(e)
        case Ok(rows) =>
          var path := ResultPath(tempDir, info.id);
          Ok(Formatted(Table(path), Some(Spill(path, Serialize(Arr(rows))))))
    else Err(UnexpectedType + results.resultType)
  }

  /** `format_command_result`, with `write_table_result` reduced to the file
      it would write. */
  method FormatCommandResult(info: CommandInfo, tempDir: string) returns (r: Result<Formatted>)
    requires info.results.Some?
    ensures r == CommandOutcome(info, tempDir)
  {
    var results := info.results.value;
    match results.resultType {
      case "error" =>
        if results.summary.None? {
          return Err(MissingSummary);
        }
        r := Ok(Formatted(Error(results.summary.value, results.cause), None));
      case "text" =>
        if results.data.None? {
          return Err(MissingTextData);
        }
        r := Ok(Formatted(Text(Serialize(results.data.value)), None));
      case "table" =>
        if results.data.None? {
          return Err(MissingTableData);
        }
        if results.schema.None? {
          return Err(MissingSchema);
        }
        var formatted := FormatTableResult(results.schema.value, results.data.value);
        if formatted.Err? {
          return Err(formatted.error);
        }
        var path := ResultPath(tempDir, info.id);
        r := Ok(Formatted(Table(path), Some(Spill(path, Serialize(Arr(formatted.value))))));
      case _ =>
        r := Err(UnexpectedType + results.resultType);
    }
  }

  /** Formatting fails exactly when the result type is none of `error`,
      `text` and `table`, when the part that type needs is missing, or when
      the table data is not an array of rows that fit the schema. */
  lemma CommandOutcomeFails(info: CommandInfo, tempDir: string)
    requires info.results.Some?
    ensures var results := info.results.value;
      CommandOutcome(info, tempDir).Err? <==>
        || results.resultType !in {"error", "text", "table"}
        || (results.resultType == "error" && results.summary.None?)
        || (results.resultType == "text" && results.data.None?)
        || (results.resultType == "table" &&
              (results.data.None? || results.schema.None? || !results.data.value.Arr? ||
               exists i :: 0 <= i < |results.data.value.items| && !FitsSchema(results.schema.value, results.data.value.items[i])))
    ensures var results := info.results.value;
      results.resultType !in {"error", "text", "table"} ==>
        CommandOutcome(info, tempDir) == Err(UnexpectedType + results.resultType)
    ensures var results := info.results.value;
      results.resultType == "error" && results.summary.None? ==> CommandOutcome(info, tempDir) == Err(MissingSummary)
    ensures var results := info.results.value;
      results.resultType == "text" && results.data.None? ==> CommandOutcome(info, tempDir) == Err(MissingTextData)
    ensures var results := info.results.value;
      results.resultType == "table" && results.data.None? ==> CommandOutcome(info, tempDir) == Err(MissingTableData)
    ensures var results := info.results.value;
      results.resultType == "table" && results.data.Some? && results.schema.None? ==>
        CommandOutcome(info, tempDir) == Err(MissingSchema)
    ensures var results := info.results.value;
      results.resultType == "table" && results.data.Some? && results.schema.Some?
      && TableResult(results.schema.value, results.data.value).Err? ==>
        CommandOutcome(info, tempDir) == Err(TableResult(results.schema.value, results.data.value).error)
  {
    var results := info.results.value;
    if results.resultType == "table" && results.data.Some? && results.schema.Some? && results.data.value.Arr? {
      var schema, rows := results.schema.value, results.data.value.items;
      if forall i :: 0 <= i < |rows| ==> FitsSchema(schema, rows[i]) {
        TableRowsAllGood(schema, rows, |rows|);
      } else {
        var k := FirstMisfit(schema, rows);
        TableRowsFirstBad(schema, rows, |rows|, k);
      }
    }
  }

  /** The first row that does not fit the schema. */
  lemma FirstMisfit(schema: seq<Column>, rows: seq<Json>) returns (k: nat)
    requires exists i :: 0 <= i < |rows| && !FitsSchema(schema, rows[i])
    ensures k < |rows| && !FitsSchema(schema, rows[k])
    ensures forall i :: 0 <= i < k ==> FitsSchema(schema, rows[i])
  {
    k := 0;
    while FitsSchema(schema, rows[k])
      invariant k < |rows| && forall i :: 0 <= i < k ==> FitsSchema(schema, rows[i])
      decreases |rows| - k
    {
      k := k + 1;
    }
  }

  /** A table result names the file it writes, and the file holds the row
      objects as one JSON array that parses back to them. */
  lemma TableSpill(info: CommandInfo, tempDir: string)
    requires info.results.Some? && info.results.value.resultType == "table"
    requires CommandOutcome(info, tempDir).Ok?
    ensures var out := CommandOutcome(info, tempDir).value;
      var rows := info.results.value.data.value.items;
      var schema := info.results.value.schema.value;
      && out.result == Table(ResultPath(tempDir, info.id))
      && out.spill.Some? && out.spill.value.path == ResultPath(tempDir, info.id)
      && (forall i :: 0 <= i < |rows| ==> FitsSchema(schema, rows[i]))
      && Parse(out.spill.value.content) == Some(Arr(RowObjects(schema, rows, |rows|)))
  {
    var results := info.results.value;
    var schema, rows := results.schema.value, results.data.value.items;
    CommandOutcomeFails(info, tempDir);
    TableRowsAllGood(schema, rows, |rows|);
    ParseSerialize(Arr(RowObjects(schema, rows, |rows|)));
  }

  /** The JSON value of a `CommandRunResult`: the `type` tag, lower case, and
      the variant's fields, a missing cause as `null`. */
  function RenderValue(r: CommandRunResult): Json {
    match r
    case Text(v) => Obj(map["type" := Str("text"), "value" := Str(v)])
    case Error(m, c) => Obj(map["type" := Str("error"), "message" := Str(m), "cause" := if c.Some? then Str(c.value) else Null])
    case Table(p) => Obj(map["type" := Str("table"), "path" := Str(p)])
  }

  /** The member order serde writes: the tag, then the fields as declared. */
  function RenderKeys(r: CommandRunResult): seq<string> {
    match r
    case Text(_) => ["type", "value"]
    case Error(_, _) => ["type", "message", "cause"]
    case Table(_) => ["type", "path"]
  }

  /** `serde_json::to_string(&formatted_result)`: the line `run` prints. */
  function RenderText(r: CommandRunResult): string {
    "{" + SerializeMembers(RenderValue(r), RenderKeys(r)) + "}"
  }

  /** An object written with its members in any order that lists every key
      parses back to the object. */
  lemma MembersInOrderRoundTrip(j: Json, keys: seq<string>)
    requires j.Obj? && keys != []
    requires forall k :: k in keys <==> k in j.fields
    ensures Parse("{" + SerializeMembers(j, keys) + "}") == Some(j)
  {
    var s := "{" + SerializeMembers(j, keys) + "}";
    ObjectInOrder(j, keys);
    SkipNothing(s);
  }

  /** The object text, members in the order of `keys`, is one whole value. */
  lemma ObjectInOrder(j: Json, keys: seq<string>)
    requires j.Obj? && keys != []
    requires forall k :: k in keys <==> k in j.fields
    ensures var s := "{" + SerializeMembers(j, keys) + "}";
            s[0] == '{' && ParseValue(s) == Some((j, []))
  {
    var s := "{" + SerializeMembers(j, keys) + "}";
    var body := SerializeMembers(j, keys) + "}" + [];
    assert s[1..] == body;
    MembersText(j, keys, []);
    ParseValueOfObject(s);
    ParseObjectStart(body);
    MembersRoundTrip(j, keys, map[], []);
    UpdatedEvery(j, keys);
  }

  lemma UpdatedEvery(j: Json, keys: seq<string>)
    requires j.Obj? && forall k :: k in keys <==> k in j.fields
    ensures Updated(map[], j, keys) == j.fields
  {
  }

  /** The printed line parses back to the tagged value. */
  lemma RenderRoundTrip(r: CommandRunResult)
    ensures Parse(RenderText(r)) == Some(RenderValue(r))
    ensures Member(RenderValue(r), "type") == Some(Str(if r.Text? then "text" else if r.Error? then "error" else "table"))
  {
    MembersInOrderRoundTrip(RenderValue(r), RenderKeys(r));
  }
}
