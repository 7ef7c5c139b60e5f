/**
 * The pure part of the form relay in sheets_common.py: the fixed column list,
 * the projection of a submitted form onto a row, the destination sheet named
 * after the form's state, and the envelope that carries a failed row through
 * the retry queue.
 */
module SheetsCommon {
  import opened Wrappers
  import opened Json
  import Strings

  /** A form value: a string, or Python's None (JSON null). */
  datatype Value = Null | Str(s: string)

  /** A submitted form: field name to value. */
  type Form = map<string, Value>

  /** One spreadsheet row, in column order. */
  type Row = seq<Value>

  /** The exceptions that can escape the relay's operations. */
  datatype Error =
    | KeyError(key: string)   // a missing dict key
    | TypeError               // a value of the wrong JSON shape
    | IndexError              // an index past the end of a list
    | JsonDecodeError         // a queue body that is not JSON
    | ClientError(repr: string) // a failing remote call that is not caught

  /** The sheet's columns, in order. */
  const FIELDS: seq<string> := ["Timestamp", "County", "State", "First", "Last", "Email",
                                "Zip (Home)", "Zip (Work)", "Practice Status", "Link"]

  /** `form.get(name)`: the value, or None when the key is absent. */
  function GetField(form: Form, name: string): Value
  {
    if name in form then form[name] else Null
  }

  /**
   * The row for `form` under the column list `fields`: one entry per column,
   * in column order, None where the form lacks the column.
   */
  function Project(fields: seq<string>, form: Form): (row: Row)
    ensures |row| == |fields|
    ensures forall i :: 0 <= i < |fields| && fields[i] in form ==> row[i] == form[fields[i]]
    ensures forall i :: 0 <= i < |fields| && fields[i] !in form ==> row[i] == Null
  {
    if fields == [] then []
    else Project(fields[..|fields| - 1], form) + [GetField(form, fields[|fields| - 1])]
  }

  /** The form that holds exactly the non-None entries of `row` under `fields`. */
  function Unproject(fields: seq<string>, row: Row): (form: Form)
    requires |row| == |fields|
  {
    if fields == [] then map[]
    else
      var n := |fields| - 1;
      var rest := Unproject(fields[..n], row[..n]);
      if row[n].Str? then rest[fields[n] := row[n]] else rest - {fields[n]}
  }

  /** Column names that occur once each. */
  predicate Distinct(fields: seq<string>)
  {
    forall i, j :: 0 <= i < j < |fields| ==> fields[i] != fields[j]
  }

  /** The sheet's columns are distinct names. */
  lemma FieldsDistinct()
    ensures Distinct(FIELDS)
  {
    forall i, j | 0 <= i < j < |FIELDS| ensures FIELDS[i] != FIELDS[j] {
      var a, b := FIELDS[i], FIELDS[j];
      assert |a| != |b| || a[0] != b[0] || a[1] != b[1] || a[5] != b[5];
    }
  }

  /** A row read back into a form and projected again is the same row. */
  lemma {:induction false} UnprojectThenProject(fields: seq<string>, row: Row)
    requires |row| == |fields| && Distinct(fields)
    ensures Project(fields, Unproject(fields, row)) == row
  {
    if fields != [] {
      var n := |fields| - 1;
      var form := Unproject(fields, row);
      UnprojectThenProject(fields[..n], row[..n]);
      UnprojectAt(fields, row);
      assert Project(fields, form) == Project(fields[..n], form) + [GetField(form, fields[n])];
      forall i | 0 <= i < n ensures Project(fields[..n], form)[i] == row[i] {
        UnprojectKeeps(fields, row, i);
      }
    }
  }

  /** The last column's entry is what the rebuilt form holds for it. */
  lemma UnprojectAt(fields: seq<string>, row: Row)
    requires |row| == |fields| && |fields| > 0
    ensures GetField(Unproject(fields, row), fields[|fields| - 1]) == row[|fields| - 1]
  {
  }

  /** An earlier column's entry survives the later columns of a distinct list. */
  lemma {:induction false} UnprojectKeeps(fields: seq<string>, row: Row, i: nat)
    requires |row| == |fields| && Distinct(fields) && i < |fields|
    ensures GetField(Unproject(fields, row), fields[i]) == row[i]
  {
    var n := |fields| - 1;
    if i < n {
      UnprojectKeeps(fields[..n], row[..n], i);
      assert fields[i] != fields[n];
    }
  }

  /** `str(v)`: how `format` prints a form value. */
  function Format(v: Value): string
  {
    match v
    case Null => "None"
    case Str(s) => s
  }

  const RESPONSES_SUFFIX: string := " Responses"

  /**
   * `'{State} Responses'.format(**form)`: the destination sheet, or the
   * KeyError raised when the form has no State entry.
   */
  function SheetName(form: Form): (r: Result<string, Error>)
    ensures r.Err? <==> "State" !in form
    ensures r.Err? ==> r.error == KeyError("State")
    ensures r.Ok? ==> |r.value| >= |RESPONSES_SUFFIX|
                      && r.value[|r.value| - |RESPONSES_SUFFIX|..] == RESPONSES_SUFFIX
                      && r.value[..|r.value| - |RESPONSES_SUFFIX|] == Format(form["State"])
  {
    if "State" in form then Ok(Format(form["State"]) + RESPONSES_SUFFIX) else Err(KeyError("State"))
  }

  /** Two forms go to the same sheet exactly when their states print alike. */
  lemma SameSheetIffSameState(f1: Form, f2: Form)
    requires "State" in f1 && "State" in f2
    ensures SheetName(f1) == SheetName(f2) <==> Format(f1["State"]) == Format(f2["State"])
  {
    var n1, n2 := SheetName(f1).value, SheetName(f2).value;
    if n1 == n2 {
      assert n1[..|n1| - |RESPONSES_SUFFIX|] == n2[..|n2| - |RESPONSES_SUFFIX|];
    }
  }

  /**
   * The retry envelope: the row, the sheet it was meant for and the text of
   * the exception that kept it from being appended.
   */
  datatype Envelope = Envelope(values: Row, sheetName: string, error: string)

  function ValueJson(v: Value): Json
  {
    match v
    case Null => JNull
    case Str(s) => JString(s)
  }

  /** The JSON array for a row. */
  function RowJson(row: Row): (j: Json)
    ensures j.JArray? && |j.items| == |row|
    ensures forall i :: 0 <= i < |row| ==> j.items[i] == ValueJson(row[i])
  {
    if row == [] then JArray([])
    else JArray(RowJson(row[..|row| - 1]).items + [ValueJson(row[|row| - 1])])
  }

  /** A JSON array of strings and nulls read back as a row; anything else is refused. */
  function JsonRow(j: Json): (r: Option<Row>)
    ensures r.Some? <==> j.JArray? && forall i :: 0 <= i < |j.items| ==> IsCell(j.items[i])
    ensures r.Some? ==> RowJson(r.value) == j
  {
    match j
    case JArray(items) =>
      if forall i :: 0 <= i < |items| ==> IsCell(items[i]) then
        var row := seq(|items|, i requires 0 <= i < |items| => CellValue(items[i]));
        assert RowJson(row).items == items;
        Some(row)
      else None
    case _ => None
  }

  /** The JSON values a row cell can be read from. */
  predicate IsCell(j: Json)
  {
    j.JNull? || j.JString?
  }

  /** The cell value a null or a string stands for. */
  function CellValue(j: Json): (v: Value)
    requires IsCell(j)
    ensures ValueJson(v) == j
  {
    if j.JNull? then Null else Str(j.str)
  }

  /** Reading a row's JSON array gives back the row. */
  lemma JsonRowOfRowJson(row: Row)
    ensures JsonRow(RowJson(row)) == Some(row)
  {
    var items := RowJson(row).items;
    forall i | 0 <= i < |items| ensures IsCell(items[i]) && CellValue(items[i]) == row[i] {
    }
    assert seq(|items|, i requires 0 <= i < |items| => CellValue(items[i])) == row;
  }

  /**
   * `pack_message_body`: the object with keys error, sheet_name and values,
   * in the sorted key order `sort_keys=True` writes them (PackSortsKeys).
   */
  function Pack(e: Envelope): Json
  {
    JObject([("error", JString(e.error)), ("sheet_name", JString(e.sheetName)), ("values", RowJson(e.values))])
  }

  /** Pack writes the three keys once each, in sorted order, and each holds its entry. */
  lemma PackShape(e: Envelope)
    ensures var j := Pack(e);
      && j.JObject? && Keys(j.members) == ["error", "sheet_name", "values"]
      && Strings.StrictlySorted(Keys(j.members))
      && Get(j.members, "values") == Some(RowJson(e.values))
      && Get(j.members, "sheet_name") == Some(JString(e.sheetName))
      && Get(j.members, "error") == Some(JString(e.error))
  {
    PackedLookups(JString(e.error), JString(e.sheetName), RowJson(e.values));
  }

  /**
   * The dict pack_message_body builds, `dict(values=..., sheet_name=...,
   * error=...)`, written with sorted keys is Pack's object.
   */
  lemma PackSortsKeys(e: Envelope)
    ensures JObject(SortKeys([("values", RowJson(e.values)), ("sheet_name", JString(e.sheetName)),
                              ("error", JString(e.error))])) == Pack(e)
  {
    var dict := [("values", RowJson(e.values)), ("sheet_name", JString(e.sheetName)), ("error", JString(e.error))];
    PackedOrder(dict, SortKeys(dict));
  }

  /** The three keys in sorted order, and what a lookup of each finds. */
  lemma PackedLookups(err: Json, sheet: Json, values: Json)
    ensures var ms := [("error", err), ("sheet_name", sheet), ("values", values)];
      && Keys(ms) == ["error", "sheet_name", "values"]
      && Strings.StrictlySorted(Keys(ms))
      && Get(ms, "values") == Some(values)
      && Get(ms, "sheet_name") == Some(sheet)
      && Get(ms, "error") == Some(err)
  {
    var ms := [("error", err), ("sheet_name", sheet), ("values", values)];
    assert Keys(ms) == ["error", "sheet_name", "values"] by {
      assert Keys(ms)[0] == ms[0].0;
    }
    assert Strings.Less("error", "sheet_name") && Strings.Less("sheet_name", "values");
    Strings.LessTransitive("error", "sheet_name", "values");
    assert "sheet_name" != "values" && "error" != "values" && "error" != "sheet_name" by {
      assert "sheet_name"[0] != "values"[0] && "error"[0] != "values"[0] && "error"[0] != "sheet_name"[0];
    }
    GetFindsLast(ms, "error", 0);
    GetFindsLast(ms, "sheet_name", 1);
    GetFindsLast(ms, "values", 2);
  }

  /** Three members with keys values, sheet_name, error have one key order only. */
  lemma PackedOrder(dict: seq<(string, Json)>, members: seq<(string, Json)>)
    requires |dict| == 3 && dict[0].0 == "values" && dict[1].0 == "sheet_name" && dict[2].0 == "error"
    requires multiset(members) == multiset(dict) && KeyOrdered(members)
    ensures members == [dict[2], dict[1], dict[0]]
  {
    assert |members| == 3 by { assert |multiset(members)| == |multiset(dict)|; }
    assert Strings.Less("error", "sheet_name") && Strings.Less("sheet_name", "values");
    Strings.LessTransitive("error", "sheet_name", "values");
    forall i | 0 <= i < 3 ensures members[i] in multiset(dict) { }
    forall i | 0 <= i < 3 ensures dict[i] in multiset(members) { }
    Strings.LessAsymmetric("error", "sheet_name");
    Strings.LessAsymmetric("sheet_name", "values");
    Strings.LessAsymmetric("error", "values");
    assert members[0] == dict[2];
    assert members[2] == dict[0];
    assert members[1] == dict[1];
  }

  /** A queue message body: the text `json.dumps` wrote, or text that is not JSON. */
  datatype Body = Encoded(doc: Json) | Unparseable(raw: string)

  /** `json.loads(body)`. */
  function Loads(body: Body): Result<Json, Error>
  {
    match body
    case Encoded(doc) => Ok(doc)
    case Unparseable(_) => Err(JsonDecodeError)
  }

  /**
   * What repost_form reads out of a parsed body: `body['values']`,
   * `body['error']` and `body['sheet_name']`, in that order; subscripting a
   * non-object raises TypeError and a missing key raises KeyError.
   */
  function Unpack(doc: Json): (r: Result<Envelope, Error>)
    ensures r.Ok? ==> doc.JObject?
                      && Get(doc.members, "values") == Some(RowJson(r.value.values))
                      && Get(doc.members, "error") == Some(JString(r.value.error))
                      && Get(doc.members, "sheet_name") == Some(JString(r.value.sheetName))
    ensures !doc.JObject? ==> r == Err(TypeError)
    ensures doc.JObject? && Get(doc.members, "values").None? ==> r == Err(KeyError("values"))
  {
    if !doc.JObject? then Err(TypeError)
    else
      var values, error, sheet := Get(doc.members, "values"), Get(doc.members, "error"), Get(doc.members, "sheet_name");
      if values.None? then Err(KeyError("values"))
      else if error.None? then Err(KeyError("error"))
      else if sheet.None? then Err(KeyError("sheet_name"))
      else if !error.value.JString? || !sheet.value.JString? then Err(TypeError)
      else
        var row := JsonRow(values.value);
        if row.None? then Err(TypeError)
        else Ok(Envelope(row.value, sheet.value.str, error.value.str))
  }

  /** How repost_form turns a message body into an envelope. */
  function Decode(body: Body): Result<Envelope, Error>
  {
    match Loads(body)
    case Err(e) => Err(e)
    case Ok(doc) => Unpack(doc)
  }

  /** The envelope survives the queue: decoding what was packed gives it back. */
  lemma DecodePack(e: Envelope)
    ensures Decode(Encoded(Pack(e))) == Ok(e)
  {
    var d := Pack(e);
    PackShape(e);
    JsonRowOfRowJson(e.values);
    assert Loads(Encoded(d)) == Ok(d);
    UnpackOfEntries(d, e);
  }

  /** An object whose three entries are those of `e` unpacks to `e`. */
  lemma UnpackOfEntries(d: Json, e: Envelope)
    requires d.JObject?
    requires Get(d.members, "values") == Some(RowJson(e.values))
    requires Get(d.members, "error") == Some(JString(e.error))
    requires Get(d.members, "sheet_name") == Some(JString(e.sheetName))
    requires JsonRow(RowJson(e.values)) == Some(e.values)
    ensures Unpack(d) == Ok(e)
  {
  }

  /** Decoding is one-to-one: two bodies that decode to one envelope hold the same three entries. */
  lemma DecodeDeterminesEntries(d1: Json, d2: Json)
    requires Unpack(d1).Ok? && Unpack(d1) == Unpack(d2)
    ensures Get(d1.members, "values") == Get(d2.members, "values")
    ensures Get(d1.members, "error") == Get(d2.members, "error")
    ensures Get(d1.members, "sheet_name") == Get(d2.members, "sheet_name")
  {
  }
}
