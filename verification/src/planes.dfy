/**
 * `get_plane_value(plane, code)`, shared by the transforms that re-read a reply already
 * laid out in planes: the value of the first cell carrying the code, scanning the
 * plane's entries in order, or an error where Python would raise on a malformed entry.
 */
module PlaneRead {
  import opened Json
  import opened PyOps
  import opened Boxes

  /** The cells of one item: `item.get("data", [])`, iterated. */
  function ItemCells(item: Json): Result<seq<Json>>
  {
    var cells :- PyGet(item, "data", JArr([]));
    PyIter(cells)
  }

  /** Some cell of `cells` is coded `code` and holds `v`. */
  predicate Carries(cells: seq<Json>, code: string, v: Json)
  {
    exists k :: 0 <= k < |cells| && Get(cells[k], "code") == Some(JStr(code)) && GetOrNull(cells[k], "value") == v
  }

  /** The value of the first cell coded `code`, if any; an error where Python raises. */
  function FindCell(cells: seq<Json>, code: string): (r: Result<Option<Json>>)
    ensures (forall i :: 0 <= i < |cells| ==> cells[i].JObj?) ==> r.Ok?
    ensures r.Ok? && r.value.Some? ==> Carries(cells, code, r.value.value)
    ensures r == Ok(None) ==> forall i :: 0 <= i < |cells| ==> Get(cells[i], "code") != Some(JStr(code))
  {
    if cells == [] then Ok(None)
    else
      var c :- PyGet(cells[0], "code", JNull);
      if c == JStr(code) then Ok(Some(GetOrNull(cells[0], "value")))
      else
        var r := FindCell(cells[1..], code);
        assert forall i :: 1 <= i < |cells| ==> cells[i] == cells[1..][i - 1];
        r
  }

  /** The value under `code` in the first item that has a cell for it; null when none has. */
  function FindItem(items: seq<Json>, code: string): (r: Result<Json>)
    ensures r.Ok? && r.value != JNull ==>
      exists i :: 0 <= i < |items| && ItemCells(items[i]).Ok? && Carries(ItemCells(items[i]).value, code, r.value)
  {
    if items == [] then Ok(JNull)
    else
      var cells :- ItemCells(items[0]);
      var hit :- FindCell(cells, code);
      if hit.Some? then Ok(hit.value)
      else
        var r := FindItem(items[1..], code);
        assert forall i :: 1 <= i < |items| ==> items[i] == items[1..][i - 1];
        r
  }

  /** `get_plane_value(plane, code)`: null when no cell carries the code. */
  function GetPlaneValue(plane: Json, code: string): (r: Result<Json>)
    ensures !(plane.JArr? || plane.JObj? || plane.JStr?) ==> r.Err?
    ensures plane.JArr? && r.Ok? && r.value != JNull ==>
      exists i :: 0 <= i < |plane.items| && ItemCells(plane.items[i]).Ok? && Carries(ItemCells(plane.items[i]).value, code, r.value)
  {
    var items :- PyIter(plane);
    FindItem(items, code)
  }

  lemma {:induction false} FindItemOfEntries(rows: seq<Row>, code: string)
    ensures FindItem(Entries(rows), code) == Ok(FirstValue(rows, code))
  {
    if rows != [] {
      var e := Entries(rows)[0];
      var cell := Cell(rows[0]);
      assert e == LabelledEntry(rows[0].code, JStr(rows[0].caption), rows[0].value);
      assert Get(e, "data") == Some(JArr([cell]));
      assert ItemCells(e) == Ok([cell]);
      assert Get(cell, "code") == Some(JStr(rows[0].code));
      if rows[0].code == code {
        EntryReadsBack(rows[0].code, JStr(rows[0].caption), rows[0].value);
        assert Get(cell, "value") == Some(rows[0].value);
      } else {
        assert FindCell([cell], code) == Ok(None);
        assert Entries(rows)[1..] == Entries(rows[1..]);
        FindItemOfEntries(rows[1..], code);
      }
    }
  }

  /** Reading a plane the transform wrote gives back the first value under the code. */
  lemma PlaneValueReadsBack(rows: seq<Row>, code: string)
    ensures GetPlaneValue(JArr(Entries(rows)), code) == Ok(FirstValue(rows, code))
  {
    FindItemOfEntries(rows, code);
  }

  /** The plane values under each code, in order; the first error stops the reading. */
  function Lookups(plane: Json, codes: seq<string>): (r: Result<seq<Json>>)
    ensures r.Ok? ==> |r.value| == |codes|
    ensures r.Ok? ==> forall i :: 0 <= i < |codes| ==> GetPlaneValue(plane, codes[i]) == Ok(r.value[i])
    ensures (forall i :: 0 <= i < |codes| ==> GetPlaneValue(plane, codes[i]).Ok?) ==> r.Ok?
  {
    if codes == [] then Ok([])
    else
      var v :- GetPlaneValue(plane, codes[0]);
      var rest :- Lookups(plane, codes[1..]);
      assert forall i :: 1 <= i < |codes| ==> codes[i] == codes[1..][i - 1];
      Ok([v] + rest)
  }

  lemma LookupsOfValues(plane: Json, codes: seq<string>, vals: seq<Json>)
    requires |vals| == |codes|
    requires forall i :: 0 <= i < |codes| ==> GetPlaneValue(plane, codes[i]) == Ok(vals[i])
    ensures Lookups(plane, codes) == Ok(vals)
  {
    var r := Lookups(plane, codes);
    assert r.Ok?;
    assert forall i :: 0 <= i < |codes| ==> r.value[i] == vals[i];
    assert r.value == vals;
  }

  lemma ReadBackOne(rows: seq<Row>, i: int)
    requires DistinctCodes(rows) && 0 <= i < |rows|
    ensures GetPlaneValue(JArr(Entries(rows)), rows[i].code) == Ok(rows[i].value)
  {
    PlaneValueReadsBack(rows, rows[i].code);
    FirstValueOfDistinct(rows, i);
  }

  /** Reading every code of a plane built from distinct codes gives back every value, in order. */
  lemma LookupsReadBack(rows: seq<Row>)
    requires DistinctCodes(rows)
    ensures Lookups(JArr(Entries(rows)), Codes(rows)) == Ok(Values(rows))
  {
    forall i | 0 <= i < |rows| ensures GetPlaneValue(JArr(Entries(rows)), Codes(rows)[i]) == Ok(Values(rows)[i]) {
      ReadBackOne(rows, i);
    }
    LookupsOfValues(JArr(Entries(rows)), Codes(rows), Values(rows));
  }
}
