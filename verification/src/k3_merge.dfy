/**
 * The K-3 processor's merge of one page's part items into the items gathered so far
 * (`batch_extract`, the loop over `all_part_data`): an item whose first cell carries a
 * code not seen yet is appended whole; a cell whose code is already present and whose
 * value is not empty fills every existing cell of that code whose value is empty.
 *
 * The merge works on raw JSON, where any read may raise; an exception abandons the
 * rest of the page but keeps the appends and fills already made. A typed reference over
 * `Boxes.Row` states what the merge means for well-formed replies: the first non-empty
 * value of every code wins.
 */
module K3Merge {
  import opened Json
  import opened PyOps
  import opened Boxes

  /** A value as Python's `==` and `hash` see it: `True` and `False` are the integers 1 and 0. */
  function Canon(v: Json): (r: Json)
    ensures !r.JBool?
    ensures !v.JBool? ==> r == v
  {
    if v.JBool? then JNum(if v.b then 1.0 else 0.0) else v
  }

  /** Lists and dictionaries cannot be put in a Python set. */
  predicate Hashable(v: Json)
  {
    !v.JArr? && !v.JObj?
  }

  /** `v in [None, 0, 0.00, ""]`: the values the merge treats as empty (`False` equals 0). */
  predicate Blank(v: Json)
  {
    v.JNull? || Canon(v) == JNum(0.0) || v == JStr("")
  }

  lemma BlankValues()
    ensures Blank(JNull) && Blank(JNum(0.0)) && Blank(JBool(false)) && Blank(JStr(""))
    ensures !Blank(JBool(true)) && !Blank(JNum(1.0)) && !Blank(JStr("0")) && !Blank(JArr([]))
  {
  }

  // ------------------------------------------------------------ reading items

  /** The cells `for d in item["data"]` visits when `"data" in item`; none when it is absent. */
  function ItemCells(item: Json): (r: Result<Option<seq<Json>>>)
    ensures ObjHas(item, "data") && GetOrNull(item, "data").JArr? ==> r == Ok(Some(GetOrNull(item, "data").items))
    ensures item.JObj? && !ObjHas(item, "data") ==> r == Ok(None)
    ensures (item.JNull? || item.JBool? || item.JNum?) ==> r.Err?
  {
    var has :- PyIn("data", item);
    if !has then Ok(None)
    else
      var cells :- PyIndex(item, "data");
      var ds :- PyIter(cells);
      Ok(Some(ds))
  }

  /** The codes `existing_codes.add(d.get("code"))` collects from some cells. */
  function CellCodes(cells: seq<Json>): (r: Result<set<Json>>)
    ensures r.Ok? <==> forall i :: 0 <= i < |cells| ==> cells[i].JObj? && Hashable(GetOrNull(cells[i], "code"))
    ensures r.Ok? ==> forall i :: 0 <= i < |cells| ==> Canon(GetOrNull(cells[i], "code")) in r.value
  {
    if cells == [] then Ok({})
    else if !cells[0].JObj? then Err(AttributeError)
    else
      var c := GetOrNull(cells[0], "code");
      if !Hashable(c) then Err(TypeError)
      else
        match CellCodes(cells[1..])
        case Err(e) => Err(e)
        case Ok(rest) =>
          assert forall i :: 1 <= i < |cells| ==> cells[i] == cells[1..][i - 1];
          Ok({Canon(c)} + rest)
  }

  /** The set of codes of the items already merged into a part; raises on a malformed item. */
  function CodesIn(items: seq<Json>): Result<set<Json>>
  {
    if items == [] then Ok({})
    else
      var cells :- ItemCells(items[0]);
      var here :- CellCodes(cells.GetOr([]));
      var rest :- CodesIn(items[1..]);
      Ok(here + rest)
  }

  // ------------------------------------------------------------ filling existing cells

  /**
   * `ed["value"] = val` on every cell whose code equals `code` and whose value is empty;
   * the first cell that is not a dictionary raises, leaving the later cells untouched.
   */
  function FillCells(cells: seq<Json>, code: Json, val: Json): (r: Partial<seq<Json>>)
    ensures |r.value| == |cells|
  {
    if cells == [] then Partial([], false)
    else if !cells[0].JObj? then Partial(cells, true)
    else
      var rest := FillCells(cells[1..], code, val);
      Partial([FillCell(cells[0], code, val)] + rest.value, rest.failed)
  }

  /** `ed["value"] = val` when the cell's code is `code` and its value is empty. */
  function FillCell(d: Json, code: Json, val: Json): Json
    requires d.JObj?
  {
    if Canon(GetOrNull(d, "code")) == Canon(code) && Blank(GetOrNull(d, "value"))
    then JObj(Put(d.fields, "value", val)) else d
  }

  /** A fill raises exactly when some cell is not a dictionary. */
  lemma {:induction false} FillCellsRaises(cells: seq<Json>, code: Json, val: Json)
    ensures FillCells(cells, code, val).failed <==> exists i :: 0 <= i < |cells| && !cells[i].JObj?
  {
    if cells != [] && cells[0].JObj? {
      FillCellsRaises(cells[1..], code, val);
      assert forall i :: 1 <= i < |cells| ==> cells[i] == cells[1..][i - 1];
    }
  }

  /**
   * Every cell either stays as it was or is a dictionary that took the fill, and when
   * nothing raised every cell took it.
   */
  lemma FillCellsEffect(cells: seq<Json>, code: Json, val: Json)
    ensures forall i :: 0 <= i < |cells| ==> FillCellAt(cells, code, val, i)
  {
    forall i | 0 <= i < |cells| ensures FillCellAt(cells, code, val, i) {
      FillCellsAt(cells, code, val, i);
    }
  }

  /** What the fill left at position `i`. */
  predicate FillCellAt(cells: seq<Json>, code: Json, val: Json, i: int)
    requires 0 <= i < |cells|
  {
    var r := FillCells(cells, code, val);
    (r.value[i] == cells[i] || (cells[i].JObj? && r.value[i] == FillCell(cells[i], code, val)))
    && (!r.failed ==> cells[i].JObj? && r.value[i] == FillCell(cells[i], code, val))
  }

  lemma {:induction false} FillCellsAt(cells: seq<Json>, code: Json, val: Json, i: int)
    requires 0 <= i < |cells|
    ensures FillCellAt(cells, code, val, i)
  {
    if cells[0].JObj? {
      var r := FillCells(cells, code, val);
      var rest := FillCells(cells[1..], code, val);
      assert r.value == [FillCell(cells[0], code, val)] + rest.value && r.failed == rest.failed;
      if i > 0 {
        FillCellsAt(cells[1..], code, val, i - 1);
        assert cells[1..][i - 1] == cells[i] && r.value[i] == rest.value[i - 1];
      }
    }
  }

  /** The fills applied to one merged item; only a list under "data" is rewritten. */
  function FillItem(item: Json, code: Json, val: Json): (r: Partial<Json>)
    ensures ItemCells(item).Err? ==> r == Partial(item, true)
    ensures ItemCells(item) == Ok(None) ==> r == Partial(item, false)
  {
    match ItemCells(item)
    case Err(_) => Partial(item, true)
    case Ok(None) => Partial(item, false)
    case Ok(Some(cells)) =>
      var f := FillCells(cells, code, val);
      if item.JObj? && GetOrNull(item, "data").JArr? then Partial(JObj(Put(item.fields, "data", JArr(f.value))), f.failed)
      else Partial(item, f.failed)
  }

  /** `for existing_item in all_part_data[part_key]: ...`, stopping at the first exception. */
  function FillItems(items: seq<Json>, code: Json, val: Json): (r: Partial<seq<Json>>)
    ensures |r.value| == |items|
  {
    if items == [] then Partial([], false)
    else
      var f := FillItem(items[0], code, val);
      if f.failed then Partial([f.value] + items[1..], true)
      else
        var rest := FillItems(items[1..], code, val);
        Partial([f.value] + rest.value, rest.failed)
  }

  // ------------------------------------------------------------ merging a page's items

  /** A part's merged items and the codes `existing_codes` holds for them. */
  datatype Pool = Pool(items: seq<Json>, codes: set<Json>)

  /**
   * The inner loop over one new item's cells: the first cell with a new code appends
   * the whole item; the first cell with a known code and a non-empty value fills the
   * existing cells; a known code with an empty value moves on to the next cell.
   */
  function MergeCells(pool: Pool, item: Json, cells: seq<Json>): (r: Partial<Pool>)
    ensures pool.codes <= r.value.codes
    ensures r.value.items == pool.items + [item] || |r.value.items| == |pool.items|
    ensures r.value.codes != pool.codes ==> r.value.items == pool.items + [item]
  {
    if cells == [] then Partial(pool, false)
    else if !cells[0].JObj? then Partial(pool, true)
    else
      var c := GetOrNull(cells[0], "code");
      if !Hashable(c) then Partial(pool, true)
      else if Canon(c) !in pool.codes then Partial(Pool(pool.items + [item], pool.codes + {Canon(c)}), false)
      else
        var val := GetOrNull(cells[0], "value");
        if Blank(val) then MergeCells(pool, item, cells[1..])
        else
          var f := FillItems(pool.items, c, val);
          Partial(pool.(items := f.value), f.failed)
  }

  /** One new item: items without "data" are skipped. */
  function MergeItem(pool: Pool, item: Json): (r: Partial<Pool>)
    ensures pool.codes <= r.value.codes
  {
    match ItemCells(item)
    case Err(_) => Partial(pool, true)
    case Ok(None) => Partial(pool, false)
    case Ok(Some(cells)) => MergeCells(pool, item, cells)
  }

  /** `for item in part_items: ...`, stopping at the first exception. */
  function MergeItems(pool: Pool, items: seq<Json>): (r: Partial<Pool>)
    ensures pool.codes <= r.value.codes
    decreases |items|
  {
    if items == [] then Partial(pool, false)
    else
      var m := MergeItem(pool, items[0]);
      if m.failed then m else MergeItems(m.value, items[1..])
  }

  /**
   * One part of one page: nothing for an empty (falsy) value; otherwise the codes of the
   * items gathered so far, then the merge of every new item.
   */
  function MergePart(existing: seq<Json>, partItems: Json): (r: Partial<seq<Json>>)
    ensures !Truthy(partItems) ==> r == Partial(existing, false)
    ensures CodesIn(existing).Err? ==> r.value == existing
  {
    if !Truthy(partItems) then Partial(existing, false)
    else
      match CodesIn(existing)
      case Err(_) => Partial(existing, true)
      case Ok(codes) =>
        match PyIter(partItems)
        case Err(_) => Partial(existing, true)
        case Ok(xs) =>
          var m := MergeItems(Pool(existing, codes), xs);
          Partial(m.value.items, m.failed)
  }

  // ------------------------------------------------------------ the typed reference

  /** A merged box value: an empty value takes the newcomer's value, a non-empty one stays. */
  function Refill(u: Json, v: Json): (r: Json)
    ensures !Blank(u) ==> r == u
    ensures Blank(u) ==> r == v
  {
    if Blank(u) then v else u
  }

  /** The row one fill makes of `row`. */
  function FillRow(row: Row, code: string, v: Json): Row
  {
    if row.code == code then row.(value := Refill(row.value, v)) else row
  }

  /** Every row of `code` whose value is empty takes `v`. */
  function FillRows(rows: seq<Row>, code: string, v: Json): (r: seq<Row>)
    ensures Codes(r) == Codes(rows)
    ensures forall i :: 0 <= i < |rows| ==> r[i].caption == rows[i].caption
    ensures forall i :: 0 <= i < |rows| ==> r[i].value == rows[i].value || (rows[i].code == code && Blank(rows[i].value))
  {
    if rows == [] then []
    else
      var row := rows[0];
      var rest := FillRows(rows[1..], code, v);
      var r := [FillRow(row, code, v)] + rest;
      assert forall i :: 1 <= i < |rows| ==> rows[i] == rows[1..][i - 1] && r[i] == rest[i - 1];
      assert forall i :: 0 <= i < |rows| ==> r[i].code == rows[i].code;
      r
  }

  /** One incoming row merged into the rows gathered so far. */
  function Absorb(acc: seq<Row>, row: Row): seq<Row>
  {
    if row.code !in Codes(acc) then acc + [row]
    else if Blank(row.value) then acc
    else FillRows(acc, row.code, row.value)
  }

  /** Incoming rows merged one after another. */
  function MergeRows(acc: seq<Row>, inc: seq<Row>): seq<Row>
    decreases |inc|
  {
    if inc == [] then acc else MergeRows(Absorb(acc, inc[0]), inc[1..])
  }

  /** The codes of some rows as the JSON strings a set of cell codes holds. */
  function CodeSet(rows: seq<Row>): (s: set<Json>)
    ensures forall c :: JStr(c) in s <==> c in Codes(rows)
    ensures forall x :: x in s ==> x.JStr?
  {
    if rows == [] then {}
    else
      var rest := CodeSet(rows[1..]);
      assert forall i :: 1 <= i < |rows| ==> Codes(rows)[i] == Codes(rows[1..])[i - 1];
      assert forall c :: c in Codes(rows) <==> c == rows[0].code || c in Codes(rows[1..]);
      {JStr(rows[0].code)} + rest
  }

  lemma CodeSetOfCodes(a: seq<Row>, b: seq<Row>)
    requires Codes(a) == Codes(b)
    ensures CodeSet(a) == CodeSet(b)
  {
    forall x | x in CodeSet(a) ensures x in CodeSet(b) {
      assert x == JStr(x.s);
    }
    forall x | x in CodeSet(b) ensures x in CodeSet(a) {
      assert x == JStr(x.s);
    }
  }

  lemma CodeSetAppend(acc: seq<Row>, row: Row)
    ensures CodeSet(acc + [row]) == CodeSet(acc) + {JStr(row.code)}
  {
    var ab := acc + [row];
    assert forall c :: c in Codes(ab) <==> c in Codes(acc) || c == row.code by {
      assert forall i :: 0 <= i < |acc| ==> Codes(ab)[i] == Codes(acc)[i];
      assert Codes(ab)[|acc|] == row.code;
      forall c | c in Codes(ab) ensures c in Codes(acc) || c == row.code {
        var i :| 0 <= i < |ab| && Codes(ab)[i] == c;
        if i < |acc| { assert Codes(acc)[i] == c; }
      }
    }
    forall x | x in CodeSet(ab) ensures x in CodeSet(acc) + {JStr(row.code)} {
      assert x == JStr(x.s);
    }
    forall x | x in CodeSet(acc) + {JStr(row.code)} ensures x in CodeSet(ab) {
      assert x == JStr(x.s);
    }
  }

  // ------------------------------------------------------------ the reference and the raw merge agree

  lemma EntryCells(r: Row)
    ensures ItemCells(Entry(r)) == Ok(Some([Cell(r)]))
    ensures GetOrNull(Cell(r), "code") == JStr(r.code)
    ensures GetOrNull(Cell(r), "value") == r.value
  {
    assert Get(Entry(r), "data") == Some(JArr([Cell(r)]));
    var fs := Cell(r).fields;
    assert fs[1..][1..] == [("value", r.value)];
    assert Lookup(fs[1..], "value") == Some(r.value);
  }

  lemma CellCodesOfCell(r: Row)
    ensures CellCodes([Cell(r)]) == Ok({JStr(r.code)})
  {
    EntryCells(r);
    assert [Cell(r)][1..] == [];
    assert CellCodes([]) == Ok({});
    assert {JStr(r.code)} + {} == {JStr(r.code)};
  }

  lemma {:induction false} CodesOfEntries(rows: seq<Row>)
    ensures CodesIn(Entries(rows)) == Ok(CodeSet(rows))
  {
    if rows != [] {
      var es := Entries(rows);
      EntryCells(rows[0]);
      CellCodesOfCell(rows[0]);
      assert es[0] == Entry(rows[0]);
      assert es[1..] == Entries(rows[1..]);
      CodesOfEntries(rows[1..]);
    }
  }

  lemma FillItemOfEntry(row: Row, code: string, v: Json)
    ensures FillItem(Entry(row), JStr(code), v) == Partial(Entry(FillRow(row, code, v)), false)
  {
    EntryCells(row);
    FillCellOfRow(row, code, v);
    var data := JArr([Cell(FillRow(row, code, v))]);
    assert Put(Entry(row).fields, "data", data) == [("data", data)];
  }

  /** The fill of an entry's one cell is the cell of the filled row. */
  lemma FillCellOfRow(row: Row, code: string, v: Json)
    ensures FillCells([Cell(row)], JStr(code), v) == Partial([Cell(FillRow(row, code, v))], false)
  {
    EntryCells(row);
    FillOneCell(Cell(row), JStr(code), v);
    if row.code == code && Blank(row.value) {
      PutValue(row.code, JStr(row.caption), row.value, v);
    }
  }

  lemma FillOneCell(d: Json, code: Json, v: Json)
    requires d.JObj?
    ensures FillCells([d], code, v) == Partial([FillCell(d, code, v)], false)
  {
    var rest := FillCells([d][1..], code, v);
    assert [d][1..] == [];
    assert rest == Partial([], false);
    assert [FillCell(d, code, v)] + rest.value == [FillCell(d, code, v)];
  }

  /** Setting "value" on a cell replaces its value in place. */
  lemma PutValue(code: string, lab: Json, u: Json, v: Json)
    ensures Put(LabelledCell(code, lab, u).fields, "value", v) == LabelledCell(code, lab, v).fields
  {
    var last := [("value", u)];
    var mid := [("label", lab)] + last;
    assert "label"[0] != "value"[0] && |"code"| != |"value"|;
    assert Put(last, "value", v) == [("value", v)];
    assert Put(mid, "value", v) == [("label", lab)] + Put(mid[1..], "value", v);
    assert mid[1..] == last;
    assert LabelledCell(code, lab, u).fields == [("code", JStr(code))] + mid;
  }

  lemma {:induction false} FillItemsOfEntries(rows: seq<Row>, code: string, v: Json)
    ensures FillItems(Entries(rows), JStr(code), v) == Partial(Entries(FillRows(rows, code, v)), false)
  {
    if rows != [] {
      FillItemOfEntry(rows[0], code, v);
      FillItemsOfEntries(rows[1..], code, v);
      FillItemsCons(Entries(rows), JStr(code), v, Entries(rows[1..]));
      EntriesOfFill(rows, code, v);
    }
  }

  /** Filling items whose first one fills without raising. */
  lemma FillItemsCons(items: seq<Json>, code: Json, v: Json, rest: seq<Json>)
    requires items != [] && items[1..] == rest && !FillItem(items[0], code, v).failed
    ensures FillItems(items, code, v)
      == Partial([FillItem(items[0], code, v).value] + FillItems(rest, code, v).value, FillItems(rest, code, v).failed)
  {
  }

  /** The entries of filled rows: the first row's entry, then the rest's. */
  lemma EntriesOfFill(rows: seq<Row>, code: string, v: Json)
    requires rows != []
    ensures Entries(rows)[1..] == Entries(rows[1..])
    ensures Entries(FillRows(rows, code, v)) == [Entry(FillRow(rows[0], code, v))] + Entries(FillRows(rows[1..], code, v))
  {
    var filled := FillRows(rows, code, v);
    var rest := FillRows(rows[1..], code, v);
    assert filled == [FillRow(rows[0], code, v)] + rest;
    assert filled[1..] == rest;
    EntriesCons(rows);
    EntriesCons(filled);
  }

  lemma EntriesCons(rows: seq<Row>)
    requires rows != []
    ensures Entries(rows) == [Entry(rows[0])] + Entries(rows[1..])
  {
  }

  /** The one cell of an entry decides the merge of the entry. */
  lemma MergeCellOfEntry(pool: Pool, row: Row)
    ensures MergeItem(pool, Entry(row))
      == if JStr(row.code) !in pool.codes then Partial(Pool(pool.items + [Entry(row)], pool.codes + {JStr(row.code)}), false)
         else if Blank(row.value) then Partial(pool, false)
         else var f := FillItems(pool.items, JStr(row.code), row.value); Partial(pool.(items := f.value), f.failed)
  {
    EntryCells(row);
    var cells := [Cell(row)];
    assert ItemCells(Entry(row)) == Ok(Some(cells));
    assert MergeItem(pool, Entry(row)) == MergeCells(pool, Entry(row), cells);
    assert cells[1..] == [];
    assert MergeCells(pool, Entry(row), []) == Partial(pool, false);
  }

  lemma MergeItemOfEntry(acc: seq<Row>, row: Row)
    ensures MergeItem(Pool(Entries(acc), CodeSet(acc)), Entry(row))
      == Partial(Pool(Entries(Absorb(acc, row)), CodeSet(Absorb(acc, row))), false)
  {
    var pool := Pool(Entries(acc), CodeSet(acc));
    MergeCellOfEntry(pool, row);
    if row.code !in Codes(acc) {
      AppendEntry(acc, row);
    } else if !Blank(row.value) {
      FillEntries(acc, row);
    }
  }

  lemma AppendEntry(acc: seq<Row>, row: Row)
    ensures Pool(Entries(acc) + [Entry(row)], CodeSet(acc) + {JStr(row.code)}) == Pool(Entries(acc + [row]), CodeSet(acc + [row]))
  {
    CodeSetAppend(acc, row);
    EntriesSnoc(acc, row);
  }

  lemma EntriesSnoc(rows: seq<Row>, row: Row)
    ensures Entries(rows + [row]) == Entries(rows) + [Entry(row)]
  {
  }

  lemma FillEntries(acc: seq<Row>, row: Row)
    ensures var f := FillItems(Entries(acc), JStr(row.code), row.value);
      Partial(Pool(Entries(acc), CodeSet(acc)).(items := f.value), f.failed)
      == Partial(Pool(Entries(FillRows(acc, row.code, row.value)), CodeSet(FillRows(acc, row.code, row.value))), false)
  {
    FillItemsOfEntries(acc, row.code, row.value);
    CodeSetOfCodes(acc, FillRows(acc, row.code, row.value));
  }

  lemma {:induction false} MergeItemsOfEntries(acc: seq<Row>, inc: seq<Row>)
    ensures MergeItems(Pool(Entries(acc), CodeSet(acc)), Entries(inc))
      == Partial(Pool(Entries(MergeRows(acc, inc)), CodeSet(MergeRows(acc, inc))), false)
    decreases |inc|
  {
    if inc != [] {
      MergeItemOfEntry(acc, inc[0]);
      assert Entries(inc)[1..] == Entries(inc[1..]);
      MergeItemsOfEntries(Absorb(acc, inc[0]), inc[1..]);
    }
  }

  /** On well-formed replies the raw merge of a part is the typed merge of its rows, and never raises. */
  lemma MergePartOfEntries(acc: seq<Row>, inc: seq<Row>)
    ensures MergePart(Entries(acc), JArr(Entries(inc))) == Partial(Entries(MergeRows(acc, inc)), false)
  {
    var items := JArr(Entries(inc));
    assert PyIter(items) == Ok(Entries(inc));
    if inc != [] {
      CodesOfEntries(acc);
      MergeItemsOfEntries(acc, inc);
      MergePartOfPool(Entries(acc), items, CodeSet(acc), Entries(inc));
    }
  }

  /** A part whose items are truthy and iterable, over items whose codes can be read. */
  lemma MergePartOfPool(existing: seq<Json>, partItems: Json, codes: set<Json>, xs: seq<Json>)
    requires Truthy(partItems) && CodesIn(existing) == Ok(codes) && PyIter(partItems) == Ok(xs)
    ensures var m := MergeItems(Pool(existing, codes), xs);
      MergePart(existing, partItems) == Partial(m.value.items, m.failed)
  {
  }

  // ------------------------------------------------------------ what the typed merge keeps

  /** The values of the rows carrying `code`, in order. */
  function ValuesOf(rows: seq<Row>, code: string): (vs: seq<Json>)
    ensures |vs| <= |rows|
  {
    if rows == [] then []
    else (if rows[0].code == code then [rows[0].value] else []) + ValuesOf(rows[1..], code)
  }

  /** A code has values exactly when some row carries it. */
  lemma {:induction false} ValuesOfPresent(rows: seq<Row>, code: string)
    ensures ValuesOf(rows, code) == [] <==> code !in Codes(rows)
  {
    if rows != [] {
      ValuesOfPresent(rows[1..], code);
      assert forall i :: 1 <= i < |rows| ==> Codes(rows)[i] == Codes(rows[1..])[i - 1];
      assert code in Codes(rows) <==> code == rows[0].code || code in Codes(rows[1..]);
    }
  }

  /** The first non-empty value, if any. */
  function FirstFilled(vs: seq<Json>): (r: Option<Json>)
    ensures r.None? <==> forall i :: 0 <= i < |vs| ==> Blank(vs[i])
    ensures r.Some? ==> exists i :: 0 <= i < |vs| && vs[i] == r.value && !Blank(r.value)
                                   && forall j :: 0 <= j < i ==> Blank(vs[j])
  {
    if vs == [] then None
    else if !Blank(vs[0]) then Some(vs[0])
    else
      var r := FirstFilled(vs[1..]);
      assert forall i :: 1 <= i < |vs| ==> vs[i] == vs[1..][i - 1];
      r
  }

  /** The value a code ends with: the first non-empty one, or the first one when all are empty. */
  function Winner(vs: seq<Json>): (w: Json)
  {
    FirstFilled(vs).GetOr(if vs == [] then JNull else vs[0])
  }

  /** `Winner` is the first non-empty value, or the first value when all are empty. */
  lemma WinnerIsFirstFilled(vs: seq<Json>, i: int)
    requires 0 <= i < |vs|
    ensures (forall j :: 0 <= j < i ==> Blank(vs[j])) && !Blank(vs[i]) ==> Winner(vs) == vs[i]
    ensures (forall j :: 0 <= j < |vs| ==> Blank(vs[j])) ==> Winner(vs) == vs[0]
  {
    if (forall j :: 0 <= j < i ==> Blank(vs[j])) && !Blank(vs[i]) {
      var k :| 0 <= k < |vs| && vs[k] == FirstFilled(vs).value && !Blank(vs[k]) && forall j :: 0 <= j < k ==> Blank(vs[j]);
      assert !(k < i);
      assert !(i < k);
    }
  }

  lemma FirstFilledCons(u: Json, rest: seq<Json>)
    ensures FirstFilled([u] + rest) == if Blank(u) then FirstFilled(rest) else Some(u)
  {
    assert ([u] + rest)[1..] == rest;
  }

  lemma WinnerRefill(u: Json, w: Json, rest: seq<Json>)
    ensures Winner([if Blank(w) then u else Refill(u, w)] + rest) == Winner([u, w] + rest)
  {
    FirstFilledCons(u, [w] + rest);
    FirstFilledCons(w, rest);
    FirstFilledCons(if Blank(w) then u else Refill(u, w), rest);
    assert [u, w] + rest == [u] + ([w] + rest);
  }

  lemma {:induction false} ValuesOfAppend(rows: seq<Row>, row: Row, code: string)
    ensures ValuesOf(rows + [row], code) == ValuesOf(rows, code) + (if row.code == code then [row.value] else [])
  {
    if rows != [] {
      assert (rows + [row])[1..] == rows[1..] + [row];
      ValuesOfAppend(rows[1..], row, code);
    }
  }

  /** Every value refilled with `v`. */
  function Refills(vs: seq<Json>, v: Json): (r: seq<Json>)
    ensures |r| == |vs|
  {
    if vs == [] then [] else [Refill(vs[0], v)] + Refills(vs[1..], v)
  }

  lemma {:induction false} ValuesOfFill(rows: seq<Row>, c: string, v: Json, code: string)
    ensures ValuesOf(FillRows(rows, c, v), code) == if code == c then Refills(ValuesOf(rows, code), v) else ValuesOf(rows, code)
  {
    if rows != [] {
      ValuesOfFill(rows[1..], c, v, code);
      var f := FillRows(rows, c, v);
      assert f == [FillRow(rows[0], c, v)] + FillRows(rows[1..], c, v);
      assert f[1..] == FillRows(rows[1..], c, v);
      assert f[0] == FillRow(rows[0], c, v);
      var head := if rows[0].code == code then [rows[0].value] else [];
      var tail := ValuesOf(rows[1..], code);
      assert ValuesOf(rows, code) == head + tail;
      assert ValuesOf(f, code) == (if f[0].code == code then [f[0].value] else []) + ValuesOf(f[1..], code);
      if code == c && rows[0].code == code {
        assert (head + tail)[1..] == tail;
        assert Refills(head + tail, v) == [Refill(rows[0].value, v)] + Refills(tail, v);
      } else if rows[0].code != code {
        assert head + tail == tail;
      }
    }
  }

  /** Rows with distinct codes hold at most one value per code. */
  lemma {:induction false} DistinctValuesOf(rows: seq<Row>, code: string)
    requires DistinctCodes(rows)
    ensures |ValuesOf(rows, code)| <= 1
  {
    if rows != [] {
      assert DistinctCodes(rows[1..]) by {
        assert forall i :: 1 <= i < |rows| ==> rows[1..][i - 1] == rows[i];
      }
      DistinctValuesOf(rows[1..], code);
      if rows[0].code == code {
        ValuesOfPresent(rows[1..], code);
        assert code !in Codes(rows[1..]) by {
          assert forall i :: 0 <= i < |rows| - 1 ==> Codes(rows[1..])[i] == rows[i + 1].code != rows[0].code;
        }
      }
    }
  }

  lemma AbsorbDistinct(acc: seq<Row>, row: Row)
    requires DistinctCodes(acc)
    ensures DistinctCodes(Absorb(acc, row))
    ensures Codes(Absorb(acc, row)) == if row.code in Codes(acc) then Codes(acc) else Codes(acc) + [row.code]
  {
    if row.code !in Codes(acc) {
      var ab := acc + [row];
      assert forall i :: 0 <= i < |acc| ==> Codes(acc)[i] == acc[i].code;
      assert Codes(ab) == Codes(acc) + [row.code];
    } else if !Blank(row.value) {
      var f := FillRows(acc, row.code, row.value);
      assert forall i :: 0 <= i < |acc| ==> Codes(f)[i] == f[i].code && Codes(acc)[i] == acc[i].code;
    }
  }

  /** What a code's value becomes when one row is absorbed. */
  lemma AbsorbValues(acc: seq<Row>, row: Row, code: string)
    requires DistinctCodes(acc)
    ensures row.code != code ==> ValuesOf(Absorb(acc, row), code) == ValuesOf(acc, code)
    ensures row.code == code && ValuesOf(acc, code) == [] ==> ValuesOf(Absorb(acc, row), code) == [row.value]
    ensures row.code == code && ValuesOf(acc, code) != [] ==>
      var u := ValuesOf(acc, code)[0];
      ValuesOf(Absorb(acc, row), code) == [if Blank(row.value) then u else Refill(u, row.value)]
  {
    DistinctValuesOf(acc, code);
    ValuesOfPresent(acc, code);
    if row.code !in Codes(acc) {
      ValuesOfAppend(acc, row, code);
    } else if !Blank(row.value) {
      ValuesOfFill(acc, row.code, row.value, code);
    }
  }

  /** The merge appends every new code once and never reorders or drops a code. */
  lemma {:induction false} MergeRowsCodes(acc: seq<Row>, inc: seq<Row>)
    requires DistinctCodes(acc)
    ensures DistinctCodes(MergeRows(acc, inc))
    ensures Codes(acc) <= Codes(MergeRows(acc, inc))
    ensures forall c :: c in Codes(MergeRows(acc, inc)) <==> c in Codes(acc) || c in Codes(inc)
    decreases |inc|
  {
    if inc != [] {
      var acc' := Absorb(acc, inc[0]);
      AbsorbDistinct(acc, inc[0]);
      MergeRowsCodes(acc', inc[1..]);
      assert forall i :: 1 <= i < |inc| ==> Codes(inc)[i] == Codes(inc[1..])[i - 1];
      assert forall c :: c in Codes(inc) <==> c == inc[0].code || c in Codes(inc[1..]);
    }
  }

  /**
   * First non-empty value wins: after the merge every code present holds exactly one
   * row, whose value is the first non-empty value the code had, gathered rows first and
   * incoming rows in order, or its first value when every one was empty.
   */
  lemma {:induction false} MergeRowsValue(acc: seq<Row>, inc: seq<Row>, code: string)
    requires DistinctCodes(acc)
    requires code in Codes(acc) || code in Codes(inc)
    ensures ValuesOf(MergeRows(acc, inc), code) == [Winner(ValuesOf(acc, code) + ValuesOf(inc, code))]
    decreases |inc|
  {
    DistinctValuesOf(acc, code);
    ValuesOfPresent(acc, code);
    if inc == [] {
      assert ValuesOf(acc, code) + [] == ValuesOf(acc, code);
    } else {
      var row := inc[0];
      var acc' := Absorb(acc, row);
      AbsorbDistinct(acc, row);
      var head := if row.code == code then [row.value] else [];
      var later := ValuesOf(inc[1..], code);
      assert ValuesOf(inc, code) == head + later;
      assert code in Codes(acc') || code in Codes(inc[1..]) by {
        assert forall i :: 1 <= i < |inc| ==> Codes(inc)[i] == Codes(inc[1..])[i - 1];
      }
      MergeRowsValue(acc', inc[1..], code);
      AbsorbWinner(acc, row, later, code);
      Regroup(ValuesOf(acc, code), head, later);
    }
  }

  /** Absorbing one row keeps the winner of a code, whatever values come later. */
  lemma AbsorbWinner(acc: seq<Row>, row: Row, later: seq<Json>, code: string)
    requires DistinctCodes(acc)
    ensures Winner(ValuesOf(Absorb(acc, row), code) + later)
      == Winner(ValuesOf(acc, code) + (if row.code == code then [row.value] else []) + later)
  {
    AbsorbValues(acc, row, code);
    DistinctValuesOf(acc, code);
    var vs := ValuesOf(acc, code);
    if row.code != code {
      Regroup(vs, [], later);
    } else if vs == [] {
      Regroup(vs, [row.value], later);
    } else {
      var u := vs[0];
      assert vs == [u];
      WinnerRefill(u, row.value, later);
      Regroup(vs, [row.value], later);
      PairCons(u, row.value, later);
    }
  }

  lemma PairCons(u: Json, w: Json, later: seq<Json>)
    ensures [u] + ([w] + later) == [u, w] + later
  {
  }

  /** Merging page after page is merging all their rows in page order. */
  lemma {:induction false} MergeRowsConcat(acc: seq<Row>, a: seq<Row>, b: seq<Row>)
    ensures MergeRows(MergeRows(acc, a), b) == MergeRows(acc, a + b)
    decreases |a|
  {
    if a != [] {
      assert (a + b)[0] == a[0] && (a + b)[1..] == a[1..] + b;
      MergeRowsConcat(Absorb(acc, a[0]), a[1..], b);
    } else {
      assert a + b == b;
    }
  }
}
