/**
 * The box layout every extractor emits: a plane is a list of entries
 * `{"data": [{"code": ..., "label": ..., "value": ...}]}`, one entry per box, and a
 * parts-style form (Form 8804, Form 8805) lists the same `{"code", "label", "value"}`
 * cells directly.
 */
module Boxes {
  import opened Json

  /** One box of a fixed schema. */
  datatype Row = Row(code: string, caption: string, value: Json)

  function Codes(rows: seq<Row>): (cs: seq<string>)
    ensures |cs| == |rows|
    ensures forall i :: 0 <= i < |rows| ==> cs[i] == rows[i].code
  {
    seq(|rows|, i requires 0 <= i < |rows| => rows[i].code)
  }

  /** `{"code": code, "label": label, "value": value}`; a few labels are themselves read from the input. */
  function LabelledCell(code: string, lab: Json, value: Json): Json
  {
    JObj([("code", JStr(code)), ("label", lab), ("value", value)])
  }

  /** `{"data": [cell]}`. */
  function LabelledEntry(code: string, lab: Json, value: Json): Json
  {
    JObj([("data", JArr([LabelledCell(code, lab, value)]))])
  }

  function Cell(r: Row): Json
  {
    LabelledCell(r.code, JStr(r.caption), r.value)
  }

  function Entry(r: Row): Json
  {
    LabelledEntry(r.code, JStr(r.caption), r.value)
  }

  /** The code of an entry, read back the way a consumer does: `entry["data"][0]["code"]`. */
  function EntryCode(e: Json): Option<string>
  {
    match Get(e, "data")
    case Some(JArr(cells)) =>
      if cells == [] then None
      else (match Get(cells[0], "code") case Some(JStr(c)) => Some(c) case _ => None)
    case _ => None
  }

  /** The value of an entry, read back as `entry["data"][0]["value"]`. */
  function EntryValue(e: Json): Option<Json>
  {
    match Get(e, "data")
    case Some(JArr(cells)) => if cells == [] then None else Get(cells[0], "value")
    case _ => None
  }

  function Values(rows: seq<Row>): (vs: seq<Json>)
    ensures |vs| == |rows|
    ensures forall i :: 0 <= i < |rows| ==> vs[i] == rows[i].value
  {
    seq(|rows|, i requires 0 <= i < |rows| => rows[i].value)
  }

  /** Reading an entry back gives the code and value it was built from. */
  lemma EntryReadsBack(code: string, lab: Json, value: Json)
    ensures EntryCode(LabelledEntry(code, lab, value)) == Some(code)
    ensures EntryValue(LabelledEntry(code, lab, value)) == Some(value)
  {
    var cell := LabelledCell(code, lab, value);
    assert Get(LabelledEntry(code, lab, value), "data") == Some(JArr([cell]));
    assert Get(cell, "code") == Some(JStr(code));
    var fs := cell.fields;
    assert fs[1..][1..] == [("value", value)];
    assert Lookup(fs[1..], "value") == Some(value);
  }

  /** The entries of a plane carry exactly `codes`, in order. */
  predicate HasCodes(es: seq<Json>, codes: seq<string>)
  {
    |es| == |codes| && forall i :: 0 <= i < |es| ==> EntryCode(es[i]) == Some(codes[i])
  }

  function Cells(rows: seq<Row>): (cs: seq<Json>)
    ensures |cs| == |rows|
    ensures forall i :: 0 <= i < |rows| ==> cs[i] == Cell(rows[i])
  {
    seq(|rows|, i requires 0 <= i < |rows| => Cell(rows[i]))
  }

  function Entries(rows: seq<Row>): (es: seq<Json>)
    ensures |es| == |rows|
    ensures forall i :: 0 <= i < |rows| ==> es[i] == Entry(rows[i])
  {
    seq(|rows|, i requires 0 <= i < |rows| => Entry(rows[i]))
  }

  /** The entries built from a schema carry its codes, in order. */
  lemma EntriesCarryCodes(rows: seq<Row>)
    ensures HasCodes(Entries(rows), Codes(rows))
  {
    forall i | 0 <= i < |rows| ensures EntryCode(Entries(rows)[i]) == Some(rows[i].code) {
      EntryReadsBack(rows[i].code, JStr(rows[i].caption), rows[i].value);
    }
  }

  /** `{name: [entries]}`: one element of a form's `boxes` list. */
  function PlaneBox(name: string, rows: seq<Row>): Json
  {
    JObj([(name, JArr(Entries(rows)))])
  }

  /** A form header: number, year, type and the free-text array, in that field order. */
  function Header(number: string, year: string, kind: string, texts: seq<string>): Json
  {
    JObj([("form_number", JStr(number)), ("year", JStr(year)), ("type", JStr(kind)),
          ("text_array", JArr(seq(|texts|, i requires 0 <= i < |texts| => JStr(texts[i]))))])
  }

  /** `{"form_header": header, "boxes": planes}`. */
  function Form(header: Json, planes: seq<Json>): Json
  {
    JObj([("form_header", header), ("boxes", JArr(planes))])
  }

  /** The value of the first row carrying `code`; null when there is none. */
  function FirstValue(rows: seq<Row>, code: string): Json
  {
    if rows == [] then JNull
    else if rows[0].code == code then rows[0].value
    else FirstValue(rows[1..], code)
  }

  /** Codes that appear in a schema more than once would make `FirstValue` hide a row. */
  predicate DistinctCodes(rows: seq<Row>)
  {
    forall i, j :: 0 <= i < j < |rows| ==> rows[i].code != rows[j].code
  }

  /** With distinct codes, every row's value is the one found under its code. */
  lemma {:induction false} FirstValueOfDistinct(rows: seq<Row>, k: int)
    requires DistinctCodes(rows) && 0 <= k < |rows|
    ensures FirstValue(rows, rows[k].code) == rows[k].value
  {
    if k > 0 {
      assert rows[0].code != rows[k].code;
      assert rows[1..][k - 1] == rows[k];
      FirstValueOfDistinct(rows[1..], k - 1);
    }
  }

  // ------------------------------------------------------------ reading replies back

  /** A non-empty list stands for its first element. */
  function Unwrap(raw: Json): Json
  {
    if raw.JArr? && |raw.items| > 0 then raw.items[0] else raw
  }

  /** Reading a transform's output: `doc[0]["forms"]`. */
  function OutputForms(doc: Json): seq<Json>
  {
    if doc.JArr? && doc.items != [] then
      match Get(doc.items[0], "forms")
      case Some(JArr(forms)) => forms
      case _ => []
    else []
  }

  /** `box["boxes"]`: the plane boxes of a form, or of a nested `{"boxes": [...]}` group. */
  function PlaneBoxes(form: Json): seq<Json>
  {
    match Get(form, "boxes")
    case Some(JArr(boxes)) => boxes
    case _ => []
  }

  /** A form reads back as the header and planes it was built from. */
  lemma FormParts(header: Json, planes: seq<Json>)
    ensures PlaneBoxes(Form(header, planes)) == planes
    ensures Get(Form(header, planes), "form_header") == Some(header)
    ensures Get(Form(header, planes), "boxes") == Some(JArr(planes))
  {
    assert Form(header, planes).fields[1..][0] == ("boxes", JArr(planes));
  }

  /** A header reads back the year it was built with. */
  lemma HeaderParts(number: string, year: string, kind: string, texts: seq<string>)
    ensures Get(Header(number, year, kind, texts), "year") == Some(JStr(year))
  {
    assert Header(number, year, kind, texts).fields[1..][0] == ("year", JStr(year));
  }

  /** The one field of a plane box: its name and its entries. */
  function PlaneOf(box: Json): (string, seq<Json>)
  {
    if box.JObj? && |box.fields| == 1 && box.fields[0].1.JArr? then (box.fields[0].0, box.fields[0].1.items)
    else ("", [])
  }

  lemma PlaneOfSingle(name: string, es: seq<Json>)
    ensures PlaneOf(JObj([(name, JArr(es))])) == (name, es)
  {
  }

  /** `[{"forms": [form]}]` reads back as that one form. */
  lemma OneFormReadsBack(form: Json)
    ensures OutputForms(JArr([JObj([("forms", JArr([form]))])])) == [form]
  {
  }

  /** A plane box reads back as its name and, entry by entry, the codes and values of its rows. */
  lemma PlaneBoxReadsBack(name: string, rows: seq<Row>)
    ensures PlaneOf(PlaneBox(name, rows)).0 == name
    ensures HasCodes(PlaneOf(PlaneBox(name, rows)).1, Codes(rows))
    ensures forall i :: 0 <= i < |rows| ==> EntryValue(PlaneOf(PlaneBox(name, rows)).1[i]) == Some(rows[i].value)
  {
    PlaneOfSingle(name, Entries(rows));
    EntriesCarryCodes(rows);
    forall i | 0 <= i < |rows| ensures EntryValue(Entries(rows)[i]) == Some(rows[i].value) {
      EntryReadsBack(rows[i].code, JStr(rows[i].caption), rows[i].value);
    }
  }

  /** A document holding one form whose planes carry the given names and codes, in order. */
  predicate OneFormLaid(doc: Json, names: seq<string>, codes: seq<seq<string>>)
  {
    |OutputForms(doc)| == 1 && PlanesCarry(PlaneBoxes(OutputForms(doc)[0]), names, codes)
  }

  /** One plane box per name, in order. */
  function PlaneBoxesOf(names: seq<string>, rowss: seq<seq<Row>>): (ps: seq<Json>)
    requires |names| == |rowss|
    ensures |ps| == |names|
    ensures forall i :: 0 <= i < |names| ==> ps[i] == PlaneBox(names[i], rowss[i])
  {
    seq(|names|, i requires 0 <= i < |names| => PlaneBox(names[i], rowss[i]))
  }

  /** The codes of each schema, in order. */
  function CodesOf(rowss: seq<seq<Row>>): (cs: seq<seq<string>>)
    ensures |cs| == |rowss|
    ensures forall i :: 0 <= i < |rowss| ==> cs[i] == Codes(rowss[i])
  {
    seq(|rowss|, i requires 0 <= i < |rowss| => Codes(rowss[i]))
  }

  /** A document holding one form built from named schemas reads back as those names and codes. */
  lemma OneFormOfPlanes(header: Json, names: seq<string>, rowss: seq<seq<Row>>)
    requires |names| == |rowss|
    ensures OneFormLaid(JArr([JObj([("forms", JArr([Form(header, PlaneBoxesOf(names, rowss))]))])]), names, CodesOf(rowss))
  {
    var planes := PlaneBoxesOf(names, rowss);
    OneFormReadsBack(Form(header, planes));
    FormParts(header, planes);
    forall i | 0 <= i < |planes|
      ensures PlaneOf(planes[i]).0 == names[i] && HasCodes(PlaneOf(planes[i]).1, CodesOf(rowss)[i])
    {
      PlaneBoxReadsBack(names[i], rowss[i]);
    }
  }

  /** A document of one form with three planes reads back as their names and codes. */
  lemma ThreePlanesLaid(header: Json, names: seq<string>, r0: seq<Row>, r1: seq<Row>, r2: seq<Row>,
                        c0: seq<string>, c1: seq<string>, c2: seq<string>)
    requires |names| == 3 && Codes(r0) == c0 && Codes(r1) == c1 && Codes(r2) == c2
    ensures OneFormLaid(JArr([JObj([("forms", JArr([Form(header, PlaneBoxesOf(names, [r0, r1, r2]))]))])]),
                        names, [c0, c1, c2])
  {
    OneFormOfPlanes(header, names, [r0, r1, r2]);
    assert CodesOf([r0, r1, r2]) == [c0, c1, c2];
  }

  /** Cells carrying exactly `codes`, in order, read back as `cell["code"]`. */
  predicate CellsCarry(cells: seq<Json>, codes: seq<string>)
  {
    |cells| == |codes| && forall i :: 0 <= i < |cells| ==> Get(cells[i], "code") == Some(JStr(codes[i]))
  }

  /** The cells of a schema carry its codes. */
  lemma CellsCarryCodes(rows: seq<Row>)
    ensures CellsCarry(Cells(rows), Codes(rows))
  {
    forall i | 0 <= i < |rows| ensures Get(Cells(rows)[i], "code") == Some(JStr(rows[i].code)) {
      assert Cells(rows)[i] == LabelledCell(rows[i].code, JStr(rows[i].caption), rows[i].value);
    }
  }

  /** A nested `{"boxes": [...]}` group reads back as its plane boxes. */
  lemma GroupReadsBack(planes: seq<Json>)
    ensures PlaneBoxes(JObj([("boxes", JArr(planes))])) == planes
  {
  }

  /** Plane boxes carrying the given plane names and, plane by plane, the given codes, in order. */
  predicate PlanesCarry(boxes: seq<Json>, names: seq<string>, codes: seq<seq<string>>)
  {
    |boxes| == |names| && |names| == |codes|
    && forall i :: 0 <= i < |boxes| ==> PlaneOf(boxes[i]).0 == names[i] && HasCodes(PlaneOf(boxes[i]).1, codes[i])
  }
}
