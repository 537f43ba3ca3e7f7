/**
 * `transform_to_w2_structure`: whatever shape the model's W-2 reply has, it is
 * flattened and every box of a fixed W-2 schema is filled by alias lookup, with
 * numeric, boolean and name-plus-address coercions.
 */
module W2Transform {
  import opened Json
  import opened Text
  import opened PyOps
  import opened Flatten
  import opened Boxes

  // ------------------------------------------------------------ coercions

  /** The body of `find_number` once the lookup is done: numbers pass, strings are parsed, the rest is 0.00. */
  function AmountOf(h: Host, v: Json): (r: real)
    ensures IsNumber(v) ==> r == NumberValue(v)
    ensures v.JStr? && ParseAmount(h, v.s).Some? ==> r == ParseAmount(h, v.s).value
    ensures v.JStr? && ParseAmount(h, v.s).None? ==> r == 0.0
    ensures !IsNumber(v) && !v.JStr? ==> r == 0.0
  {
    if v.JNull? then 0.0
    else if IsNumber(v) then NumberValue(v)
    else if v.JStr? then ParseAmount(h, v.s).GetOr(0.0)
    else 0.0
  }

  /** `find_number(aliases)`: the first alias hit read as an amount, 0.00 when nothing is found. */
  function FindNumber(h: Host, flat: Fields, aliases: seq<string>): (r: real)
    ensures (forall a :: 0 <= a < |aliases| ==> NoMatch(aliases[a], flat)) ==> r == 0.0
    ensures forall a, j :: FirstAliasHit(flat, aliases, a, j) ==> r == AmountOf(h, flat[j].1)
  {
    AmountOf(h, FindValue(flat, aliases, JNum(0.0)))
  }

  const TrueWords: seq<string> := ["true", "yes", "1", "x", "checked"]

  /** The body of `find_bool` once the lookup is done. */
  function Checked(v: Json, default: bool): (r: bool)
    ensures v.JBool? ==> r == v.b
    ensures v.JStr? ==> (r <==> Lower(v.s) in TrueWords)
    ensures !v.JBool? && !v.JStr? ==> r == default
  {
    match v
    case JBool(b) => b
    case JStr(s) => Lower(s) in TrueWords
    case _ => default
  }

  /** `find_bool(aliases)`: false when nothing is found. */
  function FindBool(flat: Fields, aliases: seq<string>): (r: bool)
    ensures (forall a :: 0 <= a < |aliases| ==> NoMatch(aliases[a], flat)) ==> !r
    ensures forall a, j :: FirstAliasHit(flat, aliases, a, j) ==> r == Checked(flat[j].1, false)
  {
    Checked(FindValue(flat, aliases, JBool(false)), false)
  }

  /** One half of `find_combined_value`: a string is stripped, another truthy value printed, the rest is empty. */
  function Part(h: Host, v: Json): (r: string)
    ensures v.JStr? ==> r == Strip(v.s)
    ensures !Truthy(v) && !v.JStr? ==> r == ""
  {
    if v.JStr? then Strip(v.s) else if Truthy(v) then PyStr(h, v) else ""
  }

  /** `find_combined_value(names, addresses, default, sep)`. */
  function FindCombined(h: Host, flat: Fields, names: seq<string>, addresses: seq<string>,
                        default: Json, sep: string): (r: Json)
    ensures var n, a := Part(h, FindValue(flat, names, JStr(""))), Part(h, FindValue(flat, addresses, JStr("")));
      && (n != "" && a != "" ==> r == JStr(n + sep + a))
      && (n != "" && a == "" ==> r == JStr(n))
      && (n == "" && a != "" ==> r == JStr(a))
      && (n == "" && a == "" ==> r == default)
  {
    var n := Part(h, FindValue(flat, names, JStr("")));
    var a := Part(h, FindValue(flat, addresses, JStr("")));
    if n != "" && a != "" then JStr(n + sep + a)
    else if n != "" then JStr(n)
    else if a != "" then JStr(a)
    else default
  }

  /** With neither half present the default comes back, whatever the aliases. */
  lemma CombinedAbsent(h: Host, flat: Fields, names: seq<string>, addresses: seq<string>, default: Json, sep: string)
    requires forall a :: 0 <= a < |names| ==> NoMatch(names[a], flat)
    requires forall a :: 0 <= a < |addresses| ==> NoMatch(addresses[a], flat)
    ensures FindCombined(h, flat, names, addresses, default, sep) == default
  {
    assert FindValue(flat, names, JStr("")) == JStr("");
    assert FindValue(flat, addresses, JStr("")) == JStr("");
    assert Strip("") == "";
  }

  // ------------------------------------------------------------ the schema

  /** How one value of the schema is found. */
  datatype Field =
    | Value(aliases: seq<string>, default: Json)
    | Number(aliases: seq<string>)
    | Flag(aliases: seq<string>)
    | Combined(names: seq<string>, addresses: seq<string>, default: Json, sep: string)

  /** A box's label: fixed text, or itself looked up (the Box 12 code letters). */
  datatype Caption = Fixed(text: string) | Looked(aliases: seq<string>)

  datatype Box = Box(code: string, caption: Caption, field: Field)

  function Eval(h: Host, flat: Fields, f: Field): Json
  {
    match f
    case Value(aliases, default) => FindValue(flat, aliases, default)
    case Number(aliases) => JNum(FindNumber(h, flat, aliases))
    case Flag(aliases) => JBool(FindBool(flat, aliases))
    case Combined(names, addresses, default, sep) => FindCombined(h, flat, names, addresses, default, sep)
  }

  function CaptionValue(flat: Fields, c: Caption): Json
  {
    match c
    case Fixed(text) => JStr(text)
    case Looked(aliases) => FindValue(flat, aliases, JStr(""))
  }

  function BoxCodes(boxes: seq<Box>): (cs: seq<string>)
    ensures |cs| == |boxes| && forall i :: 0 <= i < |boxes| ==> cs[i] == boxes[i].code
  {
    seq(|boxes|, i requires 0 <= i < |boxes| => boxes[i].code)
  }

  /** The entries of one plane, one per box of the table. */
  function Plane(h: Host, flat: Fields, boxes: seq<Box>): (es: seq<Json>)
    ensures HasCodes(es, BoxCodes(boxes))
  {
    var es := seq(|boxes|, i requires 0 <= i < |boxes| =>
      LabelledEntry(boxes[i].code, CaptionValue(flat, boxes[i].caption), Eval(h, flat, boxes[i].field)));
    assert forall i :: 0 <= i < |boxes| ==> EntryCode(es[i]) == Some(boxes[i].code) by {
      forall i | 0 <= i < |boxes| ensures EntryCode(es[i]) == Some(boxes[i].code) {
        EntryReadsBack(boxes[i].code, CaptionValue(flat, boxes[i].caption), Eval(h, flat, boxes[i].field));
      }
    }
    es
  }

  const Identification: seq<Box> := [
    Box("a", Fixed("Employee's SSA number"),
        Value(["ssn", "ssa", "employee_ssn", "social_security", "box_a"], JStr(""))),
    Box("b", Fixed("Employer's FED ID number"),
        Value(["ein", "fed_id", "employer_ein", "employer_fed", "box_b"], JStr(""))),
    Box("c", Fixed("Employer's name and address"),
        Combined(["employer_name"], ["employer_address", "employer_street", "employer_city"], JStr(""), "\n")),
    Box("d", Fixed("Control number"), Value(["control", "control_number", "box_d"], JStr(""))),
    Box("dept", Fixed("Department"), Value(["dept", "department", "dept_code"], JStr(""))),
    Box("e/f", Fixed("Employee's name and address"),
        Combined(["employee_name"], ["employee_address", "employee_street", "employee_city"], JStr(""), "\n"))]

  const Federal: seq<Box> := [
    Box("1", Fixed("Wages, tips, other comp."), Number(["box_1", "box1", "wages", "wages_tips"])),
    Box("2", Fixed("Federal income tax withheld"),
        Number(["box_2", "box2", "federal_income_tax", "federal_tax_withheld"])),
    Box("3", Fixed("Social security wages"), Number(["box_3", "box3", "social_security_wages"])),
    Box("4", Fixed("Social security tax withheld"), Number(["box_4", "box4", "social_security_tax"])),
    Box("5", Fixed("Medicare wages and tips"), Number(["box_5", "box5", "medicare_wages"])),
    Box("6", Fixed("Medicare tax withheld"), Number(["box_6", "box6", "medicare_tax"])),
    Box("7", Fixed("Social security tips"), Number(["box_7", "box7", "social_security_tips"])),
    Box("8", Fixed("Allocated tips"), Number(["box_8", "box8", "allocated_tips"])),
    Box("9", Fixed("Verification code"),
        Value(["box_9", "box9", "verification_code", "verification"], JStr(""))),
    Box("10", Fixed("Dependent care benefits"), Number(["box_10", "box10", "dependent_care"])),
    Box("11", Fixed("Nonqualified plans"), Number(["box_11", "box11", "nonqualified"]))]

  const Supplemental: seq<Box> := [
    Box("12a", Looked(["box_12a_code", "12a_code"]), Number(["box_12a_amount", "12a_amount", "box_12a"])),
    Box("12b", Looked(["box_12b_code", "12b_code"]), Number(["box_12b_amount", "12b_amount", "box_12b"])),
    Box("12c", Looked(["box_12c_code", "12c_code"]), Number(["box_12c_amount", "12c_amount", "box_12c"])),
    Box("12d", Looked(["box_12d_code", "12d_code"]), Number(["box_12d_amount", "12d_amount", "box_12d"])),
    Box("13", Fixed("Statutory employee"),
        Flag(["box_13_statutory", "box_13_statutory_employee", "statutory_employee", "statutory"])),
    Box("13b", Fixed("Retirement plan"),
        Flag(["box_13_retirement", "box_13_retirement_plan", "retirement_plan", "retirement"])),
    Box("13c", Fixed("Third-party sick pay"),
        Flag(["box_13_sick_pay", "box_13_third_party_sick_pay", "third_party_sick_pay", "sick_pay"])),
    Box("14", Fixed("Other"), Value(["box_14", "box_14_other", "other"], JNull))]

  const StateLocal: seq<Box> := [
    Box("15", Fixed("State / Employer ID"),
        Combined(["box_15_state", "state"], ["box_15_state_id", "state_id", "employer_state_id"], JNull, " ")),
    Box("16", Fixed("State wages, tips, etc."), Number(["box_16", "state_wages"])),
    Box("17", Fixed("State income tax"), Number(["box_17", "state_income_tax", "state_tax"])),
    Box("18", Fixed("Local wages, tips, etc."), Number(["box_18", "local_wages"])),
    Box("19", Fixed("Local income tax"), Number(["box_19", "local_income_tax", "local_tax"])),
    Box("20", Fixed("Locality name"), Value(["box_20", "locality", "locality_name"], JNull)),
    Box("15b", Fixed("State / Employer ID (2)"), Combined(["box_15b_state"], ["box_15b_state_id"], JNull, " ")),
    Box("16b", Fixed("State wages (2)"), Number(["box_16b"])),
    Box("17b", Fixed("State income tax (2)"), Number(["box_17b"])),
    Box("18b", Fixed("Local wages (2)"), Number(["box_18b"])),
    Box("19b", Fixed("Local income tax (2)"), Number(["box_19b"])),
    Box("20b", Fixed("Locality name (2)"), Value(["box_20b"], JNull))]

  const Additional: seq<Box> := [
    Box("employer_use", Fixed("Employer Use Only"),
        Value(["employer_use_only", "employer_use", "for_employer_use"], JStr(""))),
    Box("other", Fixed("Other Data"), Value(["other_data", "other", "additional_info"], JStr("")))]

  const YearAliases: seq<string> := ["year", "tax_year", "form_year"]

  /** The form header; the year is `str()` of the lookup and the copy text is passed through as found. */
  function Header(h: Host, flat: Fields): Json
  {
    JObj([("form_number", JStr("W-2")),
          ("year", JStr(PyStr(h, FindValue(flat, YearAliases, JStr("2024"))))),
          ("type", JStr("Wage and Tax Statement")),
          ("text_array", JArr([JStr("Employee Reference"),
                               FindValue(flat, ["copy", "copy_type"], JStr("Copy C for employee's records")),
                               JStr("OMB No. 1545-0008")]))])
  }

  /** The box tables of the five planes. */
  datatype Tables = Tables(identification: seq<Box>, federal: seq<Box>, supplemental: seq<Box>,
                           stateLocal: seq<Box>, additional: seq<Box>)

  const W2Tables := Tables(Identification, Federal, Supplemental, StateLocal, Additional)

  /** The five plane boxes; the supplemental plane sits inside a nested `{"boxes": [...]}`. */
  function Planes(h: Host, flat: Fields, t: Tables): seq<Json>
  {
    PlaneLayout(Plane(h, flat, t.identification), Plane(h, flat, t.federal), Plane(h, flat, t.supplemental),
                Plane(h, flat, t.stateLocal), Plane(h, flat, t.additional))
  }

  /** The five plane boxes around their entries. */
  function PlaneLayout(id: seq<Json>, fed: seq<Json>, sup: seq<Json>, st: seq<Json>, add: seq<Json>): seq<Json>
  {
    [JObj([("identification_plane", JArr(id))]),
     JObj([("federal_tax_plane", JArr(fed))]),
     JObj([("boxes", JArr([JObj([("supplemental_plane", JArr(sup))])]))]),
     JObj([("state_local_plane", JArr(st))]),
     JObj([("additional_data_plane", JArr(add))])]
  }

  /** Each plane box reads back as its name and entries, the supplemental one through its nested box. */
  lemma PlaneLayoutReadsBack(id: seq<Json>, fed: seq<Json>, sup: seq<Json>, st: seq<Json>, add: seq<Json>)
    ensures var ps := PlaneLayout(id, fed, sup, st, add);
      && |ps| == 5
      && PlaneOf(ps[0]) == ("identification_plane", id)
      && PlaneOf(ps[1]) == ("federal_tax_plane", fed)
      && PlaneBoxes(ps[2]) == [JObj([("supplemental_plane", JArr(sup))])]
      && PlaneOf(ps[3]) == ("state_local_plane", st)
      && PlaneOf(ps[4]) == ("additional_data_plane", add)
  {
    PlaneOfSingle("identification_plane", id);
    PlaneOfSingle("federal_tax_plane", fed);
    PlaneOfSingle("state_local_plane", st);
    PlaneOfSingle("additional_data_plane", add);
  }

  function Document(h: Host, flat: Fields, t: Tables): Json
  {
    JArr([JObj([("forms", JArr([Form(Header(h, flat), Planes(h, flat, t))]))])])
  }

  /** The transform over given box tables. */
  function TransformWith(h: Host, t: Tables, raw: Json): (r: Json)
    ensures HasError(Unwrap(raw)) ==> r == Unwrap(raw)
  {
    var data := Unwrap(raw);
    if HasError(data) then data else Document(h, Flat(data), t)
  }

  /** `transform_to_w2_structure(raw)`. */
  function Transform(h: Host, raw: Json): (r: Json)
    ensures HasError(Unwrap(raw)) ==> r == Unwrap(raw)
    ensures !HasError(Unwrap(raw)) ==> |OutputForms(r)| == 1 && |PlaneBoxes(OutputForms(r)[0])| == 5
  {
    if !HasError(Unwrap(raw)) then
      SchemaCompleteWith(h, W2Tables, raw);
      TransformWith(h, W2Tables, raw)
    else TransformWith(h, W2Tables, raw)
  }

  // ------------------------------------------------------------ properties

  /** An error dictionary comes back unchanged, alone or at the head of a list. */
  lemma ErrorPassesThrough(h: Host, e: Json, rest: seq<Json>)
    requires HasError(e)
    ensures Transform(h, e) == e
    ensures Transform(h, JArr([e] + rest)) == e
  {
    assert Unwrap(JArr([e] + rest)) == e;
  }

  /** Wrapping a reply in a list changes nothing, as long as the reply is not itself a non-empty list. */
  lemma ListIsUnwrapped(h: Host, x: Json, rest: seq<Json>)
    requires !(x.JArr? && x.items != [])
    ensures Transform(h, JArr([x] + rest)) == Transform(h, x)
  {
    assert Unwrap(JArr([x] + rest)) == x;
  }

  lemma IdentificationCodes()
    ensures BoxCodes(Identification) == ["a", "b", "c", "d", "dept", "e/f"]
  {
  }

  lemma FederalCodes()
    ensures BoxCodes(Federal) == ["1", "2", "3", "4", "5", "6", "7", "8", "9", "10", "11"]
  {
  }

  lemma SupplementalCodes()
    ensures BoxCodes(Supplemental) == ["12a", "12b", "12c", "12d", "13", "13b", "13c", "14"]
  {
  }

  lemma StateLocalCodes()
    ensures BoxCodes(StateLocal) == ["15", "16", "17", "18", "19", "20", "15b", "16b", "17b", "18b", "19b", "20b"]
  {
  }

  lemma AdditionalCodes()
    ensures BoxCodes(Additional) == ["employer_use", "other"]
  {
  }

  /** Reading a document back gives its one form and that form's plane boxes. */
  lemma DocumentReadsBack(h: Host, flat: Fields, t: Tables)
    ensures OutputForms(Document(h, flat, t)) == [Form(Header(h, flat), Planes(h, flat, t))]
    ensures PlaneBoxes(Form(Header(h, flat), Planes(h, flat, t))) == Planes(h, flat, t)
  {
    OneFormReadsBack(Form(Header(h, flat), Planes(h, flat, t)));
    FormParts(Header(h, flat), Planes(h, flat, t));
  }

  /**
   * For any reply that is not an error, the output holds one form whose planes, read
   * back in order, carry the codes of the box tables.
   */
  lemma SchemaCompleteWith(h: Host, t: Tables, raw: Json)
    requires !HasError(Unwrap(raw))
    ensures var forms := OutputForms(TransformWith(h, t, raw));
      && |forms| == 1
      && var boxes := PlaneBoxes(forms[0]);
      && |boxes| == 5
      && PlaneOf(boxes[0]).0 == "identification_plane"
      && HasCodes(PlaneOf(boxes[0]).1, BoxCodes(t.identification))
      && PlaneOf(boxes[1]).0 == "federal_tax_plane"
      && HasCodes(PlaneOf(boxes[1]).1, BoxCodes(t.federal))
      && |PlaneBoxes(boxes[2])| == 1
      && PlaneOf(PlaneBoxes(boxes[2])[0]).0 == "supplemental_plane"
      && HasCodes(PlaneOf(PlaneBoxes(boxes[2])[0]).1, BoxCodes(t.supplemental))
      && PlaneOf(boxes[3]).0 == "state_local_plane"
      && HasCodes(PlaneOf(boxes[3]).1, BoxCodes(t.stateLocal))
      && PlaneOf(boxes[4]).0 == "additional_data_plane"
      && HasCodes(PlaneOf(boxes[4]).1, BoxCodes(t.additional))
  {
    var flat := Flat(Unwrap(raw));
    DocumentReadsBack(h, flat, t);
    var sup := Plane(h, flat, t.supplemental);
    PlaneLayoutReadsBack(Plane(h, flat, t.identification), Plane(h, flat, t.federal), sup,
                         Plane(h, flat, t.stateLocal), Plane(h, flat, t.additional));
    PlaneOfSingle("supplemental_plane", sup);
  }

  /**
   * Schema completeness: for any reply that is not an error, the output holds one form
   * whose planes, read back in order, carry every fixed code, whatever keys the reply had.
   */
  lemma SchemaComplete(h: Host, raw: Json)
    requires !HasError(Unwrap(raw))
    ensures var forms := OutputForms(Transform(h, raw));
      && |forms| == 1
      && var boxes := PlaneBoxes(forms[0]);
      && |boxes| == 5
      && PlaneOf(boxes[0]).0 == "identification_plane"
      && HasCodes(PlaneOf(boxes[0]).1, ["a", "b", "c", "d", "dept", "e/f"])
      && PlaneOf(boxes[1]).0 == "federal_tax_plane"
      && HasCodes(PlaneOf(boxes[1]).1, ["1", "2", "3", "4", "5", "6", "7", "8", "9", "10", "11"])
      && |PlaneBoxes(boxes[2])| == 1
      && PlaneOf(PlaneBoxes(boxes[2])[0]).0 == "supplemental_plane"
      && HasCodes(PlaneOf(PlaneBoxes(boxes[2])[0]).1, ["12a", "12b", "12c", "12d", "13", "13b", "13c", "14"])
      && PlaneOf(boxes[3]).0 == "state_local_plane"
      && HasCodes(PlaneOf(boxes[3]).1,
                  ["15", "16", "17", "18", "19", "20", "15b", "16b", "17b", "18b", "19b", "20b"])
      && PlaneOf(boxes[4]).0 == "additional_data_plane"
      && HasCodes(PlaneOf(boxes[4]).1, ["employer_use", "other"])
  {
    SchemaCompleteWith(h, W2Tables, raw);
    IdentificationCodes();
    FederalCodes();
    SupplementalCodes();
    StateLocalCodes();
    AdditionalCodes();
  }

  /** The year falls back to "2024" when no year key is present. */
  lemma YearDefault(h: Host, flat: Fields)
    requires forall a :: 0 <= a < |YearAliases| ==> NoMatch(YearAliases[a], flat)
    ensures Get(Header(h, flat), "year") == Some(JStr("2024"))
  {
  }

  /** The alias `box_1` also occurs inside the key `box_10`: a Box 10 amount listed first is read as Box 1. */
  lemma Box1AliasReadsBox10(h: Host)
    ensures FindNumber(h, [("box_10", JNum(5.0)), ("box_1", JNum(7.0))], Federal[0].field.aliases) == 5.0
  {
    var flat := [("box_10", JNum(5.0)), ("box_1", JNum(7.0))];
    LowerOfLower("box_10");
    LowerOfLower("box_1");
    assert OccursAt("box_10", "box_1", 0);
    assert FirstAliasHit(flat, Federal[0].field.aliases, 0, 0);
  }
}
