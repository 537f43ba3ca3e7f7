/**
 * `transform_to_1099int_structure`: a 1099-INT reply that already has the three-plane
 * layout is re-read box by box and cleaned; any other reply is flattened and the same
 * boxes are found by alias. Both paths fill one fixed schema.
 */
module Int1099Transform {
  import opened Json
  import opened Text
  import opened PyOps
  import opened Flatten
  import opened Boxes
  import opened PlaneRead

  // ------------------------------------------------------------ the schema

  /** How a box's value is cleaned, which also fixes its default. */
  datatype Kind =
    | Text        // a string, "" when missing
    | Fatca       // a boolean, false unless a boolean was given
    | Amount      // a number, 0.00 when missing
    | MaybeAmount // a number, or null
    | Note        // a non-empty string, or null
    | StateName   // like Note, but the echoed box number "15" is dropped on re-reading

  /** One box: its code, its fixed label, how it is cleaned, and the keys the fallback looks for. */
  datatype Spec = Spec(code: string, caption: string, kind: Kind, aliases: seq<string>)

  const IdentificationSpec: seq<Spec> := [
    Spec("Payer", "Payer's name, address and telephone", Text, ["payer_name", "payer's name", "payer_address", "payer"]),
    Spec("Payer TIN", "Payer's TIN", Text, ["payer_tin", "payer's tin", "payer tin"]),
    Spec("Payer Telephone", "Payer's telephone number", Text,
         ["payer_telephone", "payer's telephone", "payer phone", "telephone"]),
    Spec("Recipient TIN", "Recipient's TIN", Text, ["recipient_tin", "recipient's tin", "recipient tin"]),
    Spec("Recipient Name", "Recipient's name and address", Text,
         ["recipient_name", "recipient's name", "recipient_address", "recipient"]),
    Spec("Account No", "Account number", Text, ["account", "account_number", "account no"]),
    Spec("Payer RTN", "Payer's RTN", Text, ["payer_rtn", "rtn", "routing"]),
    Spec("FATCA", "FATCA filing requirement", Fatca, ["fatca", "fatca_filing", "fatca filing requirement"])]

  /** Box 6, an optional amount. */
  const ForeignTax: Spec := Spec("6", "Foreign tax paid", MaybeAmount, ["box_6", "box6", "foreign_tax"])

  const FinancialSpec: seq<Spec> := [
    Spec("1", "Interest income", Amount, ["box_1", "box1", "interest_income", "box_1_interest"]),
    Spec("2", "Early withdrawal penalty", Amount, ["box_2", "box2", "early_withdrawal", "withdrawal_penalty"]),
    Spec("3", "Interest on U.S. Savings Bonds and Treasury obligations", Amount,
         ["box_3", "box3", "savings_bonds", "treasury"]),
    Spec("4", "Federal income tax withheld", Amount, ["box_4", "box4", "federal_tax", "tax_withheld"]),
    Spec("5", "Investment expenses", Amount, ["box_5", "box5", "investment_expenses"]),
    ForeignTax,
    Spec("7", "Foreign country or U.S. possession", Note, ["box_7", "box7", "foreign_country", "us_possession"]),
    Spec("8", "Tax-exempt interest", MaybeAmount, ["box_8", "box8", "tax_exempt"]),
    Spec("9", "Specified private activity bond interest", MaybeAmount, ["box_9", "box9", "private_activity"]),
    Spec("10", "Market discount", MaybeAmount, ["box_10", "box10", "market_discount"]),
    Spec("11", "Bond premium", MaybeAmount, ["box_11", "box11", "bond_premium"]),
    Spec("12", "Bond premium on Treasury obligations", MaybeAmount, ["box_12", "box12", "bond_premium_treasury"]),
    Spec("13", "Bond premium on tax-exempt bond", MaybeAmount, ["box_13", "box13", "bond_premium_tax_exempt"]),
    Spec("14", "Tax-exempt and tax credit bond CUSIP no.", Note,
         ["box_14", "box14", "cusip", "tax_credit_bond_cusip"])]

  const StateSpec: seq<Spec> := [
    Spec("15", "State", StateName, ["box_15", "state"]),
    Spec("16", "State identification no.", Note, ["box_16", "state_id"]),
    Spec("17", "State tax withheld", Amount, ["box_17", "state_tax"])]

  const HeaderTexts: seq<string> :=
    ["Copy B", "For Recipient", "OMB No. 1545-0112", "Department of the Treasury - Internal Revenue Service"]

  /** The cleaned values of one form, plane by plane, in schema order. */
  datatype Statement = Statement(year: string, ids: seq<Json>, amounts: seq<Json>, state: seq<Json>)

  /** A statement holds one value per box of each plane: 8 identification, 14 financial and 3 state boxes. */
  predicate Fits(s: Statement)
  {
    |s.ids| == 8 && |s.amounts| == 14 && |s.state| == 3
  }


  function SpecCodes(specs: seq<Spec>): (cs: seq<string>)
    ensures |cs| == |specs| && forall i :: 0 <= i < |specs| ==> cs[i] == specs[i].code
  {
    seq(|specs|, i requires 0 <= i < |specs| => specs[i].code)
  }

  /** No code appears twice in a plane, so reading by code cannot pick the wrong box. */
  predicate DistinctSpecCodes(specs: seq<Spec>)
  {
    forall i, j :: 0 <= i < j < |specs| ==> specs[i].code != specs[j].code
  }

  function RowsOf(specs: seq<Spec>, vals: seq<Json>): (rows: seq<Row>)
    requires |vals| == |specs|
    ensures |rows| == |specs|
    ensures forall i :: 0 <= i < |specs| ==> rows[i] == Row(specs[i].code, specs[i].caption, vals[i])
    ensures Codes(rows) == SpecCodes(specs) && Values(rows) == vals
    ensures DistinctSpecCodes(specs) ==> DistinctCodes(rows)
  {
    seq(|specs|, i requires 0 <= i < |specs| => Row(specs[i].code, specs[i].caption, vals[i]))
  }

  /** The three plane boxes of a statement. */
  function PlanesOf(s: Statement): seq<Json>
    requires Fits(s)
  {
    [PlaneBox("identification_plane", RowsOf(IdentificationSpec, s.ids)),
     PlaneBox("financial_plane", RowsOf(FinancialSpec, s.amounts)),
     PlaneBox("state_local_plane", RowsOf(StateSpec, s.state))]
  }

  /** One output form. */
  function Render(s: Statement): Json
    requires Fits(s)
  {
    Form(Header("1099-INT", s.year, "Interest Income", HeaderTexts), PlanesOf(s))
  }

  function RenderAll(sts: seq<Statement>): (forms: seq<Json>)
    requires forall i :: 0 <= i < |sts| ==> Fits(sts[i])
    ensures |forms| == |sts| && forall i :: 0 <= i < |sts| ==> forms[i] == Render(sts[i])
  {
    seq(|sts|, i requires 0 <= i < |sts| => Render(sts[i]))
  }

  /** `[{"forms": [...]}]`. */
  function Document(sts: seq<Statement>): Json
    requires forall i :: 0 <= i < |sts| ==> Fits(sts[i])
  {
    JArr([JObj([("forms", JArr(RenderAll(sts)))])])
  }

  // ------------------------------------------------------------ cleaning

  /** `s.replace("\n", ", ").replace("\r", "").strip()`: no line break is left. */
  function Unbroken(s: string): (r: string)
    ensures '\n' !in r && '\r' !in r
  {
    var a := ReplaceBy(s, '\n', ", ");
    var b := RemoveChars(a, {'\r'});
    RemoveCharsKeeps(a, {'\r'}, '\n');
    StripKeepsAbsent(b, '\n');
    StripKeepsAbsent(b, '\r');
    Strip(b)
  }

  /** `s.replace("\n", ", ").replace("\r", "").strip().rstrip("*")`. */
  function CleanText(s: string): (r: string)
    ensures '\n' !in r && '\r' !in r
    ensures r == [] || r[|r| - 1] != '*'
  {
    var c := Unbroken(s);
    var r := RStripChar(c, '*');
    PrefixAbsent(c, |r|, '\n');
    PrefixAbsent(c, |r|, '\r');
    r
  }

  /** A prefix holds no character the whole text does not. */
  lemma PrefixAbsent(s: string, n: nat, ch: char)
    requires n <= |s| && ch !in s
    ensures ch !in s[..n]
  {
    assert forall k :: 0 <= k < n ==> s[..n][k] == s[k];
  }

  /** `clean_string(v)`: null is "", a string is cleaned, anything else printed. */
  function CleanString(h: Host, v: Json): string
  {
    match v
    case JNull => ""
    case JStr(s) => CleanText(s)
    case _ => PyStr(h, v)
  }

  /** Text that cleaning leaves alone: no line breaks, no surrounding space, no trailing '*'. */
  predicate Tidy(s: string)
  {
    '\n' !in s && '\r' !in s && (s == [] || (!IsSpace(s[0]) && !IsSpace(s[|s| - 1]) && s[|s| - 1] != '*'))
  }

  /** Cleaning keeps tidy text as it is. */
  lemma CleanTextKeepsTidy(s: string)
    requires Tidy(s)
    ensures CleanText(s) == s
  {
    assert ReplaceBy(s, '\n', ", ") == s;
    RemoveCharsAbsent(s, {'\r'});
    if s != [] {
      StripKeeps(s);
    }
  }

  /** Cleaning is not idempotent: a '*' behind a space survives until the space is gone. */
  lemma CleanTextTwice()
    ensures CleanText("A *") == "A "
    ensures CleanText(CleanText("A *")) == "A"
  {
    CleanTextStarStep();
    CleanTextSpaceStep();
  }

  lemma CleanTextStarStep()
    ensures CleanText("A *") == "A "
  {
    var s := "A *";
    assert ReplaceBy(s, '\n', ", ") == s by { assert '\n' !in s; }
    assert RemoveChars(s, {'\r'}) == s by { RemoveCharsAbsent(s, {'\r'}); }
    assert Strip(s) == s by { assert !IsSpace(s[0]) && !IsSpace(s[|s| - 1]); StripKeeps(s); }
    StarStripped();
  }

  lemma StarStripped()
    ensures RStripChar("A *", '*') == "A "
  {
    var s, t := "A *", "A ";
    assert s[|s| - 1] == '*' && s[..|s| - 1] == t;
    assert t[|t| - 1] != '*';
  }

  lemma CleanTextSpaceStep()
    ensures CleanText("A ") == "A"
  {
    var s := "A ";
    assert ReplaceBy(s, '\n', ", ") == s by { assert '\n' !in s; }
    assert RemoveChars(s, {'\r'}) == s by { RemoveCharsAbsent(s, {'\r'}); }
    assert Strip(s) == "A" by { assert StripLeft(s) == s; assert s[..1] == "A"; }
    assert RStripChar("A", '*') == "A";
  }

  /** `clean_number(v, default)` of the pass-through path. */
  function CleanNumber(h: Host, v: Json, default: Json): (r: Json)
    ensures v.JNull? ==> r.JNull?
    ensures IsNumber(v) ==> r == JNum(NumberValue(v))
    ensures !v.JNull? && !IsNumber(v) && (!v.JStr? || ParseAmount(h, v.s).None?) ==> r == default
  {
    if v.JNull? then JNull
    else if IsNumber(v) then JNum(NumberValue(v))
    else if v.JStr? then
      match ParseAmount(h, v.s)
      case Some(x) => JNum(x)
      case None => default
    else default
  }

  /** How the pass-through path cleans a value read from a plane. */
  function Refine(h: Host, k: Kind, v: Json): (r: Json)
    ensures k == Text ==> r.JStr? && (!Truthy(v) ==> r == JStr(""))
    ensures k == Fatca ==> r.JBool? && (v.JBool? ==> r == v)
    ensures k == Amount ==> r.JNum? && (v.JNull? ==> r == JNum(0.0))
    ensures k == MaybeAmount ==> (r.JNum? || r.JNull?) && (v.JNull? ==> r.JNull?)
    ensures k == Note || k == StateName ==> (r.JStr? || r.JNull?) && (r.JNull? <==> !Truthy(v) || (k == StateName && v == JStr("15")))
  {
    match k
    case Text => JStr(CleanString(h, if Truthy(v) then v else JStr("")))
    case Fatca => if v.JBool? then v else JBool(false)
    case Amount => if v.JNull? then JNum(0.0) else CleanNumber(h, v, JNum(0.0))
    case MaybeAmount => CleanNumber(h, v, JNull)
    case Note => if Truthy(v) then JStr(CleanString(h, v)) else JNull
    case StateName => if Truthy(v) && v != JStr("15") then JStr(CleanString(h, v)) else JNull
  }

  /** Values the pass-through path reproduces unchanged. */
  predicate Settled(k: Kind, v: Json)
  {
    match k
    case Text => v.JStr? && Tidy(v.s)
    case Fatca => v.JBool?
    case Amount => v.JNum?
    case MaybeAmount => v.JNum? || v.JNull?
    case Note => v.JNull? || (v.JStr? && v.s != "" && Tidy(v.s))
    case StateName => v.JNull? || (v.JStr? && v.s != "" && v.s != "15" && Tidy(v.s))
  }

  lemma RefineSettled(h: Host, k: Kind, v: Json)
    requires Settled(k, v)
    ensures Refine(h, k, v) == v
  {
    match k
    case Text => RefineTidy(h, k, v);
    case Note => if v.JStr? { RefineTidy(h, k, v); }
    case StateName => if v.JStr? { RefineTidy(h, k, v); }
    case _ =>
  }

  lemma RefineTidy(h: Host, k: Kind, v: Json)
    requires k in {Text, Note, StateName} && v.JStr? && Tidy(v.s)
    requires k != Text ==> v.s != ""
    requires k == StateName ==> v.s != "15"
    ensures Refine(h, k, v) == v
  {
    CleanTextKeepsTidy(v.s);
    assert CleanString(h, v) == v.s;
  }

  /** The value `" 15"` is not the echoed box number before cleaning, and is exactly that after. */
  lemma StateEchoWithSpaceKept(h: Host)
    ensures Refine(h, StateName, JStr("15")) == JNull
    ensures Refine(h, StateName, JStr(" 15")) == JStr("15")
  {
    var echo := "15";
    assert Tidy(echo) && echo != [] by { assert !IsSpace(echo[0]) && !IsSpace(echo[1]); }
    assert [' '] + echo == " 15";
    StateNamePadded(h, echo);
  }

  /** A state name behind one space is compared before cleaning and kept cleaned. */
  lemma StateNamePadded(h: Host, t: string)
    requires Tidy(t) && t != []
    ensures Refine(h, StateName, JStr([' '] + t)) == JStr(t)
  {
    var v := JStr([' '] + t);
    assert v.s[0] == ' ';
    assert v != JStr("15");
    assert Truthy(v);
    CleanTextDropsLeadingSpace(t);
    assert CleanString(h, v) == t;
  }

  /** Cleaning drops one leading space in front of tidy text. */
  lemma CleanTextDropsLeadingSpace(t: string)
    requires Tidy(t) && t != []
    ensures CleanText([' '] + t) == t
  {
    var s := [' '] + t;
    assert '\n' !in s && '\r' !in s;
    assert ReplaceBy(s, '\n', ", ") == s;
    RemoveCharsAbsent(s, {'\r'});
    assert s == [' '] + t + [];
    StripSurrounded([' '], t, []);
    StripKeeps(t);
  }

  function RefineAll(h: Host, specs: seq<Spec>, vals: seq<Json>): (r: seq<Json>)
    requires |vals| == |specs|
    ensures |r| == |specs| && forall i :: 0 <= i < |specs| ==> r[i] == Refine(h, specs[i].kind, vals[i])
  {
    seq(|specs|, i requires 0 <= i < |specs| => Refine(h, specs[i].kind, vals[i]))
  }

  // ------------------------------------------------------------ the pass-through path

  /** One plane check on one box: `if name in box: plane = box[name]`. */
  function PickPlane(box: Json, name: string, current: Json): (r: Result<Json>)
    ensures box.JObj? ==> r == Ok(if HasKey(box.fields, name) then GetOrNull(box, name) else current)
  {
    var has :- PyIn(name, box);
    if has then PyIndex(box, name) else Ok(current)
  }

  /** The identification, financial and state planes; a later box replaces an earlier one. */
  function FindPlanes(boxes: seq<Json>, found: (Json, Json, Json)): (r: Result<(Json, Json, Json)>)
    ensures (forall i :: 0 <= i < |boxes| ==> boxes[i].JObj?) ==> r.Ok?
  {
    if boxes == [] then Ok(found)
    else
      var id :- PickPlane(boxes[0], "identification_plane", found.0);
      var fin :- PickPlane(boxes[0], "financial_plane", found.1);
      var st :- PickPlane(boxes[0], "state_local_plane", found.2);
      FindPlanes(boxes[1..], (id, fin, st))
  }

  /** The values of a form whose identification and financial planes were found. */
  function Reread(h: Host, form: Json, id: Json, fin: Json, st: Json): (r: Result<Statement>)
    ensures r.Ok? ==> Fits(r.value)
  {
    var ids :- Lookups(id, SpecCodes(IdentificationSpec));
    var amounts :- Lookups(fin, SpecCodes(FinancialSpec));
    var state :- if Truthy(st) then Lookups(st, SpecCodes(StateSpec)) else Ok([JNull, JNull, JNum(0.0)]);
    var header :- PyGet(form, "form_header", JObj([]));
    var year :- PyGet(header, "year", JStr("2024"));
    Ok(Statement(PyStr(h, year), RefineAll(h, IdentificationSpec, ids), RefineAll(h, FinancialSpec, amounts),
                 RefineAll(h, StateSpec, state)))
  }

  /** One element of `forms`: a statement when both main planes are present and non-empty. */
  function ProcessForm(h: Host, form: Json): (r: Result<Option<Statement>>)
    ensures r.Ok? && r.value.Some? ==> Fits(r.value.value)
  {
    var boxes :- PyGet(form, "boxes", JArr([]));
    var bs :- PyIter(boxes);
    var planes :- FindPlanes(bs, (JNull, JNull, JNull));
    if Truthy(planes.0) && Truthy(planes.1) then
      var s :- Reread(h, form, planes.0, planes.1, planes.2);
      Ok(Some(s))
    else Ok(None)
  }

  /**
   * The loop over `forms`: each element is handled in order, the first error stops the
   * loop, and the statements produced are collected.
   */
  function EachSome<T>(step: Json -> Result<Option<T>>, forms: seq<Json>): (r: Result<seq<T>>)
    ensures r.Ok? ==> |r.value| <= |forms|
  {
    if forms == [] then Ok([])
    else
      var s :- step(forms[0]);
      var rest :- EachSome(step, forms[1..]);
      Ok((if s.Some? then [s.value] else []) + rest)
  }

  /** Every statement the loop collects is what the step made of some element. */
  lemma {:induction false} EachSomeFrom<T>(step: Json -> Result<Option<T>>, forms: seq<Json>)
    requires EachSome(step, forms).Ok?
    ensures forall i :: 0 <= i < |EachSome(step, forms).value| ==>
      exists j :: 0 <= j < |forms| && step(forms[j]) == Ok(Some(EachSome(step, forms).value[i]))
  {
    if forms != [] {
      EachSomeFrom(step, forms[1..]);
      var s := step(forms[0]).value;
      var rest := EachSome(step, forms[1..]).value;
      var r := EachSome(step, forms).value;
      assert r == (if s.Some? then [s.value] else []) + rest;
      forall i | 0 <= i < |r| ensures exists j :: 0 <= j < |forms| && step(forms[j]) == Ok(Some(r[i])) {
        if s.Some? && i == 0 {
          assert step(forms[0]) == Ok(Some(r[0]));
        } else {
          var k := if s.Some? then i - 1 else i;
          assert r[i] == rest[k];
          var j :| 0 <= j < |forms[1..]| && step(forms[1..][j]) == Ok(Some(rest[k]));
          assert forms[1..][j] == forms[j + 1];
        }
      }
    }
  }

  /** When every element yields a statement, the loop yields exactly those statements. */
  lemma {:induction false} EachSomeAll<T>(step: Json -> Result<Option<T>>, forms: seq<Json>, sts: seq<T>)
    requires |forms| == |sts| && forall i :: 0 <= i < |forms| ==> step(forms[i]) == Ok(Some(sts[i]))
    ensures EachSome(step, forms) == Ok(sts)
  {
    if forms != [] {
      forall i | 0 <= i < |forms| - 1 ensures step(forms[1..][i]) == Ok(Some(sts[1..][i])) {
        assert forms[1..][i] == forms[i + 1] && sts[1..][i] == sts[i + 1];
      }
      EachSomeAll(step, forms[1..], sts[1..]);
      assert step(forms[0]) == Ok(Some(sts[0]));
      assert [sts[0]] + sts[1..] == sts;
    }
  }

  function ProcessEach(h: Host, forms: seq<Json>): (r: Result<seq<Statement>>)
    ensures r.Ok? ==> |r.value| <= |forms| && forall i :: 0 <= i < |r.value| ==> Fits(r.value[i])
  {
    var step := form => ProcessForm(h, form);
    var r := EachSome(step, forms);
    assert r.Ok? ==> forall i :: 0 <= i < |r.value| ==> Fits(r.value[i]) by {
      if r.Ok? {
        EachSomeFrom(step, forms);
        forall i | 0 <= i < |r.value| ensures Fits(r.value[i]) {
          var j :| 0 <= j < |forms| && ProcessForm(h, forms[j]) == Ok(Some(r.value[i]));
        }
      }
    }
    r
  }

  /** `get_nested_value(data, "forms")`: only a dictionary has forms. */
  function FormsOf(data: Json): Json
  {
    if data.JObj? then GetOrNull(data, "forms") else JNull
  }

  /**
   * The forms to re-read, including the second lookup through the original list; that
   * lookup never finds anything the first one missed.
   */
  function Forms(raw: Json): (r: Json)
    ensures r == FormsOf(Unwrap(raw))
  {
    var first := FormsOf(Unwrap(raw));
    if !Truthy(first) && raw.JArr? then (if raw.items == [] then JNull else FormsOf(raw.items[0]))
    else first
  }

  /** `if forms and len(forms) > 0`, then every form in turn. */
  function PassThrough(h: Host, forms: Json): (r: Result<seq<Statement>>)
    ensures r.Ok? ==> forall i :: 0 <= i < |r.value| ==> Fits(r.value[i])
  {
    if !Truthy(forms) then Ok([])
    else
      var n :- PyLen(forms);
      if n == 0 then Ok([])
      else
        var items :- PyIter(forms);
        ProcessEach(h, items)
  }

  // ------------------------------------------------------------ the fallback path

  /** The fallback's `find_number(aliases, default)`; a default of null is kept only when nothing is found. */
  function FallbackNumber(h: Host, flat: Fields, aliases: seq<string>, default: Json): (r: Json)
    ensures (forall a :: 0 <= a < |aliases| ==> NoMatch(aliases[a], flat)) ==> r == default
    ensures forall a, j :: FirstAliasHit(flat, aliases, a, j) && IsNumber(flat[j].1) ==> r == JNum(NumberValue(flat[j].1))
    ensures r == default || r.JNum?
  {
    var v := FindValue(flat, aliases, JNull);
    var otherwise := if default.JNull? then JNum(0.0) else default;
    if v.JNull? then default
    else if IsNumber(v) then JNum(NumberValue(v))
    else if v.JStr? then
      match ParseAmount(h, v.s)
      case Some(x) => JNum(x)
      case None => otherwise
    else otherwise
  }

  /** How the fallback fills one box from the flattened reply. */
  function Gather(h: Host, flat: Fields, sp: Spec): (r: Json)
    ensures sp.kind == Text ==> r.JStr?
    ensures sp.kind == Fatca ==> r.JBool?
    ensures sp.kind == Amount ==> r.JNum?
    ensures sp.kind == MaybeAmount ==> r.JNum? || r.JNull?
    ensures sp.kind == Note || sp.kind == StateName ==> r.JStr? || r.JNull?
  {
    match sp.kind
    case Text => JStr(CleanString(h, FindValue(flat, sp.aliases, JStr(""))))
    case Fatca =>
      var v := FindValue(flat, sp.aliases, JBool(false));
      if v.JBool? then v else JBool(false)
    case Amount => FallbackNumber(h, flat, sp.aliases, JNum(0.0))
    case MaybeAmount => FallbackNumber(h, flat, sp.aliases, JNull)
    case _ =>
      var v := FindValue(flat, sp.aliases, JNull);
      if Truthy(v) then JStr(CleanString(h, v)) else JNull
  }

  function GatherAll(h: Host, flat: Fields, specs: seq<Spec>): (r: seq<Json>)
    ensures |r| == |specs| && forall i :: 0 <= i < |specs| ==> r[i] == Gather(h, flat, specs[i])
  {
    seq(|specs|, i requires 0 <= i < |specs| => Gather(h, flat, specs[i]))
  }

  /** What a box holds when none of its aliases is found. */
  function Missing(k: Kind): Json
  {
    match k
    case Text => JStr("")
    case Fatca => JBool(false)
    case Amount => JNum(0.0)
    case _ => JNull
  }

  /** A box whose aliases all miss gets its kind's default. */
  lemma GatherMissing(h: Host, flat: Fields, sp: Spec)
    requires forall a :: 0 <= a < |sp.aliases| ==> NoMatch(sp.aliases[a], flat)
    ensures Gather(h, flat, sp) == Missing(sp.kind)
  {
    CleanEmpty();
  }

  lemma CleanEmpty()
    ensures CleanText("") == ""
  {
    assert RemoveChars("", {'\r'}) == "";
    assert Unbroken("") == "";
  }

  /** The fallback's one statement. */
  function Fallback(h: Host, data: Json): (s: Statement)
    ensures Fits(s)
  {
    var flat := Flat(data);
    Statement(PyStr(h, FindValue(flat, ["year", "tax_year"], JStr("2024"))),
              GatherAll(h, flat, IdentificationSpec), GatherAll(h, flat, FinancialSpec), GatherAll(h, flat, StateSpec))
  }

  // ------------------------------------------------------------ the transform

  /** The statements of a reply that is not an error: re-read forms, else the fallback's one. */
  function Extract(h: Host, raw: Json): (r: Result<seq<Statement>>)
    ensures r.Ok? ==> r.value != [] && forall i :: 0 <= i < |r.value| ==> Fits(r.value[i])
  {
    var passed :- PassThrough(h, Forms(raw));
    if passed != [] then Ok(passed) else Ok([Fallback(h, Unwrap(raw))])
  }

  /** `transform_to_1099int_structure(raw)`; an error where Python would raise. */
  function Transform(h: Host, raw: Json): (r: Result<Json>)
    ensures HasError(Unwrap(raw)) ==> r == Ok(Unwrap(raw))
  {
    var data := Unwrap(raw);
    if HasError(data) then Ok(data)
    else
      var sts :- Extract(h, raw);
      Ok(Document(sts))
  }

  // ------------------------------------------------------------ properties

  lemma IdentificationCodes()
    ensures SpecCodes(IdentificationSpec)
      == ["Payer", "Payer TIN", "Payer Telephone", "Recipient TIN", "Recipient Name", "Account No", "Payer RTN", "FATCA"]
    ensures DistinctSpecCodes(IdentificationSpec)
  {
  }

  /** The financial plane holds boxes 1 to 14, each once: boxes 1 to 9 and 10 to 14 are each distinct. */
  lemma FinancialCodes()
    ensures SpecCodes(FinancialSpec) == ["1", "2", "3", "4", "5", "6", "7", "8", "9", "10", "11", "12", "13", "14"]
    ensures DistinctSpecCodes(FinancialSpec)
  {
    var early := (c: string) => |c| == 1;
    FinancialEarlyDistinct();
    FinancialLateDistinct();
    assert forall i :: 0 <= i < 9 ==> early(FinancialSpec[i].code);
    assert forall i :: 9 <= i < 14 ==> !early(FinancialSpec[i].code);
    DistinctSplit(FinancialSpec, 9, early);
  }

  lemma FinancialEarlyDistinct()
    ensures DistinctSpecCodes(FinancialSpec[..9])
  {
  }

  lemma FinancialLateDistinct()
    ensures DistinctSpecCodes(FinancialSpec[9..])
  {
  }

  /** Two runs of distinct codes that a test on the code tells apart are distinct together. */
  lemma DistinctSplit(specs: seq<Spec>, k: nat, early: string -> bool)
    requires k <= |specs|
    requires DistinctSpecCodes(specs[..k]) && DistinctSpecCodes(specs[k..])
    requires forall i :: 0 <= i < k ==> early(specs[i].code)
    requires forall i :: k <= i < |specs| ==> !early(specs[i].code)
    ensures DistinctSpecCodes(specs)
  {
    forall i, j | 0 <= i < j < |specs| ensures specs[i].code != specs[j].code {
      if j < k {
        assert specs[..k][i] == specs[i] && specs[..k][j] == specs[j];
      } else if k <= i {
        assert specs[k..][i - k] == specs[i] && specs[k..][j - k] == specs[j];
      }
    }
  }

  lemma StateCodes()
    ensures SpecCodes(StateSpec) == ["15", "16", "17"]
    ensures DistinctSpecCodes(StateSpec)
  {
  }

  /** A form of the output read back: three planes, in order, each with every fixed code. */
  predicate FormComplete(form: Json)
  {
    var boxes := PlaneBoxes(form);
    && |boxes| == 3
    && PlaneOf(boxes[0]).0 == "identification_plane"
    && HasCodes(PlaneOf(boxes[0]).1,
                ["Payer", "Payer TIN", "Payer Telephone", "Recipient TIN", "Recipient Name", "Account No", "Payer RTN", "FATCA"])
    && PlaneOf(boxes[1]).0 == "financial_plane"
    && HasCodes(PlaneOf(boxes[1]).1, ["1", "2", "3", "4", "5", "6", "7", "8", "9", "10", "11", "12", "13", "14"])
    && PlaneOf(boxes[2]).0 == "state_local_plane"
    && HasCodes(PlaneOf(boxes[2]).1, ["15", "16", "17"])
  }

  lemma RenderBoxes(s: Statement)
    requires Fits(s)
    ensures PlaneBoxes(Render(s)) == PlanesOf(s)
  {
    FormParts(Header("1099-INT", s.year, "Interest Income", HeaderTexts), PlanesOf(s));
  }

  /** Every statement renders with all three planes and all their codes. */
  lemma RenderComplete(s: Statement)
    requires Fits(s)
    ensures FormComplete(Render(s))
  {
    RenderBoxes(s);
    IdentificationCodes();
    FinancialCodes();
    StateCodes();
    var idRows, finRows, stRows := RowsOf(IdentificationSpec, s.ids), RowsOf(FinancialSpec, s.amounts), RowsOf(StateSpec, s.state);
    EntriesCarryCodes(idRows);
    EntriesCarryCodes(finRows);
    EntriesCarryCodes(stRows);
    PlaneOfSingle("identification_plane", Entries(idRows));
    PlaneOfSingle("financial_plane", Entries(finRows));
    PlaneOfSingle("state_local_plane", Entries(stRows));
  }

  lemma DocumentForms(sts: seq<Statement>)
    requires forall i :: 0 <= i < |sts| ==> Fits(sts[i])
    ensures OutputForms(Document(sts)) == RenderAll(sts)
  {
  }

  /**
   * Schema completeness: whenever the transform returns and the reply was not an error,
   * it returns at least one form, and every form has all three planes with every code.
   */
  lemma OutputComplete(h: Host, raw: Json)
    requires !HasError(Unwrap(raw)) && Transform(h, raw).Ok?
    ensures var forms := OutputForms(Transform(h, raw).value);
      |forms| >= 1 && forall i :: 0 <= i < |forms| ==> FormComplete(forms[i])
  {
    var sts := Extract(h, raw).value;
    DocumentForms(sts);
    forall i | 0 <= i < |sts| ensures FormComplete(RenderAll(sts)[i]) {
      RenderComplete(sts[i]);
    }
  }

  /** A reply with no forms to re-read goes to the fallback, which cannot fail. */
  lemma NoFormsFallsBack(h: Host, raw: Json)
    requires !HasError(Unwrap(raw)) && !Truthy(Forms(raw))
    ensures Transform(h, raw) == Ok(Document([Fallback(h, Unwrap(raw))]))
  {
  }

  /** The defaults of a plane: what every box holds when nothing is found. */
  function Defaults(specs: seq<Spec>): (r: seq<Json>)
    ensures |r| == |specs|
  {
    seq(|specs|, i requires 0 <= i < |specs| => Missing(specs[i].kind))
  }

  lemma GatherAllMissing(h: Host, data: Json, specs: seq<Spec>)
    requires !data.JObj?
    ensures GatherAll(h, Flat(data), specs) == Defaults(specs)
  {
    forall i | 0 <= i < |specs| ensures Gather(h, [], specs[i]) == Missing(specs[i].kind) {
      GatherMissing(h, [], specs[i]);
    }
  }

  /** A reply that is not a dictionary (an empty list, a bare string) yields the all-defaults form for 2024. */
  lemma NonDictionaryGivesDefaults(h: Host, raw: Json)
    requires !Unwrap(raw).JObj?
    ensures Transform(h, raw) == Ok(Document([Statement("2024", Defaults(IdentificationSpec),
                                                       Defaults(FinancialSpec), Defaults(StateSpec))]))
  {
    var data := Unwrap(raw);
    assert Forms(raw) == JNull;
    GatherAllMissing(h, data, IdentificationSpec);
    GatherAllMissing(h, data, FinancialSpec);
    GatherAllMissing(h, data, StateSpec);
  }

  /**
   * The two paths disagree on an unreadable optional amount: re-reading a plane gives
   * null for Box 6, the fallback gives 0.00 for the same text under the key `box_6`.
   */
  lemma UnreadableForeignTax(h: Host, text: string)
    requires ParseAmount(h, text).None? && text != "" && text != "N/A"
    ensures Refine(h, ForeignTax.kind, JStr(text)) == JNull
    ensures Gather(h, [("box_6", JStr(text))], ForeignTax) == JNum(0.0)
  {
    GatherUnreadable(h, ForeignTax, text);
  }

  /** An optional amount under its first alias that does not parse is gathered as 0.00. */
  lemma GatherUnreadable(h: Host, sp: Spec, text: string)
    requires sp.kind == MaybeAmount && |sp.aliases| > 0
    requires ParseAmount(h, text).None? && text != "" && text != "N/A"
    ensures Gather(h, [(sp.aliases[0], JStr(text))], sp) == JNum(0.0)
  {
    var flat := [(sp.aliases[0], JStr(text))];
    ContainsSelf(Lower(sp.aliases[0]));
    assert Matches(sp.aliases[0], flat[0]);
    assert FirstAliasHit(flat, sp.aliases, 0, 0);
    assert FindValue(flat, sp.aliases, JNull) == JStr(text);
  }

  // ------------------------------------------------------------ re-reading its own output

  /** A statement the pass-through path reproduces: every value already clean. */
  predicate Normal(s: Statement)
  {
    && Fits(s)
    && (forall i :: 0 <= i < |IdentificationSpec| ==> Settled(IdentificationSpec[i].kind, s.ids[i]))
    && (forall i :: 0 <= i < |FinancialSpec| ==> Settled(FinancialSpec[i].kind, s.amounts[i]))
    && (forall i :: 0 <= i < |StateSpec| ==> Settled(StateSpec[i].kind, s.state[i]))
  }

  lemma RefineAllSettled(h: Host, specs: seq<Spec>, vals: seq<Json>)
    requires |vals| == |specs| && forall i :: 0 <= i < |specs| ==> Settled(specs[i].kind, vals[i])
    ensures RefineAll(h, specs, vals) == vals
  {
    forall i | 0 <= i < |specs| ensures Refine(h, specs[i].kind, vals[i]) == vals[i] {
      RefineSettled(h, specs[i].kind, vals[i]);
    }
  }

  lemma FindPlanesOfRender(s: Statement)
    requires Fits(s)
    ensures var ps := PlanesOf(s);
      FindPlanes(ps, (JNull, JNull, JNull))
      == Ok((ps[0].fields[0].1, ps[1].fields[0].1, ps[2].fields[0].1))
  {
    var ps := PlanesOf(s);
    FindPlanesOfThree(ps[0].fields[0].1, ps[1].fields[0].1, ps[2].fields[0].1);
  }

  /** The three planes, one per box and in order, are each found. */
  lemma FindPlanesOfThree(a: Json, b: Json, c: Json)
    ensures FindPlanes([JObj([("identification_plane", a)]), JObj([("financial_plane", b)]), JObj([("state_local_plane", c)])],
      (JNull, JNull, JNull)) == Ok((a, b, c))
  {
    var ps := [JObj([("identification_plane", a)]), JObj([("financial_plane", b)]), JObj([("state_local_plane", c)])];
    assert FindPlanes(ps[2..], (a, b, JNull)) == Ok((a, b, c));
    assert FindPlanes(ps[1..], (a, JNull, JNull)) == Ok((a, b, c));
  }


  /** The values of a normal statement's planes, re-read and cleaned, are that statement. */
  lemma RereadRendered(h: Host, s: Statement)
    requires Fits(s) && Normal(s)
    ensures var ps := PlanesOf(s);
      Reread(h, Render(s), ps[0].fields[0].1, ps[1].fields[0].1, ps[2].fields[0].1) == Ok(s)
  {
    var ps := PlanesOf(s);
    var id, fin, st := ps[0].fields[0].1, ps[1].fields[0].1, ps[2].fields[0].1;
    PlanesReadBack(s);
    var header := HeaderYear(s);
    RereadOfParts(h, Render(s), id, fin, st, s.ids, s.amounts, s.state, header, s.year);
    RefineAllSettled(h, IdentificationSpec, s.ids);
    RefineAllSettled(h, FinancialSpec, s.amounts);
    RefineAllSettled(h, StateSpec, s.state);
    var r := Reread(h, Render(s), id, fin, st).value;
    assert r == Statement(r.year, r.ids, r.amounts, r.state);
  }

  lemma PlanesReadBack(s: Statement)
    requires Fits(s)
    ensures var ps := PlanesOf(s);
      && Lookups(ps[0].fields[0].1, SpecCodes(IdentificationSpec)) == Ok(s.ids)
      && Lookups(ps[1].fields[0].1, SpecCodes(FinancialSpec)) == Ok(s.amounts)
      && Truthy(ps[2].fields[0].1) && Lookups(ps[2].fields[0].1, SpecCodes(StateSpec)) == Ok(s.state)
  {
    IdentificationCodes();
    LookupsReadBack(RowsOf(IdentificationSpec, s.ids));
    FinancialCodes();
    LookupsReadBack(RowsOf(FinancialSpec, s.amounts));
    StateCodes();
    LookupsReadBack(RowsOf(StateSpec, s.state));
  }

  lemma HeaderYear(s: Statement) returns (header: Json)
    requires Fits(s)
    ensures PyGet(Render(s), "form_header", JObj([])) == Ok(header)
    ensures PyGet(header, "year", JStr("2024")) == Ok(JStr(s.year))
  {
    header := Header("1099-INT", s.year, "Interest Income", HeaderTexts);
    FormParts(header, PlanesOf(s));
    HeaderParts("1099-INT", s.year, "Interest Income", HeaderTexts);
  }

  lemma RereadOfParts(h: Host, form: Json, id: Json, fin: Json, st: Json,
                      ids: seq<Json>, amounts: seq<Json>, state: seq<Json>, header: Json, year: string)
    requires Lookups(id, SpecCodes(IdentificationSpec)) == Ok(ids) && Lookups(fin, SpecCodes(FinancialSpec)) == Ok(amounts)
    requires Truthy(st) && Lookups(st, SpecCodes(StateSpec)) == Ok(state)
    requires PyGet(form, "form_header", JObj([])) == Ok(header) && PyGet(header, "year", JStr("2024")) == Ok(JStr(year))
    ensures Reread(h, form, id, fin, st).Ok?
    ensures Reread(h, form, id, fin, st).value.year == year
    ensures Reread(h, form, id, fin, st).value.ids == RefineAll(h, IdentificationSpec, ids)
    ensures Reread(h, form, id, fin, st).value.amounts == RefineAll(h, FinancialSpec, amounts)
    ensures Reread(h, form, id, fin, st).value.state == RefineAll(h, StateSpec, state)
  {
  }

  /** A normal statement's form is re-read as that same statement. */
  lemma ProcessRendered(h: Host, s: Statement)
    requires Fits(s) && Normal(s)
    ensures ProcessForm(h, Render(s)) == Ok(Some(s))
  {
    var ps := PlanesOf(s);
    RenderBoxes(s);
    assert PyGet(Render(s), "boxes", JArr([])) == Ok(JArr(ps));
    FindPlanesOfRender(s);
    assert Truthy(ps[0].fields[0].1) && Truthy(ps[1].fields[0].1);
    RereadRendered(h, s);
  }

  /** Forms that each re-read as one statement re-read, together, as those statements in order. */
  lemma ProcessEachAll(h: Host, forms: seq<Json>, sts: seq<Statement>)
    requires |forms| == |sts| && forall i :: 0 <= i < |forms| ==> ProcessForm(h, forms[i]) == Ok(Some(sts[i]))
    ensures ProcessEach(h, forms) == Ok(sts)
  {
    EachSomeAll(form => ProcessForm(h, form), forms, sts);
  }


  lemma ProcessEachRendered(h: Host, sts: seq<Statement>)
    requires forall i :: 0 <= i < |sts| ==> Fits(sts[i]) && Normal(sts[i])
    ensures ProcessEach(h, RenderAll(sts)) == Ok(sts)
  {
    var forms := RenderAll(sts);
    forall i | 0 <= i < |forms| ensures ProcessForm(h, forms[i]) == Ok(Some(sts[i])) {
      ProcessRendered(h, sts[i]);
    }
    ProcessEachAll(h, forms, sts);
  }

  /** Transforming the transform's own output again changes nothing, when its values are already clean. */
  lemma NormalDocumentKept(h: Host, sts: seq<Statement>)
    requires sts != [] && forall i :: 0 <= i < |sts| ==> Fits(sts[i]) && Normal(sts[i])
    ensures Transform(h, Document(sts)) == Ok(Document(sts))
  {
    var doc := Document(sts);
    DocumentFormsFound(sts);
    PassThroughRendered(h, sts);
    assert Extract(h, doc) == Ok(sts);
  }

  /** The output document is not an error report, and its forms are found where they were put. */
  lemma DocumentFormsFound(sts: seq<Statement>)
    requires forall i :: 0 <= i < |sts| ==> Fits(sts[i])
    ensures !HasError(Unwrap(Document(sts)))
    ensures Forms(Document(sts)) == JArr(RenderAll(sts))
  {
    var forms := JArr(RenderAll(sts));
    assert Unwrap(Document(sts)) == JObj([("forms", forms)]);
  }

  /** The pass-through path takes the rendered forms of normal statements back unchanged. */
  lemma PassThroughRendered(h: Host, sts: seq<Statement>)
    requires sts != [] && forall i :: 0 <= i < |sts| ==> Fits(sts[i]) && Normal(sts[i])
    ensures PassThrough(h, JArr(RenderAll(sts))) == Ok(sts)
  {
    var forms := JArr(RenderAll(sts));
    assert Truthy(forms) && PyLen(forms) == Ok(|sts|) && PyIter(forms) == Ok(RenderAll(sts));
    ProcessEachRendered(h, sts);
  }

}
