/**
 * `transform_to_k1_structure`: a Schedule K-1 (Form 1065) reply that already carries
 * `document_metadata` and `partner_records` is re-read partner by partner, box by box,
 * and cleaned into three fixed planes; any other reply is flattened and a single
 * partner with a narrower set of boxes is filled by alias.
 */
module K1Transform {
  import opened Json
  import opened Text
  import opened PyOps
  import opened Flatten
  import opened Boxes
  import opened PlaneRead
  import OcrFallback
  import W2Transform

  // ------------------------------------------------------------ the schema

  /** How a box's value is cleaned on re-reading. */
  datatype Kind =
    | Str    // a cleaned string, "" when missing
    | Check  // a boolean, false unless a boolean or a yes-word was given
    | Money  // a number, 0.00 when missing or unreadable
    | Items  // a list, [] when missing or not a list

  /** One box of a plane: its code, its fixed label, and how it is cleaned. */
  datatype Spec = Spec(code: string, caption: string, kind: Kind)

  const PartISpec: seq<Spec> := [
    Spec("A", "Partnership EIN", Str),
    Spec("B", "Partnership Name/Address", Str),
    Spec("C", "IRS Center", Str),
    Spec("D", "PTP Check", Check)]

  const PartIISpec: seq<Spec> := [
    Spec("E", "Partner's SSN or TIN", Str),
    Spec("F", "Partner's Name/Address", Str),
    Spec("G", "General partner or LLC member-manager", Check),
    Spec("H1", "Domestic partner", Check),
    Spec("H2", "Foreign partner", Check),
    Spec("I1", "Entity Type", Str),
    Spec("J_Profit_Beg", "Profit Share % (Beginning)", Money),
    Spec("J_Profit_End", "Profit Share % (Ending)", Money),
    Spec("K1_Nonrecourse_End", "Nonrecourse (End)", Money),
    Spec("K1_Qualified_End", "Qualified Nonrecourse Financing (End)", Money),
    Spec("K1_Recourse_End", "Recourse (End)", Money),
    Spec("L_Beg_Capital", "Beginning capital account", Money),
    Spec("L_Capital_Contributed", "Capital contributed during year", Money),
    Spec("L_Net_Income", "Current year net income (loss)", Money),
    Spec("L_Other", "Other increase (decrease)", Money),
    Spec("L_Withdrawals", "Withdrawals & distributions", Money),
    Spec("L_Ending_Capital", "Ending capital account", Money),
    Spec("M", "Did the partner contribute property with a built-in gain (loss)?", Check),
    Spec("N_Beg", "Net unrecognized Section 704(c) gain or loss (Beginning)", Money),
    Spec("N_End", "Net unrecognized Section 704(c) gain or loss (Ending)", Money)]

  const PartIIISpec: seq<Spec> := [
    Spec("1", "Ordinary business income (loss)", Money),
    Spec("2", "Net rental real estate income (loss)", Money),
    Spec("3", "Other net rental income (loss)", Money),
    Spec("4a", "Guaranteed payments for services", Money),
    Spec("4b", "Guaranteed payments for capital", Money),
    Spec("4c", "Total guaranteed payments", Money),
    Spec("5", "Interest income", Money),
    Spec("6a", "Ordinary dividends", Money),
    Spec("6b", "Qualified dividends", Money),
    Spec("6c", "Dividend equivalents", Money),
    Spec("7", "Royalties", Money),
    Spec("8", "Net short-term capital gain (loss)", Money),
    Spec("9a", "Net long-term capital gain (loss)", Money),
    Spec("9b", "Collectibles (28%) gain (loss)", Money),
    Spec("9c", "Unrecaptured section 1250 gain", Money),
    Spec("10", "Net section 1231 gain (loss)", Money),
    Spec("11", "Other income (loss)", Items),
    Spec("12", "Section 179 deduction", Money),
    Spec("13", "Other deductions", Items),
    Spec("14", "Self-employment earnings (loss)", Items),
    Spec("15", "Credits", Items),
    Spec("16", "Schedule K-3 attached check", Check),
    Spec("17", "Alternative minimum tax (AMT) items", Items),
    Spec("18", "Tax-exempt income and nondeductible expenses", Items),
    Spec("19", "Distributions", Items),
    Spec("20", "Other information", Items),
    Spec("21", "Foreign taxes paid or accrued", Money),
    Spec("22", "More than one activity for at-risk purposes", Check),
    Spec("23", "More than one activity for passive activity purposes", Check)]

  const FormType: string := "Schedule K-1 (Form 1065)"

  function SpecCodes(specs: seq<Spec>): (cs: seq<string>)
    ensures |cs| == |specs| && forall i :: 0 <= i < |specs| ==> cs[i] == specs[i].code
  {
    seq(|specs|, i requires 0 <= i < |specs| => specs[i].code)
  }

  predicate DistinctSpecCodes(specs: seq<Spec>)
  {
    forall i, j :: 0 <= i < j < |specs| ==> specs[i].code != specs[j].code
  }

  /** The (code, label) pairs of a plane, in order. */
  function Labels(specs: seq<Spec>): (ls: seq<(string, string)>)
    ensures |ls| == |specs| && forall i :: 0 <= i < |specs| ==> ls[i] == (specs[i].code, specs[i].caption)
  {
    seq(|specs|, i requires 0 <= i < |specs| => (specs[i].code, specs[i].caption))
  }

  function RowLabels(rows: seq<Row>): (ls: seq<(string, string)>)
    ensures |ls| == |rows| && forall i :: 0 <= i < |rows| ==> ls[i] == (rows[i].code, rows[i].caption)
  {
    seq(|rows|, i requires 0 <= i < |rows| => (rows[i].code, rows[i].caption))
  }

  function RowsOf(specs: seq<Spec>, vals: seq<Json>): (rows: seq<Row>)
    requires |vals| == |specs|
    ensures |rows| == |specs|
    ensures forall i :: 0 <= i < |specs| ==> rows[i] == Row(specs[i].code, specs[i].caption, vals[i])
    ensures RowLabels(rows) == Labels(specs) && Values(rows) == vals
  {
    seq(|specs|, i requires 0 <= i < |specs| => Row(specs[i].code, specs[i].caption, vals[i]))
  }

  /** One partner record: its name, its page, and the rows of its three planes. */
  datatype Partner = Partner(name: Json, page: Json, partI: seq<Row>, partII: seq<Row>, partIII: seq<Row>)

  /** The document metadata: the form type and names are kept as Json because the fallback copies them raw. */
  datatype Metadata = Metadata(formType: Json, year: string, name: Json, ein: Json)

  /** The boxes of the three planes a partner record is read against. */
  datatype Schema = Schema(partI: seq<Spec>, partII: seq<Spec>, partIII: seq<Spec>)

  const FullSchema: Schema := Schema(PartISpec, PartIISpec, PartIIISpec)

  /** Every plane of a partner has exactly the boxes of the schema, in order, with their labels. */
  predicate Laid(p: Partner, s: Schema)
  {
    && RowLabels(p.partI) == Labels(s.partI)
    && RowLabels(p.partII) == Labels(s.partII)
    && RowLabels(p.partIII) == Labels(s.partIII)
  }

  function PartnerJson(p: Partner): Json
  {
    JObj([("partner_name", p.name), ("page_reference", p.page),
          ("part_i_partnership_plane", JArr(Entries(p.partI))),
          ("part_ii_partner_plane", JArr(Entries(p.partII))),
          ("part_iii_income_loss_plane", JArr(Entries(p.partIII)))])
  }

  function PartnersJson(ps: seq<Partner>): (js: seq<Json>)
    ensures |js| == |ps| && forall i :: 0 <= i < |ps| ==> js[i] == PartnerJson(ps[i])
  {
    seq(|ps|, i requires 0 <= i < |ps| => PartnerJson(ps[i]))
  }

  function MetaJson(m: Metadata): Json
  {
    JObj([("form_type", m.formType), ("tax_year", JStr(m.year)),
          ("partnership_name", m.name), ("partnership_ein", m.ein)])
  }

  /** `[{"document_metadata": ..., "partner_records": [...]}]`. */
  function Document(m: Metadata, ps: seq<Partner>): Json
  {
    JArr([JObj([("document_metadata", MetaJson(m)), ("partner_records", JArr(PartnersJson(ps)))])])
  }

  // ------------------------------------------------------------ cleaning

  /** Text that cleaning leaves alone: no line breaks and no surrounding whitespace. */
  predicate Tidy(s: string)
  {
    '\n' !in s && '\r' !in s && (s == [] || (!IsSpace(s[0]) && !IsSpace(s[|s| - 1])))
  }

  /** `s.replace("\n", ", ").replace("\r", "").strip()`; unlike the 1099-INT cleaning, no '*' is removed. */
  function CleanText(s: string): (r: string)
    ensures Tidy(r)
  {
    var a := ReplaceBy(s, '\n', ", ");
    var b := RemoveChars(a, {'\r'});
    RemoveCharsKeeps(a, {'\r'}, '\n');
    StripKeepsAbsent(b, '\n');
    StripKeepsAbsent(b, '\r');
    Strip(b)
  }

  lemma CleanTextKeepsTidy(s: string)
    requires Tidy(s)
    ensures CleanText(s) == s
  {
    assert ReplaceBy(s, '\n', ", ") == s;
    RemoveCharsAbsent(s, {'\r'});
    if s != [] {
      StripKeeps(s);
    }
  }

  /** Cleaning twice is cleaning once. */
  lemma CleanTextIdempotent(s: string)
    ensures CleanText(CleanText(s)) == CleanText(s)
  {
    CleanTextKeepsTidy(CleanText(s));
  }

  /** `clean_string(v)`: null is "", a string is cleaned, anything else printed. */
  function CleanString(h: Host, v: Json): (r: string)
    ensures v.JNull? ==> r == ""
    ensures v.JStr? ==> Tidy(r) && (Tidy(v.s) ==> r == v.s)
    ensures !v.JNull? && !v.JStr? ==> r == PyStr(h, v)
  {
    match v
    case JNull => ""
    case JStr(s) =>
      (if Tidy(s) then CleanTextKeepsTidy(s); CleanText(s) else CleanText(s))
    case _ => PyStr(h, v)
  }

  /** `float(s.replace("$", "").replace(",", "").replace("(", "-").replace(")", "").strip())`. */
  function SignedAmount(h: Host, s: string): Option<real>
  {
    h.parseFloat(Strip(OcrFallback.K1Clean(s)))
  }

  /** `clean_number(v, default)`. */
  function CleanNumber(h: Host, v: Json, default: real): (r: real)
    ensures v.JNull? ==> r == default
    ensures IsNumber(v) ==> r == NumberValue(v)
    ensures v.JStr? && SignedAmount(h, v.s).None? ==> r == default
    ensures !v.JNull? && !IsNumber(v) && !v.JStr? ==> r == default
  {
    if v.JNull? then default
    else if IsNumber(v) then NumberValue(v)
    else if v.JStr? then SignedAmount(h, v.s).GetOr(default)
    else default
  }

  /** An amount in accounting parentheses is read as the negative amount. */
  lemma ParenthesisedIsNegative(h: Host, digits: string, default: real)
    requires OcrFallback.AllDigits(digits)
    ensures CleanNumber(h, JStr("(" + digits + ")"), default) == h.parseFloat("-" + digits).GetOr(default)
  {
    OcrFallback.K1CleanParenthesised(digits);
    var m := "-" + digits;
    assert m[0] == '-' && (m[|m| - 1] == '-' || IsDigit(m[|m| - 1]));
    StripKeeps(m);
  }

  /** `clean_bool(v)`. */
  function CleanBool(v: Json): (r: bool)
    ensures v.JBool? ==> r == v.b
    ensures v.JStr? ==> (r <==> Lower(v.s) in W2Transform.TrueWords)
    ensures !v.JBool? && !v.JStr? ==> !r
  {
    W2Transform.Checked(v, false)
  }

  /** `clean_array(v)`: a list is kept, anything else is the empty list. */
  function CleanArray(v: Json): (r: seq<Json>)
    ensures v.JArr? ==> r == v.items
    ensures !v.JArr? ==> r == []
  {
    if v.JArr? then v.items else []
  }

  /** How a value read from a plane is cleaned. */
  function Refine(h: Host, k: Kind, v: Json): (r: Json)
    ensures k == Str ==> r.JStr? && (v.JNull? ==> r == JStr("")) && (v.JStr? ==> Tidy(r.s))
    ensures k == Check ==> r.JBool? && (v.JBool? ==> r == v) && (!v.JBool? && !v.JStr? ==> r == JBool(false))
    ensures k == Money ==> r.JNum? && (v.JNull? ==> r == JNum(0.0)) && (v.JNum? ==> r == v)
    ensures k == Items ==> r.JArr? && (v.JArr? ==> r == v) && (!v.JArr? ==> r == JArr([]))
  {
    match k
    case Str => JStr(CleanString(h, v))
    case Check => JBool(CleanBool(v))
    case Money => JNum(CleanNumber(h, v, 0.0))
    case Items => JArr(CleanArray(v))
  }

  /** Values re-reading reproduces unchanged. */
  predicate Settled(k: Kind, v: Json)
  {
    match k
    case Str => v.JStr? && Tidy(v.s)
    case Check => v.JBool?
    case Money => v.JNum?
    case Items => v.JArr?
  }

  /** Cleaning keeps a settled value and settles any string, number, boolean or list. */
  lemma RefineSettled(h: Host, k: Kind, v: Json)
    ensures Settled(k, v) ==> Refine(h, k, v) == v
    ensures k != Str || v.JStr? || v.JNull? ==> Settled(k, Refine(h, k, v))
  {
  }

  function RefineAll(h: Host, specs: seq<Spec>, vals: seq<Json>): (r: seq<Json>)
    requires |vals| == |specs|
    ensures |r| == |specs| && forall i :: 0 <= i < |specs| ==> r[i] == Refine(h, specs[i].kind, vals[i])
  {
    seq(|specs|, i requires 0 <= i < |specs| => Refine(h, specs[i].kind, vals[i]))
  }

  // ------------------------------------------------------------ the pass-through path

  /** `get_plane_value(plane, code)` for every code of a plane; a falsy plane reads null everywhere. */
  function PlaneValues(plane: Json, specs: seq<Spec>): (r: Result<seq<Json>>)
    ensures r.Ok? ==> |r.value| == |specs|
    ensures !Truthy(plane) ==> r.Ok? && forall i :: 0 <= i < |specs| ==> r.value[i] == JNull
    ensures Truthy(plane) && r.Ok? ==> forall i :: 0 <= i < |specs| ==> GetPlaneValue(plane, specs[i].code) == Ok(r.value[i])
  {
    if !Truthy(plane) then Ok(seq(|specs|, i => JNull)) else Lookups(plane, SpecCodes(specs))
  }

  /** The page a partner is given when it names none: `idx + 1`. */
  function PageNumber(idx: nat): Json
  {
    JNum((idx + 1) as real)
  }

  /**
   * One element of `partner_records`, at position `idx`, read against the schema `s`
   * (the program always uses the full schema); only a dictionary has `get`.
   */
  function RereadPartner(h: Host, s: Schema, partner: Json, idx: nat): (r: Result<Partner>)
    ensures r.Ok? <==> (partner.JObj? && PlaneValues(Field(partner, "part_i_partnership_plane", JArr([])), s.partI).Ok?
                        && PlaneValues(Field(partner, "part_ii_partner_plane", JArr([])), s.partII).Ok?
                        && PlaneValues(Field(partner, "part_iii_income_loss_plane", JArr([])), s.partIII).Ok?)
    ensures !partner.JObj? ==> r == Err(AttributeError)
    ensures r.Ok? ==> Laid(r.value, s) && r.value.name.JStr?
    ensures r.Ok? ==> r.value.page == Get(partner, "page_reference").GetOr(PageNumber(idx))
  {
    if !partner.JObj? then Err(AttributeError)
    else
      var v1 :- PlaneValues(Field(partner, "part_i_partnership_plane", JArr([])), s.partI);
      var v2 :- PlaneValues(Field(partner, "part_ii_partner_plane", JArr([])), s.partII);
      var v3 :- PlaneValues(Field(partner, "part_iii_income_loss_plane", JArr([])), s.partIII);
      Ok(Partner(JStr(CleanString(h, Field(partner, "partner_name", JStr("")))),
                 Field(partner, "page_reference", PageNumber(idx)),
                 RowsOf(s.partI, RefineAll(h, s.partI, v1)),
                 RowsOf(s.partII, RefineAll(h, s.partII, v2)),
                 RowsOf(s.partIII, RefineAll(h, s.partIII, v3))))
  }

  /** `for idx, partner in enumerate(records)`, numbering from `start`; the first error stops the loop. */
  function RereadAll(h: Host, s: Schema, items: seq<Json>, start: nat): (r: Result<seq<Partner>>)
    ensures r.Ok? ==> |r.value| == |items|
    ensures r.Ok? ==> forall i :: 0 <= i < |items| ==> RereadPartner(h, s, items[i], start + i) == Ok(r.value[i])
    ensures (forall i :: 0 <= i < |items| ==> RereadPartner(h, s, items[i], start + i).Ok?) ==> r.Ok?
  {
    Enumerate(Reread(h, s), items, start)
  }

  /** `RereadPartner` against the schema `s`, as the function the loop applies. */
  function Reread(h: Host, s: Schema): (f: (Json, nat) -> Result<Partner>)
    ensures forall partner, idx :: f(partner, idx) == RereadPartner(h, s, partner, idx)
  {
    (partner: Json, idx: nat) => RereadPartner(h, s, partner, idx)
  }

  /** The metadata of the pass-through result; only a dictionary has `get`. */
  function RereadMeta(h: Host, meta: Json): (r: Result<Metadata>)
    ensures r.Ok? <==> meta.JObj?
    ensures r.Ok? ==> r.value.name.JStr? && r.value.ein.JStr?
    ensures r.Ok? && !ObjHas(meta, "form_type") ==> r.value.formType == JStr(FormType)
    ensures r.Ok? && !ObjHas(meta, "tax_year") ==> r.value.year == "2024"
  {
    if !meta.JObj? then Err(AttributeError)
    else
      Ok(Metadata(Field(meta, "form_type", JStr(FormType)), PyStr(h, Field(meta, "tax_year", JStr("2024"))),
                  JStr(CleanString(h, Field(meta, "partnership_name", JStr("")))),
                  JStr(CleanString(h, Field(meta, "partnership_ein", JStr(""))))))
  }

  /** `raw.get("document_metadata") if isinstance(raw, dict) else None`. */
  function MetadataOf(data: Json): Json
  {
    if data.JObj? then GetOrNull(data, "document_metadata") else JNull
  }

  /** `raw.get("partner_records", []) if isinstance(raw, dict) else []`. */
  function RecordsOf(data: Json): Json
  {
    if data.JObj? then Get(data, "partner_records").GetOr(JArr([])) else JArr([])
  }

  /** Both the metadata and the partner records are present and truthy. */
  predicate Structured(data: Json)
  {
    Truthy(MetadataOf(data)) && Truthy(RecordsOf(data))
  }

  /** Every partner first, then the metadata, as the program evaluates them. */
  function PassThrough(h: Host, s: Schema, data: Json): (r: Result<(Metadata, seq<Partner>)>)
    requires Structured(data)
    ensures r.Ok? ==> PyIter(RecordsOf(data)).Ok? && |r.value.1| == |PyIter(RecordsOf(data)).value| > 0
    ensures r.Ok? ==> forall i :: 0 <= i < |r.value.1| ==> Laid(r.value.1[i], s)
    ensures r.Ok? ==> forall i :: 0 <= i < |r.value.1| ==>
      r.value.1[i].page == Get(PyIter(RecordsOf(data)).value[i], "page_reference").GetOr(PageNumber(i))
  {
    var items :- PyIter(RecordsOf(data));
    var ps :- RereadAll(h, s, items, 0);
    var m :- RereadMeta(h, MetadataOf(data));
    Ok((m, ps))
  }

  // ------------------------------------------------------------ the fallback path

  /** Where the fallback takes a box's value from. */
  datatype Source =
    | Found(aliases: seq<string>)    // `find_value(aliases, "")`, copied raw
    | Counted(aliases: seq<string>)  // `find_number(aliases)`
    | Fixed(value: Json)             // a constant

  /** One box of the fallback's narrower schema. */
  datatype Slot = Slot(code: string, caption: string, source: Source)

  const EinAliases: seq<string> := ["partnership_ein", "ein"]
  const PartnershipAliases: seq<string> := ["partnership_name", "partnership"]
  const PartnerAliases: seq<string> := ["partner_name", "partner"]

  const FallbackPartI: seq<Slot> := [
    Slot("A", "Partnership EIN", Found(EinAliases)),
    Slot("B", "Partnership Name/Address", Found(PartnershipAliases)),
    Slot("C", "IRS Center", Found(["irs_center"])),
    Slot("D", "PTP Check", Fixed(JBool(false)))]

  const FallbackPartII: seq<Slot> := [
    Slot("E", "Partner's SSN or TIN", Found(["partner_tin", "partner_ssn", "tin"])),
    Slot("F", "Partner's Name/Address", Found(PartnerAliases)),
    Slot("G", "General partner or LLC member-manager", Fixed(JBool(false))),
    Slot("H1", "Domestic partner", Fixed(JBool(false))),
    Slot("H2", "Foreign partner", Fixed(JBool(false))),
    Slot("I1", "Entity Type", Found(["entity_type"])),
    Slot("J_Profit_Beg", "Profit Share % (Beginning)", Counted(["profit_share", "j_profit"])),
    Slot("L_Beg_Capital", "Beginning capital account", Counted(["beg_capital", "beginning_capital"])),
    Slot("L_Net_Income", "Current year net income (loss)", Counted(["net_income", "l_net"])),
    Slot("L_Ending_Capital", "Ending capital account", Counted(["ending_capital", "end_capital"])),
    Slot("M", "Did the partner contribute property with a built-in gain (loss)?", Fixed(JBool(false))),
    Slot("N_Beg", "Net unrecognized Section 704(c) gain or loss (Beginning)", Fixed(JNum(0.0))),
    Slot("N_End", "Net unrecognized Section 704(c) gain or loss (Ending)", Fixed(JNum(0.0)))]

  const FallbackPartIII: seq<Slot> := [
    Slot("1", "Ordinary business income (loss)", Counted(["box_1", "ordinary_business"])),
    Slot("5", "Interest income", Counted(["box_5", "interest_income"])),
    Slot("6a", "Ordinary dividends", Counted(["box_6a", "ordinary_dividends"])),
    Slot("8", "Net short-term capital gain (loss)", Counted(["box_8", "short_term"])),
    Slot("9a", "Net long-term capital gain (loss)", Counted(["box_9a", "long_term"])),
    Slot("13", "Other deductions", Fixed(JArr([]))),
    Slot("14", "Self-employment earnings (loss)", Fixed(JArr([]))),
    Slot("16", "Schedule K-3 attached check", Fixed(JBool(false))),
    Slot("21", "Foreign taxes paid or accrued", Fixed(JNum(0.0))),
    Slot("22", "More than one activity for at-risk purposes", Fixed(JBool(false))),
    Slot("23", "More than one activity for passive activity purposes", Fixed(JBool(false)))]

  /** The fallback's boxes, plane by plane. */
  datatype Fill = Fill(partI: seq<Slot>, partII: seq<Slot>, partIII: seq<Slot>)

  const FallbackFill: Fill := Fill(FallbackPartI, FallbackPartII, FallbackPartIII)

  /** The boxes the pass-through path reads records against, and those the fallback fills. */
  datatype Layout = Layout(full: Schema, fallback: Fill)

  const K1Layout: Layout := Layout(FullSchema, FallbackFill)

  function SlotLabels(slots: seq<Slot>): (ls: seq<(string, string)>)
    ensures |ls| == |slots| && forall i :: 0 <= i < |slots| ==> ls[i] == (slots[i].code, slots[i].caption)
  {
    seq(|slots|, i requires 0 <= i < |slots| => (slots[i].code, slots[i].caption))
  }

  /** `find_number(aliases)`: the first usable value found, cleaned as a number, else 0.00. */
  function FallbackNumber(h: Host, flat: Fields, aliases: seq<string>): (r: real)
    ensures (forall a :: 0 <= a < |aliases| ==> NoMatch(aliases[a], flat)) ==> r == 0.0
    ensures forall a, j :: FirstAliasHit(flat, aliases, a, j) ==> r == CleanNumber(h, flat[j].1, 0.0)
  {
    CleanNumber(h, FindValue(flat, aliases, JNull), 0.0)
  }

  function Filled(h: Host, flat: Fields, src: Source): Json
  {
    match src
    case Found(aliases) => FindValue(flat, aliases, JStr(""))
    case Counted(aliases) => JNum(FallbackNumber(h, flat, aliases))
    case Fixed(v) => v
  }

  function FillAll(h: Host, flat: Fields, slots: seq<Slot>): (rows: seq<Row>)
    ensures |rows| == |slots| && RowLabels(rows) == SlotLabels(slots)
    ensures forall i :: 0 <= i < |slots| ==> rows[i].value == Filled(h, flat, slots[i].source)
  {
    seq(|slots|, i requires 0 <= i < |slots| => Row(slots[i].code, slots[i].caption, Filled(h, flat, slots[i].source)))
  }

  /** The fallback's metadata: only the year is printed; names are copied raw. */
  function FallbackMeta(h: Host, flat: Fields): Metadata
  {
    Metadata(JStr(FormType), PyStr(h, FindValue(flat, ["year", "tax_year"], JStr("2024"))),
             FindValue(flat, PartnershipAliases, JStr("")), FindValue(flat, EinAliases, JStr("")))
  }

  /** The fallback's one partner, on page 1. */
  function FallbackPartner(h: Host, f: Fill, flat: Fields): (p: Partner)
    ensures RowLabels(p.partI) == SlotLabels(f.partI)
    ensures RowLabels(p.partII) == SlotLabels(f.partII)
    ensures RowLabels(p.partIII) == SlotLabels(f.partIII)
    ensures p.page == JNum(1.0)
  {
    Partner(FindValue(flat, PartnerAliases, JStr("")), JNum(1.0), FillAll(h, flat, f.partI),
            FillAll(h, flat, f.partII), FillAll(h, flat, f.partIII))
  }

  function Fallback(h: Host, f: Fill, data: Json): (r: (Metadata, seq<Partner>))
    ensures r.0.formType == JStr(FormType)
    ensures (forall a :: 0 <= a < 2 ==> NoMatch(["year", "tax_year"][a], Flat(data))) ==> r.0.year == "2024"
    ensures |r.1| == 1 && r.1[0].page == JNum(1.0)
    ensures RowLabels(r.1[0].partI) == SlotLabels(f.partI)
    ensures RowLabels(r.1[0].partII) == SlotLabels(f.partII)
    ensures RowLabels(r.1[0].partIII) == SlotLabels(f.partIII)
  {
    var flat := Flat(data);
    (FallbackMeta(h, flat), [FallbackPartner(h, f, flat)])
  }

  // ------------------------------------------------------------ the transform

  /** The metadata and partners of a reply that is not an error. */
  function Extract(h: Host, l: Layout, data: Json): (r: Result<(Metadata, seq<Partner>)>)
    ensures !Structured(data) ==> r == Ok(Fallback(h, l.fallback, data))
    ensures r.Ok? ==> r.value.1 != []
    ensures Structured(data) && r.Ok? ==> forall i :: 0 <= i < |r.value.1| ==> Laid(r.value.1[i], l.full)
  {
    if Structured(data) then PassThrough(h, l.full, data) else Ok(Fallback(h, l.fallback, data))
  }

  /** The transform with the tables of layout `l`. */
  function TransformWith(h: Host, l: Layout, raw: Json): (r: Result<Json>)
    ensures HasError(Unwrap(raw)) ==> r == Ok(Unwrap(raw))
    ensures !HasError(Unwrap(raw)) && !Structured(Unwrap(raw)) ==> r.Ok?
    ensures !HasError(Unwrap(raw)) && r.Ok? ==> exists m, ps :: r.value == Document(m, ps) && ps != []
  {
    var data := Unwrap(raw);
    if HasError(data) then Ok(data)
    else
      var e :- Extract(h, l, data);
      Ok(Document(e.0, e.1))
  }

  /** `transform_to_k1_structure(raw)`; an error where Python would raise. */
  function Transform(h: Host, raw: Json): (r: Result<Json>)
    ensures HasError(Unwrap(raw)) ==> r == Ok(Unwrap(raw))
    ensures !HasError(Unwrap(raw)) && !Structured(Unwrap(raw)) ==> r.Ok?
    ensures !HasError(Unwrap(raw)) && r.Ok? ==> exists m, ps :: r.value == Document(m, ps) && ps != []
  {
    TransformWith(h, K1Layout, raw)
  }

  // ------------------------------------------------------------ properties

  lemma PartICodes()
    ensures SpecCodes(PartISpec) == ["A", "B", "C", "D"]
    ensures DistinctSpecCodes(PartISpec)
  {
  }

  const PartIICodeList: seq<string> := ["E", "F", "G", "H1", "H2", "I1", "J_Profit_Beg", "J_Profit_End",
    "K1_Nonrecourse_End", "K1_Qualified_End", "K1_Recourse_End", "L_Beg_Capital", "L_Capital_Contributed",
    "L_Net_Income", "L_Other", "L_Withdrawals", "L_Ending_Capital", "M", "N_Beg", "N_End"]

  const PartIIICodeList: seq<string> := ["1", "2", "3", "4a", "4b", "4c", "5", "6a", "6b", "6c", "7", "8", "9a",
    "9b", "9c", "10", "11", "12", "13", "14", "15", "16", "17", "18", "19", "20", "21", "22", "23"]

  lemma PartIICodes()
    ensures SpecCodes(PartIISpec) == PartIICodeList
  {
  }

  lemma PartIIICodes()
    ensures SpecCodes(PartIIISpec) == PartIIICodeList
  {
  }

  predicate DistinctStrings(cs: seq<string>)
  {
    forall i, j :: 0 <= i < j < |cs| ==> cs[i] != cs[j]
  }

  /** Codes that do not repeat as strings do not repeat as boxes. */
  lemma CodesDistinct(specs: seq<Spec>)
    requires DistinctStrings(SpecCodes(specs))
    ensures DistinctSpecCodes(specs)
  {
    forall i, j | 0 <= i < j < |specs| ensures specs[i].code != specs[j].code {
      assert SpecCodes(specs)[i] != SpecCodes(specs)[j];
    }
  }

  /** Two runs of distinct strings that a test tells apart are distinct together. */
  lemma DistinctSplit(cs: seq<string>, k: nat, early: string -> bool)
    requires k <= |cs|
    requires DistinctStrings(cs[..k]) && DistinctStrings(cs[k..])
    requires forall i :: 0 <= i < k ==> early(cs[i])
    requires forall i :: k <= i < |cs| ==> !early(cs[i])
    ensures DistinctStrings(cs)
  {
    forall i, j | 0 <= i < j < |cs| ensures cs[i] != cs[j] {
      if j < k {
        assert cs[..k][i] == cs[i] && cs[..k][j] == cs[j];
      } else if k <= i {
        assert cs[k..][i - k] == cs[i] && cs[k..][j - k] == cs[j];
      }
    }
  }

  /** No code of Part II repeats: the codes before "L" and from "L" on are each distinct. */
  lemma PartIIDistinct()
    ensures DistinctSpecCodes(PartIISpec)
  {
    var early := (c: string) => c != [] && c[0] < 'L';
    PartIIEarlyDistinct();
    PartIILateDistinct();
    assert forall i :: 0 <= i < 11 ==> early(PartIICodeList[i]);
    assert forall i :: 11 <= i < |PartIICodeList| ==> !early(PartIICodeList[i]);
    DistinctSplit(PartIICodeList, 11, early);
    PartIICodes();
    CodesDistinct(PartIISpec);
  }

  lemma PartIIEarlyDistinct()
    ensures DistinctStrings(PartIICodeList[..11])
  {
  }

  lemma PartIILateDistinct()
    ensures DistinctStrings(PartIICodeList[11..])
  {
  }

  /** No code of Part III repeats: boxes 1 to 9c and boxes 10 to 23 are each distinct. */
  lemma PartIIIDistinct()
    ensures DistinctSpecCodes(PartIIISpec)
  {
    var early := (c: string) => |c| == 1 || (|c| == 2 && !('0' <= c[1] <= '9'));
    PartIIIEarlyDistinct();
    PartIIILateDistinct();
    assert forall i :: 0 <= i < 15 ==> early(PartIIICodeList[i]);
    assert forall i :: 15 <= i < |PartIIICodeList| ==> !early(PartIIICodeList[i]);
    DistinctSplit(PartIIICodeList, 15, early);
    PartIIICodes();
    CodesDistinct(PartIIISpec);
  }

  lemma PartIIIEarlyDistinct()
    ensures DistinctStrings(PartIIICodeList[..15])
  {
  }

  lemma PartIIILateDistinct()
    ensures DistinctStrings(PartIIICodeList[15..])
  {
  }

  /** Where each fallback box sits in the full schema. */
  const FallbackPartIIAt: seq<nat> := [0, 1, 2, 3, 4, 5, 6, 11, 13, 16, 17, 18, 19]
  const FallbackPartIIIAt: seq<nat> := [0, 6, 7, 11, 12, 18, 19, 21, 26, 27, 28]

  /** Boxes of the fallback are those of the full schema, in the same order, under the same codes and labels. */
  predicate Embeds(slots: seq<Slot>, specs: seq<Spec>, at: seq<nat>)
  {
    && |at| == |slots|
    && (forall i :: 0 <= i < |at| ==> at[i] < |specs| && SlotLabels(slots)[i] == Labels(specs)[at[i]])
    && (forall i :: 0 <= i < |at| - 1 ==> at[i] < at[i + 1])
  }

  /** An embedding checked in two runs of boxes. */
  lemma EmbedsInTwo(slots: seq<Slot>, specs: seq<Spec>, at: seq<nat>, k: nat)
    requires |at| == |slots| && k <= |at|
    requires forall i :: 0 <= i < k ==> at[i] < |specs| && SlotLabels(slots)[i] == Labels(specs)[at[i]]
    requires forall i :: k <= i < |at| ==> at[i] < |specs| && SlotLabels(slots)[i] == Labels(specs)[at[i]]
    requires forall i :: 0 <= i < |at| - 1 ==> at[i] < at[i + 1]
    ensures Embeds(slots, specs, at)
  {
  }

  /** The fallback fills all of Part I, thirteen boxes of Part II and eleven of Part III. */
  lemma FallbackLabelsAgree()
    ensures Embeds(FallbackPartI, PartISpec, [0, 1, 2, 3])
    ensures Embeds(FallbackPartII, PartIISpec, FallbackPartIIAt)
    ensures Embeds(FallbackPartIII, PartIIISpec, FallbackPartIIIAt)
  {
    FallbackPartIEmbeds();
    FallbackPartIIEmbeds();
    FallbackPartIIIEmbeds();
  }

  lemma FallbackPartIEmbeds()
    ensures Embeds(FallbackPartI, PartISpec, [0, 1, 2, 3])
  {
  }

  lemma FallbackPartIIEmbeds()
    ensures Embeds(FallbackPartII, PartIISpec, FallbackPartIIAt)
  {
    FallbackPartIIHead();
    FallbackPartIITail();
    EmbedsInTwo(FallbackPartII, PartIISpec, FallbackPartIIAt, 7);
  }

  lemma FallbackPartIIHead()
    ensures forall i :: 0 <= i < 7 ==> FallbackPartIIAt[i] < |PartIISpec| && SlotLabels(FallbackPartII)[i] == Labels(PartIISpec)[FallbackPartIIAt[i]]
  {
  }

  lemma FallbackPartIITail()
    ensures forall i :: 7 <= i < 13 ==> FallbackPartIIAt[i] < |PartIISpec| && SlotLabels(FallbackPartII)[i] == Labels(PartIISpec)[FallbackPartIIAt[i]]
  {
  }

  lemma FallbackPartIIIEmbeds()
    ensures Embeds(FallbackPartIII, PartIIISpec, FallbackPartIIIAt)
  {
    FallbackPartIIIHead();
    FallbackPartIIITail();
    EmbedsInTwo(FallbackPartIII, PartIIISpec, FallbackPartIIIAt, 6);
  }

  lemma FallbackPartIIIHead()
    ensures forall i :: 0 <= i < 6 ==> FallbackPartIIIAt[i] < |PartIIISpec| && SlotLabels(FallbackPartIII)[i] == Labels(PartIIISpec)[FallbackPartIIIAt[i]]
  {
  }

  lemma FallbackPartIIITail()
    ensures forall i :: 6 <= i < 11 ==> FallbackPartIIIAt[i] < |PartIIISpec| && SlotLabels(FallbackPartIII)[i] == Labels(PartIIISpec)[FallbackPartIIIAt[i]]
  {
  }

  // ------------------------------------------------------------ the fallback's defaults

  /** What a fallback box holds when none of its aliases is found. */
  function Unfound(src: Source): Json
  {
    match src
    case Found(_) => JStr("")
    case Counted(_) => JNum(0.0)
    case Fixed(v) => v
  }

  function DefaultRows(slots: seq<Slot>): (rows: seq<Row>)
    ensures |rows| == |slots|
  {
    seq(|slots|, i requires 0 <= i < |slots| => Row(slots[i].code, slots[i].caption, Unfound(slots[i].source)))
  }

  const DefaultMeta: Metadata := Metadata(JStr(FormType), "2024", JStr(""), JStr(""))

  /** The fallback's partner when nothing is found: page 1 and every box at its default. */
  function DefaultPartner(f: Fill): Partner
  {
    Partner(JStr(""), JNum(1.0), DefaultRows(f.partI), DefaultRows(f.partII), DefaultRows(f.partIII))
  }

  lemma FillAllEmpty(h: Host, slots: seq<Slot>)
    ensures FillAll(h, [], slots) == DefaultRows(slots)
  {
    forall i | 0 <= i < |slots| ensures FillAll(h, [], slots)[i] == DefaultRows(slots)[i] {
      assert Filled(h, [], slots[i].source) == Unfound(slots[i].source);
    }
  }

  /** A reply that is not a dictionary (an empty list, a bare string) yields the all-defaults partner for 2024. */
  lemma NonDictionaryDefaults(h: Host, l: Layout, raw: Json)
    requires !Unwrap(raw).JObj?
    ensures TransformWith(h, l, raw) == Ok(Document(DefaultMeta, [DefaultPartner(l.fallback)]))
  {
    var data := Unwrap(raw);
    assert !Structured(data);
    FillAllEmpty(h, l.fallback.partI);
    FillAllEmpty(h, l.fallback.partII);
    FillAllEmpty(h, l.fallback.partIII);
    assert FallbackMeta(h, []) == DefaultMeta;
  }

  lemma NonDictionaryGivesDefaults(h: Host, raw: Json)
    requires !Unwrap(raw).JObj?
    ensures Transform(h, raw) == Ok(Document(DefaultMeta, [DefaultPartner(FallbackFill)]))
  {
    NonDictionaryDefaults(h, K1Layout, raw);
  }

  // ------------------------------------------------------------ re-reading its own output

  predicate SettledRows(rows: seq<Row>, specs: seq<Spec>)
  {
    |rows| == |specs| && forall i :: 0 <= i < |specs| ==> Settled(specs[i].kind, rows[i].value)
  }

  /** A partner re-reading against `s` reproduces: laid out as `s`, every value already clean. */
  predicate NormalIn(p: Partner, s: Schema)
  {
    && Laid(p, s) && p.name.JStr? && Tidy(p.name.s)
    && SettledRows(p.partI, s.partI) && SettledRows(p.partII, s.partII) && SettledRows(p.partIII, s.partIII)
  }

  predicate NormalMeta(m: Metadata)
  {
    m.name.JStr? && Tidy(m.name.s) && m.ein.JStr? && Tidy(m.ein.s)
  }

  /** A schema whose planes are non-empty and whose codes do not repeat within a plane. */
  predicate Readable(s: Schema)
  {
    && s.partI != [] && s.partII != [] && s.partIII != []
    && DistinctSpecCodes(s.partI) && DistinctSpecCodes(s.partII) && DistinctSpecCodes(s.partIII)
  }

  lemma FullSchemaReadable()
    ensures Readable(FullSchema)
  {
    PartICodes();
    PartIIDistinct();
    PartIIIDistinct();
  }

  /** Rows laid out as a plane are that plane's rows with their own values. */
  lemma RowsOfLaid(rows: seq<Row>, specs: seq<Spec>)
    requires RowLabels(rows) == Labels(specs)
    ensures RowsOf(specs, Values(rows)) == rows
  {
    forall i | 0 <= i < |specs| ensures RowsOf(specs, Values(rows))[i] == rows[i] {
      assert RowLabels(rows)[i] == Labels(specs)[i];
    }
  }

  lemma RefineAllSettled(h: Host, specs: seq<Spec>, vals: seq<Json>)
    requires |vals| == |specs| && forall i :: 0 <= i < |specs| ==> Settled(specs[i].kind, vals[i])
    ensures RefineAll(h, specs, vals) == vals
  {
    forall i | 0 <= i < |specs| ensures Refine(h, specs[i].kind, vals[i]) == vals[i] {
      RefineSettled(h, specs[i].kind, vals[i]);
    }
  }

  /** A written plane whose labels match its specs is read back value for value. */
  lemma PlaneReadsBack(rows: seq<Row>, specs: seq<Spec>)
    requires RowLabels(rows) == Labels(specs) && DistinctSpecCodes(specs) && specs != []
    ensures PlaneValues(JArr(Entries(rows)), specs) == Ok(Values(rows))
  {
    assert Codes(rows) == SpecCodes(specs) by {
      forall i | 0 <= i < |rows| ensures Codes(rows)[i] == SpecCodes(specs)[i] {
        assert RowLabels(rows)[i] == Labels(specs)[i];
      }
    }
    assert DistinctCodes(rows) by {
      forall i, j | 0 <= i < j < |rows| ensures rows[i].code != rows[j].code {
        assert Codes(rows)[i] == specs[i].code && Codes(rows)[j] == specs[j].code;
      }
    }
    assert Truthy(JArr(Entries(rows)));
    LookupsReadBack(rows);
  }

  /** A written plane of settled values is read back and cleaned into the same rows. */
  lemma PlaneRereads(h: Host, rows: seq<Row>, specs: seq<Spec>)
    requires RowLabels(rows) == Labels(specs) && DistinctSpecCodes(specs) && SettledRows(rows, specs) && specs != []
    ensures PlaneValues(JArr(Entries(rows)), specs) == Ok(Values(rows))
    ensures RowsOf(specs, RefineAll(h, specs, Values(rows))) == rows
  {
    PlaneReadsBack(rows, specs);
    RefineAllSettled(h, specs, Values(rows));
    RowsOfLaid(rows, specs);
  }

  /** A partner record holds its name, page and three planes under their own keys. */
  lemma PartnerFields(p: Partner)
    ensures var d := PartnerJson(p);
      && Get(d, "partner_name") == Some(p.name)
      && Get(d, "page_reference") == Some(p.page)
      && Get(d, "part_i_partnership_plane") == Some(JArr(Entries(p.partI)))
      && Get(d, "part_ii_partner_plane") == Some(JArr(Entries(p.partII)))
      && Get(d, "part_iii_income_loss_plane") == Some(JArr(Entries(p.partIII)))
  {
    GetOfFive("partner_name", "page_reference", "part_i_partnership_plane", "part_ii_partner_plane",
              "part_iii_income_loss_plane", p.name, p.page, JArr(Entries(p.partI)), JArr(Entries(p.partII)),
              JArr(Entries(p.partIII)));
  }

  /** A normal partner's record is re-read as that same partner, whatever its position. */
  lemma PartnerRereads(h: Host, s: Schema, p: Partner, idx: nat)
    requires Readable(s) && NormalIn(p, s)
    ensures RereadPartner(h, s, PartnerJson(p), idx) == Ok(p)
  {
    PartnerFields(p);
    PlaneRereads(h, p.partI, s.partI);
    PlaneRereads(h, p.partII, s.partII);
    PlaneRereads(h, p.partIII, s.partIII);
    var r := RereadPartner(h, s, PartnerJson(p), idx);
    assert r.Ok?;
    assert r.value == Partner(r.value.name, r.value.page, r.value.partI, r.value.partII, r.value.partIII);
  }

  lemma AllRereads(h: Host, s: Schema, ps: seq<Partner>, start: nat)
    requires Readable(s) && forall i :: 0 <= i < |ps| ==> NormalIn(ps[i], s)
    ensures RereadAll(h, s, PartnersJson(ps), start) == Ok(ps)
  {
    forall i | 0 <= i < |ps| ensures RereadPartner(h, s, PartnersJson(ps)[i], start + i) == Ok(ps[i]) {
      PartnerRereads(h, s, ps[i], start + i);
    }
    RereadEach(h, s, PartnersJson(ps), start, ps);
  }

  /** When every record is re-read, the loop's result is the list of those partners. */
  lemma RereadEach(h: Host, s: Schema, items: seq<Json>, start: nat, ps: seq<Partner>)
    requires |items| == |ps| && forall i :: 0 <= i < |items| ==> RereadPartner(h, s, items[i], start + i) == Ok(ps[i])
    ensures RereadAll(h, s, items, start) == Ok(ps)
  {
    var r := RereadAll(h, s, items, start);
    assert r.Ok?;
    assert r.value == ps;
  }

  lemma MetaRereads(h: Host, m: Metadata)
    requires NormalMeta(m)
    ensures RereadMeta(h, MetaJson(m)) == Ok(m)
  {
    GetOfFour("form_type", "tax_year", "partnership_name", "partnership_ein",
              m.formType, JStr(m.year), m.name, m.ein);
  }

  lemma DocumentFields(m: Metadata, ps: seq<Partner>)
    ensures var data := Unwrap(Document(m, ps));
      && !HasError(data)
      && MetadataOf(data) == MetaJson(m)
      && RecordsOf(data) == JArr(PartnersJson(ps))
  {
    var fs := Unwrap(Document(m, ps)).fields;
    LookupFirst(fs, 0);
    LookupFirst(fs, 1);
    assert Keys(fs) == ["document_metadata", "partner_records"];
  }

  /** The pass-through path of a document it wrote. */
  lemma PassThroughOfDocument(h: Host, l: Layout, m: Metadata, ps: seq<Partner>)
    requires ps != []
    ensures var data := Unwrap(Document(m, ps));
      Structured(data) && !HasError(data)
      && TransformWith(h, l, Document(m, ps)) == (
        match RereadAll(h, l.full, PartnersJson(ps), 0)
        case Err(e) => Err(e)
        case Ok(qs) => (match RereadMeta(h, MetaJson(m)) case Err(e) => Err(e) case Ok(m') => Ok(Document(m', qs))))
  {
    DocumentFields(m, ps);
  }

  /** Transforming the transform's own pass-through output again changes nothing, when its values are clean. */
  lemma NormalDocumentKeptIn(h: Host, l: Layout, m: Metadata, ps: seq<Partner>)
    requires Readable(l.full)
    requires ps != [] && NormalMeta(m) && forall i :: 0 <= i < |ps| ==> NormalIn(ps[i], l.full)
    ensures TransformWith(h, l, Document(m, ps)) == Ok(Document(m, ps))
  {
    PassThroughOfDocument(h, l, m, ps);
    AllRereads(h, l.full, ps, 0);
    MetaRereads(h, m);
  }

  lemma NormalDocumentKept(h: Host, m: Metadata, ps: seq<Partner>)
    requires ps != [] && NormalMeta(m) && forall i :: 0 <= i < |ps| ==> NormalIn(ps[i], FullSchema)
    ensures Transform(h, Document(m, ps)) == Ok(Document(m, ps))
  {
    FullSchemaReadable();
    NormalDocumentKeptIn(h, K1Layout, m, ps);
  }

  /** A plane the transform wrote can always be read, whatever codes are asked for. */
  lemma PlaneValuesOfEntries(rows: seq<Row>, specs: seq<Spec>)
    ensures PlaneValues(JArr(Entries(rows)), specs).Ok?
  {
    forall i | 0 <= i < |specs| ensures GetPlaneValue(JArr(Entries(rows)), SpecCodes(specs)[i]).Ok? {
      PlaneValueReadsBack(rows, SpecCodes(specs)[i]);
    }
  }

  /** Any partner record the transform wrote is re-read without error. */
  lemma PartnerRereadable(h: Host, s: Schema, p: Partner, idx: nat)
    ensures RereadPartner(h, s, PartnerJson(p), idx).Ok?
  {
    PartnerFields(p);
    PlaneValuesOfEntries(p.partI, s.partI);
    PlaneValuesOfEntries(p.partII, s.partII);
    PlaneValuesOfEntries(p.partIII, s.partIII);
  }

  /** A single record is re-read as a single partner. */
  lemma SingleReread(h: Host, s: Schema, d: Json)
    requires RereadPartner(h, s, d, 0).Ok?
    ensures RereadAll(h, s, [d], 0) == Ok([RereadPartner(h, s, d, 0).value])
  {
    var r := RereadAll(h, s, [d], 0);
    assert [d][0] == d;
    assert r.Ok?;
    assert r.value == [r.value[0]];
  }

  /** The one record of a one-partner document is re-read as one partner laid out as the schema. */
  lemma SinglePartnerReread(h: Host, s: Schema, p: Partner) returns (q: Partner)
    ensures RereadAll(h, s, PartnersJson([p]), 0) == Ok([q]) && Laid(q, s)
  {
    PartnerRereadable(h, s, p, 0);
    q := RereadPartner(h, s, PartnerJson(p), 0).value;
    assert PartnersJson([p]) == [PartnerJson(p)];
    SingleReread(h, s, PartnerJson(p));
  }

  /** Part III of the first partner, read off a document. */
  lemma FirstPartIII(m: Metadata, p: Partner)
    ensures Document(m, [p]).items[0].fields[1].1.items[0].fields[4].1 == JArr(Entries(p.partIII))
  {
  }

  /** A one-partner document the transform wrote is re-read as one partner laid out as the full schema. */
  lemma RereadSingle(h: Host, l: Layout, m: Metadata, p: Partner) returns (m': Metadata, q: Partner)
    ensures TransformWith(h, l, Document(m, [p])) == Ok(Document(m', [q]))
    ensures Laid(q, l.full)
  {
    PassThroughOfDocument(h, l, m, [p]);
    q := SinglePartnerReread(h, l.full, p);
    m' := RereadMeta(h, MetaJson(m)).value;
  }

  /**
   * The fallback's output is not a fixed point when its Part III is narrower than the
   * full schema's: transformed again, it is re-read with every box of the full schema.
   */
  lemma FallbackWidens(h: Host, l: Layout, data: Json)
    requires |l.fallback.partIII| != |l.full.partIII|
    ensures var (m, ps) := Fallback(h, l.fallback, data);
      var again := TransformWith(h, l, Document(m, ps));
      again.Ok? && again != Ok(Document(m, ps))
  {
    var (m, ps) := Fallback(h, l.fallback, data);
    var p := ps[0];
    assert ps == [p];
    var m', q := RereadSingle(h, l, m, p);
    FirstPartIII(m, p);
    FirstPartIII(m', q);
    assert |Entries(q.partIII)| == |l.full.partIII|;
  }

  /** Transformed again, the fallback's output grows Part III from eleven boxes to twenty-nine. */
  lemma FallbackOutputWidens(h: Host, data: Json)
    ensures var (m, ps) := Fallback(h, FallbackFill, data);
      var again := Transform(h, Document(m, ps));
      again.Ok? && again != Ok(Document(m, ps))
  {
    assert |FallbackPartIII| == 11 && |PartIIISpec| == 29;
    FallbackWidens(h, K1Layout, data);
  }
}
