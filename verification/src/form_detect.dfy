/**
 * The upload screen's form detector: the page's OCR text is searched, upper-cased, for
 * the recognition patterns of each supported form in table order; only when no pattern
 * occurs does the upper-cased file name decide, through a fixed list of rules; failing
 * both the form is "UNKNOWN". The OCR engine is outside the model: its text is an input
 * (empty when no engine is installed or it fails).
 */
module FormDetector {
  import opened Json
  import opened Text

  /** One entry of the supported-forms table: its type, display name and recognition patterns. */
  datatype Form = Form(formType: string, name: string, patterns: seq<string>)

  /** The supported forms in the table's order, which is the order the OCR text is tried in. */
  const SupportedForms: seq<Form> := [
    Form("W-2", "Wage and Tax Statement", ["W-2", "W2", "Wage and Tax Statement", "Form W-2"]),
    Form("1099-INT", "Interest Income",
         ["1099-INT", "1099INT", "Interest Income", "Combined Statement For Form 1099-INT", "Combined Statement For Form"]),
    Form("1099-NEC", "Nonemployee Compensation", ["1099-NEC", "1099NEC"]),
    Form("1099-MISC", "Miscellaneous Income", ["1099-MISC", "1099MISC"]),
    Form("1099-R", "Distributions From Pensions", ["1099-R", "1099R"]),
    Form("1099-K", "Payment Card Transactions", ["1099-K", "1099K"]),
    Form("1098", "Mortgage Interest Statement", ["1098", "Mortgage Interest"]),
    Form("K-1", "Partner's Share of Income", ["K-1", "K1", "Schedule K-1", "1065", "Partner's Share"]),
    Form("K-3", "Partner's Share - International", ["K-3", "K3", "Schedule K-3", "International", "Foreign Tax Credit"]),
    Form("8805", "Foreign Partner's Information", ["8805", "Form 8805", "Section 1446", "Foreign Partner"]),
    Form("8804", "Partnership Withholding Tax", ["8804", "Form 8804", "Annual Return for Partnership Withholding"])
  ]

  /** Some pattern of `f`, upper-cased, occurs in the upper-cased text. */
  predicate Recognises(textUpper: string, f: Form)
  {
    exists i :: 0 <= i < |f.patterns| && Contains(textUpper, Upper(f.patterns[i]))
  }

  /**
   * A file-name rule: the form it names and its needles; an `AnyOf` rule fires when one
   * needle occurs, an `AllOf` rule when every needle does.
   */
  datatype NameRule = AnyOf(formType: string, needles: seq<string>) | AllOf(formType: string, needles: seq<string>)

  predicate Fires(nameUpper: string, rule: NameRule)
  {
    match rule
    case AnyOf(_, ns) => exists i :: 0 <= i < |ns| && Contains(nameUpper, ns[i])
    case AllOf(_, ns) => forall i :: 0 <= i < |ns| ==> Contains(nameUpper, ns[i])
  }

  /** The file-name rules in the order they are tried; an unrecognised 1099 is taken for a 1099-MISC. */
  const NameRules: seq<NameRule> := [
    AnyOf("W-2", ["W2", "W-2"]),
    AnyOf("1099-INT", ["1099-INT", "1099INT", "1099 INT", "1099_INT"]),
    AnyOf("1099-NEC", ["1099-NEC", "1099NEC", "1099 NEC", "1099_NEC"]),
    AnyOf("1099-MISC", ["1099-MISC", "1099MISC", "1099 MISC", "1099_MISC"]),
    AllOf("1099-INT", ["ALLY", "1099"]),
    AnyOf("1099-MISC", ["1099"]),
    AnyOf("K-1", ["K-1", "K1", "1065", "SCHEDULE K"]),
    AnyOf("8805", ["8805", "SECTION 1446", "FOREIGN PARTNER"]),
    AnyOf("8804", ["8804", "PARTNERSHIP WITHHOLDING"])
  ]

  /** The position of the first element that passes `hit`, or `|xs|` when none does. */
  function FirstPassing<T>(xs: seq<T>, hit: T -> bool): (i: nat)
    ensures i <= |xs| && (i < |xs| ==> hit(xs[i]))
    ensures forall j :: 0 <= j < i ==> !hit(xs[j])
  {
    if xs == [] || hit(xs[0]) then 0
    else
      var i := FirstPassing(xs[1..], hit);
      assert forall j :: 1 <= j < |xs| ==> xs[j] == xs[1..][j - 1];
      i + 1
  }

  /** The first element that passes `hit` is the one `FirstPassing` finds. */
  lemma FirstPassingAt<T>(xs: seq<T>, hit: T -> bool, i: int)
    requires 0 <= i < |xs| && hit(xs[i]) && forall j :: 0 <= j < i ==> !hit(xs[j])
    ensures FirstPassing(xs, hit) == i
  {
  }

  /** `{"form_type": ..., "info": ...}`. */
  datatype Detection = Detection(formType: string, info: Option<Form>)

  /** The first form of type `t` in `forms`, if any. */
  function FindForm(forms: seq<Form>, t: string): (r: Option<Form>)
    ensures r.Some? ==> r.value in forms && r.value.formType == t
    ensures r.None? ==> forall i :: 0 <= i < |forms| ==> forms[i].formType != t
  {
    if forms == [] then None
    else if forms[0].formType == t then Some(forms[0])
    else FindForm(forms[1..], t)
  }

  /** A form whose type no earlier form shares is the one found under its type. */
  lemma {:induction false} FindFormAt(forms: seq<Form>, k: int)
    requires 0 <= k < |forms| && forall i :: 0 <= i < k ==> forms[i].formType != forms[k].formType
    ensures FindForm(forms, forms[k].formType) == Some(forms[k])
  {
    if k > 0 {
      assert forms[1..][k - 1] == forms[k];
      FindFormAt(forms[1..], k - 1);
    }
  }

  /** `SUPPORTED_FORMS.get(form_type)`. */
  function Info(formType: string): Option<Form>
  {
    FindForm(SupportedForms, formType)
  }

  /** The position of the first form whose patterns occur in the OCR text. */
  function TextHit(text: string): (i: nat)
    ensures i <= |SupportedForms|
    ensures i < |SupportedForms| ==> Recognises(Upper(text), SupportedForms[i])
    ensures forall j :: 0 <= j < i ==> !Recognises(Upper(text), SupportedForms[j])
  {
    FirstPassing(SupportedForms, (f: Form) => Recognises(Upper(text), f))
  }

  /** The position of the first file-name rule that fires. */
  function NameHit(filename: string): (i: nat)
    ensures i <= |NameRules|
    ensures i < |NameRules| ==> Fires(Upper(filename), NameRules[i])
    ensures forall j :: 0 <= j < i ==> !Fires(Upper(filename), NameRules[j])
  {
    FirstPassing(NameRules, (rule: NameRule) => Fires(Upper(filename), rule))
  }

  /**
   * `FormDetector.detect(image, filename)` given the image's OCR text: a recognised form
   * comes with its own table entry, a file-name match with the entry looked up by type.
   */
  function Detect(text: string, filename: string): (r: Detection)
    ensures r.info.Some? ==> r.info.value in SupportedForms && r.info.value.formType == r.formType
    ensures r.info.None? <==> r.formType == "UNKNOWN"
  {
    var i := TextHit(text);
    if i < |SupportedForms| then
      NoUnknownForm(i);
      Detection(SupportedForms[i].formType, Some(SupportedForms[i]))
    else
      var k := NameHit(filename);
      if k < |NameRules| then
        RuleInfo(k);
        RuleFormMatches(k);
        NoUnknownForm(RuleForm[k]);
        Detection(NameRules[k].formType, Info(NameRules[k].formType))
      else Detection("UNKNOWN", None)
  }

  /** A passing element bounds the search from above. */
  lemma FirstPassingBelow<T>(xs: seq<T>, hit: T -> bool, k: int)
    requires 0 <= k < |xs| && hit(xs[k])
    ensures FirstPassing(xs, hit) <= k
  {
  }

  /** The form at `at[i]` of the table is the one file-name rule `i` names. */
  const RuleForm: seq<nat> := [0, 1, 2, 3, 1, 3, 7, 9, 10]

  lemma RuleFormMatches(i: int)
    requires 0 <= i < |NameRules|
    ensures RuleForm[i] < |SupportedForms| && SupportedForms[RuleForm[i]].formType == NameRules[i].formType
  {
  }

  lemma NoUnknownForm(i: int)
    requires 0 <= i < |SupportedForms|
    ensures SupportedForms[i].formType != "UNKNOWN"
  {
  }

  /** The table's form types are distinct, so a lookup by type finds the entry itself. */
  lemma InfoOfEntry(k: int)
    requires 0 <= k < |SupportedForms|
    ensures Info(SupportedForms[k].formType) == Some(SupportedForms[k])
  {
    forall i | 0 <= i < k ensures SupportedForms[i].formType != SupportedForms[k].formType {
      TypesDistinct(i, k);
    }
    FindFormAt(SupportedForms, k);
  }

  lemma TypesDistinct(i: int, k: int)
    requires 0 <= i < k < |SupportedForms|
    ensures SupportedForms[i].formType != SupportedForms[k].formType
  {
    var ts := ["W-2", "1099-INT", "1099-NEC", "1099-MISC", "1099-R", "1099-K", "1098", "K-1", "K-3", "8805", "8804"];
    assert forall j :: 0 <= j < |SupportedForms| ==> SupportedForms[j].formType == ts[j];
    assert ts[i] != ts[k];
  }

  // ------------------------------------------------------------ detection order

  /** The first form whose patterns occur in the OCR text is the detection, with its own entry. */
  lemma RecognisedFirst(text: string, filename: string, i: int)
    requires 0 <= i < |SupportedForms| && Recognises(Upper(text), SupportedForms[i])
    requires forall j :: 0 <= j < i ==> !Recognises(Upper(text), SupportedForms[j])
    ensures Detect(text, filename) == Detection(SupportedForms[i].formType, Some(SupportedForms[i]))
  {
    FirstPassingAt(SupportedForms, (f: Form) => Recognises(Upper(text), f), i);
  }

  /**
   * With no pattern in the OCR text, the first file-name rule that fires decides, and the
   * detection carries the table entry of the form the rule names.
   */
  lemma NamedFirst(text: string, filename: string, k: int)
    requires forall i :: 0 <= i < |SupportedForms| ==> !Recognises(Upper(text), SupportedForms[i])
    requires 0 <= k < |NameRules| && Fires(Upper(filename), NameRules[k])
    requires forall j :: 0 <= j < k ==> !Fires(Upper(filename), NameRules[j])
    ensures Detect(text, filename).formType == NameRules[k].formType
    ensures Detect(text, filename).info.Some? && Detect(text, filename).info.value in SupportedForms
    ensures Detect(text, filename).info.value.formType == NameRules[k].formType
  {
    assert TextHit(text) == |SupportedForms|;
    NameHitAt(filename, k);
    DetectByName(text, filename);
    RuleInfo(k);
  }

  /** Past the text patterns, the detection is the file-name branch. */
  lemma DetectByName(text: string, filename: string)
    requires TextHit(text) == |SupportedForms| && NameHit(filename) < |NameRules|
    ensures Detect(text, filename) ==
      Detection(NameRules[NameHit(filename)].formType, Info(NameRules[NameHit(filename)].formType))
  {
  }

  lemma NameHitAt(filename: string, k: int)
    requires 0 <= k < |NameRules| && Fires(Upper(filename), NameRules[k])
    requires forall j :: 0 <= j < k ==> !Fires(Upper(filename), NameRules[j])
    ensures NameHit(filename) == k
  {
    FirstPassingAt(NameRules, (rule: NameRule) => Fires(Upper(filename), rule), k);
  }

  /** Every file-name rule names a form of the table. */
  lemma RuleInfo(k: int)
    requires 0 <= k < |NameRules|
    ensures var info := Info(NameRules[k].formType);
      info.Some? && info.value in SupportedForms && info.value.formType == NameRules[k].formType
  {
    RuleFormMatches(k);
    InfoOfEntry(RuleForm[k]);
  }

  /** The detection is "UNKNOWN", with no entry, exactly when neither the text nor the name matches. */
  lemma UnknownExactly(text: string, filename: string)
    ensures Detect(text, filename).formType == "UNKNOWN" <==>
      (forall i :: 0 <= i < |SupportedForms| ==> !Recognises(Upper(text), SupportedForms[i]))
      && (forall k :: 0 <= k < |NameRules| ==> !Fires(Upper(filename), NameRules[k]))
    ensures Detect(text, filename).info.None? <==> Detect(text, filename).formType == "UNKNOWN"
  {
    var i := TextHit(text);
    if i < |SupportedForms| {
      NoUnknownForm(i);
    } else {
      var k := NameHit(filename);
      if k < |NameRules| {
        NamedFirst(text, filename, k);
        RuleFormMatches(k);
        NoUnknownForm(RuleForm[k]);
      }
    }
  }

  /** Once the OCR text recognises a form, the file name is never consulted. */
  lemma TextOverridesName(text: string, name1: string, name2: string)
    requires exists i :: 0 <= i < |SupportedForms| && Recognises(Upper(text), SupportedForms[i])
    ensures Detect(text, name1) == Detect(text, name2)
  {
  }

  lemma UpperOfUnchanged(s: string)
    requires forall i :: 0 <= i < |s| ==> !('a' <= s[i] <= 'z')
    ensures Upper(s) == s
  {
  }

  /**
   * The K-1 patterns come before the K-3 and partnership-withholding forms, and "1065" is
   * one of them: OCR text that mentions Form 1065 (as a partnership's Schedule K-3 does)
   * is never detected as K-3, 8805 or 8804.
   */
  lemma Form1065TextIsNeverK3(text: string, filename: string)
    requires Contains(Upper(text), "1065")
    ensures Detect(text, filename).formType !in {"K-3", "8805", "8804"}
  {
    var k1 := SupportedForms[7];
    assert k1.patterns[3] == "1065";
    UpperOfUnchanged(k1.patterns[3]);
    assert Recognises(Upper(text), k1);
    var hit := (f: Form) => Recognises(Upper(text), f);
    FirstPassingBelow(SupportedForms, hit, 7);
    var i := TextHit(text);
    assert Detect(text, filename).formType == SupportedForms[i].formType;
    TypesDistinct(i, 8);
    TypesDistinct(i, 9);
    TypesDistinct(i, 10);
  }

  /** Without recognisable text, a file name mentioning 1099 always gives a W-2 or a 1099 form. */
  lemma Name1099IsA1099(text: string, filename: string)
    requires forall i :: 0 <= i < |SupportedForms| ==> !Recognises(Upper(text), SupportedForms[i])
    requires Contains(Upper(filename), "1099")
    ensures Detect(text, filename).formType in {"W-2", "1099-INT", "1099-NEC", "1099-MISC"}
  {
    assert NameRules[5].needles[0] == "1099";
    assert Fires(Upper(filename), NameRules[5]);
    FirstPassingBelow(NameRules, (rule: NameRule) => Fires(Upper(filename), rule), 5);
    var k := NameHit(filename);
    NamedFirst(text, filename, k);
    EarlyRulesName1099s(k);
  }

  lemma EarlyRulesName1099s(k: int)
    requires 0 <= k <= 5
    ensures NameRules[k].formType in {"W-2", "1099-INT", "1099-NEC", "1099-MISC"}
  {
  }

  /** A combined statement from Ally is read as a 1099-INT when no earlier file-name rule fires. */
  lemma AllyStatementIsInterest(text: string, filename: string)
    requires forall i :: 0 <= i < |SupportedForms| ==> !Recognises(Upper(text), SupportedForms[i])
    requires forall j :: 0 <= j < 4 ==> !Fires(Upper(filename), NameRules[j])
    requires Contains(Upper(filename), "ALLY") && Contains(Upper(filename), "1099")
    ensures Detect(text, filename).formType == "1099-INT"
  {
    assert NameRules[4].needles == ["ALLY", "1099"];
    assert Fires(Upper(filename), NameRules[4]);
    NamedFirst(text, filename, 4);
  }
}
