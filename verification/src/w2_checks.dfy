/**
 * The W-2 rules of the prompt-validation script: each extracted W-2 is read as a
 * dictionary from box code to value, and a handful of checks append bugs (which fail
 * the PDF) and warnings (which do not) to the PDF's report.
 *
 * `float` on strings and `str` on numbers, lists and dictionaries are left to the
 * `Host` parameter.
 */
module W2Checks {
  import opened Json
  import opened Text
  import opened PyOps
  import opened Grouping

  // ---------------------------------------------------------------------------
  // The report of one PDF
  // ---------------------------------------------------------------------------

  const ValueCopying: string := "VALUE_COPYING"
  const Box12InvalidCode: string := "BOX12_INVALID_CODE"
  const CheckboxTypeError: string := "CHECKBOX_TYPE_ERROR"
  const NullFieldCopied: string := "NULL_FIELD_COPIED"

  /** One detected bug: its type, text, the form it was found on and supporting values. */
  datatype Bug = Bug(kind: string, message: string, formId: string, details: Json)

  /** `TestResult`, without the extraction data and counters the checks never touch. */
  datatype Report = Report(pdfName: string, passed: bool, bugs: seq<Bug>, warnings: seq<string>)

  /** A PDF fails exactly when some bug was recorded against it. */
  predicate Consistent(r: Report)
  {
    r.passed <==> r.bugs == []
  }

  /** A fresh report passes and holds nothing. */
  function NewReport(pdfName: string): (r: Report)
    ensures Consistent(r) && r.passed
    ensures r.bugs == [] && r.warnings == []
  {
    Report(pdfName, true, [], [])
  }

  /** `add_bug`: the PDF fails, and the bug is recorded with `{}` for missing details. */
  function AddBug(r: Report, kind: string, message: string, formId: string, details: Json): (r': Report)
    ensures !r'.passed
    ensures Consistent(r')
    ensures |r'.bugs| == |r.bugs| + 1 && r'.bugs[..|r.bugs|] == r.bugs
    ensures r'.bugs[|r.bugs|].kind == kind && r'.bugs[|r.bugs|].formId == formId
    ensures r'.warnings == r.warnings && r'.pdfName == r.pdfName
  {
    var d := if Truthy(details) then details else JObj([]);
    Report(r.pdfName, false, r.bugs + [Bug(kind, message, formId, d)], r.warnings)
  }

  /** `add_warning`: recorded, but the verdict is left alone. */
  function AddWarning(r: Report, message: string): (r': Report)
    ensures r'.passed == r.passed && r'.bugs == r.bugs && r'.pdfName == r.pdfName
    ensures r'.warnings == r.warnings + [message]
    ensures Consistent(r) ==> Consistent(r')
  {
    r.(warnings := r.warnings + [message])
  }

  function KindOf(b: Bug): string
  {
    b.kind
  }

  /** The `(type, count)` entries of a grouping of bugs by type. */
  function Counts<V>(bs: seq<Bucket<string, V>>): (r: seq<(string, nat)>)
    ensures |r| == |bs|
    ensures forall i :: 0 <= i < |bs| ==> r[i] == (bs[i].key, |bs[i].items|)
  {
    seq(|bs|, i requires 0 <= i < |bs| => (bs[i].key, |bs[i].items|))
  }

  function SumCounts(cs: seq<(string, nat)>): nat
  {
    if cs == [] then 0 else cs[0].1 + SumCounts(cs[1..])
  }

  /** `bug_summary`: how many bugs of each type, types in order of first appearance. */
  function BugSummary(r: Report): seq<(string, nat)>
  {
    Counts(GroupBy(r.bugs, KindOf))
  }

  lemma {:induction false} SumCountsTotal<V>(bs: seq<Bucket<string, V>>)
    ensures SumCounts(Counts(bs)) == Total(bs)
  {
    if bs != [] {
      SumCountsTotal(bs[1..]);
      assert Counts(bs)[1..] == Counts(bs[1..]);
    }
  }

  /** The bug types a summary lists, in order. */
  function SummaryKinds(s: seq<(string, nat)>): (ks: seq<string>)
    ensures |ks| == |s| && forall i :: 0 <= i < |s| ==> ks[i] == s[i].0
  {
    seq(|s|, i requires 0 <= i < |s| => s[i].0)
  }

  /** The summary lists exactly the bug types that occur, each once. */
  lemma BugSummaryKinds(r: Report)
    ensures Distinct(SummaryKinds(BugSummary(r)))
    ensures forall k :: k in SummaryKinds(BugSummary(r)) <==> Occurs(r.bugs, KindOf, k)
  {
    var bs := GroupBy(r.bugs, KindOf);
    PlaceKeys([], r.bugs, KindOf);
    assert SummaryKinds(BugSummary(r)) == KeysOf(bs);
  }

  /** Each type's count is the number of bugs of that type, and the counts add up to all bugs. */
  lemma BugSummaryCounts(r: Report)
    ensures forall i :: 0 <= i < |BugSummary(r)| ==> BugSummary(r)[i].1 == |Filter(r.bugs, KindOf, BugSummary(r)[i].0)|
    ensures SumCounts(BugSummary(r)) == |r.bugs|
  {
    var bs := GroupBy(r.bugs, KindOf);
    var s := BugSummary(r);
    PlaceKeys([], r.bugs, KindOf);
    PlaceTotal([], r.bugs, KindOf);
    SumCountsTotal(bs);
    forall i | 0 <= i < |s| ensures s[i].1 == |Filter(r.bugs, KindOf, s[i].0)| {
      PlaceItems([], r.bugs, KindOf, s[i].0);
      ItemsOfDistinct(bs, i);
    }
  }

  /** A bug always fails the PDF and a warning never does, from any consistent report. */
  lemma VerdictFollowsBugs(r: Report, kind: string, message: string, formId: string, details: Json)
    requires Consistent(r)
    ensures !AddBug(r, kind, message, formId, details).passed
    ensures AddWarning(r, message).passed == r.passed
    ensures Consistent(AddWarning(AddBug(r, kind, message, formId, details), message))
  {
  }

  // ---------------------------------------------------------------------------
  // Copy types
  // ---------------------------------------------------------------------------

  const FederalCopyPatterns: seq<string> := ["Copy A", "Copy B", "Employee", "Federal", "SSA"]
  const StateCopyPatterns: seq<string> := ["Copy 1", "Copy 2", "State", "City", "Local"]

  /** `any(p.upper() in text for p in patterns)` with `text` already upper-cased. */
  function AnyPattern(text: string, patterns: seq<string>): (r: bool)
    ensures r <==> exists i :: 0 <= i < |patterns| && Contains(text, Upper(patterns[i]))
  {
    if patterns == [] then false
    else
      var rest := AnyPattern(text, patterns[1..]);
      assert forall i :: 1 <= i < |patterns| ==> patterns[1..][i - 1] == patterns[i];
      Contains(text, Upper(patterns[0])) || rest
  }

  /**
   * `is_federal_copy` and `is_state_copy` on the `copyType` the model returned: false
   * when it is falsy, and `.upper()` raises on a value that is not a string.
   */
  function IsCopy(copyType: Json, patterns: seq<string>): (r: Result<bool>)
    ensures !Truthy(copyType) ==> r == Ok(false)
    ensures r.Err? <==> Truthy(copyType) && !copyType.JStr?
  {
    if !Truthy(copyType) then Ok(false)
    else if copyType.JStr? then Ok(AnyPattern(Upper(copyType.s), patterns))
    else Err(AttributeError)
  }

  function IsFederalCopy(copyType: Json): Result<bool>
  {
    IsCopy(copyType, FederalCopyPatterns)
  }

  function IsStateCopy(copyType: Json): Result<bool>
  {
    IsCopy(copyType, StateCopyPatterns)
  }

  lemma UpperOfLower(s: string)
    ensures Upper(Lower(s)) == Upper(s)
  {
  }

  /**
   * For a non-empty copy type the answer is whether some pattern occurs in it ignoring
   * case: spelling the copy type in lower case changes nothing.
   */
  lemma CopyIgnoresCase(s: string, patterns: seq<string>)
    requires s != []
    ensures IsCopy(JStr(s), patterns) == Ok(exists i :: 0 <= i < |patterns| && Contains(Upper(s), Upper(patterns[i])))
    ensures IsCopy(JStr(Lower(s)), patterns) == IsCopy(JStr(s), patterns)
  {
    UpperOfLower(s);
  }

  /** A pattern found in the copy type in any case classifies it. */
  lemma CopyFindsPattern(s: string, patterns: seq<string>, i: int)
    requires s != [] && 0 <= i < |patterns| && Contains(Upper(s), Upper(patterns[i]))
    ensures IsCopy(JStr(s), patterns) == Ok(true)
  {
  }

  /**
   * The two classes overlap: a copy type that names the employee and the state is
   * both a federal and a state copy.
   */
  lemma EmployeeStateCopyIsBoth()
    ensures IsFederalCopy(JStr("Employee State")) == Ok(true)
    ensures IsStateCopy(JStr("Employee State")) == Ok(true)
  {
    var u := Upper("Employee State");
    assert u == "EMPLOYEE STATE";
    assert Upper("Employee") == "EMPLOYEE";
    assert Upper("State") == "STATE";
    assert OccursAt(u, "EMPLOYEE", 0);
    assert OccursAt(u, "STATE", 9);
    CopyFindsPattern("Employee State", FederalCopyPatterns, 2);
    CopyFindsPattern("Employee State", StateCopyPatterns, 2);
  }

  // ---------------------------------------------------------------------------
  // Box 12 codes
  // ---------------------------------------------------------------------------

  /** The IRS's Box 12 codes. */
  const Box12Codes: seq<string> := [
    "A", "B", "C", "D", "E", "F", "G", "H", "J", "K", "L", "M", "N",
    "P", "Q", "R", "S", "T", "V", "W", "Y", "Z", "AA", "BB", "DD", "EE", "FF", "GG", "HH"]

  /** Words that mark a Box 14 item, in the order they are looked for. */
  const Box14Keywords: seq<string> := [
    "RETIRE", "FLI", "SUT", "LST", "SDI", "CASDI", "UI", "DI", "VPDI",
    "PFL", "TDI", "NJFLI", "NYSDI", "NYPFL", "HEALTH", "DENTAL", "VISION",
    "UNION", "DUES", "401K", "403B", "HSA", "FSA", "LIFE", "LTD", "STD"]

  /** `value is None or value == "" or value == "null"`. */
  predicate Blank(v: Json)
  {
    v == JNull || v == JStr("") || v == JStr("null")
  }

  /** `str(value).strip().upper()`. */
  function Box12Text(h: Host, v: Json): string
  {
    Upper(Strip(PyStr(h, v)))
  }

  /** The index of the first keyword found in `s`, or `|kws|` when none is. */
  function FirstKeyword(s: string, kws: seq<string>): (i: nat)
    ensures i <= |kws|
    ensures i < |kws| ==> Contains(s, kws[i])
    ensures forall j :: 0 <= j < i ==> !Contains(s, kws[j])
  {
    if kws == [] then 0
    else if Contains(s, kws[0]) then 0
    else
      var i := FirstKeyword(s, kws[1..]);
      assert forall j :: 1 <= j < |kws| ==> kws[1..][j - 1] == kws[j];
      1 + i
  }

  predicate IsCapital(c: char)
  {
    'A' <= c <= 'Z'
  }

  /** The group of `^([A-Z]{1,2})\s*`: the longest run of at most two leading capitals. */
  function LeadingCode(s: string): (c: string)
    ensures |c| <= 2 && |c| <= |s| && c == s[..|c|]
    ensures forall i :: 0 <= i < |c| ==> IsCapital(c[i])
    ensures |c| < 2 && |c| < |s| ==> !IsCapital(s[|c|])
  {
    if |s| >= 2 && IsCapital(s[0]) && IsCapital(s[1]) then s[..2]
    else if |s| >= 1 && IsCapital(s[0]) then s[..1]
    else []
  }

  /** `check_box12_valid`: whether a Box 12 entry is acceptable, and the complaint when not. */
  function Box12Valid(h: Host, v: Json): (r: (bool, string))
    ensures Blank(v) ==> r == (true, "")
    ensures r.0 <==> r.1 == ""
  {
    if Blank(v) then (true, "") else JudgeBox12(Box12Text(h, v), Box12Codes, Box14Keywords)
  }

  /** The verdict on the cleaned-up text of a non-blank entry, given the codes and keywords. */
  function JudgeBox12(s: string, codes: seq<string>, kws: seq<string>): (r: (bool, string))
    ensures r.0 <==> r.1 == ""
  {
    var k := FirstKeyword(s, kws);
    if k < |kws| then (false, "Contains '" + kws[k] + "' which belongs in Box 14")
    else
      var code := LeadingCode(s);
      if code != [] && code !in codes then (false, "Invalid IRS code '" + code + "'")
      else (true, "")
  }

  /**
   * A non-blank entry is valid exactly when its stripped upper-case text holds no Box 14
   * keyword and does not start with letters that are not an IRS code.
   */
  lemma Box12ValidSpec(h: Host, v: Json)
    ensures Box12Valid(h, v).0 <==>
      Blank(v) ||
      ((forall k :: k in Box14Keywords ==> !Contains(Box12Text(h, v), k))
       && (LeadingCode(Box12Text(h, v)) == [] || LeadingCode(Box12Text(h, v)) in Box12Codes))
  {
    if !Blank(v) {
      JudgeBox12Spec(Box12Text(h, v), Box12Codes, Box14Keywords);
    }
  }

  /** The verdict on a text is acceptance exactly when it holds no keyword and starts with no foreign code. */
  lemma JudgeBox12Spec(s: string, codes: seq<string>, kws: seq<string>)
    ensures JudgeBox12(s, codes, kws).0 <==>
      (forall k :: k in kws ==> !Contains(s, k)) && (LeadingCode(s) == [] || LeadingCode(s) in codes)
  {
    var i := FirstKeyword(s, kws);
    if i == |kws| {
      forall k | k in kws ensures !Contains(s, k) {
        var j :| 0 <= j < |kws| && kws[j] == k;
      }
    } else {
      assert kws[i] in kws;
    }
  }

  /** A needle whose first letter is nowhere in the text does not occur in it. */
  lemma AbsentLead(hay: string, needle: string)
    requires needle != [] && needle[0] !in hay
    ensures !Contains(hay, needle)
  {
    forall i | 0 <= i <= |hay| - |needle| ensures !OccursAt(hay, needle, i) {
      assert hay[i..i + |needle|][0] == hay[i];
    }
  }

  /** The first letters of the Box 14 keywords. */
  predicate KeywordLead(c: char)
  {
    c in "RFSLCUDVPTNH4"
  }

  /** Every keyword is non-empty and starts with one of the lead letters. */
  predicate AllLead(kws: seq<string>)
  {
    forall j :: 0 <= j < |kws| ==> kws[j] != [] && KeywordLead(kws[j][0])
  }

  lemma KeywordsLead()
    ensures AllLead(Box14Keywords)
  {
  }

  /** Every two-letter code of `codes` doubles one letter. */
  predicate DoubledPairs(codes: seq<string>)
  {
    forall j :: 0 <= j < |codes| && |codes[j]| == 2 ==> codes[j][0] == codes[j][1]
  }

  lemma TwoLetterCodesDouble()
    ensures DoubledPairs(Box12Codes)
  {
  }

  lemma MixedPairNotIn(code: string, codes: seq<string>)
    requires DoubledPairs(codes) && |code| == 2 && code[0] != code[1]
    ensures code !in codes
  {
    forall j | 0 <= j < |codes| ensures codes[j] != code {
      assert |codes[j]| == 2 ==> codes[j][0] == codes[j][1];
    }
  }

  /** No keyword of `kws` occurs in a text that holds none of their first letters. */
  lemma {:induction false} NoLeadNoKeyword(s: string, kws: seq<string>)
    requires AllLead(kws)
    requires forall i :: 0 <= i < |s| ==> !KeywordLead(s[i])
    ensures FirstKeyword(s, kws) == |kws|
  {
    if kws != [] {
      AbsentLead(s, kws[0]);
      NoLeadNoKeyword(s, kws[1..]);
    }
  }

  /**
   * Text that starts with two different capital letters is always rejected, since it
   * is read as one two-letter code and every two-letter code doubles its letter.
   */
  lemma Box12MixedPairRejected(t: string, codes: seq<string>, kws: seq<string>)
    requires |t| >= 2 && IsCapital(t[0]) && IsCapital(t[1]) && t[0] != t[1]
    requires DoubledPairs(codes)
    ensures !JudgeBox12(t, codes, kws).0
    ensures FirstKeyword(t, kws) == |kws| ==> JudgeBox12(t, codes, kws).1 == "Invalid IRS code '" + t[..2] + "'"
  {
    var code := LeadingCode(t);
    assert code == t[..2];
    MixedPairNotIn(code, codes);
  }

  /** `str(s).strip().upper()` of a string that neither starts nor ends with whitespace. */
  lemma TextOfTrimmed(h: Host, s: string)
    requires s != [] && !IsSpace(s[0]) && !IsSpace(s[|s| - 1])
    ensures Box12Text(h, JStr(s)) == Upper(s)
  {
    StripKeeps(s);
  }

  /** A trimmed, non-blank entry is judged on its upper-case text. */
  lemma Box12OfTrimmed(h: Host, s: string, t: string)
    requires s != [] && !IsSpace(s[0]) && !IsSpace(s[|s| - 1])
    requires Upper(s) == t && !Blank(JStr(s))
    ensures Box12Valid(h, JStr(s)) == JudgeBox12(t, Box12Codes, Box14Keywords)
  {
    TextOfTrimmed(h, s);
  }

  /** Text without any keyword lead letter that starts with a valid code is accepted. */
  lemma JudgeValidCode(t: string)
    requires forall i :: 0 <= i < |t| ==> !KeywordLead(t[i])
    requires LeadingCode(t) in Box12Codes
    ensures JudgeBox12(t, Box12Codes, Box14Keywords) == (true, "")
  {
    KeywordsLead();
    NoLeadNoKeyword(t, Box14Keywords);
  }

  /** Text without any keyword lead letter that starts with two different capitals is rejected as that code. */
  lemma JudgeMixedPair(t: string)
    requires forall i :: 0 <= i < |t| ==> !KeywordLead(t[i])
    requires |t| >= 2 && IsCapital(t[0]) && IsCapital(t[1]) && t[0] != t[1]
    ensures JudgeBox12(t, Box12Codes, Box14Keywords) == (false, "Invalid IRS code '" + t[..2] + "'")
  {
    KeywordsLead();
    NoLeadNoKeyword(t, Box14Keywords);
    TwoLetterCodesDouble();
    Box12MixedPairRejected(t, Box12Codes, Box14Keywords);
  }

  /** A lower-case code is read in upper case: `b 1500.00` is code B. */
  lemma Box12LowerCaseCode(h: Host, s: string)
    requires s == "b 1500.00"
    ensures Box12Valid(h, JStr(s)) == (true, "")
  {
    assert |s| == 9;
    UpperLowerB(s);
    Box12OfTrimmed(h, s, "B 1500.00");
    JudgeCodeB("B 1500.00");
  }

  lemma UpperLowerB(s: string)
    requires s == "b 1500.00"
    ensures Upper(s) == "B 1500.00"
  {
  }

  lemma JudgeCodeB(t: string)
    requires t == "B 1500.00"
    ensures JudgeBox12(t, Box12Codes, Box14Keywords) == (true, "")
  {
    assert LeadingCode(t) == Box12Codes[1];
    JudgeValidCode(t);
  }

  /**
   * Two leading letters are always read as one code, so `ab 20` is rejected as code AB
   * although A alone is a valid code.
   */
  lemma Box12TwoLetterCode(h: Host, s: string)
    requires s == "ab 20"
    ensures Box12Valid(h, JStr(s)) == (false, "Invalid IRS code 'AB'")
  {
    assert |s| == 5;
    UpperLowerAB(s);
    Box12OfTrimmed(h, s, "AB 20");
    JudgeCodeAB("AB 20");
  }

  lemma UpperLowerAB(s: string)
    requires s == "ab 20"
    ensures Upper(s) == "AB 20"
  {
  }

  lemma JudgeCodeAB(t: string)
    requires t == "AB 20"
    ensures JudgeBox12(t, Box12Codes, Box14Keywords) == (false, "Invalid IRS code 'AB'")
  {
    JudgeMixedPair(t);
    assert t[..2] == "AB";
    assert "Invalid IRS code '" + "AB" + "'" == "Invalid IRS code 'AB'";
  }

  /** An entry naming a Box 14 item is rejected, whatever code it starts with. */
  lemma Box12RejectsKeyword(h: Host, v: Json, k: string)
    requires !Blank(v) && k in Box14Keywords && Contains(Box12Text(h, v), k)
    ensures !Box12Valid(h, v).0
  {
    Box12ValidSpec(h, v);
  }

  /**
   * Only the exact text `null` counts as blank: `NULL` is read as the unknown code NU
   * and rejected.
   */
  lemma Box12NullSpelling(h: Host, s: string)
    requires s == "NULL"
    ensures Blank(JStr("null"))
    ensures !Box12Valid(h, JStr(s)).0
  {
    UpperOfCapitals(s);
    Box12OfTrimmed(h, s, s);
    TwoLetterCodesDouble();
    Box12MixedPairRejected(s, Box12Codes, Box14Keywords);
  }

  lemma UpperOfCapitals(s: string)
    requires forall i :: 0 <= i < |s| ==> 'A' <= s[i] <= 'Z'
    ensures Upper(s) == s
  {
  }

  // ---------------------------------------------------------------------------
  // The field checks
  // ---------------------------------------------------------------------------

  /** `fields.get(code)`, with an absent box read as None. */
  function BoxValue(fields: Fields, code: string): Json
  {
    Lookup(fields, code).GetOr(JNull)
  }

  /** `float(v)`; None where Python raises `ValueError` or `TypeError`. */
  function ToFloat(h: Host, v: Json): (r: Option<real>)
    ensures IsNumber(v) ==> r == Some(NumberValue(v))
    ensures v.JNull? || v.JArr? || v.JObj? ==> r == None
  {
    match v
    case JNum(n) => Some(n)
    case JBool(b) => Some(if b then 1.0 else 0.0)
    case JStr(s) => h.parseFloat(s)
    case _ => None
  }

  /** `float(v) if v else 0`. */
  function FloatOrZero(h: Host, v: Json): (r: Option<real>)
    ensures !Truthy(v) ==> r == Some(0.0)
    ensures Truthy(v) ==> r == ToFloat(h, v)
  {
    if Truthy(v) then ToFloat(h, v) else Some(0.0)
  }

  /** A positive value read with `float(v) if v else 0` is `float(v)`. */
  lemma PositiveIsParsed(h: Host, v: Json, x: real)
    requires FloatOrZero(h, v) == Some(x) && x > 0.0
    ensures ToFloat(h, v) == Some(x)
  {
  }

  /** The first test: Box 3 equals Box 1 but differs from a non-zero Box 5. */
  predicate Box3Suspicious(h: Host, fields: Fields)
  {
    var v1 := FloatOrZero(h, BoxValue(fields, "1"));
    var v3 := FloatOrZero(h, BoxValue(fields, "3"));
    var v5 := FloatOrZero(h, BoxValue(fields, "5"));
    BoxValue(fields, "3") != JNull && BoxValue(fields, "1") != JNull
    && v1.Some? && v3.Some? && v5.Some?
    && v1.value > 0.0 && v3.value == v1.value && v5.value > 0.0 && v3.value != v5.value
  }

  /** The second test: Box 4 (social security tax) equals a non-zero Box 2 (income tax). */
  predicate Box4Copied(h: Host, fields: Fields)
  {
    var v2 := FloatOrZero(h, BoxValue(fields, "2"));
    var v4 := FloatOrZero(h, BoxValue(fields, "4"));
    BoxValue(fields, "4") != JNull && BoxValue(fields, "2") != JNull
    && v2.Some? && v4.Some? && v2.value > 0.0 && v4.value == v2.value
  }

  /** The third test: with Box 5 missing, Box 3 equals a non-zero Box 1. */
  predicate Box3CopiedWithoutBox5(h: Host, fields: Fields)
  {
    var v1 := ToFloat(h, BoxValue(fields, "1"));
    var v3 := ToFloat(h, BoxValue(fields, "3"));
    BoxValue(fields, "3") != JNull && BoxValue(fields, "1") != JNull && BoxValue(fields, "5") == JNull
    && v3.Some? && v1.Some? && v3.value == v1.value && v1.value > 0.0
  }

  /** Some bug in `bs` has type `kind`. */
  predicate HasKind(bs: seq<Bug>, kind: string)
  {
    exists b :: b in bs && b.kind == kind
  }

  /** The bugs `check_value_copying` records, in order. */
  function CopyBugs(h: Host, fields: Fields, formId: string): (bs: seq<Bug>)
    ensures |bs| == (if Box4Copied(h, fields) then 1 else 0) + (if Box3CopiedWithoutBox5(h, fields) then 1 else 0)
    ensures forall b :: b in bs ==> b.formId == formId
    ensures HasKind(bs, ValueCopying) <==> Box4Copied(h, fields)
    ensures HasKind(bs, NullFieldCopied) <==> Box3CopiedWithoutBox5(h, fields)
  {
    BugPair(Box4Copied(h, fields), Box3CopiedWithoutBox5(h, fields), CopiedBug(h, fields, formId), NulledBug(h, fields, formId))
  }

  /** `x` when the first test fires, then `y` when the second does. */
  function BugPair(first: bool, second: bool, x: Bug, y: Bug): (bs: seq<Bug>)
    requires x.kind == ValueCopying && y.kind == NullFieldCopied
    ensures |bs| == (if first then 1 else 0) + (if second then 1 else 0)
    ensures forall b :: b in bs ==> b == x || b == y
    ensures HasKind(bs, ValueCopying) <==> first
    ensures HasKind(bs, NullFieldCopied) <==> second
  {
    var copied := if first then [x] else [];
    var nulled := if second then [y] else [];
    assert copied != [] ==> copied[0] in copied + nulled;
    assert nulled != [] ==> nulled[0] in copied + nulled;
    copied + nulled
  }

  /** The bug for Box 4 holding Box 2's value. */
  function CopiedBug(h: Host, fields: Fields, formId: string): (b: Bug)
    ensures b.kind == ValueCopying && b.formId == formId
  {
    var b2 := BoxValue(fields, "2");
    var b4 := BoxValue(fields, "4");
    Bug(ValueCopying, "Box 4 (" + PyStr(h, b4) + ") equals Box 2 (" + PyStr(h, b2) + ") - these are different tax types",
        formId, JObj([("box2", b2), ("box4", b4)]))
  }

  /** The bug for Box 3 holding Box 1's value while Box 5 is empty. */
  function NulledBug(h: Host, fields: Fields, formId: string): (b: Bug)
    ensures b.kind == NullFieldCopied && b.formId == formId
  {
    var b1 := BoxValue(fields, "1");
    var b3 := BoxValue(fields, "3");
    var b5 := BoxValue(fields, "5");
    Bug(NullFieldCopied, "Box 3 (" + PyStr(h, b3) + ") copied from Box 1 when Box 5 is null - Box 3 may be empty",
        formId, JObj([("box1", b1), ("box3", b3), ("box5", b5)]))
  }

  /** The warning `check_value_copying` records, if any. */
  function CopyWarnings(h: Host, fields: Fields, formId: string): (ws: seq<string>)
    ensures |ws| == if Box3Suspicious(h, fields) then 1 else 0
  {
    if Box3Suspicious(h, fields) then
      [formId + ": Box 3 (" + PyStr(h, BoxValue(fields, "3")) + ") equals Box 1 (" + PyStr(h, BoxValue(fields, "1"))
       + ") but differs from Box 5 (" + PyStr(h, BoxValue(fields, "5")) + ") - verify"]
    else []
  }

  /** Appends bugs and warnings the way repeated `add_bug` and `add_warning` calls do. */
  function Record(r: Report, bugs: seq<Bug>, warnings: seq<string>): (r': Report)
    ensures Consistent(r) ==> Consistent(r')
    ensures r'.bugs == r.bugs + bugs && r'.warnings == r.warnings + warnings && r'.pdfName == r.pdfName
    ensures bugs == [] ==> r'.passed == r.passed
    ensures bugs != [] ==> !r'.passed
  {
    Report(r.pdfName, r.passed && bugs == [], r.bugs + bugs, r.warnings + warnings)
  }

  /** `check_value_copying`. */
  function CheckValueCopying(h: Host, fields: Fields, formId: string, r: Report): (r': Report)
    ensures Consistent(r) ==> Consistent(r')
    ensures |r.bugs| <= |r'.bugs| <= |r.bugs| + 2 && |r.warnings| <= |r'.warnings| <= |r.warnings| + 1
    ensures r'.bugs[..|r.bugs|] == r.bugs && r'.warnings[..|r.warnings|] == r.warnings
    ensures forall b :: b in r'.bugs[|r.bugs|..] ==> b.formId == formId
    ensures HasKind(r'.bugs[|r.bugs|..], ValueCopying) <==> Box4Copied(h, fields)
    ensures HasKind(r'.bugs[|r.bugs|..], NullFieldCopied) <==> Box3CopiedWithoutBox5(h, fields)
  {
    assert (r.bugs + CopyBugs(h, fields, formId))[|r.bugs|..] == CopyBugs(h, fields, formId);
    assert (r.bugs + CopyBugs(h, fields, formId))[..|r.bugs|] == r.bugs;
    assert (r.warnings + CopyWarnings(h, fields, formId))[..|r.warnings|] == r.warnings;
    Record(r, CopyBugs(h, fields, formId), CopyWarnings(h, fields, formId))
  }

  /** Box 4 equal to a positive Box 2 is reported as value copying. */
  lemma EqualTaxesFlagged(h: Host, fields: Fields, formId: string, r: Report, x: real)
    requires BoxValue(fields, "2") == JNum(x) && BoxValue(fields, "4") == JNum(x) && x > 0.0
    ensures HasKind(CheckValueCopying(h, fields, formId, r).bugs[|r.bugs|..], ValueCopying)
    ensures !CheckValueCopying(h, fields, formId, r).passed
  {
    assert CheckValueCopying(h, fields, formId, r).bugs[|r.bugs|..] == CopyBugs(h, fields, formId);
  }

  /**
   * Conversely a value-copying bug means both boxes are present and parse to the same
   * positive amount.
   */
  lemma ValueCopyingOnlyOnEqualTaxes(h: Host, fields: Fields, formId: string, r: Report)
    requires HasKind(CheckValueCopying(h, fields, formId, r).bugs[|r.bugs|..], ValueCopying)
    ensures BoxValue(fields, "2") != JNull && BoxValue(fields, "4") != JNull
    ensures ToFloat(h, BoxValue(fields, "2")).Some? && ToFloat(h, BoxValue(fields, "2")).value > 0.0
    ensures ToFloat(h, BoxValue(fields, "4")) == ToFloat(h, BoxValue(fields, "2"))
  {
    assert CheckValueCopying(h, fields, formId, r).bugs[|r.bugs|..] == CopyBugs(h, fields, formId);
    var v2 := FloatOrZero(h, BoxValue(fields, "2")).value;
    PositiveIsParsed(h, BoxValue(fields, "2"), v2);
    PositiveIsParsed(h, BoxValue(fields, "4"), v2);
  }

  /** With Box 5 missing, Box 3 equal to a positive Box 1 is reported as a copied null field. */
  lemma MissingBox5Flagged(h: Host, fields: Fields, formId: string, r: Report, x: real)
    requires BoxValue(fields, "1") == JNum(x) && BoxValue(fields, "3") == JNum(x) && x > 0.0
    requires !HasKey(fields, "5")
    ensures HasKind(CheckValueCopying(h, fields, formId, r).bugs[|r.bugs|..], NullFieldCopied)
  {
    assert BoxValue(fields, "5") == JNull;
    assert CheckValueCopying(h, fields, formId, r).bugs[|r.bugs|..] == CopyBugs(h, fields, formId);
  }

  /**
   * Conversely a copied-null-field bug means Box 5 is missing and Box 3 and Box 1 parse
   * to the same positive amount; a present Box 5, even one that does not parse, rules it out.
   */
  lemma NullCopyOnlyWithoutBox5(h: Host, fields: Fields, formId: string, r: Report)
    requires HasKind(CheckValueCopying(h, fields, formId, r).bugs[|r.bugs|..], NullFieldCopied)
    ensures BoxValue(fields, "5") == JNull
    ensures ToFloat(h, BoxValue(fields, "1")).Some? && ToFloat(h, BoxValue(fields, "1")).value > 0.0
    ensures ToFloat(h, BoxValue(fields, "3")) == ToFloat(h, BoxValue(fields, "1"))
  {
    assert CheckValueCopying(h, fields, formId, r).bugs[|r.bugs|..] == CopyBugs(h, fields, formId);
  }

  const Box12Slots: seq<string> := ["12a", "12b", "12c", "12d"]

  /** The bug recorded for a Box 12 slot whose entry is rejected with `complaint`. */
  function Box12Bug(slot: string, v: Json, complaint: string, formId: string): Bug
  {
    Bug(Box12InvalidCode, slot + ": " + complaint, formId, JObj([("field", JStr(slot)), ("value", v)]))
  }

  /** One Box 12 slot as `check_box12_valid` judged it. */
  datatype SlotCheck = SlotCheck(slot: string, value: Json, valid: bool, complaint: string)

  /** `check_box12_valid(fields.get(slot))`. */
  function CheckSlot(h: Host, fields: Fields, slot: string): (c: SlotCheck)
    ensures c.slot == slot && c.value == BoxValue(fields, slot)
    ensures c.valid <==> c.complaint == ""
    ensures Blank(c.value) ==> c.valid
  {
    var v := BoxValue(fields, slot);
    var verdict := Box12Valid(h, v);
    SlotCheck(slot, v, verdict.0, verdict.1)
  }

  /** The bug recorded for a rejected slot. */
  function SlotBug(c: SlotCheck, formId: string): Bug
  {
    Box12Bug(c.slot, c.value, c.complaint, formId)
  }

  /** The invalid-code bugs for the judged slots, in slot order. */
  function Box12Bugs(checks: seq<SlotCheck>, formId: string): (bs: seq<Bug>)
    ensures |bs| <= |checks|
    ensures forall b :: b in bs ==> b.kind == Box12InvalidCode && b.formId == formId
    ensures forall b :: b in bs ==>
      (exists i :: 0 <= i < |checks| && !checks[i].valid && b == SlotBug(checks[i], formId))
    ensures forall i :: 0 <= i < |checks| && !checks[i].valid ==> SlotBug(checks[i], formId) in bs
  {
    if checks == [] then []
    else
      var rest := Box12Bugs(checks[1..], formId);
      assert forall i :: 1 <= i < |checks| ==> checks[1..][i - 1] == checks[i];
      (if !checks[0].valid then [SlotBug(checks[0], formId)] else []) + rest
  }

  /** Every slot of the list, judged. */
  function SlotChecks(h: Host, fields: Fields, slots: seq<string>): (cs: seq<SlotCheck>)
    ensures |cs| == |slots|
    ensures forall i :: 0 <= i < |slots| ==> cs[i] == CheckSlot(h, fields, slots[i])
  {
    seq(|slots|, i requires 0 <= i < |slots| => CheckSlot(h, fields, slots[i]))
  }

  /** The index of the first truthy slot, or `|slots|`. */
  function FirstFilled(fields: Fields, slots: seq<string>): (i: nat)
    ensures i <= |slots|
    ensures i < |slots| ==> Truthy(BoxValue(fields, slots[i]))
    ensures forall j :: 0 <= j < i ==> !Truthy(BoxValue(fields, slots[j]))
  {
    if slots == [] then 0
    else if Truthy(BoxValue(fields, slots[0])) then 0
    else
      var i := FirstFilled(fields, slots[1..]);
      assert forall j :: 1 <= j < |slots| ==> slots[1..][j - 1] == slots[j];
      1 + i
  }

  /** The warning for Box 12 entries that do not start at 12a, if any. */
  function ShiftWarnings(fields: Fields, formId: string): (ws: seq<string>)
    ensures |ws| <= 1
  {
    var first := FirstFilled(fields, Box12Slots);
    if 0 < first < |Box12Slots| then [formId + ": Box 12 values start at " + Box12Slots[first] + ", not 12a - verify no shifting"]
    else []
  }

  /** `check_box12_shifting`: invalid codes are bugs; entries that do not start at 12a a warning. */
  function CheckBox12Shifting(h: Host, fields: Fields, formId: string, r: Report): (r': Report)
    ensures Consistent(r) ==> Consistent(r')
    ensures |r.bugs| <= |r'.bugs| <= |r.bugs| + 4 && |r.warnings| <= |r'.warnings| <= |r.warnings| + 1
    ensures r'.bugs[..|r.bugs|] == r.bugs && r'.warnings[..|r.warnings|] == r.warnings
    ensures forall b :: b in r'.bugs[|r.bugs|..] ==> b.kind == Box12InvalidCode && b.formId == formId
  {
    var bs := Box12Bugs(SlotChecks(h, fields, Box12Slots), formId);
    assert (r.bugs + bs)[|r.bugs|..] == bs;
    assert (r.bugs + bs)[..|r.bugs|] == r.bugs;
    assert (r.warnings + ShiftWarnings(fields, formId))[..|r.warnings|] == r.warnings;
    Record(r, Box12Bugs(SlotChecks(h, fields, Box12Slots), formId), ShiftWarnings(fields, formId))
  }

  /** The shifting warning is given exactly when 12a is empty and a later slot is filled. */
  lemma ShiftWarningIff(h: Host, fields: Fields, formId: string, r: Report)
    ensures |CheckBox12Shifting(h, fields, formId, r).warnings| == |r.warnings| + 1 <==>
      !Truthy(BoxValue(fields, "12a")) && exists k :: 1 <= k < 4 && Truthy(BoxValue(fields, Box12Slots[k]))
  {
    var first := FirstFilled(fields, Box12Slots);
    if exists k :: 1 <= k < 4 && Truthy(BoxValue(fields, Box12Slots[k])) {
      var k :| 1 <= k < 4 && Truthy(BoxValue(fields, Box12Slots[k]));
      assert first <= k;
    }
  }

  /**
   * The recorded invalid-code bugs are exactly those of the rejected slots: every
   * rejected slot has its bug, and every bug belongs to a rejected slot.
   */
  lemma InvalidSlotsReported(h: Host, fields: Fields, formId: string, r: Report)
    ensures forall i :: 0 <= i < 4 && !CheckSlot(h, fields, Box12Slots[i]).valid ==>
      SlotBug(CheckSlot(h, fields, Box12Slots[i]), formId) in CheckBox12Shifting(h, fields, formId, r).bugs[|r.bugs|..]
    ensures forall b :: b in CheckBox12Shifting(h, fields, formId, r).bugs[|r.bugs|..] ==>
      (exists i :: 0 <= i < 4 && !CheckSlot(h, fields, Box12Slots[i]).valid && b == SlotBug(CheckSlot(h, fields, Box12Slots[i]), formId))
  {
    var cs := SlotChecks(h, fields, Box12Slots);
    assert CheckBox12Shifting(h, fields, formId, r).bugs[|r.bugs|..] == Box12Bugs(cs, formId);
  }

  const CheckboxFields: seq<string> := ["13_statutory", "13_retirement", "13_sick_pay"]

  /**
   * `type(v).__name__` as `json.loads` would have typed the value. Each JSON kind has a
   * name of its own, so the name tells a boolean from everything else.
   */
  function TypeName(v: Json): (r: string)
    ensures r == "bool" <==> v.JBool?
    ensures r == "NoneType" <==> v.JNull?
    ensures (r == "int" || r == "float") <==> v.JNum?
    ensures r == "str" <==> v.JStr?
  {
    match v
    case JNull => "NoneType"
    case JBool(_) => "bool"
    case JNum(n) => if n.Floor as real == n then "int" else "float"
    case JStr(_) => "str"
    case JArr(_) => "list"
    case JObj(_) => "dict"
  }

  /** A checkbox value that is present but not a boolean. */
  predicate BadCheckbox(fields: Fields, name: string)
  {
    BoxValue(fields, name) != JNull && !BoxValue(fields, name).JBool?
  }

  /** The bug recorded for a checkbox that does not hold a boolean. */
  function CheckboxBug(h: Host, fields: Fields, name: string, formId: string): Bug
  {
    var v := BoxValue(fields, name);
    Bug(CheckboxTypeError, name + " should be boolean, got " + TypeName(v) + ": " + PyStr(h, v), formId,
        JObj([("field", JStr(name)), ("value", v), ("type", JStr(TypeName(v)))]))
  }

  /** The type bugs for the given checkbox fields, in field order. */
  function CheckboxBugs(h: Host, fields: Fields, names: seq<string>, formId: string): (bs: seq<Bug>)
    ensures |bs| <= |names|
    ensures forall b :: b in bs ==> b.kind == CheckboxTypeError && b.formId == formId
    ensures forall b :: b in bs ==>
      (exists i :: 0 <= i < |names| && BadCheckbox(fields, names[i]) && b == CheckboxBug(h, fields, names[i], formId))
    ensures forall i :: 0 <= i < |names| && BadCheckbox(fields, names[i]) ==> CheckboxBug(h, fields, names[i], formId) in bs
  {
    if names == [] then []
    else
      var rest := CheckboxBugs(h, fields, names[1..], formId);
      assert forall i :: 1 <= i < |names| ==> names[1..][i - 1] == names[i];
      (if BadCheckbox(fields, names[0]) then [CheckboxBug(h, fields, names[0], formId)] else []) + rest
  }

  /** `check_checkbox_types`. */
  function CheckCheckboxTypes(h: Host, fields: Fields, formId: string, r: Report): (r': Report)
    ensures Consistent(r) ==> Consistent(r')
    ensures |r.bugs| <= |r'.bugs| <= |r.bugs| + 3
    ensures r'.bugs[..|r.bugs|] == r.bugs && r'.warnings == r.warnings
    ensures forall b :: b in r'.bugs[|r.bugs|..] ==> b.kind == CheckboxTypeError && b.formId == formId
  {
    var bs := CheckboxBugs(h, fields, CheckboxFields, formId);
    assert (r.bugs + bs)[|r.bugs|..] == bs;
    assert (r.bugs + bs)[..|r.bugs|] == r.bugs;
    assert r.warnings + [] == r.warnings;
    Record(r, CheckboxBugs(h, fields, CheckboxFields, formId), [])
  }

  /**
   * The recorded type bugs are exactly those of the checkboxes holding something other
   * than a boolean or None, and no warning is added.
   */
  lemma CheckboxBugsExact(h: Host, fields: Fields, formId: string, r: Report)
    ensures forall i :: 0 <= i < 3 && BadCheckbox(fields, CheckboxFields[i]) ==>
      CheckboxBug(h, fields, CheckboxFields[i], formId) in CheckCheckboxTypes(h, fields, formId, r).bugs[|r.bugs|..]
    ensures forall b :: b in CheckCheckboxTypes(h, fields, formId, r).bugs[|r.bugs|..] ==>
      (exists i :: 0 <= i < 3 && BadCheckbox(fields, CheckboxFields[i]) && b == CheckboxBug(h, fields, CheckboxFields[i], formId))
    ensures CheckCheckboxTypes(h, fields, formId, r).warnings == r.warnings
  {
    assert CheckCheckboxTypes(h, fields, formId, r).bugs[|r.bugs|..] == CheckboxBugs(h, fields, CheckboxFields, formId);
  }

  /** A checkbox holding the string "true" fails the PDF; booleans and missing boxes never do. */
  lemma CheckboxStringFlagged(h: Host, fields: Fields, formId: string, r: Report)
    requires BoxValue(fields, "13_retirement") == JStr("true")
    requires BoxValue(fields, "13_statutory").JBool? && !HasKey(fields, "13_sick_pay")
    ensures |CheckCheckboxTypes(h, fields, formId, r).bugs| == |r.bugs| + 1
    ensures !CheckCheckboxTypes(h, fields, formId, r).passed
  {
    var fs := CheckboxFields;
    assert BoxValue(fields, "13_sick_pay") == JNull;
    assert CheckboxBugs(h, fields, fs[2..], formId) == [] by {
      assert !BadCheckbox(fields, fs[2]);
      assert fs[2..][1..] == [];
    }
    assert |CheckboxBugs(h, fields, fs[1..], formId)| == 1 by {
      assert BadCheckbox(fields, fs[1]);
      assert fs[1..][1..] == fs[2..];
    }
    assert !BadCheckbox(fields, fs[0]);
  }
}
