/**
 * The OCR fallback of the per-form extractors: when no vision model is available the
 * page image is run through OCR and a fixed schema is filled from the recognised text
 * by a handful of regular-expression searches.
 *
 * The tax-year search `20[12][0-9]` is modelled exactly. Every other search is an
 * input: `search(pattern)` is the text of the pattern's capture group (the whole
 * match for patterns without one) at its first match in the page text, or `None`.
 * What is done with a match (stripping, cleaning, reading a number, defaults) is
 * modelled.
 */
module OcrFallback {
  import opened Json
  import opened Text
  import opened Boxes

  // ---------------------------------------------------------------- tax year

  /** `20[12][0-9]` matches at position `i`. */
  predicate YearAt(t: string, i: int)
  {
    0 <= i <= |t| - 4 && t[i] == '2' && t[i + 1] == '0'
    && (t[i + 2] == '1' || t[i + 2] == '2') && '0' <= t[i + 3] <= '9'
  }

  function FirstYearFrom(t: string, from: nat): (r: Option<nat>)
    ensures r.Some? ==> from <= r.value && YearAt(t, r.value)
    ensures forall j :: from <= j && (r.None? || j < r.value) ==> !YearAt(t, j)
    decreases |t| - from
  {
    if from + 4 > |t| then None
    else if YearAt(t, from) then Some(from)
    else FirstYearFrom(t, from + 1)
  }

  /** `_extract_year`: the leftmost year-shaped match, else "2024". */
  function ExtractYear(t: string): (r: string)
    ensures |r| == 4
    ensures forall i :: YearAt(t, i) && (forall j :: 0 <= j < i ==> !YearAt(t, j)) ==> r == t[i..i + 4]
    ensures (forall i :: !YearAt(t, i)) ==> r == "2024"
  {
    match FirstYearFrom(t, 0)
    case Some(i) => t[i..i + 4]
    case None => "2024"
  }

  /** A year preceded only by year-free text is the one reported, whatever follows. */
  lemma YearAfterYearFreePrefix(pre: string, y: string, post: string)
    requires |y| == 4 && YearAt(y, 0)
    requires forall j :: 0 <= j < |pre| ==> !YearAt(pre + y, j)
    ensures ExtractYear(pre + y + post) == y
  {
    var t := pre + y + post;
    assert forall m :: 0 <= m < |pre + y| ==> t[m] == (pre + y)[m];
    assert t[|pre|..|pre| + 4] == y;
    assert YearAt(t, |pre|);
    forall j | 0 <= j < |pre|
      ensures !YearAt(t, j)
    {
      assert !YearAt(pre + y, j);
    }
  }

  // ---------------------------------------------------------------- amounts

  predicate AllDigits(s: string)
  {
    forall i :: 0 <= i < |s| ==> IsDigit(s[i])
  }

  function Pow10(n: nat): (r: nat)
    ensures r >= 1
  {
    if n == 0 then 1 else 10 * Pow10(n - 1)
  }

  /** The value of `whole.frac` written in decimal. */
  function PointValue(whole: string, frac: string): real
    requires AllDigits(whole) && AllDigits(frac)
  {
    DigitsValue(whole) as real + DigitsValue(frac) as real / Pow10(|frac|) as real
  }

  /** A value written in decimal digits is never negative. */
  lemma PointValueNonNegative(whole: string, frac: string)
    requires AllDigits(whole) && AllDigits(frac)
    ensures PointValue(whole, frac) >= 0.0
  {
    var scale := Pow10(|frac|) as real;
    assert DigitsValue(frac) as real / scale >= 0.0 by {
      assert scale >= 1.0;
    }
  }

  /** `float(s)` for digits with at most one decimal point and at least one digit. */
  function ParseUnsigned(s: string): (r: Option<real>)
    ensures r.Some? ==> r.value >= 0.0
    ensures r.Some? ==> exists i :: 0 <= i < |s| && IsDigit(s[i])
  {
    if '.' in s then
      var i := FirstIndex(s, '.');
      var whole, frac := s[..i], s[i + 1..];
      if AllDigits(whole) && AllDigits(frac) && |whole| + |frac| > 0 then
        assert |whole| > 0 ==> IsDigit(s[0]);
        assert |whole| == 0 ==> IsDigit(s[i + 1]);
        PointValueNonNegative(whole, frac);
        Some(PointValue(whole, frac))
      else None
    else if |s| > 0 && AllDigits(s) then
      assert IsDigit(s[0]);
      Some(DigitsValue(s) as real)
    else None
  }

  /**
   * `float(s)` on the texts the amount patterns can capture once cleaned: an optional
   * minus sign, digits, at most one decimal point. Anything else is a `ValueError`.
   */
  function ParseDecimal(s: string): (r: Option<real>)
    ensures r.Some? ==> exists i :: 0 <= i < |s| && IsDigit(s[i])
    ensures r.Some? && (s == [] || s[0] != '-') ==> r.value >= 0.0
  {
    if |s| > 0 && s[0] == '-' then
      match ParseUnsigned(s[1..])
      case Some(v) =>
        assert exists i :: 0 <= i < |s[1..]| && IsDigit(s[1..][i]);
        var i :| 0 <= i < |s[1..]| && IsDigit(s[1..][i]);
        assert IsDigit(s[i + 1]);
        Some(-v)
      case None => None
    else ParseUnsigned(s)
  }

  /** Whole numbers written in decimal read back as themselves, with or without a sign. */
  lemma ParseNatString(n: nat)
    ensures ParseDecimal(NatToString(n)) == Some(n as real)
    ensures ParseDecimal("-" + NatToString(n)) == Some(-(n as real))
  {
    var s := NatToString(n);
    assert '.' !in s;
    NatToStringValue(n);
    assert ("-" + s)[0] == '-' && ("-" + s)[1..] == s;
  }

  /** A dollar amount with a fractional part reads back as dollars plus the fraction. */
  lemma ParseDollarsAndFraction(d: nat, f: string)
    requires AllDigits(f)
    ensures ParseDecimal(NatToString(d) + "." + f)
      == Some(d as real + DigitsValue(f) as real / Pow10(|f|) as real)
  {
    var w := NatToString(d);
    var s := w + "." + f;
    assert s[0] == w[0];
    UnsignedDecimal(s);
    ParseUnsignedPoint(w, f);
    NatToStringValue(d);
    WholePointValue(w, f, d);
  }

  /** Text that starts with a digit is read without a sign. */
  lemma UnsignedDecimal(s: string)
    requires s != [] && IsDigit(s[0])
    ensures ParseDecimal(s) == ParseUnsigned(s)
  {
  }

  lemma WholePointValue(w: string, f: string, d: nat)
    requires AllDigits(w) && AllDigits(f) && DigitsValue(w) == d
    ensures PointValue(w, f) == d as real + DigitsValue(f) as real / Pow10(|f|) as real
  {
  }

  /** Digits, a point and digits read as the whole part plus the fraction. */
  lemma ParseUnsignedPoint(w: string, f: string)
    requires AllDigits(w) && AllDigits(f) && w != []
    ensures ParseUnsigned(w + "." + f) == Some(PointValue(w, f))
  {
    var s := w + "." + f;
    PointAfterDigits(w, f);
    var i := FirstIndex(s, '.');
    assert s[..i] == w && s[i + 1..] == f;
  }

  /** In digits, a point and more text, the first point is the one after the digits. */
  lemma PointAfterDigits(w: string, f: string)
    requires AllDigits(w)
    ensures '.' in w + "." + f && FirstIndex(w + "." + f, '.') == |w|
  {
    var s := w + "." + f;
    assert s[..|w|] == w;
    FirstIndexAt(s, '.', |w|);
  }

  /** `match.group(1).replace('$', '').replace(',', '')` read with `float`, when there is a match. */
  function Reading(capture: Option<string>): Option<real>
  {
    if capture.None? then None else ParseDecimal(RemoveChars(capture.value, {'$', ','}))
  }

  /** `vs[i]` is the first reading that succeeded. */
  predicate FirstHit(vs: seq<Option<real>>, i: int)
  {
    0 <= i < |vs| && vs[i].Some? && forall j :: 0 <= j < i ==> vs[j].None?
  }

  /** The first reading that succeeded, 0.00 when none did. */
  function FirstReading(vs: seq<Option<real>>): (r: real)
    ensures (forall i :: 0 <= i < |vs| ==> vs[i].None?) ==> r == 0.0
    ensures forall i :: FirstHit(vs, i) ==> r == vs[i].value
  {
    if vs == [] then 0.0
    else if vs[0].Some? then vs[0].value
    else
      assert forall i :: 1 <= i < |vs| ==> vs[1..][i - 1] == vs[i];
      FirstReading(vs[1..])
  }

  /** What the W-2 and 1099-INT amount patterns add after the caption. */
  const BoxSuffix: string := "[\\s:]*([\\$]?[\\d,]+\\.?\\d*)"

  /**
   * `_extract_box_value` of the W-2 and 1099-INT extractors: the patterns are tried in
   * order and the first capture that reads as a number wins; 0.00 when none does.
   */
  function ExtractBoxValue(search: string -> Option<string>, patterns: seq<string>): (r: real)
    ensures (forall i :: 0 <= i < |patterns| ==> Reading(search(patterns[i] + BoxSuffix)).None?) ==> r == 0.0
    ensures forall i :: FirstHit(Readings(search, patterns), i) ==> r == Reading(search(patterns[i] + BoxSuffix)).value
  {
    FirstReading(Readings(search, patterns))
  }

  /** The reading of each pattern's capture, in pattern order. */
  function Readings(search: string -> Option<string>, patterns: seq<string>): (vs: seq<Option<real>>)
    ensures |vs| == |patterns|
    ensures forall i :: 0 <= i < |patterns| ==> vs[i] == Reading(search(patterns[i] + BoxSuffix))
  {
    seq(|patterns|, i requires 0 <= i < |patterns| => Reading(search(patterns[i] + BoxSuffix)))
  }

  /**
   * A match of the K-1 amount pattern: an optional opening parenthesis, the captured
   * amount, an optional closing parenthesis. The parentheses lie outside the capture
   * group.
   */
  datatype K1Match = K1Match(open: bool, amount: string, close: bool)

  const K1BoxSuffix: string := "[\\s:]*[\\(]?([\\$]?[-]?[\\d,]+\\.?\\d*)[\\)]?"

  /** `.replace('$', '').replace(',', '').replace('(', '-').replace(')', '')`. */
  function K1Clean(s: string): string
  {
    RemoveChars(ReplaceChar(RemoveChars(s, {'$', ','}), '(', '-'), {')'})
  }

  /**
   * As written: only the capture group is cleaned, so the parentheses never reach it
   * and an amount without a minus sign never reads as negative, parentheses or not.
   */
  function K1ReadingAsWritten(m: Option<K1Match>): (r: Option<real>)
    ensures m.Some? && '-' !in m.value.amount && '(' !in m.value.amount && r.Some? ==> r.value >= 0.0
  {
    if m.None? then None
    else if '-' !in m.value.amount && '(' !in m.value.amount then
      K1CleanAddsNoSign(m.value.amount);
      ParseDecimal(K1Clean(m.value.amount))
    else ParseDecimal(K1Clean(m.value.amount))
  }

  /** The matched amount including the parentheses around it. */
  function K1Group(m: K1Match): string
  {
    (if m.open then "(" else "") + m.amount + (if m.close then ")" else "")
  }

  /**
   * Corrected: the parentheses are part of what is cleaned, so `(x)` reads as `-x`;
   * an amount printed without parentheses reads as it did before the correction.
   */
  function K1Reading(m: Option<K1Match>): (r: Option<real>)
    ensures m.Some? && !m.value.open && !m.value.close ==> r == K1ReadingAsWritten(m)
  {
    if m.None? then None
    else
      assert !m.value.open && !m.value.close ==> K1Group(m.value) == m.value.amount;
      ParseDecimal(K1Clean(K1Group(m.value)))
  }

  /** The as-written reading of each pattern's match, in pattern order. */
  function K1ReadingsAsWritten(search: string -> Option<K1Match>, patterns: seq<string>): (vs: seq<Option<real>>)
    ensures |vs| == |patterns|
    ensures forall i :: 0 <= i < |patterns| ==> vs[i] == K1ReadingAsWritten(search(patterns[i] + K1BoxSuffix))
  {
    seq(|patterns|, i requires 0 <= i < |patterns| => K1ReadingAsWritten(search(patterns[i] + K1BoxSuffix)))
  }

  /** The corrected reading of each pattern's match, in pattern order. */
  function K1Readings(search: string -> Option<K1Match>, patterns: seq<string>): (vs: seq<Option<real>>)
    ensures |vs| == |patterns|
    ensures forall i :: 0 <= i < |patterns| ==> vs[i] == K1Reading(search(patterns[i] + K1BoxSuffix))
  {
    seq(|patterns|, i requires 0 <= i < |patterns| => K1Reading(search(patterns[i] + K1BoxSuffix)))
  }

  /** `_extract_box_value` of the K-1 extractor as written. */
  function K1BoxValueAsWritten(search: string -> Option<K1Match>, patterns: seq<string>): (r: real)
    ensures forall i :: FirstHit(K1ReadingsAsWritten(search, patterns), i) ==>
      r == K1ReadingAsWritten(search(patterns[i] + K1BoxSuffix)).value
    ensures (forall i :: 0 <= i < |patterns| ==> K1ReadingAsWritten(search(patterns[i] + K1BoxSuffix)).None?) ==>
      r == 0.0
  {
    FirstReading(K1ReadingsAsWritten(search, patterns))
  }

  /** `_extract_box_value` of the K-1 extractor with parenthesised amounts read as negative. */
  function K1BoxValue(search: string -> Option<K1Match>, patterns: seq<string>): (r: real)
    ensures forall i :: FirstHit(K1Readings(search, patterns), i) ==> r == K1Reading(search(patterns[i] + K1BoxSuffix)).value
    ensures (forall i :: 0 <= i < |patterns| ==> K1Reading(search(patterns[i] + K1BoxSuffix)).None?) ==>
      r == 0.0
  {
    FirstReading(K1Readings(search, patterns))
  }

  lemma K1CleanDigits(s: string)
    requires AllDigits(s)
    ensures K1Clean(s) == s
  {
    RemoveCharsAbsent(s, {'$', ','});
    assert ReplaceChar(s, '(', '-') == s;
    RemoveCharsAbsent(s, {')'});
  }

  lemma RemoveOne(c: char, cs: set<char>)
    ensures RemoveChars([c], cs) == if c in cs then [] else [c]
  {
    assert [c][1..] == [];
  }

  lemma CleanStepKeepsParenthesised(s: string)
    requires AllDigits(s)
    ensures RemoveChars("(" + s + ")", {'$', ','}) == "(" + s + ")"
  {
    var g := "(" + s + ")";
    assert forall i :: 0 <= i < |g| ==> g[i] == '(' || g[i] == ')' || IsDigit(g[i]);
    RemoveCharsAbsent(g, {'$', ','});
  }

  lemma ReplaceStepOpensMinus(s: string)
    requires AllDigits(s)
    ensures ReplaceChar("(" + s + ")", '(', '-') == "-" + s + ")"
  {
    var g := "(" + s + ")";
    var h := "-" + s + ")";
    assert forall i :: 0 <= i < |g| ==> ReplaceChar(g, '(', '-')[i] == h[i];
  }

  lemma RemoveStepDropsClose(s: string)
    requires AllDigits(s)
    ensures RemoveChars("-" + s + ")", {')'}) == "-" + s
  {
    RemoveCharsAppend("-" + s, ")", {')'});
    var m := "-" + s;
    assert forall i :: 0 <= i < |m| ==> m[i] == '-' || IsDigit(m[i]);
    RemoveCharsAbsent(m, {')'});
    RemoveOne(')', {')'});
  }

  /** Cleaning a parenthesised run of digits turns the parentheses into a leading minus sign. */
  lemma K1CleanParenthesised(s: string)
    requires AllDigits(s)
    ensures K1Clean("(" + s + ")") == "-" + s
  {
    CleanStepKeepsParenthesised(s);
    ReplaceStepOpensMinus(s);
    RemoveStepDropsClose(s);
  }

  /**
   * A loss printed in parentheses, `(n)`, is read as +n as written and as -n once
   * the parentheses are cleaned together with the amount.
   */
  lemma K1ParenthesisedLoss(n: nat)
    ensures K1ReadingAsWritten(Some(K1Match(true, NatToString(n), true))) == Some(n as real)
    ensures K1Reading(Some(K1Match(true, NatToString(n), true))) == Some(-(n as real))
  {
    var s := NatToString(n);
    K1CleanDigits(s);
    ParseNatString(n);
    assert K1Group(K1Match(true, s, true)) == "(" + s + ")";
    K1CleanParenthesised(s);
  }

  /** Cleaning text without a minus sign or an opening parenthesis adds no minus sign. */
  lemma K1CleanAddsNoSign(s: string)
    requires '-' !in s && '(' !in s
    ensures '-' !in K1Clean(s)
  {
    var a := RemoveChars(s, {'$', ','});
    RemoveCharsKeeps(s, {'$', ','}, '-');
    RemoveCharsKeeps(s, {'$', ','}, '(');
    var b := ReplaceChar(a, '(', '-');
    assert '-' !in b;
    RemoveCharsKeeps(b, {')'}, '-');
  }

  // ---------------------------------------------------------------- keyword tables

  /**
   * The label of the first table entry whose keyword occurs in the (upper-cased)
   * text, else the default: the shape of the entity-type, partner-type and copy-type
   * extractors.
   */
  /** `table[i]` is the first entry whose keyword occurs in `upper`. */
  predicate FirstListedAt(upper: string, table: seq<(string, string)>, i: int)
  {
    0 <= i < |table| && Contains(upper, table[i].0) && forall j :: 0 <= j < i ==> !Contains(upper, table[j].0)
  }

  function FirstListed(upper: string, table: seq<(string, string)>, default: string): (r: string)
    ensures (forall i :: 0 <= i < |table| ==> !Contains(upper, table[i].0)) ==> r == default
    ensures forall i :: FirstListedAt(upper, table, i) ==> r == table[i].1
    ensures r == default || exists i :: 0 <= i < |table| && Contains(upper, table[i].0) && r == table[i].1
  {
    if table == [] then default
    else if Contains(upper, table[0].0) then table[0].1
    else
      assert forall i :: 1 <= i < |table| ==> table[1..][i - 1] == table[i];
      FirstListed(upper, table[1..], default)
  }

  const K1EntityTypes: seq<(string, string)> := [
    ("INDIVIDUAL", "INDIVIDUAL"), ("CORPORATION", "CORPORATION"), ("ESTATE", "ESTATE"),
    ("TRUST", "TRUST"), ("PARTNERSHIP", "PARTNERSHIP"), ("LLC", "LLC")]

  /**
   * K-1 `_extract_entity_type`: the first listed type found in the upper-cased text, else
   * INDIVIDUAL; any other answer is named on the page.
   */
  function ExtractEntityType(t: string): (r: string)
    ensures r == "INDIVIDUAL" || Contains(Upper(t), r)
  {
    assert forall i :: 0 <= i < |K1EntityTypes| ==> K1EntityTypes[i].0 == K1EntityTypes[i].1;
    FirstListed(Upper(t), K1EntityTypes, "INDIVIDUAL")
  }

  const PartnerTypes: seq<(string, string)> := [
    ("INDIVIDUAL", "INDIVIDUAL"), ("CORPORATION", "CORPORATION"), ("PARTNERSHIP", "PARTNERSHIP"),
    ("TRUST", "TRUST"), ("ESTATE", "ESTATE")]

  /** Form 8805 `_extract_partner_type`: a type named on the page, or the empty string when none is. */
  function ExtractPartnerType(t: string): (r: string)
    ensures r == "" || Contains(Upper(t), r)
  {
    assert forall i :: 0 <= i < |PartnerTypes| ==> PartnerTypes[i].0 == PartnerTypes[i].1;
    FirstListed(Upper(t), PartnerTypes, "")
  }

  const CopyTypes: seq<(string, string)> := [
    ("COPY A", "Copy A - For IRS"), ("COPY B", "Copy B - For Partner"),
    ("COPY C", "Copy C - For Partner"), ("COPY D", "Copy D - For Withholding Agent")]

  /**
   * Form 8805 `_extract_copy_type`: a page naming no copy is taken to be Copy B, and
   * Copy A, C or D is reported only for a page that names it.
   */
  function ExtractCopyType(t: string): (r: string)
    ensures r == "Copy A - For IRS" ==> Contains(Upper(t), "COPY A")
    ensures r == "Copy C - For Partner" ==> Contains(Upper(t), "COPY C")
    ensures r == "Copy D - For Withholding Agent" ==> Contains(Upper(t), "COPY D")
  {
    FirstListed(Upper(t), CopyTypes, "Copy B - For Partner")
  }

  /** The entity type is always one of the six listed. */
  lemma EntityTypeListed(t: string)
    ensures ExtractEntityType(t) in ["INDIVIDUAL", "CORPORATION", "ESTATE", "TRUST", "PARTNERSHIP", "LLC"]
  {
    var r := ExtractEntityType(t);
    if r != "INDIVIDUAL" {
      var i :| 0 <= i < |K1EntityTypes| && r == K1EntityTypes[i].1;
      assert i == 0 || i == 1 || i == 2 || i == 3 || i == 4 || i == 5;
    }
  }

  /**
   * The 8805 partner type is empty exactly when the page names none of the five types;
   * otherwise it is one of them, and a page naming an individual is an individual's.
   */
  lemma PartnerTypeListed(t: string)
    ensures ExtractPartnerType(t) in ["", "INDIVIDUAL", "CORPORATION", "PARTNERSHIP", "TRUST", "ESTATE"]
    ensures ExtractPartnerType(t) == "" <==>
      forall i :: 0 <= i < |PartnerTypes| ==> !Contains(Upper(t), PartnerTypes[i].0)
    ensures Contains(Upper(t), "INDIVIDUAL") ==> ExtractPartnerType(t) == "INDIVIDUAL"
  {
    var u := Upper(t);
    assert PartnerTypes[0].0 == "INDIVIDUAL";
    assert forall k :: 0 <= k < |PartnerTypes| ==> PartnerTypes[k].1 != "";
    forall i | 0 <= i < |PartnerTypes| && Contains(u, PartnerTypes[i].0) ensures ExtractPartnerType(t) != "" {
      FirstListedHit(u, PartnerTypes, "", i);
    }
  }

  /** A keyword found at entry `i` means the answer comes from entry `i` or an earlier one. */
  lemma {:induction false} FirstListedHit(upper: string, table: seq<(string, string)>, default: string, i: int)
    requires 0 <= i < |table| && Contains(upper, table[i].0)
    ensures exists k :: 0 <= k <= i && FirstListed(upper, table, default) == table[k].1
  {
    if !Contains(upper, table[0].0) {
      FirstListedHit(upper, table[1..], default, i - 1);
      var k :| 0 <= k <= i - 1 && FirstListed(upper, table[1..], default) == table[1..][k].1;
      assert table[1..][k] == table[k + 1];
    }
  }

  /** Copy A outranks the other copies; with no copy named the result is Copy B. */
  lemma CopyTypePriority(t: string)
    ensures Contains(Upper(t), "COPY A") ==> ExtractCopyType(t) == "Copy A - For IRS"
    ensures !Contains(Upper(t), "COPY A") && !Contains(Upper(t), "COPY C") && !Contains(Upper(t), "COPY D")
      ==> ExtractCopyType(t) == "Copy B - For Partner"
  {
    assert CopyTypes[0].0 == "COPY A" && CopyTypes[1].0 == "COPY B";
    assert CopyTypes[2].0 == "COPY C" && CopyTypes[3].0 == "COPY D";
  }

  /**
   * A page the 8805 detector admits on its "Copy C" marker, and that names neither
   * Copy A nor Copy B in any capitalisation, is labelled Copy C.
   */
  lemma CopyMarkerGivesCopyType(t: string)
    requires Contains(t, "Copy C")
    requires !Contains(Upper(t), "COPY A") && !Contains(Upper(t), "COPY B")
    ensures ExtractCopyType(t) == "Copy C - For Partner"
  {
    ContainsUpper(t, "Copy C");
    assert Upper("Copy C") == "COPY C";
    assert CopyTypes[0].0 == "COPY A" && CopyTypes[1].0 == "COPY B" && CopyTypes[2].0 == "COPY C";
  }

  // ---------------------------------------------------------------- fallback schemas

  const SsnPattern: string := "\\d{3}[-\\s]?\\d{2}[-\\s]?\\d{4}"
  const EinPattern: string := "\\d{2}[-\\s]?\\d{7}"
  const MaskedTinPattern: string := "XXX[-\\s]?XX[-\\s]?\\d{4}|\\d{3}[-\\s]?\\d{2}[-\\s]?\\d{4}"
  const PartnerNamePattern: string := "partner['\"]?s?\\s*name[:\\s]+([^\\n]+)"
  const PartnershipNamePattern: string := "partnership['\"]?s?\\s*name[:\\s]+([^\\n]+)"
  const PayerPattern: string := "PAYER'S.*?name.*?[:]\\s*(.+?)(?:\\n|$)"
  const RecipientPattern: string := "RECIPIENT'S.*?name.*?[:]\\s*(.+?)(?:\\n|$)"
  const AccountPattern: string := "account.*?[:]\\s*(\\S+)"
  const RtnPattern: string := "\\b\\d{9}\\b"

  /** `match.group(..) if match else ""`. */
  function Found(m: Option<string>): string
  {
    m.GetOr("")
  }

  /** `match.group(1).strip() if match else ""`. */
  function FoundStripped(m: Option<string>): string
  {
    Strip(m.GetOr(""))
  }

  function Zero(): Json { JNum(0.0) }

  function W2IdentificationRows(search: string -> Option<string>): seq<Row>
  {
    [Row("a", "Employee's SSA number", JStr(Found(search(SsnPattern)))),
     Row("b", "Employer's FED ID number", JStr(Found(search(EinPattern)))),
     Row("c", "Employer's name and address", JStr("")),
     Row("d", "Control number", JStr("")),
     Row("e/f", "Employee's name and address", JStr(""))]
  }

  function W2FederalRows(box1: real, box2: real): seq<Row>
  {
    [Row("1", "Wages, tips, other comp.", JNum(box1)),
     Row("2", "Federal income tax withheld", JNum(box2)),
     Row("3", "Social security wages", Zero()),
     Row("4", "Social security tax withheld", Zero()),
     Row("5", "Medicare wages and tips", Zero()),
     Row("6", "Medicare tax withheld", Zero()),
     Row("7", "Social security tips", Zero()),
     Row("8", "Allocated tips", Zero()),
     Row("10", "Dependent care benefits", Zero()),
     Row("11", "Nonqualified plans", Zero())]
  }

  const W2SupplementalRows: seq<Row> := [
    Row("12a", "", JNull), Row("12b", "", JNull), Row("12c", "", JNull), Row("12d", "", JNull),
    Row("13", "Retirement plan", JBool(false)), Row("14", "Other", JNull)]

  const W2StateRows: seq<Row> := [
    Row("15", "State / Employer ID", JNull),
    Row("16", "State wages, tips, etc.", JNum(0.0)),
    Row("17", "State income tax", JNum(0.0)),
    Row("18", "Local wages, tips, etc.", JNum(0.0)),
    Row("19", "Local income tax", JNum(0.0)),
    Row("20", "Locality name", JNull)]

  const W2IdentificationCodes: seq<string> := ["a", "b", "c", "d", "e/f"]
  const W2FederalCodes: seq<string> := ["1", "2", "3", "4", "5", "6", "7", "8", "10", "11"]
  const W2SupplementalCodes: seq<string> := ["12a", "12b", "12c", "12d", "13", "14"]
  const W2StateCodes: seq<string> := ["15", "16", "17", "18", "19", "20"]

  /** The W-2 OCR dictionary around a header, the identification rows and the federal rows. */
  function W2Document(header: Json, idRows: seq<Row>, fedRows: seq<Row>): Json
  {
    JObj([("forms", JArr([Form(header,
      [PlaneBox("identification_plane", idRows),
       PlaneBox("federal_tax_plane", fedRows),
       JObj([("boxes", JArr([PlaneBox("supplemental_plane", W2SupplementalRows)]))]),
       PlaneBox("state_local_plane", W2StateRows)])]))])
  }

  /**
   * The W-2 OCR layout: `doc["forms"]` holds one form whose four plane boxes carry the
   * identification, federal and state planes with their codes, the supplemental plane
   * sitting one level deeper in the third.
   */
  predicate W2Laid(doc: Json)
  {
    match Get(doc, "forms")
    case Some(JArr(forms)) =>
      && |forms| == 1
      && var boxes := PlaneBoxes(forms[0]);
      && |boxes| == 4
      && PlanesCarry([boxes[0], boxes[1], boxes[3]], ["identification_plane", "federal_tax_plane", "state_local_plane"],
                     [W2IdentificationCodes, W2FederalCodes, W2StateCodes])
      && PlanesCarry(PlaneBoxes(boxes[2]), ["supplemental_plane"], [W2SupplementalCodes])
    case _ => false
  }

  lemma W2DocumentLaid(header: Json, idRows: seq<Row>, fedRows: seq<Row>)
    requires Codes(idRows) == W2IdentificationCodes && Codes(fedRows) == W2FederalCodes
    ensures W2Laid(W2Document(header, idRows, fedRows))
  {
    var sup := PlaneBox("supplemental_plane", W2SupplementalRows);
    var planes := [PlaneBox("identification_plane", idRows), PlaneBox("federal_tax_plane", fedRows),
                   JObj([("boxes", JArr([sup]))]), PlaneBox("state_local_plane", W2StateRows)];
    FormParts(header, planes);
    GroupReadsBack([sup]);
    PlaneBoxReadsBack("identification_plane", idRows);
    PlaneBoxReadsBack("federal_tax_plane", fedRows);
    PlaneBoxReadsBack("supplemental_plane", W2SupplementalRows);
    PlaneBoxReadsBack("state_local_plane", W2StateRows);
    W2FixedPlanesComplete();
    assert Get(W2Document(header, idRows, fedRows), "forms") == Some(JArr([Form(header, planes)]));
  }

  /**
   * W-2 `_parse_w2_text`: a dictionary holding one form that carries every plane and
   * code of the W-2 OCR layout, whatever the page said.
   */
  function W2Fallback(text: string, search: string -> Option<string>): (r: Json)
    ensures W2Laid(r)
  {
    var box1 := ExtractBoxValue(search, ["wages", "box 1", "1\\s+"]);
    var box2 := ExtractBoxValue(search, ["federal", "box 2", "2\\s+"]);
    W2FallbackComplete(search, box1, box2);
    W2DocumentLaid(Header("W-2", ExtractYear(text), "Wage and Tax Statement", []),
                   W2IdentificationRows(search), W2FederalRows(box1, box2));
    W2Document(Header("W-2", ExtractYear(text), "Wage and Tax Statement", []),
               W2IdentificationRows(search), W2FederalRows(box1, box2))
  }

  /** Every code of the W-2 schema is present whatever the page said, and the untouched amounts are zero. */
  lemma W2FallbackComplete(search: string -> Option<string>, box1: real, box2: real)
    ensures Codes(W2IdentificationRows(search)) == W2IdentificationCodes
    ensures Codes(W2FederalRows(box1, box2)) == W2FederalCodes
    ensures forall i :: 2 <= i < 10 ==> W2FederalRows(box1, box2)[i].value == JNum(0.0)
  {
  }

  /** The supplemental and state planes of the W-2 OCR form, never read from the page. */
  lemma W2FixedPlanesComplete()
    ensures Codes(W2SupplementalRows) == W2SupplementalCodes
    ensures Codes(W2StateRows) == W2StateCodes
  {
  }

  /** The identification plane, given the texts the searches found. */
  function Int1099IdentificationRows(payer: string, payerTin: string, recipientTin: string,
                                     recipient: string, account: string, rtn: string): seq<Row>
  {
    [Row("Payer", "Payer's name and address", JStr(payer)),
     Row("Payer TIN", "Payer's TIN", JStr(payerTin)),
     Row("Recipient TIN", "Recipient's TIN", JStr(recipientTin)),
     Row("Recipient Name", "Recipient's name and address", JStr(recipient)),
     Row("Account No", "Account number", JStr(account)),
     Row("Payer RTN", "Payer's RTN", JStr(rtn))]
  }

  /** The captions each read amount of the financial plane is searched under. */
  const Int1099Captions: seq<seq<string>> := [
    ["interest income", "box 1"], ["early withdrawal", "box 2"], ["savings bonds", "treasury", "box 3"],
    ["federal", "tax withheld", "box 4"], ["investment expenses", "box 5"]]

  /** The amount read for the k-th caption list of the financial plane. */
  function Int1099Amount(amount: seq<string> -> real, k: nat): Json
    requires k < |Int1099Captions|
  {
    JNum(amount(Int1099Captions[k]))
  }

  /** The financial plane, given how an amount is read for a list of captions. */
  function Int1099FinancialRows(amount: seq<string> -> real): seq<Row>
  {
    [Row("1", "Interest income", Int1099Amount(amount, 0)),
     Row("2", "Early withdrawal penalty", Int1099Amount(amount, 1)),
     Row("3", "Interest on U.S. Savings Bonds and Treasury obligations", Int1099Amount(amount, 2)),
     Row("4", "Federal income tax withheld", Int1099Amount(amount, 3)),
     Row("5", "Investment expenses", Int1099Amount(amount, 4)),
     Row("6", "Foreign tax paid", JNull),
     Row("8", "Tax-exempt interest", JNull),
     Row("9", "Specified private activity bond interest", JNull),
     Row("10", "Market discount", JNull),
     Row("11", "Bond premium", JNull)]
  }


  const Int1099StateRows: seq<Row> := [
    Row("15", "State", JNull), Row("16", "State identification no.", JNull),
    Row("17", "State tax withheld", JNum(0.0))]

  const Int1099PlaneNames: seq<string> := ["identification_plane", "financial_plane", "state_local_plane"]
  const Int1099IdentificationCodes: seq<string> :=
    ["Payer", "Payer TIN", "Recipient TIN", "Recipient Name", "Account No", "Payer RTN"]
  const Int1099FinancialCodes: seq<string> := ["1", "2", "3", "4", "5", "6", "8", "9", "10", "11"]
  const Int1099StateCodes: seq<string> := ["15", "16", "17"]

  /** The box codes of the 1099-INT OCR form, plane by plane. */
  const Int1099PlaneCodes: seq<seq<string>> := [Int1099IdentificationCodes, Int1099FinancialCodes, Int1099StateCodes]

  /** The 1099-INT OCR document around a header, the identification rows and the amounts read. */
  function Int1099Document(header: Json, idRows: seq<Row>, amount: seq<string> -> real): Json
  {
    JArr([JObj([("forms", JArr([Form(header,
      PlaneBoxesOf(Int1099PlaneNames, [idRows, Int1099FinancialRows(amount), Int1099StateRows]))]))])])
  }

  lemma Int1099Laid(header: Json, idRows: seq<Row>, amount: seq<string> -> real)
    requires Codes(idRows) == Int1099IdentificationCodes
    ensures OneFormLaid(Int1099Document(header, idRows, amount), Int1099PlaneNames, Int1099PlaneCodes)
  {
    Int1099AmountsComplete(amount);
    Int1099StateComplete();
    ThreePlanesLaid(header, Int1099PlaneNames, idRows, Int1099FinancialRows(amount), Int1099StateRows,
                    Int1099IdentificationCodes, Int1099FinancialCodes, Int1099StateCodes);
  }

  /**
   * 1099-INT `_parse_1099int_text`: a one-element list around the `forms` dictionary,
   * holding one form that carries the 1099-INT planes and every code of each, whatever
   * the page said.
   */
  function Int1099Fallback(text: string, search: string -> Option<string>): (r: Json)
    ensures OneFormLaid(r, Int1099PlaneNames, Int1099PlaneCodes)
  {
    var idRows := Int1099IdentificationRows(
      FoundStripped(search(PayerPattern)), Found(search(EinPattern)), Found(search(MaskedTinPattern)),
      FoundStripped(search(RecipientPattern)), Found(search(AccountPattern)), Found(search(RtnPattern)));
    var header := Header("1099-INT", ExtractYear(text), "Interest Income",
                         ["Copy B", "For Recipient", "OMB No. 1545-0112",
                          "Department of the Treasury - Internal Revenue Service"]);
    Int1099IdentificationComplete(
      FoundStripped(search(PayerPattern)), Found(search(EinPattern)), Found(search(MaskedTinPattern)),
      FoundStripped(search(RecipientPattern)), Found(search(AccountPattern)), Found(search(RtnPattern)));
    Int1099Laid(header, idRows, ps => ExtractBoxValue(search, ps));
    Int1099Document(header, idRows, ps => ExtractBoxValue(search, ps))
  }

  /** The 1099-INT identification codes, whatever the page said. */
  lemma Int1099IdentificationComplete(payer: string, payerTin: string, recipientTin: string,
                                      recipient: string, account: string, rtn: string)
    ensures Codes(Int1099IdentificationRows(payer, payerTin, recipientTin, recipient, account, rtn))
      == Int1099IdentificationCodes
  {
  }

  /** The 1099-INT financial codes, whatever amounts were read. */
  lemma Int1099AmountsComplete(amount: seq<string> -> real)
    ensures Codes(Int1099FinancialRows(amount)) == Int1099FinancialCodes
  {
  }

  /** The 1099-INT state codes, and box 17's 0.00 default. */
  lemma Int1099StateComplete()
    ensures Codes(Int1099StateRows) == Int1099StateCodes
    ensures Int1099StateRows[2].value == JNum(0.0)
  {
  }

  /** The identification plane, given the texts the searches found and the entity type. */
  function K1IdentificationRows(tin: string, partner: string, entity: string, ein: string,
                                partnership: string): seq<Row>
  {
    [Row("E", "Partner's SSN or TIN", JStr(tin)),
     Row("F", "Partner's name", JStr(partner)),
     Row("I1", "Entity Type", JStr(entity)),
     Row("A", "Partnership's EIN", JStr(ein)),
     Row("B", "Partnership's name", JStr(partnership))]
  }

  /** The caption and box name each read amount of the federal plane is searched under. */
  const K1FederalCaptions: seq<(string, string)> := [
    ("ordinary business", "box 1"), ("rental real estate", "box 2"), ("other rental", "box 3"),
    ("guaranteed payments", "box 4"), ("interest income", "box 5"), ("ordinary dividends", "box 6a"),
    ("qualified dividends", "box 6b"), ("royalties", "box 7"), ("short-term capital", "box 8"),
    ("long-term capital", "box 9a"), ("section 1231", "box 10"), ("section 179", "box 12"),
    ("current year", "net income")]

  /** The amount read for the k-th caption of the federal plane. */
  function K1Amount(amount: (string, string) -> real, k: nat): Json
    requires k < |K1FederalCaptions|
  {
    JNum(amount(K1FederalCaptions[k].0, K1FederalCaptions[k].1))
  }

  /** The federal plane, given how an amount is read for a caption and a box name. */
  function K1FederalRows(amount: (string, string) -> real): seq<Row>
  {
    [Row("1", "Ordinary business income (loss)", K1Amount(amount, 0)),
     Row("2", "Net rental real estate income (loss)", K1Amount(amount, 1)),
     Row("3", "Other net rental income (loss)", K1Amount(amount, 2)),
     Row("4c", "Total guaranteed payments", K1Amount(amount, 3)),
     Row("5", "Interest income", K1Amount(amount, 4)),
     Row("6a", "Ordinary dividends", K1Amount(amount, 5)),
     Row("6b", "Qualified dividends", K1Amount(amount, 6)),
     Row("7", "Royalties", K1Amount(amount, 7)),
     Row("8", "Net short-term capital gain (loss)", K1Amount(amount, 8)),
     Row("9a", "Net long-term capital gain (loss)", K1Amount(amount, 9)),
     Row("10", "Net section 1231 gain (loss)", K1Amount(amount, 10)),
     Row("11", "Other income (loss)", JNull),
     Row("12", "Section 179 deduction", K1Amount(amount, 11)),
     Row("13", "Other deductions", JNull),
     Row("L_Current", "Current year net income (loss)", K1Amount(amount, 12))]
  }

  const K1InternationalRows: seq<Row> := [
    Row("K-3_PartII_24g", "Total Gross Income (International)", JNull),
    Row("K-3_PartII_55g", "Net Income (Loss) (International)", JNull)]

  /** The plane names of the K-1 OCR form, in order. */
  const K1PlaneNames: seq<string> := ["identification_plane", "federal_tax_plane", "international_tax_plane"]

  const K1IdentificationCodes: seq<string> := ["E", "F", "I1", "A", "B"]
  const K1FederalCodes: seq<string> :=
    ["1", "2", "3", "4c", "5", "6a", "6b", "7", "8", "9a", "10", "11", "12", "13", "L_Current"]
  const K1InternationalCodes: seq<string> := ["K-3_PartII_24g", "K-3_PartII_55g"]

  /** The box codes of the K-1 OCR form, plane by plane. */
  const K1PlaneCodes: seq<seq<string>> := [K1IdentificationCodes, K1FederalCodes, K1InternationalCodes]

  /** The K-1 OCR document around a header, the identification rows and the amounts read. */
  function K1Document(header: Json, idRows: seq<Row>, amount: (string, string) -> real): Json
  {
    JArr([JObj([("forms", JArr([Form(header, PlaneBoxesOf(K1PlaneNames, [idRows, K1FederalRows(amount), K1InternationalRows]))]))])])
  }

  lemma K1Laid(header: Json, idRows: seq<Row>, amount: (string, string) -> real)
    requires Codes(idRows) == K1IdentificationCodes
    ensures OneFormLaid(K1Document(header, idRows, amount), K1PlaneNames, K1PlaneCodes)
  {
    K1FederalComplete(amount);
    K1InternationalComplete();
    ThreePlanesLaid(header, K1PlaneNames, idRows, K1FederalRows(amount), K1InternationalRows,
                    K1IdentificationCodes, K1FederalCodes, K1InternationalCodes);
  }

  /**
   * K-1 `_parse_k1_text`, given how an amount is read for a caption and a box name: one
   * form carrying the K-1 planes and every code of each, whatever the page said.
   */
  function K1FallbackWith(text: string, search: string -> Option<string>, amount: (string, string) -> real): (r: Json)
    ensures OneFormLaid(r, K1PlaneNames, K1PlaneCodes)
  {
    var ein := Found(search(EinPattern));
    var partnership := FoundStripped(search(PartnershipNamePattern));
    var partner := FoundStripped(search(PartnerNamePattern));
    var tin := Found(search(MaskedTinPattern));
    var idRows := K1IdentificationRows(tin, partner, ExtractEntityType(text), ein, partnership);
    var header := Header("1065 (K-1)", ExtractYear(text), "Partner's Share of Income, Deductions, Credits, etc.",
                         ["Partnership EIN: " + ein, "Partnership Name: " + partnership,
                          "Partner Name: " + partner, "Partner TIN: " + tin]);
    K1IdentificationComplete(tin, partner, ExtractEntityType(text), ein, partnership);
    K1Laid(header, idRows, amount);
    K1Document(header, idRows, amount)
  }

  /** K-1 `_parse_k1_text` as written: a parenthesised amount loses its sign. */
  function K1Fallback(text: string, search: string -> Option<string>, amount: string -> Option<K1Match>): (r: Json)
    ensures OneFormLaid(r, K1PlaneNames, K1PlaneCodes)
  {
    K1FallbackWith(text, search, (a, b) => K1BoxValueAsWritten(amount, [a, b]))
  }

  /** K-1 `_parse_k1_text` reading parenthesised amounts as losses. */
  function K1FallbackCorrected(text: string, search: string -> Option<string>, amount: string -> Option<K1Match>): (r: Json)
    ensures OneFormLaid(r, K1PlaneNames, K1PlaneCodes)
  {
    K1FallbackWith(text, search, (a, b) => K1BoxValue(amount, [a, b]))
  }

  /** The K-1 identification codes, whatever the page said. */
  lemma K1IdentificationComplete(tin: string, partner: string, entity: string, ein: string, partnership: string)
    ensures Codes(K1IdentificationRows(tin, partner, entity, ein, partnership)) == K1IdentificationCodes
  {
  }

  /** The K-1 federal codes, whatever amounts were read. */
  lemma K1FederalComplete(amount: (string, string) -> real)
    ensures Codes(K1FederalRows(amount)) == K1FederalCodes
  {
  }

  /** The two international codes the K-1 OCR form leaves empty. */
  lemma K1InternationalComplete()
    ensures Codes(K1InternationalRows) == K1InternationalCodes
    ensures forall i :: 0 <= i < |K1InternationalRows| ==> K1InternationalRows[i].value == JNull
  {
  }

  const Part8804IRows: seq<Row> := [
    Row("1a", "Name of partnership", JStr("")),
    Row("1b", "U.S. employer identification number (EIN)", JStr("")),
    Row("1c", "Address (number, street, and room/suite no.)", JStr("")),
    Row("1d", "City, state, and ZIP code", JStr(""))]

  const Part8804IIRows: seq<Row> := [
    Row("2a", "Name of withholding agent", JStr("")),
    Row("2b", "Withholding agent's U.S. EIN", JStr(""))]

  const Part8804IIIRows: seq<Row> := [
    Row("3a", "Number of foreign partners", JNum(0.0)),
    Row("3b", "Number of Forms 8805 attached", JNum(0.0)),
    Row("4d", "ECTI allocable to corporate partners", JNum(0.0)),
    Row("4e", "Total ECTI allocable to non-corporate partners", JNum(0.0)),
    Row("4h", "Combined non-corporate ECTI", JNum(0.0)),
    Row("4l", "28% rate gain allocable to non-corporate partners", JNum(0.0)),
    Row("4p", "25% rate gain allocable to non-corporate partners", JNum(0.0)),
    Row("4q", "Adjusted net capital gain", JNum(0.0)),
    Row("4r", "Reduction for state and local taxes", JNum(0.0)),
    Row("4s", "Reduction for certified foreign partner-level items", JNum(0.0)),
    Row("4t", "Combine lines 4q, 4r, and 4s", JNum(0.0)),
    Row("5a", "Multiply line 4d by 21%", JNum(0.0)),
    Row("5b", "Multiply line 4h by 37%", JNum(0.0)),
    Row("5c", "Multiply line 4l by 28%", JNum(0.0)),
    Row("5d", "Multiply line 4p by 25%", JNum(0.0)),
    Row("5e", "Multiply line 4t by 20%", JNum(0.0)),
    Row("5f", "Total gross section 1446 tax liability", JNum(0.0))]

  /** One element of a parts-style form: number, label and its cells. */
  function Part(number: string, caption: string, rows: seq<Row>): Json
  {
    JObj([("part_number", JStr(number)), ("label", JStr(caption)), ("fields", JArr(Cells(rows)))])
  }

  /** `j["fields"]`: the cells of a part or of a parts-style form; empty when there are none. */
  function FieldsOf(j: Json): seq<Json>
  {
    match Get(j, "fields")
    case Some(JArr(cells)) => cells
    case _ => []
  }

  /** `j["parts"]`: the parts of a parts-style form; empty when there are none. */
  function PartsOf(j: Json): seq<Json>
  {
    match Get(j, "parts")
    case Some(JArr(parts)) => parts
    case _ => []
  }

  /** The parts built from a table read back as its part numbers and, part by part, its codes. */
  lemma PartsReadBack(ps: seq<(string, string, seq<Row>)>)
    ensures var parts := seq(|ps|, i requires 0 <= i < |ps| => Part(ps[i].0, ps[i].1, ps[i].2));
      forall k :: 0 <= k < |ps| ==>
        Get(parts[k], "part_number") == Some(JStr(ps[k].0)) && CellsCarry(FieldsOf(parts[k]), Codes(ps[k].2))
  {
    forall k | 0 <= k < |ps|
      ensures Get(Part(ps[k].0, ps[k].1, ps[k].2), "part_number") == Some(JStr(ps[k].0))
      ensures CellsCarry(FieldsOf(Part(ps[k].0, ps[k].1, ps[k].2)), Codes(ps[k].2))
    {
      var p := Part(ps[k].0, ps[k].1, ps[k].2);
      assert p.fields[1..][1..][0] == ("fields", JArr(Cells(ps[k].2)));
      assert FieldsOf(p) == Cells(ps[k].2);
      CellsCarryCodes(ps[k].2);
    }
  }

  /** The three parts of the Form 8804 fallback, in order. */
  const Parts8804: seq<(string, string, seq<Row>)> := [
    ("I", "Partnership", Part8804IRows),
    ("II", "Withholding Agent", Part8804IIRows),
    ("III", "Section 1446 Tax Liability and Payments", Part8804IIIRows)]

  /**
   * Form 8804 `_parse_8804_text`: the same empty schema whatever the page says, its parts
   * reading back as the part numbers and codes of the table, in order.
   */
  function Form8804Fallback(): (r: Json)
    ensures |PartsOf(r)| == |Parts8804|
    ensures forall k :: 0 <= k < |Parts8804| ==>
      Get(PartsOf(r)[k], "part_number") == Some(JStr(Parts8804[k].0))
      && CellsCarry(FieldsOf(PartsOf(r)[k]), Codes(Parts8804[k].2))
  {
    PartsReadBack(Parts8804);
    JObj([("form_metadata", JObj([("form_type", JStr("Schedule K-1 (Form 8804)")), ("tax_year", JStr("")),
                                  ("partnership_name", JStr("")), ("partnership_ein", JStr(""))])),
          ("parts", JArr(seq(|Parts8804|, i requires 0 <= i < |Parts8804| =>
             Part(Parts8804[i].0, Parts8804[i].1, Parts8804[i].2))))])
  }

  /** Parts I, II and III in that order, with their fixed codes and zero or empty defaults. */
  lemma Form8804FallbackComplete()
    ensures [Parts8804[0].0, Parts8804[1].0, Parts8804[2].0] == ["I", "II", "III"]
    ensures Codes(Parts8804[0].2) == ["1a", "1b", "1c", "1d"]
    ensures Codes(Parts8804[1].2) == ["2a", "2b"]
    ensures Codes(Parts8804[2].2) == ["3a", "3b", "4d", "4e", "4h", "4l", "4p", "4q", "4r", "4s", "4t",
                                      "5a", "5b", "5c", "5d", "5e", "5f"]
    ensures forall k, i :: 0 <= k < 3 && 0 <= i < |Parts8804[k].2| ==>
      Parts8804[k].2[i].value in {JStr(""), JNum(0.0)}
  {
    assert Codes(Part8804IIIRows) == ["3a", "3b", "4d", "4e", "4h", "4l", "4p", "4q", "4r", "4s", "4t",
                                      "5a", "5b", "5c", "5d", "5e", "5f"];
  }

  /** Fields 1a to 5c of the 8805 OCR form, given what the searches found on the page. */
  function Form8805PartnerRows(name: string, tin: string, partnerType: string, partnership: string, ein: string): seq<Row>
  {
    [Row("1a", "Foreign partner's name", JStr(name)),
     Row("1b", "U.S. identifying number", JStr(tin)),
     Row("1c", "Address (foreign or domestic)", JStr("")),
     Row("2", "Account number assigned by partnership", JStr("")),
     Row("3", "Type of partner", JStr(partnerType)),
     Row("4", "Country code of partner", JStr("")),
     Row("5a", "Name of partnership", JStr(partnership)),
     Row("5b", "U.S. Employer Identification Number (EIN)", JStr(ein)),
     Row("5c", "Address of partnership", JStr(""))]
  }

  /** Fields 6 to 13 of the 8805 OCR form, never read from the page. */
  const Form8805AgentRows: seq<Row> :=
    [Row("6", "Withholding agent's name", JStr("")),
     Row("7", "Withholding agent's U.S. EIN", JStr("")),
     Row("8a", "Check if partnership owns interest in one or more partnerships", JBool(false)),
     Row("8b", "Check if any ECTI is exempt from U.S. tax", JBool(false)),
     Row("9", "Partnership's ECTI allocable to partner", JNum(0.0)),
     Row("10", "Total tax credit allowed to partner under section 1446", JNum(0.0)),
     Row("11a", "Name of beneficiary", JStr("")),
     Row("11b", "U.S. identifying number of beneficiary", JStr("")),
     Row("11c", "Address of beneficiary", JStr("")),
     Row("12", "Amount of ECTI on line 9 included in beneficiary's gross income", JNum(0.0)),
     Row("13", "Amount of tax credit on line 10 beneficiary is entitled to claim", JNum(0.0))]

  function Form8805Rows(text: string, search: string -> Option<string>): seq<Row>
  {
    Form8805PartnerRows(FoundStripped(search(PartnerNamePattern)), Found(search(SsnPattern)), ExtractPartnerType(text),
                        FoundStripped(search(PartnershipNamePattern)), Found(search(EinPattern)))
    + Form8805AgentRows
  }

  /** The 8805 OCR form around a partner name, a copy type and the field cells. */
  function Form8805Document(name: string, copy: string, cells: seq<Json>): Json
  {
    JObj([("partner_name", JStr(name)), ("form_type", JStr("Form 8805")), ("copy_type", JStr(copy)),
          ("fields", JArr(cells))])
  }

  lemma Form8805DocumentReadsBack(name: string, copy: string, cells: seq<Json>)
    ensures Get(Form8805Document(name, copy, cells), "copy_type") == Some(JStr(copy))
    ensures FieldsOf(Form8805Document(name, copy, cells)) == cells
  {
    var fs := Form8805Document(name, copy, cells).fields;
    assert fs[1..][1..][0] == ("copy_type", JStr(copy));
    assert fs[1..][1..][1..][0] == ("fields", JArr(cells));
  }

  /**
   * Form 8805 `_parse_8805_text`: the copy type named on the page and the fields of the
   * schema, their cells reading back as its codes in order.
   */
  function Form8805Fallback(text: string, search: string -> Option<string>): (r: Json)
    ensures Get(r, "copy_type") == Some(JStr(ExtractCopyType(text)))
    ensures CellsCarry(FieldsOf(r), Codes(Form8805Rows(text, search)))
  {
    var cells := Cells(Form8805Rows(text, search));
    CellsCarryCodes(Form8805Rows(text, search));
    Form8805DocumentReadsBack(FoundStripped(search(PartnerNamePattern)), ExtractCopyType(text), cells);
    Form8805Document(FoundStripped(search(PartnerNamePattern)), ExtractCopyType(text), cells)
  }

  /**
   * The 8805 OCR form always lists the twenty fixed fields 1a to 13 in order, whatever the
   * page says: 1a to 5c carry what the searches found, with field 3 the partner type
   * named on the page, and 6 to 13 are empty, unchecked or zero.
   */
  lemma Form8805FallbackComplete(name: string, tin: string, partnerType: string, partnership: string, ein: string)
    ensures Codes(Form8805PartnerRows(name, tin, partnerType, partnership, ein)) ==
      ["1a", "1b", "1c", "2", "3", "4", "5a", "5b", "5c"]
    ensures Form8805PartnerRows(name, tin, partnerType, partnership, ein)[0].value == JStr(name)
    ensures Form8805PartnerRows(name, tin, partnerType, partnership, ein)[4].value == JStr(partnerType)
    ensures Codes(Form8805AgentRows) == ["6", "7", "8a", "8b", "9", "10", "11a", "11b", "11c", "12", "13"]
    ensures forall i :: 0 <= i < |Form8805AgentRows| ==>
      Form8805AgentRows[i].value in {JStr(""), JBool(false), JNum(0.0)}
  {
  }
}
