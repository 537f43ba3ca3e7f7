/**
 * Text-layer page classification: which pages of a PDF start a Schedule K-1
 * (Form 1065), belong to a Schedule K-3, a Form 8805 or a Form 8804, how much of the
 * document is scanned, and how matching pages become page ranges.
 *
 * A document is given as the sequence of its pages' extracted text; page numbers are
 * 1-based.
 */
module PageDetect {
  import opened Text
  import opened PageRanges

  /** A Schedule K-3 page: "Schedule K-3" and no "Schedule K-1". */
  predicate IsK3Page(t: string)
  {
    Contains(t, "Schedule K-3") && !Contains(t, "Schedule K-1")
  }

  /** The first page of a Schedule K-1 (Form 1065): the form header and the Part I heading. */
  predicate IsK1StartPage(t: string)
  {
    Contains(t, "Schedule K-1") && Contains(t, "(Form 1065)")
    && Contains(t, "Part I") && Contains(t, "Information About the Partnership")
  }

  /** Any page of a Schedule K-1 that accompanies a Form 8804. */
  predicate MentionsAny8804(t: string)
  {
    (Contains(t, "Schedule K-1") && Contains(t, "(Form 8804)"))
    || (Contains(t, "Form 8804") && Contains(t, "Annual Return for Partnership Withholding Tax"))
    || (Contains(t, "Form 8804") && Contains(t, "Schedule K-1"))
  }

  predicate HasCopyMarker(t: string)
  {
    Contains(t, "Copy A") || Contains(t, "Copy B") || Contains(t, "Copy C") || Contains(t, "Copy D")
  }

  /** A Form 8805 page: a positive marker and none of the 8804, K-1 (1065) or K-3 markers. */
  predicate Is8805Page(t: string)
  {
    var positive := Contains(t, "Form 8805")
      || Contains(t, "Foreign Partner's Information Statement")
      || (Contains(t, "Section 1446") && Contains(t, "Form 8805"))
      || (HasCopyMarker(t) && Contains(t, "8805"));
    positive && !MentionsAny8804(t)
    && !(Contains(t, "Schedule K-1") && Contains(t, "(Form 1065)"))
    && !Contains(t, "Schedule K-3")
  }

  /**
   * The Part I test of the 8804 detector as written: its second alternative searches
   * the lower-cased text for a needle that begins with a capital letter.
   */
  predicate HasPartIAsWritten(t: string)
  {
    Contains(t, "Part I")
    && (Contains(t, "Partnership") || Contains(Lower(t), "Name of partnership"))
  }

  /** The Part I test with the lower-case needle the second alternative evidently intends. */
  predicate HasPartI(t: string)
  {
    Contains(t, "Part I")
    && (Contains(t, "Partnership") || Contains(Lower(t), "name of partnership"))
  }

  predicate HasPartII(t: string)
  {
    Contains(t, "Part II")
    && (Contains(t, "Withholding Agent") || Contains(Lower(t), "withholding agent"))
  }

  /** The 8805 markers the 8804 detector excludes. */
  predicate Mentions8805(t: string)
  {
    Contains(t, "Form 8805")
    || Contains(t, "Foreign Partner's Information Statement")
    || (Contains(t, "Foreign Partner's Information") && Contains(t, "Form 8805"))
  }

  /** The 8804 decision, given the outcome of its Part I test. */
  predicate Is8804Given(t: string, partI: bool)
  {
    var isStandardK1 := Contains(t, "Schedule K-1") && Contains(t, "(Form 1065)");
    var isSchedule := ((Contains(t, "Schedule K-1") && Contains(t, "(Form 8804)"))
                       || Contains(t, "Partner's Section 1446 Withholding Tax"))
                      && !isStandardK1 && !Mentions8805(t);
    var isMain := (Contains(t, "Form 8804") && !Contains(t, "Schedule K-1"))
                  && (Contains(t, "Annual Return for Partnership Withholding Tax") || (partI && HasPartII(t)))
                  && !Mentions8805(t);
    (isSchedule || isMain) && !Mentions8805(t) && !Contains(t, "Schedule K-3") && !isStandardK1
  }

  /**
   * The 8804 page test exactly as written. A page it accepts never mentions Form 8805
   * or Schedule K-3, and the corrected test accepts it too.
   */
  predicate Is8804PageAsWritten(t: string): (b: bool)
    ensures b ==> !Mentions8805(t) && !Contains(t, "Schedule K-3")
    ensures b ==> Is8804Page(t)
  {
    PartIAlternativeIsDead(t);
    Is8804Given(t, HasPartIAsWritten(t))
  }

  /** The 8804 page test with the corrected Part I check. */
  predicate Is8804Page(t: string)
  {
    Is8804Given(t, HasPartI(t))
  }

  /** The as-written second alternative can never hold, whatever the page says. */
  lemma PartIAlternativeIsDead(t: string)
    ensures HasPartIAsWritten(t) <==> Contains(t, "Part I") && Contains(t, "Partnership")
    ensures !Contains(Lower(t), "Name of partnership")
  {
    LowerNeverContainsUpper(t, "Name of partnership", 0);
  }

  /** The corrected Part I check accepts the partnership-name caption in any capitalisation. */
  lemma PartIAcceptsAnyCase(t: string, caption: string)
    requires Contains(t, "Part I") && Contains(t, caption)
    requires Lower(caption) == "name of partnership"
    ensures HasPartI(t)
  {
    ContainsLower(t, caption);
  }

  /** The correction only adds pages: everything the as-written test accepts is still accepted. */
  lemma CorrectionOnlyAdds(t: string)
    ensures HasPartIAsWritten(t) ==> HasPartI(t)
    ensures Is8804PageAsWritten(t) ==> Is8804Page(t)
  {
    PartIAlternativeIsDead(t);
  }

  /**
   * A main Form 8804 page whose Part I names the partnership only as
   * "Name of partnership" is missed as written and found once corrected.
   */
  lemma MainFormMissedAsWritten(t: string)
    requires Contains(t, "Form 8804") && Contains(t, "Part I") && Contains(t, "Name of partnership")
    requires Contains(t, "Part II") && Contains(t, "Withholding Agent")
    requires !Contains(t, "Partnership") && !Contains(t, "Schedule K-1") && !Contains(t, "Schedule K-3")
    requires !Contains(t, "Form 8805") && !Contains(t, "Foreign Partner's Information Statement")
    requires !Contains(t, "Partner's Section 1446 Withholding Tax")
    requires !Contains(t, "Annual Return for Partnership Withholding Tax")
    ensures !Is8804PageAsWritten(t)
    ensures Is8804Page(t)
  {
    PartIAlternativeIsDead(t);
    PartIAcceptsAnyCase(t, "Name of partnership");
  }

  /** The K-1, K-3, 8805 and 8804 page tests exclude one another, except 8804 against 8805. */
  lemma PageKindsExclusive(t: string)
    ensures !(IsK3Page(t) && IsK1StartPage(t))
    ensures !(Is8805Page(t) && (IsK3Page(t) || IsK1StartPage(t)))
    ensures !(Is8804Page(t) && (IsK3Page(t) || IsK1StartPage(t)))
    ensures Is8804Page(t) ==> !Contains(t, "Form 8805")
    ensures Is8805Page(t) ==> !(Contains(t, "Schedule K-1") && Contains(t, "(Form 8804)"))
  {
  }

  /**
   * The two withholding-form detectors can both claim a page: a partner-statement
   * title together with a copy marker and the number 8805, with no other form name.
   */
  lemma Overlap8804And8805(t: string)
    requires Contains(t, "Partner's Section 1446 Withholding Tax")
    requires Contains(t, "Copy B") && Contains(t, "8805")
    requires !Contains(t, "Form 8805") && !Contains(t, "Foreign Partner's Information Statement")
    requires !Contains(t, "Schedule K-1") && !Contains(t, "Form 8804") && !Contains(t, "Schedule K-3")
    ensures Is8804Page(t) && Is8805Page(t)
  {
  }

  /** Python's `int(x)`: truncation toward zero. */
  function Trunc(x: real): (r: int)
    ensures x >= 0.0 ==> r as real <= x < r as real + 1.0
    ensures x < 0.0 ==> r as real - 1.0 < x <= r as real
  {
    if x >= 0.0 then x.Floor else -((-x).Floor)
  }

  /** `int(total_pages * max_scan_percentage / 100)`: how many leading pages are scanned. */
  function ScanLimit(total: nat, percentage: real): int
  {
    Trunc(total as real * percentage / 100.0)
  }

  /** The whole document is scanned at 100 percent, none of it at 0. */
  lemma ScanLimitBounds(total: nat, percentage: real)
    ensures percentage == 100.0 ==> ScanLimit(total, percentage) == total
    ensures 0.0 <= percentage <= 100.0 ==> 0 <= ScanLimit(total, percentage) <= total
    ensures percentage > 100.0 && total > 0 && total as real * (percentage - 100.0) >= 100.0 ==>
      ScanLimit(total, percentage) > total
  {
    var n := total as real;
    var x := n * percentage / 100.0;
    assert x == n + n * (percentage - 100.0) / 100.0;
    if 0.0 <= percentage <= 100.0 {
      assert n * percentage <= n * 100.0;
    }
  }

  /** The 1-based numbers of the first `limit` pages that `accept` admits, in page order. */
  function MatchingPages(texts: seq<string>, limit: nat, accept: string -> bool): seq<int>
    requires limit <= |texts|
  {
    if limit == 0 then []
    else
      var front := MatchingPages(texts, limit - 1, accept);
      if accept(texts[limit - 1]) then front + [limit] else front
  }

  /** The scan finds exactly the admitted pages among the first `limit`, in increasing order. */
  lemma {:induction false} MatchingPagesFacts(texts: seq<string>, limit: nat, accept: string -> bool)
    requires limit <= |texts|
    ensures StrictlyIncreasing(MatchingPages(texts, limit, accept))
    ensures forall p :: p in MatchingPages(texts, limit, accept) <==> 1 <= p <= limit && accept(texts[p - 1])
    ensures forall k :: 0 <= k < |MatchingPages(texts, limit, accept)| ==> 1 <= MatchingPages(texts, limit, accept)[k] <= limit
  {
    if limit > 0 {
      MatchingPagesFacts(texts, limit - 1, accept);
    }
  }

  /** The range detectors once the number of pages to scan is known. */
  function RangesWithin(texts: seq<string>, limit: int, accept: string -> bool): (r: seq<Range>)
    ensures Proper(r) && Maximal(r) && Separated(r)
    ensures forall p :: p in Expand(r) <==> limit <= |texts| && 1 <= p <= limit && accept(texts[p - 1])
  {
    if limit > |texts| || limit <= 0 then []
    else
      MatchesGrouped(texts, limit, accept);
      Group(MatchingPages(texts, limit, accept))
  }

  lemma MatchesGrouped(texts: seq<string>, limit: nat, accept: string -> bool)
    requires limit <= |texts|
    ensures var r := Group(MatchingPages(texts, limit, accept));
      Proper(r) && Maximal(r) && Separated(r)
      && forall p :: p in Expand(r) <==> 1 <= p <= limit && accept(texts[p - 1])
  {
    MatchingPagesFacts(texts, limit, accept);
    GroupFacts(MatchingPages(texts, limit, accept));
  }

  /**
   * The range detectors: scan the leading pages, keep those `accept` admits and group
   * them. Asking for more pages than the document has raises inside the scan, which
   * the detector reports as no ranges at all.
   */
  function DetectRanges(texts: seq<string>, percentage: real, accept: string -> bool): (r: seq<Range>)
    ensures Proper(r) && Maximal(r) && Separated(r)
    ensures var limit := ScanLimit(|texts|, percentage);
      forall p :: p in Expand(r) <==> limit <= |texts| && 1 <= p <= limit && accept(texts[p - 1])
  {
    RangesWithin(texts, ScanLimit(|texts|, percentage), accept)
  }

  /** Everything the detectors need to know about grouping a forward scan's matches. */
  lemma GroupFacts(pages: seq<int>)
    requires StrictlyIncreasing(pages)
    ensures Proper(Group(pages)) && Maximal(Group(pages)) && Separated(Group(pages))
    ensures Expand(Group(pages)) == pages
  {
    ExpandGroup(pages);
    GroupProper(pages);
    GroupSeparated(pages);
  }

  /** `detect_k3_page_ranges`; the default percentage is 100. */
  function DetectK3PageRanges(texts: seq<string>, percentage: real): (r: seq<Range>)
    ensures Proper(r) && Maximal(r) && Separated(r)
    ensures percentage == 100.0 ==> forall p :: p in Expand(r) <==> 1 <= p <= |texts| && IsK3Page(texts[p - 1])
  {
    ScanLimitBounds(|texts|, percentage);
    DetectRanges(texts, percentage, IsK3Page)
  }

  /** `detect_k3_pages`: the K-3 pages themselves, range by range. */
  function DetectK3Pages(texts: seq<string>, percentage: real): (r: seq<int>)
    ensures percentage == 100.0 ==> forall p :: p in r <==> 1 <= p <= |texts| && IsK3Page(texts[p - 1])
  {
    ScanLimitBounds(|texts|, percentage);
    Expand(DetectK3PageRanges(texts, percentage))
  }

  /** `detect_8805_page_ranges`; the default percentage is 100. */
  function Detect8805PageRanges(texts: seq<string>, percentage: real): (r: seq<Range>)
    ensures Proper(r) && Maximal(r) && Separated(r)
    ensures percentage == 100.0 ==> forall p :: p in Expand(r) <==> 1 <= p <= |texts| && Is8805Page(texts[p - 1])
  {
    ScanLimitBounds(|texts|, percentage);
    DetectRanges(texts, percentage, Is8805Page)
  }

  /** `detect_8804_page_ranges` as written; the default percentage is 100. */
  function Detect8804PageRanges(texts: seq<string>, percentage: real): (r: seq<Range>)
    ensures Proper(r) && Maximal(r) && Separated(r)
    ensures percentage == 100.0 ==> forall p :: p in Expand(r) <==> 1 <= p <= |texts| && Is8804PageAsWritten(texts[p - 1])
  {
    ScanLimitBounds(|texts|, percentage);
    DetectRanges(texts, percentage, Is8804PageAsWritten)
  }

  /** `detect_8804_page_ranges` with the corrected Part I check. */
  function Detect8804PageRangesCorrected(texts: seq<string>, percentage: real): (r: seq<Range>)
    ensures Proper(r) && Maximal(r) && Separated(r)
    ensures percentage == 100.0 ==> forall p :: p in Expand(r) <==> 1 <= p <= |texts| && Is8804Page(texts[p - 1])
  {
    ScanLimitBounds(|texts|, percentage);
    DetectRanges(texts, percentage, Is8804Page)
  }


  function Min(a: int, b: int): int { if a <= b then a else b }
  function Max(a: int, b: int): int { if a >= b then a else b }

  /**
   * What `detect_k1_pages` returns once the number of pages to scan is known, stated
   * without its loop: the matching pages among the scanned ones, cut after `cap` of them
   * when a cap is set (a cap of 0 stands for no cap); when the scan runs past the
   * document before reaching the cap, the detector gives up and returns nothing.
   */
  function K1Scan(texts: seq<string>, limit: int, cap: int): seq<int>
  {
    var n := Max(limit, 0);
    var all := MatchingPages(texts, Min(n, |texts|), IsK1StartPage);
    if cap != 0 && |all| >= Max(cap, 1) then all[..Max(cap, 1)]
    else if n > |texts| then []
    else all
  }

  /** The K-1 start pages found scanning the leading `percentage` of the document. */
  function K1PagesSpec(texts: seq<string>, percentage: real, cap: int): seq<int>
  {
    K1Scan(texts, ScanLimit(|texts|, percentage), cap)
  }

  /** `detect_k1_pages`. */
  method DetectK1Pages(texts: seq<string>, percentage: real, cap: int) returns (pages: seq<int>)
    ensures pages == K1PagesSpec(texts, percentage, cap)
    ensures StrictlyIncreasing(pages)
    ensures forall p :: p in pages ==> 1 <= p <= |texts| && IsK1StartPage(texts[p - 1])
    ensures cap > 0 ==> |pages| <= cap
  {
    pages := ScanK1Pages(texts, ScanLimit(|texts|, percentage), cap);
    K1ScanFacts(texts, ScanLimit(|texts|, percentage), cap);
  }

  /** The loop of `detect_k1_pages`: scan page by page, stop early once `cap` start pages are found. */
  method ScanK1Pages(texts: seq<string>, limit: int, cap: int) returns (pages: seq<int>)
    ensures pages == K1Scan(texts, limit, cap)
  {
    var n := Max(limit, 0);
    pages := [];
    var i := 0;
    while i < n
      invariant 0 <= i <= n
      invariant i <= |texts|
      invariant pages == MatchingPages(texts, i, IsK1StartPage)
      invariant cap != 0 ==> |pages| < Max(cap, 1)
    {
      if i >= |texts| {
        return [];
      }
      if IsK1StartPage(texts[i]) {
        pages := pages + [i + 1];
        if cap != 0 && |pages| >= Max(cap, 1) {
          MatchingPrefix(texts, i + 1, Min(n, |texts|));
          return;
        }
      }
      i := i + 1;
    }
  }

  /** The detector's pages are increasing start pages of the document, at most `cap` of them. */
  lemma K1ScanFacts(texts: seq<string>, limit: int, cap: int)
    ensures StrictlyIncreasing(K1Scan(texts, limit, cap))
    ensures forall p :: p in K1Scan(texts, limit, cap) ==> 1 <= p <= |texts| && IsK1StartPage(texts[p - 1])
    ensures cap > 0 ==> |K1Scan(texts, limit, cap)| <= cap
  {
    var all := MatchingPages(texts, Min(Max(limit, 0), |texts|), IsK1StartPage);
    MatchingPagesFacts(texts, Min(Max(limit, 0), |texts|), IsK1StartPage);
    if cap != 0 && |all| >= Max(cap, 1) {
      var r := all[..Max(cap, 1)];
      forall p | p in r ensures p in all {
        var k :| 0 <= k < |r| && r[k] == p;
        assert all[k] == p;
      }
    }
  }

  /** The matches among fewer pages are a prefix of the matches among more. */
  lemma {:induction false} MatchingPrefix(texts: seq<string>, m: nat, n: nat)
    requires m <= n <= |texts|
    ensures MatchingPages(texts, m, IsK1StartPage) <= MatchingPages(texts, n, IsK1StartPage)
    ensures m == n ==> MatchingPages(texts, m, IsK1StartPage) == MatchingPages(texts, n, IsK1StartPage)
    decreases n - m
  {
    if m < n {
      MatchingPrefix(texts, m, n - 1);
    }
  }
}
