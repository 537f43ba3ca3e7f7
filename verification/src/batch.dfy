/**
 * The multi-page processors' consolidation of per-page extraction replies: which reply
 * a page contributes, the first-found document metadata shared by the K-1 and K-3
 * processors, the K-1 `batch_extract` that tags every partner record with its page,
 * the Form 8805 and Form 8804 `batch_extract` that keeps one form for a whole page
 * range, and their `process_pdf` that extracts the first page of every detected range.
 * Each page is processed inside its own `try`: an exception abandons the rest of that
 * page but keeps what was already done.
 */
module Batch {
  import opened Json
  import opened Text
  import opened PyOps
  import opened PageRanges
  import opened PageDetect

  /** One `(page_number, image)` pair of a batch, with the extractor's reply for the image. */
  datatype Page = Page(number: nat, reply: Json)

  /** `[p[0] for p in page_images]`. */
  function PageNumbers(pages: seq<Page>): (r: seq<Json>)
    ensures |r| == |pages| && forall i :: 0 <= i < |pages| ==> r[i] == JNum(pages[i].number as real)
  {
    seq(|pages|, i requires 0 <= i < |pages| => JNum(pages[i].number as real))
  }

  /** `str(n)` for any integer. */
  function IntText(n: int): string
  {
    if n >= 0 then NatToString(n) else "-" + NatToString(-n)
  }

  /** `f"{start}-{end}"`. */
  function RangeText(start: int, end: int): string
  {
    IntText(start) + "-" + IntText(end)
  }

  function FirstPage(pages: seq<Page>): nat
  {
    if pages == [] then 1 else pages[0].number
  }

  function LastPage(pages: seq<Page>): nat
  {
    if pages == [] then 1 else pages[|pages| - 1].number
  }

  /** `f"{first_page}-{last_page}"`, where an empty batch counts as page 1 to page 1. */
  function Span(pages: seq<Page>): string
  {
    RangeText(FirstPage(pages), LastPage(pages))
  }

  /** No digit string holds a '-'. */
  lemma NoDashInNumber(n: nat)
    ensures '-' !in NatToString(n)
  {
  }

  /** Splitting a page span at '-' gives back the first and the last page. */
  lemma SpanParts(pages: seq<Page>)
    ensures Split(Span(pages), '-') == [NatToString(FirstPage(pages)), NatToString(LastPage(pages))]
  {
    var a := NatToString(FirstPage(pages));
    var b := NatToString(LastPage(pages));
    NoDashInNumber(FirstPage(pages));
    NoDashInNumber(LastPage(pages));
    SplitTwo(a, b, '-');
  }

  lemma SplitTwo(a: string, b: string, sep: char)
    requires sep !in a && sep !in b
    ensures Split(a + [sep] + b, sep) == [a, b]
  {
    var s := a + [sep] + b;
    assert s[|a|] == sep && s[..|a|] == a;
    FirstIndexAt(s, sep, |a|);
    assert s[|a| + 1..] == b;
    SplitWithout(b, sep);
  }

  lemma SplitWithout(s: string, sep: char)
    requires sep !in s
    ensures Split(s, sep) == [s]
  {
  }

  // ------------------------------------------------------------ the page's reply

  /**
   * The data a page contributes: the first element of a non-empty list, or a dictionary
   * without an "error" key; nothing for error replies, empty lists, other values, or a
   * null first element.
   */
  function PageData(reply: Json): (r: Option<Json>)
    ensures HasError(reply) ==> r.None?
    ensures reply.JObj? && !HasError(reply) ==> r == Some(reply)
    ensures r.Some? ==> !r.value.JNull?
    ensures r.Some? ==> (reply.JObj? || (reply.JArr? && reply.items != [] && r.value == reply.items[0]))
  {
    if reply.JArr? && |reply.items| > 0 then
      (if reply.items[0].JNull? then None else Some(reply.items[0]))
    else if reply.JObj? && !HasKey(reply.fields, "error") then Some(reply)
    else None
  }

  // ------------------------------------------------------------ document metadata

  /** The metadata built when none was found: the form type, tax year 2024, no names. */
  function DefaultMeta(formType: string): Json
  {
    JObj([("form_type", JStr(formType)), ("tax_year", JStr("2024")),
          ("partnership_name", JStr("")), ("partnership_ein", JStr(""))])
  }

  /**
   * The metadata a page's data offers: its "document_metadata" (a null one offers
   * nothing), else one built from flat "partnership_name"/"tax_year" fields; an error
   * where the membership test or the reads raise.
   */
  function OfferedMeta(data: Json, formType: string): (r: Result<Option<Json>>)
    ensures data.JObj? ==> r.Ok?
    ensures ObjHas(data, "document_metadata") ==> r == Ok(if GetOrNull(data, "document_metadata").JNull? then None
                                                          else Some(GetOrNull(data, "document_metadata")))
    ensures (data.JObj? && !ObjHas(data, "document_metadata") && !ObjHas(data, "partnership_name")
             && !ObjHas(data, "tax_year")) ==> r == Ok(None)
  {
    var has :- PyIn("document_metadata", data);
    if has then
      var m :- PyIndex(data, "document_metadata");
      Ok(if m.JNull? then None else Some(m))
    else if Member("partnership_name", data) || Member("tax_year", data) then
      if !data.JObj? then Err(AttributeError)
      else
        Ok(Some(JObj([("form_type", Field(data, "form_type", JStr(formType))),
                      ("tax_year", Field(data, "tax_year", JStr("2024"))),
                      ("partnership_name", Field(data, "partnership_name", JStr(""))),
                      ("partnership_ein", Field(data, "partnership_ein", JStr("")))])))
    else Ok(None)
  }

  /** `if document_metadata is None: ...`: metadata once found is kept. */
  function MetaStep(meta: Option<Json>, data: Json, formType: string): (r: Result<Option<Json>>)
    ensures meta.Some? ==> r == Ok(meta)
  {
    if meta.Some? then Ok(meta) else OfferedMeta(data, formType)
  }

  /** The metadata a page would supply to a batch that has none yet. */
  function Offer(p: Page, formType: string): Option<Json>
  {
    match PageData(p.reply)
    case None => None
    case Some(data) =>
      match OfferedMeta(data, formType)
      case Ok(m) => m
      case Err(_) => None
  }

  /** The first metadata that any page offers, in page order. */
  function FirstOffer(pages: seq<Page>, formType: string): (r: Option<Json>)
    ensures r.Some? ==> exists i :: 0 <= i < |pages| && Offer(pages[i], formType) == r
    ensures r.None? <==> forall i :: 0 <= i < |pages| ==> Offer(pages[i], formType).None?
  {
    if pages == [] then None
    else if Offer(pages[0], formType).Some? then Offer(pages[0], formType)
    else
      var r := FirstOffer(pages[1..], formType);
      assert forall i :: 1 <= i < |pages| ==> pages[i] == pages[1..][i - 1];
      r
  }

  // ------------------------------------------------------------ K-1

  const K1FormType: string := "Schedule K-1 (Form 1065)"

  /**
   * The partner records of a page: its "partner_records" (whose `len` and iteration
   * raise on anything but a list, dictionary or string), or the page itself when it
   * carries a Part I, II or III plane at top level, or none.
   */
  function PageRecords(data: Json): (r: Result<seq<Json>>)
    ensures ObjHas(data, "partner_records") && GetOrNull(data, "partner_records").JArr? ==>
      r == Ok(GetOrNull(data, "partner_records").items)
    ensures data.JObj? && !ObjHas(data, "partner_records") ==>
      r == Ok(if ObjHas(data, "part_i_partnership_plane") || ObjHas(data, "part_ii_partner_plane")
                 || ObjHas(data, "part_iii_income_loss_plane") then [data] else [])
  {
    var has :- PyIn("partner_records", data);
    if has then
      var prs :- PyIndex(data, "partner_records");
      PyIter(prs)
    else if Member("part_i_partnership_plane", data) || Member("part_ii_partner_plane", data)
            || Member("part_iii_income_loss_plane", data) then Ok([data])
    else Ok([])
  }

  /** `partner["page_reference"] = page_num` on each record, up to the first that is not a dictionary. */
  function Tagged(partners: seq<Json>, page: nat): (r: seq<Json>)
    ensures |r| <= |partners|
    ensures (forall i :: 0 <= i < |partners| ==> partners[i].JObj?) ==> |r| == |partners|
    ensures forall i :: 0 <= i < |r| ==>
      (partners[i].JObj? && r[i] == JObj(Put(partners[i].fields, "page_reference", JNum(page as real))))
  {
    if partners == [] || !partners[0].JObj? then []
    else
      var rest := Tagged(partners[1..], page);
      var r := [JObj(Put(partners[0].fields, "page_reference", JNum(page as real)))] + rest;
      assert forall i :: 1 <= i < |r| ==> partners[i] == partners[1..][i - 1] && r[i] == rest[i - 1];
      r
  }

  /** Every tagged record reads back the page it came from. */
  lemma TaggedPage(partners: seq<Json>, page: nat, i: int)
    requires 0 <= i < |Tagged(partners, page)|
    ensures Get(Tagged(partners, page)[i], "page_reference") == Some(JNum(page as real))
  {
    PutLookup(partners[i].fields, "page_reference", JNum(page as real), "page_reference");
  }

  /** What the K-1 loop has gathered so far. */
  datatype K1State = K1State(meta: Option<Json>, records: seq<Json>)

  /**
   * The records a page adds to the batch, given whether metadata was already found
   * (then the metadata read, which may raise, is skipped).
   */
  function K1Records(p: Page, found: bool): seq<Json>
  {
    match PageData(p.reply)
    case None => []
    case Some(data) =>
      if !found && OfferedMeta(data, K1FormType).Err? then []
      else
        match PageRecords(data)
        case Err(_) => []
        case Ok(ps) => Tagged(ps, p.number)
  }

  /** One iteration of the K-1 page loop. */
  function K1Step(st: K1State, p: Page): (r: K1State)
    ensures PageData(p.reply).None? ==> r == st
  {
    match PageData(p.reply)
    case None => st
    case Some(data) =>
      match MetaStep(st.meta, data, K1FormType)
      case Err(_) => st
      case Ok(meta) =>
        match PageRecords(data)
        case Err(_) => st.(meta := meta)
        case Ok(ps) => K1State(meta, st.records + Tagged(ps, p.number))
  }

  function K1Run(st: K1State, pages: seq<Page>): K1State
    decreases |pages|
  {
    if pages == [] then st else K1Run(K1Step(st, pages[0]), pages[1..])
  }

  /** `MultiPageK1Processor.batch_extract` given each page's reply. */
  function K1BatchExtract(pages: seq<Page>): (r: Json)
    ensures r.JArr? && |r.items| == 1
    ensures Get(r.items[0], "document_metadata") == Some(FirstOffer(pages, K1FormType).GetOr(DefaultMeta(K1FormType)))
    ensures Get(r.items[0], "partner_records") == Some(JArr(Contributions(pages, false)))
  {
    var st := K1Run(K1State(None, []), pages);
    K1RunSpec(K1State(None, []), pages);
    assert [] + Contributions(pages, false) == Contributions(pages, false);
    LookupFirst([("document_metadata", st.meta.GetOr(DefaultMeta(K1FormType))), ("partner_records", JArr(st.records))], 1);
    JArr([JObj([("document_metadata", st.meta.GetOr(DefaultMeta(K1FormType))),
                ("partner_records", JArr(st.records))])])
  }

  /**
   * The records of successive pages, in page order: `records(p, found)` is what page `p`
   * adds and `next(p, found)` whether metadata has been found after it.
   */
  function Gather(pages: seq<Page>, found: bool, records: (Page, bool) -> seq<Json>, next: (Page, bool) -> bool): seq<Json>
  {
    if pages == [] then [] else records(pages[0], found) + Gather(pages[1..], next(pages[0], found), records, next)
  }

  /** Whether metadata has been found once page `p` is done. */
  function FoundAfter(p: Page, found: bool): bool
  {
    found || Offer(p, K1FormType).Some?
  }

  /** Everything the pages contribute, in page order. */
  function Contributions(pages: seq<Page>, found: bool): seq<Json>
  {
    Gather(pages, found, K1Records, FoundAfter)
  }

  lemma K1StepRecords(st: K1State, p: Page)
    ensures K1Step(st, p).records == st.records + K1Records(p, st.meta.Some?)
  {
  }

  lemma K1StepMeta(st: K1State, p: Page)
    ensures K1Step(st, p).meta == (if st.meta.Some? then st.meta else Offer(p, K1FormType))
  {
  }

  /** The metadata is the first any page offers, and the records are the pages' contributions in order. */
  lemma K1RunSpec(st: K1State, pages: seq<Page>)
    ensures K1Run(st, pages).meta == (if st.meta.Some? then st.meta else FirstOffer(pages, K1FormType))
    ensures K1Run(st, pages).records == st.records + Contributions(pages, st.meta.Some?)
  {
    K1RunMeta(st, pages);
    K1RunRecords(st, pages);
  }

  lemma {:induction false} K1RunMeta(st: K1State, pages: seq<Page>)
    ensures K1Run(st, pages).meta == (if st.meta.Some? then st.meta else FirstOffer(pages, K1FormType))
    decreases |pages|
  {
    if pages != [] {
      var st' := K1Step(st, pages[0]);
      K1StepMeta(st, pages[0]);
      K1RunMeta(st', pages[1..]);
      FirstOfferCons(pages, K1FormType);
    }
  }

  lemma FirstOfferCons(pages: seq<Page>, formType: string)
    requires pages != []
    ensures FirstOffer(pages, formType)
      == if Offer(pages[0], formType).Some? then Offer(pages[0], formType) else FirstOffer(pages[1..], formType)
  {
  }

  lemma {:induction false} K1RunRecords(st: K1State, pages: seq<Page>)
    ensures K1Run(st, pages).records == st.records + Contributions(pages, st.meta.Some?)
    decreases |pages|
  {
    if pages != [] {
      var p := pages[0];
      var st' := K1Step(st, p);
      K1StepRecords(st, p);
      K1StepMeta(st, p);
      K1RunRecords(st', pages[1..]);
      GatherCons(pages, st.meta.Some?, K1Records, FoundAfter);
      Regroup(st.records, K1Records(p, st.meta.Some?), Contributions(pages[1..], FoundAfter(p, st.meta.Some?)));
    }
  }

  lemma GatherCons(pages: seq<Page>, found: bool, records: (Page, bool) -> seq<Json>, next: (Page, bool) -> bool)
    requires pages != []
    ensures Gather(pages, found, records, next)
      == records(pages[0], found) + Gather(pages[1..], next(pages[0], found), records, next)
  {
  }

  lemma K1RecordsPage(p: Page, found: bool, i: int)
    requires 0 <= i < |K1Records(p, found)|
    ensures Get(K1Records(p, found)[i], "page_reference") == Some(JNum(p.number as real))
  {
    var data := PageData(p.reply).value;
    var ps := PageRecords(data).value;
    TaggedPage(ps, p.number, i);
  }

  /** The page reference a record carries, as a number. */
  function PageOf(record: Json): real
  {
    match Get(record, "page_reference")
    case Some(JNum(n)) => n
    case _ => 0.0
  }

  predicate Ascending(pages: seq<Page>)
  {
    forall i, j :: 0 <= i < j < |pages| ==> pages[i].number < pages[j].number
  }

  /** Every record a page adds carries that page's number. */
  ghost predicate StampsPage(records: (Page, bool) -> seq<Json>)
  {
    forall p: Page, found: bool, i :: 0 <= i < |records(p, found)| ==> PageOf(records(p, found)[i]) == p.number as real
  }

  /** Pages given in ascending order give records whose page references never go down. */
  lemma {:induction false} GatherOrdered(pages: seq<Page>, found: bool, records: (Page, bool) -> seq<Json>, next: (Page, bool) -> bool)
    requires Ascending(pages) && StampsPage(records)
    ensures PagesAscend(Gather(pages, found, records, next))
    ensures pages != [] ==> AllFrom(Gather(pages, found, records, next), pages[0].number as real)
  {
    if pages != [] {
      var found' := next(pages[0], found);
      var lo := pages[0].number as real;
      var head := records(pages[0], found);
      var tail := Gather(pages[1..], found', records, next);
      GatherCons(pages, found, records, next);
      GatherOrdered(pages[1..], found', records, next);
      if pages[1..] != [] {
        assert pages[0].number < pages[1..][0].number;
        AllFromLower(tail, pages[1..][0].number as real, lo);
      } else {
        assert tail == [];
      }
      assert AllAt(head, lo);
      AscendConcat(head, tail, lo);
    }
  }

  /** Page references that never go down. */
  predicate PagesAscend(records: seq<Json>)
  {
    forall i, j :: 0 <= i < j < |records| ==> PageOf(records[i]) <= PageOf(records[j])
  }

  /** Page references all at least `lo`. */
  predicate AllFrom(records: seq<Json>, lo: real)
  {
    forall i :: 0 <= i < |records| ==> lo <= PageOf(records[i])
  }

  /** Page references all equal to `lo`. */
  predicate AllAt(records: seq<Json>, lo: real)
  {
    forall i :: 0 <= i < |records| ==> PageOf(records[i]) == lo
  }

  lemma AllFromLower(records: seq<Json>, lo: real, lower: real)
    requires AllFrom(records, lo) && lower <= lo
    ensures AllFrom(records, lower)
  {
  }

  /** One page's records followed by later pages' records keep ascending. */
  lemma AscendConcat(head: seq<Json>, tail: seq<Json>, lo: real)
    requires AllAt(head, lo) && AllFrom(tail, lo) && PagesAscend(tail)
    ensures PagesAscend(head + tail) && AllFrom(head + tail, lo)
  {
    var all := head + tail;
    forall i | 0 <= i < |all| ensures lo <= PageOf(all[i]) {
      if i >= |head| {
        assert all[i] == tail[i - |head|];
      }
    }
    forall i, j | 0 <= i < j < |all| ensures PageOf(all[i]) <= PageOf(all[j]) {
      if i >= |head| {
        assert all[i] == tail[i - |head|] && all[j] == tail[j - |head|];
      } else if j < |head| {
        assert all[i] == head[i] && all[j] == head[j];
      } else {
        assert all[i] == head[i] && all[j] == tail[j - |head|];
      }
    }
  }

  lemma K1RecordsStampPage()
    ensures StampsPage(K1Records)
  {
    forall p: Page, found: bool, i | 0 <= i < |K1Records(p, found)|
      ensures PageOf(K1Records(p, found)[i]) == p.number as real
    {
      K1RecordsPage(p, found, i);
    }
  }

  /** K-1 records come out in page order when the pages are given in ascending order. */
  lemma ContributionsOrdered(pages: seq<Page>, found: bool)
    requires Ascending(pages)
    ensures forall i, j :: 0 <= i < j < |Contributions(pages, found)| ==>
      PageOf(Contributions(pages, found)[i]) <= PageOf(Contributions(pages, found)[j])
  {
    K1RecordsStampPage();
    GatherOrdered(pages, found, K1Records, FoundAfter);
  }

  /** A page without "partner_records" that carries a plane at top level is one partner record. */
  lemma TopLevelPlaneWrapped(data: Json, page: nat, found: bool)
    requires data.JObj? && !ObjHas(data, "error") && !ObjHas(data, "partner_records")
    requires ObjHas(data, "part_i_partnership_plane") || ObjHas(data, "part_ii_partner_plane")
             || ObjHas(data, "part_iii_income_loss_plane")
    ensures K1Records(Page(page, data), found) == [JObj(Put(data.fields, "page_reference", JNum(page as real)))]
  {
  }

  /** Both fields of a two-field dictionary literal read back. */
  // ------------------------------------------------------------ Form 8805 and Form 8804

  /**
   * `batch_extract` of the Form 8805 and Form 8804 processors: only the first page's reply
   * is used; a dictionary without an "error" key becomes the one form, tagged with the
   * batch's page span; anything else gives no form.
   */
  function SingleFormBatch(pages: seq<Page>, listKey: string): (r: Json)
    ensures listKey != "_pages_extracted" && listKey != "_page_range" ==>
      var forms := FormsOf(r, listKey);
      |forms| <= 1
      && (|forms| == 1 <==> pages != [] && pages[0].reply.JObj? && !HasError(pages[0].reply))
      && (|forms| == 1 ==>
            Get(forms[0], "page_reference") == Some(JStr(Span(pages)))
            && forall k :: k != "page_reference" ==> Get(forms[0], k) == Get(pages[0].reply, k))
  {
    var forms :=
      if pages != [] && pages[0].reply.JObj? && !HasKey(pages[0].reply.fields, "error") then
        [JObj(Put(pages[0].reply.fields, "page_reference", JStr(Span(pages))))]
      else [];
    assert forms != [] ==> forall k :: (Lookup(forms[0].fields, k) ==
      if k == "page_reference" then Some(JStr(Span(pages))) else Lookup(pages[0].reply.fields, k)) by {
      if forms != [] {
        forall k ensures Lookup(forms[0].fields, k) ==
          if k == "page_reference" then Some(JStr(Span(pages))) else Lookup(pages[0].reply.fields, k) {
          PutLookup(pages[0].reply.fields, "page_reference", JStr(Span(pages)), k);
        }
      }
    }
    JObj([(listKey, JArr(forms)), ("_pages_extracted", JArr(PageNumbers(pages))),
          ("_page_range", JStr(Span(pages)))])
  }

  /** The forms list of the batch output. */
  function FormsOf(out: Json, listKey: string): seq<Json>
  {
    match Get(out, listKey)
    case Some(JArr(forms)) => forms
    case _ => []
  }

  /** Replies of every page but the first are never consulted. */
  lemma SingleFormIgnoresLaterPages(pages: seq<Page>, others: seq<Page>, listKey: string)
    requires |pages| == |others| && pages != [] && pages[0] == others[0]
    requires forall i :: 0 <= i < |pages| ==> pages[i].number == others[i].number
    ensures SingleFormBatch(pages, listKey) == SingleFormBatch(others, listKey)
  {
    assert PageNumbers(pages) == PageNumbers(others);
  }

  /** `[list(r) for r in page_ranges]` as JSON. */
  function RangesJson(ranges: seq<Range>): seq<Json>
  {
    seq(|ranges|, i requires 0 <= i < |ranges| => JArr([JNum(ranges[i].0 as real), JNum(ranges[i].1 as real)]))
  }

  /** `[r[0] for r in page_ranges]`. */
  function Starts(ranges: seq<Range>): (r: seq<int>)
    ensures |r| == |ranges| && forall i :: 0 <= i < |ranges| ==> r[i] == ranges[i].0
  {
    seq(|ranges|, i requires 0 <= i < |ranges| => ranges[i].0)
  }

  /** The pages `extract_*_pages_as_images` renders: those that exist in a document of `count` pages. */
  function Rendered(pages: seq<int>, count: nat): (r: seq<int>)
    ensures |r| <= |pages|
    ensures (forall i :: 0 <= i < |pages| ==> 1 <= pages[i] <= count) ==> r == pages
  {
    if pages == [] then []
    else (if 1 <= pages[0] <= count then [pages[0]] else []) + Rendered(pages[1..], count)
  }

  /**
   * The extraction loop `for (start, end), (page_num, img) in zip(page_ranges, page_images)`:
   * `zip` stops at the shorter list; a dictionary reply without "error" becomes a form
   * tagged with its range.
   */
  function ZipForms(ranges: seq<Range>, images: seq<int>, extract: int -> Json): (r: seq<Json>)
    ensures |r| <= |ranges| && |r| <= |images|
    ensures FromRanges(r, ranges)
  {
    if ranges == [] || images == [] then []
    else
      var reply := extract(images[0]);
      var rest := ZipForms(ranges[1..], images[1..], extract);
      FromRangesTail(rest, ranges);
      if reply.JObj? && !HasKey(reply.fields, "error") then
        var f := JObj(Put(reply.fields, "page_reference", JStr(RangeText(ranges[0].0, ranges[0].1))));
        FromRangesCons(reply, rest, ranges);
        [f] + rest
      else rest
  }

  /** The form made from the first range's reply, put in front, keeps every form tagged. */
  lemma FromRangesCons(reply: Json, rest: seq<Json>, ranges: seq<Range>)
    requires ranges != [] && reply.JObj? && FromRanges(rest, ranges)
    ensures FromRanges([JObj(Put(reply.fields, "page_reference", JStr(RangeText(ranges[0].0, ranges[0].1))))] + rest, ranges)
  {
    var f := JObj(Put(reply.fields, "page_reference", JStr(RangeText(ranges[0].0, ranges[0].1))));
    TagFirst(reply, ranges);
    assert TaggedBySome(f, ranges);
    var all := [f] + rest;
    assert all[1..] == rest;
    forall i | 0 <= i < |all| ensures TaggedBySome(all[i], ranges) {
      if i > 0 {
        assert TaggedBySome(rest[i - 1], ranges);
      }
    }
  }

  lemma TagFirst(reply: Json, ranges: seq<Range>)
    requires ranges != [] && reply.JObj?
    ensures Tagged8805(JObj(Put(reply.fields, "page_reference", JStr(RangeText(ranges[0].0, ranges[0].1)))), ranges, 0)
  {
    PutLookup(reply.fields, "page_reference", JStr(RangeText(ranges[0].0, ranges[0].1)), "page_reference");
  }

  /** `f` is a form dictionary tagged with the span of `ranges[k]`. */
  predicate Tagged8805(f: Json, ranges: seq<Range>, k: int)
  {
    0 <= k < |ranges| && f.JObj? && Get(f, "page_reference") == Some(JStr(RangeText(ranges[k].0, ranges[k].1)))
  }

  /** Every form is a dictionary tagged with the span of one of the ranges. */
  predicate FromRanges(forms: seq<Json>, ranges: seq<Range>)
  {
    forall i :: 0 <= i < |forms| ==> TaggedBySome(forms[i], ranges)
  }

  predicate TaggedBySome(f: Json, ranges: seq<Range>)
  {
    exists k :: 0 <= k < |ranges| && Tagged8805(f, ranges, k)
  }

  lemma FromRangesTail(forms: seq<Json>, ranges: seq<Range>)
    requires ranges != [] && FromRanges(forms, ranges[1..])
    ensures FromRanges(forms, ranges)
  {
    forall i | 0 <= i < |forms| ensures TaggedBySome(forms[i], ranges) {
      assert TaggedBySome(forms[i], ranges[1..]);
      var k :| 0 <= k < |ranges[1..]| && Tagged8805(forms[i], ranges[1..], k);
      assert ranges[1..][k] == ranges[k + 1];
      assert 0 <= k + 1 < |ranges| && Tagged8805(forms[i], ranges, k + 1);
    }
  }

  /**
   * `process_pdf` of the Form 8805 and Form 8804 processors once the ranges are detected:
   * an error when there are none or no page could be rendered, else the forms with the
   * ranges found and their count.
   */
  function ProcessRanges(ranges: seq<Range>, count: nat, extract: int -> Json, listKey: string, name: string): (r: Json)
    ensures listKey != "error" ==> (HasError(r) <==> ranges == [] || Rendered(Starts(ranges), count) == [])
    ensures !HasError(r) ==>
      && Get(r, listKey).Some? && Get(r, listKey).value.JArr?
      && |Get(r, listKey).value.items| <= |ranges|
      && FromRanges(Get(r, listKey).value.items, ranges)
  {
    if ranges == [] then
      var fs := [("error", JStr("No " + name + " forms found in PDF")), ("pages_scanned", JNum(0.0))];
      HasKeyAt(fs, 0);
      JObj(fs)
    else
      var images := Rendered(Starts(ranges), count);
      if images == [] then
        var fs := [("error", JStr("Failed to convert " + name + " pages")), ("page_ranges", JArr(RangesJson(ranges)))];
        HasKeyAt(fs, 0);
        JObj(fs)
      else
        var forms := ZipForms(ranges, images, extract);
        var fs := [(listKey, JArr(forms)),
                   ("_processing_metadata", JObj([("page_ranges_found", JArr(RangesJson(ranges))),
                                                  ("total_forms", JNum(|forms| as real))]))];
        LookupFirst(fs, 0);
        assert Keys(fs) == [listKey, "_processing_metadata"];
        JObj(fs)
  }

  /** The forms of the range-by-range loop when every range is rendered: one per range with a usable reply. */
  function RangeForms(ranges: seq<Range>, extract: int -> Json): seq<Json>
  {
    if ranges == [] then []
    else
      var reply := extract(ranges[0].0);
      (if reply.JObj? && !HasKey(reply.fields, "error") then
         [JObj(Put(reply.fields, "page_reference", JStr(RangeText(ranges[0].0, ranges[0].1))))]
       else []) + RangeForms(ranges[1..], extract)
  }

  lemma {:induction false} ZipStarts(ranges: seq<Range>, extract: int -> Json)
    ensures ZipForms(ranges, Starts(ranges), extract) == RangeForms(ranges, extract)
  {
    if ranges != [] {
      assert Starts(ranges)[1..] == Starts(ranges[1..]);
      ZipStarts(ranges[1..], extract);
    }
  }

  /** The first page of a non-empty range is one of the expanded pages. */
  lemma {:induction false} StartExpanded(ranges: seq<Range>, k: int)
    requires Proper(ranges) && 0 <= k < |ranges|
    ensures ranges[k].0 in Expand(ranges)
  {
    var init := ranges[..|ranges| - 1];
    assert Expand(ranges) == Expand(init) + Run(ranges[|ranges| - 1].0, ranges[|ranges| - 1].1);
    if k == |ranges| - 1 {
      assert Run(ranges[k].0, ranges[k].1)[0] == ranges[k].0;
    } else {
      assert init[k] == ranges[k];
      StartExpanded(init, k);
    }
  }

  /**
   * `process_pdf` on detected ranges extracts exactly the first page of every range and
   * tags each usable reply with its own range; no range is skipped or mismatched.
   */
  lemma ProcessDetected(texts: seq<string>, accept: string -> bool, extract: int -> Json, listKey: string, name: string)
    requires listKey != "_processing_metadata"
    ensures var ranges := DetectRanges(texts, 100.0, accept);
      ranges != [] ==>
        Rendered(Starts(ranges), |texts|) == Starts(ranges)
        && Get(ProcessRanges(ranges, |texts|, extract, listKey, name), listKey) == Some(JArr(RangeForms(ranges, extract)))
  {
    var ranges := DetectRanges(texts, 100.0, accept);
    if ranges != [] {
      assert Rendered(Starts(ranges), |texts|) == Starts(ranges) by {
        ScanLimitBounds(|texts|, 100.0);
        forall i | 0 <= i < |ranges| ensures 1 <= Starts(ranges)[i] <= |texts| {
          StartExpanded(ranges, i);
        }
      }
      ZipStarts(ranges, extract);
      ProcessRangesForms(ranges, |texts|, extract, listKey, name);
    }
  }

  /** When every range's first page is rendered, the forms are listed under the caller's key. */
  lemma ProcessRangesForms(ranges: seq<Range>, count: nat, extract: int -> Json, listKey: string, name: string)
    requires ranges != [] && Rendered(Starts(ranges), count) == Starts(ranges)
    requires listKey != "_processing_metadata"
    ensures Get(ProcessRanges(ranges, count, extract, listKey, name), listKey) ==
      Some(JArr(ZipForms(ranges, Starts(ranges), extract)))
  {
    var forms := ZipForms(ranges, Starts(ranges), extract);
    var fs := [(listKey, JArr(forms)),
               ("_processing_metadata", JObj([("page_ranges_found", JArr(RangesJson(ranges))),
                                              ("total_forms", JNum(|forms| as real))]))];
    LookupFirst(fs, 0);
  }

  /** A detected range whose first-page reply is usable yields a form tagged with that range. */
  lemma {:induction false} RangeFormsTagged(ranges: seq<Range>, extract: int -> Json, k: int)
    requires 0 <= k < |ranges|
    requires extract(ranges[k].0).JObj? && !HasError(extract(ranges[k].0))
    ensures exists f :: (f in RangeForms(ranges, extract)
      && Get(f, "page_reference") == Some(JStr(RangeText(ranges[k].0, ranges[k].1))))
  {
    if k == 0 {
      var reply := extract(ranges[0].0);
      var f := JObj(Put(reply.fields, "page_reference", JStr(RangeText(ranges[0].0, ranges[0].1))));
      PutLookup(reply.fields, "page_reference", JStr(RangeText(ranges[0].0, ranges[0].1)), "page_reference");
      assert f in RangeForms(ranges, extract);
    } else {
      assert ranges[1..][k - 1] == ranges[k];
      RangeFormsTagged(ranges[1..], extract, k - 1);
      var f :| f in RangeForms(ranges[1..], extract)
        && Get(f, "page_reference") == Some(JStr(RangeText(ranges[k].0, ranges[k].1)));
      assert f in RangeForms(ranges, extract);
    }
  }
}
