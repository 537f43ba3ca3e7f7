/**
 * `MultiPageK3Processor.batch_extract`: the pages of one K-3 range make one partner
 * record. Each page, inside its own `try`, may supply the document metadata (first
 * found wins), the partner name (first non-empty wins), and part items that are merged
 * into the thirteen parts gathered so far.
 */
module K3Batch {
  import opened Json
  import opened Text
  import opened PyOps
  import opened Boxes
  import opened Batch
  import opened K3Merge

  const K3FormType: string := "Schedule K-3 (Form 1065)"

  /** The keys of `all_part_data`, in their insertion order. */
  const PartKeys: seq<string> := [
    "part_i_other_international", "part_ii_foreign_tax_credit", "part_iii_form_1116_1118",
    "part_iv_section_250", "part_v_distributions", "part_vi_inclusions", "part_vii_form_8621",
    "part_viii_foreign_corp_income", "part_ix_form_8991_beat", "part_x_tax_liability",
    "part_xi_section_871m", "part_xii_eci", "part_xiii_deemed_sale"]

  lemma PartKeysDistinct()
    ensures |PartKeys| == 13
    ensures forall i, j :: 0 <= i < j < |PartKeys| ==> PartKeys[i] != PartKeys[j]
  {
  }

  /** No part key collides with the other keys a page reply is asked about. */
  lemma PartKeysReserved()
    ensures "error" !in PartKeys && "document_metadata" !in PartKeys && "partnership_name" !in PartKeys
    ensures "tax_year" !in PartKeys && "partner_records" !in PartKeys && "partner_name" !in PartKeys
  {
    NotPartKey("error");
    NotPartKey("document_metadata");
    NotPartKey("partnership_name");
    NotPartKey("tax_year");
    NotPartKey("partner_records");
    NotPartKey("partner_name");
  }

  /** Every part key has an underscore after its first four letters (`part_`). */
  lemma PartKeysUnderscore()
    ensures forall i :: 0 <= i < |PartKeys| ==> |PartKeys[i]| > 4 && PartKeys[i][4] == '_'
  {
  }

  lemma NotPartKey(x: string)
    requires |x| > 4 && x[4] != '_'
    ensures x !in PartKeys
  {
    PartKeysUnderscore();
  }

  /** What the loop has gathered: the metadata, the partner name, and each part's items. */
  datatype K3State = K3State(meta: Option<Json>, name: Json, parts: seq<seq<Json>>)

  predicate Shaped(st: K3State)
  {
    |st.parts| == |PartKeys|
  }

  function K3Start(): (st: K3State)
    ensures Shaped(st)
  {
    K3State(None, JStr(""), seq(|PartKeys|, _ => []))
  }

  /**
   * `data["partner_records"][0]` when `"partner_records" in data` and the value is
   * truthy: the first element of a list, the first character of a string; indexing a
   * dictionary or a number raises.
   */
  function FirstRecord(data: Json): (r: Result<Option<Json>>)
    ensures data.JObj? && !ObjHas(data, "partner_records") ==> r == Ok(None)
    ensures ObjHas(data, "partner_records") && GetOrNull(data, "partner_records").JArr?
            && GetOrNull(data, "partner_records").items != []
            ==> r == Ok(Some(GetOrNull(data, "partner_records").items[0]))
  {
    var has :- PyIn("partner_records", data);
    if !has then Ok(None)
    else
      var prs :- PyIndex(data, "partner_records");
      if !Truthy(prs) then Ok(None)
      else
        match prs
        case JArr(items) => Ok(Some(items[0]))
        case JStr(s) => Ok(Some(JStr([s[0]])))
        case JObj(_) => Err(KeyError)
        case _ => Err(TypeError)
  }

  /**
   * The partner name after a page: kept once non-empty; otherwise the first record's
   * "partner_name", or the page's own "partner_name" when there is no record.
   */
  function NameStep(name: Json, data: Json): (r: Result<Json>)
    ensures Truthy(name) ==> r == Ok(name)
  {
    if Truthy(name) then Ok(name)
    else
      var rec :- FirstRecord(data);
      match rec
      case Some(first) =>
        if first.JObj? then Ok(Field(first, "partner_name", JStr(""))) else Err(AttributeError)
      case None =>
        var has :- PyIn("partner_name", data);
        if !has then Ok(name)
        else if data.JObj? then Ok(Field(data, "partner_name", JStr("")))
        else Err(AttributeError)
  }

  /**
   * `for part_key in all_part_data.keys(): ...` from part `k` on; a part whose merge
   * raises keeps what it did and ends the page.
   */
  function MergeParts(parts: seq<seq<Json>>, pageData: Json, k: nat): (r: Partial<seq<seq<Json>>>)
    requires |parts| == |PartKeys| && k <= |PartKeys|
    ensures |r.value| == |parts|
    ensures forall j :: 0 <= j < k ==> r.value[j] == parts[j]
    decreases |PartKeys| - k
  {
    if k == |PartKeys| then Partial(parts, false)
    else
      match PyIn(PartKeys[k], pageData)
      case Err(_) => Partial(parts, true)
      case Ok(has) =>
        if !has then MergeParts(parts, pageData, k + 1)
        else
          match PyIndex(pageData, PartKeys[k])
          case Err(_) => Partial(parts, true)
          case Ok(items) =>
            var m := MergePart(parts[k], items);
            if m.failed then Partial(parts[k := m.value], true)
            else MergeParts(parts[k := m.value], pageData, k + 1)
  }

  /** One page of the loop: metadata, then the name, then the parts, each step keeping the earlier ones' effects. */
  function K3Step(st: K3State, p: Page): (r: K3State)
    requires Shaped(st)
    ensures Shaped(r)
    ensures PageData(p.reply).None? ==> r == st
    ensures HasError(p.reply) ==> r == st
  {
    match PageData(p.reply)
    case None => st
    case Some(data) =>
      match MetaStep(st.meta, data, K3FormType)
      case Err(_) => st
      case Ok(meta) =>
        match NameStep(st.name, data)
        case Err(_) => st.(meta := meta)
        case Ok(name) =>
          match FirstRecord(data)
          case Err(_) => st.(meta := meta, name := name)
          case Ok(rec) => K3State(meta, name, MergeParts(st.parts, rec.GetOr(data), 0).value)
  }

  function K3Run(st: K3State, pages: seq<Page>): (r: K3State)
    requires Shaped(st)
    ensures Shaped(r)
    decreases |pages|
  {
    if pages == [] then st else K3Run(K3Step(st, pages[0]), pages[1..])
  }

  /** `{part_key: items, ...}` in part order. */
  function PartFields(parts: seq<seq<Json>>): (fs: Fields)
    requires |parts| == |PartKeys|
    ensures Keys(fs) == PartKeys
  {
    var fs := seq(|PartKeys|, i requires 0 <= i < |PartKeys| => (PartKeys[i], JArr(parts[i])));
    assert forall i :: 0 <= i < |PartKeys| ==> Keys(fs)[i] == PartKeys[i];
    fs
  }

  /** The partner name of the record: the name found, or one naming the page span. */
  function RecordName(name: Json, pages: seq<Page>): Json
  {
    if Truthy(name) then name else JStr("Partner (Pages " + Span(pages) + ")")
  }

  /** The one partner record: name, page span, then the thirteen parts. */
  function PartnerRecord(st: K3State, pages: seq<Page>): Json
    requires Shaped(st)
  {
    JObj([("partner_name", RecordName(st.name, pages)), ("page_reference", JStr(Span(pages)))] + PartFields(st.parts))
  }

  /** `batch_extract` given each page's reply. */
  function K3BatchExtract(pages: seq<Page>): (r: Json)
    ensures r.JArr? && |r.items| == 1
    ensures Get(r.items[0], "document_metadata") == Some(FirstOffer(pages, K3FormType).GetOr(DefaultMeta(K3FormType)))
    ensures Get(r.items[0], "_pages_extracted") == Some(JArr(PageNumbers(pages)))
    ensures var recs := GetOrNull(r.items[0], "partner_records");
      && recs.JArr? && |recs.items| == 1
      && Truthy(GetOrNull(recs.items[0], "partner_name"))
      && Get(recs.items[0], "page_reference") == Some(JStr(Span(pages)))
  {
    var st := K3Run(K3Start(), pages);
    K3RunMeta(K3Start(), pages);
    PartnerRecordHead(st, pages);
    var meta := st.meta.GetOr(DefaultMeta(K3FormType));
    var rec := PartnerRecord(st, pages);
    var nums := PageNumbers(pages);
    BatchFields(meta, rec, nums);
    JArr([JObj([("document_metadata", meta), ("partner_records", JArr([rec])), ("_pages_extracted", JArr(nums))])])
  }

  /** The three fields of the batch output read back. */
  lemma BatchFields(meta: Json, rec: Json, nums: seq<Json>)
    ensures var out := JObj([("document_metadata", meta), ("partner_records", JArr([rec])), ("_pages_extracted", JArr(nums))]);
      Get(out, "document_metadata") == Some(meta)
      && Get(out, "partner_records") == Some(JArr([rec]))
      && Get(out, "_pages_extracted") == Some(JArr(nums))
  {
    var fs := [("document_metadata", meta), ("partner_records", JArr([rec])), ("_pages_extracted", JArr(nums))];
    LookupFirst(fs, 1);
    LookupFirst(fs, 2);
  }

  // ------------------------------------------------------------ metadata and name

  lemma K3StepMeta(st: K3State, p: Page)
    requires Shaped(st)
    ensures K3Step(st, p).meta == (if st.meta.Some? then st.meta else Offer(p, K3FormType))
  {
  }

  /** The metadata is the first that any page offers. */
  lemma {:induction false} K3RunMeta(st: K3State, pages: seq<Page>)
    requires Shaped(st)
    ensures K3Run(st, pages).meta == (if st.meta.Some? then st.meta else FirstOffer(pages, K3FormType))
    decreases |pages|
  {
    if pages != [] {
      var st' := K3Step(st, pages[0]);
      K3StepMeta(st, pages[0]);
      K3RunMeta(st', pages[1..]);
      assert K3Run(st, pages) == K3Run(st', pages[1..]);
    }
  }

  /** A non-empty partner name, once found, is never replaced. */
  lemma {:induction false} K3RunKeepsName(st: K3State, pages: seq<Page>)
    requires Shaped(st) && Truthy(st.name)
    ensures K3Run(st, pages).name == st.name
    decreases |pages|
  {
    if pages != [] {
      var st' := K3Step(st, pages[0]);
      assert st'.name == st.name;
      K3RunKeepsName(st', pages[1..]);
    }
  }

  lemma PartFieldsLookup(parts: seq<seq<Json>>, i: int)
    requires |parts| == |PartKeys| && 0 <= i < |PartKeys|
    ensures Lookup(PartFields(parts), PartKeys[i]) == Some(JArr(parts[i]))
  {
    PartKeysDistinct();
    LookupFirst(PartFields(parts), i);
  }

  /** Fields in front that do not carry `k` do not change what `d.get(k)` finds. */
  lemma {:induction false} LookupPast(head: Fields, rest: Fields, k: string)
    requires forall j :: 0 <= j < |head| ==> head[j].0 != k
    ensures Lookup(head + rest, k) == Lookup(rest, k)
  {
    if head != [] {
      var fs := head + rest;
      assert fs[0].0 != k;
      assert fs[1..] == head[1..] + rest;
      assert Lookup(fs, k) == Lookup(fs[1..], k);
      LookupPast(head[1..], rest, k);
    } else {
      assert head + rest == rest;
    }
  }

  /** The record carries the name found or the span-based one (never an empty name) and the page span. */
  lemma PartnerRecordHead(st: K3State, pages: seq<Page>)
    requires Shaped(st)
    ensures Get(PartnerRecord(st, pages), "partner_name") == Some(RecordName(st.name, pages))
    ensures Truthy(RecordName(st.name, pages))
    ensures Get(PartnerRecord(st, pages), "page_reference") == Some(JStr(Span(pages)))
  {
    var head: Fields := [("partner_name", RecordName(st.name, pages)), ("page_reference", JStr(Span(pages)))];
    LookupFirst(head + PartFields(st.parts), 1);
  }

  /** The record carries every part's gathered items under the part's key. */
  lemma PartnerRecordPart(st: K3State, pages: seq<Page>, i: int)
    requires Shaped(st) && 0 <= i < |PartKeys|
    ensures Get(PartnerRecord(st, pages), PartKeys[i]) == Some(JArr(st.parts[i]))
  {
    var head: Fields := [("partner_name", RecordName(st.name, pages)), ("page_reference", JStr(Span(pages)))];
    PartKeysReserved();
    assert PartKeys[i] != "partner_name" && PartKeys[i] != "page_reference" by {
      assert PartKeys[i] in PartKeys;
    }
    LookupPast(head, PartFields(st.parts), PartKeys[i]);
    PartFieldsLookup(st.parts, i);
  }

  // ------------------------------------------------------------ well-formed pages

  /** Rows as the entries a part holds, part by part. */
  function EntryParts(rows: seq<seq<Row>>): (parts: seq<seq<Json>>)
    ensures |parts| == |rows| && forall i :: 0 <= i < |rows| ==> parts[i] == Entries(rows[i])
  {
    seq(|rows|, i requires 0 <= i < |rows| => Entries(rows[i]))
  }

  /** A reply that holds every part as well-formed entries and nothing else. */
  function PartsReply(inc: seq<seq<Row>>): Json
    requires |inc| == |PartKeys|
  {
    JObj(PartFields(EntryParts(inc)))
  }

  /** Each part's rows merged with the page's rows for that part. */
  function MergedParts(acc: seq<seq<Row>>, inc: seq<seq<Row>>): (r: seq<seq<Row>>)
    requires |acc| == |inc|
    ensures |r| == |acc| && forall i :: 0 <= i < |acc| ==> r[i] == MergeRows(acc[i], inc[i])
  {
    seq(|acc|, i requires 0 <= i < |acc| => MergeRows(acc[i], inc[i]))
  }

  lemma {:induction false} MergePartsOfEntries(acc: seq<seq<Row>>, inc: seq<seq<Row>>, parts: seq<seq<Json>>, k: nat)
    requires |acc| == |PartKeys| && |inc| == |PartKeys| && |parts| == |PartKeys| && k <= |PartKeys|
    requires forall j :: 0 <= j < k ==> parts[j] == Entries(MergeRows(acc[j], inc[j]))
    requires forall j :: k <= j < |PartKeys| ==> parts[j] == Entries(acc[j])
    ensures MergeParts(parts, PartsReply(inc), k) == Partial(EntryParts(MergedParts(acc, inc)), false)
    decreases |PartKeys| - k
  {
    var reply := PartsReply(inc);
    if k == |PartKeys| {
      assert parts == EntryParts(MergedParts(acc, inc));
    } else {
      PartFieldsLookup(EntryParts(inc), k);
      assert ObjHas(reply, PartKeys[k]);
      assert PyIndex(reply, PartKeys[k]) == Ok(JArr(Entries(inc[k])));
      MergePartOfEntries(acc[k], inc[k]);
      var parts' := parts[k := Entries(MergeRows(acc[k], inc[k]))];
      MergePartsOfEntries(acc, inc, parts', k + 1);
    }
  }

  /**
   * A page whose reply holds every part as well-formed entries merges each part the
   * typed way and leaves the metadata alone; the name is kept.
   */
  lemma StepOfPartsReply(st: K3State, number: nat, acc: seq<seq<Row>>, inc: seq<seq<Row>>)
    requires Shaped(st) && |acc| == |PartKeys| && |inc| == |PartKeys|
    requires st.parts == EntryParts(acc)
    ensures K3Step(st, Page(number, PartsReply(inc))) == st.(parts := EntryParts(MergedParts(acc, inc)))
  {
    var reply := PartsReply(inc);
    PartKeysReserved();
    assert Keys(reply.fields) == PartKeys;
    assert !HasKey(reply.fields, "error") && !HasKey(reply.fields, "document_metadata");
    assert !HasKey(reply.fields, "partnership_name") && !HasKey(reply.fields, "tax_year");
    assert !HasKey(reply.fields, "partner_records") && !HasKey(reply.fields, "partner_name");
    assert PageData(reply) == Some(reply);
    assert MetaStep(st.meta, reply, K3FormType) == Ok(st.meta);
    assert FirstRecord(reply) == Ok(None);
    assert NameStep(st.name, reply) == Ok(st.name);
    MergePartsOfEntries(acc, inc, st.parts, 0);
  }

  /** Part `j`'s rows of every page, in page order. */
  function PartRows(incs: seq<seq<seq<Row>>>, j: nat): seq<Row>
    requires forall i :: 0 <= i < |incs| ==> j < |incs[i]|
  {
    if incs == [] then [] else incs[0][j] + PartRows(incs[1..], j)
  }

  /** Each part's rows merged page after page. */
  function MergedAll(acc: seq<seq<Row>>, incs: seq<seq<seq<Row>>>): (r: seq<seq<Row>>)
    requires forall i :: 0 <= i < |incs| ==> |incs[i]| == |acc|
    ensures |r| == |acc|
    decreases |incs|
  {
    if incs == [] then acc else MergedAll(MergedParts(acc, incs[0]), incs[1..])
  }

  /** Merging page after page is merging each part's rows of all pages at once. */
  lemma {:induction false} MergedAllIsOneMerge(acc: seq<seq<Row>>, incs: seq<seq<seq<Row>>>, j: nat)
    requires forall i :: 0 <= i < |incs| ==> |incs[i]| == |acc|
    requires j < |acc|
    ensures MergedAll(acc, incs)[j] == MergeRows(acc[j], PartRows(incs, j))
    decreases |incs|
  {
    if incs == [] {
    } else {
      var acc' := MergedParts(acc, incs[0]);
      MergedAllIsOneMerge(acc', incs[1..], j);
      MergeRowsConcat(acc[j], incs[0][j], PartRows(incs[1..], j));
    }
  }

  /** Pages whose replies all hold well-formed parts: the loop is the typed merge, page after page. */
  lemma {:induction false} RunOfPartsReplies(st: K3State, acc: seq<seq<Row>>, pages: seq<Page>, incs: seq<seq<seq<Row>>>)
    requires Shaped(st) && |acc| == |PartKeys| && st.parts == EntryParts(acc)
    requires |pages| == |incs|
    requires forall i :: 0 <= i < |incs| ==> |incs[i]| == |PartKeys| && pages[i].reply == PartsReply(incs[i])
    ensures K3Run(st, pages) == st.(parts := EntryParts(MergedAll(acc, incs)))
    decreases |pages|
  {
    if pages != [] {
      StepOfPartsReply(st, pages[0].number, acc, incs[0]);
      assert pages[0] == Page(pages[0].number, PartsReply(incs[0]));
      var st' := K3Step(st, pages[0]);
      RunOfPartsReplies(st', MergedParts(acc, incs[0]), pages[1..], incs[1..]);
    }
  }

  /**
   * First non-empty value wins across the pages of a range: for well-formed replies,
   * every code of every part ends with exactly one box, holding the first non-empty
   * value the pages gave it, or its first value when all were empty.
   */
  lemma BatchKeepsFirstFilled(pages: seq<Page>, incs: seq<seq<seq<Row>>>, j: nat, code: string)
    requires |pages| == |incs| && j < |PartKeys|
    requires forall i :: 0 <= i < |incs| ==> |incs[i]| == |PartKeys| && pages[i].reply == PartsReply(incs[i])
    requires code in Codes(PartRows(incs, j))
    ensures K3Run(K3Start(), pages).parts[j] == Entries(MergeRows([], PartRows(incs, j)))
    ensures ValuesOf(MergeRows([], PartRows(incs, j)), code) == [Winner(ValuesOf(PartRows(incs, j), code))]
  {
    var acc: seq<seq<Row>> := seq(|PartKeys|, _ => []);
    assert K3Start().parts == EntryParts(acc);
    RunOfPartsReplies(K3Start(), acc, pages, incs);
    MergedAllIsOneMerge(acc, incs, j);
    MergeRowsValue([], PartRows(incs, j), code);
    assert ValuesOf([], code) + ValuesOf(PartRows(incs, j), code) == ValuesOf(PartRows(incs, j), code);
  }
}
