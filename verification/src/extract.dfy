/**
 * The batch extraction endpoint (`/extract-form`): the requested pages are grouped by
 * their detected form type, each type's pages are sent to the model ten at a time,
 * and the forms of each reply are handed out to the pages of the chunk they came from.
 *
 * The model call (with its retry loop and the parsing of its reply) is an input:
 * `reply(type, chunk)` is the reply for one chunk, or None when the call raised, which
 * ends the whole request with status 500. Whether a type has a prompt configuration
 * is an input too.
 */
module Extract {
  import opened Json
  import opened Grouping

  /** One element of the request's `pages`. */
  datatype PageInput = PageInput(url: string, number: int, detectedType: string)

  function PageType(p: PageInput): string
  {
    p.detectedType
  }

  function PageNumber(p: PageInput): int
  {
    p.number
  }

  function Numbers(pages: seq<PageInput>): (ns: seq<int>)
    ensures |ns| == |pages| && forall i :: 0 <= i < |pages| ==> ns[i] == pages[i].number
  {
    if pages == [] then [] else [pages[0].number] + Numbers(pages[1..])
  }

  // ---------------------------------------------------------------------------
  // Grouping by type
  // ---------------------------------------------------------------------------

  /** `pages_by_type`. */
  function PagesByType(pages: seq<PageInput>): seq<Bucket<string, PageInput>>
  {
    GroupBy(pages, PageType)
  }

  /**
   * One group per requested type, types in order of first appearance, each group the
   * pages of its type in request order, and every page in exactly one group.
   */
  lemma PagesByTypeSpec(pages: seq<PageInput>)
    ensures Distinct(KeysOf(PagesByType(pages)))
    ensures forall t :: t in KeysOf(PagesByType(pages)) <==> Occurs(pages, PageType, t)
    ensures forall t :: ItemsOf(PagesByType(pages), t) == Filter(pages, PageType, t)
    ensures forall i, j :: 0 <= i < j < |PagesByType(pages)| ==>
      FirstAt(pages, PageType, PagesByType(pages)[i].key) < FirstAt(pages, PageType, PagesByType(pages)[j].key)
    ensures Total(PagesByType(pages)) == |pages|
  {
    PlaceKeys([], pages, PageType);
    forall t ensures ItemsOf(PagesByType(pages), t) == Filter(pages, PageType, t) {
      PlaceItems([], pages, PageType, t);
      assert [] + Filter(pages, PageType, t) == Filter(pages, PageType, t);
    }
    GroupByOrder(pages, PageType);
    PlaceTotal([], pages, PageType);
  }

  // ---------------------------------------------------------------------------
  // Handing the forms of a chunk to its pages
  // ---------------------------------------------------------------------------

  /**
   * How `page_num in forms_by_page` reads a `page_number` value against the integer
   * page keys: an integral number or a bool names that integer, a string or None names
   * nothing, and a list or dictionary is unhashable.
   */
  function PageKey(v: Json): Result<Option<int>>
  {
    match v
    case JNum(n) => Ok(if n == n.Floor as real then Some(n.Floor) else None)
    case JBool(b) => Ok(Some(if b then 1 else 0))
    case JArr(_) => Err(TypeError)
    case JObj(_) => Err(TypeError)
    case _ => Ok(None)
  }

  /**
   * The bucket one form goes to: the page its `page_number` names when that page is in
   * the chunk, the chunk's first page otherwise. A form that is not a dictionary has no
   * `get`.
   */
  function Slot(chunk: seq<PageInput>, form: Json): (r: Result<int>)
    requires chunk != []
    ensures r.Ok? ==> r.value in Numbers(chunk)
    ensures r.Ok? <==> form.JObj? && (ObjHas(form, "page_number") ==> PageKey(GetOrNull(form, "page_number")).Ok?)
  {
    if !form.JObj? then Err(AttributeError)
    else
      match Get(form, "page_number")
      case None => Ok(chunk[0].number)
      case Some(v) =>
        var key :- PageKey(v);
        if key.Some? && key.value in Numbers(chunk) then Ok(key.value) else Ok(chunk[0].number)
  }

  /** The bucket of a form whose slot can be computed. */
  function Target(chunk: seq<PageInput>, form: Json): int
    requires chunk != []
  {
    match Slot(chunk, form)
    case Ok(p) => p
    case Err(_) => chunk[0].number
  }

  /** The first error the distribution loop meets, if any. */
  function FirstFailure(chunk: seq<PageInput>, forms: seq<Json>): (e: Option<PyError>)
    requires chunk != []
    ensures e.None? <==> forall i :: 0 <= i < |forms| ==> Slot(chunk, forms[i]).Ok?
  {
    if forms == [] then None
    else if Slot(chunk, forms[0]).Err? then Some(Slot(chunk, forms[0]).error)
    else
      var e := FirstFailure(chunk, forms[1..]);
      assert forall i :: 1 <= i < |forms| ==> forms[i] == forms[1..][i - 1];
      e
  }

  /** `forms_by_page`: one empty bucket per page number of the chunk, in chunk order. */
  function Seed(chunk: seq<PageInput>): (bs: seq<Bucket<int, Json>>)
    ensures Distinct(KeysOf(bs))
    ensures forall k :: k in KeysOf(bs) <==> k in Numbers(chunk)
    ensures forall i :: 0 <= i < |bs| ==> bs[i].items == []
  {
    if chunk == [] then []
    else
      var init := chunk[..|chunk| - 1];
      var prev := Seed(init);
      var n := chunk[|chunk| - 1].number;
      NumbersSnoc(chunk);
      SeedStep(prev, n);
      if n in KeysOf(prev) then prev else prev + [Bucket(n, [])]
  }

  lemma NumbersSnoc(chunk: seq<PageInput>)
    requires chunk != []
    ensures forall k :: k in Numbers(chunk) <==> k in Numbers(chunk[..|chunk| - 1]) || k == chunk[|chunk| - 1].number
  {
    var init := chunk[..|chunk| - 1];
    assert Numbers(chunk) == Numbers(init) + [chunk[|chunk| - 1].number];
  }

  /** One more page number adds an empty bucket unless its number already has one. */
  lemma SeedStep(prev: seq<Bucket<int, Json>>, n: int)
    requires Distinct(KeysOf(prev)) && forall i :: 0 <= i < |prev| ==> prev[i].items == []
    ensures var bs := if n in KeysOf(prev) then prev else prev + [Bucket(n, [])];
      && Distinct(KeysOf(bs))
      && (forall k :: k in KeysOf(bs) <==> k in KeysOf(prev) || k == n)
      && forall i :: 0 <= i < |bs| ==> bs[i].items == []
  {
    if n !in KeysOf(prev) {
      var bs := prev + [Bucket(n, [])];
      assert KeysOf(bs) == KeysOf(prev) + [n];
    }
  }

  /** The forms of one chunk handed out to its pages; None when some form breaks the loop. */
  function Distribute(chunk: seq<PageInput>, forms: seq<Json>): (r: Result<seq<Bucket<int, Json>>>)
    requires chunk != []
    ensures r.Err? <==> exists i :: 0 <= i < |forms| && Slot(chunk, forms[i]).Err?
  {
    match FirstFailure(chunk, forms)
    case Some(e) => Err(e)
    case None => Ok(Place(Seed(chunk), forms, f => Target(chunk, f)))
  }

  lemma SeedEmpty(chunk: seq<PageInput>, k: int)
    ensures ItemsOf(Seed(chunk), k) == []
  {
    SeedItemsEmpty(Seed(chunk), k);
  }

  lemma {:induction false} SeedItemsEmpty(bs: seq<Bucket<int, Json>>, k: int)
    requires forall i :: 0 <= i < |bs| ==> bs[i].items == []
    ensures ItemsOf(bs, k) == []
  {
    if bs != [] {
      SeedItemsEmpty(bs[1..], k);
    }
  }

  lemma {:induction false} SeedTotal(bs: seq<Bucket<int, Json>>)
    requires forall i :: 0 <= i < |bs| ==> bs[i].items == []
    ensures Total(bs) == 0
  {
    if bs != [] {
      SeedTotal(bs[1..]);
    }
  }

  /**
   * Every form lands in exactly one bucket of its chunk: one bucket per page number of
   * the chunk, each bucket holding, in reply order, the forms whose target is its page,
   * the target being the form's own page when the chunk has it and the first page
   * otherwise; no form is lost or repeated.
   */
  lemma DistributeSpec(chunk: seq<PageInput>, forms: seq<Json>)
    requires chunk != [] && Distribute(chunk, forms).Ok?
    ensures Distinct(KeysOf(Distribute(chunk, forms).value))
    ensures forall k :: k in KeysOf(Distribute(chunk, forms).value) <==> k in Numbers(chunk)
    ensures forall k :: ItemsOf(Distribute(chunk, forms).value, k) == Filter(forms, f => Target(chunk, f), k)
    ensures Total(Distribute(chunk, forms).value) == |forms|
  {
    var seed := Seed(chunk);
    var key := f => Target(chunk, f);
    var bs := Place(seed, forms, key);
    assert Distribute(chunk, forms).value == bs;
    forall i | 0 <= i < |forms| ensures key(forms[i]) in KeysOf(seed) {
      assert Slot(chunk, forms[i]).Ok?;
    }
    PlaceKnownKeys(seed, forms, key);
    forall k ensures ItemsOf(bs, k) == Filter(forms, key, k) {
      PlaceItems(seed, forms, key, k);
      SeedEmpty(chunk, k);
      assert [] + Filter(forms, key, k) == Filter(forms, key, k);
    }
    SeedTotal(seed);
    PlaceTotal(seed, forms, key);
  }

  /** A form naming a page of its chunk is filed under that page. */
  lemma TargetOwnPage(chunk: seq<PageInput>, form: Json, p: int)
    requires chunk != [] && form.JObj? && Get(form, "page_number") == Some(JNum(p as real))
    requires p in Numbers(chunk)
    ensures Target(chunk, form) == p
  {
    assert (p as real).Floor == p;
  }

  /** A form without a `page_number` is filed under the chunk's first page. */
  lemma TargetFallback(chunk: seq<PageInput>, form: Json)
    requires chunk != [] && form.JObj? && !ObjHas(form, "page_number")
    ensures Target(chunk, form) == chunk[0].number
  {
  }

  // ---------------------------------------------------------------------------
  // Structured replies
  // ---------------------------------------------------------------------------

  /** One box of a structured reply. */
  datatype BoxDetail = BoxDetail(caption: string, code: string, value: Json)

  /**
   * One form of a structured reply. `page` is the page the form was read from; the
   * response schema as written gives the model no field to report it in.
   */
  datatype FormInstance = FormInstance(name: string, year: string, copyType: string, boxes: seq<BoxDetail>, page: int)

  function BoxJson(b: BoxDetail): Json
  {
    Obj([("label", JStr(b.caption)), ("code", JStr(b.code)), ("value", b.value)])
  }

  function BoxesJson(bs: seq<BoxDetail>): (r: seq<Json>)
    ensures |r| == |bs|
  {
    if bs == [] then [] else [BoxJson(bs[0])] + BoxesJson(bs[1..])
  }

  /** The dictionary built for a structured form, as written: it has no `page_number`. */
  function FormDictAsWritten(f: FormInstance): Json
  {
    Obj([("form_name", JStr(f.name)), ("form_year", JStr(f.year)), ("copy", JStr(f.copyType)),
         ("box_details", JArr(BoxesJson(f.boxes)))])
  }

  /** The dictionary with the form's page carried along as `page_number`. */
  function FormDict(f: FormInstance): Json
  {
    Obj([("form_name", JStr(f.name)), ("form_year", JStr(f.year)), ("copy", JStr(f.copyType)),
         ("box_details", JArr(BoxesJson(f.boxes))), ("page_number", JNum(f.page as real))])
  }

  function FormDicts(fs: seq<FormInstance>, asWritten: bool): (r: seq<Json>)
    ensures |r| == |fs|
    ensures forall i :: 0 <= i < |fs| ==> r[i] == if asWritten then FormDictAsWritten(fs[i]) else FormDict(fs[i])
  {
    if fs == [] then [] else [if asWritten then FormDictAsWritten(fs[0]) else FormDict(fs[0])] + FormDicts(fs[1..], asWritten)
  }

  lemma AsWrittenHasNoPage(f: FormInstance)
    ensures FormDictAsWritten(f).JObj? && !ObjHas(FormDictAsWritten(f), "page_number")
  {
    var ps := [("form_name", JStr(f.name)), ("form_year", JStr(f.year)), ("copy", JStr(f.copyType)),
               ("box_details", JArr(BoxesJson(f.boxes)))];
    var fs := FromPairs(ps);
    assert FormDictAsWritten(f) == JObj(fs);
    FromPairsFrom(ps);
    forall i | 0 <= i < |fs| ensures Keys(fs)[i] != "page_number" {
      assert fs[i] in ps;
    }
  }

  lemma FormDictPage(f: FormInstance)
    ensures FormDict(f).JObj? && Get(FormDict(f), "page_number") == Some(JNum(f.page as real))
  {
    var ps := [("form_name", JStr(f.name)), ("form_year", JStr(f.year)), ("copy", JStr(f.copyType)),
               ("box_details", JArr(BoxesJson(f.boxes))), ("page_number", JNum(f.page as real))];
    assert FormDict(f) == JObj(FromPairs(ps));
    FromPairsLookup(ps, "page_number");
  }

  /**
   * As written, every form of a structured reply is filed under the chunk's first page,
   * whichever page it was read from.
   */
  lemma AsWrittenFilesAllOnFirstPage(chunk: seq<PageInput>, fs: seq<FormInstance>)
    requires chunk != []
    ensures Distribute(chunk, FormDicts(fs, true)).Ok?
    ensures forall k :: k != chunk[0].number ==> ItemsOf(Distribute(chunk, FormDicts(fs, true)).value, k) == []
  {
    var forms := FormDicts(fs, true);
    forall i | 0 <= i < |forms| ensures Slot(chunk, forms[i]).Ok? && Target(chunk, forms[i]) == chunk[0].number {
      AsWrittenHasNoPage(fs[i]);
    }
    DistributeSpec(chunk, forms);
    var key := f => Target(chunk, f);
    forall k | k != chunk[0].number ensures Filter(forms, key, k) == [] {
      FilterNone(forms, key, k);
    }
  }

  lemma {:induction false} FilterNone<K, V>(xs: seq<V>, key: V -> K, k: K)
    requires forall i :: 0 <= i < |xs| ==> key(xs[i]) != k
    ensures Filter(xs, key, k) == []
  {
    if xs != [] {
      FilterNone(xs[..|xs| - 1], key, k);
    }
  }

  /**
   * A chunk of pages 1 and 2 whose one form was read from page 2: as written the form is
   * filed under page 1 and page 2 gets nothing; with the page carried along it is filed
   * under page 2.
   */
  lemma AsWrittenMisfiles(chunk: seq<PageInput>, f: FormInstance)
    requires |chunk| == 2 && chunk[0].number == 1 && chunk[1].number == 2 && f.page == 2
    ensures Distribute(chunk, FormDicts([f], true)).Ok?
    ensures ItemsOf(Distribute(chunk, FormDicts([f], true)).value, 2) == []
    ensures Distribute(chunk, FormDicts([f], false)).Ok?
    ensures FormDict(f) in ItemsOf(Distribute(chunk, FormDicts([f], false)).value, 2)
  {
    AsWrittenFilesAllOnFirstPage(chunk, [f]);
    assert Numbers(chunk)[1] == 2;
    FormsFiledOnOwnPage(chunk, [f]);
  }

  /**
   * With the page carried along, every structured form read from a page of the chunk is
   * filed under that page.
   */
  lemma FormsFiledOnOwnPage(chunk: seq<PageInput>, fs: seq<FormInstance>)
    requires chunk != []
    ensures Distribute(chunk, FormDicts(fs, false)).Ok?
    ensures forall i :: 0 <= i < |fs| && fs[i].page in Numbers(chunk) ==>
      FormDict(fs[i]) in ItemsOf(Distribute(chunk, FormDicts(fs, false)).value, fs[i].page)
  {
    var forms := FormDicts(fs, false);
    var key := f => Target(chunk, f);
    forall i | 0 <= i < |forms| ensures Slot(chunk, forms[i]).Ok? {
      FormDictPage(fs[i]);
      assert (fs[i].page as real).Floor == fs[i].page;
    }
    DistributeSpec(chunk, forms);
    forall i | 0 <= i < |fs| && fs[i].page in Numbers(chunk)
      ensures FormDict(fs[i]) in ItemsOf(Distribute(chunk, forms).value, fs[i].page)
    {
      FormDictPage(fs[i]);
      TargetOwnPage(chunk, forms[i], fs[i].page);
      FilterKeeps(forms, key, i);
    }
  }

  lemma {:induction false} FilterKeeps<K, V>(xs: seq<V>, key: V -> K, i: int)
    requires 0 <= i < |xs|
    ensures xs[i] in Filter(xs, key, key(xs[i]))
  {
    var n := |xs| - 1;
    if i < n {
      assert xs[..n][i] == xs[i];
      FilterKeeps(xs[..n], key, i);
    }
  }

  // ---------------------------------------------------------------------------
  // The whole request
  // ---------------------------------------------------------------------------

  /** A chunk's reply once the retry loop has returned: structured forms, or decoded raw JSON forms. */
  datatype Reply = Parsed(instances: seq<FormInstance>) | Raw(forms: seq<Json>)

  /**
   * `chunk_forms`: one dictionary per form of the reply. As written (`asWritten`) a
   * structured form's dictionary has no `page_number`; otherwise the form's page is
   * carried along.
   */
  function ChunkForms(r: Reply, asWritten: bool): (forms: seq<Json>)
    ensures |forms| == if r.Parsed? then |r.instances| else |r.forms|
  {
    match r
    case Parsed(fs) => FormDicts(fs, asWritten)
    case Raw(forms) => forms
  }

  /** One entry of `page_results`. */
  datatype PageResult = PageResult(number: int, detectedType: string, forms: seq<Json>, error: Option<string>)

  /** What the loop accumulates: the page results, the model requests made, `total_forms_extracted`. */
  datatype Batch = Batch(results: seq<PageResult>, requests: nat, formsExtracted: nat)

  /** `extracted_forms_list`: the forms of all page results, in order. */
  function ExtractedForms(results: seq<PageResult>): seq<Json>
  {
    if results == [] then [] else results[0].forms + ExtractedForms(results[1..])
  }

  /** `forms_by_page.values()`: one page result per bucket, carrying the bucket's forms. */
  function BucketResults(t: string, bs: seq<Bucket<int, Json>>): (r: seq<PageResult>)
    ensures |r| == |bs|
    ensures forall i :: 0 <= i < |bs| ==> r[i] == PageResult(bs[i].key, t, bs[i].items, None)
    ensures |ExtractedForms(r)| == Total(bs)
  {
    if bs == [] then [] else [PageResult(bs[0].key, t, bs[0].items, None)] + BucketResults(t, bs[1..])
  }

  /** The error results for the pages of a type that has no prompt configuration. */
  function Unsupported(t: string, pages: seq<PageInput>): (r: seq<PageResult>)
    ensures |r| == |pages|
    ensures ExtractedForms(r) == []
  {
    if pages == [] then []
    else [PageResult(pages[0].number, t, [], Some("Unsupported form type: " + t))] + Unsupported(t, pages[1..])
  }

  /**
   * One chunk's reply handed out to the chunk's pages: one page result per page number,
   * after the earlier results. None when a form's slot cannot be computed, which ends
   * the request with status 500.
   */
  function ChunkStep(t: string, chunk: seq<PageInput>, answer: Reply, acc: Batch, asWritten: bool): (r: Option<Batch>)
    requires chunk != []
    ensures r.Some? ==> r.value.requests == acc.requests + 1
    ensures r.Some? && |ExtractedForms(acc.results)| == acc.formsExtracted ==>
      |ExtractedForms(r.value.results)| == r.value.formsExtracted
  {
    var forms := ChunkForms(answer, asWritten);
    var d := Distribute(chunk, forms);
    if d.Err? then None
    else
      DistributeSpec(chunk, forms);
      ExtractedFormsAppend(acc.results, BucketResults(t, d.value));
      Some(Batch(acc.results + BucketResults(t, d.value), acc.requests + 1, acc.formsExtracted + |forms|))
  }

  /** The chunks of one supported type, one model request each. */
  function ExtractChunks(t: string, chunks: seq<seq<PageInput>>, reply: (string, seq<PageInput>) -> Option<Reply>,
                         acc: Batch, asWritten: bool): (r: Option<Batch>)
    requires forall c :: c in chunks ==> c != []
    ensures r.Some? ==> r.value.requests == acc.requests + |chunks|
    ensures r.Some? && |ExtractedForms(acc.results)| == acc.formsExtracted ==>
      |ExtractedForms(r.value.results)| == r.value.formsExtracted
  {
    if chunks == [] then Some(acc)
    else
      assert chunks[0] in chunks;
      assert forall c :: c in chunks[1..] ==> c in chunks;
      var answer :- reply(t, chunks[0]);
      var next :- ChunkStep(t, chunks[0], answer, acc, asWritten);
      ExtractChunks(t, chunks[1..], reply, next, asWritten)
  }

  /** The loop over `pages_by_type.items()`. */
  function ExtractGroups(groups: seq<Bucket<string, PageInput>>, supported: string -> bool,
                         reply: (string, seq<PageInput>) -> Option<Reply>, acc: Batch, asWritten: bool): (r: Option<Batch>)
    ensures r.Some? ==> r.value.requests == acc.requests + Requests(groups, supported)
    ensures r.Some? && |ExtractedForms(acc.results)| == acc.formsExtracted ==>
      |ExtractedForms(r.value.results)| == r.value.formsExtracted
  {
    if groups == [] then Some(acc)
    else
      var g := groups[0];
      if !supported(g.key) then
        ExtractedFormsAppend(acc.results, Unsupported(g.key, g.items));
        ExtractGroups(groups[1..], supported, reply, acc.(results := acc.results + Unsupported(g.key, g.items)), asWritten)
      else
        var next :- ExtractChunks(g.key, Chunks(g.items), reply, acc, asWritten);
        ExtractGroups(groups[1..], supported, reply, next, asWritten)
  }

  /** The number of model requests the loop makes: one per chunk of each supported type. */
  function Requests(groups: seq<Bucket<string, PageInput>>, supported: string -> bool): nat
  {
    if groups == [] then 0
    else (if supported(groups[0].key) then |Chunks(groups[0].items)| else 0) + Requests(groups[1..], supported)
  }

  lemma {:induction false} ExtractedFormsAppend(a: seq<PageResult>, b: seq<PageResult>)
    ensures ExtractedForms(a + b) == ExtractedForms(a) + ExtractedForms(b)
  {
    if a == [] {
      assert a + b == b;
    } else {
      assert (a + b)[1..] == a[1..] + b;
      ExtractedFormsAppend(a[1..], b);
    }
  }

  /**
   * `/extract-form` on a request's pages, as written; None when the request ends with
   * status 500. It makes exactly `ApiCallsMade` model requests, and the success
   * message's form count is the number of forms listed in the page results.
   */
  function ExtractBatch(pages: seq<PageInput>, supported: string -> bool,
                        reply: (string, seq<PageInput>) -> Option<Reply>): (r: Option<Batch>)
    ensures r.Some? ==> r.value.requests == ApiCallsMade(pages, supported)
    ensures r.Some? ==> |ExtractedForms(r.value.results)| == r.value.formsExtracted
  {
    ExtractGroups(PagesByType(pages), supported, reply, Batch([], 0, 0), true)
  }

  /** `/extract-form` with each structured form's page carried along. */
  function ExtractBatchCorrected(pages: seq<PageInput>, supported: string -> bool,
                                 reply: (string, seq<PageInput>) -> Option<Reply>): (r: Option<Batch>)
    ensures r.Some? ==> r.value.requests == ApiCallsMade(pages, supported)
    ensures r.Some? ==> |ExtractedForms(r.value.results)| == r.value.formsExtracted
  {
    ExtractGroups(PagesByType(pages), supported, reply, Batch([], 0, 0), false)
  }

  /** `api_calls_made` as written: the fewest ten-page chunks that hold all pages taken together. */
  function ApiCallsMadeAsWritten(pages: seq<PageInput>): (n: nat)
    ensures n * BatchSize >= |pages|
    ensures n > 0 ==> (n - 1) * BatchSize < |pages|
  {
    (|pages| + BatchSize - 1) / BatchSize
  }

  /** `api_calls_made` counted the way the loop sends requests: per chunk of each supported type. */
  function ApiCallsMade(pages: seq<PageInput>, supported: string -> bool): (n: nat)
    ensures n <= |pages|
  {
    PagesByTypeSpec(pages);
    RequestsAtMost(PagesByType(pages), supported);
    Requests(PagesByType(pages), supported)
  }

  /** A type's chunks never outnumber its pages. */
  lemma {:induction false} RequestsAtMost(groups: seq<Bucket<string, PageInput>>, supported: string -> bool)
    ensures Requests(groups, supported) <= Total(groups)
  {
    if groups != [] {
      RequestsAtMost(groups[1..], supported);
    }
  }

  /** With every type supported, the chunks of the types together hold every page. */
  lemma {:induction false} RequestsCover(groups: seq<Bucket<string, PageInput>>, supported: string -> bool)
    requires forall i :: 0 <= i < |groups| ==> supported(groups[i].key)
    ensures Requests(groups, supported) * BatchSize >= Total(groups)
  {
    if groups != [] {
      RequestsCover(groups[1..], supported);
    }
  }

  /**
   * When every type has a prompt configuration, the requests actually sent are never
   * fewer than `api_calls_made` as written: the as-written count can only undercount.
   */
  lemma AsWrittenNeverOvercounts(pages: seq<PageInput>, supported: string -> bool)
    requires forall p :: p in pages ==> supported(p.detectedType)
    ensures ApiCallsMadeAsWritten(pages) <= ApiCallsMade(pages, supported)
  {
    var groups := PagesByType(pages);
    PagesByTypeSpec(pages);
    forall i | 0 <= i < |groups| ensures supported(groups[i].key) {
      assert KeysOf(groups)[i] == groups[i].key;
      assert Occurs(pages, PageType, groups[i].key);
      var j :| 0 <= j < |pages| && PageType(pages[j]) == groups[i].key;
      assert pages[j] in pages;
    }
    RequestsCover(groups, supported);
  }

  /** A bucket's item is listed in the page result made from that bucket. */
  lemma ResultHolds(t: string, bs: seq<Bucket<int, Json>>, before: seq<PageResult>, p: int, x: Json)
    requires Distinct(KeysOf(bs)) && p in KeysOf(bs) && x in ItemsOf(bs, p)
    ensures exists i :: (|before| <= i < |before + BucketResults(t, bs)|
      && (before + BucketResults(t, bs))[i].number == p && x in (before + BucketResults(t, bs))[i].forms)
  {
    var k :| 0 <= k < |bs| && KeysOf(bs)[k] == p;
    ItemsOfDistinct(bs, k);
    assert (before + BucketResults(t, bs))[|before| + k] == BucketResults(t, bs)[k];
  }

  /** Buckets that are empty apart from key `k0` give page results without forms apart from page `k0`. */
  lemma ResultsEmptyBut(t: string, bs: seq<Bucket<int, Json>>, before: seq<PageResult>, k0: int)
    requires Distinct(KeysOf(bs)) && forall k :: k != k0 ==> ItemsOf(bs, k) == []
    ensures forall i :: (|before| <= i < |before + BucketResults(t, bs)|
      && (before + BucketResults(t, bs))[i].number != k0) ==> (before + BucketResults(t, bs))[i].forms == []
  {
    var rs := before + BucketResults(t, bs);
    forall i | |before| <= i < |rs| && rs[i].number != k0 ensures rs[i].forms == [] {
      var j := i - |before|;
      assert rs[i] == BucketResults(t, bs)[j];
      ItemsOfDistinct(bs, j);
    }
  }

  /**
   * As written, a chunk answered with structured forms lists them all in the page result
   * of its first page: the result of every other page of the chunk holds no form.
   */
  lemma ParsedChunkAsWritten(t: string, chunk: seq<PageInput>, fs: seq<FormInstance>, acc: Batch)
    requires chunk != []
    ensures ChunkStep(t, chunk, Parsed(fs), acc, true).Some?
    ensures forall i :: (|acc.results| <= i < |ChunkStep(t, chunk, Parsed(fs), acc, true).value.results|
      && ChunkStep(t, chunk, Parsed(fs), acc, true).value.results[i].number != chunk[0].number) ==>
      ChunkStep(t, chunk, Parsed(fs), acc, true).value.results[i].forms == []
  {
    var forms := ChunkForms(Parsed(fs), true);
    AsWrittenFilesAllOnFirstPage(chunk, fs);
    var bs := Distribute(chunk, forms).value;
    DistributeSpec(chunk, forms);
    assert ChunkStep(t, chunk, Parsed(fs), acc, true).value.results == acc.results + BucketResults(t, bs);
    ResultsEmptyBut(t, bs, acc.results, chunk[0].number);
  }

  /**
   * With each form's page carried along, a structured form read from a page of the chunk
   * is listed in that page's result.
   */
  lemma ParsedChunkCorrected(t: string, chunk: seq<PageInput>, fs: seq<FormInstance>, acc: Batch)
    requires chunk != []
    ensures ChunkStep(t, chunk, Parsed(fs), acc, false).Some?
    ensures forall j :: 0 <= j < |fs| && fs[j].page in Numbers(chunk) ==>
      exists i :: (|acc.results| <= i < |ChunkStep(t, chunk, Parsed(fs), acc, false).value.results|
        && ChunkStep(t, chunk, Parsed(fs), acc, false).value.results[i].number == fs[j].page
        && FormDict(fs[j]) in ChunkStep(t, chunk, Parsed(fs), acc, false).value.results[i].forms)
  {
    var forms := ChunkForms(Parsed(fs), false);
    FormsFiledOnOwnPage(chunk, fs);
    var bs := Distribute(chunk, forms).value;
    DistributeSpec(chunk, forms);
    assert ChunkStep(t, chunk, Parsed(fs), acc, false).value.results == acc.results + BucketResults(t, bs);
    forall j | 0 <= j < |fs| && fs[j].page in Numbers(chunk)
      ensures exists i :: (|acc.results| <= i < |acc.results + BucketResults(t, bs)|
        && (acc.results + BucketResults(t, bs))[i].number == fs[j].page
        && FormDict(fs[j]) in (acc.results + BucketResults(t, bs))[i].forms)
    {
      ResultHolds(t, bs, acc.results, fs[j].page, FormDict(fs[j]));
    }
  }

  /** Every type has a prompt configuration. */
  predicate AllSupported(t: string)
  {
    true
  }

  /**
   * Two single-page types: the loop sends two requests, while `api_calls_made` as
   * written reports one.
   */
  lemma ApiCallsUndercount(pages: seq<PageInput>, reply: (string, seq<PageInput>) -> Option<Reply>)
    requires pages == [PageInput("a", 1, "W-2"), PageInput("b", 2, "1099-INT")]
    requires forall t, c :: reply(t, c) == Some(Raw([]))
    ensures ExtractBatch(pages, AllSupported, reply).Some?
    ensures ExtractBatch(pages, AllSupported, reply).value.requests == 2
    ensures ApiCallsMade(pages, AllSupported) == 2
    ensures ApiCallsMadeAsWritten(pages) == 1
  {
    var p0 := pages[0];
    var p1 := pages[1];
    assert pages[..1] == [p0];
    assert [p0][..0] == [];
    var first := Place([], [p0], PageType);
    assert first == AddTo([], "W-2", p0);
    assert first == [Bucket("W-2", [p0])];
    var groups := PagesByType(pages);
    assert groups == AddTo(first, "1099-INT", p1);
    assert groups == [Bucket("W-2", [p0]), Bucket("1099-INT", [p1])];
    assert Chunks([p0]) == [[p0]];
    assert Chunks([p1]) == [[p1]];
    assert Requests(groups[2..], AllSupported) == 0;
    assert Requests(groups[1..], AllSupported) == 1;
    assert Requests(groups, AllSupported) == 2;
    assert reply("W-2", [p0]) == Some(Raw([]));
    assert reply("1099-INT", [p1]) == Some(Raw([]));
    assert Distribute([p0], []).Ok?;
    assert Distribute([p1], []).Ok?;
    assert [[p0]][1..] == [] && [[p1]][1..] == [];
    var acc0 := Batch([], 0, 0);
    var acc1 := Batch(acc0.results + BucketResults("W-2", Distribute([p0], []).value), 1, 0);
    assert ChunkForms(Raw([]), true) == [];
    assert ChunkStep("W-2", [p0], Raw([]), acc0, true) == Some(acc1);
    assert ExtractChunks("W-2", [], reply, acc1, true) == Some(acc1);
    assert ExtractChunks("W-2", [[p0]], reply, acc0, true) == Some(acc1);
    var acc2 := Batch(acc1.results + BucketResults("1099-INT", Distribute([p1], []).value), 2, 0);
    assert ChunkStep("1099-INT", [p1], Raw([]), acc1, true) == Some(acc2);
    assert ExtractChunks("1099-INT", [], reply, acc2, true) == Some(acc2);
    assert ExtractChunks("1099-INT", [[p1]], reply, acc1, true) == Some(acc2);
    assert ExtractGroups(groups[2..], AllSupported, reply, acc2, true) == Some(acc2);
    assert ExtractGroups(groups[1..], AllSupported, reply, acc1, true) == Some(acc2);
    assert ExtractGroups(groups, AllSupported, reply, acc0, true) == Some(acc2);
  }
}
