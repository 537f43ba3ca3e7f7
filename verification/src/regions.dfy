/**
 * Step 5 of page detection: which detected pages are kept, and the form regions drawn
 * on each. The model reports, per relevant page, its number, how many forms it holds
 * and their types. A PDF page is kept only when its number names a page of the
 * document. Its forms are assumed stacked, each taking an equal horizontal strip of
 * the rendered image. An uploaded image is one page whose regions carry no geometry.
 *
 * Rendering, uploading and the public URLs are left out; the pixel size of each
 * rendered page is an input.
 */
module Regions {

  /** What the model reported for one relevant page. */
  datatype Detected = Detected(number: int, forms: int, types: seq<string>)

  datatype Box = Box(x: int, y: int, width: int, height: int)

  /** One entry of `form_regions`. */
  datatype Region = Region(formType: string, index: nat, bbox: Box)

  /** One entry of the `pages` list the detection endpoint returns. */
  datatype PageOut = PageOut(number: int, forms: int, types: seq<string>, regions: seq<Region>)

  /** The type of the i-th form: its own detected type, else the page's first one, else "Unknown". */
  function RegionType(types: seq<string>, i: nat): string
  {
    if i < |types| then types[i] else if types != [] then types[0] else "Unknown"
  }

  /** The strips of a rendered `width` by `height` page holding `forms` stacked forms. */
  function PdfRegions(forms: int, types: seq<string>, width: int, height: int): (r: seq<Region>)
    ensures |r| == if forms > 0 then forms else 0
    ensures forall i :: 0 <= i < |r| ==> r[i].index == i && r[i].formType == RegionType(types, i)
    ensures forall i :: 0 <= i < |r| ==> r[i].bbox.x == 0 && r[i].bbox.width == width
  {
    if forms <= 0 then []
    else
      // Python's `//` and Dafny's `/` agree for a positive divisor.
      var strip := height / forms;
      seq(forms, i requires 0 <= i < forms => Region(RegionType(types, i), i, Box(0, i * strip, width, strip)))
  }

  /**
   * The strips tile the page from the top: the first starts at 0, each starts where the
   * one before ends, all are equally tall, and together they leave less than one row per
   * form uncovered at the bottom.
   */
  lemma PdfRegionsTile(forms: int, types: seq<string>, width: int, height: int)
    requires forms > 0 && height >= 0
    ensures PdfRegions(forms, types, width, height)[0].bbox.y == 0
    ensures forall i :: 0 <= i < forms - 1 ==>
      PdfRegions(forms, types, width, height)[i + 1].bbox.y ==
      PdfRegions(forms, types, width, height)[i].bbox.y + PdfRegions(forms, types, width, height)[i].bbox.height
    ensures forall i :: 0 <= i < forms ==>
      PdfRegions(forms, types, width, height)[i].bbox.height == PdfRegions(forms, types, width, height)[0].bbox.height
    ensures 0 <= height - (PdfRegions(forms, types, width, height)[forms - 1].bbox.y + PdfRegions(forms, types, width, height)[forms - 1].bbox.height) < forms
  {
    var r := PdfRegions(forms, types, width, height);
    var strip := height / forms;
    forall i | 0 <= i < forms - 1 ensures r[i + 1].bbox.y == r[i].bbox.y + r[i].bbox.height {
      NextStrip(i, strip);
    }
    NextStrip(forms - 1, strip);
    assert r[forms - 1].bbox.y + r[forms - 1].bbox.height == forms * strip;
    assert height == forms * strip + height % forms;
  }

  /** The strip after the i-th starts one strip height further down. */
  lemma NextStrip(i: int, strip: int)
    ensures (i + 1) * strip == i * strip + strip
  {
  }

  /**
   * Region types come from the detected types: the i-th region takes the i-th type when
   * there is one, and a page without types gets "Unknown" everywhere.
   */
  lemma RegionTypesFromDetection(types: seq<string>, n: nat)
    ensures forall i :: 0 <= i < n && i < |types| ==> RegionType(types, i) == types[i]
    ensures types != [] ==> forall i :: 0 <= i < n ==> RegionType(types, i) in types
    ensures types == [] ==> forall i :: 0 <= i < n ==> RegionType(types, i) == "Unknown"
  {
  }

  /** A page number names a page of the document. */
  predicate ValidPage(number: int, pageCount: nat)
  {
    1 <= number <= pageCount
  }

  /** The entry built for a kept PDF page, given the pixel size of its rendering. */
  function RenderPage(d: Detected, size: int -> (int, int)): (r: PageOut)
    ensures r.number == d.number && r.forms == d.forms && r.types == d.types
    ensures |r.regions| == if d.forms > 0 then d.forms else 0
    ensures forall i :: 0 <= i < |r.regions| ==>
      r.regions[i].index == i && r.regions[i].formType == RegionType(d.types, i) && r.regions[i].bbox.width == size(d.number).0
  {
    PageOut(d.number, d.forms, d.types, PdfRegions(d.forms, d.types, size(d.number).0, size(d.number).1))
  }

  /** The PDF branch: pages the document does not have are skipped, the rest rendered in order. */
  function PdfPages(items: seq<Detected>, pageCount: nat, size: int -> (int, int)): (r: seq<PageOut>)
    ensures |r| <= |items|
    ensures forall j :: 0 <= j < |r| ==> ValidPage(r[j].number, pageCount)
  {
    if items == [] then []
    else
      var rest := PdfPages(items[1..], pageCount, size);
      if ValidPage(items[0].number, pageCount) then [RenderPage(items[0], size)] + rest else rest
  }

  /** How many reported pages the document has. */
  function CountValid(items: seq<Detected>, pageCount: nat): nat
  {
    if items == [] then 0
    else (if ValidPage(items[0].number, pageCount) then 1 else 0) + CountValid(items[1..], pageCount)
  }

  /**
   * Exactly the valid reports are rendered: each valid report has its entry, each entry
   * comes from a valid report, and there is one entry per valid report.
   */
  lemma {:induction false} PdfPagesKeepValid(items: seq<Detected>, pageCount: nat, size: int -> (int, int))
    ensures |PdfPages(items, pageCount, size)| == CountValid(items, pageCount)
    ensures forall i :: 0 <= i < |items| && ValidPage(items[i].number, pageCount) ==>
      RenderPage(items[i], size) in PdfPages(items, pageCount, size)
    ensures forall p :: p in PdfPages(items, pageCount, size) ==>
      exists i :: 0 <= i < |items| && ValidPage(items[i].number, pageCount) && p == RenderPage(items[i], size)
  {
    if items != [] {
      PdfPagesKeepValid(items[1..], pageCount, size);
      var rest := PdfPages(items[1..], pageCount, size);
      forall p | p in PdfPages(items, pageCount, size)
        ensures exists i :: 0 <= i < |items| && ValidPage(items[i].number, pageCount) && p == RenderPage(items[i], size)
      {
        if p in rest {
          var i :| 0 <= i < |items[1..]| && ValidPage(items[1..][i].number, pageCount) && p == RenderPage(items[1..][i], size);
          assert items[1..][i] == items[i + 1];
        } else {
          assert p == RenderPage(items[0], size);
        }
      }
      forall i | 0 <= i < |items| && ValidPage(items[i].number, pageCount)
        ensures RenderPage(items[i], size) in PdfPages(items, pageCount, size)
      {
        if i > 0 {
          assert items[1..][i - 1] == items[i];
        }
      }
    }
  }

  /** The image branch's regions: as many as reported forms, all with an empty box. */
  function ImageRegions(forms: int, types: seq<string>): (r: seq<Region>)
    ensures |r| == if forms > 0 then forms else 0
    ensures forall i :: 0 <= i < |r| ==>
      r[i] == Region(RegionType(types, i), i, Box(0, 0, 0, 0))
  {
    if forms <= 0 then []
    else seq(forms, i requires 0 <= i < forms => Region(RegionType(types, i), i, Box(0, 0, 0, 0)))
  }

  /**
   * The image branch: the upload is page 1, described by the first report when there is
   * one and otherwise as one form of type "Unknown".
   */
  function ImagePage(items: seq<Detected>): (p: PageOut)
    ensures p.number == 1
    ensures items == [] ==> p.forms == 1 && p.types == ["Unknown"] && p.regions == [Region("Unknown", 0, Box(0, 0, 0, 0))]
    ensures items != [] ==> p.forms == items[0].forms && p.types == items[0].types
    ensures |p.regions| == if p.forms > 0 then p.forms else 0
  {
    var types := if items != [] then items[0].types else ["Unknown"];
    var forms := if items != [] then items[0].forms else 1;
    PageOut(1, forms, types, ImageRegions(forms, types))
  }
}
