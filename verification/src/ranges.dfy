/**
 * Grouping of detected page numbers into ranges of consecutive pages, as the K-3,
 * 8805 and 8804 detectors do after their scan, and the inverse expansion used by
 * the legacy `detect_k3_pages`.
 */
module PageRanges {

  /** An inclusive page range `(start, end)`. */
  type Range = (int, int)

  /** The pages `start, start + 1, ..., end`. */
  function Run(start: int, end: int): (r: seq<int>)
    ensures |r| == if start <= end then end - start + 1 else 0
  {
    if start <= end then seq(end - start + 1, i requires 0 <= i <= end - start => start + i) else []
  }

  /** Every page of every range, in order: `pages.extend(range(start, end + 1))`. */
  function Expand(ranges: seq<Range>): seq<int>
  {
    if ranges == [] then []
    else Expand(ranges[..|ranges| - 1]) + Run(ranges[|ranges| - 1].0, ranges[|ranges| - 1].1)
  }

  /**
   * The grouping pass: a page equal to the current range's end plus one extends it,
   * any other page closes it and opens a new one-page range.
   */
  function Group(pages: seq<int>): (r: seq<Range>)
    ensures pages == [] <==> r == []
    ensures r != [] ==> r[|r| - 1].1 == pages[|pages| - 1]
  {
    if pages == [] then []
    else
      var g := Group(pages[..|pages| - 1]);
      var p := pages[|pages| - 1];
      if g != [] && p == g[|g| - 1].1 + 1 then g[..|g| - 1] + [(g[|g| - 1].0, p)]
      else g + [(p, p)]
  }

  /** Every range is non-empty. */
  ghost predicate Proper(ranges: seq<Range>)
  {
    forall k :: 0 <= k < |ranges| ==> ranges[k].0 <= ranges[k].1
  }

  /** No range could be merged with the one after it. */
  ghost predicate Maximal(ranges: seq<Range>)
  {
    forall i, j :: 0 <= i && j == i + 1 && j < |ranges| ==> ranges[j].0 != ranges[i].1 + 1
  }

  /** Ranges in ascending order with a gap of at least one page between neighbours. */
  ghost predicate Separated(ranges: seq<Range>)
  {
    forall i, j :: 0 <= i && j == i + 1 && j < |ranges| ==> ranges[i].1 + 1 < ranges[j].0
  }

  ghost predicate StrictlyIncreasing(pages: seq<int>)
  {
    forall i, j :: 0 <= i < j < |pages| ==> pages[i] < pages[j]
  }

  lemma ExpandAppend(ranges: seq<Range>, r: Range)
    ensures Expand(ranges + [r]) == Expand(ranges) + Run(r.0, r.1)
  {
    assert (ranges + [r])[..|ranges|] == ranges;
  }

  lemma RunSnoc(s: int, e: int)
    requires s <= e + 1
    ensures Run(s, e + 1) == Run(s, e) + [e + 1]
  {
  }

  /** How one more page changes the grouping: it extends the last range or opens a new one. */
  lemma GroupStep(front: seq<int>, p: int)
    ensures var g := Group(front);
      Group(front + [p]) ==
        if g != [] && p == g[|g| - 1].1 + 1 then g[..|g| - 1] + [(g[|g| - 1].0, p)] else g + [(p, p)]
  {
    assert (front + [p])[..|front|] == front;
  }

  /** Extending the last range by one page extends the expansion by that page. */
  lemma ExpandExtend(init: seq<Range>, s: int, e: int)
    requires s <= e
    ensures Expand(init + [(s, e + 1)]) == Expand(init + [(s, e)]) + [e + 1]
  {
    ExpandAppend(init, (s, e));
    ExpandAppend(init, (s, e + 1));
    RunSnoc(s, e);
  }

  /** Grouping loses and invents nothing: expanding the ranges gives back the pages. */
  lemma {:induction false} ExpandGroup(pages: seq<int>)
    ensures Expand(Group(pages)) == pages
  {
    if pages != [] {
      var front := pages[..|pages| - 1];
      var p := pages[|pages| - 1];
      assert pages == front + [p];
      ExpandGroup(front);
      GroupProper(front);
      var g := Group(front);
      if g != [] && p == g[|g| - 1].1 + 1 {
        ExpandGroupExtend(front, p);
      } else {
        ExpandGroupOpen(front, p);
      }
    }
  }

  /** A page that extends the last range extends the expansion by that page. */
  lemma ExpandGroupExtend(front: seq<int>, p: int)
    requires Group(front) != [] && p == Group(front)[|Group(front)| - 1].1 + 1
    requires Expand(Group(front)) == front && Proper(Group(front))
    ensures Expand(Group(front + [p])) == front + [p]
  {
    GroupStep(front, p);
    var g := Group(front);
    var init := g[..|g| - 1];
    var last := g[|g| - 1];
    assert g == init + [last];
    ExpandExtend(init, last.0, last.1);
  }

  /** A page that opens a new range extends the expansion by that page. */
  lemma ExpandGroupOpen(front: seq<int>, p: int)
    requires !(Group(front) != [] && p == Group(front)[|Group(front)| - 1].1 + 1)
    requires Expand(Group(front)) == front
    ensures Expand(Group(front + [p])) == front + [p]
  {
    GroupStep(front, p);
    ExpandAppend(Group(front), (p, p));
    assert Run(p, p) == [p];
  }

  /** Every range the grouping builds is non-empty and none could absorb its successor. */
  lemma {:induction false} GroupProper(pages: seq<int>)
    ensures Proper(Group(pages)) && Maximal(Group(pages))
  {
    if pages != [] {
      var front := pages[..|pages| - 1];
      var p := pages[|pages| - 1];
      assert pages == front + [p];
      GroupProper(front);
      GroupProperStep(front, p);
    }
  }

  lemma GroupProperStep(front: seq<int>, p: int)
    requires Proper(Group(front)) && Maximal(Group(front))
    ensures Proper(Group(front + [p])) && Maximal(Group(front + [p]))
  {
    GroupStep(front, p);
    var g := Group(front);
    if g != [] && p == g[|g| - 1].1 + 1 {
      ExtendKeepsProper(g, p);
    } else {
      OpenKeepsProper(g, p);
    }
  }

  lemma ExtendKeepsProper(g: seq<Range>, p: int)
    requires g != [] && p == g[|g| - 1].1 + 1 && Proper(g) && Maximal(g)
    ensures var r := g[..|g| - 1] + [(g[|g| - 1].0, p)]; Proper(r) && Maximal(r)
  {
    var r := g[..|g| - 1] + [(g[|g| - 1].0, p)];
    forall k | 0 <= k < |r| ensures r[k].0 <= r[k].1 {
      if k < |g| - 1 {
        assert r[k] == g[k];
      }
    }
    forall i, j | 0 <= i && j == i + 1 && j < |r| ensures r[j].0 != r[i].1 + 1 {
      assert r[i] == g[i] && r[j].0 == g[j].0;
    }
  }

  lemma OpenKeepsProper(g: seq<Range>, p: int)
    requires !(g != [] && p == g[|g| - 1].1 + 1) && Proper(g) && Maximal(g)
    ensures Proper(g + [(p, p)]) && Maximal(g + [(p, p)])
  {
    var r := g + [(p, p)];
    forall k | 0 <= k < |r| ensures r[k].0 <= r[k].1 {
      if k < |g| {
        assert r[k] == g[k];
      }
    }
    forall i, j | 0 <= i && j == i + 1 && j < |r| ensures r[j].0 != r[i].1 + 1 {
      assert r[i] == g[i];
      if j < |g| {
        assert r[j] == g[j];
      }
    }
  }

  /** The first range starts at the first page. */
  lemma {:induction false} GroupFirst(pages: seq<int>)
    requires pages != []
    ensures Group(pages)[0].0 == pages[0]
  {
    var front := pages[..|pages| - 1];
    var p := pages[|pages| - 1];
    assert pages == front + [p];
    GroupStep(front, p);
    if front != [] {
      GroupFirst(front);
      var g := Group(front);
      assert Group(pages)[0].0 == g[0].0;
    }
  }

  /** Pages found by a forward scan arrive in increasing order, so the ranges are separated. */
  lemma {:induction false} GroupSeparated(pages: seq<int>)
    requires StrictlyIncreasing(pages)
    ensures Separated(Group(pages))
  {
    if pages != [] {
      var front := pages[..|pages| - 1];
      var p := pages[|pages| - 1];
      assert pages == front + [p];
      IncreasingFront(pages);
      GroupSeparated(front);
      GroupSeparatedStep(front, p);
    }
  }

  lemma IncreasingFront(pages: seq<int>)
    requires StrictlyIncreasing(pages) && pages != []
    ensures StrictlyIncreasing(pages[..|pages| - 1])
    ensures |pages| > 1 ==> pages[|pages| - 2] < pages[|pages| - 1]
  {
  }

  lemma GroupSeparatedStep(front: seq<int>, p: int)
    requires Separated(Group(front))
    requires Group(front) != [] ==> Group(front)[|Group(front)| - 1].1 < p
    ensures Separated(Group(front + [p]))
  {
    GroupStep(front, p);
    var g := Group(front);
    if g != [] && p == g[|g| - 1].1 + 1 {
      ExtendKeepsSeparated(g, p);
    } else {
      OpenKeepsSeparated(g, p);
    }
  }

  lemma ExtendKeepsSeparated(g: seq<Range>, p: int)
    requires g != [] && Separated(g)
    ensures Separated(g[..|g| - 1] + [(g[|g| - 1].0, p)])
  {
    var r := g[..|g| - 1] + [(g[|g| - 1].0, p)];
    forall i, j | 0 <= i && j == i + 1 && j < |r| ensures r[i].1 + 1 < r[j].0 {
      assert r[i] == g[i] && r[j].0 == g[j].0;
    }
  }

  lemma OpenKeepsSeparated(g: seq<Range>, p: int)
    requires Separated(g) && (g != [] ==> g[|g| - 1].1 + 1 < p)
    ensures Separated(g + [(p, p)])
  {
    var r := g + [(p, p)];
    forall i, j | 0 <= i && j == i + 1 && j < |r| ensures r[i].1 + 1 < r[j].0 {
      assert r[i] == g[i];
      if j < |g| {
        assert r[j] == g[j];
      }
    }
  }
}
