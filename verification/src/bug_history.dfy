/**
 * The bug history the prompt-validation script keeps across runs: every bug of a run
 * gets an id from its PDF, type, form and the start of its message; comparing the
 * run's ids with those active after the previous run tells which bugs are new, which
 * continue and which were solved, and the record of every bug ever seen is updated.
 *
 * The history file is an input and an output rather than read and written, and the
 * clock is the `now` parameter.
 */
module BugHistory {
  import opened Json
  import opened Grouping
  import opened W2Checks

  const Active: string := "ACTIVE"
  const Solved: string := "SOLVED"

  /** How many characters of a bug's message go into its id. */
  const MessageKey: nat := 50

  /** How many run records the history keeps. */
  const KeptRuns: nat := 50

  /** One tracked bug, as stored in the history's bug lists. */
  datatype Tracked = Tracked(
    id: string, pdf: string, kind: string, formId: string, message: string, details: Json,
    firstSeen: string, lastSeen: string, status: string, solvedDate: Option<string>)

  // ---------------------------------------------------------------------------
  // Bug ids
  // ---------------------------------------------------------------------------

  /** `s[:n]`. */
  function Prefix(s: string, n: nat): (p: string)
    ensures |p| == if |s| <= n then |s| else n
    ensures p == s[..|p|]
  {
    if |s| <= n then s else s[..n]
  }

  /** `generate_bug_id`. */
  function BugId(b: Bug, pdf: string): string
  {
    pdf + "|" + b.kind + "|" + b.formId + "|" + Prefix(b.message, MessageKey)
  }

  /**
   * Only the first fifty characters of a message count: two bugs of the same type on the
   * same form of the same PDF whose messages agree that far are one bug to the history.
   */
  lemma BugIdIgnoresTail(a: Bug, b: Bug, pdf: string)
    requires a.kind == b.kind && a.formId == b.formId
    requires |a.message| >= MessageKey && |b.message| >= MessageKey
    requires a.message[..MessageKey] == b.message[..MessageKey]
    ensures BugId(a, pdf) == BugId(b, pdf)
  {
  }

  /** Bugs of different PDFs whose names hold no `|` never share an id. */
  lemma BugIdSeparatesPdfs(a: Bug, b: Bug, p: string, q: string)
    requires p != q && '|' !in p && '|' !in q
    ensures BugId(a, p) != BugId(b, q)
  {
    var x := BugId(a, p);
    var y := BugId(b, q);
    if |p| < |q| {
      assert x[|p|] == '|' && y[|p|] == q[|p|] && q[|p|] in q;
    } else if |q| < |p| {
      assert y[|q|] == '|' && x[|q|] == p[|q|] && p[|q|] in p;
    } else {
      var k :| 0 <= k < |p| && p[k] != q[k];
      assert x[k] == p[k] && y[k] == q[k];
    }
  }

  // ---------------------------------------------------------------------------
  // Lists of tracked bugs keyed by id
  // ---------------------------------------------------------------------------

  function Ids(ts: seq<Tracked>): (ids: seq<string>)
    ensures |ids| == |ts|
    ensures forall i :: 0 <= i < |ts| ==> ids[i] == ts[i].id
  {
    seq(|ts|, i requires 0 <= i < |ts| => ts[i].id)
  }

  /** The list can stand for a dictionary keyed by id: no id occurs twice. */
  predicate UniqueIds(ts: seq<Tracked>)
  {
    Distinct(Ids(ts))
  }

  /** `d.get(id)` on the dictionary the list stands for. */
  function Find(ts: seq<Tracked>, id: string): (r: Option<Tracked>)
    ensures r.Some? ==> r.value in ts && r.value.id == id
    ensures r.None? <==> id !in Ids(ts)
  {
    if ts == [] then None
    else if ts[0].id == id then Some(ts[0])
    else
      IdsCons(ts);
      Find(ts[1..], id)
  }

  /** `d[t.id] = t`: an existing entry is replaced where it stands, a new one goes last. */
  function Store(ts: seq<Tracked>, t: Tracked): (r: seq<Tracked>)
    ensures t.id in Ids(ts) ==> Ids(r) == Ids(ts)
    ensures t.id !in Ids(ts) ==> Ids(r) == Ids(ts) + [t.id]
    ensures forall e :: e in r ==> e in ts || e == t
  {
    if ts == [] then [t]
    else if ts[0].id == t.id then
      assert Ids([t] + ts[1..]) == Ids(ts);
      [t] + ts[1..]
    else
      var tail := Store(ts[1..], t);
      IdsCons(ts);
      assert Ids([ts[0]] + tail) == [ts[0].id] + Ids(tail);
      [ts[0]] + tail
  }

  /** Storing into a list with distinct ids keeps them distinct. */
  lemma StoreUnique(ts: seq<Tracked>, t: Tracked)
    requires UniqueIds(ts)
    ensures UniqueIds(Store(ts, t))
  {
    var ids := Ids(ts);
    if t.id !in ids {
      var r := ids + [t.id];
      forall i, j | 0 <= i < j < |r| ensures r[i] != r[j] {
        if j == |ids| {
          assert r[i] == ids[i];
        }
      }
    }
  }

  /** After storing `t`, looking up its id finds `t` and every other lookup is as before. */
  lemma {:induction false} StoreFind(ts: seq<Tracked>, t: Tracked, id: string)
    ensures Find(Store(ts, t), id) == if id == t.id then Some(t) else Find(ts, id)
  {
    if ts != [] && ts[0].id != t.id {
      StoreFind(ts[1..], t, id);
      assert Store(ts, t)[1..] == Store(ts[1..], t);
    }
  }

  /** The last entry of `xs` with this id. */
  function LastWith(xs: seq<Tracked>, id: string): (r: Option<Tracked>)
    ensures r.None? <==> id !in Ids(xs)
    ensures r.Some? ==> r.value in xs && r.value.id == id
  {
    if xs == [] then None
    else if xs[|xs| - 1].id == id then Some(xs[|xs| - 1])
    else
      assert Ids(xs) == Ids(xs[..|xs| - 1]) + [xs[|xs| - 1].id];
      LastWith(xs[..|xs| - 1], id)
  }

  /** `{b["bug_id"]: b for b in xs}`. */
  function Index(xs: seq<Tracked>): (r: seq<Tracked>)
    ensures UniqueIds(r)
    ensures forall id :: id in Ids(r) <==> id in Ids(xs)
    ensures forall e :: e in r ==> e in xs
  {
    if xs == [] then []
    else
      var init := xs[..|xs| - 1];
      assert Ids(xs) == Ids(init) + [xs[|xs| - 1].id];
      StoreUnique(Index(init), xs[|xs| - 1]);
      Store(Index(init), xs[|xs| - 1])
  }

  /** A later entry with the same id replaces an earlier one. */
  lemma {:induction false} IndexFind(xs: seq<Tracked>, id: string)
    ensures Find(Index(xs), id) == LastWith(xs, id)
  {
    if xs != [] {
      IndexFind(xs[..|xs| - 1], id);
      StoreFind(Index(xs[..|xs| - 1]), xs[|xs| - 1], id);
    }
  }

  /** Storing a record under a new id appends it. */
  lemma StoreNew(ts: seq<Tracked>, t: Tracked)
    requires t.id !in Ids(ts)
    ensures Store(ts, t) == ts + [t]
    decreases ts
  {
    if ts != [] {
      IdsCons(ts);
      StoreNew(ts[1..], t);
      assert [ts[0]] + (ts[1..] + [t]) == ts + [t];
    }
  }

  /** A list whose ids are already distinct is its own dictionary. */
  lemma {:induction false} IndexOfUnique(xs: seq<Tracked>)
    requires UniqueIds(xs)
    ensures Index(xs) == xs
  {
    if xs != [] {
      var init, last := xs[..|xs| - 1], xs[|xs| - 1];
      UniqueInit(xs);
      IndexOfUnique(init);
      StoreNew(init, last);
      assert init + [last] == xs;
    }
  }

  /** Dropping the last record of a list with distinct ids leaves distinct ids, none of them the last one's. */
  lemma UniqueInit(xs: seq<Tracked>)
    requires UniqueIds(xs) && xs != []
    ensures UniqueIds(xs[..|xs| - 1]) && xs[|xs| - 1].id !in Ids(xs[..|xs| - 1])
  {
    var init := xs[..|xs| - 1];
    assert Ids(init) == Ids(xs)[..|xs| - 1];
    forall j | 0 <= j < |init| ensures Ids(init)[j] != xs[|xs| - 1].id {
      assert Ids(xs)[j] != Ids(xs)[|xs| - 1];
    }
  }

  /** In a list with distinct ids, looking up an entry's id finds that entry. */
  lemma {:induction false} FindUnique(ts: seq<Tracked>, i: nat)
    requires UniqueIds(ts) && i < |ts|
    ensures Find(ts, ts[i].id) == Some(ts[i])
  {
    if i > 0 {
      UniqueTail(ts);
      assert Ids(ts)[0] != Ids(ts)[i];
      FindUnique(ts[1..], i - 1);
    }
  }

  /** The ids of a dictionary depend only on the ids of the list it was built from. */
  lemma {:induction false} IndexIds(xs: seq<Tracked>, ys: seq<Tracked>)
    requires Ids(xs) == Ids(ys)
    ensures Ids(Index(xs)) == Ids(Index(ys))
  {
    if xs != [] {
      assert Ids(xs[..|xs| - 1]) == Ids(xs)[..|xs| - 1];
      assert Ids(ys[..|ys| - 1]) == Ids(ys)[..|ys| - 1];
      assert Ids(xs)[|xs| - 1] == Ids(ys)[|ys| - 1];
      IndexIds(xs[..|xs| - 1], ys[..|ys| - 1]);
    }
  }

  lemma IdsCons(ts: seq<Tracked>)
    requires ts != []
    ensures Ids(ts) == [ts[0].id] + Ids(ts[1..])
  {
  }

  lemma IdsAppend(a: seq<Tracked>, b: seq<Tracked>)
    ensures Ids(a + b) == Ids(a) + Ids(b)
  {
  }

  /** Dropping the first entry keeps ids distinct. */
  lemma UniqueTail(ts: seq<Tracked>)
    requires ts != [] && UniqueIds(ts)
    ensures UniqueIds(ts[1..]) && ts[0].id !in Ids(ts[1..])
  {
    assert Ids(ts[1..]) == Ids(ts)[1..];
  }

  // ---------------------------------------------------------------------------
  // This run's bugs
  // ---------------------------------------------------------------------------

  /** The record `update_bug_history` makes for a bug found in this run. */
  function Entry(b: Bug, pdf: string, now: string): Tracked
  {
    Tracked(BugId(b, pdf), pdf, b.kind, b.formId, b.message, b.details, now, now, Active, None)
  }

  function ReportEntries(r: Report, now: string): (es: seq<Tracked>)
    ensures |es| == |r.bugs|
    ensures forall j :: 0 <= j < |r.bugs| ==> es[j] == Entry(r.bugs[j], r.pdfName, now)
  {
    seq(|r.bugs|, j requires 0 <= j < |r.bugs| => Entry(r.bugs[j], r.pdfName, now))
  }

  /** The records of every bug of every report, in report order. */
  function Entries(results: seq<Report>, now: string): (es: seq<Tracked>)
    ensures forall e :: e in es ==> e.firstSeen == now && e.lastSeen == now && e.status == Active && e.solvedDate == None
  {
    if results == [] then [] else ReportEntries(results[0], now) + Entries(results[1..], now)
  }

  /** Some bug of some report has this id. */
  predicate Reported(results: seq<Report>, id: string)
  {
    exists i, j :: 0 <= i < |results| && 0 <= j < |results[i].bugs| && BugId(results[i].bugs[j], results[i].pdfName) == id
  }

  /** Some bug of this report has this id. */
  predicate ReportedIn(r: Report, id: string)
  {
    exists j :: 0 <= j < |r.bugs| && BugId(r.bugs[j], r.pdfName) == id
  }

  lemma ReportEntriesIds(r: Report, now: string)
    ensures forall id :: id in Ids(ReportEntries(r, now)) <==> ReportedIn(r, id)
  {
    var ids := Ids(ReportEntries(r, now));
    forall id | ReportedIn(r, id) ensures id in ids {
      var j :| 0 <= j < |r.bugs| && BugId(r.bugs[j], r.pdfName) == id;
      assert ids[j] == id;
    }
  }

  lemma ReportedSplit(results: seq<Report>, id: string)
    requires results != []
    ensures Reported(results, id) <==> ReportedIn(results[0], id) || Reported(results[1..], id)
  {
    if Reported(results, id) {
      var i, j :| 0 <= i < |results| && 0 <= j < |results[i].bugs| && BugId(results[i].bugs[j], results[i].pdfName) == id;
      if i > 0 {
        assert results[1..][i - 1] == results[i];
      }
    }
    if Reported(results[1..], id) {
      var i, j :| 0 <= i < |results[1..]| && 0 <= j < |results[1..][i].bugs| && BugId(results[1..][i].bugs[j], results[1..][i].pdfName) == id;
      assert results[1..][i] == results[i + 1];
    }
  }

  /** The records carry exactly the ids of the reported bugs. */
  lemma {:induction false} EntriesIds(results: seq<Report>, now: string)
    ensures forall id :: id in Ids(Entries(results, now)) <==> Reported(results, id)
  {
    if results != [] {
      EntriesIds(results[1..], now);
      ReportEntriesIds(results[0], now);
      IdsAppend(ReportEntries(results[0], now), Entries(results[1..], now));
      forall id ensures id in Ids(Entries(results, now)) <==> Reported(results, id) {
        ReportedSplit(results, id);
      }
    }
  }

  lemma ReportEntriesTimeless(r: Report, t1: string, t2: string)
    ensures Ids(ReportEntries(r, t1)) == Ids(ReportEntries(r, t2))
  {
  }

  /** The ids do not depend on the clock. */
  lemma {:induction false} EntriesIdsTimeless(results: seq<Report>, t1: string, t2: string)
    ensures Ids(Entries(results, t1)) == Ids(Entries(results, t2))
  {
    if results != [] {
      EntriesIdsTimeless(results[1..], t1, t2);
      ReportEntriesTimeless(results[0], t1, t2);
      IdsAppend(ReportEntries(results[0], t1), Entries(results[1..], t1));
      IdsAppend(ReportEntries(results[0], t2), Entries(results[1..], t2));
    }
  }

  /** `current_bugs`: this run's bugs keyed by id, a later bug replacing an earlier one with its id. */
  function CurrentBugs(results: seq<Report>, now: string): (cur: seq<Tracked>)
    ensures UniqueIds(cur)
    ensures forall id :: id in Ids(cur) <==> Reported(results, id)
    ensures forall e :: e in cur ==> e.firstSeen == now && e.lastSeen == now && e.status == Active && e.solvedDate == None
  {
    EntriesIds(results, now);
    Index(Entries(results, now))
  }

  // ---------------------------------------------------------------------------
  // Comparing with the previous run
  // ---------------------------------------------------------------------------

  /** A bug marked solved at `now`. */
  function Close(e: Tracked, now: string): Tracked
  {
    e.(status := Solved, solvedDate := Some(now))
  }

  /** The first loop's `newly_solved`: the previously active bugs this run did not report, closed. */
  function NewlySolved(prev: seq<Tracked>, current: seq<Tracked>, now: string): (r: seq<Tracked>)
    ensures forall id :: id in Ids(r) <==> id in Ids(prev) && id !in Ids(current)
    ensures forall e :: e in r ==> e.status == Solved && e.solvedDate == Some(now)
    ensures forall e :: e in r ==> exists p :: p in prev && e == Close(p, now)
  {
    if prev == [] then []
    else
      var rest := NewlySolved(prev[1..], current, now);
      var head := if prev[0].id !in Ids(current) then [Close(prev[0], now)] else [];
      IdsAppend(head, rest);
      assert Ids(head) == if head == [] then [] else [prev[0].id];
      IdsCons(prev);
      head + rest
  }

  /** The first loop's updates to `all_bugs`: a solved bug's record there is closed too. */
  function CloseAll(all: seq<Tracked>, prev: seq<Tracked>, current: seq<Tracked>, now: string): (r: seq<Tracked>)
    ensures Ids(r) == Ids(all)
    decreases prev
  {
    if prev == [] then all
    else
      var id := prev[0].id;
      var next := if id !in Ids(current) && Find(all, id).Some? then Store(all, Close(Find(all, id).value, now)) else all;
      CloseAll(next, prev[1..], current, now)
  }

  /**
   * After the first loop a record is closed exactly when its bug was active before and
   * this run did not report it; every other record is as it was.
   */
  lemma {:induction false} CloseAllFind(all: seq<Tracked>, prev: seq<Tracked>, current: seq<Tracked>, now: string, id: string)
    ensures Find(CloseAll(all, prev, current, now), id) ==
      if id in Ids(prev) && id !in Ids(current) && Find(all, id).Some? then Some(Close(Find(all, id).value, now))
      else Find(all, id)
    decreases prev
  {
    if prev != [] {
      var p := prev[0].id;
      var next := if p !in Ids(current) && Find(all, p).Some? then Store(all, Close(Find(all, p).value, now)) else all;
      if p !in Ids(current) && Find(all, p).Some? {
        StoreFind(all, Close(Find(all, p).value, now), id);
      }
      CloseAllFind(next, prev[1..], current, now, id);
      IdsCons(prev);
    }
  }

  /** A continuing bug keeps the `first_seen` of its previous record. */
  function Carry(c: Tracked, prev: seq<Tracked>): (e: Tracked)
    ensures e.(firstSeen := c.firstSeen) == c
  {
    match Find(prev, c.id)
    case Some(p) => c.(firstSeen := p.firstSeen)
    case None => c
  }

  /** The second loop's `still_active`: every bug of this run, in order, continuing ones carried over. */
  function StillActive(current: seq<Tracked>, prev: seq<Tracked>): (r: seq<Tracked>)
    ensures Ids(r) == Ids(current)
    ensures |r| == |current| && forall i :: 0 <= i < |current| ==> r[i] == Carry(current[i], prev)
  {
    seq(|current|, i requires 0 <= i < |current| => Carry(current[i], prev))
  }

  /** Against active bugs with the same ids in the same order, every bug carries its own. */
  lemma CarryAll(current: seq<Tracked>, prev: seq<Tracked>)
    requires UniqueIds(prev) && Ids(current) == Ids(prev)
    ensures forall i :: 0 <= i < |prev| ==> StillActive(current, prev)[i].firstSeen == prev[i].firstSeen
  {
    forall i | 0 <= i < |prev| ensures StillActive(current, prev)[i].firstSeen == prev[i].firstSeen {
      assert current[i].id == Ids(current)[i] == Ids(prev)[i];
      FindUnique(prev, i);
    }
  }

  /** The second loop's `new_bugs`: the bugs of this run that were not active before. */
  function NewBugs(current: seq<Tracked>, prev: seq<Tracked>): (r: seq<Tracked>)
    ensures forall id :: id in Ids(r) <==> id in Ids(current) && id !in Ids(prev)
    ensures forall e :: e in r ==> e in current
  {
    if current == [] then []
    else
      var rest := NewBugs(current[1..], prev);
      var head := if current[0].id !in Ids(prev) then [current[0]] else [];
      IdsAppend(head, rest);
      assert Ids(head) == if head == [] then [] else [current[0].id];
      IdsCons(current);
      head + rest
  }

  /** When every bug of this run was active before, none is new. */
  lemma {:induction false} NewBugsNone(current: seq<Tracked>, prev: seq<Tracked>)
    requires forall i :: 0 <= i < |current| ==> current[i].id in Ids(prev)
    ensures NewBugs(current, prev) == []
  {
    if current != [] {
      NewBugsNone(current[1..], prev);
    }
  }

  /** When every previously active bug is reported again, none is solved. */
  lemma {:induction false} NewlySolvedNone(prev: seq<Tracked>, current: seq<Tracked>, now: string)
    requires forall i :: 0 <= i < |prev| ==> prev[i].id in Ids(current)
    ensures NewlySolved(prev, current, now) == []
  {
    if prev != [] {
      NewlySolvedNone(prev[1..], current, now);
    }
  }

  /** A record seen again in this run. */
  function Seen(a: Tracked, now: string): Tracked
  {
    a.(lastSeen := now, status := Active)
  }

  /** The second loop's update of `all_bugs` for one bug of this run. */
  function See(all: seq<Tracked>, e: Tracked, now: string): (r: seq<Tracked>)
  {
    match Find(all, e.id)
    case Some(a) => Store(all, Seen(a, now))
    case None => Store(all, e)
  }

  /** The second loop's updates to `all_bugs`: known records are refreshed, new ones appended. */
  function SeeAll(all: seq<Tracked>, active: seq<Tracked>, now: string): (r: seq<Tracked>)
    ensures |all| <= |r| && Ids(r)[..|all|] == Ids(all)
    ensures forall id :: id in Ids(r) <==> id in Ids(all) || id in Ids(active)
    decreases active
  {
    if active == [] then all
    else
      var next := See(all, active[0], now);
      IdsCons(active);
      assert |all| <= |next| && Ids(next)[..|all|] == Ids(all);
      SeeAll(next, active[1..], now)
  }

  lemma {:induction false} SeeAllUnique(all: seq<Tracked>, active: seq<Tracked>, now: string)
    requires UniqueIds(all)
    ensures UniqueIds(SeeAll(all, active, now))
    decreases active
  {
    if active != [] {
      var e := active[0];
      match Find(all, e.id) {
        case Some(a) => StoreUnique(all, Seen(a, now));
        case None => StoreUnique(all, e);
      }
      SeeAllUnique(See(all, e, now), active[1..], now);
    }
  }

  /**
   * After the second loop a bug of this run has its old record refreshed, or else its
   * own record; every other record is as it was.
   */
  lemma {:induction false} SeeAllFind(all: seq<Tracked>, active: seq<Tracked>, now: string, id: string)
    requires UniqueIds(active)
    ensures Find(SeeAll(all, active, now), id) ==
      if id !in Ids(active) then Find(all, id)
      else if Find(all, id).Some? then Some(Seen(Find(all, id).value, now))
      else Find(active, id)
    decreases active
  {
    if active != [] {
      var e := active[0];
      var next := See(all, e, now);
      match Find(all, e.id) {
        case Some(a) => StoreFind(all, Seen(a, now), id);
        case None => StoreFind(all, e, id);
      }
      UniqueTail(active);
      SeeAllFind(next, active[1..], now, id);
      IdsCons(active);
    }
  }

  // ---------------------------------------------------------------------------
  // The run record and the updated history
  // ---------------------------------------------------------------------------

  /** One entry of `runs`. */
  datatype Run = Run(
    timestamp: string, totalPdfs: nat, passed: nat, failed: nat,
    totalBugs: nat, newBugs: nat, solvedBugs: nat, bugTypes: seq<(string, nat)>)

  /** `summary`. */
  datatype Summary = Summary(totalBugsEver: nat, currentlyActive: nat, totalSolved: nat, bugTypesActive: seq<(string, nat)>)

  /**
   * The history file: the runs, every bug ever seen (stored as `all_bugs_list`), every
   * bug solved so far, and the bugs active after the last run.
   */
  datatype History = History(
    runs: seq<Run>, allBugs: seq<Tracked>, solvedBugs: seq<Tracked>, activeBugs: seq<Tracked>,
    lastUpdated: Option<string>, summary: Option<Summary>)

  /** What `load_bug_history` gives when there is no history file yet. */
  const NoHistory: History := History([], [], [], [], None, None)

  /** What `update_bug_history` returns. */
  datatype Outcome = Outcome(newlySolved: seq<Tracked>, newBugs: seq<Tracked>, stillActive: seq<Tracked>, history: History)

  /** `sum(1 for r in results if r.passed)`. */
  function CountPassed(results: seq<Report>): (n: nat)
    ensures n <= |results|
  {
    if results == [] then 0 else (if results[0].passed then 1 else 0) + CountPassed(results[1..])
  }

  /** The number of records marked solved. */
  function CountSolved(ts: seq<Tracked>): (n: nat)
    ensures n <= |ts|
  {
    if ts == [] then 0 else (if ts[0].status == Solved then 1 else 0) + CountSolved(ts[1..])
  }

  function TrackedKind(t: Tracked): string
  {
    t.kind
  }

  /** `xs[-n:]` for a positive `n`. */
  function Latest<T>(xs: seq<T>, n: nat): (r: seq<T>)
    requires n > 0
    ensures |r| == if |xs| <= n then |xs| else n
    ensures r == xs[|xs| - |r|..]
  {
    if |xs| <= n then xs else xs[|xs| - n..]
  }

  /** The runs before the newest one in `after` are the latest of `before`, in order. */
  predicate Continues(after: seq<Run>, before: seq<Run>)
  {
    0 < |after| && |after| - 1 <= |before| && after[..|after| - 1] == before[|before| - (|after| - 1)..]
  }

  /** `runs.append(run)` followed by `runs[-50:]`: the new run comes last, after the latest older ones. */
  function KeepLatest(runs: seq<Run>, run: Run): (r: seq<Run>)
    ensures |r| == (if |runs| < KeptRuns then |runs| + 1 else KeptRuns) && r[|r| - 1] == run
    ensures Continues(r, runs)
  {
    var r := Latest(runs + [run], KeptRuns);
    assert r == (runs + [run])[|runs| + 1 - |r|..];
    r
  }

  /**
   * `update_bug_history`, given the loaded history and the clock reading: the solved list
   * grows by exactly the newly solved bugs, the active list is replaced by this run's,
   * and the history is stamped with `now`. The run record counts this run's PDFs and
   * distinct bugs, how many are new and how many were solved, and its per-type counts add
   * up to the bug count; only the latest fifty runs are kept, this one last. What each
   * bug list holds is stated by the lemmas that follow.
   */
  function UpdateHistory(h: History, results: seq<Report>, now: string): (o: Outcome)
    ensures o.history.solvedBugs == h.solvedBugs + o.newlySolved
    ensures o.history.lastUpdated == Some(now) && o.history.activeBugs == o.stillActive
    ensures var runs := o.history.runs;
      |runs| == (if |h.runs| < KeptRuns then |h.runs| + 1 else KeptRuns)
      && runs[|runs| - 1].timestamp == now
      && runs[|runs| - 1].totalPdfs == runs[|runs| - 1].passed + runs[|runs| - 1].failed == |results|
      && runs[|runs| - 1].totalBugs == |o.stillActive|
      && runs[|runs| - 1].newBugs == |o.newBugs|
      && runs[|runs| - 1].solvedBugs == |o.newlySolved|
      && SumCounts(runs[|runs| - 1].bugTypes) == |o.stillActive|
    ensures Continues(o.history.runs, h.runs)
  {
    var current := CurrentBugs(results, now);
    var prev := Index(h.activeBugs);
    var solved := NewlySolved(prev, current, now);
    var active := StillActive(current, prev);
    var added := NewBugs(current, prev);
    var all := SeeAll(CloseAll(Index(h.allBugs), prev, current, now), active, now);
    var passed := CountPassed(results);
    var run := Run(now, |results|, passed, |results| - passed, |current|, |added|, |solved|,
                   Counts(GroupBy(current, TrackedKind)));
    SumCountsTotal(GroupBy(current, TrackedKind));
    var summary := Summary(|all|, |active|, CountSolved(all), run.bugTypes);
    Outcome(solved, added, active,
            History(KeepLatest(h.runs, run), all, h.solvedBugs + solved, active, Some(now), Some(summary)))
  }

  /**
   * A bug is newly solved exactly when it was active after the previous run and no bug
   * of this run has its id; it comes back marked solved at `now`.
   */
  lemma SolvedExactly(h: History, results: seq<Report>, now: string)
    ensures var o := UpdateHistory(h, results, now);
      forall id :: id in Ids(o.newlySolved) <==> id in Ids(h.activeBugs) && !Reported(results, id)
    ensures var o := UpdateHistory(h, results, now);
      forall e :: e in o.newlySolved ==> e.status == Solved && e.solvedDate == Some(now)
  {
  }

  /** The active bugs afterwards are exactly this run's bugs, once each, all seen at `now`. */
  lemma ActiveExactly(h: History, results: seq<Report>, now: string)
    ensures var o := UpdateHistory(h, results, now);
      UniqueIds(o.stillActive) && o.history.activeBugs == o.stillActive
    ensures var o := UpdateHistory(h, results, now);
      forall id :: id in Ids(o.stillActive) <==> Reported(results, id)
    ensures var o := UpdateHistory(h, results, now);
      forall e :: e in o.stillActive ==> e.status == Active && e.lastSeen == now
  {
    var o := UpdateHistory(h, results, now);
    var current := CurrentBugs(results, now);
    forall e | e in o.stillActive ensures e.status == Active && e.lastSeen == now {
      var i :| 0 <= i < |o.stillActive| && o.stillActive[i] == e;
      assert current[i] in current;
    }
  }

  /**
   * A bug that was active before keeps its first sighting (from its last record in the
   * active list); any other bug of this run was first seen now.
   */
  lemma FirstSeenCarried(h: History, results: seq<Report>, now: string)
    ensures var o := UpdateHistory(h, results, now);
      forall e :: e in o.stillActive ==>
        e.firstSeen == if e.id in Ids(h.activeBugs) then LastWith(h.activeBugs, e.id).value.firstSeen else now
  {
    var o := UpdateHistory(h, results, now);
    var current := CurrentBugs(results, now);
    var prev := Index(h.activeBugs);
    forall e | e in o.stillActive
      ensures e.firstSeen == if e.id in Ids(h.activeBugs) then LastWith(h.activeBugs, e.id).value.firstSeen else now
    {
      var i :| 0 <= i < |o.stillActive| && o.stillActive[i] == e;
      assert current[i] in current && e == Carry(current[i], prev);
      IndexFind(h.activeBugs, e.id);
    }
  }

  /** A bug is new exactly when this run reported it and it was not active before. */
  lemma NewExactly(h: History, results: seq<Report>, now: string)
    ensures var o := UpdateHistory(h, results, now);
      forall id :: id in Ids(o.newBugs) <==> Reported(results, id) && id !in Ids(h.activeBugs)
    ensures var o := UpdateHistory(h, results, now);
      forall e :: e in o.newBugs ==> e in o.stillActive && e.firstSeen == now
  {
    var o := UpdateHistory(h, results, now);
    var current := CurrentBugs(results, now);
    var prev := Index(h.activeBugs);
    forall e | e in o.newBugs ensures e in o.stillActive && e.firstSeen == now {
      var i :| 0 <= i < |current| && current[i] == e;
      assert Find(prev, e.id) == None;
      assert o.stillActive[i] == Carry(current[i], prev);
    }
  }

  /**
   * A record of `all_bugs` after the update, one id at a time: a bug of this run has its
   * old record refreshed (or, if it never had one, its active record copied); a bug that
   * was active but is no longer reported has its record closed; any other record is kept.
   */
  lemma AllBugsFind(h: History, results: seq<Report>, now: string, id: string)
    ensures var o := UpdateHistory(h, results, now);
      Find(o.history.allBugs, id) ==
        if Reported(results, id) then
          (if id in Ids(h.allBugs) then Some(Seen(LastWith(h.allBugs, id).value, now)) else Find(o.stillActive, id))
        else if id in Ids(h.activeBugs) && id in Ids(h.allBugs) then Some(Close(LastWith(h.allBugs, id).value, now))
        else LastWith(h.allBugs, id)
  {
    var current := CurrentBugs(results, now);
    var prev := Index(h.activeBugs);
    var active := StillActive(current, prev);
    var all0 := Index(h.allBugs);
    var all1 := CloseAll(all0, prev, current, now);
    IndexFind(h.allBugs, id);
    CloseAllFind(all0, prev, current, now, id);
    SeeAllFind(all1, active, now, id);
  }

  /**
   * Afterwards `all_bugs` holds each id once: every id it held before and every id of
   * this run. This run's bugs are active and seen now; bugs solved by this run are
   * closed now.
   */
  lemma AllBugsUpdated(h: History, results: seq<Report>, now: string)
    ensures var o := UpdateHistory(h, results, now);
      UniqueIds(o.history.allBugs)
    ensures var o := UpdateHistory(h, results, now);
      forall id :: id in Ids(o.history.allBugs) <==> id in Ids(h.allBugs) || Reported(results, id)
    ensures var o := UpdateHistory(h, results, now);
      forall id :: Reported(results, id) ==>
        Find(o.history.allBugs, id).value.status == Active && Find(o.history.allBugs, id).value.lastSeen == now
    ensures var o := UpdateHistory(h, results, now);
      forall id :: id in Ids(o.newlySolved) && id in Ids(h.allBugs) ==>
        Find(o.history.allBugs, id).value.status == Solved && Find(o.history.allBugs, id).value.solvedDate == Some(now)
  {
    var o := UpdateHistory(h, results, now);
    var current := CurrentBugs(results, now);
    var prev := Index(h.activeBugs);
    var all1 := CloseAll(Index(h.allBugs), prev, current, now);
    assert UniqueIds(all1);
    SeeAllUnique(all1, o.stillActive, now);
    ActiveExactly(h, results, now);
    SolvedExactly(h, results, now);
    forall id | Reported(results, id)
      ensures Find(o.history.allBugs, id).value.status == Active && Find(o.history.allBugs, id).value.lastSeen == now
    {
      AllBugsFind(h, results, now, id);
    }
    forall id | id in Ids(o.newlySolved) && id in Ids(h.allBugs)
      ensures Find(o.history.allBugs, id).value.status == Solved && Find(o.history.allBugs, id).value.solvedDate == Some(now)
    {
      AllBugsFind(h, results, now, id);
    }
  }

  /**
   * A solved bug that comes back is new again and starts a new first sighting, while its
   * record in `all_bugs` turns active but keeps both its old first sighting and its
   * solved date.
   */
  lemma ReturningBugKeepsSolvedDate(h: History, results: seq<Report>, now: string, id: string)
    requires Reported(results, id) && id !in Ids(h.activeBugs)
    requires id in Ids(h.allBugs) && LastWith(h.allBugs, id).value.status == Solved
    ensures var o := UpdateHistory(h, results, now);
      id in Ids(o.newBugs) && Find(o.stillActive, id).value.firstSeen == now
    ensures var o := UpdateHistory(h, results, now);
      var a := LastWith(h.allBugs, id).value;
      Find(o.history.allBugs, id).value.status == Active
      && Find(o.history.allBugs, id).value.firstSeen == a.firstSeen
      && Find(o.history.allBugs, id).value.solvedDate == a.solvedDate
  {
    var o := UpdateHistory(h, results, now);
    NewExactly(h, results, now);
    ActiveExactly(h, results, now);
    FirstSeenCarried(h, results, now);
    AllBugsFind(h, results, now, id);
  }

  /** A second run on the same results finds the ids of the first run active. */
  lemma RerunSetting(h: History, results: seq<Report>, t1: string, t2: string)
    ensures var o1 := UpdateHistory(h, results, t1);
      Index(o1.history.activeBugs) == o1.stillActive && Ids(o1.stillActive) == Ids(CurrentBugs(results, t2))
  {
    var o1 := UpdateHistory(h, results, t1);
    EntriesIdsTimeless(results, t1, t2);
    IndexIds(Entries(results, t1), Entries(results, t2));
    ActiveExactly(h, results, t1);
    IndexOfUnique(o1.stillActive);
  }

  /**
   * Running again on the same results changes nothing but the clock: no bug is new, none
   * is solved, and every active bug keeps its first sighting.
   */
  lemma RerunIsQuiet(h: History, results: seq<Report>, t1: string, t2: string)
    ensures var o1 := UpdateHistory(h, results, t1);
      var o2 := UpdateHistory(o1.history, results, t2);
      o2.newBugs == [] && o2.newlySolved == [] && Ids(o2.stillActive) == Ids(o1.stillActive)
  {
    var o1 := UpdateHistory(h, results, t1);
    var prev := o1.stillActive;
    var c2 := CurrentBugs(results, t2);
    RerunSetting(h, results, t1, t2);
    SameIdsQuiet(prev, c2, t2);
  }

  /** When the previously active ids are exactly the current ones, nothing is new or solved. */
  lemma SameIdsQuiet(prev: seq<Tracked>, current: seq<Tracked>, now: string)
    requires Ids(prev) == Ids(current)
    ensures NewBugs(current, prev) == [] && NewlySolved(prev, current, now) == []
  {
    assert forall i :: 0 <= i < |current| ==> current[i].id == Ids(prev)[i];
    NewBugsNone(current, prev);
    assert forall i :: 0 <= i < |prev| ==> prev[i].id == Ids(current)[i];
    NewlySolvedNone(prev, current, now);
  }

  /** Running again on the same results keeps every active bug's first sighting. */
  lemma RerunKeepsFirstSeen(h: History, results: seq<Report>, t1: string, t2: string)
    ensures var o1 := UpdateHistory(h, results, t1);
      var o2 := UpdateHistory(o1.history, results, t2);
      |o2.stillActive| == |o1.stillActive|
      && forall i :: 0 <= i < |o1.stillActive| ==> o2.stillActive[i].firstSeen == o1.stillActive[i].firstSeen
  {
    var o1 := UpdateHistory(h, results, t1);
    var prev := o1.stillActive;
    var c2 := CurrentBugs(results, t2);
    RerunSetting(h, results, t1, t2);
    ActiveExactly(h, results, t1);
    CarryAll(c2, prev);
  }
}
