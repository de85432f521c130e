/** Filtered, ordered, paged reads.  The Python code only builds a clause list and hands SQLite
    text parameters; the theorems say what the resulting SELECT returns in terms of instants. */
module Queries {
  import opened Wrappers
  import opened Timestamps
  import opened Contract
  import opened Tables
  import opened Counting

  // ---------------------------------------------------------------------------
  // The clause list
  // ---------------------------------------------------------------------------

  datatype Column = StrategyId | StrategyVersionColumn | RunId | ExperimentId | EvidenceType | EvidenceId

  datatype Clause =
    | Equals(column: Column, value: string)
    | AtLeast(text: string)
    | AtMost(text: string)

  /** A row as a query sees it: its primary key, the columns it can be filtered by, NULL as `None`,
      and the time it is ordered by. */
  datatype View = View(id: string, cell: Column -> Option<string>, at: DateTime)

  datatype Filter = Filter(column: Column, wanted: Option<string>)

  datatype Filters = Filters(columns: seq<Filter>, since: Option<Utc>, until: Option<Utc>)

  predicate AtMostText(a: string, b: string) { a == b || TextBefore(a, b) }

  /** How SQLite evaluates one clause on a row: text comparison, and NULL satisfies nothing. */
  predicate Satisfies(v: View, c: Clause)
    requires IsUtc(v.at)
  {
    match c
    case Equals(column, value) => v.cell(column) == Some(value)
    case AtLeast(text) => AtMostText(text, DtToStr(v.at))
    case AtMost(text) => AtMostText(DtToStr(v.at), text)
  }

  ghost predicate SatisfiesAll(v: View, clauses: seq<Clause>)
    requires IsUtc(v.at)
  {
    forall c :: c in clauses ==> Satisfies(v, c)
  }

  predicate Asks(wanted: Option<string>, actual: Option<string>) { wanted.Some? ==> actual == wanted }

  ghost predicate ColumnsMatch(v: View, columns: seq<Filter>) {
    forall i :: 0 <= i < |columns| ==> Asks(columns[i].wanted, v.cell(columns[i].column))
  }

  /** What the caller means: every supplied filter, with the bounds as instants. */
  ghost predicate Matches(v: View, f: Filters)
    requires IsUtc(v.at)
  {
    && ColumnsMatch(v, f.columns)
    && (f.since.Some? ==> Micros(f.since.value) <= Micros(v.at))
    && (f.until.Some? ==> Micros(v.at) <= Micros(f.until.value))
  }

  lemma BoundsAreInstants(at: Utc, bound: Utc)
    ensures AtMostText(DtToStr(bound), DtToStr(at)) <==> Micros(bound) <= Micros(at)
    ensures AtMostText(DtToStr(at), DtToStr(bound)) <==> Micros(at) <= Micros(bound)
  {
    TextOrderIsInstantOrder(at, bound);
    TextOrderIsInstantOrder(bound, at);
  }

  function EqualTo(f: Filter): Option<Clause> {
    if f.wanted.Some? then Some(Equals(f.column, f.wanted.value)) else None
  }

  function Since(bound: Option<Utc>): Option<Clause> {
    if bound.Some? then Some(AtLeast(DtToStr(bound.value))) else None
  }

  function Until(bound: Option<Utc>): Option<Clause> {
    if bound.Some? then Some(AtMost(DtToStr(bound.value))) else None
  }

  function Append(clauses: seq<Clause>, c: Option<Clause>): seq<Clause> {
    if c.Some? then clauses + [c.value] else clauses
  }

  lemma AppendNarrows(v: View, clauses: seq<Clause>, c: Option<Clause>)
    requires IsUtc(v.at)
    ensures SatisfiesAll(v, Append(clauses, c)) <==> SatisfiesAll(v, clauses) && (c.Some? ==> Satisfies(v, c.value))
  {
    if c.Some? {
      assert c.value in Append(clauses, c);
      assert forall x :: x in clauses ==> x in Append(clauses, c);
    }
  }

  function ColumnClauses(columns: seq<Filter>): seq<Clause> {
    if columns == [] then []
    else Append(ColumnClauses(columns[..|columns| - 1]), EqualTo(columns[|columns| - 1]))
  }

  /** The clauses appended for the supplied filters, in the order the code appends them. */
  function WhereClauses(f: Filters): seq<Clause> {
    Append(Append(ColumnClauses(f.columns), Since(f.since)), Until(f.until))
  }

  lemma {:induction false} ColumnsMeanFilters(v: View, columns: seq<Filter>)
    requires IsUtc(v.at)
    ensures SatisfiesAll(v, ColumnClauses(columns)) <==> ColumnsMatch(v, columns)
    decreases |columns|
  {
    if columns != [] {
      var n := |columns| - 1;
      ColumnsMeanFilters(v, columns[..n]);
      AppendNarrows(v, ColumnClauses(columns[..n]), EqualTo(columns[n]));
      assert forall i :: 0 <= i < n ==> columns[..n][i] == columns[i];
    }
  }

  /** The WHERE clause selects exactly the conjunction of the supplied filters, although its
      bounds are compared as text. */
  lemma WhereMeansFilters(v: View, f: Filters)
    requires IsUtc(v.at)
    ensures SatisfiesAll(v, WhereClauses(f)) <==> Matches(v, f)
  {
    ColumnsMeanFilters(v, f.columns);
    AppendNarrows(v, ColumnClauses(f.columns), Since(f.since));
    AppendNarrows(v, Append(ColumnClauses(f.columns), Since(f.since)), Until(f.until));
    if f.since.Some? { BoundsAreInstants(v.at, f.since.value); }
    if f.until.Some? { BoundsAreInstants(v.at, f.until.value); }
  }

  // ---------------------------------------------------------------------------
  // The four queries
  // ---------------------------------------------------------------------------

  datatype EvidenceFilters = EvidenceFilters(strategyId: Option<string>, strategyVersion: Option<string>,
                                             runId: Option<string>, experimentId: Option<string>,
                                             evidenceType: Option<string>, since: Option<Utc>, until: Option<Utc>)

  function EvidenceCell(e: Evidence, c: Column): Option<string> {
    match c
    case StrategyId => e.strategyId
    case StrategyVersionColumn => e.strategyVersion
    case RunId => e.runId
    case ExperimentId => e.experimentId
    case EvidenceType => Some(e.evidenceType)
    case EvidenceId => Some(e.evidenceId)
  }

  function ArtifactCell(a: ArtifactRecord, c: Column): Option<string> {
    if c.EvidenceId? then a.evidenceId else if c.RunId? then a.runId else None
  }

  function VersionCell(strategyId: string, strategyVersion: string, c: Column): Option<string> {
    if c.StrategyId? then Some(strategyId) else if c.StrategyVersionColumn? then Some(strategyVersion) else None
  }

  function ViewEvidence(e: Evidence): View { View(e.evidenceId, c => EvidenceCell(e, c), e.createdAt) }

  function ViewArtifact(a: ArtifactRecord): View { View(a.artifactId, c => ArtifactCell(a, c), a.registeredAt) }

  function ViewPromotion(p: Promotion): View {
    View(p.transitionId, c => VersionCell(p.strategyId, p.strategyVersion, c), p.atUtc)
  }

  function ViewHealth(r: Health): View {
    View(r.healthId, c => VersionCell(r.strategyId, r.strategyVersion, c), r.observedAt)
  }

  function ForEvidence(f: EvidenceFilters): Filters {
    Filters([Filter(StrategyId, f.strategyId), Filter(StrategyVersionColumn, f.strategyVersion), Filter(RunId, f.runId),
             Filter(ExperimentId, f.experimentId), Filter(EvidenceType, f.evidenceType)], f.since, f.until)
  }

  function ForArtifacts(evidenceId: Option<string>, runId: Option<string>): Filters {
    Filters([Filter(EvidenceId, evidenceId), Filter(RunId, runId)], None, None)
  }

  /** Promotions and health records alike. */
  function ForVersion(strategyId: Option<string>, strategyVersion: Option<string>): Filters {
    Filters([Filter(StrategyId, strategyId), Filter(StrategyVersionColumn, strategyVersion)], None, None)
  }

  lemma OneMoreColumn(columns: seq<Filter>, f: Filter) returns (more: seq<Filter>)
    ensures more == columns + [f] && ColumnClauses(more) == Append(ColumnClauses(columns), EqualTo(f))
  {
    more := columns + [f];
    assert more[..|columns|] == columns;
  }

  method BuildEvidenceColumns(f: EvidenceFilters) returns (clauses: seq<Clause>)
    ensures clauses == ColumnClauses(ForEvidence(f).columns)
  {
    clauses := [];
    ghost var done := [];
    if f.strategyId.Some? { clauses := clauses + [Equals(StrategyId, f.strategyId.value)]; }
    done := OneMoreColumn(done, Filter(StrategyId, f.strategyId));
    if f.strategyVersion.Some? { clauses := clauses + [Equals(StrategyVersionColumn, f.strategyVersion.value)]; }
    done := OneMoreColumn(done, Filter(StrategyVersionColumn, f.strategyVersion));
    if f.runId.Some? { clauses := clauses + [Equals(RunId, f.runId.value)]; }
    done := OneMoreColumn(done, Filter(RunId, f.runId));
    if f.experimentId.Some? { clauses := clauses + [Equals(ExperimentId, f.experimentId.value)]; }
    done := OneMoreColumn(done, Filter(ExperimentId, f.experimentId));
    if f.evidenceType.Some? { clauses := clauses + [Equals(EvidenceType, f.evidenceType.value)]; }
    done := OneMoreColumn(done, Filter(EvidenceType, f.evidenceType));
    assert done == ForEvidence(f).columns;
  }

  method BuildEvidenceWhere(f: EvidenceFilters) returns (clauses: seq<Clause>)
    ensures clauses == WhereClauses(ForEvidence(f))
  {
    clauses := BuildEvidenceColumns(f);
    if f.since.Some? { clauses := clauses + [AtLeast(DtToStr(f.since.value))]; }
    if f.until.Some? { clauses := clauses + [AtMost(DtToStr(f.until.value))]; }
  }

  method BuildArtifactWhere(evidenceId: Option<string>, runId: Option<string>) returns (clauses: seq<Clause>)
    ensures clauses == WhereClauses(ForArtifacts(evidenceId, runId))
  {
    clauses := [];
    ghost var done := [];
    if evidenceId.Some? { clauses := clauses + [Equals(EvidenceId, evidenceId.value)]; }
    done := OneMoreColumn(done, Filter(EvidenceId, evidenceId));
    if runId.Some? { clauses := clauses + [Equals(RunId, runId.value)]; }
    done := OneMoreColumn(done, Filter(RunId, runId));
    assert done == ForArtifacts(evidenceId, runId).columns;
  }

  method BuildVersionWhere(strategyId: Option<string>, strategyVersion: Option<string>) returns (clauses: seq<Clause>)
    ensures clauses == WhereClauses(ForVersion(strategyId, strategyVersion))
  {
    clauses := [];
    ghost var done := [];
    if strategyId.Some? { clauses := clauses + [Equals(StrategyId, strategyId.value)]; }
    done := OneMoreColumn(done, Filter(StrategyId, strategyId));
    if strategyVersion.Some? { clauses := clauses + [Equals(StrategyVersionColumn, strategyVersion.value)]; }
    done := OneMoreColumn(done, Filter(StrategyVersionColumn, strategyVersion));
    assert done == ForVersion(strategyId, strategyVersion).columns;
  }

  // ---------------------------------------------------------------------------
  // ORDER BY time DESC, id DESC
  // ---------------------------------------------------------------------------

  /** The sort key of a row: the time column's text and the id. */
  datatype SortKey = SortKey(at: string, id: string)

  /** `a` is listed before `b`. */
  predicate Precedes(a: SortKey, b: SortKey) {
    TextBefore(b.at, a.at) || (a.at == b.at && TextBefore(b.id, a.id))
  }

  ghost predicate Listed(s: seq<SortKey>) {
    forall i, j :: 0 <= i < j < |s| ==> Precedes(s[i], s[j])
  }

  lemma PrecedesTransitive(a: SortKey, b: SortKey, c: SortKey)
    requires Precedes(a, b) && Precedes(b, c)
    ensures Precedes(a, c)
  {
    if TextBefore(b.at, a.at) && TextBefore(c.at, b.at) { TextBeforeTransitive(c.at, b.at, a.at); }
    TextBeforeIrreflexive(a.at);
    if a.at == b.at == c.at { TextBeforeTransitive(c.id, b.id, a.id); }
  }

  lemma PrecedesTotal(a: SortKey, b: SortKey)
    ensures a == b || Precedes(a, b) || Precedes(b, a)
    ensures !Precedes(a, a)
  {
    TextBeforeTotal(a.at, b.at);
    TextBeforeTotal(a.id, b.id);
    TextBeforeIrreflexive(a.at);
    TextBeforeIrreflexive(a.id);
  }

  ghost predicate IsFirst(k: SortKey, s: set<SortKey>) {
    k in s && forall o :: o in s && o != k ==> Precedes(k, o)
  }

  lemma {:induction false} FirstExists(s: set<SortKey>) returns (k: SortKey)
    requires s != {}
    ensures IsFirst(k, s)
    decreases |s|
  {
    k :| k in s;
    if s != {k} {
      var m := FirstExists(s - {k});
      PrecedesTotal(k, m);
      if Precedes(m, k) {
        k := m;
      } else {
        forall o | o in s && o != k ensures Precedes(k, o) {
          if o != m { PrecedesTransitive(k, m, o); }
        }
      }
    }
  }

  ghost function First(s: set<SortKey>): (k: SortKey)
    requires s != {}
    ensures IsFirst(k, s)
  {
    assert exists k :: IsFirst(k, s) by { var k := FirstExists(s); }
    var k :| IsFirst(k, s);
    k
  }

  ghost function InOrder(s: set<SortKey>): seq<SortKey>
    decreases |s|
  {
    if s == {} then [] else [First(s)] + InOrder(s - {First(s)})
  }

  /** Sorting lists every selected row once, in strictly descending order. */
  lemma {:induction false} InOrderListsAll(s: set<SortKey>)
    ensures Listed(InOrder(s)) && |InOrder(s)| == |s|
    ensures forall k :: k in InOrder(s) <==> k in s
    decreases |s|
  {
    if s != {} {
      var k := First(s);
      InOrderListsAll(s - {k});
      assert InOrder(s) == [k] + InOrder(s - {k});
      assert forall i :: 0 < i < |InOrder(s)| ==> InOrder(s)[i] in InOrder(s - {k});
    }
  }

  /** There is only one such listing, so ORDER BY leaves SQLite no choice. */
  lemma {:induction false} ListingIsUnique(a: seq<SortKey>, b: seq<SortKey>)
    requires Listed(a) && Listed(b) && forall k :: k in a <==> k in b
    ensures a == b
    decreases |a|
  {
    assert b != [] ==> b[0] in b;
    if a != [] {
      HeadsAgree(a, b);
      TailsAgree(a, b);
      TailsAgree(b, a);
      ListingIsUnique(a[1..], b[1..]);
      assert a == [a[0]] + a[1..] && b == [b[0]] + b[1..];
    }
  }

  lemma HeadsAgree(a: seq<SortKey>, b: seq<SortKey>)
    requires Listed(a) && Listed(b) && a != [] && forall k :: k in a <==> k in b
    ensures b != [] && a[0] == b[0]
  {
    assert a[0] in b;
    assert b[0] in a;
    var i :| 0 <= i < |b| && b[i] == a[0];
    var j :| 0 <= j < |a| && a[j] == b[0];
    if i > 0 && j > 0 {
      PrecedesTransitive(a[0], a[j], a[0]);
      PrecedesTotal(a[0], a[0]);
    }
  }

  lemma TailsAgree(a: seq<SortKey>, b: seq<SortKey>)
    requires Listed(a) && a != [] && b != [] && a[0] == b[0] && forall k :: k in a <==> k in b
    ensures forall k :: k in a[1..] ==> k in b[1..]
  {
    forall k | k in a[1..] ensures k in b[1..] {
      var i :| 0 <= i < |a[1..]| && a[1..][i] == k;
      assert Precedes(a[0], a[i + 1]);
      PrecedesTotal(k, k);
      assert k in a;
      var j :| 0 <= j < |b| && b[j] == k;
      assert b[1..][j - 1] == k;
    }
  }

  // ---------------------------------------------------------------------------
  // LIMIT and OFFSET
  // ---------------------------------------------------------------------------

  function Min(a: int, b: int): int { if a < b then a else b }

  /** SQLite's LIMIT and OFFSET: a negative limit is no limit, a negative offset is zero. */
  function Page<T>(rows: seq<T>, limit: int, offset: int): seq<T> {
    var from := if offset < 0 then 0 else Min(offset, |rows|);
    var to := if limit < 0 then |rows| else Min(from + limit, |rows|);
    rows[from..to]
  }

  /** Any page, at any offset: the rows from the offset on, as many as the limit lets through. */
  lemma PageIsASlice<T>(rows: seq<T>, limit: int, offset: int)
    ensures var page := Page(rows, limit, offset);
      var skipped := if offset < 0 then 0 else offset;
      && (page == [] || skipped + |page| <= |rows|) && (forall k :: 0 <= k < |page| ==> page[k] == rows[skipped + k])
      && (limit >= 0 ==> |page| <= limit)
      && (|page| < |rows| - skipped ==> |page| == limit)
  {
  }

  /** The first `n` pages of `limit` rows, one after the other. */
  function Pages<T>(rows: seq<T>, limit: nat, n: nat): seq<T> {
    if n == 0 then [] else Pages(rows, limit, n - 1) + Page(rows, limit, (n - 1) * limit)
  }

  lemma {:induction false} PagesArePrefix<T>(rows: seq<T>, limit: nat, n: nat)
    ensures 0 <= Min(n * limit, |rows|) <= |rows|
    ensures Pages(rows, limit, n) == rows[..Min(n * limit, |rows|)]
  {
    if n > 0 {
      PagesArePrefix(rows, limit, n - 1);
      assert n * limit == (n - 1) * limit + limit;
      assert 0 <= (n - 1) * limit;
    }
  }

  /** Consecutive pages tile the listing: no gap, no duplicate, nothing left over. */
  lemma PagesTile<T>(rows: seq<T>, limit: nat, n: nat)
    requires n * limit >= |rows|
    ensures Pages(rows, limit, n) == rows
  {
    PagesArePrefix(rows, limit, n);
    assert rows[..|rows|] == rows;
  }

  // ---------------------------------------------------------------------------
  // The whole query
  // ---------------------------------------------------------------------------

  /** Every row is under its own id, and its time is in UTC. */
  ghost predicate Stamped<R>(t: Table<R>, view: R -> View) {
    forall id :: id in t ==> view(t[id].record).id == id && IsUtc(view(t[id].record).at)
  }

  function KeyOf(v: View): SortKey
    requires IsUtc(v.at)
  {
    SortKey(DtToStr(v.at), v.id)
  }

  ghost function Selected<R>(t: Table<R>, view: R -> View, clauses: seq<Clause>): set<SortKey>
    requires Stamped(t, view)
  {
    set id | id in t && SatisfiesAll(view(t[id].record), clauses) :: KeyOf(view(t[id].record))
  }

  /** `SELECT ... WHERE ... ORDER BY <time> DESC, <id> DESC LIMIT ? OFFSET ?` */
  ghost function QueryPage<R>(t: Table<R>, view: R -> View, f: Filters, limit: int, offset: int): seq<SortKey>
    requires Stamped(t, view)
  {
    Page(InOrder(Selected(t, view, WhereClauses(f))), limit, offset)
  }

  ghost function QueryPages<R>(t: Table<R>, view: R -> View, f: Filters, limit: nat, n: nat): seq<SortKey>
    requires Stamped(t, view)
  {
    if n == 0 then [] else QueryPages(t, view, f, limit, n - 1) + QueryPage(t, view, f, limit, (n - 1) * limit)
  }

  lemma {:induction false} QueryPagesArePages<R>(t: Table<R>, view: R -> View, f: Filters, limit: nat, n: nat)
    requires Stamped(t, view)
    ensures QueryPages(t, view, f, limit, n) == Pages(InOrder(Selected(t, view, WhereClauses(f))), limit, n)
  {
    if n > 0 { QueryPagesArePages(t, view, f, limit, n - 1); }
  }

  ghost predicate IsSelected<R>(t: Table<R>, view: R -> View, f: Filters, k: SortKey)
    requires Stamped(t, view)
  {
    k.id in t && Matches(view(t[k.id].record), f) && k == KeyOf(view(t[k.id].record))
  }

  lemma SelectedMeansMatching<R>(t: Table<R>, view: R -> View, f: Filters, k: SortKey)
    requires Stamped(t, view)
    ensures k in Selected(t, view, WhereClauses(f)) <==> IsSelected(t, view, f, k)
  {
    if k.id in t { WhereMeansFilters(view(t[k.id].record), f); }
  }

  /** Newest first, and by descending id among equal instants. */
  predicate Newer(v: View, v': View)
    requires IsUtc(v.at) && IsUtc(v'.at)
  {
    Micros(v.at) > Micros(v'.at) || (v.at == v'.at && TextBefore(v'.id, v.id))
  }

  lemma PrecedesMeansNewer(v: View, v': View)
    requires IsUtc(v.at) && IsUtc(v'.at) && Precedes(KeyOf(v), KeyOf(v'))
    ensures Newer(v, v')
  {
    TextOrderIsInstantOrder(v'.at, v.at);
    RoundTrip(v.at);
    RoundTrip(v'.at);
  }

  ghost predicate Lists(rows: seq<SortKey>, id: string) { exists i :: 0 <= i < |rows| && rows[i].id == id }

  /** The rows are rows of the table, newest first, so none is listed twice. */
  ghost predicate NewestFirst<R>(t: Table<R>, view: R -> View, rows: seq<SortKey>)
    requires Stamped(t, view)
  {
    && (forall i :: 0 <= i < |rows| ==> rows[i].id in t)
    && (forall i, j :: 0 <= i < j < |rows| ==> Newer(view(t[rows[i].id].record), view(t[rows[j].id].record)))
  }

  lemma OrderedAreNewestFirst<R>(t: Table<R>, view: R -> View, f: Filters, rows: seq<SortKey>)
    requires Stamped(t, view) && Listed(rows) && forall k :: k in rows ==> IsSelected(t, view, f, k)
    ensures NewestFirst(t, view, rows)
  {
    forall i | 0 <= i < |rows| ensures rows[i].id in t { assert IsSelected(t, view, f, rows[i]); }
    forall i, j | 0 <= i < j < |rows| ensures Newer(view(t[rows[i].id].record), view(t[rows[j].id].record)) {
      assert IsSelected(t, view, f, rows[i]) && IsSelected(t, view, f, rows[j]) && Precedes(rows[i], rows[j]);
      PrecedesMeansNewer(view(t[rows[i].id].record), view(t[rows[j].id].record));
    }
  }

  function IdsOf(s: set<SortKey>): set<string> { set k | k in s :: k.id }

  lemma {:induction false} EachIdOnce(s: set<SortKey>)
    requires forall k, l :: k in s && l in s && k.id == l.id ==> k == l
    ensures |IdsOf(s)| == |s|
    decreases |s|
  {
    if s != {} {
      var k :| k in s;
      EachIdOnce(s - {k});
      assert IdsOf(s) == IdsOf(s - {k}) + {k.id};
    }
  }

  lemma SelectionIsNoLarger<R>(t: Table<R>, view: R -> View, clauses: seq<Clause>)
    requires Stamped(t, view)
    ensures |Selected(t, view, clauses)| <= |t|
  {
    EachIdOnce(Selected(t, view, clauses));
    SubsetIsNoLarger(IdsOf(Selected(t, view, clauses)), t.Keys);
  }

  /** The rows that match the filters, each once, newest first and by descending id among equal
      instants. */
  ghost predicate AnswersQuery<R>(t: Table<R>, view: R -> View, f: Filters, rows: seq<SortKey>)
    requires Stamped(t, view)
  {
    NewestFirst(t, view, rows) && forall id :: Lists(rows, id) <==> id in t && Matches(view(t[id].record), f)
  }

  lemma SelectedAnswer<R>(t: Table<R>, view: R -> View, f: Filters, rows: seq<SortKey>)
    requires Stamped(t, view) && Listed(rows) && forall k :: k in rows <==> IsSelected(t, view, f, k)
    ensures AnswersQuery(t, view, f, rows)
  {
    OrderedAreNewestFirst(t, view, f, rows);
    forall id ensures Lists(rows, id) <==> id in t && Matches(view(t[id].record), f) {
      if Lists(rows, id) {
        var i :| 0 <= i < |rows| && rows[i].id == id;
        assert IsSelected(t, view, f, rows[i]);
      }
      if id in t && Matches(view(t[id].record), f) {
        assert IsSelected(t, view, f, KeyOf(view(t[id].record)));
        assert KeyOf(view(t[id].record)) in rows;
      }
    }
  }

  lemma ListingAnswers<R>(t: Table<R>, view: R -> View, f: Filters)
    requires Stamped(t, view)
    ensures AnswersQuery(t, view, f, InOrder(Selected(t, view, WhereClauses(f))))
    ensures |InOrder(Selected(t, view, WhereClauses(f)))| <= |t|
  {
    var sel := Selected(t, view, WhereClauses(f));
    InOrderListsAll(sel);
    SelectionIsNoLarger(t, view, WhereClauses(f));
    forall k ensures k in InOrder(sel) <==> IsSelected(t, view, f, k) { SelectedMeansMatching(t, view, f, k); }
    SelectedAnswer(t, view, f, InOrder(sel));
  }

  /** Paging through a fixed table with any positive page size yields exactly the rows that match
      the filters, each once, newest first and by descending id among equal instants. */
  lemma PagingIsComplete<R>(t: Table<R>, view: R -> View, f: Filters, limit: nat, n: nat)
    requires Stamped(t, view) && n * limit >= |t|
    ensures AnswersQuery(t, view, f, QueryPages(t, view, f, limit, n))
  {
    ListingAnswers(t, view, f);
    QueryPagesArePages(t, view, f, limit, n);
    PagesTile(InOrder(Selected(t, view, WhereClauses(f))), limit, n);
  }

  // ---------------------------------------------------------------------------
  // In the terms of each record
  // ---------------------------------------------------------------------------

  predicate WantsEvidence(f: EvidenceFilters, e: Evidence)
    requires IsUtc(e.createdAt)
  {
    && Asks(f.strategyId, e.strategyId) && Asks(f.strategyVersion, e.strategyVersion)
    && Asks(f.runId, e.runId) && Asks(f.experimentId, e.experimentId)
    && Asks(f.evidenceType, Some(e.evidenceType))
    && (f.since.Some? ==> Micros(f.since.value) <= Micros(e.createdAt))
    && (f.until.Some? ==> Micros(e.createdAt) <= Micros(f.until.value))
  }

  lemma EvidenceMatches(f: EvidenceFilters, e: Evidence)
    requires IsUtc(e.createdAt)
    ensures Matches(ViewEvidence(e), ForEvidence(f)) <==> WantsEvidence(f, e)
  {
    var v, columns := ViewEvidence(e), ForEvidence(f).columns;
    assert columns[0].column.StrategyId? && columns[1].column.StrategyVersionColumn? && columns[2].column.RunId?;
    assert columns[3].column.ExperimentId? && columns[4].column.EvidenceType?;
    assert ColumnsMatch(v, columns) <==> forall i :: 0 <= i < 5 ==> Asks(columns[i].wanted, v.cell(columns[i].column));
  }

  predicate WantsArtifact(evidenceId: Option<string>, runId: Option<string>, a: ArtifactRecord) {
    Asks(evidenceId, a.evidenceId) && Asks(runId, a.runId)
  }

  lemma ArtifactMatches(evidenceId: Option<string>, runId: Option<string>, a: ArtifactRecord)
    requires IsUtc(a.registeredAt)
    ensures Matches(ViewArtifact(a), ForArtifacts(evidenceId, runId)) <==> WantsArtifact(evidenceId, runId, a)
  {
    var columns := ForArtifacts(evidenceId, runId).columns;
    assert columns[0].column.EvidenceId? && columns[1].column.RunId?;
  }

  predicate WantsVersion(strategyId: Option<string>, strategyVersion: Option<string>, s: string, v: string) {
    Asks(strategyId, Some(s)) && Asks(strategyVersion, Some(v))
  }

  lemma VersionMatches(strategyId: Option<string>, strategyVersion: Option<string>, v: View, s: string, n: string)
    requires IsUtc(v.at) && v.cell(StrategyId) == Some(s) && v.cell(StrategyVersionColumn) == Some(n)
    ensures Matches(v, ForVersion(strategyId, strategyVersion)) <==> WantsVersion(strategyId, strategyVersion, s, n)
  {
    var columns := ForVersion(strategyId, strategyVersion).columns;
    assert columns[0].column.StrategyId? && columns[1].column.StrategyVersionColumn?;
  }

  lemma EvidencePaging(t: Table<Evidence>, f: EvidenceFilters, limit: nat, n: nat)
    requires Stamped(t, ViewEvidence) && n * limit >= |t|
    ensures var all := QueryPages(t, ViewEvidence, ForEvidence(f), limit, n);
      && NewestFirst(t, ViewEvidence, all)
      && forall id :: Lists(all, id) <==> id in t && WantsEvidence(f, t[id].record)
  {
    PagingIsComplete(t, ViewEvidence, ForEvidence(f), limit, n);
    forall id | id in t
      ensures Matches(ViewEvidence(t[id].record), ForEvidence(f)) <==> WantsEvidence(f, t[id].record)
    {
      EvidenceMatches(f, t[id].record);
    }
  }

  lemma ArtifactPaging(t: Table<ArtifactRecord>, evidenceId: Option<string>, runId: Option<string>, limit: nat, n: nat)
    requires Stamped(t, ViewArtifact) && n * limit >= |t|
    ensures var all := QueryPages(t, ViewArtifact, ForArtifacts(evidenceId, runId), limit, n);
      && NewestFirst(t, ViewArtifact, all)
      && forall id :: Lists(all, id) <==> id in t && WantsArtifact(evidenceId, runId, t[id].record)
  {
    PagingIsComplete(t, ViewArtifact, ForArtifacts(evidenceId, runId), limit, n);
    forall id | id in t
      ensures Matches(ViewArtifact(t[id].record), ForArtifacts(evidenceId, runId))
        <==> WantsArtifact(evidenceId, runId, t[id].record)
    {
      ArtifactMatches(evidenceId, runId, t[id].record);
    }
  }

  lemma PromotionPaging(t: Table<Promotion>, strategyId: Option<string>, strategyVersion: Option<string>, limit: nat,
                        n: nat)
    requires Stamped(t, ViewPromotion) && n * limit >= |t|
    ensures var all := QueryPages(t, ViewPromotion, ForVersion(strategyId, strategyVersion), limit, n);
      && NewestFirst(t, ViewPromotion, all)
      && forall id :: Lists(all, id) <==>
           id in t && WantsVersion(strategyId, strategyVersion, t[id].record.strategyId, t[id].record.strategyVersion)
  {
    PagingIsComplete(t, ViewPromotion, ForVersion(strategyId, strategyVersion), limit, n);
    forall id | id in t
      ensures Matches(ViewPromotion(t[id].record), ForVersion(strategyId, strategyVersion))
        <==> WantsVersion(strategyId, strategyVersion, t[id].record.strategyId, t[id].record.strategyVersion)
    {
      VersionMatches(strategyId, strategyVersion, ViewPromotion(t[id].record),
                     t[id].record.strategyId, t[id].record.strategyVersion);
    }
  }

  lemma HealthPaging(t: Table<Health>, strategyId: Option<string>, strategyVersion: Option<string>, limit: nat, n: nat)
    requires Stamped(t, ViewHealth) && n * limit >= |t|
    ensures var all := QueryPages(t, ViewHealth, ForVersion(strategyId, strategyVersion), limit, n);
      && NewestFirst(t, ViewHealth, all)
      && forall id :: Lists(all, id) <==>
           id in t && WantsVersion(strategyId, strategyVersion, t[id].record.strategyId, t[id].record.strategyVersion)
  {
    PagingIsComplete(t, ViewHealth, ForVersion(strategyId, strategyVersion), limit, n);
    forall id | id in t
      ensures Matches(ViewHealth(t[id].record), ForVersion(strategyId, strategyVersion))
        <==> WantsVersion(strategyId, strategyVersion, t[id].record.strategyId, t[id].record.strategyVersion)
    {
      VersionMatches(strategyId, strategyVersion, ViewHealth(t[id].record),
                     t[id].record.strategyId, t[id].record.strategyVersion);
    }
  }
}
