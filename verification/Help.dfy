/**
 Help metrics (`help/routes.py`): counters upserted per day, role and tour, and the two
 aggregations of the insights endpoint.

 The answers of the two GROUP BY queries are parameters, in any order; `ByKind` and
 `ByDimension` say what such an answer is.
 */
module Help {
  import opened Wrappers

  datatype Kind =
    | ArticleOpened | SearchPerformed | SearchNoResults
    | TourStarted | TourCompleted | TourSkipped | TourFailed
    | FeedbackYes | FeedbackNo

  const EVENT_KEYS: set<Kind> := {
    ArticleOpened, SearchPerformed, SearchNoResults, TourStarted, TourCompleted, TourSkipped, TourFailed,
    FeedbackYes, FeedbackNo
  }

  datatype Role = Owner | Admin | Operator | Viewer

  datatype Dimension = Dimension(article: string, route: string)

  /** The primary key of a counter; one recorded event is the key it increments. */
  datatype Key = Key(tenant: nat, day: int, role: Role, kind: Kind, dimension: Dimension, tour: string)

  datatype Row = Row(key: Key, count: nat)

  /** What a query looks for: one tenant's rows since a day, of one kind, and perhaps of one dimension. */
  datatype Query = Query(tenant: nat, from: int, kind: Kind, dimension: Option<Dimension>)

  predicate Matches(q: Query, key: Key) {
    key.tenant == q.tenant && key.day >= q.from && key.kind == q.kind &&
    (q.dimension.Some? ==> key.dimension == q.dimension.value)
  }

  /** `SUM(count)` over the matching rows. */
  function Sum(rows: seq<Row>, q: Query): nat {
    if rows == [] then 0
    else (if Matches(q, rows[0].key) then rows[0].count else 0) + Sum(rows[1..], q)
  }

  /** How many recorded events match. */
  function Occurrences(events: seq<Key>, q: Query): nat {
    if events == [] then 0
    else Occurrences(events[..|events| - 1], q) + if Matches(q, events[|events| - 1]) then 1 else 0
  }

  /** The recorded events of one tenant, kind and perhaps dimension, from a day on. */
  ghost function Positions(events: seq<Key>, q: Query): set<int> {
    set i | 0 <= i < |events| && events[i].tenant == q.tenant && q.from <= events[i].day && events[i].kind == q.kind &&
            (q.dimension.None? || q.dimension == Some(events[i].dimension))
  }

  /** Occurrences are those events, each counted once. */
  lemma {:induction false} OccurrencesCountPositions(events: seq<Key>, q: Query)
    ensures Occurrences(events, q) == |Positions(events, q)|
  {
    if events != [] {
      var n := |events| - 1;
      OccurrencesCountPositions(events[..n], q);
      assert Positions(events, q) == Positions(events[..n], q) + if Matches(q, events[n]) then {n} else {};
    }
  }

  // ---------------------------------------------------------------------------
  // Recording
  // ---------------------------------------------------------------------------

  predicate UniqueKeys(rows: seq<Row>) {
    forall i, j :: 0 <= i < j < |rows| ==> rows[i].key != rows[j].key
  }

  /** Adding 1 to the counter in conflict, or inserting a counter of 1. */
  function Upsert(rows: seq<Row>, key: Key): seq<Row> {
    if rows == [] then [Row(key, 1)]
    else if rows[0].key == key then [Row(key, rows[0].count + 1)] + rows[1..]
    else [rows[0]] + Upsert(rows[1..], key)
  }

  /** The table after a run of recorded events. */
  function Recorded(events: seq<Key>): seq<Row> {
    if events == [] then [] else Upsert(Recorded(events[..|events| - 1]), events[|events| - 1])
  }

  lemma {:induction false} UpsertAddsOne(rows: seq<Row>, key: Key, q: Query)
    ensures Sum(Upsert(rows, key), q) == Sum(rows, q) + if Matches(q, key) then 1 else 0
  {
    if rows == [] {
      assert Upsert(rows, key)[1..] == [];
    } else if rows[0].key == key {
      assert Upsert(rows, key)[1..] == rows[1..];
    } else {
      UpsertAddsOne(rows[1..], key, q);
      assert Upsert(rows, key)[1..] == Upsert(rows[1..], key);
    }
  }

  /** Whatever was recorded, the counters add up to the events. */
  lemma {:induction false} SumIsOccurrences(events: seq<Key>, q: Query)
    ensures Sum(Recorded(events), q) == Occurrences(events, q)
  {
    if events != [] {
      SumIsOccurrences(events[..|events| - 1], q);
      UpsertAddsOne(Recorded(events[..|events| - 1]), events[|events| - 1], q);
    }
  }

  predicate HasKey(rows: seq<Row>, key: Key) {
    exists i :: 0 <= i < |rows| && rows[i].key == key
  }

  lemma HasKeyPrepended(row: Row, rows: seq<Row>, key: Key)
    ensures HasKey([row] + rows, key) <==> row.key == key || HasKey(rows, key)
  {
    if HasKey(rows, key) {
      var i :| 0 <= i < |rows| && rows[i].key == key;
      assert ([row] + rows)[i + 1].key == key;
    }
    assert ([row] + rows)[0] == row;
  }

  /** An upsert keeps the key unique and adds no other row. */
  lemma {:induction false} UpsertKeepsKeys(rows: seq<Row>, key: Key)
    requires UniqueKeys(rows)
    ensures UniqueKeys(Upsert(rows, key))
    ensures forall k :: HasKey(Upsert(rows, key), k) <==> k == key || HasKey(rows, k)
  {
    var rows' := Upsert(rows, key);
    if rows == [] {
      assert rows'[0].key == key;
    } else {
      var first := rows'[0];
      assert rows' == [first] + rows'[1..] && rows == [rows[0]] + rows[1..] && first.key == rows[0].key;
      if rows[0].key != key {
        UpsertKeepsKeys(rows[1..], key);
        assert rows'[1..] == Upsert(rows[1..], key);
        forall i | 1 <= i < |rows'| ensures rows'[i].key != first.key {
          assert HasKey(rows'[1..], rows'[1..][i - 1].key);
          NotAmongTheRest(rows);
        }
      }
      forall k ensures HasKey(rows', k) <==> k == key || HasKey(rows, k) {
        HasKeyPrepended(first, rows'[1..], k);
        HasKeyPrepended(rows[0], rows[1..], k);
      }
    }
  }

  lemma NotAmongTheRest(rows: seq<Row>)
    requires UniqueKeys(rows) && rows != []
    ensures !HasKey(rows[1..], rows[0].key)
  {
  }

  /** The table keeps its primary key over every run. */
  lemma {:induction false} RecordedKeysAreUnique(events: seq<Key>)
    ensures UniqueKeys(Recorded(events))
    ensures forall k :: HasKey(Recorded(events), k) <==> k in events
  {
    if events != [] {
      var before, key := events[..|events| - 1], events[|events| - 1];
      RecordedKeysAreUnique(before);
      UpsertKeepsKeys(Recorded(before), key);
      assert events == before + [key];
    }
  }

  // ---------------------------------------------------------------------------
  // The two GROUP BY queries
  // ---------------------------------------------------------------------------

  datatype KindTotal = KindTotal(kind: Kind, total: nat)

  datatype Group = Group(dimension: Dimension, of: KindTotal)

  /** An answer to the query grouped by event type. */
  ghost predicate ByKind(rows: seq<Row>, tenant: nat, from: int, answer: seq<KindTotal>) {
    (forall i, j :: 0 <= i < j < |answer| ==> answer[i].kind != answer[j].kind) &&
    (forall i :: 0 <= i < |answer| ==> answer[i].total == Sum(rows, Query(tenant, from, answer[i].kind, None))) &&
    (forall kind :: kind in Kinds(answer) <==> !NoRow(rows, Query(tenant, from, kind, None)))
  }

  /** An answer to the query grouped by article, route and event type. */
  ghost predicate ByDimension(rows: seq<Row>, tenant: nat, from: int, answer: seq<Group>) {
    (forall i, j :: 0 <= i < j < |answer| ==>
      answer[i].dimension != answer[j].dimension || answer[i].of.kind != answer[j].of.kind) &&
    (forall i :: 0 <= i < |answer| ==>
      answer[i].of.total == Sum(rows, Query(tenant, from, answer[i].of.kind, Some(answer[i].dimension)))) &&
    (forall d, kind :: HasGroup(answer, d, kind) <==> !NoRow(rows, Query(tenant, from, kind, Some(d))))
  }

  function Kinds(answer: seq<KindTotal>): set<Kind> {
    set r | r in answer :: r.kind
  }

  predicate HasGroup(answer: seq<Group>, d: Dimension, kind: Kind) {
    exists i :: 0 <= i < |answer| && answer[i].dimension == d && answer[i].of.kind == kind
  }

  predicate NoRow(rows: seq<Row>, q: Query) {
    forall i :: 0 <= i < |rows| ==> !Matches(q, rows[i].key)
  }

  lemma {:induction false} NoRowNoSum(rows: seq<Row>, q: Query)
    requires NoRow(rows, q)
    ensures Sum(rows, q) == 0
  {
    if rows != [] {
      assert !Matches(q, rows[0].key);
      NoRowNoSum(rows[1..], q);
    }
  }

  // ---------------------------------------------------------------------------
  // Filling in the counts
  // ---------------------------------------------------------------------------

  /** The total of the last row of a kind, or 0. */
  function LastTotal(answer: seq<KindTotal>, kind: Kind): nat {
    if answer == [] then 0
    else if answer[|answer| - 1].kind == kind then answer[|answer| - 1].total
    else LastTotal(answer[..|answer| - 1], kind)
  }

  /** `_counts`: every event type, with the total assigned to it last. */
  method Counts(answer: seq<KindTotal>) returns (counts: map<Kind, nat>)
    ensures counts.Keys == EVENT_KEYS
    ensures forall kind :: kind in EVENT_KEYS ==> counts[kind] == LastTotal(answer, kind)
  {
    counts := map k | k in EVENT_KEYS :: 0;
    var i := 0;
    while i < |answer|
      invariant 0 <= i <= |answer|
      invariant counts.Keys == EVENT_KEYS
      invariant forall kind :: kind in EVENT_KEYS ==> counts[kind] == LastTotal(answer[..i], kind)
    {
      assert answer[..i + 1][..i] == answer[..i];
      EveryKindHasAKey(answer[i].kind);
      counts := counts[answer[i].kind := answer[i].total];
      i := i + 1;
    }
    assert answer[..i] == answer;
  }

  lemma EveryKindHasAKey(kind: Kind)
    ensures kind in EVENT_KEYS
  {
  }

  /** The totals of one dimension, in the order of the answer. */
  function OfDimension(answer: seq<Group>, d: Dimension): seq<KindTotal> {
    if answer == [] then []
    else
      var last := answer[|answer| - 1];
      OfDimension(answer[..|answer| - 1], d) + if last.dimension == d then [last.of] else []
  }

  /** The dictionary of a prefix of the answer, and the insertion order of its keys. */
  ghost predicate Regrouped(answer: seq<Group>, dims: seq<Dimension>, byDimension: map<Dimension, seq<KindTotal>>) {
    Distinct(dims) &&
    (forall d :: d in dims <==> d in byDimension) &&
    (forall d :: d in byDimension ==> byDimension[d] == OfDimension(answer, d)) &&
    (forall d :: d in byDimension <==> OfDimension(answer, d) != [])
  }

  /** `setdefault(key, []).append(row)`, keeping the order in which keys appear. */
  function AddGroup(dims: seq<Dimension>, byDimension: map<Dimension, seq<KindTotal>>, group: Group)
    : (seq<Dimension>, map<Dimension, seq<KindTotal>>)
  {
    var key := group.dimension;
    var lists := if key in byDimension then byDimension else byDimension[key := []];
    (if key in byDimension then dims else dims + [key], lists[key := lists[key] + [group.of]])
  }

  lemma OfDimensionOn(answer: seq<Group>, group: Group, d: Dimension)
    ensures OfDimension(answer + [group], d) == OfDimension(answer, d) + if group.dimension == d then [group.of] else []
  {
    assert (answer + [group])[..|answer|] == answer;
  }

  /** One more row of the answer. */
  lemma RegroupedOn(
      answer: seq<Group>, group: Group, dims: seq<Dimension>, byDimension: map<Dimension, seq<KindTotal>>)
    requires Regrouped(answer, dims, byDimension)
    ensures var (dims', byDimension') := AddGroup(dims, byDimension, group);
            Regrouped(answer + [group], dims', byDimension')
  {
    var key, all := group.dimension, answer + [group];
    var (dims', byDimension') := AddGroup(dims, byDimension, group);
    assert forall d :: d in dims' <==> d in dims || d == key;
    forall d
      ensures d in byDimension' <==> OfDimension(all, d) != []
      ensures d in byDimension' ==> byDimension'[d] == OfDimension(all, d)
    {
      OfDimensionOn(answer, group, d);
      assert d !in byDimension ==> OfDimension(answer, d) == [];
    }
  }

  /** The keys in insertion order and the dictionary, group by group. */
  function Regroup(answer: seq<Group>): (seq<Dimension>, map<Dimension, seq<KindTotal>>) {
    if answer == [] then ([], map[])
    else
      var (dims, byDimension) := Regroup(answer[..|answer| - 1]);
      AddGroup(dims, byDimension, answer[|answer| - 1])
  }

  lemma {:induction false} RegroupIsRegrouped(answer: seq<Group>)
    ensures Regrouped(answer, Regroup(answer).0, Regroup(answer).1)
  {
    if answer != [] {
      var earlier, last := answer[..|answer| - 1], answer[|answer| - 1];
      RegroupIsRegrouped(earlier);
      RegroupedOn(earlier, last, Regroup(earlier).0, Regroup(earlier).1);
      assert answer == earlier + [last];
    }
  }

  /** The loop that fills `by_dimension`; `dims` is the insertion order of its keys. */
  method RegroupByDimension(answer: seq<Group>) returns (dims: seq<Dimension>, byDimension: map<Dimension, seq<KindTotal>>)
    ensures Regrouped(answer, dims, byDimension)
  {
    dims, byDimension := [], map[];
    var i := 0;
    while i < |answer|
      invariant 0 <= i <= |answer|
      invariant (dims, byDimension) == Regroup(answer[..i])
    {
      var key := answer[i].dimension;
      assert answer[..i + 1][..i] == answer[..i];
      if key !in byDimension {
        dims, byDimension := dims + [key], byDimension[key := []];
      }
      byDimension := byDimension[key := byDimension[key] + [answer[i].of]];
      i := i + 1;
    }
    assert answer[..i] == answer;
    RegroupIsRegrouped(answer);
  }

  lemma {:induction false} EveryGroupIsListed(answer: seq<Group>, i: nat)
    requires i < |answer|
    ensures OfDimension(answer, answer[i].dimension) != []
  {
    if i < |answer| - 1 {
      EveryGroupIsListed(answer[..|answer| - 1], i);
    }
  }

  predicate Distinct(dims: seq<Dimension>) {
    forall i, j :: 0 <= i < j < |dims| ==> dims[i] != dims[j]
  }

  // ---------------------------------------------------------------------------
  // The two aggregations agree
  // ---------------------------------------------------------------------------

  /** Assigning each total, instead of adding it, is right because an answer has one row per group. */
  lemma {:induction false} LastTotalOfKind(answer: seq<KindTotal>, kind: Kind)
    requires forall i, j :: 0 <= i < j < |answer| ==> answer[i].kind != answer[j].kind
    ensures forall i :: 0 <= i < |answer| && answer[i].kind == kind ==> LastTotal(answer, kind) == answer[i].total
    ensures kind !in Kinds(answer) ==> LastTotal(answer, kind) == 0
  {
    if answer != [] {
      LastTotalOfKind(answer[..|answer| - 1], kind);
    }
  }

  /** The same, through the lists of `by_dimension`. */
  lemma {:induction false} GroupIsCounted(answer: seq<Group>, i: nat)
    requires i < |answer|
    requires forall j, k :: 0 <= j < k < |answer| ==>
               answer[j].dimension != answer[k].dimension || answer[j].of.kind != answer[k].of.kind
    ensures LastTotal(OfDimension(answer, answer[i].dimension), answer[i].of.kind) == answer[i].of.total
  {
    var last := |answer| - 1;
    if i < last {
      GroupIsCounted(answer[..last], i);
    }
    LastGroup(answer, answer[i].dimension, answer[i].of.kind);
  }

  lemma {:induction false} NoGroupNoCount(answer: seq<Group>, d: Dimension, kind: Kind)
    requires forall i :: 0 <= i < |answer| ==> answer[i].dimension != d || answer[i].of.kind != kind
    ensures LastTotal(OfDimension(answer, d), kind) == 0
  {
    if answer != [] {
      NoGroupNoCount(answer[..|answer| - 1], d, kind);
      LastGroup(answer, d, kind);
    }
  }

  /** The last group decides its own count and leaves the others alone. */
  lemma LastGroup(answer: seq<Group>, d: Dimension, kind: Kind)
    requires answer != []
    ensures var last := answer[|answer| - 1];
            LastTotal(OfDimension(answer, d), kind) ==
            if last.dimension == d && last.of.kind == kind then last.of.total
            else LastTotal(OfDimension(answer[..|answer| - 1], d), kind)
  {
    var before, last := OfDimension(answer[..|answer| - 1], d), answer[|answer| - 1];
    assert (before + [last.of])[..|before|] == before && before + [] == before;
  }

  /** What `_counts` makes of the two answers. */
  lemma CountsAreSums(rows: seq<Row>, tenant: nat, from: int, totals: seq<KindTotal>, grouped: seq<Group>, kind: Kind)
    requires ByKind(rows, tenant, from, totals) && ByDimension(rows, tenant, from, grouped)
    ensures LastTotal(totals, kind) == Sum(rows, Query(tenant, from, kind, None))
    ensures forall d :: LastTotal(OfDimension(grouped, d), kind) == Sum(rows, Query(tenant, from, kind, Some(d)))
  {
    LastTotalOfKind(totals, kind);
    if kind !in Kinds(totals) {
      NoRowNoSum(rows, Query(tenant, from, kind, None));
    }
    forall d ensures LastTotal(OfDimension(grouped, d), kind) == Sum(rows, Query(tenant, from, kind, Some(d))) {
      if HasGroup(grouped, d, kind) {
        var i :| 0 <= i < |grouped| && grouped[i].dimension == d && grouped[i].of.kind == kind;
        GroupIsCounted(grouped, i);
      } else {
        NoGroupNoCount(grouped, d, kind);
        NoRowNoSum(rows, Query(tenant, from, kind, Some(d)));
      }
    }
  }

  /** The sums of one kind, dimension by dimension. */
  function SumByDimension(rows: seq<Row>, q: Query, dims: seq<Dimension>): nat {
    if dims == [] then 0
    else SumByDimension(rows, q, dims[..|dims| - 1]) + Sum(rows, q.(dimension := Some(dims[|dims| - 1])))
  }

  /** How much the first row adds to the sums dimension by dimension. */
  lemma {:induction false} FirstRowByDimension(rows: seq<Row>, q: Query, dims: seq<Dimension>)
    requires rows != [] && Distinct(dims) && q.dimension.None?
    ensures SumByDimension(rows, q, dims) ==
            SumByDimension(rows[1..], q, dims) +
            if Matches(q, rows[0].key) && rows[0].key.dimension in dims then rows[0].count else 0
  {
    if dims != [] {
      FirstRowByDimension(rows, q, dims[..|dims| - 1]);
    }
  }

  /** Splitting the matching rows by dimension and adding up again loses and repeats nothing. */
  lemma {:induction false} SplittingKeepsTheSum(rows: seq<Row>, q: Query, dims: seq<Dimension>)
    requires Distinct(dims) && q.dimension.None?
    requires forall i :: 0 <= i < |rows| && Matches(q, rows[i].key) ==> rows[i].key.dimension in dims
    ensures SumByDimension(rows, q, dims) == Sum(rows, q)
  {
    if rows == [] {
      NothingByDimension(q, dims);
    } else {
      SplittingKeepsTheSum(rows[1..], q, dims);
      FirstRowByDimension(rows, q, dims);
    }
  }

  lemma {:induction false} NothingByDimension(q: Query, dims: seq<Dimension>)
    ensures SumByDimension([], q, dims) == 0
  {
    if dims != [] {
      NothingByDimension(q, dims[..|dims| - 1]);
    }
  }

  // ---------------------------------------------------------------------------
  // The endpoints
  // ---------------------------------------------------------------------------

  datatype InsightRow = InsightRow(dimension: Dimension, counts: map<Kind, nat>)

  datatype Insights = Insights(days: int, from: int, to: int, totals: map<Kind, nat>, rows: seq<InsightRow>)

  datatype ApiError = DaysNotAllowed

  predicate Allowed(days: int) {
    days == 7 || days == 30 || days == 90
  }

  predicate Complete(rows: seq<InsightRow>) {
    forall i :: 0 <= i < |rows| ==> rows[i].counts.Keys == EVENT_KEYS
  }

  /** The insight rows of one kind, added up. */
  function SumOfRows(rows: seq<InsightRow>, kind: Kind): nat
    requires Complete(rows) && kind in EVENT_KEYS
  {
    if rows == [] then 0 else SumOfRows(rows[..|rows| - 1], kind) + rows[|rows| - 1].counts[kind]
  }

  /** Insight rows that hold the sums of their dimensions add up to the sums dimension by dimension. */
  lemma {:induction false} SumOfRowsByDimension(table: seq<Row>, q: Query, rows: seq<InsightRow>, dims: seq<Dimension>)
    requires Complete(rows) && |rows| == |dims| && q.kind in EVENT_KEYS
    requires forall i :: 0 <= i < |rows| ==> rows[i].counts[q.kind] == Sum(table, q.(dimension := Some(dims[i])))
    ensures SumOfRows(rows, q.kind) == SumByDimension(table, q, dims)
  {
    if rows != [] {
      SumOfRowsByDimension(table, q, rows[..|rows| - 1], dims[..|dims| - 1]);
    }
  }

  function OrEmpty(o: Option<string>): string {
    if o.Some? then o.value else ""
  }

  /** The insight row of a dimension. */
  ghost predicate RowOf(row: InsightRow, grouped: seq<Group>, d: Dimension) {
    row.dimension == d && row.counts.Keys == EVENT_KEYS &&
    forall kind :: kind in EVENT_KEYS ==> row.counts[kind] == LastTotal(OfDimension(grouped, d), kind)
  }

  /** The comprehension that builds the insight rows, one for each dimension in order. */
  method FillRows(grouped: seq<Group>, dims: seq<Dimension>, byDimension: map<Dimension, seq<KindTotal>>)
    returns (insightRows: seq<InsightRow>)
    requires forall d :: d in dims ==> d in byDimension && byDimension[d] == OfDimension(grouped, d)
    ensures |insightRows| == |dims| && forall j :: 0 <= j < |dims| ==> RowOf(insightRows[j], grouped, dims[j])
  {
    insightRows := [];
    var i := 0;
    while i < |dims|
      invariant 0 <= i <= |dims| && |insightRows| == i
      invariant forall j :: 0 <= j < i ==> RowOf(insightRows[j], grouped, dims[j])
    {
      var counts := Counts(byDimension[dims[i]]);
      insightRows := insightRows + [InsightRow(dims[i], counts)];
      i := i + 1;
    }
  }

  class HelpMetrics {
    var rows: seq<Row>
    ghost var events: seq<Key>

    /** The counters are those of the recorded events. */
    ghost predicate Valid()
      reads this
    {
      rows == Recorded(events)
    }

    constructor ()
      ensures Valid() && events == []
    {
      rows, events := [], [];
    }

    /** `record_help_event`. */
    method RecordHelpEvent(
        tenant: nat, today: int, role: Role, kind: Kind,
        article: Option<string>, route: Option<string>, tour: Option<string>)
      requires Valid()
      modifies this
      ensures Valid()
      ensures var dimension := Dimension(if article.Some? then article.value else "", if route.Some? then route.value else "");
              var key := Key(tenant, today, role, kind, dimension, if tour.Some? then tour.value else "");
              events == old(events) + [key]
    {
      var key := Key(tenant, today, role, kind, Dimension(OrEmpty(article), OrEmpty(route)), OrEmpty(tour));
      rows := InsertOnConflict(rows, key);
      events := events + [key];
      assert events[..|events| - 1] == old(events);
    }

    /**
     `get_help_insights`.  Each insight row holds the events recorded in the window for its
     article and route; added up, the rows give the totals, and the totals are the events.
     */
    method GetHelpInsights(tenant: nat, today: int, days: int, totalRows: seq<KindTotal>, grouped: seq<Group>)
      returns (r: Result<Insights, ApiError>)
      requires Valid()
      requires Allowed(days) ==> ByKind(rows, tenant, today - (days - 1), totalRows)
      requires Allowed(days) ==> ByDimension(rows, tenant, today - (days - 1), grouped)
      ensures r.Success? <==> days in {7, 30, 90}
      ensures r.Success? ==>
                r.value.days == days && r.value.to == today && r.value.from == today - (days - 1) &&
                r.value.totals.Keys == EVENT_KEYS && Complete(r.value.rows) && Distinct(DimensionsOf(r.value.rows))
      ensures r.Success? ==>
                forall kind :: kind in EVENT_KEYS ==>
                  Agrees(events, tenant, r.value.from, kind, r.value.totals[kind], r.value.rows)
    {
      if !Allowed(days) {
        return Failure(DaysNotAllowed);
      }
      var from := today - (days - 1);
      var dims, byDimension := RegroupByDimension(grouped);
      var insightRows := FillRows(grouped, dims, byDimension);
      var totals := Counts(totalRows);
      assert Complete(insightRows) && DimensionsOf(insightRows) == dims;
      forall kind | kind in EVENT_KEYS ensures Agrees(events, tenant, from, kind, totals[kind], insightRows) {
        InsightsAgree(events, rows, tenant, from, kind, totalRows, grouped, insightRows, dims, byDimension);
      }
      return Success(Insights(days, from, today, totals, insightRows));
    }
  }

  /**
   One event type of an answer: its total is the events recorded in the window, each row has
   those of its article and route, and the rows add up to the total.
   */
  ghost predicate Agrees(events: seq<Key>, tenant: nat, from: int, kind: Kind, total: nat, rows: seq<InsightRow>)
    requires Complete(rows) && kind in EVENT_KEYS
  {
    total == Occurrences(events, Query(tenant, from, kind, None)) &&
    SumOfRows(rows, kind) == total &&
    forall i :: 0 <= i < |rows| ==>
      rows[i].counts[kind] == Occurrences(events, Query(tenant, from, kind, Some(rows[i].dimension)))
  }

  function DimensionsOf(rows: seq<InsightRow>): (dims: seq<Dimension>)
    ensures |dims| == |rows| && forall i :: 0 <= i < |rows| ==> dims[i] == rows[i].dimension
  {
    if rows == [] then [] else DimensionsOf(rows[..|rows| - 1]) + [rows[|rows| - 1].dimension]
  }

  /** `INSERT … ON CONFLICT DO UPDATE SET count = count + 1`. */
  method InsertOnConflict(rows: seq<Row>, key: Key) returns (rows': seq<Row>)
    ensures rows' == Upsert(rows, key)
  {
    var i := 0;
    while i < |rows| && rows[i].key != key
      invariant 0 <= i <= |rows|
      invariant Upsert(rows, key) == rows[..i] + Upsert(rows[i..], key)
    {
      assert rows[i..][1..] == rows[i + 1..];
      i := i + 1;
    }
    if i < |rows| {
      assert rows[i..][1..] == rows[i + 1..];
      rows' := rows[i := Row(key, rows[i].count + 1)];
    } else {
      rows' := rows + [Row(key, 1)];
    }
  }

  /**
   Both aggregations agree with each other and with the events, although the counters are
   split by day, role and tour, and `_counts` assigns where it might add.
   */
  lemma InsightsAgree(
      events: seq<Key>, rows: seq<Row>, tenant: nat, from: int, kind: Kind,
      totalRows: seq<KindTotal>, grouped: seq<Group>, insights: seq<InsightRow>,
      dims: seq<Dimension>, byDimension: map<Dimension, seq<KindTotal>>)
    requires rows == Recorded(events) && kind in EVENT_KEYS
    requires ByKind(rows, tenant, from, totalRows) && ByDimension(rows, tenant, from, grouped)
    requires Regrouped(grouped, dims, byDimension)
    requires |insights| == |dims| && forall i :: 0 <= i < |dims| ==> RowOf(insights[i], grouped, dims[i])
    ensures Complete(insights) && Agrees(events, tenant, from, kind, LastTotal(totalRows, kind), insights)
  {
    var q := Query(tenant, from, kind, None);
    CountsAreSums(rows, tenant, from, totalRows, grouped, kind);
    SumIsOccurrences(events, q);
    forall i | 0 <= i < |insights|
      ensures insights[i].counts[kind] == Occurrences(events, Query(tenant, from, kind, Some(insights[i].dimension)))
    {
      SumIsOccurrences(events, Query(tenant, from, kind, Some(dims[i])));
    }
    forall i | 0 <= i < |rows| && Matches(q, rows[i].key) ensures rows[i].key.dimension in dims {
      DimensionIsListed(rows, tenant, from, kind, grouped, i);
    }
    SumOfRowsByDimension(rows, q, insights, dims);
    SplittingKeepsTheSum(rows, q, dims);
  }

  lemma DimensionIsListed(rows: seq<Row>, tenant: nat, from: int, kind: Kind, grouped: seq<Group>, i: nat)
    requires ByDimension(rows, tenant, from, grouped)
    requires i < |rows| && Matches(Query(tenant, from, kind, None), rows[i].key)
    ensures OfDimension(grouped, rows[i].key.dimension) != []
  {
    var d := rows[i].key.dimension;
    assert !NoRow(rows, Query(tenant, from, kind, Some(d)));
    var j :| 0 <= j < |grouped| && grouped[j].dimension == d && grouped[j].of.kind == kind;
    EveryGroupIsListed(grouped, j);
  }
}
