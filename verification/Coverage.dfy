/**
 Overlapping, failing and crashing collection runs over one database.

 Each event is one transaction (or one call to the portal) of some run of
 `run_execution`; events of different runs, of any companies and tenants, interleave
 freely, and a run may stop for good between any two of its events.  The module proves
 that the cursor of a company never passes a note the table does not account for.
 */
module Coverage {
  import opened Wrappers
  import opened Fetcher
  import opened Collection
  import MixedNsus

  datatype Stage =
    | Fetching
    | Saving(to: int, docs: seq<Document>, done: nat, tally: Tally)
    | Closed(upTo: int, notes: nat, final: Tally)

  datatype Run = Run(execution: Execution, dry: bool, from: int, stage: Stage)

  /**
   `caught` remembers the notes the catch-all of the callback counted in `items_fail`
   during a real run; the source keeps only the counter.
   */
  datatype State = State(
    logs: map<Company, seq<Document>>,
    rows: seq<Row>,
    lastNsu: map<Company, int>,
    runs: map<nat, Run>,
    caught: set<(Company, Document)>,
    objects: set<ObjectKey>)

  datatype Event =
    | Publish(company: Company, doc: Document)
    | Begin(run: nat, execution: Execution, dry: bool)
    | Fetch(run: nat, portal: Portal, snaps: nat -> seq<Document>)
    | Save(run: nat, attempt: Attempt)
    | Close(run: nat)
    | SetCursor(run: nat)
    | Crash(run: nat)

  function Log(s: State, c: Company): seq<Document> {
    if c in s.logs then s.logs[c] else []
  }

  function Initial(): State { State(map[], [], map[], map[], {}, {}) }

  function Drop(s: State, run: nat): State {
    s.(runs := s.runs - {run})
  }

  /** The portal appends a document whose NSU, coerced, is the next; it may be text. */
  function DoPublish(s: State, c: Company, d: Document): State {
    if Nsu(d) > LogTop(Log(s, c)) then s.(logs := s.logs[c := Log(s, c) + [d]]) else s
  }

  function DoBegin(s: State, run: nat, e: Execution, dry: bool): State {
    if run in s.runs then s
    else s.(runs := s.runs[run := Run(e, dry, Cursor(s.lastNsu, e.company), Fetching)])
  }

  /** The whole pagination against a truthful portal; an exception fails the run. */
  ghost function DoFetch(s: State, run: nat, portal: Portal, snaps: nat -> seq<Document>): State {
    if run in s.runs && s.runs[run].stage.Fetching? &&
       Increasing(Log(s, s.runs[run].execution.company)) &&
       Serves(portal, snaps, Log(s, s.runs[run].execution.company))
    then
      var r := s.runs[run];
      var log := Log(s, r.execution.company);
      ServedIsBounded(portal, snaps, log);
      var pages := Paginate(portal, 0, r.from, 0, None, LogTop(log));
      if pages.Failure? then Drop(s, run)
      else
        var docs := pages.value.docs;
        s.(runs := s.runs[run := r.(stage := Saving(Highest(r.from, docs), Nfse(docs), 0, ZERO))])
    else s
  }

  predicate CanSave(s: State, run: nat) {
    run in s.runs && s.runs[run].stage.Saving? && s.runs[run].stage.done < |s.runs[run].stage.docs|
  }

  /** The callback on the next note of a run. */
  function DoSave(s: State, run: nat, a: Attempt): State {
    if CanSave(s, run) then
      var r := s.runs[run];
      var d := r.stage.docs[r.stage.done];
      var p := Step(Progress(s.rows, r.stage.tally), r.execution, r.dry, ToItem(d), a);
      var stage := r.stage.(done := r.stage.done + 1, tally := p.tally);
      var o := OutcomeOf(s.rows, r.execution, ToItem(d), a);
      var caught := if !r.dry && (o.Caught? || o.Lost?)
                    then s.caught + {(r.execution.company, d)} else s.caught;
      var objects := s.objects + if r.dry then {} else Uploads(r.execution, ToItem(d), a);
      s.(rows := p.rows, caught := caught, objects := objects, runs := s.runs[run := r.(stage := stage)])
    else s
  }

  function DoClose(s: State, run: nat): State {
    if run in s.runs && s.runs[run].stage.Saving? && s.runs[run].stage.done == |s.runs[run].stage.docs| then
      var r := s.runs[run];
      s.(runs := s.runs[run := r.(stage := Closed(r.stage.to, |r.stage.docs|, r.stage.tally))])
    else s
  }

  function DoSetCursor(s: State, run: nat): State {
    if run in s.runs && s.runs[run].stage.Closed? then
      var r := s.runs[run];
      var lastNsu := if Advances(r.stage.final, r.dry, r.from, r.stage.upTo)
                     then SetIfGreater(s.lastNsu, r.execution.company, r.stage.upTo) else s.lastNsu;
      Drop(s.(lastNsu := lastNsu), run)
    else s
  }

  /** One event; an event that is not enabled changes nothing. */
  ghost function Next(s: State, ev: Event): State {
    match ev
    case Publish(c, d) => DoPublish(s, c, d)
    case Begin(run, e, dry) => DoBegin(s, run, e, dry)
    case Fetch(run, portal, snaps) => DoFetch(s, run, portal, snaps)
    case Save(run, a) => DoSave(s, run, a)
    case Close(run) => DoClose(s, run)
    case SetCursor(run) => DoSetCursor(s, run)
    case Crash(run) => Drop(s, run)
  }

  /** The state after a sequence of events, from an empty database. */
  ghost function Reach(events: seq<Event>): State {
    if events == [] then Initial()
    else Next(Reach(events[..|events| - 1]), events[|events| - 1])
  }

  // ---------------------------------------------------------------------------
  // Coverage
  // ---------------------------------------------------------------------------

  /** The row accounts for the note: same tenant and key, or the company's own keyless note. */
  predicate Covers(row: Row, c: Company, d: Document) {
    row.key == ToItem(d).key && row.execution.company.tenant == c.tenant &&
    (row.key.None? ==> row.execution.company == c && row.nsu == Nsu(d))
  }

  predicate HasRow(rows: seq<Row>, c: Company, d: Document) {
    exists i :: 0 <= i < |rows| && Covers(rows[i], c, d)
  }

  predicate Accounted(s: State, c: Company, d: Document) {
    HasRow(s.rows, c, d) || (c, d) in s.caught
  }

  predicate CoveredTo(s: State, c: Company, nsu: int) {
    forall i :: 0 <= i < |Log(s, c)| && IsNfse(Log(s, c)[i]) && Nsu(Log(s, c)[i]) <= nsu ==>
      Accounted(s, c, Log(s, c)[i])
  }

  /** The notes a run fetched include every note of the log inside its window. */
  predicate InWindow(log: seq<Document>, from: int, to: int, docs: seq<Document>) {
    forall i :: 0 <= i < |log| && IsNfse(log[i]) && from < Nsu(log[i]) <= to ==> log[i] in docs
  }

  ghost predicate StageInv(s: State, r: Run) {
    var c := r.execution.company;
    match r.stage
    case Fetching => true
    case Saving(to, docs, done, tally) =>
      r.from <= to <= LogTop(Log(s, c)) && InWindow(Log(s, c), r.from, to, docs) && done <= |docs| &&
      Total(tally) == done &&
      (!r.dry ==> forall i :: 0 <= i < done ==> Accounted(s, c, docs[i]))
    case Closed(to, notes, final) =>
      0 <= to <= LogTop(Log(s, c)) && Total(final) == notes && (!r.dry ==> CoveredTo(s, c, to))
  }

  ghost predicate RunInv(s: State, r: Run) {
    0 <= r.from <= LogTop(Log(s, r.execution.company)) &&
    CoveredTo(s, r.execution.company, r.from) && StageInv(s, r)
  }

  ghost predicate CompanyInv(s: State, c: Company) {
    Increasing(Log(s, c)) &&
    0 <= Cursor(s.lastNsu, c) <= LogTop(Log(s, c)) && CoveredTo(s, c, Cursor(s.lastNsu, c))
  }

  ghost predicate Inv(s: State) {
    (forall c: Company :: CompanyInv(s, c)) &&
    (forall run :: run in s.runs ==> RunInv(s, s.runs[run]))
  }

  /** What no event undoes: logs, objects and rows are append-only and the catch-all forgets nothing. */
  ghost predicate Grows(s: State, s': State) {
    s.rows <= s'.rows && s.caught <= s'.caught && s.objects <= s'.objects &&
    forall c: Company :: Log(s, c) <= Log(s', c)
  }

  lemma AccountedGrows(s: State, s': State, c: Company, d: Document)
    requires Grows(s, s') && Accounted(s, c, d)
    ensures Accounted(s', c, d)
  {
    if HasRow(s.rows, c, d) {
      var i :| 0 <= i < |s.rows| && Covers(s.rows[i], c, d);
      assert Covers(s'.rows[i], c, d);
    }
  }

  lemma CoveredToGrows(s: State, s': State, c: Company, nsu: int)
    requires Grows(s, s') && Increasing(Log(s', c))
    requires 0 <= nsu <= LogTop(Log(s, c)) && CoveredTo(s, c, nsu)
    ensures CoveredTo(s', c, nsu)
  {
    var log, log' := Log(s, c), Log(s', c);
    forall i | 0 <= i < |log'| && IsNfse(log'[i]) && Nsu(log'[i]) <= nsu ensures Accounted(s', c, log'[i]) {
      PastTheTop(log, log', i);
      assert log'[i] == log[i];
      AccountedGrows(s, s', c, log[i]);
    }
  }

  /** Whatever a log gains lies above its old top. */
  lemma PastTheTop(log: seq<Document>, log': seq<Document>, i: nat)
    requires Increasing(log') && log <= log' && i < |log'|
    ensures i < |log| || Nsu(log'[i]) > LogTop(log) >= 0
  {
    if i >= |log| && log != [] {
      assert log[|log| - 1] == log'[|log| - 1];
    }
  }

  lemma TopGrows(log: seq<Document>, log': seq<Document>)
    requires Increasing(log') && log <= log'
    ensures LogTop(log) <= LogTop(log')
  {
    if |log| < |log'| {
      PastTheTop(log, log', |log'| - 1);
    } else {
      assert log == log';
    }
  }

  lemma WindowGrows(log: seq<Document>, log': seq<Document>, from: int, to: int, docs: seq<Document>)
    requires Increasing(log') && log <= log' && to <= LogTop(log) && InWindow(log, from, to, docs)
    ensures InWindow(log', from, to, docs)
  {
    forall i | 0 <= i < |log'| && IsNfse(log'[i]) && from < Nsu(log'[i]) <= to ensures log'[i] in docs {
      PastTheTop(log, log', i);
      assert log'[i] == log[i];
    }
  }

  lemma RunGrows(s: State, s': State, r: Run)
    requires Grows(s, s') && Increasing(Log(s', r.execution.company)) && RunInv(s, r)
    ensures RunInv(s', r)
  {
    var c := r.execution.company;
    TopGrows(Log(s, c), Log(s', c));
    CoveredToGrows(s, s', c, r.from);
    match r.stage {
      case Fetching =>
      case Saving(to, docs, done, _) =>
        WindowGrows(Log(s, c), Log(s', c), r.from, to, docs);
        if !r.dry {
          forall i | 0 <= i < done ensures Accounted(s', c, docs[i]) {
            AccountedGrows(s, s', c, docs[i]);
          }
        }
      case Closed(to, _, _) =>
        if !r.dry {
          CoveredToGrows(s, s', c, to);
        }
    }
  }

  ghost predicate CursorKept(s: State, s': State, c: Company) {
    Cursor(s'.lastNsu, c) == Cursor(s.lastNsu, c) ||
    (0 <= Cursor(s'.lastNsu, c) <= LogTop(Log(s', c)) && CoveredTo(s', c, Cursor(s'.lastNsu, c)))
  }

  /** An event that moves cursors only over covered notes and leaves the runs it touches sound. */
  lemma OthersKept(s: State, s': State, touched: set<nat>)
    requires Inv(s) && Grows(s, s')
    requires forall c: Company :: CursorKept(s, s', c)
    requires forall c: Company :: Increasing(Log(s', c))
    requires forall run :: run in s'.runs && run !in touched ==> run in s.runs && s'.runs[run] == s.runs[run]
    requires forall run :: run in s'.runs && run in touched ==> RunInv(s', s'.runs[run])
    ensures Inv(s')
  {
    forall c: Company ensures CompanyInv(s', c) {
      assert CompanyInv(s, c);
      TopGrows(Log(s, c), Log(s', c));
      assert CursorKept(s, s', c);
      if Cursor(s'.lastNsu, c) == Cursor(s.lastNsu, c) {
        CoveredToGrows(s, s', c, Cursor(s.lastNsu, c));
      }
    }
    forall run | run in s'.runs ensures RunInv(s', s'.runs[run]) {
      if run !in touched {
        RunGrows(s, s', s.runs[run]);
      }
    }
  }

  lemma SameLogs(s: State, s': State)
    requires Inv(s) && s'.logs == s.logs
    ensures forall c: Company :: Increasing(Log(s', c)) && Log(s', c) == Log(s, c)
  {
    forall c: Company ensures Increasing(Log(s', c)) { assert CompanyInv(s, c); }
  }

  lemma PublishKeeps(s: State, c: Company, d: Document)
    requires Inv(s)
    ensures Inv(DoPublish(s, c, d)) && Grows(s, DoPublish(s, c, d))
  {
    var s' := DoPublish(s, c, d);
    forall k: Company ensures Increasing(Log(s', k)) && Log(s, k) <= Log(s', k) {
      assert CompanyInv(s, k);
      if s' != s && k == c {
        AppendIncreasing(Log(s, c), d);
      }
    }
    OthersKept(s, s', {});
  }

  lemma AppendIncreasing(log: seq<Document>, d: Document)
    requires Increasing(log) && Nsu(d) > LogTop(log)
    ensures Increasing(log + [d])
  {
    forall i | 0 <= i < |log| ensures Nsu(log[i]) < Nsu(d) {
      assert i == |log| - 1 || Nsu(log[i]) < Nsu(log[|log| - 1]);
    }
  }

  lemma BeginKeeps(s: State, run: nat, e: Execution, dry: bool)
    requires Inv(s)
    ensures Inv(DoBegin(s, run, e, dry))
  {
    var s' := DoBegin(s, run, e, dry);
    SameLogs(s, s');
    assert CompanyInv(s, e.company);
    if s' != s {
      CoveredToGrows(s, s', e.company, Cursor(s.lastNsu, e.company));
      OthersKept(s, s', {run});
    }
  }

  lemma DropKeeps(s: State, run: nat)
    requires Inv(s)
    ensures Inv(Drop(s, run))
  {
    SameLogs(s, Drop(s, run));
    OthersKept(s, Drop(s, run), {});
  }

  /** What a call collected contains every note between its two cursors. */
  lemma CollectedWindow(log: seq<Document>, from: int, docs: seq<Document>)
    requires Increasing(log) && 0 <= from <= LogTop(log) && MixedNsus.Covers(docs, log, from)
    ensures from <= Highest(from, docs) <= LogTop(log)
    ensures InWindow(log, from, Highest(from, docs), Nfse(docs))
  {
    HighestIsMaximum(from, docs);
    if Highest(from, docs) > from {
      var k :| 0 <= k < |docs| && Nsu(docs[k]) == Highest(from, docs);
      assert docs[k] in log;
      BelowTheTop(log, docs[k]);
    }
  }

  lemma BelowTheTop(log: seq<Document>, d: Document)
    requires Increasing(log) && d in log
    ensures Nsu(d) <= LogTop(log)
  {
    var i :| 0 <= i < |log| && log[i] == d;
    assert i == |log| - 1 || Nsu(log[i]) < Nsu(log[|log| - 1]);
  }

  lemma FetchKeeps(s: State, run: nat, portal: Portal, snaps: nat -> seq<Document>)
    requires Inv(s)
    ensures Inv(DoFetch(s, run, portal, snaps))
  {
    var s' := DoFetch(s, run, portal, snaps);
    if run in s.runs && s' != s {
      var r := s.runs[run];
      var log := Log(s, r.execution.company);
      assert RunInv(s, r) && CompanyInv(s, r.execution.company);
      ServedIsBounded(portal, snaps, log);
      var pages := Paginate(portal, 0, r.from, 0, None, LogTop(log));
      if pages.Failure? {
        DropKeeps(s, run);
      } else {
        MixedNsus.CallCovers(portal, snaps, log, 0, r.from, 0, None, LogTop(log));
        CollectedWindow(log, r.from, pages.value.docs);
        SameLogs(s, s');
        CoveredToGrows(s, s', r.execution.company, r.from);
        OthersKept(s, s', {run});
      }
    }
  }

  /** The callback on a real note leaves it accounted for. */
  lemma SaveAccounts(p: Progress, e: Execution, d: Document, a: Attempt)
    ensures OutcomeOf(p.rows, e, ToItem(d), a).Caught? ||
            HasRow(Step(p, e, false, ToItem(d), a).rows, e.company, d)
  {
    var item := ToItem(d);
    var o := OutcomeOf(p.rows, e, item, a);
    var rows' := Step(p, e, false, item, a).rows;
    match o {
      case Caught =>
      case Duplicate =>
        var i :| 0 <= i < |p.rows| && p.rows[i].key == Some(item.key.value) &&
                 p.rows[i].execution.company.tenant == e.company.tenant;
        assert Covers(rows'[i], e.company, d);
      case Inserted(row) =>
        assert rows'[|p.rows|] == row && Covers(row, e.company, d);
      case Lost(row) =>
        assert rows'[|p.rows|] == row && Covers(row, e.company, d);
    }
  }

  lemma SaveKeeps(s: State, run: nat, a: Attempt)
    requires Inv(s)
    ensures Inv(DoSave(s, run, a)) && Grows(s, DoSave(s, run, a))
  {
    var s' := DoSave(s, run, a);
    SameLogs(s, s');
    if CanSave(s, run) {
      var r, r' := s.runs[run], s'.runs[run];
      var c, i := r.execution.company, r.stage.done;
      var d := r.stage.docs[i];
      assert RunInv(s, r);
      var p := Progress(s.rows, r.stage.tally);
      StepConserves(p, r.execution, r.dry, ToItem(d), a);
      SaveAccounts(p, r.execution, d, a);
      RunGrows(s, s', r);
      if !r.dry {
        forall j | 0 <= j < r'.stage.done ensures Accounted(s', c, r'.stage.docs[j]) {
          if j < i { assert Accounted(s', c, r.stage.docs[j]); }
        }
      }
      OthersKept(s, s', {run});
    }
  }

  lemma CloseKeeps(s: State, run: nat)
    requires Inv(s)
    ensures Inv(DoClose(s, run))
  {
    var s' := DoClose(s, run);
    SameLogs(s, s');
    if run in s.runs && s' != s {
      var r := s.runs[run];
      var c := r.execution.company;
      assert RunInv(s, r);
      RunGrows(s, s', r);
      if !r.dry {
        forall i | 0 <= i < |Log(s, c)| && IsNfse(Log(s, c)[i]) && Nsu(Log(s, c)[i]) <= r.stage.to
          ensures Accounted(s', c, Log(s, c)[i])
        {
          if Nsu(Log(s, c)[i]) > r.from {
            assert Log(s, c)[i] in r.stage.docs;
          }
        }
      }
      OthersKept(s, s', {run});
    }
  }

  lemma SetCursorKeeps(s: State, run: nat)
    requires Inv(s)
    ensures Inv(DoSetCursor(s, run))
  {
    var s' := DoSetCursor(s, run);
    SameLogs(s, s');
    if run in s.runs && s.runs[run].stage.Closed? {
      var r := s.runs[run];
      assert RunInv(s, r);
      if Advances(r.stage.final, r.dry, r.from, r.stage.upTo) {
        CoveredToGrows(s, s', r.execution.company, r.stage.upTo);
      }
      OthersKept(s, s', {});
    }
  }

  /** One event keeps the invariant, undoes nothing and lowers no cursor. */
  lemma NextKeeps(s: State, ev: Event)
    requires Inv(s)
    ensures Inv(Next(s, ev)) && Grows(s, Next(s, ev))
    ensures forall c: Company :: Cursor(s.lastNsu, c) <= Cursor(Next(s, ev).lastNsu, c)
  {
    match ev {
      case Publish(c, d) => PublishKeeps(s, c, d);
      case Begin(run, e, dry) => BeginKeeps(s, run, e, dry);
      case Fetch(run, portal, snaps) => FetchKeeps(s, run, portal, snaps);
      case Save(run, a) => SaveKeeps(s, run, a);
      case Close(run) => CloseKeeps(s, run);
      case SetCursor(run) => SetCursorKeeps(s, run);
      case Crash(run) => DropKeeps(s, run);
    }
  }

  lemma {:induction false} ReachKeeps(events: seq<Event>)
    ensures Inv(Reach(events))
  {
    if events != [] {
      ReachKeeps(events[..|events| - 1]);
      NextKeeps(Reach(events[..|events| - 1]), events[|events| - 1]);
    }
  }

  /**
   In every state reached by any runs, however they overlap, fail or crash, every note of
   a company up to its cursor has a row (its own, or one of the tenant with the same key)
   or was counted as failed by the catch-all of the callback.
   */
  lemma CursorNeverPassesUnaccountedNote(events: seq<Event>, c: Company, i: nat)
    requires var s := Reach(events);
             i < |Log(s, c)| && IsNfse(Log(s, c)[i]) && Nsu(Log(s, c)[i]) <= Cursor(s.lastNsu, c)
    ensures Accounted(Reach(events), c, Log(Reach(events), c)[i])
  {
    ReachKeeps(events);
    assert CompanyInv(Reach(events), c);
  }

  lemma GrowsFurther(s: State, t: State, u: State)
    requires Grows(s, t) && Grows(t, u)
    ensures Grows(s, u)
  {
    forall c: Company ensures Log(s, c) <= Log(u, c) {
      assert Log(s, c) <= Log(t, c) <= Log(u, c);
    }
  }

  lemma ReachOneMore(events: seq<Event>, ev: Event)
    ensures Grows(Reach(events), Reach(events + [ev]))
    ensures forall c: Company :: Cursor(Reach(events).lastNsu, c) <= Cursor(Reach(events + [ev]).lastNsu, c)
  {
    assert (events + [ev])[..|events|] == events;
    ReachKeeps(events);
    NextKeeps(Reach(events), ev);
  }

  /** Along a run of the system cursors never move back and rows are never changed or removed. */
  lemma {:induction false} CursorNeverRegresses(events: seq<Event>, more: seq<Event>, c: Company)
    ensures Cursor(Reach(events).lastNsu, c) <= Cursor(Reach(events + more).lastNsu, c)
    ensures Grows(Reach(events), Reach(events + more))
  {
    if more == [] {
      assert events + more == events;
    } else {
      var mid := events + more[..|more| - 1];
      CursorNeverRegresses(events, more[..|more| - 1], c);
      ReachOneMore(mid, more[|more| - 1]);
      assert events + more == mid + [more[|more| - 1]];
      GrowsFurther(Reach(events), Reach(mid), Reach(events + more));
    }
  }

  /** A closed run, real or dry, counted exactly the notes it fetched, whatever ran beside it. */
  lemma ClosedRunConserves(events: seq<Event>, run: nat)
    requires run in Reach(events).runs && Reach(events).runs[run].stage.Closed?
    ensures Total(Reach(events).runs[run].stage.final) == Reach(events).runs[run].stage.notes
  {
    ReachKeeps(events);
    assert RunInv(Reach(events), Reach(events).runs[run]);
  }

  /** So did a run that has handed some of its notes to the callback. */
  lemma OpenRunConserves(events: seq<Event>, run: nat)
    requires run in Reach(events).runs && Reach(events).runs[run].stage.Saving?
    ensures Total(Reach(events).runs[run].stage.tally) == Reach(events).runs[run].stage.done
  {
    ReachKeeps(events);
    assert RunInv(Reach(events), Reach(events).runs[run]);
  }

  function RunOf(ev: Event): Option<nat> {
    match ev
    case Publish(_, _) => None
    case Begin(run, _, _) => Some(run)
    case Fetch(run, _, _) => Some(run)
    case Save(run, _) => Some(run)
    case Close(run) => Some(run)
    case SetCursor(run) => Some(run)
    case Crash(run) => Some(run)
  }

  /** No event of a dry run touches the rows, the objects, the cursors or the catch-all. */
  lemma DryRunTouchesNothing(s: State, ev: Event)
    requires RunOf(ev).Some? && (RunOf(ev).value in s.runs ==> s.runs[RunOf(ev).value].dry)
    ensures var s' := Next(s, ev);
            s'.rows == s.rows && s'.lastNsu == s.lastNsu && s'.caught == s.caught && s'.logs == s.logs &&
            s'.objects == s.objects
  {
  }

  /** The callback of a real run raises on this note of the company, or loses the answer of its insertion. */
  predicate Catches(s: State, ev: Event, c: Company, d: Document) {
    ev.Save? && CanSave(s, ev.run) &&
    var r := s.runs[ev.run];
    !r.dry && r.execution.company == c && r.stage.docs[r.stage.done] == d &&
    (!Reaches(d, ev.attempt) || ev.attempt.insertion.AckLost?)
  }

  /** The catch-all counts a note exactly when its callback raises. */
  lemma CaughtIff(s: State, ev: Event, c: Company, d: Document)
    ensures (c, d) in Next(s, ev).caught <==> (c, d) in s.caught || Catches(s, ev, c, d)
  {
  }

  /** The last transaction of a real run that stored what it could, over a window that reaches past the cursor. */
  predicate MovesCursor(s: State, ev: Event, c: Company) {
    ev.SetCursor? && ev.run in s.runs && s.runs[ev.run].stage.Closed? &&
    var r := s.runs[ev.run];
    var t := r.stage.final;
    r.execution.company == c && !r.dry && t.storageErrors == 0 && (t.ok > 0 || t.fail == 0) &&
    r.from < r.stage.upTo && Cursor(s.lastNsu, c) < r.stage.upTo
  }

  /** A cursor moves exactly then, to the end of the window of that run. */
  lemma CursorMovesIff(s: State, ev: Event, c: Company)
    requires Inv(s)
    ensures Cursor(Next(s, ev).lastNsu, c) ==
              if MovesCursor(s, ev, c) then s.runs[ev.run].stage.upTo else Cursor(s.lastNsu, c)
  {
    if ev.SetCursor? && ev.run in s.runs && s.runs[ev.run].stage.Closed? {
      assert RunInv(s, s.runs[ev.run]);
      CursorAfter(s, ev.run, c);
    }
  }

  lemma CursorAfter(s: State, run: nat, c: Company)
    requires run in s.runs && s.runs[run].stage.Closed? && 0 <= s.runs[run].from
    ensures Cursor(DoSetCursor(s, run).lastNsu, c) ==
              if MovesCursor(s, SetCursor(run), c) then s.runs[run].stage.upTo else Cursor(s.lastNsu, c)
  {
  }

  /** The unique index: one row for a tenant and key. */
  ghost predicate OneRowPerKey(rows: seq<Row>) {
    forall i, j :: 0 <= i < j < |rows| && rows[i].key.Some? && rows[i].key == rows[j].key ==>
      rows[i].execution.company.tenant != rows[j].execution.company.tenant
  }

  lemma StepKeepsIndex(p: Progress, e: Execution, dry: bool, item: NfseItem, a: Attempt)
    requires OneRowPerKey(p.rows)
    ensures OneRowPerKey(Step(p, e, dry, item, a).rows)
  {
  }

  lemma {:induction false} ReachKeepsIndex(events: seq<Event>)
    ensures OneRowPerKey(Reach(events).rows)
  {
    if events != [] {
      var s, ev := Reach(events[..|events| - 1]), events[|events| - 1];
      ReachKeepsIndex(events[..|events| - 1]);
      if ev.Save? && CanSave(s, ev.run) {
        var r := s.runs[ev.run];
        StepKeepsIndex(Progress(s.rows, r.stage.tally), r.execution, r.dry, ToItem(r.stage.docs[r.stage.done]), ev.attempt);
      }
    }
  }

  ghost predicate ObjectsInv(s: State) {
    forall i :: 0 <= i < |s.rows| && s.rows[i].objectKey.Some? ==> s.rows[i].objectKey.value in s.objects
  }

  /** In every reachable state the object key of a row names a stored object. */
  lemma {:induction false} RowsNameStoredObjects(events: seq<Event>)
    ensures ObjectsInv(Reach(events))
  {
    if events != [] {
      RowsNameStoredObjects(events[..|events| - 1]);
      NextKeepsObjects(Reach(events[..|events| - 1]), events[|events| - 1]);
    }
  }

  lemma NextKeepsObjects(s: State, ev: Event)
    requires ObjectsInv(s)
    ensures ObjectsInv(Next(s, ev))
  {
    if ev.Save? && CanSave(s, ev.run) && !s.runs[ev.run].dry {
      var r := s.runs[ev.run];
      var item := ToItem(r.stage.docs[r.stage.done]);
      assert NewRow(r.execution, item, ev.attempt).objectKey.Some? ==>
          NewRow(r.execution, item, ev.attempt).objectKey.value in Uploads(r.execution, item, ev.attempt);
    }
  }

  // ---------------------------------------------------------------------------
  // Which notes have rows
  // ---------------------------------------------------------------------------

  /** The callback on a note, when it reaches the insertion, leaves a row for every note that its row would cover. */
  predicate Records(e: Execution, note: Document, a: Attempt, c: Company, d: Document) {
    Reaches(note, a) && Covers(NewRow(e, ToItem(note), a), c, d)
  }

  lemma AppendedRow(rows: seq<Row>, row: Row, c: Company, d: Document)
    ensures HasRow(rows + [row], c, d) <==> HasRow(rows, c, d) || Covers(row, c, d)
  {
    if HasRow(rows, c, d) {
      var i :| 0 <= i < |rows| && Covers(rows[i], c, d);
      assert Covers((rows + [row])[i], c, d);
    }
    assert (rows + [row])[|rows|] == row;
  }

  /** One callback of a real run. */
  lemma StepRowIff(p: Progress, e: Execution, note: Document, a: Attempt, c: Company, d: Document)
    ensures HasRow(Step(p, e, false, ToItem(note), a).rows, c, d) <==> HasRow(p.rows, c, d) || Records(e, note, a, c, d)
  {
    var item := ToItem(note);
    if Reaches(note, a) {
      if item.key.Some? && Stored(p.rows, e.company.tenant, item.key.value) {
        var i :| 0 <= i < |p.rows| && p.rows[i].key == Some(item.key.value) &&
                 p.rows[i].execution.company.tenant == e.company.tenant;
        assert Covers(NewRow(e, item, a), c, d) ==> Covers(p.rows[i], c, d);
      } else {
        AppendedRow(p.rows, NewRow(e, item, a), c, d);
      }
    }
  }

  /** After a run a note has a row if and only if it had one or the run recorded it. */
  lemma {:induction false} RunRowIff(
      rows: seq<Row>, e: Execution, docs: seq<Document>, attempts: nat -> Attempt, c: Company, d: Document)
    ensures HasRow(Collect(rows, e, false, docs, attempts).rows, c, d) <==>
              HasRow(rows, c, d) || exists j: nat :: j < |docs| && Records(e, docs[j], attempts(j), c, d)
  {
    if docs != [] {
      var n := |docs| - 1;
      var earlier := docs[..n];
      RunRowIff(rows, e, earlier, attempts, c, d);
      StepRowIff(Collect(rows, e, false, earlier, attempts), e, docs[n], attempts(n), c, d);
      if j: nat :| j < |docs| && Records(e, docs[j], attempts(j), c, d) {
        assert j < n ==> Records(e, earlier[j], attempts(j), c, d);
      }
      if j: nat :| j < n && Records(e, earlier[j], attempts(j), c, d) {
        assert Records(e, docs[j], attempts(j), c, d);
      }
    }
  }

  /**
   A real run moves the cursor past a note that has no row if and only if its guard lets the
   cursor move and the note neither had a row nor was recorded by the run.
   */
  lemma CursorPassesRowlessIff(
      rows: seq<Row>, lastNsu: map<Company, int>, e: Execution, docs: seq<Document>, attempts: nat -> Attempt,
      to: int, d: Document)
    requires Cursor(lastNsu, e.company) < Nsu(d) <= to
    ensures var c, p := e.company, Collect(rows, e, false, docs, attempts);
            var moves := Advances(p.tally, false, Cursor(lastNsu, c), to);
            var lastNsu' := if moves then SetIfGreater(lastNsu, c, to) else lastNsu;
            Nsu(d) <= Cursor(lastNsu', c) && !HasRow(p.rows, c, d) <==>
            moves && !HasRow(rows, c, d) && forall j: nat :: j < |docs| ==> !Records(e, docs[j], attempts(j), c, d)
  {
    RunRowIff(rows, e, docs, attempts, e.company, d);
  }

  /** The event is the callback of a real run, and it records the note. */
  predicate Saves(s: State, ev: Event, c: Company, d: Document) {
    ev.Save? && CanSave(s, ev.run) &&
    var r := s.runs[ev.run];
    !r.dry && Records(r.execution, r.stage.docs[r.stage.done], ev.attempt, c, d)
  }

  lemma NextRowIff(s: State, ev: Event, c: Company, d: Document)
    ensures HasRow(Next(s, ev).rows, c, d) <==> HasRow(s.rows, c, d) || Saves(s, ev, c, d)
  {
    if ev.Save? && CanSave(s, ev.run) && !s.runs[ev.run].dry {
      var r := s.runs[ev.run];
      StepRowIff(Progress(s.rows, r.stage.tally), r.execution, r.stage.docs[r.stage.done], ev.attempt, c, d);
    }
  }

  /** Some event of the run of the system recorded the note. */
  ghost predicate Recorded(events: seq<Event>, c: Company, d: Document) {
    events != [] &&
    (Recorded(events[..|events| - 1], c, d) || Saves(Reach(events[..|events| - 1]), events[|events| - 1], c, d))
  }

  /** In every reachable state a note has a row if and only if some callback recorded it. */
  lemma {:induction false} RowIffRecorded(events: seq<Event>, c: Company, d: Document)
    ensures HasRow(Reach(events).rows, c, d) <==> Recorded(events, c, d)
  {
    if events != [] {
      RowIffRecorded(events[..|events| - 1], c, d);
      NextRowIff(Reach(events[..|events| - 1]), events[|events| - 1], c, d);
    }
  }

  /**
   So a note that the cursor has passed is without a row if and only if no callback recorded
   it, and then the catch-all counted it.
   */
  lemma PassedNoteIsRowlessIff(events: seq<Event>, c: Company, i: nat)
    requires var s := Reach(events);
             i < |Log(s, c)| && IsNfse(Log(s, c)[i]) && Nsu(Log(s, c)[i]) <= Cursor(s.lastNsu, c)
    ensures var s := Reach(events);
            var d := Log(s, c)[i];
            (!HasRow(s.rows, c, d) <==> !Recorded(events, c, d)) &&
            (!HasRow(s.rows, c, d) ==> (c, d) in s.caught)
  {
    CursorNeverPassesUnaccountedNote(events, c, i);
    RowIffRecorded(events, c, Log(Reach(events), c)[i]);
  }

  /**
   Coverage is about rows, not about stored XML: a note whose row was inserted after a
   storage error never gets an object key in any later state, since later runs find its key.
   */
  lemma MissingObjectStaysMissing(events: seq<Event>, more: seq<Event>, i: nat, j: nat)
    requires i < |Reach(events).rows| && Reach(events).rows[i].key.Some? && Reach(events).rows[i].objectKey.None?
    requires j < |Reach(events + more).rows|
    requires Reach(events + more).rows[j].key == Reach(events).rows[i].key
    requires Reach(events + more).rows[j].execution.company.tenant == Reach(events).rows[i].execution.company.tenant
    ensures Reach(events + more).rows[j].objectKey.None?
  {
    CursorNeverRegresses(events, more, Reach(events).rows[i].execution.company);
    ReachKeepsIndex(events + more);
    assert Reach(events + more).rows[i] == Reach(events).rows[i];
  }
}
