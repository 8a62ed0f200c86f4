/**
 The machine of `Coverage` does what the methods of `Collection` do: a run whose events nothing
 interleaves with leaves the rows, objects and cursor of `RunExecution`, and every increasing
 log can be published.
 */
module CoverageRuns {
  import opened Wrappers
  import opened Fetcher
  import opened Collection
  import opened Coverage

  /** The loop over the notes. */
  ghost function Saves(s: State, run: nat, attempts: nat -> Attempt, n: nat): State {
    if n == 0 then s else Next(Saves(s, run, attempts, n - 1), Save(run, attempts(n - 1)))
  }

  /** The events of one run from its start to its cursor. */
  ghost function RunAlone(
      s: State, run: nat, e: Execution, dry: bool, portal: Portal, snaps: nat -> seq<Document>, attempts: nat -> Attempt): State
  {
    var fetched := Next(Next(s, Begin(run, e, dry)), Fetch(run, portal, snaps));
    if run !in fetched.runs || !fetched.runs[run].stage.Saving? then fetched
    else
      var saved := Saves(fetched, run, attempts, |fetched.runs[run].stage.docs|);
      Next(Next(saved, Close(run)), SetCursor(run))
  }

  /** Some note among the first ones whose callback raised. */
  ghost predicate CaughtIn(docs: seq<Document>, attempts: nat -> Attempt, d: Document) {
    exists i: nat :: i < |docs| && docs[i] == d && (!Reaches(d, attempts(i)) || attempts(i).insertion.AckLost?)
  }

  /** The state in which a run has handed its first `n` notes over. */
  ghost predicate SavedTo(s: State, run: nat, attempts: nat -> Attempt, n: nat, s': State)
    requires run in s.runs && s.runs[run].stage.Saving? && n <= |s.runs[run].stage.docs|
  {
    var r := s.runs[run];
    var docs := r.stage.docs[..n];
    var p := Collect(s.rows, r.execution, r.dry, docs, attempts);
    s' == s.(rows := p.rows, caught := s'.caught,
             objects := s.objects + Objects(r.execution, r.dry, docs, attempts),
             runs := s.runs[run := r.(stage := Saving(r.stage.to, r.stage.docs, n, p.tally))]) &&
    forall c, d :: (c, d) in s'.caught <==>
      (c, d) in s.caught || (!r.dry && c == r.execution.company && CaughtIn(docs, attempts, d))
  }

  lemma CaughtOn(docs: seq<Document>, attempts: nat -> Attempt, n: nat, d: Document)
    requires n < |docs|
    ensures CaughtIn(docs[..n + 1], attempts, d) <==>
              CaughtIn(docs[..n], attempts, d) ||
              (docs[n] == d && (!Reaches(d, attempts(n)) || attempts(n).insertion.AckLost?))
  {
    if i: nat :| i < n + 1 && docs[..n + 1][i] == d && (!Reaches(d, attempts(i)) || attempts(i).insertion.AckLost?) {
      assert i < n ==> docs[..n][i] == d;
    }
    if i: nat :| i < n && docs[..n][i] == d && (!Reaches(d, attempts(i)) || attempts(i).insertion.AckLost?) {
      assert docs[..n + 1][i] == d;
    }
    assert docs[..n + 1][n] == docs[n];
  }

  lemma CaughtOnce(
      s: State, run: nat, attempts: nat -> Attempt, n: nat, s': State, c: Company, d: Document)
    requires run in s.runs && s.runs[run].stage.Saving? && n < |s.runs[run].stage.docs|
    requires SavedTo(s, run, attempts, n, s')
    ensures (c, d) in Next(s', Save(run, attempts(n))).caught <==>
              (c, d) in s.caught ||
              (!s.runs[run].dry && c == s.runs[run].execution.company && CaughtIn(s.runs[run].stage.docs[..n + 1], attempts, d))
  {
    CaughtIff(s', Save(run, attempts(n)), c, d);
    CaughtOn(s.runs[run].stage.docs, attempts, n, d);
  }

  /** One more note. */
  lemma SaveOn(s: State, run: nat, attempts: nat -> Attempt, n: nat, s': State)
    requires run in s.runs && s.runs[run].stage.Saving? && n < |s.runs[run].stage.docs|
    requires SavedTo(s, run, attempts, n, s')
    ensures SavedTo(s, run, attempts, n + 1, Next(s', Save(run, attempts(n))))
  {
    var r := s.runs[run];
    var docs := r.stage.docs;
    var more := docs[..n + 1];
    assert more[..n] == docs[..n] && more[n] == docs[n];
    forall c, d
      ensures (c, d) in Next(s', Save(run, attempts(n))).caught <==>
                (c, d) in s.caught || (!r.dry && c == r.execution.company && CaughtIn(more, attempts, d))
    {
      CaughtOnce(s, run, attempts, n, s', c, d);
    }
    SaveResult(s', run, r, docs, n, attempts(n));
    var p := Collect(s.rows, r.execution, r.dry, more, attempts);
    LastUpdateStays(s.runs, run, s'.runs[run], r.(stage := Saving(r.stage.to, docs, n + 1, p.tally)));
    assert s.objects + Objects(r.execution, r.dry, docs[..n], attempts) +
           (if r.dry then {} else Uploads(r.execution, ToItem(docs[n]), attempts(n))) ==
           s.objects + Objects(r.execution, r.dry, more, attempts);
  }

  /** What the callback does to the state, in the terms of `Collection`. */
  lemma SaveResult(s: State, run: nat, r: Run, docs: seq<Document>, n: nat, a: Attempt)
    requires run in s.runs && r.stage.Saving? && n < |docs|
    requires exists tally :: s.runs[run] == r.(stage := Saving(r.stage.to, docs, n, tally))
    ensures var tally := s.runs[run].stage.tally;
            var p := Step(Progress(s.rows, tally), r.execution, r.dry, ToItem(docs[n]), a);
            Next(s, Save(run, a)) ==
              s.(rows := p.rows, caught := Next(s, Save(run, a)).caught,
                 objects := s.objects + (if r.dry then {} else Uploads(r.execution, ToItem(docs[n]), a)),
                 runs := s.runs[run := r.(stage := Saving(r.stage.to, docs, n + 1, p.tally))])
  {
  }

  lemma {:induction false} SavesAreCollect(s: State, run: nat, attempts: nat -> Attempt, n: nat)
    requires run in s.runs && s.runs[run].stage.Saving? && n <= |s.runs[run].stage.docs|
    requires s.runs[run].stage.done == 0 && s.runs[run].stage.tally == ZERO
    ensures SavedTo(s, run, attempts, n, Saves(s, run, attempts, n))
  {
    if n == 0 {
      assert s.runs[run := s.runs[run]] == s.runs;
      assert s.objects + {} == s.objects;
    } else {
      SavesAreCollect(s, run, attempts, n - 1);
      SaveOn(s, run, attempts, n - 1, Saves(s, run, attempts, n - 1));
    }
  }

  /** The state after a run of `e` over these notes, in the terms of `RunExecution`. */
  ghost predicate RanTo(
      s: State, e: Execution, dry: bool, docs: seq<Document>, attempts: nat -> Attempt, to: int, s': State)
  {
    var p := Collect(s.rows, e, dry, docs, attempts);
    s' == s.(rows := p.rows, caught := s'.caught, objects := s.objects + Objects(e, dry, docs, attempts),
             lastNsu := if Advances(p.tally, dry, Cursor(s.lastNsu, e.company), to)
                        then SetIfGreater(s.lastNsu, e.company, to) else s.lastNsu) &&
    forall c, d :: (c, d) in s'.caught <==>
      (c, d) in s.caught || (!dry && c == e.company && CaughtIn(docs, attempts, d))
  }

  lemma FetchResult(s: State, run: nat, e: Execution, dry: bool, portal: Portal, snaps: nat -> seq<Document>)
    requires run !in s.runs && Increasing(Log(s, e.company)) && Serves(portal, snaps, Log(s, e.company))
    requires BoundedBy(portal, LogTop(Log(s, e.company)))
    ensures var pages := Paginate(portal, 0, Cursor(s.lastNsu, e.company), 0, None, LogTop(Log(s, e.company)));
            var from := Cursor(s.lastNsu, e.company);
            Next(Next(s, Begin(run, e, dry)), Fetch(run, portal, snaps)) ==
              if pages.Failure? then s
              else
                var stage := Saving(Highest(from, pages.value.docs), Nfse(pages.value.docs), 0, ZERO);
                s.(runs := s.runs[run := Run(e, dry, from, stage)])
  {
    var from := Cursor(s.lastNsu, e.company);
    var begun := Next(s, Begin(run, e, dry));
    var pages := Paginate(portal, 0, from, 0, None, LogTop(Log(s, e.company)));
    assert begun.runs - {run} == s.runs;
    if pages.Success? {
      var stage := Saving(Highest(from, pages.value.docs), Nfse(pages.value.docs), 0, ZERO);
      LastUpdateStays(s.runs, run, Run(e, dry, from, Fetching), Run(e, dry, from, stage));
    }
  }

  /** The two closing transactions. */
  lemma CloseResult(s: State, run: nat, r: Run, runs: map<nat, Run>)
    requires run !in runs && s.runs == runs[run := r] && r.stage.Saving? && r.stage.done == |r.stage.docs|
    ensures Next(Next(s, Close(run)), SetCursor(run)) ==
              s.(runs := runs,
                 lastNsu := if Advances(r.stage.tally, r.dry, r.from, r.stage.to)
                            then SetIfGreater(s.lastNsu, r.execution.company, r.stage.to) else s.lastNsu)
  {
    var closed := r.(stage := Closed(r.stage.to, |r.stage.docs|, r.stage.tally));
    LastUpdateStays(runs, run, r, closed);
    assert runs[run := closed] - {run} == runs;
  }

  /**
   A run that nothing interleaves with ends as `RunExecution` does: rows, objects and cursor are
   those of the fold over the notes it fetched; a portal that raises leaves everything as it was.
   */
  lemma RunAloneIsRunExecution(
      s: State, run: nat, e: Execution, dry: bool, portal: Portal, snaps: nat -> seq<Document>, attempts: nat -> Attempt)
    requires run !in s.runs && Increasing(Log(s, e.company)) && Serves(portal, snaps, Log(s, e.company))
    requires BoundedBy(portal, LogTop(Log(s, e.company)))
    ensures var from := Cursor(s.lastNsu, e.company);
            var pages := Paginate(portal, 0, from, 0, None, LogTop(Log(s, e.company)));
            var s' := RunAlone(s, run, e, dry, portal, snaps, attempts);
            if pages.Failure? then s' == s
            else RanTo(s, e, dry, Nfse(pages.value.docs), attempts, Highest(from, pages.value.docs), s')
  {
    var from := Cursor(s.lastNsu, e.company);
    var pages := Paginate(portal, 0, from, 0, None, LogTop(Log(s, e.company)));
    FetchResult(s, run, e, dry, portal, snaps);
    if pages.Success? {
      var fetched := Next(Next(s, Begin(run, e, dry)), Fetch(run, portal, snaps));
      EndOfRun(s, run, e, dry, Nfse(pages.value.docs), Highest(from, pages.value.docs), attempts, fetched);
    }
  }

  lemma EndOfRun(
      s: State, run: nat, e: Execution, dry: bool, docs: seq<Document>, to: int, attempts: nat -> Attempt, fetched: State)
    requires run !in s.runs
    requires fetched == s.(runs := s.runs[run := Run(e, dry, Cursor(s.lastNsu, e.company), Saving(to, docs, 0, ZERO))])
    ensures RanTo(s, e, dry, docs, attempts, to,
                  Next(Next(Saves(fetched, run, attempts, |docs|), Close(run)), SetCursor(run)))
  {
    SavesAreCollect(fetched, run, attempts, |docs|);
    var saved := Saves(fetched, run, attempts, |docs|);
    assert docs[..|docs|] == docs;
    LastUpdateStays(s.runs, run, fetched.runs[run], saved.runs[run]);
    CloseResult(saved, run, saved.runs[run], s.runs);
  }

  // ---------------------------------------------------------------------------
  // Logs
  // ---------------------------------------------------------------------------

  /** Every increasing log is the log of some reachable state. */
  lemma {:induction false} EveryLogIsReachable(c: Company, log: seq<Document>) returns (events: seq<Event>)
    requires Increasing(log)
    ensures Log(Reach(events), c) == log
    decreases |log|
  {
    if log == [] {
      EmptyLog(c);
      events := [];
    } else {
      var n := |log| - 1;
      var earlier := EveryLogIsReachable(c, log[..n]);
      assert log[..n] != [] ==> Nsu(log[n - 1]) < Nsu(log[n]);
      PublishedOn(earlier, c, log[..n], log[n]);
      assert log == log[..n] + [log[n]];
      events := earlier + [Publish(c, log[n])];
    }
  }

  lemma EmptyLog(c: Company)
    ensures Log(Reach([]), c) == []
  {
  }

  lemma PublishedOn(events: seq<Event>, c: Company, log: seq<Document>, d: Document)
    requires Log(Reach(events), c) == log && Nsu(d) > LogTop(log)
    ensures Log(Reach(events + [Publish(c, d)]), c) == log + [d]
  {
    ReachOn(events, Publish(c, d));
    PublishAppends(Reach(events), c, log, d);
  }

  lemma ReachOn(events: seq<Event>, ev: Event)
    ensures Reach(events + [ev]) == Next(Reach(events), ev)
  {
    assert (events + [ev])[..|events|] == events;
  }

  lemma PublishAppends(s: State, c: Company, log: seq<Document>, d: Document)
    requires Log(s, c) == log && Nsu(d) > LogTop(log)
    ensures Log(Next(s, Publish(c, d)), c) == log + [d]
  {
  }
}
