/**
 What the events of `SchedulerLocks` do to execution rows, committed or not, and what a tick
 and a worker that nothing disturbs leave behind.

 The locks say what cannot happen.  Here is what does: a commit loses no row, a row ends only
 where the code ends it, and every job has its row unless a transaction rolled it back.
 */
module SchedulerRows {
  import opened SchedulerLocks
  import opened Workers
  import opened Wrappers

  predicate Wrote(s: State, p: nat, e: nat, x: Execution) {
    p in s.txns && e in s.txns[p].writes && s.txns[p].writes[e] == x
  }

  /** Row `e` is `x`, for everybody or for the transaction that wrote it. */
  ghost predicate Known(s: State, e: nat, x: Execution) {
    (e in s.committed && s.committed[e] == x) || exists p :: Wrote(s, p, e, x)
  }

  ghost predicate HasRowFor(s: State, e: nat) {
    exists x :: Known(s, e, x)
  }

  lemma OneRowPerId(s: State, e: nat, x: Execution, y: Execution)
    requires IdsInv(s.committed, s.txns, s.used) && Known(s, e, x) && Known(s, e, y)
    ensures x == y && e in s.used
  {
    forall p, q | Wrote(s, p, e, x) && Wrote(s, q, e, y) ensures p == q {
    }
    forall p | p in s.txns && e in s.txns[p].writes ensures e !in s.committed && e in s.used {
      assert s.txns[p].writes.Keys !! s.committed.Keys && s.txns[p].writes.Keys <= s.used;
    }
  }

  // ---------------------------------------------------------------------------
  // One event
  // ---------------------------------------------------------------------------

  /** The row an event brings into being under this id. */
  function Creates(s: State, ev: Event, e: nat): Option<Execution> {
    match ev
    case Insert(p, id) =>
      if e == id && Inserts(s, p, id) then Some(Execution(s.txns[p].targets[s.txns[p].pos], Queued, Tick)) else None
    case ApiInsert(id, c, enqueued) =>
      if e == id && id !in s.used then Some(Execution(c, if enqueued then Queued else Failed, Api)) else None
    case _ => None
  }

  /** A rollback takes the rows of its own transaction away. */
  predicate Vanishes(s: State, ev: Event, e: nat) {
    ev.Abort? && ev.p in s.txns && e in s.txns[ev.p].writes
  }

  predicate WorksOn(s: State, w: nat, e: nat) {
    HasRow(s, w) && s.jobs[s.workers[w].job] == e
  }

  /** The status an event gives to this row. */
  function NewStatus(s: State, ev: Event, e: nat): Option<Status> {
    match ev
    case Enqueue(p, ok) => if !ok && p in s.txns && s.txns[p].pc == Inserted(e) then Some(Failed) else None
    case MarkRunning(w) => if WorksOn(s, w, e) && !s.workers[w].marked then Some(Running) else None
    case Finish(w, final) => if WorksOn(s, w, e) && s.workers[w].marked && !Open(final) then Some(final) else None
    case _ => None
  }

  /** Row `e` is `x` once a row was created under this id, went away, got a status, or none of these. */
  ghost predicate Becomes(
      s: State, e: nat, x: Execution, created: Option<Execution>, vanishes: bool, status: Option<Status>) {
    if created.Some? then x == created.value
    else if vanishes then false
    else if status.Some? then exists y :: Known(s, e, y) && x == y.(status := status.value)
    else Known(s, e, x)
  }

  ghost predicate KnownAfter(s: State, ev: Event, e: nat, x: Execution) {
    Becomes(s, e, x, Creates(s, ev, e), Vanishes(s, ev, e), NewStatus(s, ev, e))
  }

  /** The transaction that starts, locks, looks or skips. */
  lemma MoverRows(s: State, ev: Event, e: nat, x: Execution)
    requires Mover(ev).Some? && !ev.Abort?
    ensures Known(Next(s, ev), e, x) <==> KnownAfter(s, ev, e, x)
  {
    var s', p := Next(s, ev), Mover(ev).value;
    MoverIsQuiet(s, ev, p);
    OthersStay(s, ev, p);
    if q :| Wrote(s, q, e, x) {
      assert Wrote(s', q, e, x);
    }
    if q :| Wrote(s', q, e, x) {
      assert Wrote(s, q, e, x);
    }
  }

  lemma OthersStay(s: State, ev: Event, p: nat)
    requires Mover(ev) == Some(p) && !ev.Abort?
    ensures forall q :: q in s.txns ==> q in Next(s, ev).txns
  {
  }

  lemma AbortRows(s: State, p: nat, e: nat, x: Execution)
    requires IdsInv(s.committed, s.txns, s.used)
    ensures Known(Next(s, Abort(p)), e, x) <==> KnownAfter(s, Abort(p), e, x)
  {
    var s' := DoAbort(s, p);
    if q :| Wrote(s', q, e, x) {
      assert Wrote(s, q, e, x);
      assert p in s.txns ==> s.txns[p].writes.Keys !! s.txns[q].writes.Keys;
    }
    if q :| Wrote(s, q, e, x) {
      assert !Vanishes(s, Abort(p), e) ==> Wrote(s', q, e, x);
    }
    assert p in s.txns ==> s.txns[p].writes.Keys !! s.committed.Keys;
  }

  /** A commit loses no row and changes none. */
  lemma CommitRows(s: State, p: nat, e: nat, x: Execution)
    requires IdsInv(s.committed, s.txns, s.used)
    ensures Known(Next(s, Commit(p)), e, x) <==> KnownAfter(s, Commit(p), e, x)
  {
    var s' := DoCommit(s, p);
    if s' != s {
      assert s.txns[p].writes.Keys !! s.committed.Keys;
      if q :| Wrote(s, q, e, x) {
        assert q != p ==> Wrote(s', q, e, x);
      }
      if q :| Wrote(s', q, e, x) {
        assert Wrote(s, q, e, x);
      }
      if e in s'.committed && e !in s.committed {
        assert Wrote(s, p, e, s'.committed[e]);
      }
    }
  }

  lemma InsertRows(s: State, p: nat, id: nat, e: nat, x: Execution)
    requires IdsInv(s.committed, s.txns, s.used)
    ensures Known(Next(s, Insert(p, id)), e, x) <==> KnownAfter(s, Insert(p, id), e, x)
  {
    var s' := DoInsert(s, p, id);
    if Inserts(s, p, id) {
      if e == id {
        assert forall q :: q in s.txns ==> id !in s.txns[q].writes by {
          forall q | q in s.txns ensures id !in s.txns[q].writes { assert s.txns[q].writes.Keys <= s.used; }
        }
        assert Wrote(s', p, id, s'.txns[p].writes[id]);
      } else {
        if q :| Wrote(s, q, e, x) { assert Wrote(s', q, e, x); }
        if q :| Wrote(s', q, e, x) { assert Wrote(s, q, e, x); }
      }
    }
  }

  lemma ApiInsertRows(s: State, id: nat, c: Company, enqueued: bool, e: nat, x: Execution)
    requires IdsInv(s.committed, s.txns, s.used)
    ensures Known(Next(s, ApiInsert(id, c, enqueued)), e, x) <==> KnownAfter(s, ApiInsert(id, c, enqueued), e, x)
  {
    var s' := DoApiInsert(s, id, c, enqueued);
    if id !in s.used {
      forall q | q in s.txns ensures id !in s.txns[q].writes { assert s.txns[q].writes.Keys <= s.used; }
      if q :| Wrote(s, q, e, x) { assert Wrote(s', q, e, x); }
      if q :| Wrote(s', q, e, x) { assert Wrote(s, q, e, x); }
    }
  }

  lemma EnqueueRows(s: State, p: nat, ok: bool, e: nat, x: Execution)
    requires IdsInv(s.committed, s.txns, s.used) && InsertedInv(s.txns, s.jobs)
    ensures Known(Next(s, Enqueue(p, ok)), e, x) <==> KnownAfter(s, Enqueue(p, ok), e, x)
  {
    if NewStatus(s, Enqueue(p, ok), e).Some? {
      RefusedRow(s, p, e, x);
    } else {
      RowsKeptByEnqueue(s, p, ok, e, x);
    }
  }

  lemma RefusedRow(s: State, p: nat, e: nat, x: Execution)
    requires IdsInv(s.committed, s.txns, s.used) && InsertedInv(s.txns, s.jobs)
    requires p in s.txns && s.txns[p].pc == Inserted(e)
    ensures Known(DoEnqueue(s, p, false), e, x) <==> exists y :: Known(s, e, y) && x == y.(status := Failed)
  {
    var s', y := DoEnqueue(s, p, false), s.txns[p].writes[e];
    var z := y.(status := Failed);
    IdsOfEnqueue(s, p, false);
    assert Wrote(s, p, e, y) && Known(s, e, y);
    assert Wrote(s', p, e, z) && Known(s', e, z);
    if Known(s', e, x) { OneRowPerId(s', e, x, z); }
    forall k | Known(s, e, k) ensures k == y { OneRowPerId(s, e, k, y); }
  }

  lemma RowsKeptByEnqueue(s: State, p: nat, ok: bool, e: nat, x: Execution)
    requires NewStatus(s, Enqueue(p, ok), e).None?
    ensures Known(DoEnqueue(s, p, ok), e, x) <==> Known(s, e, x)
  {
    var s' := DoEnqueue(s, p, ok);
    assert forall q :: q in s.txns <==> q in s'.txns;
    forall q | q in s.txns ensures Wrote(s', q, e, x) <==> Wrote(s, q, e, x) {
      assert q != p ==> s'.txns[q] == s.txns[q];
    }
  }

  lemma IdsOfEnqueue(s: State, p: nat, ok: bool)
    requires IdsInv(s.committed, s.txns, s.used)
    ensures IdsInv(DoEnqueue(s, p, ok).committed, DoEnqueue(s, p, ok).txns, DoEnqueue(s, p, ok).used)
  {
    var s' := DoEnqueue(s, p, ok);
    if s' != s {
      IdsMove(s.committed, s.txns, s.used, p, s'.txns[p], s.used);
    }
  }

  /** A worker that marks or finishes its row. */
  lemma StatusRows(s: State, id: nat, st: Status, e: nat, x: Execution)
    requires IdsInv(s.committed, s.txns, s.used) && id in s.committed
    ensures Known(SetStatus(s, id, st), e, x) <==>
              if e == id then exists y :: Known(s, e, y) && x == y.(status := st) else Known(s, e, x)
  {
    var s' := SetStatus(s, id, st);
    forall q ensures Wrote(s', q, e, x) <==> Wrote(s, q, e, x) {
    }
    if e == id {
      forall q | q in s.txns ensures e !in s.txns[q].writes {
        assert s.txns[q].writes.Keys !! s.committed.Keys;
      }
      assert Known(s, e, s.committed[e]);
    }
  }

  lemma SameRows(s: State, s': State, e: nat, x: Execution)
    requires s'.committed == s.committed && s'.txns == s.txns
    ensures Known(s', e, x) <==> Known(s, e, x)
  {
    forall q ensures Wrote(s', q, e, x) <==> Wrote(s, q, e, x) {
    }
  }

  lemma MarkRunningRows(s: State, w: nat, e: nat, x: Execution)
    requires IdsInv(s.committed, s.txns, s.used)
    ensures Known(Next(s, MarkRunning(w)), e, x) <==> KnownAfter(s, MarkRunning(w), e, x)
  {
    if HasRow(s, w) && !s.workers[w].marked {
      var marked := SetStatus(s, s.jobs[s.workers[w].job], Running);
      StatusRows(s, s.jobs[s.workers[w].job], Running, e, x);
      SameRows(marked, DoMarkRunning(s, w), e, x);
    }
  }

  lemma FinishRows(s: State, w: nat, final: Status, e: nat, x: Execution)
    requires IdsInv(s.committed, s.txns, s.used)
    ensures Known(Next(s, Finish(w, final)), e, x) <==> KnownAfter(s, Finish(w, final), e, x)
  {
    if HasRow(s, w) && s.workers[w].marked && !Open(final) {
      var finished := SetStatus(s, s.jobs[s.workers[w].job], final);
      StatusRows(s, s.jobs[s.workers[w].job], final, e, x);
      SameRows(finished, DoFinish(s, w, final), e, x);
    }
  }

  /**
   What every event leaves of every row: it creates it, takes it away with a rollback, gives
   it a status, or leaves it as it was.
   */
  lemma RowsAfter(s: State, ev: Event, e: nat, x: Execution)
    requires Inv(s)
    ensures Known(Next(s, ev), e, x) <==> KnownAfter(s, ev, e, x)
  {
    match ev {
      case Insert(p, id) => InsertRows(s, p, id, e, x);
      case Enqueue(p, ok) => EnqueueRows(s, p, ok, e, x);
      case Commit(p) => CommitRows(s, p, e, x);
      case Abort(p) => AbortRows(s, p, e, x);
      case ApiInsert(id, c, enqueued) => ApiInsertRows(s, id, c, enqueued, e, x);
      case MarkRunning(w) => MarkRunningRows(s, w, e, x);
      case Finish(w, final) => FinishRows(s, w, final, e, x);
      case Pick(_, _) => SameRows(s, Next(s, ev), e, x);
      case WorkerCrash(_) => SameRows(s, Next(s, ev), e, x);
      case _ => MoverRows(s, ev, e, x);
    }
  }

  /** What everybody sees only grows: by the rows of a transaction that commits, and by those of the API. */
  lemma CommittedAfter(s: State, ev: Event, e: nat)
    ensures e in Next(s, ev).committed <==>
              e in s.committed || (ev.ApiInsert? && ev.id == e && e !in s.used) ||
              (ev.Commit? && ev.p in s.txns && s.txns[ev.p].pc == AtCommit && e in s.txns[ev.p].writes)
  {
    if Mover(ev).Some? {
      MoverIsQuiet(s, ev, Mover(ev).value);
    }
  }

  /** A job is for a row just inserted that the queue took: by a tick at its enqueue, or by the API. */
  lemma JobsAfter(s: State, ev: Event, e: nat)
    requires InsertedInv(s.txns, s.jobs)
    ensures s.jobs <= Next(s, ev).jobs
    ensures e in Next(s, ev).jobs <==>
              e in s.jobs || (ev.ApiInsert? && ev.id == e && e !in s.used && ev.enqueued) ||
              (ev.Enqueue? && ev.ok && ev.p in s.txns && s.txns[ev.p].pc == Inserted(e))
  {
  }

  // ---------------------------------------------------------------------------
  // What is in flight
  // ---------------------------------------------------------------------------

  /** The event ends the execution: a rollback, a refused enqueue, or a worker that finishes. */
  predicate Ends(s: State, ev: Event, e: nat) {
    Vanishes(s, ev, e) || (NewStatus(s, ev, e).Some? && !Open(NewStatus(s, ev, e).value))
  }

  predicate Starts(s: State, ev: Event, e: nat, c: Company) {
    Creates(s, ev, e).Some? && Creates(s, ev, e).value.company == c && Open(Creates(s, ev, e).value.status)
  }

  lemma InFlightIsKnown(s: State, e: nat, c: Company)
    ensures InFlight(s, e, c) <==> exists x :: Known(s, e, x) && x.company == c && Open(x.status)
  {
    if InFlight(s, e, c) {
      if e in s.committed && s.committed[e].company == c && Open(s.committed[e].status) {
        assert Known(s, e, s.committed[e]);
      } else {
        var p :| p in s.txns && e in s.txns[p].writes && s.txns[p].writes[e].company == c &&
                 Open(s.txns[p].writes[e].status);
        assert Wrote(s, p, e, s.txns[p].writes[e]) && Known(s, e, s.txns[p].writes[e]);
      }
    }
  }

  /** Only open rows change their status. */
  lemma ChangedRowIsOpen(s: State, ev: Event, e: nat, y: Execution)
    requires Inv(s) && NewStatus(s, ev, e).Some? && Known(s, e, y)
    ensures Open(y.status)
  {
    match ev {
      case Enqueue(p, ok) =>
        var z := s.txns[p].writes[e];
        assert Wrote(s, p, e, z) && Known(s, e, z);
        OneRowPerId(s, e, y, z);
      case MarkRunning(w) =>
        assert Known(s, e, s.committed[e]);
        OneRowPerId(s, e, y, s.committed[e]);
      case Finish(w, final) =>
        assert Known(s, e, s.committed[e]);
        OneRowPerId(s, e, y, s.committed[e]);
    }
  }

  lemma FreshIsUnknown(s: State, ev: Event, e: nat, c: Company)
    requires Inv(s) && Creates(s, ev, e).Some?
    ensures !InFlight(s, e, c)
  {
    FreshIsNotInFlight(s, e, c);
  }

  /**
   An execution is in flight after an event if and only if the event starts it, or it was in
   flight and the event does not end it: in particular it survives the commit of its tick.
   */
  lemma InFlightAfterIff(s: State, ev: Event, e: nat, c: Company)
    requires Inv(s)
    ensures InFlight(Next(s, ev), e, c) <==> Starts(s, ev, e, c) || (InFlight(s, e, c) && !Ends(s, ev, e))
  {
    var s' := Next(s, ev);
    var created, vanishes, status := Creates(s, ev, e), Vanishes(s, ev, e), NewStatus(s, ev, e);
    InFlightIsKnown(s, e, c);
    InFlightIsKnown(s', e, c);
    forall x ensures Known(s', e, x) <==> Becomes(s, e, x, created, vanishes, status) {
      RowsAfter(s, ev, e, x);
    }
    if created.Some? {
      FreshIsUnknown(s, ev, e, c);
    }
    forall y | Known(s, e, y) && status.Some? ensures Open(y.status) {
      ChangedRowIsOpen(s, ev, e, y);
    }
    InFlightByRows(s, s', e, c, created, vanishes, status);
  }

  lemma InFlightByRows(
      s: State, s': State, e: nat, c: Company, created: Option<Execution>, vanishes: bool, status: Option<Status>)
    requires forall x :: Known(s', e, x) <==> Becomes(s, e, x, created, vanishes, status)
    requires status.Some? ==> forall y :: Known(s, e, y) ==> Open(y.status)
    ensures (exists x :: Known(s', e, x) && x.company == c && Open(x.status)) <==>
              if created.Some? then created.value.company == c && Open(created.value.status)
              else (exists y :: Known(s, e, y) && y.company == c && Open(y.status)) && !vanishes &&
                   (status.Some? ==> Open(status.value))
  {
    if created.Some? {
      assert Known(s', e, created.value);
    } else if status.Some? && !vanishes {
      forall y | Known(s, e, y) ensures Known(s', e, y.(status := status.value)) {
      }
    }
  }

  /** Along two waits the wanted slots rise by creation instant, then by id, and schedule rows come last. */
  lemma WaitsClimbInTableOrder(events: seq<Event>, p: nat, q: nat, r: nat)
    requires Waits(Reach(events), p, q) && Waits(Reach(events), q, r)
    ensures var s := Reach(events);
            var a, b := Wanted(s.txns[p]), Wanted(s.txns[q]);
            a.Slot? &&
            (b.Slot? ==>
              (if a.company.createdAt == b.company.createdAt then a.company.id < b.company.id
               else a.company.createdAt < b.company.createdAt))
  {
    ReachKeeps(events);
    WaitsClimb(Reach(events), p, q, r);
  }

  // ---------------------------------------------------------------------------
  // Jobs and their rows
  // ---------------------------------------------------------------------------

  /** Some rollback of the run took the row away. */
  ghost predicate RolledBack(events: seq<Event>, e: nat) {
    events != [] &&
    (RolledBack(events[..|events| - 1], e) || Vanishes(Reach(events[..|events| - 1]), events[|events| - 1], e))
  }

  lemma UnusedHasNoRow(s: State, e: nat)
    requires IdsInv(s.committed, s.txns, s.used) && e !in s.used
    ensures !HasRowFor(s, e)
  {
    forall x ensures !Known(s, e, x) {
      if Known(s, e, x) { OneRowPerId(s, e, x, x); }
    }
  }

  /** An id is used exactly when a row was created under it. */
  lemma UsedAfter(s: State, ev: Event, e: nat)
    ensures e in Next(s, ev).used <==> e in s.used || Creates(s, ev, e).Some?
  {
  }

  lemma HasRowAfter(s: State, ev: Event, e: nat)
    requires Inv(s)
    ensures HasRowFor(Next(s, ev), e) <==>
              Creates(s, ev, e).Some? || (HasRowFor(s, e) && !Vanishes(s, ev, e))
  {
    var s' := Next(s, ev);
    var created, vanishes, status := Creates(s, ev, e), Vanishes(s, ev, e), NewStatus(s, ev, e);
    forall x ensures Known(s', e, x) <==> Becomes(s, e, x, created, vanishes, status) {
      RowsAfter(s, ev, e, x);
    }
    RowRemains(s, s', e, created, vanishes, status);
  }

  lemma RowRemains(
      s: State, s': State, e: nat, created: Option<Execution>, vanishes: bool, status: Option<Status>)
    requires forall x :: Known(s', e, x) <==> Becomes(s, e, x, created, vanishes, status)
    ensures HasRowFor(s', e) <==> created.Some? || (HasRowFor(s, e) && !vanishes)
  {
    if created.Some? {
      assert Known(s', e, created.value);
    } else if HasRowFor(s, e) && !vanishes {
      var y :| Known(s, e, y);
      assert Known(s', e, if status.Some? then y.(status := status.value) else y);
    }
  }

  lemma {:induction false} UsedHasRowIff(events: seq<Event>, e: nat)
    ensures HasRowFor(Reach(events), e) <==> e in Reach(events).used && !RolledBack(events, e)
    ensures RolledBack(events, e) ==> e in Reach(events).used
  {
    if events == [] {
      UnusedHasNoRow(Initial(), e);
    } else {
      var before, ev := events[..|events| - 1], events[|events| - 1];
      var s := Reach(before);
      UsedHasRowIff(before, e);
      ReachKeeps(before);
      UsedAfter(s, ev, e);
      HasRowAfter(s, ev, e);
      if Vanishes(s, ev, e) {
        assert Wrote(s, ev.p, e, s.txns[ev.p].writes[e]) && Known(s, e, s.txns[ev.p].writes[e]);
      }
    }
  }

  /**
   A job enters the queue before its row is committed.  It names a row, committed or of an open
   transaction, if and only if no rollback took that row away.
   */
  lemma JobHasRowIff(events: seq<Event>, e: nat)
    requires e in Reach(events).jobs
    ensures HasRowFor(Reach(events), e) <==> !RolledBack(events, e)
  {
    ReachKeeps(events);
    UsedHasRowIff(events, e);
  }

  lemma {:induction false} NothingRollsBack(events: seq<Event>, e: nat)
    requires forall i :: 0 <= i < |events| ==> !events[i].Abort?
    ensures !RolledBack(events, e)
  {
    if events != [] {
      NothingRollsBack(events[..|events| - 1], e);
    }
  }

  /** Without rollbacks every job has its row. */
  lemma EveryJobHasItsRow(events: seq<Event>, e: nat)
    requires e in Reach(events).jobs && forall i :: 0 <= i < |events| ==> !events[i].Abort?
    ensures HasRowFor(Reach(events), e)
  {
    NothingRollsBack(events, e);
    JobHasRowIff(events, e);
  }
}
