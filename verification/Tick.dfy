/**
 One tick of the scheduler (`scheduler.run_tick`), running by itself: which schedules it
 picks, what it does for each of their companies, and how its summary adds up.

 The interleavings of several ticks and workers are in `SchedulerLocks`; edits between the
 two halves of a tick are in `Schedules`.
 */
module Tick {
  import opened Schedules
  import opened Workers
  import opened Wrappers

  /** Companies are listed in the order of their creation instant and id. */
  datatype Company = Company(id: nat, tenant: nat, deleted: bool)

  datatype Execution = Execution(company: nat, status: Status)

  /** An overlap occurrence names the schedule that was skipped and the company. */
  datatype Occurrence = Occurrence(schedule: nat, company: nat)

  /** What firing appends to; executions and jobs are identified by the position of the execution row. */
  datatype Db = Db(executions: seq<Execution>, occurrences: seq<Occurrence>, jobs: seq<nat>)

  /**
   What a tick cannot decide: the cron library, whether the queue takes a job, whether the
   lookup of a schedule's companies fails, and the database clock at each update.
   */
  datatype World = World(rules: Rules, accepts: nat -> bool, lookupFails: nat -> bool, clock: nat -> int)

  datatype Tally = Tally(created: nat, overlaps: nat, enqueueFailed: nat)

  datatype Summary = Summary(picked: nat, tally: Tally)

  const NOTHING := Tally(0, 0, 0)

  datatype Outcome = Created | Overlapped | EnqueueFailed

  function Counted(t: Tally, o: Outcome): Tally {
    match o
    case Created => t.(created := t.created + 1)
    case Overlapped => t.(overlaps := t.overlaps + 1)
    case EnqueueFailed => t.(enqueueFailed := t.enqueueFailed + 1)
  }

  function Plus(a: Tally, b: Tally): Tally {
    Tally(a.created + b.created, a.overlaps + b.overlaps, a.enqueueFailed + b.enqueueFailed)
  }

  function Total(t: Tally): nat {
    t.created + t.overlaps + t.enqueueFailed
  }

  // ---------------------------------------------------------------------------
  // Picking schedules
  // ---------------------------------------------------------------------------

  /** `ORDER BY next_run_at ASC, id`. */
  predicate Before(schedules: map<nat, Schedule>, a: nat, b: nat)
    requires a in schedules && b in schedules
    requires schedules[a].nextRun.Some? && schedules[b].nextRun.Some?
  {
    var x, y := schedules[a].nextRun.value, schedules[b].nextRun.value;
    x < y || (x == y && a < b)
  }

  ghost predicate AllDue(schedules: map<nat, Schedule>, now: int, due: seq<nat>) {
    forall id :: id in due ==> id in schedules && Due(schedules[id], now)
  }

  ghost predicate Ordered(schedules: map<nat, Schedule>, now: int, due: seq<nat>)
    requires AllDue(schedules, now, due)
  {
    forall i, j :: 0 <= i < j < |due| ==> Before(schedules, due[i], due[j])
  }

  /** The answer of `_select_due_schedules`. */
  ghost predicate IsDueList(schedules: map<nat, Schedule>, now: int, due: seq<nat>) {
    AllDue(schedules, now, due) && Ordered(schedules, now, due) &&
    forall id :: id in schedules && Due(schedules[id], now) ==> id in due
  }

  /** A table has one such answer. */
  lemma {:induction false} DueListIsUnique(schedules: map<nat, Schedule>, now: int, due: seq<nat>, other: seq<nat>)
    requires IsDueList(schedules, now, due) && IsDueList(schedules, now, other)
    ensures due == other
  {
    SameOrder(schedules, now, due, other);
  }

  lemma {:induction false} SameOrder(schedules: map<nat, Schedule>, now: int, due: seq<nat>, other: seq<nat>)
    requires AllDue(schedules, now, due) && AllDue(schedules, now, other)
    requires Ordered(schedules, now, due) && Ordered(schedules, now, other)
    requires forall id :: id in due <==> id in other
    ensures due == other
    decreases |due|
  {
    EmptyOrInhabited(due);
    EmptyOrInhabited(other);
    if due != [] && other != [] {
      assert due[0] in other && other[0] in due;
      assert due[0] == other[0];
      forall id ensures id in due[1..] <==> id in other[1..] {
        assert due == [due[0]] + due[1..] && other == [other[0]] + other[1..];
        assert id in due <==> id == due[0] || id in due[1..];
        assert id in other <==> id == other[0] || id in other[1..];
      }
      SameOrder(schedules, now, due[1..], other[1..]);
    }
  }

  lemma EmptyOrInhabited(ids: seq<nat>)
    ensures ids == [] || exists id :: id in ids
  {
    if ids != [] {
      assert ids[0] in ids;
    }
  }

  lemma OrderedConcat(schedules: map<nat, Schedule>, now: int, a: seq<nat>, b: seq<nat>)
    requires AllDue(schedules, now, a) && Ordered(schedules, now, a)
    requires AllDue(schedules, now, b) && Ordered(schedules, now, b)
    requires forall i, j :: 0 <= i < |a| && 0 <= j < |b| ==> Before(schedules, a[i], b[j])
    ensures AllDue(schedules, now, a + b) && Ordered(schedules, now, a + b)
  {
  }

  lemma OrderedParts(schedules: map<nat, Schedule>, now: int, due: seq<nat>, i: nat)
    requires AllDue(schedules, now, due) && Ordered(schedules, now, due) && i <= |due|
    ensures AllDue(schedules, now, due[..i]) && Ordered(schedules, now, due[..i])
    ensures AllDue(schedules, now, due[i..]) && Ordered(schedules, now, due[i..])
  {
  }

  lemma PlacedInOrder(schedules: map<nat, Schedule>, now: int, due: seq<nat>, i: nat, id: nat)
    requires AllDue(schedules, now, due) && Ordered(schedules, now, due) && i <= |due|
    requires id !in due && id in schedules && Due(schedules[id], now)
    requires forall j :: 0 <= j < i ==> Before(schedules, due[j], id)
    requires i < |due| ==> !Before(schedules, due[i], id)
    ensures AllDue(schedules, now, due[..i] + ([id] + due[i..])) && Ordered(schedules, now, due[..i] + ([id] + due[i..]))
  {
    OrderedParts(schedules, now, due, i);
    forall j | i <= j < |due| ensures Before(schedules, id, due[j]) {
      assert j == i || Before(schedules, due[i], due[j]);
    }
    OrderedConcat(schedules, now, [id], due[i..]);
    forall j, k | 0 <= j < i && i <= k < |due| ensures Before(schedules, due[j], due[k]) {
    }
    OrderedConcat(schedules, now, due[..i], [id] + due[i..]);
  }

  /** Placing a due schedule before the first that comes after it. */
  method Place(schedules: map<nat, Schedule>, now: int, due: seq<nat>, id: nat) returns (due': seq<nat>)
    requires AllDue(schedules, now, due) && Ordered(schedules, now, due)
    requires id !in due && id in schedules && Due(schedules[id], now)
    ensures AllDue(schedules, now, due') && Ordered(schedules, now, due')
    ensures forall other :: other in due' <==> other == id || other in due
  {
    var i := 0;
    while i < |due| && Before(schedules, due[i], id)
      invariant 0 <= i <= |due|
      invariant forall j :: 0 <= j < i ==> Before(schedules, due[j], id)
    {
      i := i + 1;
    }
    PlacedInOrder(schedules, now, due, i, id);
    due' := due[..i] + ([id] + due[i..]);
    assert due == due[..i] + due[i..];
  }

  // ---------------------------------------------------------------------------
  // Firing
  // ---------------------------------------------------------------------------

  /** The live companies of a tenant, in table order. */
  function Alive(companies: seq<Company>, tenant: nat): seq<nat> {
    if companies == [] then []
    else
      var last := companies[|companies| - 1];
      Alive(companies[..|companies| - 1], tenant) + if last.tenant == tenant && !last.deleted then [last.id] else []
  }

  /** `_resolve_target_companies` in the tenant's session. */
  function Targets(companies: seq<Company>, row: Schedule): seq<nat> {
    if row.company.None? then Alive(companies, row.tenant)
    else if row.company.value in Alive(companies, row.tenant) then [row.company.value]
    else []
  }

  /** They are the live companies of the schedule's tenant, all of them or the one it names. */
  lemma TargetsAre(companies: seq<Company>, row: Schedule, c: nat)
    ensures c in Targets(companies, row) <==>
              (row.company.None? || row.company == Some(c)) &&
              exists i :: 0 <= i < |companies| && companies[i].id == c && companies[i].tenant == row.tenant && !companies[i].deleted
  {
    AliveAre(companies, row.tenant, c);
  }

  lemma {:induction false} AliveAre(companies: seq<Company>, tenant: nat, c: nat)
    ensures c in Alive(companies, tenant) <==>
              exists i :: 0 <= i < |companies| && companies[i].id == c && companies[i].tenant == tenant && !companies[i].deleted
  {
    if companies != [] {
      var n := |companies| - 1;
      AliveAre(companies[..n], tenant, c);
      if i :| 0 <= i < n && companies[..n][i].id == c && companies[..n][i].tenant == tenant && !companies[..n][i].deleted {
        assert companies[i] == companies[..n][i];
      }
      if i :| 0 <= i < |companies| && companies[i].id == c && companies[i].tenant == tenant && !companies[i].deleted {
        assert i < n ==> companies[..n][i] == companies[i];
      }
    }
  }

  /** They come in the order of the table, which is the order of the locks. */
  lemma {:induction false} AliveInOrder(companies: seq<Company>, tenant: nat, i: nat, j: nat) returns (a: nat, b: nat)
    requires i < j < |Alive(companies, tenant)|
    ensures a < b < |companies|
    ensures companies[a].id == Alive(companies, tenant)[i] && companies[b].id == Alive(companies, tenant)[j]
  {
    var n := |companies| - 1;
    var earlier := Alive(companies[..n], tenant);
    if j < |earlier| {
      a, b := AliveInOrder(companies[..n], tenant, i, j);
    } else {
      assert earlier[i] in earlier;
      AliveAre(companies[..n], tenant, earlier[i]);
      a, b :| 0 <= a < n && companies[..n][a].id == earlier[i] && b == n;
    }
  }

  /** `_has_inflight_execution`. */
  predicate InFlight(executions: seq<Execution>, company: nat) {
    exists i :: 0 <= i < |executions| && executions[i].company == company && Open(executions[i].status)
  }

  /** One company of one schedule: skipped, created, or created and failed to enqueue. */
  function Fire(db: Db, schedule: nat, company: nat, accepts: nat -> bool): (Db, Outcome) {
    var id := |db.executions|;
    if InFlight(db.executions, company) then
      (db.(occurrences := db.occurrences + [Occurrence(schedule, company)]), Overlapped)
    else if accepts(id) then
      (db.(executions := db.executions + [Execution(company, Queued)], jobs := db.jobs + [id]), Created)
    else
      (db.(executions := db.executions + [Execution(company, Failed)]), EnqueueFailed)
  }

  function FireAll(db: Db, schedule: nat, targets: seq<nat>, accepts: nat -> bool): (Db, Tally) {
    if targets == [] then (db, NOTHING)
    else
      var (before, tally) := FireAll(db, schedule, targets[..|targets| - 1], accepts);
      var (after, outcome) := Fire(before, schedule, targets[|targets| - 1], accepts);
      (after, Counted(tally, outcome))
  }

  /** Whether a picked schedule gets past the cron computation and the lookup. */
  predicate Passes(w: World, row: Schedule, id: nat, now: int) {
    w.rules.nextRun(row.cron, row.zone, now).Some? && !w.lookupFails(id)
  }

  /** What firing one picked schedule does to the tables and to the counts. */
  type Firing = (Db, nat) -> (Db, Tally)

  /** The body of the loop over the picked schedules, with their rows as they were selected. */
  function FireSchedule(w: World, companies: seq<Company>, selected: map<nat, Schedule>, now: int): Firing {
    (db, id) =>
      if id in selected && Passes(w, selected[id], id, now)
      then FireAll(db, id, Targets(companies, selected[id]), w.accepts) else (db, NOTHING)
  }

  /** Firing the picked schedules in turn. */
  function FireDue(fire: Firing, db: Db, due: seq<nat>): (Db, Tally) {
    if due == [] then (db, NOTHING)
    else
      var (before, tally) := FireDue(fire, db, due[..|due| - 1]);
      var (after, one) := fire(before, due[|due| - 1]);
      (after, Plus(tally, one))
  }

  /** What a schedule adds to the counts when it fires after the earlier ones. */
  function TallyAfter(fire: Firing, db: Db, earlier: seq<nat>, id: nat): Tally {
    fire(FireDue(fire, db, earlier).0, id).1
  }

  /** The schedules after the turn of one of them; the update of a missing row does nothing. */
  function MovedRow(w: World, schedules: map<nat, Schedule>, selected: Schedule, id: nat, now: int, t: Tally)
    : map<nat, Schedule>
  {
    if id in schedules && Passes(w, selected, id, now) then
      var next := w.rules.nextRun(selected.cron, selected.zone, now).value;
      schedules[id := Ticked(schedules[id], next, t.created > 0, w.clock(id))]
    else schedules
  }

  /** The schedules after the picked ones had their turns. */
  function Moved(w: World, fire: Firing, db: Db, selected: map<nat, Schedule>, due: seq<nat>, now: int): map<nat, Schedule>
    requires forall id :: id in due ==> id in selected
  {
    if due == [] then selected
    else
      var id, earlier := due[|due| - 1], due[..|due| - 1];
      MovedRow(w, Moved(w, fire, db, selected, earlier, now), selected[id], id, now, TallyAfter(fire, db, earlier, id))
  }

  class Scheduler {
    var companies: seq<Company>
    var schedules: map<nat, Schedule>
    var executions: seq<Execution>
    var occurrences: seq<Occurrence>
    var jobs: seq<nat>

    function Contents(): Db
      reads this
    {
      Db(executions, occurrences, jobs)
    }

    /** `_select_due_schedules`. */
    method SelectDueSchedules(now: int) returns (due: seq<nat>)
      ensures IsDueList(schedules, now, due)
      ensures forall id :: id in due <==>
                id in schedules && schedules[id].enabled && schedules[id].nextRun.Some? && schedules[id].nextRun.value <= now
      ensures forall i, j :: 0 <= i < j < |due| ==>
                var a, b := schedules[due[i]].nextRun.value, schedules[due[j]].nextRun.value;
                a < b || (a == b && due[i] < due[j])
    {
      due := [];
      var rest: set<nat> := set id | id in schedules.Keys && Due(schedules[id], now);
      while rest != {}
        invariant AllDue(schedules, now, due) && Ordered(schedules, now, due)
        invariant forall id :: id in rest ==> id in schedules && Due(schedules[id], now) && id !in due
        invariant forall id :: id in schedules && Due(schedules[id], now) ==> id in rest || id in due
        decreases |rest|
      {
        var id: nat :| id in rest;
        due := Place(schedules, now, due, id);
        rest := rest - {id};
      }
    }

    /** `_has_inflight_execution`. */
    method HasInflightExecution(company: nat) returns (found: bool)
      ensures found == InFlight(executions, company)
    {
      var i := 0;
      while i < |executions|
        invariant 0 <= i <= |executions|
        invariant forall j :: 0 <= j < i ==> executions[j].company != company || !Open(executions[j].status)
      {
        if executions[i].company == company && Open(executions[i].status) {
          return true;
        }
        i := i + 1;
      }
      return false;
    }

    /** The loop of a tick over the companies of one schedule. */
    method FireCompanies(schedule: nat, targets: seq<nat>, accepts: nat -> bool) returns (tally: Tally)
      modifies `executions, `occurrences, `jobs
      ensures (Contents(), tally) == FireAll(old(Contents()), schedule, targets, accepts)
    {
      var created, overlaps, enqueueFailed := 0, 0, 0;
      tally := NOTHING;
      var i := 0;
      while i < |targets|
        invariant 0 <= i <= |targets|
        invariant created >= 0 && overlaps >= 0 && enqueueFailed >= 0
        invariant (Contents(), Tally(created, overlaps, enqueueFailed)) ==
                    FireAll(old(Contents()), schedule, targets[..i], accepts)
      {
        var company := targets[i];
        assert targets[..i + 1][..i] == targets[..i];
        var inflight := HasInflightExecution(company);
        if inflight {
          occurrences := occurrences + [Occurrence(schedule, company)];
          overlaps := overlaps + 1;
        } else {
          var id := |executions|;
          executions := executions + [Execution(company, Queued)];
          if accepts(id) {
            jobs := jobs + [id];
            created := created + 1;
          } else {
            executions := executions[id := Execution(company, Failed)];
            assert executions == executions[..id] + [Execution(company, Failed)];
            enqueueFailed := enqueueFailed + 1;
          }
        }
        i := i + 1;
      }
      assert targets[..i] == targets;
      tally := Tally(created, overlaps, enqueueFailed);
    }

    /** One turn of the loop of a tick: one picked schedule, with the rows as they were selected. */
    method ProcessSchedule(w: World, selected: map<nat, Schedule>, id: nat, now: int) returns (one: Tally)
      requires id in selected
      modifies `schedules, `executions, `occurrences, `jobs
      ensures (Contents(), one) == FireSchedule(w, companies, selected, now)(old(Contents()), id)
      ensures schedules == MovedRow(w, old(schedules), selected[id], id, now, one)
    {
      var row := selected[id];
      var next := w.rules.nextRun(row.cron, row.zone, now);
      if next.None? || w.lookupFails(id) {
        return NOTHING;
      }
      one := FireCompanies(id, Targets(companies, row), w.accepts);
      if id in schedules {
        schedules := schedules[id := Ticked(schedules[id], next.value, one.created > 0, w.clock(id))];
      }
    }

    /** The loop of a tick over the picked schedules. */
    method ProcessDue(w: World, due: seq<nat>, now: int) returns (tally: Tally)
      requires forall id :: id in due ==> id in schedules
      modifies `schedules, `executions, `occurrences, `jobs
      ensures var fire := FireSchedule(w, companies, old(schedules), now);
              (Contents(), tally) == FireDue(fire, old(Contents()), due) &&
              schedules == Moved(w, fire, old(Contents()), old(schedules), due, now)
    {
      var selected := schedules;
      ghost var fire := FireSchedule(w, companies, selected, now);
      tally := NOTHING;
      var i := 0;
      while i < |due|
        invariant 0 <= i <= |due|
        invariant (Contents(), tally) == FireDue(fire, old(Contents()), due[..i])
        invariant schedules == Moved(w, fire, old(Contents()), selected, due[..i], now)
      {
        assert due[..i + 1][..i] == due[..i];
        var one := ProcessSchedule(w, selected, due[i], now);
        tally := Plus(tally, one);
        i := i + 1;
      }
      assert due[..i] == due;
    }

    /** `run_tick`. */
    method RunTick(w: World, now: int) returns (summary: Summary)
      modifies `schedules, `executions, `occurrences, `jobs
      ensures exists due ::
                IsDueList(old(schedules), now, due) && summary.picked == |due| &&
                var fire := FireSchedule(w, companies, old(schedules), now);
                (Contents(), summary.tally) == FireDue(fire, old(Contents()), due) &&
                schedules == Moved(w, fire, old(Contents()), old(schedules), due, now)
    {
      var due := SelectDueSchedules(now);
      if due == [] {
        return Summary(0, NOTHING);
      }
      var tally := ProcessDue(w, due, now);
      return Summary(|due|, tally);
    }
  }

  // ---------------------------------------------------------------------------
  // Accounting
  // ---------------------------------------------------------------------------

  /**
   Between two states: rows, occurrences and jobs were only appended, in the numbers of the
   tally; the new jobs are the new queued rows, in order, and the other new rows failed.
   */
  ghost predicate Grown(db: Db, db': Db, t: Tally) {
    db.executions <= db'.executions && |db'.executions| == |db.executions| + t.created + t.enqueueFailed &&
    db.occurrences <= db'.occurrences && |db'.occurrences| == |db.occurrences| + t.overlaps &&
    db.jobs <= db'.jobs && |db'.jobs| == |db.jobs| + t.created &&
    NewJobs(|db.executions|, db'.executions, db'.jobs[|db.jobs|..])
  }

  ghost predicate NewJobs(from: nat, executions: seq<Execution>, jobs: seq<nat>) {
    (forall i :: 0 <= i < |jobs| ==> from <= jobs[i] < |executions|) &&
    (forall i, j :: 0 <= i < j < |jobs| ==> jobs[i] < jobs[j]) &&
    (forall e :: from <= e < |executions| ==> executions[e].status == if e in jobs then Queued else Failed)
  }

  lemma GrownComposes(a: Db, b: Db, c: Db, t: Tally, u: Tally)
    requires Grown(a, b, t) && Grown(b, c, u)
    ensures Grown(a, c, Plus(t, u))
  {
    var first, second := b.jobs[|a.jobs|..], c.jobs[|b.jobs|..];
    assert c.jobs[|a.jobs|..] == first + second;
    forall e | |a.executions| <= e < |c.executions|
      ensures c.executions[e].status == if e in first + second then Queued else Failed
    {
      if e < |b.executions| {
        assert c.executions[e] == b.executions[e];
      }
    }
  }

  lemma FireGrows(db: Db, schedule: nat, company: nat, accepts: nat -> bool)
    ensures var (db', outcome) := Fire(db, schedule, company, accepts); Grown(db, db', Counted(NOTHING, outcome))
  {
    var (db', outcome) := Fire(db, schedule, company, accepts);
    if outcome.Created? {
      assert db'.jobs[|db.jobs|..] == [|db.executions|];
    }
  }

  /** Every target of a schedule is counted once, in the column that says what became of it. */
  lemma {:induction false} FireAllGrows(db: Db, schedule: nat, targets: seq<nat>, accepts: nat -> bool)
    ensures var (db', t) := FireAll(db, schedule, targets, accepts); Grown(db, db', t) && Total(t) == |targets|
  {
    if targets != [] {
      var last := |targets| - 1;
      var (before, t) := FireAll(db, schedule, targets[..last], accepts);
      FireAllGrows(db, schedule, targets[..last], accepts);
      FireGrows(before, schedule, targets[last], accepts);
      var (after, outcome) := Fire(before, schedule, targets[last], accepts);
      GrownComposes(db, before, after, t, Counted(NOTHING, outcome));
    }
  }

  /** What firing counts is what it appends, and it counts `reach(id)` targets for a schedule. */
  ghost predicate Accounts(fire: Firing, reach: nat -> nat) {
    forall db, id :: Grown(db, fire(db, id).0, fire(db, id).1) && Total(fire(db, id).1) == reach(id)
  }

  function SumOf(reach: nat -> nat, due: seq<nat>): nat {
    if due == [] then 0 else SumOf(reach, due[..|due| - 1]) + reach(due[|due| - 1])
  }

  lemma {:induction false} FireDueAccounts(fire: Firing, reach: nat -> nat, db: Db, due: seq<nat>)
    requires Accounts(fire, reach)
    ensures var (db', t) := FireDue(fire, db, due); Grown(db, db', t) && Total(t) == SumOf(reach, due)
  {
    if due != [] {
      var id, earlier := due[|due| - 1], due[..|due| - 1];
      FireDueAccounts(fire, reach, db, earlier);
      var (before, t) := FireDue(fire, db, earlier);
      var (after, u) := fire(before, id);
      assert Grown(before, after, u);
      GrownComposes(db, before, after, t, u);
    }
  }

  /** How many companies a picked schedule reaches: its targets, or none when it is skipped. */
  function Reach(w: World, companies: seq<Company>, selected: map<nat, Schedule>, now: int): nat -> nat {
    id => if id in selected && Passes(w, selected[id], id, now) then |Targets(companies, selected[id])| else 0
  }

  lemma FireScheduleAccounts(w: World, companies: seq<Company>, selected: map<nat, Schedule>, now: int)
    ensures Accounts(FireSchedule(w, companies, selected, now), Reach(w, companies, selected, now))
  {
    var fire, reach := FireSchedule(w, companies, selected, now), Reach(w, companies, selected, now);
    forall db, id ensures Grown(db, fire(db, id).0, fire(db, id).1) && Total(fire(db, id).1) == reach(id) {
      if id in selected && Passes(w, selected[id], id, now) {
        FireAllGrows(db, id, Targets(companies, selected[id]), w.accepts);
      }
    }
  }

  /**
   In a completed tick `created + overlaps + enqueue_failed` is the number of targets of the
   picked schedules that passed, with as many rows, occurrences and jobs.
   */
  lemma TickAccounts(w: World, companies: seq<Company>, db: Db, selected: map<nat, Schedule>, due: seq<nat>, now: int)
    ensures var (db', t) := FireDue(FireSchedule(w, companies, selected, now), db, due);
            Grown(db, db', t) && Total(t) == SumOf(Reach(w, companies, selected, now), due)
  {
    FireScheduleAccounts(w, companies, selected, now);
    FireDueAccounts(FireSchedule(w, companies, selected, now), Reach(w, companies, selected, now), db, due);
  }

  function CompaniesOf(executions: seq<Execution>): multiset<nat> {
    if executions == [] then multiset{}
    else CompaniesOf(executions[..|executions| - 1]) + multiset{executions[|executions| - 1].company}
  }

  function Skipped(occurrences: seq<Occurrence>): multiset<nat> {
    if occurrences == [] then multiset{}
    else Skipped(occurrences[..|occurrences| - 1]) + multiset{occurrences[|occurrences| - 1].company}
  }

  /** The companies the tables have answered for, by an execution or an occurrence. */
  function Answered(db: Db): multiset<nat> {
    CompaniesOf(db.executions) + Skipped(db.occurrences)
  }

  lemma FireAnswers(db: Db, schedule: nat, company: nat, accepts: nat -> bool)
    ensures Answered(Fire(db, schedule, company, accepts).0) == Answered(db) + multiset{company}
  {
    var db' := Fire(db, schedule, company, accepts).0;
    if InFlight(db.executions, company) {
      assert db'.occurrences[..|db.occurrences|] == db.occurrences;
    } else {
      assert db'.executions[..|db.executions|] == db.executions;
    }
  }

  lemma AddLast(m: multiset<nat>, targets: seq<nat>)
    requires targets != []
    ensures m + multiset(targets) == m + multiset(targets[..|targets| - 1]) + multiset{targets[|targets| - 1]}
  {
    assert targets == targets[..|targets| - 1] + [targets[|targets| - 1]];
  }

  /** Company by company: each target gets exactly one new execution or one new occurrence. */
  lemma {:induction false} EachTargetOnce(db: Db, schedule: nat, targets: seq<nat>, accepts: nat -> bool)
    ensures Answered(FireAll(db, schedule, targets, accepts).0) == Answered(db) + multiset(targets)
  {
    if targets != [] {
      var earlier, last := targets[..|targets| - 1], targets[|targets| - 1];
      EachTargetOnce(db, schedule, earlier, accepts);
      var before := FireAll(db, schedule, earlier, accepts).0;
      FireAnswers(before, schedule, last, accepts);
      assert FireAll(db, schedule, targets, accepts).0 == Fire(before, schedule, last, accepts).0;
      AddLast(Answered(db), targets);
    }
  }

  /** Some row of the second table that the first one lacks is of this company. */
  predicate Opened(before: seq<Execution>, after: seq<Execution>, c: nat) {
    exists e :: |before| <= e < |after| && after[e].company == c
  }

  lemma FireOpens(db: Db, schedule: nat, company: nat, accepts: nat -> bool, c: nat)
    ensures var db' := Fire(db, schedule, company, accepts).0;
            db.executions <= db'.executions &&
            (Opened(db.executions, db'.executions, c) <==> c == company && !InFlight(db.executions, company))
  {
    var db' := Fire(db, schedule, company, accepts).0;
    if !InFlight(db.executions, company) {
      assert db'.executions[|db.executions|].company == company;
    }
  }

  /** Whatever was opened in two steps was opened in one of them. */
  lemma OpenedInSteps(a: seq<Execution>, b: seq<Execution>, c: seq<Execution>, company: nat)
    requires a <= b <= c
    ensures Opened(a, c, company) <==> Opened(a, b, company) || Opened(b, c, company)
    ensures InFlight(a, company) ==> InFlight(b, company)
    ensures InFlight(b, company) ==> InFlight(a, company) || Opened(a, b, company)
  {
    if e :| |a| <= e < |b| && b[e].company == company {
      assert c[e] == b[e];
    }
    if e :| |a| <= e < |c| && c[e].company == company {
      assert e < |b| ==> b[e] == c[e];
    }
    if i :| 0 <= i < |a| && a[i].company == company && Open(a[i].status) {
      assert b[i] == a[i];
    }
    if i :| 0 <= i < |b| && b[i].company == company && Open(b[i].status) {
      assert i < |a| ==> a[i] == b[i];
    }
  }

  /** A schedule opens an execution, or one that failed to enqueue, exactly for its companies without one in flight. */
  lemma {:induction false} FireAllOpens(db: Db, schedule: nat, targets: seq<nat>, accepts: nat -> bool, c: nat)
    ensures var db' := FireAll(db, schedule, targets, accepts).0;
            db.executions <= db'.executions &&
            (Opened(db.executions, db'.executions, c) <==> c in targets && !InFlight(db.executions, c))
  {
    if targets != [] {
      var n := |targets| - 1;
      var before := FireAll(db, schedule, targets[..n], accepts).0;
      var after := Fire(before, schedule, targets[n], accepts).0;
      FireAllOpens(db, schedule, targets[..n], accepts, c);
      FireOpens(before, schedule, targets[n], accepts, c);
      OpenedInSteps(db.executions, before.executions, after.executions, c);
      assert targets == targets[..n] + [targets[n]];
    }
  }

  /** What firing opens: new rows exactly for the companies it reaches that have nothing in flight. */
  ghost predicate OpensFor(fire: Firing, reaches: (nat, nat) -> bool, c: nat) {
    forall db: Db, id: nat ::
      db.executions <= fire(db, id).0.executions &&
      (Opened(db.executions, fire(db, id).0.executions, c) <==> reaches(id, c) && !InFlight(db.executions, c))
  }

  lemma {:induction false} FireDueOpens(fire: Firing, reaches: (nat, nat) -> bool, db: Db, due: seq<nat>, c: nat)
    requires OpensFor(fire, reaches, c)
    ensures var db' := FireDue(fire, db, due).0;
            db.executions <= db'.executions &&
            (Opened(db.executions, db'.executions, c) <==>
              (exists id :: id in due && reaches(id, c)) && !InFlight(db.executions, c))
  {
    if due != [] {
      var n := |due| - 1;
      FireDueOpens(fire, reaches, db, due[..n], c);
      var before := FireDue(fire, db, due[..n]).0;
      var after := fire(before, due[n]).0;
      OpenedInSteps(db.executions, before.executions, after.executions, c);
      assert due == due[..n] + [due[n]];
    }
  }

  /**
   A tick opens an execution, or one that failed to enqueue, for exactly the companies that had
   nothing in flight and are live companies of a due schedule whose next run can be computed
   and whose companies can be read.
   */
  lemma TickOpensIff(
      w: World, companies: seq<Company>, db: Db, selected: map<nat, Schedule>, due: seq<nat>, now: int, c: nat)
    ensures var db' := FireDue(FireSchedule(w, companies, selected, now), db, due).0;
            Opened(db.executions, db'.executions, c) <==>
              !InFlight(db.executions, c) &&
              exists id :: id in due && id in selected &&
                w.rules.nextRun(selected[id].cron, selected[id].zone, now).Some? && !w.lookupFails(id) &&
                c in Targets(companies, selected[id])
  {
    var fire := FireSchedule(w, companies, selected, now);
    var reaches := (id: nat, c: nat) =>
      id in selected && Passes(w, selected[id], id, now) && c in Targets(companies, selected[id]);
    forall db: Db, id: nat
      ensures db.executions <= fire(db, id).0.executions &&
              (Opened(db.executions, fire(db, id).0.executions, c) <==> reaches(id, c) && !InFlight(db.executions, c))
    {
      if id in selected && Passes(w, selected[id], id, now) {
        FireAllOpens(db, id, Targets(companies, selected[id]), w.accepts, c);
      }
    }
    FireDueOpens(fire, reaches, db, due, c);
    forall id | id in due && reaches(id, c)
      ensures id in selected && w.rules.nextRun(selected[id].cron, selected[id].zone, now).Some? && !w.lookupFails(id)
    {
    }
    if id :| id in due && id in selected &&
             w.rules.nextRun(selected[id].cron, selected[id].zone, now).Some? && !w.lookupFails(id) &&
             c in Targets(companies, selected[id])
    {
      assert reaches(id, c);
    }
  }

  /** The occurrences of a schedule name it, and each a company with an execution in flight at its turn. */
  lemma {:induction false} OccurrencesAreOverlaps(db: Db, schedule: nat, targets: seq<nat>, accepts: nat -> bool, o: nat)
    requires var db' := FireAll(db, schedule, targets, accepts).0; |db.occurrences| <= o < |db'.occurrences|
    ensures var db' := FireAll(db, schedule, targets, accepts).0;
            db'.occurrences[o].schedule == schedule && db'.occurrences[o].company in targets &&
            InFlight(db'.executions, db'.occurrences[o].company)
  {
    var n := |targets| - 1;
    var before := FireAll(db, schedule, targets[..n], accepts).0;
    var after := Fire(before, schedule, targets[n], accepts).0;
    FireOpens(before, schedule, targets[n], accepts, 0);
    assert targets == targets[..n] + [targets[n]];
    if o < |before.occurrences| {
      OccurrencesAreOverlaps(db, schedule, targets[..n], accepts, o);
      OpenedInSteps(before.executions, before.executions, after.executions, before.occurrences[o].company);
      OpenedInSteps(before.executions, after.executions, after.executions, before.occurrences[o].company);
    }
  }

  /** No company has two executions queued or running. */
  ghost predicate OneOpen(executions: seq<Execution>) {
    forall i, j :: 0 <= i < j < |executions| && Open(executions[i].status) && Open(executions[j].status) ==>
      executions[i].company != executions[j].company
  }

  lemma {:induction false} FireAllKeepsOneOpen(db: Db, schedule: nat, targets: seq<nat>, accepts: nat -> bool)
    requires OneOpen(db.executions)
    ensures OneOpen(FireAll(db, schedule, targets, accepts).0.executions)
  {
    if targets != [] {
      FireAllKeepsOneOpen(db, schedule, targets[..|targets| - 1], accepts);
    }
  }

  ghost predicate KeepsOneOpen(fire: Firing) {
    forall db: Db, id: nat :: OneOpen(db.executions) ==> OneOpen(fire(db, id).0.executions)
  }

  lemma {:induction false} FireDueKeepsOneOpen(fire: Firing, db: Db, due: seq<nat>)
    requires KeepsOneOpen(fire) && OneOpen(db.executions)
    ensures OneOpen(FireDue(fire, db, due).0.executions)
  {
    if due != [] {
      FireDueKeepsOneOpen(fire, db, due[..|due| - 1]);
    }
  }

  /** A tick never opens a second execution for a company, even for two schedules of one company. */
  lemma TickKeepsOneOpen(w: World, companies: seq<Company>, db: Db, selected: map<nat, Schedule>, due: seq<nat>, now: int)
    requires OneOpen(db.executions)
    ensures OneOpen(FireDue(FireSchedule(w, companies, selected, now), db, due).0.executions)
  {
    var fire := FireSchedule(w, companies, selected, now);
    forall db: Db, id: nat | OneOpen(db.executions) ensures OneOpen(fire(db, id).0.executions) {
      if id in selected && Passes(w, selected[id], id, now) {
        FireAllKeepsOneOpen(db, id, Targets(companies, selected[id]), w.accepts);
      }
    }
    FireDueKeepsOneOpen(fire, db, due);
  }

  // ---------------------------------------------------------------------------
  // Progress
  // ---------------------------------------------------------------------------

  lemma NotPickedBefore(selected: map<nat, Schedule>, now: int, due: seq<nat>, n: nat)
    requires IsDueList(selected, now, due) && n < |due|
    ensures due[n] !in due[..n] && due[n] in selected
  {
  }

  /** Rows whose turn has not come are as they were selected. */
  lemma {:induction false} RowsNotReached(
      w: World, fire: Firing, db: Db, selected: map<nat, Schedule>, due: seq<nat>, now: int, n: nat)
    requires n <= |due| && forall id :: id in due ==> id in selected
    ensures var moved := Moved(w, fire, db, selected, due[..n], now);
            moved.Keys == selected.Keys &&
            forall id :: id in selected && id !in due[..n] ==> moved[id] == selected[id]
  {
    if n > 0 {
      RowsNotReached(w, fire, db, selected, due, now, n - 1);
      assert due[..n] == due[..n - 1] + [due[n - 1]] && due[..n][..n - 1] == due[..n - 1];
    }
  }

  /** A picked row is moved in its turn. */
  lemma RowInItsTurn(w: World, fire: Firing, db: Db, selected: map<nat, Schedule>, due: seq<nat>, now: int, i: nat)
    requires IsDueList(selected, now, due) && i < |due|
    ensures var moved := Moved(w, fire, db, selected, due[..i + 1], now);
            due[i] in moved &&
            moved[due[i]] == RowAfter(w, selected[due[i]], due[i], now, TallyAfter(fire, db, due[..i], due[i]))
  {
    RowsNotReached(w, fire, db, selected, due, now, i);
    NotPickedBefore(selected, now, due, i);
    assert due[..i + 1][..i] == due[..i] && due[..i + 1][i] == due[i];
  }

  /** Later turns leave it alone. */
  lemma {:induction false} RowStays(
      w: World, fire: Firing, db: Db, selected: map<nat, Schedule>, due: seq<nat>, now: int,
      id: nat, from: nat, n: nat, row: Schedule)
    requires from <= n <= |due| && (forall k :: k in due ==> k in selected)
    requires forall j :: from <= j < |due| ==> due[j] != id
    requires var moved := Moved(w, fire, db, selected, due[..from], now); id in moved && moved[id] == row
    ensures var moved := Moved(w, fire, db, selected, due[..n], now); id in moved && moved[id] == row
  {
    if n > from {
      RowStays(w, fire, db, selected, due, now, id, from, n - 1, row);
      OtherRow(w, fire, db, selected, due, now, n, id);
    }
  }

  lemma DifferentIds(selected: map<nat, Schedule>, now: int, due: seq<nat>, i: nat, j: nat)
    requires IsDueList(selected, now, due) && i < j < |due|
    ensures due[i] != due[j]
  {
    assert Before(selected, due[i], due[j]);
  }

  lemma OtherRow(
      w: World, fire: Firing, db: Db, selected: map<nat, Schedule>, due: seq<nat>, now: int, n: nat, id: nat)
    requires 0 < n <= |due| && (forall k :: k in due ==> k in selected) && id != due[n - 1]
    requires id in Moved(w, fire, db, selected, due[..n - 1], now)
    ensures id in Moved(w, fire, db, selected, due[..n], now)
    ensures Moved(w, fire, db, selected, due[..n], now)[id] == Moved(w, fire, db, selected, due[..n - 1], now)[id]
  {
    assert due[..n][..n - 1] == due[..n - 1] && due[..n][n - 1] == due[n - 1];
  }

  /** The row of a picked schedule after the tick. */
  function RowAfter(w: World, row: Schedule, id: nat, now: int, t: Tally): Schedule {
    if Passes(w, row, id, now) then
      Ticked(row, w.rules.nextRun(row.cron, row.zone, now).value, t.created > 0, w.clock(id))
    else row
  }

  /** What becomes of the rows: those picked are moved in their turn, the others stay. */
  lemma RowsAfterTick(w: World, fire: Firing, db: Db, selected: map<nat, Schedule>, due: seq<nat>, now: int)
    requires IsDueList(selected, now, due)
    ensures var moved := Moved(w, fire, db, selected, due, now);
            moved.Keys == selected.Keys &&
            (forall id :: id in selected && id !in due ==> moved[id] == selected[id]) &&
            (forall i :: 0 <= i < |due| ==>
              moved[due[i]] == RowAfter(w, selected[due[i]], due[i], now, TallyAfter(fire, db, due[..i], due[i])))
  {
    assert due[..|due|] == due;
    RowsNotReached(w, fire, db, selected, due, now, |due|);
    forall i | 0 <= i < |due|
      ensures Moved(w, fire, db, selected, due, now)[due[i]] ==
              RowAfter(w, selected[due[i]], due[i], now, TallyAfter(fire, db, due[..i], due[i]))
    {
      RowInItsTurn(w, fire, db, selected, due, now, i);
      forall j | i < j < |due| ensures due[j] != due[i] {
        DifferentIds(selected, now, due, i, j);
      }
      RowStays(w, fire, db, selected, due, now, due[i], i + 1, |due|,
               RowAfter(w, selected[due[i]], due[i], now, TallyAfter(fire, db, due[..i], due[i])));
    }
  }

  /** A row that a tick leaves with this next run and this last run, and otherwise as it was. */
  predicate MovedTo(row: Schedule, row': Schedule, nextRun: Option<int>, lastRun: Option<int>) {
    row'.tenant == row.tenant && row'.company == row.company && row'.cron == row.cron && row'.zone == row.zone &&
    row'.enabled == row.enabled && row'.nextRun == nextRun && row'.lastRun == lastRun
  }

  /**
   A tick moves the rows it picked whose next run can be computed and whose companies can be
   read, and no others: `next_run_at` to the next run of the selected row, `last_run_at` to the
   clock exactly when the schedule created an execution.
   */
  lemma LastRunMovesIffCreated(
      w: World, fire: Firing, db: Db, selected: map<nat, Schedule>, due: seq<nat>, now: int, i: nat)
    requires IsDueList(selected, now, due) && i < |due|
    ensures var moved := Moved(w, fire, db, selected, due, now);
            moved.Keys == selected.Keys && (forall id :: id in selected && id !in due ==> moved[id] == selected[id]) &&
            var row := selected[due[i]];
            var next := w.rules.nextRun(row.cron, row.zone, now);
            var created := TallyAfter(fire, db, due[..i], due[i]).created > 0;
            if next.None? || w.lookupFails(due[i]) then moved[due[i]] == row
            else MovedTo(row, moved[due[i]], next, if created then Some(w.clock(due[i])) else row.lastRun)
  {
    RowsAfterTick(w, fire, db, selected, due, now);
  }

  /**
   When every next run lies after its base, the schedules due again at the same instant are
   exactly those the tick skipped.
   */
  lemma OnlySkippedStayDue(w: World, fire: Firing, db: Db, selected: map<nat, Schedule>, due: seq<nat>, now: int, id: nat)
    requires Forward(w.rules) && IsDueList(selected, now, due) && id in selected
    ensures var moved := Moved(w, fire, db, selected, due, now);
            id in moved &&
            (Due(moved[id], now) <==> Due(selected[id], now) && !Passes(w, selected[id], id, now))
  {
    RowsAfterTick(w, fire, db, selected, due, now);
    if id in due {
      var i :| 0 <= i < |due| && due[i] == id;
    }
  }

  /** A second tick at the same instant, when nothing was skipped, picks nothing. */
  lemma SecondTickIsIdle(
      w: World, fire: Firing, db: Db, selected: map<nat, Schedule>, due: seq<nat>, now: int, again: seq<nat>)
    requires Forward(w.rules) && IsDueList(selected, now, due)
    requires forall id :: id in due ==> Passes(w, selected[id], id, now)
    requires IsDueList(Moved(w, fire, db, selected, due, now), now, again)
    ensures again == []
  {
    RowsAfterTick(w, fire, db, selected, due, now);
    forall id ensures id !in again {
      if id in selected {
        OnlySkippedStayDue(w, fire, db, selected, due, now, id);
      }
    }
    EmptyOrInhabited(again);
  }
}
