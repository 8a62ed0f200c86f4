/**
 Any number of scheduler processes, workers and API calls over one database
 (`scheduler.run_tick` against `jobs.run_execution` and `POST /executions`).

 A scheduler transaction takes its statements one at a time: lock a company, look for an
 open execution, insert, enqueue, ..., lock the schedule row, commit.  Statements see what
 is committed when they start plus the writes of their own transaction (READ COMMITTED);
 locks are held to the end of the transaction; jobs enter the queue at once, before commit.
 */
module SchedulerLocks {
  import opened Workers
  import opened Wrappers

  /** A company, by the columns its targets are ordered by. */
  datatype Company = Company(createdAt: int, id: nat)

  predicate Before(a: Company, b: Company) {
    a.createdAt < b.createdAt || (a.createdAt == b.createdAt && a.id < b.id)
  }

  /** Executions inserted by a tick, or by the API, which checks no company slot. */
  datatype Origin = Tick | Api

  datatype Execution = Execution(company: Company, status: Status, origin: Origin)

  /** The advisory lock of a company and the row lock of a schedule. */
  datatype Resource = Slot(company: Company) | ScheduleRow(id: nat)

  datatype Pc =
    | AtLock                // wants the slot of targets[pos], or the schedule row after the last one
    | Locked                // holds the slot of targets[pos]
    | Checked(busy: bool)   // has looked for an open execution
    | Inserted(exec: nat)   // has inserted one, not enqueued yet
    | AtCommit              // holds the schedule row

  datatype Txn = Txn(schedule: nat, targets: seq<Company>, pos: nat, pc: Pc, writes: map<nat, Execution>)

  datatype State = State(
    committed: map<nat, Execution>,
    txns: map<nat, Txn>,
    locks: map<Resource, nat>,
    used: set<nat>,
    jobs: seq<nat>,
    taken: set<nat>,
    workers: map<nat, Work>)

  datatype Event =
    | Begin(p: nat, schedule: nat, targets: seq<Company>)
    | Lock(p: nat)
    | Check(p: nat)
    | Skip(p: nat)
    | Insert(p: nat, id: nat)
    | Enqueue(p: nat, ok: bool)
    | Commit(p: nat)
    | Abort(p: nat)
    | Pick(w: nat, job: nat)
    | MarkRunning(w: nat)
    | Finish(w: nat, final: Status)
    | WorkerCrash(w: nat)
    | ApiInsert(id: nat, company: Company, enqueued: bool)

  function Initial(): State { State(map[], map[], map[], {}, [], {}, map[]) }

  /** The targets of one tick transaction come out of one query ordered by (created_at, id). */
  predicate Sorted(targets: seq<Company>) {
    forall i, j :: 0 <= i < j < |targets| ==> Before(targets[i], targets[j])
  }

  /** The lock a transaction asks for next. */
  function Wanted(t: Txn): Resource {
    if t.pos < |t.targets| then Slot(t.targets[t.pos]) else ScheduleRow(t.schedule)
  }

  predicate InFlightIn(m: map<nat, Execution>, c: Company) {
    exists e :: e in m && m[e].company == c && Open(m[e].status)
  }

  /** `_has_inflight_execution`: committed rows and the transaction's own. */
  predicate SeesInFlight(s: State, t: Txn, c: Company) {
    InFlightIn(s.committed, c) || InFlightIn(t.writes, c)
  }

  function Put(s: State, p: nat, t: Txn): State { s.(txns := s.txns[p := t]) }

  function Release(s: State, p: nat): State {
    s.(txns := s.txns - {p}, locks := map r | r in s.locks && s.locks[r] != p :: s.locks[r])
  }

  function DoBegin(s: State, p: nat, schedule: nat, targets: seq<Company>): State {
    if p !in s.txns && Sorted(targets) then Put(s, p, Txn(schedule, targets, 0, AtLock, map[])) else s
  }

  /** Granted when nobody else holds the lock; otherwise the transaction keeps waiting. */
  function DoLock(s: State, p: nat): State {
    if p in s.txns && s.txns[p].pc == AtLock && s.txns[p].pos <= |s.txns[p].targets| then
      var t := s.txns[p];
      var r := Wanted(t);
      if r in s.locks && s.locks[r] != p then s
      else Put(s.(locks := s.locks[r := p]), p, t.(pc := if t.pos < |t.targets| then Locked else AtCommit))
    else s
  }

  function DoCheck(s: State, p: nat): State {
    if p in s.txns && s.txns[p].pc == Locked && s.txns[p].pos < |s.txns[p].targets| then
      var t := s.txns[p];
      Put(s, p, t.(pc := Checked(SeesInFlight(s, t, t.targets[t.pos]))))
    else s
  }

  /** The overlap arm: an occurrence is written and the company is left. */
  function DoSkip(s: State, p: nat): State {
    if p in s.txns && s.txns[p].pc == Checked(true) then
      Put(s, p, s.txns[p].(pc := AtLock, pos := s.txns[p].pos + 1))
    else s
  }

  function DoInsert(s: State, p: nat, id: nat): State {
    if p in s.txns && s.txns[p].pc == Checked(false) && s.txns[p].pos < |s.txns[p].targets| && id !in s.used then
      var t := s.txns[p];
      var e := Execution(t.targets[t.pos], Queued, Tick);
      Put(s.(used := s.used + {id}), p, t.(pc := Inserted(id), writes := t.writes[id := e]))
    else s
  }

  /** The job enters the queue at once; a failure marks the row failed. */
  function DoEnqueue(s: State, p: nat, ok: bool): State {
    if p in s.txns && s.txns[p].pc.Inserted? && s.txns[p].pc.exec in s.txns[p].writes then
      var t := s.txns[p];
      var id := t.pc.exec;
      var t' := t.(pc := AtLock, pos := t.pos + 1);
      if ok then Put(s.(jobs := s.jobs + [id]), p, t')
      else Put(s, p, t'.(writes := t.writes[id := t.writes[id].(status := Failed)]))
    else s
  }

  function DoCommit(s: State, p: nat): State {
    if p in s.txns && s.txns[p].pc == AtCommit then
      Release(s.(committed := s.committed + s.txns[p].writes), p)
    else s
  }

  function DoAbort(s: State, p: nat): State {
    if p in s.txns then Release(s, p) else s
  }

  /** Each job is picked at most once; a job whose row is not visible is dropped. */
  function DoPick(s: State, w: nat, job: nat): State {
    if w !in s.workers && job < |s.jobs| && job !in s.taken then
      var s' := s.(taken := s.taken + {job});
      if s.jobs[job] in s.committed then s'.(workers := s.workers[w := Work(job, false)]) else s'
    else s
  }

  predicate HasRow(s: State, w: nat) {
    w in s.workers && s.workers[w].job < |s.jobs| && s.jobs[s.workers[w].job] in s.committed
  }

  function SetStatus(s: State, id: nat, st: Status): State
    requires id in s.committed
  {
    s.(committed := s.committed[id := s.committed[id].(status := st)])
  }

  /** `_mark_running` is unconditional. */
  function DoMarkRunning(s: State, w: nat): State {
    if HasRow(s, w) && !s.workers[w].marked then
      SetStatus(s, s.jobs[s.workers[w].job], Running).(workers := s.workers[w := s.workers[w].(marked := true)])
    else s
  }

  function DoFinish(s: State, w: nat, final: Status): State {
    if HasRow(s, w) && s.workers[w].marked && !Open(final) then
      SetStatus(s, s.jobs[s.workers[w].job], final).(workers := s.workers - {w})
    else s
  }

  function DoWorkerCrash(s: State, w: nat): State { s.(workers := s.workers - {w}) }

  /** `POST /executions` as one step: it does not look at the company's slot. */
  function DoApiInsert(s: State, id: nat, c: Company, enqueued: bool): State {
    if id !in s.used then
      s.(used := s.used + {id},
         committed := s.committed[id := Execution(c, if enqueued then Queued else Failed, Api)],
         jobs := if enqueued then s.jobs + [id] else s.jobs)
    else s
  }

  function Next(s: State, ev: Event): State {
    match ev
    case Begin(p, schedule, targets) => DoBegin(s, p, schedule, targets)
    case Lock(p) => DoLock(s, p)
    case Check(p) => DoCheck(s, p)
    case Skip(p) => DoSkip(s, p)
    case Insert(p, id) => DoInsert(s, p, id)
    case Enqueue(p, ok) => DoEnqueue(s, p, ok)
    case Commit(p) => DoCommit(s, p)
    case Abort(p) => DoAbort(s, p)
    case Pick(w, job) => DoPick(s, w, job)
    case MarkRunning(w) => DoMarkRunning(s, w)
    case Finish(w, final) => DoFinish(s, w, final)
    case WorkerCrash(w) => DoWorkerCrash(s, w)
    case ApiInsert(id, c, enqueued) => DoApiInsert(s, id, c, enqueued)
  }

  function Reach(events: seq<Event>): State {
    if events == [] then Initial()
    else Next(Reach(events[..|events| - 1]), events[|events| - 1])
  }

  // ---------------------------------------------------------------------------
  // Invariants
  // ---------------------------------------------------------------------------

  /** Whether execution `e` is in flight for `c`, counting rows nobody has committed yet. */
  ghost predicate InFlight(s: State, e: nat, c: Company) {
    (e in s.committed && s.committed[e].company == c && Open(s.committed[e].status)) ||
    (exists p :: p in s.txns && e in s.txns[p].writes && s.txns[p].writes[e].company == c &&
                 Open(s.txns[p].writes[e].status))
  }

  predicate TickOpen(x: Execution) { Open(x.status) && x.origin == Tick }

  /** A lock is held by a live transaction that passed it. */
  ghost predicate LocksInv(txns: map<nat, Txn>, locks: map<Resource, nat>) {
    (forall r :: r in locks ==> locks[r] in txns && Passed(txns[locks[r]], r)) &&
    (forall p :: p in txns ==> TxnLocks(txns[p], p, locks))
  }

  /** The locks a transaction can hold lie before the one it wants, but for a slot it is working on. */
  predicate Passed(t: Txn, r: Resource) {
    match r
    case Slot(c) =>
      t.pos < |t.targets| ==> Before(c, t.targets[t.pos]) || (c == t.targets[t.pos] && t.pc != AtLock)
    case ScheduleRow(id) => t.pos == |t.targets| && t.pc == AtCommit && id == t.schedule
  }

  ghost predicate TxnLocks(t: Txn, p: nat, locks: map<Resource, nat>) {
    Sorted(t.targets) && t.pos <= |t.targets| &&
    (t.pos == |t.targets| ==> t.pc in {AtLock, AtCommit}) && (t.pc == AtCommit ==> t.pos == |t.targets|) &&
    (t.pos < |t.targets| && t.pc != AtLock ==> Holds(locks, p, t.targets[t.pos])) &&
    (forall e :: e in t.writes ==> Holds(locks, p, t.writes[e].company) && t.writes[e].origin == Tick)
  }

  predicate Holds(locks: map<Resource, nat>, p: nat, c: Company) {
    Slot(c) in locks && locks[Slot(c)] == p
  }

  /** Ids are fresh once, and a row lives in one place. */
  ghost predicate IdsInv(committed: map<nat, Execution>, txns: map<nat, Txn>, used: set<nat>) {
    committed.Keys <= used &&
    (forall p :: p in txns ==> txns[p].writes.Keys <= used && txns[p].writes.Keys !! committed.Keys) &&
    (forall p, q :: p in txns && q in txns && p != q ==> txns[p].writes.Keys !! txns[q].writes.Keys)
  }

  /** Jobs name distinct known rows. */
  ghost predicate QueueInv(jobs: seq<nat>, used: set<nat>) {
    (forall j :: 0 <= j < |jobs| ==> jobs[j] in used) && DistinctJobs(jobs)
  }

  /** The row a transaction is about to enqueue is queued and has no job; its enqueued rows stay queued. */
  ghost predicate InsertedInv(txns: map<nat, Txn>, jobs: seq<nat>) {
    (forall p :: p in txns && txns[p].pc.Inserted? ==>
       txns[p].pc.exec !in jobs && txns[p].pc.exec in txns[p].writes &&
       txns[p].writes[txns[p].pc.exec].status == Queued) &&
    (forall p, e :: p in txns && e in txns[p].writes && e in jobs ==> txns[p].writes[e].status == Queued)
  }

  /** A worker owns the row of its job, and a row whose job nobody picked is still queued. */
  ghost predicate WorkersInv(workers: map<nat, Work>, jobs: seq<nat>, taken: set<nat>, committed: map<nat, Execution>) {
    Picked(workers, jobs, taken) &&
    (forall w :: w in workers ==>
       jobs[workers[w].job] in committed &&
       committed[jobs[workers[w].job]].status == if workers[w].marked then Running else Queued) &&
    (forall j :: 0 <= j < |jobs| && j !in taken && jobs[j] in committed ==> committed[jobs[j]].status == Queued)
  }

  /** No two open tick rows of the two tables are of one company. */
  predicate OneOpen(m: map<nat, Execution>, m': map<nat, Execution>) {
    forall a, b :: a in m && b in m' && TickOpen(m[a]) && TickOpen(m'[b]) && m[a].company == m'[b].company ==> a == b
  }

  predicate FreeOf(m: map<nat, Execution>, c: Company) {
    forall e :: e in m && TickOpen(m[e]) ==> m[e].company != c
  }

  ghost predicate TxnSlots(committed: map<nat, Execution>, t: Txn) {
    OneOpen(committed, t.writes) && OneOpen(t.writes, t.writes) &&
    (t.pc == Checked(false) && t.pos < |t.targets| ==>
       FreeOf(committed, t.targets[t.pos]) && FreeOf(t.writes, t.targets[t.pos]))
  }

  /** At most one open row of a tick per company among the committed rows and each transaction's own. */
  ghost predicate SlotsInv(committed: map<nat, Execution>, txns: map<nat, Txn>) {
    OneOpen(committed, committed) && forall p :: p in txns ==> TxnSlots(committed, txns[p])
  }

  ghost predicate Inv(s: State) {
    LocksInv(s.txns, s.locks) && IdsInv(s.committed, s.txns, s.used) && QueueInv(s.jobs, s.used) &&
    InsertedInv(s.txns, s.jobs) && WorkersInv(s.workers, s.jobs, s.taken, s.committed) &&
    SlotsInv(s.committed, s.txns)
  }

  // ---------------------------------------------------------------------------
  // Every event keeps the invariants
  // ---------------------------------------------------------------------------

  /** One transaction moves on, taking at most one lock that was free. */
  lemma LocksMove(txns: map<nat, Txn>, locks: map<Resource, nat>, p: nat, t: Txn, locks': map<Resource, nat>)
    requires LocksInv(txns, locks)
    requires forall r :: r in locks' && locks'[r] != p ==> r in locks && locks[r] == locks'[r]
    requires forall r :: r in locks && locks[r] != p ==> r in locks' && locks'[r] == locks[r]
    requires forall r :: r in locks' && locks'[r] == p ==> Passed(t, r)
    requires TxnLocks(t, p, locks')
    ensures LocksInv(txns[p := t], locks')
  {
    forall q | q in txns && q != p ensures TxnLocks(txns[q], q, locks') {
      assert TxnLocks(txns[q], q, locks);
    }
  }

  /** One transaction moves on; its own rows stay its own. */
  lemma IdsMove(committed: map<nat, Execution>, txns: map<nat, Txn>, used: set<nat>, p: nat, t: Txn, used': set<nat>)
    requires IdsInv(committed, txns, used) && used <= used'
    requires forall e :: e in t.writes ==> (p in txns && e in txns[p].writes) || (e in used' && e !in used)
    ensures IdsInv(committed, txns[p := t], used')
  {
    forall q | q in txns && q != p ensures t.writes.Keys !! txns[q].writes.Keys {
      assert txns[q].writes.Keys <= used;
      assert p in txns ==> txns[p].writes.Keys !! txns[q].writes.Keys;
    }
  }

  lemma SlotsMove(committed: map<nat, Execution>, txns: map<nat, Txn>, p: nat, t: Txn)
    requires SlotsInv(committed, txns) && TxnSlots(committed, t)
    ensures SlotsInv(committed, txns[p := t])
  {
  }

  lemma IdsEnd(committed: map<nat, Execution>, txns: map<nat, Txn>, used: set<nat>, p: nat)
    requires IdsInv(committed, txns, used) && p in txns
    ensures IdsInv(committed + txns[p].writes, txns - {p}, used)
    ensures IdsInv(committed, txns - {p}, used)
  {
    forall q | q in txns && q != p ensures txns[q].writes.Keys !! (committed + txns[p].writes).Keys {
      assert txns[p].writes.Keys !! txns[q].writes.Keys;
    }
  }

  /** Committing publishes rows whose slots only the committing transaction held. */
  lemma SlotsCommit(s: State, p: nat)
    requires LocksInv(s.txns, s.locks) && SlotsInv(s.committed, s.txns) && p in s.txns
    ensures SlotsInv(s.committed + s.txns[p].writes, s.txns - {p})
  {
    var t := s.txns[p];
    var committed := s.committed + t.writes;
    assert TxnSlots(s.committed, t) && TxnLocks(t, p, s.locks);
    forall q | q in s.txns && q != p ensures TxnSlots(committed, s.txns[q]) {
      assert TxnSlots(s.committed, s.txns[q]) && TxnLocks(s.txns[q], q, s.locks);
    }
  }

  lemma WorkersCommit(s: State, p: nat)
    requires Inv(s) && p in s.txns
    ensures WorkersInv(s.workers, s.jobs, s.taken, s.committed + s.txns[p].writes)
  {
    var t := s.txns[p];
    assert t.writes.Keys !! s.committed.Keys;
    forall j | 0 <= j < |s.jobs| && s.jobs[j] in t.writes ensures t.writes[s.jobs[j]].status == Queued {
      assert s.jobs[j] in s.jobs;
    }
  }

  /** A transaction ends and gives its locks back. */
  lemma LocksEnd(txns: map<nat, Txn>, locks: map<Resource, nat>, p: nat)
    requires LocksInv(txns, locks)
    ensures LocksInv(txns - {p}, map r | r in locks && locks[r] != p :: locks[r])
  {
    var locks' := map r | r in locks && locks[r] != p :: locks[r];
    forall q | q in txns && q != p ensures TxnLocks(txns[q], q, locks') {
      assert TxnLocks(txns[q], q, locks);
    }
  }

  /** The open tick rows of one table are among those of another. */
  predicate Tamer(m': map<nat, Execution>, m: map<nat, Execution>) {
    forall e :: e in m' && TickOpen(m'[e]) ==> e in m && TickOpen(m[e]) && m'[e].company == m[e].company
  }

  lemma SlotsTamer(committed: map<nat, Execution>, txns: map<nat, Txn>, committed': map<nat, Execution>)
    requires SlotsInv(committed, txns) && Tamer(committed', committed)
    ensures SlotsInv(committed', txns)
  {
    forall p | p in txns ensures TxnSlots(committed', txns[p]) {
      assert TxnSlots(committed, txns[p]);
    }
  }

  lemma BeginKeeps(s: State, p: nat, schedule: nat, targets: seq<Company>)
    requires Inv(s)
    ensures Inv(DoBegin(s, p, schedule, targets))
  {
    var s' := DoBegin(s, p, schedule, targets);
    if s' != s {
      LocksMove(s.txns, s.locks, p, s'.txns[p], s'.locks);
      IdsMove(s.committed, s.txns, s.used, p, s'.txns[p], s'.used);
      SlotsMove(s.committed, s.txns, p, s'.txns[p]);
    }
  }

  /** A granted lock is still ahead of the ones already held. */
  lemma LockGranted(s: State, p: nat)
    requires LocksInv(s.txns, s.locks) && DoLock(s, p) != s
    ensures LocksInv(DoLock(s, p).txns, DoLock(s, p).locks)
  {
    var s' := DoLock(s, p);
    assert TxnLocks(s.txns[p], p, s.locks);
    forall r | r in s'.locks && s'.locks[r] == p ensures Passed(s'.txns[p], r) {
      if r != Wanted(s.txns[p]) {
        assert Passed(s.txns[p], r);
      }
    }
    LocksMove(s.txns, s.locks, p, s'.txns[p], s'.locks);
  }

  lemma LockKeeps(s: State, p: nat)
    requires Inv(s)
    ensures Inv(DoLock(s, p))
  {
    var s' := DoLock(s, p);
    if s' != s {
      LockGranted(s, p);
      IdsMove(s.committed, s.txns, s.used, p, s'.txns[p], s'.used);
      SlotsMove(s.committed, s.txns, p, s'.txns[p]);
    }
  }

  /** A transaction moves on without touching locks, rows or jobs. */
  lemma MoveKeeps(s: State, p: nat, t: Txn)
    requires Inv(s) && p in s.txns && t.writes == s.txns[p].writes && !t.pc.Inserted?
    requires TxnLocks(t, p, s.locks) && TxnSlots(s.committed, t)
    requires forall r :: r in s.locks && s.locks[r] == p ==> Passed(t, r)
    ensures Inv(Put(s, p, t))
  {
    LocksMove(s.txns, s.locks, p, t, s.locks);
    IdsMove(s.committed, s.txns, s.used, p, t, s.used);
    SlotsMove(s.committed, s.txns, p, t);
  }

  /** Looking for an open execution, and leaving a company after an overlap. */
  lemma LookOrSkipKeeps(s: State, ev: Event, p: nat)
    requires Inv(s) && (ev == Check(p) || ev == Skip(p))
    ensures Inv(Next(s, ev))
  {
    var s' := Next(s, ev);
    if s' != s {
      LookOrSkipFacts(s, ev, p);
      MoveKeeps(s, p, s'.txns[p]);
    }
  }

  lemma LookOrSkipFacts(s: State, ev: Event, p: nat)
    requires LocksInv(s.txns, s.locks) && SlotsInv(s.committed, s.txns)
    requires (ev == Check(p) || ev == Skip(p)) && Next(s, ev) != s
    ensures p in s.txns && Next(s, ev) == Put(s, p, Next(s, ev).txns[p])
    ensures var t := Next(s, ev).txns[p];
            t.writes == s.txns[p].writes && !t.pc.Inserted? && TxnLocks(t, p, s.locks) && TxnSlots(s.committed, t) &&
            forall r :: r in s.locks && s.locks[r] == p ==> Passed(t, r)
  {
    var t := Next(s, ev).txns[p];
    assert TxnLocks(s.txns[p], p, s.locks) && TxnSlots(s.committed, s.txns[p]);
    forall r | r in s.locks && s.locks[r] == p ensures Passed(t, r) {
      assert Passed(s.txns[p], r);
    }
  }

  lemma InsertLocks(s: State, p: nat, id: nat)
    requires LocksInv(s.txns, s.locks)
    ensures LocksInv(DoInsert(s, p, id).txns, s.locks)
  {
    var s' := DoInsert(s, p, id);
    if s' != s {
      assert TxnLocks(s.txns[p], p, s.locks);
      forall r | r in s.locks && s.locks[r] == p ensures Passed(s'.txns[p], r) {
        assert Passed(s.txns[p], r);
      }
      LocksMove(s.txns, s.locks, p, s'.txns[p], s.locks);
    }
  }

  lemma InsertSlots(s: State, p: nat, id: nat)
    requires SlotsInv(s.committed, s.txns)
    ensures SlotsInv(s.committed, DoInsert(s, p, id).txns)
  {
    var s' := DoInsert(s, p, id);
    if s' != s {
      assert TxnSlots(s.committed, s.txns[p]);
      SlotsMove(s.committed, s.txns, p, s'.txns[p]);
    }
  }

  lemma InsertJobs(s: State, p: nat, id: nat)
    requires QueueInv(s.jobs, s.used) && InsertedInv(s.txns, s.jobs)
    ensures QueueInv(s.jobs, DoInsert(s, p, id).used) && InsertedInv(DoInsert(s, p, id).txns, s.jobs)
  {
  }

  lemma InsertKeeps(s: State, p: nat, id: nat)
    requires Inv(s)
    ensures Inv(DoInsert(s, p, id))
  {
    InsertLocks(s, p, id);
    InsertSlots(s, p, id);
    InsertJobs(s, p, id);
    var s' := DoInsert(s, p, id);
    if s' != s {
      IdsMove(s.committed, s.txns, s.used, p, s'.txns[p], s'.used);
    }
  }

  lemma EnqueueLocks(s: State, p: nat, ok: bool)
    requires LocksInv(s.txns, s.locks)
    ensures LocksInv(DoEnqueue(s, p, ok).txns, DoEnqueue(s, p, ok).locks)
  {
    var s' := DoEnqueue(s, p, ok);
    if s' != s {
      var t, t' := s.txns[p], s'.txns[p];
      assert TxnLocks(t, p, s.locks);
      assert t'.writes.Keys == t.writes.Keys;
      assert forall e :: e in t.writes ==> t'.writes[e].company == t.writes[e].company;
      forall r | r in s.locks && s.locks[r] == p ensures Passed(t', r) {
        assert Passed(t, r);
      }
      LocksMove(s.txns, s.locks, p, t', s.locks);
    }
  }

  lemma EnqueueSlots(s: State, p: nat, ok: bool)
    requires SlotsInv(s.committed, s.txns) && IdsInv(s.committed, s.txns, s.used)
    ensures SlotsInv(s.committed, DoEnqueue(s, p, ok).txns)
    ensures IdsInv(s.committed, DoEnqueue(s, p, ok).txns, s.used)
  {
    var s' := DoEnqueue(s, p, ok);
    if s' != s {
      assert TxnSlots(s.committed, s.txns[p]);
      SlotsMove(s.committed, s.txns, p, s'.txns[p]);
      IdsMove(s.committed, s.txns, s.used, p, s'.txns[p], s.used);
    }
  }

  lemma EnqueueJobs(s: State, p: nat, ok: bool)
    requires InsertedInv(s.txns, s.jobs) && IdsInv(s.committed, s.txns, s.used)
    ensures InsertedInv(DoEnqueue(s, p, ok).txns, DoEnqueue(s, p, ok).jobs)
  {
    var s' := DoEnqueue(s, p, ok);
    if s' != s {
      var id := s.txns[p].pc.exec;
      forall q | q in s.txns && q != p ensures id !in s.txns[q].writes {
        assert s.txns[p].writes.Keys !! s.txns[q].writes.Keys;
      }
    }
  }

  lemma EnqueueKeeps(s: State, p: nat, ok: bool)
    requires Inv(s)
    ensures Inv(DoEnqueue(s, p, ok))
  {
    EnqueueLocks(s, p, ok);
    EnqueueSlots(s, p, ok);
    EnqueueJobs(s, p, ok);
    var s' := DoEnqueue(s, p, ok);
    if s' != s {
      assert s.txns[p].writes.Keys !! s.committed.Keys;
      JobAdded(s, s.txns[p].pc.exec);
    }
  }

  /** A job for a fresh or uncommitted row without one. */
  lemma JobAdded(s: State, id: nat)
    requires QueueInv(s.jobs, s.used) && WorkersInv(s.workers, s.jobs, s.taken, s.committed)
    requires id !in s.jobs && id !in s.committed
    ensures QueueInv(s.jobs + [id], s.used + {id})
    ensures WorkersInv(s.workers, s.jobs + [id], s.taken, s.committed)
  {
  }

  lemma CommitKeeps(s: State, p: nat)
    requires Inv(s)
    ensures Inv(DoCommit(s, p))
  {
    if p in s.txns && s.txns[p].pc == AtCommit {
      LocksEnd(s.txns, s.locks, p);
      IdsEnd(s.committed, s.txns, s.used, p);
      SlotsCommit(s, p);
      WorkersCommit(s, p);
    }
  }

  lemma AbortKeeps(s: State, p: nat)
    requires Inv(s)
    ensures Inv(DoAbort(s, p))
  {
    if p in s.txns {
      LocksEnd(s.txns, s.locks, p);
      IdsEnd(s.committed, s.txns, s.used, p);
    }
  }

  /** A worker changes statuses of committed rows, and what workers hold. */
  lemma WorkerMoves(s: State, workers: map<nat, Work>, taken: set<nat>, committed: map<nat, Execution>)
    requires Inv(s) && committed.Keys == s.committed.Keys && Tamer(committed, s.committed)
    requires WorkersInv(workers, s.jobs, taken, committed)
    ensures Inv(s.(workers := workers, taken := taken, committed := committed))
  {
    SlotsTamer(s.committed, s.txns, committed);
  }

  lemma PickKeeps(s: State, w: nat, job: nat)
    requires Inv(s)
    ensures Inv(Next(s, Pick(w, job)))
  {
    var s' := DoPick(s, w, job);
    WorkersPick(s, w, job);
    WorkerMoves(s, s'.workers, s'.taken, s.committed);
  }

  lemma WorkersPick(s: State, w: nat, job: nat)
    requires WorkersInv(s.workers, s.jobs, s.taken, s.committed)
    ensures var s' := DoPick(s, w, job); WorkersInv(s'.workers, s.jobs, s'.taken, s.committed)
  {
    if w !in s.workers && job < |s.jobs| && job !in s.taken {
      forall v | v in s.workers ensures s.workers[v].job != job {
        assert s.workers[v].job in s.taken;
      }
      assert s.jobs[job] in s.committed ==> s.committed[s.jobs[job]].status == Queued;
    }
  }

  lemma WorkersMark(s: State, w: nat)
    requires QueueInv(s.jobs, s.used) && WorkersInv(s.workers, s.jobs, s.taken, s.committed)
    ensures WorkersInv(DoMarkRunning(s, w).workers, s.jobs, s.taken, DoMarkRunning(s, w).committed)
  {
    if w in s.workers {
      OtherJobs(s.workers, s.jobs, s.taken, w);
      MarkedStays(s.workers, s.jobs, s.taken, w);
    }
  }

  lemma WorkersFinish(s: State, w: nat, final: Status)
    requires QueueInv(s.jobs, s.used) && WorkersInv(s.workers, s.jobs, s.taken, s.committed)
    ensures WorkersInv(DoFinish(s, w, final).workers, s.jobs, s.taken, DoFinish(s, w, final).committed)
  {
    if w in s.workers {
      OtherJobs(s.workers, s.jobs, s.taken, w);
    }
  }

  lemma MarkRunningKeeps(s: State, w: nat)
    requires Inv(s)
    ensures Inv(Next(s, MarkRunning(w)))
  {
    var s' := DoMarkRunning(s, w);
    WorkersMark(s, w);
    WorkerMoves(s, s'.workers, s.taken, s'.committed);
  }

  lemma FinishKeeps(s: State, w: nat, final: Status)
    requires Inv(s)
    ensures Inv(Next(s, Finish(w, final)))
  {
    var s' := DoFinish(s, w, final);
    WorkersFinish(s, w, final);
    WorkerMoves(s, s'.workers, s.taken, s'.committed);
  }

  lemma ApiInsertKeeps(s: State, id: nat, c: Company, enqueued: bool)
    requires Inv(s)
    ensures Inv(Next(s, ApiInsert(id, c, enqueued)))
  {
    if id !in s.used {
      var s' := DoApiInsert(s, id, c, enqueued);
      ApiInsertSlots(s, id, c, enqueued);
      IdsInsert(s.committed, s.txns, s.used, id, s'.committed[id]);
      InsertedApi(s, id);
      ApiInsertJobs(s, id, c, enqueued);
    }
  }

  /** A row of the API is not one of a tick. */
  lemma ApiInsertSlots(s: State, id: nat, c: Company, enqueued: bool)
    requires SlotsInv(s.committed, s.txns)
    ensures SlotsInv(DoApiInsert(s, id, c, enqueued).committed, s.txns)
  {
    SlotsTamer(s.committed, s.txns, DoApiInsert(s, id, c, enqueued).committed);
  }

  lemma ApiInsertJobs(s: State, id: nat, c: Company, enqueued: bool)
    requires QueueInv(s.jobs, s.used) && WorkersInv(s.workers, s.jobs, s.taken, s.committed)
    requires id !in s.used && id !in s.jobs && id !in s.committed
    ensures var s' := DoApiInsert(s, id, c, enqueued);
            QueueInv(s'.jobs, s'.used) && WorkersInv(s'.workers, s'.jobs, s'.taken, s'.committed)
  {
    var s' := DoApiInsert(s, id, c, enqueued);
    if enqueued {
      JobAdded(s, id);
    }
    WorkersInsert(s.workers, s'.jobs, s.taken, s.committed, id, s'.committed[id]);
  }

  lemma InsertedApi(s: State, id: nat)
    requires QueueInv(s.jobs, s.used) && InsertedInv(s.txns, s.jobs) && IdsInv(s.committed, s.txns, s.used)
    requires id !in s.used
    ensures id !in s.jobs && InsertedInv(s.txns, s.jobs + [id])
  {
    forall p | p in s.txns ensures id !in s.txns[p].writes {
      assert s.txns[p].writes.Keys <= s.used;
    }
  }

  lemma IdsInsert(committed: map<nat, Execution>, txns: map<nat, Txn>, used: set<nat>, id: nat, x: Execution)
    requires IdsInv(committed, txns, used) && id !in used
    ensures IdsInv(committed[id := x], txns, used + {id})
  {
    forall p | p in txns ensures txns[p].writes.Keys !! committed[id := x].Keys {
      assert txns[p].writes.Keys <= used;
    }
  }

  lemma WorkersInsert(
      workers: map<nat, Work>, jobs: seq<nat>, taken: set<nat>, committed: map<nat, Execution>, id: nat, x: Execution)
    requires WorkersInv(workers, jobs, taken, committed) && id !in committed
    requires id in jobs ==> x.status == Queued
    ensures WorkersInv(workers, jobs, taken, committed[id := x])
  {
    forall j | 0 <= j < |jobs| && jobs[j] == id ensures x.status == Queued {
      assert jobs[j] in jobs;
    }
  }

  predicate IsWorkerEvent(ev: Event) {
    ev.Pick? || ev.MarkRunning? || ev.Finish? || ev.WorkerCrash? || ev.ApiInsert?
  }

  lemma WorkerEventKeeps(s: State, ev: Event)
    requires Inv(s) && IsWorkerEvent(ev)
    ensures Inv(Next(s, ev))
  {
    match ev {
      case Pick(w, job) => PickKeeps(s, w, job);
      case MarkRunning(w) => MarkRunningKeeps(s, w);
      case Finish(w, final) => FinishKeeps(s, w, final);
      case WorkerCrash(w) => WorkerCrashKeeps(s, w);
      case ApiInsert(id, c, enqueued) => ApiInsertKeeps(s, id, c, enqueued);
    }
  }

  lemma WorkerCrashKeeps(s: State, w: nat)
    requires Inv(s)
    ensures Inv(Next(s, WorkerCrash(w)))
  {
  }

  lemma SchedulerEventKeeps(s: State, ev: Event)
    requires Inv(s) && !IsWorkerEvent(ev)
    ensures Inv(Next(s, ev))
  {
    match ev {
      case Begin(p, schedule, targets) => BeginKeeps(s, p, schedule, targets);
      case Lock(p) => LockKeeps(s, p);
      case Check(p) => LookOrSkipKeeps(s, ev, p);
      case Skip(p) => LookOrSkipKeeps(s, ev, p);
      case Insert(p, id) => InsertKeeps(s, p, id);
      case Enqueue(p, ok) => EnqueueKeeps(s, p, ok);
      case Commit(p) => CommitKeeps(s, p);
      case Abort(p) => AbortKeeps(s, p);
    }
  }

  lemma NextKeeps(s: State, ev: Event)
    requires Inv(s)
    ensures Inv(Next(s, ev))
  {
    if IsWorkerEvent(ev) {
      WorkerEventKeeps(s, ev);
    } else {
      SchedulerEventKeeps(s, ev);
    }
  }

  lemma {:induction false} ReachKeeps(events: seq<Event>)
    ensures Inv(Reach(events))
  {
    if events != [] {
      ReachKeeps(events[..|events| - 1]);
      NextKeeps(Reach(events[..|events| - 1]), events[|events| - 1]);
    }
  }

  // ---------------------------------------------------------------------------
  // Mutual exclusion
  // ---------------------------------------------------------------------------

  predicate HasTickOpen(m: map<nat, Execution>, e: nat, c: Company) {
    e in m && m[e].company == c && TickOpen(m[e])
  }

  /** In flight for `c`, and inserted by a tick. */
  ghost predicate TickInFlight(s: State, e: nat, c: Company) {
    HasTickOpen(s.committed, e, c) || exists p :: p in s.txns && HasTickOpen(s.txns[p].writes, e, c)
  }

  lemma OneTickPerSlot(s: State, c: Company, a: nat, b: nat)
    requires LocksInv(s.txns, s.locks) && SlotsInv(s.committed, s.txns)
    requires TickInFlight(s, a, c) && TickInFlight(s, b, c)
    ensures a == b
  {
    if p :| p in s.txns && HasTickOpen(s.txns[p].writes, a, c) {
      assert TxnSlots(s.committed, s.txns[p]) && TxnLocks(s.txns[p], p, s.locks);
      if q :| q in s.txns && HasTickOpen(s.txns[q].writes, b, c) {
        assert TxnLocks(s.txns[q], q, s.locks);
        assert p == q;
      }
    } else if q :| q in s.txns && HasTickOpen(s.txns[q].writes, b, c) {
      assert TxnSlots(s.committed, s.txns[q]);
    }
  }

  /**
   Whatever the interleaving of schedulers, workers and API calls, ticks have at most one
   execution in flight per company, counting rows not yet committed.
   */
  lemma TickMutualExclusion(events: seq<Event>, c: Company, a: nat, b: nat)
    requires TickInFlight(Reach(events), a, c) && TickInFlight(Reach(events), b, c)
    ensures a == b
  {
    ReachKeeps(events);
    OneTickPerSlot(Reach(events), c, a, b);
  }

  predicate AllTicks(m: map<nat, Execution>) {
    forall e :: e in m ==> m[e].origin == Tick
  }

  lemma TicksKept(s: State, ev: Event)
    requires LocksInv(s.txns, s.locks) && AllTicks(s.committed) && !ev.ApiInsert?
    ensures AllTicks(Next(s, ev).committed)
  {
    match ev {
      case Commit(p) =>
        if p in s.txns {
          assert TxnLocks(s.txns[p], p, s.locks);
        }
      case _ =>
    }
  }

  lemma {:induction false} WithoutApiAllRowsAreTicks(events: seq<Event>)
    requires forall i :: 0 <= i < |events| ==> !events[i].ApiInsert?
    ensures AllTicks(Reach(events).committed)
  {
    if events != [] {
      var before := events[..|events| - 1];
      WithoutApiAllRowsAreTicks(before);
      ReachKeeps(before);
      TicksKept(Reach(before), events[|events| - 1]);
    }
  }

  /** Schedulers and workers alone keep at most one execution in flight per company. */
  lemma MutualExclusion(events: seq<Event>, c: Company, a: nat, b: nat)
    requires forall i :: 0 <= i < |events| ==> !events[i].ApiInsert?
    requires InFlight(Reach(events), a, c) && InFlight(Reach(events), b, c)
    ensures a == b
  {
    var s := Reach(events);
    ReachKeeps(events);
    WithoutApiAllRowsAreTicks(events);
    InFlightIsTick(s, a, c);
    InFlightIsTick(s, b, c);
    OneTickPerSlot(s, c, a, b);
  }

  lemma InFlightIsTick(s: State, e: nat, c: Company)
    requires LocksInv(s.txns, s.locks) && InFlight(s, e, c)
    requires AllTicks(s.committed)
    ensures TickInFlight(s, e, c)
  {
    if !(e in s.committed && s.committed[e].company == c && Open(s.committed[e].status)) {
      var p :| p in s.txns && e in s.txns[p].writes && s.txns[p].writes[e].company == c &&
               Open(s.txns[p].writes[e].status);
      assert TxnLocks(s.txns[p], p, s.locks);
      assert HasTickOpen(s.txns[p].writes, e, c);
    }
  }

  // ---------------------------------------------------------------------------
  // When exclusion breaks
  // ---------------------------------------------------------------------------

  /** At most one execution in flight per company. */
  ghost predicate OneInFlight(s: State) {
    forall c: Company, a: nat, b: nat :: InFlight(s, a, c) && InFlight(s, b, c) ==> a == b
  }

  ghost predicate Busy(s: State, c: Company) {
    exists e: nat :: InFlight(s, e, c)
  }

  /** The event inserts an open row for a company that has something in flight. */
  ghost predicate Collides(s: State, ev: Event) {
    match ev
    case ApiInsert(id, c, enqueued) => id !in s.used && enqueued && Busy(s, c)
    case Insert(p, id) => Inserts(s, p, id) && Busy(s, s.txns[p].targets[s.txns[p].pos])
    case _ => false
  }

  predicate Inserts(s: State, p: nat, id: nat) {
    p in s.txns && s.txns[p].pc == Checked(false) && s.txns[p].pos < |s.txns[p].targets| && id !in s.used
  }

  /** `s'` has the executions in flight of `s`, and perhaps one more. */
  ghost predicate AddsOne(s: State, s': State, id: nat, c: Company) {
    forall e: nat, k: Company :: InFlight(s', e, k) <==> InFlight(s, e, k) || (e == id && k == c)
  }

  lemma FreshIsNotInFlight(s: State, id: nat, c: Company)
    requires IdsInv(s.committed, s.txns, s.used) && id !in s.used
    ensures !InFlight(s, id, c)
  {
    forall p | p in s.txns ensures id !in s.txns[p].writes {
      assert s.txns[p].writes.Keys <= s.used;
    }
  }

  /** Adding one open row keeps exclusion exactly when its company had nothing in flight. */
  lemma AddingOneIff(s: State, s': State, id: nat, c: Company)
    requires OneInFlight(s) && AddsOne(s, s', id, c) && !InFlight(s, id, c)
    ensures OneInFlight(s') <==> !Busy(s, c)
  {
    if Busy(s, c) {
      var e: nat :| InFlight(s, e, c);
      assert InFlight(s', e, c) && InFlight(s', id, c);
    }
  }

  lemma InsertAdds(s: State, p: nat, id: nat)
    requires Inserts(s, p, id) && IdsInv(s.committed, s.txns, s.used)
    ensures AddsOne(s, DoInsert(s, p, id), id, s.txns[p].targets[s.txns[p].pos])
  {
    var s', c := DoInsert(s, p, id), s.txns[p].targets[s.txns[p].pos];
    assert s.txns[p].writes.Keys <= s.used;
    forall e: nat, k: Company ensures InFlight(s', e, k) <==> InFlight(s, e, k) || (e == id && k == c) {
      if e == id {
        FreshIsNotInFlight(s, id, k);
        assert p in s'.txns && id in s'.txns[p].writes;
      } else {
        assert forall q :: q in s.txns ==>
            q in s'.txns && (e in s'.txns[q].writes <==> e in s.txns[q].writes) &&
            (e in s.txns[q].writes ==> s'.txns[q].writes[e] == s.txns[q].writes[e]);
      }
    }
  }

  lemma ApiInsertAdds(s: State, id: nat, c: Company)
    requires id !in s.used && IdsInv(s.committed, s.txns, s.used)
    ensures AddsOne(s, DoApiInsert(s, id, c, true), id, c)
  {
    var s' := DoApiInsert(s, id, c, true);
    forall e: nat, k: Company ensures InFlight(s', e, k) <==> InFlight(s, e, k) || (e == id && k == c) {
      if e == id {
        FreshIsNotInFlight(s, id, k);
      }
    }
  }

  /** An insertion that is refused by the queue, or an event that inserts nothing, puts nothing in flight. */
  lemma NothingNew(s: State, ev: Event, e: nat, c: Company)
    requires Inv(s)
    requires ev.Insert? ==> !Inserts(s, ev.p, ev.id)
    requires ev.ApiInsert? ==> ev.id in s.used || !ev.enqueued
    ensures InFlight(Next(s, ev), e, c) ==> InFlight(s, e, c)
  {
    if InFlight(Next(s, ev), e, c) && Mover(ev).Some? {
      MoverIsQuiet(s, ev, Mover(ev).value);
      NothingNewMove(s, Next(s, ev), Mover(ev).value, e, c);
    } else if InFlight(Next(s, ev), e, c) {
      match ev {
        case Commit(p) => NothingNewCommit(s, p, e, c);
        case Enqueue(p, ok) => NothingNewEnqueue(s, p, ok, e, c);
        case MarkRunning(w) => NothingNewStatus(s, w, Running, e, c);
        case Finish(w, final) => NothingNewStatus(s, w, final, e, c);
        case _ =>
      }
    }
  }

  /** The transaction that starts, moves on or rolls back without new rows. */
  function Mover(ev: Event): Option<nat> {
    match ev
    case Begin(p, _, _) => Some(p)
    case Lock(p) => Some(p)
    case Check(p) => Some(p)
    case Skip(p) => Some(p)
    case Abort(p) => Some(p)
    case _ => None
  }

  ghost predicate Quiet(s: State, s': State, p: nat) {
    s'.committed == s.committed &&
    (forall q :: q in s'.txns && q != p ==> q in s.txns && s'.txns[q] == s.txns[q]) &&
    (p in s'.txns ==> if p in s.txns then s'.txns[p].writes == s.txns[p].writes else s'.txns[p].writes == map[])
  }

  lemma MoverIsQuiet(s: State, ev: Event, p: nat)
    requires Mover(ev) == Some(p)
    ensures Quiet(s, Next(s, ev), p)
  {
  }

  lemma NothingNewMove(s: State, s': State, p: nat, e: nat, c: Company)
    requires Quiet(s, s', p) && InFlight(s', e, c)
    ensures InFlight(s, e, c)
  {
    if !(e in s.committed && s.committed[e].company == c && Open(s.committed[e].status)) {
      var q :| q in s'.txns && e in s'.txns[q].writes && s'.txns[q].writes[e].company == c &&
               Open(s'.txns[q].writes[e].status);
      assert q in s.txns && s.txns[q].writes == s'.txns[q].writes;
    }
  }

  lemma NothingNewCommit(s: State, p: nat, e: nat, c: Company)
    requires InFlight(DoCommit(s, p), e, c)
    ensures InFlight(s, e, c)
  {
    var s' := DoCommit(s, p);
    if e in s'.committed && s'.committed[e].company == c && Open(s'.committed[e].status) {
      if p in s.txns && e in s.txns[p].writes && s' != s {
        assert s'.committed[e] == s.txns[p].writes[e];
      }
    } else {
      var q :| q in s'.txns && e in s'.txns[q].writes && s'.txns[q].writes[e].company == c &&
               Open(s'.txns[q].writes[e].status);
      assert q in s.txns && s.txns[q] == s'.txns[q];
    }
  }

  lemma NothingNewEnqueue(s: State, p: nat, ok: bool, e: nat, c: Company)
    requires InFlight(DoEnqueue(s, p, ok), e, c)
    ensures InFlight(s, e, c)
  {
    var s' := DoEnqueue(s, p, ok);
    forall q | q in s'.txns && e in s'.txns[q].writes && Open(s'.txns[q].writes[e].status)
      ensures q in s.txns && e in s.txns[q].writes && s.txns[q].writes[e] == s'.txns[q].writes[e]
    {
      if q != p { assert s'.txns[q] == s.txns[q]; }
    }
  }

  /** A worker marks running a row that was queued, and finishes one that was running. */
  lemma NothingNewStatus(s: State, w: nat, st: Status, e: nat, c: Company)
    requires WorkersInv(s.workers, s.jobs, s.taken, s.committed)
    requires InFlight(DoMarkRunning(s, w), e, c) || InFlight(DoFinish(s, w, st), e, c)
    ensures InFlight(s, e, c)
  {
    assert DoMarkRunning(s, w).txns == s.txns && DoFinish(s, w, st).txns == s.txns;
    if HasRow(s, w) {
      assert Open(s.committed[s.jobs[s.workers[w].job]].status);
    }
  }

  /**
   One event keeps at most one execution in flight per company if and only if it does not
   insert an open row for a company that has something in flight.
   */
  lemma StepKeepsExclusionIff(s: State, ev: Event)
    requires Inv(s) && OneInFlight(s)
    ensures OneInFlight(Next(s, ev)) <==> !Collides(s, ev)
  {
    if ev.Insert? && Inserts(s, ev.p, ev.id) {
      var c := s.txns[ev.p].targets[s.txns[ev.p].pos];
      InsertAdds(s, ev.p, ev.id);
      FreshIsNotInFlight(s, ev.id, c);
      AddingOneIff(s, Next(s, ev), ev.id, c);
    } else if ev.ApiInsert? && ev.id !in s.used && ev.enqueued {
      ApiInsertAdds(s, ev.id, ev.company);
      FreshIsNotInFlight(s, ev.id, ev.company);
      AddingOneIff(s, Next(s, ev), ev.id, ev.company);
    } else {
      forall c: Company, e: nat | InFlight(Next(s, ev), e, c) ensures InFlight(s, e, c) {
        NothingNew(s, ev, e, c);
      }
    }
  }

  /** Every state a run passes has at most one execution in flight per company. */
  ghost predicate AlwaysOne(events: seq<Event>) {
    OneInFlight(Reach(events)) && (events != [] ==> AlwaysOne(events[..|events| - 1]))
  }

  ghost predicate NeverCollides(events: seq<Event>) {
    events != [] ==>
      NeverCollides(events[..|events| - 1]) && !Collides(Reach(events[..|events| - 1]), events[|events| - 1])
  }

  /**
   Over any run of schedulers, workers and API calls: every state it passes has at most one
   execution in flight per company if and only if no event of the run collides.
   */
  lemma {:induction false} ExclusionIff(events: seq<Event>)
    ensures AlwaysOne(events) <==> NeverCollides(events)
  {
    if events != [] {
      var before, ev := events[..|events| - 1], events[|events| - 1];
      ExclusionIff(before);
      if AlwaysOne(before) {
        ReachKeeps(before);
        StepKeepsExclusionIff(Reach(before), ev);
      }
    }
  }

  // ---------------------------------------------------------------------------
  // When the API is safe
  // ---------------------------------------------------------------------------

  /** The transaction has looked at this company, found nothing and not inserted yet. */
  predicate AboutToInsert(t: Txn, c: Company) {
    t.pc == Checked(false) && t.pos < |t.targets| && t.targets[t.pos] == c
  }

  /** What an API call would have to know: nothing in flight, and no tick between its check and its insertion. */
  ghost predicate ApiSafe(s: State, c: Company) {
    !Busy(s, c) && forall p :: p in s.txns ==> !AboutToInsert(s.txns[p], c)
  }

  /** A company some tick is about to insert for has nothing in flight. */
  ghost predicate CheckedFree(s: State) {
    forall p, c: Company :: p in s.txns && AboutToInsert(s.txns[p], c) ==> !Busy(s, c)
  }

  /** The insertion of a tick that looked keeps the promise of the others, which hold other slots. */
  lemma InsertKeepsFree(s: State, p: nat, id: nat)
    requires LocksInv(s.txns, s.locks) && IdsInv(s.committed, s.txns, s.used) && CheckedFree(s) && Inserts(s, p, id)
    ensures CheckedFree(DoInsert(s, p, id))
  {
    var s', c := DoInsert(s, p, id), s.txns[p].targets[s.txns[p].pos];
    InsertAdds(s, p, id);
    forall q, k: Company | q in s'.txns && AboutToInsert(s'.txns[q], k) ensures !Busy(s', k) {
      assert q in s.txns && AboutToInsert(s.txns[q], k) && q != p;
      OtherSlot(s, p, c, q, k);
      assert !Busy(s, k);
    }
  }

  lemma OtherSlot(s: State, p: nat, c: Company, q: nat, k: Company)
    requires LocksInv(s.txns, s.locks) && p in s.txns && q in s.txns && p != q
    requires AboutToInsert(s.txns[p], c) && AboutToInsert(s.txns[q], k)
    ensures c != k
  {
    assert TxnLocks(s.txns[q], q, s.locks) && TxnLocks(s.txns[p], p, s.locks);
  }

  lemma ApiInsertKeepsFree(s: State, id: nat, c: Company)
    requires IdsInv(s.committed, s.txns, s.used) && CheckedFree(s) && id !in s.used && ApiSafe(s, c)
    ensures CheckedFree(DoApiInsert(s, id, c, true))
  {
    var s' := DoApiInsert(s, id, c, true);
    ApiInsertAdds(s, id, c);
    forall q, k: Company | q in s'.txns && AboutToInsert(s'.txns[q], k) ensures !Busy(s', k) {
      assert q in s.txns && AboutToInsert(s.txns[q], k) && k != c;
      assert !Busy(s, k);
    }
  }

  /** A tick that looks sees everything in flight for its company: rows it cannot see lie behind its slot. */
  lemma CheckSeesAll(s: State, p: nat, c: Company)
    requires LocksInv(s.txns, s.locks) && p in s.txns && s.txns[p].pc == Locked
    requires s.txns[p].pos < |s.txns[p].targets| && s.txns[p].targets[s.txns[p].pos] == c
    ensures SeesInFlight(s, s.txns[p], c) <==> Busy(s, c)
  {
    assert TxnLocks(s.txns[p], p, s.locks);
    if e: nat :| InFlight(s, e, c) {
      if !(e in s.committed && s.committed[e].company == c && Open(s.committed[e].status)) {
        var q :| q in s.txns && e in s.txns[q].writes && s.txns[q].writes[e].company == c &&
                 Open(s.txns[q].writes[e].status);
        assert TxnLocks(s.txns[q], q, s.locks);
        assert q == p;
      }
    }
    if SeesInFlight(s, s.txns[p], c) {
      if InFlightIn(s.committed, c) {
        var e :| e in s.committed && s.committed[e].company == c && Open(s.committed[e].status);
        assert InFlight(s, e, c);
      } else {
        var e :| e in s.txns[p].writes && s.txns[p].writes[e].company == c && Open(s.txns[p].writes[e].status);
        assert InFlight(s, e, c);
      }
    }
  }

  /** Only a look makes a tick ready to insert. */
  lemma ReadyBefore(s: State, ev: Event, q: nat, c: Company)
    requires q in Next(s, ev).txns && AboutToInsert(Next(s, ev).txns[q], c) && ev != Check(q)
    ensures q in s.txns && s.txns[q] == Next(s, ev).txns[q]
  {
  }

  /** An event that puts nothing in flight leaves companies without anything in flight as they are. */
  lemma StaysFree(s: State, ev: Event, c: Company)
    requires Inv(s) && !Busy(s, c)
    requires ev.Insert? ==> !Inserts(s, ev.p, ev.id)
    requires ev.ApiInsert? ==> ev.id in s.used || !ev.enqueued
    ensures !Busy(Next(s, ev), c)
  {
    forall e: nat ensures InFlight(Next(s, ev), e, c) ==> InFlight(s, e, c) {
      NothingNew(s, ev, e, c);
    }
  }

  lemma CheckMakesReady(s: State, p: nat, c: Company)
    requires LocksInv(s.txns, s.locks) && CheckedFree(s)
    requires p in DoCheck(s, p).txns && AboutToInsert(DoCheck(s, p).txns[p], c)
    ensures !Busy(s, c)
  {
    if DoCheck(s, p) != s {
      CheckSeesAll(s, p, c);
    } else {
      assert AboutToInsert(s.txns[p], c);
    }
  }

  /** An event that inserts no open row. */
  lemma QuietKeepsFree(s: State, ev: Event)
    requires Inv(s) && CheckedFree(s)
    requires ev.Insert? ==> !Inserts(s, ev.p, ev.id)
    requires ev.ApiInsert? ==> ev.id in s.used || !ev.enqueued
    ensures CheckedFree(Next(s, ev))
  {
    var s' := Next(s, ev);
    forall q, k: Company | q in s'.txns && AboutToInsert(s'.txns[q], k) ensures !Busy(s', k) {
      if ev == Check(q) {
        CheckMakesReady(s, q, k);
      } else {
        ReadyBefore(s, ev, q, k);
        assert AboutToInsert(s.txns[q], k);
      }
      StaysFree(s, ev, k);
    }
  }

  /** One event, when an API insertion is safe. */
  lemma SafeStep(s: State, ev: Event)
    requires Inv(s) && OneInFlight(s) && CheckedFree(s)
    requires ev.ApiInsert? && ev.id !in s.used && ev.enqueued ==> ApiSafe(s, ev.company)
    ensures OneInFlight(Next(s, ev)) && CheckedFree(Next(s, ev))
  {
    StepKeepsExclusionIff(s, ev);
    if ev.Insert? && Inserts(s, ev.p, ev.id) {
      assert AboutToInsert(s.txns[ev.p], s.txns[ev.p].targets[s.txns[ev.p].pos]);
      InsertKeepsFree(s, ev.p, ev.id);
    } else if ev.ApiInsert? && ev.id !in s.used && ev.enqueued {
      ApiInsertKeepsFree(s, ev.id, ev.company);
    } else {
      QuietKeepsFree(s, ev);
    }
  }

  /** Every API call of the run that inserts an open row finds its company safe. */
  ghost predicate ApiCallsSafe(events: seq<Event>) {
    events != [] ==>
      var before, ev := events[..|events| - 1], events[|events| - 1];
      ApiCallsSafe(before) &&
      (ev.ApiInsert? && ev.id !in Reach(before).used && ev.enqueued ==> ApiSafe(Reach(before), ev.company))
  }

  /** Any run of schedulers, workers and safe API calls keeps at most one execution in flight per company. */
  lemma {:induction false} SafeApiKeepsExclusion(events: seq<Event>)
    requires ApiCallsSafe(events)
    ensures AlwaysOne(events) && CheckedFree(Reach(events))
  {
    if events != [] {
      var before := events[..|events| - 1];
      SafeApiKeepsExclusion(before);
      ReachKeeps(before);
      SafeStep(Reach(before), events[|events| - 1]);
    }
  }

  /**
   The condition is exact: in a run of safe calls so far, a further API insertion is safe if
   and only if it leaves one execution in flight per company, at once and after whatever
   insertion a tick makes next.
   */
  lemma ApiSafeIff(events: seq<Event>, id: nat, c: Company, own: nat)
    requires ApiCallsSafe(events) && id !in Reach(events).used && own !in Reach(events).used && own != id
    ensures var after := events + [ApiInsert(id, c, true)];
            ApiSafe(Reach(events), c) <==>
              OneInFlight(Reach(after)) && forall p :: OneInFlight(Reach(after + [Insert(p, own)]))
  {
    var s, after := Reach(events), events + [ApiInsert(id, c, true)];
    SafeApiKeepsExclusion(events);
    ReachKeeps(events);
    ReachOn(events, ApiInsert(id, c, true));
    if ApiSafe(s, c) {
      SafeStep(s, ApiInsert(id, c, true));
      ReachKeeps(after);
      forall p ensures OneInFlight(Reach(after + [Insert(p, own)])) {
        ReachOn(after, Insert(p, own));
        SafeStep(Reach(after), Insert(p, own));
      }
    } else if Busy(s, c) {
      StepKeepsExclusionIff(s, ApiInsert(id, c, true));
    } else {
      var p :| p in s.txns && AboutToInsert(s.txns[p], c);
      ApiBetweenCheckAndInsert(events, p, id, own);
      assert !OneInFlight(Reach(after + [Insert(p, own)]));
    }
  }

  /** The API takes no slot: it adds an execution in flight next to whatever is there. */
  lemma ApiIgnoresTheSlot(events: seq<Event>, id: nat, c: Company)
    requires id !in Reach(events).used
    ensures InFlight(Reach(events + [ApiInsert(id, c, true)]), id, c)
    ensures forall e :: e in Reach(events).committed && InFlight(Reach(events), e, c) ==>
              e != id && InFlight(Reach(events + [ApiInsert(id, c, true)]), e, c)
  {
    assert (events + [ApiInsert(id, c, true)])[..|events|] == events;
    ReachKeeps(events);
  }

  lemma ApiThenInsert(s: State, p: nat, id: nat, own: nat)
    requires IdsInv(s.committed, s.txns, s.used) && Inserts(s, p, own) && id !in s.used && id != own
    ensures var c := s.txns[p].targets[s.txns[p].pos];
            var s' := DoInsert(DoApiInsert(s, id, c, true), p, own);
            InFlight(s', id, c) && InFlight(s', own, c)
  {
    var c := s.txns[p].targets[s.txns[p].pos];
    var one := DoApiInsert(s, id, c, true);
    IdsInsert(s.committed, s.txns, s.used, id, one.committed[id]);
    ApiInsertAdds(s, id, c);
    InsertAdds(one, p, own);
  }

  /**
   The API may find nothing open and still collide: a tick that looked before it inserts
   afterwards, and the company has both in flight.
   */
  lemma ApiBetweenCheckAndInsert(events: seq<Event>, p: nat, id: nat, own: nat)
    requires Inserts(Reach(events), p, own) && id !in Reach(events).used && id != own
    ensures var c := Reach(events).txns[p].targets[Reach(events).txns[p].pos];
            var s := Reach(events + [ApiInsert(id, c, true)] + [Insert(p, own)]);
            InFlight(s, id, c) && InFlight(s, own, c)
  {
    var c := Reach(events).txns[p].targets[Reach(events).txns[p].pos];
    ReachIds(events);
    ReachOn(events, ApiInsert(id, c, true));
    ReachOn(events + [ApiInsert(id, c, true)], Insert(p, own));
    ApiThenInsert(Reach(events), p, id, own);
  }

  /** Such a run from the start: nothing is in flight when the API inserts, and two executions are at the end. */
  lemma ApiCollidesWithNothingOpen(c: Company, schedule: nat)
    ensures var checked := [Begin(0, schedule, [c]), Lock(0), Check(0)];
            !Busy(Reach(checked), c) &&
            var s := Reach(checked + [ApiInsert(7, c, true)] + [Insert(0, 8)]);
            InFlight(s, 7, c) && InFlight(s, 8, c)
  {
    var begun := [Begin(0, schedule, [c])];
    var locked := begun + [Lock(0)];
    var checked := locked + [Check(0)];
    ReachOn([], Begin(0, schedule, [c]));
    ReachOn(begun, Lock(0));
    ReachOn(locked, Check(0));
    assert checked == [Begin(0, schedule, [c]), Lock(0), Check(0)] && [] + begun == begun;
    assert Reach(begun) == Initial().(txns := map[0 := Txn(schedule, [c], 0, AtLock, map[])]);
    assert Reach(locked).txns == map[0 := Txn(schedule, [c], 0, Locked, map[])];
    assert Reach(checked).txns == map[0 := Txn(schedule, [c], 0, Checked(false), map[])];
    ApiBetweenCheckAndInsert(checked, 0, 7, 8);
  }

  lemma ReachIds(events: seq<Event>)
    ensures IdsInv(Reach(events).committed, Reach(events).txns, Reach(events).used)
  {
    ReachKeeps(events);
  }

  lemma ReachOn(events: seq<Event>, ev: Event)
    ensures Reach(events + [ev]) == Next(Reach(events), ev)
  {
    assert (events + [ev])[..|events|] == events;
  }

  /** No execution is ever enqueued twice. */
  lemma EnqueuedOnce(events: seq<Event>, i: nat, j: nat)
    requires i < |Reach(events).jobs| && j < |Reach(events).jobs| && Reach(events).jobs[i] == Reach(events).jobs[j]
    ensures i == j
  {
    ReachKeeps(events);
  }

  // ---------------------------------------------------------------------------
  // No circular wait
  // ---------------------------------------------------------------------------

  /** Transaction `p` waits for a lock that `q` holds. */
  predicate Waits(s: State, p: nat, q: nat) {
    p in s.txns && s.txns[p].pc == AtLock && s.txns[p].pos <= |s.txns[p].targets| && p != q &&
    Wanted(s.txns[p]) in s.locks && s.locks[Wanted(s.txns[p])] == q
  }

  /** Slots in target order, then schedule rows. */
  predicate Lower(a: Resource, b: Resource) {
    a.Slot? && (b.ScheduleRow? || Before(a.company, b.company))
  }

  /** Along a chain of waiting transactions the wanted locks only go up. */
  lemma WaitsClimb(s: State, p: nat, q: nat, r: nat)
    requires LocksInv(s.txns, s.locks) && Waits(s, p, q) && Waits(s, q, r)
    ensures Lower(Wanted(s.txns[p]), Wanted(s.txns[q]))
  {
    assert Passed(s.txns[q], Wanted(s.txns[p]));
  }

  /** `ps` is a chain of transactions, each waiting for the next. */
  predicate WaitChain(s: State, ps: seq<nat>) {
    forall i :: 0 <= i < |ps| - 1 ==> Waits(s, ps[i], ps[i + 1])
  }

  lemma {:induction false} ChainClimbs(s: State, ps: seq<nat>, r: nat)
    requires LocksInv(s.txns, s.locks) && |ps| >= 2 && WaitChain(s, ps) && Waits(s, ps[|ps| - 1], r)
    ensures ps[0] in s.txns && Lower(Wanted(s.txns[ps[0]]), Wanted(s.txns[ps[|ps| - 1]]))
  {
    var n := |ps| - 1;
    assert Waits(s, ps[n - 1], ps[n]);
    WaitsClimb(s, ps[n - 1], ps[n], r);
    if n > 1 {
      var front := ps[..n];
      forall i | 0 <= i < |front| - 1 ensures Waits(s, front[i], front[i + 1]) {
        assert Waits(s, ps[i], ps[i + 1]);
      }
      ChainClimbs(s, front, ps[n]);
    }
  }

  /** No reachable set of scheduler transactions waits in a cycle. */
  lemma NoCircularWait(events: seq<Event>, ps: seq<nat>)
    requires |ps| >= 2 && WaitChain(Reach(events), ps)
    ensures ps[0] != ps[|ps| - 1]
  {
    var s := Reach(events);
    ReachKeeps(events);
    assert Waits(s, ps[0], ps[1]);
    if ps[0] == ps[|ps| - 1] {
      ChainClimbs(s, ps, ps[1]);
    }
  }

  predicate Blocked(s: State, p: nat) {
    exists q :: q in s.txns && Waits(s, p, q)
  }

  /** Whenever transactions are open, at least one of them is not waiting for another. */
  lemma SomeTransactionRuns(events: seq<Event>, p: nat)
    requires p in Reach(events).txns
    ensures exists q :: q in Reach(events).txns && !Blocked(Reach(events), q)
  {
    ReachKeeps(events);
    FollowWaits(Reach(events), p, {});
  }

  /** The transactions followed so far are blocked and want lower locks than `p`. */
  ghost predicate Followed(s: State, seen: set<nat>, p: nat) {
    p in s.txns && p !in seen && seen <= s.txns.Keys &&
    forall v :: v in seen ==> Blocked(s, v) && Lower(Wanted(s.txns[v]), Wanted(s.txns[p]))
  }

  lemma FollowOn(s: State, seen: set<nat>, p: nat, q: nat)
    requires LocksInv(s.txns, s.locks) && Followed(s, seen, p) && q in s.txns && Waits(s, p, q) && Blocked(s, q)
    ensures Followed(s, seen + {p}, q)
    ensures |s.txns.Keys - (seen + {p})| < |s.txns.Keys - seen|
  {
    assert Blocked(s, p);
    BlockedClimbs(s, p, q);
    OneLess(s.txns.Keys, seen, p);
  }

  lemma OneLess(all: set<nat>, seen: set<nat>, p: nat)
    requires p in all && p !in seen
    ensures |all - (seen + {p})| < |all - seen|
  {
    var rest := all - (seen + {p});
    assert p in all - seen && p !in rest;
    SubsetSmaller(rest, all - seen);
  }

  lemma {:induction false} FollowWaits(s: State, p: nat, seen: set<nat>)
    requires LocksInv(s.txns, s.locks) && Followed(s, seen, p)
    ensures exists q :: q in s.txns && !Blocked(s, q)
    decreases |s.txns.Keys - seen|
  {
    if Blocked(s, p) {
      var q :| q in s.txns && Waits(s, p, q);
      if Blocked(s, q) {
        FollowOn(s, seen, p, q);
        FollowWaits(s, q, seen + {p});
      }
    }
  }

  lemma BlockedClimbs(s: State, p: nat, q: nat)
    requires LocksInv(s.txns, s.locks) && p in s.txns && q in s.txns && Waits(s, p, q) && Blocked(s, q)
    ensures Lower(Wanted(s.txns[p]), Wanted(s.txns[q]))
  {
    var r :| r in s.txns && Waits(s, q, r);
    WaitsClimb(s, p, q, r);
  }

  lemma SubsetSmaller(a: set<nat>, b: set<nat>)
    requires a < b
    ensures |a| < |b|
  {
    var x :| x in b - a;
    assert b == (b - a) + a;
  }
}
