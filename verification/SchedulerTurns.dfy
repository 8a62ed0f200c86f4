/**
 What a tick and a worker leave behind when nothing gets in their way: the events of
 `SchedulerLocks` strung together as the loops of `scheduler.run_tick` and
 `jobs.run_execution` string them, from any state the invariants allow.
 */
module SchedulerTurns {
  import opened SchedulerLocks
  import opened SchedulerRows
  import opened Workers
  import opened Wrappers

  /** The loop body of a tick for one company: its slot, a look, then an occurrence or an execution. */
  function Turn(s: State, p: nat, id: nat, ok: bool): State {
    var looked := Next(Next(s, Lock(p)), Check(p));
    if p in looked.txns && looked.txns[p].pc == Checked(true) then Next(looked, Skip(p))
    else Next(Next(looked, Insert(p, id)), Enqueue(p, ok))
  }

  /** The row of a company that was idle. */
  function NewRow(c: Company, ok: bool): Execution {
    Execution(c, if ok then Queued else Failed, Tick)
  }

  /** The transaction is about to take the slot of its next company, which is free. */
  predicate AtTurn(s: State, p: nat) {
    p in s.txns && s.txns[p].pc == AtLock && s.txns[p].pos < |s.txns[p].targets| &&
    Slot(s.txns[p].targets[s.txns[p].pos]) !in s.locks
  }

  lemma BusyUnlessEnded(s: State, ev: Event, c: Company)
    requires Inv(s) && Mover(ev).Some? && !ev.Abort?
    ensures Busy(Next(s, ev), c) <==> Busy(s, c)
  {
    forall e: nat ensures InFlight(Next(s, ev), e, c) <==> InFlight(s, e, c) {
      InFlightAfterIff(s, ev, e, c);
    }
  }

  lemma LockResult(s: State, p: nat)
    requires AtTurn(s, p)
    ensures var t := s.txns[p];
            Next(s, Lock(p)) == s.(locks := s.locks[Wanted(t) := p], txns := s.txns[p := t.(pc := Locked)])
  {
  }

  lemma CheckResult(s: State, p: nat, t: Txn)
    requires p in s.txns && s.txns[p] == t.(pc := Locked) && t.pos < |t.targets|
    ensures Next(s, Check(p)) ==
              s.(txns := s.txns[p := t.(pc := Checked(SeesInFlight(s, s.txns[p], t.targets[t.pos])))])
  {
  }

  /** The transaction locks the free slot and looks: it sees whether the company is busy. */
  lemma LookResult(s: State, p: nat)
    requires Inv(s) && AtTurn(s, p)
    ensures var t := s.txns[p];
            var c := t.targets[t.pos];
            Next(Next(s, Lock(p)), Check(p)) ==
              s.(locks := s.locks[Slot(c) := p], txns := s.txns[p := t.(pc := Checked(Busy(s, c)))])
  {
    var t := s.txns[p];
    var c := t.targets[t.pos];
    var locked := Next(s, Lock(p));
    LockResult(s, p);
    NextKeeps(s, Lock(p));
    BusyUnlessEnded(s, Lock(p), c);
    CheckSeesAll(locked, p, c);
    CheckResult(locked, p, t);
    LastUpdateStays(s.txns, p, t.(pc := Locked), t.(pc := Checked(Busy(s, c))));
  }

  lemma SkipResult(s: State, p: nat, t: Txn)
    requires p in s.txns && s.txns[p] == t.(pc := Checked(true))
    ensures Next(s, Skip(p)) == s.(txns := s.txns[p := t.(pc := AtLock, pos := t.pos + 1)])
  {
  }

  lemma FireResult(s: State, p: nat, t: Txn, id: nat, ok: bool)
    requires p in s.txns && s.txns[p] == t.(pc := Checked(false)) && t.pos < |t.targets| && id !in s.used
    ensures var row := NewRow(t.targets[t.pos], ok);
            Next(Next(s, Insert(p, id)), Enqueue(p, ok)) ==
              s.(used := s.used + {id}, jobs := if ok then s.jobs + [id] else s.jobs,
                 txns := s.txns[p := t.(pc := AtLock, pos := t.pos + 1, writes := t.writes[id := row])])
  {
    var inserted := Next(s, Insert(p, id));
    var first, row := NewRow(t.targets[t.pos], true), NewRow(t.targets[t.pos], ok);
    var t' := t.(pc := Inserted(id), writes := t.writes[id := first]);
    assert inserted == s.(used := s.used + {id}, txns := s.txns[p := t']);
    LastUpdateStays(t.writes, id, first, row);
    LastUpdateStays(s.txns, p, t', t.(pc := AtLock, pos := t.pos + 1, writes := t.writes[id := row]));
  }

  /** A turn leaves a busy company alone, and gives an idle one exactly one row, with a job unless refused. */
  lemma TurnResult(s: State, p: nat, id: nat, ok: bool)
    requires Inv(s) && AtTurn(s, p) && id !in s.used
    ensures Turn(s, p, id, ok) == TurnedTo(s, p, id, ok, Busy(s, s.txns[p].targets[s.txns[p].pos]))
  {
    LookResult(s, p);
    TurnAfterLook(s, p, id, ok, Busy(s, s.txns[p].targets[s.txns[p].pos]));
  }

  function TurnedTo(s: State, p: nat, id: nat, ok: bool, busy: bool): State
    requires AtTurn(s, p)
  {
    var t := s.txns[p];
    var c := t.targets[t.pos];
    var on := t.(pos := t.pos + 1);
    var s' := s.(locks := s.locks[Slot(c) := p]);
    if busy then s'.(txns := s.txns[p := on])
    else
      s'.(used := s.used + {id}, jobs := if ok then s.jobs + [id] else s.jobs,
          txns := s.txns[p := on.(writes := t.writes[id := NewRow(c, ok)])])
  }

  lemma TurnAfterLook(s: State, p: nat, id: nat, ok: bool, busy: bool)
    requires AtTurn(s, p) && id !in s.used
    requires var t := s.txns[p];
             Next(Next(s, Lock(p)), Check(p)) ==
               s.(locks := s.locks[Slot(t.targets[t.pos]) := p], txns := s.txns[p := t.(pc := Checked(busy))])
    ensures Turn(s, p, id, ok) == TurnedTo(s, p, id, ok, busy)
  {
    var t := s.txns[p];
    var looked := Next(Next(s, Lock(p)), Check(p));
    var on := t.(pos := t.pos + 1);
    if busy {
      SkipResult(looked, p, t);
      LastUpdateStays(s.txns, p, t.(pc := Checked(busy)), on);
    } else {
      FireResult(looked, p, t, id, ok);
      LastUpdateStays(s.txns, p, t.(pc := Checked(busy)),
                      on.(writes := t.writes[id := NewRow(t.targets[t.pos], ok)]));
    }
  }

  lemma TurnKeeps(s: State, p: nat, id: nat, ok: bool)
    requires Inv(s)
    ensures Inv(Turn(s, p, id, ok))
  {
    NextKeeps(s, Lock(p));
    var looked := Next(Next(s, Lock(p)), Check(p));
    NextKeeps(Next(s, Lock(p)), Check(p));
    NextKeeps(looked, Skip(p));
    NextKeeps(looked, Insert(p, id));
    NextKeeps(Next(looked, Insert(p, id)), Enqueue(p, ok));
  }

  // ---------------------------------------------------------------------------
  // A whole tick
  // ---------------------------------------------------------------------------

  /** What is given to a tick of one schedule: its companies, and for each the id and the queue's answer. */
  datatype Plan = Plan(p: nat, schedule: nat, targets: seq<Company>, ids: nat -> nat, accepts: nat -> bool)

  /** The loop body, for the company at a position. */
  function TurnOf(plan: Plan): (State, nat) -> State {
    (s: State, k: nat) => Turn(s, plan.p, plan.ids(k), plan.accepts(k))
  }

  /** A loop from 0 up to `k`. */
  function Loop<S>(body: (S, nat) -> S, s: S, k: nat): S {
    if k == 0 then s else body(Loop(body, s, k - 1), k - 1)
  }

  lemma {:induction false} LoopKeeps<S(!new)>(holds: (S, nat) -> bool, body: (S, nat) -> S, s: S, n: nat, k: nat)
    requires holds(s, 0) && k <= n
    requires forall i: nat, s': S :: i < n && holds(s', i) ==> holds(body(s', i), i + 1)
    ensures holds(Loop(body, s, k), k)
  {
    if k > 0 {
      LoopKeeps(holds, body, s, n, k - 1);
    }
  }

  /** The whole transaction: it begins, gives every company its turn, locks its schedule and commits. */
  function TickAlone(s: State, plan: Plan): State {
    var begun := Next(s, Begin(plan.p, plan.schedule, plan.targets));
    Next(Next(Loop(TurnOf(plan), begun, |plan.targets|), Lock(plan.p)), Commit(plan.p))
  }

  /** Nobody holds the locks the tick will ask for, and its ids are new. */
  ghost predicate Clear(s: State, plan: Plan) {
    plan.p !in s.txns && Sorted(plan.targets) && ScheduleRow(plan.schedule) !in s.locks &&
    (forall i :: 0 <= i < |plan.targets| ==> Slot(plan.targets[i]) !in s.locks) &&
    (forall i: nat :: i < |plan.targets| ==> plan.ids(i) !in s.used) &&
    (forall i: nat, j: nat :: i < j < |plan.targets| ==> plan.ids(i) != plan.ids(j))
  }

  /** The tick creates the row of its `i`-th company. */
  ghost predicate Fires(s: State, plan: Plan, i: nat) {
    i < |plan.targets| && !Busy(s, plan.targets[i])
  }

  /** `e` is the row of one of the first `k` companies. */
  ghost predicate FiredBefore(s: State, plan: Plan, k: nat, e: nat) {
    exists i: nat :: i < k && Fires(s, plan, i) && plan.ids(i) == e
  }

  ghost predicate QueuedBefore(s: State, plan: Plan, k: nat, e: nat) {
    exists i: nat :: i < k && Fires(s, plan, i) && plan.ids(i) == e && plan.accepts(i)
  }

  ghost predicate LockedBefore(plan: Plan, k: nat, r: Resource) {
    exists i: nat :: i < k && i < |plan.targets| && r == Slot(plan.targets[i])
  }

  /** The rows of the idle ones among the first `k` companies. */
  ghost predicate RowsOf(s: State, plan: Plan, k: nat, m: map<nat, Execution>) {
    (forall e :: e in m <==> FiredBefore(s, plan, k, e)) &&
    forall i: nat :: i < k && Fires(s, plan, i) ==>
      plan.ids(i) in m && m[plan.ids(i)] == NewRow(plan.targets[i], plan.accepts(i))
  }

  ghost predicate LocksOf(s: State, plan: Plan, k: nat, locks: map<Resource, nat>) {
    (forall r :: r in locks <==> r in s.locks || LockedBefore(plan, k, r)) &&
    forall r :: r in locks ==> locks[r] == if r in s.locks then s.locks[r] else plan.p
  }

  ghost predicate JobsOf(s: State, plan: Plan, k: nat, jobs: seq<nat>) {
    s.jobs <= jobs && forall e :: e in jobs <==> e in s.jobs || QueuedBefore(s, plan, k, e)
  }

  /** Between two turns: the transaction's own rows, locks and jobs, and nothing else. */
  ghost predicate Halfway(s: State, plan: Plan, k: nat, s': State) {
    plan.p in s'.txns && RowsOf(s, plan, k, s'.txns[plan.p].writes) &&
    s'.txns == s.txns[plan.p := Txn(plan.schedule, plan.targets, k, AtLock, s'.txns[plan.p].writes)] &&
    s'.committed == s.committed && s'.workers == s.workers && s'.taken == s.taken &&
    (forall e :: e in s'.used <==> e in s.used || FiredBefore(s, plan, k, e)) &&
    LocksOf(s, plan, k, s'.locks) && JobsOf(s, plan, k, s'.jobs)
  }

  /** Sorted companies are distinct, so earlier turns do not make a later company busy. */
  lemma BusyAtItsTurn(s: State, plan: Plan, k: nat, s': State)
    requires Clear(s, plan) && k < |plan.targets| && Halfway(s, plan, k, s')
    ensures Busy(s', plan.targets[k]) <==> Busy(s, plan.targets[k])
  {
    var c := plan.targets[k];
    OwnRowsAreOthers(s, plan, k, s'.txns[plan.p].writes);
    forall e: nat, x: Execution | x.company == c ensures Known(s', e, x) <==> Known(s, e, x) {
      if q :| Wrote(s', q, e, x) {
        assert q != plan.p && Wrote(s, q, e, x);
      }
      if q :| Wrote(s, q, e, x) {
        assert Wrote(s', q, e, x);
      }
    }
    forall e: nat ensures InFlight(s', e, c) <==> InFlight(s, e, c) {
      InFlightIsKnown(s, e, c);
      InFlightIsKnown(s', e, c);
    }
  }

  lemma OwnRowsAreOthers(s: State, plan: Plan, k: nat, m: map<nat, Execution>)
    requires Sorted(plan.targets) && k < |plan.targets| && RowsOf(s, plan, k, m)
    ensures forall e :: e in m ==> m[e].company != plan.targets[k]
  {
    forall e | e in m ensures m[e].company != plan.targets[k] {
      var i: nat :| i < k && Fires(s, plan, i) && plan.ids(i) == e;
      assert Before(plan.targets[i], plan.targets[k]);
    }
  }

  lemma FiredOn(s: State, plan: Plan, k: nat, e: nat)
    requires k < |plan.targets|
    ensures FiredBefore(s, plan, k + 1, e) <==>
              FiredBefore(s, plan, k, e) || (!Busy(s, plan.targets[k]) && plan.ids(k) == e)
    ensures QueuedBefore(s, plan, k + 1, e) <==>
              QueuedBefore(s, plan, k, e) || (!Busy(s, plan.targets[k]) && plan.ids(k) == e && plan.accepts(k))
  {
    if !Busy(s, plan.targets[k]) && plan.ids(k) == e {
      assert Fires(s, plan, k);
    }
  }

  lemma NotFiredYet(s: State, plan: Plan, k: nat)
    requires Clear(s, plan) && k < |plan.targets|
    ensures !FiredBefore(s, plan, k, plan.ids(k))
  {
  }

  lemma RowsOn(s: State, plan: Plan, k: nat, m: map<nat, Execution>)
    requires Clear(s, plan) && k < |plan.targets| && RowsOf(s, plan, k, m)
    ensures RowsOf(s, plan, k + 1,
                   if Busy(s, plan.targets[k]) then m else m[plan.ids(k) := NewRow(plan.targets[k], plan.accepts(k))])
  {
    forall e ensures FiredBefore(s, plan, k + 1, e) <==>
                     FiredBefore(s, plan, k, e) || (!Busy(s, plan.targets[k]) && plan.ids(k) == e)
    {
      FiredOn(s, plan, k, e);
    }
    NotFiredYet(s, plan, k);
  }

  lemma LocksOn(s: State, plan: Plan, k: nat, locks: map<Resource, nat>)
    requires Clear(s, plan) && k < |plan.targets| && LocksOf(s, plan, k, locks)
    ensures LocksOf(s, plan, k + 1, locks[Slot(plan.targets[k]) := plan.p])
  {
    forall r ensures LockedBefore(plan, k + 1, r) <==> LockedBefore(plan, k, r) || r == Slot(plan.targets[k]) {
    }
  }

  lemma JobsOn(s: State, plan: Plan, k: nat, jobs: seq<nat>)
    requires k < |plan.targets| && JobsOf(s, plan, k, jobs)
    ensures JobsOf(s, plan, k + 1,
                   if !Busy(s, plan.targets[k]) && plan.accepts(k) then jobs + [plan.ids(k)] else jobs)
  {
    forall e ensures QueuedBefore(s, plan, k + 1, e) <==>
              QueuedBefore(s, plan, k, e) || (!Busy(s, plan.targets[k]) && plan.ids(k) == e && plan.accepts(k))
    {
      FiredOn(s, plan, k, e);
    }
  }

  lemma SlotIsFree(s: State, plan: Plan, k: nat, s': State)
    requires Clear(s, plan) && k < |plan.targets| && Halfway(s, plan, k, s')
    ensures AtTurn(s', plan.p) && plan.ids(k) !in s'.used
  {
    NotFiredYet(s, plan, k);
    if i: nat :| i < k && Slot(plan.targets[k]) == Slot(plan.targets[i]) {
      assert Before(plan.targets[i], plan.targets[k]);
    }
  }

  lemma UsedOn(s: State, plan: Plan, k: nat, used: set<nat>)
    requires k < |plan.targets| && forall e :: e in used <==> e in s.used || FiredBefore(s, plan, k, e)
    ensures forall e :: e in (if Busy(s, plan.targets[k]) then used else used + {plan.ids(k)}) <==>
                        e in s.used || FiredBefore(s, plan, k + 1, e)
  {
    forall e ensures FiredBefore(s, plan, k + 1, e) <==>
                     FiredBefore(s, plan, k, e) || (!Busy(s, plan.targets[k]) && plan.ids(k) == e)
    {
      FiredOn(s, plan, k, e);
    }
  }

  lemma HalfwayOn(s: State, plan: Plan, k: nat, s': State)
    requires Clear(s, plan) && k < |plan.targets| && Halfway(s, plan, k, s') && AtTurn(s', plan.p)
    ensures Halfway(s, plan, k + 1,
                    TurnedTo(s', plan.p, plan.ids(k), plan.accepts(k), Busy(s, plan.targets[k])))
  {
    var t, c, ok := s'.txns[plan.p], plan.targets[k], plan.accepts(k);
    RowsOn(s, plan, k, t.writes);
    LocksOn(s, plan, k, s'.locks);
    JobsOn(s, plan, k, s'.jobs);
    UsedOn(s, plan, k, s'.used);
    TurnedParts(s', plan, k, t.writes, ok, Busy(s, c));
    if Busy(s, c) {
      PartsMakeHalfway(s, plan, k, s', s'.locks[Slot(c) := plan.p], s'.used, s'.jobs, t.writes);
    } else {
      PartsMakeHalfway(s, plan, k, s', s'.locks[Slot(c) := plan.p], s'.used + {plan.ids(k)},
                       if ok then s'.jobs + [plan.ids(k)] else s'.jobs, t.writes[plan.ids(k) := NewRow(c, ok)]);
    }
  }

  lemma TurnedParts(s: State, plan: Plan, k: nat, writes: map<nat, Execution>, ok: bool, busy: bool)
    requires AtTurn(s, plan.p) && s.txns[plan.p] == Txn(plan.schedule, plan.targets, k, AtLock, writes)
    ensures TurnedTo(s, plan.p, plan.ids(k), ok, busy) ==
              Parts(s, plan, k + 1, s.locks[Slot(plan.targets[k]) := plan.p],
                    if busy then s.used else s.used + {plan.ids(k)},
                    if !busy && ok then s.jobs + [plan.ids(k)] else s.jobs,
                    if busy then writes else writes[plan.ids(k) := NewRow(plan.targets[k], ok)])
  {
  }

  /** The state with these locks, ids and jobs, and the transaction before its `k`-th company with these rows. */
  function Parts(
      s: State, plan: Plan, k: nat,
      locks: map<Resource, nat>, used: set<nat>, jobs: seq<nat>, writes: map<nat, Execution>): State
  {
    s.(locks := locks, used := used, jobs := jobs,
       txns := s.txns[plan.p := Txn(plan.schedule, plan.targets, k, AtLock, writes)])
  }

  lemma PartsMakeHalfway(
      s: State, plan: Plan, k: nat, s': State,
      locks: map<Resource, nat>, used: set<nat>, jobs: seq<nat>, writes: map<nat, Execution>)
    requires Halfway(s, plan, k, s')
    requires RowsOf(s, plan, k + 1, writes) && JobsOf(s, plan, k + 1, jobs) && LocksOf(s, plan, k + 1, locks)
    requires forall e :: e in used <==> e in s.used || FiredBefore(s, plan, k + 1, e)
    ensures Halfway(s, plan, k + 1, Parts(s', plan, k + 1, locks, used, jobs, writes))
  {
    LastUpdateStays(s.txns, plan.p, s'.txns[plan.p], Txn(plan.schedule, plan.targets, k + 1, AtLock, writes));
  }

  lemma TurnIsHalfway(s: State, plan: Plan, k: nat, s': State)
    requires Clear(s, plan) && k < |plan.targets| && Halfway(s, plan, k, s') && Inv(s')
    ensures Halfway(s, plan, k + 1, Turn(s', plan.p, plan.ids(k), plan.accepts(k)))
  {
    SlotIsFree(s, plan, k, s');
    BusyAtItsTurn(s, plan, k, s');
    HalfwayOn(s, plan, k, s');
    TurnResult(s', plan.p, plan.ids(k), plan.accepts(k));
  }

  ghost predicate Sound(s: State, plan: Plan, k: nat, s': State) {
    Inv(s') && Halfway(s, plan, k, s')
  }

  lemma TurnIsSound(s: State, plan: Plan, k: nat, s': State)
    requires Clear(s, plan) && k < |plan.targets| && Sound(s, plan, k, s')
    ensures Sound(s, plan, k + 1, TurnOf(plan)(s', k))
  {
    TurnKeeps(s', plan.p, plan.ids(k), plan.accepts(k));
    TurnIsHalfway(s, plan, k, s');
  }

  lemma BeginIsHalfway(s: State, plan: Plan)
    requires Clear(s, plan)
    ensures Halfway(s, plan, 0, Next(s, Begin(plan.p, plan.schedule, plan.targets)))
  {
  }

  lemma BeginIsSound(s: State, plan: Plan)
    requires Inv(s) && Clear(s, plan)
    ensures Sound(s, plan, 0, Next(s, Begin(plan.p, plan.schedule, plan.targets)))
  {
    NextKeeps(s, Begin(plan.p, plan.schedule, plan.targets));
    BeginIsHalfway(s, plan);
  }

  ghost predicate KeepsSound(s: State, plan: Plan, body: (State, nat) -> State) {
    forall i: nat, s': State :: i < |plan.targets| && Sound(s, plan, i, s') ==> Sound(s, plan, i + 1, body(s', i))
  }

  lemma TurnsKeepSound(s: State, plan: Plan)
    requires Clear(s, plan)
    ensures KeepsSound(s, plan, TurnOf(plan))
  {
    forall i: nat, s': State | i < |plan.targets| && Sound(s, plan, i, s')
      ensures Sound(s, plan, i + 1, TurnOf(plan)(s', i))
    {
      TurnIsSound(s, plan, i, s');
    }
  }

  lemma LoopIsSound(s: State, plan: Plan, body: (State, nat) -> State, begun: State)
    requires KeepsSound(s, plan, body) && Sound(s, plan, 0, begun)
    ensures Sound(s, plan, |plan.targets|, Loop(body, begun, |plan.targets|))
  {
    var sound := (s': State, k: nat) => Sound(s, plan, k, s');
    forall i: nat, s': State | i < |plan.targets| && sound(s', i) ensures sound(body(s', i), i + 1) {
      assert Sound(s, plan, i, s');
    }
    LoopKeeps(sound, body, begun, |plan.targets|, |plan.targets|);
  }

  lemma TurnsAreSound(s: State, plan: Plan)
    requires Inv(s) && Clear(s, plan)
    ensures Sound(s, plan, |plan.targets|,
                  Loop(TurnOf(plan), Next(s, Begin(plan.p, plan.schedule, plan.targets)), |plan.targets|))
  {
    BeginIsSound(s, plan);
    TurnsKeepSound(s, plan);
    LoopIsSound(s, plan, TurnOf(plan), Next(s, Begin(plan.p, plan.schedule, plan.targets)));
  }

  /** The last two statements: the row of the schedule, and the commit. */
  lemma CommitResult(s: State, p: nat)
    requires p in s.txns && s.txns[p].pc == AtLock && s.txns[p].pos == |s.txns[p].targets|
    requires ScheduleRow(s.txns[p].schedule) !in s.locks
    ensures var held := s.locks[ScheduleRow(s.txns[p].schedule) := p];
            Next(Next(s, Lock(p)), Commit(p)) ==
              s.(committed := s.committed + s.txns[p].writes, txns := s.txns - {p},
                 locks := map r | r in held && held[r] != p :: held[r])
  {
    var locked := Next(s, Lock(p));
    assert locked == s.(locks := s.locks[ScheduleRow(s.txns[p].schedule) := p],
                        txns := s.txns[p := s.txns[p].(pc := AtCommit)]);
    assert locked.txns - {p} == s.txns - {p};
  }

  lemma LocksReturned(s: State, plan: Plan, locks: map<Resource, nat>)
    requires LocksInv(s.txns, s.locks) && plan.p !in s.txns && ScheduleRow(plan.schedule) !in s.locks
    requires LocksOf(s, plan, |plan.targets|, locks)
    ensures var held := locks[ScheduleRow(plan.schedule) := plan.p];
            (map r | r in held && held[r] != plan.p :: held[r]) == s.locks
  {
    forall r | r in s.locks ensures s.locks[r] != plan.p {
      assert s.locks[r] in s.txns;
    }
  }

  /**
   A tick that finds its locks free runs to its commit, gives every lock back, and leaves one
   committed row for exactly the companies that had nothing in flight, queued with a job or
   failed as the queue decided; nothing else changes.
   */
  lemma TickAloneFires(s: State, plan: Plan)
    requires Inv(s) && Clear(s, plan)
    ensures var s' := TickAlone(s, plan);
            s'.txns == s.txns && s'.locks == s.locks && s'.workers == s.workers && s'.taken == s.taken &&
            (forall e :: e in s.committed ==> e in s'.committed && s'.committed[e] == s.committed[e]) &&
            (forall e :: e in s'.committed <==> e in s.committed || FiredBefore(s, plan, |plan.targets|, e)) &&
            (forall i: nat :: Fires(s, plan, i) ==>
              plan.ids(i) in s'.committed && s'.committed[plan.ids(i)] == NewRow(plan.targets[i], plan.accepts(i))) &&
            JobsOf(s, plan, |plan.targets|, s'.jobs)
  {
    var begun := Next(s, Begin(plan.p, plan.schedule, plan.targets));
    TurnsAreSound(s, plan);
    TickEnds(s, plan, Loop(TurnOf(plan), begun, |plan.targets|));
  }

  lemma TickEnds(s: State, plan: Plan, done: State)
    requires LocksInv(s.txns, s.locks) && s.committed.Keys <= s.used
    requires Clear(s, plan) && Halfway(s, plan, |plan.targets|, done)
    ensures var s' := Next(Next(done, Lock(plan.p)), Commit(plan.p));
            s'.txns == s.txns && s'.locks == s.locks && s'.workers == s.workers && s'.taken == s.taken &&
            s'.jobs == done.jobs && s'.committed == s.committed + done.txns[plan.p].writes &&
            (forall e :: FiredBefore(s, plan, |plan.targets|, e) ==> e !in s.committed)
  {
    CommitResult(done, plan.p);
    LocksReturned(s, plan, done.locks);
    assert done.txns - {plan.p} == s.txns;
  }

  // ---------------------------------------------------------------------------
  // A worker
  // ---------------------------------------------------------------------------

  /** A worker takes a job, loads its row, marks it and finishes it. */
  function WorkAlone(s: State, w: nat, job: nat, final: Status): State {
    Next(Next(Next(s, Pick(w, job)), MarkRunning(w)), Finish(w, final))
  }

  /**
   A worker that nothing disturbs leaves exactly its own row changed, to the status it ended
   with; a job whose row is not committed yet is dropped, and no row changes.
   */
  lemma WorkAloneFinishes(s: State, w: nat, job: nat, final: Status)
    requires w !in s.workers && job < |s.jobs| && job !in s.taken && !Open(final)
    ensures WorkAlone(s, w, job, final) ==
              s.(taken := s.taken + {job},
                 committed := if s.jobs[job] in s.committed
                              then s.committed[s.jobs[job] := s.committed[s.jobs[job]].(status := final)]
                              else s.committed)
  {
    if s.jobs[job] in s.committed {
      var id, x := s.jobs[job], s.committed[s.jobs[job]];
      var picked := Next(s, Pick(w, job));
      MarkResult(picked, w);
      FinishResult(Next(picked, MarkRunning(w)), w, final);
      LastUpdateStays(s.committed, id, x.(status := Running), x.(status := final));
      LastUpdateStays(s.workers, w, Work(job, false), Work(job, true));
      assert s.workers[w := Work(job, true)] - {w} == s.workers;
    }
  }

  lemma MarkResult(s: State, w: nat)
    requires HasRow(s, w) && !s.workers[w].marked
    ensures var id := s.jobs[s.workers[w].job];
            Next(s, MarkRunning(w)) ==
              s.(committed := s.committed[id := s.committed[id].(status := Running)],
                 workers := s.workers[w := Work(s.workers[w].job, true)])
  {
  }

  lemma FinishResult(s: State, w: nat, final: Status)
    requires HasRow(s, w) && s.workers[w].marked && !Open(final)
    ensures var id := s.jobs[s.workers[w].job];
            Next(s, Finish(w, final)) ==
              s.(committed := s.committed[id := s.committed[id].(status := final)], workers := s.workers - {w})
  {
  }

  // ---------------------------------------------------------------------------
  // A worker that dies
  // ---------------------------------------------------------------------------

  /** The job was picked and no worker has it any more. */
  ghost predicate Abandoned(s: State, job: nat) {
    job < |s.jobs| && job in s.taken && forall w :: w in s.workers ==> s.workers[w].job != job
  }

  /** A worker that dies abandons its job and leaves every row as it was. */
  lemma CrashAbandons(s: State, w: nat)
    requires Inv(s) && w in s.workers
    ensures Abandoned(Next(s, WorkerCrash(w)), s.workers[w].job) && w !in Next(s, WorkerCrash(w)).workers
    ensures Next(s, WorkerCrash(w)).committed == s.committed
  {
  }

  lemma StaysAbandoned(s: State, ev: Event, job: nat)
    requires Inv(s) && Abandoned(s, job)
    ensures Abandoned(Next(s, ev), job) && Next(s, ev).jobs[job] == s.jobs[job]
  {
    JobsAfter(s, ev, s.jobs[job]);
    TakenJobsStay(s, ev, job);
  }

  /** A job that was picked is never picked again. */
  lemma TakenJobsStay(s: State, ev: Event, job: nat)
    requires job in s.taken && forall w :: w in s.workers ==> s.workers[w].job != job
    ensures job in Next(s, ev).taken && forall w :: w in Next(s, ev).workers ==> Next(s, ev).workers[w].job != job
  {
  }

  /** No event touches the committed row of an abandoned job. */
  lemma AbandonedRowStays(s: State, ev: Event, job: nat)
    requires Inv(s) && Abandoned(s, job) && s.jobs[job] in s.committed
    ensures var id := s.jobs[job];
            id in Next(s, ev).committed && Next(s, ev).committed[id] == s.committed[id]
  {
    var id, s' := s.jobs[job], Next(s, ev);
    CommittedAfter(s, ev, id);
    NextKeeps(s, ev);
    NotOfThisJob(s, ev, job);
    RowsAfter(s, ev, id, s.committed[id]);
    assert Known(s, id, s.committed[id]) && Known(s', id, s'.committed[id]);
    OneRowPerId(s', id, s'.committed[id], s.committed[id]);
  }

  lemma NotOfThisJob(s: State, ev: Event, job: nat)
    requires Inv(s) && Abandoned(s, job) && s.jobs[job] in s.committed
    ensures var id := s.jobs[job];
            Creates(s, ev, id).None? && !Vanishes(s, ev, id) && NewStatus(s, ev, id).None?
  {
    var id := s.jobs[job];
    forall p | p in s.txns ensures id !in s.txns[p].writes {
      assert s.txns[p].writes.Keys !! s.committed.Keys;
    }
    forall w | w in s.workers ensures !WorksOn(s, w, id) {
      var other := s.workers[w].job;
      assert other < job ==> s.jobs[other] != s.jobs[job];
      assert job < other ==> s.jobs[job] != s.jobs[other];
    }
  }

  /** The job is abandoned and its committed row is `x`. */
  ghost predicate StuckAt(s: State, job: nat, id: nat, x: Execution) {
    Abandoned(s, job) && s.jobs[job] == id && id in s.committed && s.committed[id] == x
  }

  lemma StaysStuck(s: State, ev: Event, job: nat, id: nat, x: Execution)
    requires Inv(s) && StuckAt(s, job, id, x)
    ensures StuckAt(Next(s, ev), job, id, x)
  {
    StaysAbandoned(s, ev, job);
    AbandonedRowStays(s, ev, job);
  }

  lemma StuckOn(events: seq<Event>, ev: Event, job: nat, id: nat, x: Execution)
    requires StuckAt(Reach(events), job, id, x)
    ensures StuckAt(Reach(events + [ev]), job, id, x)
  {
    ReachKeeps(events);
    StaysStuck(Reach(events), ev, job, id, x);
    ReachOn(events, ev);
  }

  lemma {:induction false} StuckInLaterStates(events: seq<Event>, more: seq<Event>, job: nat, id: nat, x: Execution)
    requires StuckAt(Reach(events), job, id, x)
    ensures StuckAt(Reach(events + more), job, id, x)
    decreases |more|
  {
    if more == [] {
      assert events + more == events;
    } else {
      var n := |more| - 1;
      var before := events + more[..n];
      StuckInLaterStates(events, more[..n], job, id, x);
      StuckOn(before, more[n], job, id, x);
      assert events + more == before + [more[n]];
    }
  }

  lemma CrashIsStuck(s: State, w: nat)
    requires Inv(s) && HasRow(s, w)
    ensures var id := s.jobs[s.workers[w].job];
            StuckAt(Next(s, WorkerCrash(w)), s.workers[w].job, id, s.committed[id])
  {
    CrashAbandons(s, w);
  }

  /**
   An execution whose worker dies keeps its status for ever, whatever runs later: jobs are
   picked once, so one that was running stays in flight and blocks its company.
   */
  lemma CrashedExecutionIsStuck(events: seq<Event>, w: nat, more: seq<Event>)
    requires HasRow(Reach(events), w) && Reach(events).workers[w].marked
    ensures var s := Reach(events);
            var id := s.jobs[s.workers[w].job];
            var later := Reach(events + [WorkerCrash(w)] + more);
            id in later.committed && later.committed[id] == s.committed[id] && Busy(later, s.committed[id].company)
  {
    var s := Reach(events);
    var job := s.workers[w].job;
    var id := s.jobs[job];
    ReachKeeps(events);
    CrashIsStuck(s, w);
    ReachOn(events, WorkerCrash(w));
    StuckInLaterStates(events + [WorkerCrash(w)], more, job, id, s.committed[id]);
    assert Open(s.committed[id].status);
    assert InFlight(Reach(events + [WorkerCrash(w)] + more), id, s.committed[id].company);
  }
}
