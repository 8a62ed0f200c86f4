/**
 Schedules: their CRUD (`schedules/routes.py`) and what a tick writes back
 (`scheduler._select_due_schedules`, `_update_schedule_after_tick`).

 `next_run_at` caches a value computed from the cron expression and the time zone.  The
 module says when the cache is fresh, and proves exactly which interleavings keep it so.
 */
module Schedules {
  import opened Wrappers

  datatype Schedule = Schedule(
    tenant: nat, company: Option<nat>, cron: string, zone: string,
    enabled: bool, lastRun: Option<int>, nextRun: Option<int>)

  /**
   The cron library: the normalised form of a valid expression, the known time zones, and
   the next run after a base instant, which fails for an expression it cannot serve.
   */
  datatype Rules = Rules(
    normalize: string -> Option<string>, knownZone: string -> bool, nextRun: (string, string, int) -> Option<int>)

  /** The next run lies after its base. */
  ghost predicate Forward(rules: Rules) {
    forall cron, zone, base :: rules.nextRun(cron, zone, base).Some? ==> rules.nextRun(cron, zone, base).value > base
  }

  datatype ApiError = BadCron | BadZone | BadCompany | EmptyPayload | NotFound | NullField | CronFailed

  // ---------------------------------------------------------------------------
  // Editing a schedule
  // ---------------------------------------------------------------------------

  /** A key of the PATCH payload: absent, an explicit null, or a value. */
  datatype Field<+T> = Unset | Null | To(value: T)

  datatype Patch = Patch(cron: Field<string>, zone: Field<string>, company: Field<nat>, enabled: Field<bool>)

  function Or<T>(f: Field<T>, current: T): T {
    if f.To? then f.value else current
  }

  /** `recompute_next` of `update_schedule`. */
  predicate Recomputes(row: Schedule, p: Patch) {
    (p.cron.To? && p.cron.value != row.cron) || (p.zone.To? && p.zone.value != row.zone) ||
    (p.enabled == To(true) && !row.enabled)
  }

  predicate Clears(row: Schedule, p: Patch) {
    p.enabled == To(false) && row.enabled && !Recomputes(row, p)
  }

  /** The row after a PATCH whose values passed validation. */
  function Patched(rules: Rules, row: Schedule, p: Patch, now: int): Result<Schedule, ApiError> {
    var edited := row.(
      cron := Or(p.cron, row.cron), zone := Or(p.zone, row.zone), enabled := Or(p.enabled, row.enabled),
      company := if p.company.To? then Some(p.company.value) else if p.company.Null? then None else row.company);
    if Recomputes(row, p) && edited.enabled then
      var next := rules.nextRun(edited.cron, edited.zone, now);
      if next.None? then Failure(CronFailed) else Success(edited.(nextRun := next))
    else if Recomputes(row, p) || Clears(row, p) then Success(edited.(nextRun := None))
    else Success(edited)
  }

  /** Every column the payload names has its value, and every other column is as it was. */
  predicate Edited(p: Patch, row: Schedule, row': Schedule) {
    row'.tenant == row.tenant && row'.lastRun == row.lastRun &&
    (if p.cron.To? then row'.cron == p.cron.value else row'.cron == row.cron) &&
    (if p.zone.To? then row'.zone == p.zone.value else row'.zone == row.zone) &&
    (if p.enabled.To? then row'.enabled == p.enabled.value else row'.enabled == row.enabled) &&
    match p.company
    case Unset => row'.company == row.company
    case Null => row'.company.None?
    case To(c) => row'.company == Some(c)
  }

  /**
   The next run of an edited row, told from the two rows: computed anew for an enabled schedule
   whose cron or zone changed or that was disabled, gone for a disabled one that was enabled or
   changed, and otherwise the old one.
   */
  predicate Rescheduled(rules: Rules, row: Schedule, row': Schedule, now: int) {
    var changed := row'.cron != row.cron || row'.zone != row.zone;
    if row'.enabled then
      if changed || !row.enabled then row'.nextRun.Some? && row'.nextRun == rules.nextRun(row'.cron, row'.zone, now)
      else row'.nextRun == row.nextRun
    else if changed || row.enabled then row'.nextRun.None?
    else row'.nextRun == row.nextRun
  }

  /** What an edit leaves, field by field; it fails exactly when the next run it needs cannot be computed. */
  lemma PatchedFields(rules: Rules, row: Schedule, p: Patch, now: int)
    ensures Patched(rules, row, p, now).Success? ==>
              Edited(p, row, Patched(rules, row, p, now).value) && Rescheduled(rules, row, Patched(rules, row, p, now).value, now)
    ensures var cron, zone := Or(p.cron, row.cron), Or(p.zone, row.zone);
            Patched(rules, row, p, now).Failure? <==>
              Or(p.enabled, row.enabled) && (cron != row.cron || zone != row.zone || !row.enabled) &&
              rules.nextRun(cron, zone, now).None?
  {
  }

  /** The fields a tick or a PATCH refreshes agree with the schedule. */
  ghost predicate Fresh(rules: Rules, row: Schedule) {
    (row.enabled <==> row.nextRun.Some?) && (row.nextRun.Some? ==> Computed(rules, row))
  }

  /** The cached instant came from the schedule's own cron and zone. */
  ghost predicate Computed(rules: Rules, row: Schedule) {
    exists base :: rules.nextRun(row.cron, row.zone, base) == row.nextRun
  }

  class ScheduleTable {
    var rows: map<nat, Schedule>

    /** `create_schedule`. */
    method CreateSchedule(
        rules: Rules, id: nat, tenant: nat, company: Option<nat>, cronExpr: string, zone: string, enabled: bool,
        companyExists: nat -> bool, now: int)
      returns (r: Result<Schedule, ApiError>)
      requires id !in rows
      modifies this
      ensures r.Failure? ==> rows == old(rows)
      ensures r.Success? ==>
                rows == old(rows)[id := r.value] && Fresh(rules, r.value) && r.value.enabled == enabled &&
                Some(r.value.cron) == rules.normalize(cronExpr) && r.value.zone == zone &&
                r.value.company == company && r.value.tenant == tenant && r.value.lastRun.None?
      ensures r.Success? <==>
                rules.normalize(cronExpr).Some? && rules.knownZone(zone) &&
                (company.Some? ==> companyExists(company.value)) &&
                (enabled ==> rules.nextRun(rules.normalize(cronExpr).value, zone, now).Some?)
      ensures r.Success? ==> r.value.nextRun == if enabled then rules.nextRun(r.value.cron, zone, now) else None
      ensures r.Failure? ==>
                match r.error
                case BadCron => rules.normalize(cronExpr).None?
                case BadZone => rules.normalize(cronExpr).Some? && !rules.knownZone(zone)
                case BadCompany => rules.knownZone(zone) && company.Some? && !companyExists(company.value)
                case CronFailed => rules.normalize(cronExpr).Some? && rules.knownZone(zone) && enabled
                case _ => false
    {
      var cron := rules.normalize(cronExpr);
      if cron.None? {
        return Failure(BadCron);
      }
      if !rules.knownZone(zone) {
        return Failure(BadZone);
      }
      if company.Some? && !companyExists(company.value) {
        return Failure(BadCompany);
      }
      var next := None;
      if enabled {
        next := rules.nextRun(cron.value, zone, now);
        if next.None? {
          return Failure(CronFailed);
        }
      }
      var row := Schedule(tenant, company, cron.value, zone, enabled, None, next);
      rows := rows[id := row];
      return Success(row);
    }

    /**
     `update_schedule`.  A null for a column that cannot be null is refused by the
     computation or by the table, in both cases without writing.
     */
    method UpdateSchedule(rules: Rules, id: nat, p: Patch, companyExists: nat -> bool, now: int)
      returns (r: Result<Schedule, ApiError>)
      modifies this
      ensures r.Failure? ==> rows == old(rows)
      ensures r.Success? ==>
                id in old(rows) && r == Patched(rules, old(rows)[id], p, now) && rows == old(rows)[id := r.value]
      ensures r.Success? <==>
                p != Patch(Unset, Unset, Unset, Unset) && id in old(rows) &&
                (p.company.To? ==> companyExists(p.company.value)) &&
                !p.cron.Null? && !p.zone.Null? && !p.enabled.Null? &&
                Patched(rules, old(rows)[id], p, now).Success?
      ensures r.Success? ==> Edited(p, old(rows)[id], r.value) && Rescheduled(rules, old(rows)[id], r.value, now)
      ensures r.Failure? ==>
                match r.error
                case EmptyPayload => p == Patch(Unset, Unset, Unset, Unset)
                case NotFound => p != Patch(Unset, Unset, Unset, Unset) && id !in old(rows)
                case BadCompany => id in old(rows) && p.company.To? && !companyExists(p.company.value)
                case NullField => id in old(rows) && (p.cron.Null? || p.zone.Null? || p.enabled.Null?)
                case CronFailed =>
                  id in old(rows) &&
                  rules.nextRun(Or(p.cron, old(rows)[id].cron), Or(p.zone, old(rows)[id].zone), now).None?
                case _ => false
    {
      if id in rows { PatchedFields(rules, rows[id], p, now); }
      if p == Patch(Unset, Unset, Unset, Unset) {
        return Failure(EmptyPayload);
      }
      if id !in rows {
        return Failure(NotFound);
      }
      var current := rows[id];
      if p.company.To? && !companyExists(p.company.value) {
        return Failure(BadCompany);
      }
      if p.cron.Null? || p.zone.Null? || p.enabled.Null? {
        return Failure(NullField);
      }
      var nextEnabled := Or(p.enabled, current.enabled);
      var cronChanged := p.cron.To? && p.cron.value != current.cron;
      var zoneChanged := p.zone.To? && p.zone.value != current.zone;
      var flipToTrue := p.enabled.To? && p.enabled.value && !current.enabled;
      var flipToFalse := p.enabled.To? && !p.enabled.value && current.enabled;
      var recompute := cronChanged || zoneChanged || flipToTrue;
      var next := current.nextRun;
      if recompute && nextEnabled {
        next := rules.nextRun(Or(p.cron, current.cron), Or(p.zone, current.zone), now);
        if next.None? {
          return Failure(CronFailed);
        }
      } else if recompute && !nextEnabled {
        next := None;
      } else if flipToFalse && !recompute {
        next := None;
      }
      var updated := current;
      if p.cron.To? { updated := updated.(cron := p.cron.value); }
      if p.zone.To? { updated := updated.(zone := p.zone.value); }
      if p.enabled.To? { updated := updated.(enabled := p.enabled.value); }
      if p.company.To? { updated := updated.(company := Some(p.company.value)); }
      if p.company.Null? { updated := updated.(company := None); }
      updated := updated.(nextRun := next);
      rows := rows[id := updated];
      return Success(updated);
    }
  }

  /**
   An edit leaves the cache fresh exactly when it recomputed or cleared it, or when the
   cache was fresh already.
   */
  lemma PatchFreshIff(rules: Rules, row: Schedule, p: Patch, now: int)
    requires Patched(rules, row, p, now).Success?
    ensures Fresh(rules, Patched(rules, row, p, now).value) <==>
              Recomputes(row, p) || Clears(row, p) || Fresh(rules, row)
  {
    var row' := Patched(rules, row, p, now).value;
    if Recomputes(row, p) && row'.enabled {
      assert rules.nextRun(row'.cron, row'.zone, now) == row'.nextRun;
    } else if !Recomputes(row, p) && !Clears(row, p) {
      assert row'.cron == row.cron && row'.zone == row.zone && row'.enabled == row.enabled;
      assert Computed(rules, row') <==> Computed(rules, row);
    }
  }

  // ---------------------------------------------------------------------------
  // Ticks
  // ---------------------------------------------------------------------------

  /** `_select_due_schedules`. */
  predicate Due(row: Schedule, now: int) {
    row.enabled && row.nextRun.Some? && row.nextRun.value <= now
  }

  /** `_update_schedule_after_tick`, with a next run computed from what the tick selected. */
  function Ticked(row: Schedule, next: int, fired: bool, clock: int): Schedule {
    row.(nextRun := Some(next), lastRun := if fired then Some(clock) else row.lastRun)
  }

  /** It writes the two instants and no other column; the last run only when it created something. */
  lemma TickedFields(row: Schedule, next: int, fired: bool, clock: int)
    ensures var row' := Ticked(row, next, fired, clock);
            row'.nextRun == Some(next) && (fired ==> row'.lastRun == Some(clock)) && (!fired ==> row'.lastRun == row.lastRun) &&
            row'.tenant == row.tenant && row'.company == row.company && row'.cron == row.cron &&
            row'.zone == row.zone && row'.enabled == row.enabled
  {
  }

  /**
   The write of a tick against a row that may have been edited since the tick selected it.
   The flag of the cache is right exactly when the row is still enabled, and then the
   cache is fresh exactly when the written instant is one of the row's own cron and zone.
   */
  lemma TickFreshIff(rules: Rules, selected: Schedule, row: Schedule, now: int, fired: bool, clock: int)
    requires rules.nextRun(selected.cron, selected.zone, now).Some?
    ensures var next := rules.nextRun(selected.cron, selected.zone, now);
            var row' := Ticked(row, next.value, fired, clock);
            (row'.enabled <==> row'.nextRun.Some?) <==> row.enabled
    ensures var next := rules.nextRun(selected.cron, selected.zone, now);
            var row' := Ticked(row, next.value, fired, clock);
            Fresh(rules, row') <==> row.enabled && exists base :: rules.nextRun(row.cron, row.zone, base) == next
    ensures var row' := Ticked(row, rules.nextRun(selected.cron, selected.zone, now).value, fired, clock);
            row.enabled && row.cron == selected.cron && row.zone == selected.zone ==> Fresh(rules, row')
  {
    var next := rules.nextRun(selected.cron, selected.zone, now);
    var row' := Ticked(row, next.value, fired, clock);
    assert Computed(rules, row') <==> exists base :: rules.nextRun(row.cron, row.zone, base) == next;
    if row.cron == selected.cron && row.zone == selected.zone {
      assert rules.nextRun(row.cron, row.zone, now) == next;
    }
  }

  /** A tick that selected some rows and has not written them back yet. */
  datatype System = System(rows: map<nat, Schedule>, selected: map<nat, (Schedule, int)>)

  /** `TickAll` is a tick nothing interleaves with; `Select` and `Write` are its two halves. */
  datatype Event =
    | Create(id: nat, row: Schedule, now: int)
    | Edit(id: nat, patch: Patch, now: int)
    | Delete(id: nat)
    | TickAll(now: int, skips: nat -> bool, fires: nat -> bool, clock: int)
    | Select(id: nat, now: int)
    | Write(id: nat, fired: bool, clock: int)

  function CreateRow(rules: Rules, row: Schedule, now: int): Option<Schedule> {
    if !row.enabled then Some(row.(nextRun := None))
    else if rules.nextRun(row.cron, row.zone, now).Some? then
      Some(row.(nextRun := rules.nextRun(row.cron, row.zone, now)))
    else None
  }

  /** One row of a whole tick: untouched when not due, skipped, or out of cron. */
  function TickRow(rules: Rules, row: Schedule, now: int, skip: bool, fired: bool, clock: int): Schedule {
    var next := rules.nextRun(row.cron, row.zone, now);
    if Due(row, now) && !skip && next.Some? then Ticked(row, next.value, fired, clock) else row
  }

  function Next(rules: Rules, s: System, ev: Event): System {
    match ev
    case Create(id, row, now) =>
      if id !in s.rows && CreateRow(rules, row, now).Some?
      then s.(rows := s.rows[id := CreateRow(rules, row, now).value]) else s
    case Edit(id, p, now) =>
      if id in s.rows && Patched(rules, s.rows[id], p, now).Success?
      then s.(rows := s.rows[id := Patched(rules, s.rows[id], p, now).value]) else s
    case Delete(id) => s.(rows := s.rows - {id})
    case TickAll(now, skips, fires, clock) =>
      s.(rows := map id | id in s.rows :: TickRow(rules, s.rows[id], now, skips(id), fires(id), clock))
    case Select(id, now) =>
      if id in s.rows && Due(s.rows[id], now) then s.(selected := s.selected[id := (s.rows[id], now)]) else s
    case Write(id, fired, clock) =>
      if id in s.selected then
        var (row, now) := s.selected[id];
        var next := rules.nextRun(row.cron, row.zone, now);
        var s' := s.(selected := s.selected - {id});
        if id in s.rows && next.Some? then s'.(rows := s.rows[id := Ticked(s.rows[id], next.value, fired, clock)]) else s'
      else s
  }

  function Reach(rules: Rules, events: seq<Event>): System {
    if events == [] then System(map[], map[])
    else Next(rules, Reach(rules, events[..|events| - 1]), events[|events| - 1])
  }

  /** What an event leaves of one row: it is created, edited, deleted, or keeps all but its two instants. */
  lemma RowsFollowEvents(rules: Rules, s: System, ev: Event, id: nat)
    ensures var s' := Next(rules, s, ev);
            (id in s'.rows <==>
              (id in s.rows && ev != Delete(id)) ||
              (id !in s.rows && ev.Create? && ev.id == id &&
               (ev.row.enabled ==> rules.nextRun(ev.row.cron, ev.row.zone, ev.now).Some?)))
    ensures var s' := Next(rules, s, ev);
            id in s'.rows ==>
              if id !in s.rows then
                s'.rows[id] == ev.row.(nextRun := if ev.row.enabled then rules.nextRun(ev.row.cron, ev.row.zone, ev.now) else None)
              else if ev.Edit? && ev.id == id && Patched(rules, s.rows[id], ev.patch, ev.now).Success? then
                Edited(ev.patch, s.rows[id], s'.rows[id]) && Rescheduled(rules, s.rows[id], s'.rows[id], ev.now)
              else
                s'.rows[id].(nextRun := None, lastRun := None) == s.rows[id].(nextRun := None, lastRun := None) &&
                (!ev.TickAll? && !ev.Write? ==> s'.rows[id] == s.rows[id])
  {
    if ev.Edit? && id in s.rows {
      PatchedFields(rules, s.rows[id], ev.patch, ev.now);
    }
  }

  /** After a whole tick the schedules still due are exactly those it skipped or could not reschedule. */
  lemma TickAllLeavesNothingDue(
      rules: Rules, s: System, now: int, skips: nat -> bool, fires: nat -> bool, clock: int, id: nat)
    requires Forward(rules) && id in s.rows
    ensures var s' := Next(rules, s, TickAll(now, skips, fires, clock));
            id in s'.rows &&
            (Due(s'.rows[id], now) <==>
              Due(s.rows[id], now) && (skips(id) || rules.nextRun(s.rows[id].cron, s.rows[id].zone, now).None?))
  {
  }

  ghost predicate AllFresh(rules: Rules, s: System) {
    forall id :: id in s.rows ==> Fresh(rules, s.rows[id])
  }

  predicate Serialised(events: seq<Event>) {
    forall i :: 0 <= i < |events| ==> !events[i].Write?
  }

  lemma SerialStepKeepsFresh(rules: Rules, s: System, ev: Event)
    requires AllFresh(rules, s) && !ev.Write?
    ensures AllFresh(rules, Next(rules, s, ev))
  {
    match ev {
      case Create(id, row, now) =>
        var created := CreateRow(rules, row, now);
        if created.Some? && row.enabled {
          assert rules.nextRun(created.value.cron, created.value.zone, now) == created.value.nextRun;
        }
      case Edit(id, p, now) =>
        if id in s.rows && Patched(rules, s.rows[id], p, now).Success? {
          PatchFreshIff(rules, s.rows[id], p, now);
        }
      case Delete(_) =>
      case TickAll(now, skips, fires, clock) =>
        var s' := Next(rules, s, ev);
        forall id | id in s'.rows ensures Fresh(rules, s'.rows[id]) {
          var row := s.rows[id];
          if Due(row, now) && !skips(id) && rules.nextRun(row.cron, row.zone, now).Some? {
            TickFreshIff(rules, row, row, now, fires(id), clock);
          }
        }
      case Select(_, _) =>
    }
  }

  /**
   In every state reached by edits and ticks that do not interleave, a schedule is enabled
   exactly when it has a next run, and that instant comes from its current cron and zone.
   */
  lemma {:induction false} SerialisedRunsStayFresh(rules: Rules, events: seq<Event>)
    requires Serialised(events)
    ensures AllFresh(rules, Reach(rules, events))
  {
    if events != [] {
      SerialisedRunsStayFresh(rules, events[..|events| - 1]);
      SerialStepKeepsFresh(rules, Reach(rules, events[..|events| - 1]), events[|events| - 1]);
    }
  }

  /** Whatever interleaves, an enabled schedule never loses its next run. */
  lemma {:induction false} EnabledAlwaysHasNextRun(rules: Rules, events: seq<Event>, id: nat)
    requires id in Reach(rules, events).rows && Reach(rules, events).rows[id].enabled
    ensures Reach(rules, events).rows[id].nextRun.Some?
  {
    var before, ev := events[..|events| - 1], events[|events| - 1];
    var s := Reach(rules, before);
    if id in s.rows && s.rows[id].enabled {
      EnabledAlwaysHasNextRun(rules, before, id);
    }
  }

  /**
   An edit that disables a schedule between the two halves of a tick: the tick still writes
   its next run, so a disabled schedule keeps one until the next edit that clears or recomputes.
   */
  lemma DisablingDuringATickLeavesANextRun(rules: Rules, events: seq<Event>, id: nat, now: int, later: int)
    requires id in Reach(rules, events).rows && Due(Reach(rules, events).rows[id], now)
    requires var row := Reach(rules, events).rows[id]; rules.nextRun(row.cron, row.zone, now).Some?
    ensures var disable := Edit(id, Patch(Unset, Unset, Unset, To(false)), later);
            var selected := Next(rules, Reach(rules, events), Select(id, now));
            var s := Next(rules, Next(rules, selected, disable), Write(id, true, later));
            id in s.rows && !s.rows[id].enabled && s.rows[id].nextRun.Some? && !Fresh(rules, s.rows[id]) &&
            forall t :: !Due(s.rows[id], t)
  {
  }
}
