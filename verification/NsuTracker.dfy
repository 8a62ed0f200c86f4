/**
 The three stores of the last NSU (`nsu_tracker.py`, `db_nsu.py`) and the crash-safe file.

 Each store is a class whose `Set` is tied to one function on registers; the lemmas say
 that every store is the same register, a maximum.  The file system is a class whose
 operations stop at any system call, and the machine at the end runs sets, failures,
 crashes and restarts in any order.
 */
module NsuTracker {
  import opened Wrappers

  type Estado = map<string, int>

  // ---------------------------------------------------------------------------
  // The register
  // ---------------------------------------------------------------------------

  /** `obter_ultimo_nsu`. */
  function Get(m: Estado, cnpj: string): int {
    if cnpj in m then m[cnpj] else 0
  }

  /** `atualizar_nsu`. */
  function Put(m: Estado, cnpj: string, nsu: int): Estado {
    if nsu > Get(m, cnpj) then m[cnpj := nsu] else m
  }

  datatype SetCall = SetCall(cnpj: string, nsu: int)

  function PutAll(m: Estado, calls: seq<SetCall>): Estado {
    if calls == [] then m
    else
      var last := calls[|calls| - 1];
      Put(PutAll(m, calls[..|calls| - 1]), last.cnpj, last.nsu)
  }

  /** The register of one key: never below its start or any value set for it, and one of those. */
  predicate IsMaximum(v: int, start: int, calls: seq<SetCall>, cnpj: string) {
    v >= start &&
    (forall i :: 0 <= i < |calls| && calls[i].cnpj == cnpj ==> calls[i].nsu <= v) &&
    (v == start || exists i :: 0 <= i < |calls| && calls[i] == SetCall(cnpj, v))
  }

  /** After any calls the value of a key is the maximum of its start and its own values. */
  lemma {:induction false} PutAllIsMaximum(m: Estado, calls: seq<SetCall>, cnpj: string)
    ensures IsMaximum(Get(PutAll(m, calls), cnpj), Get(m, cnpj), calls, cnpj)
  {
    if calls != [] {
      var n := |calls| - 1;
      PutAllIsMaximum(m, calls[..n], cnpj);
      var v := Get(PutAll(m, calls[..n]), cnpj);
      if v != Get(m, cnpj) {
        var i :| 0 <= i < n && calls[..n][i] == SetCall(cnpj, v);
        assert calls[i] == SetCall(cnpj, v);
      }
      forall i | 0 <= i < n && calls[i].cnpj == cnpj ensures calls[i].nsu <= v {
        assert calls[..n][i] == calls[i];
      }
      assert calls[n] == SetCall(calls[n].cnpj, calls[n].nsu);
    }
  }

  /** So the order of the calls does not matter, nor do the calls for other keys. */
  lemma OrderDoesNotMatter(m: Estado, calls: seq<SetCall>, calls': seq<SetCall>, cnpj: string)
    requires forall c: SetCall :: c.cnpj == cnpj ==> (c in calls <==> c in calls')
    ensures Get(PutAll(m, calls), cnpj) == Get(PutAll(m, calls'), cnpj)
  {
    PutAllIsMaximum(m, calls, cnpj);
    PutAllIsMaximum(m, calls', cnpj);
    var v, v' := Get(PutAll(m, calls), cnpj), Get(PutAll(m, calls'), cnpj);
    if v != Get(m, cnpj) { assert SetCall(cnpj, v) in calls'; }
    if v' != Get(m, cnpj) { assert SetCall(cnpj, v') in calls; }
  }

  /** `InMemoryNsuSource`. */
  class InMemoryNsuSource {
    var estado: Estado

    constructor (initial: Estado)
      ensures estado == initial
    {
      estado := initial;
    }

    method Obter(cnpj: string) returns (nsu: int)
      ensures nsu == Get(estado, cnpj)
    {
      nsu := if cnpj in estado then estado[cnpj] else 0;
    }

    method Set(cnpj: string, nsu: int)
      modifies this
      ensures estado == Put(old(estado), cnpj, nsu)
    {
      var atual := Obter(cnpj);
      if nsu > atual {
        estado := estado[cnpj := nsu];
      }
    }
  }

  // ---------------------------------------------------------------------------
  // The database store
  // ---------------------------------------------------------------------------

  datatype CompanyRow = CompanyRow(cnpj: string, lastNsu: Option<int>)

  predicate Matches(rows: map<nat, CompanyRow>, id: nat, cnpj: string) {
    id in rows && rows[id].cnpj == Digits(cnpj)
  }

  /** What `DbNsuSource.get` returns: 0 for a missing company, another CNPJ or an unset cursor. */
  function DbGet(rows: map<nat, CompanyRow>, id: nat, cnpj: string): int {
    if Matches(rows, id, cnpj) && rows[id].lastNsu.Some? then rows[id].lastNsu.value else 0
  }

  /** One `UPDATE ... WHERE last_nsu IS NULL OR last_nsu < :nsu`, atomic on the row. */
  function DbPut(rows: map<nat, CompanyRow>, id: nat, cnpj: string, nsu: int): map<nat, CompanyRow> {
    if Matches(rows, id, cnpj) && (rows[id].lastNsu.None? || rows[id].lastNsu.value < nsu)
    then rows[id := rows[id].(lastNsu := Some(nsu))] else rows
  }

  class CompaniesTable {
    var rows: map<nat, CompanyRow>
  }

  class DbNsuSource {
    const table: CompaniesTable
    const companyId: nat

    constructor (table: CompaniesTable, companyId: nat)
      ensures this.table == table && this.companyId == companyId
    {
      this.table, this.companyId := table, companyId;
    }

    method Obter(cnpj: string) returns (nsu: int)
      ensures nsu == DbGet(table.rows, companyId, cnpj)
    {
      if companyId !in table.rows {
        return 0;
      }
      var row := table.rows[companyId];
      if row.cnpj != Digits(cnpj) {
        return 0;
      }
      return if row.lastNsu.Some? then row.lastNsu.value else 0;
    }

    /** A negative value raises `ValueError` before the statement. */
    method Set(cnpj: string, nsu: int) returns (raised: bool)
      modifies table
      ensures raised <==> nsu < 0
      ensures table.rows == if nsu < 0 then old(table.rows) else DbPut(old(table.rows), companyId, cnpj, nsu)
    {
      if nsu < 0 {
        return true;
      }
      if companyId in table.rows {
        var row := table.rows[companyId];
        if row.cnpj == Digits(cnpj) && (row.lastNsu.None? || row.lastNsu.value < nsu) {
          table.rows := table.rows[companyId := row.(lastNsu := Some(nsu))];
        }
      }
      return false;
    }
  }

  /** Statements of any runs and companies, in the order the row locks let them through. */
  datatype DbSet = DbSet(company: nat, cnpj: string, nsu: nat)

  function DbPutAll(rows: map<nat, CompanyRow>, sets: seq<DbSet>): map<nat, CompanyRow> {
    if sets == [] then rows
    else
      var last := sets[|sets| - 1];
      DbPut(DbPutAll(rows, sets[..|sets| - 1]), last.company, last.cnpj, last.nsu)
  }

  /** The calls that reach a company: the statements that name it with its own CNPJ. */
  function CallsOf(sets: seq<DbSet>, company: nat, cnpj: string): seq<SetCall> {
    if sets == [] then []
    else
      var last := sets[|sets| - 1];
      CallsOf(sets[..|sets| - 1], company, cnpj) +
      if last.company == company && Digits(last.cnpj) == cnpj then [SetCall(cnpj, last.nsu)] else []
  }

  /** The stored cursor of a company, 0 while unset. */
  function Stored(rows: map<nat, CompanyRow>, company: nat): int
    requires company in rows
  {
    if rows[company].lastNsu.Some? then rows[company].lastNsu.value else 0
  }

  /** One statement raises the cursor it reaches and leaves every other alone. */
  lemma DbPutStep(rows: map<nat, CompanyRow>, call: DbSet, company: nat)
    requires company in rows
    ensures var rows' := DbPut(rows, call.company, call.cnpj, call.nsu);
            company in rows' && rows'[company].cnpj == rows[company].cnpj &&
            Stored(rows', company) ==
              if call.company == company && Digits(call.cnpj) == rows[company].cnpj && call.nsu > Stored(rows, company)
              then call.nsu else Stored(rows, company)
  {
  }

  lemma {:induction false} StoredIsTheRegister(rows: map<nat, CompanyRow>, sets: seq<DbSet>, company: nat, d: string)
    requires company in rows && rows[company].cnpj == d
    ensures company in DbPutAll(rows, sets) && DbPutAll(rows, sets)[company].cnpj == d
    ensures Stored(DbPutAll(rows, sets), company) ==
              Get(PutAll(map[d := Stored(rows, company)], CallsOf(sets, company, d)), d)
  {
    if sets != [] {
      var earlier, last := sets[..|sets| - 1], sets[|sets| - 1];
      StoredIsTheRegister(rows, earlier, company, d);
      DbPutStep(DbPutAll(rows, earlier), last, company);
      PutLast(map[d := Stored(rows, company)], CallsOf(earlier, company, d), d, last.nsu);
      assert CallsOf(earlier, company, d) + [] == CallsOf(earlier, company, d);
    }
  }

  lemma PutLast(m: Estado, calls: seq<SetCall>, d: string, nsu: int)
    ensures var v := Get(PutAll(m, calls), d);
            Get(PutAll(m, calls + [SetCall(d, nsu)]), d) == if nsu > v then nsu else v
  {
    assert (calls + [SetCall(d, nsu)])[..|calls|] == calls;
  }

  /**
   For every interleaving of statements, the cursor of a company is the register of the
   calls that reached it, so it is their maximum; no other row has a say in it.
   */
  lemma DbIsTheSameRegister(rows: map<nat, CompanyRow>, sets: seq<DbSet>, company: nat, cnpj: string)
    requires Matches(rows, company, cnpj)
    ensures Matches(DbPutAll(rows, sets), company, cnpj)
    ensures DbGet(DbPutAll(rows, sets), company, cnpj) ==
              Get(PutAll(map[Digits(cnpj) := DbGet(rows, company, cnpj)], CallsOf(sets, company, Digits(cnpj))), Digits(cnpj))
  {
    StoredIsTheRegister(rows, sets, company, Digits(cnpj));
  }

  /** A company without a matching CNPJ reads 0 whatever is set. */
  lemma {:induction false} DbMismatchReadsZero(rows: map<nat, CompanyRow>, sets: seq<DbSet>, company: nat, cnpj: string)
    requires !Matches(rows, company, cnpj)
    ensures DbGet(DbPutAll(rows, sets), company, cnpj) == 0 && !Matches(DbPutAll(rows, sets), company, cnpj)
  {
    if sets != [] {
      DbMismatchReadsZero(rows, sets[..|sets| - 1], company, cnpj);
    }
  }

  // ---------------------------------------------------------------------------
  // The file store
  // ---------------------------------------------------------------------------

  /** What a JSON reader makes of a file. */
  datatype Content = Json(estado: Estado) | Garbage

  /** A file and whether its data reached the disk. */
  datatype File = File(content: Content, synced: bool)

  datatype Disk = Disk(main: Option<File>, tmp: Option<File>, backup: Option<File>)

  /** The system calls of `salvar_estado` in order: open (truncates), dump, fsync, replace. */
  datatype Call = Open | Dump | Fsync | Replace

  const CALLS: seq<Call> := [Open, Dump, Fsync, Replace]

  function DoCall(d: Disk, c: Call, m: Estado): Disk {
    match c
    case Open => d.(tmp := Some(File(Garbage, false)))
    case Dump => d.(tmp := Some(File(Json(m), false)))
    case Fsync => if d.tmp.Some? then d.(tmp := Some(d.tmp.value.(synced := true))) else d
    case Replace => d.(main := d.tmp, tmp := None)
  }

  /** The disk after the first `n` calls of a save. */
  function AfterCalls(d: Disk, m: Estado, n: nat): Disk
    requires n <= 4
  {
    if n == 0 then d else DoCall(AfterCalls(d, m, n - 1), CALLS[n - 1], m)
  }

  /** What `carregar_estado` returns. */
  function Recover(d: Disk): Estado {
    if d.main.Some? && d.main.value.content.Json? then d.main.value.content.estado else map[]
  }

  /** Power loss: data that was never synced is lost. */
  function Settle(f: Option<File>): Option<File> {
    if f.Some? && !f.value.synced then Some(File(Garbage, true)) else f
  }

  function PowerLoss(d: Disk): Disk { Disk(Settle(d.main), Settle(d.tmp), Settle(d.backup)) }

  class FileSystem {
    var disk: Disk

    /**
     `salvar_estado`.  `stop` is the call that raises `OSError` (4: none does); the handler
     then removes the temporary file, which may fail too, and raises.
     */
    method SalvarEstado(m: Estado, stop: nat, removeFails: bool) returns (ok: bool)
      requires stop <= 4
      modifies this
      ensures ok <==> stop == 4
      ensures disk.main == AfterCalls(old(disk), m, stop).main
      ensures !ok && !removeFails ==> disk == AfterCalls(old(disk), m, stop).(tmp := None)
      ensures !ok && removeFails ==> disk == AfterCalls(old(disk), m, stop)
      ensures ok ==> disk == Disk(Some(File(Json(m), true)), None, old(disk).backup)
    {
      for i := 0 to 4
        invariant i <= stop
        invariant disk == AfterCalls(old(disk), m, i)
      {
        if i == stop {
          if disk.tmp.Some? && !removeFails {
            disk := disk.(tmp := None);
          }
          return false;
        }
        disk := DoCall(disk, CALLS[i], m);
      }
      Saved(old(disk), m);
      return true;
    }

    /**
     `carregar_estado`.  A missing file is created empty, tolerating an `OSError`; a corrupt
     one is copied aside, tolerating an `OSError`, and left where it is; an `OSError` while
     reading a present one is not caught, and nothing is returned.
     */
    method CarregarEstado(stop: nat, removeFails: bool, backupFails: bool, readFails: bool) returns (m: Option<Estado>)
      requires stop <= 4
      modifies this
      ensures m.None? <==> old(disk).main.Some? && readFails
      ensures m.None? ==> disk == old(disk)
      ensures m.Some? ==> m.value == Recover(old(disk)) == Recover(disk)
      ensures m.Some? ==>
                m.value == if old(disk).main.Some? && old(disk).main.value.content.Json?
                           then old(disk).main.value.content.estado else map[]
      ensures old(disk).main.Some? ==> disk.main == old(disk).main
      ensures old(disk).main.None? ==> disk.main == AfterCalls(old(disk), map[], stop).main
    {
      if disk.main.None? {
        MainUntilReplaced(disk, map[], stop);
        var ok := SalvarEstado(map[], stop, removeFails);
        return Some(map[]);
      }
      if readFails {
        return None;
      }
      if disk.main.value.content.Json? {
        return Some(disk.main.value.content.estado);
      }
      if !backupFails {
        disk := disk.(backup := disk.main);
      }
      return Some(map[]);
    }
  }

  lemma Saved(d: Disk, m: Estado)
    ensures AfterCalls(d, m, 4) == Disk(Some(File(Json(m), true)), None, d.backup)
  {
    assert AfterCalls(d, m, 1) == DoCall(d, Open, m);
    assert AfterCalls(d, m, 2) == DoCall(AfterCalls(d, m, 1), Dump, m);
    assert AfterCalls(d, m, 3) == DoCall(AfterCalls(d, m, 2), Fsync, m);
  }

  /** Until the rename the file is the old one; the rename puts the whole new one in place. */
  lemma {:induction false} MainUntilReplaced(d: Disk, m: Estado, n: nat)
    requires n <= 4
    ensures AfterCalls(d, m, n).main == if n == 4 then Some(File(Json(m), true)) else d.main
  {
    if n == 4 {
      Saved(d, m);
    } else if n > 0 {
      MainUntilReplaced(d, m, n - 1);
    }
  }

  /**
   Why the save syncs: the same calls without it leave, after a power loss, neither the state
   before the save nor the new one, but a file that reads as empty.
   */
  lemma WithoutFsyncPowerLossLosesAll(d: Disk, m: Estado)
    ensures Recover(PowerLoss(DoCall(DoCall(DoCall(d, Open, m), Dump, m), Replace, m))) == map[]
    ensures Recover(PowerLoss(DoCall(DoCall(DoCall(DoCall(d, Open, m), Dump, m), Fsync, m), Replace, m))) == m
  {
  }

  class FileNsuSource {
    const fs: FileSystem
    var estado: Estado

    constructor (fs: FileSystem, estado: Estado)
      ensures this.fs == fs && this.estado == estado
    {
      this.fs, this.estado := fs, estado;
    }

    /** Opening the store: there is none when the load raises. */
    static method Abrir(fs: FileSystem, stop: nat, removeFails: bool, backupFails: bool, readFails: bool)
      returns (fonte: FileNsuSource?)
      requires stop <= 4
      modifies fs
      ensures fonte == null <==> old(fs.disk).main.Some? && readFails
      ensures fonte == null ==> fs.disk == old(fs.disk)
      ensures fonte != null ==>
                fresh(fonte) && fonte.fs == fs && fonte.estado == Recover(old(fs.disk)) == Recover(fs.disk)
    {
      var m := fs.CarregarEstado(stop, removeFails, backupFails, readFails);
      if m.None? {
        return null;
      }
      fonte := new FileNsuSource(fs, m.value);
    }

    method Obter(cnpj: string) returns (nsu: int)
      ensures nsu == Get(estado, cnpj)
    {
      nsu := if cnpj in estado then estado[cnpj] else 0;
    }

    /** The memory moves first; the file is saved only when the value changed, and that may raise. */
    method Set(cnpj: string, nsu: int, stop: nat, removeFails: bool) returns (raised: bool)
      requires stop <= 4
      modifies this, fs
      ensures estado == Put(old(estado), cnpj, nsu)
      ensures raised <==> nsu > Get(old(estado), cnpj) && stop < 4
      ensures fs.disk.main == if nsu > Get(old(estado), cnpj)
                              then AfterCalls(old(fs.disk), estado, stop).main else old(fs.disk).main
    {
      var anterior := Get(estado, cnpj);
      if nsu > anterior {
        estado := estado[cnpj := nsu];
      }
      if Get(estado, cnpj) != anterior {
        var ok := fs.SalvarEstado(estado, stop, removeFails);
        return !ok;
      }
      return false;
    }
  }

  // ---------------------------------------------------------------------------
  // Crashes and restarts
  // ---------------------------------------------------------------------------

  /** The file store as a machine: the disk, and the memory of the process when one is alive. */
  datatype Store = Store(disk: Disk, memory: Option<Estado>)

  /**
   How a save ends: it returns, it raises at a call, or before a call the process is killed,
   which leaves the disk as it is, or the machine loses power.
   */
  datatype Ending = Returns | Raises(call: nat, removeFails: bool) | Killed(call: nat) | Dies(call: nat)

  datatype Event =
    | Restart(ending: Ending, backupFails: bool, readFails: bool)
    | SetNsu(cnpj: string, nsu: int, ending: Ending)
    | Kill
    | PowerCut

  predicate EndingOk(e: Ending) {
    match e case Returns => true case Raises(n, _) => n < 4 case Killed(n) => n <= 4 case Dies(n) => n <= 4
  }

  /** The process outlives the save. */
  predicate Survives(e: Ending) {
    e.Returns? || e.Raises?
  }

  function Save(d: Disk, m: Estado, e: Ending): Disk
    requires EndingOk(e)
  {
    match e
    case Returns => AfterCalls(d, m, 4)
    case Raises(n, removeFails) =>
      if removeFails then AfterCalls(d, m, n) else AfterCalls(d, m, n).(tmp := None)
    case Killed(n) => AfterCalls(d, m, n)
    case Dies(n) => PowerLoss(AfterCalls(d, m, n))
  }

  function Next(s: Store, ev: Event): Store {
    match ev
    case Restart(e, backupFails, readFails) =>
      if !EndingOk(e) || s.memory.Some? || (s.disk.main.Some? && readFails) then s
      else if s.disk.main.None? then
        Store(Save(s.disk, map[], e), if Survives(e) then Some(map[]) else None)
      else if s.disk.main.value.content.Json? || backupFails then s.(memory := Some(Recover(s.disk)))
      else Store(s.disk.(backup := s.disk.main), Some(Recover(s.disk)))
    case SetNsu(cnpj, nsu, e) =>
      if !EndingOk(e) || s.memory.None? then s
      else
        var m := Put(s.memory.value, cnpj, nsu);
        if Get(m, cnpj) == Get(s.memory.value, cnpj) then s
        else Store(Save(s.disk, m, e), if Survives(e) then Some(m) else None)
    case Kill => Store(s.disk, None)
    case PowerCut => Store(PowerLoss(s.disk), None)
  }

  function Run(start: Disk, events: seq<Event>): Store {
    if events == [] then Store(start, None)
    else Next(Run(start, events[..|events| - 1]), events[|events| - 1])
  }

  /** Pointwise below, reading absent keys as 0. */
  ghost predicate Below(m: Estado, m': Estado) {
    forall cnpj: string :: Get(m, cnpj) <= Get(m', cnpj)
  }

  /** The file under the real name has always reached the disk, and the memory is never behind it. */
  ghost predicate Inv(s: Store) {
    (s.disk.main.Some? ==> s.disk.main.value.synced) &&
    (s.memory.Some? ==> Below(Recover(s.disk), s.memory.value))
  }

  /**
   The state a reader recovers is the one before a save or the whole new one, however it ended:
   the new one exactly when the save got past its last call.
   */
  lemma SaveIsAtomic(d: Disk, m: Estado, e: Ending)
    requires EndingOk(e) && (d.main.Some? ==> d.main.value.synced)
    ensures Save(d, m, e).main in {d.main, Some(File(Json(m), true))}
    ensures e.Returns? ==> Save(d, m, e).main == Some(File(Json(m), true))
    ensures Recover(Save(d, m, e)) ==
              if e.Returns? || ((e.Killed? || e.Dies?) && e.call == 4) then m else Recover(d)
  {
    match e {
      case Returns => MainUntilReplaced(d, m, 4);
      case Raises(n, _) => MainUntilReplaced(d, m, n);
      case Killed(n) => MainUntilReplaced(d, m, n);
      case Dies(n) => MainUntilReplaced(d, m, n);
    }
  }

  lemma PutGrows(m: Estado, cnpj: string, nsu: int)
    ensures Below(m, Put(m, cnpj, nsu))
  {
  }

  /** No event loses ground: what a reader recovers only grows, and memory stays ahead of it. */
  lemma NextKeeps(s: Store, ev: Event)
    requires Inv(s)
    ensures Inv(Next(s, ev)) && Below(Recover(s.disk), Recover(Next(s, ev).disk))
  {
    match ev {
      case Restart(e, _, _) =>
        if EndingOk(e) && s.memory.None? && s.disk.main.None? {
          SaveIsAtomic(s.disk, map[], e);
        }
      case SetNsu(cnpj, nsu, e) =>
        if EndingOk(e) && s.memory.Some? {
          PutGrows(s.memory.value, cnpj, nsu);
          SaveIsAtomic(s.disk, Put(s.memory.value, cnpj, nsu), e);
        }
      case Kill =>
      case PowerCut =>
    }
  }

  lemma {:induction false} RunKeeps(start: Disk, events: seq<Event>)
    requires start.main.Some? ==> start.main.value.synced
    ensures Inv(Run(start, events))
  {
    if events != [] {
      RunKeeps(start, events[..|events| - 1]);
      NextKeeps(Run(start, events[..|events| - 1]), events[|events| - 1]);
    }
  }

  /**
   Over any sets, failures, kills, power cuts and restarts: the recovered map never regresses, is
   pointwise at most the memory, and one more event leaves the map before it or the one in
   the memory the event was saving.
   */
  lemma RecoveredNeverRegresses(start: Disk, events: seq<Event>, ev: Event)
    requires start.main.Some? ==> start.main.value.synced
    ensures var s, s' := Run(start, events), Run(start, events + [ev]);
            Below(Recover(s.disk), Recover(s'.disk)) &&
            (s'.memory.Some? ==> Below(Recover(s'.disk), s'.memory.value))
    ensures var s, s' := Run(start, events), Run(start, events + [ev]);
            Recover(s'.disk) == Recover(s.disk) ||
            (ev.SetNsu? && s.memory.Some? && Recover(s'.disk) == Put(s.memory.value, ev.cnpj, ev.nsu))
  {
    var s := Run(start, events);
    assert (events + [ev])[..|events|] == events;
    RunKeeps(start, events);
    NextKeeps(s, ev);
    if ev.SetNsu? && EndingOk(ev.ending) && s.memory.Some? {
      SaveIsAtomic(s.disk, Put(s.memory.value, ev.cnpj, ev.nsu), ev.ending);
    }
    if ev.Restart? && EndingOk(ev.ending) && s.memory.None? && s.disk.main.None? {
      SaveIsAtomic(s.disk, map[], ev.ending);
    }
  }

  /** A process that starts reads what the disk holds, and one that is killed or loses power has no memory. */
  lemma RestartReads(s: Store, ev: Event)
    requires Inv(s)
    ensures ev.Restart? && s.memory.None? && EndingOk(ev.ending) && !(s.disk.main.Some? && ev.readFails) &&
            (s.disk.main.None? ==> Survives(ev.ending)) ==>
              Next(s, ev).memory == Some(Recover(s.disk)) && Recover(Next(s, ev).disk) == Recover(s.disk)
    ensures ev.Kill? || ev.PowerCut? ==> Next(s, ev).memory.None? && Recover(Next(s, ev).disk) == Recover(s.disk)
    ensures ev.Kill? ==> Next(s, ev).disk == s.disk
    ensures ev.PowerCut? && s.disk.tmp.Some? && !s.disk.tmp.value.synced ==>
              Next(s, ev).disk.tmp == Some(File(Garbage, true))
  {
    if ev.Restart? && EndingOk(ev.ending) && s.disk.main.None? {
      SaveIsAtomic(s.disk, map[], ev.ending);
    }
  }

  /**
   A set that returns puts its value in the memory.  It is on the disk, for a reader after any
   crash, if and only if the value was new to the memory or the disk held as much already: a
   value that an earlier set raised on is answered without another save.
   */
  lemma ReturnedSetIsOnDiskIff(s: Store, cnpj: string, nsu: int)
    requires Inv(s) && s.memory.Some?
    ensures var s' := Next(s, SetNsu(cnpj, nsu, Returns));
            s'.memory.Some? && nsu <= Get(s'.memory.value, cnpj) &&
            (nsu <= Get(Recover(s'.disk), cnpj) <==>
              nsu > Get(s.memory.value, cnpj) || nsu <= Get(Recover(s.disk), cnpj))
    ensures nsu > Get(s.memory.value, cnpj) ==>
              Recover(Next(s, SetNsu(cnpj, nsu, Returns)).disk) == s.memory.value[cnpj := nsu]
  {
    SaveIsAtomic(s.disk, Put(s.memory.value, cnpj, nsu), Returns);
  }

  /** What a returned set put on the disk stays there, whatever happens later. */
  lemma {:induction false} ReturnedSetIsDurable(
      start: Disk, events: seq<Event>, cnpj: string, nsu: int, more: seq<Event>)
    requires start.main.Some? ==> start.main.value.synced
    requires Run(start, events).memory.Some? && nsu > Get(Run(start, events).memory.value, cnpj)
    ensures nsu <= Get(Recover(Run(start, events + [SetNsu(cnpj, nsu, Returns)] + more).disk), cnpj)
    decreases |more|
  {
    var saved := events + [SetNsu(cnpj, nsu, Returns)];
    if more == [] {
      assert saved + more == saved && saved[..|events|] == events;
      RunKeeps(start, events);
      ReturnedSetIsOnDiskIff(Run(start, events), cnpj, nsu);
    } else {
      var n := |more| - 1;
      ReturnedSetIsDurable(start, events, cnpj, nsu, more[..n]);
      RecoveredNeverRegresses(start, saved + more[..n], more[n]);
      assert saved + more == saved + more[..n] + [more[n]];
    }
  }

  /** The smallest such case: a set raises, the same set then returns, and a power cut loses the value. */
  lemma RepeatedSetMayNotSave(cnpj: string, nsu: nat)
    requires nsu > 0
    ensures var disk := Disk(Some(File(Json(map[]), true)), None, None);
            var raised := [Restart(Returns, false, false), SetNsu(cnpj, nsu, Raises(0, false))];
            var again := raised + [SetNsu(cnpj, nsu, Returns)];
            Run(disk, raised).memory == Some(map[cnpj := nsu]) &&
            Run(disk, again) == Run(disk, raised) && Recover(Run(disk, again + [PowerCut]).disk) == map[]
  {
    var disk := Disk(Some(File(Json(map[]), true)), None, None);
    var started := [Restart(Returns, false, false)];
    var raised := started + [SetNsu(cnpj, nsu, Raises(0, false))];
    var again := raised + [SetNsu(cnpj, nsu, Returns)];
    assert raised == [Restart(Returns, false, false), SetNsu(cnpj, nsu, Raises(0, false))];
    assert started[..0] == [] && raised[..1] == started && again[..2] == raised && (again + [PowerCut])[..3] == again;
    assert Run(disk, started) == Store(disk, Some(map[]));
    assert Run(disk, raised) == Store(disk, Some(map[cnpj := nsu]));
  }

  /** The last save the living process attempted raised. */
  predicate LastSaveRaised(start: Disk, events: seq<Event>) {
    if events == [] then false
    else
      var before, ev := events[..|events| - 1], events[|events| - 1];
      var s := Run(start, before);
      match ev
      case Kill => false
      case PowerCut => false
      case Restart(_, _, _) => s.memory.Some? && LastSaveRaised(start, before)
      case SetNsu(cnpj, nsu, e) =>
        if EndingOk(e) && s.memory.Some? && nsu > Get(s.memory.value, cnpj) then e.Raises?
        else LastSaveRaised(start, before)
  }

  /** A living process has in memory what a reader would recover, unless its last save raised. */
  lemma {:induction false} FileIsBehindIffLastSaveRaised(start: Disk, events: seq<Event>)
    requires start.main.Some? ==> start.main.value.synced
    requires Run(start, events).memory.Some?
    ensures Recover(Run(start, events).disk) != Run(start, events).memory.value <==> LastSaveRaised(start, events)
  {
    if events != [] {
      var n := |events| - 1;
      var s, ev := Run(start, events[..n]), events[n];
      RunKeeps(start, events[..n]);
      if s.memory.Some? {
        FileIsBehindIffLastSaveRaised(start, events[..n]);
      }
      if ev.SetNsu? && EndingOk(ev.ending) && s.memory.Some? {
        var m := Put(s.memory.value, ev.cnpj, ev.nsu);
        SaveIsAtomic(s.disk, m, ev.ending);
        if ev.ending.Raises? && ev.nsu > Get(s.memory.value, ev.cnpj) {
          MainUntilReplaced(s.disk, m, ev.ending.call);
          assert Get(Recover(s.disk), ev.cnpj) < Get(m, ev.cnpj);
        }
      }
      if ev.Restart? && EndingOk(ev.ending) && s.memory.None? && s.disk.main.None? {
        SaveIsAtomic(s.disk, map[], ev.ending);
      }
    }
  }
}
