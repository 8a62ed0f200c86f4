/**
 One collection run (`collector.fetch_nfse` driven by `jobs.run_execution`).

 `Database` holds the tables a run touches and `ExecutionRun` the counters of the
 progress callback.  The callback, the loop over the notes and the whole job are methods;
 each is tied to a function of the old state, and the lemmas are about those functions.
 */
module Collection {
  import opened Wrappers
  import opened Fetcher

  datatype ItemStatus = Ok | Cancelled | ParseError

  datatype NfseItem = NfseItem(
    nsu: int, key: Option<string>, issuer: Option<string>, xml: Option<string>, status: ItemStatus)

  datatype Company = Company(id: nat, tenant: nat, cnpj: string)

  datatype Execution = Execution(id: nat, company: Company)

  datatype ObjectKey = ObjectKey(execution: Execution, nsu: int)

  datatype RowStatus = RowOk | RowSkipped | RowFailed

  /** A row of `execution_items`; its tenant is the tenant of its execution. */
  datatype Row = Row(
    execution: Execution, nsu: int, key: Option<string>, objectKey: Option<ObjectKey>, status: RowStatus)

  /** What the storage and the database do with one item. */
  datatype Upload = Uploaded | StorageError | UploadRaises

  /** An insertion may raise having stored nothing, or lose the acknowledgement of its commit. */
  datatype Insertion = Inserts | InsertRaises | AckLost

  datatype Attempt = Attempt(upload: Upload, insertion: Insertion)

  // ---------------------------------------------------------------------------
  // Documents to items
  // ---------------------------------------------------------------------------

  predicate Truthy(key: Option<string>) { key.Some? && key.value != "" }

  function EnvelopeKey(d: Document): Option<string> {
    if Truthy(d.upperKey) then d.upperKey else d.lowerKey
  }

  /** `_doc_para_nfse_item`. */
  function ToItem(d: Document): NfseItem {
    match d.xml
    case NoXml => NfseItem(Nsu(d), EnvelopeKey(d), None, None, ParseError)
    case Malformed(text) => NfseItem(Nsu(d), EnvelopeKey(d), None, Some(text), ParseError)
    case Parsed(text, accessKey, issuer, cancelled) =>
      NfseItem(Nsu(d), if Truthy(accessKey) then accessKey else EnvelopeKey(d), issuer, Some(text),
               if cancelled then Cancelled else Ok)
  }

  predicate IsNfse(d: Document) { d.kind == "NFSE" }

  /** `filtrar_por_tipo_documento` with its default types. */
  function Nfse(docs: seq<Document>): (r: seq<Document>)
    ensures forall d :: d in r <==> d in docs && d.kind == "NFSE"
  {
    if docs == [] then []
    else (if IsNfse(docs[0]) then [docs[0]] else []) + Nfse(docs[1..])
  }

  /** How many notes convert to an item of this status. */
  function WithStatus(docs: seq<Document>, st: ItemStatus): nat {
    if docs == [] then 0
    else WithStatus(docs[..|docs| - 1], st) + if ToItem(docs[|docs| - 1]).status == st then 1 else 0
  }

  /** Every note has one of the three statuses. */
  lemma {:induction false} StatusesPartition(docs: seq<Document>)
    ensures WithStatus(docs, Ok) + WithStatus(docs, Cancelled) + WithStatus(docs, ParseError) == |docs|
  {
    if docs != [] {
      StatusesPartition(docs[..|docs| - 1]);
    }
  }

  /** Which, with one document at a time, is a filter: order and repetitions are kept. */
  lemma {:induction false} NfseConcat(a: seq<Document>, b: seq<Document>)
    ensures Nfse(a + b) == Nfse(a) + Nfse(b)
  {
    if a == [] {
      assert a + b == b;
    } else {
      NfseConcat(a[1..], b);
      var head := if IsNfse(a[0]) then [a[0]] else [];
      assert (a + b)[0] == a[0] && (a + b)[1..] == a[1..] + b;
      assert head + (Nfse(a[1..]) + Nfse(b)) == (head + Nfse(a[1..])) + Nfse(b);
    }
  }

  /** `_is_issued_item`: the note was issued by the company itself. */
  predicate IsIssued(item: NfseItem, company: Company) {
    var emitter := Digits(if item.issuer.Some? then item.issuer.value else "");
    |emitter| == 14 && emitter == Digits(company.cnpj)
  }

  // ---------------------------------------------------------------------------
  // The progress callback
  // ---------------------------------------------------------------------------

  /** The partial unique index `(tenant_id, chave_nfse) WHERE chave_nfse IS NOT NULL`. */
  predicate Stored(rows: seq<Row>, tenant: nat, key: string) {
    exists i :: 0 <= i < |rows| && rows[i].key == Some(key) && rows[i].execution.company.tenant == tenant
  }

  /** How the callback leaves one item: caught an exception, hit the index, or inserted a row; `Lost` did both. */
  datatype Outcome = Caught | Duplicate | Inserted(row: Row) | Lost(row: Row)

  function NewRow(e: Execution, item: NfseItem, a: Attempt): Row {
    Row(e, item.nsu, item.key,
        if item.xml.Some? && a.upload.Uploaded? then Some(ObjectKey(e, item.nsu)) else None,
        match item.status case Ok => RowOk case Cancelled => RowSkipped case ParseError => RowFailed)
  }

  function OutcomeOf(rows: seq<Row>, e: Execution, item: NfseItem, a: Attempt): Outcome {
    if (item.xml.Some? && a.upload.UploadRaises?) || a.insertion.InsertRaises? then Caught
    else if item.key.Some? && Stored(rows, e.company.tenant, item.key.value) then
      (if a.insertion.AckLost? then Caught else Duplicate)
    else if a.insertion.AckLost? then Lost(NewRow(e, item, a))
    else Inserted(NewRow(e, item, a))
  }

  /** The object the callback of a real run stores for an item, before it inserts the row. */
  function Uploads(e: Execution, item: NfseItem, a: Attempt): set<ObjectKey> {
    if item.xml.Some? && a.upload.Uploaded? then {ObjectKey(e, item.nsu)} else {}
  }

  /** The objects a run stores. */
  function Objects(e: Execution, dry: bool, docs: seq<Document>, attempts: nat -> Attempt): set<ObjectKey> {
    if dry || docs == [] then {}
    else
      var n := |docs| - 1;
      Objects(e, dry, docs[..n], attempts) + Uploads(e, ToItem(docs[n]), attempts(n))
  }

  function RowsAfter(rows: seq<Row>, o: Outcome): seq<Row> {
    if o.Inserted? || o.Lost? then rows + [o.row] else rows
  }

  /** The counters of a run; the last four are only kept here, the source drops them. */
  datatype Tally = Tally(
    ok: nat, fail: nat, storageErrors: nat, duplicates: nat, foreign: nat, caught: nat, lost: nat)

  const ZERO := Tally(0, 0, 0, 0, 0, 0, 0)

  function Total(t: Tally): nat { t.ok + t.fail + t.duplicates + t.foreign }

  /** The counters for an item that was seen for the first time. */
  function Judge(t: Tally, e: Execution, item: NfseItem): Tally {
    if item.status.ParseError? then t.(fail := t.fail + 1)
    else if !IsIssued(item, e.company) then t.(foreign := t.foreign + 1)
    else t.(ok := t.ok + 1)
  }

  function Count(t: Tally, e: Execution, item: NfseItem, a: Attempt, o: Outcome): Tally {
    var t' := if item.xml.Some? && a.upload.StorageError? then t.(storageErrors := t.storageErrors + 1) else t;
    match o
    case Caught => t'.(fail := t'.fail + 1, caught := t'.caught + 1)
    case Lost(_) => t'.(fail := t'.fail + 1, caught := t'.caught + 1, lost := t'.lost + 1)
    case Duplicate => t'.(duplicates := t'.duplicates + 1)
    case Inserted(_) => Judge(t', e, item)
  }

  /** The table and the counters as the callback leaves them. */
  datatype Progress = Progress(rows: seq<Row>, tally: Tally)

  function Step(p: Progress, e: Execution, dry: bool, item: NfseItem, a: Attempt): Progress {
    if dry then p.(tally := Judge(p.tally, e, item))
    else
      var o := OutcomeOf(p.rows, e, item, a);
      Progress(RowsAfter(p.rows, o), Count(p.tally, e, item, a, o))
  }

  /** Rows and counters after the callback has seen the items of `docs`. */
  function Collect(rows: seq<Row>, e: Execution, dry: bool, docs: seq<Document>, attempts: nat -> Attempt): Progress {
    if docs == [] then Progress(rows, ZERO)
    else
      var n := |docs| - 1;
      Step(Collect(rows, e, dry, docs[..n], attempts), e, dry, ToItem(docs[n]), attempts(n))
  }

  /** `_decide_final_status`. */
  datatype RunStatus = Running | Succeeded | Partial | Failed

  function FinalStatus(t: Tally, fatalRejected: bool): RunStatus {
    if fatalRejected then Failed
    else if t.ok == 0 && t.fail == 0 && t.storageErrors == 0 then Succeeded
    else if t.fail > 0 || t.storageErrors > 0 then (if t.ok == 0 then Failed else Partial)
    else Succeeded
  }

  /** The guard on `companies.last_nsu`. */
  predicate Advances(t: Tally, dry: bool, from: int, to: int) {
    FinalStatus(t, false) in {Succeeded, Partial} && t.storageErrors == 0 && !dry && to > from
  }

  /** `DbNsuSource.set`: the update that only moves forward. */
  function SetIfGreater(lastNsu: map<Company, int>, c: Company, nsu: int): map<Company, int> {
    if c !in lastNsu || lastNsu[c] < nsu then lastNsu[c := nsu] else lastNsu
  }

  function Cursor(lastNsu: map<Company, int>, c: Company): int {
    if c in lastNsu then lastNsu[c] else 0
  }

  // ---------------------------------------------------------------------------
  // The job
  // ---------------------------------------------------------------------------

  datatype Closing = Closing(nsuFrom: int, nsuTo: int, total: nat, ok: nat, fail: nat)

  class Database {
    var rows: seq<Row>
    var lastNsu: map<Company, int>
    var status: map<Execution, RunStatus>
    var closed: map<Execution, Closing>
    /** The keys in the object store. */
    var objects: set<ObjectKey>

    constructor ()
      ensures rows == [] && lastNsu == map[] && status == map[] && closed == map[] && objects == {}
    {
      rows, lastNsu, status, closed, objects := [], map[], map[], map[], {};
    }

    /** `_insert_execution_item`: true exactly when the index did not already hold the key. */
    method InsertExecutionItem(row: Row) returns (inserted: bool)
      modifies this`rows
      ensures inserted <==> !(row.key.Some? && Stored(old(rows), row.execution.company.tenant, row.key.value))
      ensures rows == if inserted then old(rows) + [row] else old(rows)
    {
      if row.key.Some? {
        for i := 0 to |rows|
          invariant forall j :: 0 <= j < i ==>
            !(rows[j].key == row.key && rows[j].execution.company.tenant == row.execution.company.tenant)
        {
          if rows[i].key == row.key && rows[i].execution.company.tenant == row.execution.company.tenant {
            return false;
          }
        }
      }
      rows := rows + [row];
      return true;
    }
  }

  /** Nothing but the entry of `e` differs. */
  ghost predicate OthersSame(before: map<Execution, Closing>, after: map<Execution, Closing>, e: Execution) {
    forall x :: x != e ==> (x in before <==> x in after) && (x in before ==> before[x] == after[x])
  }

  datatype Summary = Summary(nsuFrom: int, nsuTo: int, documents: nat, nfse: nat, ok: nat, cancelled: nat, errors: nat)

  class ExecutionRun {
    const execution: Execution
    const dryRun: bool
    var itemsOk: nat
    var itemsFail: nat
    var storageErrors: nat
    ghost var duplicates: nat
    ghost var foreign: nat
    ghost var caught: nat
    ghost var lost: nat

    constructor (execution: Execution, dryRun: bool)
      ensures this.execution == execution && this.dryRun == dryRun && Counters() == ZERO
    {
      this.execution, this.dryRun := execution, dryRun;
      itemsOk, itemsFail, storageErrors, duplicates, foreign, caught, lost := 0, 0, 0, 0, 0, 0, 0;
    }

    ghost function Counters(): Tally
      reads this
    {
      Tally(itemsOk, itemsFail, storageErrors, duplicates, foreign, caught, lost)
    }

    /** `_on_progress`: an exception inside it is caught and counted as a failed item. */
    method OnProgress(db: Database, item: NfseItem, a: Attempt)
      modifies this, db`rows, db`objects
      ensures Progress(db.rows, Counters()) == Step(old(Progress(db.rows, Counters())), execution, dryRun, item, a)
      ensures db.objects == old(db.objects) + if dryRun then {} else Uploads(execution, item, a)
    {
      if dryRun {
        Account(item);
        return;
      }
      var xmlKey := None;
      if item.xml.Some? {
        if a.upload.UploadRaises? {
          Catch();
          return;
        }
        if a.upload.StorageError? {
          storageErrors := storageErrors + 1;
        } else {
          xmlKey := Some(ObjectKey(execution, item.nsu));
          db.objects := db.objects + {ObjectKey(execution, item.nsu)};
        }
      }
      if a.insertion.InsertRaises? {
        Catch();
        return;
      }
      var rowStatus := match item.status case Ok => RowOk case Cancelled => RowSkipped case ParseError => RowFailed;
      var inserted := db.InsertExecutionItem(Row(execution, item.nsu, item.key, xmlKey, rowStatus));
      if a.insertion.AckLost? {
        Catch();
        if inserted {
          lost := lost + 1;
        }
        return;
      }
      if !inserted {
        duplicates := duplicates + 1;
        return;
      }
      Account(item);
    }

    /** The catch-all of the callback. */
    method Catch()
      modifies this
      ensures Counters() == old(Counters()).(fail := old(itemsFail) + 1, caught := old(caught) + 1)
    {
      itemsFail, caught := itemsFail + 1, caught + 1;
    }

    method Account(item: NfseItem)
      modifies this
      ensures Counters() == Judge(old(Counters()), execution, item)
    {
      if item.status != ParseError && !IsIssued(item, execution.company) {
        foreign := foreign + 1;
      } else if item.status in {Ok, Cancelled} {
        itemsOk := itemsOk + 1;
      } else {
        itemsFail := itemsFail + 1;
      }
    }

    /** The documents above the stored cursor, or the exception of the portal. */
    ghost function Fetched(lastNsu: map<Company, int>, portal: Portal, top: int): Result<seq<Document>, string>
      requires BoundedBy(portal, top)
    {
      var pages := Paginate(portal, 0, Cursor(lastNsu, execution.company), 0, None, top);
      if pages.Failure? then Failure(pages.error) else Success(pages.value.docs)
    }

    /** `nsu_from` and `nsu_to` of a run that fetched `docs`. */
    function Window(lastNsu: map<Company, int>, docs: seq<Document>): (int, int) {
      (Cursor(lastNsu, execution.company), Highest(Cursor(lastNsu, execution.company), docs))
    }

    /** `fetch_nfse`: paginate from the stored cursor, then hand every note to the callback. */
    method FetchNfse(db: Database, portal: Portal, attempts: nat -> Attempt, ghost top: int)
      returns (r: Result<Summary, string>)
      requires BoundedBy(portal, top) && Counters() == ZERO
      modifies this, db`rows, db`objects
      ensures r.Failure? <==> Fetched(old(db.lastNsu), portal, top).Failure?
      ensures r.Failure? ==> db.rows == old(db.rows) && db.objects == old(db.objects) && Counters() == ZERO
      ensures r.Success? ==>
                db.objects ==
                  old(db.objects) + Objects(execution, dryRun, Nfse(Fetched(old(db.lastNsu), portal, top).value), attempts)
      ensures r.Success? ==>
                var docs := Fetched(old(db.lastNsu), portal, top).value;
                r.value.nsuFrom == Cursor(old(db.lastNsu), execution.company) &&
                r.value.nsuTo == Highest(r.value.nsuFrom, docs) &&
                r.value.documents == |docs| && r.value.nfse == |Nfse(docs)| &&
                r.value.ok == WithStatus(Nfse(docs), Ok) && r.value.cancelled == WithStatus(Nfse(docs), Cancelled) &&
                r.value.errors == WithStatus(Nfse(docs), ParseError)
      ensures r.Success? ==>
                Progress(db.rows, Counters()) ==
                  Collect(old(db.rows), execution, dryRun, Nfse(Fetched(old(db.lastNsu), portal, top).value), attempts)
    {
      var from := Cursor(db.lastNsu, execution.company);
      var fetched := BuscarTodosDfeNovos(portal, from, None, top);
      if fetched.Failure? {
        return Failure(fetched.error);
      }
      var (documents, to) := fetched.value;
      var docs := Nfse(documents);
      var ok, cancelled, errors := HandOver(db, docs, attempts);
      return Success(Summary(from, to, |documents|, |docs|, ok, cancelled, errors));
    }

    /** The loop of `fetch_nfse`: count each note by its status and hand it to the callback. */
    method HandOver(db: Database, docs: seq<Document>, attempts: nat -> Attempt)
      returns (ok: nat, cancelled: nat, errors: nat)
      requires Counters() == ZERO
      modifies this, db`rows, db`objects
      ensures ok == WithStatus(docs, Ok) && cancelled == WithStatus(docs, Cancelled)
      ensures errors == WithStatus(docs, ParseError)
      ensures Progress(db.rows, Counters()) == Collect(old(db.rows), execution, dryRun, docs, attempts)
      ensures db.objects == old(db.objects) + Objects(execution, dryRun, docs, attempts)
    {
      ok, cancelled, errors := 0, 0, 0;
      for i := 0 to |docs|
        invariant ok == WithStatus(docs[..i], Ok) && cancelled == WithStatus(docs[..i], Cancelled)
        invariant errors == WithStatus(docs[..i], ParseError)
        invariant Progress(db.rows, Counters()) == Collect(old(db.rows), execution, dryRun, docs[..i], attempts)
        invariant db.objects == old(db.objects) + Objects(execution, dryRun, docs[..i], attempts)
      {
        var item := ToItem(docs[i]);
        match item.status {
          case Ok => ok := ok + 1;
          case Cancelled => cancelled := cancelled + 1;
          case ParseError => errors := errors + 1;
        }
        assert docs[..i + 1][..i] == docs[..i];
        OnProgress(db, item, attempts(i));
      }
      assert docs[..|docs|] == docs;
    }

    /**
     `run_execution`, once its context is loaded.  The credential may fail to decrypt; the
     portal may raise; otherwise the execution is closed with its counters and the cursor of
     the company moves under the guard.
     */
    method RunExecution(db: Database, decrypted: bool, portal: Portal, attempts: nat -> Attempt, ghost top: int)
      returns (status: RunStatus)
      requires BoundedBy(portal, top) && Counters() == ZERO
      modifies this, db
      ensures db.status == old(db.status)[execution := status] && status != Running
      ensures var fetched := Fetched(old(db.lastNsu), portal, top);
              if !decrypted || fetched.Failure? then
                status == Failed && db.rows == old(db.rows) && db.lastNsu == old(db.lastNsu) &&
                db.closed == old(db.closed) && db.objects == old(db.objects)
              else
                var s := Window(old(db.lastNsu), fetched.value);
                Progress(db.rows, Counters()) ==
                  Collect(old(db.rows), execution, dryRun, Nfse(fetched.value), attempts) &&
                db.objects == old(db.objects) + Objects(execution, dryRun, Nfse(fetched.value), attempts) &&
                status == FinalStatus(Counters(), false) &&
                execution in db.closed && OthersSame(old(db.closed), db.closed, execution) &&
                db.closed[execution] == Closing(s.0, s.1, itemsOk + itemsFail, itemsOk, itemsFail) &&
                db.lastNsu == if Advances(Counters(), dryRun, s.0, s.1)
                              then SetIfGreater(old(db.lastNsu), execution.company, s.1) else old(db.lastNsu)
    {
      Mark(db, Running);
      var fetched: Result<Summary, string> := Failure("credential_decrypt_failed");
      if decrypted {
        fetched := FetchNfse(db, portal, attempts, top);
      }
      if fetched.Failure? {
        Mark(db, Failed);
        status := Failed;
      } else {
        status := Close(db, fetched.value);
      }
      LastMarkStays(old(db.status), execution, status);
    }

    /** `_mark_running` and `_mark_failed`: the status of the row, unconditionally. */
    method Mark(db: Database, status: RunStatus)
      modifies db`status
      ensures db.status == old(db.status)[execution := status]
    {
      db.status := db.status[execution := status];
    }

    /** The closing transactions of a run: status and counters, then the cursor under its guard. */
    method Close(db: Database, s: Summary) returns (status: RunStatus)
      modifies db`status, db`closed, db`lastNsu
      ensures status == FinalStatus(Counters(), false) && db.status == old(db.status)[execution := status]
      ensures db.closed ==
                old(db.closed)[execution := Closing(s.nsuFrom, s.nsuTo, itemsOk + itemsFail, itemsOk, itemsFail)]
      ensures db.lastNsu == if Advances(Counters(), dryRun, s.nsuFrom, s.nsuTo)
                            then SetIfGreater(old(db.lastNsu), execution.company, s.nsuTo) else old(db.lastNsu)
    {
      status := FinalStatus(Tally(itemsOk, itemsFail, storageErrors, 0, 0, 0, 0), false);
      db.status := db.status[execution := status];
      db.closed := db.closed[execution := Closing(s.nsuFrom, s.nsuTo, itemsOk + itemsFail, itemsOk, itemsFail)];
      if status in {Succeeded, Partial} && storageErrors == 0 && !dryRun && s.nsuTo > s.nsuFrom {
        db.lastNsu := SetIfGreater(db.lastNsu, execution.company, s.nsuTo);
      }
    }
  }

  lemma LastMarkStays(status: map<Execution, RunStatus>, e: Execution, last: RunStatus)
    ensures status[e := Running][e := last] == status[e := last]
  {
    LastUpdateStays(status, e, Running, last);
  }

  // ---------------------------------------------------------------------------
  // Conservation and re-runs
  // ---------------------------------------------------------------------------

  /** One item is counted once, and the rows grow exactly when it is inserted. */
  lemma StepConserves(p: Progress, e: Execution, dry: bool, item: NfseItem, a: Attempt)
    ensures var p' := Step(p, e, dry, item, a);
            Total(p'.tally) == Total(p.tally) + 1 && p.rows <= p'.rows &&
            |p'.rows| + p'.tally.duplicates + p'.tally.caught - p'.tally.lost ==
              |p.rows| + p.tally.duplicates + p.tally.caught - p.tally.lost + if dry then 0 else 1
  {
  }

  /** Every note of a run is counted once: `total_nfse` is the sum of the counters. */
  lemma {:induction false} CountersConserve(
      rows: seq<Row>, e: Execution, dry: bool, docs: seq<Document>, attempts: nat -> Attempt)
    ensures Total(Collect(rows, e, dry, docs, attempts).tally) == |docs|
  {
    if docs != [] {
      var n := |docs| - 1;
      CountersConserve(rows, e, dry, docs[..n], attempts);
      StepConserves(Collect(rows, e, dry, docs[..n], attempts), e, dry, ToItem(docs[n]), attempts(n));
    }
  }

  /**
   Every note of a real run is a new row, a duplicate or caught, and both a new row and
   caught when an acknowledgement was lost; a dry run inserts nothing.
   */
  lemma {:induction false} RowsConserve(
      rows: seq<Row>, e: Execution, dry: bool, docs: seq<Document>, attempts: nat -> Attempt)
    ensures rows <= Collect(rows, e, dry, docs, attempts).rows
    ensures var p := Collect(rows, e, dry, docs, attempts);
            |p.rows| - |rows| + p.tally.duplicates + p.tally.caught == p.tally.lost + if dry then 0 else |docs|
  {
    if docs != [] {
      var n := |docs| - 1;
      RowsConserve(rows, e, dry, docs[..n], attempts);
      StepConserves(Collect(rows, e, dry, docs[..n], attempts), e, dry, ToItem(docs[n]), attempts(n));
    }
  }

  /** The callback gets to an insertion that the database performs. */
  predicate Reaches(d: Document, a: Attempt) {
    !a.insertion.InsertRaises? && !(!d.xml.NoXml? && a.upload.UploadRaises?)
  }

  predicate Calm(attempts: nat -> Attempt, n: nat) {
    forall i: nat :: i < n ==> attempts(i).insertion.Inserts? && !attempts(i).upload.UploadRaises?
  }

  predicate KeyStored(rows: seq<Row>, tenant: nat, d: Document) {
    ToItem(d).key.Some? && Stored(rows, tenant, ToItem(d).key.value)
  }

  predicate AllStored(rows: seq<Row>, tenant: nat, docs: seq<Document>) {
    forall i :: 0 <= i < |docs| ==> KeyStored(rows, tenant, docs[i])
  }

  lemma StoredMonotone(rows: seq<Row>, rows': seq<Row>, tenant: nat, d: Document)
    requires rows <= rows' && KeyStored(rows, tenant, d)
    ensures KeyStored(rows', tenant, d)
  {
    var key := ToItem(d).key.value;
    var i :| 0 <= i < |rows| && rows[i].key == Some(key) && rows[i].execution.company.tenant == tenant;
    assert rows'[i].key == Some(key) && rows'[i].execution.company.tenant == tenant;
  }

  /** A calm step changes the rows exactly when the key was not stored; otherwise it counts a duplicate. */
  lemma CalmStep(p: Progress, e: Execution, d: Document, a: Attempt)
    requires a.insertion.Inserts? && !a.upload.UploadRaises?
    ensures var p' := Step(p, e, false, ToItem(d), a);
            if KeyStored(p.rows, e.company.tenant, d) then
              p'.rows == p.rows && p'.tally.duplicates == p.tally.duplicates + 1
            else |p'.rows| == |p.rows| + 1 && p'.rows[|p.rows|].key == ToItem(d).key &&
                 p'.rows[|p.rows|].execution == e
  {
  }

  /**
   A real run in which nothing raises leaves the rows alone if and only if every note of
   its window already had its key stored.
   */
  lemma {:induction false} RerunIsIdempotentIff(
      rows: seq<Row>, e: Execution, docs: seq<Document>, attempts: nat -> Attempt)
    requires Calm(attempts, |docs|)
    ensures Collect(rows, e, false, docs, attempts).rows == rows <==> AllStored(rows, e.company.tenant, docs)
  {
    if docs != [] {
      var n := |docs| - 1;
      var p := Collect(rows, e, false, docs[..n], attempts);
      RerunIsIdempotentIff(rows, e, docs[..n], attempts);
      assert p.rows == rows || |p.rows| > |rows| by { RowsConserve(rows, e, false, docs[..n], attempts); }
      CalmStep(p, e, docs[n], attempts(n));
      if AllStored(rows, e.company.tenant, docs[..n]) && KeyStored(rows, e.company.tenant, docs[n]) {
        assert AllStored(rows, e.company.tenant, docs);
      }
    }
  }

  /** Such a run counts nothing but duplicates. */
  lemma {:induction false} CalmTally(
      rows: seq<Row>, e: Execution, docs: seq<Document>, attempts: nat -> Attempt)
    requires Calm(attempts, |docs|)
    ensures Collect(rows, e, false, docs, attempts).tally.caught == 0
    ensures Collect(rows, e, false, docs, attempts).tally.lost == 0
  {
    if docs != [] {
      CalmTally(rows, e, docs[..|docs| - 1], attempts);
    }
  }

  /** A calm run leaves the key of every note it saw stored. */
  lemma {:induction false} RunStoresKeys(
      rows: seq<Row>, e: Execution, docs: seq<Document>, attempts: nat -> Attempt)
    requires Calm(attempts, |docs|) && forall i :: 0 <= i < |docs| ==> ToItem(docs[i]).key.Some?
    ensures AllStored(Collect(rows, e, false, docs, attempts).rows, e.company.tenant, docs)
  {
    if docs != [] {
      var n := |docs| - 1;
      var before := Collect(rows, e, false, docs[..n], attempts);
      var after := Collect(rows, e, false, docs, attempts);
      RunStoresKeys(rows, e, docs[..n], attempts);
      CalmStep(before, e, docs[n], attempts(n));
      StepConserves(before, e, false, ToItem(docs[n]), attempts(n));
      forall i | 0 <= i < |docs| ensures KeyStored(after.rows, e.company.tenant, docs[i]) {
        if i < n {
          assert docs[..n][i] == docs[i];
          StoredMonotone(before.rows, after.rows, e.company.tenant, docs[i]);
        }
      }
    }
  }

  /**
   A run over a window whose keys are all stored, whatever raises in it, changes no row and
   counts nothing but duplicates and the notes the catch-all caught.
   */
  lemma {:induction false} StoredWindowChangesNothing(
      rows: seq<Row>, e: Execution, docs: seq<Document>, attempts: nat -> Attempt)
    requires AllStored(rows, e.company.tenant, docs)
    ensures var p := Collect(rows, e, false, docs, attempts);
            p.rows == rows && p.tally.ok == p.tally.foreign == p.tally.lost == 0 && p.tally.fail == p.tally.caught
  {
    if docs != [] {
      var n := |docs| - 1;
      assert AllStored(rows, e.company.tenant, docs[..n]) && KeyStored(rows, e.company.tenant, docs[n]);
      StoredWindowChangesNothing(rows, e, docs[..n], attempts);
    }
  }

  /** When nothing raises it counts one duplicate per note, and zero. */
  lemma StoredWindowCountsZero(rows: seq<Row>, e: Execution, docs: seq<Document>, attempts: nat -> Attempt)
    requires AllStored(rows, e.company.tenant, docs) && Calm(attempts, |docs|)
    ensures var p := Collect(rows, e, false, docs, attempts);
            p.rows == rows && p.tally.duplicates == |docs| && p.tally.ok == p.tally.fail == p.tally.foreign == 0
  {
    StoredWindowChangesNothing(rows, e, docs, attempts);
    CalmTally(rows, e, docs, attempts);
    CountersConserve(rows, e, false, docs, attempts);
  }

  /** So a second run over a window whose notes all carry keys changes no row and counts zero. */
  lemma SecondRunCountsNothing(
      rows: seq<Row>, e: Execution, e': Execution, docs: seq<Document>,
      attempts: nat -> Attempt, attempts': nat -> Attempt)
    requires Calm(attempts, |docs|) && Calm(attempts', |docs|) && e.company.tenant == e'.company.tenant
    requires forall i :: 0 <= i < |docs| ==> ToItem(docs[i]).key.Some?
    ensures var stored := Collect(rows, e, false, docs, attempts).rows;
            Collect(stored, e', false, docs, attempts').rows == stored
    ensures var t := Collect(Collect(rows, e, false, docs, attempts).rows, e', false, docs, attempts').tally;
            t.duplicates == |docs| && t.ok == t.fail == t.foreign == 0
  {
    RunStoresKeys(rows, e, docs, attempts);
    StoredWindowCountsZero(Collect(rows, e, false, docs, attempts).rows, e', docs, attempts');
  }

  // ---------------------------------------------------------------------------
  // Rejected windows
  // ---------------------------------------------------------------------------

  /**
   A portal that rejects the first request gives an empty window, and the run ends
   `succeeded` with its cursor unmoved: the rejection is not told from having nothing new.
   */
  lemma RejectedWindowSucceeds(
      portal: Portal, lastNsu: map<Company, int>, rows: seq<Row>, e: Execution, dry: bool, attempts: nat -> Attempt, top: int)
    requires BoundedBy(portal, top)
    requires var reply := portal(0, Cursor(lastNsu, e.company)); reply.Body? && reply.status == Rejected
    ensures var from := Cursor(lastNsu, e.company);
            Paginate(portal, 0, from, 0, None, top) == Success(Pages([], PortalRejected)) &&
            var t := Collect(rows, e, dry, Nfse([]), attempts).tally;
            FinalStatus(t, false) == Succeeded && !Advances(t, dry, from, Highest(from, []))
  {
    assert Nfse([]) == [];
  }

  /** A run that closes is `failed` exactly when it has no item and something went wrong, rejected or not. */
  lemma FailedIff(t: Tally)
    ensures FinalStatus(t, false) == Failed <==> t.ok == 0 && (t.fail > 0 || t.storageErrors > 0)
    ensures FinalStatus(t, false) == Partial <==> t.ok > 0 && (t.fail > 0 || t.storageErrors > 0)
    ensures FinalStatus(t, false) == Succeeded <==> t.fail == 0 && t.storageErrors == 0
    ensures FinalStatus(t, true) == Failed
  {
  }

  /** Everything works but the insertion of the second note. */
  function SecondRaises(i: nat): Attempt { Attempt(Uploaded, if i == 1 then InsertRaises else Inserts) }

  /**
   The cursor can move past a note that has no row: the insertion of the second of two new
   notes raises, the run ends `partial`, and the guard lets the cursor advance.
   */
  lemma CursorPassesCaughtNote(rows: seq<Row>, e: Execution, a: Document, b: Document, from: int)
    requires ToItem(a).status == Ok && IsIssued(ToItem(a), e.company) && !KeyStored(rows, e.company.tenant, a)
    requires from < Nsu(b)
    ensures Collect(rows, e, false, [a, b], SecondRaises).rows == rows + [NewRow(e, ToItem(a), SecondRaises(0))]
    ensures FinalStatus(Collect(rows, e, false, [a, b], SecondRaises).tally, false) == Partial
    ensures Advances(Collect(rows, e, false, [a, b], SecondRaises).tally, false, from, Nsu(b))
  {
    var none: seq<Document>, one, two := [], [a], [a, b];
    assert two[..1] == one && one[..0] == none;
    assert Collect(rows, e, false, none, SecondRaises) == Progress(rows, ZERO);
    var first := Collect(rows, e, false, one, SecondRaises);
    assert first == Step(Collect(rows, e, false, one[..0], SecondRaises), e, false, ToItem(one[0]), SecondRaises(0));
    assert first == Step(Progress(rows, ZERO), e, false, ToItem(a), SecondRaises(0));
    assert first == Progress(rows + [NewRow(e, ToItem(a), SecondRaises(0))], Tally(1, 0, 0, 0, 0, 0, 0));
  }
}
