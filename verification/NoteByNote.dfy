/**
 A collection run note by note: what becomes of each note, told from the document, the table
 before the run and the earlier notes alone, and the rows, objects, counters and cursor that
 follow.  It says what the fold of `Collection` computes without folding.
 */
module NoteByNote {
  import opened Wrappers
  import opened Fetcher
  import opened Collection

  // ---------------------------------------------------------------------------
  // From document to item and row
  // ---------------------------------------------------------------------------

  /** The first of the access key of the XML and the two keys of the envelope that is not empty. */
  function KeyOf(d: Document): Option<string> {
    var inXml := if d.xml.Parsed? then d.xml.accessKey else None;
    if inXml.Some? && inXml.value != "" then inXml
    else if d.upperKey.Some? && d.upperKey.value != "" then d.upperKey
    else d.lowerKey
  }

  /** The item of a document: an XML that is missing or does not parse is an error, and is kept when there. */
  lemma ItemOfDocument(d: Document)
    ensures ToItem(d).nsu == Nsu(d) && ToItem(d).key == KeyOf(d)
    ensures ToItem(d).xml == if d.xml.NoXml? then None else Some(d.xml.text)
    ensures ToItem(d).issuer == if d.xml.Parsed? then d.xml.issuer else None
    ensures ToItem(d).status.ParseError? <==> !d.xml.Parsed?
    ensures ToItem(d).status.Cancelled? <==> d.xml.Parsed? && d.xml.cancelled
  {
  }

  /** The status of a document, by its XML. */
  predicate IsOf(d: Document, st: ItemStatus) {
    match st
    case Ok => d.xml.Parsed? && !d.xml.cancelled
    case Cancelled => d.xml.Parsed? && d.xml.cancelled
    case ParseError => !d.xml.Parsed?
  }

  ghost function PositionsOf(docs: seq<Document>, st: ItemStatus): set<int> {
    set i | 0 <= i < |docs| && IsOf(docs[i], st)
  }

  /** The three counts of a summary count the notes by what their XML is. */
  lemma {:induction false} StatusesByDocument(docs: seq<Document>, st: ItemStatus)
    ensures WithStatus(docs, st) == |PositionsOf(docs, st)|
  {
    if docs != [] {
      var n := |docs| - 1;
      StatusesByDocument(docs[..n], st);
      PositionsOn(docs, st);
    }
  }

  lemma PositionsOn(docs: seq<Document>, st: ItemStatus)
    requires docs != []
    ensures var n := |docs| - 1;
            PositionsOf(docs, st) == PositionsOf(docs[..n], st) + (if IsOf(docs[n], st) then {n} else {}) &&
            n !in PositionsOf(docs[..n], st)
  {
  }

  /** A note is the company's own when its issuer and the company have the same fourteen digits, however written. */
  lemma IssuedIff(item: NfseItem, company: Company)
    ensures IsIssued(item, company) <==>
              item.issuer.Some? && |Digits(company.cnpj)| == 14 && Digits(item.issuer.value) == Digits(company.cnpj)
  {
    assert Digits("") == "";
  }

  /** The row of a note: its status is that of its XML, and it names an object exactly when one was stored. */
  lemma RowOfNote(e: Execution, d: Document, a: Attempt)
    ensures var row := NewRow(e, ToItem(d), a);
            row.execution == e && row.nsu == Nsu(d) && row.key == KeyOf(d) &&
            (row.status.RowFailed? <==> !d.xml.Parsed?) &&
            (row.status.RowSkipped? <==> d.xml.Parsed? && d.xml.cancelled) &&
            row.objectKey == if !d.xml.NoXml? && a.upload.Uploaded? then Some(ObjectKey(e, Nsu(d))) else None
  {
    ItemOfDocument(d);
  }

  // ---------------------------------------------------------------------------
  // What becomes of a note
  // ---------------------------------------------------------------------------

  datatype Fate = CountedOk | CountedForeign | CountedFail | FoundDuplicate | WasCaught | LostItsAnswer

  /** The key of the note is in the table, or an earlier note of the run put it there. */
  ghost predicate KeyTaken(rows: seq<Row>, tenant: nat, docs: seq<Document>, attempts: nat -> Attempt, i: nat)
    requires i < |docs|
  {
    KeyOf(docs[i]).Some? &&
    (Stored(rows, tenant, KeyOf(docs[i]).value) ||
     exists j: nat :: j < i && Reaches(docs[j], attempts(j)) && KeyOf(docs[j]) == KeyOf(docs[i]))
  }

  /** How a note seen for the first time is counted. */
  function Verdict(c: Company, d: Document): Fate {
    if !d.xml.Parsed? then CountedFail
    else if d.xml.issuer.Some? && |Digits(c.cnpj)| == 14 && Digits(d.xml.issuer.value) == Digits(c.cnpj) then CountedOk
    else CountedForeign
  }

  /** The fate of a note whose key is taken, or not. */
  function FateWhen(c: Company, dry: bool, d: Document, a: Attempt, taken: bool): Fate {
    if dry then Verdict(c, d)
    else if !Reaches(d, a) || (taken && a.insertion.AckLost?) then WasCaught
    else if taken then FoundDuplicate
    else if a.insertion.AckLost? then LostItsAnswer
    else Verdict(c, d)
  }

  ghost function FateOf(
      rows: seq<Row>, e: Execution, dry: bool, docs: seq<Document>, attempts: nat -> Attempt, i: nat): Fate
    requires i < |docs|
  {
    FateWhen(e.company, dry, docs[i], attempts(i), KeyTaken(rows, e.company.tenant, docs, attempts, i))
  }

  ghost function Fates(rows: seq<Row>, e: Execution, dry: bool, docs: seq<Document>, attempts: nat -> Attempt): seq<Fate> {
    seq(|docs|, i requires 0 <= i < |docs| => FateOf(rows, e, dry, docs, attempts, i))
  }

  /** The note leaves a row. */
  predicate LeavesRow(f: Fate) { f in {CountedOk, CountedForeign, CountedFail, LostItsAnswer} }

  /** The rows of the notes that leave one, in order. */
  ghost function RowsLeft(e: Execution, docs: seq<Document>, attempts: nat -> Attempt, fates: seq<Fate>): seq<Row>
    requires |fates| == |docs|
  {
    if docs == [] then []
    else
      var n := |docs| - 1;
      RowsLeft(e, docs[..n], attempts, fates[..n]) +
      if LeavesRow(fates[n]) then [NewRow(e, ToItem(docs[n]), attempts(n))] else []
  }

  /** What happens to a note does not depend on the notes after it. */
  lemma FatesOfPrefix(rows: seq<Row>, e: Execution, dry: bool, docs: seq<Document>, attempts: nat -> Attempt, n: nat)
    requires n <= |docs|
    ensures Fates(rows, e, dry, docs[..n], attempts) == Fates(rows, e, dry, docs, attempts)[..n]
  {
    forall i | 0 <= i < n
      ensures FateOf(rows, e, dry, docs[..n], attempts, i) == FateOf(rows, e, dry, docs, attempts, i)
    {
      assert docs[..n][i] == docs[i];
      assert KeyTaken(rows, e.company.tenant, docs[..n], attempts, i) <==>
             KeyTaken(rows, e.company.tenant, docs, attempts, i) by {
        assert forall j: nat :: j < i ==> docs[..n][j] == docs[j];
      }
    }
  }

  lemma StoredOn(rows: seq<Row>, row: Row, tenant: nat, key: string)
    ensures Stored(rows + [row], tenant, key) <==>
              Stored(rows, tenant, key) || (row.key == Some(key) && row.execution.company.tenant == tenant)
  {
    if Stored(rows, tenant, key) {
      var i :| 0 <= i < |rows| && rows[i].key == Some(key) && rows[i].execution.company.tenant == tenant;
      assert (rows + [row])[i] == rows[i];
    }
    assert (rows + [row])[|rows|] == row;
  }

  /** One callback stores the key of its note when it reaches the insertion. */
  lemma StepStores(p: Progress, e: Execution, d: Document, a: Attempt, key: string)
    ensures Stored(Step(p, e, false, ToItem(d), a).rows, e.company.tenant, key) <==>
              Stored(p.rows, e.company.tenant, key) || (Reaches(d, a) && KeyOf(d) == Some(key))
  {
    StoredOn(p.rows, NewRow(e, ToItem(d), a), e.company.tenant, key);
  }

  /** The keys stored after a run: those stored before, and those of the notes that reached the insertion. */
  lemma {:induction false} StoredAfterRun(
      rows: seq<Row>, e: Execution, docs: seq<Document>, attempts: nat -> Attempt, key: string)
    ensures Stored(Collect(rows, e, false, docs, attempts).rows, e.company.tenant, key) <==>
              Stored(rows, e.company.tenant, key) ||
              exists j: nat :: j < |docs| && Reaches(docs[j], attempts(j)) && KeyOf(docs[j]) == Some(key)
  {
    if docs != [] {
      var n := |docs| - 1;
      var earlier := docs[..n];
      StoredAfterRun(rows, e, earlier, attempts, key);
      StepStores(Collect(rows, e, false, earlier, attempts), e, docs[n], attempts(n), key);
      if j: nat :| j < |docs| && Reaches(docs[j], attempts(j)) && KeyOf(docs[j]) == Some(key) {
        assert j < n ==> Reaches(earlier[j], attempts(j)) && KeyOf(earlier[j]) == Some(key);
      }
      if j: nat :| j < n && Reaches(earlier[j], attempts(j)) && KeyOf(earlier[j]) == Some(key) {
        assert Reaches(docs[j], attempts(j)) && KeyOf(docs[j]) == Some(key);
      }
    }
  }

  /** What a fate does to the counters. */
  function Scored(t: Tally, f: Fate): Tally {
    match f
    case CountedOk => t.(ok := t.ok + 1)
    case CountedForeign => t.(foreign := t.foreign + 1)
    case CountedFail => t.(fail := t.fail + 1)
    case FoundDuplicate => t.(duplicates := t.duplicates + 1)
    case WasCaught => t.(fail := t.fail + 1, caught := t.caught + 1)
    case LostItsAnswer => t.(fail := t.fail + 1, caught := t.caught + 1, lost := t.lost + 1)
  }

  predicate StorageFails(dry: bool, d: Document, a: Attempt) {
    !dry && !d.xml.NoXml? && a.upload.StorageError?
  }

  lemma JudgeIsVerdict(t: Tally, e: Execution, d: Document)
    ensures Judge(t, e, ToItem(d)) == Scored(t, Verdict(e.company, d))
  {
    IssuedIff(ToItem(d), e.company);
  }

  predicate HasKey(rows: seq<Row>, tenant: nat, d: Document) {
    KeyOf(d).Some? && Stored(rows, tenant, KeyOf(d).value)
  }

  function WithStorage(t: Tally, dry: bool, d: Document, a: Attempt): Tally {
    if StorageFails(dry, d, a) then t.(storageErrors := t.storageErrors + 1) else t
  }

  function RowLeft(e: Execution, dry: bool, d: Document, a: Attempt, f: Fate): seq<Row> {
    if !dry && LeavesRow(f) then [NewRow(e, ToItem(d), a)] else []
  }

  lemma DryStep(p: Progress, e: Execution, d: Document, a: Attempt)
    ensures Step(p, e, true, ToItem(d), a) == Progress(p.rows + [], Scored(p.tally, Verdict(e.company, d)))
  {
    assert p.rows + [] == p.rows;
    JudgeIsVerdict(p.tally, e, d);
  }

  lemma OutcomeIsFate(rows: seq<Row>, e: Execution, d: Document, a: Attempt)
    ensures var o := OutcomeOf(rows, e, ToItem(d), a);
            var f := FateWhen(e.company, false, d, a, HasKey(rows, e.company.tenant, d));
            match o
            case Caught => f == WasCaught
            case Duplicate => f == FoundDuplicate
            case Lost(row) => f == LostItsAnswer && row == NewRow(e, ToItem(d), a)
            case Inserted(row) => f == Verdict(e.company, d) && row == NewRow(e, ToItem(d), a)
  {
  }

  /** One callback scores the fate of its note. */
  lemma StepScores(p: Progress, e: Execution, dry: bool, d: Document, a: Attempt)
    ensures var f := FateWhen(e.company, dry, d, a, HasKey(p.rows, e.company.tenant, d));
            Step(p, e, dry, ToItem(d), a) ==
              Progress(p.rows + RowLeft(e, dry, d, a, f), Scored(WithStorage(p.tally, dry, d, a), f))
  {
    if dry {
      DryStep(p, e, d, a);
    } else {
      OutcomeIsFate(p.rows, e, d, a);
      JudgeIsVerdict(WithStorage(p.tally, false, d, a), e, d);
      assert p.rows + [] == p.rows;
    }
  }

  /** When its turn comes, the key of a note is in the table exactly when it is taken. */
  lemma HasKeyIsTaken(rows: seq<Row>, e: Execution, docs: seq<Document>, attempts: nat -> Attempt)
    requires docs != []
    ensures var n := |docs| - 1;
            HasKey(Collect(rows, e, false, docs[..n], attempts).rows, e.company.tenant, docs[n]) <==>
              KeyTaken(rows, e.company.tenant, docs, attempts, n)
  {
    var n := |docs| - 1;
    if KeyOf(docs[n]).Some? {
      StoredAfterRun(rows, e, docs[..n], attempts, KeyOf(docs[n]).value);
      assert forall j: nat :: j < n ==> docs[..n][j] == docs[j];
    }
  }

  /** The last callback of a run. */
  lemma LastFate(rows: seq<Row>, e: Execution, dry: bool, docs: seq<Document>, attempts: nat -> Attempt)
    requires docs != []
    ensures var n := |docs| - 1;
            var p := Collect(rows, e, dry, docs[..n], attempts);
            var f := FateOf(rows, e, dry, docs, attempts, n);
            Collect(rows, e, dry, docs, attempts) ==
              Progress(p.rows + RowLeft(e, dry, docs[n], attempts(n), f),
                       Scored(WithStorage(p.tally, dry, docs[n], attempts(n)), f))
  {
    var n := |docs| - 1;
    StepScores(Collect(rows, e, dry, docs[..n], attempts), e, dry, docs[n], attempts(n));
    HasKeyIsTaken(rows, e, docs, attempts);
  }

  ghost function StorageErrors(dry: bool, docs: seq<Document>, attempts: nat -> Attempt): nat {
    if docs == [] then 0
    else
      var n := |docs| - 1;
      StorageErrors(dry, docs[..n], attempts) + if StorageFails(dry, docs[n], attempts(n)) then 1 else 0
  }

  /** The counters that these fates add up to. */
  ghost predicate Adds(t: Tally, fates: multiset<Fate>) {
    t.ok == fates[CountedOk] && t.foreign == fates[CountedForeign] && t.duplicates == fates[FoundDuplicate] &&
    t.lost == fates[LostItsAnswer] && t.caught == fates[WasCaught] + fates[LostItsAnswer] &&
    t.fail == fates[CountedFail] + fates[WasCaught] + fates[LostItsAnswer]
  }

  lemma ScoredAdds(t: Tally, fates: multiset<Fate>, f: Fate, dry: bool, d: Document, a: Attempt)
    requires Adds(t, fates)
    ensures Adds(Scored(WithStorage(t, dry, d, a), f), fates + multiset{f})
  {
  }

  /** The counters and rows of a run follow from the fates of its notes. */
  ghost predicate FollowsFrom(
      p: Progress, rows: seq<Row>, e: Execution, dry: bool, docs: seq<Document>, attempts: nat -> Attempt, fates: seq<Fate>)
    requires |fates| == |docs|
  {
    Adds(p.tally, multiset(fates)) && p.tally.storageErrors == StorageErrors(dry, docs, attempts) &&
    p.rows == rows + if dry then [] else RowsLeft(e, docs, attempts, fates)
  }

  lemma FollowsOn(
      p: Progress, rows: seq<Row>, e: Execution, dry: bool, docs: seq<Document>, attempts: nat -> Attempt, fates: seq<Fate>)
    requires docs != [] && |fates| == |docs|
    requires FollowsFrom(p, rows, e, dry, docs[..|docs| - 1], attempts, fates[..|docs| - 1])
    ensures var n := |docs| - 1;
            FollowsFrom(Progress(p.rows + RowLeft(e, dry, docs[n], attempts(n), fates[n]),
                                 Scored(WithStorage(p.tally, dry, docs[n], attempts(n)), fates[n])),
                        rows, e, dry, docs, attempts, fates)
  {
    var n := |docs| - 1;
    assert fates == fates[..n] + [fates[n]];
    ScoredAdds(p.tally, multiset(fates[..n]), fates[n], dry, docs[n], attempts(n));
    if !dry {
      assert rows + (RowsLeft(e, docs[..n], attempts, fates[..n]) + RowLeft(e, dry, docs[n], attempts(n), fates[n])) ==
             p.rows + RowLeft(e, dry, docs[n], attempts(n), fates[n]);
    }
  }

  /**
   Every counter of a run is the number of notes with the fates it counts, and the new rows are
   those of the notes that leave one, in order.
   */
  lemma {:induction false} RunNoteByNote(
      rows: seq<Row>, e: Execution, dry: bool, docs: seq<Document>, attempts: nat -> Attempt)
    ensures FollowsFrom(Collect(rows, e, dry, docs, attempts), rows, e, dry, docs, attempts,
                        Fates(rows, e, dry, docs, attempts))
  {
    if docs == [] {
      assert rows + [] == rows;
    } else {
      var n := |docs| - 1;
      RunNoteByNote(rows, e, dry, docs[..n], attempts);
      FatesOfPrefix(rows, e, dry, docs, attempts, n);
      LastFate(rows, e, dry, docs, attempts);
      FollowsOn(Collect(rows, e, dry, docs[..n], attempts), rows, e, dry, docs, attempts,
                Fates(rows, e, dry, docs, attempts));
    }
  }

  /** The objects of a run: one for each note with XML whose upload worked. */
  lemma {:induction false} ObjectsIff(
      e: Execution, dry: bool, docs: seq<Document>, attempts: nat -> Attempt, key: ObjectKey)
    ensures key in Objects(e, dry, docs, attempts) <==>
              !dry && exists i: nat :: i < |docs| && !docs[i].xml.NoXml? && attempts(i).upload.Uploaded? &&
                                       key == ObjectKey(e, Nsu(docs[i]))
  {
    if docs != [] {
      var n := |docs| - 1;
      ObjectsIff(e, dry, docs[..n], attempts, key);
      ItemOfDocument(docs[n]);
      if i: nat :| i < |docs| && !docs[i].xml.NoXml? && attempts(i).upload.Uploaded? && key == ObjectKey(e, Nsu(docs[i])) {
        assert i < n ==> docs[..n][i] == docs[i];
      }
      if i: nat :| i < n && !docs[..n][i].xml.NoXml? && attempts(i).upload.Uploaded? && key == ObjectKey(e, Nsu(docs[..n][i])) {
        assert docs[i] == docs[..n][i];
      }
    }
  }

  // ---------------------------------------------------------------------------
  // The cursor
  // ---------------------------------------------------------------------------

  /**
   The guard on the counters: a real run over a window that is not empty moves the cursor when
   nothing failed to be stored and, if some item failed, some other item was ok.
   */
  lemma GuardOnCounters(t: Tally, dry: bool, from: int, to: int)
    ensures Advances(t, dry, from, to) <==> t.storageErrors == 0 && (t.ok > 0 || t.fail == 0) && !dry && from < to
  {
  }

  /** Where the guard leaves the cursor of each company: at the end of the window, or where it was. */
  lemma CursorAfterRun(lastNsu: map<Company, int>, c: Company, t: Tally, dry: bool, to: int, other: Company)
    ensures var from := Cursor(lastNsu, c);
            var lastNsu' := if Advances(t, dry, from, to) then SetIfGreater(lastNsu, c, to) else lastNsu;
            Cursor(lastNsu', other) ==
              if other == c && !dry && from < to && t.storageErrors == 0 && (t.ok > 0 || t.fail == 0)
              then to else Cursor(lastNsu, other)
  {
  }

  /** A run in which everything works ends at the last NSU of its window, with all notes counted once. */
  lemma CalmRunMovesTheCursor(
      rows: seq<Row>, lastNsu: map<Company, int>, e: Execution, docs: seq<Document>, attempts: nat -> Attempt, to: int)
    requires forall i: nat :: i < |docs| ==> docs[i].xml.Parsed? && attempts(i) == Attempt(Uploaded, Inserts)
    requires Cursor(lastNsu, e.company) < to
    ensures var t := Collect(rows, e, false, docs, attempts).tally;
            FinalStatus(t, false) == Succeeded && t.fail == t.storageErrors == 0 &&
            Advances(t, false, Cursor(lastNsu, e.company), to) &&
            Cursor(SetIfGreater(lastNsu, e.company, to), e.company) == to
  {
    RunNoteByNote(rows, e, false, docs, attempts);
    NothingFails(rows, e, docs, attempts);
  }

  lemma {:induction false} NothingFails(rows: seq<Row>, e: Execution, docs: seq<Document>, attempts: nat -> Attempt)
    requires forall i: nat :: i < |docs| ==> docs[i].xml.Parsed? && attempts(i) == Attempt(Uploaded, Inserts)
    ensures StorageErrors(false, docs, attempts) == 0
    ensures forall f :: f in Fates(rows, e, false, docs, attempts) ==> f in {CountedOk, CountedForeign, FoundDuplicate}
  {
    if docs != [] {
      var n := |docs| - 1;
      NothingFails(rows, e, docs[..n], attempts);
      assert forall i: nat :: i < n ==> docs[..n][i] == docs[i];
    }
  }

  /**
   A run against a truthful log that is not rejected or interrupted fetches exactly what the
   log has above the stored cursor.
   */
  lemma FetchedIsTheLog(
      run: ExecutionRun, lastNsu: map<Company, int>, portal: Portal, log: seq<Document>, top: int)
    requires Honest(portal, Unchanged(log), log) && BoundedBy(portal, top)
    requires forall k: nat, c: int :: portal(k, c).Body? && portal(k, c).status != Rejected
    ensures run.Fetched(lastNsu, portal, top) == Success(After(log, Cursor(lastNsu, run.execution.company)))
  {
    var from := Cursor(lastNsu, run.execution.company);
    PaginationRefinesFilter(portal, log, from, None, top);
    FinalReplyIsServed(portal, 0, from, 0, None, top);
  }

  lemma {:induction false} FinalReplyIsServed(
      portal: Portal, call: nat, cursor: int, taken: nat, limit: Option<int>, top: int)
    requires BoundedBy(portal, top)
    ensures exists k: nat, c: int :: FinalReply(portal, call, cursor, taken, limit, top) == portal(k, c)
    decreases if cursor < top then top - cursor else 0
  {
    if GoesOn(portal, call, cursor, taken, limit) {
      var docs := portal(call, cursor).docs;
      FinalReplyIsServed(portal, call + 1, BatchTop(docs), taken + |docs|, limit, top);
    } else {
      assert FinalReply(portal, call, cursor, taken, limit, top) == portal(call, cursor);
    }
  }
}
