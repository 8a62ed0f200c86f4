/**
 Creation of executions through the API and the scheduler, each request as one step
 (`executions/routes.py`, `reprocess/routes.py`, `scheduler.py`), against the workers.

 A row is named by its insertion order.  The API never creates a second open execution
 for the same company, trigger and period, so repeating a request is harmless.
 */
module Executions {
  import opened Workers
  import opened Wrappers

  datatype Trigger = Manual | Schedule | Api | Reprocess

  datatype Key = Key(company: nat, trigger: Trigger, start: int, end: int)

  datatype Execution = Execution(key: Key, status: Status)

  predicate OpenFor(rows: seq<Execution>, i: int, key: Key) {
    0 <= i < |rows| && rows[i].key == key && Open(rows[i].status)
  }

  /** `_find_open_execution`: the newest open row of the key. */
  function FindOpen(rows: seq<Execution>, key: Key): (r: Option<nat>)
    ensures r.Some? ==> OpenFor(rows, r.value, key) && forall i :: i > r.value ==> !OpenFor(rows, i, key)
    ensures r.None? ==> forall i :: !OpenFor(rows, i, key)
  {
    if rows == [] then None
    else
      var n := |rows| - 1;
      if rows[n].key == key && Open(rows[n].status) then Some(n)
      else
        var r := FindOpen(rows[..n], key);
        assert forall i :: OpenFor(rows, i, key) ==> i == n || OpenFor(rows[..n], i, key);
        r
  }

  /** One requested execution: its row, and whether this request inserted it. */
  datatype Target = Target(id: nat, created: bool)

  datatype Store = Store(rows: seq<Execution>, jobs: seq<nat>)

  /** The insertion phase: reuse the open execution of each key, or insert one. */
  function CreateRows(rows: seq<Execution>, keys: seq<Key>): (seq<Execution>, seq<Target>)
    decreases |keys|
  {
    if keys == [] then (rows, [])
    else
      var n := |keys| - 1;
      var (rows', targets) := CreateRows(rows, keys[..n]);
      var found := FindOpen(rows', keys[n]);
      if found.Some? then (rows', targets + [Target(found.value, false)])
      else (rows' + [Execution(keys[n], Queued)], targets + [Target(|rows'|, true)])
  }

  /** The enqueue phase: only rows this request inserted; a refusal marks the row failed. */
  function Enqueue(s: Store, targets: seq<Target>, accepts: nat -> bool): Store
    decreases |targets|
  {
    if targets == [] then s
    else
      var n := |targets| - 1;
      var s' := Enqueue(s, targets[..n], accepts);
      var t := targets[n];
      if !t.created || t.id >= |s'.rows| then s'
      else if accepts(t.id) then s'.(jobs := s'.jobs + [t.id])
      else s'.(rows := s'.rows[t.id := s'.rows[t.id].(status := Failed)])
  }

  function Request(s: Store, keys: seq<Key>, accepts: nat -> bool): (Store, seq<Target>) {
    var (rows, targets) := CreateRows(s.rows, keys);
    (Enqueue(s.(rows := rows), targets, accepts), targets)
  }

  // ---------------------------------------------------------------------------
  // The endpoints
  // ---------------------------------------------------------------------------

  datatype ApiError = CompaniesNotFound(missing: seq<nat>) | CredentialMissing(missing: seq<nat>)
    | ItemsNotFound(items: seq<nat>) | EmptyRequest | QueueDown

  /** Duplicates dropped, first occurrences in order: `_dedup` and the `seen` set of the resolver. */
  function Distinct<T(==, !new)>(items: seq<T>): (r: seq<T>)
    ensures forall x :: x in r <==> x in items
    ensures forall i, j :: 0 <= i < j < |r| ==> r[i] != r[j]
  {
    if items == [] then []
    else
      var r := Distinct(items[..|items| - 1]);
      var last := items[|items| - 1];
      assert items == items[..|items| - 1] + [last];
      if last in r then r else r + [last]
  }

  /** First occurrences in order: what a prefix keeps comes first. */
  lemma {:induction false} DistinctKeepsOrder<T(!new)>(items: seq<T>, n: nat)
    requires n <= |items|
    ensures Distinct(items[..n]) <= Distinct(items)
  {
    if n < |items| {
      var m := |items| - 1;
      DistinctKeepsOrder(items[..m], n);
      assert items[..m][..n] == items[..n];
    } else {
      assert items[..n] == items;
    }
  }

  predicate NoRepeats(ids: seq<nat>) {
    forall i, j :: 0 <= i < j < |ids| ==> ids[i] != ids[j]
  }

  function Missing(ids: seq<nat>, known: set<nat>): (r: seq<nat>)
    ensures forall x :: x in r <==> x in ids && x !in known
    ensures NoRepeats(ids) ==> NoRepeats(r)
  {
    if ids == [] then []
    else
      var rest := Missing(ids[1..], known);
      assert ids == [ids[0]] + ids[1..];
      assert NoRepeats(ids) ==> ids[0] !in ids[1..] && NoRepeats(ids[1..]);
      if ids[0] in known then rest else [ids[0]] + rest
  }

  /** The list names exactly the requested companies outside `known`, once each. */
  ghost predicate Names(missing: seq<nat>, ids: seq<nat>, known: set<nat>) {
    NoRepeats(missing) && forall x: nat :: x in missing <==> x in ids && x !in known
  }

  predicate All(ids: seq<nat>, known: set<nat>) {
    forall i :: 0 <= i < |ids| ==> ids[i] in known
  }

  /** Which error a refusal answers: companies are checked before credentials, and both before the queue. */
  ghost predicate Answers(error: ApiError, ids: seq<nat>, companies: set<nat>, credentials: set<nat>, queueUp: bool) {
    match error
    case EmptyRequest => ids == []
    case CompaniesNotFound(missing) => missing != [] && Names(missing, ids, companies)
    case CredentialMissing(missing) => All(ids, companies) && missing != [] && Names(missing, ids, credentials)
    case QueueDown => ids != [] && All(ids, companies) && All(ids, credentials) && !queueUp
    case ItemsNotFound(_) => false
  }

  /** The checks both endpoints make before they write. */
  method Validate(ids: seq<nat>, companies: set<nat>, credentials: set<nat>, queueUp: bool)
    returns (refusal: Option<ApiError>)
    ensures refusal.None? <==> ids != [] && All(ids, companies) && All(ids, credentials) && queueUp
    ensures refusal.Some? ==> Answers(refusal.value, ids, companies, credentials, queueUp)
  {
    if ids == [] {
      return Some(EmptyRequest);
    }
    var requested := Distinct(ids);
    var missing := Missing(requested, companies);
    if missing != [] {
      assert missing[0] in missing;
      return Some(CompaniesNotFound(missing));
    }
    var withoutCredential := Missing(requested, credentials);
    assert forall i :: 0 <= i < |ids| ==> ids[i] in requested && ids[i] !in missing;
    if withoutCredential != [] {
      assert withoutCredential[0] in withoutCredential;
      return Some(CredentialMissing(withoutCredential));
    }
    assert forall i :: 0 <= i < |ids| ==> ids[i] !in withoutCredential;
    return if queueUp then None else Some(QueueDown);
  }

  function KeysOf(companies: seq<nat>, trigger: Trigger, start: int, end: int): seq<Key> {
    seq(|companies|, i requires 0 <= i < |companies| => Key(companies[i], trigger, start, end))
  }

  /** An item of an earlier execution, as the join of the resolver returns it. */
  datatype ItemRow = ItemRow(item: nat, company: nat, start: int, end: int)

  /** What a reprocess asks for, with the answer of the query that resolves it. */
  datatype Scope =
    | Items(ids: seq<nat>, found: seq<ItemRow>)
    | Nsus(company: nat, emitted: Option<(int, int)>)
    | Period(company: nat, start: int, end: int)

  /** The company and period of each execution: a day when no item of the NSUs has a date. */
  function ResolveScope(scope: Scope, today: int): seq<Key> {
    match scope
    case Items(_, found) => Resolve(found)
    case Nsus(company, None) => [Key(company, Reprocess, today, today)]
    case Nsus(company, Some((first, last))) =>
      [Key(company, Reprocess, first, if last < first then first else last)]
    case Period(company, start, end) => [Key(company, Reprocess, start, end)]
  }

  /** The period a reprocess stands for, company by company. */
  predicate Asked(scope: Scope, today: int, key: Key) {
    key.trigger == Reprocess &&
    match scope
    case Items(_, found) =>
      exists i :: 0 <= i < |found| &&
        found[i].company == key.company && found[i].start == key.start && found[i].end == key.end
    case Nsus(company, emitted) =>
      key.company == company &&
      if emitted.None? then key.start == today && key.end == today
      else
        key.start == emitted.value.0 && key.end in {emitted.value.0, emitted.value.1} &&
        key.end >= emitted.value.0 && key.end >= emitted.value.1
    case Period(company, start, end) => key.company == company && key.start == start && key.end == end
  }

  /** A scope resolves to exactly the keys it asks for. */
  lemma ScopeKeys(scope: Scope, today: int)
    ensures forall key :: key in ResolveScope(scope, today) <==> Asked(scope, today, key)
  {
    if scope.Items? {
      forall key ensures key in Tuples(scope.found) <==> Asked(scope, today, key) {
        if Asked(scope, today, key) {
          var i :| 0 <= i < |scope.found| && scope.found[i].company == key.company &&
                   scope.found[i].start == key.start && scope.found[i].end == key.end;
          assert Tuples(scope.found)[i] == key;
        }
      }
    }
  }

  function CompaniesIn(keys: seq<Key>): (ids: seq<nat>)
    ensures |ids| == |keys| && forall i :: 0 <= i < |keys| ==> ids[i] == keys[i].company
  {
    if keys == [] then [] else [keys[0].company] + CompaniesIn(keys[1..])
  }

  function IdsOf(targets: seq<Target>): (ids: seq<nat>)
    ensures |ids| == |targets| && forall i :: 0 <= i < |targets| ==> ids[i] == targets[i].id
  {
    if targets == [] then [] else [targets[0].id] + IdsOf(targets[1..])
  }

  /** A target whose new row the queue refused. */
  predicate Refused(t: Target, accepts: nat -> bool) { t.created && !accepts(t.id) }

  /** `enqueue_failures`: it meets the number of targets when every one was refused. */
  function Refusals(targets: seq<Target>, accepts: nat -> bool): (n: nat)
    ensures n <= |targets|
    ensures n == |targets| <==> forall i :: 0 <= i < |targets| ==> Refused(targets[i], accepts)
    ensures n == |targets| <==> forall i :: 0 <= i < |targets| ==> targets[i].created && !accepts(targets[i].id)
  {
    if targets == [] then 0
    else
      var m := |targets| - 1;
      Refusals(targets[..m], accepts) + if Refused(targets[m], accepts) then 1 else 0
  }

  /** A row of `reprocess_jobs`: the executions it created or reused, and whether it failed at once. */
  datatype Parent = Parent(results: seq<nat>, failed: bool)

  /** The `reprocess.create` entry of the audit log. */
  datatype Audit = Audit(reprocess: nat, executions: nat)

  class ExecutionsApi {
    var rows: seq<Execution>
    var jobs: seq<nat>
    var reprocesses: seq<Parent>
    var audits: seq<Audit>

    constructor ()
      ensures rows == [] && jobs == [] && reprocesses == [] && audits == []
    {
      rows, jobs, reprocesses, audits := [], [], [], [];
    }

    ghost function State(): Store
      reads this
    {
      Store(rows, jobs)
    }

    /** The two loops shared by both endpoints, with the enqueues that were refused. */
    method Create(keys: seq<Key>, accepts: nat -> bool) returns (targets: seq<Target>, refusals: nat)
      modifies `rows, `jobs
      ensures (State(), targets) == Request(old(State()), keys, accepts)
      ensures |targets| == |keys| && refusals == Refusals(targets, accepts)
    {
      targets, refusals := [], 0;
      for i := 0 to |keys|
        invariant jobs == old(jobs) && (rows, targets) == CreateRows(old(rows), keys[..i])
        invariant |targets| == i && forall t :: t in targets ==> t.id < |rows|
      {
        assert keys[..i + 1][..i] == keys[..i];
        var found := FindOpen(rows, keys[i]);
        if found.Some? {
          targets := targets + [Target(found.value, false)];
        } else {
          rows := rows + [Execution(keys[i], Queued)];
          targets := targets + [Target(|rows| - 1, true)];
        }
      }
      assert keys[..|keys|] == keys;
      refusals := EnqueueAll(targets, accepts);
    }

    /** The second loop: the rows this request inserted go to the queue, or fail. */
    method EnqueueAll(targets: seq<Target>, accepts: nat -> bool) returns (refusals: nat)
      requires forall t :: t in targets ==> t.id < |rows|
      modifies `rows, `jobs
      ensures State() == Enqueue(old(State()), targets, accepts) && refusals == Refusals(targets, accepts)
    {
      refusals := 0;
      for i := 0 to |targets|
        invariant State() == Enqueue(old(State()), targets[..i], accepts) && |rows| == |old(rows)|
        invariant refusals == Refusals(targets[..i], accepts)
      {
        assert targets[..i + 1][..i] == targets[..i];
        var t := targets[i];
        if t.created {
          if accepts(t.id) {
            jobs := jobs + [t.id];
          } else {
            refusals := refusals + 1;
            rows := rows[t.id := rows[t.id].(status := Failed)];
          }
        }
      }
      assert targets[..|targets|] == targets;
    }

    /** `POST /executions`. */
    method CreateExecutions(
        companyIds: seq<nat>, trigger: Trigger, start: int, end: int,
        companies: set<nat>, credentials: set<nat>, queueUp: bool, accepts: nat -> bool)
      returns (r: Result<seq<Target>, ApiError>)
      modifies `rows, `jobs
      ensures r.Success? <==>
                companyIds != [] && All(companyIds, companies) && All(companyIds, credentials) && queueUp
      ensures r.Failure? ==>
                State() == old(State()) && Answers(r.error, companyIds, companies, credentials, queueUp)
      ensures r.Success? ==>
                (State(), r.value) ==
                  Request(old(State()), KeysOf(Distinct(companyIds), trigger, start, end), accepts)
      ensures r.Success? ==>
                |r.value| == |Distinct(companyIds)| &&
                forall i :: 0 <= i < |r.value| ==>
                  r.value[i].id < |rows| &&
                  var key := rows[r.value[i].id].key;
                  key.company == Distinct(companyIds)[i] && key.trigger == trigger && key.start == start && key.end == end
    {
      var refusal := Validate(companyIds, companies, credentials, queueUp);
      if refusal.Some? {
        return Failure(refusal.value);
      }
      TargetsNameKeys(State(), KeysOf(Distinct(companyIds), trigger, start, end), accepts);
      var targets, _ := Create(KeysOf(Distinct(companyIds), trigger, start, end), accepts);
      return Success(targets);
    }

    /** The row of `reprocess_jobs` and the entry of the audit log. */
    method Record(targets: seq<Target>, refusals: nat, ghost accepts: nat -> bool)
      requires targets != [] && refusals == Refusals(targets, accepts)
      modifies `reprocesses, `audits
      ensures |reprocesses| == |old(reprocesses)| + 1 && reprocesses[..|old(reprocesses)|] == old(reprocesses)
      ensures reprocesses[|old(reprocesses)|].results == IdsOf(targets)
      ensures reprocesses[|old(reprocesses)|].failed <==> forall i :: 0 <= i < |targets| ==> Refused(targets[i], accepts)
      ensures audits == old(audits) + [Audit(|old(reprocesses)|, |targets|)]
    {
      audits := audits + [Audit(|reprocesses|, |targets|)];
      reprocesses := reprocesses + [Parent(IdsOf(targets), refusals > 0 && refusals == |targets|)];
    }

    /** `POST /reprocess`: one execution for each distinct company and period of the scope. */
    method CreateReprocess(
        scope: Scope, today: int, companies: set<nat>, credentials: set<nat>, queueUp: bool, accepts: nat -> bool)
      returns (r: Result<seq<Target>, ApiError>)
      modifies this
      ensures var ids := CompaniesIn(ResolveScope(scope, today));
              r.Success? <==>
                (scope.Items? ==> Found(scope.ids, scope.found)) &&
                ids != [] && All(ids, companies) && All(ids, credentials) && queueUp
      ensures r.Failure? ==>
                State() == old(State()) && reprocesses == old(reprocesses) && audits == old(audits) &&
                if scope.Items? && !Found(scope.ids, scope.found) then
                  r.error.ItemsNotFound? &&
                  forall x :: x in r.error.items <==> x in scope.ids && !Present(scope.found, x)
                else Answers(r.error, CompaniesIn(ResolveScope(scope, today)), companies, credentials, queueUp)
      ensures r.Success? ==>
                (State(), r.value) == Request(old(State()), ResolveScope(scope, today), accepts) &&
                |reprocesses| == |old(reprocesses)| + 1 && reprocesses[..|old(reprocesses)|] == old(reprocesses) &&
                reprocesses[|old(reprocesses)|].results == IdsOf(r.value) &&
                (reprocesses[|old(reprocesses)|].failed <==>
                 forall i :: 0 <= i < |r.value| ==> Refused(r.value[i], accepts)) &&
                audits == old(audits) + [Audit(|old(reprocesses)|, |r.value|)]
      ensures r.Success? ==> Fulfils(rows, r.value, scope, today)
    {
      var keys := ResolveScope(scope, today);
      RequestFulfils(State(), scope, today, accepts);
      if scope.Items? {
        var missing := NotFound(scope.ids, scope.found);
        if missing != [] {
          assert missing[0] in missing;
          return Failure(ItemsNotFound(missing));
        }
        assert Found(scope.ids, scope.found) by {
          forall x | x in scope.ids ensures Present(scope.found, x) { assert x !in missing; }
        }
        keys := ResolveByItems(scope.found);
      }
      var refusal := Validate(CompaniesIn(keys), companies, credentials, queueUp);
      if refusal.Some? {
        return Failure(refusal.value);
      }
      var targets, refusals := Create(keys, accepts);
      Record(targets, refusals, accepts);
      return Success(targets);
    }
  }

  /** Target `i` of a request names a row of key `i`. */
  lemma TargetsNameKeys(s: Store, keys: seq<Key>, accepts: nat -> bool)
    ensures var (t, targets) := Request(s, keys, accepts);
            |targets| == |keys| &&
            forall i :: 0 <= i < |keys| ==> targets[i].id < |t.rows| && t.rows[targets[i].id].key == keys[i]
  {
    var (rows, targets) := CreateRows(s.rows, keys);
    CreatedRowsNameKeys(s.rows, keys);
    EnqueueKeepsKeys(s.(rows := rows), targets, accepts);
  }

  /** The targets name rows of exactly the keys the scope asks for. */
  ghost predicate Fulfils(rows: seq<Execution>, targets: seq<Target>, scope: Scope, today: int) {
    (forall t :: t in targets ==> t.id < |rows| && Asked(scope, today, rows[t.id].key)) &&
    forall key :: Asked(scope, today, key) ==> exists t :: t in targets && t.id < |rows| && rows[t.id].key == key
  }

  lemma RequestFulfils(s: Store, scope: Scope, today: int, accepts: nat -> bool)
    ensures var (t, targets) := Request(s, ResolveScope(scope, today), accepts);
            Fulfils(t.rows, targets, scope, today)
  {
    var keys := ResolveScope(scope, today);
    var (t, targets) := Request(s, keys, accepts);
    ScopeKeys(scope, today);
    TargetsNameKeys(s, keys, accepts);
    forall key | key in keys ensures exists x :: x in targets && x.id < |t.rows| && t.rows[x.id].key == key {
      var i :| 0 <= i < |keys| && keys[i] == key;
      assert targets[i] in targets;
    }
  }

  lemma {:induction false} CreatedRowsNameKeys(rows: seq<Execution>, keys: seq<Key>)
    ensures var (rows', targets) := CreateRows(rows, keys);
            rows <= rows' && |targets| == |keys| &&
            forall i :: 0 <= i < |keys| ==> targets[i].id < |rows'| && rows'[targets[i].id].key == keys[i]
    decreases |keys|
  {
    if keys != [] {
      CreatedRowsNameKeys(rows, keys[..|keys| - 1]);
    }
  }

  lemma {:induction false} EnqueueKeepsKeys(s: Store, targets: seq<Target>, accepts: nat -> bool)
    ensures var t := Enqueue(s, targets, accepts);
            |t.rows| == |s.rows| && forall i :: 0 <= i < |s.rows| ==> t.rows[i].key == s.rows[i].key
    decreases |targets|
  {
    if targets != [] {
      EnqueueKeepsKeys(s, targets[..|targets| - 1], accepts);
    }
  }

  predicate Found(itemIds: seq<nat>, found: seq<ItemRow>) {
    forall x :: x in itemIds ==> Present(found, x)
  }

  predicate Present(found: seq<ItemRow>, item: nat) {
    exists i :: 0 <= i < |found| && found[i].item == item
  }

  function NotFound(ids: seq<nat>, found: seq<ItemRow>): (r: seq<nat>)
    ensures forall x :: x in r <==> x in ids && !Present(found, x)
  {
    if ids == [] then []
    else (if Present(found, ids[0]) then [] else [ids[0]]) + NotFound(ids[1..], found)
  }

  /** The tuples of the items' parents, as keys. */
  function Tuples(found: seq<ItemRow>): seq<Key> {
    seq(|found|, i requires 0 <= i < |found| => Key(found[i].company, Reprocess, found[i].start, found[i].end))
  }

  function Resolve(found: seq<ItemRow>): seq<Key> { Distinct(Tuples(found)) }

  /** `_resolve_by_items`, with its `seen` set. */
  method ResolveByItems(found: seq<ItemRow>) returns (keys: seq<Key>)
    ensures keys == Resolve(found)
    ensures forall i :: 0 <= i < |found| ==> Key(found[i].company, Reprocess, found[i].start, found[i].end) in keys
    ensures forall i, j :: 0 <= i < j < |keys| ==> keys[i] != keys[j]
  {
    var seen: set<Key> := {};
    keys := [];
    for i := 0 to |found|
      invariant keys == Distinct(Tuples(found)[..i])
      invariant forall k :: k in seen <==> k in keys
    {
      var key := Key(found[i].company, Reprocess, found[i].start, found[i].end);
      assert Tuples(found)[..i + 1][..i] == Tuples(found)[..i];
      if key !in seen {
        seen := seen + {key};
        keys := keys + [key];
      }
    }
    assert Tuples(found)[..|found|] == Tuples(found);
    forall i | 0 <= i < |found| ensures Key(found[i].company, Reprocess, found[i].start, found[i].end) in keys {
      assert Tuples(found)[i] in Tuples(found);
    }
  }

  // ---------------------------------------------------------------------------
  // What a request does
  // ---------------------------------------------------------------------------

  /** At most one open row per key. */
  predicate OneOpenPerKey(rows: seq<Execution>) {
    forall i, j :: 0 <= i < j < |rows| && Open(rows[i].status) && Open(rows[j].status) ==> rows[i].key != rows[j].key
  }

  /** Each target is the open row of its key; the created ones are the rows after the old table. */
  predicate TargetsMatch(rows: seq<Execution>, keys: seq<Key>, targets: seq<Target>, base: nat) {
    |targets| == |keys| &&
    forall i :: 0 <= i < |keys| ==>
      OpenFor(rows, targets[i].id, keys[i]) && (targets[i].created ==> targets[i].id >= base)
  }

  predicate CreatedOnce(targets: seq<Target>) {
    forall i, j :: 0 <= i < j < |targets| && targets[i].created && targets[j].created ==> targets[i].id != targets[j].id
  }

  /** One more key: its open row is reused, or a row is inserted that is the only open one. */
  lemma TargetAdded(rows: seq<Execution>, keys: seq<Key>, targets: seq<Target>, key: Key, base: nat)
    requires OneOpenPerKey(rows) && TargetsMatch(rows, keys, targets, base) && CreatedOnce(targets) && base <= |rows|
    ensures var found := FindOpen(rows, key);
            if found.Some? then
              TargetsMatch(rows, keys + [key], targets + [Target(found.value, false)], base) &&
              CreatedOnce(targets + [Target(found.value, false)])
            else
              OneOpenPerKey(rows + [Execution(key, Queued)]) &&
              TargetsMatch(rows + [Execution(key, Queued)], keys + [key], targets + [Target(|rows|, true)], base) &&
              CreatedOnce(targets + [Target(|rows|, true)])
  {
    assert forall i :: 0 <= i < |keys| ==> OpenFor(rows, targets[i].id, keys[i]);
    if FindOpen(rows, key).None? {
      forall i | 0 <= i < |rows| && Open(rows[i].status) ensures rows[i].key != key {
        assert !OpenFor(rows, i, key);
      }
    }
  }

  lemma {:induction false} CreateRowsKeeps(rows: seq<Execution>, keys: seq<Key>)
    requires OneOpenPerKey(rows)
    ensures rows <= CreateRows(rows, keys).0 && OneOpenPerKey(CreateRows(rows, keys).0)
    ensures TargetsMatch(CreateRows(rows, keys).0, keys, CreateRows(rows, keys).1, |rows|)
    ensures CreatedOnce(CreateRows(rows, keys).1)
    decreases |keys|
  {
    if keys != [] {
      var n := |keys| - 1;
      CreateRowsKeeps(rows, keys[..n]);
      var (rows', targets) := CreateRows(rows, keys[..n]);
      TargetAdded(rows', keys[..n], targets, keys[n], |rows|);
      assert keys == keys[..n] + [keys[n]];
    }
  }

  /** Every row the insertion phase adds is the row of a target it created. */
  lemma {:induction false} NewRowsAreCreated(rows: seq<Execution>, keys: seq<Key>)
    ensures |rows| <= |CreateRows(rows, keys).0|
    ensures forall id: nat :: |rows| <= id < |CreateRows(rows, keys).0| ==> Created(CreateRows(rows, keys).1, id)
    decreases |keys|
  {
    if keys != [] {
      var n := |keys| - 1;
      NewRowsAreCreated(rows, keys[..n]);
      var (rows', targets) := CreateRows(rows, keys[..n]);
      var found := FindOpen(rows', keys[n]);
      CreatedAdded(targets, |rows|, |rows'|, if found.Some? then Target(found.value, false) else Target(|rows'|, true));
    }
  }

  /** One more target, and perhaps one more row with it. */
  lemma CreatedAdded(targets: seq<Target>, base: nat, size: nat, t: Target)
    requires forall id: nat :: base <= id < size ==> Created(targets, id)
    ensures forall id: nat :: base <= id < size ==> Created(targets + [t], id)
    ensures t.created ==> Created(targets + [t], t.id)
  {
    var more := targets + [t];
    forall id: nat | base <= id < size ensures Created(more, id) {
      assert Created(targets, id);
      var k :| 0 <= k < |targets| && targets[k].created && targets[k].id == id;
      assert more[k] == targets[k];
    }
    assert more[|targets|] == t;
  }

  /** When every key has an open row, the insertion phase finds it. */
  lemma {:induction false} CreateRowsReuses(rows: seq<Execution>, keys: seq<Key>, ids: seq<nat>)
    requires OneOpenPerKey(rows) && |ids| == |keys|
    requires forall i :: 0 <= i < |keys| ==> OpenFor(rows, ids[i], keys[i])
    ensures CreateRows(rows, keys).0 == rows && |CreateRows(rows, keys).1| == |ids|
    ensures forall i :: 0 <= i < |ids| ==> CreateRows(rows, keys).1[i] == Target(ids[i], false)
    decreases |keys|
  {
    if keys != [] {
      var n := |keys| - 1;
      CreateRowsReuses(rows, keys[..n], ids[..n]);
      assert OpenFor(rows, ids[n], keys[n]);
      var found := FindOpen(rows, keys[n]);
      assert found.Some? && OpenFor(rows, found.value, keys[n]);
    }
  }

  predicate Created(targets: seq<Target>, id: int) {
    exists k :: 0 <= k < |targets| && targets[k].created && targets[k].id == id
  }

  /** The enqueue phase closes the refused rows and enqueues the accepted ones, each once. */
  ghost predicate Enqueued(s: Store, t: Store, targets: seq<Target>, accepts: nat -> bool) {
    |t.rows| == |s.rows| && s.jobs <= t.jobs &&
    (forall i: nat :: i < |s.rows| ==>
       t.rows[i] == if Created(targets, i) && !accepts(i) then s.rows[i].(status := Failed) else s.rows[i]) &&
    (forall j :: |s.jobs| <= j < |t.jobs| ==> Created(targets, t.jobs[j]) && accepts(t.jobs[j])) &&
    (forall id: nat :: Created(targets, id) && accepts(id) ==> id in t.jobs) &&
    (forall i, j :: |s.jobs| <= i < j < |t.jobs| ==> t.jobs[i] != t.jobs[j])
  }

  lemma {:induction false} EnqueueEffect(s: Store, targets: seq<Target>, accepts: nat -> bool)
    requires CreatedOnce(targets) && forall i :: 0 <= i < |targets| ==> targets[i].id < |s.rows|
    ensures Enqueued(s, Enqueue(s, targets, accepts), targets, accepts)
    decreases |targets|
  {
    if targets != [] {
      var n := |targets| - 1;
      EnqueueEffect(s, targets[..n], accepts);
      CreatedLast(targets);
    }
  }

  lemma CreatedLast(targets: seq<Target>)
    requires targets != [] && CreatedOnce(targets)
    ensures var n := |targets| - 1;
            forall id :: Created(targets, id) <==> Created(targets[..n], id) || (targets[n].created && targets[n].id == id)
    ensures var n := |targets| - 1;
            targets[n].created ==> !Created(targets[..n], targets[n].id)
  {
    var n := |targets| - 1;
    forall id | Created(targets, id) ensures Created(targets[..n], id) || (targets[n].created && targets[n].id == id) {
      var k :| 0 <= k < |targets| && targets[k].created && targets[k].id == id;
      if k < n { assert targets[..n][k].id == id; }
    }
    forall id | Created(targets[..n], id) ensures Created(targets, id) {
      var k :| 0 <= k < n && targets[..n][k].created && targets[..n][k].id == id;
      assert targets[k].created && targets[k].id == id;
    }
    if targets[n].created {
      assert Created(targets, targets[n].id);
      forall k | 0 <= k < n && targets[..n][k].created ensures targets[..n][k].id != targets[n].id {
        assert targets[..n][k] == targets[k];
      }
    }
  }

  lemma {:induction false} EnqueueNothing(s: Store, targets: seq<Target>, accepts: nat -> bool)
    requires forall i :: 0 <= i < |targets| ==> !targets[i].created
    ensures Enqueue(s, targets, accepts) == s
    decreases |targets|
  {
    if targets != [] {
      EnqueueNothing(s, targets[..|targets| - 1], accepts);
    }
  }

  // ---------------------------------------------------------------------------
  // Requests, ticks and workers in any order
  // ---------------------------------------------------------------------------

  datatype System = System(store: Store, taken: set<nat>, workers: map<nat, Work>)

  /** Requests are serialised; jobs are picked at most once and a worker may die at any point. */
  datatype Event =
    | Post(keys: seq<Key>, accepts: nat -> bool)
    | Tick(company: nat, today: int, accepted: bool)
    | Pick(w: nat, job: nat)
    | MarkRunning(w: nat)
    | Finish(w: nat, final: Status)
    | WorkerCrash(w: nat)

  predicate CompanyBusy(rows: seq<Execution>, company: nat) {
    exists i :: 0 <= i < |rows| && rows[i].key.company == company && Open(rows[i].status)
  }

  /** One company of a tick: any open execution of it blocks the insertion. */
  function DoTick(s: Store, company: nat, today: int, accepted: bool): Store {
    if CompanyBusy(s.rows, company) then s
    else
      var row := Execution(Key(company, Schedule, today, today), if accepted then Queued else Failed);
      Store(s.rows + [row], if accepted then s.jobs + [|s.rows|] else s.jobs)
  }

  predicate Works(s: System, w: nat) {
    w in s.workers && s.workers[w].job < |s.store.jobs| && s.store.jobs[s.workers[w].job] < |s.store.rows|
  }

  function SetStatus(s: System, id: nat, st: Status): System
    requires id < |s.store.rows|
  {
    s.(store := s.store.(rows := s.store.rows[id := s.store.rows[id].(status := st)]))
  }

  function Next(s: System, ev: Event): System {
    match ev
    case Post(keys, accepts) => s.(store := Request(s.store, keys, accepts).0)
    case Tick(company, today, accepted) => s.(store := DoTick(s.store, company, today, accepted))
    case Pick(w, job) =>
      if w !in s.workers && job < |s.store.jobs| && job !in s.taken
      then s.(taken := s.taken + {job}, workers := s.workers[w := Work(job, false)]) else s
    case MarkRunning(w) =>
      if Works(s, w) && !s.workers[w].marked
      then SetStatus(s, s.store.jobs[s.workers[w].job], Running).(workers := s.workers[w := s.workers[w].(marked := true)])
      else s
    case Finish(w, final) =>
      if Works(s, w) && s.workers[w].marked && !Open(final)
      then SetStatus(s, s.store.jobs[s.workers[w].job], final).(workers := s.workers - {w}) else s
    case WorkerCrash(w) => s.(workers := s.workers - {w})
  }

  function Reach(events: seq<Event>): System {
    if events == [] then System(Store([], []), {}, map[])
    else Next(Reach(events[..|events| - 1]), events[|events| - 1])
  }

  ghost predicate JobsInv(rows: seq<Execution>, jobs: seq<nat>, taken: set<nat>) {
    (forall j :: 0 <= j < |jobs| ==> jobs[j] < |rows|) &&
    DistinctJobs(jobs) &&
    (forall j :: 0 <= j < |jobs| && j !in taken ==> rows[jobs[j]].status == Queued)
  }

  ghost predicate WorkersInv(rows: seq<Execution>, jobs: seq<nat>, taken: set<nat>, workers: map<nat, Work>) {
    Picked(workers, jobs, taken) &&
    (forall w :: w in workers ==>
       jobs[workers[w].job] < |rows| &&
       rows[jobs[workers[w].job]].status == if workers[w].marked then Running else Queued)
  }

  ghost predicate Inv(s: System) {
    OneOpenPerKey(s.store.rows) && JobsInv(s.store.rows, s.store.jobs, s.taken) &&
    WorkersInv(s.store.rows, s.store.jobs, s.taken, s.workers)
  }

  /** New rows and jobs for them leave the old jobs and workers alone. */
  lemma GrowKeeps(s: System, t: Store)
    requires Inv(s) && |s.store.rows| <= |t.rows| && s.store.jobs <= t.jobs && OneOpenPerKey(t.rows)
    requires forall i :: 0 <= i < |s.store.rows| ==> t.rows[i] == s.store.rows[i]
    requires forall j :: |s.store.jobs| <= j < |t.jobs| ==>
               |s.store.rows| <= t.jobs[j] < |t.rows| && t.rows[t.jobs[j]].status == Queued
    requires forall i, j :: |s.store.jobs| <= i < j < |t.jobs| ==> t.jobs[i] != t.jobs[j]
    ensures Inv(s.(store := t))
  {
    assert forall j :: 0 <= j < |s.store.jobs| ==> t.jobs[j] == s.store.jobs[j];
  }

  /** The jobs of a request name rows it inserted, and those are queued after it. */
  lemma NewJobsAreQueued(rows: seq<Execution>, keys: seq<Key>, jobs: seq<nat>, accepts: nat -> bool, j: nat)
    requires OneOpenPerKey(rows)
    requires var t := Request(Store(rows, jobs), keys, accepts).0; |jobs| <= j < |t.jobs|
    ensures var t := Request(Store(rows, jobs), keys, accepts).0;
            |rows| <= t.jobs[j] < |t.rows| && t.rows[t.jobs[j]].status == Queued
  {
    var (rows', targets) := CreateRows(rows, keys);
    RequestTargets(rows, keys);
    EnqueueEffect(Store(rows', jobs), targets, accepts);
    var id := Enqueue(Store(rows', jobs), targets, accepts).jobs[j];
    assert Created(targets, id) && accepts(id);
    CreatedIsQueued(rows, keys, id);
  }

  lemma RequestTargets(rows: seq<Execution>, keys: seq<Key>)
    requires OneOpenPerKey(rows)
    ensures var (rows', targets) := CreateRows(rows, keys);
            rows <= rows' && OneOpenPerKey(rows') && CreatedOnce(targets) &&
            (forall i :: 0 <= i < |targets| ==> targets[i].id < |rows'|) &&
            forall id: nat :: Created(targets, id) ==> |rows| <= id < |rows'|
  {
    CreateRowsKeeps(rows, keys);
    var (rows', targets) := CreateRows(rows, keys);
    forall i | 0 <= i < |targets| ensures targets[i].id < |rows'| && (targets[i].created ==> targets[i].id >= |rows|) {
      assert OpenFor(rows', targets[i].id, keys[i]);
    }
  }

  lemma PostKeeps(s: System, keys: seq<Key>, accepts: nat -> bool)
    requires Inv(s)
    ensures Inv(Next(s, Post(keys, accepts)))
  {
    var (rows, targets) := CreateRows(s.store.rows, keys);
    RequestTargets(s.store.rows, keys);
    EnqueueEffect(s.store.(rows := rows), targets, accepts);
    var t := Request(s.store, keys, accepts).0;
    forall j | |s.store.jobs| <= j < |t.jobs|
      ensures |s.store.rows| <= t.jobs[j] < |t.rows| && t.rows[t.jobs[j]].status == Queued
    {
      NewJobsAreQueued(s.store.rows, keys, s.store.jobs, accepts, j);
    }
    StillOneOpen(rows, t.rows);
    GrowKeeps(s, t);
  }

  /** Closing rows keeps one open row per key. */
  lemma StillOneOpen(rows: seq<Execution>, rows': seq<Execution>)
    requires OneOpenPerKey(rows) && |rows'| == |rows|
    requires forall i :: 0 <= i < |rows| ==> rows'[i].key == rows[i].key && (Open(rows'[i].status) ==> Open(rows[i].status))
    ensures OneOpenPerKey(rows')
  {
  }

  /** The rows a request inserts are queued when the enqueue phase starts. */
  lemma {:induction false} CreatedIsQueued(rows: seq<Execution>, keys: seq<Key>, id: nat)
    requires OneOpenPerKey(rows) && Created(CreateRows(rows, keys).1, id)
    ensures id < |CreateRows(rows, keys).0| && CreateRows(rows, keys).0[id].status == Queued
    decreases |keys|
  {
    if keys != [] {
      var n := |keys| - 1;
      CreateRowsKeeps(rows, keys[..n]);
      var (rows', targets) := CreateRows(rows, keys[..n]);
      var all := CreateRows(rows, keys).1;
      assert all[..n] == targets;
      var k :| 0 <= k < |all| && all[k].created && all[k].id == id;
      if k < n {
        assert targets[k].created && targets[k].id == id;
        CreatedIsQueued(rows, keys[..n], id);
      }
    }
  }

  lemma TickKeeps(s: System, company: nat, today: int, accepted: bool)
    requires Inv(s)
    ensures Inv(Next(s, Tick(company, today, accepted)))
  {
    var t := DoTick(s.store, company, today, accepted);
    if t != s.store {
      forall i | 0 <= i < |s.store.rows| && Open(s.store.rows[i].status)
        ensures s.store.rows[i].key.company != company
      {
      }
      GrowKeeps(s, t);
    }
  }

  /** A worker that sets the status of its row leaves the rows of other jobs alone. */
  lemma RowOfWorker(s: System, w: nat, st: Status)
    requires Inv(s) && w in s.workers
    ensures Works(s, w)
    ensures var id := s.store.jobs[s.workers[w].job];
            var rows := SetStatus(s, id, st).store.rows;
            OneOpenPerKey(rows) && JobsInv(rows, s.store.jobs, s.taken) &&
            forall v :: v in s.workers && v != w ==> s.store.jobs[s.workers[v].job] != id
  {
    OtherJobs(s.workers, s.store.jobs, s.taken, w);
  }

  lemma MarkRunningKeeps(s: System, w: nat)
    requires Inv(s)
    ensures Inv(Next(s, MarkRunning(w)))
  {
    if w in s.workers {
      RowOfWorker(s, w, Running);
      MarkedStays(s.workers, s.store.jobs, s.taken, w);
    }
  }

  lemma FinishKeeps(s: System, w: nat, final: Status)
    requires Inv(s)
    ensures Inv(Next(s, Finish(w, final)))
  {
    if w in s.workers {
      RowOfWorker(s, w, final);
    }
  }

  lemma NextKeeps(s: System, ev: Event)
    requires Inv(s)
    ensures Inv(Next(s, ev))
  {
    match ev {
      case Post(keys, accepts) => PostKeeps(s, keys, accepts);
      case Tick(company, today, accepted) => TickKeeps(s, company, today, accepted);
      case Pick(w, job) =>
      case MarkRunning(w) => MarkRunningKeeps(s, w);
      case Finish(w, final) => FinishKeeps(s, w, final);
      case WorkerCrash(w) =>
    }
  }

  lemma {:induction false} ReachKeeps(events: seq<Event>)
    ensures Inv(Reach(events))
  {
    if events != [] {
      ReachKeeps(events[..|events| - 1]);
      NextKeeps(Reach(events[..|events| - 1]), events[|events| - 1]);
    }
  }

  ghost predicate QueuedHaveJobs(s: Store) {
    forall i :: 0 <= i < |s.rows| && s.rows[i].status == Queued ==> i in s.jobs
  }

  lemma PostKeepsQueued(s: System, keys: seq<Key>, accepts: nat -> bool)
    requires Inv(s) && QueuedHaveJobs(s.store)
    ensures QueuedHaveJobs(Next(s, Post(keys, accepts)).store)
  {
    var (rows, targets) := CreateRows(s.store.rows, keys);
    NewRowsAreCreated(s.store.rows, keys);
    RequestTargets(s.store.rows, keys);
    EnqueueEffect(s.store.(rows := rows), targets, accepts);
    var t := Request(s.store, keys, accepts).0;
    forall i: nat | i < |t.rows| && t.rows[i].status == Queued ensures i in t.jobs {
      if i < |s.store.rows| {
        assert rows[i] == s.store.rows[i];
        assert forall j :: 0 <= j < |s.store.jobs| ==> t.jobs[j] == s.store.jobs[j];
      } else {
        assert Created(targets, i);
      }
    }
  }

  lemma NextKeepsQueued(s: System, ev: Event)
    requires Inv(s) && QueuedHaveJobs(s.store)
    ensures QueuedHaveJobs(Next(s, ev).store)
  {
    if ev.Post? {
      PostKeepsQueued(s, ev.keys, ev.accepts);
    }
  }

  /** Every queued row has a job in the queue: none is inserted without one. */
  lemma {:induction false} QueuedRowsHaveJobs(events: seq<Event>)
    ensures QueuedHaveJobs(Reach(events).store)
  {
    if events != [] {
      QueuedRowsHaveJobs(events[..|events| - 1]);
      ReachKeeps(events[..|events| - 1]);
      NextKeepsQueued(Reach(events[..|events| - 1]), events[|events| - 1]);
    }
  }

  /** A tick opens an execution, or one that failed to enqueue, exactly for a company without an open one. */
  lemma TickOpensIff(s: System, company: nat, today: int, accepted: bool)
    ensures var t := Next(s, Tick(company, today, accepted)).store;
            var n := |s.store.rows|;
            if exists i :: 0 <= i < n && s.store.rows[i].key.company == company && Open(s.store.rows[i].status)
            then t == s.store
            else
              |t.rows| == n + 1 && t.rows[..n] == s.store.rows &&
              t.rows[n].key == Key(company, Schedule, today, today) &&
              (Open(t.rows[n].status) <==> accepted) && (n in t.jobs <==> n in s.store.jobs || accepted)
  {
  }

  /** A worker that nothing disturbs takes its row from queued to the status it ends with, and no other row changes. */
  lemma WorkAloneFinishes(s: System, w: nat, job: nat, final: Status)
    requires Inv(s) && w !in s.workers && job < |s.store.jobs| && job !in s.taken && !Open(final)
    ensures var id := s.store.jobs[job];
            id < |s.store.rows| && s.store.rows[id].status == Queued &&
            Next(Next(Next(s, Pick(w, job)), MarkRunning(w)), Finish(w, final)) ==
              s.(taken := s.taken + {job},
                 store := s.store.(rows := s.store.rows[id := s.store.rows[id].(status := final)]))
  {
    var id := s.store.jobs[job];
    var marked := Next(Next(s, Pick(w, job)), MarkRunning(w));
    LastUpdateStays(s.workers, w, Work(job, false), Work(job, true));
    assert s.workers[w := Work(job, true)] - {w} == s.workers;
    assert marked.store.rows[id := marked.store.rows[id].(status := final)] ==
           s.store.rows[id := s.store.rows[id].(status := final)];
  }

  /** A worker that dies changes no row, and nobody holds its job any more. */
  lemma CrashLeavesRows(s: System, w: nat)
    requires Inv(s) && w in s.workers
    ensures var s' := Next(s, WorkerCrash(w));
            s'.store == s.store && s'.taken == s.taken &&
            forall v :: v in s'.workers ==> s'.workers[v].job != s.workers[w].job
  {
  }

  /** In every reachable state a company has at most one open execution per trigger and period. */
  lemma OneOpenExecutionPerKey(events: seq<Event>, i: nat, j: nat, key: Key)
    requires OpenFor(Reach(events).store.rows, i, key) && OpenFor(Reach(events).store.rows, j, key)
    ensures i == j
  {
    ReachKeeps(events);
  }

  /** No execution is enqueued twice. */
  lemma EnqueuedOnce(events: seq<Event>, i: nat, j: nat)
    requires i < |Reach(events).store.jobs| && j < |Reach(events).store.jobs|
    requires Reach(events).store.jobs[i] == Reach(events).store.jobs[j]
    ensures i == j
  {
    ReachKeeps(events);
  }

  /**
   A request answers with one execution per key, each open for its key until the enqueue
   phase, which leaves open exactly the reused ones and the accepted ones.
   */
  lemma RequestAnswers(events: seq<Event>, keys: seq<Key>, accepts: nat -> bool, i: nat)
    requires i < |keys|
    ensures var targets := Request(Reach(events).store, keys, accepts).1;
            var t := Reach(events + [Post(keys, accepts)]).store;
            |targets| == |keys| && targets[i].id < |t.rows| && t.rows[targets[i].id].key == keys[i] &&
            (OpenFor(t.rows, targets[i].id, keys[i]) <==> !Created(targets, targets[i].id) || accepts(targets[i].id)) &&
            (Created(targets, targets[i].id) && accepts(targets[i].id) ==> targets[i].id in t.jobs)
  {
    ReachKeeps(events);
    AnswersAt(Reach(events).store, keys, accepts, i);
    assert (events + [Post(keys, accepts)])[..|events|] == events;
  }

  lemma AnswersAt(s: Store, keys: seq<Key>, accepts: nat -> bool, i: nat)
    requires OneOpenPerKey(s.rows) && i < |keys|
    ensures var (t, targets) := Request(s, keys, accepts);
            |targets| == |keys| && targets[i].id < |t.rows| && t.rows[targets[i].id].key == keys[i] &&
            (OpenFor(t.rows, targets[i].id, keys[i]) <==> !Created(targets, targets[i].id) || accepts(targets[i].id)) &&
            (Created(targets, targets[i].id) && accepts(targets[i].id) ==> targets[i].id in t.jobs)
  {
    var (rows, targets) := CreateRows(s.rows, keys);
    CreateRowsKeeps(s.rows, keys);
    assert OpenFor(rows, targets[i].id, keys[i]);
    RequestTargets(s.rows, keys);
    EnqueueEffect(s.(rows := rows), targets, accepts);
  }

  /**
   Repeating a request while its executions are still open, whatever happened in between:
   the same ids come back, no execution is inserted and no job is enqueued.
   */
  lemma RepeatedRequestIsIdempotent(
      first: seq<Event>, more: seq<Event>, keys: seq<Key>, accepts: nat -> bool, accepts': nat -> bool)
    requires var targets := Request(Reach(first).store, keys, accepts).1;
             var later := Reach(first + [Post(keys, accepts)] + more).store;
             |targets| == |keys| && forall i :: 0 <= i < |keys| ==> OpenFor(later.rows, targets[i].id, keys[i])
    ensures var targets := Request(Reach(first).store, keys, accepts).1;
            var later := Reach(first + [Post(keys, accepts)] + more).store;
            var again := Request(later, keys, accepts');
            again.0 == later && |again.1| == |targets| &&
            forall i :: 0 <= i < |targets| ==> again.1[i] == Target(targets[i].id, false)
  {
    var targets := Request(Reach(first).store, keys, accepts).1;
    var later := Reach(first + [Post(keys, accepts)] + more).store;
    ReachKeeps(first + [Post(keys, accepts)] + more);
    var ids := seq(|targets|, i requires 0 <= i < |targets| => targets[i].id);
    CreateRowsReuses(later.rows, keys, ids);
    EnqueueNothing(later, Request(later, keys, accepts').1, accepts');
  }
}
