/**
 Pagination of the national NFS-e portal (`fetcher.py`).

 The portal is an append-only log of documents.  `BuscarTodosDfeNovos` reads it
 from a cursor in replies of a size the portal chooses.  The module proves that
 reading it this way is the same as filtering the log by NSU, whatever the reply
 sizes, the limits, the rejections and the growth of the log between replies.
 */
module Fetcher {
  import opened Wrappers

  import NsuTracker

  /** The value under "NSU": absent, an integer, or something `int()` may still coerce. */
  datatype NsuField = Missing | Integer(n: int) | Other(parsed: Option<int>)

  /** What `extrair_xml_do_doc` and `extrair_dados_nfse` find in a document. */
  datatype Xml =
    | NoXml
    | Malformed(text: string)
    | Parsed(text: string, accessKey: Option<string>, issuer: Option<string>, cancelled: bool)

  datatype Document = Document(
    nsu: NsuField, kind: string, upperKey: Option<string>, lowerKey: Option<string>, xml: Xml)

  datatype Status = Rejected | NothingFound | OtherStatus

  /** One answer of `buscar_lote_dfe`: a decoded body, or an exception after the retries. */
  datatype Reply = Body(status: Status, docs: seq<Document>) | Raised(code: string)

  /** The answer to the n-th request of a call, made with a given cursor. */
  type Portal = (nat, int) -> Reply

  /** Why a call stopped paginating; not part of the value returned to the caller. */
  datatype Stop = PortalRejected | Exhausted | LimitReached | NoProgress

  datatype Pages = Pages(docs: seq<Document>, stop: Stop)

  // ---------------------------------------------------------------------------
  // Reading NSUs
  // ---------------------------------------------------------------------------

  /** The coercion of the accumulation loop: anything unreadable counts as 0. */
  function Nsu(d: Document): int {
    match d.nsu
    case Missing => 0
    case Integer(n) => n
    case Other(Some(n)) => n
    case Other(None) => 0
  }

  function Max(a: int, b: int): int { if a < b then b else a }

  function Min(a: int, b: int): int { if a < b then a else b }

  /** The largest coerced NSU among `docs`, and never less than `floor`. */
  function Highest(floor: int, docs: seq<Document>): int {
    if docs == [] then floor
    else Max(Highest(floor, docs[..|docs| - 1]), Nsu(docs[|docs| - 1]))
  }

  lemma HighestOn(floor: int, docs: seq<Document>, doc: Document)
    ensures Highest(floor, docs + [doc]) == Max(Highest(floor, docs), Nsu(doc))
  {
    assert (docs + [doc])[..|docs|] == docs;
  }

  lemma {:induction false} HighestIsMaximum(floor: int, docs: seq<Document>)
    ensures Highest(floor, docs) >= floor
    ensures forall i :: 0 <= i < |docs| ==> Nsu(docs[i]) <= Highest(floor, docs)
    ensures Highest(floor, docs) == floor || exists i :: 0 <= i < |docs| && Nsu(docs[i]) == Highest(floor, docs)
  {
    if docs != [] {
      HighestIsMaximum(floor, docs[..|docs| - 1]);
    }
  }

  /** The step of pagination: only NSUs that are integers already count here. */
  function BatchTop(docs: seq<Document>): (m: int)
    ensures m >= 0
  {
    if docs == [] then 0
    else
      var m := BatchTop(docs[..|docs| - 1]);
      var last := docs[|docs| - 1];
      if last.nsu.Integer? && last.nsu.n > m then last.nsu.n else m
  }

  lemma {:induction false} BatchTopBound(docs: seq<Document>, bound: int)
    requires 0 <= bound
    requires forall d :: d in docs && d.nsu.Integer? ==> d.nsu.n <= bound
    ensures BatchTop(docs) <= bound
  {
    if docs != [] {
      BatchTopBound(docs[..|docs| - 1], bound);
    }
  }

  method MaxNsuDoLote(docs: seq<Document>) returns (top: int)
    ensures top == BatchTop(docs)
    ensures forall d :: d in docs && d.nsu.Integer? ==> d.nsu.n <= top
    ensures top == 0 || exists d :: d in docs && d.nsu == Integer(top)
  {
    top := 0;
    for i := 0 to |docs|
      invariant top == BatchTop(docs[..i]) >= 0
      invariant forall j :: 0 <= j < i && docs[j].nsu.Integer? ==> docs[j].nsu.n <= top
      invariant top == 0 || exists d :: d in docs && d.nsu == Integer(top)
    {
      assert docs[..i + 1][..i] == docs[..i];
      if docs[i].nsu.Integer? && docs[i].nsu.n > top {
        top := docs[i].nsu.n;
        assert docs[i] in docs && docs[i].nsu == Integer(top);
      }
    }
    assert docs[..|docs|] == docs;
  }

  // ---------------------------------------------------------------------------
  // Pagination
  // ---------------------------------------------------------------------------

  /** A reply with documents to collect. */
  predicate Carries(reply: Reply) {
    reply.Body? && reply.status == OtherStatus && reply.docs != []
  }

  /** Every integer NSU the portal ever serves fits under `top` (NSUs are stored as BIGINT). */
  ghost predicate BoundedBy(portal: Portal, top: int) {
    0 <= top &&
    forall k: nat, c: int :: Carries(portal(k, c)) ==> BatchTop(portal(k, c).docs) <= top
  }

  /** How many documents of a reply are kept: the limit is looked at after each append. */
  function Kept(size: nat, taken: nat, limit: Option<int>): (k: nat)
    ensures k <= size
    ensures size > 0 ==> k > 0
  {
    if limit.None? then size else Min(size, Max(1, limit.value - taken))
  }

  function Prepend(docs: seq<Document>, r: Result<Pages, string>): Result<Pages, string> {
    if r.Failure? then r else Success(Pages(docs + r.value.docs, r.value.stop))
  }

  /** Whether a batch of this size leaves room below the limit. */
  predicate Goes(size: nat, taken: nat, limit: Option<int>) {
    limit.None? || taken + Kept(size, taken, limit) < limit.value
  }

  /** The call goes on from its reply to request `call`: below the limit, and with progress. */
  predicate GoesOn(portal: Portal, call: nat, cursor: int, taken: nat, limit: Option<int>) {
    var reply := portal(call, cursor);
    Carries(reply) && Goes(|reply.docs|, taken, limit) && cursor < BatchTop(reply.docs)
  }

  /** What a call collects from the last reply it looks at, and why it stops there. */
  function Ending(reply: Reply, taken: nat, limit: Option<int>): Result<Pages, string> {
    match reply
    case Raised(code) => Failure(code)
    case Body(status, docs) =>
      if status == Rejected then Success(Pages([], PortalRejected))
      else if status == NothingFound || docs == [] then Success(Pages([], Exhausted))
      else
        var stop := if Goes(|docs|, taken, limit) then NoProgress else LimitReached;
        Success(Pages(docs[..Kept(|docs|, taken, limit)], stop))
  }

  /** The documents one call collects from request `call` on, having `taken` some already. */
  function Paginate(portal: Portal, call: nat, cursor: int, taken: nat, limit: Option<int>, ghost top: int)
    : Result<Pages, string>
    requires BoundedBy(portal, top)
    decreases if cursor < top then top - cursor else 0
  {
    if GoesOn(portal, call, cursor, taken, limit) then
      var docs := portal(call, cursor).docs;
      Prepend(docs, Paginate(portal, call + 1, BatchTop(docs), taken + |docs|, limit, top))
    else Ending(portal(call, cursor), taken, limit)
  }

  /** The last reply a call looks at. */
  function FinalReply(portal: Portal, call: nat, cursor: int, taken: nat, limit: Option<int>, ghost top: int): Reply
    requires BoundedBy(portal, top)
    decreases if cursor < top then top - cursor else 0
  {
    if GoesOn(portal, call, cursor, taken, limit) then
      var docs := portal(call, cursor).docs;
      FinalReply(portal, call + 1, BatchTop(docs), taken + |docs|, limit, top)
    else portal(call, cursor)
  }

  /**
   How a call ends is decided by the last reply it looks at: it fails exactly on an exception,
   with its code, and otherwise stops on a rejection, on nothing to collect, or on a batch,
   and then for the limit exactly when the limit is met.
   */
  lemma {:induction false} EndsAsTheFinalReply(
      portal: Portal, call: nat, cursor: int, taken: nat, limit: Option<int>, top: int)
    requires BoundedBy(portal, top)
    ensures var r, last := Paginate(portal, call, cursor, taken, limit, top), FinalReply(portal, call, cursor, taken, limit, top);
            (r.Failure? <==> last.Raised?) && (r.Failure? ==> r.error == last.code) &&
            (r.Success? ==>
              (r.value.stop.PortalRejected? <==> last.status == Rejected) &&
              (r.value.stop.Exhausted? <==>
                last.status == NothingFound || (last.status == OtherStatus && last.docs == [])) &&
              (Carries(last) ==>
                (r.value.stop.LimitReached? <==> limit.Some? && taken + |r.value.docs| >= limit.value)))
    decreases if cursor < top then top - cursor else 0
  {
    if GoesOn(portal, call, cursor, taken, limit) {
      var docs := portal(call, cursor).docs;
      EndsAsTheFinalReply(portal, call + 1, BatchTop(docs), taken + |docs|, limit, top);
    }
  }

  lemma PrependTwice(a: seq<Document>, b: seq<Document>, r: Result<Pages, string>)
    ensures Prepend(a, Prepend(b, r)) == Prepend(a + b, r)
  {
    if r.Success? {
      assert a + (b + r.value.docs) == (a + b) + r.value.docs;
    }
  }

  /** The inner loop of `buscar_todos_dfe_novos`: append the batch until the limit is met. */
  method Acumular(nsuInicial: int, antes: seq<Document>, maiorAntes: int, docs: seq<Document>, limit: Option<int>)
    returns (todos: seq<Document>, maior: int, limite: bool)
    requires docs != [] && maiorAntes == Highest(nsuInicial, antes)
    requires limit.Some? && antes != [] ==> |antes| < limit.value
    ensures todos == antes + docs[..Kept(|docs|, |antes|, limit)]
    ensures maior == Highest(nsuInicial, todos)
    ensures limite <==> limit.Some? && |todos| >= limit.value
    ensures limite <==> !Goes(|docs|, |antes|, limit)
    ensures !limite ==> todos == antes + docs
  {
    todos, maior, limite := antes, maiorAntes, false;
    var i := 0;
    while i < |docs| && !limite
      invariant 0 <= i <= |docs| && todos == antes + docs[..i]
      invariant maior == Highest(nsuInicial, todos)
      invariant limite <==> limit.Some? && i > 0 && |todos| >= limit.value
      invariant limit.Some? && i > 1 ==> |antes| + i - 1 < limit.value
    {
      var doc := docs[i];
      HighestOn(nsuInicial, todos, doc);
      OneMore(antes, docs, i);
      todos := todos + [doc];
      if Nsu(doc) > maior {
        maior := Nsu(doc);
      }
      i := i + 1;
      if limit.Some? && |todos| >= limit.value {
        limite := true;
      }
    }
    EndOfBatch(docs, |antes|, limit, i);
  }

  lemma OneMore<T>(before: seq<T>, part: seq<T>, i: nat)
    requires i < |part|
    ensures before + part[..i] + [part[i]] == before + part[..i + 1]
  {
  }

  /** Where the loop stops: at the limit, or at the end of the batch. */
  lemma EndOfBatch(docs: seq<Document>, taken: nat, limit: Option<int>, i: nat)
    requires docs != [] && i <= |docs|
    requires limit.Some? && taken > 0 ==> taken < limit.value
    requires limit.Some? && i > 1 ==> taken + i - 1 < limit.value
    requires i < |docs| ==> limit.Some? && i > 0 && taken + i >= limit.value
    ensures docs[..i] == docs[..Kept(|docs|, taken, limit)]
    ensures limit.Some? && taken + i >= limit.value <==> !Goes(|docs|, taken, limit)
    ensures Goes(|docs|, taken, limit) ==> docs[..i] == docs
  {
    KeptIs(|docs|, taken, limit, i);
    assert docs[..|docs|] == docs;
  }

  /** Stopping at the limit, or at the end of the batch, is what `Kept` says. */
  lemma KeptIs(size: nat, taken: nat, limit: Option<int>, i: nat)
    requires 0 < size && i <= size
    requires limit.Some? && taken > 0 ==> taken < limit.value
    requires limit.Some? && i > 1 ==> taken + i - 1 < limit.value
    requires i < size ==> limit.Some? && i > 0 && taken + i >= limit.value
    ensures i == Kept(size, taken, limit)
  {
  }

  /** The call ends at a reply that stops it, with what was kept of that reply. */
  lemma PaginateEnds(
      portal: Portal, call: nat, cursor: int, before: seq<Document>, limit: Option<int>, top: int,
      all: Result<Pages, string>)
    requires BoundedBy(portal, top) && portal(call, cursor).Body?
    requires all == Prepend(before, Paginate(portal, call, cursor, |before|, limit, top))
    requires !GoesOn(portal, call, cursor, |before|, limit)
    ensures var reply := portal(call, cursor);
            all.Success? &&
            all.value.docs ==
              if Carries(reply) then before + reply.docs[..Kept(|reply.docs|, |before|, limit)] else before
  {
    assert before + [] == before;
  }

  /** The call goes on after a batch that makes progress and does not meet the limit. */
  lemma PaginateGoesOn(
      portal: Portal, call: nat, cursor: int, before: seq<Document>, limit: Option<int>, top: int,
      all: Result<Pages, string>)
    requires BoundedBy(portal, top) && GoesOn(portal, call, cursor, |before|, limit)
    requires all == Prepend(before, Paginate(portal, call, cursor, |before|, limit, top))
    ensures var docs := portal(call, cursor).docs;
            all == Prepend(before + docs, Paginate(portal, call + 1, BatchTop(docs), |before + docs|, limit, top))
  {
    var docs := portal(call, cursor).docs;
    PrependTwice(before, docs, Paginate(portal, call + 1, BatchTop(docs), |before| + |docs|, limit, top));
  }

  /**
   `buscar_todos_dfe_novos`: the documents above the cursor and the new cursor, or the
   exception of the portal.  What the pages hold is said by the lemmas on `Paginate`.
   */
  method BuscarTodosDfeNovos(portal: Portal, nsuInicial: int, maxDocumentos: Option<int>, ghost top: int)
    returns (r: Result<(seq<Document>, int), string>)
    requires BoundedBy(portal, top)
    ensures var pages := Paginate(portal, 0, nsuInicial, 0, maxDocumentos, top);
            match r
            case Failure(code) => pages == Failure(code)
            case Success((docs, maior)) =>
              pages.Success? && docs == pages.value.docs && maior == Highest(nsuInicial, docs)
    ensures var pages := Paginate(portal, 0, nsuInicial, 0, maxDocumentos, top);
            var last := FinalReply(portal, 0, nsuInicial, 0, maxDocumentos, top);
            (r.Failure? <==> last.Raised?) && (r.Failure? ==> r.error == last.code) &&
            (r.Success? ==> (pages.value.stop.PortalRejected? <==> last.status == Rejected))
  {
    EndsAsTheFinalReply(portal, 0, nsuInicial, 0, maxDocumentos, top);
    var todos: seq<Document>, nsuAtual, maior, call: nat := [], nsuInicial, nsuInicial, 0;
    ghost var all := Paginate(portal, 0, nsuInicial, 0, maxDocumentos, top);
    assert all.Success? ==> [] + all.value.docs == all.value.docs;
    while true
      invariant maior == Highest(nsuInicial, todos)
      invariant all == Prepend(todos, Paginate(portal, call, nsuAtual, |todos|, maxDocumentos, top))
      invariant maxDocumentos.Some? && todos != [] ==> |todos| < maxDocumentos.value
      decreases if nsuAtual < top then top - nsuAtual else 0
    {
      var lote := portal(call, nsuAtual);
      if lote.Raised? {
        return Failure(lote.code);
      }
      if lote.status == Rejected || lote.status == NothingFound || lote.docs == [] {
        PaginateEnds(portal, call, nsuAtual, todos, maxDocumentos, top, all);
        break;
      }
      var antes, limite := todos, false;
      todos, maior, limite := Acumular(nsuInicial, todos, maior, lote.docs, maxDocumentos);
      var maxLote := MaxNsuDoLote(lote.docs);
      if limite || maxLote <= nsuAtual {
        PaginateEnds(portal, call, nsuAtual, antes, maxDocumentos, top, all);
        break;
      }
      PaginateGoesOn(portal, call, nsuAtual, antes, maxDocumentos, top, all);
      nsuAtual, call := maxLote, call + 1;
    }
    return Success((todos, maior));
  }

  /**
   `buscar_todos_dfe_novos` with its NSU store: the first cursor comes from the store when
   there is one, and the last one goes back to it when it moved.
   */
  method BuscarComFonte(
      portal: Portal, cnpj: string, ultimoNsuSalvo: int, fonte: NsuTracker.InMemoryNsuSource?,
      maxDocumentos: Option<int>, ghost top: int)
    returns (r: Result<(seq<Document>, int), string>)
    requires BoundedBy(portal, top)
    modifies if fonte == null then {} else {fonte}
    ensures var inicial := if fonte == null then ultimoNsuSalvo else NsuTracker.Get(old(fonte.estado), cnpj);
            var pages := Paginate(portal, 0, inicial, 0, maxDocumentos, top);
            match r
            case Failure(code) => pages == Failure(code)
            case Success((docs, maior)) =>
              pages.Success? && docs == pages.value.docs && maior == Highest(inicial, docs)
    ensures var inicial := if fonte == null then ultimoNsuSalvo else NsuTracker.Get(old(fonte.estado), cnpj);
            r.Failure? <==> FinalReply(portal, 0, inicial, 0, maxDocumentos, top).Raised?
    ensures fonte != null ==>
              fonte.estado ==
                if r.Success? then NsuTracker.Put(old(fonte.estado), cnpj, r.value.1) else old(fonte.estado)
  {
    var inicial := ultimoNsuSalvo;
    if fonte != null {
      inicial := fonte.Obter(cnpj);
    }
    r := BuscarTodosDfeNovos(portal, inicial, maxDocumentos, top);
    if r.Success? && fonte != null && r.value.1 > inicial {
      fonte.Set(cnpj, r.value.1);
    }
  }

  // ---------------------------------------------------------------------------
  // The portal as a log
  // ---------------------------------------------------------------------------

  /** NSUs, once coerced, are positive and grow along the log. */
  ghost predicate Increasing(log: seq<Document>) {
    (forall i :: 0 <= i < |log| ==> Nsu(log[i]) > 0) &&
    forall i, j :: 0 <= i < j < |log| ==> Nsu(log[i]) < Nsu(log[j])
  }

  /** NSUs are positive integers that grow along the log. */
  ghost predicate Ordered(log: seq<Document>) {
    (forall i :: 0 <= i < |log| ==> log[i].nsu.Integer?) && Increasing(log)
  }

  /** The specification of a collection: filter the log by NSU. */
  function After(log: seq<Document>, cursor: int): seq<Document> {
    if log == [] then []
    else (if Nsu(log[0]) > cursor then [log[0]] else []) + After(log[1..], cursor)
  }

  /** The largest NSU of an ordered log. */
  function LogTop(log: seq<Document>): int {
    if log == [] then 0 else Nsu(log[|log| - 1])
  }

  /** A reply that tells the truth about what follows the cursor, or refuses to answer. */
  ghost predicate Truthful(reply: Reply, rest: seq<Document>) {
    reply.Raised? || reply.status == Rejected ||
    if rest == [] then reply.status == NothingFound || reply.docs == []
    else reply.status == OtherStatus && reply.docs != [] && reply.docs <= rest
  }

  /** Request n sees the snapshot n of a log that only grows; `log` is what it grows to. */
  ghost predicate Serves(portal: Portal, snaps: nat -> seq<Document>, log: seq<Document>) {
    (forall j: nat, k: nat :: j <= k ==> snaps(j) <= snaps(k)) &&
    (forall k: nat :: snaps(k) <= log) &&
    forall k: nat, c: int {:trigger TruthfulAt(portal, snaps, k, c)} :: TruthfulAt(portal, snaps, k, c)
  }

  /** A log that does not change during a call. */
  function Unchanged(log: seq<Document>): nat -> seq<Document> {
    (k: nat) => log
  }

  ghost predicate TruthfulAt(portal: Portal, snaps: nat -> seq<Document>, k: nat, c: int) {
    Truthful(portal(k, c), After(snaps(k), c))
  }

  ghost predicate Honest(portal: Portal, snaps: nat -> seq<Document>, log: seq<Document>) {
    Ordered(log) && Serves(portal, snaps, log)
  }

  lemma {:induction false} AllAbove(log: seq<Document>, cursor: int)
    requires forall i :: 0 <= i < |log| ==> Nsu(log[i]) > cursor
    ensures After(log, cursor) == log
  {
    if log != [] {
      AllAbove(log[1..], cursor);
      assert log == [log[0]] + log[1..];
    }
  }

  /** In an increasing log, what follows a cursor is a suffix of the log. */
  lemma {:induction false} AfterIsSuffix(log: seq<Document>, cursor: int)
    requires Increasing(log)
    ensures var rest := After(log, cursor);
            |rest| <= |log| && rest == log[|log| - |rest|..] &&
            forall i :: 0 <= i < |log| ==> (Nsu(log[i]) > cursor <==> i >= |log| - |rest|)
  {
    if log != [] {
      if Nsu(log[0]) > cursor {
        AllAbove(log, cursor);
      } else {
        AfterIsSuffix(log[1..], cursor);
        var rest := After(log[1..], cursor);
        assert After(log, cursor) == rest;
        forall i | 1 <= i < |log|
          ensures Nsu(log[i]) > cursor <==> i >= |log| - |rest|
        {
          assert log[i] == log[1..][i - 1];
        }
      }
    }
  }

  lemma {:induction false} AfterConcat(a: seq<Document>, b: seq<Document>, cursor: int)
    ensures After(a + b, cursor) == After(a, cursor) + After(b, cursor)
  {
    if a == [] {
      assert a + b == b;
    } else {
      AfterConcat(a[1..], b, cursor);
      var head := if Nsu(a[0]) > cursor then [a[0]] else [];
      assert (a + b)[0] == a[0] && (a + b)[1..] == a[1..] + b;
      assert head + (After(a[1..], cursor) + After(b, cursor)) == (head + After(a[1..], cursor)) + After(b, cursor);
    }
  }

  lemma AfterMonotone(small: seq<Document>, log: seq<Document>, cursor: int)
    requires small <= log
    ensures After(small, cursor) <= After(log, cursor)
  {
    assert log == small + log[|small|..];
    AfterConcat(small, log[|small|..], cursor);
  }

  /** The cursor after a run of documents cut out of an increasing log. */
  lemma HighestOfSorted(cursor: int, docs: seq<Document>)
    requires Increasing(docs)
    requires docs != [] ==> Nsu(docs[0]) > cursor
    ensures Highest(cursor, docs) == if docs == [] then cursor else Nsu(docs[|docs| - 1])
    ensures docs != [] ==> Highest(cursor, docs) > cursor
  {
    HighestIsMaximum(cursor, docs);
    if docs != [] {
      assert Highest(cursor, docs) >= Nsu(docs[0]);
    }
  }

  lemma AfterEntry(log: seq<Document>, cut: nat, cursor: int)
    requires Increasing(log) && 0 < cut <= |log| && cursor == Nsu(log[cut - 1])
    ensures After(log, cursor) == log[cut..]
  {
    AfterIsSuffix(log, cursor);
    var start := |log| - |After(log, cursor)|;
    assert start > cut - 1;
    if cut < |log| {
      assert Nsu(log[cut]) > Nsu(log[cut - 1]);
    }
  }

  /** The documents cut out of an increasing log right after a cursor. */
  lemma CutAfter(log: seq<Document>, cursor: int, docs: seq<Document>) returns (first: nat)
    requires Increasing(log) && docs <= After(log, cursor)
    ensures first + |docs| <= |log| && docs == log[first..first + |docs|]
    ensures After(log, cursor) == log[first..]
    ensures docs != [] ==> Nsu(docs[0]) > cursor
    ensures Increasing(docs)
  {
    AfterIsSuffix(log, cursor);
    first := |log| - |After(log, cursor)|;
  }

  /** The new cursor after a prefix of what follows the old one. */
  lemma NewCursor(log: seq<Document>, cursor: int, docs: seq<Document>)
    requires Increasing(log) && docs <= After(log, cursor)
    ensures Increasing(docs)
    ensures Highest(cursor, docs) == if docs == [] then cursor else Nsu(docs[|docs| - 1])
    ensures docs != [] ==> Highest(cursor, docs) > cursor
  {
    var first := CutAfter(log, cursor, docs);
    HighestOfSorted(cursor, docs);
  }

  /** Where the documents between two cursors lie. */
  lemma InSegment(log: seq<Document>, from: int, docs: seq<Document>, first: nat, i: nat)
    requires Increasing(log) && i < |log| && from < Nsu(log[i]) <= Highest(from, docs)
    requires first + |docs| <= |log| && docs == log[first..first + |docs|] && After(log, from) == log[first..]
    ensures first <= i < first + |docs|
  {
    AfterIsSuffix(log, from);
    NewCursor(log, from, docs);
    assert docs != [] ==> Nsu(log[first + |docs| - 1]) == Highest(from, docs);
  }

  /** What follows the last document of a segment of an increasing log. */
  lemma AfterSegment(log: seq<Document>, first: nat, docs: seq<Document>)
    requires Increasing(log) && docs != [] && first + |docs| <= |log| && docs == log[first..first + |docs|]
    ensures log[first..] == docs + After(log, Nsu(docs[|docs| - 1]))
  {
    Segment(log, first, docs);
    AfterEntry(log, first + |docs|, Nsu(docs[|docs| - 1]));
  }

  lemma Segment<T>(s: seq<T>, first: nat, part: seq<T>)
    requires part != [] && first + |part| <= |s| && part == s[first..first + |part|]
    ensures s[first..] == part + s[first + |part|..] && part[|part| - 1] == s[first + |part| - 1]
  {
  }

  /** Reading a prefix of what follows a cursor and moving the cursor past it loses nothing. */
  lemma Advance(log: seq<Document>, cursor: int, docs: seq<Document>)
    requires Increasing(log) && docs <= After(log, cursor)
    ensures After(log, cursor) == docs + After(log, Highest(cursor, docs))
  {
    NewCursor(log, cursor, docs);
    if docs == [] {
      assert docs + After(log, cursor) == After(log, cursor);
    } else {
      var first := CutAfter(log, cursor, docs);
      AfterSegment(log, first, docs);
    }
  }

  lemma BatchTopOrdered(log: seq<Document>, cursor: int, docs: seq<Document>)
    requires Ordered(log) && docs <= After(log, cursor) && docs != []
    ensures BatchTop(docs) == Highest(cursor, docs) > cursor
  {
    NewCursor(log, cursor, docs);
    var first := CutAfter(log, cursor, docs);
    BatchTopOfSorted(docs);
  }

  lemma {:induction false} BatchTopOfSorted(docs: seq<Document>)
    requires Ordered(docs)
    ensures BatchTop(docs) == LogTop(docs)
  {
    if docs != [] {
      BatchTopOfSorted(docs[..|docs| - 1]);
    }
  }

  /** The step of the pagination never exceeds the cursor the loop returns. */
  lemma BatchTopBelowHighest(cursor: int, docs: seq<Document>)
    requires Increasing(docs) && docs != []
    ensures BatchTop(docs) <= Highest(cursor, docs)
  {
    HighestIsMaximum(cursor, docs);
    assert Highest(cursor, docs) >= Nsu(docs[0]) > 0;
    BatchTopBound(docs, Highest(cursor, docs));
  }

  /**
   A truthful portal keeps the loop's measure bounded by the top of its log, so the
   pagination terminates: the loop variant is the log maximum minus the cursor.
   */
  lemma ServedIsBounded(portal: Portal, snaps: nat -> seq<Document>, log: seq<Document>)
    requires Increasing(log) && Serves(portal, snaps, log)
    ensures BoundedBy(portal, LogTop(log))
  {
    forall k: nat, c: int | Carries(portal(k, c)) ensures BatchTop(portal(k, c).docs) <= LogTop(log) {
      var docs := portal(k, c).docs;
      assert TruthfulAt(portal, snaps, k, c);
      AfterMonotone(snaps(k), log, c);
      var first := CutAfter(log, c, docs);
      NewCursor(log, c, docs);
      BatchTopBelowHighest(c, docs);
      assert docs[|docs| - 1] == log[first + |docs| - 1];
    }
  }

  // ---------------------------------------------------------------------------
  // Pagination refines filtering
  // ---------------------------------------------------------------------------

  /** What a call collects is a prefix of the filtered log; it is all of it unless something stopped it. */
  ghost predicate Collects(p: Pages, snap: seq<Document>, log: seq<Document>, cursor: int, limit: Option<int>) {
    p.docs <= After(log, cursor) &&
    !p.stop.NoProgress? &&
    (p.stop.Exhausted? ==> After(snap, cursor) <= p.docs) &&
    (p.stop.LimitReached? ==> limit.Some? && |p.docs| == Max(1, limit.value)) &&
    (limit.Some? && !p.stop.LimitReached? ==> |p.docs| < Max(1, limit.value))
  }

  lemma OrderedPrefix(small: seq<Document>, log: seq<Document>)
    requires Ordered(log) && small <= log
    ensures Ordered(small)
  {
  }

  /** A batch in front of what the rest of the call collects. */
  lemma CollectsBatch(
      docs: seq<Document>, p: Pages, snap: seq<Document>, next: seq<Document>, log: seq<Document>,
      cursor: int, limit: Option<int>)
    requires Ordered(log) && snap <= next <= log && docs != [] && docs <= After(snap, cursor)
    requires limit.Some? ==> |docs| < limit.value
    requires Collects(p, next, log, Highest(cursor, docs), Rest(limit, |docs|))
    ensures Collects(Pages(docs + p.docs, p.stop), snap, log, cursor, limit)
  {
    assert docs <= After(next, cursor) <= After(log, cursor) by {
      AfterMonotone(snap, next, cursor);
      AfterMonotone(next, log, cursor);
    }
    assert After(log, cursor) == docs + After(log, Highest(cursor, docs)) by { Advance(log, cursor, docs); }
    if p.stop.Exhausted? {
      OrderedPrefix(next, log);
      assert After(next, cursor) == docs + After(next, Highest(cursor, docs)) by { Advance(next, cursor, docs); }
      AfterMonotone(snap, next, cursor);
    }
  }

  /** What honesty says about one reply that carries documents. */
  lemma HonestBatch(portal: Portal, snaps: nat -> seq<Document>, log: seq<Document>, call: nat, cursor: int, top: int)
    requires Honest(portal, snaps, log) && BoundedBy(portal, top)
    requires Carries(portal(call, cursor))
    ensures var docs := portal(call, cursor).docs;
            docs <= After(snaps(call), cursor) && docs <= After(log, cursor) &&
            snaps(call) <= snaps(call + 1) <= log && Ordered(log) &&
            cursor < BatchTop(docs) == Highest(cursor, docs) <= top
  {
    var docs := portal(call, cursor).docs;
    assert TruthfulAt(portal, snaps, call, cursor);
    AfterMonotone(snaps(call), log, cursor);
    BatchTopOrdered(log, cursor, docs);
  }

  function Rest(limit: Option<int>, taken: int): Option<int> {
    if limit.None? then None else Some(limit.value - taken)
  }

  /** The reply at which a call stops: nothing to collect, or a batch that meets the limit and is cut there. */
  lemma CollectsEnd(
      portal: Portal, snaps: nat -> seq<Document>, log: seq<Document>,
      call: nat, cursor: int, taken: nat, limit: Option<int>, top: int)
    requires Honest(portal, snaps, log) && BoundedBy(portal, top)
    requires limit.Some? && taken > 0 ==> taken < limit.value
    requires !GoesOn(portal, call, cursor, taken, limit)
    ensures var r := Ending(portal(call, cursor), taken, limit);
            r.Success? ==> Collects(r.value, snaps(call), log, cursor, Rest(limit, taken))
  {
    if Carries(portal(call, cursor)) {
      HonestBatch(portal, snaps, log, call, cursor, top);
    } else {
      assert TruthfulAt(portal, snaps, call, cursor);
    }
  }

  /** A batch below the limit comes before what the rest of the call collects. */
  lemma CollectsOn(
      portal: Portal, snaps: nat -> seq<Document>, log: seq<Document>,
      call: nat, cursor: int, taken: nat, limit: Option<int>, top: int, rest: Pages)
    requires Honest(portal, snaps, log) && BoundedBy(portal, top)
    requires GoesOn(portal, call, cursor, taken, limit)
    requires var docs := portal(call, cursor).docs;
             Collects(rest, snaps(call + 1), log, BatchTop(docs), Rest(limit, taken + |docs|))
    ensures Collects(Pages(portal(call, cursor).docs + rest.docs, rest.stop), snaps(call), log, cursor, Rest(limit, taken))
  {
    var docs := portal(call, cursor).docs;
    HonestBatch(portal, snaps, log, call, cursor, top);
    BelowTheLimit(|docs|, taken, limit);
    CollectsBatch(docs, rest, snaps(call), snaps(call + 1), log, cursor, Rest(limit, taken));
  }

  lemma BelowTheLimit(size: nat, taken: nat, limit: Option<int>)
    requires Goes(size, taken, limit) && size > 0
    ensures limit.Some? ==> taken + size < limit.value
  {
  }

  lemma {:induction false} PaginateCollects(
      portal: Portal, snaps: nat -> seq<Document>, log: seq<Document>,
      call: nat, cursor: int, taken: nat, limit: Option<int>, top: int)
    requires Honest(portal, snaps, log) && BoundedBy(portal, top)
    requires limit.Some? && taken > 0 ==> taken < limit.value
    ensures var r := Paginate(portal, call, cursor, taken, limit, top);
            r.Success? ==> Collects(r.value, snaps(call), log, cursor, Rest(limit, taken))
    decreases if cursor < top then top - cursor else 0
  {
    if GoesOn(portal, call, cursor, taken, limit) {
      var docs := portal(call, cursor).docs;
      BelowTheLimit(|docs|, taken, limit);
      PaginateCollects(portal, snaps, log, call + 1, BatchTop(docs), taken + |docs|, limit, top);
      var rest := Paginate(portal, call + 1, BatchTop(docs), taken + |docs|, limit, top);
      if rest.Success? {
        CollectsOn(portal, snaps, log, call, cursor, taken, limit, top, rest.value);
      }
    } else {
      CollectsEnd(portal, snaps, log, call, cursor, taken, limit, top);
    }
  }

  /**
   Against a log that does not change during the call, a call whose last reply is neither a
   rejection nor an exception returns exactly the documents above the cursor, cut at the limit.
   */
  lemma PaginationRefinesFilter(
      portal: Portal, log: seq<Document>, cursor: int, limit: Option<int>, top: int)
    requires Honest(portal, Unchanged(log), log) && BoundedBy(portal, top)
    ensures var r := Paginate(portal, 0, cursor, 0, limit, top);
            var last := FinalReply(portal, 0, cursor, 0, limit, top);
            last.Body? && last.status != Rejected ==>
              var rest := After(log, cursor);
              r.Success? &&
              r.value.docs ==
                (if limit.None? then rest else rest[..Min(|rest|, Max(1, limit.value))]) &&
              Highest(cursor, r.value.docs) ==
                if r.value.docs == [] then cursor else Nsu(r.value.docs[|r.value.docs| - 1])
  {
    PaginateCollects(portal, Unchanged(log), log, 0, cursor, 0, limit, top);
    EndsAsTheFinalReply(portal, 0, cursor, 0, limit, top);
    var r := Paginate(portal, 0, cursor, 0, limit, top);
    if r.Success? {
      Advance(log, cursor, r.value.docs);
      NewCursor(log, cursor, r.value.docs);
    }
  }

  // ---------------------------------------------------------------------------
  // Resumability
  // ---------------------------------------------------------------------------

  /** One call of a chain; later calls see at least the log it ended with. */
  datatype Call = Call(portal: Portal, snaps: nat -> seq<Document>, log: seq<Document>, limit: Option<int>)

  ghost predicate Served(c: Call) { Increasing(c.log) && Serves(c.portal, c.snaps, c.log) }

  ghost predicate Chained(calls: seq<Call>) {
    (forall i :: 0 <= i < |calls| ==> Served(calls[i])) &&
    forall i, j :: 0 <= i < j < |calls| ==> calls[i].log <= calls[j].snaps(0)
  }

  ghost function RunCall(c: Call, cursor: int): Result<Pages, string>
    requires Served(c)
  {
    ServedIsBounded(c.portal, c.snaps, c.log);
    Paginate(c.portal, 0, cursor, 0, c.limit, LogTop(c.log))
  }

  /** The documents of a call, none when the portal raised. */
  ghost function CallDocs(c: Call, cursor: int): seq<Document>
    requires Served(c)
  {
    var r := RunCall(c, cursor);
    if r.Failure? then [] else r.value.docs
  }

  /** The last call of the chain drained the log it saw when it started. */
  ghost predicate LastDrained(cursor: int, calls: seq<Call>)
    requires Chained(calls)
    decreases |calls|
  {
    if calls == [] then false
    else if |calls| == 1 then RunCall(calls[0], cursor).Success? && RunCall(calls[0], cursor).value.stop == Exhausted
    else LastDrained(Highest(cursor, CallDocs(calls[0], cursor)), calls[1..])
  }

  /** Everything a chain of calls returns, each call starting from the cursor the last one returned. */
  ghost function RunCalls(cursor: int, calls: seq<Call>): seq<Document>
    requires Chained(calls)
    decreases |calls|
  {
    if calls == [] then []
    else
      var docs := CallDocs(calls[0], cursor);
      docs + RunCalls(Highest(cursor, docs), calls[1..])
  }

  lemma {:induction false} HighestOfConcat(floor: int, a: seq<Document>, b: seq<Document>)
    ensures Highest(floor, a + b) == Highest(Highest(floor, a), b)
  {
    if b == [] {
      assert a + b == a;
    } else {
      HighestOfConcat(floor, a, b[..|b| - 1]);
      assert (a + b)[..|a + b| - 1] == a + b[..|b| - 1];
    }
  }

  lemma ChainedTail(calls: seq<Call>)
    requires Chained(calls) && calls != []
    ensures Chained(calls[1..]) && calls[0].log <= calls[|calls| - 1].log
  {
    LogsGrow(calls);
  }

  lemma PrefixStep(log: seq<Document>, cursor: int, docs: seq<Document>, rest: seq<Document>)
    requires Increasing(log) && docs <= After(log, cursor) && rest <= After(log, Highest(cursor, docs))
    ensures docs + rest <= After(log, cursor)
  {
    Advance(log, cursor, docs);
  }

  lemma {:induction false} ChainIsPrefix(cursor: int, calls: seq<Call>, log: seq<Document>)
    requires Chained(calls) && Ordered(log)
    requires calls != [] ==> calls[|calls| - 1].log <= log
    ensures RunCalls(cursor, calls) <= After(log, cursor)
    decreases |calls|
  {
    if calls != [] {
      var docs := CallDocs(calls[0], cursor);
      ChainedTail(calls);
      CallCollects(calls[0], log, cursor);
      ChainIsPrefix(Highest(cursor, docs), calls[1..], log);
      PrefixStep(log, cursor, docs, RunCalls(Highest(cursor, docs), calls[1..]));
    }
  }

  lemma {:induction false} ChainDrains(cursor: int, calls: seq<Call>, log: seq<Document>, last: Call)
    requires Chained(calls) && Ordered(log) && calls != [] && calls[|calls| - 1] == last && last.log <= log
    requires LastDrained(cursor, calls)
    ensures After(last.snaps(0), cursor) <= RunCalls(cursor, calls)
    decreases |calls|
  {
    ChainedTail(calls);
    CallCollects(calls[0], log, cursor);
    var docs := CallDocs(calls[0], cursor);
    if |calls| > 1 {
      ChainDrains(Highest(cursor, docs), calls[1..], log, last);
      DrainedStep(cursor, calls, docs);
    } else {
      LastCall(cursor, calls);
    }
  }

  lemma LastCall(cursor: int, calls: seq<Call>)
    requires Chained(calls) && |calls| == 1
    ensures RunCalls(cursor, calls) == CallDocs(calls[0], cursor)
  {
    var docs := CallDocs(calls[0], cursor);
    assert RunCalls(Highest(cursor, docs), calls[1..]) == [];
    assert docs + [] == docs;
  }

  /**
   Calls with any limits, some of them rejected or interrupted, against a growing log:
   what they return, concatenated, is a prefix of the filtered final log, so nothing is
   lost or repeated; and it is everything the last call could see once that call drained
   the log.
   */
  lemma ResumingLosesNothing(cursor: int, calls: seq<Call>, log: seq<Document>)
    requires Chained(calls) && Ordered(log)
    requires calls != [] ==> calls[|calls| - 1].log <= log
    ensures RunCalls(cursor, calls) <= After(log, cursor)
    ensures LastDrained(cursor, calls) ==>
              After(calls[|calls| - 1].snaps(0), cursor) <= RunCalls(cursor, calls)
  {
    ChainIsPrefix(cursor, calls, log);
    if LastDrained(cursor, calls) {
      ChainDrains(cursor, calls, log, calls[|calls| - 1]);
    }
  }

  /** What one call of a chain returns, against the log the chain ends with. */
  lemma CallCollects(c: Call, log: seq<Document>, cursor: int)
    requires Served(c) && Ordered(log) && c.log <= log
    ensures CallDocs(c, cursor) <= After(c.log, cursor) <= After(log, cursor)
    ensures RunCall(c, cursor).Success? && RunCall(c, cursor).value.stop.Exhausted? ==>
              After(c.snaps(0), cursor) <= CallDocs(c, cursor)
  {
    OrderedPrefix(c.log, log);
    ServedIsBounded(c.portal, c.snaps, c.log);
    PaginateCollects(c.portal, c.snaps, c.log, 0, cursor, 0, c.limit, LogTop(c.log));
    AfterMonotone(c.log, log, cursor);
  }

  lemma LogsGrow(calls: seq<Call>)
    requires Chained(calls) && calls != []
    ensures calls[0].log <= calls[|calls| - 1].log
  {
    var last := calls[|calls| - 1];
    assert Served(last);
    assert last.snaps(0) <= last.log;
  }

  lemma DrainedStep(cursor: int, calls: seq<Call>, docs: seq<Document>)
    requires Chained(calls) && |calls| > 1 && docs <= After(calls[0].log, cursor)
    requires var snap := calls[|calls| - 1].snaps(0);
             After(snap, Highest(cursor, docs)) <= RunCalls(Highest(cursor, docs), calls[1..])
    requires docs == CallDocs(calls[0], cursor)
    ensures After(calls[|calls| - 1].snaps(0), cursor) <= RunCalls(cursor, calls)
  {
    var last := calls[|calls| - 1];
    var snap := last.snaps(0);
    assert Served(last);
    AfterMonotone(calls[0].log, snap, cursor);
    Advance(snap, cursor, docs);
  }
}
