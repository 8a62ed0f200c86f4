/**
 Logs in which some NSUs are not integers (`fetcher.py`).

 The accumulation loop coerces every NSU while the step of the pagination looks only at
 integers, so the cursor the loop returns may run ahead of the one it pages with.  The
 module says exactly when a call goes on, what a chain of calls still cannot lose, and
 exactly when a call returns a document twice.
 */
module MixedNsus {
  import opened Wrappers
  import opened Fetcher

  // ---------------------------------------------------------------------------
  // When a call goes on
  // ---------------------------------------------------------------------------

  predicate HasIntegerAbove(docs: seq<Document>, cursor: int) {
    exists i :: 0 <= i < |docs| && docs[i].nsu.Integer? && docs[i].nsu.n > cursor
  }

  lemma {:induction false} StepIffInteger(docs: seq<Document>, cursor: int)
    requires cursor >= 0
    ensures BatchTop(docs) > cursor <==> HasIntegerAbove(docs, cursor)
  {
    if docs != [] {
      var n := |docs| - 1;
      StepIffInteger(docs[..n], cursor);
      if HasIntegerAbove(docs[..n], cursor) {
        var i :| 0 <= i < n && docs[..n][i].nsu.Integer? && docs[..n][i].nsu.n > cursor;
        assert docs[i].nsu.Integer? && docs[i].nsu.n > cursor;
      }
    }
  }

  /** A call that ends for lack of progress has collected something. */
  lemma NoProgressCollects(portal: Portal, call: nat, cursor: int, taken: nat, limit: Option<int>, top: int)
    requires BoundedBy(portal, top)
    ensures var r := Paginate(portal, call, cursor, taken, limit, top);
            r.Success? && r.value.stop.NoProgress? ==> r.value.docs != []
  {
  }

  /**
   A reply below the limit ends the call for lack of progress if and only if it holds no
   integer NSU above the cursor; otherwise the call goes on from its largest integer NSU.
   */
  lemma GoesOnIffInteger(portal: Portal, call: nat, cursor: int, taken: nat, limit: Option<int>, top: int)
    requires BoundedBy(portal, top) && cursor >= 0
    requires Carries(portal(call, cursor)) && Goes(|portal(call, cursor).docs|, taken, limit)
    ensures var docs := portal(call, cursor).docs;
            var r := Paginate(portal, call, cursor, taken, limit, top);
            r == Success(Pages(docs, NoProgress)) <==> !HasIntegerAbove(docs, cursor)
    ensures var docs := portal(call, cursor).docs;
            HasIntegerAbove(docs, cursor) ==>
              cursor < BatchTop(docs) &&
              Paginate(portal, call, cursor, taken, limit, top) ==
                Prepend(docs, Paginate(portal, call + 1, BatchTop(docs), taken + |docs|, limit, top))
  {
    var docs := portal(call, cursor).docs;
    StepIffInteger(docs, cursor);
    assert docs[..|docs|] == docs;
    if HasIntegerAbove(docs, cursor) {
      NoProgressCollects(portal, call + 1, BatchTop(docs), taken + |docs|, limit, top);
    }
  }

  /**
   The accumulation loop coerces NSUs, the step of the pagination does not.  A batch whose
   NSUs are all readable text moves the returned cursor but ends the pagination, whatever
   the portal still has to serve.
   */
  lemma TextNsusStopPagination(
      portal: Portal, call: nat, cursor: int, taken: nat, limit: Option<int>, top: int)
    requires BoundedBy(portal, top) && cursor >= 0
    requires portal(call, cursor).Body? && portal(call, cursor).status == OtherStatus
    requires var docs := portal(call, cursor).docs;
             docs != [] && forall d :: d in docs ==> !d.nsu.Integer?
    ensures var docs := portal(call, cursor).docs;
            var r := Paginate(portal, call, cursor, taken, limit, top);
            r.Success? && r.value.docs <= docs && r.value.stop in {LimitReached, NoProgress}
  {
    BatchTopBound(portal(call, cursor).docs, 0);
  }

  // ---------------------------------------------------------------------------
  // Nothing is lost
  // ---------------------------------------------------------------------------

  /** A document without a readable NSU counts as 0, so it is never above a stored cursor. */
  lemma {:induction false} UnreadableIsNeverNew(log: seq<Document>, cursor: int, d: Document)
    requires cursor >= 0 && (d.nsu.Missing? || d.nsu == Other(None))
    ensures d !in After(log, cursor)
  {
    if log != [] {
      UnreadableIsNeverNew(log[1..], cursor, d);
    }
  }

  /** Every document between two cursors was collected, and none from before the first. */
  ghost predicate Covers(docs: seq<Document>, log: seq<Document>, from: int) {
    (forall i :: 0 <= i < |log| && from < Nsu(log[i]) <= Highest(from, docs) ==> log[i] in docs) &&
    (forall d :: d in docs ==> d in log && Nsu(d) > from)
  }

  lemma SegmentCovers(log: seq<Document>, from: int, docs: seq<Document>)
    requires Increasing(log) && docs <= After(log, from)
    ensures Covers(docs, log, from)
  {
    var first := CutAfter(log, from, docs);
    AfterIsSuffix(log, from);
    forall i | 0 <= i < |log| && from < Nsu(log[i]) <= Highest(from, docs) ensures log[i] in docs {
      InSegment(log, from, docs, first, i);
      assert log[i] == docs[i - first];
    }
    forall d | d in docs ensures d in log && Nsu(d) > from {
      var k :| 0 <= k < |docs| && docs[k] == d;
      assert d == log[first + k];
    }
  }

  lemma {:induction false} HighestAboveFloor(floor: int, lower: int, docs: seq<Document>)
    requires lower <= floor
    ensures Highest(floor, docs) == Max(floor, Highest(lower, docs))
  {
    if docs != [] {
      HighestAboveFloor(floor, lower, docs[..|docs| - 1]);
    }
  }

  /** Going on from a step that is not past what was collected leaves no gap. */
  lemma JoinCovers(log: seq<Document>, from: int, docs: seq<Document>, step: int, rest: seq<Document>)
    requires Covers(docs, log, from) && Covers(rest, log, step) && from <= step <= Highest(from, docs)
    ensures Covers(docs + rest, log, from)
  {
    HighestOfConcat(from, docs, rest);
    HighestAboveFloor(Highest(from, docs), step, rest);
    forall i | 0 <= i < |log| && from < Nsu(log[i]) <= Highest(from, docs + rest) ensures log[i] in docs + rest {
      if Nsu(log[i]) > Highest(from, docs) {
        assert log[i] in rest;
      } else {
        assert log[i] in docs;
      }
    }
  }

  /** What the log gains later lies past everything collected. */
  lemma CoversGrows(log: seq<Document>, log': seq<Document>, from: int, docs: seq<Document>)
    requires Increasing(log') && log <= log' && Covers(docs, log, from)
    ensures Covers(docs, log', from)
  {
    HighestIsMaximum(from, docs);
    forall i | 0 <= i < |log'| && from < Nsu(log'[i]) <= Highest(from, docs) ensures log'[i] in docs {
      var k :| 0 <= k < |docs| && Nsu(docs[k]) == Highest(from, docs);
      assert docs[k] in log;
      var h :| 0 <= h < |log| && log[h] == docs[k];
      assert log'[h] == log[h];
      assert log'[i] == log[i];
    }
  }

  /** One reply that carries documents. */
  lemma ServedBatch(portal: Portal, snaps: nat -> seq<Document>, log: seq<Document>, call: nat, cursor: int)
    requires Increasing(log) && Serves(portal, snaps, log) && Carries(portal(call, cursor))
    ensures var docs := portal(call, cursor).docs;
            docs <= After(snaps(call), cursor) <= After(log, cursor) && BatchTop(docs) <= Highest(cursor, docs)
  {
    var docs := portal(call, cursor).docs;
    assert TruthfulAt(portal, snaps, call, cursor);
    AfterMonotone(snaps(call), log, cursor);
    NewCursor(log, cursor, docs);
    BatchTopBelowHighest(cursor, docs);
  }

  /** What a call collects at its last reply. */
  lemma LastReply(portal: Portal, call: nat, cursor: int, taken: nat, limit: Option<int>, top: int)
    requires BoundedBy(portal, top)
    ensures var reply := portal(call, cursor);
            var r := Paginate(portal, call, cursor, taken, limit, top);
            r.Success? && !GoesOn(portal, call, cursor, taken, limit) ==>
              r.value.docs == if Carries(reply) then reply.docs[..Kept(|reply.docs|, taken, limit)] else []
  {
  }

  /** A call that goes on collects its reply and then what the rest of it collects. */
  lemma PaginateOn(portal: Portal, call: nat, cursor: int, taken: nat, limit: Option<int>, top: int)
    requires BoundedBy(portal, top) && GoesOn(portal, call, cursor, taken, limit)
    ensures var docs := portal(call, cursor).docs;
            var rest := Paginate(portal, call + 1, BatchTop(docs), taken + |docs|, limit, top);
            Paginate(portal, call, cursor, taken, limit, top) == Prepend(docs, rest)
  {
  }

  lemma CallCoversLast(
      portal: Portal, snaps: nat -> seq<Document>, log: seq<Document>,
      call: nat, cursor: int, taken: nat, limit: Option<int>, top: int)
    requires Increasing(log) && Serves(portal, snaps, log) && BoundedBy(portal, top)
    requires !GoesOn(portal, call, cursor, taken, limit)
    ensures var r := Paginate(portal, call, cursor, taken, limit, top);
            r.Success? ==> Covers(r.value.docs, log, cursor)
  {
    LastReply(portal, call, cursor, taken, limit, top);
    if Carries(portal(call, cursor)) {
      var docs := portal(call, cursor).docs;
      ServedBatch(portal, snaps, log, call, cursor);
      SegmentCovers(log, cursor, docs[..Kept(|docs|, taken, limit)]);
    }
  }

  lemma CallCoversOn(
      portal: Portal, snaps: nat -> seq<Document>, log: seq<Document>, call: nat, cursor: int, rest: seq<Document>)
    requires Increasing(log) && Serves(portal, snaps, log) && Carries(portal(call, cursor))
    requires cursor < BatchTop(portal(call, cursor).docs) && Covers(rest, log, BatchTop(portal(call, cursor).docs))
    ensures Covers(portal(call, cursor).docs + rest, log, cursor)
  {
    var docs := portal(call, cursor).docs;
    ServedBatch(portal, snaps, log, call, cursor);
    SegmentCovers(log, cursor, docs);
    JoinCovers(log, cursor, docs, BatchTop(docs), rest);
  }

  /**
   Against a log with some text NSUs: a call, however it ends, has collected everything
   between the cursor it started from and the one it returns.
   */
  lemma {:induction false} CallCovers(
      portal: Portal, snaps: nat -> seq<Document>, log: seq<Document>,
      call: nat, cursor: int, taken: nat, limit: Option<int>, top: int)
    requires Increasing(log) && Serves(portal, snaps, log) && BoundedBy(portal, top)
    ensures var r := Paginate(portal, call, cursor, taken, limit, top);
            r.Success? ==> Covers(r.value.docs, log, cursor)
    decreases if cursor < top then top - cursor else 0
  {
    if GoesOn(portal, call, cursor, taken, limit) {
      var docs := portal(call, cursor).docs;
      var rest := Paginate(portal, call + 1, BatchTop(docs), taken + |docs|, limit, top);
      CallCovers(portal, snaps, log, call + 1, BatchTop(docs), taken + |docs|, limit, top);
      PaginateOn(portal, call, cursor, taken, limit, top);
      if rest.Success? {
        CallCoversOn(portal, snaps, log, call, cursor, rest.value.docs);
      }
    } else {
      CallCoversLast(portal, snaps, log, call, cursor, taken, limit, top);
    }
  }

  /**
   Chained calls with any limits, rejections and exceptions over a growing log with some
   text NSUs have collected everything between the first cursor and the last one returned.
   */
  lemma {:induction false} ChainCovers(cursor: int, calls: seq<Call>, log: seq<Document>)
    requires Chained(calls) && Increasing(log)
    requires calls != [] ==> calls[|calls| - 1].log <= log
    ensures Covers(RunCalls(cursor, calls), log, cursor)
    decreases |calls|
  {
    if calls != [] {
      var c := calls[0];
      var docs := CallDocs(c, cursor);
      ChainedTail(calls);
      HighestIsMaximum(cursor, docs);
      OneCallCovers(c, log, cursor);
      ChainCovers(Highest(cursor, docs), calls[1..], log);
      JoinCovers(log, cursor, docs, Highest(cursor, docs), RunCalls(Highest(cursor, docs), calls[1..]));
    }
  }

  lemma OneCallCovers(c: Call, log: seq<Document>, cursor: int)
    requires Served(c) && Increasing(log) && c.log <= log
    ensures Covers(CallDocs(c, cursor), log, cursor)
  {
    ServedIsBounded(c.portal, c.snaps, c.log);
    CallCovers(c.portal, c.snaps, c.log, 0, cursor, 0, c.limit, LogTop(c.log));
    CoversGrows(c.log, log, cursor, CallDocs(c, cursor));
  }

  // ---------------------------------------------------------------------------
  // What is repeated
  // ---------------------------------------------------------------------------

  predicate HasRepeat(docs: seq<Document>) {
    exists i, j :: 0 <= i < j < |docs| && docs[i] == docs[j]
  }

  /**
   At some request the call goes on from a reply whose largest NSU is past its largest
   integer NSU, and the next reply carries documents.
   */
  predicate Lags(portal: Portal, call: nat, cursor: int, taken: nat, limit: Option<int>, ghost top: int)
    requires BoundedBy(portal, top)
    decreases if cursor < top then top - cursor else 0
  {
    GoesOn(portal, call, cursor, taken, limit) &&
    var docs := portal(call, cursor).docs;
    LagsAt(portal, call, cursor) || Lags(portal, call + 1, BatchTop(docs), taken + |docs|, limit, top)
  }

  predicate LagsAt(portal: Portal, call: nat, cursor: int)
    requires Carries(portal(call, cursor))
  {
    var docs := portal(call, cursor).docs;
    BatchTop(docs) < Highest(cursor, docs) && Carries(portal(call + 1, BatchTop(docs)))
  }

  /** The first document of a carrying reply is the first of what is collected from there. */
  lemma PaginateHead(portal: Portal, call: nat, cursor: int, taken: nat, limit: Option<int>, top: int)
    requires BoundedBy(portal, top) && Carries(portal(call, cursor))
    ensures var r := Paginate(portal, call, cursor, taken, limit, top);
            r.Success? ==> r.value.docs != [] && r.value.docs[0] == portal(call, cursor).docs[0]
  {
  }

  /** The reply after a lagging one begins with a document the lagging one had already. */
  lemma LagRepeats(portal: Portal, snaps: nat -> seq<Document>, log: seq<Document>, call: nat, cursor: int)
    requires Increasing(log) && Serves(portal, snaps, log) && Carries(portal(call, cursor))
    requires var docs := portal(call, cursor).docs;
             cursor < BatchTop(docs) < Highest(cursor, docs) && Carries(portal(call + 1, BatchTop(docs)))
    ensures var docs := portal(call, cursor).docs;
            portal(call + 1, BatchTop(docs)).docs[0] in docs
  {
    var docs := portal(call, cursor).docs;
    var step := BatchTop(docs);
    var next := portal(call + 1, step).docs;
    var later := snaps(call + 1);
    ServedBatch(portal, snaps, log, call, cursor);
    ServedBatch(portal, snaps, log, call + 1, step);
    IncreasingPrefix(later, log);
    AfterMonotone(snaps(call), later, cursor);
    SegmentCovers(later, cursor, docs);
    HighestIsMaximum(cursor, docs);
    var k :| 0 <= k < |docs| && Nsu(docs[k]) == Highest(cursor, docs);
    assert docs[k] in docs;
    FirstAfter(later, step, next, docs[k]);
  }

  lemma IncreasingPrefix(small: seq<Document>, log: seq<Document>)
    requires Increasing(log) && small <= log
    ensures Increasing(small)
  {
  }

  /** The first document served after a cursor is the lowest above it. */
  lemma FirstAfter(log: seq<Document>, cursor: int, docs: seq<Document>, d: Document)
    requires Increasing(log) && docs <= After(log, cursor) && docs != [] && d in log && Nsu(d) > cursor
    ensures docs[0] in log && cursor < Nsu(docs[0]) <= Nsu(d)
  {
    var first := CutAfter(log, cursor, docs);
    AfterIsSuffix(log, cursor);
    var i :| 0 <= i < |log| && log[i] == d;
    assert docs[0] == log[first] && first <= i;
  }

  lemma RepeatLater(docs: seq<Document>, rest: seq<Document>)
    requires HasRepeat(rest)
    ensures HasRepeat(docs + rest)
  {
    var i, j :| 0 <= i < j < |rest| && rest[i] == rest[j];
    assert (docs + rest)[|docs| + i] == (docs + rest)[|docs| + j];
  }

  lemma RepeatAcross(docs: seq<Document>, rest: seq<Document>)
    requires rest != [] && rest[0] in docs
    ensures HasRepeat(docs + rest)
  {
    var i :| 0 <= i < |docs| && docs[i] == rest[0];
    assert (docs + rest)[i] == (docs + rest)[|docs|];
  }

  lemma IncreasingHasNoRepeat(docs: seq<Document>)
    requires Increasing(docs)
    ensures !HasRepeat(docs)
  {
  }

  /** Documents above a cursor, in increasing order. */
  ghost predicate Climbs(docs: seq<Document>, from: int) {
    Increasing(docs) && forall i :: 0 <= i < |docs| ==> Nsu(docs[i]) > from
  }

  lemma ClimbsOn(docs: seq<Document>, from: int, step: int, rest: seq<Document>)
    requires Climbs(docs, from) && Climbs(rest, step) && from <= step
    requires forall i :: 0 <= i < |docs| ==> Nsu(docs[i]) <= step
    ensures Climbs(docs + rest, from)
  {
  }

  lemma SegmentClimbs(log: seq<Document>, from: int, docs: seq<Document>)
    requires Increasing(log) && docs <= After(log, from)
    ensures Climbs(docs, from)
  {
    SegmentCovers(log, from, docs);
    NewCursor(log, from, docs);
  }

  /** A reply that goes on without lagging: what follows it climbs on. */
  lemma ClimbsAt(
      portal: Portal, snaps: nat -> seq<Document>, log: seq<Document>, call: nat, cursor: int, rest: seq<Document>)
    requires Increasing(log) && Serves(portal, snaps, log) && Carries(portal(call, cursor))
    requires cursor < BatchTop(portal(call, cursor).docs) && !LagsAt(portal, call, cursor)
    requires Climbs(rest, BatchTop(portal(call, cursor).docs))
    requires rest == [] || Carries(portal(call + 1, BatchTop(portal(call, cursor).docs)))
    ensures Climbs(portal(call, cursor).docs + rest, cursor)
  {
    var docs := portal(call, cursor).docs;
    ServedBatch(portal, snaps, log, call, cursor);
    SegmentClimbs(log, cursor, docs);
    HighestIsMaximum(cursor, docs);
    if rest == [] {
      assert docs + rest == docs;
    } else {
      ClimbsOn(docs, cursor, BatchTop(docs), rest);
    }
  }

  /** Without a lagging reply a call collects in increasing order. */
  lemma {:induction false} NoLagClimbs(
      portal: Portal, snaps: nat -> seq<Document>, log: seq<Document>,
      call: nat, cursor: int, taken: nat, limit: Option<int>, top: int)
    requires Increasing(log) && Serves(portal, snaps, log) && BoundedBy(portal, top)
    requires !Lags(portal, call, cursor, taken, limit, top)
    ensures var r := Paginate(portal, call, cursor, taken, limit, top);
            r.Success? ==> Climbs(r.value.docs, cursor)
    decreases if cursor < top then top - cursor else 0
  {
    if GoesOn(portal, call, cursor, taken, limit) {
      var docs := portal(call, cursor).docs;
      var rest := Paginate(portal, call + 1, BatchTop(docs), taken + |docs|, limit, top);
      NoLagClimbs(portal, snaps, log, call + 1, BatchTop(docs), taken + |docs|, limit, top);
      PaginateOn(portal, call, cursor, taken, limit, top);
      if rest.Success? {
        LastReply(portal, call + 1, BatchTop(docs), taken + |docs|, limit, top);
        ClimbsAt(portal, snaps, log, call, cursor, rest.value.docs);
      }
    } else {
      LastReply(portal, call, cursor, taken, limit, top);
      if Carries(portal(call, cursor)) {
        ServedBatch(portal, snaps, log, call, cursor);
        SegmentClimbs(log, cursor, portal(call, cursor).docs[..Kept(|portal(call, cursor).docs|, taken, limit)]);
      }
    }
  }

  /** A lagging reply makes the call collect some document twice. */
  lemma {:induction false} LagCollectsTwice(
      portal: Portal, snaps: nat -> seq<Document>, log: seq<Document>,
      call: nat, cursor: int, taken: nat, limit: Option<int>, top: int)
    requires Increasing(log) && Serves(portal, snaps, log) && BoundedBy(portal, top)
    requires Lags(portal, call, cursor, taken, limit, top)
    ensures var r := Paginate(portal, call, cursor, taken, limit, top);
            r.Success? ==> HasRepeat(r.value.docs)
    decreases if cursor < top then top - cursor else 0
  {
    var docs := portal(call, cursor).docs;
    var rest := Paginate(portal, call + 1, BatchTop(docs), taken + |docs|, limit, top);
    if rest.Success? {
      if LagsAt(portal, call, cursor) {
        LagRepeats(portal, snaps, log, call, cursor);
        PaginateHead(portal, call + 1, BatchTop(docs), taken + |docs|, limit, top);
        RepeatAcross(docs, rest.value.docs);
      } else {
        LagCollectsTwice(portal, snaps, log, call + 1, BatchTop(docs), taken + |docs|, limit, top);
        RepeatLater(docs, rest.value.docs);
      }
    }
  }

  /**
   A call that returns has collected a document twice if and only if it went on, to a reply
   that carries documents, from one whose largest NSU is past its largest integer NSU.
   */
  lemma RepeatsIffLags(
      portal: Portal, snaps: nat -> seq<Document>, log: seq<Document>, cursor: int, limit: Option<int>, top: int)
    requires Increasing(log) && Serves(portal, snaps, log) && BoundedBy(portal, top)
    requires Paginate(portal, 0, cursor, 0, limit, top).Success?
    ensures HasRepeat(Paginate(portal, 0, cursor, 0, limit, top).value.docs) <==> Lags(portal, 0, cursor, 0, limit, top)
  {
    if Lags(portal, 0, cursor, 0, limit, top) {
      LagCollectsTwice(portal, snaps, log, 0, cursor, 0, limit, top);
    } else {
      NoLagClimbs(portal, snaps, log, 0, cursor, 0, limit, top);
      IncreasingHasNoRepeat(Paginate(portal, 0, cursor, 0, limit, top).value.docs);
    }
  }

  /** Some call of the chain that returned went on from a lagging reply. */
  ghost predicate ChainLags(cursor: int, calls: seq<Call>)
    requires Chained(calls)
    decreases |calls|
  {
    calls != [] && (CallLags(calls[0], cursor) || ChainLags(Highest(cursor, CallDocs(calls[0], cursor)), calls[1..]))
  }

  ghost predicate CallLags(c: Call, cursor: int)
    requires Served(c)
  {
    ServedIsBounded(c.portal, c.snaps, c.log);
    RunCall(c, cursor).Success? && Lags(c.portal, 0, cursor, 0, c.limit, LogTop(c.log))
  }

  lemma CallRepeatsIffLags(c: Call, cursor: int)
    requires Served(c)
    ensures HasRepeat(CallDocs(c, cursor)) <==> CallLags(c, cursor)
  {
    ServedIsBounded(c.portal, c.snaps, c.log);
    if RunCall(c, cursor).Success? {
      RepeatsIffLags(c.portal, c.snaps, c.log, cursor, c.limit, LogTop(c.log));
    }
  }

  /** Documents on two sides of a cursor do not repeat each other. */
  lemma RepeatsOnOneSide(docs: seq<Document>, rest: seq<Document>, cut: int)
    requires (forall d :: d in docs ==> Nsu(d) <= cut) && (forall d :: d in rest ==> Nsu(d) > cut)
    ensures HasRepeat(docs + rest) <==> HasRepeat(docs) || HasRepeat(rest)
  {
    var all := docs + rest;
    if HasRepeat(docs) {
      var i, j :| 0 <= i < j < |docs| && docs[i] == docs[j];
      assert all[i] == all[j];
    }
    if HasRepeat(rest) {
      RepeatLater(docs, rest);
    }
    if HasRepeat(all) {
      var i, j :| 0 <= i < j < |all| && all[i] == all[j];
      assert j < |docs| ==> docs[i] == docs[j];
      assert |docs| <= j ==> all[j] in rest;
      assert |docs| <= i ==> rest[i - |docs|] == rest[j - |docs|];
    }
  }

  /** A chain of calls returns a document twice if and only if one of its calls lags. */
  lemma {:induction false} ChainRepeatsIffLags(cursor: int, calls: seq<Call>, log: seq<Document>)
    requires Chained(calls) && Increasing(log)
    requires calls != [] ==> calls[|calls| - 1].log <= log
    ensures HasRepeat(RunCalls(cursor, calls)) <==> ChainLags(cursor, calls)
    decreases |calls|
  {
    if calls != [] {
      var docs := CallDocs(calls[0], cursor);
      var next := Highest(cursor, docs);
      ChainedTail(calls);
      CallRepeatsIffLags(calls[0], cursor);
      ChainRepeatsIffLags(next, calls[1..], log);
      ChainCovers(next, calls[1..], log);
      HighestIsMaximum(cursor, docs);
      RepeatsOnOneSide(docs, RunCalls(next, calls[1..]), next);
    }
  }

  /** The portal that serves everything it has after a cursor. */
  function Everything(log: seq<Document>): Portal {
    (call, cursor) => if After(log, cursor) == [] then Body(NothingFound, []) else Body(OtherStatus, After(log, cursor))
  }

  lemma EverythingServes(log: seq<Document>)
    ensures Serves(Everything(log), Unchanged(log), log)
  {
    var portal, snaps := Everything(log), Unchanged(log);
    forall k: nat, c: int ensures TruthfulAt(portal, snaps, k, c) {
    }
  }

  lemma AfterTwo(a: Document, b: Document, cursor: int)
    ensures After([a, b], cursor) ==
            (if Nsu(a) > cursor then [a] else []) + (if Nsu(b) > cursor then [b] else [])
  {
    AfterConcat([a], [b], cursor);
    assert [a] + [b] == [a, b] && [a][1..] == [] && [b][1..] == [];
  }

  /** After an integer NSU of 5 and a text one of 7 this truthful portal serves the second document again. */
  lemma EverythingAfterFive(a: Document, b: Document)
    requires a.nsu == Integer(5) && b.nsu == Other(Some(7))
    ensures Increasing([a, b]) && Serves(Everything([a, b]), Unchanged([a, b]), [a, b])
    ensures Everything([a, b])(0, 0) == Body(OtherStatus, [a, b])
    ensures Everything([a, b])(1, 5) == Body(OtherStatus, [b])
  {
    EverythingServes([a, b]);
    TwoIncrease(a, b);
    AfterFive(a, b);
    EverythingAt([a, b], 0, 0, [a, b]);
    EverythingAt([a, b], 1, 5, [b]);
  }

  lemma TwoIncrease(a: Document, b: Document)
    requires 0 < Nsu(a) < Nsu(b)
    ensures Increasing([a, b])
  {
  }

  lemma EverythingAt(log: seq<Document>, k: nat, c: int, rest: seq<Document>)
    requires After(log, c) == rest && rest != []
    ensures Everything(log)(k, c) == Body(OtherStatus, rest)
  {
  }

  lemma AfterFive(a: Document, b: Document)
    requires a.nsu == Integer(5) && b.nsu == Other(Some(7))
    ensures After([a, b], 0) == [a, b] && After([a, b], 5) == [b]
  {
    AfterTwo(a, b, 0);
    AfterTwo(a, b, 5);
    assert [a] + [b] == [a, b] && [] + [b] == [b];
  }

  /** From such replies the call returns the second document twice. */
  lemma MixedBatchRepeats(portal: Portal, a: Document, b: Document, top: int)
    requires a.nsu == Integer(5) && b.nsu == Other(Some(7)) && BoundedBy(portal, top)
    requires portal(0, 0) == Body(OtherStatus, [a, b]) && portal(1, 5) == Body(OtherStatus, [b])
    ensures Paginate(portal, 0, 0, 0, None, top) == Success(Pages([a, b] + [b], NoProgress))
  {
    StepOfTwo(a, b);
    assert [b][..1] == [b];
    assert Paginate(portal, 1, 5, 2, None, top) == Ending(portal(1, 5), 2, None) == Success(Pages([b], NoProgress));
    assert Paginate(portal, 0, 0, 0, None, top) == Prepend([a, b], Paginate(portal, 1, 5, 2, None, top));
  }

  lemma StepOfTwo(a: Document, b: Document)
    requires a.nsu == Integer(5) && b.nsu == Other(Some(7))
    ensures BatchTop([a, b]) == 5 && BatchTop([b]) == 0
  {
    var none: seq<Document> := [];
    assert [a, b][..1] == [a] && [a][..0] == none && [b][..0] == none;
    assert BatchTop([a]) == 5;
  }
}
