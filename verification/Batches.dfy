/**
 The batches of `processar_todos_clientes` (`batch_processor.py`): one process handles one
 slice of the client list, and all of them together do what one process would do alone.
 */
module Batches {
  import opened Wrappers

  // ---------------------------------------------------------------------------
  // Slicing
  // ---------------------------------------------------------------------------

  /** A slice bound as Python reads it: negative bounds count from the end. */
  function Bound(n: nat, i: int): nat {
    if i < 0 then (if n + i < 0 then 0 else n + i) else if i < n then i else n
  }

  function Slice<T>(s: seq<T>, i: int, j: int): seq<T> {
    var lo, hi := Bound(|s|, i), Bound(|s|, j);
    if lo <= hi then s[lo..hi] else []
  }

  /** `math.ceil(n / total)`. */
  function BatchSize(n: nat, total: nat): nat
    requires total > 0
  {
    (n + total - 1) / total
  }

  /** The clients of one process; an absent or zero argument selects them all. */
  function Batch<T>(clients: seq<T>, batch: Option<nat>, total: Option<nat>): seq<T> {
    if batch.Some? && batch.value != 0 && total.Some? && total.value != 0 then
      var size := BatchSize(|clients|, total.value);
      var end := batch.value * size;
      Slice(clients, (batch.value - 1) * size, if end < |clients| then end else |clients|)
    else clients
  }

  /** Without a batch number or a number of batches, or with a zero, there is one batch of everything. */
  lemma NoBatchIsEverything<T>(clients: seq<T>, batch: Option<nat>, total: Option<nat>)
    requires batch.None? || batch == Some(0) || total.None? || total == Some(0)
    ensures Batch(clients, batch, total) == clients
  {
  }

  /** A batch number past the last one selects nobody. */
  lemma BatchPastTheLast<T>(clients: seq<T>, b: nat, total: nat)
    requires 0 < total < b
    ensures Batch(clients, Some(b), Some(total)) == []
  {
    BatchesReachTheEnd(|clients|, total);
    Monotone(total, b - 1, BatchSize(|clients|, total));
  }

  function FirstBatches<T>(clients: seq<T>, total: nat, upTo: nat): seq<T>
  {
    if upTo == 0 then [] else FirstBatches(clients, total, upTo - 1) + Batch(clients, Some(upTo), Some(total))
  }

  /** As many batches of that size as there are processes hold every client. */
  lemma BatchesReachTheEnd(n: nat, total: nat)
    requires total > 0
    ensures n <= total * BatchSize(n, total) < n + total
  {
  }

  /** Where a batch lies in the list. */
  lemma BatchIsASegment<T>(clients: seq<T>, b: nat, total: nat)
    requires 1 <= b <= total
    ensures var n, size := |clients|, BatchSize(|clients|, total);
            0 <= (b - 1) * size <= b * size &&
            Batch(clients, Some(b), Some(total)) == clients[Bound(n, (b - 1) * size)..Bound(n, b * size)]
  {
    var size := BatchSize(|clients|, total);
    assert b * size == (b - 1) * size + size;
    Multiple(b - 1, size);
  }

  lemma Multiple(k: nat, size: nat)
    ensures k * size >= 0
  {
  }

  lemma {:induction false} FirstBatchesArePrefix<T>(clients: seq<T>, total: nat, upTo: nat)
    requires upTo <= total && total > 0
    ensures upTo * BatchSize(|clients|, total) >= 0
    ensures FirstBatches(clients, total, upTo) == clients[..Bound(|clients|, upTo * BatchSize(|clients|, total))]
  {
    if upTo > 0 {
      FirstBatchesArePrefix(clients, total, upTo - 1);
      BatchIsASegment(clients, upTo, total);
    }
  }

  /** Putting the batches of all processes back together gives the list of clients. */
  lemma BatchesPartition<T>(clients: seq<T>, total: nat)
    requires total > 0
    ensures FirstBatches(clients, total, total) == clients
  {
    FirstBatchesArePrefix(clients, total, total);
    BatchesReachTheEnd(|clients|, total);
  }

  /** The process that handles the client at a position, counted from 1. */
  function Owner(n: nat, total: nat, position: nat): (b: nat)
    requires total > 0 && position < n
    ensures 1 <= b
  {
    position / BatchSize(n, total) + 1
  }

  /** The positions of a batch. */
  predicate InBatch(n: nat, total: nat, b: nat, position: nat)
    requires total > 0 && b > 0
  {
    Bound(n, (b - 1) * BatchSize(n, total)) <= position < Bound(n, b * BatchSize(n, total))
  }

  /** The batch of a position starts at or before it and ends after it. */
  lemma OwnerHolds(n: nat, total: nat, position: nat)
    requires total > 0 && position < n
    ensures var size, owner := BatchSize(n, total), Owner(n, total, position);
            (owner - 1) * size <= position < owner * size
  {
    var size, owner := BatchSize(n, total), Owner(n, total, position);
    assert position == size * (owner - 1) + position % size;
    assert owner * size == (owner - 1) * size + size;
  }

  lemma EarlierBatch(n: nat, total: nat, position: nat, b: nat)
    requires total > 0 && position < n && 1 <= b < Owner(n, total, position)
    ensures b * BatchSize(n, total) <= position
  {
    OwnerHolds(n, total, position);
    Monotone(b, Owner(n, total, position) - 1, BatchSize(n, total));
  }

  lemma LaterBatch(n: nat, total: nat, position: nat, b: nat)
    requires total > 0 && position < n && Owner(n, total, position) < b
    ensures position < (b - 1) * BatchSize(n, total)
  {
    OwnerHolds(n, total, position);
    Monotone(Owner(n, total, position), b - 1, BatchSize(n, total));
  }

  /** Every client falls in exactly one batch, and that batch belongs to a process. */
  lemma ExactlyOneOwner(n: nat, total: nat, position: nat)
    requires total > 0 && position < n
    ensures Owner(n, total, position) <= total
    ensures forall b :: 1 <= b <= total ==> (InBatch(n, total, b, position) <==> b == Owner(n, total, position))
  {
    OwnerExists(n, total, position);
    forall b | 1 <= b <= total ensures InBatch(n, total, b, position) <==> b == Owner(n, total, position) {
      Multiple(b, BatchSize(n, total));
      Multiple(b - 1, BatchSize(n, total));
      if b < Owner(n, total, position) {
        EarlierBatch(n, total, position, b);
      } else if b > Owner(n, total, position) {
        LaterBatch(n, total, position, b);
      } else {
        OwnerHolds(n, total, position);
      }
    }
  }

  lemma OwnerExists(n: nat, total: nat, position: nat)
    requires total > 0 && position < n
    ensures Owner(n, total, position) <= total
  {
    if Owner(n, total, position) > total {
      OwnerHolds(n, total, position);
      BatchesReachTheEnd(n, total);
      Monotone(total, Owner(n, total, position) - 1, BatchSize(n, total));
    }
  }

  lemma Monotone(a: nat, b: nat, size: nat)
    requires a <= b
    ensures a * size <= b * size
  {
  }

  /** The batches whose process has nothing to do are exactly those that start past the end. */
  lemma EmptyBatches<T>(clients: seq<T>, b: nat, total: nat)
    requires 1 <= b <= total
    ensures Batch(clients, Some(b), Some(total)) == [] <==> |clients| <= (b - 1) * BatchSize(|clients|, total)
  {
    BatchIsASegment(clients, b, total);
    SizeIsPositive(|clients|, total);
    var size := BatchSize(|clients|, total);
    Multiple(b - 1, size);
    var start := (b - 1) * size;
    assert b * size == start + size;
  }

  lemma SizeIsPositive(n: nat, total: nat)
    requires total > 0
    ensures n > 0 ==> BatchSize(n, total) > 0
  {
  }

  // ---------------------------------------------------------------------------
  // Processing
  // ---------------------------------------------------------------------------

  /** Processing clients in order: the NSU state after them, and their results. */
  function Process<S, C, R>(step: (S, C) -> (S, R), state: S, clients: seq<C>): (S, seq<R>)
  {
    if clients == [] then (state, [])
    else
      var (before, results) := Process(step, state, clients[..|clients| - 1]);
      var (after, result) := step(before, clients[|clients| - 1]);
      (after, results + [result])
  }

  /** The loop of `processar_todos_clientes` over the clients of one process. */
  method ProcessarTodosClientes<S, C, R>(
      step: (S, C) -> (S, R), state: S, clients: seq<C>, batch: Option<nat>, total: Option<nat>)
    returns (estado: S, resultados: seq<R>)
    ensures (estado, resultados) == Process(step, state, Batch(clients, batch, total))
    ensures |resultados| == |Batch(clients, batch, total)|
    ensures batch.None? || batch == Some(0) || total.None? || total == Some(0) ==>
              (estado, resultados) == Process(step, state, clients) && |resultados| == |clients|
  {
    var mine := clients;
    if batch.Some? && batch.value != 0 && total.Some? && total.value != 0 {
      var size := (|clients| + total.value - 1) / total.value;
      var inicio := (batch.value - 1) * size;
      var fim := if batch.value * size < |clients| then batch.value * size else |clients|;
      mine := Slice(clients, inicio, fim);
    }
    estado, resultados := state, [];
    var i := 0;
    while i < |mine|
      invariant 0 <= i <= |mine|
      invariant (estado, resultados) == Process(step, state, mine[..i])
      invariant |resultados| == i
    {
      assert mine[..i + 1][..i] == mine[..i];
      var (after, resultado) := step(estado, mine[i]);
      estado, resultados := after, resultados + [resultado];
      i := i + 1;
    }
    assert mine[..i] == mine;
  }

  /** Client by client: each result is that of the step on the state the earlier clients left. */
  lemma {:induction false} ResultsInOrder<S, C, R>(step: (S, C) -> (S, R), state: S, clients: seq<C>, i: nat)
    requires i < |clients|
    ensures |Process(step, state, clients).1| == |clients|
    ensures var before := Process(step, state, clients[..i]).0;
            Process(step, state, clients).1[i] == step(before, clients[i]).1 &&
            Process(step, state, clients[..i + 1]).0 == step(before, clients[i]).0
  {
    var n := |clients| - 1;
    assert clients[..i + 1][..i] == clients[..i];
    if n > 0 {
      ResultsInOrder(step, state, clients[..n], if i < n then i else 0);
    }
    if i < n {
      assert clients[..n][..i] == clients[..i] && clients[..n][..i + 1] == clients[..i + 1];
    } else {
      assert clients[..i + 1] == clients;
    }
  }

  lemma {:induction false} ProcessInTwoParts<S, C, R>(step: (S, C) -> (S, R), state: S, first: seq<C>, second: seq<C>)
    ensures var (middle, results) := Process(step, state, first);
            var (after, more) := Process(step, middle, second);
            Process(step, state, first + second) == (after, results + more)
  {
    if second == [] {
      assert first + second == first;
      assert Process(step, state, first).1 + [] == Process(step, state, first).1;
    } else {
      var last := |second| - 1;
      ProcessInTwoParts(step, state, first, second[..last]);
      var whole := first + second;
      assert whole[..|whole| - 1] == first + second[..last] && whole[|whole| - 1] == second[last];
      var (middle, results) := Process(step, state, first);
      var (before, more) := Process(step, middle, second[..last]);
      var result := step(before, second[last]).1;
      assert (results + more) + [result] == results + (more + [result]);
    }
  }

  /** The processes one after the other, each starting from the state the last one saved. */
  function ProcessBatches<S, C, R>(step: (S, C) -> (S, R), state: S, clients: seq<C>, total: nat, upTo: nat): (S, seq<R>)
  {
    if upTo == 0 then (state, [])
    else
      var (before, results) := ProcessBatches(step, state, clients, total, upTo - 1);
      var (after, more) := Process(step, before, Batch(clients, Some(upTo), Some(total)));
      (after, results + more)
  }

  lemma {:induction false} ProcessBatchesIsProcess<S, C, R>(
      step: (S, C) -> (S, R), state: S, clients: seq<C>, total: nat, upTo: nat)
    ensures ProcessBatches(step, state, clients, total, upTo) == Process(step, state, FirstBatches(clients, total, upTo))
  {
    if upTo > 0 {
      ProcessBatchesIsProcess(step, state, clients, total, upTo - 1);
      ProcessInTwoParts(step, state, FirstBatches(clients, total, upTo - 1), Batch(clients, Some(upTo), Some(total)));
    }
  }

  /** Running every batch in turn leaves the state and the results of one run over all clients. */
  lemma BatchedRunIsOneRun<S, C, R>(step: (S, C) -> (S, R), state: S, clients: seq<C>, total: nat)
    requires total > 0
    ensures ProcessBatches(step, state, clients, total, total) == Process(step, state, clients)
  {
    ProcessBatchesIsProcess(step, state, clients, total, total);
    BatchesPartition(clients, total);
  }
}
