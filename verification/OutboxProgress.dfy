/** What the outbox does with an event: the delays between attempts, the limit, and what each outcome
    leaves in the row.  internal/outbox/worker.go:48-185 */
module OutboxProgress {
  import opened Tables
  import opened Outbox

  /** Minutes to wait after the first, second, ... sixth failure. */
  const DELAYS := [1, 5, 15, 60, 180, 360]

  /** The owner of an event records a failure: the seventh failure since the last manual retry, or a permanent
      one, makes it a dead letter at once; an earlier one schedules the next attempt after the delay of its
      number. */
  lemma FailureOutcome(w: World, worker: Id, e: Event, permanent: bool)
    requires Inv(w) && Remembers(w, worker, e) && OwnedBy(w.rows[e.id], worker)
    ensures e.id in w.failures && w.failures[e.id] <= 6
    ensures var n, k := Next(w, RecordFailed(worker, e, permanent)), w.failures[e.id];
      && n == w.(rows := n.rows, failures := w.failures[e.id := k + 1]) && e.id in n.rows && n.rows == w.rows[e.id := n.rows[e.id]]
      && n.rows[e.id] == w.rows[e.id].(owner := None, attempts := k + 1, status := n.rows[e.id].status, available := n.rows[e.id].available)
      && (if permanent || k == 6 then n.rows[e.id].status == DeadLetter && n.rows[e.id].available == w.now
          else n.rows[e.id].status == RetryWait && n.rows[e.id].available == w.now + DELAYS[k])
  {
    assert EventSound(w, e.id) && MemorySound(w, worker, e);
  }

  lemma DeliveryOutcome(w: World, worker: Id, e: Event)
    requires Remembers(w, worker, e) && OwnedBy(w.rows[e.id], worker)
    ensures Next(w, RecordDelivered(worker, e)) == w.(rows := w.rows[e.id := w.rows[e.id].(status := Delivered, owner := None)])
  {
  }

  /** Due events are taken: processed by the worker until its lease ends, with the attempt numbers they have. */
  lemma AcquisitionOutcome(w: World, worker: Id, ids: set<Id>, until: int)
    requires Inv(w) && forall i :: i in ids ==> i in w.rows && Due(w.rows[i], w.now)
    ensures var n := Next(w, Acquire(worker, ids, until));
      && n.rows.Keys == w.rows.Keys && worker in n.batches
      && (forall i :: i in ids ==> OwnedBy(n.rows[i], worker) && n.rows[i] == w.rows[i].(status := Processing, owner := Some(worker), until := until)
                                   && Event(i, w.rows[i].attempts) in n.batches[worker])
      && (forall i :: i in w.rows && i !in ids ==> n.rows[i] == w.rows[i])
  {
    forall i | i in ids ensures Free(w.rows[i], w.now) { assert EventSound(w, i); DueIsFree(w.rows[i], w.now); }
    var n := Next(w, Acquire(worker, ids, until));
    assert n.rows.Keys == w.rows.Keys;
  }

  /** A dead letter is requeued for now with no failure on its account; nothing else is. */
  lemma RetryOutcome(w: World, id: Id)
    ensures Next(w, ManualRetry(id)) ==
      if id in w.rows && w.rows[id].status == DeadLetter
      then w.(rows := w.rows[id := w.rows[id].(status := Waiting, owner := None, attempts := 0, available := w.now)], failures := w.failures[id := 0])
      else w
  {
  }

  // ---------- every run

  /** A waiting event never failed since it was queued, a retried one failed one to six times. */
  predicate Counted(w: World, i: Id)
    requires i in w.rows
  {
    && (w.rows[i].status == Waiting ==> w.rows[i].attempts == 0)
    && (w.rows[i].status == RetryWait ==> 1 <= w.rows[i].attempts <= 6)
    && (w.rows[i].status == DeadLetter ==> 1 <= w.rows[i].attempts <= 7)
  }

  ghost predicate AllCounted(w: World) {
    forall i {:trigger Counted(w, i)} :: i in w.rows ==> Counted(w, i)
  }

  lemma NextKeepsCount(w: World, m: Move)
    requires Inv(w) && AllCounted(w)
    ensures AllCounted(Next(w, m))
  {
    var n := Next(w, m);
    if m.RecordFailed? && Remembers(w, m.worker, m.event) {
      assert EventSound(w, m.event.id) && MemorySound(w, m.worker, m.event);
    }
    forall i | i in n.rows ensures Counted(n, i) {
      if i in w.rows { assert Counted(w, i) && EventSound(w, i); }
    }
  }

  /** In every run the status of an event tells how often it failed since it was last queued. */
  lemma {:induction false} StatusTellsFailures(moves: seq<Move>)
    ensures AllCounted(RunFrom(START, moves)) && Inv(RunFrom(START, moves))
  {
    if moves != [] {
      var first := moves[..|moves| - 1];
      StatusTellsFailures(first);
      NextKeepsCount(RunFrom(START, first), moves[|moves| - 1]);
      NextKeeps(RunFrom(START, first), moves[|moves| - 1]);
    }
  }

  /** Seven failures in a row, the first six not permanent: six retries at the table's delays, then dead. */
  lemma {:induction false} FailuresInARow(w: World, i: Id, k: nat)
    requires Inv(w) && i in w.rows && w.rows[i].status == Waiting && w.rows[i].attempts == 0 && w.rows[i].available <= w.now && k <= 7
    ensures var n := FailTimes(w, i, k);
      && Inv(n) && i in n.rows && n.rows[i].attempts == k
      && n.rows[i].status == (if k == 0 then Waiting else if k <= 6 then RetryWait else DeadLetter)
      && (1 <= k <= 6 ==> n.rows[i].available == n.now + DELAYS[k - 1])
  {
    hide Inv, FailOnce;
    if k > 0 {
      FailuresInARow(w, i, k - 1);
      OneMoreFailure(FailTimes(w, i, k - 1), i, k - 1);
    }
  }

  const WORKER := Id(1)

  /** Wait until the event is due, acquire it, fail. */
  function FailOnce(w: World, i: Id): World
    requires i in w.rows
  {
    var due := Next(w, Tick(if w.rows[i].available <= w.now then 0 else w.rows[i].available - w.now));
    var taken := Next(due, Acquire(WORKER, {i}, due.now + 5));
    Next(taken, RecordFailed(WORKER, Event(i, w.rows[i].attempts), false))
  }

  ghost function FailTimes(w: World, i: Id, k: nat): World
    requires i in w.rows
  {
    if k == 0 then w else var before := FailTimes(w, i, k - 1); if i in before.rows then FailOnce(before, i) else before
  }

  lemma OneMoreFailure(w: World, i: Id, k: nat)
    requires Inv(w) && i in w.rows && w.rows[i].attempts == k <= 6 && w.rows[i].status in {Waiting, RetryWait}
    ensures var n := FailOnce(w, i);
      && Inv(n) && i in n.rows && n.rows[i].attempts == k + 1
      && (if k == 6 then n.rows[i].status == DeadLetter else n.rows[i].status == RetryWait && n.rows[i].available == n.now + DELAYS[k])
  {
    hide Inv, Next;
    var pause := if w.rows[i].available <= w.now then 0 else w.rows[i].available - w.now;
    var due := Next(w, Tick(pause));
    NextKeeps(w, Tick(pause));
    TickOutcome(w, pause);
    var taken := Next(due, Acquire(WORKER, {i}, due.now + 5));
    NextKeeps(due, Acquire(WORKER, {i}, due.now + 5));
    AcquisitionOutcome(due, WORKER, {i}, due.now + 5);
    var e := Event(i, w.rows[i].attempts);
    NextKeeps(taken, RecordFailed(WORKER, e, false));
    FailureOutcome(taken, WORKER, e, false);
    FailuresAre(taken, i);
  }

  lemma TickOutcome(w: World, elapsed: nat)
    ensures Next(w, Tick(elapsed)) == w.(now := w.now + elapsed)
  {
  }

  lemma FailuresAre(w: World, i: Id)
    requires Inv(w) && i in w.rows
    ensures i in w.failures && w.failures[i] == w.rows[i].attempts
  {
    assert EventSound(w, i);
  }
}
