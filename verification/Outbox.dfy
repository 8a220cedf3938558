/** The event outbox: leases, delivery records, retries and dead letters.
    internal/outbox/worker.go, internal/outbox/import_gate.go, internal/service/outbox_action.go */
module Outbox {
  import opened Tables

  datatype Status = Waiting | RetryWait | Processing | DeadLetter | Delivered | EventCancelled

  datatype Row = Row(status: Status, owner: Option<Id>, until: int, available: int, attempts: nat)

  /** What a worker remembers of an acquired event. */
  datatype Event = Event(id: Id, attempt: nat)

  const MAX_ATTEMPTS := 7

  // ---------- one row

  /** Selected by the acquisition query. */
  predicate Due(row: Row, now: int) {
    (row.status in {Waiting, RetryWait} && row.available <= now) || (row.status == Processing && row.until < now)
  }

  /** Guard of the acquisition update; when it fails the acquisition ends with a lost lease. */
  predicate Free(row: Row, now: int) {
    row.owner == None || row.until < now
  }

  function Take(row: Row, worker: Id, until: int): Row {
    row.(status := Processing, owner := Some(worker), until := until)
  }

  /** Guard of every recorded outcome. */
  predicate OwnedBy(row: Row, worker: Id) {
    row.status == Processing && row.owner == Some(worker)
  }

  function Deliver(row: Row): Row {
    row.(status := Delivered, owner := None)
  }

  /** Minutes until the next attempt. */
  function Backoff(attempt: int): (minutes: nat)
    ensures 1 <= minutes <= 360
    ensures forall k :: k <= attempt ==> BackoffTable(k) <= minutes
  {
    BackoffTable(attempt)
  }

  function BackoffTable(attempt: int): nat {
    if attempt <= 1 then 1 else if attempt == 2 then 5 else if attempt == 3 then 15
    else if attempt == 4 then 60 else if attempt == 5 then 180 else 360
  }

  predicate IsDead(attempt: nat, permanent: bool) {
    permanent || attempt >= MAX_ATTEMPTS
  }

  /** The failure is counted from the attempt number the worker read when it acquired the event. */
  function Fail(row: Row, remembered: nat, permanent: bool, now: int): Row {
    var attempt := remembered + 1;
    row.(status := if IsDead(attempt, permanent) then DeadLetter else RetryWait, owner := None, attempts := attempt,
         available := if IsDead(attempt, permanent) then now else now + Backoff(attempt))
  }

  function Requeue(row: Row, now: int): Row {
    row.(status := Waiting, owner := None, attempts := 0, available := now)
  }

  /** An event has a lock owner exactly while it is processed, and the attempt count stays
      below the limit until the event is dead. */
  predicate RowSound(row: Row) {
    && (row.owner.Some? <==> row.status == Processing)
    && row.attempts <= MAX_ATTEMPTS
    && (row.status in {Waiting, RetryWait, Processing} ==> row.attempts < MAX_ATTEMPTS)
  }

  /** The lease-lost exit of the acquisition is unreachable. */
  lemma DueIsFree(row: Row, now: int)
    requires RowSound(row) && Due(row, now)
    ensures Free(row, now)
  {
  }

  // ---------- workers, clock and rows

  /** `failures` counts the failures recorded since the last manual retry; it is history. */
  datatype World = World(now: int, rows: map<Id, Row>, batches: map<Id, set<Event>>, failures: map<Id, nat>)

  datatype Move =
    | Tick(elapsed: nat)
    | Insert(id: Id)
    | Acquire(worker: Id, ids: set<Id>, until: int)
    | RecordDelivered(worker: Id, event: Event)
    | RecordFailed(worker: Id, event: Event, permanent: bool)
    | CancelHeld(worker: Id, event: Event)
    | Abandon(worker: Id)
    | ManualRetry(id: Id)

  predicate Remembers(w: World, worker: Id, e: Event) {
    worker in w.batches && e in w.batches[worker] && e.id in w.rows
  }

  /** A worker holds one batch at a time; acquiring the next one forgets the last. */
  function AcquireMove(w: World, worker: Id, ids: set<Id>, until: int): World {
    if forall i :: i in ids ==> i in w.rows && Due(w.rows[i], w.now) && Free(w.rows[i], w.now) then
      w.(rows := map i | i in w.rows :: if i in ids then Take(w.rows[i], worker, until) else w.rows[i],
         batches := w.batches[worker := set i | i in ids :: Event(i, w.rows[i].attempts)])
    else w
  }

  function Next(w: World, m: Move): World {
    match m
    case Tick(elapsed) => w.(now := w.now + elapsed)
    case Insert(id) =>
      if id in w.rows then w
      else w.(rows := w.rows[id := Row(Waiting, None, 0, w.now, 0)], failures := w.failures[id := 0])
    case Acquire(worker, ids, until) => AcquireMove(w, worker, ids, until)
    case RecordDelivered(worker, e) =>
      if Remembers(w, worker, e) && OwnedBy(w.rows[e.id], worker) then w.(rows := w.rows[e.id := Deliver(w.rows[e.id])]) else w
    case RecordFailed(worker, e, permanent) =>
      if Remembers(w, worker, e) && OwnedBy(w.rows[e.id], worker) then
        w.(rows := w.rows[e.id := Fail(w.rows[e.id], e.attempt, permanent, w.now)],
           failures := w.failures[e.id := (if e.id in w.failures then w.failures[e.id] else 0) + 1])
      else w
    case CancelHeld(worker, e) =>
      if Remembers(w, worker, e) && OwnedBy(w.rows[e.id], worker)
      then w.(rows := w.rows[e.id := w.rows[e.id].(status := EventCancelled, owner := None)]) else w
    case Abandon(worker) => w.(batches := w.batches - {worker})
    case ManualRetry(id) =>
      if id in w.rows && w.rows[id].status == DeadLetter
      then w.(rows := w.rows[id := Requeue(w.rows[id], w.now)], failures := w.failures[id := 0]) else w
  }

  const START := World(0, map[], map[], map[])

  ghost function RunFrom(w: World, moves: seq<Move>): World {
    if moves == [] then w else Next(RunFrom(w, moves[..|moves| - 1]), moves[|moves| - 1])
  }

  predicate EventSound(w: World, i: Id)
    requires i in w.rows
  {
    RowSound(w.rows[i]) && i in w.failures && w.failures[i] == w.rows[i].attempts
  }

  /** What the owner of an event remembers of it is still true. */
  predicate MemorySound(w: World, worker: Id, e: Event) {
    Remembers(w, worker, e) && OwnedBy(w.rows[e.id], worker) ==> w.rows[e.id].attempts == e.attempt
  }

  ghost predicate Inv(w: World) {
    && (forall i {:trigger EventSound(w, i)} :: i in w.rows ==> EventSound(w, i))
    && (forall worker, e {:trigger MemorySound(w, worker, e)} :: MemorySound(w, worker, e))
  }

  lemma AcquireKeeps(w: World, worker: Id, ids: set<Id>, until: int)
    requires Inv(w)
    ensures Inv(AcquireMove(w, worker, ids, until))
  {
    var n := AcquireMove(w, worker, ids, until);
    forall i | i in n.rows ensures EventSound(n, i) { assert EventSound(w, i); }
    forall x, e ensures MemorySound(n, x, e) { assert MemorySound(w, x, e); }
  }

  lemma NextKeeps(w: World, m: Move)
    requires Inv(w)
    ensures Inv(Next(w, m))
  {
    var n := Next(w, m);
    if m.Acquire? {
      AcquireKeeps(w, m.worker, m.ids, m.until);
    } else {
      if (m.RecordDelivered? || m.RecordFailed? || m.CancelHeld?) && m.event.id in w.rows {
        assert EventSound(w, m.event.id) && MemorySound(w, m.worker, m.event);
      }
      forall i | i in n.rows ensures EventSound(n, i) { assert i in w.rows ==> EventSound(w, i); }
      forall x, e ensures MemorySound(n, x, e) { assert MemorySound(w, x, e); }
    }
  }

  lemma {:induction false} RunKeeps(moves: seq<Move>)
    ensures Inv(RunFrom(START, moves))
  {
    if moves != [] {
      RunKeeps(moves[..|moves| - 1]);
      NextKeeps(RunFrom(START, moves[..|moves| - 1]), moves[|moves| - 1]);
    }
  }

  /** Owner and status, and the attempt count, in every run. */
  lemma LeasesAndAttempts(moves: seq<Move>, i: Id)
    requires i in RunFrom(START, moves).rows
    ensures var w := RunFrom(START, moves);
      && (w.rows[i].owner.Some? <==> w.rows[i].status == Processing)
      && i in w.failures && w.rows[i].attempts == w.failures[i] && w.rows[i].attempts <= 7
      && (Due(w.rows[i], w.now) ==> Free(w.rows[i], w.now))
  {
    RunKeeps(moves);
    assert EventSound(RunFrom(START, moves), i);
  }

  predicate Records(m: Move) {
    m.RecordDelivered? || m.RecordFailed? || m.CancelHeld?
  }

  /** A recorded outcome changes one row, and only for the worker that owns it at that moment. */
  lemma OnlyOwnerRecords(w: World, m: Move, i: Id)
    requires Records(m) && i in w.rows
    ensures i in Next(w, m).rows
    ensures Next(w, m).rows[i] != w.rows[i] ==> m.event.id == i && OwnedBy(w.rows[i], m.worker)
  {
  }

  /** The status moves a row can make; a delivered or cancelled event never moves again. */
  predicate StatusMay(x: Status, y: Status) {
    || y == x
    || (x in {Waiting, RetryWait} && y == Processing)
    || (x == Processing && y in {RetryWait, DeadLetter, Delivered, EventCancelled})
    || (x == DeadLetter && y == Waiting)
  }

  lemma NextMovesStatus(w: World, m: Move, i: Id)
    requires i in w.rows
    ensures i in Next(w, m).rows && StatusMay(w.rows[i].status, Next(w, m).rows[i].status)
    ensures w.rows[i].status in {Delivered, EventCancelled} ==> Next(w, m).rows[i] == w.rows[i]
  {
  }

  /** DELIVERED is final. */
  lemma {:induction false} DeliveredIsFinal(w: World, moves: seq<Move>, i: Id)
    requires i in w.rows && w.rows[i].status == Delivered
    ensures i in RunFrom(w, moves).rows && RunFrom(w, moves).rows[i] == w.rows[i]
  {
    if moves != [] {
      DeliveredIsFinal(w, moves[..|moves| - 1], i);
      NextMovesStatus(RunFrom(w, moves[..|moves| - 1]), moves[|moves| - 1], i);
    }
  }

  // ---------- the store

  /** Ids in table order; the acquisition takes the first due ones up to the limit. */
  function SelectDue(rows: map<Id, Row>, order: seq<Id>, now: int, limit: nat): seq<Id> {
    if order == [] then []
    else
      var k := |order| - 1;
      var before := SelectDue(rows, order[..k], now, limit);
      if |before| < limit && order[k] in rows && Due(rows[order[k]], now) then before + [order[k]] else before
  }

  lemma {:induction false} SelectedIsDue(rows: map<Id, Row>, order: seq<Id>, now: int, limit: nat)
    ensures var ids := SelectDue(rows, order, now, limit);
      && |ids| <= limit
      && (forall k :: 0 <= k < |ids| ==> ids[k] in order && ids[k] in rows && Due(rows[ids[k]], now))
      && (forall i :: i in order && i in rows && Due(rows[i], now) && |ids| < limit ==> i in ids)
  {
    if order != [] {
      var k := |order| - 1;
      SelectedIsDue(rows, order[..k], now, limit);
      assert order == order[..k] + [order[k]];
    }
  }

  function TakeAll(rows: map<Id, Row>, ids: seq<Id>, worker: Id, until: int): map<Id, Row> {
    map i | i in rows :: if i in ids then Take(rows[i], worker, until) else rows[i]
  }

  /** The acquired events with the attempt counts they had. */
  function Memories(rows: map<Id, Row>, ids: seq<Id>): seq<Event>
    requires forall k :: 0 <= k < |ids| ==> ids[k] in rows
  {
    seq(|ids|, k requires 0 <= k < |ids| => Event(ids[k], rows[ids[k]].attempts))
  }

  class Store {
    var rows: map<Id, Row>
    var order: seq<Id>

    ghost predicate Valid()
      reads this
    {
      && (forall i :: i in rows ==> RowSound(rows[i]))
      && (forall i, j :: 0 <= i < j < |order| ==> order[i] != order[j])
    }

    /** The acquisition query. */
    method Select(now: int, limit: nat) returns (ids: seq<Id>)
      ensures ids == SelectDue(rows, order, now, limit)
    {
      ids := [];
      for k := 0 to |order|
        invariant ids == SelectDue(rows, order[..k], now, limit)
      {
        assert order[..k + 1][..k] == order[..k];
        if |ids| < limit && order[k] in rows && Due(rows[order[k]], now) { ids := ids + [order[k]]; }
      }
      assert order[..|order|] == order;
    }

    /** Takes the first due events; under `Valid` no lease can be found lost on the way. */
    method Acquire(worker: Id, now: int, until: int, limit: nat) returns (events: seq<Event>, lost: bool)
      requires Valid()
      modifies this`rows
      ensures Valid() && !lost
      ensures forall i :: i in SelectDue(old(rows), order, now, limit) ==> i in old(rows)
      ensures events == Memories(old(rows), SelectDue(old(rows), order, now, limit))
      ensures rows == TakeAll(old(rows), SelectDue(old(rows), order, now, limit), worker, until)
    {
      var ids := Select(now, limit);
      SelectedIsDue(rows, order, now, limit);
      SelectedOnce(rows, order, now, limit);
      ghost var before := rows;
      events, lost := [], false;
      for k := 0 to |ids|
        invariant rows.Keys == before.Keys
        invariant forall i :: i in before ==> rows[i] == if i in ids[..k] then Take(before[i], worker, until) else before[i]
        invariant events == Memories(before, ids[..k])
      {
        var i := ids[k];
        assert ids[..k + 1] == ids[..k] + [i] && i !in ids[..k];
        DueIsFree(before[i], now);
        if !Free(rows[i], now) { return [], true; }
        events := events + [Event(i, rows[i].attempts)];
        rows := rows[i := Take(rows[i], worker, until)];
      }
      assert ids[..|ids|] == ids;
      assert rows == TakeAll(before, ids, worker, until);
    }

    /** Records deliveries one by one and stops at the first event the worker no longer owns. */
    method Delivered(worker: Id, events: seq<Event>) returns (lost: bool)
      requires Valid()
      requires forall i, j :: 0 <= i < j < |events| ==> events[i].id != events[j].id
      modifies this`rows
      ensures Valid() && rows.Keys == old(rows).Keys
      ensures lost <==> exists k :: 0 <= k < |events| && !(events[k].id in old(rows) && OwnedBy(old(rows)[events[k].id], worker))
      ensures forall i :: i in old(rows) && (forall k :: 0 <= k < |events| ==> events[k].id != i) ==> rows[i] == old(rows)[i]
      ensures !lost ==> forall k :: 0 <= k < |events| ==> rows[events[k].id] == Deliver(old(rows)[events[k].id])
      ensures forall i :: i in old(rows) && !OwnedBy(old(rows)[i], worker) ==> rows[i] == old(rows)[i]
    {
      for k := 0 to |events|
        invariant rows.Keys == old(rows).Keys && Valid()
        invariant forall j :: 0 <= j < k ==> events[j].id in old(rows) && OwnedBy(old(rows)[events[j].id], worker)
        invariant forall j :: 0 <= j < k ==> rows[events[j].id] == Deliver(old(rows)[events[j].id])
        invariant forall i :: i in old(rows) && (forall j :: 0 <= j < k ==> events[j].id != i) ==> rows[i] == old(rows)[i]
      {
        var i := events[k].id;
        if i !in rows || !OwnedBy(rows[i], worker) { return true; }
        rows := rows[i := Deliver(rows[i])];
      }
      lost := false;
    }

    /** Records failures one by one with the remembered attempt number. */
    method Failed(worker: Id, events: seq<Event>, permanent: bool, now: int) returns (lost: bool)
      requires Valid()
      requires forall i, j :: 0 <= i < j < |events| ==> events[i].id != events[j].id
      requires forall k :: 0 <= k < |events| && events[k].id in rows && OwnedBy(rows[events[k].id], worker) ==> rows[events[k].id].attempts == events[k].attempt
      modifies this`rows
      ensures Valid() && rows.Keys == old(rows).Keys
      ensures lost <==> exists k :: 0 <= k < |events| && !(events[k].id in old(rows) && OwnedBy(old(rows)[events[k].id], worker))
      ensures forall i :: i in old(rows) && (forall k :: 0 <= k < |events| ==> events[k].id != i) ==> rows[i] == old(rows)[i]
      ensures !lost ==> forall k :: 0 <= k < |events| ==>
        && rows[events[k].id] == Fail(old(rows)[events[k].id], events[k].attempt, permanent, now)
        && rows[events[k].id].attempts == old(rows)[events[k].id].attempts + 1
      ensures forall i :: i in old(rows) && !OwnedBy(old(rows)[i], worker) ==> rows[i] == old(rows)[i]
    {
      for k := 0 to |events|
        invariant rows.Keys == old(rows).Keys && Valid()
        invariant forall j :: 0 <= j < k ==> events[j].id in old(rows) && OwnedBy(old(rows)[events[j].id], worker)
        invariant forall j :: 0 <= j < k ==> rows[events[j].id] == Fail(old(rows)[events[j].id], events[j].attempt, permanent, now)
        invariant forall i :: i in old(rows) && (forall j :: 0 <= j < k ==> events[j].id != i) ==> rows[i] == old(rows)[i]
      {
        var i := events[k].id;
        if i !in rows || !OwnedBy(rows[i], worker) { return true; }
        rows := rows[i := Fail(rows[i], events[k].attempt, permanent, now)];
      }
      lost := false;
    }

    /** `RetryOutboxEvent` */
    method RetryOutboxEvent(id: Id, now: int) returns (r: Outcome<()>)
      requires Valid()
      modifies this`rows
      ensures Valid()
      ensures r.Done? <==> id in old(rows) && old(rows)[id].status == DeadLetter
      ensures r.Done? ==> rows == old(rows)[id := Requeue(old(rows)[id], now)]
      ensures r.Refused? ==> rows == old(rows) && r.error == (if id in old(rows) then Conflict else NotFound)
    {
      if id !in rows { return Refused(NotFound); }
      if rows[id].status != DeadLetter { return Refused(Conflict); }
      rows := rows[id := Requeue(rows[id], now)];
      r := Done(());
    }
  }

  lemma {:induction false} SelectedOnce(rows: map<Id, Row>, order: seq<Id>, now: int, limit: nat)
    requires forall i, j :: 0 <= i < j < |order| ==> order[i] != order[j]
    ensures var ids := SelectDue(rows, order, now, limit); forall i, j :: 0 <= i < j < |ids| ==> ids[i] != ids[j]
  {
    if order != [] {
      var k := |order| - 1;
      SelectedOnce(rows, order[..k], now, limit);
      SelectedIsDue(rows, order[..k], now, limit);
    }
  }
}
