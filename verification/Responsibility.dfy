/** The responsibility stream of contracts: versioned events, possibly repeated and out of order.
    internal/service/contract_responsibility_ingest.go */
module Responsibility {
  import opened Tables

  datatype Event = Event(id: Id, contract: Id, version: nat, owner: Id, active: bool)

  datatype Row = Row(owner: Id, version: nat, active: bool)

  datatype World = World(rows: map<Id, Row>, inbox: map<Id, Event>)

  /** The row a contract starts with. */
  const UNKNOWN := Row(NOBODY, 0, false)

  function RowOf(w: World, c: Id): Row {
    if c in w.rows then w.rows[c] else UNKNOWN
  }

  function Given(e: Event): Row {
    Row(e.owner, e.version, e.active)
  }

  predicate ValidEvent(e: Event) {
    0 < e.version && (e.active ==> e.owner != NOBODY)
  }

  /** One event: a replay changes nothing, an equal version must agree, only a higher one is applied. */
  function Ingest(w: World, e: Event): Outcome<World> {
    if !ValidEvent(e) then Refused(Invalid)
    else if e.id in w.inbox then
      if w.inbox[e.id] == e then Done(w) else Refused(Conflict)
    else
      var row := RowOf(w, e.contract);
      if e.version == row.version && (e.owner != row.owner || e.active != row.active) then Refused(Conflict)
      else
        Done(World(if e.version > row.version then w.rows[e.contract := Given(e)] else w.rows[e.contract := row],
                   w.inbox[e.id := e]))
  }

  class Projection {
    var rows: map<Id, Row>
    var inbox: map<Id, Event>

    ghost function State(): World
      reads this
    {
      World(rows, inbox)
    }

    constructor ()
      ensures State() == World(map[], map[])
    {
      rows, inbox := map[], map[];
    }

    /** `IngestContractResponsibility`: true when the event was applied. */
    method IngestContractResponsibility(e: Event) returns (applied: Outcome<bool>)
      modifies this
      ensures match Ingest(old(State()), e)
              case Done(n) => applied.Done? && State() == n && (applied.value <==> e.id !in old(inbox) && e.version > RowOf(old(State()), e.contract).version)
              case Refused(x) => applied == Refused(x) && State() == old(State())
    {
      if e.version == 0 || (e.active && e.owner == NOBODY) { return Refused(Invalid); }
      if e.id in inbox {
        if inbox[e.id] != e { return Refused(Conflict); }
        return Done(false);
      }
      var row := if e.contract in rows then rows[e.contract] else UNKNOWN;
      if e.version == row.version && (row.owner != e.owner || row.active != e.active) { return Refused(Conflict); }
      inbox := inbox[e.id := e];
      rows := rows[e.contract := if e.version > row.version then Row(e.owner, e.version, e.active) else row];
      return Done(e.version > row.version);
    }
  }

  /** A delivery order; a refused event leaves everything as it was. */
  function Deliver(events: seq<Event>): World {
    if events == [] then World(map[], map[])
    else
      var before := Deliver(events[..|events| - 1]);
      var after := Ingest(before, events[|events| - 1]);
      if after.Done? then after.value else before
  }

  lemma NeverLowersVersion(w: World, e: Event, c: Id)
    requires Ingest(w, e).Done?
    ensures RowOf(w, c).version <= RowOf(Ingest(w, e).value, c).version
  {
  }

  // ---------- what a delivery order ends with

  /** Valid events, and an id names one event. */
  ghost predicate Proper(events: set<Event>) {
    && (forall e :: e in events ==> ValidEvent(e))
    && (forall x, y :: x in events && y in events && x.id == y.id ==> x == y)
  }

  predicate Wins(e: Event, events: set<Event>, c: Id) {
    e in events && e.contract == c && forall x :: x in events && x.contract == c ==> x.version <= e.version
  }

  /** The row of a contract: that of an event with the highest version, or none without events. */
  ghost predicate IsLatest(w: World, events: set<Event>, c: Id) {
    if exists e :: e in events && e.contract == c then c in w.rows && exists e :: Wins(e, events, c) && w.rows[c] == Given(e)
    else c !in w.rows
  }

  /** Only events that came are filed, each under its id. */
  ghost predicate FiledFrom(w: World, events: set<Event>) {
    forall i :: i in w.inbox ==> w.inbox[i] in events && w.inbox[i].id == i
  }

  function SetOf(events: seq<Event>): set<Event> {
    set e | e in events
  }

  lemma SetOfMore(events: seq<Event>)
    requires events != []
    ensures SetOf(events) == SetOf(events[..|events| - 1]) + {events[|events| - 1]}
  {
    assert events == events[..|events| - 1] + [events[|events| - 1]];
  }

  lemma OtherContract(w: World, n: World, events: set<Event>, e: Event, c: Id)
    requires IsLatest(w, events, c) && e.contract != c && (c in w.rows <==> c in n.rows) && (c in w.rows ==> n.rows[c] == w.rows[c])
    ensures IsLatest(n, events + {e}, c)
  {
    if x :| x in events && x.contract == c {
      var top :| Wins(top, events, c) && w.rows[c] == Given(top);
      assert Wins(top, events + {e}, c);
    }
  }

  lemma SameContract(w: World, n: World, events: set<Event>, e: Event)
    requires ValidEvent(e) && IsLatest(w, events, e.contract) && e.contract in n.rows
    requires n.rows[e.contract] == if e.version > RowOf(w, e.contract).version then Given(e) else RowOf(w, e.contract)
    ensures IsLatest(n, events + {e}, e.contract)
  {
    var c := e.contract;
    assert e in events + {e};
    if x :| x in events && x.contract == c {
      var top :| Wins(top, events, c) && w.rows[c] == Given(top);
      assert Wins(if e.version > top.version then e else top, events + {e}, c);
    } else {
      assert Wins(e, events + {e}, c);
    }
  }

  /** One delivery, refused or not. */
  lemma StepEndsAtTop(w: World, events: set<Event>, e: Event, c: Id)
    requires Proper(events + {e}) && FiledFrom(w, events) && IsLatest(w, events, c) && IsLatest(w, events, e.contract)
    ensures var after := Ingest(w, e); var n := if after.Done? then after.value else w;
      FiledFrom(n, events + {e}) && IsLatest(n, events + {e}, c)
  {
    assert e in events + {e};
    var after := Ingest(w, e);
    var n := if after.Done? then after.value else w;
    if e.id in w.inbox {
      assert w.inbox[e.id] in events + {e};
      assert events + {e} == events;
    } else if c == e.contract {
      SameContract(w, n, events, e);
    } else {
      OtherContract(w, n, events, e, c);
    }
  }

  /** Whatever the order, however often events are repeated and whichever of them are refused, every
      contract ends at an event of its highest version. */
  lemma {:induction false} DeliveryEndsAtTop(events: seq<Event>, c: Id)
    requires Proper(SetOf(events))
    ensures IsLatest(Deliver(events), SetOf(events), c) && FiledFrom(Deliver(events), SetOf(events))
  {
    if events != [] {
      var before, e := events[..|events| - 1], events[|events| - 1];
      SetOfMore(events);
      DeliveryEndsAtTop(before, c);
      DeliveryEndsAtTop(before, e.contract);
      StepEndsAtTop(Deliver(before), SetOf(before), e, c);
    }
  }

  // ---------- convergence

  predicate SameVersionAgrees(x: Event, y: Event) {
    x.contract == y.contract && x.version == y.version ==> x.owner == y.owner && x.active == y.active
  }

  /** Equal versions of a contract agree. */
  ghost predicate Agree(events: set<Event>) {
    Proper(events) && forall x, y {:trigger SameVersionAgrees(x, y)} :: x in events && y in events ==> SameVersionAgrees(x, y)
  }

  /** When equal versions agree no delivery is refused, so every event is filed. */
  lemma {:induction false} NothingRefused(events: seq<Event>, e: Event)
    requires Agree(SetOf(events)) && e in events
    ensures e.id in Deliver(events).inbox && Deliver(events).inbox[e.id] == e
  {
    var before, last := events[..|events| - 1], events[|events| - 1];
    SetOfMore(events);
    assert forall x, y :: x in SetOf(before) && y in SetOf(before) ==> SameVersionAgrees(x, y) by {
      forall x, y | x in SetOf(before) && y in SetOf(before) ensures SameVersionAgrees(x, y) { assert x in SetOf(events) && y in SetOf(events); }
    }
    if e in before {
      NothingRefused(before, e);
    } else {
      DeliveryEndsAtTop(before, e.contract);
      if x :| Wins(x, SetOf(before), e.contract) && Deliver(before).rows[e.contract] == Given(x) {
        assert SameVersionAgrees(e, x);
      }
    }
  }

  /** Two delivery orders of the same events, repetitions included, end in the same state. */
  lemma OrdersConverge(xs: seq<Event>, ys: seq<Event>)
    requires SetOf(xs) == SetOf(ys) && Agree(SetOf(xs))
    ensures Deliver(xs) == Deliver(ys)
  {
    var v, w, events := Deliver(xs), Deliver(ys), SetOf(xs);
    forall c ensures IsLatest(v, events, c) && IsLatest(w, events, c) {
      DeliveryEndsAtTop(xs, c);
      DeliveryEndsAtTop(ys, c);
    }
    DeliveryEndsAtTop(xs, NOBODY);
    DeliveryEndsAtTop(ys, NOBODY);
    forall x, y, c | Wins(x, events, c) && Wins(y, events, c) ensures Given(x) == Given(y) { assert SameVersionAgrees(x, y); }
    SameRows(v, w, events);
    forall e | e in events ensures e.id in v.inbox && v.inbox[e.id] == e && e.id in w.inbox && w.inbox[e.id] == e {
      assert e in ys;
      NothingRefused(xs, e);
      NothingRefused(ys, e);
    }
    assert v.inbox.Keys == w.inbox.Keys;
    assert v.inbox == w.inbox;
  }

  /** The events at the highest version of a contract agree. */
  ghost predicate TopsAgree(events: set<Event>) {
    forall x, y, c :: Wins(x, events, c) && Wins(y, events, c) ==> Given(x) == Given(y)
  }

  lemma SameRows(v: World, w: World, events: set<Event>)
    requires TopsAgree(events) && forall c :: IsLatest(v, events, c) && IsLatest(w, events, c)
    ensures v.rows == w.rows
  {
    forall c ensures (c in v.rows <==> c in w.rows) && (c in v.rows ==> v.rows[c] == w.rows[c]) {
      assert IsLatest(v, events, c) && IsLatest(w, events, c);
      if e :| e in events && e.contract == c {
        var x :| Wins(x, events, c) && v.rows[c] == Given(x);
        var y :| Wins(y, events, c) && w.rows[c] == Given(y);
      }
    }
    assert v.rows.Keys == w.rows.Keys;
  }

  /** An event of the highest version that comes first decides the row. */
  lemma {:induction false} FirstTopStays(events: seq<Event>, c: Id)
    requires Proper(SetOf(events)) && events != [] && Wins(events[0], SetOf(events), c)
    ensures c in Deliver(events).rows && Deliver(events).rows[c] == Given(events[0])
  {
    var before, e := events[..|events| - 1], events[|events| - 1];
    SetOfMore(events);
    if before == [] {
      assert Deliver(before) == World(map[], map[]);
      assert e in SetOf(events);
    } else {
      assert Wins(before[0], SetOf(before), c);
      FirstTopStays(before, c);
    }
  }

  predicate Once(events: seq<Event>) {
    forall i, j :: 0 <= i < j < |events| ==> events[i] != events[j]
  }

  /** A delivery order of the set, each event once. */
  ghost predicate IsOrder(list: seq<Event>, events: set<Event>) {
    SetOf(list) == events && Once(list)
  }

  lemma {:induction false} Listed(events: set<Event>) returns (list: seq<Event>)
    ensures IsOrder(list, events)
    decreases |events|, 1
  {
    list := [];
    if e :| e in events { list := OrderFrom(events, e); }
  }

  lemma {:induction false} OrderFrom(events: set<Event>, e: Event) returns (list: seq<Event>)
    requires e in events
    ensures IsOrder(list, events) && list != [] && list[0] == e
    decreases |events|, 0
  {
    var rest := Listed(events - {e});
    list := [e] + rest;
    forall x ensures x in list <==> x in events { assert x in SetOf(rest) <==> x in events - {e}; }
    forall i, j | 0 <= i < j < |list| ensures list[i] != list[j] {
      assert i > 0 ==> rest[i - 1] != rest[j - 1];
      assert rest[j - 1] in SetOf(rest);
    }
  }

  /** Orders with repetitions end with the same rows if the top events agree. */
  lemma AgreeingTopsConverge(events: set<Event>, xs: seq<Event>, ys: seq<Event>)
    requires Proper(events) && TopsAgree(events) && SetOf(xs) == events == SetOf(ys)
    ensures Deliver(xs).rows == Deliver(ys).rows
  {
    forall c ensures IsLatest(Deliver(xs), events, c) && IsLatest(Deliver(ys), events, c) {
      DeliveryEndsAtTop(xs, c);
      DeliveryEndsAtTop(ys, c);
    }
    SameRows(Deliver(xs), Deliver(ys), events);
  }

  /** All orders of a set of events end with the same rows if and only if the events at the highest
      version of each contract agree. */
  lemma AllOrdersConvergeIff(events: set<Event>)
    requires Proper(events)
    ensures (forall xs, ys :: IsOrder(xs, events) && IsOrder(ys, events) ==> Deliver(xs).rows == Deliver(ys).rows) <==> TopsAgree(events)
  {
    if TopsAgree(events) {
      forall xs, ys | IsOrder(xs, events) && IsOrder(ys, events) ensures Deliver(xs).rows == Deliver(ys).rows {
        AgreeingTopsConverge(events, xs, ys);
      }
    } else {
      var x, y, c :| Wins(x, events, c) && Wins(y, events, c) && Given(x) != Given(y);
      var xs := OrderFrom(events, x);
      var ys := OrderFrom(events, y);
      FirstTopStays(xs, c);
      FirstTopStays(ys, c);
      assert Deliver(xs).rows[c] != Deliver(ys).rows[c];
    }
  }

  /** Two events: their two orders end alike exactly when equal versions agree. */
  lemma PairConvergesIff(x: Event, y: Event)
    requires ValidEvent(x) && ValidEvent(y) && x.id != y.id
    ensures RowOf(Deliver([x, y]), x.contract) == RowOf(Deliver([y, x]), x.contract) <==> SameVersionAgrees(x, y)
  {
    assert [x, y][..1] == [x] && [y, x][..1] == [y] && [x][..0] == [] && [y][..0] == [];
    assert Deliver([x]) == World(map[x.contract := Given(x)], map[x.id := x]);
    assert Deliver([y]) == World(map[y.contract := Given(y)], map[y.id := y]);
  }
}
