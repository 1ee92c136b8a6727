/** Rental orders (`src/orders.rs`): the table of orders, the buffer of measured work in front of
    it, and the sweep that ends finished orders. Work, prices and budgets are real numbers. */
module Orders {
  import opened Options
  import opened Types

  /** Hashes in one TH·day and hashes per diff-1 share. */
  const HASHES_PER_TH_DAY: real := 1000000000000.0 * 86400.0
  const DIFF1_HASHES: real := 4294967296.0

  datatype Status = Active | Ended | Cancelled

  datatype Order = Order(
    id: OrderId, worker: Worker, target: UpstreamTarget, fallback: Option<UpstreamTarget>,
    createdMs: int, untilMs: int, status: Status, endedMs: int,
    deliveredWork: real, acceptedShares: nat, submittedShares: nat,
    pricePerThDay: real, budget: real)
  {
    function Cost(): real {
      ThDays(deliveredWork) * pricePerThDay
    }

    function BudgetRemaining(): real {
      if budget <= 0.0 then 0.0 else if budget - Cost() > 0.0 then budget - Cost() else 0.0
    }

    predicate FundingExhausted() {
      budget > 0.0 && Cost() >= budget
    }

    predicate IsLive(now: int) {
      status == Active && (untilMs == 0 || untilMs > now) && !FundingExhausted()
    }

    /** The test of the sweep on an active row. */
    predicate Finished(now: int) {
      (untilMs > 0 && untilMs <= now) || FundingExhausted()
    }
  }

  function ThDays(work: real): real {
    work * DIFF1_HASHES / HASHES_PER_TH_DAY
  }

  /** Accounting buffered per order between two flushes. */
  datatype WorkDelta = WorkDelta(work: real, accepted: nat, submitted: nat)

  const NOTHING := WorkDelta(0.0, 0, 0)

  function Buffered(buffer: map<OrderId, WorkDelta>, id: OrderId): WorkDelta {
    if id in buffer then buffer[id] else NOTHING
  }

  function Written(o: Order, d: WorkDelta): Order {
    o.(deliveredWork := o.deliveredWork + d.work, acceptedShares := o.acceptedShares + d.accepted,
       submittedShares := o.submittedShares + d.submitted)
  }

  type Table = map<OrderId, Order>

  predicate HasActive(table: Table, worker: Worker) {
    exists id | id in table :: table[id].status == Active && table[id].worker == worker
  }

  /** Rows are filed under their id, and no worker has two active orders. */
  ghost predicate TableInv(table: Table) {
    && (forall id | id in table :: table[id].id == id)
    && (forall a, b | a in table && b in table && table[a].status == Active && table[b].status == Active &&
                      table[a].worker == table[b].worker :: a == b)
  }

  function Flushed(table: Table, buffer: map<OrderId, WorkDelta>): Table {
    map id | id in table :: if id in buffer then Written(table[id], buffer[id]) else table[id]
  }

  predicate Swept(o: Order, now: int) {
    o.status == Active && o.Finished(now)
  }

  function EndedAt(o: Order, now: int): Order {
    o.(status := Ended, endedMs := now)
  }

  /** The table with those rows swept. */
  function SweptRows(table: Table, ids: set<OrderId>, now: int): Table {
    map id | id in table :: if id in ids && Swept(table[id], now) then EndedAt(table[id], now) else table[id]
  }

  function AfterSweep(table: Table, now: int): Table {
    SweptRows(table, table.Keys, now)
  }

  lemma SweepOneMore(table: Table, ids: set<OrderId>, id: OrderId, now: int)
    requires id in table && id !in ids
    ensures SweptRows(table, ids, now)[id] == table[id]
    ensures SweptRows(table, ids + {id}, now) ==
            SweptRows(table, ids, now)[id := if Swept(table[id], now) then EndedAt(table[id], now) else table[id]]
  {
  }

  lemma SweepKeepsTable(table: Table, now: int)
    requires TableInv(table)
    ensures TableInv(AfterSweep(table, now))
  {
  }

  ghost predicate EndedOnes(table: Table, ids: set<OrderId>, now: int, finished: seq<Order>) {
    && (forall o :: o in finished <==> EndedFrom(table, ids, now, o))
    && (forall i, j | 0 <= i < j < |finished| :: finished[i].id != finished[j].id)
  }

  lemma EndOneMore(table: Table, ids: set<OrderId>, id: OrderId, now: int, finished: seq<Order>)
    requires id in table && id !in ids && table[id].id == id && EndedOnes(table, ids, now, finished)
    ensures EndedOnes(table, ids + {id}, now,
                      if Swept(table[id], now) then finished + [EndedAt(table[id], now)] else finished)
  {
    forall i | 0 <= i < |finished| ensures finished[i].id != id {
      assert finished[i] in finished;
    }
  }

  /** `o` is the ended form of one of the rows `ids`, which the sweep ends. */
  predicate EndedFrom(table: Table, ids: set<OrderId>, now: int, o: Order) {
    o.id in ids && o.id in table && Swept(table[o.id], now) && o == EndedAt(table[o.id], now)
  }

  /** A sweep of `start` that has still to look at `rows`. */
  ghost predicate Sweeping(start: Table, rows: set<OrderId>, now: int, table: Table, finished: seq<Order>) {
    && rows <= start.Keys && (forall id | id in rows :: start[id].status == Active)
    && table == SweptRows(start, start.Keys - rows, now)
    && EndedOnes(start, start.Keys - rows, now, finished)
  }

  lemma SweepStarts(start: Table, rows: set<OrderId>, now: int)
    requires forall id :: id in rows <==> id in start && start[id].status == Active
    ensures Sweeping(start, rows, now, start, [])
  {
  }

  lemma SweepEnds(start: Table, now: int, table: Table, finished: seq<Order>)
    requires TableInv(start) && Sweeping(start, {}, now, table, finished)
    ensures table == AfterSweep(start, now) && EndedOnes(start, start.Keys, now, finished) && TableInv(table)
  {
    assert start.Keys - {} == start.Keys;
    SweepKeepsTable(start, now);
  }

  lemma SweepsOn(start: Table, rows: set<OrderId>, now: int, table: Table, finished: seq<Order>, id: OrderId)
    requires TableInv(start) && Sweeping(start, rows, now, table, finished) && id in rows
    ensures id in table && table[id] == start[id]
    ensures if Swept(start[id], now)
            then Sweeping(start, rows - {id}, now, table[id := EndedAt(start[id], now)],
                finished + [EndedAt(start[id], now)])
            else Sweeping(start, rows - {id}, now, table, finished)
  {
    var done := start.Keys - rows;
    assert done + {id} == start.Keys - (rows - {id});
    SweepOneMore(start, done, id, now);
    EndOneMore(start, done, id, now, finished);
  }


  datatype Created = Recorded(order: Order) | AlreadyActive

  class OrderStore {
    var table: Table
    var pending: map<OrderId, WorkDelta>

    constructor ()
      ensures table == map[] && pending == map[]
    {
      table, pending := map[], map[];
    }

    /** The table's unique indices refuse a second active order of a worker, and an id in use. */
    method Create(id: OrderId, worker: Worker, target: UpstreamTarget, fallback: Option<UpstreamTarget>,
                  untilMs: int, pricePerThDay: real, budget: real, now: int)
      returns (r: Created)
      requires TableInv(table)
      modifies this`table
      ensures TableInv(table)
      ensures r.Recorded? <==>
              id !in old(table) &&
              forall other | other in old(table) && old(table)[other].worker == worker ::
                old(table)[other].status != Active
      ensures r.Recorded? ==> table == old(table)[id := r.order]
      ensures r.Recorded? ==> r.order.IsLive(now) == (untilMs == 0 || untilMs > now)
      ensures r.Recorded? ==> r.order == Order(id, worker, target, fallback, now, untilMs, Active, 0, 0.0, 0, 0,
              pricePerThDay, budget)
      ensures r.AlreadyActive? ==> table == old(table)
    {
      if id in table || HasActive(table, worker) {
        return AlreadyActive;
      }
      var o := Order(id, worker, target, fallback, now, untilMs, Active, 0, 0.0, 0, 0, pricePerThDay, budget);
      table := table[id := o];
      r := Recorded(o);
    }

    method Get(id: OrderId) returns (o: Option<Order>)
      ensures o == if id in table then Some(table[id]) else None
    {
      o := if id in table then Some(table[id]) else None;
    }

    method AddWork(id: OrderId, work: real, accepted: nat)
      modifies this`pending
      ensures pending.Keys == old(pending).Keys + {id}
      ensures Buffered(pending, id) == Buffered(old(pending), id).(
                work := Buffered(old(pending), id).work + work,
                accepted := Buffered(old(pending), id).accepted + accepted)
      ensures forall other | other != id :: Buffered(pending, other) == Buffered(old(pending), other)
    {
      if id !in pending {
        pending := pending[id := NOTHING];
      }
      var d := pending[id];
      pending := pending[id := d.(work := d.work + work, accepted := d.accepted + accepted)];
    }

    method AddSubmitted(id: OrderId, submitted: nat)
      modifies this`pending
      ensures pending.Keys == old(pending).Keys + {id}
      ensures Buffered(pending, id) ==
              Buffered(old(pending), id).(submitted := Buffered(old(pending), id).submitted + submitted)
      ensures forall other | other != id :: Buffered(pending, other) == Buffered(old(pending), other)
    {
      if id !in pending {
        pending := pending[id := NOTHING];
      }
      pending := pending[id := pending[id].(submitted := pending[id].submitted + submitted)];
    }

    /** Drain the buffer, then one update per drained order, in no particular order. */
    method Flush()
      requires TableInv(table)
      modifies this
      ensures TableInv(table)
      ensures pending == map[] && table == Flushed(old(table), old(pending))
    {
      if pending == map[] {
        return;
      }
      var drained := pending;
      pending := map[];
      var left := drained.Keys;
      while left != {}
        invariant left <= drained.Keys && pending == map[]
        invariant table == Flushed(old(table), drained - left)
      {
        var id :| id in left;
        left := left - {id};
        if id in table {
          table := table[id := Written(table[id], drained[id])];
        }
      }
      assert drained - {} == drained;
    }

    /** The rows of the query are looked through for one that still has funding. */
    method ActiveForWorker(worker: Worker, now: int) returns (r: Option<Order>)
      ensures r.Some? ==> r.value.worker == worker && r.value.IsLive(now)
      ensures r.Some? ==> exists id :: id in table && r.value == table[id]
      ensures r.None? ==> forall id | id in table && table[id].worker == worker :: !table[id].IsLive(now)
    {
      var rows := set id | id in table && table[id].worker == worker && table[id].status == Active &&
                           (table[id].untilMs == 0 || table[id].untilMs > now);
      r := None;
      while rows != {}
        invariant forall id | id in rows :: id in table && table[id].worker == worker && table[id].status == Active &&
                                            (table[id].untilMs == 0 || table[id].untilMs > now)
        invariant forall id | id in table && table[id].worker == worker && table[id].IsLive(now) :: id in rows
      {
        var id :| id in rows;
        if !table[id].FundingExhausted() {
          return Some(table[id]);
        }
        rows := rows - {id};
      }
    }

    method Cancel(id: OrderId, now: int) returns (r: Option<Order>)
      requires TableInv(table)
      modifies this`table
      ensures TableInv(table)
      ensures r.None? <==> id !in old(table)
      ensures r.None? ==> table == old(table)
      ensures r.Some? ==> r.value == old(table)[id].(status := Cancelled, endedMs := now)
      ensures r.Some? ==> table == old(table)[id := r.value]
    {
      if id !in table {
        return None;
      }
      var o := table[id].(status := Cancelled, endedMs := now);
      table := table[id := o];
      r := Some(o);
    }

    /** One update per finished row; each ended order is returned once. */
    method TakeExpired(now: int) returns (finished: seq<Order>)
      requires TableInv(table)
      modifies this`table
      ensures TableInv(table)
      ensures table == AfterSweep(old(table), now)
      ensures EndedOnes(old(table), old(table).Keys, now, finished)
    {
      ghost var start := table;
      var rows := set id | id in table && table[id].status == Active;
      finished := [];
      SweepStarts(start, rows, now);
      while rows != {}
        invariant Sweeping(start, rows, now, table, finished)
      {
        var id :| id in rows;
        SweepsOn(start, rows, now, table, finished, id);
        rows := rows - {id};
        var ended := SweepRow(id, now);
        if ended.Some? {
          finished := finished + [ended.value];
        }
      }
      SweepEnds(start, now, table, finished);
    }

    method SweepRow(id: OrderId, now: int) returns (ended: Option<Order>)
      requires id in table && table[id].status == Active
      modifies this`table
      ensures ended == if Swept(old(table)[id], now) then Some(EndedAt(old(table)[id], now)) else None
      ensures table == if ended.Some? then old(table)[id := ended.value] else old(table)
    {
      var o := table[id];
      if !o.Finished(now) {
        return None;
      }
      table := table[id := EndedAt(o, now)];
      ended := Some(EndedAt(o, now));
    }
  }

  // --- the sweep and liveness ---

  /** The sweep and `is_live` agree on an active order exactly when its deadline is not
      negative or its funding is gone: a negative deadline is over for `is_live`, while the
      sweep treats it as open-ended. */
  lemma SweptIffNotLive(o: Order, now: int)
    requires o.status == Active && now >= 0
    ensures (Swept(o, now) <==> !o.IsLive(now)) <==> o.untilMs >= 0 || o.FundingExhausted()
  {
  }

  /** After a sweep every order left active is live, and exactly the active orders that were
      not live are ended, at the time of the sweep and with all else as it was. */
  lemma SweepIsExact(table: Table, now: int)
    requires now >= 0 && forall id | id in table :: table[id].untilMs >= 0
    ensures var swept := AfterSweep(table, now);
            && swept.Keys == table.Keys
            && forall id | id in table ::
                 && (swept[id].status == Active ==> swept[id].IsLive(now))
                 && (swept[id] == table[id].(status := Ended, endedMs := now) || swept[id] == table[id])
                 && (table[id].status == Active ==> (swept[id].status == Active <==> table[id].IsLive(now)))
                 && (table[id].status != Active ==> swept[id] == table[id])
  {
  }

  /** A worker's live order, if it has one, is its only one: the query can return no other. */
  lemma LiveOrderIsUnique(table: Table, a: OrderId, b: OrderId, now: int)
    requires TableInv(table) && a in table && b in table
    requires table[a].worker == table[b].worker && table[a].IsLive(now) && table[b].IsLive(now)
    ensures a == b
  {
  }

  /** An order is charged its price per TH/s and day: for the work of so many TH/s over so many days,
      a share of difficulty 1 standing for 2^32 hashes, that many times its price. */
  lemma CostIsPerThDay(o: Order, ths: real, days: real)
    requires o.deliveredWork * 4294967296.0 == (ths * 1000000000000.0) * (days * 86400.0)
    ensures o.Cost() == ths * days * o.pricePerThDay
  {
    ThDaysOf(o.deliveredWork, ths * days);
  }

  lemma ThDaysOf(work: real, thDays: real)
    requires work * 4294967296.0 == thDays * 86400000000000000.0
    ensures ThDays(work) == thDays
  {
  }

  lemma CostOfMore(o: Order, d: WorkDelta)
    requires o.pricePerThDay >= 0.0 && d.work >= 0.0
    ensures Written(o, d).Cost() == o.Cost() + ThDays(d.work) * o.pricePerThDay
    ensures Written(o, d).Cost() >= o.Cost()
  {
    var p := o.pricePerThDay;
    assert ThDays(o.deliveredWork + d.work) == ThDays(o.deliveredWork) + ThDays(d.work);
    assert ThDays(d.work) >= 0.0;
    assert (ThDays(o.deliveredWork) + ThDays(d.work)) * p == ThDays(o.deliveredWork) * p + ThDays(d.work) * p;
    assert ThDays(d.work) * p >= 0.0;
  }

  /** What is left of the budget and what is spent make up the budget until it is gone, and it
      is gone exactly when nothing is left. */
  lemma BudgetSplits(o: Order)
    requires o.budget > 0.0
    ensures o.FundingExhausted() <==> o.BudgetRemaining() == 0.0
    ensures !o.FundingExhausted() ==> o.BudgetRemaining() + o.Cost() == o.budget
  {
  }
}
