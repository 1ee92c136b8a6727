/** Billing end to end: sessions credit orders while the expiry task flushes the buffer and sweeps
    finished orders, in any interleaving. One database update is one step (`src/orders.rs`,
    `flush`, `take_expired` and the loop of `spawn_expiry`, which is the only caller of either). */
module Billing {
  import opened Options
  import opened Types
  import opened Orders

  /** The expiry task: between rounds, writing a drained buffer, or ending the rows it selected. */
  datatype Phase = Resting | Flushing | Ending(at: int)

  /** `log` and `submissions` are all that was ever handed to `add_work` and `add_submitted`;
      `drained` and `swept` are the work credited to each order by the last drain, and by the
      drain before the last sweep. */
  datatype State = State(
    table: Table, pending: map<OrderId, WorkDelta>, batch: map<OrderId, WorkDelta>,
    phase: Phase, ending: set<OrderId>, now: int,
    log: seq<Credit>, submissions: map<OrderId, nat>,
    drained: map<OrderId, real>, swept: map<OrderId, real>)

  datatype Event =
    | NewOrder(o: Order, checkedAt: int)
    | AddWork(credit: Credit)
    | AddSubmitted(id: OrderId, count: nat)
    | Cancel(id: OrderId)
    | Drain
    | Write(id: OrderId)
    | Select
    | End(id: OrderId)
    | Rest
    | Tick(ms: nat)

  const INITIAL := State(map[], map[], map[], Resting, {}, 0, [], map[], map[], map[])

  function WorkFor(log: seq<Credit>, id: OrderId): real {
    TotalWork(CreditsTo(log, Rented(id)))
  }

  function SharesFor(log: seq<Credit>, id: OrderId): nat {
    TotalShares(CreditsTo(log, Rented(id)))
  }

  function AsOf(m: map<OrderId, real>, id: OrderId): real {
    if id in m then m[id] else 0.0
  }

  function SubmittedTo(m: map<OrderId, nat>, id: OrderId): nat {
    if id in m then m[id] else 0
  }

  predicate IsNew(o: Order, now: int) {
    o.status == Active && o.createdMs == now && o.endedMs == 0 &&
    o.deliveredWork == 0.0 && o.acceptedShares == 0 && o.submittedShares == 0
  }

  /** The request's end time, if it has one, is refused unless it is still to come. */
  predicate InFuture(untilMs: int, now: int) {
    untilMs == 0 || untilMs > now
  }

  function Plus(buffer: map<OrderId, WorkDelta>, id: OrderId, d: WorkDelta): map<OrderId, WorkDelta> {
    var b := Buffered(buffer, id);
    buffer[id := WorkDelta(b.work + d.work, b.accepted + d.accepted, b.submitted + d.submitted)]
  }

  function ToEnd(table: Table, now: int): set<OrderId> {
    set id | id in table && Swept(table[id], now)
  }

  predicate Enabled(s: State, e: Event) {
    match e
    case NewOrder(o, checkedAt) =>
      o.id !in s.table && !HasActive(s.table, o.worker) && IsNew(o, s.now) && InFuture(o.untilMs, checkedAt) &&
      0 <= checkedAt <= s.now
    case AddWork(c) => c.routing.Rented? && c.routing.orderId in s.table && c.work >= 0.0
    case AddSubmitted(id, _) => id in s.table
    case Cancel(id) => id in s.table
    case Drain => s.phase.Resting?
    case Write(id) => s.phase.Flushing? && id in s.batch
    case Select => s.phase.Flushing? && s.batch == map[]
    case End(id) => s.phase.Ending? && id in s.ending && id in s.table
    case Rest => s.phase.Ending? && s.ending == {}
    case Tick(_) => true
  }

  function Apply(s: State, e: Event): State
    requires Enabled(s, e)
  {
    match e
    case NewOrder(o, _) => s.(table := s.table[o.id := o])
    case AddWork(c) =>
      s.(log := s.log + [c], pending := Plus(s.pending, c.routing.orderId, WorkDelta(c.work, c.shares, 0)))
    case AddSubmitted(id, count) =>
      s.(submissions := s.submissions[id := SubmittedTo(s.submissions, id) + count],
         pending := Plus(s.pending, id, WorkDelta(0.0, 0, count)))
    case Cancel(id) => s.(table := s.table[id := s.table[id].(status := Cancelled, endedMs := s.now)])
    case Drain =>
      s.(phase := Flushing, batch := s.pending, pending := map[],
         drained := map id | id in s.table :: WorkFor(s.log, id))
    case Write(id) =>
      s.(batch := s.batch - {id},
         table := if id in s.table then s.table[id := Written(s.table[id], s.batch[id])] else s.table)
    case Select =>
      s.(phase := Ending(s.now), ending := ToEnd(s.table, s.now), swept := s.drained)
    case End(id) => s.(ending := s.ending - {id}, table := s.table[id := EndedAt(s.table[id], s.phase.at)])
    case Rest => s.(phase := Resting)
    case Tick(ms) => s.(now := s.now + ms)
  }

  // --- what every step keeps ---

  /** Everything ever credited to an order is in its row, in the buffer, or drained and on the
      way from one to the other. */
  ghost predicate Conserved(s: State, id: OrderId)
    requires id in s.table
  {
    var o, p, b := s.table[id], Buffered(s.pending, id), Buffered(s.batch, id);
    && WorkFor(s.log, id) == o.deliveredWork + p.work + b.work
    && SharesFor(s.log, id) == o.acceptedShares + p.accepted + b.accepted
    && SubmittedTo(s.submissions, id) == o.submittedShares + p.submitted + b.submitted
  }

  /** Nothing is credited to an order that is not on the table yet. */
  ghost predicate KnownInv(s: State) {
    && (forall c | c in s.log :: c.routing.Rented? && c.routing.orderId in s.table)
    && s.submissions.Keys <= s.table.Keys && s.pending.Keys <= s.table.Keys && s.batch.Keys <= s.table.Keys
    && s.drained.Keys <= s.table.Keys && s.swept.Keys <= s.table.Keys && s.ending <= s.table.Keys
    && (forall id | id in s.pending :: s.pending[id].work >= 0.0)
    && (forall id | id in s.batch :: s.batch[id].work >= 0.0)
  }

  ghost predicate ConservedInv(s: State) {
    forall id | id in s.table :: Conserved(s, id)
  }

  /** Between rounds nothing is under way; during a round each row and what is still to be
      written to it make up the work of the last drain. */
  ghost predicate RoundInv(s: State) {
    && (!s.phase.Flushing? ==> s.batch == map[])
    && (!s.phase.Ending? ==> s.ending == {})
    && (!s.phase.Resting? ==> forall id | id in s.table ::
          s.table[id].deliveredWork + Buffered(s.batch, id).work == AsOf(s.drained, id))
  }

  /** An order the last sweep left active could still be paid at the drain before it. */
  ghost predicate FundedInv(s: State) {
    forall id | id in s.table && s.table[id].status == Active && id !in s.ending ::
      Pays(s.table[id].budget, s.table[id].pricePerThDay, AsOf(s.swept, id))
  }

  /** A budget, if one is set, is not used up by so much work. */
  predicate Pays(budget: real, price: real, work: real) {
    budget > 0.0 ==> ThDays(work) * price < budget
  }

  ghost predicate Inv(s: State) {
    TableInv(s.table) && KnownInv(s) && ConservedInv(s) && RoundInv(s) && FundedInv(s)
  }

  lemma CreditedMore(log: seq<Credit>, c: Credit, id: OrderId)
    ensures WorkFor(log + [c], id) == WorkFor(log, id) + (if c.routing == Rented(id) then c.work else 0.0)
    ensures SharesFor(log + [c], id) == SharesFor(log, id) + (if c.routing == Rented(id) then c.shares else 0)
  {
    assert (log + [c])[..|log|] == log;
    var to := CreditsTo(log, Rented(id));
    assert (to + [c])[..|to|] == to;
  }

  lemma {:induction false} NothingForUnknown(log: seq<Credit>, id: OrderId)
    requires forall c | c in log :: c.routing != Rented(id)
    ensures CreditsTo(log, Rented(id)) == []
  {
    if log != [] {
      NothingForUnknown(log[..|log| - 1], id);
    }
  }

  lemma NewKeepsTable(table: Table, o: Order)
    requires TableInv(table) && o.id !in table && !HasActive(table, o.worker)
    ensures TableInv(table[o.id := o])
  {
  }

  lemma ChangeKeepsTable(table: Table, id: OrderId, o: Order)
    requires TableInv(table) && id in table && o.id == id && o.worker == table[id].worker
    requires o.status == Active ==> table[id].status == Active
    ensures TableInv(table[id := o])
  {
  }

  lemma StepKeepsTable(s: State, e: Event)
    requires TableInv(s.table) && Enabled(s, e)
    ensures TableInv(Apply(s, e).table)
  {
    match e
    case NewOrder(o, _) => NewKeepsTable(s.table, o);
    case Cancel(id) => ChangeKeepsTable(s.table, id, Apply(s, e).table[id]);
    case Write(id) => if id in s.table { ChangeKeepsTable(s.table, id, Apply(s, e).table[id]); }
    case End(id) => ChangeKeepsTable(s.table, id, Apply(s, e).table[id]);
    case _ =>
  }

  lemma StepKeepsKnown(s: State, e: Event)
    requires KnownInv(s) && Enabled(s, e)
    ensures KnownInv(Apply(s, e))
  {
  }

  /** Crediting, buffering, draining and writing move the same amounts from one place to the next. */
  lemma AddKeepsConserved(s: State, e: Event, id: OrderId)
    requires id in s.table && Conserved(s, id) && Enabled(s, e) && (e.AddWork? || e.AddSubmitted?)
    ensures Conserved(Apply(s, e), id)
  {
    if e.AddWork? {
      CreditedMore(s.log, e.credit, id);
    }
  }

  lemma FlushKeepsConserved(s: State, e: Event, id: OrderId)
    requires id in s.table && Conserved(s, id) && RoundInv(s) && Enabled(s, e) && (e.Drain? || e.Write?)
    ensures Conserved(Apply(s, e), id)
  {
  }

  lemma NewIsConserved(s: State, o: Order, checkedAt: int)
    requires KnownInv(s) && Enabled(s, NewOrder(o, checkedAt))
    ensures Conserved(Apply(s, NewOrder(o, checkedAt)), o.id)
  {
    NothingForUnknown(s.log, o.id);
  }

  lemma OthersKeepConserved(s: State, e: Event, id: OrderId)
    requires id in s.table && Conserved(s, id) && Enabled(s, e)
    requires !e.AddWork? && !e.AddSubmitted? && !e.Drain? && !e.Write?
    ensures Conserved(Apply(s, e), id)
  {
  }

  lemma RowStaysConserved(s: State, e: Event, id: OrderId)
    requires id in s.table && Conserved(s, id) && RoundInv(s) && Enabled(s, e)
    ensures Conserved(Apply(s, e), id)
  {
    if e.AddWork? || e.AddSubmitted? {
      AddKeepsConserved(s, e, id);
    } else if e.Drain? || e.Write? {
      FlushKeepsConserved(s, e, id);
    } else {
      OthersKeepConserved(s, e, id);
    }
  }

  lemma StepKeepsConserved(s: State, e: Event)
    requires KnownInv(s) && ConservedInv(s) && RoundInv(s) && Enabled(s, e)
    ensures ConservedInv(Apply(s, e))
  {
    forall id | id in Apply(s, e).table ensures Conserved(Apply(s, e), id) {
      if id in s.table {
        RowStaysConserved(s, e, id);
      } else {
        NewIsConserved(s, e.o, e.checkedAt);
      }
    }
  }

  lemma DrainKeepsRound(s: State)
    requires ConservedInv(s) && RoundInv(s) && Enabled(s, Drain)
    ensures RoundInv(Apply(s, Drain))
  {
    forall id | id in s.table ensures WorkFor(s.log, id) == s.table[id].deliveredWork + Buffered(s.pending, id).work {
      assert Conserved(s, id);
    }
  }

  lemma WriteKeepsRound(s: State, id: OrderId)
    requires RoundInv(s) && Enabled(s, Write(id))
    ensures RoundInv(Apply(s, Write(id)))
  {
  }

  lemma StepKeepsRound(s: State, e: Event)
    requires KnownInv(s) && ConservedInv(s) && RoundInv(s) && Enabled(s, e)
    ensures RoundInv(Apply(s, e))
  {
    match e
    case Drain => DrainKeepsRound(s);
    case Write(id) => WriteKeepsRound(s, id);
    case _ => OthersKeepRound(s, e);
  }

  lemma OthersKeepRound(s: State, e: Event)
    requires KnownInv(s) && RoundInv(s) && Enabled(s, e) && !e.Drain? && !e.Write?
    ensures RoundInv(Apply(s, e))
  {
  }

  lemma UnsweptPays(o: Order)
    requires !o.FundingExhausted()
    ensures Pays(o.budget, o.pricePerThDay, o.deliveredWork)
  {
  }

  lemma SelectKeepsFunded(s: State)
    requires RoundInv(s) && Enabled(s, Select)
    ensures FundedInv(Apply(s, Select))
  {
    var t := Apply(s, Select);
    forall id | id in t.table && t.table[id].status == Active && id !in t.ending
      ensures Pays(t.table[id].budget, t.table[id].pricePerThDay, AsOf(t.swept, id))
    {
      UnsweptPays(s.table[id]);
    }
  }

  lemma StepKeepsFunded(s: State, e: Event)
    requires KnownInv(s) && RoundInv(s) && FundedInv(s) && Enabled(s, e)
    ensures FundedInv(Apply(s, e))
  {
    if e == Select {
      SelectKeepsFunded(s);
    }
  }

  lemma StepKeepsInv(s: State, e: Event)
    requires Inv(s) && Enabled(s, e)
    ensures Inv(Apply(s, e))
  {
    StepKeepsTable(s, e);
    StepKeepsKnown(s, e);
    StepKeepsConserved(s, e);
    StepKeepsRound(s, e);
    StepKeepsFunded(s, e);
  }

  // --- over whole runs ---

  ghost predicate Stepped(ss: seq<State>, es: seq<Event>, i: nat)
    requires |ss| == |es| + 1 && i < |es|
  {
    Enabled(ss[i], es[i]) && ss[i + 1] == Apply(ss[i], es[i])
  }

  ghost predicate Run(ss: seq<State>, es: seq<Event>) {
    |ss| == |es| + 1 && ss[0] == INITIAL && forall i: nat | i < |es| :: Stepped(ss, es, i)
  }

  lemma {:induction false} RunInv(ss: seq<State>, es: seq<Event>, n: nat)
    requires Run(ss, es) && n < |ss|
    ensures Inv(ss[n])
  {
    if n > 0 {
      RunInv(ss, es, n - 1);
      assert Stepped(ss, es, n - 1);
      StepKeepsInv(ss[n - 1], es[n - 1]);
    }
  }

  /** Conservation: whatever was credited to an order, in work, accepted and submitted shares,
      is the stored row plus the buffer plus the drained deltas not written yet. */
  lemma EverythingIsConserved(ss: seq<State>, es: seq<Event>, n: nat, id: OrderId)
    requires Run(ss, es) && n < |ss| && id in ss[n].table
    ensures Conserved(ss[n], id)
  {
    RunInv(ss, es, n);
  }

  /** Once the buffer and the batch are empty the row alone holds it all. */
  lemma FlushedRowIsComplete(ss: seq<State>, es: seq<Event>, n: nat, id: OrderId)
    requires Run(ss, es) && n < |ss| && id in ss[n].table
    requires id !in ss[n].pending && id !in ss[n].batch
    ensures ss[n].table[id].deliveredWork == WorkFor(ss[n].log, id)
    ensures ss[n].table[id].acceptedShares == SharesFor(ss[n].log, id)
    ensures ss[n].table[id].submittedShares == SubmittedTo(ss[n].submissions, id)
  {
    RunInv(ss, es, n);
    assert Conserved(ss[n], id);
  }

  ghost predicate Quiet(es: seq<Event>, from: nat, to: nat, e: Event)
    requires from <= to <= |es|
  {
    forall i | from <= i < to :: es[i] != e
  }

  lemma {:induction false} DrainedStays(ss: seq<State>, es: seq<Event>, d: nat, n: nat)
    requires Run(ss, es) && d < n < |ss| && es[d] == Drain && Quiet(es, d + 1, n, Drain)
    ensures ss[n].drained == map id | id in ss[d].table :: WorkFor(ss[d].log, id)
  {
    assert Stepped(ss, es, n - 1);
    if n > d + 1 {
      DrainedStays(ss, es, d, n - 1);
    }
  }

  lemma {:induction false} SweptStays(ss: seq<State>, es: seq<Event>, s: nat, n: nat)
    requires Run(ss, es) && s < n < |ss| && es[s] == Select && Quiet(es, s + 1, n, Select)
    ensures ss[n].swept == ss[s].drained
  {
    assert Stepped(ss, es, n - 1);
    if n > s + 1 {
      SweptStays(ss, es, s, n - 1);
    }
  }

  lemma RunFunded(ss: seq<State>, es: seq<Event>, n: nat, id: OrderId)
    requires Run(ss, es) && n < |ss| && id in ss[n].table && ss[n].table[id].status == Active && id !in ss[n].ending
    ensures Pays(ss[n].table[id].budget, ss[n].table[id].pricePerThDay, AsOf(ss[n].swept, id))
  {
    RunInv(ss, es, n);
  }

  lemma CostSplits(all: real, before: real, price: real, budget: real)
    requires budget > 0.0 && Pays(budget, price, before)
    ensures ThDays(all) * price < budget + ThDays(all - before) * price
  {
    var x, y := ThDays(before), ThDays(all - before);
    assert ThDays(all) == x + y;
    assert (x + y) * price == x * price + y * price;
  }

  /** Overrun is bounded: as long as the sweeps leave a budgeted order active, all the work ever
      credited to it costs less than its budget plus the price of the work credited since the
      drain before the last sweep. */
  lemma OverrunIsBounded(ss: seq<State>, es: seq<Event>, d: nat, s: nat, n: nat, id: OrderId)
    requires Run(ss, es) && d < s < n < |ss|
    requires es[d] == Drain && Quiet(es, d + 1, s, Drain) && es[s] == Select && Quiet(es, s + 1, n, Select)
    requires id in ss[n].table && ss[n].table[id].status == Active && id !in ss[n].ending
    requires ss[n].table[id].budget > 0.0
    ensures var o := ss[n].table[id];
            ThDays(WorkFor(ss[n].log, id)) * o.pricePerThDay <
            o.budget + ThDays(WorkFor(ss[n].log, id) - WorkFor(ss[d].log, id)) * o.pricePerThDay
  {
    LastSweptIs(ss, es, d, s, n, id);
    RunFunded(ss, es, n, id);
    var o := ss[n].table[id];
    CostSplits(WorkFor(ss[n].log, id), WorkFor(ss[d].log, id), o.pricePerThDay, o.budget);
  }

  lemma LastSweptIs(ss: seq<State>, es: seq<Event>, d: nat, s: nat, n: nat, id: OrderId)
    requires Run(ss, es) && d < s < n < |ss|
    requires es[d] == Drain && Quiet(es, d + 1, s, Drain) && es[s] == Select && Quiet(es, s + 1, n, Select)
    ensures AsOf(ss[n].swept, id) == WorkFor(ss[d].log, id)
  {
    DrainedStays(ss, es, d, s);
    SweptStays(ss, es, s, n);
    if id !in ss[d].table {
      RunInv(ss, es, d);
      NothingForUnknown(ss[d].log, id);
    }
  }

  lemma DeadRowStays(o: Order, d: WorkDelta, now: int)
    requires o.pricePerThDay >= 0.0 && d.work >= 0.0 && !o.IsLive(now)
    ensures !Written(o, d).IsLive(now)
  {
    CostOfMore(o, d);
  }

  lemma StepKeepsDead(s: State, e: Event, id: OrderId)
    requires KnownInv(s) && Enabled(s, e) && id in s.table && s.table[id].pricePerThDay >= 0.0
    requires !s.table[id].IsLive(s.now)
    ensures id in Apply(s, e).table && !Apply(s, e).table[id].IsLive(Apply(s, e).now)
    ensures Apply(s, e).table[id].pricePerThDay == s.table[id].pricePerThDay
  {
    if e == Write(id) {
      DeadRowStays(s.table[id], s.batch[id], s.now);
    } else {
      OthersKeepDead(s, e, id);
    }
  }

  lemma OthersKeepDead(s: State, e: Event, id: OrderId)
    requires Enabled(s, e) && id in s.table && !s.table[id].IsLive(s.now) && e != Write(id)
    ensures id in Apply(s, e).table && !Apply(s, e).table[id].IsLive(Apply(s, e).now)
    ensures Apply(s, e).table[id].pricePerThDay == s.table[id].pricePerThDay
  {
  }

  /** Once an order is not live, by deadline, budget or status, it never is again. */
  lemma {:induction false} DeadStaysDead(ss: seq<State>, es: seq<Event>, i: nat, j: nat, id: OrderId)
    requires Run(ss, es) && i <= j < |ss|
    requires id in ss[i].table && ss[i].table[id].pricePerThDay >= 0.0 && !ss[i].table[id].IsLive(ss[i].now)
    ensures id in ss[j].table && !ss[j].table[id].IsLive(ss[j].now)
    ensures ss[j].table[id].pricePerThDay == ss[i].table[id].pricePerThDay
  {
    if i < j {
      DeadStaysDead(ss, es, i, j - 1, id);
      RunInv(ss, es, j - 1);
      assert Stepped(ss, es, j - 1);
      StepKeepsDead(ss[j - 1], es[j - 1], id);
    }
  }

  lemma StepKeepsInactive(s: State, e: Event, id: OrderId)
    requires Enabled(s, e) && id in s.table && s.table[id].status != Active
    ensures id in Apply(s, e).table && Apply(s, e).table[id].status != Active
  {
  }

  /** Leaving `Active` is final, though a cancel and a sweep may still overwrite each other. */
  lemma {:induction false} LeavingActiveIsFinal(ss: seq<State>, es: seq<Event>, i: nat, j: nat, id: OrderId)
    requires Run(ss, es) && i <= j < |ss| && id in ss[i].table && ss[i].table[id].status != Active
    ensures id in ss[j].table && ss[j].table[id].status != Active
  {
    if i < j {
      LeavingActiveIsFinal(ss, es, i, j - 1, id);
      assert Stepped(ss, es, j - 1);
      StepKeepsInactive(ss[j - 1], es[j - 1], id);
    }
  }

  /** At no point of any run does a worker have two active orders. */
  lemma OneActiveOrderPerWorker(ss: seq<State>, es: seq<Event>, n: nat, a: OrderId, b: OrderId)
    requires Run(ss, es) && n < |ss| && a in ss[n].table && b in ss[n].table
    requires ss[n].table[a].worker == ss[n].table[b].worker
    requires ss[n].table[a].status == Active && ss[n].table[b].status == Active
    ensures a == b
  {
    RunInv(ss, es, n);
  }

  /** When an order was last cancelled, or selected by the sweep that ended it. */
  function LastEnding(ss: seq<State>, es: seq<Event>, n: nat, id: OrderId): int
    requires n <= |es| < |ss|
  {
    if n == 0 then 0
    else if es[n - 1] == Cancel(id) then ss[n - 1].now
    else if es[n - 1] == End(id) && ss[n - 1].phase.Ending? then ss[n - 1].phase.at
    else LastEnding(ss, es, n - 1, id)
  }

  /** On every run an order is marked with the moment it was ended, or not marked. */
  lemma {:induction false} MarkedWhenEnded(ss: seq<State>, es: seq<Event>, n: nat, id: OrderId)
    requires Run(ss, es) && n < |ss|
    ensures id in ss[n].table ==> ss[n].table[id].endedMs == LastEnding(ss, es, n, id)
    ensures id !in ss[n].table ==> LastEnding(ss, es, n, id) == 0
  {
    if n > 0 {
      MarkedWhenEnded(ss, es, n - 1, id);
      assert Stepped(ss, es, n - 1);
      Marks(ss[n - 1], es[n - 1], id);
    }
  }

  lemma Marks(s: State, e: Event, id: OrderId)
    requires Enabled(s, e)
    ensures var t := Apply(s, e);
            if id in s.table then
              && id in t.table
              && t.table[id].endedMs ==
                 if e == Cancel(id) then s.now
                 else if e == End(id) && s.phase.Ending? then s.phase.at
                 else s.table[id].endedMs
            else (id in t.table ==> t.table[id].endedMs == 0) && e != Cancel(id) && e != End(id)
  {
  }

  // --- one round, with anything in between ---

  /** No order ever has a deadline before the epoch. */
  ghost predicate DeadlinesInv(s: State) {
    s.now >= 0 && forall id | id in s.table :: s.table[id].untilMs >= 0
  }

  lemma StepKeepsDeadlines(s: State, e: Event)
    requires DeadlinesInv(s) && Enabled(s, e)
    ensures DeadlinesInv(Apply(s, e))
  {
  }

  lemma {:induction false} DeadlinesAreNotNegative(ss: seq<State>, es: seq<Event>, n: nat)
    requires Run(ss, es) && n < |ss|
    ensures ss[n].now >= 0 && forall id | id in ss[n].table :: ss[n].table[id].untilMs >= 0
  {
    if n > 0 {
      DeadlinesAreNotNegative(ss, es, n - 1);
      assert Stepped(ss, es, n - 1);
      StepKeepsDeadlines(ss[n - 1], es[n - 1]);
    }
  }

  ghost predicate CancelledIn(es: seq<Event>, k: nat, n: nat, id: OrderId) {
    exists i :: k < i < n && i < |es| && es[i] == Cancel(id)
  }

  /** What has become of a row that a selection looked at: selected ones wait to be ended or are
      not active any more; of the others those that were active still are, unless cancelled. */
  ghost predicate Outcome(s: State, id: OrderId, selected: bool, active: bool, cancelled: bool) {
    && id in s.table
    && (selected ==> id in s.ending || s.table[id].status != Active)
    && (!selected ==> id !in s.ending && (s.table[id].status == Active <==> active && !cancelled))
  }

  lemma StepKeepsOutcome(s: State, e: Event, id: OrderId, selected: bool, active: bool, cancelled: bool)
    requires Enabled(s, e) && e != Select && Outcome(s, id, selected, active, cancelled)
    ensures Outcome(Apply(s, e), id, selected, active, cancelled || e == Cancel(id))
  {
  }

  lemma {:induction false} SelectedOutcome(ss: seq<State>, es: seq<Event>, k: nat, n: nat, id: OrderId)
    requires Run(ss, es) && k < n < |ss| && es[k] == Select && Quiet(es, k + 1, n, Select) && id in ss[k].table
    ensures var o := ss[k].table[id];
            Outcome(ss[n], id, Swept(o, ss[k].now), o.status == Active, CancelledIn(es, k, n, id))
  {
    assert Stepped(ss, es, n - 1);
    if n > k + 1 {
      SelectedOutcome(ss, es, k, n - 1, id);
      var o := ss[k].table[id];
      StepKeepsOutcome(ss[n - 1], es[n - 1], id, Swept(o, ss[k].now), o.status == Active,
                       CancelledIn(es, k, n - 1, id));
      assert CancelledIn(es, k, n, id) <==> CancelledIn(es, k, n - 1, id) || es[n - 1] == Cancel(id);
    }
  }

  /** The sweep is exact on every run, with credits, cancels and new orders in between: an order
      it looked at is left active, and not about to be ended, if and only if it was live when it
      was looked at and nobody cancelled it since. */
  lemma SweepLeavesLiveIff(ss: seq<State>, es: seq<Event>, k: nat, n: nat, id: OrderId)
    requires Run(ss, es) && k < n < |ss| && es[k] == Select && Quiet(es, k + 1, n, Select) && id in ss[k].table
    ensures id in ss[n].table
    ensures ss[n].table[id].status == Active && id !in ss[n].ending <==>
            ss[k].table[id].IsLive(ss[k].now) && !CancelledIn(es, k, n, id)
  {
    SelectedOutcome(ss, es, k, n, id);
    DeadlinesAreNotNegative(ss, es, k);
  }

  /** What is in an order's row, and drained for it but not written yet. */
  function Settled(s: State, id: OrderId): WorkDelta
    requires id in s.table
  {
    var o, b := s.table[id], Buffered(s.batch, id);
    WorkDelta(o.deliveredWork + b.work, o.acceptedShares + b.accepted, o.submittedShares + b.submitted)
  }

  lemma StepKeepsSettled(s: State, e: Event, id: OrderId)
    requires Enabled(s, e) && e != Drain && id in s.table
    ensures id in Apply(s, e).table && Settled(Apply(s, e), id) == Settled(s, id)
  {
  }

  lemma {:induction false} DrainedIsWritten(ss: seq<State>, es: seq<Event>, d: nat, n: nat, id: OrderId)
    requires Run(ss, es) && d < n < |ss| && es[d] == Drain && Quiet(es, d + 1, n, Drain) && id in ss[d].table
    ensures id in ss[n].table
    ensures var o, p := ss[d].table[id], Buffered(ss[d].pending, id);
            Settled(ss[n], id) ==
            WorkDelta(o.deliveredWork + p.work, o.acceptedShares + p.accepted, o.submittedShares + p.submitted)
  {
    assert Stepped(ss, es, n - 1);
    if n > d + 1 {
      DrainedIsWritten(ss, es, d, n - 1, id);
      StepKeepsSettled(ss[n - 1], es[n - 1], id);
    }
  }

  /** The flush is exact on every run, whatever happens in between and in whatever order the
      updates are made: a row that nothing drained is waiting for has grown by exactly what the
      buffer held for it at the drain. */
  lemma FlushWritesDrained(ss: seq<State>, es: seq<Event>, d: nat, n: nat, id: OrderId)
    requires Run(ss, es) && d < n < |ss| && es[d] == Drain && Quiet(es, d + 1, n, Drain) && id in ss[d].table
    requires id !in ss[n].batch
    ensures id in ss[n].table
    ensures var o, v := Written(ss[d].table[id], Buffered(ss[d].pending, id)), ss[n].table[id];
            && v.deliveredWork == o.deliveredWork && v.acceptedShares == o.acceptedShares
            && v.submittedShares == o.submittedShares
  {
    DrainedIsWritten(ss, es, d, n, id);
  }

  // --- one undisturbed round is the store's own flush and sweep ---

  lemma WriteKeepsFlushed(s: State, id: OrderId)
    requires Enabled(s, Write(id))
    ensures var t := Apply(s, Write(id)); Flushed(t.table, t.batch) == Flushed(s.table, s.batch)
  {
  }

  /** Whatever the order of the writes, a drain and the writes after it leave the table that
      `OrderStore.Flush` leaves. */
  lemma {:induction false} WritesAreFlush(ss: seq<State>, es: seq<Event>, d: nat, n: nat)
    requires Run(ss, es) && d < n < |ss| && es[d] == Drain && forall i | d < i < n :: es[i].Write?
    ensures Flushed(ss[n].table, ss[n].batch) == Flushed(ss[d].table, ss[d].pending)
    ensures ss[n].batch == map[] ==> ss[n].table == Flushed(ss[d].table, ss[d].pending)
  {
    assert Stepped(ss, es, n - 1);
    if n > d + 1 {
      WritesAreFlush(ss, es, d, n - 1);
      WriteKeepsFlushed(ss[n - 1], es[n - 1].id);
    }
    assert ss[n].batch == map[] ==> Flushed(ss[n].table, ss[n].batch) == ss[n].table;
  }

  lemma EndKeepsSwept(s: State, id: OrderId)
    requires Enabled(s, End(id)) && Swept(s.table[id], s.phase.at)
    ensures AfterSweep(Apply(s, End(id)).table, s.phase.at) == AfterSweep(s.table, s.phase.at)
  {
  }

  lemma NothingToSweep(table: Table, now: int)
    requires ToEnd(table, now) == {}
    ensures AfterSweep(table, now) == table
  {
    forall id | id in table ensures !Swept(table[id], now) {
      assert id !in ToEnd(table, now);
    }
  }

  /** Likewise a selection and the ends after it leave the table that `OrderStore.TakeExpired`
      leaves, whatever the order of the ends. */
  lemma {:induction false} EndsAreSweep(ss: seq<State>, es: seq<Event>, k: nat, n: nat)
    requires Run(ss, es) && k < n < |ss| && es[k] == Select && forall i | k < i < n :: es[i].End?
    ensures ss[n].phase == Ending(ss[k].now) && ss[n].ending <= ss[n].table.Keys
    ensures ss[n].ending == ToEnd(ss[n].table, ss[k].now)
    ensures AfterSweep(ss[n].table, ss[k].now) == AfterSweep(ss[k].table, ss[k].now)
    ensures ss[n].ending == {} ==> ss[n].table == AfterSweep(ss[k].table, ss[k].now)
  {
    assert Stepped(ss, es, n - 1);
    if n > k + 1 {
      EndsAreSweep(ss, es, k, n - 1);
      EndKeepsSwept(ss[n - 1], es[n - 1].id);
    }
    if ss[n].ending == {} {
      NothingToSweep(ss[n].table, ss[k].now);
    }
  }
}
