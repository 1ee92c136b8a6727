/** Entities shared by the relays: where hashrate goes and what a miner asked for
    (`src/session.rs`, `OpenSpec` and `ChannelInfo` of `src/proto/sv2/relay.rs`). */
module Types {
  import opened Bytes
  import opened Options

  type OrderId = string
  type Worker = string

  /** An upstream the proxy connects to as a client (a pool). */
  datatype UpstreamTarget = UpstreamTarget(url: string, user: string, password: string, authority: Option<string>)

  /** Where a rig's hashrate currently goes. */
  datatype Routing = Idle | Rented(orderId: OrderId)

  /** The order a session is rented to, if any. */
  function OrderOf(routing: Routing): Option<OrderId> {
    match routing
    case Rented(order) => Some(order)
    case Idle => None
  }

  /** The pools an order may be routed to: its primary target and its optional fallback. */
  datatype OrderPools = OrderPools(primary: UpstreamTarget, fallback: Option<UpstreamTarget>)

  type OrderBook = map<OrderId, OrderPools>

  /** `pool` is the primary or the fallback target of `order`. */
  predicate PoolOf(book: OrderBook, order: OrderId, pool: UpstreamTarget) {
    && order in book
    && (pool == book[order].primary || book[order].fallback == Some(pool))
  }

  /** An upstream that is rented out leads to one of the rental's own pools. */
  predicate Attributed(book: OrderBook, routing: Routing, target: UpstreamTarget) {
    routing.Rented? ==> PoolOf(book, routing.orderId, target)
  }

  /** Work credited in one lock hold: the connection it came over, where it was routed,
      diff-1 work and the number of accepted shares. */
  datatype Credit = Credit(generation: nat, routing: Routing, work: real, shares: nat)

  function TotalWork(credits: seq<Credit>): real {
    if credits == [] then 0.0 else TotalWork(credits[..|credits| - 1]) + credits[|credits| - 1].work
  }

  function TotalShares(credits: seq<Credit>): nat {
    if credits == [] then 0 else TotalShares(credits[..|credits| - 1]) + credits[|credits| - 1].shares
  }

  /** The part of a credit log that went to one routing (one order, or idle). */
  function CreditsTo(credits: seq<Credit>, routing: Routing): seq<Credit> {
    if credits == [] then []
    else
      var rest := CreditsTo(credits[..|credits| - 1], routing);
      var last := credits[|credits| - 1];
      if last.routing == routing then rest + [last] else rest
  }

  /** Totals over a set of routings, each credited separately. */
  ghost function SumOver(credits: seq<Credit>, routings: set<Routing>): real {
    if routings == {} then 0.0
    else
      var r :| r in routings;
      TotalWork(CreditsTo(credits, r)) + SumOver(credits, routings - {r})
  }

  /** Adding one credit raises the share of its own routing by its work and no other share. */
  lemma {:induction false} SumOverSnoc(credits: seq<Credit>, c: Credit, routings: set<Routing>)
    ensures SumOver(credits + [c], routings) ==
            SumOver(credits, routings) + (if c.routing in routings then c.work else 0.0)
    decreases routings
  {
    assert (credits + [c])[..|credits|] == credits;
    if routings != {} {
      var r :| r in routings &&
        SumOver(credits, routings) == TotalWork(CreditsTo(credits, r)) + SumOver(credits, routings - {r});
      SumOverPick(credits + [c], routings, r);
      var to := CreditsTo(credits, r);
      assert (to + [c])[..|to|] == to;
      SumOverSnoc(credits, c, routings - {r});
    }
  }

  /** A sum over routings may be started at any of them. */
  lemma {:induction false} SumOverPick(credits: seq<Credit>, routings: set<Routing>, r: Routing)
    requires r in routings
    ensures SumOver(credits, routings) == TotalWork(CreditsTo(credits, r)) + SumOver(credits, routings - {r})
    decreases routings
  {
    var q :| q in routings &&
      SumOver(credits, routings) == TotalWork(CreditsTo(credits, q)) + SumOver(credits, routings - {q});
    if q != r {
      SumOverPick(credits, routings - {q}, r);
      SumOverPick(credits, routings - {r}, q);
      assert routings - {q} - {r} == routings - {r} - {q};
    }
  }

  /** Every credit is counted to exactly one routing: the total splits into the idle
      part and one part per order. */
  lemma {:induction false} TotalSplitsByRouting(credits: seq<Credit>, routings: set<Routing>)
    requires forall c :: c in credits ==> c.routing in routings
    ensures TotalWork(credits) == SumOver(credits, routings)
  {
    if credits == [] {
      NothingCredited(routings);
    } else {
      var init, last := credits[..|credits| - 1], credits[|credits| - 1];
      assert credits == init + [last];
      TotalSplitsByRouting(init, routings);
      SumOverSnoc(init, last, routings);
    }
  }

  lemma {:induction false} NothingCredited(routings: set<Routing>)
    ensures SumOver([], routings) == 0.0
    decreases routings
  {
    if routings != {} {
      var r :| r in routings && SumOver([], routings) == TotalWork(CreditsTo([], r)) + SumOver([], routings - {r});
      assert CreditsTo([], r) == [];
      NothingCredited(routings - {r});
    }
  }

  /** A miner's channel-open request, kept to re-open it against each upstream. */
  datatype OpenSpec =
    | Standard(requestId: nat, nominalHashRate: real, maxTarget: seq<byte>)
    | Extended(requestId: nat, nominalHashRate: real, maxTarget: seq<byte>, minExtranonceSize: nat)

  /** An upstream's answer to a channel open. */
  datatype ChannelInfo = ChannelInfo(
    requestId: nat, upChannelId: nat, extranoncePrefix: seq<byte>, target: seq<byte>,
    extranonceSize: nat, groupChannelId: nat)
}
