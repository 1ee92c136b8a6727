/** What holds over every run of an SV1 session: shares, attribution, replaced connections and
    swaps that fail. */
module Sv1Theorems {
  import opened Options
  import opened Types
  import opened Sv1
  import opened Sv1Protocol

  // --- shares ---

  predicate AcceptsTranslated(e: Event) {
    e.ByReader? && e.r.Accepts?
  }

  lemma StepCounts(book: OrderBook, w: World, e: Event)
    requires Enabled(book, w, e) && !AcceptsTranslated(e) && w.s.acceptedShares == w.byResponse
    ensures Apply(book, w, e).s.acceptedShares == Apply(book, w, e).byResponse
  {
    match e
    case ByLoop(l) => LoopBooksNothing(book, w, l);
    case ByReader(g, r) =>
      ReaderBooks(w, g, r);
      TotalsMoveByCredit(w.s, g, r);
    case BySwap(x) => SwapBooksNothing(book, w, x);
    case ForceReconnect =>
  }

  lemma {:induction false} OnlyResponses(book: OrderBook, ws: seq<World>, es: seq<Event>, n: nat)
    requires Run(book, ws, es) && n < |ws| && forall i | 0 <= i < n :: !AcceptsTranslated(es[i])
    ensures ws[n].s.acceptedShares == ws[n].byResponse
  {
    if n > 0 {
      OnlyResponses(book, ws, es, n - 1);
      assert Stepped(book, ws, es, n - 1);
      StepCounts(book, ws[n - 1], es[n - 1]);
    }
  }

  /** As long as no translator reports shares, what the pools accepted and what is still in
      flight never exceed what the miner submitted, and everything in flight went to the active
      connection. */
  lemma AcceptedWithinSubmitted(book: OrderBook, ws: seq<World>, es: seq<Event>, n: nat)
    requires Run(book, ws, es) && n < |ws| && forall i | 0 <= i < n :: !AcceptsTranslated(es[i])
    ensures ws[n].s.acceptedShares + |ws[n].s.pending| <= ws[n].s.submittedShares
    ensures forall id | id in ws[n].s.pending :: ws[n].s.pending[id].generation == ws[n].s.generation
  {
    RunInv(book, ws, es, n);
    OnlyResponses(book, ws, es, n);
  }

  predicate Submits(w: World, e: Event, id: string) {
    e == ByLoop(Submit(id)) && !w.s.translating
  }

  predicate AnswerTo(w: World, e: Event, id: string) {
    e.ByReader? && e.generation == w.s.generation && e.r.Takes? && e.r.msg.Response? && e.r.msg.id == id
  }

  /** The submit behind an entry in flight: made on the active connection, at the difficulty
      kept with it, and since then neither answered nor made again under the same id. */
  ghost predicate SubmittedAt(ws: seq<World>, es: seq<Event>, n: nat, id: string, f: InFlight, m: nat) {
    && |ws| == |es| + 1 && m < n <= |es|
    && Submits(ws[m], es[m], id) && ws[m].s.difficulty == f.difficulty && ws[m].s.generation == f.generation
    && forall i | m < i < n :: !Submits(ws[i], es[i], id) && !AnswerTo(ws[i], es[i], id)
  }

  lemma HoldPending(s: Sv1State, g: nat, r: ReaderEvent, id: string)
    requires id in Hold(s, g, r).0.pending
    ensures id in s.pending && s.pending[id] == Hold(s, g, r).0.pending[id]
    ensures !(g == s.generation && r.Takes? && r.msg.Response? && r.msg.id == id)
  {
  }

  lemma LoopPending(book: OrderBook, w: World, l: LoopEvent, id: string)
    requires LoopEnabled(book, w, l) && id in AfterLoop(book, w, l).s.pending
    ensures var f := AfterLoop(book, w, l).s.pending[id];
            if Submits(w, ByLoop(l), id) then f == InFlight(w.s.generation, w.s.difficulty)
            else id in w.s.pending && w.s.pending[id] == f
  {
  }

  lemma ReaderPending(w: World, g: nat, r: ReaderEvent, id: string)
    requires ReaderEnabled(w, g, r) && id in AfterReader(w, g, r).s.pending
    ensures id in w.s.pending && w.s.pending[id] == AfterReader(w, g, r).s.pending[id]
    ensures !AnswerTo(w, ByReader(g, r), id)
  {
    HoldPending(w.s, g, r, id);
  }

  lemma SwapPending(book: OrderBook, w: World, x: SwapEvent, id: string)
    requires SwapEnabled(book, w, x) && id in AfterSwap(book, w, x).s.pending
    ensures id in w.s.pending && w.s.pending[id] == AfterSwap(book, w, x).s.pending[id]
  {
  }

  lemma PendingStep(book: OrderBook, w: World, e: Event, id: string)
    requires Enabled(book, w, e) && id in Apply(book, w, e).s.pending
    ensures var f := Apply(book, w, e).s.pending[id];
            if Submits(w, e, id) then f == InFlight(w.s.generation, w.s.difficulty)
            else id in w.s.pending && w.s.pending[id] == f && !AnswerTo(w, e, id)
  {
    match e
    case ByLoop(l) => LoopPending(book, w, l, id);
    case ByReader(g, r) => ReaderPending(w, g, r, id);
    case BySwap(x) => SwapPending(book, w, x, id);
    case ForceReconnect =>
  }

  lemma {:induction false} PendingIsSubmitted(book: OrderBook, ws: seq<World>, es: seq<Event>, n: nat, id: string)
    returns (m: nat)
    requires Run(book, ws, es) && n < |ws| && id in ws[n].s.pending
    ensures SubmittedAt(ws, es, n, id, ws[n].s.pending[id], m)
  {
    assert n > 0;
    assert Stepped(book, ws, es, n - 1);
    PendingStep(book, ws[n - 1], es[n - 1], id);
    if Submits(ws[n - 1], es[n - 1], id) {
      m := n - 1;
    } else {
      m := PendingIsSubmitted(book, ws, es, n - 1, id);
    }
  }

  lemma CreditedLine(s: Sv1State, g: nat, msg: UpstreamMsg)
    requires OnUpstreamMsg(s, g, msg).2.Some?
    ensures g == s.generation && msg.Response? && msg.ok && msg.id in s.pending
    ensures OnUpstreamMsg(s, g, msg).2.value == Credit(g, s.routing, s.pending[msg.id].difficulty, 1)
  {
  }

  /** A share is credited for the difficulty recorded when it was submitted, to the connection it
      was submitted on, and for a submit that no earlier line answered: no submit is ever
      credited twice. */
  lemma CreditedAsSubmitted(book: OrderBook, ws: seq<World>, es: seq<Event>, n: nat) returns (m: nat)
    requires Run(book, ws, es) && n < |es| && es[n].ByReader? && es[n].r.Takes? && CreditOf(ws[n], es[n]).Some?
    ensures es[n].r.msg.Response? && es[n].r.msg.ok && AnswerTo(ws[n], es[n], es[n].r.msg.id)
    ensures es[n].r.msg.id in ws[n].s.pending
    ensures SubmittedAt(ws, es, n, es[n].r.msg.id, ws[n].s.pending[es[n].r.msg.id], m)
    ensures ws[n + 1].credits == ws[n].credits + [Credit(ws[n].s.generation, ws[n].s.routing, ws[m].s.difficulty, 1)]
  {
    assert Stepped(book, ws, es, n);
    CreditedLine(ws[n].s, es[n].generation, es[n].r.msg);
    StepCredits(book, ws[n], es[n]);
    m := PendingIsSubmitted(book, ws, es, n, es[n].r.msg.id);
  }

  // --- attribution ---

  /** The session is routed to what its connection leads to. */
  predicate InPlace(book: OrderBook, w: World) {
    Attributed(book, w.s.routing, w.s.target)
  }

  predicate Installs(e: Event) {
    e.BySwap? && e.x.Connect?
  }

  /** An attach of an order whose pools include the one the session is on at that moment. */
  predicate Fits(book: OrderBook, w: World) {
    w.arm.Checked? && PoolOf(book, w.arm.order, w.s.target)
  }

  lemma SwapPlaces(book: OrderBook, w: World, x: SwapEvent)
    requires PoolInv(book, w) && SwapEnabled(book, w, x)
    ensures x.Connect? ==> InPlace(book, AfterSwap(book, w, x))
    ensures !x.Connect? ==> AfterSwap(book, w, x).s.routing == w.s.routing
    ensures !x.Connect? ==> AfterSwap(book, w, x).s.target == w.s.target
  {
  }

  /** Exactly when a step leaves the session routed to what its connection leads to: an install
      always does, an attach if and only if the installed pool is one of the order's, and nothing
      else makes a difference. */
  lemma InPlaceIff(book: OrderBook, ws: seq<World>, es: seq<Event>, n: nat)
    requires Run(book, ws, es) && n < |es|
    ensures InPlace(book, ws[n + 1]) <==>
            if Installs(es[n]) then true
            else if es[n] == ByLoop(Attach) then Fits(book, ws[n])
            else InPlace(book, ws[n])
  {
    assert Stepped(book, ws, es, n);
    RunInv(book, ws, es, n);
    if es[n].BySwap? {
      SwapPlaces(book, ws[n], es[n].x);
    } else {
      OthersKeepPlace(book, ws[n], es[n]);
    }
  }

  /** Every attach up to a point found the session on one of its order's pools. */
  ghost predicate AttachesFit(book: OrderBook, ws: seq<World>, es: seq<Event>, n: nat) {
    |ws| == |es| + 1 && n <= |es| && forall i: nat | i < n && es[i] == ByLoop(Attach) :: Fits(book, ws[i])
  }

  lemma {:induction false} RunInPlace(book: OrderBook, ws: seq<World>, es: seq<Event>, n: nat)
    requires Run(book, ws, es) && n < |ws| && AttachesFit(book, ws, es, n)
    ensures InPlace(book, ws[n])
  {
    if n > 0 {
      RunInPlace(book, ws, es, n - 1);
      InPlaceIff(book, ws, es, n - 1);
    }
  }

  lemma LoopChecks(book: OrderBook, w: World, l: LoopEvent)
    requires LoopEnabled(book, w, l) && (w.arm.Checked? ==> Fits(book, w))
    ensures AfterLoop(book, w, l).arm.Checked? ==> Fits(book, AfterLoop(book, w, l))
  {
  }

  lemma SwapChecks(book: OrderBook, w: World, x: SwapEvent)
    requires SwapEnabled(book, w, x) && (w.arm.Checked? ==> Fits(book, w)) && !(x.Connect? && w.arm.Checked?)
    ensures AfterSwap(book, w, x).arm.Checked? ==> Fits(book, AfterSwap(book, w, x))
  {
  }

  lemma ReaderChecks(book: OrderBook, w: World, g: nat, r: ReaderEvent)
    requires ReaderEnabled(w, g, r) && (w.arm.Checked? ==> Fits(book, w))
    ensures AfterReader(w, g, r).arm.Checked? ==> Fits(book, AfterReader(w, g, r))
  {
    ReaderKeepsPlace(w, g, r);
  }

  /** The check and the attach are two holds of the lock, without the `switch` lock. As long as
      no swap installs a connection in between, the attach fits. */
  lemma {:induction false} UndividedAttachFits(book: OrderBook, ws: seq<World>, es: seq<Event>, n: nat)
    requires Run(book, ws, es) && n < |ws|
    requires forall i: nat | i < n && Installs(es[i]) :: !ws[i].arm.Checked?
    ensures ws[n].arm.Checked? ==> Fits(book, ws[n])
  {
    if n > 0 {
      UndividedAttachFits(book, ws, es, n - 1);
      assert Stepped(book, ws, es, n - 1);
      match es[n - 1]
      case ByLoop(l) => LoopChecks(book, ws[n - 1], l);
      case ByReader(g, r) => ReaderChecks(book, ws[n - 1], g, r);
      case BySwap(x) => SwapChecks(book, ws[n - 1], x);
      case ForceReconnect =>
    }
  }

  /** A credit to an order comes over a connection to one of the order's pools if and only if
      the session was in place when it was made. */
  lemma CreditAttributedIff(book: OrderBook, ws: seq<World>, es: seq<Event>, n: nat)
    requires Run(book, ws, es) && n < |es| && CreditOf(ws[n], es[n]).Some?
    ensures var c := CreditOf(ws[n], es[n]).value;
            && ws[n + 1].credits == ws[n].credits + [c]
            && c.generation in ws[n + 1].pools
            && (Attributed(book, c.routing, ws[n + 1].pools[c.generation]) <==> InPlace(book, ws[n]))
  {
    assert Stepped(book, ws, es, n);
    RunInv(book, ws, es, n);
    StepCredits(book, ws[n], es[n]);
    TotalsMoveByCredit(ws[n].s, es[n].generation, es[n].r);
    OthersKeepPlace(book, ws[n], es[n]);
  }

  predicate FromItsPool(book: OrderBook, pools: map<nat, UpstreamTarget>, c: Credit) {
    c.generation in pools && Attributed(book, c.routing, pools[c.generation])
  }

  lemma {:induction false} RunFromPools(book: OrderBook, ws: seq<World>, es: seq<Event>, n: nat)
    requires Run(book, ws, es) && n < |ws| && AttachesFit(book, ws, es, n)
    ensures forall c | c in ws[n].credits :: FromItsPool(book, ws[n].pools, c)
  {
    if n > 0 {
      RunFromPools(book, ws, es, n - 1);
      RunInPlace(book, ws, es, n - 1);
      assert Stepped(book, ws, es, n - 1);
      StepCredits(book, ws[n - 1], es[n - 1]);
      GenerationsGrow(book, ws, es, n - 1, n);
      if CreditOf(ws[n - 1], es[n - 1]).Some? {
        CreditAttributedIff(book, ws, es, n - 1);
      }
    }
  }

  /** What the session delivered is the sum of its credits, split over idle and the orders; and
      if every attach fits, every credit to an order came over a connection to one of the
      order's own pools. */
  lemma CreditsAreAttributed(book: OrderBook, ws: seq<World>, es: seq<Event>, n: nat, routings: set<Routing>)
    requires Run(book, ws, es) && n < |ws|
    requires forall c | c in ws[n].credits :: c.routing in routings
    ensures ws[n].s.deliveredWork == SumOver(ws[n].credits, routings)
    ensures ws[n].s.acceptedShares == TotalShares(ws[n].credits)
    ensures AttachesFit(book, ws, es, n) ==>
              InPlace(book, ws[n]) &&
              forall c | c in ws[n].credits && c.routing.Rented? ::
                c.generation in ws[n].pools && PoolOf(book, c.routing.orderId, ws[n].pools[c.generation])
  {
    RunInv(book, ws, es, n);
    TotalSplitsByRouting(ws[n].credits, routings);
    if AttachesFit(book, ws, es, n) {
      RunInPlace(book, ws, es, n);
      RunFromPools(book, ws, es, n);
      forall c | c in ws[n].credits && c.routing.Rented?
        ensures c.generation in ws[n].pools && PoolOf(book, c.routing.orderId, ws[n].pools[c.generation])
      {
        assert FromItsPool(book, ws[n].pools, c);
      }
    }
  }

  /** Attaching to the first order on the pool both orders name, then past the check for the second. */
  lemma BeginsSecondAttach(book: OrderBook, first: OrderId, second: OrderId, raw: RawUpstream)
    returns (ws: seq<World>, es: seq<Event>)
    requires first in book && second in book && book[first].primary == book[second].primary
    ensures Run(book, ws, es) && |es| == 3
    ensures ws[3].arm == Checked(second) && ws[3].swap.None?
  {
    var pool := book[first].primary;
    ws, es := [Start(pool, raw)], [];
    assert Run(book, ws, es) by {
      assert ws[0] == Start(pool, raw);
    }
    ws, es := Extend(book, ws, es, ByLoop(CheckPool(first)));
    ws, es := Extend(book, ws, es, ByLoop(Attach));
    ws, es := Extend(book, ws, es, ByLoop(CheckPool(second)));
  }

  /** An attach that does not fit happens: a miner attached to one order passes the check for
      another on the same primary pool, the session fails over to the first order's fallback, and
      the second order is attached there. */
  lemma DividedAttachIsMisplaced(book: OrderBook, first: OrderId, second: OrderId, fallback: UpstreamTarget,
                                 raw: RawUpstream)
    returns (ws: seq<World>, es: seq<Event>)
    requires first in book && second in book && book[first].primary == book[second].primary
    requires book[first].fallback == Some(fallback) && !PoolOf(book, second, fallback)
    ensures Run(book, ws, es) && |es| == 6 && ws[6].s.routing == Rented(second) && !InPlace(book, ws[6])
  {
    ws, es := BeginsSecondAttach(book, first, second, raw);
    ws, es := Extend(book, ws, es, BySwap(Begin(fallback, Rented(first))));
    ws, es := Extend(book, ws, es, BySwap(Connect(raw)));
    ws, es := Extend(book, ws, es, ByLoop(Attach));
  }

  // --- replaced connections ---

  lemma SwapGrows(book: OrderBook, w: World, x: SwapEvent)
    requires GenerationInv(w) && PoolInv(book, w) && SwapEnabled(book, w, x)
    ensures var v := AfterSwap(book, w, x);
            && w.s.generation <= v.s.generation && (x.Connect? ==> w.s.generation < v.s.generation)
            && (forall g | g in w.pools :: g in v.pools && v.pools[g] == w.pools[g])
  {
  }

  /** Generations never fall, and the pool one was connected to never changes. */
  lemma {:induction false} GenerationsGrow(book: OrderBook, ws: seq<World>, es: seq<Event>, i: nat, j: nat)
    requires Run(book, ws, es) && i <= j < |ws|
    ensures ws[i].s.generation <= ws[j].s.generation
    ensures forall g | g in ws[i].pools :: g in ws[j].pools && ws[j].pools[g] == ws[i].pools[g]
  {
    if i < j {
      GenerationsGrow(book, ws, es, i, j - 1);
      RunInv(book, ws, es, j - 1);
      assert Stepped(book, ws, es, j - 1);
      if es[j - 1].BySwap? {
        SwapGrows(book, ws[j - 1], es[j - 1].x);
      } else {
        OthersKeepPlace(book, ws[j - 1], es[j - 1]);
      }
    }
  }

  /** The connection installed before a swap's install at i, and replaced by it. */
  ghost predicate ReplacedAt(book: OrderBook, ws: seq<World>, es: seq<Event>, i: nat, g: nat) {
    Run(book, ws, es) && i < |es| && Installs(es[i]) && ws[i].s.generation == g
  }

  lemma IsReplaced(book: OrderBook, ws: seq<World>, es: seq<Event>, i: nat, j: nat, g: nat)
    requires ReplacedAt(book, ws, es, i, g) && i < j < |ws|
    ensures g < ws[j].s.generation
  {
    RunInv(book, ws, es, i);
    assert Stepped(book, ws, es, i);
    SwapGrows(book, ws[i], es[i].x);
    GenerationsGrow(book, ws, es, i + 1, j);
  }

  lemma StaleHoldDoesNothing(s: Sv1State, g: nat, r: ReaderEvent)
    requires g != s.generation
    ensures Hold(s, g, r) == (s, None, None)
  {
  }

  /** Whatever a replaced connection still does, the session stays as it is and nothing is
      credited; and a line goes to the miner if and only if its reader sends what it had in hand
      or a translator's reader answers a submit. */
  lemma ReplacedSendsIff(book: OrderBook, ws: seq<World>, es: seq<Event>, i: nat, j: nat, g: nat)
    requires ReplacedAt(book, ws, es, i, g) && i < j < |es| && es[j].ByReader? && es[j].generation == g
    ensures ws[j + 1].s == ws[j].s && ws[j + 1].credits == ws[j].credits && ws[j + 1].pools == ws[j].pools
    ensures ws[j + 1].lines != ws[j].lines <==> es[j].r.Sends? || es[j].r.Answers?
  {
    IsReplaced(book, ws, es, i, j, g);
    assert Stepped(book, ws, es, j);
    StaleHoldDoesNothing(ws[j].s, g, es[j].r);
  }

  lemma OthersKeepHand(book: OrderBook, w: World, e: Event, g: nat)
    requires Enabled(book, w, e) && !(e.ByReader? && e.generation == g)
    ensures var v := Apply(book, w, e);
            && (g in v.hands <==> g in w.hands) && (g in w.hands ==> v.hands[g] == w.hands[g])
            && (w.s.generation != g ==> AskedOf(v, g) == AskedOf(w, g))
  {
    match e
    case ByLoop(l) => LoopKeepsHand(book, w, l, g);
    case BySwap(x) => SwapKeepsHand(book, w, x);
    case _ =>
  }

  lemma LoopKeepsHand(book: OrderBook, w: World, l: LoopEvent, g: nat)
    requires LoopEnabled(book, w, l)
    ensures AfterLoop(book, w, l).hands == w.hands
    ensures w.s.generation != g ==> AskedOf(AfterLoop(book, w, l), g) == AskedOf(w, g)
  {
  }

  lemma SwapKeepsHand(book: OrderBook, w: World, x: SwapEvent)
    requires SwapEnabled(book, w, x)
    ensures AfterSwap(book, w, x).hands == w.hands && AfterSwap(book, w, x).asked == w.asked
  {
  }

  /** The line a replaced connection's reader has in hand is the one it had before the install,
      checked while the connection was the active one; once it is sent there is no other. The
      submits it may still answer are among those it had then. */
  lemma {:induction false} ReplacedHand(book: OrderBook, ws: seq<World>, es: seq<Event>, i: nat, j: nat, g: nat)
    requires ReplacedAt(book, ws, es, i, g) && i < j < |ws|
    ensures g in ws[j].hands ==> g in ws[i].hands && ws[j].hands[g] == ws[i].hands[g]
    ensures forall k: nat | i < k < j && es[k] == ByReader(g, Sends) :: g !in ws[j].hands
    ensures multiset(AskedOf(ws[j], g)) <= multiset(AskedOf(ws[i], g))
  {
    var w, e := ws[j - 1], es[j - 1];
    assert Stepped(book, ws, es, j - 1);
    if j == i + 1 {
      SwapKeepsHand(book, w, e.x);
    } else {
      ReplacedHand(book, ws, es, i, j - 1, g);
      IsReplaced(book, ws, es, i, j - 1, g);
      if e.ByReader? && e.generation == g {
        StaleHoldDoesNothing(w.s, g, e.r);
        StaleReaderSteps(w, g, e.r);
      } else {
        OthersKeepHand(book, w, e, g);
      }
    }
  }

  lemma StaleReaderSteps(w: World, g: nat, r: ReaderEvent)
    requires ReaderEnabled(w, g, r) && g != w.s.generation
    ensures var v := AfterReader(w, g, r);
            && g !in v.hands
            && multiset(AskedOf(v, g)) <= multiset(AskedOf(w, g))
  {
    match r
    case Answers(k, ok) => OneLess(AskedOf(w, g), k);
    case _ => StaleHoldDoesNothing(w.s, g, r);
  }

  lemma OneLess(q: seq<string>, k: nat)
    requires k < |q|
    ensures multiset(q[..k] + q[k + 1..]) <= multiset(q)
  {
    assert q == q[..k] + [q[k]] + q[k + 1..];
  }

  /** So after a connection is replaced the miner gets from it at most the one line its reader
      had in hand, and results for submits it was given before; every other line of it is
      dropped. */
  lemma ReplacedIsSilenced(book: OrderBook, ws: seq<World>, es: seq<Event>, i: nat, j: nat, g: nat)
    requires ReplacedAt(book, ws, es, i, g) && i < j < |es| && es[j].ByReader? && es[j].generation == g
    ensures var r := es[j].r;
            && (r.Sends? ==> g in ws[i].hands && ws[j + 1].lines == ws[j].lines + [ws[i].hands[g]] &&
                             forall k: nat | i < k < j :: es[k] != ByReader(g, Sends))
            && (r.Answers? ==> r.k < |AskedOf(ws[j], g)| && AskedOf(ws[j], g)[r.k] in AskedOf(ws[i], g) &&
                               ws[j + 1].lines == ws[j].lines + [Result(AskedOf(ws[j], g)[r.k], r.ok)])
            && (!r.Sends? && !r.Answers? ==> ws[j + 1].lines == ws[j].lines)
  {
    assert Stepped(book, ws, es, j);
    ReplacedHand(book, ws, es, i, j, g);
    ReplacedSendsIff(book, ws, es, i, j, g);
    if es[j].r.Answers? {
      var id := AskedOf(ws[j], g)[es[j].r.k];
      assert id in multiset(AskedOf(ws[j], g));
    }
  }

  predicate OnTranslation(w: World, text: string, id: string) {
    && w.s.generation == 1 && w.s.generationCounter == 1 && w.swap.None? && 1 in w.pools
    && w.hands == map[1 := Translated(text)] && AskedOf(w, 1) == [id]
  }

  lemma SubscribesAndSubmits(book: OrderBook, w: World, text: string, id: string)
    requires w == Start(w.s.target, Translation(w.s.extranonce, w.s.difficulty))
    ensures LoopEnabled(book, w, ReadExtranonce) && var w1 := AfterLoop(book, w, ReadExtranonce);
            && LoopEnabled(book, w1, Reply) && var w2 := AfterLoop(book, w1, Reply);
            && LoopEnabled(book, w2, TakePrelude) && var w3 := AfterLoop(book, w2, TakePrelude);
            && LoopEnabled(book, w3, HandOut) && var w4 := AfterLoop(book, w3, HandOut);
            && LoopEnabled(book, w4, HandOut) && var w5 := AfterLoop(book, w4, HandOut);
            && LoopEnabled(book, w5, Submit(id)) && var w6 := AfterLoop(book, w5, Submit(id));
            && ReaderEnabled(w6, 1, Translates(text)) && OnTranslation(AfterReader(w6, 1, Translates(text)), text, id)
  {
  }

  lemma BeginsOnTranslation(book: OrderBook, pool: UpstreamTarget, en: Extranonce, text: string, id: string)
    returns (ws: seq<World>, es: seq<Event>)
    ensures Run(book, ws, es) && |es| == 7 && OnTranslation(ws[7], text, id)
  {
    ws, es := [Start(pool, Translation(en, 1.0))], [];
    assert Run(book, ws, es) by {
      assert ws[0] == Start(pool, Translation(en, 1.0));
    }
    SubscribesAndSubmits(book, ws[0], text, id);
    ws, es := Extend(book, ws, es, ByLoop(ReadExtranonce));
    ws, es := Extend(book, ws, es, ByLoop(Reply));
    ws, es := Extend(book, ws, es, ByLoop(TakePrelude));
    ws, es := Extend(book, ws, es, ByLoop(HandOut));
    ws, es := Extend(book, ws, es, ByLoop(HandOut));
    ws, es := Extend(book, ws, es, ByLoop(Submit(id)));
    ws, es := Extend(book, ws, es, ByReader(1, Translates(text)));
  }

  /** Both kinds do go out: a run in which a job of the old pool and a result of a submit to it
      reach the miner after the new connection is installed, and the share is not credited. */
  lemma ReplacedStillSpeaks(book: OrderBook, pool: UpstreamTarget, en: Extranonce, text: string, id: string)
    returns (ws: seq<World>, es: seq<Event>)
    ensures Run(book, ws, es) && |es| == 11 && ReplacedAt(book, ws, es, 8, 1)
    ensures ws[11].lines == ws[9].lines + [Translated(text), Result(id, true)] && ws[11].credits == ws[9].credits
  {
    ws, es := BeginsOnTranslation(book, pool, en, text, id);
    ReplacesAndSpeaks(book, ws[7], pool, en, text, id);
    ws, es := Extend(book, ws, es, BySwap(Begin(pool, Idle)));
    ws, es := Extend(book, ws, es, BySwap(Connect(Passthrough(en, []))));
    ws, es := Extend(book, ws, es, ByReader(1, Sends));
    ws, es := Extend(book, ws, es, ByReader(1, Answers(0, true)));
  }

  lemma ReplacesAndSpeaks(book: OrderBook, w: World, pool: UpstreamTarget, en: Extranonce, text: string, id: string)
    requires OnTranslation(w, text, id)
    ensures SwapEnabled(book, w, Begin(pool, Idle)) && var w1 := AfterSwap(book, w, Begin(pool, Idle));
            && w1.s.generation == 1 && SwapEnabled(book, w1, Connect(Passthrough(en, []))) &&
            var w2 := AfterSwap(book, w1, Connect(Passthrough(en, [])));
            && ReaderEnabled(w2, 1, Sends) && var w3 := AfterReader(w2, 1, Sends);
            && ReaderEnabled(w3, 1, Answers(0, true)) && var w4 := AfterReader(w3, 1, Answers(0, true));
            w4.lines == w2.lines + [Translated(text), Result(id, true)] && w4.credits == w2.credits
  {
  }

  // --- swaps that fail ---

  /** The same session with another swap under way and another count of them. */
  function Aside(w: World, swap: Option<Swap>, counter: nat): World {
    w.(swap := swap, s := w.s.(generationCounter := counter))
  }

  lemma HoldIgnoresCounter(s: Sv1State, g: nat, r: ReaderEvent, counter: nat)
    ensures var (t, line, credit) := Hold(s, g, r);
            Hold(s.(generationCounter := counter), g, r) == (t.(generationCounter := counter), line, credit)
  {
  }

  lemma ReaderIgnoresSwap(w: World, g: nat, r: ReaderEvent, swap: Option<Swap>, counter: nat)
    requires ReaderEnabled(w, g, r)
    ensures ReaderEnabled(Aside(w, swap, counter), g, r)
    ensures AfterReader(Aside(w, swap, counter), g, r) == Aside(AfterReader(w, g, r), swap, counter)
  {
    HoldIgnoresCounter(w.s, g, r, counter);
  }

  lemma LoopIgnoresSwap(book: OrderBook, w: World, l: LoopEvent, swap: Option<Swap>, counter: nat)
    requires LoopEnabled(book, w, l)
    ensures LoopEnabled(book, Aside(w, swap, counter), l)
    ensures AfterLoop(book, Aside(w, swap, counter), l) == Aside(AfterLoop(book, w, l), swap, counter)
  {
    match l
    case Submit(id) => SubmitIgnoresSwap(w, id, swap, counter);
    case HandOut => HandOutIgnoresSwap(book, w, swap, counter);
    case _ =>
  }

  lemma SubmitIgnoresSwap(w: World, id: string, swap: Option<Swap>, counter: nat)
    ensures AfterSubmit(Aside(w, swap, counter), id) == Aside(AfterSubmit(w, id), swap, counter)
  {
  }

  lemma HandOutIgnoresSwap(book: OrderBook, w: World, swap: Option<Swap>, counter: nat)
    requires LoopEnabled(book, w, HandOut)
    ensures AfterLoop(book, Aside(w, swap, counter), HandOut) == Aside(AfterLoop(book, w, HandOut), swap, counter)
  {
  }

  /** Nobody but a swap notices one. */
  lemma OthersIgnoreSwap(book: OrderBook, w: World, e: Event, swap: Option<Swap>, counter: nat)
    requires Enabled(book, w, e) && !e.BySwap?
    ensures Enabled(book, Aside(w, swap, counter), e)
    ensures Apply(book, Aside(w, swap, counter), e) == Aside(Apply(book, w, e), swap, counter)
  {
    match e
    case ByLoop(l) => LoopIgnoresSwap(book, w, l, swap, counter);
    case ByReader(g, r) => ReaderIgnoresSwap(w, g, r, swap, counter);
    case _ =>
  }

  /** The worlds the given events lead through from the first. */
  ghost predicate Leads(book: OrderBook, vs: seq<World>, es: seq<Event>) {
    |vs| == |es| + 1 && forall k: nat | k < |es| :: Stepped(book, vs, es, k)
  }

  lemma {:induction false} FollowWithout(book: OrderBook, ws: seq<World>, es: seq<Event>, i: nat, j: nat)
    returns (vs: seq<World>)
    requires Run(book, ws, es) && i < j < |ws| && es[i].BySwap? && es[i].x.Begin?
    requires forall k | i < k < j :: !es[k].BySwap?
    ensures Leads(book, vs, es[i + 1..j]) && vs[0] == ws[i]
    ensures ws[j].swap.Some? && ws[j] == Aside(vs[j - i - 1], ws[j].swap, ws[i].s.generationCounter + 1)
    ensures vs[j - i - 1].swap.None? && vs[j - i - 1].s.generationCounter == ws[i].s.generationCounter
  {
    assert Stepped(book, ws, es, j - 1);
    if j == i + 1 {
      vs := [ws[i]];
      assert es[i + 1..j] == [];
    } else {
      var before := FollowWithout(book, ws, es, i, j - 1);
      var v, e := before[j - i - 2], es[j - 1];
      OthersIgnoreSwap(book, ws[j - 1], e, None, ws[i].s.generationCounter);
      assert v == Aside(ws[j - 1], None, ws[i].s.generationCounter);
      vs := before + [Apply(book, v, e)];
      LeadsFurther(book, before, es[i + 1..j - 1], e);
      assert es[i + 1..j] == es[i + 1..j - 1] + [e];
      OthersKeepPlace(book, v, e);
      OthersKeepPlace(book, ws[j - 1], e);
    }
  }

  lemma LeadsFurther(book: OrderBook, vs: seq<World>, es: seq<Event>, e: Event)
    requires Leads(book, vs, es) && Enabled(book, vs[|es|], e)
    ensures Leads(book, vs + [Apply(book, vs[|es|], e)], es + [e])
  {
    var us, fs := vs + [Apply(book, vs[|es|], e)], es + [e];
    forall k: nat | k < |fs| ensures Stepped(book, us, fs, k) {
      if k < |es| {
        assert Stepped(book, vs, es, k);
      }
    }
  }

  /** A swap that cannot connect is invisible: whatever the loop and the readers did while it
      tried, the same events without the swap lead from where it began to the same session, with
      the same lines handed out, the same credits and everything else alike, but for the count
      of swaps. */
  lemma FailedSwapIsInvisible(book: OrderBook, ws: seq<World>, es: seq<Event>, i: nat, j: nat)
      returns (vs: seq<World>)
    requires Run(book, ws, es) && i < j < |es| && es[i].BySwap? && es[i].x.Begin? && es[j] == BySwap(Fail)
    requires forall k | i < k < j :: !es[k].BySwap?
    ensures Leads(book, vs, es[i + 1..j]) && vs[0] == ws[i]
    ensures ws[j + 1] == Aside(vs[j - i - 1], None, ws[i].s.generationCounter + 1)
  {
    vs := FollowWithout(book, ws, es, i, j);
    assert Stepped(book, ws, es, j);
  }
}
