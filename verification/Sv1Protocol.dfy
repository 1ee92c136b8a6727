/** An SV1 session as a protocol: the miner's loop, the readers of any number of upstream
    connections, and swaps that take the `switch` lock for their whole length, interleaved in any
    order. One step is one hold of the session's lock, or one line handed to the miner: what a
    hold decides to send goes out in a later step. */
module Sv1Protocol {
  import opened Options
  import opened Types
  import opened Sv1

  /** A swap under way: begun; installed, with the extranonce the miner has to be told; told; or
      handing out the lines that waited. */
  datatype Stage = Connecting | Installed(extranonce: Extranonce) | Told | Handing(lines: seq<Line>)

  datatype Swap = Swap(generation: nat, capable: bool, target: UpstreamTarget, routing: Routing, stage: Stage)

  /** What the miner's loop is at: nothing; answering a subscribe, by reading the extranonce,
      replying and handing out what waited; or past the check that the worker's order needs no
      switch. */
  datatype Arm =
    | Waiting
    | Read(extranonce: Extranonce)
    | Replied
    | Flushing(lines: seq<Line>)
    | Checked(order: OrderId)

  /** `hands` has the line each connection's reader is about to send, and `asked` the submits each
      translated connection was given and has not answered. `lines` are the lines handed to the
      miner, `told` is the extranonce last handed to it and `reconnect` that it was told to come
      back; `byResponse` counts the shares accepted by an answered submit. */
  datatype World = World(
    s: Sv1State, swap: Option<Swap>, arm: Arm, hands: map<nat, Line>, asked: map<nat, seq<string>>,
    told: Option<Extranonce>, reconnect: bool, lines: seq<Line>,
    pools: map<nat, UpstreamTarget>, credits: seq<Credit>, byResponse: nat)

  datatype LoopEvent =
    | ReadExtranonce
    | Reply
    | TakePrelude
    | HandOut
    | ExtranonceSubscribe
    | Submit(id: string)
    | SetDefault(target: UpstreamTarget)
    | CheckPool(order: OrderId)
    | Attach

  /** A reader takes in a line or a translator's report, or sends what it has in hand; a
      translator's reader also answers submits. */
  datatype ReaderEvent =
    | Takes(msg: UpstreamMsg)
    | Translates(text: string)
    | Retargets(difficulty: real)
    | Accepts(count: nat)
    | Sends
    | Answers(k: nat, ok: bool)

  datatype SwapEvent =
    | Begin(target: UpstreamTarget, routing: Routing)
    | Fail
    | Connect(raw: RawUpstream)
    | Tell
    | Take
    | Hand

  datatype Event =
    | ByLoop(l: LoopEvent)
    | ByReader(generation: nat, r: ReaderEvent)
    | BySwap(x: SwapEvent)
    | ForceReconnect

  /** The miner's loop does one thing at a time. */
  predicate LoopEnabled(book: OrderBook, w: World, l: LoopEvent) {
    match l
    case Reply => w.arm.Read?
    case TakePrelude => w.arm.Replied?
    case HandOut => w.arm.Flushing?
    case Attach => w.arm.Checked?
    case CheckPool(order) => w.arm.Waiting? && order in book
    case _ => w.arm.Waiting?
  }

  /** So does each reader: it sends what it has in hand before it goes on. */
  predicate ReaderEnabled(w: World, g: nat, r: ReaderEvent) {
    g in w.pools && (r.Sends? <==> g in w.hands) && (r.Answers? ==> r.k < |AskedOf(w, g)|)
  }

  /** One swap at a time holds the `switch` lock. Every caller passes an order together with one
      of the order's own pools. */
  predicate SwapEnabled(book: OrderBook, w: World, x: SwapEvent) {
    match x
    case Begin(target, routing) => w.swap.None? && Attributed(book, routing, target)
    case Fail => w.swap.Some? && w.swap.value.stage.Connecting?
    case Connect(_) => w.swap.Some? && w.swap.value.stage.Connecting?
    case Tell => w.swap.Some? && w.swap.value.stage.Installed?
    case Take => w.swap.Some? && w.swap.value.stage.Told?
    case Hand => w.swap.Some? && w.swap.value.stage.Handing?
  }

  predicate Enabled(book: OrderBook, w: World, e: Event) {
    match e
    case ByLoop(l) => LoopEnabled(book, w, l)
    case ByReader(g, r) => ReaderEnabled(w, g, r)
    case BySwap(x) => SwapEnabled(book, w, x)
    case ForceReconnect => true
  }

  function AskedOf(w: World, g: nat): seq<string> {
    if g in w.asked then w.asked[g] else []
  }

  function AfterSubmit(w: World, id: string): World {
    var g := w.s.generation;
    w.(s := OnSubmit(w.s, id), asked := if w.s.translating then w.asked[g := AskedOf(w, g) + [id]] else w.asked)
  }

  function AfterLoop(book: OrderBook, w: World, l: LoopEvent): World
    requires LoopEnabled(book, w, l)
  {
    match l
    case ReadExtranonce => w.(arm := Read(w.s.extranonce))
    case Reply =>
      var en := w.arm.extranonce;
      w.(arm := Replied, told := Some(en), lines := w.lines + [SubscribeReply(en)])
    case TakePrelude => w.(arm := Flushing(w.s.prelude), s := w.s.(subscribed := true, prelude := []))
    case HandOut =>
      var q := w.arm.lines;
      if q == [] then w.(arm := Waiting) else w.(arm := Flushing(q[1..]), lines := w.lines + [q[0]])
    case ExtranonceSubscribe => w.(s := w.s.(capable := true))
    case Submit(id) => AfterSubmit(w, id)
    case SetDefault(target) => w.(s := w.s.(defaultTarget := target))
    case CheckPool(order) => if book[order].primary == w.s.target then w.(arm := Checked(order)) else w
    case Attach => w.(arm := Waiting, s := w.s.(routing := Rented(w.arm.order)))
  }

  function WithCredit(credits: seq<Credit>, credit: Option<Credit>): seq<Credit> {
    if credit.Some? then credits + [credit.value] else credits
  }

  /** What one hold of the lock by a reader does to the session: the state after it, the line it
      will send, and the credit. */
  function Hold(s: Sv1State, g: nat, r: ReaderEvent): (Sv1State, Option<Line>, Option<Credit>) {
    match r
    case Takes(msg) =>
      var (t, forward, credit) := OnUpstreamMsg(s, g, msg);
      (t, if forward then Some(Forwarded(msg)) else None, credit)
    case Translates(text) =>
      var (t, send) := SendOrStash(s, g, text);
      (t, if send then Some(Translated(text)) else None, None)
    case Retargets(d) => (WithTranslateDifficulty(s, g, d), None, None)
    case Accepts(count) =>
      var (t, credit) := CreditTranslated(s, g, count);
      (t, None, credit)
    case _ => (s, None, None)
  }

  function AfterReader(w: World, g: nat, r: ReaderEvent): World
    requires ReaderEnabled(w, g, r)
  {
    match r
    case Sends => w.(lines := w.lines + [w.hands[g]], hands := w.hands - {g})
    case Answers(k, ok) =>
      var q := AskedOf(w, g);
      w.(asked := w.asked[g := q[..k] + q[k + 1..]], lines := w.lines + [Result(q[k], ok)])
    case _ =>
      var (s, line, credit) := Hold(w.s, g, r);
      w.(s := s, hands := if line.Some? then w.hands[g := line.value] else w.hands,
         credits := WithCredit(w.credits, credit),
         byResponse := w.byResponse + if r.Takes? && credit.Some? then 1 else 0)
  }

  function AfterSwap(book: OrderBook, w: World, x: SwapEvent): World
    requires SwapEnabled(book, w, x)
  {
    match x
    case Begin(target, routing) =>
      var g := w.s.generationCounter + 1;
      w.(s := w.s.(generationCounter := g), swap := Some(Swap(g, w.s.capable, target, routing, Connecting)))
    case Fail => w.(swap := None)
    case Connect(raw) =>
      var p := w.swap.value;
      w.(s := Install(w.s, raw, p.generation, p.target, p.routing), pools := w.pools[p.generation := p.target],
         swap := Some(p.(stage := Installed(raw.extranonce))))
    case Tell =>
      var p := w.swap.value;
      var en := p.stage.extranonce;
      if p.capable
      then w.(swap := Some(p.(stage := Told)), told := Some(en), lines := w.lines + [SetExtranonce(en)])
      else w.(swap := Some(p.(stage := Told)), reconnect := true)
    case Take => w.(swap := Some(w.swap.value.(stage := Handing(w.s.prelude))), s := w.s.(prelude := []))
    case Hand =>
      var q := w.swap.value.stage.lines;
      if q == [] then w.(swap := None)
      else w.(swap := Some(w.swap.value.(stage := Handing(q[1..]))), lines := w.lines + [q[0]])
  }

  function Apply(book: OrderBook, w: World, e: Event): World
    requires Enabled(book, w, e)
  {
    match e
    case ByLoop(l) => AfterLoop(book, w, l)
    case ByReader(g, r) => AfterReader(w, g, r)
    case BySwap(x) => AfterSwap(book, w, x)
    case ForceReconnect => w.(reconnect := true)
  }

  function Start(target: UpstreamTarget, raw: RawUpstream): World {
    World(Established(target, raw), None, Waiting, map[], map[], None, false, [], map[1 := target], [], 0)
  }

  ghost predicate Stepped(book: OrderBook, ws: seq<World>, es: seq<Event>, i: nat)
    requires |ws| == |es| + 1 && i < |es|
  {
    Enabled(book, ws[i], es[i]) && ws[i + 1] == Apply(book, ws[i], es[i])
  }

  ghost predicate Run(book: OrderBook, ws: seq<World>, es: seq<Event>) {
    && |ws| == |es| + 1
    && (exists target, raw :: ws[0] == Start(target, raw))
    && forall i: nat | i < |es| :: Stepped(book, ws, es, i)
  }

  /** A run goes on with any enabled event. */
  lemma Extend(book: OrderBook, ws: seq<World>, es: seq<Event>, e: Event) returns (vs: seq<World>, fs: seq<Event>)
    requires Run(book, ws, es) && Enabled(book, ws[|es|], e)
    ensures Run(book, vs, fs) && |fs| == |es| + 1 && vs[|fs|] == Apply(book, ws[|es|], e)
    ensures ws <= vs && es <= fs && fs[|es|] == e
  {
    vs, fs := ws + [Apply(book, ws[|es|], e)], es + [e];
    forall i: nat | i < |fs| ensures Stepped(book, vs, fs, i) {
      if i < |es| {
        assert Stepped(book, ws, es, i);
      }
    }
    var target, raw :| ws[0] == Start(target, raw);
    assert vs[0] == Start(target, raw);
  }

  // --- what single holds leave alone ---

  predicate SamePlace(s: Sv1State, t: Sv1State) {
    t.generation == s.generation && t.generationCounter == s.generationCounter && t.target == s.target &&
    t.extranonce == s.extranonce
  }

  /** No reader changes where the session is, what it is routed to or whether its miner subscribed. */
  lemma ReadersKeepPlace(s: Sv1State, g: nat, r: ReaderEvent)
    ensures var t := Hold(s, g, r).0;
            SamePlace(s, t) && t.routing == s.routing && t.subscribed == s.subscribed && t.capable == s.capable
  {
  }

  ghost predicate StaysPut(w: World, v: World) {
    SamePlace(w.s, v.s) && v.pools == w.pools && v.swap == w.swap
  }

  lemma LoopKeepsPlace(book: OrderBook, w: World, l: LoopEvent)
    requires LoopEnabled(book, w, l)
    ensures StaysPut(w, AfterLoop(book, w, l))
    ensures !l.Attach? ==> AfterLoop(book, w, l).s.routing == w.s.routing
  {
  }

  lemma ReaderKeepsPlace(w: World, g: nat, r: ReaderEvent)
    requires ReaderEnabled(w, g, r)
    ensures StaysPut(w, AfterReader(w, g, r)) && AfterReader(w, g, r).s.routing == w.s.routing
  {
    ReadersKeepPlace(w.s, g, r);
  }

  /** Outside a swap nothing changes where a session is, and only an attach what it is routed to. */
  lemma OthersKeepPlace(book: OrderBook, w: World, e: Event)
    requires Enabled(book, w, e) && !e.BySwap?
    ensures StaysPut(w, Apply(book, w, e))
    ensures e != ByLoop(Attach) ==> Apply(book, w, e).s.routing == w.s.routing
  {
    match e
    case ByLoop(l) => LoopKeepsPlace(book, w, l);
    case ByReader(g, r) => ReaderKeepsPlace(w, g, r);
    case _ =>
  }

  // --- what every step keeps ---

  /** Generations only grow, the counter is ahead of the installed one while a swap connects, and
      what a swap has yet to tell the miner is what it installed. */
  ghost predicate GenerationInv(w: World) {
    && w.s.generation <= w.s.generationCounter
    && (w.swap.Some? && w.swap.value.stage.Connecting? ==>
          w.s.generation < w.swap.value.generation <= w.s.generationCounter)
    && (w.swap.Some? && w.swap.value.stage.Installed? ==> w.swap.value.stage.extranonce == w.s.extranonce)
  }

  lemma SwapKeepsGeneration(book: OrderBook, w: World, x: SwapEvent)
    requires GenerationInv(w) && SwapEnabled(book, w, x)
    ensures GenerationInv(AfterSwap(book, w, x))
  {
  }

  lemma StepKeepsGeneration(book: OrderBook, w: World, e: Event)
    requires GenerationInv(w) && Enabled(book, w, e)
    ensures GenerationInv(Apply(book, w, e))
  {
    if e.BySwap? {
      SwapKeepsGeneration(book, w, e.x);
    } else {
      OthersKeepPlace(book, w, e);
    }
  }

  /** Submits in flight all went to the active connection, and none is also an accepted one. */
  ghost predicate InFlightInv(s: Sv1State, byResponse: nat) {
    && (forall id | id in s.pending :: s.pending[id].generation == s.generation)
    && (s.translating ==> s.pending == map[])
    && byResponse + |s.pending| <= s.submittedShares
  }

  lemma LoopKeepsInFlight(book: OrderBook, w: World, l: LoopEvent)
    requires InFlightInv(w.s, w.byResponse) && LoopEnabled(book, w, l)
    ensures InFlightInv(AfterLoop(book, w, l).s, AfterLoop(book, w, l).byResponse)
  {
  }

  lemma HoldKeepsInFlight(s: Sv1State, g: nat, r: ReaderEvent, byResponse: nat)
    requires InFlightInv(s, byResponse)
    ensures var (t, _, credit) := Hold(s, g, r);
            InFlightInv(t, byResponse + if r.Takes? && credit.Some? then 1 else 0)
  {
    if r.Takes? && g == s.generation && r.msg.Response? && r.msg.id in s.pending {
      assert |s.pending - {r.msg.id}| == |s.pending| - 1;
    }
  }

  lemma SwapKeepsInFlight(book: OrderBook, w: World, x: SwapEvent)
    requires InFlightInv(w.s, w.byResponse) && SwapEnabled(book, w, x)
    ensures InFlightInv(AfterSwap(book, w, x).s, AfterSwap(book, w, x).byResponse)
  {
  }

  lemma StepKeepsInFlight(book: OrderBook, w: World, e: Event)
    requires InFlightInv(w.s, w.byResponse) && Enabled(book, w, e)
    ensures InFlightInv(Apply(book, w, e).s, Apply(book, w, e).byResponse)
  {
    match e
    case ByLoop(l) => LoopKeepsInFlight(book, w, l);
    case ByReader(g, r) => HoldKeepsInFlight(w.s, g, r, w.byResponse);
    case BySwap(x) => SwapKeepsInFlight(book, w, x);
    case ForceReconnect =>
  }

  /** The active connection is the latest on record, and a swap is for one of its order's pools. */
  ghost predicate PoolInv(book: OrderBook, w: World) {
    && w.s.generation in w.pools && w.pools[w.s.generation] == w.s.target
    && (forall g | g in w.pools :: g <= w.s.generation)
    && (w.swap.Some? ==> Attributed(book, w.swap.value.routing, w.swap.value.target))
  }

  lemma SwapKeepsPool(book: OrderBook, w: World, x: SwapEvent)
    requires GenerationInv(w) && PoolInv(book, w) && SwapEnabled(book, w, x)
    ensures PoolInv(book, AfterSwap(book, w, x))
  {
  }

  lemma StepKeepsPool(book: OrderBook, w: World, e: Event)
    requires GenerationInv(w) && PoolInv(book, w) && Enabled(book, w, e)
    ensures PoolInv(book, Apply(book, w, e))
  {
    if e.BySwap? {
      SwapKeepsPool(book, w, e.x);
    } else {
      OthersKeepPlace(book, w, e);
    }
  }

  ghost predicate CreditsInv(w: World) {
    && w.s.deliveredWork == TotalWork(w.credits)
    && w.s.acceptedShares == TotalShares(w.credits)
  }

  lemma CreditAdds(credits: seq<Credit>, c: Credit)
    ensures TotalWork(credits + [c]) == TotalWork(credits) + c.work
    ensures TotalShares(credits + [c]) == TotalShares(credits) + c.shares
  {
    assert (credits + [c])[..|credits|] == credits;
  }

  predicate AddsUp(s: Sv1State, t: Sv1State, credit: Option<Credit>) {
    t.deliveredWork == s.deliveredWork + (if credit.Some? then credit.value.work else 0.0) &&
    t.acceptedShares == s.acceptedShares + (if credit.Some? then credit.value.shares else 0)
  }

  /** What a hold adds to the totals is its credit, which is for the active connection and what
      that is routed to, and only a reader of that connection brings one. */
  lemma TotalsMoveByCredit(s: Sv1State, g: nat, r: ReaderEvent)
    ensures var (t, _, credit) := Hold(s, g, r);
            && AddsUp(s, t, credit)
            && (credit.Some? ==> g == s.generation == credit.value.generation && credit.value.routing == s.routing)
            && (r.Takes? && credit.Some? ==> credit.value.shares == 1)
  {
  }

  /** The credit a step brings. */
  function CreditOf(w: World, e: Event): Option<Credit> {
    if e.ByReader? then Hold(w.s, e.generation, e.r).2 else None
  }

  ghost predicate Books(w: World, v: World, credit: Option<Credit>) {
    v.credits == WithCredit(w.credits, credit) && AddsUp(w.s, v.s, credit)
  }

  lemma LoopBooksNothing(book: OrderBook, w: World, l: LoopEvent)
    requires LoopEnabled(book, w, l)
    ensures Books(w, AfterLoop(book, w, l), None) && AfterLoop(book, w, l).byResponse == w.byResponse
  {
  }

  lemma SwapBooksNothing(book: OrderBook, w: World, x: SwapEvent)
    requires SwapEnabled(book, w, x)
    ensures Books(w, AfterSwap(book, w, x), None) && AfterSwap(book, w, x).byResponse == w.byResponse
  {
  }

  lemma ReaderBooks(w: World, g: nat, r: ReaderEvent)
    requires ReaderEnabled(w, g, r)
    ensures Books(w, AfterReader(w, g, r), Hold(w.s, g, r).2)
    ensures AfterReader(w, g, r).byResponse ==
            w.byResponse + if r.Takes? && Hold(w.s, g, r).2.Some? then 1 else 0
  {
    TotalsMoveByCredit(w.s, g, r);
  }

  /** The credit log grows by a step's credit, and the totals with it. */
  lemma StepCredits(book: OrderBook, w: World, e: Event)
    requires Enabled(book, w, e)
    ensures Books(w, Apply(book, w, e), CreditOf(w, e))
  {
    match e
    case ByLoop(l) => LoopBooksNothing(book, w, l);
    case ByReader(g, r) => ReaderBooks(w, g, r);
    case BySwap(x) => SwapBooksNothing(book, w, x);
    case ForceReconnect =>
  }

  lemma StepKeepsCredits(book: OrderBook, w: World, e: Event)
    requires CreditsInv(w) && Enabled(book, w, e)
    ensures CreditsInv(Apply(book, w, e))
  {
    StepCredits(book, w, e);
    if CreditOf(w, e).Some? {
      CreditAdds(w.credits, CreditOf(w, e).value);
    }
  }

  ghost predicate Inv(book: OrderBook, w: World) {
    GenerationInv(w) && InFlightInv(w.s, w.byResponse) && PoolInv(book, w) && CreditsInv(w)
  }

  lemma StepKeepsInv(book: OrderBook, w: World, e: Event)
    requires Inv(book, w) && Enabled(book, w, e)
    ensures Inv(book, Apply(book, w, e))
  {
    StepKeepsGeneration(book, w, e);
    StepKeepsInFlight(book, w, e);
    StepKeepsPool(book, w, e);
    StepKeepsCredits(book, w, e);
  }

  lemma {:induction false} RunInv(book: OrderBook, ws: seq<World>, es: seq<Event>, n: nat)
    requires Run(book, ws, es) && n < |ws|
    ensures Inv(book, ws[n])
  {
    if n > 0 {
      RunInv(book, ws, es, n - 1);
      assert Stepped(book, ws, es, n - 1);
      StepKeepsInv(book, ws[n - 1], es[n - 1]);
    }
  }
}
