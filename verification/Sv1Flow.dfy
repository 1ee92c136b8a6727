/** What goes through an SV1 session: the difficulty its shares count at, what is counted, and the
    lines of its pools on their way to the miner. */
module Sv1Flow {
  import opened Options
  import opened Types
  import opened Sv1
  import opened Sv1Lines
  import opened Sv1Protocol
  import opened Sv1Theorems

  // --- the difficulty shares count at ---

  /** What an event makes of the difficulty: a `mining.set_difficulty` read from the active
      connection, a new target of the active translator, or the install of a translated pool. */
  function SetBy(before: real, w: World, e: Event): real {
    match e
    case ByReader(g, Takes(SetDifficulty(Some(d)))) => if g == w.s.generation then d else before
    case ByReader(g, Retargets(d)) => if g == w.s.generation then d else before
    case BySwap(Connect(Translation(_, d))) => d
    case _ => before
  }

  function LastSet(first: real, ws: seq<World>, es: seq<Event>, n: nat): real
    requires n <= |es| < |ws|
  {
    if n == 0 then first else SetBy(LastSet(first, ws, es, n - 1), ws[n - 1], es[n - 1])
  }

  /** A session begins at the difficulty of its translated pool, or at 1 on any other. */
  function FirstDifficulty(raw: RawUpstream): real {
    match raw
    case Translation(_, d) => d
    case Passthrough(_, _) => 1.0
  }

  lemma HoldSets(s: Sv1State, g: nat, r: ReaderEvent)
    ensures Hold(s, g, r).0.difficulty ==
            match r
            case Takes(SetDifficulty(Some(d))) => if g == s.generation then d else s.difficulty
            case Retargets(d) => if g == s.generation then d else s.difficulty
            case _ => s.difficulty
  {
  }

  lemma SwapSets(book: OrderBook, w: World, x: SwapEvent)
    requires SwapEnabled(book, w, x)
    ensures AfterSwap(book, w, x).s.difficulty == SetBy(w.s.difficulty, w, BySwap(x))
  {
  }

  lemma LoopSets(book: OrderBook, w: World, l: LoopEvent)
    requires LoopEnabled(book, w, l)
    ensures AfterLoop(book, w, l).s.difficulty == w.s.difficulty
  {
  }

  lemma StepSets(book: OrderBook, w: World, e: Event)
    requires Enabled(book, w, e)
    ensures Apply(book, w, e).s.difficulty == SetBy(w.s.difficulty, w, e)
  {
    match e
    case ByLoop(l) => LoopSets(book, w, l);
    case ByReader(g, r) => HoldSets(w.s, g, r);
    case BySwap(x) => SwapSets(book, w, x);
    case ForceReconnect =>
  }

  /** On every run the difficulty shares are recorded at is the last one set by the active pool. */
  lemma {:induction false} DifficultyIsLastSet(book: OrderBook, ws: seq<World>, es: seq<Event>, n: nat,
                                               target: UpstreamTarget, raw: RawUpstream)
    requires Run(book, ws, es) && n < |ws| && ws[0] == Start(target, raw)
    ensures ws[n].s.difficulty == LastSet(FirstDifficulty(raw), ws, es, n)
  {
    if n > 0 {
      DifficultyIsLastSet(book, ws, es, n - 1, target, raw);
      assert Stepped(book, ws, es, n - 1);
      StepSets(book, ws[n - 1], es[n - 1]);
    }
  }

  // --- what is counted ---

  /** How often the miner submitted. */
  function SubmitsIn(es: seq<Event>): nat {
    if es == [] then 0
    else SubmitsIn(es[..|es| - 1]) + if es[|es| - 1].ByLoop? && es[|es| - 1].l.Submit? then 1 else 0
  }

  lemma ReaderSubmitsNothing(s: Sv1State, g: nat, r: ReaderEvent)
    ensures Hold(s, g, r).0.submittedShares == s.submittedShares
  {
  }

  lemma StepSubmits(book: OrderBook, w: World, e: Event)
    requires Enabled(book, w, e)
    ensures Apply(book, w, e).s.submittedShares ==
            w.s.submittedShares + if e.ByLoop? && e.l.Submit? then 1 else 0
  {
    match e
    case ByLoop(l) => LoopSubmits(book, w, l);
    case ByReader(g, r) => ReaderSubmitsNothing(w.s, g, r);
    case BySwap(x) => SwapSubmitsNothing(book, w, x);
    case ForceReconnect =>
  }

  lemma LoopSubmits(book: OrderBook, w: World, l: LoopEvent)
    requires LoopEnabled(book, w, l)
    ensures AfterLoop(book, w, l).s.submittedShares == w.s.submittedShares + if l.Submit? then 1 else 0
  {
  }

  lemma SwapSubmitsNothing(book: OrderBook, w: World, x: SwapEvent)
    requires SwapEnabled(book, w, x)
    ensures AfterSwap(book, w, x).s.submittedShares == w.s.submittedShares
  {
  }

  /** Every submit of the miner is counted once. */
  lemma {:induction false} SubmitsAreCounted(book: OrderBook, ws: seq<World>, es: seq<Event>, n: nat)
    requires Run(book, ws, es) && n < |ws|
    ensures ws[n].s.submittedShares == SubmitsIn(es[..n])
  {
    if n > 0 {
      SubmitsAreCounted(book, ws, es, n - 1);
      assert Stepped(book, ws, es, n - 1);
      StepSubmits(book, ws[n - 1], es[n - 1]);
      assert es[..n][..n - 1] == es[..n - 1];
    }
  }

  /** A submit of `id` at m that is still unanswered, on the connection it was made on. */
  ghost predicate Open(ws: seq<World>, es: seq<Event>, m: nat, n: nat, id: string) {
    && |ws| == |es| + 1 && m < n <= |es| && Submits(ws[m], es[m], id)
    && forall i | m < i < n :: !Submits(ws[i], es[i], id) && !AnswerTo(ws[i], es[i], id) && !Installs(es[i])
  }

  lemma ReaderKeepsOpen(s: Sv1State, g: nat, r: ReaderEvent, id: string)
    requires id in s.pending && !(g == s.generation && r.Takes? && r.msg.Response? && r.msg.id == id)
    ensures id in Hold(s, g, r).0.pending && Hold(s, g, r).0.pending[id] == s.pending[id]
  {
  }

  lemma StepKeepsOpen(book: OrderBook, w: World, e: Event, id: string)
    requires Enabled(book, w, e) && id in w.s.pending
    requires !Submits(w, e, id) && !AnswerTo(w, e, id) && !Installs(e)
    ensures id in Apply(book, w, e).s.pending && Apply(book, w, e).s.pending[id] == w.s.pending[id]
  {
    match e
    case ByLoop(l) => LoopKeepsOpen(book, w, l, id);
    case ByReader(g, r) => ReaderKeepsOpen(w.s, g, r, id);
    case BySwap(x) => SwapKeepsOpen(book, w, x, id);
    case ForceReconnect =>
  }

  lemma LoopKeepsOpen(book: OrderBook, w: World, l: LoopEvent, id: string)
    requires LoopEnabled(book, w, l) && id in w.s.pending && !Submits(w, ByLoop(l), id)
    ensures id in AfterLoop(book, w, l).s.pending && AfterLoop(book, w, l).s.pending[id] == w.s.pending[id]
  {
  }

  lemma SwapKeepsOpen(book: OrderBook, w: World, x: SwapEvent, id: string)
    requires SwapEnabled(book, w, x) && id in w.s.pending && !x.Connect?
    ensures id in AfterSwap(book, w, x).s.pending && AfterSwap(book, w, x).s.pending[id] == w.s.pending[id]
  {
  }

  lemma {:induction false} OpenIsPending(book: OrderBook, ws: seq<World>, es: seq<Event>, m: nat, n: nat, id: string)
    requires Run(book, ws, es) && Open(ws, es, m, n, id)
    ensures id in ws[n].s.pending
    ensures ws[n].s.pending[id] == InFlight(ws[m].s.generation, ws[m].s.difficulty)
    ensures ws[n].s.generation == ws[m].s.generation
  {
    assert Stepped(book, ws, es, n - 1);
    if n > m + 1 {
      OpenIsPending(book, ws, es, m, n - 1, id);
      StepKeepsOpen(book, ws[n - 1], es[n - 1], id);
    }
    if es[n - 1].BySwap? {
      OtherSwapsStay(book, ws[n - 1], es[n - 1].x);
    } else {
      OthersKeepPlace(book, ws[n - 1], es[n - 1]);
    }
  }

  lemma OtherSwapsStay(book: OrderBook, w: World, x: SwapEvent)
    requires SwapEnabled(book, w, x) && !x.Connect?
    ensures AfterSwap(book, w, x).s.generation == w.s.generation
  {
  }

  /** A submit that the pool it was made on accepts, while that is the active one, is credited, once
      and at the difficulty that was in force when it was made; one it rejects is not. */
  lemma AcceptedIsCredited(book: OrderBook, ws: seq<World>, es: seq<Event>, m: nat, n: nat, id: string, ok: bool)
    requires Run(book, ws, es) && Open(ws, es, m, n, id) && n < |es|
    requires es[n] == ByReader(ws[n].s.generation, Takes(Response(id, ok)))
    ensures ws[n + 1].credits == ws[n].credits +
            if ok then [Credit(ws[n].s.generation, ws[n].s.routing, ws[m].s.difficulty, 1)] else []
    ensures id !in ws[n + 1].s.pending
  {
    OpenIsPending(book, ws, es, m, n, id);
    assert Stepped(book, ws, es, n);
  }

  /** What a translator reports accepted is credited at the difficulty in force, times the count. */
  lemma ReportedIsCredited(book: OrderBook, ws: seq<World>, es: seq<Event>, n: nat, g: nat, count: nat)
    requires Run(book, ws, es) && n < |es| && es[n] == ByReader(g, Accepts(count))
    ensures var work := ws[n].s.difficulty * count as real;
            ws[n + 1].credits == ws[n].credits +
            if g == ws[n].s.generation && work > 0.0 then [Credit(g, ws[n].s.routing, work, count)] else []
  {
    assert Stepped(book, ws, es, n);
    WorkOfReport(ws[n].s, g, count, ws[n].s.difficulty * count as real);
  }

  lemma WorkOfReport(s: Sv1State, g: nat, count: nat, work: real)
    requires work == s.difficulty * count as real
    ensures CreditTranslated(s, g, count).1 ==
            if g == s.generation && work > 0.0 then Some(Credit(g, s.routing, work, count)) else None
  {
    assert WorkOf(s.difficulty, count) == work;
  }

  predicate Subscribed(w: World, en: Extranonce, d: real) {
    && w.s.generation == 1 && w.s.difficulty == 1.0 && w.arm.Waiting? && !w.s.translating && w.s.routing.Idle?
    && w.lines == [SubscribeReply(en), Forwarded(SetDifficulty(Some(d)))] && w.credits == [] && 1 in w.pools
    && w.hands == map[]
  }

  lemma Subscribes(book: OrderBook, w: World, pool: UpstreamTarget, en: Extranonce, d: real)
    requires w == Start(pool, Passthrough(en, [SetDifficulty(Some(d))]))
    ensures LoopEnabled(book, w, ReadExtranonce) && var w1 := AfterLoop(book, w, ReadExtranonce);
            && LoopEnabled(book, w1, Reply) && var w2 := AfterLoop(book, w1, Reply);
            && LoopEnabled(book, w2, TakePrelude) && var w3 := AfterLoop(book, w2, TakePrelude);
            && LoopEnabled(book, w3, HandOut) && var w4 := AfterLoop(book, w3, HandOut);
            && LoopEnabled(book, w4, HandOut) && Subscribed(AfterLoop(book, w4, HandOut), en, d)
  {
  }

  lemma SubmitsAndIsAnswered(book: OrderBook, w: World, en: Extranonce, d: real, id: string)
    requires Subscribed(w, en, d)
    ensures LoopEnabled(book, w, Submit(id)) && var w1 := AfterLoop(book, w, Submit(id));
            && ReaderEnabled(w1, 1, Takes(Response(id, true))) &&
            var w2 := AfterReader(w1, 1, Takes(Response(id, true)));
            w2.credits == [Credit(1, Idle, 1.0, 1)] && w2.lines == w.lines
  {
  }

  /** A difficulty that an SV1 pool names while the session connects goes to the miner but is not
      what its shares count at: a run in which the miner is told difficulty d, finds a share, and
      is credited 1. */
  lemma FirstDifficultyIsNotCounted(book: OrderBook, pool: UpstreamTarget, en: Extranonce, d: real, id: string)
    returns (ws: seq<World>, es: seq<Event>)
    ensures Run(book, ws, es) && |es| == 7
    ensures ws[7].lines == [SubscribeReply(en), Forwarded(SetDifficulty(Some(d)))]
    ensures es[5] == ByLoop(Submit(id)) && ws[7].credits == [Credit(1, Idle, 1.0, 1)]
  {
    var raw := Passthrough(en, [SetDifficulty(Some(d))]);
    ws, es := [Start(pool, raw)], [];
    assert Run(book, ws, es) by {
      assert ws[0] == Start(pool, raw);
    }
    Subscribes(book, ws[0], pool, en, d);
    ws, es := Extend(book, ws, es, ByLoop(ReadExtranonce));
    ws, es := Extend(book, ws, es, ByLoop(Reply));
    ws, es := Extend(book, ws, es, ByLoop(TakePrelude));
    ws, es := Extend(book, ws, es, ByLoop(HandOut));
    ws, es := Extend(book, ws, es, ByLoop(HandOut));
    SubmitsAndIsAnswered(book, ws[5], en, d, id);
    ws, es := Extend(book, ws, es, ByLoop(Submit(id)));
    ws, es := Extend(book, ws, es, ByReader(1, Takes(Response(id, true))));
  }

  // --- lines on their way ---

  /** A line read from the active connection is in its reader's hand, to be sent next; a translated
      one too, or, as long as the miner has no answer, at the end of those that wait. */
  lemma ReadIsForwarded(book: OrderBook, ws: seq<World>, es: seq<Event>, n: nat)
    requires Run(book, ws, es) && n < |es| && es[n].ByReader? && es[n].generation == ws[n].s.generation
    ensures var g, r, v := es[n].generation, es[n].r, ws[n + 1];
            match r
            case Takes(msg) => g in v.hands && v.hands[g] == Forwarded(msg)
            case Translates(text) =>
              if ws[n].s.subscribed then g in v.hands && v.hands[g] == Translated(text)
              else v.s.prelude == ws[n].s.prelude + [Translated(text)]
            case Sends => g in ws[n].hands && v.lines == ws[n].lines + [ws[n].hands[g]]
            case _ => v.hands == ws[n].hands
  {
    assert Stepped(book, ws, es, n);
  }

  /** An install has everything waiting that the pool said while it was being connected to, in
      order; or, for a translated pool, its difficulty. */
  lemma InstalledWaits(book: OrderBook, ws: seq<World>, es: seq<Event>, n: nat, raw: RawUpstream)
    requires Run(book, ws, es) && n < |es| && es[n] == BySwap(Connect(raw))
    ensures match raw
            case Passthrough(_, msgs) =>
              && |ws[n + 1].s.prelude| == |msgs|
              && forall k | 0 <= k < |msgs| :: ws[n + 1].s.prelude[k] == Forwarded(msgs[k])
            case Translation(_, d) => ws[n + 1].s.prelude == [Forwarded(SetDifficulty(Some(d)))]
  {
    assert Stepped(book, ws, es, n);
  }

  function FlushingLines(w: World): seq<Line> {
    if w.arm.Flushing? then w.arm.lines else []
  }

  function HandingLines(w: World): seq<Line> {
    if w.swap.Some? && w.swap.value.stage.Handing? then w.swap.value.stage.lines else []
  }

  /** Lines that wait, that the loop or a swap is handing out, and that the miner was handed. */
  datatype Lines = Lines(waiting: seq<Line>, flushing: seq<Line>, handing: seq<Line>, handed: seq<Line>)
  {
    function All(): multiset<Line> {
      multiset(waiting) + multiset(flushing) + multiset(handing) + multiset(handed)
    }
  }

  /** All of them, the handed ones from some point on. */
  function Around(w: World, from: nat): Lines
    requires from <= |w.lines|
  {
    Lines(w.s.prelude, FlushingLines(w), HandingLines(w), w.lines[from..])
  }

  /** How lines move: more come, those that wait are taken to be handed out, or the first of those
      being handed out is handed. */
  predicate Moves(a: Lines, b: Lines) {
    || (a.waiting <= b.waiting && b.flushing == a.flushing && b.handing == a.handing && a.handed <= b.handed)
    || (a.flushing == [] && b == Lines([], a.waiting, a.handing, a.handed))
    || (a.handing == [] && b == Lines([], a.flushing, a.waiting, a.handed))
    || (a.flushing != [] && b == a.(flushing := a.flushing[1..], handed := a.handed + [a.flushing[0]]))
    || (a.handing != [] && b == a.(handing := a.handing[1..], handed := a.handed + [a.handing[0]]))
  }

  lemma PrefixIsPart(a: seq<Line>, b: seq<Line>)
    requires a <= b
    ensures multiset(a) <= multiset(b)
  {
    assert b == a + b[|a|..];
  }

  lemma FirstAndRest(q: seq<Line>)
    requires q != []
    ensures multiset(q) == multiset{q[0]} + multiset(q[1..])
  {
    assert q == [q[0]] + q[1..];
  }

  lemma MovingLosesNothing(a: Lines, b: Lines)
    requires Moves(a, b)
    ensures a.All() <= b.All()
  {
    if a.waiting <= b.waiting && b.flushing == a.flushing && b.handing == a.handing && a.handed <= b.handed {
      PrefixIsPart(a.waiting, b.waiting);
      PrefixIsPart(a.handed, b.handed);
    } else if a.flushing != [] && b == a.(flushing := a.flushing[1..], handed := a.handed + [a.flushing[0]]) {
      FirstAndRest(a.flushing);
    } else if a.handing != [] && b == a.(handing := a.handing[1..], handed := a.handed + [a.handing[0]]) {
      FirstAndRest(a.handing);
    }
  }

  lemma HoldKeepsWaiting(s: Sv1State, g: nat, r: ReaderEvent)
    ensures s.prelude <= Hold(s, g, r).0.prelude
  {
  }

  lemma FromThere(lines: seq<Line>, l: Line, from: nat)
    requires from <= |lines|
    ensures (lines + [l])[from..] == lines[from..] + [l]
  {
  }

  lemma HandOutMoves(book: OrderBook, w: World, from: nat)
    requires w.arm.Flushing? && from <= |w.lines|
    ensures var v := AfterLoop(book, w, HandOut); w.lines <= v.lines && Moves(Around(w, from), Around(v, from))
  {
    var q := w.arm.lines;
    if q != [] {
      FromThere(w.lines, q[0], from);
      var a := Around(w, from);
      assert Around(AfterLoop(book, w, HandOut), from) ==
             a.(flushing := a.flushing[1..], handed := a.handed + [a.flushing[0]]);
    }
  }

  lemma ReplyMoves(book: OrderBook, w: World, from: nat)
    requires w.arm.Read? && from <= |w.lines|
    ensures var v := AfterLoop(book, w, Reply); w.lines <= v.lines && Moves(Around(w, from), Around(v, from))
  {
    FromThere(w.lines, SubscribeReply(w.arm.extranonce), from);
  }

  lemma LoopMoves(book: OrderBook, w: World, l: LoopEvent, from: nat)
    requires LoopEnabled(book, w, l) && from <= |w.lines|
    ensures w.lines <= AfterLoop(book, w, l).lines && Moves(Around(w, from), Around(AfterLoop(book, w, l), from))
  {
    match l
    case HandOut => HandOutMoves(book, w, from);
    case Reply => ReplyMoves(book, w, from);
    case TakePrelude =>
    case _ => RestMovesNothing(book, w, l, from);
  }

  lemma RestMovesNothing(book: OrderBook, w: World, l: LoopEvent, from: nat)
    requires LoopEnabled(book, w, l) && from <= |w.lines| && !l.HandOut? && !l.Reply? && !l.TakePrelude?
    ensures AfterLoop(book, w, l).lines == w.lines && Around(AfterLoop(book, w, l), from) == Around(w, from)
  {
  }

  lemma HandMoves(book: OrderBook, w: World, from: nat)
    requires SwapEnabled(book, w, Hand) && from <= |w.lines|
    ensures var v := AfterSwap(book, w, Hand); w.lines <= v.lines && Moves(Around(w, from), Around(v, from))
  {
    var q := w.swap.value.stage.lines;
    if q != [] {
      FromThere(w.lines, q[0], from);
      var a := Around(w, from);
      assert Around(AfterSwap(book, w, Hand), from) ==
             a.(handing := a.handing[1..], handed := a.handed + [a.handing[0]]);
    }
  }

  lemma TellMoves(book: OrderBook, w: World, from: nat)
    requires SwapEnabled(book, w, Tell) && from <= |w.lines|
    ensures var v := AfterSwap(book, w, Tell); w.lines <= v.lines && Moves(Around(w, from), Around(v, from))
  {
    FromThere(w.lines, SetExtranonce(w.swap.value.stage.extranonce), from);
  }

  lemma SwapMoves(book: OrderBook, w: World, x: SwapEvent, from: nat)
    requires SwapEnabled(book, w, x) && !x.Connect? && from <= |w.lines|
    ensures w.lines <= AfterSwap(book, w, x).lines && Moves(Around(w, from), Around(AfterSwap(book, w, x), from))
  {
    match x
    case Hand => HandMoves(book, w, from);
    case Tell => TellMoves(book, w, from);
    case _ =>
  }

  lemma ReaderMoves(w: World, g: nat, r: ReaderEvent, from: nat)
    requires ReaderEnabled(w, g, r) && from <= |w.lines|
    ensures w.lines <= AfterReader(w, g, r).lines && Moves(Around(w, from), Around(AfterReader(w, g, r), from))
  {
    HoldKeepsWaiting(w.s, g, r);
  }

  lemma StepMoves(book: OrderBook, w: World, e: Event, from: nat)
    requires Enabled(book, w, e) && !Installs(e) && from <= |w.lines|
    ensures w.lines <= Apply(book, w, e).lines && Moves(Around(w, from), Around(Apply(book, w, e), from))
  {
    match e
    case ByLoop(l) => LoopMoves(book, w, l, from);
    case ByReader(g, r) => ReaderMoves(w, g, r, from);
    case BySwap(x) => SwapMoves(book, w, x, from);
    case ForceReconnect =>
  }

  /** No line that waits for the miner is lost until the next install: each is still waiting, about
      to be handed out, or was handed to the miner. */
  lemma {:induction false} NothingWaitingIsLost(book: OrderBook, ws: seq<World>, es: seq<Event>, i: nat, n: nat)
    requires Run(book, ws, es) && i <= n < |ws| && forall k | i <= k < n :: !Installs(es[k])
    ensures ws[i].lines <= ws[n].lines
    ensures multiset(ws[i].s.prelude) <= Around(ws[n], |ws[i].lines|).All()
  {
    NothingAroundIsLost(book, ws, es, i, n);
  }

  lemma {:induction false} NothingAroundIsLost(book: OrderBook, ws: seq<World>, es: seq<Event>, i: nat, n: nat)
    requires Run(book, ws, es) && i <= n < |ws| && forall k | i <= k < n :: !Installs(es[k])
    ensures ws[i].lines <= ws[n].lines
    ensures Around(ws[i], |ws[i].lines|).All() <= Around(ws[n], |ws[i].lines|).All()
  {
    if i < n {
      NothingAroundIsLost(book, ws, es, i, n - 1);
      assert Stepped(book, ws, es, n - 1);
      StepMoves(book, ws[n - 1], es[n - 1], |ws[i].lines|);
      MovingLosesNothing(Around(ws[n - 1], |ws[i].lines|), Around(ws[n], |ws[i].lines|));
    }
  }

  /** `hand` is the event by which the loop, or a swap, hands out the lines it took at `take`. */
  predicate HandsWhat(take: Event, hand: Event) {
    (take == ByLoop(TakePrelude) && hand == ByLoop(HandOut)) || (take == BySwap(Take) && hand == BySwap(Hand))
  }

  /** It is still at it, with these lines left. */
  predicate HandingOn(w: World, hand: Event) {
    if hand.ByLoop? then w.arm.Flushing? else w.swap.Some? && w.swap.value.stage.Handing?
  }

  function LeftToHand(w: World, hand: Event): seq<Line> {
    if hand.ByLoop? then FlushingLines(w) else HandingLines(w)
  }

  /** The lines the miner is handed by such events. */
  function HandedOut(ws: seq<World>, es: seq<Event>, i: nat, n: nat, hand: Event): seq<Line>
    requires i <= n <= |es| < |ws|
  {
    if n == i then []
    else
      HandedOut(ws, es, i, n - 1, hand) +
      if es[n - 1] == hand && |ws[n - 1].lines| < |ws[n].lines| then [ws[n].lines[|ws[n - 1].lines|]] else []
  }

  /** Lines that waited are handed out in the order they waited in, by the loop and by a swap. */
  lemma {:induction false} HandsOutInOrder(book: OrderBook, ws: seq<World>, es: seq<Event>, i: nat, n: nat, hand: Event)
    requires Run(book, ws, es) && i < n < |ws| && HandsWhat(es[i], hand)
    requires forall k | i < k <= n :: HandingOn(ws[k], hand)
    ensures HandedOut(ws, es, i + 1, n, hand) + LeftToHand(ws[n], hand) == ws[i].s.prelude
  {
    assert Stepped(book, ws, es, n - 1);
    if i + 1 < n {
      HandsOutInOrder(book, ws, es, i, n - 1, hand);
      HandsOn(book, ws[n - 1], es[n - 1], hand);
    } else {
      TakesThem(book, ws[i], es[i], hand);
    }
  }

  lemma TakesThem(book: OrderBook, w: World, e: Event, hand: Event)
    requires Enabled(book, w, e) && HandsWhat(e, hand)
    ensures LeftToHand(Apply(book, w, e), hand) == w.s.prelude
  {
  }

  lemma HandsOn(book: OrderBook, w: World, e: Event, hand: Event)
    requires Enabled(book, w, e) && HandingOn(w, hand) && HandingOn(Apply(book, w, e), hand)
    requires hand == ByLoop(HandOut) || hand == BySwap(Hand)
    ensures var v, left, after := Apply(book, w, e), LeftToHand(w, hand), LeftToHand(Apply(book, w, e), hand);
            if e == hand then left != [] && after == left[1..] && v.lines == w.lines + [left[0]] else after == left
  {
    match e
    case ByLoop(l) => LoopHandsOn(book, w, l, hand);
    case ByReader(g, r) => ReaderHandsOn(w, g, r);
    case BySwap(x) => SwapHandsOn(book, w, x, hand);
    case _ =>
  }

  lemma ReaderHandsOn(w: World, g: nat, r: ReaderEvent)
    requires ReaderEnabled(w, g, r)
    ensures AfterReader(w, g, r).arm == w.arm && AfterReader(w, g, r).swap == w.swap
  {
  }

  lemma LoopHandsOn(book: OrderBook, w: World, l: LoopEvent, hand: Event)
    requires LoopEnabled(book, w, l) && HandingOn(w, hand) && HandingOn(AfterLoop(book, w, l), hand)
    ensures var v, left, after := AfterLoop(book, w, l), LeftToHand(w, hand), LeftToHand(AfterLoop(book, w, l), hand);
            if ByLoop(l) == hand then left != [] && after == left[1..] && v.lines == w.lines + [left[0]]
            else hand == ByLoop(HandOut) || hand == BySwap(Hand) ==> after == left
  {
  }

  lemma SwapHandsOn(book: OrderBook, w: World, x: SwapEvent, hand: Event)
    requires SwapEnabled(book, w, x) && HandingOn(w, hand) && HandingOn(AfterSwap(book, w, x), hand)
    ensures var v, left, after := AfterSwap(book, w, x), LeftToHand(w, hand), LeftToHand(AfterSwap(book, w, x), hand);
            if BySwap(x) == hand then left != [] && after == left[1..] && v.lines == w.lines + [left[0]]
            else hand == ByLoop(HandOut) || hand == BySwap(Hand) ==> after == left
  {
  }
}
