/** What an SV1 session owes its miner: a result for each submit a translated pool answers, and the
    news of every swap. */
module Sv1Replies {
  import opened Types
  import opened Sv1
  import opened Sv1Protocol

  // --- what a translated pool answers ---

  /** The submits the miner made while g was its active, translated connection. */
  function GivenTo(ws: seq<World>, es: seq<Event>, g: nat, n: nat): multiset<string>
    requires n <= |es| < |ws|
  {
    if n == 0 then multiset{} else GivenTo(ws, es, g, n - 1) + GivenAt(ws[n - 1], es[n - 1], g)
  }

  function GivenAt(w: World, e: Event, g: nat): multiset<string> {
    if e.ByLoop? && e.l.Submit? && w.s.generation == g && w.s.translating then multiset{e.l.id} else multiset{}
  }

  /** The submits it had the miner sent a result for. */
  function ResultsFrom(ws: seq<World>, es: seq<Event>, g: nat, n: nat): multiset<string>
    requires n <= |es| < |ws|
  {
    if n == 0 then multiset{}
    else ResultsFrom(ws, es, g, n - 1) + ResultAt(ws[n - 1], es[n - 1], g, ws[n])
  }

  function ResultAt(w: World, e: Event, g: nat, v: World): multiset<string> {
    if e.ByReader? && e.generation == g && e.r.Answers? && |w.lines| < |v.lines| && v.lines[|w.lines|].Result?
    then multiset{v.lines[|w.lines|].id} else multiset{}
  }

  lemma LoopGives(book: OrderBook, w: World, l: LoopEvent, g: nat)
    requires LoopEnabled(book, w, l)
    ensures multiset(AskedOf(AfterLoop(book, w, l), g)) == multiset(AskedOf(w, g)) + GivenAt(w, ByLoop(l), g)
  {
    if l.Submit? && w.s.generation == g && w.s.translating {
      assert AskedOf(AfterLoop(book, w, l), g) == AskedOf(w, g) + [l.id];
    }
  }

  lemma ReaderAnswers(w: World, g: nat, r: ReaderEvent, h: nat)
    requires ReaderEnabled(w, g, r)
    ensures var v := AfterReader(w, g, r);
            multiset(AskedOf(v, h)) + ResultAt(w, ByReader(g, r), h, v) == multiset(AskedOf(w, h))
  {
    if r.Answers? {
      AnswerTakesOne(w, g, r.k, r.ok, h);
      TakeOut(AskedOf(w, g), r.k);
    } else {
      OthersAnswerNothing(w, g, r, h);
    }
  }

  lemma AnswerTakesOne(w: World, g: nat, k: nat, ok: bool, h: nat)
    requires ReaderEnabled(w, g, Answers(k, ok))
    ensures var v := AfterReader(w, g, Answers(k, ok));
            && ResultAt(w, ByReader(g, Answers(k, ok)), h, v) ==
               (if h == g then multiset{AskedOf(w, g)[k]} else multiset{})
            && AskedOf(v, h) == if h == g then AskedOf(w, g)[..k] + AskedOf(w, g)[k + 1..] else AskedOf(w, h)
  {
  }

  lemma OthersAnswerNothing(w: World, g: nat, r: ReaderEvent, h: nat)
    requires ReaderEnabled(w, g, r) && !r.Answers?
    ensures AfterReader(w, g, r).asked == w.asked
  {
  }

  lemma TakeOut(q: seq<string>, k: nat)
    requires k < |q|
    ensures multiset(q[..k] + q[k + 1..]) + multiset{q[k]} == multiset(q)
  {
    assert q == q[..k] + [q[k]] + q[k + 1..];
  }

  lemma StepAnswers(book: OrderBook, w: World, e: Event, g: nat)
    requires Enabled(book, w, e)
    ensures var v := Apply(book, w, e);
            multiset(AskedOf(v, g)) + ResultAt(w, e, g, v) == multiset(AskedOf(w, g)) + GivenAt(w, e, g)
  {
    match e
    case ByLoop(l) => LoopGives(book, w, l, g);
    case ByReader(h, r) => ReaderAnswers(w, h, r, g);
    case BySwap(x) => SwapAsksNothing(book, w, x);
    case ForceReconnect =>
  }

  lemma SwapAsksNothing(book: OrderBook, w: World, x: SwapEvent)
    requires SwapEnabled(book, w, x)
    ensures AfterSwap(book, w, x).asked == w.asked
  {
  }

  /** A translated connection answers the submits made over it, each at most once, and no others. */
  lemma {:induction false} EachAnsweredOnce(book: OrderBook, ws: seq<World>, es: seq<Event>, g: nat, n: nat)
    requires Run(book, ws, es) && n < |ws|
    ensures ResultsFrom(ws, es, g, n) + multiset(AskedOf(ws[n], g)) == GivenTo(ws, es, g, n)
    ensures ResultsFrom(ws, es, g, n) <= GivenTo(ws, es, g, n)
  {
    if n > 0 {
      EachAnsweredOnce(book, ws, es, g, n - 1);
      assert Stepped(book, ws, es, n - 1);
      StepAnswers(book, ws[n - 1], es[n - 1], g);
      Balance(ResultsFrom(ws, es, g, n - 1), ResultAt(ws[n - 1], es[n - 1], g, ws[n]),
              multiset(AskedOf(ws[n - 1], g)), multiset(AskedOf(ws[n], g)),
              GivenTo(ws, es, g, n - 1), GivenAt(ws[n - 1], es[n - 1], g));
    }
  }

  lemma Balance(out: multiset<string>, more: multiset<string>, left: multiset<string>, after: multiset<string>,
                given: multiset<string>, got: multiset<string>)
    requires out + left == given && after + more == left + got
    ensures (out + more) + after == given + got && out + more <= given + got
  {
    assert (out + more) + after == out + (after + more);
    assert out + (left + got) == given + got;
  }

  // --- who takes a live change ---

  ghost predicate SaidCapable(es: seq<Event>, n: nat) {
    exists k | 0 <= k < n && k < |es| :: es[k] == ByLoop(ExtranonceSubscribe)
  }

  lemma StepCapable(book: OrderBook, w: World, e: Event)
    requires Enabled(book, w, e)
    ensures Apply(book, w, e).s.capable <==> w.s.capable || e == ByLoop(ExtranonceSubscribe)
  {
    match e
    case ByLoop(l) => LoopCapable(book, w, l);
    case ByReader(g, r) => ReaderKeepsCapable(w, g, r);
    case BySwap(x) => SwapKeepsCapable(book, w, x);
    case ForceReconnect =>
  }

  lemma ReaderKeepsCapable(w: World, g: nat, r: ReaderEvent)
    requires ReaderEnabled(w, g, r)
    ensures AfterReader(w, g, r).s.capable == w.s.capable
  {
    ReadersKeepPlace(w.s, g, r);
  }

  lemma SwapKeepsCapable(book: OrderBook, w: World, x: SwapEvent)
    requires SwapEnabled(book, w, x)
    ensures AfterSwap(book, w, x).s.capable == w.s.capable
  {
  }

  lemma LoopCapable(book: OrderBook, w: World, l: LoopEvent)
    requires LoopEnabled(book, w, l)
    ensures AfterLoop(book, w, l).s.capable <==> w.s.capable || l == ExtranonceSubscribe
  {
  }

  lemma {:induction false} CapableIff(book: OrderBook, ws: seq<World>, es: seq<Event>, n: nat)
    requires Run(book, ws, es) && n < |ws|
    ensures ws[n].s.capable <==> SaidCapable(es, n)
  {
    if n > 0 {
      CapableIff(book, ws, es, n - 1);
      assert Stepped(book, ws, es, n - 1);
      StepCapable(book, ws[n - 1], es[n - 1]);
    }
  }

  lemma SwapGoesOn(book: OrderBook, w: World, e: Event)
    requires Enabled(book, w, e) && w.swap.Some? && Apply(book, w, e).swap.Some?
    ensures Apply(book, w, e).swap.value.capable == w.swap.value.capable
  {
    if !e.BySwap? {
      OthersKeepPlace(book, w, e);
    }
  }

  lemma {:induction false} SwapKnowsCapable(book: OrderBook, ws: seq<World>, es: seq<Event>, i: nat, j: nat)
    requires Run(book, ws, es) && i < j < |ws| && es[i].BySwap? && es[i].x.Begin?
    requires forall k | i < k <= j :: ws[k].swap.Some?
    ensures ws[j].swap.value.capable == ws[i].s.capable
  {
    assert Stepped(book, ws, es, j - 1);
    if i + 1 < j {
      SwapKnowsCapable(book, ws, es, i, j - 1);
      SwapGoesOn(book, ws[j - 1], es[j - 1]);
    }
  }

  /** A swap tells the miner the new extranonce if the miner had asked for live changes before the
      swap began, and makes it reconnect if not. */
  lemma TellsOrReconnects(book: OrderBook, ws: seq<World>, es: seq<Event>, i: nat, j: nat)
    requires Run(book, ws, es) && i < j < |es| && es[i].BySwap? && es[i].x.Begin? && es[j] == BySwap(Tell)
    requires forall k | i < k <= j :: ws[k].swap.Some?
    ensures if SaidCapable(es, i) then ws[j + 1].lines == ws[j].lines + [SetExtranonce(ws[j].s.extranonce)]
            else ws[j + 1].lines == ws[j].lines && ws[j + 1].reconnect
  {
    CapableIff(book, ws, es, i);
    SwapKnowsCapable(book, ws, es, i, j);
    assert Stepped(book, ws, es, j);
    RunInv(book, ws, es, j);
  }
}
