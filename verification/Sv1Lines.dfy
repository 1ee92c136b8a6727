/** What an SV1 miner is handed over a whole run: the extranonce it works on, and the order of
    the subscribe answer and the translated jobs. */
module Sv1Lines {
  import opened Options
  import opened Types
  import opened Sv1
  import opened Sv1Protocol

  // --- the extranonce the miner works on ---

  /** The miner was last told the session's extranonce, or told to come back. */
  predicate Current(w: World) {
    w.told == Some(w.s.extranonce) || w.reconnect
  }

  /** A swap has installed its upstream and not yet told the miner. */
  predicate TellPending(w: World) {
    w.swap.Some? && w.swap.value.stage.Installed?
  }

  /** The miner has had its subscribe answer. */
  predicate Answered(w: World) {
    w.s.subscribed || w.arm.Replied?
  }

  predicate UpToDate(w: World) {
    Answered(w) && !TellPending(w) ==> Current(w)
  }

  /** A subscribe answer with an extranonce that is no longer the session's, to a miner that
      nothing else is about to set right. */
  predicate StaleReply(w: World, e: Event) {
    e == ByLoop(Reply) && w.arm.Read? && w.arm.extranonce != w.s.extranonce && !w.reconnect && !TellPending(w)
  }

  /** The events after which the miner knows better: another answer, the word of a swap, or a
      request to reconnect. */
  predicate Retells(e: Event) {
    e == ByLoop(Reply) || e == BySwap(Tell) || e == ForceReconnect
  }

  lemma ReaderKeepsTold(w: World, g: nat, r: ReaderEvent)
    requires ReaderEnabled(w, g, r)
    ensures var v := AfterReader(w, g, r);
            v.told == w.told && v.reconnect == w.reconnect && v.arm == w.arm && v.s.subscribed == w.s.subscribed &&
            v.s.extranonce == w.s.extranonce && v.swap == w.swap
  {
    ReadersKeepPlace(w.s, g, r);
  }

  lemma LoopIsStaleIff(book: OrderBook, w: World, l: LoopEvent)
    requires LoopEnabled(book, w, l) && UpToDate(w)
    ensures !UpToDate(AfterLoop(book, w, l)) <==> StaleReply(w, ByLoop(l))
  {
  }

  lemma SwapKeepsUpToDate(book: OrderBook, w: World, x: SwapEvent)
    requires GenerationInv(w) && SwapEnabled(book, w, x) && UpToDate(w)
    ensures UpToDate(AfterSwap(book, w, x))
  {
  }

  /** One step leaves an up-to-date miner behind exactly when it is a stale subscribe answer. */
  lemma StaleOnlyByReply(book: OrderBook, w: World, e: Event)
    requires GenerationInv(w) && Enabled(book, w, e) && UpToDate(w)
    ensures !UpToDate(Apply(book, w, e)) <==> StaleReply(w, e)
  {
    match e
    case ByLoop(l) => LoopIsStaleIff(book, w, l);
    case ByReader(g, r) => ReaderKeepsTold(w, g, r);
    case BySwap(x) => SwapKeepsUpToDate(book, w, x);
    case ForceReconnect =>
  }

  /** Not told the current extranonce, unless a swap is about to. */
  predicate Behind(w: World) {
    TellPending(w) || !Current(w)
  }

  lemma SwapKeepsBehind(book: OrderBook, w: World, x: SwapEvent)
    requires SwapEnabled(book, w, x) && Behind(w) && !x.Tell?
    ensures Behind(AfterSwap(book, w, x))
  {
  }

  lemma LoopKeepsBehind(book: OrderBook, w: World, l: LoopEvent)
    requires LoopEnabled(book, w, l) && Behind(w) && !l.Reply?
    ensures Behind(AfterLoop(book, w, l))
  {
  }

  lemma StepKeepsBehind(book: OrderBook, w: World, e: Event)
    requires Enabled(book, w, e) && Behind(w) && !Retells(e)
    ensures Behind(Apply(book, w, e))
  {
    match e
    case ByLoop(l) => LoopKeepsBehind(book, w, l);
    case ByReader(g, r) => ReaderKeepsTold(w, g, r);
    case BySwap(x) => SwapKeepsBehind(book, w, x);
    case ForceReconnect =>
  }

  /** The last event that told the miner anything was a stale subscribe answer, at m. */
  ghost predicate LastWasStale(ws: seq<World>, es: seq<Event>, n: nat, m: nat) {
    && |ws| == |es| + 1 && m < n <= |es|
    && StaleReply(ws[m], es[m])
    && forall k | m < k < n :: !Retells(es[k])
  }

  lemma {:induction false} StaleStays(book: OrderBook, ws: seq<World>, es: seq<Event>, n: nat, m: nat)
    requires Run(book, ws, es) && n < |ws| && LastWasStale(ws, es, n, m)
    ensures Behind(ws[n])
  {
    assert Stepped(book, ws, es, n - 1);
    if n > m + 1 {
      StaleStays(book, ws, es, n - 1, m);
      StepKeepsBehind(book, ws[n - 1], es[n - 1]);
    }
  }

  lemma {:induction false} StaleHasCause(book: OrderBook, ws: seq<World>, es: seq<Event>, n: nat) returns (m: nat)
    requires Run(book, ws, es) && n < |ws| && !UpToDate(ws[n])
    ensures LastWasStale(ws, es, n, m)
  {
    assert n > 0;
    assert Stepped(book, ws, es, n - 1);
    RunInv(book, ws, es, n - 1);
    if UpToDate(ws[n - 1]) {
      StaleOnlyByReply(book, ws[n - 1], es[n - 1]);
      m := n - 1;
    } else if es[n - 1] == ByLoop(Reply) {
      RepliesAreStaleOrCurrent(book, ws[n - 1]);
      m := n - 1;
    } else {
      if es[n - 1] == BySwap(Tell) || es[n - 1] == ForceReconnect {
        SetsRight(book, ws[n - 1], es[n - 1]);
      }
      m := StaleHasCause(book, ws, es, n - 1);
    }
  }

  lemma RepliesAreStaleOrCurrent(book: OrderBook, w: World)
    requires w.arm.Read? && !UpToDate(AfterLoop(book, w, Reply))
    ensures StaleReply(w, ByLoop(Reply))
  {
  }

  lemma SetsRight(book: OrderBook, w: World, e: Event)
    requires GenerationInv(w) && Enabled(book, w, e) && (e == BySwap(Tell) || e == ForceReconnect)
    ensures UpToDate(Apply(book, w, e))
  {
  }

  /** An SV1 miner is left on a stale extranonce exactly so: whenever it has had its answer and no
      swap is about to tell it, it was last told something else than the session's extranonce,
      and not to reconnect, if and only if the last event that told it anything was a subscribe
      answer overtaken by an install. */
  lemma StaleIff(book: OrderBook, ws: seq<World>, es: seq<Event>, n: nat)
    requires Run(book, ws, es) && n < |ws| && Answered(ws[n]) && !TellPending(ws[n])
    ensures ws[n].told != Some(ws[n].s.extranonce) && !ws[n].reconnect <==>
            exists m: nat :: LastWasStale(ws, es, n, m)
  {
    if !Current(ws[n]) {
      var m := StaleHasCause(book, ws, es, n);
    }
    if m: nat :| LastWasStale(ws, es, n, m) {
      StaleStays(book, ws, es, n, m);
    }
  }

  /** What the loop has read is current, or the miner is to reconnect, now or by the swap. */
  predicate ReadInv(w: World) {
    w.arm.Read? ==> w.arm.extranonce == w.s.extranonce || w.reconnect || (TellPending(w) && !w.swap.value.capable)
  }

  /** No upstream is installed by a live switch between the two halves of a subscribe answer:
      reading the extranonce and sending it. */
  ghost predicate Undivided(ws: seq<World>, es: seq<Event>, n: nat) {
    |ws| == |es| + 1 && n <= |es| &&
    forall i: nat | i < n && es[i].BySwap? && es[i].x.Connect? && ws[i].arm.Read? ::
      ws[i].swap.Some? && !ws[i].swap.value.capable
  }

  lemma SwapKeepsRead(book: OrderBook, w: World, x: SwapEvent)
    requires ReadInv(w) && SwapEnabled(book, w, x)
    requires x.Connect? && w.arm.Read? ==> !w.swap.value.capable
    ensures ReadInv(AfterSwap(book, w, x))
  {
  }

  lemma StepKeepsRead(book: OrderBook, w: World, e: Event)
    requires ReadInv(w) && Enabled(book, w, e)
    requires e.BySwap? && e.x.Connect? && w.arm.Read? ==> !w.swap.value.capable
    ensures ReadInv(Apply(book, w, e))
  {
    match e
    case ByReader(g, r) => ReaderKeepsTold(w, g, r);
    case BySwap(x) => SwapKeepsRead(book, w, x);
    case _ =>
  }

  lemma {:induction false} RunRead(book: OrderBook, ws: seq<World>, es: seq<Event>, n: nat)
    requires Run(book, ws, es) && n < |ws| && Undivided(ws, es, n)
    ensures ReadInv(ws[n])
  {
    if n > 0 {
      RunRead(book, ws, es, n - 1);
      assert Stepped(book, ws, es, n - 1);
      StepKeepsRead(book, ws[n - 1], es[n - 1]);
    }
  }

  /** So a miner whose answers are not divided by a live switch is never left stale: whenever no
      swap holds the `switch` lock, a subscribed miner was last told the session's extranonce,
      or told to reconnect. */
  lemma NeverStale(book: OrderBook, ws: seq<World>, es: seq<Event>, n: nat)
    requires Run(book, ws, es) && n < |ws| && Undivided(ws, es, n)
    requires ws[n].swap.None? && ws[n].s.subscribed
    ensures ws[n].told == Some(ws[n].s.extranonce) || ws[n].reconnect
  {
    StaleIff(book, ws, es, n);
    if m: nat :| LastWasStale(ws, es, n, m) {
      assert Undivided(ws, es, m);
      RunRead(book, ws, es, m);
    }
  }

  /** Nor is one that takes no live changes, whatever its answers are divided by. */
  lemma NonCapableNeverStale(book: OrderBook, ws: seq<World>, es: seq<Event>, n: nat)
    requires Run(book, ws, es) && n < |ws|
    requires forall i | 0 <= i < n :: !ws[i].s.capable && (ws[i].swap.Some? ==> !ws[i].swap.value.capable)
    requires ws[n].swap.None? && ws[n].s.subscribed
    ensures ws[n].told == Some(ws[n].s.extranonce) || ws[n].reconnect
  {
    forall i: nat | i < n && es[i].BySwap? && es[i].x.Connect? && ws[i].arm.Read?
      ensures ws[i].swap.Some? && !ws[i].swap.value.capable
    {
      assert Stepped(book, ws, es, i);
    }
    NeverStale(book, ws, es, n);
  }

  /** A capable miner that is being answered a subscribe with `en`, by a session that has nothing
      waiting for it. */
  predicate Answering(w: World, en: Extranonce) {
    w.s.capable && w.arm == Read(en) && w.swap.None? && !w.reconnect && w.s.prelude == []
  }

  lemma BeginsAnswering(book: OrderBook, pool: UpstreamTarget, en: Extranonce)
      returns (ws: seq<World>, es: seq<Event>)
    ensures Run(book, ws, es) && |es| == 2 && Answering(ws[2], en)
  {
    ws, es := [Start(pool, Passthrough(en, []))], [];
    assert Run(book, ws, es) by {
      assert ws[0] == Start(pool, Passthrough(en, []));
    }
    ws, es := Extend(book, ws, es, ByLoop(ExtranonceSubscribe));
    ws, es := Extend(book, ws, es, ByLoop(ReadExtranonce));
  }

  /** A live switch as seen by such a miner: its events are enabled one after the other. */
  lemma LiveSwitch(book: OrderBook, w: World, pool: UpstreamTarget, en: Extranonce, next: Extranonce)
    requires Answering(w, en)
    ensures SwapEnabled(book, w, Begin(pool, Idle)) && var w1 := AfterSwap(book, w, Begin(pool, Idle));
            && SwapEnabled(book, w1, Connect(Passthrough(next, []))) &&
            var w2 := AfterSwap(book, w1, Connect(Passthrough(next, [])));
            && SwapEnabled(book, w2, Tell) && var w3 := AfterSwap(book, w2, Tell);
            && SwapEnabled(book, w3, Take) && var w4 := AfterSwap(book, w3, Take);
            && SwapEnabled(book, w4, Hand) && var w5 := AfterSwap(book, w4, Hand);
            Answering(w5, en) && w5.s.extranonce == next
  {
  }

  /** A whole live switch, onto a connection with another extranonce. */
  lemma SwitchesLive(book: OrderBook, ws: seq<World>, es: seq<Event>, pool: UpstreamTarget, en: Extranonce,
                     next: Extranonce)
    returns (vs: seq<World>, fs: seq<Event>)
    requires Run(book, ws, es) && Answering(ws[|es|], en)
    ensures Run(book, vs, fs) && |fs| == |es| + 5 && Answering(vs[|fs|], en) && vs[|fs|].s.extranonce == next
  {
    LiveSwitch(book, ws[|es|], pool, en, next);
    vs, fs := Extend(book, ws, es, BySwap(Begin(pool, Idle)));
    vs, fs := Extend(book, vs, fs, BySwap(Connect(Passthrough(next, []))));
    vs, fs := Extend(book, vs, fs, BySwap(Tell));
    vs, fs := Extend(book, vs, fs, BySwap(Take));
    vs, fs := Extend(book, vs, fs, BySwap(Hand));
  }

  /** It does happen: a live switch that completes between the read and the reply leaves the
      miner on the extranonce of the connection it replaced, with no swap running that could
      still tell it. */
  lemma DividedReplyIsStale(book: OrderBook, pool: UpstreamTarget) returns (ws: seq<World>, es: seq<Event>)
    ensures Run(book, ws, es) && |es| == 9
    ensures ws[9].swap.None? && ws[9].s.subscribed && !ws[9].reconnect
    ensures ws[9].told.Some? && ws[9].told.value != ws[9].s.extranonce
  {
    var first, second := Extranonce("a", 4), Extranonce("b", 4);
    ws, es := BeginsAnswering(book, pool, first);
    ws, es := SwitchesLive(book, ws, es, pool, first, second);
    ws, es := Extend(book, ws, es, ByLoop(Reply));
    ws, es := Extend(book, ws, es, ByLoop(TakePrelude));
  }

  // --- the lines in the order they go out ---

  predicate Tells(l: Line) {
    l.SubscribeReply? || l.SetExtranonce?
  }

  /** The extranonce of the last line that names one. */
  function LastTold(lines: seq<Line>): Option<Extranonce> {
    if lines == [] then None
    else if Tells(lines[|lines| - 1]) then Some(lines[|lines| - 1].extranonce)
    else LastTold(lines[..|lines| - 1])
  }

  /** The line a step hands to the miner. */
  function NewLine(w: World, e: Event): Option<Line> {
    match e
    case ByLoop(Reply) => if w.arm.Read? then Some(SubscribeReply(w.arm.extranonce)) else None
    case ByLoop(HandOut) => if w.arm.Flushing? && w.arm.lines != [] then Some(w.arm.lines[0]) else None
    case ByReader(g, Sends) => if g in w.hands then Some(w.hands[g]) else None
    case ByReader(g, Answers(k, ok)) => if k < |AskedOf(w, g)| then Some(Result(AskedOf(w, g)[k], ok)) else None
    case BySwap(Tell) =>
      if TellPending(w) && w.swap.value.capable then Some(SetExtranonce(w.swap.value.stage.extranonce)) else None
    case BySwap(Hand) =>
      if w.swap.Some? && w.swap.value.stage.Handing? && w.swap.value.stage.lines != []
      then Some(w.swap.value.stage.lines[0]) else None
    case _ => None
  }

  function WithLine(lines: seq<Line>, l: Option<Line>): seq<Line> {
    if l.Some? then lines + [l.value] else lines
  }

  lemma LoopLines(book: OrderBook, w: World, l: LoopEvent)
    requires LoopEnabled(book, w, l)
    ensures AfterLoop(book, w, l).lines == WithLine(w.lines, NewLine(w, ByLoop(l)))
  {
  }

  lemma SwapLines(book: OrderBook, w: World, x: SwapEvent)
    requires SwapEnabled(book, w, x)
    ensures AfterSwap(book, w, x).lines == WithLine(w.lines, NewLine(w, BySwap(x)))
  {
  }

  /** Every step hands the miner at most one line, at the end. */
  lemma StepLines(book: OrderBook, w: World, e: Event)
    requires Enabled(book, w, e)
    ensures Apply(book, w, e).lines == WithLine(w.lines, NewLine(w, e))
  {
    match e
    case ByLoop(l) => LoopLines(book, w, l);
    case BySwap(x) => SwapLines(book, w, x);
    case _ =>
  }

  predicate NoneTells(lines: seq<Line>) {
    forall l | l in lines :: !Tells(l)
  }

  /** Nothing that waits somewhere names an extranonce. */
  ghost predicate WaitingInv(w: World) {
    && NoneTells(w.s.prelude)
    && (w.arm.Flushing? ==> NoneTells(w.arm.lines))
    && (w.swap.Some? && w.swap.value.stage.Handing? ==> NoneTells(w.swap.value.stage.lines))
    && (forall g | g in w.hands :: !Tells(w.hands[g]))
  }

  lemma LoopKeepsWaiting(book: OrderBook, w: World, l: LoopEvent)
    requires WaitingInv(w) && LoopEnabled(book, w, l)
    ensures WaitingInv(AfterLoop(book, w, l))
  {
  }

  lemma SwapKeepsWaiting(book: OrderBook, w: World, x: SwapEvent)
    requires WaitingInv(w) && SwapEnabled(book, w, x)
    ensures WaitingInv(AfterSwap(book, w, x))
  {
  }

  lemma HoldsTellNothing(s: Sv1State, g: nat, r: ReaderEvent)
    requires NoneTells(s.prelude)
    ensures var (t, line, _) := Hold(s, g, r); NoneTells(t.prelude) && (line.Some? ==> !Tells(line.value))
  {
  }

  lemma ReaderKeepsWaiting(w: World, g: nat, r: ReaderEvent)
    requires WaitingInv(w) && ReaderEnabled(w, g, r)
    ensures WaitingInv(AfterReader(w, g, r))
  {
    HoldsTellNothing(w.s, g, r);
  }

  lemma StepKeepsWaiting(book: OrderBook, w: World, e: Event)
    requires WaitingInv(w) && Enabled(book, w, e)
    ensures WaitingInv(Apply(book, w, e))
  {
    match e
    case ByLoop(l) => LoopKeepsWaiting(book, w, l);
    case ByReader(g, r) => ReaderKeepsWaiting(w, g, r);
    case BySwap(x) => SwapKeepsWaiting(book, w, x);
    case ForceReconnect =>
  }

  lemma LastToldSnoc(lines: seq<Line>, l: Line)
    ensures LastTold(lines + [l]) == if Tells(l) then Some(l.extranonce) else LastTold(lines)
  {
    assert (lines + [l])[..|lines|] == lines;
  }

  function ToldBy(told: Option<Extranonce>, l: Option<Line>): Option<Extranonce> {
    if l.Some? && Tells(l.value) then Some(l.value.extranonce) else told
  }

  lemma LoopTells(book: OrderBook, w: World, l: LoopEvent)
    requires WaitingInv(w) && LoopEnabled(book, w, l)
    ensures AfterLoop(book, w, l).told == ToldBy(w.told, NewLine(w, ByLoop(l)))
  {
  }

  lemma SwapTells(book: OrderBook, w: World, x: SwapEvent)
    requires WaitingInv(w) && SwapEnabled(book, w, x)
    ensures AfterSwap(book, w, x).told == ToldBy(w.told, NewLine(w, BySwap(x)))
  {
  }

  lemma ReaderTells(w: World, g: nat, r: ReaderEvent)
    requires WaitingInv(w) && ReaderEnabled(w, g, r)
    ensures AfterReader(w, g, r).told == ToldBy(w.told, NewLine(w, ByReader(g, r)))
  {
  }

  /** A step changes what the miner was told by the extranonce its line names. */
  lemma StepTells(book: OrderBook, w: World, e: Event)
    requires WaitingInv(w) && Enabled(book, w, e)
    ensures Apply(book, w, e).told == ToldBy(w.told, NewLine(w, e))
  {
    match e
    case ByLoop(l) => LoopTells(book, w, l);
    case ByReader(g, r) => ReaderTells(w, g, r);
    case BySwap(x) => SwapTells(book, w, x);
    case ForceReconnect =>
  }

  /** `told`, which the claims about extranonces speak of, is the extranonce of the last line
      handed to the miner that names one. */
  lemma {:induction false} ToldIsLastTold(book: OrderBook, ws: seq<World>, es: seq<Event>, n: nat)
    requires Run(book, ws, es) && n < |ws|
    ensures ws[n].told == LastTold(ws[n].lines) && WaitingInv(ws[n])
  {
    if n > 0 {
      var w, e := ws[n - 1], es[n - 1];
      ToldIsLastTold(book, ws, es, n - 1);
      assert Stepped(book, ws, es, n - 1);
      StepKeepsWaiting(book, w, e);
      StepTells(book, w, e);
      StepLines(book, w, e);
      if NewLine(w, e).Some? {
        LastToldSnoc(w.lines, NewLine(w, e).value);
      }
    }
  }

  // --- jobs and the subscribe answer ---

  predicate WasAnswered(lines: seq<Line>) {
    exists k :: 0 <= k < |lines| && lines[k].SubscribeReply?
  }

  /** A translated line that came before any subscribe answer. */
  ghost predicate Early(lines: seq<Line>) {
    exists k :: 0 <= k < |lines| && lines[k].Translated? && !WasAnswered(lines[..k])
  }

  lemma AnsweredSnoc(lines: seq<Line>, l: Line)
    ensures WasAnswered(lines + [l]) <==> WasAnswered(lines) || l.SubscribeReply?
  {
    if k :| 0 <= k < |lines| && lines[k].SubscribeReply? {
      assert (lines + [l])[k].SubscribeReply?;
    }
    if l.SubscribeReply? {
      assert (lines + [l])[|lines|].SubscribeReply?;
    }
  }

  lemma EarlySnoc(lines: seq<Line>, l: Line)
    ensures Early(lines + [l]) <==> Early(lines) || (l.Translated? && !WasAnswered(lines))
  {
    var more := lines + [l];
    if k :| 0 <= k < |lines| && lines[k].Translated? && !WasAnswered(lines[..k]) {
      assert more[k].Translated? && more[..k] == lines[..k];
    }
    if l.Translated? && !WasAnswered(lines) {
      assert more[|lines|].Translated? && more[..|lines|] == lines;
    }
    if k :| 0 <= k < |more| && more[k].Translated? && !WasAnswered(more[..k]) {
      assert more[..k] == lines[..k];
      assert k == |lines| ==> lines[..k] == lines;
    }
  }

  /** Whoever is sure the miner was answered is right: the loop past its reply, a subscribed
      session, and a reader with a translated line in hand. */
  ghost predicate SureInv(w: World) {
    && (w.s.subscribed || w.arm.Replied? || w.arm.Flushing? ==> WasAnswered(w.lines))
    && (forall g | g in w.hands && w.hands[g].Translated? :: WasAnswered(w.lines))
  }

  lemma AnswerStays(w: World, e: Event, book: OrderBook)
    requires Enabled(book, w, e)
    ensures WasAnswered(w.lines) ==> WasAnswered(Apply(book, w, e).lines)
    ensures e == ByLoop(Reply) ==> WasAnswered(Apply(book, w, e).lines)
  {
    StepLines(book, w, e);
    if NewLine(w, e).Some? {
      AnsweredSnoc(w.lines, NewLine(w, e).value);
    }
  }

  lemma HoldTranslatesIf(s: Sv1State, g: nat, r: ReaderEvent)
    ensures var (t, line, _) := Hold(s, g, r);
            t.subscribed == s.subscribed && (line.Some? && line.value.Translated? ==> s.subscribed)
  {
  }

  lemma ReaderKeepsSure(w: World, g: nat, r: ReaderEvent, lines: seq<Line>)
    requires ReaderEnabled(w, g, r) && SureInv(w) && (WasAnswered(w.lines) ==> WasAnswered(lines))
    ensures SureInv(AfterReader(w, g, r).(lines := lines))
  {
    HoldTranslatesIf(w.s, g, r);
  }

  lemma LoopKeepsSure(book: OrderBook, w: World, l: LoopEvent, lines: seq<Line>)
    requires LoopEnabled(book, w, l) && SureInv(w) && (WasAnswered(w.lines) || l.Reply? ==> WasAnswered(lines))
    ensures SureInv(AfterLoop(book, w, l).(lines := lines))
  {
  }

  lemma SwapKeepsSure(book: OrderBook, w: World, x: SwapEvent, lines: seq<Line>)
    requires SwapEnabled(book, w, x) && SureInv(w) && (WasAnswered(w.lines) ==> WasAnswered(lines))
    ensures SureInv(AfterSwap(book, w, x).(lines := lines))
  {
  }

  lemma StepKeepsSure(book: OrderBook, w: World, e: Event)
    requires SureInv(w) && Enabled(book, w, e)
    ensures SureInv(Apply(book, w, e))
  {
    AnswerStays(w, e, book);
    var lines := Apply(book, w, e).lines;
    match e
    case ByLoop(l) => LoopKeepsSure(book, w, l, lines);
    case ByReader(g, r) => ReaderKeepsSure(w, g, r, lines);
    case BySwap(x) => SwapKeepsSure(book, w, x, lines);
    case ForceReconnect =>
  }

  lemma {:induction false} RunSure(book: OrderBook, ws: seq<World>, es: seq<Event>, n: nat)
    requires Run(book, ws, es) && n < |ws|
    ensures SureInv(ws[n])
  {
    if n > 0 {
      RunSure(book, ws, es, n - 1);
      assert Stepped(book, ws, es, n - 1);
      StepKeepsSure(book, ws[n - 1], es[n - 1]);
    }
  }

  /** A swap hands a waiting job to a miner that was not answered yet. */
  predicate HandsEarly(w: World, e: Event) {
    e == BySwap(Hand) && NewLine(w, e).Some? && NewLine(w, e).value.Translated? && !WasAnswered(w.lines)
  }

  /** A translated job never precedes the subscribe answer, unless a swap hands out the waiting
      lines before: a step puts the first such line in front exactly when it does that. */
  lemma JobsFollowTheAnswerUnless(book: OrderBook, ws: seq<World>, es: seq<Event>, n: nat)
    requires Run(book, ws, es) && n < |es| && !Early(ws[n].lines)
    ensures Early(ws[n + 1].lines) <==> HandsEarly(ws[n], es[n])
  {
    assert Stepped(book, ws, es, n);
    StepLines(book, ws[n], es[n]);
    RunSure(book, ws, es, n);
    if NewLine(ws[n], es[n]).Some? {
      EarlySnoc(ws[n].lines, NewLine(ws[n], es[n]).value);
    }
  }

  /** A connection onto a translated pool, with a capable miner that has not subscribed. */
  predicate Unsubscribed(w: World, g: nat) {
    w.s.capable && !w.s.subscribed && w.s.generation == g && w.lines == [] && w.hands == map[] && g in w.pools
  }

  lemma EarlySwitch(book: OrderBook, w: World, pool: UpstreamTarget, raw: RawUpstream)
    requires Unsubscribed(w, 1) && w.s.generationCounter == 1 && w.swap.None? && raw.Translation?
    ensures SwapEnabled(book, w, Begin(pool, Idle)) && var w1 := AfterSwap(book, w, Begin(pool, Idle));
            && SwapEnabled(book, w1, Connect(raw)) && var w2 := AfterSwap(book, w1, Connect(raw));
            && Unsubscribed(w2, 2) && w2.swap == Some(Swap(2, true, pool, Idle, Installed(raw.extranonce)))
            && w2.s.prelude == [Forwarded(SetDifficulty(Some(raw.difficulty)))]
  {
  }

  lemma EarlyHand(book: OrderBook, w: World, text: string)
    requires Unsubscribed(w, 2) && TellPending(w) && w.swap.value.capable
    requires |w.s.prelude| == 1 && w.s.prelude[0].Forwarded?
    ensures ReaderEnabled(w, 2, Translates(text)) && var w1 := AfterReader(w, 2, Translates(text));
            && SwapEnabled(book, w1, Tell) && var w2 := AfterSwap(book, w1, Tell);
            && SwapEnabled(book, w2, Take) && var w3 := AfterSwap(book, w2, Take);
            && SwapEnabled(book, w3, Hand) && var w4 := AfterSwap(book, w3, Hand);
            && SwapEnabled(book, w4, Hand) && var w5 := AfterSwap(book, w4, Hand);
            w5.lines == [SetExtranonce(w.swap.value.stage.extranonce), w.s.prelude[0], Translated(text)]
  {
  }

  lemma BeginsEarlySwitch(book: OrderBook, pool: UpstreamTarget, raw: RawUpstream)
      returns (ws: seq<World>, es: seq<Event>)
    requires raw.Translation?
    ensures Run(book, ws, es) && |es| == 3 && Unsubscribed(ws[3], 2) && TellPending(ws[3]) && ws[3].swap.value.capable
    ensures ws[3].s.prelude == [Forwarded(SetDifficulty(Some(raw.difficulty)))]
  {
    ws, es := [Start(pool, raw)], [];
    assert Run(book, ws, es) by {
      assert ws[0] == Start(pool, raw);
    }
    ws, es := Extend(book, ws, es, ByLoop(ExtranonceSubscribe));
    EarlySwitch(book, ws[1], pool, raw);
    ws, es := Extend(book, ws, es, BySwap(Begin(pool, Idle)));
    ws, es := Extend(book, ws, es, BySwap(Connect(raw)));
  }

  /** Such a hand-out does happen: a run in which a job is the third line a miner gets, ahead of
      any subscribe answer. */
  lemma JobBeforeTheAnswer(book: OrderBook, pool: UpstreamTarget, raw: RawUpstream, text: string)
    returns (ws: seq<World>, es: seq<Event>)
    requires raw.Translation?
    ensures Run(book, ws, es) && |es| == 8 && Early(ws[8].lines)
  {
    ws, es := BeginsEarlySwitch(book, pool, raw);
    EarlyHand(book, ws[3], text);
    ws, es := Extend(book, ws, es, ByReader(2, Translates(text)));
    ws, es := Extend(book, ws, es, BySwap(Tell));
    ws, es := Extend(book, ws, es, BySwap(Take));
    ws, es := Extend(book, ws, es, BySwap(Hand));
    ws, es := Extend(book, ws, es, BySwap(Hand));
    ThirdIsEarly(ws[8].lines);
  }

  lemma ThirdIsEarly(lines: seq<Line>)
    requires |lines| == 3 && lines[2].Translated? && !lines[0].SubscribeReply? && !lines[1].SubscribeReply?
    ensures Early(lines)
  {
    assert !WasAnswered(lines[..2]);
  }
}
