/** The SV1 relay session (`src/proto/relay.rs`): what each hold of the session's lock does, as a
    function of the state, and the session object whose methods do it in place. */
module Sv1 {
  import opened Options
  import opened Types

  /** What a pool's subscribe reply gives a miner to roll. */
  datatype Extranonce = Extranonce(prefix: string, size: nat)

  /** An in-flight submit: the connection it went to and the difficulty at that time. */
  datatype InFlight = InFlight(generation: nat, difficulty: real)

  /** A line of the upstream, as far as the session looks at it. */
  datatype UpstreamMsg =
    | SetDifficulty(difficulty: Option<real>)
    | Response(id: string, ok: bool)
    | Other(text: string)

  datatype Line =
    | Forwarded(msg: UpstreamMsg)
    | SubscribeReply(extranonce: Extranonce)
    | SetExtranonce(extranonce: Extranonce)
    | Translated(text: string)
    | Result(id: string, ok: bool)

  /** A connected upstream: an SV1 pool, or an SV2 pool behind a translator. */
  datatype RawUpstream =
    | Passthrough(extranonce: Extranonce, prelude: seq<UpstreamMsg>)
    | Translation(extranonce: Extranonce, difficulty: real)

  datatype Sv1State = Sv1State(
    generation: nat, target: UpstreamTarget, generationCounter: nat,
    difficulty: real, pending: map<string, InFlight>,
    deliveredWork: real, acceptedShares: nat, submittedShares: nat,
    routing: Routing, defaultTarget: UpstreamTarget, capable: bool, prelude: seq<Line>,
    extranonce: Extranonce, translating: bool, subscribed: bool)

  function Booked(s: Sv1State, work: real, shares: nat): Sv1State {
    s.(deliveredWork := s.deliveredWork + work, acceptedShares := s.acceptedShares + shares)
  }

  /** A line read from the connection `generation`: the state after it, whether the line goes on
      to the miner, and the credit it brings. */
  function OnUpstreamMsg(s: Sv1State, generation: nat, msg: UpstreamMsg): (Sv1State, bool, Option<Credit>) {
    if generation != s.generation then (s, false, None)
    else
      match msg
      case SetDifficulty(d) => (if d.Some? then s.(difficulty := d.value) else s, true, None)
      case Response(id, ok) =>
        if id !in s.pending then (s, true, None)
        else
          var f := s.pending[id];
          var t := s.(pending := s.pending - {id});
          if f.generation == generation && ok
          then (Booked(t, f.difficulty, 1), true, Some(Credit(generation, s.routing, f.difficulty, 1)))
          else (t, true, None)
      case Other(_) => (s, true, None)
  }

  function OnSubmit(s: Sv1State, id: string): Sv1State {
    s.(submittedShares := s.submittedShares + 1,
       pending := if s.translating then s.pending else s.pending[id := InFlight(s.generation, s.difficulty)])
  }

  function Forwards(msgs: seq<UpstreamMsg>): (lines: seq<Line>)
    ensures forall l | l in lines :: l.Forwarded?
  {
    seq(|msgs|, i requires 0 <= i < |msgs| => Forwarded(msgs[i]))
  }

  /** What a new connection has for the miner to begin with. */
  function FirstLines(raw: RawUpstream): (lines: seq<Line>)
    ensures forall l | l in lines :: l.Forwarded?
  {
    if raw.Translation? then [Forwarded(SetDifficulty(Some(raw.difficulty)))] else Forwards(raw.prelude)
  }

  function Install(s: Sv1State, raw: RawUpstream, generation: nat, target: UpstreamTarget,
                   routing: Routing): Sv1State {
    s.(generation := generation, target := target, routing := routing, extranonce := raw.extranonce,
       translating := raw.Translation?, difficulty := if raw.Translation? then raw.difficulty else s.difficulty,
       pending := map[], prelude := FirstLines(raw))
  }

  /** A line of the translator goes out if the miner has subscribed and waits in the prelude if not. */
  function SendOrStash(s: Sv1State, generation: nat, text: string): (Sv1State, bool) {
    if generation != s.generation then (s, false)
    else if s.subscribed then (s, true)
    else (s.(prelude := s.prelude + [Translated(text)]), false)
  }

  function WithTranslateDifficulty(s: Sv1State, generation: nat, difficulty: real): Sv1State {
    if generation != s.generation then s else s.(difficulty := difficulty)
  }

  function WorkOf(difficulty: real, count: nat): real {
    difficulty * count as real
  }

  function CreditTranslated(s: Sv1State, generation: nat, count: nat): (Sv1State, Option<Credit>) {
    var work := WorkOf(s.difficulty, count);
    if generation != s.generation || work <= 0.0 then (s, None)
    else (Booked(s, work, count), Some(Credit(generation, s.routing, work, count)))
  }

  function Fresh(target: UpstreamTarget): Sv1State {
    Sv1State(0, target, 0, 1.0, map[], 0.0, 0, 0, Idle, target, false, [], Extranonce("", 0), false, false)
  }

  /** The session after its handshake with the bootstrap pool. */
  function Established(target: UpstreamTarget, raw: RawUpstream): Sv1State {
    Install(Fresh(target).(generationCounter := 1), raw, 1, target, Idle)
  }

  class Sv1Session {
    var generation: nat
    var target: UpstreamTarget
    var generationCounter: nat
    var difficulty: real
    var pending: map<string, InFlight>
    var deliveredWork: real
    var acceptedShares: nat
    var submittedShares: nat
    var routing: Routing
    var defaultTarget: UpstreamTarget
    var capable: bool
    var prelude: seq<Line>
    var extranonce: Extranonce
    var translating: bool
    var subscribed: bool

    function View(): Sv1State
      reads this
    {
      Sv1State(generation, target, generationCounter, difficulty, pending, deliveredWork, acceptedShares,
               submittedShares, routing, defaultTarget, capable, prelude, extranonce, translating, subscribed)
    }

    constructor (target: UpstreamTarget, raw: RawUpstream)
      ensures View() == Established(target, raw)
    {
      generation, this.target, generationCounter := 0, target, 0;
      difficulty, pending, deliveredWork, acceptedShares, submittedShares := 1.0, map[], 0.0, 0, 0;
      routing, defaultTarget, capable, prelude := Idle, target, false, [];
      extranonce, translating, subscribed := Extranonce("", 0), false, false;
      new;
      generationCounter := generationCounter + 1;
      var _ := InstallRaw(raw, generationCounter, target, Idle);
    }

    method OnUpstreamLine(generation: nat, msg: UpstreamMsg)
      returns (forward: bool, credit: Option<Credit>)
      modifies this`difficulty, this`pending, this`deliveredWork, this`acceptedShares
      ensures (View(), forward, credit) == OnUpstreamMsg(old(View()), generation, msg)
    {
      if generation != this.generation {
        return false, None;
      }
      forward, credit := true, None;
      match msg {
        case SetDifficulty(d) =>
          if d.Some? {
            difficulty := d.value;
          }
        case Response(id, ok) =>
          if id in pending {
            var f := pending[id];
            pending := pending - {id};
            if f.generation == generation && ok {
              deliveredWork := deliveredWork + f.difficulty;
              acceptedShares := acceptedShares + 1;
              credit := Some(Credit(generation, routing, f.difficulty, 1));
            }
          }
        case Other(_) =>
      }
    }

    /** A submit of the miner; the order to count it for, if the session is rented. */
    method Submit(id: string) returns (order: Option<OrderId>)
      modifies this`pending, this`submittedShares
      ensures View() == OnSubmit(old(View()), id) && order == OrderOf(old(routing))
    {
      if !translating {
        pending := pending[id := InFlight(generation, difficulty)];
      }
      submittedShares := submittedShares + 1;
      order := match routing case Rented(o) => Some(o) case Idle => None;
    }

    /** First hold of a swap: the next generation, and whether the miner takes a live change. */
    method BeginSwap() returns (generation: nat, capable: bool)
      modifies this`generationCounter
      ensures View() == old(View()).(generationCounter := old(generationCounter) + 1)
      ensures generation == old(generationCounter) + 1 && capable == old(this.capable)
    {
      generationCounter := generationCounter + 1;
      return generationCounter, this.capable;
    }

    method InstallActive(generation: nat, target: UpstreamTarget, routing: Routing)
      modifies this`generation, this`target, this`routing
      ensures View() == old(View()).(generation := generation, target := target, routing := routing)
    {
      this.generation, this.target, this.routing := generation, target, routing;
    }

    method InstallRaw(raw: RawUpstream, generation: nat, target: UpstreamTarget, routing: Routing)
      returns (told: Extranonce)
      modifies this`generation, this`target, this`routing, this`extranonce, this`translating, this`difficulty,
               this`pending, this`prelude
      ensures View() == Install(old(View()), raw, generation, target, routing) && told == raw.extranonce
    {
      InstallActive(generation, target, routing);
      if raw.Translation? {
        difficulty := raw.difficulty;
      }
      prelude := FirstLines(raw);
      extranonce, translating, pending := raw.extranonce, raw.Translation?, map[];
      told := raw.extranonce;
    }

    method TakePrelude() returns (lines: seq<Line>)
      modifies this`prelude
      ensures View() == old(View()).(prelude := []) && lines == old(prelude)
    {
      lines := prelude;
      prelude := [];
    }

    /** The whole of a swap whose connect succeeded, with no other hold in between: the lines for
        the miner in order, and whether it is made to reconnect instead of taking a live change. */
    method SwapUpstream(raw: RawUpstream, target: UpstreamTarget, routing: Routing)
      returns (lines: seq<Line>, reconnect: bool)
      modifies this
      ensures var g := old(generationCounter) + 1;
              View() == Install(old(View()), raw, g, target, routing).(generationCounter := g, prelude := [])
      ensures reconnect == !old(capable)
      ensures old(capable) ==> |lines| > 0 && lines[0] == SetExtranonce(extranonce)
      ensures lines == (if old(capable) then [SetExtranonce(raw.extranonce)] else []) +
                       Install(old(View()), raw, old(generationCounter) + 1, target, routing).prelude
    {
      var gen, cap := BeginSwap();
      var en := InstallRaw(raw, gen, target, routing);
      lines, reconnect := [], !cap;
      if cap {
        lines := [SetExtranonce(en)];
      }
      var prelude := TakePrelude();
      lines := lines + prelude;
    }

    /** First hold of the subscribe arm: what the answer will say. Whatever happens before it is
        sent, it will say this. */
    method ReadExtranonce() returns (en: Extranonce)
      ensures en == View().extranonce
    {
      en := extranonce;
    }

    /** Second hold of the subscribe arm, after the answer: from now on translated lines go out
        at once, and what waited until now is handed out. */
    method MarkSubscribed() returns (lines: seq<Line>)
      modifies this`subscribed, this`prelude
      ensures View() == old(View()).(subscribed := true, prelude := []) && lines == old(prelude)
      ensures forall text :: SendOrStash(View(), generation, text) == (View(), true)
    {
      subscribed := true;
      lines := TakePrelude();
    }

    /** Whether a worker's order needs no switch: the session is on the pool it names. */
    method IsOn(pool: UpstreamTarget) returns (on: bool)
      ensures on <==> View().target == pool
    {
      on := target == pool;
    }

    method ForwardTranslated(generation: nat, text: string) returns (send: bool)
      modifies this`prelude
      ensures (View(), send) == SendOrStash(old(View()), generation, text)
    {
      if generation != this.generation {
        return false;
      }
      if subscribed {
        return true;
      }
      prelude := prelude + [Translated(text)];
      send := false;
    }

    method SetTranslateDifficulty(generation: nat, difficulty: real) returns (current: bool)
      modifies this`difficulty
      ensures View() == WithTranslateDifficulty(old(View()), generation, difficulty)
      ensures current == (generation == old(this.generation))
    {
      if generation != this.generation {
        return false;
      }
      this.difficulty := difficulty;
      current := true;
    }

    method CreditTranslateAccepted(generation: nat, count: nat) returns (credit: Option<Credit>)
      modifies this`deliveredWork, this`acceptedShares
      ensures (View(), credit) == CreditTranslated(old(View()), generation, count)
    {
      credit := None;
      if generation != this.generation {
        return;
      }
      var work := WorkOf(difficulty, count);
      if work > 0.0 {
        deliveredWork := deliveredWork + work;
        acceptedShares := acceptedShares + count;
        credit := Some(Credit(generation, routing, work, count));
      }
    }

    /** Serve an order over the connection there is: only the routing changes, so the session
        stays on one of the order's own pools exactly when it was connected to one. */
    method AttachOrder(order: OrderId, ghost book: OrderBook)
      modifies this`routing
      ensures View() == old(View()).(routing := Rented(order))
      ensures Attributed(book, routing, target) <==> PoolOf(book, order, old(target))
    {
      routing := Rented(order);
    }
  }
}
