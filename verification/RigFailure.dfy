/** A swap of a rig that fails is invisible: the members, the pool and the miners cannot tell
    whether it was ever tried (`swap_upstream` and `swap_to_sv1_translate` in
    `src/proto/sv2/relay.rs`, all the ways they return an error before they install). */
module RigFailure {
  import opened Options
  import opened Types
  import opened Rig
  import opened RigProtocol
  import opened RigTheorems
  import Bytes
  import Wire

  /** What a step hands out: a member id, frames to the pool and to miners, a refusal, whether it
      was the last member, and the order a submit is counted for. */
  datatype Output = Output(
    member: Option<nat>, toPool: seq<UpOut>, sent: seq<Delivery>, refusal: Option<DownFrame>, wasLast: bool,
    submitted: Option<OrderId>)

  const NOTHING := Output(None, [], [], None, false, None)

  function Outcome(r: RigState, step: Step): Output {
    match step
    case AttachStep(spec, fits) =>
      var a := Attach(r, spec, fits);
      NOTHING.(member := a.member, toPool := a.toPool)
    case OpenStep(m, spec, fits) =>
      var a := OpenAdditional(r, m, spec, fits);
      NOTHING.(toPool := a.toPool, refusal := a.refusal)
    case DetachStep(m) =>
      var l := Detach(r, m);
      NOTHING.(wasLast := l.wasLast, toPool := l.toPool)
    case MinerFrameStep(_, isSubmit, payload) =>
      var f := OnMinerFrame(r, isSubmit, payload);
      NOTHING.(toPool := f.toPool, submitted := f.submitted)
    case PoolFrameStep(g, f) => NOTHING.(sent := OnUpstreamFrame(r, g, f).sent)
    case TranslateFrameStep(g, to, frame) => NOTHING.(sent := Synthesize(r, g, to, frame))
    case _ => NOTHING
  }

  // --- nobody looks at the count of swaps ---

  function Counted(r: RigState, counter: nat): RigState {
    r.(generationCounter := counter)
  }

  lemma {:induction false} CopiesIgnoreCounter(r: RigState, counter: nat, pairs: seq<(nat, nat)>, m: Message,
                                               payload: seq<Bytes.byte>)
    ensures GroupCopies(Counted(r, counter), pairs, m, payload) == GroupCopies(r, pairs, m, payload)
  {
    if pairs != [] {
      CopiesIgnoreCounter(r, counter, pairs[..|pairs| - 1], m, payload);
    }
  }

  lemma RouteIgnoresCounter(r: RigState, counter: nat, up: nat, m: Message, payload: seq<Bytes.byte>)
    ensures Route(Counted(r, counter), up, m, payload) == Route(r, up, m, payload)
  {
    CopiesIgnoreCounter(r, counter, Recipients(r.channels, up), m, payload);
  }

  lemma BookingIgnoresCounter(r: RigState, counter: nat, up: nat, m: Message)
    ensures var (r', credit) := BookShares(ApplyTarget(r, up, m), up, m);
            BookShares(ApplyTarget(Counted(r, counter), up, m), up, m) == (Counted(r', counter), credit)
  {
    var t := ApplyTarget(r, up, m);
    assert ApplyTarget(Counted(r, counter), up, m) == Counted(t, counter);
    if m.SharesAccepted? {
      var c := ByUp(t.channels, up);
      BookIgnoresCounter(t, counter, if c.Some? then c.value.difficulty else 0.0,
          if m.count.Some? then m.count.value else 0);
    }
  }

  lemma BookIgnoresCounter(r: RigState, counter: nat, difficulty: real, count: nat)
    ensures var (r', credit) := Book(r, difficulty, count);
            Book(Counted(r, counter), difficulty, count) == (Counted(r', counter), credit)
  {
  }

  lemma OpensIgnoreCounter(r: RigState, counter: nat, info: ChannelInfo)
    ensures var h := FinishOpen(r, info);
            FinishOpen(Counted(r, counter), info) == Handled(Counted(h.rig, counter), h.sent, h.credit)
  {
  }

  lemma FramesIgnoreCounter(r: RigState, counter: nat, g: nat, f: UpFrame)
    ensures var h := OnUpstreamFrame(r, g, f);
            OnUpstreamFrame(Counted(r, counter), g, f) == Handled(Counted(h.rig, counter), h.sent, h.credit)
  {
    match f
    case OpenSuccess(info) => OpensIgnoreCounter(r, counter, info);
    case OpenError(req) => FailIgnoresCounter(r, counter, req);
    case Scoped(m, payload) => ScopedIgnoresCounter(r, counter, g, m, payload);
    case _ =>
  }

  lemma FailIgnoresCounter(r: RigState, counter: nat, req: Option<nat>)
    ensures var h := FailOpen(r, req);
            FailOpen(Counted(r, counter), req) == Handled(Counted(h.rig, counter), h.sent, h.credit)
  {
  }

  lemma ScopedIgnoresCounter(r: RigState, counter: nat, g: nat, m: Message, payload: seq<Bytes.byte>)
    ensures var h := OnUpstreamFrame(r, g, Scoped(m, payload));
            OnUpstreamFrame(Counted(r, counter), g, Scoped(m, payload)) ==
            Handled(Counted(h.rig, counter), h.sent, h.credit)
  {
    if g == r.generation && Wire.ChannelIdOf(payload).Some? {
      var up := Wire.ChannelIdOf(payload).value;
      BookingIgnoresCounter(r, counter, up, m);
      RouteIgnoresCounter(BookShares(ApplyTarget(r, up, m), up, m).0, counter, up, m, payload);
    }
  }

  lemma MembersIgnoreCounter(r: RigState, counter: nat, m: nat, spec: OpenSpec, fits: bool)
    ensures var a := Attach(r, spec, fits);
            Attach(Counted(r, counter), spec, fits) == Attached(Counted(a.rig, counter), a.member, a.toPool)
    ensures var a := OpenAdditional(r, m, spec, fits);
            OpenAdditional(Counted(r, counter), m, spec, fits) == Asked(Counted(a.rig, counter), a.toPool, a.refusal)
  {
  }

  lemma DetachIgnoresCounter(r: RigState, counter: nat, m: nat)
    ensures var l := Detach(r, m);
            Detach(Counted(r, counter), m) == Left(Counted(l.rig, counter), l.wasLast, l.toPool)
  {
  }

  lemma TranslatedIgnoresCounter(r: RigState, counter: nat, g: nat, down: nat, difficulty: real)
    ensures TranslateDifficulty(Counted(r, counter), g, down, difficulty) ==
            Counted(TranslateDifficulty(r, g, down, difficulty), counter)
    ensures var (r', credit) := TranslateCredit(r, g, down);
            TranslateCredit(Counted(r, counter), g, down) == (Counted(r', counter), credit)
  {
  }

  // --- nobody but a swap looks at a swap ---

  /** The world with no swap under way, another count of them, and other members on record as
      having left during one. */
  function Aside(w: World, counter: nat, departed: set<nat>): World {
    w.(rig := Counted(w.rig, counter), swap := NoSwap, departed := departed)
  }

  lemma OutcomeIgnoresCounter(r: RigState, counter: nat, step: Step)
    requires !OfSwap(step)
    ensures Outcome(Counted(r, counter), step) == Outcome(r, step)
  {
    match step
    case AttachStep(spec, fits) => MembersIgnoreCounter(r, counter, 0, spec, fits);
    case OpenStep(m, spec, fits) => MembersIgnoreCounter(r, counter, m, spec, fits);
    case DetachStep(m) => DetachIgnoresCounter(r, counter, m);
    case PoolFrameStep(g, f) => FramesIgnoreCounter(r, counter, g, f);
    case _ =>
  }

  lemma MemberStepsIgnoreSwap(book: OrderBook, w: World, step: Step, counter: nat, departed: set<nat>)
    requires Enabled(book, w, step)
    requires step.AttachStep? || step.OpenStep? || step.DetachStep? || step.MinerFrameStep?
    ensures Enabled(book, Aside(w, counter, departed), step)
    ensures Apply(book, Aside(w, counter, departed), step) == Aside(Apply(book, w, step), counter, departed)
  {
    match step
    case AttachStep(spec, fits) => MembersIgnoreCounter(w.rig, counter, 0, spec, fits);
    case OpenStep(m, spec, fits) => MembersIgnoreCounter(w.rig, counter, m, spec, fits);
    case DetachStep(m) => DetachIgnoresCounter(w.rig, counter, m);
    case _ =>
  }

  lemma PoolStepsIgnoreSwap(book: OrderBook, w: World, step: Step, counter: nat, departed: set<nat>)
    requires Enabled(book, w, step)
    requires step.PoolFrameStep? || OfTranslation(step)
    ensures Enabled(book, Aside(w, counter, departed), step)
    ensures Apply(book, Aside(w, counter, departed), step) == Aside(Apply(book, w, step), counter, departed)
  {
    match step
    case PoolFrameStep(g, f) => FramesIgnoreCounter(w.rig, counter, g, f);
    case TranslateTargetStep(g, down, d) => TranslatedIgnoresCounter(w.rig, counter, g, down, d);
    case TranslateShareStep(g, down) => TranslatedIgnoresCounter(w.rig, counter, g, down, 0.0);
    case _ =>
  }

  lemma OthersIgnoreSwap(book: OrderBook, w: World, step: Step, counter: nat, departed: set<nat>)
    requires Enabled(book, w, step) && !OfSwap(step)
    ensures Enabled(book, Aside(w, counter, departed), step)
    ensures Apply(book, Aside(w, counter, departed), step) == Aside(Apply(book, w, step), counter, departed)
  {
    if step.PoolFrameStep? || OfTranslation(step) {
      PoolStepsIgnoreSwap(book, w, step, counter, departed);
    } else {
      MemberStepsIgnoreSwap(book, w, step, counter, departed);
    }
  }

  // --- over whole runs ---

  /** Steps that lead from world to world, wherever they start. */
  ghost predicate Moves(book: OrderBook, vs: seq<World>, ss: seq<Step>, k: nat)
    requires k < |ss| < |vs|
  {
    Enabled(book, vs[k], ss[k]) && vs[k + 1] == Apply(book, vs[k], ss[k])
  }

  ghost predicate Leads(book: OrderBook, vs: seq<World>, ss: seq<Step>) {
    |vs| == |ss| + 1 && forall k: nat | k < |ss| :: Moves(book, vs, ss, k)
  }

  /** All steps but those of swaps. */
  function Others(ss: seq<Step>): seq<Step> {
    if ss == [] then []
    else Others(ss[..|ss| - 1]) + if OfSwap(ss[|ss| - 1]) then [] else [ss[|ss| - 1]]
  }

  /** What all steps but those of swaps hand out, in order. */
  function Outputs(ws: seq<World>, ss: seq<Step>): seq<Output>
    requires |ws| >= |ss|
  {
    if ss == [] then []
    else
      var n := |ss| - 1;
      Outputs(ws, ss[..n]) + if OfSwap(ss[n]) then [] else [Outcome(ws[n].rig, ss[n])]
  }

  lemma {:induction false} OutputsOfPrefix(us: seq<World>, ws: seq<World>, ss: seq<Step>)
    requires |us| >= |ss| && |ws| >= |ss| && forall k | 0 <= k < |ss| :: us[k] == ws[k]
    ensures Outputs(us, ss) == Outputs(ws, ss)
  {
    if ss != [] {
      OutputsOfPrefix(us, ws, ss[..|ss| - 1]);
    }
  }

  lemma LeadsFurther(book: OrderBook, vs: seq<World>, ss: seq<Step>, step: Step, v: World)
    requires Leads(book, vs, ss) && Enabled(book, vs[|ss|], step) && v == Apply(book, vs[|ss|], step)
    ensures Leads(book, vs + [v], ss + [step])
  {
    var us, rs := vs + [v], ss + [step];
    forall k: nat | k < |rs| ensures Moves(book, us, rs, k) {
      if k < |ss| {
        assert Moves(book, vs, ss, k);
      }
    }
  }

  lemma OutputsFurther(vs: seq<World>, ss: seq<Step>, step: Step, v: World)
    requires |vs| == |ss| + 1 && !OfSwap(step)
    ensures Outputs(vs + [v], ss + [step]) == Outputs(vs, ss) + [Outcome(vs[|ss|].rig, step)]
  {
    assert (ss + [step])[..|ss|] == ss;
    OutputsOfPrefix(vs + [v], vs, ss);
  }

  lemma FollowOther(book: OrderBook, w: World, w': World, step: Step, before: seq<World>, ss: seq<Step>,
                    counter: nat, departed: set<nat>) returns (vs: seq<World>)
    requires Enabled(book, w, step) && w' == Apply(book, w, step) && !OfSwap(step)
    requires Leads(book, before, ss) && before[|ss|] == Aside(w, counter, departed)
    ensures Leads(book, vs, ss + [step]) && vs[0] == before[0]
    ensures vs[|ss| + 1] == Aside(w', counter, departed)
    ensures Outputs(vs, ss + [step]) == Outputs(before, ss) + [Outcome(w.rig, step)]
  {
    OthersIgnoreSwap(book, w, step, counter, departed);
    OutcomeIgnoresCounter(w.rig, counter, step);
    var v := Aside(w', counter, departed);
    vs := before + [v];
    LeadsFurther(book, before, ss, step, v);
    OutputsFurther(before, ss, step, v);
  }

  /** Steps a swap may still be trying through: it neither ends nor does another begin. */
  ghost predicate Trying(ss: seq<Step>) {
    forall k | 0 <= k < |ss| :: !OfSwap(ss[k]) || ss[k].SwapKeepStep?
  }

  /** The steps without the swap lead along `vs`, from its first world to one that only differs
      from the last of `ws` by the swap, and hand out the same on the way. */
  ghost predicate Shadows(book: OrderBook, vs: seq<World>, ws: seq<World>, ss: seq<Step>)
    requires |ws| > |ss|
  {
    && Leads(book, vs, Others(ss))
    && vs[|Others(ss)|] == Aside(ws[|ss|], vs[0].rig.generationCounter, vs[0].departed)
    && Outputs(vs, Others(ss)) == Outputs(ws, ss)
  }

  lemma PrefixLeads(book: OrderBook, ws: seq<World>, ss: seq<Step>)
    requires Leads(book, ws, ss) && ss != []
    ensures Leads(book, ws[..|ss|], ss[..|ss| - 1])
  {
    var vs, rs := ws[..|ss|], ss[..|ss| - 1];
    forall k: nat | k < |rs| ensures Moves(book, vs, rs, k) {
      assert Moves(book, ws, ss, k);
    }
  }

  lemma KeepsAside(book: OrderBook, w: World, step: Step, counter: nat, departed: set<nat>)
    requires Enabled(book, w, step) && step.SwapKeepStep?
    ensures Aside(Apply(book, w, step), counter, departed) == Aside(w, counter, departed)
    ensures Apply(book, w, step).rig == w.rig
  {
  }

  lemma KeepShadows(book: OrderBook, vs: seq<World>, ws: seq<World>, ss: seq<Step>)
    requires Leads(book, ws, ss) && ss != [] && ss[|ss| - 1].SwapKeepStep?
    requires Shadows(book, vs, ws[..|ss|], ss[..|ss| - 1])
    ensures Shadows(book, vs, ws, ss)
  {
    var n := |ss| - 1;
    assert Moves(book, ws, ss, n);
    KeepsAside(book, ws[n], ss[n], vs[0].rig.generationCounter, vs[0].departed);
    OutputsOfPrefix(ws[..|ss|], ws, ss[..n]);
    assert Others(ss) == Others(ss[..n]) && Outputs(ws, ss) == Outputs(ws, ss[..n]);
  }

  lemma {:induction false} Follow(book: OrderBook, from: World, ws: seq<World>, ss: seq<Step>)
      returns (vs: seq<World>)
    requires Leads(book, ws, ss) && Trying(ss)
    requires Aside(ws[0], from.rig.generationCounter, from.departed) == from
    ensures Shadows(book, vs, ws, ss) && vs[0] == from
  {
    if ss == [] {
      vs := [from];
    } else {
      var n := |ss| - 1;
      var pre, step, init := ss[..n], ss[n], ws[..|ss|];
      PrefixLeads(book, ws, ss);
      var before := Follow(book, from, init, pre);
      if OfSwap(step) {
        vs := before;
        KeepShadows(book, vs, ws, ss);
      } else {
        OutputsOfPrefix(init, ws, pre);
        assert Moves(book, ws, ss, n);
        vs := FollowOther(book, ws[n], ws[n + 1], step, before, Others(pre), from.rig.generationCounter,
            from.departed);
      }
    }
  }

  lemma BeginsAside(book: OrderBook, w: World, step: Step)
    requires Enabled(book, w, step) && step.SwapBeginStep? && w.rig.groupDown.Values <= w.groups
    ensures Aside(Apply(book, w, step), w.rig.generationCounter, w.departed) == w
    ensures Apply(book, w, step).rig.generationCounter == w.rig.generationCounter + 1
  {
  }

  lemma FailsAside(book: OrderBook, w: World, step: Step)
    requires Enabled(book, w, step) && step.SwapFailStep?
    ensures Apply(book, w, step) == w.(swap := NoSwap)
  {
  }

  lemma {:induction false} CounterStays(book: OrderBook, ws: seq<World>, ss: seq<Step>)
    requires Leads(book, ws, ss) && Trying(ss)
    ensures ws[|ss|].rig.generationCounter == ws[0].rig.generationCounter
  {
    if ss != [] {
      var n := |ss| - 1;
      PrefixLeads(book, ws, ss);
      CounterStays(book, ws[..|ss|], ss[..n]);
      assert Moves(book, ws, ss, n);
      if OfSwap(ss[n]) {
        KeepsAside(book, ws[n], ss[n], 0, {});
      } else {
        StepKeepsCounter(book, ws[n], ss[n]);
      }
    }
  }

  /** A swap that gives up, before it could connect, at a re-open, or before its commit, is
      invisible: whatever members, pools and miners did while it tried, the same steps without
      the swap lead from where it began to the same rig, connections, replies and credits, but
      for the count of swaps, and hand out the same frames and refusals on the way. */
  lemma FailedSwapIsInvisible(book: OrderBook, ws: seq<World>, steps: seq<Step>, i: nat, j: nat)
      returns (vs: seq<World>)
    requires Run(book, ws, steps) && i < j < |steps| && steps[i].SwapBeginStep? && steps[j].SwapFailStep?
    requires Trying(steps[i + 1..j])
    ensures var ss := steps[i + 1..j];
            && Leads(book, vs, Others(ss)) && vs[0] == ws[i]
            && Outputs(vs, Others(ss)) == Outputs(ws[i + 1..j + 1], ss)
            && var v := vs[|Others(ss)|];
            ws[j + 1] == Aside(v, v.rig.generationCounter + 1, ws[j + 1].departed)
  {
    var ss, us := steps[i + 1..j], ws[i + 1..j + 1];
    SliceLeads(book, ws, steps, i, j);
    BeginAndFail(book, ws, steps, i, j);
    vs := Follow(book, ws[i], us, ss);
    CounterStays(book, us, ss);
    BackAgain(ws[j], ws[j + 1], vs[|Others(ss)|], ws[i].rig.generationCounter, ws[i].departed);
  }

  lemma BackAgain(w: World, w': World, v: World, counter: nat, departed: set<nat>)
    requires v == Aside(w, counter, departed) && w' == w.(swap := NoSwap) && w.rig.generationCounter == counter + 1
    ensures w' == Aside(v, v.rig.generationCounter + 1, w'.departed)
  {
  }

  lemma SliceLeads(book: OrderBook, ws: seq<World>, steps: seq<Step>, i: nat, j: nat)
    requires Run(book, ws, steps) && i < j < |steps|
    ensures Leads(book, ws[i + 1..j + 1], steps[i + 1..j])
  {
    var ss, us := steps[i + 1..j], ws[i + 1..j + 1];
    forall k: nat | k < |ss| ensures Moves(book, us, ss, k) {
      assert Stepped(book, ws, steps, i + 1 + k);
    }
  }

  lemma BeginAndFail(book: OrderBook, ws: seq<World>, steps: seq<Step>, i: nat, j: nat)
    requires Run(book, ws, steps) && i < j < |steps| && steps[i].SwapBeginStep? && steps[j].SwapFailStep?
    ensures Aside(ws[i + 1], ws[i].rig.generationCounter, ws[i].departed) == ws[i]
    ensures ws[i + 1].rig.generationCounter == ws[i].rig.generationCounter + 1
    ensures ws[j + 1] == ws[j].(swap := NoSwap)
  {
    RunInv(book, ws, steps, i);
    assert Stepped(book, ws, steps, i) && Stepped(book, ws, steps, j);
    BeginsAside(book, ws[i], steps[i]);
    FailsAside(book, ws[j], steps[j]);
  }

  lemma FrameKeepsCounter(r: RigState, g: nat, f: UpFrame)
    ensures OnUpstreamFrame(r, g, f).rig.generationCounter == r.generationCounter
  {
  }

  lemma StepKeepsCounter(book: OrderBook, w: World, step: Step)
    requires Enabled(book, w, step) && !OfSwap(step)
    ensures Apply(book, w, step).rig.generationCounter == w.rig.generationCounter
  {
    if step.PoolFrameStep? {
      FrameKeepsCounter(w.rig, step.generation, step.frame);
    } else if OfTranslation(step) {
      TranslationKeepsCounter(book, w, step);
    } else {
      MembersKeepCounter(book, w, step);
    }
  }

  lemma TranslationKeepsCounter(book: OrderBook, w: World, step: Step)
    requires Enabled(book, w, step) && OfTranslation(step)
    ensures Apply(book, w, step).rig.generationCounter == w.rig.generationCounter
  {
  }

  lemma MembersKeepCounter(book: OrderBook, w: World, step: Step)
    requires Enabled(book, w, step)
    requires step.AttachStep? || step.OpenStep? || step.DetachStep? || step.MinerFrameStep?
    ensures Apply(book, w, step).rig.generationCounter == w.rig.generationCounter
  {
  }
}
