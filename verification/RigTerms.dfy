/** The terms a channel is held on: its upstream id, the group the pool put it in, and the
    difficulty its shares count at. They are always those of the pool's last word on that very
    channel, and what is credited is counted by them. */
module RigTerms {
  import opened Bytes
  import opened Options
  import opened Types
  import opened Wire
  import opened Rig
  import opened RigProtocol
  import opened RigTheorems
  import Target

  datatype Terms = Terms(up: nat, group: nat, difficulty: real)

  function TermsIn(info: ChannelInfo): Terms {
    Terms(info.upChannelId, info.groupChannelId, Target.DifficultyFromTarget(info.target))
  }

  /** The pool's answer to the re-open of a channel. */
  function AnswerFor(os: seq<Reopen>, infos: seq<ChannelInfo>, down: nat): Option<ChannelInfo>
    requires |os| == |infos|
  {
    if os == [] then None
    else if os[|os| - 1].down == down then Some(infos[|os| - 1])
    else AnswerFor(os[..|os| - 1], infos[..|os| - 1], down)
  }

  /** What a frame of the current connection says about a channel: the answer to its open, or a
      new target for the upstream id it has. */
  function ByFrame(before: Option<Terms>, r: RigState, f: UpFrame, down: nat): Option<Terms> {
    match f
    case OpenSuccess(info) =>
      if info.requestId in r.pending && down == r.nextDownCid then Some(TermsIn(info)) else before
    case Scoped(TargetChange(Some(target)), payload) =>
      if before.Some? && ChannelIdOf(payload) == Some(before.value.up)
      then Some(before.value.(difficulty := Target.DifficultyFromTarget(target))) else before
    case _ => before
  }

  function ByStep(before: Option<Terms>, w: World, step: Step, down: nat): Option<Terms> {
    match step
    case PoolFrameStep(g, f) => if g == w.rig.generation then ByFrame(before, w.rig, f, down) else before
    case TranslateTargetStep(g, id, difficulty) =>
      if g == w.rig.generation && id == down && before.Some?
      then Some(before.value.(difficulty := difficulty)) else before
    case SwapNativeStep(infos) =>
      if w.swap.Begun? && |infos| == |w.swap.snapshot.reopens| then
        match AnswerFor(w.swap.snapshot.reopens, infos, down)
        case Some(info) => Some(TermsIn(info))
        case None => None
      else None
    case SwapTranslateStep(_, difficulty) =>
      if w.swap.Keeping? && w.swap.kept.down == down then Some(Terms(down, 0, difficulty)) else None
    case _ => before
  }

  /** The terms of a channel after n steps: a rig that starts translated has one from its handshake. */
  function TermsOf(ws: seq<World>, steps: seq<Step>, n: nat, down: nat): Option<Terms>
    requires n <= |steps| < |ws|
  {
    if n > 0 then ByStep(TermsOf(ws, steps, n - 1, down), ws[n - 1], steps[n - 1], down)
    else if ws[0].rig.channels != [] && ws[0].rig.channels[0].down == down
    then Some(Terms(ws[0].rig.channels[0].up, 0, ws[0].rig.channels[0].difficulty))
    else None
  }

  /** A channel is held on these terms; a Standard one is in no group. */
  predicate Meets(c: Channel, terms: Option<Terms>) {
    && terms.Some? && c.up == terms.value.up && c.difficulty == terms.value.difficulty
    && c.upGroup == if c.spec.Extended? then terms.value.group else 0
  }

  lemma {:induction false} Retargeted(cs: seq<Channel>, up: nat, d: real, c: Channel)
    requires Distinct(cs) && c in WithDifficulty(cs, up, d)
    ensures exists b :: b in cs && c == if b.up == up then b.(difficulty := d) else b
  {
    if cs[0].up == up {
      if c == cs[0].(difficulty := d) {
        assert cs[0] in cs;
      } else {
        assert c in cs[1..];
        var k :| 1 <= k < |cs| && cs[k] == c;
      }
    } else if c == cs[0] {
      assert cs[0] in cs;
    } else {
      Retargeted(cs[1..], up, d, c);
    }
  }

  lemma {:induction false} RetargetedByDown(cs: seq<Channel>, down: nat, d: real, c: Channel)
    requires Distinct(cs) && c in WithDifficultyByDown(cs, down, d)
    ensures exists b :: b in cs && c == if b.down == down then b.(difficulty := d) else b
  {
    if cs[0].down == down {
      if c == cs[0].(difficulty := d) {
        assert cs[0] in cs;
      } else {
        assert c in cs[1..];
        var k :| 1 <= k < |cs| && cs[k] == c;
      }
    } else if c == cs[0] {
      assert cs[0] in cs;
    } else {
      RetargetedByDown(cs[1..], down, d, c);
    }
  }

  /** Every channel with the id, before a step, is held on the given terms. */
  ghost predicate Held(r: RigState, down: nat, terms: Option<Terms>) {
    forall b | b in r.channels && b.down == down :: Meets(b, terms)
  }

  lemma OpenMeets(w: World, info: ChannelInfo, c: Channel, before: Option<Terms>)
    requires IdsInv(w) && ChannelsInv(w) && MembersInv(w) && Held(w.rig, c.down, before)
    requires c in FinishOpen(w.rig, info).rig.channels
    ensures Meets(c, ByFrame(before, w.rig, OpenSuccess(info), c.down))
  {
    if info.requestId in w.rig.pending {
      FinishOpenShape(w.rig, info);
    }
    if c in w.rig.channels {
      assert Belongs(w, ReopenOf(c));
    }
  }

  lemma TargetMeets(w: World, m: Message, payload: seq<byte>, c: Channel, before: Option<Terms>)
    requires ChannelsInv(w) && Held(w.rig, c.down, before)
    requires c in OnUpstreamFrame(w.rig, w.rig.generation, Scoped(m, payload)).rig.channels
    ensures Meets(c, ByFrame(before, w.rig, Scoped(m, payload), c.down))
  {
    if ChannelIdOf(payload).Some? && m.TargetChange? && m.target.Some? {
      Retargeted(w.rig.channels, ChannelIdOf(payload).value, Target.DifficultyFromTarget(m.target.value), c);
    }
  }

  lemma FrameMeets(w: World, g: nat, f: UpFrame, c: Channel, before: Option<Terms>)
    requires IdsInv(w) && ChannelsInv(w) && MembersInv(w) && Held(w.rig, c.down, before)
    requires c in OnUpstreamFrame(w.rig, g, f).rig.channels
    ensures Meets(c, if g == w.rig.generation then ByFrame(before, w.rig, f, c.down) else before)
  {
    if g == w.rig.generation {
      match f
      case OpenSuccess(info) => OpenMeets(w, info, c, before);
      case Scoped(m, payload) => TargetMeets(w, m, payload, c, before);
      case _ =>
    }
  }

  lemma {:induction false} AnswerIs(os: seq<Reopen>, infos: seq<ChannelInfo>, k: nat)
    requires k < |os| == |infos| && DistinctDowns(os)
    ensures AnswerFor(os, infos, os[k].down) == Some(infos[k])
  {
    if k < |os| - 1 {
      AnswerIs(os[..|os| - 1], infos[..|os| - 1], k);
    }
  }

  lemma CommitMeets(book: OrderBook, w: World, infos: seq<ChannelInfo>, c: Channel)
    requires Inv(book, w) && Enabled(book, w, SwapNativeStep(infos))
    requires c in Apply(book, w, SwapNativeStep(infos)).rig.channels
    ensures Meets(c, ByStep(None, w, SwapNativeStep(infos), c.down))
  {
    var os := w.swap.snapshot.reopens;
    var cs := ReopenedChannels(os, infos);
    var k :| 0 <= k < |cs| && cs[k] == c;
    AnswerIs(os, infos, k);
  }

  lemma PoolStepMeets(book: OrderBook, w: World, step: Step, c: Channel, before: Option<Terms>)
    requires IdsInv(w) && ChannelsInv(w) && MembersInv(w) && Enabled(book, w, step) && step.PoolFrameStep?
    requires Held(w.rig, c.down, before) && c in Apply(book, w, step).rig.channels
    ensures Meets(c, ByStep(before, w, step, c.down))
  {
    FrameMeets(w, step.generation, step.frame, c, before);
  }

  lemma OtherStepMeets(book: OrderBook, w: World, step: Step, c: Channel, before: Option<Terms>)
    requires ChannelsInv(w) && Enabled(book, w, step)
    requires step.DetachStep? || step.TranslateTargetStep? || step.SwapTranslateStep?
    requires Held(w.rig, c.down, before) && c in Apply(book, w, step).rig.channels
    ensures Meets(c, ByStep(before, w, step, c.down))
  {
    match step
    case DetachStep(m) => NotOwnedByKeeps(w.rig.channels, m);
    case TranslateTargetStep(g, down, d) =>
      if g == w.rig.generation {
        RetargetedByDown(w.rig.channels, down, d, c);
      }
    case _ =>
  }

  lemma StepMeets(book: OrderBook, w: World, step: Step, c: Channel, before: Option<Terms>)
    requires Inv(book, w) && Enabled(book, w, step) && Held(w.rig, c.down, before)
    requires c in Apply(book, w, step).rig.channels
    ensures Meets(c, ByStep(before, w, step, c.down))
  {
    if step.SwapNativeStep? {
      CommitMeets(book, w, step.infos, c);
    } else if step.PoolFrameStep? {
      PoolStepMeets(book, w, step, c, before);
    } else if step.DetachStep? || step.TranslateTargetStep? || step.SwapTranslateStep? {
      OtherStepMeets(book, w, step, c, before);
    } else if step.AttachStep? || step.OpenStep? || step.MinerFrameStep? {
      MembersKeepChannels(book, w, step);
    } else {
      RestKeepsChannels(book, w, step);
    }
  }

  lemma MembersKeepChannels(book: OrderBook, w: World, step: Step)
    requires Enabled(book, w, step) && (step.AttachStep? || step.OpenStep? || step.MinerFrameStep?)
    ensures Apply(book, w, step).rig.channels == w.rig.channels
  {
  }

  lemma RestKeepsChannels(book: OrderBook, w: World, step: Step)
    requires Enabled(book, w, step)
    requires step.TranslateShareStep? || step.TranslateFrameStep? || step.SwapBeginStep? || step.SwapKeepStep? ||
             step.SwapFailStep?
    ensures Apply(book, w, step).rig.channels == w.rig.channels
  {
  }

  /** On every run each channel is held on the terms the pool last gave for it: by the answer to
      its open or, after a swap, to its own re-open, and since then by a target for its own
      upstream id. */
  lemma {:induction false} ChannelsMeetTheirTerms(book: OrderBook, ws: seq<World>, steps: seq<Step>, n: nat, c: Channel)
    requires Run(book, ws, steps) && n < |ws| && c in ws[n].rig.channels
    ensures Meets(c, TermsOf(ws, steps, n, c.down))
  {
    if n == 0 {
      StartMeets(book, ws[0], c);
    } else {
      forall b | b in ws[n - 1].rig.channels && b.down == c.down
        ensures Meets(b, TermsOf(ws, steps, n - 1, c.down))
      {
        ChannelsMeetTheirTerms(book, ws, steps, n - 1, b);
      }
      RunInv(book, ws, steps, n - 1);
      assert Stepped(book, ws, steps, n - 1);
      StepMeets(book, ws[n - 1], steps[n - 1], c, TermsOf(ws, steps, n - 1, c.down));
    }
  }

  lemma StartMeets(book: OrderBook, w: World, c: Channel)
    requires Init(book, w) && c in w.rig.channels
    ensures w.rig.channels[0] == c && c.upGroup == 0
  {
  }

  // --- what shares count for ---

  /** Work of n shares, as a credit log grows by it. */
  function CreditFor(r: RigState, difficulty: real, n: nat): seq<Credit> {
    if difficulty * n as real > 0.0 then [Credit(r.generation, r.routing, difficulty * n as real, n)] else []
  }

  /** Accepted shares are credited at the difficulty of the last target the pool gave for the very
      channel they were accepted on, times their number. */
  lemma AcceptedAtLastTarget(book: OrderBook, ws: seq<World>, steps: seq<Step>, i: nat, payload: seq<byte>, n: nat,
                             c: Channel)
    requires Run(book, ws, steps) && i < |steps| && c in ws[i].rig.channels
    requires steps[i] == PoolFrameStep(ws[i].rig.generation, Scoped(SharesAccepted(Some(n)), payload))
    requires ChannelIdOf(payload) == Some(c.up)
    ensures var terms := TermsOf(ws, steps, i, c.down);
            terms.Some? && ws[i + 1].credits == ws[i].credits + CreditFor(ws[i].rig, terms.value.difficulty, n)
  {
    ChannelsMeetTheirTerms(book, ws, steps, i, c);
    RunInv(book, ws, steps, i);
    BooksAtItsDifficulty(ws[i].rig, c, payload, n);
    assert Stepped(book, ws, steps, i);
    assert ws[i + 1].credits == ws[i].credits + CreditFor(ws[i].rig, c.difficulty, n);
  }

  lemma BooksAtItsDifficulty(r: RigState, c: Channel, payload: seq<byte>, n: nat)
    requires Distinct(r.channels) && c in r.channels && ChannelIdOf(payload) == Some(c.up)
    ensures var credit := OnUpstreamFrame(r, r.generation, Scoped(SharesAccepted(Some(n)), payload)).credit;
            (if credit.Some? then [credit.value] else []) == CreditFor(r, c.difficulty, n)
  {
    ByUpIff(r.channels, c.up);
    SameUp(r.channels, c, ByUp(r.channels, c.up).value);
  }

  /** For an id no channel has, nothing is credited. */
  lemma NothingForUnknownChannel(book: OrderBook, ws: seq<World>, steps: seq<Step>, i: nat, m: Message,
                                 payload: seq<byte>)
    requires Run(book, ws, steps) && i < |steps|
    requires steps[i] == PoolFrameStep(ws[i].rig.generation, Scoped(m, payload))
    requires forall c | c in ws[i].rig.channels :: ChannelIdOf(payload) != Some(c.up)
    ensures ws[i + 1].credits == ws[i].credits
  {
    assert Stepped(book, ws, steps, i);
    if ChannelIdOf(payload).Some? {
      ByUpIff(ws[i].rig.channels, ChannelIdOf(payload).value);
    }
  }

  /** Behind an SV1 pool an accepted share counts at the difficulty last set for its channel. */
  lemma TranslatedAtLastDifficulty(book: OrderBook, ws: seq<World>, steps: seq<Step>, i: nat, c: Channel)
    requires Run(book, ws, steps) && i < |steps| && c in ws[i].rig.channels
    requires steps[i] == TranslateShareStep(ws[i].rig.generation, c.down)
    ensures var terms := TermsOf(ws, steps, i, c.down);
            terms.Some? && ws[i + 1].credits == ws[i].credits + CreditFor(ws[i].rig, terms.value.difficulty, 1)
  {
    ChannelsMeetTheirTerms(book, ws, steps, i, c);
    RunInv(book, ws, steps, i);
    assert Stepped(book, ws, steps, i);
    ByDownIs(ws[i].rig.channels, c);
  }

  lemma {:induction false} ByDownIs(cs: seq<Channel>, c: Channel)
    requires Distinct(cs) && c in cs
    ensures ByDown(cs, c.down) == Some(c)
  {
    if cs[0] != c {
      var k :| 1 <= k < |cs| && cs[k] == c;
      assert cs[1..][k - 1] == c;
      ByDownIs(cs[1..], c);
    }
  }
}
