/** What on a rig with several members ends up with another miner than the one it is for, or with
    nobody: frames a translation makes up, channels whose miner left during a swap, submits on
    another's channel, and the end of a swap onto a pool whose extranonce does not fit a frame. */
module RigStrays {
  import opened Bytes
  import opened Options
  import opened Types
  import opened Wire
  import opened Rig
  import opened RigNotices
  import opened RigProtocol
  import opened RigSwaps
  import opened RigTheorems
  import opened Translator
  import Target

  // --- frames a translation makes up ---

  /** Whoever the table of members yields first, a frame sent now goes to this member. */
  ghost predicate SurelyTo(book: OrderBook, w: World, owner: nat) {
    forall to: nat, made: Sv2Frame | Enabled(book, w, TranslateFrameStep(w.rig.generation, to, made)) ::
      Synthesize(w.rig, w.rig.generation, to, made) == [Delivery(owner, Synthesized(made))]
  }

  lemma MayMiss(book: OrderBook, w: World, owner: nat, to: nat)
    requires Enabled(book, w, TranslateFrameStep(w.rig.generation, to, PrevFrame(PrevHash(0, [], 0, 0))))
    requires to !in w.rig.members || to != owner
    ensures !SurelyTo(book, w, owner)
  {
    var made := PrevFrame(PrevHash(0, [], 0, 0));
    assert Synthesize(w.rig, w.rig.generation, to, made) != [Delivery(owner, Synthesized(made))];
  }

  /** The jobs a translation makes surely reach the miner of its channel if and only if that is
      the only member attached. */
  lemma SynthesizedReachOwnerIff(book: OrderBook, ws: seq<World>, steps: seq<Step>, i: nat, c: Channel)
    requires Run(book, ws, steps) && i < |ws| && ws[i].rig.translating && c in ws[i].rig.channels
    ensures SurelyTo(book, ws[i], c.owner) <==> ws[i].rig.members == {c.owner}
  {
    RunInv(book, ws, steps, i);
    var members := ws[i].rig.members;
    if members == {} {
      MayMiss(book, ws[i], c.owner, c.owner);
    } else if m :| m in members && m != c.owner {
      MayMiss(book, ws[i], c.owner, m);
    } else {
      var m :| m in members;
      assert members == {c.owner};
    }
  }

  /** A rig with one member, whose channel is open. */
  predicate OneChannel(w: World, spec: OpenSpec) {
    && w.rig.generation == 0 && w.rig.generationCounter == 0 && !w.rig.translating && w.swap.NoSwap?
    && w.rig.members == {1} && w.rig.nextMemberId == 2 && w.rig.pending == map[] && w.rig.routing.Idle?
    && w.rig.channels == [Channel(1, 7, spec, Target.DifficultyFromTarget([]), 1, 0, 0)]
    && 0 in w.connections && w.connections[0].native && 1 in w.told && w.told[1].member == 1
  }

  lemma OpensChannel(book: OrderBook, w: World, target: UpstreamTarget, spec: OpenSpec)
    requires w == Start(NativeRig(target, Idle, spec), true)
    ensures var step := PoolFrameStep(0, OpenSuccess(ChannelInfo(1, 7, [], [], 0, 0)));
            Enabled(book, w, step) && OneChannel(Apply(book, w, step), spec)
  {
    var info := ChannelInfo(1, 7, [], [], 0, 0);
    assert w.rig.pending == map[1 := PendingOpen(1, spec)];
    FinishOpenShape(w.rig, info);
    FinishOpenOpens(w, info);
    FrameKeepsMembers(w.rig, 0, OpenSuccess(info));
  }

  lemma BeginsWithChannel(book: OrderBook, target: UpstreamTarget, spec: OpenSpec)
    returns (ws: seq<World>, steps: seq<Step>)
    ensures Run(book, ws, steps) && |steps| == 1 && OneChannel(ws[1], spec)
  {
    var w := Start(NativeRig(target, Idle, spec), true);
    assert StartsAs(w, target, Idle, spec, 0.0) && Attributed(book, Idle, target);
    ws, steps := [w], [];
    OpensChannel(book, w, target, spec);
    ws, steps := Extend(book, ws, steps, PoolFrameStep(0, OpenSuccess(ChannelInfo(1, 7, [], [], 0, 0))));
  }

  /** The same rig with a second member, its own open still pending. */
  predicate TwoMembers(w: World, spec: OpenSpec) {
    && w.rig.generation == 0 && w.rig.generationCounter == 0 && !w.rig.translating && w.swap.NoSwap?
    && w.rig.members == {1, 2}
    && w.rig.channels == [Channel(1, 7, spec, Target.DifficultyFromTarget([]), 1, 0, 0)]
    && 1 in w.told && w.told[1].member == 1
  }

  lemma Joins(book: OrderBook, w: World, spec: OpenSpec)
    requires OneChannel(w, spec)
    ensures Enabled(book, w, AttachStep(spec, true)) && TwoMembers(Apply(book, w, AttachStep(spec, true)), spec)
  {
  }

  lemma BeginsWithTwo(book: OrderBook, target: UpstreamTarget, spec: OpenSpec)
    returns (ws: seq<World>, steps: seq<Step>)
    ensures Run(book, ws, steps) && |steps| == 2 && TwoMembers(ws[2], spec)
  {
    ws, steps := BeginsWithChannel(book, target, spec);
    Joins(book, ws[1], spec);
    ws, steps := Extend(book, ws, steps, AttachStep(spec, true));
  }

  /** Such a rig swapped onto an SV1 pool. */
  lemma Translates(book: OrderBook, w: World, target: UpstreamTarget, spec: OpenSpec, prefix: seq<byte>, d: real)
    requires TwoMembers(w, spec)
    ensures Enabled(book, w, SwapBeginStep(target, Idle)) && var w1 := Apply(book, w, SwapBeginStep(target, Idle));
            && Enabled(book, w1, SwapKeepStep) && var w2 := Apply(book, w1, SwapKeepStep);
            && Enabled(book, w2, SwapTranslateStep(prefix, d)) &&
            var w3 := Apply(book, w2, SwapTranslateStep(prefix, d));
            && w2.swap == Keeping(1, target, Idle, Kept(1, 1, spec, {1, 2}))
            && w3.rig.translating && w3.rig.members == {1, 2} && w3.rig.channels == [Channel(1, 1, spec, d, 1, 0, 0)]
            && w3.rig.generation == 1 && 1 in w3.connections && !w3.connections[1].native
            && w3.rig.target == target
  {
  }

  lemma SwapsTwo(book: OrderBook, target: UpstreamTarget, spec: OpenSpec, prefix: seq<byte>, d: real)
    returns (ws: seq<World>, steps: seq<Step>)
    ensures Run(book, ws, steps) && |steps| == 5 && steps[4] == SwapTranslateStep(prefix, d)
    ensures ws[4].swap == Keeping(1, target, Idle, Kept(1, 1, spec, {1, 2}))
    ensures ws[5].rig.translating && ws[5].rig.members == {1, 2} && ws[5].rig.generation == 1
    ensures ws[5].rig.channels == [Channel(1, 1, spec, d, 1, 0, 0)] && ws[5].rig.target == target
    ensures 1 in ws[5].connections && !ws[5].connections[1].native
  {
    ws, steps := BeginsWithTwo(book, target, spec);
    Translates(book, ws[2], target, spec, prefix, d);
    ws, steps := Extend(book, ws, steps, SwapBeginStep(target, Idle));
    ws, steps := Extend(book, ws, steps, SwapKeepStep);
    ws, steps := Extend(book, ws, steps, SwapTranslateStep(prefix, d));
  }

  /** A run in which the job a translation makes goes to one miner, and the previous hash that
      would activate it to another, the owner of the channel both are for. */
  lemma JobAndHashPart(book: OrderBook, target: UpstreamTarget, spec: OpenSpec, job: NewJob, prev: PrevHash)
    returns (ws: seq<World>, steps: seq<Step>)
    ensures Run(book, ws, steps) && |steps| == 7 && |ws[7].rig.channels| == 1 && ws[7].rig.channels[0].owner == 1
    ensures steps[5] == TranslateFrameStep(1, 2, JobFrame(job)) && steps[6] == TranslateFrameStep(1, 1, PrevFrame(prev))
    ensures Synthesize(ws[5].rig, 1, 2, JobFrame(job)) == [Delivery(2, Synthesized(JobFrame(job)))]
    ensures Synthesize(ws[6].rig, 1, 1, PrevFrame(prev)) == [Delivery(1, Synthesized(PrevFrame(prev)))]
  {
    ws, steps := SwapsTwo(book, target, spec, [], 1.0);
    ws, steps := Extend(book, ws, steps, TranslateFrameStep(1, 2, JobFrame(job)));
    ws, steps := Extend(book, ws, steps, TranslateFrameStep(1, 1, PrevFrame(prev)));
  }

  // --- a commit that fails ---

  /** A swap onto an SV1 pool whose extranonce is too long for a frame fails after it has
      installed the pool: a run that ends on it, with nobody told a prefix, a target or a notice. */
  lemma InstalledUntold(book: OrderBook, target: UpstreamTarget, spec: OpenSpec, prefix: seq<byte>)
    returns (ws: seq<World>, steps: seq<Step>)
    requires |prefix| > MAX_PREFIX
    ensures Run(book, ws, steps) && |steps| == 5 && steps[4].SwapTranslateStep? && ws[4].swap.Keeping?
    ensures ws[5].rig.translating && ws[5].rig.target == target && ws[5].rig.generation == 1
    ensures RepointsOf(ws[4], steps[4]) == [] && forall d :: !Notified(ws[4], steps[4], d)
  {
    ws, steps := SwapsTwo(book, target, spec, prefix, 1.0);
  }

  // --- channels of members that left ---

  /** A run in which a member that left during a swap owns a channel again once it commits. */
  lemma DepartedChannelReturns(book: OrderBook, target: UpstreamTarget, spec: OpenSpec)
    returns (ws: seq<World>, steps: seq<Step>)
    ensures Run(book, ws, steps) && |steps| == 4 && steps[1].SwapBeginStep? && steps[2] == DetachStep(1)
    ensures ws[3].rig.channels == [] && ws[3].rig.members == {}
    ensures |ws[4].rig.channels| == 1 && ws[4].rig.channels[0].owner == 1 && 1 !in ws[4].rig.members
  {
    ws, steps := BeginsWithChannel(book, target, spec);
    Departs(book, ws[1], target, spec, ChannelInfo(1, 8, [], [], 0, 0));
    ws, steps := Extend(book, ws, steps, SwapBeginStep(target, Idle));
    ws, steps := Extend(book, ws, steps, DetachStep(1));
    ws, steps := Extend(book, ws, steps, SwapNativeStep([ChannelInfo(1, 8, [], [], 0, 0)]));
  }

  lemma Departs(book: OrderBook, w: World, target: UpstreamTarget, spec: OpenSpec, info: ChannelInfo)
    requires OneChannel(w, spec)
    ensures Enabled(book, w, SwapBeginStep(target, Idle)) && var w1 := Apply(book, w, SwapBeginStep(target, Idle));
            && Enabled(book, w1, DetachStep(1)) && var w2 := Apply(book, w1, DetachStep(1));
            && Enabled(book, w2, SwapNativeStep([info])) && var w3 := Apply(book, w2, SwapNativeStep([info]));
            && w2.rig.channels == [] && w2.rig.members == {} && w3.rig.members == {}
            && |w3.rig.channels| == 1 && w3.rig.channels[0].owner == 1
  {
    var w1 := Apply(book, w, SwapBeginStep(target, Idle));
    assert w1.swap.snapshot.reopens == [ReopenOf(w.rig.channels[0])];
    NotOwnedByKeeps(w1.rig.channels, 1);
    assert forall c :: c !in NotOwnedBy(w1.rig.channels, 1);
  }

  // --- submits on another's channel ---

  /** A frame of a miner goes to the pool, under the upstream id of the channel it names, exactly
      when there is such a channel, whoever sends it; a submit is then counted, for the order the
      rig is rented to if there is one, and nothing else changes. It comes from the channel's owner
      if and only if the sender is the member that was told of the channel. */
  lemma SubmitIsOwnersIff(book: OrderBook, ws: seq<World>, steps: seq<Step>, i: nat, m: nat, isSubmit: bool,
                          payload: seq<byte>)
    requires Run(book, ws, steps) && i < |steps| && steps[i] == MinerFrameStep(m, isSubmit, payload)
    ensures var r, f := ws[i].rig, OnMinerFrame(ws[i].rig, isSubmit, payload);
            && ((forall c | c in r.channels :: ChannelIdOf(payload) != Some(c.down)) ==>
                  f.toPool == [] && f.submitted == None && ws[i + 1].rig == r)
            && (forall c | c in r.channels && ChannelIdOf(payload) == Some(c.down) ::
                  && f.toPool == [ToPool(Rewritten(payload, c.up))]
                  && ws[i + 1].rig == (if isSubmit then r.(submittedShares := r.submittedShares + 1) else r)
                  && f.submitted == (if isSubmit then OrderOf(r.routing) else None)
                  && c.down in ws[i].told && (c.owner == m <==> ws[i].told[c.down].member == m))
  {
    DistinctAt(book, ws, steps, i);
    ForwardsByName(ws[i].rig, isSubmit, payload);
    OwnersAreOpeners(book, ws, steps, i);
    assert Stepped(book, ws, steps, i);
    assert ws[i + 1].rig == OnMinerFrame(ws[i].rig, isSubmit, payload).rig;
  }

  lemma DistinctAt(book: OrderBook, ws: seq<World>, steps: seq<Step>, i: nat)
    requires Run(book, ws, steps) && i < |ws|
    ensures Distinct(ws[i].rig.channels)
  {
    RunInv(book, ws, steps, i);
  }

  lemma ForwardsByName(r: RigState, isSubmit: bool, payload: seq<byte>)
    requires Distinct(r.channels)
    ensures var f := OnMinerFrame(r, isSubmit, payload);
            && ((forall c | c in r.channels :: ChannelIdOf(payload) != Some(c.down)) ==>
                  f.toPool == [] && f.submitted == None && f.rig == r)
            && (forall c | c in r.channels && ChannelIdOf(payload) == Some(c.down) ::
                  && f.toPool == [ToPool(Rewritten(payload, c.up))]
                  && f.rig == (if isSubmit then r.(submittedShares := r.submittedShares + 1) else r)
                  && f.submitted == (if isSubmit then OrderOf(r.routing) else None))
  {
    if d: nat :| ChannelIdOf(payload) == Some(d) {
      UpForDownIff(r.channels, d);
      if UpForDown(r.channels, d).Some? {
        assert HasChannel(r.channels, UpForDown(r.channels, d).value, d);
      }
      forall c | c in r.channels && c.down == d ensures UpForDown(r.channels, d) == Some(c.up) {
        assert HasChannel(r.channels, c.up, d);
      }
    }
  }

  /** A run in which a member submits on the channel of another, and it counts. */
  lemma ForeignSubmitCounts(book: OrderBook, target: UpstreamTarget, spec: OpenSpec, payload: seq<byte>)
    returns (ws: seq<World>, steps: seq<Step>)
    requires ChannelIdOf(payload) == Some(1)
    ensures Run(book, ws, steps) && |steps| == 3 && steps[2] == MinerFrameStep(2, true, payload)
    ensures 1 in ws[2].told && ws[2].told[1].member == 1
    ensures OnMinerFrame(ws[2].rig, true, payload).toPool != []
    ensures ws[3].rig.submittedShares == ws[2].rig.submittedShares + 1
  {
    ws, steps := BeginsWithTwo(book, target, spec);
    ws, steps := Extend(book, ws, steps, MinerFrameStep(2, true, payload));
  }
}
