/** What every run of an SV2 rig guarantees, whatever the pool sends and however attaches,
    detaches, opens and swaps interleave. */
module RigTheorems {
  import opened Bytes
  import opened Options
  import opened Types
  import opened Wire
  import opened Rig
  import opened RigProtocol
  import Translator
  import Target

  // --- runs ---

  ghost predicate Stepped(book: OrderBook, ws: seq<World>, steps: seq<Step>, i: nat)
    requires i < |steps| && |ws| == |steps| + 1
  {
    Enabled(book, ws[i], steps[i]) && ws[i + 1] == Apply(book, ws[i], steps[i])
  }

  ghost predicate Run(book: OrderBook, ws: seq<World>, steps: seq<Step>) {
    && |ws| == |steps| + 1
    && Init(book, ws[0])
    && forall i: nat | i < |steps| :: Stepped(book, ws, steps, i)
  }

  lemma {:induction false} RunInv(book: OrderBook, ws: seq<World>, steps: seq<Step>, i: nat)
    requires Run(book, ws, steps) && i < |ws|
    ensures Inv(book, ws[i])
  {
    if i == 0 {
      InitInv(book, ws[0]);
    } else {
      RunInv(book, ws, steps, i - 1);
      assert Stepped(book, ws, steps, i - 1);
      StepKeeps(book, ws[i - 1], steps[i - 1]);
    }
  }

  // --- ids ---

  predicate MapsTo(upToDown: map<nat, nat>, u: nat, d: nat) {
    u in upToDown && upToDown[u] == d
  }

  predicate HasChannel(cs: seq<Channel>, u: nat, d: nat) {
    exists c :: c in cs && c.up == u && c.down == d
  }

  /** In every reachable state downstream ids are pairwise distinct, were issued before, and
      differ from the downstream group id of every Extended channel; `up_to_down` holds
      exactly the pairs of the channel list, so the two lookups are mutual inverses. */
  lemma IdsAgree(book: OrderBook, ws: seq<World>, steps: seq<Step>, i: nat)
    requires Run(book, ws, steps) && i < |ws|
    ensures var r := ws[i].rig;
            && (forall j, k | 0 <= j < k < |r.channels| :: r.channels[j].down != r.channels[k].down)
            && (forall c | c in r.channels :: 0 < c.down < r.nextDownCid)
            && (forall c, e | c in r.channels && e in r.channels && e.spec.Extended? :: e.downGroup != c.down)
            && (forall u: nat, d: nat :: MapsTo(r.upToDown, u, d) <==> HasChannel(r.channels, u, d))
            && (forall u: nat, d: nat :: UpForDown(r.channels, d) == Some(u) <==> MapsTo(r.upToDown, u, d))
  {
    RunInv(book, ws, steps, i);
    var w, r := ws[i], ws[i].rig;
    forall c | c in r.channels
      ensures c.down in w.told && 0 < c.down < r.nextDownCid
      ensures forall e | e in r.channels && e.spec.Extended? :: e.downGroup != c.down
    {
      assert Belongs(w, ReopenOf(c));
      forall e | e in r.channels && e.spec.Extended? ensures e.downGroup != c.down {
        assert Belongs(w, ReopenOf(e));
      }
    }
    forall u: nat, d: nat
      ensures MapsTo(r.upToDown, u, d) <==> HasChannel(r.channels, u, d)
      ensures UpForDown(r.channels, d) == Some(u) <==> MapsTo(r.upToDown, u, d)
    {
      MapIffChannel(r, u, d);
      UpForDownIff(r.channels, d);
    }
  }

  lemma MapIffChannel(r: RigState, u: nat, d: nat)
    requires MapsChannels(r.upToDown, r.channels)
    ensures MapsTo(r.upToDown, u, d) <==> HasChannel(r.channels, u, d)
  {
    if u in r.upToDown {
      assert u in Ups(r.channels);
      var c :| c in r.channels && c.up == u;
    }
  }

  /** The lookup finds a channel with the id whenever there is one. */
  lemma {:induction false} UpForDownIff(cs: seq<Channel>, d: nat)
    requires Distinct(cs)
    ensures forall u: nat :: UpForDown(cs, d) == Some(u) <==> HasChannel(cs, u, d)
  {
    if cs != [] {
      UpForDownIff(cs[1..], d);
      assert cs == [cs[0]] + cs[1..];
      forall c | c in cs[1..] ensures c.down != cs[0].down {
        var i :| 0 <= i < |cs[1..]| && cs[1..][i] == c;
        assert cs[i + 1] == c;
      }
    }
  }

  /** What time can only add to: open replies and group ids that were issued stay issued, new
      ones are numbers no id had before, and connections are numbered upwards. */
  ghost predicate Later(w: World, w': World) {
    && w.rig.nextDownCid <= w'.rig.nextDownCid
    && (forall d | d in w.told :: d in w'.told && w'.told[d] == w.told[d])
    && (forall d | d in w'.told && d !in w.told :: d >= w.rig.nextDownCid)
    && w.groups <= w'.groups
    && (forall g | g in w'.groups && g !in w.groups :: g >= w.rig.nextDownCid)
    && w.rig.generation <= w'.rig.generation
    && (forall g | g in w.connections :: g in w'.connections && w'.connections[g] == w.connections[g])
    && (forall g | g in w'.connections && g !in w.connections :: g > w.rig.generation)
    && w.departed <= w'.departed
    && w.credits <= w'.credits
  }

  lemma MembersStepIsLater(book: OrderBook, w: World, step: Step)
    requires Inv(book, w) && Enabled(book, w, step)
    requires step.AttachStep? || step.OpenStep? || step.DetachStep? || step.MinerFrameStep?
    ensures Later(w, Apply(book, w, step))
  {
    NothingHappens(w);
    assert Apply(book, w, step).groups == w.groups;
    NoNewsIsLater(w, Apply(book, w, step));
  }

  lemma TranslatedStepIsLater(book: OrderBook, w: World, step: Step)
    requires Inv(book, w) && Enabled(book, w, step) && OfTranslation(step)
    ensures Later(w, Apply(book, w, step))
  {
    NothingHappens(w);
    assert Apply(book, w, step).groups == w.groups;
    NoNewsIsLater(w, Apply(book, w, step));
  }

  lemma PoolStepIsLater(book: OrderBook, w: World, step: Step)
    requires Inv(book, w) && Enabled(book, w, step) && step.PoolFrameStep?
    ensures Later(w, Apply(book, w, step))
  {
    NothingHappens(w);
    if step.generation == w.rig.generation {
      FrameIsLater(w, step.frame);
    }
  }

  lemma SwapStepIsLater(book: OrderBook, w: World, step: Step)
    requires Inv(book, w) && Enabled(book, w, step)
    requires step.SwapBeginStep? || step.SwapKeepStep? || step.SwapFailStep?
    ensures Later(w, Apply(book, w, step))
  {
    NothingHappens(w);
  }

  lemma StepIsLater(book: OrderBook, w: World, step: Step)
    requires Inv(book, w) && Enabled(book, w, step)
    ensures Later(w, Apply(book, w, step))
  {
    if step.SwapNativeStep? || step.SwapTranslateStep? {
      InstallIsLater(book, w, step);
    } else if step.SwapBeginStep? || step.SwapKeepStep? || step.SwapFailStep? {
      SwapStepIsLater(book, w, step);
    } else if step.PoolFrameStep? {
      PoolStepIsLater(book, w, step);
    } else if OfTranslation(step) {
      TranslatedStepIsLater(book, w, step);
    } else {
      MembersStepIsLater(book, w, step);
    }
  }

  lemma LaterStill(a: World, b: World, c: World)
    requires Later(a, b) && Later(b, c)
    ensures Later(a, c)
  {
  }

  lemma InstallIsLater(book: OrderBook, w: World, step: Step)
    requires Inv(book, w) && Enabled(book, w, step) && (step.SwapNativeStep? || step.SwapTranslateStep?)
    ensures Later(w, Apply(book, w, step))
    ensures Apply(book, w, step).rig.generation > w.rig.generation
  {
    if step.SwapNativeStep? {
      ReopenedKeepGroups(w, w.swap.snapshot.reopens, step.infos);
    }
    assert Apply(book, w, step).groups == w.groups;
    assert w.rig.generationCounter !in w.connections;
  }

  lemma NoNewsIsLater(w: World, w': World)
    requires w'.told == w.told && w'.groups == w.groups && w'.connections == w.connections
    requires w'.rig.nextDownCid == w.rig.nextDownCid && w'.rig.generation == w.rig.generation
    requires w.departed <= w'.departed && w.credits <= w'.credits
    ensures Later(w, w')
  {
  }

  lemma FrameIsLater(w: World, f: UpFrame)
    requires IdsInv(w) && MembersInv(w)
    ensures var h := OnUpstreamFrame(w.rig, w.rig.generation, f);
            Later(w, WithCredit(WithRig(w, h.rig), h.credit).(told := Tell(w.told, h.sent)))
  {
    NothingHappens(w);
    var h := OnUpstreamFrame(w.rig, w.rig.generation, f);
    var w' := WithCredit(WithRig(w, h.rig), h.credit).(told := Tell(w.told, h.sent));
    if f.OpenSuccess? && f.info.requestId in w.rig.pending {
      OpenIsLater(w, f.info);
    } else {
      assert w'.told == w.told by {
        if f.OpenError? { NothingTold(w.told, h.sent); }
        if f.Scoped? { ScopedTellsNothing(w.rig, w.told, f.message, f.payload); }
      }
      assert w'.groups == w.groups;
      NoNewsIsLater(w, w');
    }
  }

  lemma OpenIsLater(w: World, info: ChannelInfo)
    requires IdsInv(w) && MembersInv(w) && info.requestId in w.rig.pending
    ensures Later(w, AfterOpen(w, info))
  {
    var c := OpenedChannel(w.rig.pending[info.requestId], w.rig.nextDownCid, OpenedGroup(w, info), info);
    FinishOpenOpens(w, info);
    OpensKeepsIds(w, AfterOpen(w, info), c);
  }

  /** No id is ever issued twice and no connection number is reused, over any stretch of a run. */
  lemma {:induction false} NeverReissued(book: OrderBook, ws: seq<World>, steps: seq<Step>, i: nat, j: nat)
    requires Run(book, ws, steps) && i <= j < |ws|
    ensures Later(ws[i], ws[j])
  {
    if i < j {
      NeverReissued(book, ws, steps, i, j - 1);
      NextIsLater(book, ws, steps, j - 1);
      LaterStill(ws[i], ws[j - 1], ws[j]);
    }
  }

  lemma NextIsLater(book: OrderBook, ws: seq<World>, steps: seq<Step>, n: nat)
    requires Run(book, ws, steps) && n < |steps|
    ensures Later(ws[n], ws[n + 1])
  {
    RunInv(book, ws, steps, n);
    assert Stepped(book, ws, steps, n);
    StepIsLater(book, ws[n], steps[n]);
  }

  // --- delivery ---

  /** The first channel behind an id is found whenever there is one. */
  lemma {:induction false} ByUpIff(cs: seq<Channel>, up: nat)
    ensures ByUp(cs, up).Some? <==> up in Ups(cs)
    ensures ByUp(cs, up).Some? ==> ByUp(cs, up).value in cs && ByUp(cs, up).value.up == up
  {
    if cs != [] {
      ByUpIff(cs[1..], up);
      assert cs == [cs[0]] + cs[1..];
      assert Ups(cs) == Ups(cs[1..]) + {cs[0].up};
    }
  }

  /** `group_recipients` lists each (downstream group, owner) pair of the Extended channels
      in an upstream group once, and nothing else. */
  lemma {:induction false} RecipientsExact(cs: seq<Channel>, g: nat)
    requires g != 0
    ensures forall d, m :: (d, m) in Recipients(cs, g) <==>
              exists c :: c in cs && InGroup(c, g) && c.downGroup == d && c.owner == m
    ensures forall i, j | 0 <= i < j < |Recipients(cs, g)| :: Recipients(cs, g)[i] != Recipients(cs, g)[j]
  {
    if cs != [] {
      var n := |cs| - 1;
      RecipientsExact(cs[..n], g);
      assert cs == cs[..n] + [cs[n]];
    }
  }

  /** The number of a pair's position does not matter: the copies sent are those to attached
      members, each pair's once. */
  lemma {:induction false} CopiesExact(r: RigState, pairs: seq<(nat, nat)>, m: Message, payload: seq<byte>)
    ensures forall x :: x in GroupCopies(r, pairs, m, payload) <==>
              exists p :: p in pairs && p.1 in r.members && x == Delivery(p.1, Relayed(m, Rewritten(payload, p.0)))
    ensures |GroupCopies(r, pairs, m, payload)| == AttachedPairs(pairs, r.members)
  {
    if pairs != [] {
      var n := |pairs| - 1;
      CopiesExact(r, pairs[..n], m, payload);
      assert pairs == pairs[..n] + [pairs[n]];
    }
  }

  /** How many of the pairs have an attached member. */
  function AttachedPairs(pairs: seq<(nat, nat)>, members: set<nat>): nat {
    if pairs == [] then 0
    else
      var n := |pairs| - 1;
      AttachedPairs(pairs[..n], members) + if pairs[n].1 in members then 1 else 0
  }

  lemma {:induction false} AttachedPairsAre(pairs: seq<(nat, nat)>, members: set<nat>)
    requires forall i, j | 0 <= i < j < |pairs| :: pairs[i] != pairs[j]
    ensures AttachedPairs(pairs, members) == |set p | p in pairs && p.1 in members|
  {
    if pairs != [] {
      var n := |pairs| - 1;
      AttachedPairsAre(pairs[..n], members);
      var before, now := set p | p in pairs[..n] && p.1 in members, set p | p in pairs && p.1 in members;
      assert pairs == pairs[..n] + [pairs[n]];
      assert pairs[n] !in pairs[..n];
      assert now == if pairs[n].1 in members then before + {pairs[n]} else before;
    }
  }

  /** The (downstream group, owner) pairs of the Extended channels in an upstream group. */
  function GroupMembers(r: RigState, g: nat): set<(nat, nat)> {
    set c | c in r.channels && InGroup(c, g) && c.owner in r.members :: (c.downGroup, c.owner)
  }

  /** Routing does not look at difficulties, so it is the same before and after a frame is
      accounted for. */
  lemma RouteIgnoresDifficulty(r: RigState, up: nat, m: Message, payload: seq<byte>)
    ensures Route(BookShares(ApplyTarget(r, up, m), up, m).0, up, m, payload) == Route(r, up, m, payload)
  {
    var r' := ApplyTarget(r, up, m);
    if m.TargetChange? && m.target.Some? {
      RetargetShape(r.channels, up, Target.DifficultyFromTarget(m.target.value));
      RecipientsIgnoreDifficulty(r.channels, r'.channels, up);
      ByUpIgnoresDifficulty(r.channels, r'.channels, up);
      CopiesDependOnMembers(r, r', Recipients(r.channels, up), m, payload);
    } else if m.SharesAccepted? {
      CopiesDependOnMembers(r, BookShares(r, up, m).0, Recipients(r.channels, up), m, payload);
    }
  }

  lemma {:induction false} RecipientsIgnoreDifficulty(bs: seq<Channel>, cs: seq<Channel>, g: nat)
    requires SameButDifficulty(bs, cs)
    ensures Recipients(bs, g) == Recipients(cs, g)
  {
    if bs != [] {
      RecipientsIgnoreDifficulty(bs[..|bs| - 1], cs[..|bs| - 1], g);
    }
  }

  lemma {:induction false} ByUpIgnoresDifficulty(bs: seq<Channel>, cs: seq<Channel>, up: nat)
    requires SameButDifficulty(bs, cs)
    ensures ByUp(bs, up).Some? == ByUp(cs, up).Some?
    ensures ByUp(bs, up).Some? ==> ByUp(bs, up).value.owner == ByUp(cs, up).value.owner
  {
    if bs != [] && bs[0].up != up {
      ByUpIgnoresDifficulty(bs[1..], cs[1..], up);
    }
  }

  lemma {:induction false} CopiesDependOnMembers(r: RigState, r': RigState, pairs: seq<(nat, nat)>, m: Message,
                                                 payload: seq<byte>)
    requires r.members == r'.members
    ensures GroupCopies(r, pairs, m, payload) == GroupCopies(r', pairs, m, payload)
  {
    if pairs != [] {
      CopiesDependOnMembers(r, r', pairs[..|pairs| - 1], m, payload);
    }
  }

  /** What is sent for a channel-scoped frame of the current upstream. */
  function Sent(r: RigState, m: Message, payload: seq<byte>): seq<Delivery> {
    OnUpstreamFrame(r, r.generation, Scoped(m, payload)).sent
  }

  lemma SentIsRoute(r: RigState, m: Message, payload: seq<byte>)
    requires |payload| >= 4
    ensures Sent(r, m, payload) == Route(r, LeValue(payload[..4]), m, payload)
  {
    RouteIgnoresDifficulty(r, LeValue(payload[..4]), m, payload);
  }

  /** Per-channel frames: a frame whose id is not a group's goes to the opener of the channel
      behind the id and to nobody else, under that channel's downstream id and with every
      later byte as the pool sent it; a frame for an unknown id goes nowhere. */
  lemma PerChannelFrame(book: OrderBook, ws: seq<World>, steps: seq<Step>, i: nat, m: Message, payload: seq<byte>)
    requires Run(book, ws, steps) && i < |ws| && |payload| >= 4
    requires forall c | c in ws[i].rig.channels :: InGroup(c, LeValue(payload[..4])) ==> c.upGroup == 0
    ensures var up, w := LeValue(payload[..4]), ws[i];
            && (up !in Ups(w.rig.channels) ==> Sent(w.rig, m, payload) == [])
            && (forall c | c in w.rig.channels && c.up == up ::
                  && c.down in w.told && w.told[c.down].member == c.owner
                  && Sent(w.rig, m, payload) == (if c.owner in w.rig.members
                       then [Delivery(c.owner, Relayed(m, Rewritten(payload, c.down)))] else [])
                  && Relabels(payload, c.down))
  {
    var up, w := LeValue(payload[..4]), ws[i];
    RunInv(book, ws, steps, i);
    SentIsRoute(w.rig, m, payload);
    NoRecipients(w.rig.channels, up);
    ByUpIff(w.rig.channels, up);
    forall c | c in w.rig.channels && c.up == up
      ensures ByUp(w.rig.channels, up) == Some(c) && Belongs(w, ReopenOf(c)) && Relabels(payload, c.down)
    {
      SameUp(w.rig.channels, c, ByUp(w.rig.channels, up).value);
      RewriteRelabels(payload, c.down);
    }
  }

  /** A rewritten frame names the new id, keeps all later bytes, and can be turned back. */
  predicate Relabels(payload: seq<byte>, id: nat)
    requires |payload| >= 4
  {
    && Rewritten(payload, id)[4..] == payload[4..]
    && (id < U32 ==> ChannelIdOf(Rewritten(payload, id)) == Some(id))
    && Rewritten(Rewritten(payload, id), LeValue(payload[..4])) == payload
  }

  lemma RewriteRelabels(payload: seq<byte>, id: nat)
    requires |payload| >= 4
    ensures Relabels(payload, id)
  {
    RewriteRoundTrip(payload, id);
    if id < U32 {
      RewriteNamesId(payload, id);
    }
  }

  lemma NoRecipients(cs: seq<Channel>, g: nat)
    requires forall c | c in cs :: InGroup(c, g) ==> c.upGroup == 0
    ensures Recipients(cs, g) == []
  {
    if g != 0 {
      RecipientsExact(cs, g);
      assert |Recipients(cs, g)| > 0 ==> (Recipients(cs, g)[0].0, Recipients(cs, g)[0].1) in Recipients(cs, g);
    }
  }

  /** Group frames: a frame for an upstream group with Extended channels reaches exactly the
      attached owners of those channels, one copy per distinct (downstream group, owner) pair;
      Standard channels contribute nobody. On runs that stayed native the group id on each
      copy is the one its owner was told when the channel was opened. */
  lemma GroupFrame(book: OrderBook, ws: seq<World>, steps: seq<Step>, i: nat, m: Message, payload: seq<byte>)
    requires Run(book, ws, steps) && i < |ws| && |payload| >= 4
    requires LeValue(payload[..4]) != 0
    requires exists c :: c in ws[i].rig.channels && InGroup(c, LeValue(payload[..4]))
    ensures var g, w := LeValue(payload[..4]), ws[i];
            && (forall x :: x in Sent(w.rig, m, payload) <==>
                  exists p :: p in GroupMembers(w.rig, g) && x == Delivery(p.1, Relayed(m, Rewritten(payload, p.0))))
            && |Sent(w.rig, m, payload)| == |GroupMembers(w.rig, g)|
            && (forall c | c in w.rig.channels && InGroup(c, g) ::
                  c.spec.Extended? && c.down in w.told && w.told[c.down].member == c.owner &&
                  (!w.everTranslated ==> c.downGroup == w.told[c.down].group))
  {
    var g, w := LeValue(payload[..4]), ws[i];
    RunInv(book, ws, steps, i);
    SentIsRoute(w.rig, m, payload);
    GroupRoute(w.rig, g, m, payload);
    assert ChannelsInv(w);
    OwnersWereTold(w);
  }

  lemma OwnersWereTold(w: World)
    requires ChannelsInv(w)
    ensures forall c | c in w.rig.channels ::
              && c.down in w.told && w.told[c.down].member == c.owner
              && (!w.everTranslated ==> c.downGroup == w.told[c.down].group)
              && (c.owner in w.rig.members || c.owner in w.departed)
  {
    forall c | c in w.rig.channels ensures Belongs(w, ReopenOf(c)) {
    }
  }

  lemma GroupRoute(r: RigState, g: nat, m: Message, payload: seq<byte>)
    requires g != 0 && exists c :: c in r.channels && InGroup(c, g)
    ensures forall x :: x in Route(r, g, m, payload) <==>
              exists p :: p in GroupMembers(r, g) && x == Delivery(p.1, Relayed(m, Rewritten(payload, p.0)))
    ensures |Route(r, g, m, payload)| == |GroupMembers(r, g)|
  {
    var pairs := Recipients(r.channels, g);
    PairsOfGroup(r, g);
    CopiesExact(r, pairs, m, payload);
    AttachedPairsAre(pairs, r.members);
    var c :| c in r.channels && InGroup(c, g);
    assert (c.downGroup, c.owner) in pairs;
  }

  lemma PairsOfGroup(r: RigState, g: nat)
    requires g != 0
    ensures var pairs := Recipients(r.channels, g);
            && (set p | p in pairs && p.1 in r.members) == GroupMembers(r, g)
            && (forall c | c in r.channels && InGroup(c, g) :: (c.downGroup, c.owner) in pairs)
            && (forall i, j | 0 <= i < j < |pairs| :: pairs[i] != pairs[j])
  {
    RecipientsExact(r.channels, g);
    var pairs := Recipients(r.channels, g);
    forall p | p in pairs && p.1 in r.members ensures p in GroupMembers(r, g) {
      assert (p.0, p.1) in pairs;
      var c :| c in r.channels && InGroup(c, g) && c.downGroup == p.0 && c.owner == p.1;
    }
  }

  /** A channel's owner is the member that was told of it, and is attached unless it left
      while a swap was in flight. */
  lemma OwnersAreOpeners(book: OrderBook, ws: seq<World>, steps: seq<Step>, i: nat)
    requires Run(book, ws, steps) && i < |ws|
    ensures var w := ws[i];
            forall c | c in w.rig.channels ::
              && c.down in w.told && w.told[c.down].member == c.owner
              && (c.owner in w.rig.members <==> c.owner !in w.departed)
  {
    RunInv(book, ws, steps, i);
    OwnersWereTold(ws[i]);
  }

  // --- billing ---

  /** Every share credited to an order came over a connection to that order's primary or
      fallback pool, routed to it; the session's totals are the sums of its credit log, which
      splits into the idle part and one part per order. */
  lemma CreditsAreAttributed(book: OrderBook, ws: seq<World>, steps: seq<Step>, i: nat, routings: set<Routing>)
    requires Run(book, ws, steps) && i < |ws|
    requires forall c | c in ws[i].credits :: c.routing in routings
    ensures var w := ws[i];
            && (forall c | c in w.credits && c.routing.Rented? ::
                  c.generation in w.connections &&
                  w.connections[c.generation].routing == c.routing &&
                  PoolOf(book, c.routing.orderId, w.connections[c.generation].target))
            && w.rig.acceptedShares == TotalShares(w.credits)
            && w.rig.deliveredWork == SumOver(w.credits, routings)
  {
    RunInv(book, ws, steps, i);
    TotalSplitsByRouting(ws[i].credits, routings);
  }

  /** Installing an upstream raises the generation. */
  lemma GenerationsIncrease(book: OrderBook, ws: seq<World>, steps: seq<Step>, i: nat)
    requires Run(book, ws, steps) && i < |steps|
    ensures ws[i].rig.generation <= ws[i + 1].rig.generation
    ensures steps[i].SwapNativeStep? || steps[i].SwapTranslateStep? ==>
              ws[i].rig.generation < ws[i + 1].rig.generation
    ensures ws[i].rig.generation == ws[i + 1].rig.generation ==>
              ws[i].rig.target == ws[i + 1].rig.target && ws[i].rig.routing == ws[i + 1].rig.routing
  {
    RunInv(book, ws, steps, i);
    RunInv(book, ws, steps, i + 1);
    assert Stepped(book, ws, steps, i);
    StepIsLater(book, ws[i], steps[i]);
    if steps[i].SwapNativeStep? || steps[i].SwapTranslateStep? {
      InstallIsLater(book, ws[i], steps[i]);
    }
  }

  /** Once superseded, a connection is superseded for good: whatever its reader still hands in,
      native frame or translated line, neither changes the rig nor reaches a miner nor credits. */
  lemma SupersededIsIgnored(book: OrderBook, ws: seq<World>, steps: seq<Step>, i: nat, j: nat,
                            g: nat, f: UpFrame, down: nat, difficulty: real, to: nat, made: Translator.Sv2Frame)
    requires Run(book, ws, steps) && i <= j < |ws|
    requires g in ws[i].connections && g != ws[i].rig.generation
    ensures OnUpstreamFrame(ws[j].rig, g, f) == Handled(ws[j].rig, [], None)
    ensures TranslateDifficulty(ws[j].rig, g, down, difficulty) == ws[j].rig
    ensures TranslateCredit(ws[j].rig, g, down) == (ws[j].rig, None)
    ensures Synthesize(ws[j].rig, g, to, made) == []
  {
    RunInv(book, ws, steps, i);
    NeverReissued(book, ws, steps, i, j);
  }

  // --- members ---

  /** A member attached later under an id that was issued before had been attached all along. */
  lemma {:induction false} MembersAreNeverReused(book: OrderBook, ws: seq<World>, steps: seq<Step>, i: nat, j: nat)
    requires Run(book, ws, steps) && i <= j < |ws|
    ensures MembersOnlyJoin(ws[i], ws[j])
  {
    if i < j {
      MembersAreNeverReused(book, ws, steps, i, j - 1);
      StepOnlyJoins(book, ws, steps, j - 1);
    }
  }

  predicate MembersOnlyJoin(w: World, w': World) {
    && w.rig.nextMemberId <= w'.rig.nextMemberId
    && forall m | m in w'.rig.members :: m in w.rig.members || m >= w.rig.nextMemberId
  }

  lemma StepOnlyJoins(book: OrderBook, ws: seq<World>, steps: seq<Step>, i: nat)
    requires Run(book, ws, steps) && i < |steps|
    ensures MembersOnlyJoin(ws[i], ws[i + 1])
  {
    assert Stepped(book, ws, steps, i);
    JoinStep(book, ws[i], steps[i]);
  }

  lemma SwapKeepsMembers(book: OrderBook, w: World, step: Step)
    requires Enabled(book, w, step)
    requires OfSwap(step)
    ensures MembersOnlyJoin(w, Apply(book, w, step))
  {
  }

  lemma JoinStep(book: OrderBook, w: World, step: Step)
    requires Enabled(book, w, step)
    ensures MembersOnlyJoin(w, Apply(book, w, step))
  {
    if OfSwap(step) {
      SwapKeepsMembers(book, w, step);
    } else if step.PoolFrameStep? {
      FrameKeepsMembers(w.rig, step.generation, step.frame);
    } else {
      OthersJoin(book, w, step);
    }
  }

  lemma OthersJoin(book: OrderBook, w: World, step: Step)
    requires Enabled(book, w, step)
    requires step.AttachStep? || step.OpenStep? || step.DetachStep? || step.MinerFrameStep? ||
             OfTranslation(step)
    ensures MembersOnlyJoin(w, Apply(book, w, step))
  {
    if step.AttachStep? {
      assert MembersOnlyJoin(w, WithRig(w, AddMember(w.rig)));
    }
  }

  lemma FrameKeepsMembers(r: RigState, g: nat, f: UpFrame)
    ensures var r' := OnUpstreamFrame(r, g, f).rig;
            r'.members == r.members && r'.nextMemberId == r.nextMemberId
  {
    if f.OpenSuccess? && f.info.requestId in r.pending {
      var p := r.pending[f.info.requestId];
      MapGroupIssues(r.(pending := r.pending - {f.info.requestId}, nextDownCid := r.nextDownCid + 1),
                     f.info.groupChannelId, p.spec.Extended?);
    }
  }

  /** A run goes on with any enabled step. */
  lemma Extend(book: OrderBook, ws: seq<World>, steps: seq<Step>, step: Step) returns (vs: seq<World>, ss: seq<Step>)
    requires Run(book, ws, steps) && Enabled(book, ws[|steps|], step)
    ensures Run(book, vs, ss) && |ss| == |steps| + 1 && vs[|ss|] == Apply(book, ws[|steps|], step)
    ensures ws <= vs && steps <= ss && ss[|steps|] == step
  {
    vs, ss := ws + [Apply(book, ws[|steps|], step)], steps + [step];
    forall i: nat | i < |ss| ensures Stepped(book, vs, ss, i) {
      if i < |steps| {
        assert Stepped(book, ws, steps, i);
      }
    }
  }

  // --- translated rigs ---

  /** `translating` is set exactly while the installed connection is an SV1 translation, and
      then nothing is pending, no group is known, the one channel (if any) is its own upstream
      id in no group, attaching and further opens are refused without any change, and leaving
      sends the pool no CloseChannel. */
  lemma TranslatedRig(book: OrderBook, ws: seq<World>, steps: seq<Step>, i: nat, m: nat, spec: OpenSpec, fits: bool)
    requires Run(book, ws, steps) && i < |ws|
    ensures var w := ws[i];
            && w.rig.generation in w.connections
            && (w.rig.translating <==> !w.connections[w.rig.generation].native)
            && (w.rig.translating ==>
                  && w.rig.pending == map[] && w.rig.groupDown == map[] && |w.rig.channels| <= 1
                  && (forall c | c in w.rig.channels :: c.up == c.down && c.upGroup == 0 && c.downGroup == 0)
                  && Attach(w.rig, spec, fits) == Attached(w.rig, None, [])
                  && OpenAdditional(w.rig, m, spec, fits).rig == w.rig
                  && OpenAdditional(w.rig, m, spec, fits).toPool == []
                  && OpenAdditional(w.rig, m, spec, fits).refusal.Some?
                  && Detach(w.rig, m).toPool == [])
  {
    RunInv(book, ws, steps, i);
  }
}
