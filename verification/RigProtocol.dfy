/** The SV2 rig as a state machine: every hold of the rig's lock is one atomic step, and an
    upstream swap is several of them with other steps in between. The steps are the functions
    of `Rig.dfy`; what they keep is proved for every run. */
module RigProtocol {
  import opened Options
  import opened Types
  import opened Wire
  import opened Rig
  import Bytes
  import Target
  import Translator

  // --- worlds ---

  /** A connection that was installed at some time, by its generation. */
  datatype Connection = Connection(target: UpstreamTarget, routing: Routing, native: bool)

  /** What the open reply of a downstream channel said, and to whom. */
  datatype Told = Told(member: nat, group: nat)

  /** How far the swap that holds the switch lock has come. */
  datatype Swap =
    | NoSwap
    | Begun(snapshot: Snapshot, target: UpstreamTarget, routing: Routing)
    | Keeping(generation: nat, target: UpstreamTarget, routing: Routing, kept: Kept)

  /** A rig, the swap in flight, and the history the claims speak of: the open replies sent,
      the ids ever used for groups, the connections installed, the members that left while
      a swap was in flight, and the credit log. */
  datatype World = World(
    rig: RigState, swap: Swap,
    told: map<nat, Told>, groups: set<nat>, connections: map<nat, Connection>,
    everTranslated: bool, departed: set<nat>, credits: seq<Credit>)

  datatype Step =
    | AttachStep(spec: OpenSpec, fits: bool)
    | OpenStep(member: nat, spec: OpenSpec, fits: bool)
    | DetachStep(member: nat)
    | MinerFrameStep(member: nat, isSubmit: bool, payload: seq<Bytes.byte>)
    | PoolFrameStep(generation: nat, frame: UpFrame)
    | TranslateTargetStep(generation: nat, down: nat, difficulty: real)
    | TranslateShareStep(generation: nat, down: nat)
    | TranslateFrameStep(generation: nat, to: nat, made: Translator.Sv2Frame)
    | SwapBeginStep(target: UpstreamTarget, routing: Routing)
    | SwapKeepStep
    | SwapNativeStep(infos: seq<ChannelInfo>)
    | SwapTranslateStep(prefix: seq<Bytes.byte>, difficulty: real)
    | SwapFailStep

  /** The pool is free to send anything, except that the upstream id of a channel it opens is
      not the id of a channel already open on that connection. */
  predicate FreshUpId(r: RigState, generation: nat, f: UpFrame) {
    generation == r.generation && f.OpenSuccess? && f.info.requestId in r.pending ==>
      f.info.upChannelId !in Ups(r.channels)
  }

  predicate DistinctUps(infos: seq<ChannelInfo>) {
    forall i, j | 0 <= i < j < |infos| :: infos[i].upChannelId != infos[j].upChannelId
  }

  predicate OfSwap(step: Step) {
    step.SwapBeginStep? || step.SwapKeepStep? || step.SwapNativeStep? || step.SwapTranslateStep? || step.SwapFailStep?
  }

  predicate OfTranslation(step: Step) {
    step.TranslateTargetStep? || step.TranslateShareStep? || step.TranslateFrameStep?
  }

  /** When a step can happen: members act while attached, frames come from the reader of an
      installed connection, one swap at a time holds the switch lock and is routed to one of
      its order's pools. */
  predicate Enabled(book: OrderBook, w: World, step: Step) {
    match step
    case AttachStep(_, _) => true
    case OpenStep(m, _, _) => m in w.rig.members
    case DetachStep(m) => m in w.rig.members
    case MinerFrameStep(m, _, _) => m in w.rig.members
    case PoolFrameStep(g, f) =>
      g in w.connections && w.connections[g].native && FreshUpId(w.rig, g, f)
    case TranslateTargetStep(g, _, _) => g in w.connections && !w.connections[g].native
    case TranslateShareStep(g, _) => g in w.connections && !w.connections[g].native
    case TranslateFrameStep(g, to, _) =>
      g in w.connections && !w.connections[g].native && (w.rig.members != {} ==> to in w.rig.members)
    case SwapBeginStep(target, routing) => w.swap.NoSwap? && Attributed(book, routing, target)
    case SwapKeepStep => w.swap.Begun? && w.rig.channels != []
    case SwapNativeStep(infos) =>
      w.swap.Begun? && |infos| == |w.swap.snapshot.reopens| && DistinctUps(infos)
    case SwapTranslateStep(_, _) => w.swap.Keeping?
    case SwapFailStep => !w.swap.NoSwap?
  }

  /** The open replies among what was sent, added to what was told before. */
  function Tell(told: map<nat, Told>, sent: seq<Delivery>): map<nat, Told> {
    if sent == [] then told
    else
      var before := Tell(told, sent[..|sent| - 1]);
      var d := sent[|sent| - 1];
      if d.Delivery? && d.frame.Opened? then before[d.frame.channelId := Told(d.member, d.frame.groupId)] else before
  }

  function WithRig(w: World, r: RigState): World {
    w.(rig := r, groups := w.groups + r.groupDown.Values)
  }

  function WithCredit(w: World, credit: Option<Credit>): World {
    if credit.Some? then w.(credits := w.credits + [credit.value]) else w
  }

  /** The rig with the swap finished and its connection on record. */
  function Installed(w: World, r: RigState, native: bool): World {
    WithRig(w, r).(
      swap := NoSwap,
      connections := w.connections[r.generation := Connection(r.target, r.routing, native)],
      everTranslated := w.everTranslated || !native)
  }

  function Apply(book: OrderBook, w: World, step: Step): World
    requires Enabled(book, w, step)
  {
    match step
    case AttachStep(spec, fits) => WithRig(w, Attach(w.rig, spec, fits).rig)
    case OpenStep(m, spec, fits) => WithRig(w, OpenAdditional(w.rig, m, spec, fits).rig)
    case DetachStep(m) =>
      WithRig(w, Detach(w.rig, m).rig).(departed := if w.swap.NoSwap? then w.departed else w.departed + {m})
    case MinerFrameStep(_, isSubmit, payload) => WithRig(w, OnMinerFrame(w.rig, isSubmit, payload).rig)
    case PoolFrameStep(g, f) =>
      var h := OnUpstreamFrame(w.rig, g, f);
      WithCredit(WithRig(w, h.rig), h.credit).(told := Tell(w.told, h.sent))
    case TranslateTargetStep(g, down, difficulty) =>
      WithRig(w, TranslateDifficulty(w.rig, g, down, difficulty))
    case TranslateShareStep(g, down) =>
      var (r, credit) := TranslateCredit(w.rig, g, down);
      WithCredit(WithRig(w, r), credit)
    case TranslateFrameStep(_, _, _) => WithRig(w, w.rig)
    case SwapBeginStep(target, routing) =>
      var (r, snapshot) := SwapBegin(w.rig);
      WithRig(w, r).(swap := Begun(snapshot, target, routing))
    case SwapKeepStep =>
      w.(swap := Keeping(w.swap.snapshot.generation, w.swap.target, w.swap.routing, KeptChannel(w.rig).value))
    case SwapNativeStep(infos) =>
      var s := w.swap;
      Installed(w, SwapCommit(w.rig, s.snapshot.generation, s.target, s.routing, s.snapshot.reopens, infos), true)
    case SwapTranslateStep(_, difficulty) =>
      var s := w.swap;
      Installed(w, TranslateCommit(w.rig, s.generation, s.target, s.routing, s.kept, difficulty), false)
    case SwapFailStep => w.(swap := NoSwap)
  }

  /** What a commit tells owners about their channels. */
  function RepointsOf(w: World, step: Step): seq<Delivery>
    requires step.SwapNativeStep? ==> w.swap.Begun? && |w.swap.snapshot.reopens| == |step.infos|
    requires step.SwapTranslateStep? ==> w.swap.Keeping?
  {
    match step
    case SwapNativeStep(infos) => Repoints(w.swap.snapshot.reopens, infos, w.swap.snapshot.members)
    case SwapTranslateStep(prefix, difficulty) => TranslateRepoints(w.swap.kept, prefix, difficulty)
    case _ => []
  }

  /** A rig starts with one member on its first upstream, native or translated. */
  function Start(r: RigState, native: bool): World {
    World(r, NoSwap, if native then map[] else map[1 := Told(1, 0)], {},
          map[0 := Connection(r.target, r.routing, native)], !native, {}, [])
  }

  predicate StartsAs(w: World, target: UpstreamTarget, routing: Routing, spec: OpenSpec, difficulty: real) {
    || w == Start(NativeRig(target, routing, spec), true)
    || w == Start(TranslatedRig(target, routing, spec, difficulty), false)
  }

  ghost predicate Init(book: OrderBook, w: World) {
    exists target, routing, spec, difficulty ::
      Attributed(book, routing, target) && StartsAs(w, target, routing, spec, difficulty)
  }

  // --- the invariant ---

  ghost predicate Distinct(cs: seq<Channel>) {
    forall i, j | 0 <= i < j < |cs| :: cs[i].down != cs[j].down && cs[i].up != cs[j].up
  }

  ghost predicate DistinctDowns(os: seq<Reopen>) {
    forall i, j | 0 <= i < j < |os| :: os[i].down != os[j].down
  }

  /** `up_to_down` is exactly the up-to-down pairs of the channel list. */
  ghost predicate MapsChannels(upToDown: map<nat, nat>, cs: seq<Channel>) {
    upToDown.Keys == Ups(cs) && forall c | c in cs :: upToDown[c.up] == c.down
  }

  /** Channel ids and group ids come from one counter and never meet. */
  ghost predicate IdsInv(w: World) {
    && 0 < w.rig.nextDownCid
    && (forall d | d in w.told :: 0 < d < w.rig.nextDownCid && d !in w.groups)
    && (forall g | g in w.groups :: 0 < g < w.rig.nextDownCid)
    && w.rig.groupDown.Values <= w.groups
  }

  /** A channel belongs to the member that was told of it; its downstream group is an issued
      one, and on native runs the one that member was told. */
  ghost predicate Belongs(w: World, o: Reopen) {
    && o.down in w.told
    && w.told[o.down].member == o.owner
    && (o.spec.Extended? ==> o.downGroup == 0 || o.downGroup in w.groups)
    && (!w.everTranslated ==> o.downGroup == w.told[o.down].group)
    && (o.owner in w.rig.members || o.owner in w.departed)
  }

  ghost predicate ChannelsInv(w: World) {
    && Distinct(w.rig.channels)
    && MapsChannels(w.rig.upToDown, w.rig.channels)
    && (forall c | c in w.rig.channels :: Belongs(w, ReopenOf(c)))
    && (forall c | c in w.rig.channels :: c.spec.Standard? ==> c.upGroup == 0)
  }

  ghost predicate SwapInv(w: World) {
    && (w.swap.Begun? ==>
      && DistinctDowns(w.swap.snapshot.reopens)
      && (forall o | o in w.swap.snapshot.reopens :: Belongs(w, o))
      && w.swap.snapshot.generation == w.rig.generationCounter
      && w.rig.generation < w.rig.generationCounter)
    && (w.swap.Keeping? ==>
      && w.swap.kept.down in w.told
      && w.told[w.swap.kept.down].member == w.swap.kept.owner
      && (w.swap.kept.owner in w.rig.members || w.swap.kept.owner in w.departed)
      && w.swap.generation == w.rig.generationCounter
      && w.rig.generation < w.rig.generationCounter)
  }

  ghost predicate MembersInv(w: World) {
    && (forall m | m in w.rig.members || m in w.departed :: m < w.rig.nextMemberId)
    && w.rig.members !! w.departed
    && (forall q | q in w.rig.pending :: q < w.rig.nextUpReq && w.rig.pending[q].member in w.rig.members)
  }

  ghost predicate TranslatingInv(w: World) {
    w.rig.translating ==>
      && w.everTranslated && w.rig.pending == map[] && w.rig.groupDown == map[]
      && |w.rig.channels| <= 1
      && forall c | c in w.rig.channels :: c.up == c.down && c.upGroup == 0 && c.downGroup == 0
  }

  ghost predicate ConnectionsInv(book: OrderBook, w: World) {
    && w.rig.generation <= w.rig.generationCounter
    && w.rig.generation in w.connections
    && w.connections[w.rig.generation] == Connection(w.rig.target, w.rig.routing, !w.rig.translating)
    && (forall g | g in w.connections ::
          g <= w.rig.generation && Attributed(book, w.connections[g].routing, w.connections[g].target))
    && (w.swap.Begun? ==> Attributed(book, w.swap.routing, w.swap.target))
    && (w.swap.Keeping? ==> Attributed(book, w.swap.routing, w.swap.target))
  }

  ghost predicate CreditsInv(w: World) {
    && (forall c | c in w.credits ::
          c.generation in w.connections && w.connections[c.generation].routing == c.routing)
    && w.rig.deliveredWork == TotalWork(w.credits)
    && w.rig.acceptedShares == TotalShares(w.credits)
  }

  ghost predicate Inv(book: OrderBook, w: World) {
    IdsInv(w) && ChannelsInv(w) && SwapInv(w) && MembersInv(w) && TranslatingInv(w) &&
    ConnectionsInv(book, w) && CreditsInv(w)
  }

  // --- what each step keeps ---

  lemma {:induction false} NotOwnedByKeeps(cs: seq<Channel>, m: nat)
    ensures forall c :: c in NotOwnedBy(cs, m) <==> c in cs && c.owner != m
    ensures |NotOwnedBy(cs, m)| <= |cs|
  {
    if cs != [] {
      var n := |cs| - 1;
      NotOwnedByKeeps(cs[..n], m);
      assert cs == cs[..n] + [cs[n]];
    }
  }

  lemma {:induction false} NotOwnedByDistinct(cs: seq<Channel>, m: nat)
    requires Distinct(cs)
    ensures Distinct(NotOwnedBy(cs, m))
  {
    if cs != [] {
      var n := |cs| - 1;
      NotOwnedByDistinct(cs[..n], m);
      forall c | c in NotOwnedBy(cs[..n], m) ensures c.down != cs[n].down && c.up != cs[n].up {
        NotOwnedByKeeps(cs[..n], m);
        var i :| 0 <= i < n && cs[i] == c;
      }
    }
  }

  lemma {:induction false} OwnedByKeeps(cs: seq<Channel>, m: nat)
    ensures forall c :: c in OwnedBy(cs, m) <==> c in cs && c.owner == m
  {
    if cs != [] {
      var n := |cs| - 1;
      OwnedByKeeps(cs[..n], m);
      assert cs == cs[..n] + [cs[n]];
    }
  }

  /** Distinct channels with equal ids are the same channel. */
  lemma SameUp(cs: seq<Channel>, a: Channel, b: Channel)
    requires Distinct(cs) && a in cs && b in cs && (a.up == b.up || a.down == b.down)
    ensures a == b
  {
    var i :| 0 <= i < |cs| && cs[i] == a;
    var j :| 0 <= j < |cs| && cs[j] == b;
  }

  lemma DetachKeepsMap(r: RigState, m: nat)
    requires Distinct(r.channels) && MapsChannels(r.upToDown, r.channels)
    ensures MapsChannels(Detach(r, m).rig.upToDown, Detach(r, m).rig.channels)
  {
    NotOwnedByKeeps(r.channels, m);
    OwnedByKeeps(r.channels, m);
    UpsSplit(r.channels, NotOwnedBy(r.channels, m), OwnedBy(r.channels, m));
  }

  /** Channels that are split in two have their upstream ids split. */
  lemma UpsSplit(cs: seq<Channel>, kept: seq<Channel>, gone: seq<Channel>)
    requires Distinct(cs)
    requires forall c :: c in cs <==> c in kept || c in gone
    requires forall c | c in kept :: c !in gone
    ensures Ups(kept) == Ups(cs) - Ups(gone)
  {
    forall u | u in Ups(cs) && u !in Ups(gone) ensures u in Ups(kept) {
      var c :| c in cs && c.up == u;
      assert c in kept;
    }
    forall u | u in Ups(kept) ensures u in Ups(cs) && u !in Ups(gone) {
      var c :| c in kept && c.up == u;
      if u in Ups(gone) {
        var d :| d in gone && d.up == u;
        SameUp(cs, c, d);
      }
    }
  }

  /** No reply, group or attached member is forgotten, and no new upstream installed. */
  ghost predicate Remembers(w: World, w': World) {
    && w.groups <= w'.groups && w.everTranslated == w'.everTranslated
    && (forall d | d in w.told :: d in w'.told && w'.told[d] == w.told[d])
    && (forall m | m in w.rig.members || m in w.departed :: m in w'.rig.members || m in w'.departed)
  }

  ghost predicate SameUpstream(w: World, w': World) {
    && w'.connections == w.connections && w'.rig.generation == w.rig.generation
    && w'.rig.target == w.rig.target && w'.rig.routing == w.rig.routing
    && w'.rig.translating == w.rig.translating && w'.rig.generationCounter == w.rig.generationCounter
  }

  lemma FrameIds(w: World, w': World)
    requires IdsInv(w) && w'.told == w.told && w'.groups == w.groups
    requires w'.rig.groupDown == w.rig.groupDown && w'.rig.nextDownCid == w.rig.nextDownCid
    ensures IdsInv(w')
  {
  }

  lemma FrameChannels(w: World, w': World)
    requires ChannelsInv(w) && Remembers(w, w')
    requires w'.rig.channels == w.rig.channels && w'.rig.upToDown == w.rig.upToDown
    ensures ChannelsInv(w')
  {
    forall c | c in w.rig.channels ensures Belongs(w', ReopenOf(c)) {
      assert Belongs(w, ReopenOf(c));
    }
  }

  lemma FrameSwap(w: World, w': World)
    requires SwapInv(w) && Remembers(w, w') && SameUpstream(w, w') && w'.swap == w.swap
    ensures SwapInv(w')
  {
    if w.swap.Begun? {
      forall o | o in w.swap.snapshot.reopens ensures Belongs(w', o) {
        assert Belongs(w, o);
      }
    }
  }

  lemma FrameConnections(book: OrderBook, w: World, w': World)
    requires ConnectionsInv(book, w) && SameUpstream(w, w') && w'.swap == w.swap
    ensures ConnectionsInv(book, w')
  {
  }

  lemma FrameCredits(w: World, w': World)
    requires CreditsInv(w) && w'.credits == w.credits && w'.connections == w.connections
    requires w'.rig.deliveredWork == w.rig.deliveredWork && w'.rig.acceptedShares == w.rig.acceptedShares
    ensures CreditsInv(w')
  {
  }

  /** A step that touches neither channels, groups, upstream nor credit log. */
  ghost predicate Quiet(w: World, w': World) {
    && Remembers(w, w') && SameUpstream(w, w') && w'.swap == w.swap
    && w'.told == w.told && w'.groups == w.groups && w'.credits == w.credits
    && w'.rig.channels == w.rig.channels && w'.rig.upToDown == w.rig.upToDown
    && w'.rig.groupDown == w.rig.groupDown && w'.rig.nextDownCid == w.rig.nextDownCid
    && w'.rig.deliveredWork == w.rig.deliveredWork && w'.rig.acceptedShares == w.rig.acceptedShares
  }

  lemma QuietKeeps(book: OrderBook, w: World, w': World)
    requires Inv(book, w) && Quiet(w, w') && MembersInv(w')
    requires w.rig.translating ==> w'.rig.pending == map[]
    ensures Inv(book, w')
  {
    FrameIds(w, w');
    FrameChannels(w, w');
    FrameSwap(w, w');
    FrameConnections(book, w, w');
    FrameCredits(w, w');
  }

  lemma DetachKeepsChannels(w: World, w': World, m: nat)
    requires ChannelsInv(w) && w'.rig == Detach(w.rig, m).rig
    requires w'.told == w.told && w'.groups == w.groups && w'.everTranslated == w.everTranslated
    requires w.departed <= w'.departed
    ensures ChannelsInv(w')
  {
    NotOwnedByKeeps(w.rig.channels, m);
    NotOwnedByDistinct(w.rig.channels, m);
    DetachKeepsMap(w.rig, m);
    forall c | c in w'.rig.channels ensures Belongs(w', ReopenOf(c)) {
      assert Belongs(w, ReopenOf(c));
    }
  }

  lemma DetachStepKeeps(book: OrderBook, w: World, m: nat)
    requires Inv(book, w) && m in w.rig.members
    ensures Inv(book, Apply(book, w, DetachStep(m)))
  {
    var w' := Apply(book, w, DetachStep(m));
    assert w'.groups == w.groups;
    assert IdsInv(w') by { FrameIds(w, w'); }
    assert ChannelsInv(w') by { DetachKeepsChannels(w, w', m); }
    assert SwapInv(w') by { if !w.swap.NoSwap? { FrameSwap(w, w'); } }
    assert TranslatingInv(w') by { NotOwnedByKeeps(w.rig.channels, m); }
    assert ConnectionsInv(book, w') by { FrameConnections(book, w, w'); }
    assert CreditsInv(w') by { FrameCredits(w, w'); }
  }

  /** Nothing but difficulties differs. */
  ghost predicate SameButDifficulty(cs: seq<Channel>, ds: seq<Channel>) {
    |cs| == |ds| && forall i | 0 <= i < |cs| :: ds[i] == cs[i].(difficulty := ds[i].difficulty)
  }

  lemma {:induction false} RetargetShape(cs: seq<Channel>, id: nat, d: real)
    ensures SameButDifficulty(cs, WithDifficulty(cs, id, d))
    ensures SameButDifficulty(cs, WithDifficultyByDown(cs, id, d))
  {
    if cs != [] {
      RetargetShape(cs[1..], id, d);
    }
  }

  lemma SameShape(bs: seq<Channel>, cs: seq<Channel>)
    requires SameButDifficulty(bs, cs)
    ensures Ups(bs) == Ups(cs)
    ensures forall c | c in cs :: exists b :: b in bs && c == b.(difficulty := c.difficulty)
    ensures Distinct(bs) ==> Distinct(cs)
  {
    forall c | c in cs ensures exists b :: b in bs && c == b.(difficulty := c.difficulty) {
      var i :| 0 <= i < |cs| && cs[i] == c;
      assert bs[i] in bs;
    }
    forall b | b in bs ensures b.up in Ups(cs) {
      var i :| 0 <= i < |bs| && bs[i] == b;
      assert cs[i] in cs;
    }
  }

  lemma RetargetKeeps(book: OrderBook, w: World, cs: seq<Channel>)
    requires Inv(book, w) && SameButDifficulty(w.rig.channels, cs)
    ensures Inv(book, WithRig(w, w.rig.(channels := cs)))
  {
    var bs, w' := w.rig.channels, WithRig(w, w.rig.(channels := cs));
    assert w'.groups == w.groups;
    SameShape(bs, cs);
    assert IdsInv(w') by { FrameIds(w, w'); }
    assert ChannelsInv(w') by {
      forall c | c in cs ensures Belongs(w', ReopenOf(c)) && w'.rig.upToDown[c.up] == c.down {
        var b :| b in bs && c == b.(difficulty := c.difficulty);
        assert ReopenOf(b) == ReopenOf(c) && Belongs(w, ReopenOf(b));
      }
    }
    assert SwapInv(w') by { FrameSwap(w, w'); }
    assert ConnectionsInv(book, w') by { FrameConnections(book, w, w'); }
    assert CreditsInv(w') by { FrameCredits(w, w'); }
  }

  /** Booking a credit changes the totals and the log together, and nothing else. */
  lemma BookKeeps(book: OrderBook, w: World, difficulty: real, count: nat)
    requires Inv(book, w)
    ensures var (r, credit) := Book(w.rig, difficulty, count);
            Inv(book, WithCredit(WithRig(w, r), credit))
  {
    NothingHappens(w);
    var (r, credit) := Book(w.rig, difficulty, count);
    if credit.Some? {
      var w' := WithCredit(WithRig(w, r), credit);
      assert IdsInv(w') by { FrameIds(w, w'); }
      assert ChannelsInv(w') by { FrameChannels(w, w'); }
      assert SwapInv(w') by { FrameSwap(w, w'); }
      assert ConnectionsInv(book, w') by { FrameConnections(book, w, w'); }
      CreditKeepsCredits(w, r, credit.value);
    }
  }

  lemma CreditKeepsCredits(w: World, r: RigState, c: Credit)
    requires CreditsInv(w) && c.generation in w.connections && w.connections[c.generation].routing == c.routing
    requires r.deliveredWork == w.rig.deliveredWork + c.work && r.acceptedShares == w.rig.acceptedShares + c.shares
    ensures CreditsInv(WithCredit(WithRig(w, r), Some(c)))
  {
    assert (w.credits + [c])[..|w.credits|] == w.credits;
  }

  lemma NothingHappens(w: World)
    requires IdsInv(w)
    ensures WithRig(w, w.rig) == w
  {
    assert w.groups + w.rig.groupDown.Values == w.groups;
  }

  lemma RequestKeeps(book: OrderBook, w: World, m: nat, spec: OpenSpec, fits: bool)
    requires Inv(book, w) && m in w.rig.members && !w.rig.translating
    ensures Inv(book, WithRig(w, RequestOpen(w.rig, m, spec, fits).0))
  {
    NothingHappens(w);
    var w' := WithRig(w, RequestOpen(w.rig, m, spec, fits).0);
    QuietKeeps(book, w, w');
  }

  lemma AddMemberKeeps(book: OrderBook, w: World)
    requires Inv(book, w)
    ensures Inv(book, WithRig(w, AddMember(w.rig)))
  {
    NothingHappens(w);
    var w' := WithRig(w, AddMember(w.rig));
    QuietKeeps(book, w, w');
  }

  lemma AttachStepKeeps(book: OrderBook, w: World, spec: OpenSpec, fits: bool)
    requires Inv(book, w)
    ensures Inv(book, Apply(book, w, AttachStep(spec, fits)))
  {
    NothingHappens(w);
    if !w.rig.translating {
      AddMemberKeeps(book, w);
      RequestKeeps(book, WithRig(w, AddMember(w.rig)), w.rig.nextMemberId, spec, fits);
    }
  }

  /** Appending a channel with new ids keeps the list distinct and the map exact. */
  lemma RegisterKeeps(r: RigState, c: Channel)
    requires Distinct(r.channels) && MapsChannels(r.upToDown, r.channels)
    requires forall b | b in r.channels :: b.down != c.down && b.up != c.up
    ensures var r' := RegisterChannel(r, c);
            Distinct(r'.channels) && MapsChannels(r'.upToDown, r'.channels)
  {
    assert Ups(r.channels + [c]) == Ups(r.channels) + {c.up} by {
      assert c in r.channels + [c];
      forall b | b in r.channels ensures b.up in Ups(r.channels + [c]) {
        assert b in r.channels + [c];
      }
    }
  }

  function AfterOpen(w: World, info: ChannelInfo): World {
    var h := FinishOpen(w.rig, info);
    WithRig(w, h.rig).(told := Tell(w.told, h.sent))
  }

  /** The downstream group a finished open reports. */
  function OpenedGroup(w: World, info: ChannelInfo): nat
    requires info.requestId in w.rig.pending
  {
    var p, down := w.rig.pending[info.requestId], w.rig.nextDownCid;
    MapGroup(w.rig.(nextDownCid := down + 1), info.groupChannelId, p.spec.Extended?).1
  }

  /** What opening a channel does to a world. */
  ghost predicate Opens(w: World, w': World, c: Channel) {
    && c.down == w.rig.nextDownCid
    && w'.told == w.told[c.down := Told(c.owner, c.downGroup)]
    && w'.rig.channels == w.rig.channels + [c]
    && w'.rig.upToDown == w.rig.upToDown[c.up := c.down]
    && (c.spec.Extended? && c.downGroup != 0 ==> c.downGroup in w'.groups)
    && w.groups <= w'.groups <= w.groups + {c.down + 1}
    && w'.rig.groupDown.Values <= w'.groups
    && c.down < w'.rig.nextDownCid <= c.down + 2
    && (w'.groups == w.groups || w'.rig.nextDownCid == c.down + 2)
  }

  /** A downstream group id is either already in use for that upstream group or brand new. */
  lemma MapGroupIssues(r: RigState, upGroup: nat, extended: bool)
    ensures var (r', group) := MapGroup(r, upGroup, extended);
            && (extended && group != 0 && upGroup != 0 ==> group in r'.groupDown.Values)
            && (r' == r || (r'.groupDown.Values <= r.groupDown.Values + {r.nextDownCid} &&
                            r' == r.(nextDownCid := r.nextDownCid + 1, groupDown := r'.groupDown)))
  {
    var (r', group) := MapGroup(r, upGroup, extended);
    if extended && upGroup != 0 {
      assert r'.groupDown[upGroup] == group;
    }
  }

  lemma TellOne(told: map<nat, Told>, d: Delivery)
    ensures Tell(told, [d]) ==
            if d.Delivery? && d.frame.Opened? then told[d.frame.channelId := Told(d.member,
                d.frame.groupId)] else told
  {
    assert [d][..0] == [];
  }

  /** Finishing an open, written as one record update. */
  lemma FinishOpenShape(r: RigState, info: ChannelInfo)
    requires info.requestId in r.pending && r.pending[info.requestId].member in r.members
    ensures var p, down := r.pending[info.requestId], r.nextDownCid;
            var (r2, group) := MapGroup(r.(nextDownCid := down + 1), info.groupChannelId, p.spec.Extended?);
            var c := OpenedChannel(p, down, group, info);
            var h := FinishOpen(r, info);
            && h.rig.channels == r.channels + [c] && h.rig.upToDown == r.upToDown[c.up := c.down]
            && h.rig.groupDown == r2.groupDown && h.rig.nextDownCid == r2.nextDownCid
            && h.sent == [Delivery(p.member, OpenReply(p.spec, down, group, info))]
  {
  }

  lemma FinishOpenOpens(w: World, info: ChannelInfo)
    requires IdsInv(w) && info.requestId in w.rig.pending && w.rig.pending[info.requestId].member in w.rig.members
    ensures Opens(w, AfterOpen(w, info),
                  OpenedChannel(w.rig.pending[info.requestId], w.rig.nextDownCid, OpenedGroup(w, info), info))
  {
    var p, down, group := w.rig.pending[info.requestId], w.rig.nextDownCid, OpenedGroup(w, info);
    FinishOpenShape(w.rig, info);
    MapGroupIssues(w.rig.(nextDownCid := down + 1), info.groupChannelId, p.spec.Extended?);
    TellOne(w.told, Delivery(p.member, OpenReply(p.spec, down, group, info)));
  }

  lemma OpensKeepsIds(w: World, w': World, c: Channel)
    requires IdsInv(w) && Opens(w, w', c)
    ensures IdsInv(w') && c.down !in w.told
  {
    forall d | d in w'.told ensures 0 < d < w'.rig.nextDownCid && d !in w'.groups {
      assert d == c.down || d in w.told;
      assert d !in w.groups + {c.down + 1};
    }
  }

  lemma OpensKeepsChannels(w: World, w': World, c: Channel)
    requires IdsInv(w) && ChannelsInv(w) && Opens(w, w', c) && Remembers(w, w')
    requires c.up !in Ups(w.rig.channels) && c.owner in w'.rig.members
    requires c.spec.Standard? ==> c.upGroup == 0
    ensures ChannelsInv(w')
  {
    forall b | b in w.rig.channels ensures b.down != c.down && b.up != c.up && Belongs(w', ReopenOf(b)) {
      assert Belongs(w, ReopenOf(b));
      assert b.up in Ups(w.rig.channels);
    }
    RegisterKeeps(w.rig, c);
    assert Belongs(w', ReopenOf(c));
  }

  lemma FinishOpenKeeps(book: OrderBook, w: World, info: ChannelInfo)
    requires Inv(book, w) && (info.requestId in w.rig.pending ==> info.upChannelId !in Ups(w.rig.channels))
    ensures Inv(book, AfterOpen(w, info))
  {
    NothingHappens(w);
    if info.requestId in w.rig.pending {
      var w' := AfterOpen(w, info);
      var c := OpenedChannel(w.rig.pending[info.requestId], w.rig.nextDownCid, OpenedGroup(w, info), info);
      FinishOpenOpens(w, info);
      OpensKeeps(book, w, w', c);
    }
  }

  lemma OpensKeeps(book: OrderBook, w: World, w': World, c: Channel)
    requires Inv(book, w) && Opens(w, w', c) && SameUpstream(w, w') && w'.swap == w.swap
    requires c.up !in Ups(w.rig.channels) && c.owner in w.rig.members && (c.spec.Standard? ==> c.upGroup == 0)
    requires w'.rig.members == w.rig.members && w'.departed == w.departed && w'.everTranslated == w.everTranslated
    requires !w.rig.translating && MembersInv(w') && w'.credits == w.credits
    requires w'.rig.deliveredWork == w.rig.deliveredWork && w'.rig.acceptedShares == w.rig.acceptedShares
    ensures Inv(book, w')
  {
    OpensKeepsIds(w, w', c);
    OpensKeepsChannels(w, w', c);
    FrameSwap(w, w');
    FrameConnections(book, w, w');
    FrameCredits(w, w');
  }

  lemma ScopedFrameKeeps(book: OrderBook, w: World, up: nat, m: Message)
    requires Inv(book, w)
    ensures var (r, credit) := BookShares(ApplyTarget(w.rig, up, m), up, m);
            Inv(book, WithCredit(WithRig(w, r), credit))
  {
    var r1 := ApplyTarget(w.rig, up, m);
    if m.TargetChange? && m.target.Some? {
      RetargetShape(w.rig.channels, up, Target.DifficultyFromTarget(m.target.value));
      RetargetKeeps(book, w, r1.channels);
    } else if m.SharesAccepted? {
      var c := ByUp(r1.channels, up);
      BookKeeps(book, w, if c.Some? then c.value.difficulty else 0.0, if m.count.Some? then m.count.value else 0);
    }
  }

  lemma FailOpenKeeps(book: OrderBook, w: World, req: Option<nat>)
    requires Inv(book, w)
    ensures Inv(book, WithRig(w, FailOpen(w.rig, req).rig))
  {
    NothingHappens(w);
    var w' := WithRig(w, FailOpen(w.rig, req).rig);
    QuietKeeps(book, w, w');
  }

  /** A channel-scoped frame tells nobody of a channel. */
  lemma ScopedTellsNothing(r: RigState, told: map<nat, Told>, m: Message, payload: seq<Bytes.byte>)
    ensures Tell(told, OnUpstreamFrame(r, r.generation, Scoped(m, payload)).sent) == told
  {
    if ChannelIdOf(payload).Some? {
      var up := ChannelIdOf(payload).value;
      var r' := BookShares(ApplyTarget(r, up, m), up, m).0;
      RouteTellsNothing(r', up, m, payload);
      NothingTold(told, Route(r', up, m, payload));
    }
  }

  lemma ScopedStepKeeps(book: OrderBook, w: World, m: Message, payload: seq<Bytes.byte>)
    requires Inv(book, w)
    ensures var h := OnUpstreamFrame(w.rig, w.rig.generation, Scoped(m, payload));
            Inv(book, WithCredit(WithRig(w, h.rig), h.credit))
  {
    ScopedIs(w.rig, m, payload);
    if ChannelIdOf(payload).Some? {
      ScopedFrameKeeps(book, w, ChannelIdOf(payload).value, m);
    } else {
      NothingHappens(w);
    }
  }

  lemma ScopedIs(r: RigState, m: Message, payload: seq<Bytes.byte>)
    ensures var h := OnUpstreamFrame(r, r.generation, Scoped(m, payload));
            match ChannelIdOf(payload)
            case None => h.rig == r && h.credit == None
            case Some(up) => (h.rig, h.credit) == BookShares(ApplyTarget(r, up, m), up, m)
  {
  }

  lemma PoolFrameStepKeeps(book: OrderBook, w: World, g: nat, f: UpFrame)
    requires Inv(book, w) && FreshUpId(w.rig, g, f)
    ensures var h := OnUpstreamFrame(w.rig, g, f);
            Inv(book, WithCredit(WithRig(w, h.rig), h.credit).(told := Tell(w.told, h.sent)))
  {
    var h := OnUpstreamFrame(w.rig, g, f);
    NothingHappens(w);
    if g == w.rig.generation {
      match f
      case OpenSuccess(info) => FinishOpenKeeps(book, w, info);
      case OpenError(req) =>
        FailOpenKeeps(book, w, req);
        NothingTold(w.told, h.sent);
      case Scoped(m, payload) =>
        ScopedStepKeeps(book, w, m, payload);
        ScopedTellsNothing(w.rig, w.told, m, payload);
      case _ =>
    }
  }

  lemma {:induction false} NothingTold(told: map<nat, Told>, sent: seq<Delivery>)
    requires forall d | d in sent :: !d.frame.Opened?
    ensures Tell(told, sent) == told
  {
    if sent != [] {
      NothingTold(told, sent[..|sent| - 1]);
    }
  }

  lemma {:induction false} CopiesTellNothing(r: RigState, pairs: seq<(nat, nat)>, m: Message,
                                             payload: seq<Bytes.byte>)
    ensures forall d | d in GroupCopies(r, pairs, m, payload) :: !d.frame.Opened?
  {
    if pairs != [] {
      CopiesTellNothing(r, pairs[..|pairs| - 1], m, payload);
    }
  }

  lemma RouteTellsNothing(r: RigState, up: nat, m: Message, payload: seq<Bytes.byte>)
    ensures forall d | d in Route(r, up, m, payload) :: !d.frame.Opened?
  {
    CopiesTellNothing(r, Recipients(r.channels, up), m, payload);
  }

  lemma TranslateTargetStepKeeps(book: OrderBook, w: World, g: nat, down: nat, difficulty: real)
    requires Inv(book, w)
    ensures Inv(book, WithRig(w, TranslateDifficulty(w.rig, g, down, difficulty)))
  {
    NothingHappens(w);
    if g == w.rig.generation {
      RetargetShape(w.rig.channels, down, difficulty);
      RetargetKeeps(book, w, WithDifficultyByDown(w.rig.channels, down, difficulty));
    }
  }

  lemma TranslateShareStepKeeps(book: OrderBook, w: World, g: nat, down: nat)
    requires Inv(book, w)
    ensures var (r, credit) := TranslateCredit(w.rig, g, down);
            Inv(book, WithCredit(WithRig(w, r), credit))
  {
    NothingHappens(w);
    if g == w.rig.generation {
      var c := ByDown(w.rig.channels, down);
      BookKeeps(book, w, if c.Some? then c.value.difficulty else 0.0, 1);
    }
  }

  lemma SwapBeginStepKeeps(book: OrderBook, w: World, target: UpstreamTarget, routing: Routing)
    requires Inv(book, w) && Enabled(book, w, SwapBeginStep(target, routing))
    ensures Inv(book, Apply(book, w, SwapBeginStep(target, routing)))
  {
    NothingHappens(w);
    var w' := Apply(book, w, SwapBeginStep(target, routing));
    assert IdsInv(w') by { FrameIds(w, w'); }
    assert ChannelsInv(w') by { FrameChannels(w, w'); }
    assert SwapInv(w') by {
      forall o | o in w'.swap.snapshot.reopens ensures Belongs(w', o) {
        var i :| 0 <= i < |w.rig.channels| && ReopenOf(w.rig.channels[i]) == o;
        assert w.rig.channels[i] in w'.rig.channels;
      }
    }
    assert CreditsInv(w') by { FrameCredits(w, w'); }
  }

  lemma {:induction false} StagedMapExact(os: seq<Reopen>, infos: seq<ChannelInfo>)
    requires |os| == |infos| && DistinctUps(infos)
    ensures MapsChannels(StagedUpToDown(os, infos), ReopenedChannels(os, infos))
  {
    var cs := ReopenedChannels(os, infos);
    if os != [] {
      var n := |os| - 1;
      StagedMapExact(os[..n], infos[..n]);
      assert cs[..n] == ReopenedChannels(os[..n], infos[..n]);
      assert cs == cs[..n] + [cs[n]];
      assert Ups(cs) == Ups(cs[..n]) + {cs[n].up} by {
        forall c | c in cs[..n] ensures c.up in Ups(cs) { assert c in cs; }
        assert cs[n] in cs;
      }
    }
  }

  lemma {:induction false} StagedGroupsFrom(os: seq<Reopen>, infos: seq<ChannelInfo>)
    requires |os| == |infos|
    ensures forall g | g in StagedGroups(os, infos).Values ::
              exists o :: o in os && o.spec.Extended? && o.downGroup == g && g != 0
  {
    if os != [] {
      var n := |os| - 1;
      StagedGroupsFrom(os[..n], infos[..n]);
      forall g | g in StagedGroups(os, infos).Values
        ensures exists o :: o in os && o.spec.Extended? && o.downGroup == g && g != 0
      {
        var k :| k in StagedGroups(os, infos) && StagedGroups(os, infos)[k] == g;
        var before := StagedGroups(os[..n], infos[..n]);
        if k in before && before[k] == g {
          assert g in before.Values;
          var o :| o in os[..n] && o.spec.Extended? && o.downGroup == g && g != 0;
          assert o in os;
        } else {
          assert os[n] in os;
        }
      }
    }
  }

  lemma ReopenedKeepChannels(w: World, w': World, os: seq<Reopen>, infos: seq<ChannelInfo>)
    requires |os| == |infos| && DistinctUps(infos) && DistinctDowns(os)
    requires Remembers(w, w') && forall o | o in os :: Belongs(w, o)
    requires w'.rig.channels == ReopenedChannels(os, infos) && w'.rig.upToDown == StagedUpToDown(os, infos)
    ensures ChannelsInv(w')
  {
    StagedMapExact(os, infos);
    forall c | c in w'.rig.channels ensures Belongs(w', ReopenOf(c)) && (c.spec.Standard? ==> c.upGroup == 0) {
      var i :| 0 <= i < |os| && w'.rig.channels[i] == c;
      assert os[i] in os && ReopenOf(c) == os[i] && Belongs(w, os[i]);
    }
  }

  lemma ReopenedKeepGroups(w: World, os: seq<Reopen>, infos: seq<ChannelInfo>)
    requires |os| == |infos| && forall o | o in os :: Belongs(w, o)
    ensures StagedGroups(os, infos).Values <= w.groups
  {
    StagedGroupsFrom(os, infos);
    forall g | g in StagedGroups(os, infos).Values ensures g in w.groups {
      var o :| o in os && o.spec.Extended? && o.downGroup == g && g != 0;
      assert Belongs(w, o);
    }
  }

  /** Installing an upstream puts its connection on record under a new, highest generation. */
  lemma InstallKeepsRecords(book: OrderBook, w: World, w': World)
    requires ConnectionsInv(book, w) && CreditsInv(w) && w'.swap.NoSwap?
    requires w.rig.generation < w'.rig.generation <= w'.rig.generationCounter
    requires Attributed(book, w'.rig.routing, w'.rig.target)
    requires w'.connections == w.connections[w'.rig.generation :=
                                 Connection(w'.rig.target, w'.rig.routing, !w'.rig.translating)]
    requires w'.credits == w.credits && w'.rig.deliveredWork == w.rig.deliveredWork
    requires w'.rig.acceptedShares == w.rig.acceptedShares
    ensures ConnectionsInv(book, w') && CreditsInv(w')
  {
    assert w'.rig.generation !in w.connections;
  }

  lemma SwapNativeStepKeeps(book: OrderBook, w: World, infos: seq<ChannelInfo>)
    requires Inv(book, w) && Enabled(book, w, SwapNativeStep(infos))
    ensures Inv(book, Apply(book, w, SwapNativeStep(infos)))
  {
    var w', os := Apply(book, w, SwapNativeStep(infos)), w.swap.snapshot.reopens;
    ReopenedKeepGroups(w, os, infos);
    assert w'.groups == w.groups;
    ReopenedKeepChannels(w, w', os, infos);
    InstallKeepsRecords(book, w, w');
  }

  lemma SwapTranslateStepKeeps(book: OrderBook, w: World, prefix: seq<Bytes.byte>, difficulty: real)
    requires Inv(book, w) && Enabled(book, w, SwapTranslateStep(prefix, difficulty))
    ensures Inv(book, Apply(book, w, SwapTranslateStep(prefix, difficulty)))
  {
    var w' := Apply(book, w, SwapTranslateStep(prefix, difficulty));
    var c := w'.rig.channels[0];
    assert w'.groups == w.groups;
    assert IdsInv(w');
    assert ChannelsInv(w') by {
      assert w'.rig.channels == [c] && Belongs(w', ReopenOf(c));
    }
    assert ConnectionsInv(book, w') && CreditsInv(w') by { InstallKeepsRecords(book, w, w'); }
  }

  lemma SwapKeepStepKeeps(book: OrderBook, w: World)
    requires Inv(book, w) && Enabled(book, w, SwapKeepStep)
    ensures Inv(book, Apply(book, w, SwapKeepStep))
  {
    var w' := Apply(book, w, SwapKeepStep);
    assert Belongs(w, ReopenOf(w.rig.channels[0]));
    assert ChannelsInv(w') by { FrameChannels(w, w'); }
    assert IdsInv(w') by { FrameIds(w, w'); }
    assert CreditsInv(w') by { FrameCredits(w, w'); }
  }

  lemma SwapFailStepKeeps(book: OrderBook, w: World)
    requires Inv(book, w) && Enabled(book, w, SwapFailStep)
    ensures Inv(book, Apply(book, w, SwapFailStep))
  {
    var w' := w.(swap := NoSwap);
    assert ChannelsInv(w') by { FrameChannels(w, w'); }
    assert IdsInv(w') by { FrameIds(w, w'); }
    assert CreditsInv(w') by { FrameCredits(w, w'); }
  }

  lemma MinerFrameStepKeeps(book: OrderBook, w: World, isSubmit: bool, payload: seq<Bytes.byte>)
    requires Inv(book, w)
    ensures Inv(book, WithRig(w, OnMinerFrame(w.rig, isSubmit, payload).rig))
  {
    NothingHappens(w);
    var w' := WithRig(w, OnMinerFrame(w.rig, isSubmit, payload).rig);
    QuietKeeps(book, w, w');
  }

  /** The invariant holds at the start... */
  lemma InitInv(book: OrderBook, w: World)
    requires Init(book, w)
    ensures Inv(book, w)
  {
    var target, routing, spec, difficulty :|
      Attributed(book, routing, target) && StartsAs(w, target, routing, spec, difficulty);
    if w == Start(NativeRig(target, routing, spec), true) {
      assert w.rig.channels == [] && w.rig.upToDown == map[];
    } else {
      assert w.rig.channels == [Channel(1, 1, spec, difficulty, 1, 0, 0)];
      assert w.rig.upToDown == map[1 := 1];
      assert w.told == map[1 := Told(1, 0)];
    }
  }

  /** ...and every step of any kind keeps it. */
  lemma StepKeeps(book: OrderBook, w: World, step: Step)
    requires Inv(book, w) && Enabled(book, w, step)
    ensures Inv(book, Apply(book, w, step))
  {
    NothingHappens(w);
    match step
    case AttachStep(spec, fits) => AttachStepKeeps(book, w, spec, fits);
    case OpenStep(m, spec, fits) => if !w.rig.translating { RequestKeeps(book, w, m, spec, fits); }
    case DetachStep(m) => DetachStepKeeps(book, w, m);
    case MinerFrameStep(_, isSubmit, payload) => MinerFrameStepKeeps(book, w, isSubmit, payload);
    case PoolFrameStep(g, f) => PoolFrameStepKeeps(book, w, g, f);
    case TranslateTargetStep(g, down, d) => TranslateTargetStepKeeps(book, w, g, down, d);
    case TranslateShareStep(g, down) => TranslateShareStepKeeps(book, w, g, down);
    case TranslateFrameStep(_, _, _) => QuietKeeps(book, w, w);
    case SwapBeginStep(target, routing) => SwapBeginStepKeeps(book, w, target, routing);
    case SwapKeepStep => SwapKeepStepKeeps(book, w);
    case SwapNativeStep(infos) => SwapNativeStepKeeps(book, w, infos);
    case SwapTranslateStep(prefix, d) => SwapTranslateStepKeeps(book, w, prefix, d);
    case SwapFailStep => SwapFailStepKeeps(book, w);
  }
}
