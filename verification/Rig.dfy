/** The shared state of one SV2 rig (`Inner` in `src/proto/sv2/relay.rs`) and what each hold
    of its lock does to it, as functions on values. `Session.dfy` holds the code in its
    imperative form, proved against these functions; `RigProtocol.dfy` proves what they keep. */
module Rig {
  import opened Bytes
  import opened Options
  import opened Types
  import opened Wire
  import opened Target
  import Translator

  datatype Channel = Channel(
    down: nat, up: nat, spec: OpenSpec, difficulty: real, owner: nat, upGroup: nat, downGroup: nat)

  datatype PendingOpen = PendingOpen(member: nat, spec: OpenSpec)

  /** A member's frame sink is identified with its member id: a frame can be sent to a member
      exactly while its id is in `members`. */
  datatype RigState = RigState(
    generation: nat, target: UpstreamTarget,
    generationCounter: nat,
    channels: seq<Channel>, upToDown: map<nat, nat>, groupDown: map<nat, nat>,
    pending: map<nat, PendingOpen>,
    nextDownCid: nat, nextUpReq: nat,
    members: set<nat>, nextMemberId: nat,
    routing: Routing, translating: bool,
    deliveredWork: real, acceptedShares: nat, submittedShares: nat)

  // --- frames ---

  /** A channel-scoped message, with the fields the relay parses out of it. */
  datatype Message =
    | TargetChange(target: Option<seq<byte>>)
    | SharesAccepted(count: Option<nat>)
    | OtherMessage(msgType: nat)

  /** A frame off an upstream connection, as far as the relay tells frames apart. */
  datatype UpFrame =
    | OpenSuccess(info: ChannelInfo)
    | MalformedSuccess
    | OpenError(requestId: Option<nat>)
    | Scoped(message: Message, payload: seq<byte>)
    | NotScoped(msgType: nat)

  datatype DownFrame =
    | Opened(requestId: nat, channelId: nat, groupId: nat, target: seq<byte>, prefix: seq<byte>, extranonceSize: nat)
    | Refused(requestId: nat, reason: string)
    | NewPrefix(channelId: nat, prefix: seq<byte>)
    | NewTarget(channelId: nat, target: seq<byte>)
    | Relayed(message: Message, payload: seq<byte>)
    | PoolError(unknown: Option<nat>)
    | Synthesized(made: Translator.Sv2Frame)

  /** A frame sent to one member, or to every attached member in no particular order. */
  datatype Delivery = Delivery(member: nat, frame: DownFrame) | Broadcast(members: set<nat>, frame: DownFrame)

  datatype UpOut =
    | OpenOnPool(requestId: nat, spec: OpenSpec)
    | CloseOnPool(channelId: nat)
    | ToPool(payload: seq<byte>)

  // --- looking channels up ---

  predicate InGroup(c: Channel, upGroup: nat) {
    c.upGroup == upGroup && c.spec.Extended?
  }

  /** `up_for_down`: the upstream id behind the first channel with this downstream id. */
  function UpForDown(channels: seq<Channel>, down: nat): Option<nat> {
    if channels == [] then None
    else if channels[0].down == down then Some(channels[0].up)
    else UpForDown(channels[1..], down)
  }

  /** The first channel behind an upstream id. */
  function ByUp(channels: seq<Channel>, up: nat): Option<Channel> {
    if channels == [] then None
    else if channels[0].up == up then Some(channels[0])
    else ByUp(channels[1..], up)
  }

  /** The first channel with a downstream id. */
  function ByDown(channels: seq<Channel>, down: nat): Option<Channel> {
    if channels == [] then None
    else if channels[0].down == down then Some(channels[0])
    else ByDown(channels[1..], down)
  }

  /** `group_recipients`: the distinct (downstream group, owner) pairs of an upstream group,
      in channel order. */
  function Recipients(channels: seq<Channel>, upGroup: nat): seq<(nat, nat)> {
    if upGroup == 0 || channels == [] then []
    else
      var n := |channels| - 1;
      var before := Recipients(channels[..n], upGroup);
      var pair := (channels[n].downGroup, channels[n].owner);
      if InGroup(channels[n], upGroup) && pair !in before then before + [pair] else before
  }

  // --- opening channels ---

  /** `map_group`: one downstream group id per upstream group, made on first use. */
  function MapGroup(r: RigState, upGroup: nat, extended: bool): (RigState, nat) {
    if !extended || upGroup == 0 then (r, upGroup)
    else if upGroup in r.groupDown then (r, r.groupDown[upGroup])
    else
      var id := r.nextDownCid;
      (r.(nextDownCid := id + 1, groupDown := r.groupDown[upGroup := id]), id)
  }

  function RegisterChannel(r: RigState, c: Channel): RigState {
    r.(upToDown := r.upToDown[c.up := c.down], channels := r.channels + [c])
  }

  /** The open reply a miner sees. */
  function OpenReply(spec: OpenSpec, down: nat, downGroup: nat, info: ChannelInfo): DownFrame {
    if spec.Extended? then
      Opened(spec.requestId, down, downGroup, info.target, info.extranoncePrefix, info.extranonceSize)
    else
      Opened(spec.requestId, down, info.groupChannelId, info.target, info.extranoncePrefix, 0)
  }

  function AddMember(r: RigState): RigState {
    r.(members := r.members + {r.nextMemberId}, nextMemberId := r.nextMemberId + 1)
  }

  /** Ask the upstream for a channel under a fresh request id; `fits` is false when the
      open cannot be encoded (the account name is too long). */
  function RequestOpen(r: RigState, member: nat, spec: OpenSpec, fits: bool): (RigState, seq<UpOut>) {
    var req := r.nextUpReq;
    var r' := r.(nextUpReq := req + 1);
    if fits then (r'.(pending := r.pending[req := PendingOpen(member, spec)]), [OpenOnPool(req, spec)])
    else (r', [])
  }

  datatype Attached = Attached(rig: RigState, member: Option<nat>, toPool: seq<UpOut>)

  /** `attach_member`. */
  function Attach(r: RigState, spec: OpenSpec, fits: bool): Attached {
    if r.translating then Attached(r, None, [])
    else
      var (r', out) := RequestOpen(AddMember(r), r.nextMemberId, spec, fits);
      Attached(r', Some(r.nextMemberId), out)
  }

  datatype Asked = Asked(rig: RigState, toPool: seq<UpOut>, refusal: Option<DownFrame>)

  /** A further channel of an attached miner. */
  function OpenAdditional(r: RigState, member: nat, spec: OpenSpec, fits: bool): Asked {
    if r.translating then
      Asked(r, [], Some(Refused(spec.requestId, "additional channels are not supported on an SV1 upstream")))
    else
      var (r', out) := RequestOpen(r, member, spec, fits);
      Asked(r', out, None)
  }

  /** The channel a finished open becomes. */
  function OpenedChannel(p: PendingOpen, down: nat, downGroup: nat, info: ChannelInfo): Channel {
    Channel(down, info.upChannelId, p.spec, DifficultyFromTarget(info.target), p.member,
            if p.spec.Extended? then info.groupChannelId else 0, downGroup)
  }

  /** The result of handling one upstream frame. */
  datatype Handled = Handled(rig: RigState, sent: seq<Delivery>, credit: Option<Credit>)

  function SendTo(r: RigState, member: nat, frame: DownFrame): seq<Delivery> {
    if member in r.members then [Delivery(member, frame)] else []
  }

  /** Finalize a pending open: downstream id first, then the group, then the channel. */
  function FinishOpen(r: RigState, info: ChannelInfo): Handled {
    if info.requestId !in r.pending then Handled(r, [], None)
    else
      var p := r.pending[info.requestId];
      var down := r.nextDownCid;
      var r1 := r.(pending := r.pending - {info.requestId}, nextDownCid := down + 1);
      var (r2, downGroup) := MapGroup(r1, info.groupChannelId, p.spec.Extended?);
      var r3 := RegisterChannel(r2, OpenedChannel(p, down, downGroup, info));
      Handled(r3, SendTo(r3, p.member, OpenReply(p.spec, down, downGroup, info)), None)
  }

  /** A rejected open goes back to its asker under the asker's own request id; an error for
      an unknown request is fanned out to everybody. */
  function FailOpen(r: RigState, requestId: Option<nat>): Handled {
    if requestId.Some? && requestId.value in r.pending then
      var p := r.pending[requestId.value];
      var r' := r.(pending := r.pending - {requestId.value});
      Handled(r', SendTo(r', p.member, Refused(p.spec.requestId, "upstream rejected channel open")), None)
    else
      Handled(r, [Broadcast(r.members, PoolError(requestId))], None)
  }

  // --- per-channel and group frames ---

  /** A new target changes the difficulty of the first channel behind the id. */
  function WithDifficulty(channels: seq<Channel>, up: nat, difficulty: real): (cs: seq<Channel>)
    ensures |cs| == |channels|
  {
    if channels == [] then []
    else if channels[0].up == up then [channels[0].(difficulty := difficulty)] + channels[1..]
    else [channels[0]] + WithDifficulty(channels[1..], up, difficulty)
  }

  /** The same through a downstream id, for translated upstreams. */
  function WithDifficultyByDown(channels: seq<Channel>, down: nat, difficulty: real): (cs: seq<Channel>)
    ensures |cs| == |channels|
  {
    if channels == [] then []
    else if channels[0].down == down then [channels[0].(difficulty := difficulty)] + channels[1..]
    else [channels[0]] + WithDifficultyByDown(channels[1..], down, difficulty)
  }

  function ApplyTarget(r: RigState, up: nat, m: Message): RigState {
    if m.TargetChange? && m.target.Some? then
      r.(channels := WithDifficulty(r.channels, up, DifficultyFromTarget(m.target.value)))
    else r
  }

  /** Book `count` shares of the given difficulty; nothing is booked for zero work. */
  function Book(r: RigState, difficulty: real, count: nat): (RigState, Option<Credit>) {
    var work := difficulty * count as real;
    if work > 0.0 then
      (r.(deliveredWork := r.deliveredWork + work, acceptedShares := r.acceptedShares + count),
       Some(Credit(r.generation, r.routing, work, count)))
    else (r, None)
  }

  function BookShares(r: RigState, up: nat, m: Message): (RigState, Option<Credit>) {
    if m.SharesAccepted? then
      var c := ByUp(r.channels, up);
      Book(r, if c.Some? then c.value.difficulty else 0.0, if m.count.Some? then m.count.value else 0)
    else (r, None)
  }

  /** One copy per recipient pair that is attached, addressed to the pair's group. */
  function GroupCopies(r: RigState, pairs: seq<(nat, nat)>, m: Message, payload: seq<byte>): seq<Delivery> {
    if pairs == [] then []
    else
      var n := |pairs| - 1;
      GroupCopies(r, pairs[..n], m, payload) +
      SendTo(r, pairs[n].1, Relayed(m, Rewritten(payload, pairs[n].0)))
  }

  /** Who gets a channel-scoped frame: the group it names, else the owner of its channel. */
  function Route(r: RigState, up: nat, m: Message, payload: seq<byte>): seq<Delivery> {
    var pairs := Recipients(r.channels, up);
    if pairs != [] then GroupCopies(r, pairs, m, payload)
    else if up in r.upToDown then
      var c := ByUp(r.channels, up);
      if c.Some? then SendTo(r, c.value.owner, Relayed(m, Rewritten(payload, r.upToDown[up]))) else []
    else []
  }

  /** `on_upstream_frame`. */
  function OnUpstreamFrame(r: RigState, generation: nat, f: UpFrame): Handled {
    if generation != r.generation then Handled(r, [], None)
    else match f
      case OpenSuccess(info) => FinishOpen(r, info)
      case MalformedSuccess => Handled(r, [], None)
      case OpenError(req) => FailOpen(r, req)
      case NotScoped(_) => Handled(r, [], None)
      case Scoped(m, payload) =>
        match ChannelIdOf(payload)
        case None => Handled(r, [], None)
        case Some(up) =>
          var (r', credit) := BookShares(ApplyTarget(r, up, m), up, m);
          Handled(r', Route(r', up, m, payload), credit)
  }

  datatype FromMiner = FromMiner(rig: RigState, toPool: seq<UpOut>, submitted: Option<OrderId>)

  /** A channel-scoped frame of a miner, forwarded under its upstream id. */
  function OnMinerFrame(r: RigState, isSubmit: bool, payload: seq<byte>): FromMiner {
    match ChannelIdOf(payload)
    case None => FromMiner(r, [], None)
    case Some(down) =>
      match UpForDown(r.channels, down)
      case None => FromMiner(r, [], None)
      case Some(up) =>
        FromMiner(if isSubmit then r.(submittedShares := r.submittedShares + 1) else r,
                  [ToPool(Rewritten(payload, up))],
                  if isSubmit && r.routing.Rented? then Some(r.routing.orderId) else None)
  }

  // --- leaving ---

  function OwnedBy(channels: seq<Channel>, member: nat): seq<Channel> {
    if channels == [] then []
    else
      var n := |channels| - 1;
      OwnedBy(channels[..n], member) + (if channels[n].owner == member then [channels[n]] else [])
  }

  function NotOwnedBy(channels: seq<Channel>, member: nat): seq<Channel> {
    if channels == [] then []
    else
      var n := |channels| - 1;
      NotOwnedBy(channels[..n], member) + (if channels[n].owner == member then [] else [channels[n]])
  }

  function Ups(channels: seq<Channel>): set<nat> {
    set c | c in channels :: c.up
  }

  function CloseAll(channels: seq<Channel>): (out: seq<UpOut>)
    ensures |out| == |channels|
  {
    seq(|channels|, i requires 0 <= i < |channels| => CloseOnPool(channels[i].up))
  }

  datatype Left = Left(rig: RigState, wasLast: bool, toPool: seq<UpOut>)

  /** `detach_member`. */
  function Detach(r: RigState, member: nat): Left {
    var gone := OwnedBy(r.channels, member);
    var r' := r.(
      members := r.members - {member},
      upToDown := r.upToDown - Ups(gone),
      channels := NotOwnedBy(r.channels, member),
      pending := map q | q in r.pending && r.pending[q].member != member :: r.pending[q]);
    Left(r', r'.members == {}, if r.translating then [] else CloseAll(gone))
  }

  // --- swapping the upstream ---

  /** A channel to re-open: what the swap remembers of it. */
  datatype Reopen = Reopen(down: nat, owner: nat, spec: OpenSpec, downGroup: nat)

  /** What the first lock hold of a swap takes away with it. */
  datatype Snapshot = Snapshot(generation: nat, reopens: seq<Reopen>, members: set<nat>)

  function ReopenOf(c: Channel): Reopen {
    Reopen(c.down, c.owner, c.spec, c.downGroup)
  }

  function ReopensOf(channels: seq<Channel>): (rs: seq<Reopen>)
    ensures |rs| == |channels|
  {
    seq(|channels|, i requires 0 <= i < |channels| => ReopenOf(channels[i]))
  }

  function SwapBegin(r: RigState): (RigState, Snapshot) {
    var g := r.generationCounter + 1;
    (r.(generationCounter := g), Snapshot(g, ReopensOf(r.channels), r.members))
  }

  function ReopenedChannel(o: Reopen, info: ChannelInfo): Channel {
    Channel(o.down, info.upChannelId, o.spec, DifficultyFromTarget(info.target), o.owner,
            if o.spec.Extended? then info.groupChannelId else 0, o.downGroup)
  }

  function ReopenedChannels(os: seq<Reopen>, infos: seq<ChannelInfo>): (cs: seq<Channel>)
    requires |os| == |infos|
    ensures |cs| == |os|
  {
    seq(|os|, i requires 0 <= i < |os| => ReopenedChannel(os[i], infos[i]))
  }

  function StagedUpToDown(os: seq<Reopen>, infos: seq<ChannelInfo>): map<nat, nat>
    requires |os| == |infos|
  {
    if os == [] then map[]
    else
      var n := |os| - 1;
      StagedUpToDown(os[..n], infos[..n])[infos[n].upChannelId := os[n].down]
  }

  /** A re-issued group id leads back to the downstream group its miners know; channels that
      were ungrouped before contribute nothing, and of two that merge the later one wins. */
  function StagedGroups(os: seq<Reopen>, infos: seq<ChannelInfo>): map<nat, nat>
    requires |os| == |infos|
  {
    if os == [] then map[]
    else
      var n := |os| - 1;
      var before := StagedGroups(os[..n], infos[..n]);
      if os[n].spec.Extended? && infos[n].groupChannelId != 0 && os[n].downGroup != 0
      then before[infos[n].groupChannelId := os[n].downGroup] else before
  }

  /** The notices owed to members whose opens a swap abandons: each carries the
      proxy-assigned request id the open was pending under. */
  function Abandoned(pending: map<nat, PendingOpen>): set<(nat, nat)> {
    set q | q in pending :: (pending[q].member, q)
  }

  /** Such a notice, as its miner gets it. */
  function Notice(a: (nat, nat)): Delivery {
    Delivery(a.0, Refused(a.1, "upstream switched; please reopen"))
  }

  /** The second lock hold of a native swap. */
  function SwapCommit(r: RigState, generation: nat, target: UpstreamTarget, routing: Routing,
                      os: seq<Reopen>, infos: seq<ChannelInfo>): RigState
    requires |os| == |infos|
  {
    r.(generation := generation, target := target,
       channels := ReopenedChannels(os, infos),
       upToDown := StagedUpToDown(os, infos),
       groupDown := StagedGroups(os, infos),
       pending := map[], routing := routing, translating := false)
  }

  /** Re-point frames for the owners that were attached when the swap began. */
  function Repoints(os: seq<Reopen>, infos: seq<ChannelInfo>, members: set<nat>): seq<Delivery>
    requires |os| == |infos|
  {
    if os == [] then []
    else
      var n := |os| - 1;
      Repoints(os[..n], infos[..n], members) +
      if os[n].owner in members then
        [Delivery(os[n].owner, NewPrefix(os[n].down, infos[n].extranoncePrefix)),
         Delivery(os[n].owner, NewTarget(os[n].down, infos[n].target))]
      else []
  }

  /** The channel a swap onto an SV1 pool keeps, with the members attached at that hold. */
  datatype Kept = Kept(down: nat, owner: nat, spec: OpenSpec, members: set<nat>)

  /** The extra hold of `swap_to_sv1_translate`: without a channel it gives up. */
  function KeptChannel(r: RigState): Option<Kept> {
    if r.channels == [] then None
    else Some(Kept(r.channels[0].down, r.channels[0].owner, r.channels[0].spec, r.members))
  }

  /** The install hold of `swap_to_sv1_translate`: one synthesized channel, its own
      upstream id, in no group. */
  function TranslateCommit(r: RigState, generation: nat, target: UpstreamTarget, routing: Routing,
                           kept: Kept, difficulty: real): RigState {
    r.(generation := generation, target := target,
       channels := [Channel(kept.down, kept.down, kept.spec, difficulty, kept.owner, 0, 0)],
       upToDown := map[kept.down := kept.down],
       groupDown := map[], pending := map[], routing := routing, translating := true)
  }

  /** The most bytes a prefix frame holds. */
  const MAX_PREFIX := 32

  /** The owner can be told its new prefix, or nobody is there to be told. */
  predicate PrefixFits(kept: Kept, prefix: seq<byte>) {
    kept.owner in kept.members ==> |prefix| <= MAX_PREFIX
  }

  /** The re-point frames of that swap, for an owner attached at its middle hold. */
  function TranslateRepoints(kept: Kept, prefix: seq<byte>, difficulty: real): seq<Delivery> {
    if kept.owner in kept.members && PrefixFits(kept, prefix) then
      [Delivery(kept.owner, NewPrefix(kept.down, prefix)),
       Delivery(kept.owner, NewTarget(kept.down, TargetFromDifficulty(difficulty)))]
    else []
  }

  // --- translated upstreams ---

  /** `set_translate_diff`. */
  function TranslateDifficulty(r: RigState, generation: nat, down: nat, difficulty: real): RigState {
    if generation != r.generation then r
    else r.(channels := WithDifficultyByDown(r.channels, down, difficulty))
  }

  /** `credit_translate`: one accepted share. */
  function TranslateCredit(r: RigState, generation: nat, down: nat): (RigState, Option<Credit>) {
    if generation != r.generation then (r, None)
    else
      var c := ByDown(r.channels, down);
      Book(r, if c.Some? then c.value.difficulty else 0.0, 1)
  }

  /** `send_translate_frame`, where `to` is the member its table yields first. */
  function Synthesize(r: RigState, generation: nat, to: nat, frame: Translator.Sv2Frame): seq<Delivery> {
    if generation == r.generation && to in r.members then [Delivery(to, Synthesized(frame))] else []
  }

  // --- fresh rigs ---

  function Fresh(target: UpstreamTarget, routing: Routing): RigState {
    RigState(0, target, 0, [], map[], map[], map[], 1, 1, {}, 1, routing, false, 0.0, 0, 0)
  }

  /** A fresh rig with its first member on a native upstream, that member's open pending. */
  function NativeRig(target: UpstreamTarget, routing: Routing, spec: OpenSpec): RigState {
    RequestOpen(AddMember(Fresh(target, routing)), 1, spec, true).0
  }

  /** A fresh rig with its first member behind an SV1 pool. */
  function TranslatedRig(target: UpstreamTarget, routing: Routing, spec: OpenSpec, difficulty: real): RigState {
    var r := AddMember(Fresh(target, routing));
    TranslateCommit(r.(nextDownCid := 2), 0, target, routing, Kept(1, 1, spec, r.members), difficulty)
  }
}
