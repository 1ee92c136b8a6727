/** The SV2 rig in its imperative form: the fields of `Inner` in `src/proto/sv2/relay.rs` and
    the code that runs under one hold of its lock, each method proved against the function of
    `Rig.dfy` that the state machine uses as its step. */
module Session {
  import opened Bytes
  import opened Options
  import opened Types
  import opened Wire
  import opened Target
  import opened Rig
  import opened Reopening
  import Translator

  class Sv2Session {
    var generation: nat
    var target: UpstreamTarget
    var generationCounter: nat
    var channels: seq<Channel>
    var upToDown: map<nat, nat>
    var groupDown: map<nat, nat>
    var pending: map<nat, PendingOpen>
    var nextDownCid: nat
    var nextUpReq: nat
    var members: set<nat>
    var nextMemberId: nat
    var routing: Routing
    var translating: bool
    var deliveredWork: real
    var acceptedShares: nat
    var submittedShares: nat

    function View(): RigState
      reads this
    {
      RigState(generation, target, generationCounter, channels, upToDown, groupDown, pending,
               nextDownCid, nextUpReq, members, nextMemberId, routing, translating,
               deliveredWork, acceptedShares, submittedShares)
    }

    constructor (target: UpstreamTarget, routing: Routing)
      ensures View() == Fresh(target, routing)
    {
      generation, this.target, generationCounter := 0, target, 0;
      channels, upToDown, groupDown, pending := [], map[], map[], map[];
      nextDownCid, nextUpReq := 1, 1;
      members, nextMemberId := {}, 1;
      this.routing, translating := routing, false;
      deliveredWork, acceptedShares, submittedShares := 0.0, 0, 0;
    }

    // --- lookups ---

    method UpForDown(down: nat) returns (up: Option<nat>)
      ensures up == Rig.UpForDown(channels, down)
    {
      for i := 0 to |channels|
        invariant Rig.UpForDown(channels, down) == Rig.UpForDown(channels[i..], down)
      {
        assert channels[i..][1..] == channels[i + 1..];
        if channels[i].down == down {
          return Some(channels[i].up);
        }
      }
      up := None;
    }

    method IndexByUp(up: nat) returns (k: nat)
      ensures k <= |channels|
      ensures k < |channels| ==> channels[k].up == up && ByUp(channels, up) == Some(channels[k])
      ensures k == |channels| ==> ByUp(channels, up) == None
      ensures forall i | 0 <= i < k :: channels[i].up != up
    {
      k := 0;
      while k < |channels| && channels[k].up != up
        invariant k <= |channels|
        invariant ByUp(channels, up) == ByUp(channels[k..], up)
        invariant forall i | 0 <= i < k :: channels[i].up != up
      {
        assert channels[k..][1..] == channels[k + 1..];
        k := k + 1;
      }
    }

    method GroupRecipients(upGroup: nat) returns (out: seq<(nat, nat)>)
      ensures out == Recipients(channels, upGroup)
    {
      out := [];
      if upGroup == 0 {
        return;
      }
      for i := 0 to |channels|
        invariant out == Recipients(channels[..i], upGroup)
      {
        var c := channels[i];
        assert channels[..i + 1][..i] == channels[..i];
        if c.upGroup == upGroup && c.spec.Extended? {
          var pair := (c.downGroup, c.owner);
          if pair !in out {
            out := out + [pair];
          }
        }
      }
      assert channels[..|channels|] == channels;
    }

    // --- opening ---

    method MapGroup(upGroup: nat, extended: bool) returns (down: nat)
      modifies this`nextDownCid, this`groupDown
      ensures (View(), down) == Rig.MapGroup(old(View()), upGroup, extended)
    {
      if !extended || upGroup == 0 {
        return upGroup;
      }
      if upGroup in groupDown {
        return groupDown[upGroup];
      }
      down := nextDownCid;
      nextDownCid := nextDownCid + 1;
      groupDown := groupDown[upGroup := down];
    }

    method RegisterChannel(c: Channel)
      modifies this`upToDown, this`channels
      ensures View() == Rig.RegisterChannel(old(View()), c)
    {
      upToDown := upToDown[c.up := c.down];
      channels := channels + [c];
    }

    method AddMember() returns (id: nat)
      modifies this`members, this`nextMemberId
      ensures View() == Rig.AddMember(old(View())) && id == old(nextMemberId)
    {
      id := nextMemberId;
      nextMemberId := nextMemberId + 1;
      members := members + {id};
    }

    method AttachMember(spec: OpenSpec, fits: bool) returns (member: Option<nat>, toPool: seq<UpOut>)
      modifies this
      ensures Attached(View(), member, toPool) == Attach(old(View()), spec, fits)
    {
      if translating {
        return None, [];
      }
      var id := AddMember();
      toPool := RequestOpen(id, spec, fits);
      member := Some(id);
    }

    method RequestOpen(member: nat, spec: OpenSpec, fits: bool) returns (toPool: seq<UpOut>)
      modifies this`nextUpReq, this`pending
      ensures (View(), toPool) == Rig.RequestOpen(old(View()), member, spec, fits)
    {
      var req := nextUpReq;
      nextUpReq := nextUpReq + 1;
      toPool := [];
      if fits {
        pending := pending[req := PendingOpen(member, spec)];
        toPool := [OpenOnPool(req, spec)];
      }
    }

    method OpenAdditional(member: nat, spec: OpenSpec, fits: bool)
      returns (toPool: seq<UpOut>, refusal: Option<DownFrame>)
      modifies this
      ensures Asked(View(), toPool, refusal) == Rig.OpenAdditional(old(View()), member, spec, fits)
    {
      if translating {
        return [], Some(Refused(spec.requestId, "additional channels are not supported on an SV1 upstream"));
      }
      toPool := RequestOpen(member, spec, fits);
      refusal := None;
    }

    // --- frames ---

    /** Take a pending open out, and the next downstream id for it. */
    method TakePending(requestId: nat) returns (p: PendingOpen, down: nat)
      requires requestId in pending
      modifies this`pending, this`nextDownCid
      ensures p == old(pending)[requestId] && down == old(nextDownCid)
      ensures View() == old(View()).(pending := old(pending) - {requestId}, nextDownCid := down + 1)
    {
      p, down := pending[requestId], nextDownCid;
      pending, nextDownCid := pending - {requestId}, down + 1;
    }

    method FinishOpen(info: ChannelInfo) returns (sent: seq<Delivery>)
      modifies this
      ensures Handled(View(), sent, None) == Rig.FinishOpen(old(View()), info)
    {
      sent := [];
      if info.requestId !in pending {
        return;
      }
      var p, down := TakePending(info.requestId);
      var downGroup := MapGroup(info.groupChannelId, p.spec.Extended?);
      RegisterChannel(OpenedChannel(p, down, downGroup, info));
      if p.member in members {
        sent := [Delivery(p.member, OpenReply(p.spec, down, downGroup, info))];
      }
    }

    method FailOpen(requestId: Option<nat>) returns (sent: seq<Delivery>)
      modifies this`pending
      ensures Handled(View(), sent, None) == Rig.FailOpen(old(View()), requestId)
    {
      if requestId.Some? && requestId.value in pending {
        var p := pending[requestId.value];
        pending := pending - {requestId.value};
        sent := [];
        if p.member in members {
          sent := [Delivery(p.member, Refused(p.spec.requestId, "upstream rejected channel open"))];
        }
      } else {
        sent := [Broadcast(members, PoolError(requestId))];
      }
    }

    method SetDifficulty(up: nat, difficulty: real)
      modifies this`channels
      ensures channels == WithDifficulty(old(channels), up, difficulty)
    {
      var k := IndexByUp(up);
      UpdateAt(channels, up, difficulty, k);
      if k < |channels| {
        channels := channels[k := channels[k].(difficulty := difficulty)];
      }
    }

    method Book(difficulty: real, count: nat) returns (credit: Option<Credit>)
      modifies this`deliveredWork, this`acceptedShares
      ensures (View(), credit) == Rig.Book(old(View()), difficulty, count)
    {
      var work := difficulty * count as real;
      credit := None;
      if work > 0.0 {
        deliveredWork := deliveredWork + work;
        acceptedShares := acceptedShares + count;
        credit := Some(Credit(generation, routing, work, count));
      }
    }

    method ForwardScoped(up: nat, m: Message, payload: seq<byte>) returns (sent: seq<Delivery>)
      ensures sent == Route(View(), up, m, payload)
    {
      sent := [];
      var pairs := GroupRecipients(up);
      if pairs != [] {
        for i := 0 to |pairs|
          invariant sent == GroupCopies(View(), pairs[..i], m, payload)
        {
          assert pairs[..i + 1][..i] == pairs[..i];
          var (downGroup, member) := pairs[i];
          if member in members {
            sent := sent + [Delivery(member, Relayed(m, Rewritten(payload, downGroup)))];
          }
        }
        assert pairs[..|pairs|] == pairs;
      } else if up in upToDown {
        var k := IndexByUp(up);
        if k < |channels| && channels[k].owner in members {
          sent := [Delivery(channels[k].owner, Relayed(m, Rewritten(payload, upToDown[up])))];
        }
      }
    }

    method OnUpstreamFrame(generation: nat, f: UpFrame) returns (sent: seq<Delivery>, credit: Option<Credit>)
      modifies this
      ensures Handled(View(), sent, credit) == Rig.OnUpstreamFrame(old(View()), generation, f)
    {
      sent, credit := [], None;
      if generation != this.generation {
        return;
      }
      match f
      case OpenSuccess(info) => sent := FinishOpen(info);
      case MalformedSuccess =>
      case OpenError(req) => sent := FailOpen(req);
      case NotScoped(_) =>
      case Scoped(m, payload) =>
        var id := ChannelIdOf(payload);
        if id.Some? {
          var up := id.value;
          if m.TargetChange? && m.target.Some? {
            SetDifficulty(up, DifficultyFromTarget(m.target.value));
          }
          if m.SharesAccepted? {
            var k := IndexByUp(up);
            credit := Book(if k < |channels| then channels[k].difficulty else 0.0,
                           if m.count.Some? then m.count.value else 0);
          }
          sent := ForwardScoped(up, m, payload);
        }
    }

    method OnMinerFrame(isSubmit: bool, payload: seq<byte>)
      returns (toPool: seq<UpOut>, submitted: Option<OrderId>)
      modifies this`submittedShares
      ensures FromMiner(View(), toPool, submitted) == Rig.OnMinerFrame(old(View()), isSubmit, payload)
    {
      toPool, submitted := [], None;
      var id := ChannelIdOf(payload);
      if id.None? {
        return;
      }
      var up := UpForDown(id.value);
      if up.Some? {
        if isSubmit {
          submittedShares := submittedShares + 1;
          if routing.Rented? {
            submitted := Some(routing.orderId);
          }
        }
        toPool := [ToPool(Rewritten(payload, up.value))];
      }
    }

    // --- leaving ---

    method SplitChannels(member: nat) returns (gone: seq<Channel>, kept: seq<Channel>)
      ensures gone == OwnedBy(channels, member) && kept == NotOwnedBy(channels, member)
    {
      gone, kept := [], [];
      for i := 0 to |channels|
        invariant gone == OwnedBy(channels[..i], member) && kept == NotOwnedBy(channels[..i], member)
      {
        assert channels[..i + 1][..i] == channels[..i];
        if channels[i].owner == member {
          gone := gone + [channels[i]];
        } else {
          kept := kept + [channels[i]];
        }
      }
      assert channels[..|channels|] == channels;
    }

    /** Take channels out of the map and, on a native upstream, close them on the pool. */
    method CloseChannels(gone: seq<Channel>) returns (toPool: seq<UpOut>)
      modifies this`upToDown
      ensures upToDown == old(upToDown) - Ups(gone)
      ensures toPool == if translating then [] else CloseAll(gone)
    {
      toPool := [];
      for i := 0 to |gone|
        invariant toPool == if translating then [] else CloseAll(gone[..i])
        invariant upToDown == old(upToDown) - Ups(gone[..i])
      {
        if !translating {
          toPool := toPool + [CloseOnPool(gone[i].up)];
        }
        upToDown := upToDown - {gone[i].up};
        assert gone[..i + 1] == gone[..i] + [gone[i]];
        assert Ups(gone[..i + 1]) == Ups(gone[..i]) + {gone[i].up};
      }
      assert gone[..|gone|] == gone;
    }

    method DetachMember(member: nat) returns (wasLast: bool, toPool: seq<UpOut>)
      modifies this
      ensures Left(View(), wasLast, toPool) == Detach(old(View()), member)
    {
      members := members - {member};
      var gone, kept := SplitChannels(member);
      toPool := CloseChannels(gone);
      channels := kept;
      pending := map q | q in pending && pending[q].member != member :: pending[q];
      wasLast := members == {};
    }

    // --- swapping ---

    method InstallActive(generation: nat, target: UpstreamTarget)
      modifies this`generation, this`target
      ensures View() == old(View()).(generation := generation, target := target)
    {
      this.generation, this.target := generation, target;
    }

    /** The first hold of a swap. */
    method BeginSwap() returns (snapshot: Snapshot)
      modifies this`generationCounter
      ensures (View(), snapshot) == SwapBegin(old(View()))
    {
      generationCounter := generationCounter + 1;
      var reopens := [];
      for i := 0 to |channels|
        invariant reopens == ReopensOf(channels[..i])
      {
        reopens := reopens + [ReopenOf(channels[i])];
      }
      assert channels[..|channels|] == channels;
      snapshot := Snapshot(generationCounter, reopens, members);
    }

    /** After the re-points come the notices to the attached ones of the abandoned openers, each
        once. */
    static ghost predicate Informs(sent: seq<Delivery>, repoints: seq<Delivery>, abandoned: set<(nat, nat)>,
                                   attached: set<nat>) {
      && repoints <= sent
      && (forall d :: d in sent[|repoints|..] <==> exists a :: a in abandoned && a.0 in attached && d == Notice(a))
      && (forall i, j | |repoints| <= i < j < |sent| :: sent[i] != sent[j])
    }

    /** The commit hold of a native swap, with the notices sent after it. */
    method CommitSwap(generation: nat, target: UpstreamTarget, routing: Routing,
                      reopens: seq<Reopen>, infos: seq<ChannelInfo>, attached: set<nat>)
      returns (sent: seq<Delivery>)
      requires |reopens| == |infos|
      modifies this
      ensures View() == SwapCommit(old(View()), generation, target, routing, reopens, infos)
      ensures Informs(sent, Repoints(reopens, infos, attached), Abandoned(old(pending)), attached)
    {
      var notices := NoticesFor(Abandoned(pending), attached);
      var repoints := InstallSwapped(generation, target, routing, reopens, infos, attached);
      sent := repoints + notices;
    }

    method InstallSwapped(generation: nat, target: UpstreamTarget, routing: Routing,
                          reopens: seq<Reopen>, infos: seq<ChannelInfo>, attached: set<nat>)
      returns (repoints: seq<Delivery>)
      requires |reopens| == |infos|
      modifies this
      ensures View() == SwapCommit(old(View()), generation, target, routing, reopens, infos)
      ensures repoints == Repoints(reopens, infos, attached)
    {
      var staged, up, groups;
      staged, up, groups, repoints := Stage(reopens, infos, attached);
      InstallActive(generation, target);
      channels, upToDown, groupDown, pending := staged, up, groups, map[];
      this.routing, translating := routing, false;
    }

    /** A whole native swap in which no other lock hold interleaves. `connection` is `None` when
        the new upstream could not be probed. It succeeds exactly when there is a connection
        whose first answers are all successes; if it fails, only the generation counter moved. */
    method SwapUpstream(connection: Option<Connection>, target: UpstreamTarget, routing: Routing, fits: bool)
      returns (ok: bool, sent: seq<Delivery>, deferred: seq<UpFrame>)
      requires connection.Some? ==> connection.value.Valid()
      modifies this, if connection.Some? then {connection.value} else {}
      ensures connection.Some? ==> connection.value.Valid()
      ensures ok <==> connection.Some? &&
                      (old(channels) == [] || (fits && Succeeds(old(connection.value.Rest()), |old(channels)|)))
      ensures !ok ==> View() == old(View()).(generationCounter := old(generationCounter) + 1) && sent == []
      ensures ok ==> |SuccessInfos(old(connection.value.Rest()), |old(channels)|)| == |old(channels)|
      ensures ok ==> View() == SwapCommit(SwapBegin(old(View())).0, old(generationCounter) + 1, target, routing,
                ReopensOf(old(channels)), SuccessInfos(old(connection.value.Rest()), |old(channels)|))
      ensures ok ==> deferred + connection.value.Rest() ==
                     WithoutSuccesses(old(connection.value.Rest()), |old(channels)|)
      ensures ok ==> Informs(sent, Repoints(ReopensOf(old(channels)),
                                            SuccessInfos(old(connection.value.Rest()), |old(channels)|), old(members)),
                             Abandoned(old(pending)), old(members))
      ensures SameMiners(old(View()), View())
    {
      var snapshot := BeginSwap();
      sent, deferred := [], [];
      if connection.None? {
        return false, [], [];
      }
      var infos;
      ok, infos, deferred := connection.value.ReopenAll(|snapshot.reopens|, fits);
      if ok {
        sent := CommitSwap(snapshot.generation, target, routing, snapshot.reopens, infos, snapshot.members);
        ReopensAgain(snapshot.reopens, infos);
      }
    }

    /** The same members with the same channels, as far as they can tell, and the same totals. */
    static ghost predicate SameMiners(r: RigState, v: RigState) {
      && v.members == r.members && v.nextMemberId == r.nextMemberId && v.nextDownCid == r.nextDownCid
      && ReopensOf(v.channels) == ReopensOf(r.channels)
      && (v.deliveredWork, v.acceptedShares, v.submittedShares) ==
         (r.deliveredWork, r.acceptedShares, r.submittedShares)
    }

    /** A pool that is reached and re-opens so many channels. */
    static ghost predicate Serves(connection: Option<Connection>, channels: nat, fits: bool)
      requires connection.Some? ==> connection.value.Valid()
      reads if connection.Some? then {connection.value} else {}
    {
      connection.Some? && (channels == 0 || (fits && Succeeds(connection.value.Rest(), channels)))
    }

    /** One of the order's pools serves, given which of them do. */
    static predicate Reaches(book: OrderBook, order: OrderId, primary: bool, fallback: bool) {
      order in book && (primary || (book[order].fallback.Some? && fallback))
    }

    /** `switch_to_order`: the order's primary pool, then its fallback. `primary` and `fallback`
        are the connections the two pools answer with, if any. On success the rig leads to one
        of the order's own pools and says so; on failure only the generation counter moved. */
    method SwitchToOrder(book: OrderBook, order: OrderId, primary: Option<Connection>, fallback: Option<Connection>,
                         fits: bool)
      returns (ok: bool, sent: seq<Delivery>, deferred: seq<UpFrame>)
      requires primary.Some? ==> primary.value.Valid()
      requires fallback.Some? ==> fallback.value.Valid()
      requires primary.Some? && fallback.Some? ==> primary.value != fallback.value
      modifies this, if primary.Some? then {primary.value} else {}, if fallback.Some? then {fallback.value} else {}
      ensures ok <==> Reaches(book, order, old(Serves(primary, |channels|, fits)),
                              old(Serves(fallback, |channels|, fits)))
      ensures ok && old(Serves(primary, |channels|, fits)) ==> target == book[order].primary
      ensures ok && !old(Serves(primary, |channels|, fits)) ==> Some(target) == book[order].fallback
      ensures ok ==> Attributed(book, routing, target) && routing == Rented(order) && !translating
      ensures ok ==> old(generationCounter) < generation <= generationCounter
      ensures !ok ==> sent == [] && View() == old(View()).(generationCounter := generationCounter)
      ensures !ok ==> old(generationCounter) <= generationCounter <= old(generationCounter) + 2
      ensures SameMiners(old(View()), View())
    {
      if order !in book {
        return false, [], [];
      }
      ok, sent, deferred := SwapUpstream(primary, book[order].primary, Rented(order), fits);
      if !ok && book[order].fallback.Some? {
        ok, sent, deferred := SwapUpstream(fallback, book[order].fallback.value, Rented(order), fits);
      }
    }

    /** `revert`: back to the idle pool, or, when there is none, the miners are dropped and the
        rig stays as it is. */
    method Revert(idlePool: Option<UpstreamTarget>, connection: Option<Connection>, fits: bool)
      returns (ok: bool, reconnect: bool, sent: seq<Delivery>, deferred: seq<UpFrame>)
      requires connection.Some? ==> connection.value.Valid()
      modifies this, if connection.Some? then {connection.value} else {}
      ensures reconnect == idlePool.None? && (reconnect ==> ok && View() == old(View()))
      ensures idlePool.Some? ==> (ok <==> old(Serves(connection, |channels|, fits)))
      ensures ok && !reconnect ==> routing == Idle && Some(target) == idlePool && !translating
      ensures ok && !reconnect ==> generation == generationCounter == old(generationCounter) + 1
      ensures !ok ==> View() == old(View()).(generationCounter := generationCounter)
      ensures old(generationCounter) <= generationCounter <= old(generationCounter) + 1
      ensures !ok || reconnect ==> sent == []
      ensures SameMiners(old(View()), View())
    {
      if idlePool.None? {
        return true, true, [], [];
      }
      reconnect := false;
      ok, sent, deferred := SwapUpstream(connection, idlePool.value, Idle, fits);
    }

    /** `reconcile_routing`, on native pools: before a member is bundled the rig is brought onto
        the worker's live order, or back to idle. Unless that fails the rig then serves exactly
        the desired order; if it fails nothing changed, and a retry goes on for an order. */
    method ReconcileRouting(book: OrderBook, desired: Option<OrderId>, idlePool: Option<UpstreamTarget>,
                            primary: Option<Connection>, fallback: Option<Connection>, fits: bool)
      returns (ok: bool, reconnect: bool, retry: bool, sent: seq<Delivery>, deferred: seq<UpFrame>)
      requires primary.Some? ==> primary.value.Valid()
      requires fallback.Some? ==> fallback.value.Valid()
      requires primary.Some? && fallback.Some? ==> primary.value != fallback.value
      modifies this, if primary.Some? then {primary.value} else {}, if fallback.Some? then {fallback.value} else {}
      ensures OrderOf(old(routing)) == desired ==> ok && !reconnect && View() == old(View())
      ensures ok && !reconnect ==> OrderOf(routing) == desired
      ensures ok && OrderOf(old(routing)) != desired && desired.Some? ==> Attributed(book, routing, target)
      ensures reconnect <==> desired.None? && old(routing).Rented? && idlePool.None?
      ensures reconnect ==> View() == old(View())
      ensures OrderOf(old(routing)) != desired ==>
                (ok <==> if desired.Some? then Reaches(book, desired.value, old(Serves(primary, |channels|, fits)),
                                                       old(Serves(fallback, |channels|, fits)))
                         else idlePool.None? || old(Serves(primary, |channels|, fits)))
      ensures !ok ==> View() == old(View()).(generationCounter := generationCounter) && sent == []
      ensures retry <==> !ok && desired.Some?
      ensures SameMiners(old(View()), View())
    {
      var current := OrderOf(routing);
      ok, reconnect, retry, sent, deferred := true, false, false, [], [];
      if desired.Some? && current != desired {
        ok, sent, deferred := SwitchToOrder(book, desired.value, primary, fallback, fits);
        retry := !ok;
      } else if desired.None? && current.Some? {
        ok, reconnect, sent, deferred := Revert(idlePool, primary, fits);
      }
    }

    /** One round of the supervisor for a dropped connection, on native pools. A connection that
        was swapped away since is ignored; otherwise the rig goes back to the same order, or to
        idle, and its miners are made to reconnect. */
    method RecoverFrom(generation: nat, book: OrderBook, idlePool: Option<UpstreamTarget>,
                       primary: Option<Connection>, fallback: Option<Connection>, fits: bool)
      returns (done: bool, reconnect: bool, sent: seq<Delivery>, deferred: seq<UpFrame>)
      requires primary.Some? ==> primary.value.Valid()
      requires fallback.Some? ==> fallback.value.Valid()
      requires primary.Some? && fallback.Some? ==> primary.value != fallback.value
      modifies this, if primary.Some? then {primary.value} else {}, if fallback.Some? then {fallback.value} else {}
      ensures old(this.generation) != generation ==> done && !reconnect && View() == old(View())
      ensures OrderOf(routing) == OrderOf(old(routing))
      ensures reconnect ==> View() == old(View()) || Attributed(book, routing, target)
      ensures reconnect && old(routing).Idle? ==>
                if idlePool.None? then View() == old(View())
                else Some(target) == idlePool && !translating && this.generation == old(generationCounter) + 1
      ensures reconnect && old(routing).Rented? ==> Attributed(book, routing, target) && !translating
      ensures reconnect <==> done && old(this.generation) == generation
      ensures old(this.generation) == generation ==>
                (done <==> if old(routing).Rented? then
                             Reaches(book, old(routing).orderId, old(Serves(primary, |channels|, fits)),
                                     old(Serves(fallback, |channels|, fits)))
                           else idlePool.None? || old(Serves(primary, |channels|, fits)))
      ensures SameMiners(old(View()), View())
      ensures !done ==> View() == old(View()).(generationCounter := generationCounter) && sent == [] && !reconnect
    {
      done, reconnect, sent, deferred := true, false, [], [];
      if this.generation != generation {
        return;
      }
      match routing {
        case Rented(order) =>
          done, sent, deferred := SwitchToOrder(book, order, primary, fallback, fits);
        case Idle =>
          var dropped;
          done, dropped, sent, deferred := Revert(idlePool, primary, fits);
      }
      reconnect := done;
    }

    /** The middle hold of a swap onto an SV1 pool. */
    method KeepChannel() returns (kept: Option<Kept>)
      ensures kept == KeptChannel(View())
    {
      if channels == [] {
        return None;
      }
      kept := Some(Kept(channels[0].down, channels[0].owner, channels[0].spec, members));
    }

    /** The install hold of a swap onto an SV1 pool, with what is sent after it. A prefix too
        long for a frame makes the swap fail when the upstream is already installed, and nobody
        is told anything. */
    method CommitTranslate(generation: nat, target: UpstreamTarget, routing: Routing, kept: Kept, prefix: seq<byte>,
                           difficulty: real)
      returns (ok: bool, sent: seq<Delivery>)
      modifies this
      ensures View() == TranslateCommit(old(View()), generation, target, routing, kept, difficulty)
      ensures ok <==> (kept.owner in kept.members ==> |prefix| <= MAX_PREFIX)
      ensures ok ==>
                Informs(sent, TranslateRepoints(kept, prefix, difficulty), Abandoned(old(pending)), kept.members)
      ensures !ok ==> sent == []
    {
      var notices := NoticesFor(Abandoned(pending), kept.members);
      InstallTranslated(generation, target, routing, kept, difficulty);
      sent := [];
      if kept.owner in kept.members {
        if |prefix| > MAX_PREFIX {
          return false, [];
        }
        sent := [Delivery(kept.owner, NewPrefix(kept.down, prefix)),
                 Delivery(kept.owner, NewTarget(kept.down, TargetFromDifficulty(difficulty)))];
      }
      ok, sent := true, sent + notices;
    }

    /** A whole swap onto an SV1 pool in which no other lock hold interleaves. `greeting` is the
        extranonce and difficulty the pool's handshake gave, if it could be reached. The state
        changes exactly when there is a channel to switch and a pool; the swap also fails, after
        that, when the pool's extranonce does not fit a frame for the channel's owner. */
    method SwapTranslate(greeting: Option<(seq<byte>, real)>, target: UpstreamTarget, routing: Routing)
      returns (ok: bool, sent: seq<Delivery>)
      modifies this
      ensures ok <==> old(channels) != [] && greeting.Some? &&
                      (old(channels)[0].owner in old(members) ==> |greeting.value.0| <= MAX_PREFIX)
      ensures old(channels) == [] || greeting.None? ==> View() == SwapBegin(old(View())).0
      ensures old(channels) != [] && greeting.Some? ==>
                View() == TranslateCommit(SwapBegin(old(View())).0, old(generationCounter) + 1, target, routing,
                                          KeptChannel(old(View())).value, greeting.value.1)
      ensures ok ==>
                Informs(sent, TranslateRepoints(KeptChannel(old(View())).value, greeting.value.0, greeting.value.1),
                        Abandoned(old(pending)), old(members))
      ensures !ok ==> sent == []
    {
      var snapshot := BeginSwap();
      var kept := KeepChannel();
      if kept.None? || greeting.None? {
        return false, [];
      }
      ok, sent := CommitTranslate(snapshot.generation, target, routing, kept.value, greeting.value.0, greeting.value.1);
    }

    /** A frame the translation makes up goes to whichever member comes first. */
    method SendTranslateFrame(generation: nat, frame: Translator.Sv2Frame) returns (sent: seq<Delivery>)
      ensures generation != this.generation || members == {} ==> sent == []
      ensures generation == this.generation && members != {} ==>
                exists to :: to in members && sent == Synthesize(View(), generation, to, frame) ==
                             [Delivery(to, Synthesized(frame))]
    {
      if generation != this.generation || members == {} {
        return [];
      }
      var to :| to in members;
      sent := [Delivery(to, Synthesized(frame))];
    }

    method InstallTranslated(generation: nat, target: UpstreamTarget, routing: Routing, kept: Kept, difficulty: real)
      modifies this
      ensures View() == TranslateCommit(old(View()), generation, target, routing, kept, difficulty)
    {
      InstallActive(generation, target);
      channels := [Channel(kept.down, kept.down, kept.spec, difficulty, kept.owner, 0, 0)];
      upToDown := map[kept.down := kept.down];
      groupDown, pending := map[], map[];
      this.routing, translating := routing, true;
      assert channels == TranslateCommit(old(View()), generation, target, routing, kept, difficulty).channels;
    }

    method IndexByDown(down: nat) returns (k: nat)
      ensures k <= |channels|
      ensures k < |channels| ==> channels[k].down == down && ByDown(channels, down) == Some(channels[k])
      ensures k == |channels| ==> ByDown(channels, down) == None
      ensures forall i | 0 <= i < k :: channels[i].down != down
    {
      k := 0;
      while k < |channels| && channels[k].down != down
        invariant k <= |channels|
        invariant ByDown(channels, down) == ByDown(channels[k..], down)
        invariant forall i | 0 <= i < k :: channels[i].down != down
      {
        assert channels[k..][1..] == channels[k + 1..];
        k := k + 1;
      }
    }

    method SetTranslateDifficulty(generation: nat, down: nat, difficulty: real)
      modifies this`channels
      ensures View() == TranslateDifficulty(old(View()), generation, down, difficulty)
    {
      if generation != this.generation {
        return;
      }
      var k := IndexByDown(down);
      UpdateAtDown(channels, down, difficulty, k);
      if k < |channels| {
        channels := channels[k := channels[k].(difficulty := difficulty)];
      }
    }

    method CreditTranslate(generation: nat, down: nat) returns (credit: Option<Credit>)
      modifies this`deliveredWork, this`acceptedShares
      ensures (View(), credit) == TranslateCredit(old(View()), generation, down)
    {
      if generation != this.generation {
        return None;
      }
      var k := IndexByDown(down);
      credit := Book(if k < |channels| then channels[k].difficulty else 0.0, 1);
    }

    /** The steady reader: first the frames put aside during the re-opens, then the rest of the
        connection, every one tagged with the reader's generation. */
    method ReadUpstream(generation: nat, connection: Connection, deferred: seq<UpFrame>)
      returns (sent: seq<Delivery>, credits: seq<Credit>)
      requires connection.Valid()
      modifies this, connection
      ensures (View(), sent, credits) ==
              HandleAll((old(View()), [], []), generation, deferred + old(connection.Rest()))
    {
      sent, credits := [], [];
      ghost var start, rest := (View(), sent, credits), connection.Rest();
      for i := 0 to |deferred|
        invariant connection.Valid() && connection.Rest() == rest
        invariant HandleAll((View(), sent, credits), generation, deferred[i..] + rest) ==
                  HandleAll(start, generation, deferred + rest)
      {
        assert (deferred[i..] + rest)[1..] == deferred[i + 1..] + rest;
        sent, credits := HandleNext(generation, deferred[i], sent, credits);
      }
      assert deferred[|deferred|..] + rest == rest;
      while true
        invariant connection.Valid()
        invariant HandleAll((View(), sent, credits), generation, connection.Rest()) ==
                  HandleAll(start, generation, deferred + rest)
        decreases |connection.Rest()|
      {
        var f := connection.ReadFrame();
        if f.None? {
          return;
        }
        assert ([f.value] + connection.Rest())[1..] == connection.Rest();
        sent, credits := HandleNext(generation, f.value, sent, credits);
      }
    }

    method HandleNext(generation: nat, f: UpFrame, sent: seq<Delivery>, credits: seq<Credit>)
      returns (sent': seq<Delivery>, credits': seq<Credit>)
      modifies this
      ensures (View(), sent', credits') == Then((old(View()), sent, credits), generation, f)
    {
      var s, c := OnUpstreamFrame(generation, f);
      sent' := sent + s;
      credits' := if c.Some? then credits + [c.value] else credits;
    }
  }

  /** What the re-opened channels amount to: the new list, both maps, and the re-point frames. */
  method Stage(reopens: seq<Reopen>, infos: seq<ChannelInfo>, attached: set<nat>)
    returns (staged: seq<Channel>, up: map<nat, nat>, groups: map<nat, nat>, repoints: seq<Delivery>)
    requires |reopens| == |infos|
    ensures staged == ReopenedChannels(reopens, infos)
    ensures up == StagedUpToDown(reopens, infos) && groups == StagedGroups(reopens, infos)
    ensures repoints == Repoints(reopens, infos, attached)
  {
    staged, up, groups, repoints := [], map[], map[], [];
    for i := 0 to |reopens|
      invariant staged == ReopenedChannels(reopens[..i], infos[..i])
      invariant up == StagedUpToDown(reopens[..i], infos[..i])
      invariant groups == StagedGroups(reopens[..i], infos[..i])
      invariant repoints == Repoints(reopens[..i], infos[..i], attached)
    {
      var o, info := reopens[i], infos[i];
      assert reopens[..i + 1][..i] == reopens[..i] && infos[..i + 1][..i] == infos[..i];
      up := up[info.upChannelId := o.down];
      var upGroup := if o.spec.Extended? then info.groupChannelId else 0;
      if upGroup != 0 && o.downGroup != 0 {
        groups := groups[upGroup := o.downGroup];
      }
      staged := staged + [Channel(o.down, info.upChannelId, o.spec, DifficultyFromTarget(info.target),
                                  o.owner, upGroup, o.downGroup)];
      if o.owner in attached {
        repoints := repoints + [Delivery(o.owner, NewPrefix(o.down, info.extranoncePrefix)),
                                Delivery(o.owner, NewTarget(o.down, info.target))];
      }
    }
    assert reopens[..|reopens|] == reopens && infos[..|infos|] == infos;
  }

  method NoticesFor(abandoned: set<(nat, nat)>, attached: set<nat>) returns (notices: seq<Delivery>)
    ensures forall d :: d in notices <==> exists a :: a in abandoned && a.0 in attached && d == Notice(a)
    ensures forall i, j | 0 <= i < j < |notices| :: notices[i] != notices[j]
  {
    var todo := abandoned;
    notices := [];
    while todo != {}
      invariant todo <= abandoned
      invariant forall d :: d in notices <==> exists a :: a in abandoned - todo && a.0 in attached && d == Notice(a)
      invariant forall i, j | 0 <= i < j < |notices| :: notices[i] != notices[j]
      decreases todo
    {
      var a :| a in todo;
      todo := todo - {a};
      if a.0 in attached {
        assert Notice(a) !in notices by {
          assert a !in abandoned - (todo + {a});
          assert forall b: (nat, nat) :: Notice(b) == Notice(a) ==> b.0 == a.0 && b.1 == a.1;
        }
        notices := notices + [Notice(a)];
      }
    }
  }

  /** A re-opened channel would be re-opened the same way again. */
  lemma ReopensAgain(os: seq<Reopen>, infos: seq<ChannelInfo>)
    requires |os| == |infos|
    ensures ReopensOf(ReopenedChannels(os, infos)) == os
  {
  }

  /** One more frame handled after what was done so far. */
  function Then(done: (RigState, seq<Delivery>, seq<Credit>), generation: nat, f: UpFrame)
    : (RigState, seq<Delivery>, seq<Credit>)
  {
    var h := Rig.OnUpstreamFrame(done.0, generation, f);
    (h.rig, done.1 + h.sent, if h.credit.Some? then done.2 + [h.credit.value] else done.2)
  }

  /** The frames of one connection handled in order. */
  function HandleAll(done: (RigState, seq<Delivery>, seq<Credit>), generation: nat, frames: seq<UpFrame>)
    : (RigState, seq<Delivery>, seq<Credit>)
    decreases |frames|
  {
    if frames == [] then done else HandleAll(Then(done, generation, frames[0]), generation, frames[1..])
  }

  lemma {:induction false} UpdateAt(cs: seq<Channel>, up: nat, difficulty: real, k: nat)
    requires k <= |cs| && forall i | 0 <= i < k :: cs[i].up != up
    requires k < |cs| ==> cs[k].up == up
    ensures WithDifficulty(cs, up, difficulty) ==
            if k < |cs| then cs[k := cs[k].(difficulty := difficulty)] else cs
  {
    if cs != [] {
      if k > 0 {
        UpdateAt(cs[1..], up, difficulty, k - 1);
      }
      assert cs == [cs[0]] + cs[1..];
    }
  }

  lemma {:induction false} UpdateAtDown(cs: seq<Channel>, down: nat, difficulty: real, k: nat)
    requires k <= |cs| && forall i | 0 <= i < k :: cs[i].down != down
    requires k < |cs| ==> cs[k].down == down
    ensures WithDifficultyByDown(cs, down, difficulty) ==
            if k < |cs| then cs[k := cs[k].(difficulty := difficulty)] else cs
  {
    if cs != [] {
      if k > 0 {
        UpdateAtDown(cs[1..], down, difficulty, k - 1);
      }
      assert cs == [cs[0]] + cs[1..];
    }
  }
}
