/** What a swap of an SV2 rig does, with any steps of members, pools and miners between its holds:
    which channels it keeps and which it loses, and what it tells their owners. */
module RigSwaps {
  import opened Bytes
  import opened Options
  import opened Types
  import opened Wire
  import opened Rig
  import opened RigProtocol
  import opened RigTheorems
  import Target

  // --- phases ---

  lemma SwapPhase(book: OrderBook, ws: seq<World>, steps: seq<Step>, i: nat)
    requires Run(book, ws, steps) && i < |steps| && ws[i].swap.Begun? && ws[i + 1].swap.Begun?
    ensures ws[i + 1].swap == ws[i].swap
  {
    assert Stepped(book, ws, steps, i);
  }

  /** A swap in its first phase keeps its snapshot until it ends. */
  lemma {:induction false} SnapshotStays(book: OrderBook, ws: seq<World>, steps: seq<Step>, i: nat, j: nat)
    requires Run(book, ws, steps) && i <= j < |ws|
    requires forall k | i <= k <= j :: ws[k].swap.Begun?
    ensures ws[j].swap == ws[i].swap
  {
    if i < j {
      SnapshotStays(book, ws, steps, i, j - 1);
      SwapPhase(book, ws, steps, j - 1);
    }
  }

  /** The snapshot of a swap begun at step i and not yet committed at j, and the rig its
      commit at j installs. */
  lemma SwapEnds(book: OrderBook, ws: seq<World>, steps: seq<Step>, i: nat, j: nat)
    requires Run(book, ws, steps) && i < j < |steps|
    requires steps[i].SwapBeginStep? && steps[j].SwapNativeStep?
    requires forall l | i < l <= j :: ws[l].swap.Begun?
    ensures ws[j].swap ==
              Begun(Snapshot(ws[i].rig.generationCounter + 1, ReopensOf(ws[i].rig.channels), ws[i].rig.members),
                    steps[i].target, steps[i].routing)
    ensures |steps[j].infos| == |ws[i].rig.channels|
    ensures ws[j + 1].rig == SwapCommit(ws[j].rig, ws[i].rig.generationCounter + 1, steps[i].target, steps[i].routing,
                                        ReopensOf(ws[i].rig.channels), steps[j].infos)
  {
    SnapshotStays(book, ws, steps, i + 1, j);
    assert Stepped(book, ws, steps, i);
    assert Stepped(book, ws, steps, j);
  }

  // --- onto an SV1 pool ---

  lemma {:induction false} KeptStays(book: OrderBook, ws: seq<World>, steps: seq<Step>, i: nat, j: nat)
    requires Run(book, ws, steps) && i <= j < |ws| && forall k | i <= k <= j :: ws[k].swap.Keeping?
    ensures ws[j].swap == ws[i].swap
  {
    if i < j {
      KeptStays(book, ws, steps, i, j - 1);
      assert Stepped(book, ws, steps, j - 1);
      StaysKept(book, ws[j - 1], steps[j - 1]);
    }
  }

  lemma StaysKept(book: OrderBook, w: World, step: Step)
    requires Enabled(book, w, step) && w.swap.Keeping? && Apply(book, w, step).swap.Keeping?
    ensures Apply(book, w, step).swap == w.swap
  {
  }

  /** A swap onto an SV1 pool, begun at i, with its middle hold at h and committed at j: the rig is
      left with the first channel of the middle hold, under its downstream id on both sides, with
      its owner and spec and the pool's difficulty; upstream, generation and routing are the new
      ones; and the owner, if attached at the middle hold and if the prefix fits a frame, is told
      the pool's prefix and then the target of that difficulty, and nobody else anything. */
  lemma CommittedTranslationKeepsFirst(book: OrderBook, ws: seq<World>, steps: seq<Step>, i: nat, h: nat, j: nat)
    requires Run(book, ws, steps) && i < h < j < |steps|
    requires steps[i].SwapBeginStep? && steps[h].SwapKeepStep? && steps[j].SwapTranslateStep?
    requires forall l | i < l <= h :: ws[l].swap.Begun?
    requires forall l | h < l <= j :: ws[l].swap.Keeping?
    ensures ws[h].rig.channels != [] && ws[j].swap.Keeping?
    ensures var c, r, d := ws[h].rig.channels[0], ws[j + 1].rig, steps[j].difficulty;
            && r.channels == [Channel(c.down, c.down, c.spec, d, c.owner, 0, 0)] && r.upToDown == map[c.down := c.down]
            && r.groupDown == map[] && r.pending == map[] && r.translating
            && (r.target, r.routing) == (steps[i].target, steps[i].routing)
            && r.generation == ws[i].rig.generationCounter + 1
            && RepointsOf(ws[j], steps[j]) ==
               if c.owner in ws[h].rig.members && |steps[j].prefix| <= 32 then
                 [Delivery(c.owner, NewPrefix(c.down, steps[j].prefix)),
                  Delivery(c.owner, NewTarget(c.down, Target.TargetFromDifficulty(d)))]
               else []
  {
    BeginsWith(book, ws, steps, i, h);
    assert Stepped(book, ws, steps, h);
    KeptStays(book, ws, steps, h + 1, j);
    assert Stepped(book, ws, steps, j);
  }

  lemma BeginsWith(book: OrderBook, ws: seq<World>, steps: seq<Step>, i: nat, h: nat)
    requires Run(book, ws, steps) && i < h < |ws| && steps[i].SwapBeginStep?
    requires forall l | i < l <= h :: ws[l].swap.Begun?
    ensures ws[h].swap.target == steps[i].target && ws[h].swap.routing == steps[i].routing
    ensures ws[h].swap.snapshot.generation == ws[i].rig.generationCounter + 1
  {
    SnapshotStays(book, ws, steps, i + 1, h);
    assert Stepped(book, ws, steps, i);
  }

  // --- re-pointing ---

  /** A frame that re-points this channel. */
  predicate Names(d: Delivery, down: nat) {
    d.Delivery? &&
    match d.frame
    case NewPrefix(id, _) => id == down
    case NewTarget(id, _) => id == down
    case _ => false
  }

  /** Of what is sent, the frames that re-point a channel, in order. */
  function About(sent: seq<Delivery>, down: nat): seq<Delivery> {
    if sent == [] then []
    else About(sent[..|sent| - 1], down) + if Names(sent[|sent| - 1], down) then [sent[|sent| - 1]] else []
  }

  lemma {:induction false} AboutSplits(a: seq<Delivery>, b: seq<Delivery>, down: nat)
    ensures About(a + b, down) == About(a, down) + About(b, down)
  {
    if b == [] {
      assert a + b == a;
    } else {
      AboutSplits(a, b[..|b| - 1], down);
      assert (a + b)[..|a + b| - 1] == a + b[..|b| - 1];
    }
  }

  /** What the owner of a re-opened channel is told about it. */
  function OwnFrames(o: Reopen, info: ChannelInfo, members: set<nat>): seq<Delivery> {
    if o.owner in members then
      [Delivery(o.owner, NewPrefix(o.down, info.extranoncePrefix)), Delivery(o.owner, NewTarget(o.down, info.target))]
    else []
  }

  lemma AboutOwn(o: Reopen, info: ChannelInfo, members: set<nat>, down: nat)
    ensures About(OwnFrames(o, info, members), down) == if o.down == down then OwnFrames(o, info, members) else []
  {
    if o.owner in members {
      var prefix := Delivery(o.owner, NewPrefix(o.down, info.extranoncePrefix));
      var target := Delivery(o.owner, NewTarget(o.down, info.target));
      AboutSplits([prefix], [target], down);
      assert [prefix][..0] == [] && [target][..0] == [];
      assert OwnFrames(o, info, members) == [prefix] + [target];
    }
  }

  lemma LastRepoints(os: seq<Reopen>, infos: seq<ChannelInfo>, members: set<nat>, down: nat)
    requires |os| == |infos| > 0
    ensures var n := |os| - 1;
            About(Repoints(os, infos, members), down) ==
            About(Repoints(os[..n], infos[..n], members), down) +
            if os[n].down == down then OwnFrames(os[n], infos[n], members) else []
  {
    var n := |os| - 1;
    AboutSplits(Repoints(os[..n], infos[..n], members), OwnFrames(os[n], infos[n], members), down);
    AboutOwn(os[n], infos[n], members, down);
  }

  lemma {:induction false} NothingAbout(os: seq<Reopen>, infos: seq<ChannelInfo>, members: set<nat>, down: nat)
    requires |os| == |infos| && forall k | 0 <= k < |os| :: os[k].down != down
    ensures About(Repoints(os, infos, members), down) == []
  {
    if os != [] {
      NothingAbout(os[..|os| - 1], infos[..|os| - 1], members, down);
      LastRepoints(os, infos, members, down);
    }
  }

  /** Of all the frames of a commit exactly those of its own re-open are about a channel. */
  lemma {:induction false} RepointsAbout(os: seq<Reopen>, infos: seq<ChannelInfo>, members: set<nat>, k: nat)
    requires k < |os| == |infos| && DistinctDowns(os)
    ensures About(Repoints(os, infos, members), os[k].down) == OwnFrames(os[k], infos[k], members)
  {
    var n := |os| - 1;
    LastRepoints(os, infos, members, os[k].down);
    if k == n {
      NothingAbout(os[..n], infos[..n], members, os[k].down);
    } else {
      RepointsAbout(os[..n], infos[..n], members, k);
    }
  }

  /** A frame that re-points the k-th channel goes to its owner, who is attached. */
  predicate ToOwner(os: seq<Reopen>, members: set<nat>, d: Delivery, k: nat) {
    k < |os| && Names(d, os[k].down) && d.member == os[k].owner && os[k].owner in members
  }

  lemma {:induction false} RepointsOnlyOwners(os: seq<Reopen>, infos: seq<ChannelInfo>, members: set<nat>)
    requires |os| == |infos|
    ensures forall d | d in Repoints(os, infos, members) :: exists k: nat :: ToOwner(os, members, d, k)
  {
    if os != [] {
      var n := |os| - 1;
      RepointsOnlyOwners(os[..n], infos[..n], members);
      forall d | d in Repoints(os, infos, members) ensures exists k: nat :: ToOwner(os, members, d, k) {
        if d in Repoints(os[..n], infos[..n], members) {
          var k: nat :| ToOwner(os[..n], members, d, k);
          assert ToOwner(os, members, d, k);
        } else {
          assert d in OwnFrames(os[n], infos[n], members);
          assert ToOwner(os, members, d, n);
        }
      }
    }
  }

  /** What a miner knows of its channel stays the same. */
  predicate KeepsIdentity(b: Channel, c: Channel) {
    c.down == b.down && c.owner == b.owner && c.spec == b.spec && c.downGroup == b.downGroup
  }

  /** A native swap that commits, begun at step i and committed at step j with any steps in
      between: every channel of the beginning is there, in order, with its downstream id,
      owner, spec and downstream group, and with the upstream id, group and difficulty of its own
      re-open; its owner, if attached at the beginning, is told the extranonce prefix and then
      the target of that very re-open, once; no pending open is left; and the upstream,
      generation and routing are the new ones together. */
  lemma CommittedSwapKeepsChannels(book: OrderBook, ws: seq<World>, steps: seq<Step>, i: nat, j: nat, k: nat)
    requires Run(book, ws, steps) && i < j < |steps|
    requires steps[i].SwapBeginStep? && steps[j].SwapNativeStep?
    requires forall l | i < l <= j :: ws[l].swap.Begun?
    requires k < |ws[i].rig.channels|
    ensures ws[j].swap.Begun? && |ws[j].swap.snapshot.reopens| == |steps[j].infos|
    ensures var infos, r, r' := steps[j].infos, ws[i].rig, ws[j + 1].rig;
            && |r'.channels| == |r.channels| == |infos|
            && KeepsIdentity(r.channels[k], r'.channels[k])
            && r'.channels[k].up == infos[k].upChannelId
            && r'.channels[k].upGroup == (if r.channels[k].spec.Extended? then infos[k].groupChannelId else 0)
            && r'.channels[k].difficulty == Target.DifficultyFromTarget(infos[k].target)
            && About(RepointsOf(ws[j], steps[j]), r.channels[k].down) ==
               OwnFrames(ReopenOf(r.channels[k]), infos[k], r.members)
            && r'.pending == map[] && !r'.translating
            && (r'.target, r'.routing) == (steps[i].target, steps[i].routing)
            && r'.generation > r.generation
  {
    SwapEnds(book, ws, steps, i, j);
    RunInv(book, ws, steps, i);
    TellsAbout(book, ws, steps, i, j, k);
  }

  lemma TellsAbout(book: OrderBook, ws: seq<World>, steps: seq<Step>, i: nat, j: nat, k: nat)
    requires Run(book, ws, steps) && i < j < |steps|
    requires steps[i].SwapBeginStep? && steps[j].SwapNativeStep?
    requires forall l | i < l <= j :: ws[l].swap.Begun?
    requires k < |ws[i].rig.channels| == |steps[j].infos|
    ensures ws[j].swap.Begun? && |ws[j].swap.snapshot.reopens| == |steps[j].infos|
    ensures var c := ws[i].rig.channels[k];
            About(RepointsOf(ws[j], steps[j]), c.down) ==
            OwnFrames(ReopenOf(c), steps[j].infos[k], ws[i].rig.members)
  {
    SwapEnds(book, ws, steps, i, j);
    RunInv(book, ws, steps, i);
    RepointsAbout(ReopensOf(ws[i].rig.channels), steps[j].infos, ws[i].rig.members, k);
  }

  /** The k-th re-open puts a channel whose miner knows a group into upstream group g. */
  predicate PutsIn(os: seq<Reopen>, infos: seq<ChannelInfo>, k: nat, g: nat) {
    k < |os| && k < |infos| && os[k].spec.Extended? && os[k].downGroup != 0 && infos[k].groupChannelId == g != 0
  }

  ghost predicate LastIn(os: seq<Reopen>, infos: seq<ChannelInfo>, k: nat, g: nat) {
    PutsIn(os, infos, k, g) && forall l: nat | l > k :: !PutsIn(os, infos, l, g)
  }

  lemma {:induction false} StagedGroupsAre(os: seq<Reopen>, infos: seq<ChannelInfo>, g: nat)
    requires |os| == |infos|
    ensures g in StagedGroups(os, infos) <==> exists k: nat :: PutsIn(os, infos, k, g)
    ensures g in StagedGroups(os, infos) ==>
              exists k: nat :: LastIn(os, infos, k, g) && StagedGroups(os, infos)[g] == os[k].downGroup
  {
    if os != [] {
      var n := |os| - 1;
      StagedGroupsAre(os[..n], infos[..n], g);
      assert forall k: nat | k < n :: PutsIn(os, infos, k, g) <==> PutsIn(os[..n], infos[..n], k, g);
      if PutsIn(os, infos, n, g) {
        assert LastIn(os, infos, n, g) && StagedGroups(os, infos)[g] == os[n].downGroup;
      } else if k: nat :| LastIn(os[..n], infos[..n], k, g) && StagedGroups(os, infos)[g] == os[k].downGroup {
        assert LastIn(os, infos, k, g);
      }
    }
  }

  /** The groups known after a commit are exactly those some re-opened channel with a group of its
      own was put in, and lead to the downstream group of the last of those channels; so what is
      opened later in such a group joins them. */
  lemma CommittedGroups(book: OrderBook, ws: seq<World>, steps: seq<Step>, i: nat, j: nat, g: nat)
    requires Run(book, ws, steps) && i < j < |steps|
    requires steps[i].SwapBeginStep? && steps[j].SwapNativeStep?
    requires forall l | i < l <= j :: ws[l].swap.Begun?
    ensures var os, infos, groups := ReopensOf(ws[i].rig.channels), steps[j].infos, ws[j + 1].rig.groupDown;
            && (g in groups <==> exists k: nat :: PutsIn(os, infos, k, g))
            && (g in groups ==>
                  exists k: nat :: LastIn(os, infos, k, g) && groups[g] == ws[i].rig.channels[k].downGroup)
  {
    SwapEnds(book, ws, steps, i, j);
    StagedGroupsAre(ReopensOf(ws[i].rig.channels), steps[j].infos, g);
  }

  /** Right after the commit a frame for the group that an Extended channel's own re-open named
      reaches the channel's owner, if attached, under the group id its miner knows. */
  lemma GroupWorkReachesReopened(book: OrderBook, ws: seq<World>, steps: seq<Step>, i: nat, j: nat, k: nat,
                                 m: Message, payload: seq<byte>)
    requires Run(book, ws, steps) && i < j < |steps|
    requires steps[i].SwapBeginStep? && steps[j].SwapNativeStep?
    requires forall l | i < l <= j :: ws[l].swap.Begun?
    requires k < |ws[i].rig.channels| == |steps[j].infos|
    requires |payload| >= 4 && LeValue(payload[..4]) == steps[j].infos[k].groupChannelId != 0
    requires ws[i].rig.channels[k].spec.Extended? && ws[i].rig.channels[k].owner in ws[j + 1].rig.members
    ensures var c := ws[i].rig.channels[k];
            Delivery(c.owner, Relayed(m, Rewritten(payload, c.downGroup))) in Sent(ws[j + 1].rig, m, payload)
  {
    CommittedSwapKeepsChannels(book, ws, steps, i, j, k);
    var c := ws[j + 1].rig.channels[k];
    assert c in ws[j + 1].rig.channels && InGroup(c, LeValue(payload[..4]));
    GroupFrame(book, ws, steps, j + 1, m, payload);
    assert (c.downGroup, c.owner) in GroupMembers(ws[j + 1].rig, LeValue(payload[..4]));
  }

  /** Nobody is told anything about another's channel: each frame is about a channel of the
      beginning and goes to its owner. */
  lemma OnlyOwnersAreRepointed(book: OrderBook, ws: seq<World>, steps: seq<Step>, i: nat, j: nat, d: Delivery)
    requires Run(book, ws, steps) && i < j < |steps|
    requires steps[i].SwapBeginStep? && steps[j].SwapNativeStep?
    requires forall l | i < l <= j :: ws[l].swap.Begun?
    ensures ws[j].swap.Begun? && |ws[j].swap.snapshot.reopens| == |steps[j].infos|
    ensures d in RepointsOf(ws[j], steps[j]) ==>
              exists c :: c in ws[i].rig.channels && Names(d, c.down) &&
                          d.member == c.owner && c.owner in ws[i].rig.members
  {
    SwapEnds(book, ws, steps, i, j);
    var os := ReopensOf(ws[i].rig.channels);
    RepointsOnlyOwners(os, steps[j].infos, ws[i].rig.members);
    if d in RepointsOf(ws[j], steps[j]) {
      var k: nat :| ToOwner(os, ws[i].rig.members, d, k);
      assert ws[i].rig.channels[k] in ws[i].rig.channels && os[k] == ReopenOf(ws[i].rig.channels[k]);
    }
  }

  /** Whoever is attached after the commit and owns a channel has been told its new prefix and
      target: nobody who joined in between owns a kept channel. */
  lemma AttachedOwnersAreRepointed(book: OrderBook, ws: seq<World>, steps: seq<Step>, i: nat, j: nat, k: nat)
    requires Run(book, ws, steps) && i < j < |steps|
    requires steps[i].SwapBeginStep? && steps[j].SwapNativeStep?
    requires forall l | i < l <= j :: ws[l].swap.Begun?
    requires k < |ws[j + 1].rig.channels| && ws[j + 1].rig.channels[k].owner in ws[j + 1].rig.members
    ensures ws[j].swap.Begun? && |ws[j].swap.snapshot.reopens| == |steps[j].infos|
    ensures var c := ws[j + 1].rig.channels[k];
            && k < |steps[j].infos|
            && About(RepointsOf(ws[j], steps[j]), c.down) ==
               [Delivery(c.owner, NewPrefix(c.down, steps[j].infos[k].extranoncePrefix)),
                Delivery(c.owner, NewTarget(c.down, steps[j].infos[k].target))]
  {
    SwapEnds(book, ws, steps, i, j);
    CommittedSwapKeepsChannels(book, ws, steps, i, j, k);
    OwnersAreOld(book, ws, steps, i, ws[i].rig.channels[k]);
    MembersAreNeverReused(book, ws, steps, i, j + 1);
  }

  lemma OwnersAreOld(book: OrderBook, ws: seq<World>, steps: seq<Step>, i: nat, c: Channel)
    requires Run(book, ws, steps) && i < |ws| && c in ws[i].rig.channels
    ensures c.owner < ws[i].rig.nextMemberId
  {
    RunInv(book, ws, steps, i);
    assert Belongs(ws[i], ReopenOf(c));
  }

  /** Of the channels present at the commit, the swap keeps exactly those whose downstream id
      had been issued when it began: a channel that finished opening in between is lost. */
  lemma SwapDropsLateChannels(book: OrderBook, ws: seq<World>, steps: seq<Step>, i: nat, j: nat, c: Channel)
    requires Run(book, ws, steps) && i < j < |steps|
    requires steps[i].SwapBeginStep? && steps[j].SwapNativeStep?
    requires forall l | i < l <= j :: ws[l].swap.Begun?
    requires c in ws[j].rig.channels
    ensures (exists c' :: c' in ws[j + 1].rig.channels && c'.down == c.down) <==> c.down < ws[i].rig.nextDownCid
  {
    LateChannelsAreNew(book, ws, steps, i, j, c);
    if b :| b in ws[i].rig.channels && b.down == c.down {
      SnapshottedIsKept(book, ws, steps, i, j, b);
    }
    if c' :| c' in ws[j + 1].rig.channels && c'.down == c.down {
      KeptWasSnapshotted(book, ws, steps, i, j, c');
    }
  }

  lemma SnapshottedIsKept(book: OrderBook, ws: seq<World>, steps: seq<Step>, i: nat, j: nat, b: Channel)
    requires Run(book, ws, steps) && i < j < |steps|
    requires steps[i].SwapBeginStep? && steps[j].SwapNativeStep?
    requires forall l | i < l <= j :: ws[l].swap.Begun?
    requires b in ws[i].rig.channels
    ensures exists c' :: c' in ws[j + 1].rig.channels && c'.down == b.down
    ensures b.down < ws[i].rig.nextDownCid
  {
    SwapEnds(book, ws, steps, i, j);
    RunInv(book, ws, steps, i);
    assert Belongs(ws[i], ReopenOf(b));
    var k :| 0 <= k < |ws[i].rig.channels| && ws[i].rig.channels[k] == b;
    assert ws[j + 1].rig.channels[k].down == b.down;
  }

  lemma KeptWasSnapshotted(book: OrderBook, ws: seq<World>, steps: seq<Step>, i: nat, j: nat, c': Channel)
    requires Run(book, ws, steps) && i < j < |steps|
    requires steps[i].SwapBeginStep? && steps[j].SwapNativeStep?
    requires forall l | i < l <= j :: ws[l].swap.Begun?
    requires c' in ws[j + 1].rig.channels
    ensures c'.down < ws[i].rig.nextDownCid
  {
    SwapEnds(book, ws, steps, i, j);
    RunInv(book, ws, steps, i);
    var k :| 0 <= k < |ws[j + 1].rig.channels| && ws[j + 1].rig.channels[k] == c';
    var b := ws[i].rig.channels[k];
    assert b in ws[i].rig.channels && Belongs(ws[i], ReopenOf(b));
  }

  /** Between the phases of a swap channels only leave or appear under new ids. */
  lemma {:induction false} LateChannelsAreNew(book: OrderBook, ws: seq<World>, steps: seq<Step>, i: nat, j: nat,
                                              c: Channel)
    requires Run(book, ws, steps) && i < j < |ws|
    requires forall l | i < l <= j :: ws[l].swap.Begun?
    requires c in ws[j].rig.channels
    ensures OldOrNew(ws[i].rig, c)
  {
    OneStepBack(book, ws, steps, j - 1, c);
    IdsOnlyGrow(book, ws, steps, i, j - 1);
    if c.down < ws[j - 1].rig.nextDownCid && j - 1 > i {
      var b :| b in ws[j - 1].rig.channels && b.down == c.down;
      LateChannelsAreNew(book, ws, steps, i, j - 1, b);
    }
  }

  lemma OneStepBack(book: OrderBook, ws: seq<World>, steps: seq<Step>, k: nat, c: Channel)
    requires Run(book, ws, steps) && k < |steps| && ws[k + 1].swap.Begun? && c in ws[k + 1].rig.channels
    ensures OldOrNew(ws[k].rig, c)
  {
    assert Stepped(book, ws, steps, k);
    StepChannels(book, ws[k], steps[k], c);
  }

  lemma IdsOnlyGrow(book: OrderBook, ws: seq<World>, steps: seq<Step>, i: nat, j: nat)
    requires Run(book, ws, steps) && i <= j < |ws|
    ensures ws[i].rig.nextDownCid <= ws[j].rig.nextDownCid
  {
    NeverReissued(book, ws, steps, i, j);
  }

  predicate OldOrNew(r: RigState, c: Channel) {
    c.down >= r.nextDownCid || exists b :: b in r.channels && b.down == c.down
  }

  lemma Known(r: RigState, b: Channel, c: Channel)
    requires b in r.channels && b.down == c.down
    ensures OldOrNew(r, c)
  {
  }

  lemma RetargetedShape(r: RigState, cs: seq<Channel>, c: Channel)
    requires SameButDifficulty(r.channels, cs) && c in cs
    ensures OldOrNew(r, c)
  {
    SameShape(r.channels, cs);
    var b :| b in r.channels && c == b.(difficulty := c.difficulty);
    Known(r, b, c);
  }

  lemma OpenChannelsShape(r: RigState, info: ChannelInfo, c: Channel)
    requires c in FinishOpen(r, info).rig.channels
    ensures OldOrNew(r, c)
  {
    if c in r.channels {
      Known(r, c, c);
    }
  }

  lemma ScopedChannelsShape(r: RigState, m: Message, payload: seq<byte>, c: Channel)
    requires c in OnUpstreamFrame(r, r.generation, Scoped(m, payload)).rig.channels
    ensures OldOrNew(r, c)
  {
    if m.TargetChange? && m.target.Some? && ChannelIdOf(payload).Some? {
      var up, d := ChannelIdOf(payload).value, Target.DifficultyFromTarget(m.target.value);
      RetargetShape(r.channels, up, d);
      RetargetedShape(r, WithDifficulty(r.channels, up, d), c);
    } else {
      Known(r, c, c);
    }
  }

  lemma FrameChannelsShape(r: RigState, f: UpFrame, c: Channel)
    requires c in OnUpstreamFrame(r, r.generation, f).rig.channels
    ensures OldOrNew(r, c)
  {
    match f
    case OpenSuccess(info) => OpenChannelsShape(r, info, c);
    case Scoped(m, payload) => ScopedChannelsShape(r, m, payload, c);
    case _ => Known(r, c, c);
  }

  /** A step that installs no upstream gives a channel only an id it had or a new one. */
  lemma StepChannels(book: OrderBook, w: World, step: Step, c: Channel)
    requires Enabled(book, w, step) && !step.SwapNativeStep? && !step.SwapTranslateStep?
    requires c in Apply(book, w, step).rig.channels
    ensures OldOrNew(w.rig, c)
  {
    match step
    case DetachStep(m) =>
      NotOwnedByKeeps(w.rig.channels, m);
      Known(w.rig, c, c);
    case PoolFrameStep(g, f) =>
      if g == w.rig.generation { FrameChannelsShape(w.rig, f, c); } else { Known(w.rig, c, c); }
    case TranslateTargetStep(_, down, d) =>
      RetargetShape(w.rig.channels, down, d);
      if c in w.rig.channels {
        Known(w.rig, c, c);
      } else {
        RetargetedShape(w.rig, WithDifficultyByDown(w.rig.channels, down, d), c);
      }
    case _ => Known(w.rig, c, c);
  }

  /** A run in which a channel the miner was told of is gone after a swap, although its miner
      is attached throughout: its open finished between the swap's two holds. */
  lemma LateChannelIsLost(book: OrderBook, target: UpstreamTarget, spec: OpenSpec)
    returns (ws: seq<World>, steps: seq<Step>)
    ensures Run(book, ws, steps) && |steps| == 3 && steps[0].SwapBeginStep? && steps[2].SwapNativeStep?
    ensures |ws[2].rig.channels| == 1 && ws[2].rig.channels[0].down in ws[2].told
    ensures ws[2].rig.channels[0].owner in ws[3].rig.members && ws[3].rig.channels == []
  {
    var info := ChannelInfo(1, 7, [], [], 0, 0);
    ws, steps := BeginsWithPending(book, target, spec);
    var w2 := OpenStep1(book, ws[1], info);
    ws, steps := Extend(book, ws, steps, PoolFrameStep(0, OpenSuccess(info)));
    CommitsNothing(book, ws[2], target);
    ws, steps := Extend(book, ws, steps, SwapNativeStep([]));
  }

  lemma CommitsNothing(book: OrderBook, w: World, target: UpstreamTarget)
    requires w.swap == Begun(Snapshot(1, [], {1}), target, Idle)
    ensures Enabled(book, w, SwapNativeStep([]))
    ensures var v := Apply(book, w, SwapNativeStep([])); v.rig.channels == [] && v.rig.members == w.rig.members
  {
  }

  lemma BeginsWithPending(book: OrderBook, target: UpstreamTarget, spec: OpenSpec)
    returns (ws: seq<World>, steps: seq<Step>)
    ensures Run(book, ws, steps) && steps == [SwapBeginStep(target, Idle)]
    ensures ws[1].rig.channels == [] && ws[1].rig.pending == map[1 := PendingOpen(1, spec)]
    ensures ws[1].rig.members == {1} && ws[1].rig.nextMemberId == 2 && ws[1].rig.nextUpReq == 2
    ensures ws[1].rig.generation == 0 && !ws[1].rig.translating
    ensures 0 in ws[1].connections && ws[1].connections[0].native && IdsInv(ws[1])
    ensures ws[1].swap == Begun(Snapshot(1, [], {1}), target, Idle)
  {
    var w, w' := BeginWithPending(book, target, spec);
    ws, steps := [w, w'], [SwapBeginStep(target, Idle)];
    assert Stepped(book, ws, steps, 0);
  }

  lemma BeginWithPending(book: OrderBook, target: UpstreamTarget, spec: OpenSpec) returns (w: World, w': World)
    ensures Init(book, w) && Enabled(book, w, SwapBeginStep(target, Idle))
    ensures w' == Apply(book, w, SwapBeginStep(target, Idle))
    ensures w'.rig.channels == [] && w'.rig.pending == map[1 := PendingOpen(1, spec)]
    ensures w'.rig.members == {1} && w'.rig.generation == 0 && !w'.rig.translating
    ensures w'.rig.nextMemberId == 2 && w'.rig.nextUpReq == 2
    ensures 0 in w'.connections && w'.connections[0].native && IdsInv(w')
    ensures w'.swap == Begun(Snapshot(1, [], {1}), target, Idle)
  {
    w := Start(NativeRig(target, Idle, spec), true);
    w' := Apply(book, w, SwapBeginStep(target, Idle));
    assert StartsAs(w, target, Idle, spec, 0.0) && Attributed(book, Idle, target);
  }

  lemma OpenStep1(book: OrderBook, w: World, info: ChannelInfo) returns (w': World)
    requires w.rig.channels == [] && info.requestId in w.rig.pending && IdsInv(w)
    requires w.rig.pending[info.requestId].member in w.rig.members && w.rig.generation == 0
    requires 0 in w.connections && w.connections[0].native
    ensures Enabled(book, w, PoolFrameStep(0, OpenSuccess(info)))
    ensures w' == Apply(book, w, PoolFrameStep(0, OpenSuccess(info)))
    ensures w'.swap == w.swap && w'.rig.members == w.rig.members
    ensures |w'.rig.channels| == 1 && w'.rig.channels[0].down in w'.told
    ensures w'.rig.channels[0].owner == w.rig.pending[info.requestId].member
  {
    w' := AfterOpen(w, info);
    OpenDuringSwap(w, info);
  }

  /** Finishing an open while a swap is in flight adds one channel and leaves the swap alone. */
  lemma OpenDuringSwap(w: World, info: ChannelInfo)
    requires info.requestId in w.rig.pending && w.rig.pending[info.requestId].member in w.rig.members
    requires IdsInv(w)
    ensures var w', c := AfterOpen(w, info),
              OpenedChannel(w.rig.pending[info.requestId], w.rig.nextDownCid, OpenedGroup(w, info), info);
            && w'.rig.channels == w.rig.channels + [c] && c.down in w'.told
            && w'.swap == w.swap && w'.rig.members == w.rig.members
  {
    FinishOpenShape(w.rig, info);
    FinishOpenOpens(w, info);
    FrameKeepsMembers(w.rig, w.rig.generation, OpenSuccess(info));
  }
}
