/** What becomes of the channel opens of a rig's members: each is asked of the pool under an id of
    its own, and answered to the member that asked, under the id that member used, with what the
    pool said about it; and what is closed at the pool when a member leaves. */
module RigOpens {
  import opened Bytes
  import opened Options
  import opened Types
  import opened Wire
  import opened Rig
  import opened RigProtocol
  import opened RigTheorems

  // --- asking ---

  /** Step i asks the pool for a channel of m, as the miner asked for it, under request id q. */
  predicate AsksAt(w: World, step: Step, q: nat, m: nat, spec: OpenSpec) {
    !w.rig.translating && q == w.rig.nextUpReq &&
    match step
    case AttachStep(s, fits) => fits && s == spec && m == w.rig.nextMemberId
    case OpenStep(member, s, fits) => fits && s == spec && m == member
    case _ => false
  }

  /** What the pool is sent by such a step. */
  function ToPoolBy(r: RigState, step: Step): seq<UpOut> {
    match step
    case AttachStep(spec, fits) => Attach(r, spec, fits).toPool
    case OpenStep(m, spec, fits) => OpenAdditional(r, m, spec, fits).toPool
    case DetachStep(m) => Detach(r, m).toPool
    case _ => []
  }

  /** An open asked for is in what the pool is sent, under its id and as the miner asked for it, and
      waits under that id for its answer; the id was never used before. */
  lemma AskedUnderItsId(book: OrderBook, ws: seq<World>, steps: seq<Step>, i: nat, q: nat, m: nat, spec: OpenSpec)
    requires Run(book, ws, steps) && i < |steps| && AsksAt(ws[i], steps[i], q, m, spec)
    ensures ToPoolBy(ws[i].rig, steps[i]) == [OpenOnPool(q, spec)]
    ensures ws[i + 1].rig.pending == ws[i].rig.pending[q := PendingOpen(m, spec)]
    ensures q !in ws[i].rig.pending && q < ws[i + 1].rig.nextUpReq && m in ws[i + 1].rig.members
  {
    RunInv(book, ws, steps, i);
    assert Stepped(book, ws, steps, i);
  }

  /** Nothing else opens a channel at the pool: an open that cannot be encoded is not sent. */
  lemma OnlyAsksGoOut(book: OrderBook, ws: seq<World>, steps: seq<Step>, i: nat, q: nat, spec: OpenSpec)
    requires Run(book, ws, steps) && i < |steps| && OpenOnPool(q, spec) in ToPoolBy(ws[i].rig, steps[i])
    ensures exists m :: AsksAt(ws[i], steps[i], q, m, spec)
  {
    match steps[i]
    case AttachStep(_, _) => assert AsksAt(ws[i], steps[i], q, ws[i].rig.nextMemberId, spec);
    case OpenStep(m, _, _) => assert AsksAt(ws[i], steps[i], q, m, spec);
    case _ =>
  }

  /** Before step n the open waiting under q was asked for by m, or by the rig's first miner before
      the run began. */
  ghost predicate Asked(ws: seq<World>, steps: seq<Step>, n: nat, q: nat, m: nat, spec: OpenSpec)
    requires n <= |steps| < |ws|
  {
    || (exists i: nat :: i < n && AsksAt(ws[i], steps[i], q, m, spec))
    || (q in ws[0].rig.pending && ws[0].rig.pending[q] == PendingOpen(m, spec))
  }

  /** What a step does to the opens that wait: they stay as they were or go; one more comes when it
      is asked for; and request ids are only ever issued upwards. */
  ghost predicate WaitsOn(w: World, step: Step, v: World) {
    && w.rig.nextUpReq <= v.rig.nextUpReq
    && (forall q | q in v.rig.pending ::
          || (q in w.rig.pending && v.rig.pending[q] == w.rig.pending[q])
          || AsksAt(w, step, q, v.rig.pending[q].member, v.rig.pending[q].spec))
  }

  lemma FrameWaitsOn(r: RigState, g: nat, f: UpFrame)
    ensures var r' := OnUpstreamFrame(r, g, f).rig;
            && r'.nextUpReq == r.nextUpReq
            && forall q | q in r'.pending :: q in r.pending && r'.pending[q] == r.pending[q]
  {
  }

  lemma MembersWaitOn(book: OrderBook, w: World, step: Step)
    requires Enabled(book, w, step)
    requires step.AttachStep? || step.OpenStep? || step.DetachStep? || step.MinerFrameStep?
    ensures WaitsOn(w, step, Apply(book, w, step))
  {
  }

  lemma OthersWaitOn(book: OrderBook, w: World, step: Step)
    requires Enabled(book, w, step) && (OfSwap(step) || OfTranslation(step))
    ensures WaitsOn(w, step, Apply(book, w, step))
  {
  }

  lemma StepWaitsOn(book: OrderBook, w: World, step: Step)
    requires Enabled(book, w, step)
    ensures WaitsOn(w, step, Apply(book, w, step))
  {
    if step.PoolFrameStep? {
      FrameWaitsOn(w.rig, step.generation, step.frame);
    } else if OfSwap(step) || OfTranslation(step) {
      OthersWaitOn(book, w, step);
    } else {
      MembersWaitOn(book, w, step);
    }
  }

  lemma {:induction false} WaitingWasAsked(book: OrderBook, ws: seq<World>, steps: seq<Step>, n: nat, q: nat)
    requires Run(book, ws, steps) && n < |ws| && q in ws[n].rig.pending
    ensures Asked(ws, steps, n, q, ws[n].rig.pending[q].member, ws[n].rig.pending[q].spec)
  {
    if n > 0 {
      var p := ws[n].rig.pending[q];
      assert Stepped(book, ws, steps, n - 1);
      StepWaitsOn(book, ws[n - 1], steps[n - 1]);
      if q in ws[n - 1].rig.pending && ws[n - 1].rig.pending[q] == p {
        WaitingWasAsked(book, ws, steps, n - 1, q);
        if i: nat :| i < n - 1 && AsksAt(ws[i], steps[i], q, p.member, p.spec) {
          assert i < n;
        }
      } else {
        assert AsksAt(ws[n - 1], steps[n - 1], q, p.member, p.spec);
      }
    }
  }

  /** An open that does not wait any more never waits again. */
  lemma {:induction false} NeverWaitsAgain(book: OrderBook, ws: seq<World>, steps: seq<Step>, i: nat, j: nat, q: nat)
    requires Run(book, ws, steps) && i <= j < |ws| && q < ws[i].rig.nextUpReq && q !in ws[i].rig.pending
    ensures q < ws[j].rig.nextUpReq && q !in ws[j].rig.pending
  {
    if i < j {
      NeverWaitsAgain(book, ws, steps, i, j - 1, q);
      assert Stepped(book, ws, steps, j - 1);
      StepWaitsOn(book, ws[j - 1], steps[j - 1]);
    }
  }

  // --- answering ---

  /** What a frame of the current connection has sent. */
  function SentBy(w: World, step: Step): seq<Delivery> {
    match step
    case PoolFrameStep(g, f) => OnUpstreamFrame(w.rig, g, f).sent
    case _ => []
  }

  /** The pool's answer to the open waiting under q, over the current connection. */
  predicate AnswersAt(w: World, step: Step, q: nat) {
    step.PoolFrameStep? && step.generation == w.rig.generation && q in w.rig.pending &&
    match step.frame
    case OpenSuccess(info) => info.requestId == q
    case OpenError(req) => req == Some(q)
    case _ => false
  }

  /** A success says what the pool said, about the channel that was registered for it. */
  ghost predicate Grants(w: World, info: ChannelInfo, m: nat, spec: OpenSpec, sent: seq<Delivery>, v: World) {
    exists c: Channel ::
      && v.rig.channels == w.rig.channels + [c] && c.down !in w.told
      && c.up == info.upChannelId && c.owner == m && c.spec == spec
      && sent == [Delivery(m, Opened(
                    spec.requestId, c.down, if spec.Extended? then c.downGroup else info.groupChannelId,
                    info.target, info.extranoncePrefix, if spec.Extended? then info.extranonceSize else 0))]
  }

  /** The answer to an open goes to the member that asked, under the request id that member used: on
      a success with the target, prefix and extranonce size of the pool's own answer and the id of
      the channel registered for it, on an error as a refusal. It waits no longer then. */
  lemma AnsweredAsAsked(book: OrderBook, ws: seq<World>, steps: seq<Step>, j: nat, q: nat)
    returns (m: nat, spec: OpenSpec)
    requires Run(book, ws, steps) && j < |steps| && AnswersAt(ws[j], steps[j], q)
    ensures Asked(ws, steps, j, q, m, spec)
    ensures match steps[j].frame
            case OpenSuccess(info) => Grants(ws[j], info, m, spec, SentBy(ws[j], steps[j]), ws[j + 1])
            case _ => exists reason :: SentBy(ws[j], steps[j]) == [Delivery(m, Refused(spec.requestId, reason))]
    ensures q !in ws[j + 1].rig.pending
  {
    m, spec := ws[j].rig.pending[q].member, ws[j].rig.pending[q].spec;
    WaitingWasAsked(book, ws, steps, j, q);
    RunInv(book, ws, steps, j);
    assert Stepped(book, ws, steps, j);
    match steps[j].frame
    case OpenSuccess(info) => GrantedAsAsked(ws[j], info);
    case OpenError(_) =>
      assert SentBy(ws[j], steps[j]) == [Delivery(m, Refused(spec.requestId, "upstream rejected channel open"))];
  }

  lemma GrantedAsAsked(w: World, info: ChannelInfo)
    requires IdsInv(w) && MembersInv(w) && info.requestId in w.rig.pending
    ensures var p, h := w.rig.pending[info.requestId], FinishOpen(w.rig, info);
            Grants(w, info, p.member, p.spec, h.sent, WithRig(w, h.rig)) && info.requestId !in h.rig.pending
  {
    var p, h := w.rig.pending[info.requestId], FinishOpen(w.rig, info);
    FinishOpenShape(w.rig, info);
    FinishOpenOpens(w, info);
    var c := h.rig.channels[|w.rig.channels|];
    assert h.rig.channels == w.rig.channels + [c];
    assert c.down == w.rig.nextDownCid;
  }

  /** Each open is answered at most once. */
  lemma AnsweredOnce(book: OrderBook, ws: seq<World>, steps: seq<Step>, i: nat, j: nat, q: nat)
    requires Run(book, ws, steps) && i < j < |steps| && AnswersAt(ws[i], steps[i], q)
    ensures !AnswersAt(ws[j], steps[j], q)
  {
    var m, spec := AnsweredAsAsked(book, ws, steps, i, q);
    RunInv(book, ws, steps, i);
    assert Stepped(book, ws, steps, i);
    StepWaitsOn(book, ws[i], steps[i]);
    NeverWaitsAgain(book, ws, steps, i + 1, j, q);
  }

  /** No two opens are asked for under one id. */
  lemma AskedOnce(book: OrderBook, ws: seq<World>, steps: seq<Step>, i: nat, j: nat, q: nat, m: nat, spec: OpenSpec,
                  m': nat, spec': OpenSpec)
    requires Run(book, ws, steps) && i < j < |steps| && AsksAt(ws[i], steps[i], q, m, spec)
    ensures !AsksAt(ws[j], steps[j], q, m', spec')
  {
    AskedUnderItsId(book, ws, steps, i, q, m, spec);
    IdsGoUp(book, ws, steps, i + 1, j);
  }

  lemma {:induction false} IdsGoUp(book: OrderBook, ws: seq<World>, steps: seq<Step>, i: nat, j: nat)
    requires Run(book, ws, steps) && i <= j < |ws|
    ensures ws[i].rig.nextUpReq <= ws[j].rig.nextUpReq
  {
    if i < j {
      IdsGoUp(book, ws, steps, i, j - 1);
      assert Stepped(book, ws, steps, j - 1);
      StepWaitsOn(book, ws[j - 1], steps[j - 1]);
    }
  }

  /** Nothing but such an answer tells a miner that a channel is open or refused. */
  lemma OnlyAnswersOpen(book: OrderBook, ws: seq<World>, steps: seq<Step>, j: nat, d: Delivery)
    requires Run(book, ws, steps) && j < |steps| && d in SentBy(ws[j], steps[j])
    requires d.Delivery? && (d.frame.Opened? || d.frame.Refused?)
    ensures exists q :: AnswersAt(ws[j], steps[j], q)
  {
    var w, f := ws[j], steps[j].frame;
    match f
    case OpenSuccess(info) => assert AnswersAt(w, steps[j], info.requestId);
    case OpenError(req) => assert AnswersAt(w, steps[j], req.value);
    case Scoped(m, payload) => OnlyRelays(w.rig, m, payload);
    case _ =>
  }

  lemma OnlyRelays(r: RigState, m: Message, payload: seq<byte>)
    ensures forall d | d in OnUpstreamFrame(r, r.generation, Scoped(m, payload)).sent ::
              d.Delivery? && d.frame.Relayed?
  {
    if ChannelIdOf(payload).Some? {
      var up := ChannelIdOf(payload).value;
      var r' := BookShares(ApplyTarget(r, up, m), up, m).0;
      CopiesRelay(r', Recipients(r'.channels, up), m, payload);
    }
  }

  lemma {:induction false} CopiesRelay(r: RigState, pairs: seq<(nat, nat)>, m: Message, payload: seq<byte>)
    ensures forall d | d in GroupCopies(r, pairs, m, payload) :: d.Delivery? && d.frame.Relayed?
  {
    if pairs != [] {
      CopiesRelay(r, pairs[..|pairs| - 1], m, payload);
    }
  }

  /** A miner that joins gets a member id nobody had and is attached; on a translated rig it is
      turned away, and a member that asks for one more channel there is refused under the id it
      used, both without a word to the pool. */
  lemma JoinsOrIsRefused(book: OrderBook, ws: seq<World>, steps: seq<Step>, i: nat, m: nat, spec: OpenSpec, fits: bool)
    requires Run(book, ws, steps) && i < |ws|
    ensures var r, a := ws[i].rig, Attach(ws[i].rig, spec, fits);
            if r.translating then a.member == None && a.toPool == [] && a.rig == r
            else a.member.Some? && a.rig.members == r.members + {a.member.value} &&
                 a.member.value !in r.members && a.member.value !in ws[i].departed
    ensures var r, a := ws[i].rig, OpenAdditional(ws[i].rig, m, spec, fits);
            if r.translating then a.refusal.Some? && a.refusal.value.Refused? && a.toPool == [] && a.rig == r &&
                                  a.refusal.value.requestId == spec.requestId
            else a.refusal == None && a.rig.members == r.members
  {
    RunInv(book, ws, steps, i);
  }

  /** An error for an open nobody waits for is passed on to every attached member, as it came. */
  lemma UnknownErrorsFanOut(book: OrderBook, ws: seq<World>, steps: seq<Step>, j: nat, req: Option<nat>)
    requires Run(book, ws, steps) && j < |steps|
    requires steps[j] == PoolFrameStep(ws[j].rig.generation, OpenError(req))
    requires req.Some? ==> req.value !in ws[j].rig.pending
    ensures SentBy(ws[j], steps[j]) == [Broadcast(ws[j].rig.members, PoolError(req))] && ws[j + 1].rig == ws[j].rig
  {
    assert Stepped(book, ws, steps, j);
  }

  // --- groups ---

  /** On one connection, an Extended channel whose open names a group the rig knows joins the
      downstream group that goes with it; one in a group of its own gets an id nobody was told. */
  lemma JoinsItsGroup(book: OrderBook, ws: seq<World>, steps: seq<Step>, j: nat, info: ChannelInfo)
    requires Run(book, ws, steps) && j < |steps|
    requires steps[j] == PoolFrameStep(ws[j].rig.generation, OpenSuccess(info)) && info.requestId in ws[j].rig.pending
    requires ws[j].rig.pending[info.requestId].spec.Extended? && info.groupChannelId != 0
    ensures |ws[j + 1].rig.channels| == |ws[j].rig.channels| + 1
    ensures var g, r, c := info.groupChannelId, ws[j].rig, ws[j + 1].rig.channels[|ws[j].rig.channels|];
            && g in ws[j + 1].rig.groupDown && ws[j + 1].rig.groupDown[g] == c.downGroup
            && (g in r.groupDown ==> c.downGroup == r.groupDown[g])
            && (g !in r.groupDown ==> c.downGroup !in ws[j].groups && c.downGroup !in ws[j + 1].told)
            && (forall h | h in r.groupDown :: h in ws[j + 1].rig.groupDown &&
                  ws[j + 1].rig.groupDown[h] == r.groupDown[h])
  {
    RunInv(book, ws, steps, j);
    assert Stepped(book, ws, steps, j);
    GroupIsJoined(ws[j], info);
  }

  lemma GroupIsJoined(w: World, info: ChannelInfo)
    requires IdsInv(w) && MembersInv(w) && info.requestId in w.rig.pending
    requires w.rig.pending[info.requestId].spec.Extended? && info.groupChannelId != 0
    ensures |AfterOpen(w, info).rig.channels| == |w.rig.channels| + 1
    ensures var g, r, v := info.groupChannelId, w.rig, AfterOpen(w, info);
            var c := v.rig.channels[|r.channels|];
            && g in v.rig.groupDown && v.rig.groupDown[g] == c.downGroup
            && (g in r.groupDown ==> c.downGroup == r.groupDown[g])
            && (g !in r.groupDown ==> c.downGroup !in w.groups && c.downGroup !in v.told)
            && (forall h | h in r.groupDown :: h in v.rig.groupDown && v.rig.groupDown[h] == r.groupDown[h])
  {
    FinishOpenShape(w.rig, info);
    FinishOpenOpens(w, info);
  }

  // --- closing ---

  lemma {:induction false} OwnedInOrder(cs: seq<Channel>, m: nat)
    requires Distinct(cs)
    ensures forall i, j | 0 <= i < j < |OwnedBy(cs, m)| :: OwnedBy(cs, m)[i].up != OwnedBy(cs, m)[j].up
  {
    if cs != [] {
      var n := |cs| - 1;
      OwnedInOrder(cs[..n], m);
      OwnedByKeeps(cs[..n], m);
      forall c | c in OwnedBy(cs[..n], m) ensures c.up != cs[n].up {
        var i :| 0 <= i < n && cs[i] == c;
      }
    }
  }

  /** A member that leaves a native rig has exactly its own channels closed at the pool, each once;
      the channels of the others are all that is left, and its opens do not wait any more. */
  lemma LeavingClosesOwn(book: OrderBook, ws: seq<World>, steps: seq<Step>, i: nat, m: nat)
    requires Run(book, ws, steps) && i < |steps| && steps[i] == DetachStep(m) && !ws[i].rig.translating
    ensures var out, r, r' := ToPoolBy(ws[i].rig, steps[i]), ws[i].rig, ws[i + 1].rig;
            && (forall x :: x in out <==> exists c :: c in r.channels && c.owner == m && x == CloseOnPool(c.up))
            && (forall a, b | 0 <= a < b < |out| :: out[a] != out[b])
            && (forall c :: c in r'.channels <==> c in r.channels && c.owner != m)
            && (forall q :: q in r'.pending <==> q in r.pending && r.pending[q].member != m)
            && r'.members == r.members - {m} && (Detach(r, m).wasLast <==> r.members - {m} == {})
  {
    RunInv(book, ws, steps, i);
    assert Stepped(book, ws, steps, i);
    var cs := ws[i].rig.channels;
    OwnedByKeeps(cs, m);
    NotOwnedByKeeps(cs, m);
    OwnedInOrder(cs, m);
    ClosesThem(OwnedBy(cs, m));
  }

  lemma ClosesThem(cs: seq<Channel>)
    ensures forall x :: x in CloseAll(cs) <==> exists c :: c in cs && x == CloseOnPool(c.up)
  {
    forall c | c in cs ensures CloseOnPool(c.up) in CloseAll(cs) {
      var i :| 0 <= i < |cs| && cs[i] == c;
      assert CloseAll(cs)[i] == CloseOnPool(c.up);
    }
  }
}
