/** What happens to opens that a swap abandons (`abandoned` in `swap_upstream` and
    `swap_to_sv1_translate` of `src/proto/sv2/relay.rs`). */
module RigNotices {
  import opened Options
  import opened Types
  import opened Rig
  import opened RigProtocol
  import opened RigSwaps
  import opened RigTheorems

  /** The members a commit tells of the opens it abandons: those attached when the swap began,
      or, for a swap onto an SV1 pool, at its middle hold. */
  function Reached(swap: Swap): set<nat> {
    match swap
    case NoSwap => {}
    case Begun(snapshot, _, _) => snapshot.members
    case Keeping(_, _, _, kept) => kept.members
  }

  /** A commit gets to its notices, which a prefix too long for a frame keeps it from. */
  predicate Reports(w: World, step: Step) {
    step.SwapNativeStep? || (step.SwapTranslateStep? && w.swap.Keeping? && PrefixFits(w.swap.kept, step.prefix))
  }

  /** The notices a commit sends. */
  ghost predicate Notified(w: World, step: Step, d: Delivery) {
    Reports(w, step) && exists a :: a in Abandoned(w.rig.pending) && a.0 in Reached(w.swap) && d == Notice(a)
  }

  /** The hold at h is the one whose members the commit at j tells. */
  ghost predicate TellsMembersOf(ws: seq<World>, steps: seq<Step>, h: nat, j: nat) {
    && |ws| == |steps| + 1 && h < j < |steps|
    && if steps[j].SwapNativeStep? then steps[h].SwapBeginStep? && forall l | h < l <= j :: ws[l].swap.Begun?
       else steps[j].SwapTranslateStep? && steps[h].SwapKeepStep? && forall l | h < l <= j :: ws[l].swap.Keeping?
  }

  lemma KeepReaches(book: OrderBook, w: World, step: Step)
    requires Enabled(book, w, step) && step.SwapKeepStep?
    ensures Reached(Apply(book, w, step).swap) == w.rig.members && Apply(book, w, step).swap.Keeping?
  {
  }

  lemma ReachedAt(book: OrderBook, ws: seq<World>, steps: seq<Step>, h: nat, j: nat)
    requires Run(book, ws, steps) && TellsMembersOf(ws, steps, h, j)
    ensures Reached(ws[j].swap) == ws[h].rig.members
  {
    if steps[j].SwapNativeStep? {
      SwapEnds(book, ws, steps, h, j);
    } else {
      assert Stepped(book, ws, steps, h);
      KeepReaches(book, ws[h], steps[h]);
      KeptStays(book, ws, steps, h + 1, j);
    }
  }

  /** Every open a swap abandons has an attached opener. If the commit gets to its notices, it is
      told if and only if it was attached at the hold the commit takes its members from, which is
      if and only if its member id had been issued by then; and the notice names the request id
      the miner knows if and only if that happens to be the one the proxy asked the pool under. */
  lemma AbandonedOpens(book: OrderBook, ws: seq<World>, steps: seq<Step>, h: nat, j: nat, q: nat)
    requires Run(book, ws, steps) && TellsMembersOf(ws, steps, h, j) && q in ws[j].rig.pending
    ensures var p, d := ws[j].rig.pending[q], Notice((ws[j].rig.pending[q].member, q));
            && p.member in ws[j].rig.members
            && (Notified(ws[j], steps[j], d) <==> Reports(ws[j], steps[j]) && p.member in ws[h].rig.members)
            && (p.member in ws[h].rig.members <==> p.member < ws[h].rig.nextMemberId)
            && d.member == p.member
            && (d.frame.requestId == p.spec.requestId <==> q == p.spec.requestId)
  {
    RunInv(book, ws, steps, h);
    RunInv(book, ws, steps, j);
    MembersAreNeverReused(book, ws, steps, h, j);
    ReachedAt(book, ws, steps, h, j);
    var m := ws[j].rig.pending[q].member;
    assert (m, q) in Abandoned(ws[j].rig.pending);
  }

  /** A run in which the relay's promise that an abandoned opener is told does not hold: a
      member joins after the swap began, is attached when it commits, and is not notified. */
  lemma LateJoinerIsNotTold(book: OrderBook, target: UpstreamTarget, spec: OpenSpec)
    returns (ws: seq<World>, steps: seq<Step>)
    ensures Run(book, ws, steps) && |steps| == 3 && steps[0].SwapBeginStep? && steps[2].SwapNativeStep?
    ensures var m := 2;
            && m in ws[2].rig.members && m in ws[3].rig.members
            && (m, 2) in Abandoned(ws[2].rig.pending) && !Notified(ws[2], steps[2], Notice((m, 2)))
  {
    ws, steps := BeginsWithPending(book, target, spec);
    JoinsLate(book, ws[1], spec);
    ws, steps := Extend(book, ws, steps, AttachStep(spec, true));
    CommitsNothing(book, ws[2], target);
    ws, steps := Extend(book, ws, steps, SwapNativeStep([]));
  }

  lemma IsAbandoned(pending: map<nat, PendingOpen>, q: nat)
    requires q in pending
    ensures (pending[q].member, q) in Abandoned(pending)
  {
  }

  lemma JoinsLate(book: OrderBook, w: World, spec: OpenSpec)
    requires w.rig.nextMemberId == 2 && w.rig.nextUpReq == 2 && !w.rig.translating
    ensures Enabled(book, w, AttachStep(spec, true))
    ensures var v := Apply(book, w, AttachStep(spec, true));
            && 2 in v.rig.members && v.swap == w.swap
            && 2 in v.rig.pending && v.rig.pending[2] == PendingOpen(2, spec)
            && (2, 2) in Abandoned(v.rig.pending)
  {
    var v := Apply(book, w, AttachStep(spec, true));
    assert v.rig.pending[2] == PendingOpen(2, spec);
  }

  /** A run in which a miner is told of its abandoned open under an id it never used. */
  lemma NoticeUnderAnotherId(book: OrderBook, target: UpstreamTarget, spec: OpenSpec)
    returns (ws: seq<World>, steps: seq<Step>)
    requires spec.requestId != 1
    ensures Run(book, ws, steps) && |steps| == 2 && TellsMembersOf(ws, steps, 0, 1)
    ensures 1 in ws[1].rig.pending && ws[1].rig.pending[1] == PendingOpen(1, spec)
    ensures var d := Notice((1, 1));
            Notified(ws[1], steps[1], d) && d.member == 1 && d.frame.requestId != spec.requestId
  {
    ws, steps := BeginsWithPending(book, target, spec);
    IsAbandoned(ws[1].rig.pending, 1);
    CommitsNothing(book, ws[1], target);
    ws, steps := Extend(book, ws, steps, SwapNativeStep([]));
  }
}
