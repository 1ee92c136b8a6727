/** What holds over every run of the rig lifecycle. */
module LifecycleTheorems {
  import opened Options
  import opened Registry
  import opened Types
  import opened Lifecycle

  /** States visited and the events between them. */
  ghost predicate Stepped(ss: seq<State>, es: seq<Event>, i: nat)
    requires |ss| == |es| + 1 && i < |es|
  {
    Step(ss[i], es[i], ss[i + 1])
  }

  ghost predicate Run(ss: seq<State>, es: seq<Event>) {
    |ss| == |es| + 1 && ss[0] == INITIAL && forall i: nat | i < |es| :: Stepped(ss, es, i)
  }

  lemma {:induction false} RunInv(ss: seq<State>, es: seq<Event>, n: nat)
    requires Run(ss, es) && n < |ss|
    ensures Inv(ss[n])
  {
    if n > 0 {
      RunInv(ss, es, n - 1);
      assert Stepped(ss, es, n - 1);
      StepKeepsInv(ss[n - 1], es[n - 1], ss[n]);
    }
  }

  /** No lost wakeup: once a change of its worker's orders has bumped every session it found, a
      bundled member either has an epoch it has not seen yet, or it resolved its order from a
      store that already had the change. */
  lemma NoLostWakeup(ss: seq<State>, es: seq<Event>, n: nat, c: ConnId, v: nat)
    requires Run(ss, es) && n < |ss|
    requires c in ss[n].conns && ss[n].conns[c].phase.Serving? && ss[n].conns[c].phase.bundled.Some?
    requires v in ss[n].changes && ss[n].changes[v].worker == ss[n].conns[c].worker
    requires ss[n].changes[v].phase == Bumping({})
    ensures var p := ss[n].conns[c].phase;
            p.rig in ss[n].rigs && (ss[n].rigs[p.rig].epoch > p.bundled.value.seen || v <= p.bundled.value.store)
  {
    RunInv(ss, es, n);
    assert Aware(ss[n].rigs, ss[n].changes, ss[n].conns[c]);
  }

  /** What a bundled member joined with is what it read: the epoch of its rig when it
      subscribed, and after that the store when it resolved. */
  ghost predicate ReadInOrder(ss: seq<State>, es: seq<Event>, n: nat, c: ConnId, rig: RigId, j: Joined) {
    exists a, b | 0 <= a < b < n && b < |es| && |ss| == |es| + 1 ::
      && es[a] == Subscribe(c) && rig in ss[a].rigs && ss[a].rigs[rig].epoch == j.seen
      && es[b] == Resolve(c) && ss[b].store == j.store
  }

  ghost predicate SubscribedAt(ss: seq<State>, es: seq<Event>, n: nat, c: ConnId, rig: RigId, seen: nat) {
    exists a | 0 <= a < n && a < |es| && |ss| == |es| + 1 ::
      es[a] == Subscribe(c) && rig in ss[a].rigs && ss[a].rigs[rig].epoch == seen
  }

  ghost predicate ReadsBehind(ss: seq<State>, es: seq<Event>, n: nat, c: ConnId, p: Phase) {
    match p
    case Subscribed(rig, seen) => SubscribedAt(ss, es, n, c, rig, seen)
    case Resolved(rig, seen, store) => ReadInOrder(ss, es, n, c, rig, Joined(seen, store))
    case Serving(rig, Some(j)) => ReadInOrder(ss, es, n, c, rig, j)
    case _ => true
  }

  /** How a handler gets into a phase that remembers what it read, or builds a rig of its own. */
  predicate PhaseFrom(s: State, e: Event, c: ConnId, q: Phase) {
    match q
    case Subscribed(rig, seen) => e == Subscribe(c) && rig in s.rigs && s.rigs[rig].epoch == seen
    case Resolved(rig, seen, store) =>
      e == Resolve(c) && store == s.store && c in s.conns && s.conns[c].phase == Subscribed(rig, seen)
    case Serving(rig, Some(j)) => c in s.conns && s.conns[c].phase == Resolved(rig, j.seen, j.store)
    case Building =>
      c in s.conns && ((e == Lookup(c) && s.conns[c].worker !in s.targets) || TurnedAway(s, e, c))
    case _ => true
  }

  predicate TurnedAway(s: State, e: Event, c: ConnId) {
    e == Refuse(c) && c in s.conns && s.conns[c].phase.Resolved? && s.conns[c].phase.rig in s.rigs &&
    s.rigs[s.conns[c].phase.rig].translating
  }

  /** What one event may change: rigs taken down stay so, a target goes only when a reaper
      removes that very rig, handlers move through their phases in order, and a retry wakes for
      each of its rounds. */
  ghost predicate Evolves(s: State, e: Event, s2: State) {
    && s.torn <= s2.torn
    && (forall w | w in s.targets && (w !in s2.targets || s2.targets[w] != s.targets[w]) ::
          e.ReaperRemove? && e.reaper in s.reapers && s.reapers[e.reaper].rig == s.targets[w])
    && (forall c | c in s2.conns ::
          (c in s.conns && s.conns[c].phase == s2.conns[c].phase) || PhaseFrom(s, e, c, s2.conns[c].phase))
    && (forall r | InARound(s2, r) :: InARound(s, r) || e == RetryWakes(r))
  }

  lemma JoinEvolves(s: State, e: Event, s2: State)
    requires JoinStep(s, e, s2)
    ensures Evolves(s, e, s2)
  {
  }

  lemma FoundEvolves(s: State, e: Event, s2: State)
    requires FoundStep(s, e, s2)
    ensures Evolves(s, e, s2)
  {
  }

  lemma SettleEvolves(s: State, e: Event, s2: State)
    requires SettleStep(s, e, s2)
    ensures Evolves(s, e, s2)
  {
  }

  lemma LeaveEvolves(s: State, e: Event, s2: State)
    requires LeaveStep(s, e, s2)
    ensures Evolves(s, e, s2)
  {
  }

  lemma ReapEvolves(s: State, e: Event, s2: State)
    requires ReapStep(s, e, s2)
    ensures Evolves(s, e, s2)
  {
  }

  lemma SwapEvolves(s: State, e: Event, s2: State)
    requires SwapStep(s, e, s2)
    ensures Evolves(s, e, s2)
  {
  }

  lemma ChangeEvolves(s: State, e: Event, s2: State)
    requires ChangeStep(s, e, s2)
    ensures Evolves(s, e, s2)
  {
  }

  lemma StepEvolves(s: State, e: Event, s2: State)
    requires Step(s, e, s2)
    ensures Evolves(s, e, s2)
  {
    if JoinStep(s, e, s2) {
      JoinEvolves(s, e, s2);
    } else if FoundStep(s, e, s2) {
      FoundEvolves(s, e, s2);
    } else if SettleStep(s, e, s2) {
      SettleEvolves(s, e, s2);
    } else if LeaveStep(s, e, s2) {
      LeaveEvolves(s, e, s2);
    } else if ReapStep(s, e, s2) {
      ReapEvolves(s, e, s2);
    } else if SwapStep(s, e, s2) {
      SwapEvolves(s, e, s2);
    } else {
      ChangeEvolves(s, e, s2);
    }
  }

  lemma {:induction false} JoinedIsRead(ss: seq<State>, es: seq<Event>, n: nat, c: ConnId)
    requires Run(ss, es) && n < |ss| && c in ss[n].conns
    ensures ReadsBehind(ss, es, n, c, ss[n].conns[c].phase)
  {
    if n > 0 {
      assert Stepped(ss, es, n - 1);
      StepEvolves(ss[n - 1], es[n - 1], ss[n]);
      if c in ss[n - 1].conns {
        JoinedIsRead(ss, es, n - 1, c);
      }
    }
  }

  /** A worker's gate is exclusive: at most one handler is between looking for a rig and
      serving, so no two connections of one worker ever build a rig at once. */
  lemma GateIsExclusive(ss: seq<State>, es: seq<Event>, n: nat, c: ConnId, d: ConnId)
    requires Run(ss, es) && n < |ss| && c in ss[n].conns && d in ss[n].conns
    requires ss[n].conns[c].worker == ss[n].conns[d].worker
    requires HoldsGate(ss[n].conns[c].phase) && HoldsGate(ss[n].conns[d].phase)
    ensures c == d
  {
    RunInv(ss, es, n);
  }

  /** A gate that is held is held by somebody who is on the way to a rig or takes one down. */
  ghost predicate HeldInv(s: State) {
    forall w | w in s.gates ::
      match s.gates[w]
      case ByConn(c) => c in s.conns && s.conns[c].worker == w && HoldsGate(s.conns[c].phase)
      case ByReaper(k) => k in s.reapers && s.reapers[k].worker == w && ReaperHoldsGate(s.reapers[k].phase)
  }

  lemma JoinKeepsHeld(s: State, e: Event, s2: State)
    requires HeldInv(s) && JoinStep(s, e, s2)
    ensures HeldInv(s2)
  {
  }

  lemma FoundKeepsHeld(s: State, e: Event, s2: State)
    requires HeldInv(s) && FoundStep(s, e, s2)
    ensures HeldInv(s2)
  {
  }

  lemma SettleKeepsHeld(s: State, e: Event, s2: State)
    requires HeldInv(s) && SettleStep(s, e, s2)
    ensures HeldInv(s2)
  {
  }

  lemma LeaveKeepsHeld(s: State, e: Event, s2: State)
    requires HeldInv(s) && LeaveStep(s, e, s2)
    ensures HeldInv(s2)
  {
  }

  lemma ReapKeepsHeld(s: State, e: Event, s2: State)
    requires HeldInv(s) && ReapStep(s, e, s2)
    ensures HeldInv(s2)
  {
  }

  lemma SwapKeepsHeld(s: State, e: Event, s2: State)
    requires HeldInv(s) && SwapStep(s, e, s2)
    ensures HeldInv(s2)
  {
  }

  lemma ChangeKeepsHeld(s: State, e: Event, s2: State)
    requires HeldInv(s) && ChangeStep(s, e, s2)
    ensures HeldInv(s2)
  {
  }

  lemma StepKeepsHeld(s: State, e: Event, s2: State)
    requires HeldInv(s) && Step(s, e, s2)
    ensures HeldInv(s2)
  {
    if JoinStep(s, e, s2) {
      JoinKeepsHeld(s, e, s2);
    } else if FoundStep(s, e, s2) {
      FoundKeepsHeld(s, e, s2);
    } else if SettleStep(s, e, s2) {
      SettleKeepsHeld(s, e, s2);
    } else if LeaveStep(s, e, s2) {
      LeaveKeepsHeld(s, e, s2);
    } else if ReapStep(s, e, s2) {
      ReapKeepsHeld(s, e, s2);
    } else if SwapStep(s, e, s2) {
      SwapKeepsHeld(s, e, s2);
    } else {
      ChangeKeepsHeld(s, e, s2);
    }
  }

  /** No gate is left locked behind: whoever holds one is a handler between looking for a rig and
      serving on it, or a reaper between its check and the end of its take-down. */
  lemma {:induction false} NoGateIsLeftLocked(ss: seq<State>, es: seq<Event>, n: nat)
    requires Run(ss, es) && n < |ss|
    ensures HeldInv(ss[n])
  {
    if n > 0 {
      NoGateIsLeftLocked(ss, es, n - 1);
      assert Stepped(ss, es, n - 1);
      StepKeepsHeld(ss[n - 1], es[n - 1], ss[n]);
    }
  }

  /** Why a handler builds a rig of its own: it looked for its worker's target and there was none, or
      it was turned away by one that translates. */
  ghost predicate MustBuild(ss: seq<State>, es: seq<Event>, n: nat, c: ConnId) {
    exists m | 0 <= m < n && m < |es| && |ss| == |es| + 1 ::
      c in ss[m].conns &&
      ((es[m] == Lookup(c) && ss[m].conns[c].worker !in ss[m].targets) || TurnedAway(ss[m], es[m], c))
  }

  /** A worker's miners share one rig as far as they can: a handler builds another only if it found
      no target under the gate, or one that translates. */
  lemma {:induction false} BuildsOnlyIfItMust(ss: seq<State>, es: seq<Event>, n: nat, c: ConnId)
    requires Run(ss, es) && n < |ss| && c in ss[n].conns && ss[n].conns[c].phase.Building?
    ensures MustBuild(ss, es, n, c)
  {
    if n > 0 {
      assert Stepped(ss, es, n - 1);
      StepEvolves(ss[n - 1], es[n - 1], ss[n]);
      if c in ss[n - 1].conns && ss[n - 1].conns[c].phase.Building? {
        BuildsOnlyIfItMust(ss, es, n - 1, c);
      }
    }
  }

  /** A rig is put up as its worker's target if and only if it is native and the slot is free; a
      miner is bundled only onto a rig that is native at that moment. */
  lemma PublishedIfNative(ss: seq<State>, es: seq<Event>, n: nat, c: ConnId)
    requires Run(ss, es) && n < |es| && c in ss[n].conns && (es[n] == Publish(c) || es[n] == Attach(c))
    requires ss[n].conns[c].phase.Listed? || ss[n].conns[c].phase.Resolved?
    ensures var w, r := ss[n].conns[c].worker, ss[n].conns[c].phase.rig;
            && r in ss[n].rigs
            && (es[n] == Publish(c) && w !in ss[n].targets ==>
                  (IsTarget(ss[n + 1].targets, w, r) <==> !ss[n].rigs[r].translating))
            && (es[n] == Publish(c) && w in ss[n].targets ==> ss[n + 1].targets == ss[n].targets)
            && (es[n] == Attach(c) ==>
                  !ss[n].rigs[r].translating && r in ss[n + 1].rigs && c in ss[n + 1].rigs[r].members)
  {
    assert Stepped(ss, es, n);
    assert SettleStep(ss[n], es[n], ss[n + 1]);
  }

  /** The last to leave keeps a rig warm if and only if it is its worker's target; any other is
      closed at once. */
  lemma WarmIffTarget(ss: seq<State>, es: seq<Event>, n: nat, c: ConnId, r: RigId)
    requires Run(ss, es) && n < |es| && es[n] == CheckTarget(c) && c in ss[n].conns
    requires ss[n].conns[c].phase == Leaving(r)
    ensures c in ss[n + 1].conns
    ensures IsTarget(ss[n].targets, ss[n].conns[c].worker, r) <==> ss[n + 1].conns[c].phase == Marking(r)
    ensures !IsTarget(ss[n].targets, ss[n].conns[c].worker, r) <==> ss[n + 1].conns[c].phase == Closing(r)
  {
    assert Stepped(ss, es, n);
    assert LeaveStep(ss[n], es[n], ss[n + 1]);
  }

  /** A handler is turned away only by a rig that translates, and goes on to build its own under
      the gate it has. */
  lemma TurnedAwayBuilds(ss: seq<State>, es: seq<Event>, n: nat, c: ConnId)
    requires Run(ss, es) && n < |es| && es[n] == Refuse(c)
    ensures TurnedAway(ss[n], es[n], c)
    ensures c in ss[n + 1].conns && ss[n + 1].conns[c] == ss[n].conns[c].(phase := Building)
    ensures ss[n + 1].gates == ss[n].gates && ss[n].conns[c].worker in ss[n].gates
    ensures ss[n].gates[ss[n].conns[c].worker] == ByConn(c)
  {
    RunInv(ss, es, n);
    assert Stepped(ss, es, n);
    assert SettleStep(ss[n], es[n], ss[n + 1]);
  }

  /** A commit leaves the rig running, translated or not as the pool is; a retry that succeeds is over. */
  lemma CommitInstalls(ss: seq<State>, es: seq<Event>, n: nat, r: RigId, translated: bool, end: End)
    requires Run(ss, es) && n < |es| && es[n] == CommitSwap(r, translated, end)
    ensures r in ss[n].rigs && ss[n].rigs[r].switch.Some? && r in ss[n + 1].rigs
    ensures ss[n + 1].rigs[r].running && ss[n + 1].rigs[r].translating == translated && ss[n + 1].rigs[r].switch == None
    ensures end.Succeeded? && ss[n].rigs[r].switch == Some(ByRetry) ==> r !in ss[n + 1].retries
  {
    assert Stepped(ss, es, n);
    assert SwapStep(ss[n], es[n], ss[n + 1]);
  }

  /** Whether the pool a rig was last put on, by its building or a commit, needs a translation. */
  function LastPool(es: seq<Event>, n: nat, r: RigId): bool
    requires n <= |es|
  {
    if n == 0 then false
    else
      match es[n - 1]
      case Build(_, rig, translated) => if rig == r then translated else LastPool(es, n - 1, r)
      case CommitSwap(rig, translated, _) => if rig == r then translated else LastPool(es, n - 1, r)
      case _ => LastPool(es, n - 1, r)
  }

  /** On every run a rig translates if and only if the pool it was last put on needs it, so it is
      for such a pool alone that a miner is turned away. */
  lemma {:induction false} TranslatesAsItsPool(ss: seq<State>, es: seq<Event>, n: nat, r: RigId)
    requires Run(ss, es) && n < |ss| && r in ss[n].rigs
    ensures ss[n].rigs[r].translating <==> LastPool(es, n, r)
  {
    if n > 0 {
      assert Stepped(ss, es, n - 1);
      StepPutsOn(ss[n - 1], es[n - 1], ss[n], r);
      if r in ss[n - 1].rigs {
        TranslatesAsItsPool(ss, es, n - 1, r);
      }
    }
  }

  predicate PutsOn(s: State, e: Event, s2: State, r: RigId)
    requires r in s2.rigs
  {
    match e
    case Build(_, rig, translated) =>
      if rig == r then s2.rigs[r].translating == translated else StaysOn(s, s2, r)
    case CommitSwap(rig, translated, _) =>
      if rig == r then s2.rigs[r].translating == translated else StaysOn(s, s2, r)
    case _ => StaysOn(s, s2, r)
  }

  predicate StaysOn(s: State, s2: State, r: RigId)
    requires r in s2.rigs
  {
    r in s.rigs && s2.rigs[r].translating == s.rigs[r].translating
  }

  lemma StepPutsOn(s: State, e: Event, s2: State, r: RigId)
    requires Step(s, e, s2) && r in s2.rigs
    ensures PutsOn(s, e, s2, r)
  {
    if FoundStep(s, e, s2) {
      FoundPutsOn(s, e, s2, r);
    } else if SwapStep(s, e, s2) {
      SwapPutsOn(s, e, s2, r);
    } else if LeaveStep(s, e, s2) || ReapStep(s, e, s2) {
      LeaversStayOn(s, e, s2, r);
    } else {
      OthersStayOn(s, e, s2, r);
    }
  }

  lemma FoundPutsOn(s: State, e: Event, s2: State, r: RigId)
    requires FoundStep(s, e, s2) && r in s2.rigs
    ensures PutsOn(s, e, s2, r)
  {
  }

  lemma SwapPutsOn(s: State, e: Event, s2: State, r: RigId)
    requires SwapStep(s, e, s2) && r in s2.rigs
    ensures PutsOn(s, e, s2, r)
  {
  }

  lemma LeaversStayOn(s: State, e: Event, s2: State, r: RigId)
    requires (LeaveStep(s, e, s2) || ReapStep(s, e, s2)) && r in s2.rigs
    ensures PutsOn(s, e, s2, r)
  {
  }

  lemma OthersStayOn(s: State, e: Event, s2: State, r: RigId)
    requires (JoinStep(s, e, s2) || SettleStep(s, e, s2) || ChangeStep(s, e, s2)) && r in s2.rigs
    ensures PutsOn(s, e, s2, r)
  {
  }

  /** The rig a connection found under its worker's gate stays that worker's target, registered and
      not taken down, until the connection has attached to it or was refused. */
  lemma FoundStaysTarget(ss: seq<State>, es: seq<Event>, n: nat, c: ConnId)
    requires Run(ss, es) && n < |ss| && c in ss[n].conns && Attaching(ss[n].conns[c].phase)
    ensures IsTarget(ss[n].targets, ss[n].conns[c].worker, ss[n].conns[c].phase.rig)
    ensures ss[n].conns[c].phase.rig in ss[n].listed && ss[n].conns[c].phase.rig !in ss[n].torn
  {
    RunInv(ss, es, n);
  }

  /** While a reaper takes a rig down, nobody is on the way onto it or of any rig of its worker. */
  lemma ReaperExcludesHandlers(ss: seq<State>, es: seq<Event>, n: nat, k: nat, c: ConnId)
    requires Run(ss, es) && n < |ss| && k in ss[n].reapers && c in ss[n].conns
    requires ReaperHoldsGate(ss[n].reapers[k].phase) && ss[n].conns[c].worker == ss[n].reapers[k].worker
    ensures !HoldsGate(ss[n].conns[c].phase)
  {
    RunInv(ss, es, n);
  }

  /** A reaper takes the target away only from a rig that is empty as it does so. */
  lemma ReapedRigIsEmpty(ss: seq<State>, es: seq<Event>, n: nat, k: nat)
    requires Run(ss, es) && n < |ss| && k in ss[n].reapers
    requires ss[n].reapers[k].phase.Clearing? || ss[n].reapers[k].phase.Unlisted?
    ensures var r := ss[n].reapers[k].rig; r in ss[n].rigs && ss[n].rigs[r].members == {}
    ensures forall c | c in ss[n].conns && Attaching(ss[n].conns[c].phase) ::
            ss[n].conns[c].phase.rig != ss[n].reapers[k].rig
  {
    RunInv(ss, es, n);
  }

  /** A stale reaper, one whose rig was left again since, gives up without touching anything
      but its gate. */
  lemma StaleReaperYields(ss: seq<State>, es: seq<Event>, n: nat, k: nat)
    requires Run(ss, es) && n < |es| && k in ss[n].reapers && ss[n].reapers[k].phase.Holding?
    requires ss[n].reapers[k].rig in ss[n].rigs
    requires var r := ss[n].reapers[k];
             ss[n].rigs[r.rig].members != {} || ss[n].rigs[r.rig].idleToken != r.token
    requires es[n] == ReaperPass(k) || es[n] == ReaperYield(k)
    ensures es[n] == ReaperYield(k)
    ensures ss[n + 1].targets == ss[n].targets && ss[n + 1].listed == ss[n].listed && ss[n + 1].torn == ss[n].torn
    ensures ss[n + 1].rigs == ss[n].rigs && ss[n + 1].conns == ss[n].conns
  {
    assert Stepped(ss, es, n);
  }

  /** A fresh replacement is never evicted: removing one rig leaves every other target alone. */
  lemma OtherTargetsStay(ss: seq<State>, es: seq<Event>, n: nat, w: Worker)
    requires Run(ss, es) && n < |es| && w in ss[n].targets
    ensures (w in ss[n + 1].targets && ss[n + 1].targets[w] == ss[n].targets[w]) ||
            exists k :: es[n] == ReaperRemove(k) && k in ss[n].reapers && ss[n].reapers[k].rig == ss[n].targets[w]
  {
    assert Stepped(ss, es, n);
    StepEvolves(ss[n], es[n], ss[n + 1]);
    if es[n].ReaperRemove? {
      assert es[n] == ReaperRemove(es[n].reaper);
    }
  }
}
