/** What becomes of rigs without a member: who sees to them, and that a rig taken down is down for
    good but for one way back (`reap_idle_rig`, the end of `handle_seller_miner_sv2`, and
    `spawn_switch_retry`). */
module Teardown {
  import opened Options
  import opened Registry
  import opened Types
  import opened Lifecycle
  import opened LifecycleTheorems

  /** The events that take a rig down: a reaper's last, and the close of a standalone rig. */
  predicate TakesDown(s: State, e: Event, r: RigId) {
    match e
    case ReaperClose(k) => k in s.reapers && s.reapers[k].rig == r
    case Close(c) => c in s.conns && s.conns[c].phase == Closing(r)
    case _ => false
  }

  // --- a rig taken down runs again ---

  /** What an event does to a rig that is down: only a take-down brings one down; then only a
      commit makes it run, and only a drop or another take-down stops it. */
  ghost predicate DownStep(s: State, e: Event, s2: State) {
    forall r | r in s2.torn ::
      && (r in s.torn || TakesDown(s, e, r))
      && r in s2.rigs
      && (s2.rigs[r].running <==> Commits(e, r) || (Runs(s, r) && e != Drops(r) && !TakesDown(s, e, r)))
      && (Commits(e, r) ==> r in s.torn)
  }

  predicate Commits(e: Event, r: RigId) {
    e.CommitSwap? && e.rig == r
  }

  predicate Runs(s: State, r: RigId) {
    r in s.rigs && s.rigs[r].running
  }

  lemma JoinWhenDown(s: State, e: Event, s2: State)
    requires TornInv(s) && JoinStep(s, e, s2)
    ensures DownStep(s, e, s2)
  {
  }

  lemma FoundWhenDown(s: State, e: Event, s2: State)
    requires TornInv(s) && FoundStep(s, e, s2)
    ensures DownStep(s, e, s2)
  {
  }

  lemma SettleWhenDown(s: State, e: Event, s2: State)
    requires TornInv(s) && SettleStep(s, e, s2)
    ensures DownStep(s, e, s2)
  {
  }

  lemma LeaveWhenDown(s: State, e: Event, s2: State)
    requires TornInv(s) && LeaveStep(s, e, s2)
    ensures DownStep(s, e, s2)
  {
  }

  lemma ReapWhenDown(s: State, e: Event, s2: State)
    requires TornInv(s) && ReapStep(s, e, s2)
    ensures DownStep(s, e, s2)
  {
  }

  lemma SwapWhenDown(s: State, e: Event, s2: State)
    requires TornInv(s) && SwapStep(s, e, s2)
    ensures DownStep(s, e, s2)
  {
  }

  lemma ChangeWhenDown(s: State, e: Event, s2: State)
    requires TornInv(s) && ChangeStep(s, e, s2)
    ensures DownStep(s, e, s2)
  {
  }

  lemma StepWhenDown(s: State, e: Event, s2: State)
    requires TornInv(s) && Step(s, e, s2)
    ensures DownStep(s, e, s2)
  {
    if JoinStep(s, e, s2) {
      JoinWhenDown(s, e, s2);
    } else if FoundStep(s, e, s2) {
      FoundWhenDown(s, e, s2);
    } else if SettleStep(s, e, s2) {
      SettleWhenDown(s, e, s2);
    } else if LeaveStep(s, e, s2) {
      LeaveWhenDown(s, e, s2);
    } else if ReapStep(s, e, s2) {
      ReapWhenDown(s, e, s2);
    } else if SwapStep(s, e, s2) {
      SwapWhenDown(s, e, s2);
    } else {
      ChangeWhenDown(s, e, s2);
    }
  }

  /** The rig was down at k, a swap committed on it there, and since then its pool has not dropped
      the connection and nobody took the rig down once more. */
  ghost predicate RevivedAt(ss: seq<State>, es: seq<Event>, k: nat, n: nat, r: RigId) {
    && |ss| == |es| + 1 && k < n <= |es|
    && Commits(es[k], r) && r in ss[k].torn
    && forall m | k < m < n :: es[m] != Drops(r) && !TakesDown(ss[m], es[m], r)
  }

  ghost predicate Revived(ss: seq<State>, es: seq<Event>, n: nat, r: RigId) {
    exists k: nat :: RevivedAt(ss, es, k, n, r)
  }

  /** A rig that was taken down has a running upstream if and only if a swap committed on it
      afterwards. */
  lemma {:induction false} RunsAgainIff(ss: seq<State>, es: seq<Event>, n: nat, r: RigId)
    requires Run(ss, es) && n < |ss| && r in ss[n].torn
    ensures Runs(ss[n], r) <==> Revived(ss, es, n, r)
  {
    assert n > 0;
    RunInv(ss, es, n - 1);
    assert Stepped(ss, es, n - 1);
    StepWhenDown(ss[n - 1], es[n - 1], ss[n]);
    if r in ss[n - 1].torn {
      RunsAgainIff(ss, es, n - 1, r);
      StaysRevived(ss, es, n - 1, n, r);
    } else {
      NotDownNotRevived(ss, es, n - 1, n, r);
    }
  }

  lemma StaysRevived(ss: seq<State>, es: seq<Event>, p: nat, n: nat, r: RigId)
    requires |ss| == |es| + 1 && n == p + 1 <= |es| && r in ss[p].torn
    ensures Revived(ss, es, n, r) <==>
            Commits(es[p], r) || (Revived(ss, es, p, r) && es[p] != Drops(r) && !TakesDown(ss[p], es[p], r))
  {
    if Commits(es[p], r) {
      assert RevivedAt(ss, es, p, n, r);
    } else if k: nat :| RevivedAt(ss, es, k, n, r) {
      assert RevivedAt(ss, es, k, p, r);
    } else if k: nat :| RevivedAt(ss, es, k, p, r) {
      assert es[p] != Drops(r) && !TakesDown(ss[p], es[p], r) ==> RevivedAt(ss, es, k, n, r);
    }
  }

  lemma NotDownNotRevived(ss: seq<State>, es: seq<Event>, p: nat, n: nat, r: RigId)
    requires Run(ss, es) && p <= n < |ss| && n <= p + 1 && r !in ss[p].torn
    ensures !Revived(ss, es, n, r)
  {
    if k: nat :| RevivedAt(ss, es, k, n, r) {
      TornStays(ss, es, k, p, r);
    }
  }

  lemma {:induction false} TornStays(ss: seq<State>, es: seq<Event>, i: nat, j: nat, r: RigId)
    requires Run(ss, es) && i <= j < |ss| && r in ss[i].torn
    ensures r in ss[j].torn
  {
    if i < j {
      TornStays(ss, es, i, j - 1, r);
      assert Stepped(ss, es, j - 1);
      NoneIsUntorn(ss[j - 1], es[j - 1], ss[j]);
    }
  }

  lemma NoneIsUntorn(s: State, e: Event, s2: State)
    requires Step(s, e, s2)
    ensures s.torn <= s2.torn
  {
    StepEvolves(s, e, s2);
  }

  /** A rig is only taken down without a member, and from then on it never has one again and
      nobody can be bundled onto it; that goes for reapers and for standalone rigs alike. Its
      upstream stays down as well, unless a swap commits later. */
  lemma TakenDownForGood(ss: seq<State>, es: seq<Event>, i: nat, j: nat, r: RigId)
    requires Run(ss, es) && i < j < |ss| && TakesDown(ss[i], es[i], r)
    ensures r in ss[i].rigs && ss[i].rigs[r].members == {}
    ensures r in ss[j].rigs && ss[j].rigs[r].members == {}
    ensures forall w :: !IsTarget(ss[j].targets, w, r)
    ensures forall c | c in ss[j].conns && (IsMember(ss[j].conns[c].phase) || Attaching(ss[j].conns[c].phase)) ::
              ss[j].conns[c].phase.rig != r
    ensures Runs(ss[j], r) <==> exists k: nat :: i < k && RevivedAt(ss, es, k, j, r)
  {
    RunInv(ss, es, i);
    assert Stepped(ss, es, i);
    DownAfter(ss[i], es[i], ss[i + 1], r);
    TornStays(ss, es, i + 1, j, r);
    RunInv(ss, es, j);
    RunsAgainIff(ss, es, j, r);
  }

  lemma DownAfter(s: State, e: Event, s2: State, r: RigId)
    requires EmptyInv(s) && RigsInv(s) && Step(s, e, s2) && TakesDown(s, e, r)
    ensures r in s.rigs && s.rigs[r].members == {} && r in s2.torn
  {
    assert LeaveStep(s, e, s2) || ReapStep(s, e, s2);
  }

  // --- whose swap it is ---

  /** The retry of a rig has been in one round since it woke at m. */
  ghost predicate RoundSince(ss: seq<State>, es: seq<Event>, m: nat, n: nat, r: RigId) {
    && |ss| == |es| + 1 && m < n <= |es|
    && es[m] == RetryWakes(r)
    && forall l | m < l <= n :: InARound(ss[l], r)
  }

  lemma {:induction false} RoundBegan(ss: seq<State>, es: seq<Event>, n: nat, r: RigId) returns (m: nat)
    requires Run(ss, es) && n < |ss| && InARound(ss[n], r)
    ensures RoundSince(ss, es, m, n, r)
  {
    assert n > 0;
    assert Stepped(ss, es, n - 1);
    StepEvolves(ss[n - 1], es[n - 1], ss[n]);
    if es[n - 1] == RetryWakes(r) {
      m := n - 1;
    } else {
      m := RoundBegan(ss, es, n - 1, r);
    }
  }

  /** Somebody other than the list of sessions still keeps a rig that is down alive. */
  ghost predicate Lingers(s: State, r: RigId) {
    || Runs(s, r)
    || (exists c :: LeaverActs(s, c, r))
    || (exists k :: k in s.reapers && s.reapers[k].rig == r && !s.reapers[k].phase.Finished?)
  }

  lemma HeldWhenDown(s: State, r: RigId)
    requires TornInv(s) && MembersInv(s) && RigsInv(s) && r in s.torn && Held(s, r)
    ensures Lingers(s, r)
  {
    if c :| c in s.conns && OnRig(s.conns[c].phase) && s.conns[c].phase.rig == r {
      assert LeaverActs(s, c, r);
    }
  }

  /** A commit on a rig that is down is always that of a retry, in a round that began before the
      rig was taken down or while somebody still held on to it. */
  lemma RevivedByRetry(ss: seq<State>, es: seq<Event>, k: nat, r: RigId) returns (m: nat)
    requires Run(ss, es) && k < |es| && Commits(es[k], r) && r in ss[k].torn
    ensures r in ss[k].rigs && ss[k].rigs[r].switch == Some(ByRetry)
    ensures RoundSince(ss, es, m, k, r)
    ensures r !in ss[m].torn || Lingers(ss[m], r)
  {
    RunInv(ss, es, k);
    assert Stepped(ss, es, k);
    OnlyRetryCommits(ss[k], es[k], ss[k + 1], r);
    m := RoundBegan(ss, es, k, r);
    WakesWhileHeld(ss, es, m, r);
  }

  lemma OnlyRetryCommits(s: State, e: Event, s2: State, r: RigId)
    requires TornInv(s) && RigsInv(s) && SwitchInv(s) && r in s.torn && Step(s, e, s2) && Commits(e, r)
    ensures r in s.rigs && s.rigs[r].switch == Some(ByRetry) && InARound(s, r)
  {
    assert SwapStep(s, e, s2);
  }

  lemma WakesWhileHeld(ss: seq<State>, es: seq<Event>, m: nat, r: RigId)
    requires Run(ss, es) && m < |es| && es[m] == RetryWakes(r)
    ensures r !in ss[m].torn || Lingers(ss[m], r)
  {
    RunInv(ss, es, m);
    assert Stepped(ss, es, m);
    assert SwapStep(ss[m], es[m], ss[m + 1]);
    if r in ss[m].torn {
      HeldWhenDown(ss[m], r);
    }
  }

  // --- rigs without a member ---

  /** No empty rig is leaked or kept by a stale reaper, but for one way: a rig that runs without a
      member is being seen to by the handler that left it last, or by a reaper that holds its
      current token, if it was not taken down; and it was if and only if a swap committed on it
      since. For a rig that miners can be bundled onto, that leaver or reaper is one that has not
      yet decided to take it down. */
  lemma NoEmptyRigIsLeaked(ss: seq<State>, es: seq<Event>, n: nat, r: RigId)
    requires Run(ss, es) && n < |ss| && Runs(ss[n], r) && ss[n].rigs[r].members == {}
    ensures Covered(ss[n], r) || Revived(ss, es, n, r)
    ensures r in ss[n].torn <==> Revived(ss, es, n, r)
    ensures IsTarget(ss[n].targets, ss[n].rigs[r].worker, r) ==>
              || (exists c :: LeaverActs(ss[n], c, r) && !ss[n].conns[c].phase.Closing?)
              || (exists k :: ReaperWaits(ss[n], k, r) && !ss[n].reapers[k].phase.Unlisted?)
  {
    RunInv(ss, es, n);
    if r in ss[n].torn {
      RunsAgainIff(ss, es, n, r);
    } else {
      NotDownNotRevived(ss, es, n, n, r);
      assert EmptyRig(ss[n], r);
      if c :| LeaverActs(ss[n], c, r) {
        assert LeaverActs(ss[n], c, r);
      } else {
        var k :| ReaperWaits(ss[n], k, r);
        assert ReaperWaits(ss[n], k, r);
      }
    }
  }

  // --- it does happen ---

  /** Events that lead from state to state, wherever they start. */
  ghost predicate Leads(ts: seq<State>, fs: seq<Event>) {
    |ts| == |fs| + 1 && forall i: nat | i < |fs| :: Stepped(ts, fs, i)
  }

  /** A run goes on with a path from its last state. */
  lemma Append(ss: seq<State>, es: seq<Event>, ts: seq<State>, fs: seq<Event>)
    returns (us: seq<State>, gs: seq<Event>)
    requires Run(ss, es) && Leads(ts, fs) && ts[0] == ss[|es|]
    ensures Run(us, gs) && |gs| == |es| + |fs| && us[|gs|] == ts[|fs|]
  {
    us, gs := ss + ts[1..], es + fs;
    forall i: nat | i < |gs| ensures Stepped(us, gs, i) {
      if i < |es| {
        assert Stepped(ss, es, i);
      } else {
        assert Stepped(ts, fs, i - |es|);
      }
    }
  }

  /** The worker's target is rig 0, with these members, and nobody holds the gate or swaps. */
  predicate Ready(s: State, w: Worker, members: set<ConnId>, token: nat) {
    && w !in s.gates && IsTarget(s.targets, w, 0) && 0 in s.listed
    && 0 in s.rigs && s.rigs[0] == Rig(w, 0, members, token, false, true, None)
  }

  predicate Founded(s: State, w: Worker) {
    && Ready(s, w, {0}, 0) && s.conns.Keys == {0} && s.conns[0] == Conn(w, Serving(0, None))
    && s.retries == map[] && s.reapers == map[]
  }

  lemma Founds(w: Worker) returns (ts: seq<State>, fs: seq<Event>)
    ensures Leads(ts, fs) && |fs| == 6 && ts[0] == INITIAL && Founded(ts[6], w)
  {
    var s1 := AfterArrive(INITIAL, 0, w);
    var s2 := AfterTakeGate(s1, 0);
    var s3 := AfterLookup(s2, 0);
    var s4 := AfterBuild(s3, 0, 0, false);
    var s5 := AfterList(s4, 0);
    var s6 := AfterPublish(s5, 0);
    ts := [INITIAL, s1, s2, s3, s4, s5, s6];
    fs := [Arrive(0, w), TakeGate(0), Lookup(0), Build(0, 0, false), List(0), Publish(0)];
  }

  predicate Aligning(s: State, w: Worker, switch: Option<Swapper>) {
    && w in s.gates && s.gates[w] == ByConn(1) && IsTarget(s.targets, w, 0) && 0 in s.listed
    && 0 in s.rigs && s.rigs[0] == Rig(w, 0, {0}, 0, false, true, switch)
    && s.conns == map[0 := Conn(w, Serving(0, None)), 1 := Conn(w, Resolved(0, 0, s.store))]
    && s.reapers == map[]
  }

  /** A second miner finds the rig. */
  lemma Finds(s: State, w: Worker) returns (ts: seq<State>, fs: seq<Event>)
    requires Founded(s, w)
    ensures Leads(ts, fs) && |fs| == 5 && ts[0] == s && Aligning(ts[5], w, None) && 0 !in ts[5].retries
  {
    var s1 := AfterArrive(s, 1, w);
    var s2 := AfterTakeGate(s1, 1);
    var s3 := AfterLookup(s2, 1);
    var s4 := AfterSubscribe(s3, 1);
    var s5 := AfterResolve(s4, 1);
    assert JoinStep(s, Arrive(1, w), s1) && JoinStep(s1, TakeGate(1), s2) && JoinStep(s2, Lookup(1), s3);
    assert JoinStep(s3, Subscribe(1), s4) && JoinStep(s4, Resolve(1), s5);
    ts := [s, s1, s2, s3, s4, s5];
    fs := [Arrive(1, w), TakeGate(1), Lookup(1), Subscribe(1), Resolve(1)];
  }

  predicate Bundled(s: State, w: Worker) {
    && Ready(s, w, {0, 1}, 0) && s.conns.Keys == {0, 1}
    && s.conns[0] == Conn(w, Serving(0, None)) && s.conns[1].worker == w
    && s.conns[1].phase.Serving? && s.conns[1].phase.rig == 0
    && 0 in s.retries && s.retries[0].Backoff? && s.reapers == map[]
  }

  /** It begins to switch to its order. */
  lemma BeginsToSwitch(s: State, w: Worker) returns (ts: seq<State>, fs: seq<Event>)
    requires Aligning(s, w, None) && 0 !in s.retries
    ensures Leads(ts, fs) && |fs| == 1 && ts[0] == s
    ensures Aligning(ts[1], w, Some(ByHandler(1))) && 0 !in ts[1].retries
  {
    var s1 := AfterBeginSwap(s, 0, ByHandler(1));
    assert SwapStep(s, BeginSwap(0, ByHandler(1)), s1);
    ts, fs := [s, s1], [BeginSwap(0, ByHandler(1))];
  }

  /** The switch fails, for good. */
  lemma FailsToSwitch(s: State, w: Worker) returns (ts: seq<State>, fs: seq<Event>)
    requires Aligning(s, w, Some(ByHandler(1))) && 0 !in s.retries
    ensures Leads(ts, fs) && |fs| == 1 && ts[0] == s
    ensures Aligning(ts[1], w, None) && 0 in ts[1].retries && ts[1].retries[0].Backoff?
  {
    var s1 := Ended(s, 0, Failed(true));
    assert SwapStep(s, FailSwap(0, Failed(true)), s1);
    ts, fs := [s, s1], [FailSwap(0, Failed(true))];
  }

  /** It is bundled onto the rig all the same. */
  lemma Bundles(s: State, w: Worker) returns (ts: seq<State>, fs: seq<Event>)
    requires Aligning(s, w, None) && 0 in s.retries && s.retries[0].Backoff?
    ensures Leads(ts, fs) && |fs| == 1 && ts[0] == s && Bundled(ts[1], w)
  {
    var s1 := AfterAttach(s, 1);
    assert SettleStep(s, Attach(1), s1);
    ts, fs := [s, s1], [Attach(1)];
  }

  predicate Left(s: State, w: Worker) {
    && Ready(s, w, {}, 0) && s.conns.Keys == {0, 1} && s.conns[0].phase.Gone? && s.conns[1] == Conn(w, Leaving(0))
    && 0 in s.retries && s.retries[0].Backoff? && s.reapers == map[]
  }

  /** Both miners leave. */
  lemma Leave(s: State, w: Worker) returns (ts: seq<State>, fs: seq<Event>)
    requires Bundled(s, w)
    ensures Leads(ts, fs) && |fs| == 2 && ts[0] == s && Left(ts[2], w)
  {
    var s1 := AfterDetach(s, 0);
    var s2 := AfterDetach(s1, 1);
    assert LeaveStep(s, Detach(0), s1) && LeaveStep(s1, Detach(1), s2);
    ts, fs := [s, s1, s2], [Detach(0), Detach(1)];
  }

  predicate Deserted(s: State, w: Worker) {
    && Ready(s, w, {}, 1) && (forall c | c in s.conns :: s.conns[c].phase.Gone?)
    && 0 in s.retries && s.retries[0].Backoff?
    && s.reapers.Keys == {0} && s.reapers[0] == Reaper(w, 0, 1, Sleeping)
  }

  /** The last to leave hands the rig to a reaper. */
  lemma Deserts(s: State, w: Worker) returns (ts: seq<State>, fs: seq<Event>)
    requires Left(s, w)
    ensures Leads(ts, fs) && |fs| == 2 && ts[0] == s && Deserted(ts[2], w)
  {
    var s1 := AfterCheckTarget(s, 1);
    var s2 := AfterMark(s1, 1, 0);
    assert LeaveStep(s, CheckTarget(1), s1) && LeaveStep(s1, Mark(1, 0), s2);
    ts, fs := [s, s1, s2], [CheckTarget(1), Mark(1, 0)];
  }

  predicate Retrying(s: State, w: Worker) {
    && w !in s.gates && (forall c | c in s.conns :: s.conns[c].phase.Gone?)
    && 0 in s.rigs && s.rigs[0] == Rig(w, 0, {}, 1, false, true, Some(ByRetry))
    && s.reapers.Keys == {0} && s.reapers[0] == Reaper(w, 0, 1, Sleeping)
  }

  /** The retry begins a round and a swap. */
  lemma Retries(s: State, w: Worker) returns (ts: seq<State>, fs: seq<Event>)
    requires Deserted(s, w)
    ensures Leads(ts, fs) && |fs| == 2 && ts[0] == s && Retrying(ts[2], w)
  {
    var s1 := s.(retries := s.retries[0 := InRound]);
    var s2 := AfterBeginSwap(s1, 0, ByRetry);
    assert SwapStep(s, RetryWakes(0), s1) && SwapStep(s1, BeginSwap(0, ByRetry), s2);
    ts, fs := [s, s1, s2], [RetryWakes(0), BeginSwap(0, ByRetry)];
  }

  predicate Doomed(s: State, w: Worker, phase: ReaperPhase) {
    && (forall c | c in s.conns :: s.conns[c].phase.Gone?)
    && 0 in s.rigs && s.rigs[0] == Rig(w, 0, {}, 1, false, true, Some(ByRetry))
    && s.reapers.Keys == {0} && s.reapers[0] == Reaper(w, 0, 1, phase)
  }

  /** The reaper passes. */
  lemma Passes(s: State, w: Worker) returns (ts: seq<State>, fs: seq<Event>)
    requires Retrying(s, w)
    ensures Leads(ts, fs) && |fs| == 2 && ts[0] == s && Doomed(ts[2], w, Clearing)
  {
    var s1 := AfterReaperGate(s, 0);
    var s2 := AfterReaperPass(s1, 0);
    assert ReapStep(s, ReaperGate(0), s1) && ReapStep(s1, ReaperPass(0), s2);
    ts, fs := [s, s1, s2], [ReaperGate(0), ReaperPass(0)];
  }

  /** It takes the rig off its slot. */
  lemma Removes(s: State, w: Worker) returns (ts: seq<State>, fs: seq<Event>)
    requires Doomed(s, w, Clearing)
    ensures Leads(ts, fs) && |fs| == 1 && ts[0] == s && Doomed(ts[1], w, Unlisted)
  {
    var s1 := AfterReaperRemove(s, 0);
    assert ReapStep(s, ReaperRemove(0), s1);
    ts, fs := [s, s1], [ReaperRemove(0)];
  }

  predicate Orphaned(s: State) {
    && 0 in s.torn && Runs(s, 0) && s.rigs[0].members == {}
    && (forall c | c in s.conns :: s.conns[c].phase.Gone?)
    && (forall k | k in s.reapers :: s.reapers[k].phase.Finished?)
  }

  /** It takes the rig down, and the swap commits. */
  lemma Orphans(s: State, w: Worker) returns (ts: seq<State>, fs: seq<Event>)
    requires Doomed(s, w, Unlisted)
    ensures Leads(ts, fs) && |fs| == 2 && ts[0] == s && Orphaned(ts[2])
  {
    var s1 := AfterReaperClose(s, 0);
    var s2 := AfterCommitSwap(s1, 0, false, Succeeded);
    assert ReapStep(s, ReaperClose(0), s1) && SwapStep(s1, CommitSwap(0, false, Succeeded), s2);
    ts, fs := [s, s1, s2], [ReaperClose(0), CommitSwap(0, false, Succeeded)];
  }

  /** A run up to where both miners are on the rig, with its retry. */
  lemma BeginsBundled(w: Worker) returns (ss: seq<State>, es: seq<Event>)
    ensures Run(ss, es) && |es| == 14 && Bundled(ss[14], w)
  {
    ss, es := Founds(w);
    assert Run(ss, es);
    var path, events := Finds(ss[6], w);
    ss, es := Append(ss, es, path, events);
    path, events := BeginsToSwitch(ss[11], w);
    ss, es := Append(ss, es, path, events);
    path, events := FailsToSwitch(ss[12], w);
    ss, es := Append(ss, es, path, events);
    path, events := Bundles(ss[13], w);
    ss, es := Append(ss, es, path, events);
  }

  /** The way that is left is taken: a run at whose end a rig runs without a member although it
      was taken down, and neither a handler nor a reaper sees to it. */
  lemma OrphanRuns(w: Worker) returns (ss: seq<State>, es: seq<Event>)
    ensures Run(ss, es) && |es| == 25
    ensures Runs(ss[25], 0) && ss[25].rigs[0].members == {} && !Covered(ss[25], 0) && Revived(ss, es, 25, 0)
  {
    ss, es := BeginsBundled(w);
    var path, events := Leave(ss[14], w);
    ss, es := Append(ss, es, path, events);
    path, events := Deserts(ss[16], w);
    ss, es := Append(ss, es, path, events);
    path, events := Retries(ss[18], w);
    ss, es := Append(ss, es, path, events);
    path, events := Passes(ss[20], w);
    ss, es := Append(ss, es, path, events);
    path, events := Removes(ss[22], w);
    ss, es := Append(ss, es, path, events);
    path, events := Orphans(ss[23], w);
    ss, es := Append(ss, es, path, events);
    NoEmptyRigIsLeaked(ss, es, 25, 0);
  }
}
