/** The idle rounds of a rig: each time its last member leaves a new round begins, with a token of
    its own and a reaper that owns it (`idle_token` in `src/proto/sv2/relay.rs`, and
    `reap_idle_rig`). */
module IdleRounds {
  import opened Lifecycle
  import opened LifecycleTheorems

  /** The last member to leave begins a round of the rig. */
  predicate Marks(s: State, e: Event, r: RigId) {
    e.Mark? && e.c in s.conns && s.conns[e.c].phase == Marking(r)
  }

  /** The round a rig is in never goes back, a mark begins a new one, and a reaper belongs for good
      to the round that began with it. */
  ghost predicate RoundsGoOn(s: State, e: Event, s2: State) {
    && (forall r | r in s.rigs ::
          && r in s2.rigs && s.rigs[r].idleToken <= s2.rigs[r].idleToken
          && (Marks(s, e, r) ==> s.rigs[r].idleToken < s2.rigs[r].idleToken))
    && (forall k | k in s.reapers ::
          k in s2.reapers && s2.reapers[k].rig == s.reapers[k].rig && s2.reapers[k].token == s.reapers[k].token)
    && (forall k | k in s2.reapers && k !in s.reapers ::
          && e.Mark? && e.reaper == k && Marks(s, e, s2.reapers[k].rig) && s2.reapers[k].rig in s2.rigs
          && s2.reapers[k].token == s2.rigs[s2.reapers[k].rig].idleToken)
  }

  lemma JoinGoesOn(s: State, e: Event, s2: State)
    requires JoinStep(s, e, s2)
    ensures RoundsGoOn(s, e, s2)
  {
  }

  lemma FoundGoesOn(s: State, e: Event, s2: State)
    requires FoundStep(s, e, s2)
    ensures RoundsGoOn(s, e, s2)
  {
  }

  lemma SettleGoesOn(s: State, e: Event, s2: State)
    requires SettleStep(s, e, s2)
    ensures RoundsGoOn(s, e, s2)
  {
  }

  lemma LeaveGoesOn(s: State, e: Event, s2: State)
    requires LeaveStep(s, e, s2)
    ensures RoundsGoOn(s, e, s2)
  {
  }

  lemma ReapGoesOn(s: State, e: Event, s2: State)
    requires ReapStep(s, e, s2)
    ensures RoundsGoOn(s, e, s2)
  {
  }

  lemma SwapGoesOn(s: State, e: Event, s2: State)
    requires SwapStep(s, e, s2)
    ensures RoundsGoOn(s, e, s2)
  {
  }

  lemma ChangeGoesOn(s: State, e: Event, s2: State)
    requires ChangeStep(s, e, s2)
    ensures RoundsGoOn(s, e, s2)
  {
  }

  lemma StepGoesOn(s: State, e: Event, s2: State)
    requires Step(s, e, s2)
    ensures RoundsGoOn(s, e, s2)
  {
    if JoinStep(s, e, s2) {
      JoinGoesOn(s, e, s2);
    } else if FoundStep(s, e, s2) {
      FoundGoesOn(s, e, s2);
    } else if SettleStep(s, e, s2) {
      SettleGoesOn(s, e, s2);
    } else if LeaveStep(s, e, s2) {
      LeaveGoesOn(s, e, s2);
    } else if ReapStep(s, e, s2) {
      ReapGoesOn(s, e, s2);
    } else if SwapStep(s, e, s2) {
      SwapGoesOn(s, e, s2);
    } else {
      ChangeGoesOn(s, e, s2);
    }
  }

  /** A reaper's round is not ahead of its rig's. */
  predicate NotAhead(s: State, k: nat) {
    k in s.reapers ==>
      s.reapers[k].rig in s.rigs && s.reapers[k].token <= s.rigs[s.reapers[k].rig].idleToken
  }

  /** Two reapers of one rig own different rounds. */
  predicate Apart(s: State, k: nat, l: nat) {
    k in s.reapers && l in s.reapers && k != l && s.reapers[k].rig == s.reapers[l].rig ==>
      s.reapers[k].token != s.reapers[l].token
  }

  ghost predicate RoundsInv(s: State) {
    (forall k: nat :: NotAhead(s, k)) && (forall k: nat, l: nat :: Apart(s, k, l))
  }

  lemma StaysBehind(s: State, e: Event, s2: State, k: nat)
    requires RoundsGoOn(s, e, s2) && NotAhead(s, k)
    ensures NotAhead(s2, k)
  {
  }

  lemma NewRoundIsNew(s: State, e: Event, s2: State, k: nat, l: nat)
    requires RoundsGoOn(s, e, s2) && NotAhead(s, k) && k in s.reapers && l in s2.reapers && l !in s.reapers
    requires s2.reapers[k].rig == s2.reapers[l].rig
    ensures s2.reapers[k].token < s2.reapers[l].token
  {
    assert Marks(s, e, s2.reapers[l].rig);
  }

  lemma StaysApart(s: State, e: Event, s2: State, k: nat, l: nat)
    requires RoundsGoOn(s, e, s2) && NotAhead(s, k) && NotAhead(s, l) && Apart(s, k, l)
    ensures Apart(s2, k, l)
  {
    if k in s2.reapers && l in s2.reapers && k != l && s2.reapers[k].rig == s2.reapers[l].rig {
      if k !in s.reapers {
        NewRoundIsNew(s, e, s2, l, k);
      } else if l !in s.reapers {
        NewRoundIsNew(s, e, s2, k, l);
      }
    }
  }

  lemma StepKeepsRounds(s: State, e: Event, s2: State)
    requires RoundsInv(s) && RoundsGoOn(s, e, s2)
    ensures RoundsInv(s2)
  {
    forall k: nat ensures NotAhead(s2, k) {
      StaysBehind(s, e, s2, k);
    }
    forall k: nat, l: nat ensures Apart(s2, k, l) {
      StaysApart(s, e, s2, k, l);
    }
  }

  lemma {:induction false} RunRounds(ss: seq<State>, es: seq<Event>, n: nat)
    requires Run(ss, es) && n < |ss|
    ensures RoundsInv(ss[n])
  {
    if n > 0 {
      RunRounds(ss, es, n - 1);
      assert Stepped(ss, es, n - 1);
      StepGoesOn(ss[n - 1], es[n - 1], ss[n]);
      StepKeepsRounds(ss[n - 1], es[n - 1], ss[n]);
    }
  }

  lemma {:induction false} RoundsOnlyGrow(ss: seq<State>, es: seq<Event>, i: nat, j: nat, r: RigId, k: nat)
    requires Run(ss, es) && i <= j < |ss| && r in ss[i].rigs && k in ss[i].reapers
    ensures r in ss[j].rigs && ss[i].rigs[r].idleToken <= ss[j].rigs[r].idleToken
    ensures k in ss[j].reapers && ss[j].reapers[k].rig == ss[i].reapers[k].rig
    ensures ss[j].reapers[k].token == ss[i].reapers[k].token
  {
    if i < j {
      RoundsOnlyGrow(ss, es, i, j - 1, r, k);
      assert Stepped(ss, es, j - 1);
      StepGoesOn(ss[j - 1], es[j - 1], ss[j]);
    }
  }

  /** A reaper spawned by a mark belongs to that mark's rig and round. */
  lemma SpawnedByMark(ss: seq<State>, es: seq<Event>, i: nat, r: RigId)
    requires Run(ss, es) && i < |es| && Marks(ss[i], es[i], r)
    ensures var k := es[i].reaper;
            && k !in ss[i].reapers && k in ss[i + 1].reapers && ss[i + 1].reapers[k].rig == r
            && r in ss[i + 1].rigs && ss[i + 1].reapers[k].token == ss[i + 1].rigs[r].idleToken
  {
    assert Stepped(ss, es, i);
    assert LeaveStep(ss[i], es[i], ss[i + 1]);
  }

  /** Once the last member has left a rig again, the reaper of the round before never passes its
      check any more, whatever else happens: the rig came back to life in between, and the grace
      it is given starts anew. */
  lemma LeftAgainIsSpared(ss: seq<State>, es: seq<Event>, i: nat, j: nat, n: nat, r: RigId)
    requires Run(ss, es) && i < j < n < |es| && Marks(ss[i], es[i], r) && Marks(ss[j], es[j], r)
    ensures es[n] != ReaperPass(es[i].reaper)
  {
    var k := es[i].reaper;
    SpawnedByMark(ss, es, i, r);
    RoundsOnlyGrow(ss, es, i + 1, j, r, k);
    NewRound(ss, es, j, r, k);
    RoundsOnlyGrow(ss, es, j + 1, n, r, k);
    assert Stepped(ss, es, n);
    OnlyItsRoundPasses(ss[n], es[n], ss[n + 1], k);
  }

  lemma NewRound(ss: seq<State>, es: seq<Event>, j: nat, r: RigId, k: nat)
    requires Run(ss, es) && j < |es| && Marks(ss[j], es[j], r) && k in ss[j].reapers && ss[j].reapers[k].rig == r
    ensures r in ss[j + 1].rigs && k in ss[j + 1].reapers && ss[j + 1].reapers[k].rig == r
    ensures ss[j + 1].reapers[k].token < ss[j + 1].rigs[r].idleToken
  {
    RunRounds(ss, es, j);
    assert NotAhead(ss[j], k);
    assert Stepped(ss, es, j);
    StepGoesOn(ss[j], es[j], ss[j + 1]);
  }

  lemma OnlyItsRoundPasses(s: State, e: Event, s2: State, k: nat)
    requires Step(s, e, s2) && !Idle(s, k)
    ensures e != ReaperPass(k)
  {
  }

  /** So of all the reapers of a rig at most one can still take it down. */
  lemma OneReaperAtMost(ss: seq<State>, es: seq<Event>, n: nat, k: nat, l: nat)
    requires Run(ss, es) && n < |ss| && k in ss[n].reapers && l in ss[n].reapers && k != l
    requires ss[n].reapers[k].rig == ss[n].reapers[l].rig
    ensures !Idle(ss[n], k) || !Idle(ss[n], l)
  {
    RunRounds(ss, es, n);
    assert Apart(ss[n], k, l);
  }
}
