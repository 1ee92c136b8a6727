/** The life of SV2 rigs as a concurrent protocol: connections that attach to a worker's rig or
    build one, leave it, reapers of emptied rigs, swaps of a rig by those that may ask for one,
    and order changes that wake the members of a rig. Any number of each, in any interleaving
    (`handle_seller_miner_sv2`, `supervise_upstream`, `reconcile_routing` and
    `spawn_switch_retry` in `src/proto/sv2/relay.rs`, `registry.rs`, and the order changes of
    `src/api.rs` and `src/orders.rs`). */
module Lifecycle {
  import opened Options
  import opened Registry
  import opened Types

  type ConnId = nat
  type RigId = nat

  /** Where a connection's handler is. From `Gated` to `Listed` it holds its worker's gate. */
  datatype Phase =
    | Arrived
    | Gated
    | Found(rig: RigId)
    | Subscribed(rig: RigId, seen: nat)
    | Resolved(rig: RigId, seen: nat, store: nat)
    | Building
    | Built(rig: RigId)
    | Listed(rig: RigId)
    | Serving(rig: RigId, bundled: Option<Joined>)
    | Leaving(rig: RigId)
    | Marking(rig: RigId)
    | Closing(rig: RigId)
    | Gone

  /** What a bundled member had subscribed to and resolved when it attached. */
  datatype Joined = Joined(seen: nat, store: nat)

  datatype Conn = Conn(worker: Worker, phase: Phase)

  /** Who swaps a rig: a handler that aligns it before it attaches, the rig's supervisor, or the
      background retry of a switch that failed. */
  datatype Swapper = ByHandler(conn: ConnId) | BySupervisor | ByRetry

  /** `running` is whether the reader of the installed upstream runs, `switch` who holds the lock
      of that name. */
  datatype Rig = Rig(
    worker: Worker, epoch: nat, members: set<ConnId>, idleToken: nat, translating: bool, running: bool,
    switch: Option<Swapper>)

  /** How a swap ends for whoever asked for it; a handler whose switch failed for good starts a
      retry. */
  datatype End = Succeeded | Failed(retry: bool)

  /** Between its rounds a retry does not keep its rig alive; in a round it does. */
  datatype RetryPhase = Backoff | InRound

  /** From `Holding` to `Unlisted` a reaper holds its worker's gate. */
  datatype ReaperPhase = Sleeping | Holding | Clearing | Unlisted | Finished

  datatype Reaper = Reaper(worker: Worker, rig: RigId, token: nat, phase: ReaperPhase)

  /** An order change: persisted, then the worker's sessions are looked up, then each of them
      is bumped; `left` are the sessions still to bump. */
  datatype ChangePhase = Persisted | Bumping(left: set<RigId>)

  datatype Change = Change(worker: Worker, phase: ChangePhase)

  datatype Holder = ByConn(conn: ConnId) | ByReaper(reaper: nat)

  /** `torn` are the rigs taken down so far, `retries` the rigs with a retry, one at a time;
      `changes` is keyed by the store version the change produced. */
  datatype State = State(
    conns: map<ConnId, Conn>, gates: map<Worker, Holder>,
    targets: map<Worker, RigId>, listed: set<RigId>, rigs: map<RigId, Rig>, torn: set<RigId>,
    retries: map<RigId, RetryPhase>, reapers: map<nat, Reaper>, store: nat, changes: map<nat, Change>)

  datatype Event =
    | Arrive(c: ConnId, worker: Worker)
    | TakeGate(c: ConnId)
    | Lookup(c: ConnId)
    | Subscribe(c: ConnId)
    | Resolve(c: ConnId)
    | Attach(c: ConnId)
    | Refuse(c: ConnId)
    | Build(c: ConnId, rig: RigId, translated: bool)
    | GiveUp(c: ConnId)
    | List(c: ConnId)
    | Publish(c: ConnId)
    | Detach(c: ConnId)
    | CheckTarget(c: ConnId)
    | Mark(c: ConnId, reaper: nat)
    | Close(c: ConnId)
    | ReaperGate(reaper: nat)
    | ReaperPass(reaper: nat)
    | ReaperYield(reaper: nat)
    | ReaperRemove(reaper: nat)
    | ReaperClose(reaper: nat)
    | BeginSwap(rig: RigId, who: Swapper)
    | CommitSwap(rig: RigId, translated: bool, end: End)
    | FailSwap(rig: RigId, end: End)
    | RetryWakes(rig: RigId)
    | RetryBacksOff(rig: RigId)
    | RetryEnds(rig: RigId)
    | Drops(rig: RigId)
    | Reconnect(rig: RigId)
    | Persist(worker: Worker)
    | LookupSessions(version: nat)
    | Bump(version: nat, rig: RigId)

  function Goto(s: State, c: ConnId, p: Phase): State
    requires c in s.conns
  {
    s.(conns := s.conns[c := s.conns[c].(phase := p)])
  }

  function GotoReaper(s: State, k: nat, p: ReaperPhase): State
    requires k in s.reapers
  {
    s.(reapers := s.reapers[k := s.reapers[k].(phase := p)])
  }

  function Release(s: State, worker: Worker): State {
    s.(gates := s.gates - {worker})
  }

  function WithMembers(s: State, rig: RigId, members: set<ConnId>): State
    requires rig in s.rigs
  {
    s.(rigs := s.rigs[rig := s.rigs[rig].(members := members)])
  }

  function Bumped(s: State, rig: RigId): State
    requires rig in s.rigs
  {
    s.(rigs := s.rigs[rig := s.rigs[rig].(epoch := s.rigs[rig].epoch + 1)])
  }

  /** Off the list, and the tasks of its upstream and its supervisor are stopped. */
  function TakenDown(s: State, rig: RigId): State
    requires rig in s.rigs
  {
    var r := s.rigs[rig];
    var switch := if r.switch == Some(BySupervisor) then None else r.switch;
    s.(listed := s.listed - {rig}, torn := s.torn + {rig},
       rigs := s.rigs[rig := r.(running := false, switch := switch)])
  }

  predicate CanArrive(s: State, c: ConnId) {
    c !in s.conns
  }

  function AfterArrive(s: State, c: ConnId, worker: Worker): State
    requires CanArrive(s, c)
  {
    s.(conns := s.conns[c := Conn(worker, Arrived)])
  }

  predicate CanTakeGate(s: State, c: ConnId) {
    c in s.conns && s.conns[c].phase.Arrived? && s.conns[c].worker !in s.gates
  }

  function AfterTakeGate(s: State, c: ConnId): State
    requires CanTakeGate(s, c)
  {
    Goto(s, c, Gated).(gates := s.gates[s.conns[c].worker := ByConn(c)])
  }

  predicate CanLookup(s: State, c: ConnId) {
    c in s.conns && s.conns[c].phase.Gated?
  }

  function AfterLookup(s: State, c: ConnId): State
    requires CanLookup(s, c)
  {
    var w := s.conns[c].worker;
    Goto(s, c, if w in s.targets then Found(s.targets[w]) else Building)
  }

  predicate CanSubscribe(s: State, c: ConnId) {
    c in s.conns && s.conns[c].phase.Found? && s.conns[c].phase.rig in s.rigs
  }

  function AfterSubscribe(s: State, c: ConnId): State
    requires CanSubscribe(s, c)
  {
    var rig := s.conns[c].phase.rig;
    Goto(s, c, Subscribed(rig, s.rigs[rig].epoch))
  }

  predicate CanResolve(s: State, c: ConnId) {
    c in s.conns && s.conns[c].phase.Subscribed?
  }

  function AfterResolve(s: State, c: ConnId): State
    requires CanResolve(s, c)
  {
    Goto(s, c, Resolved(s.conns[c].phase.rig, s.conns[c].phase.seen, s.store))
  }

  /** A handler that has resolved its order and is done aligning the rig with it. */
  predicate Aligned(s: State, c: ConnId) {
    c in s.conns && s.conns[c].phase.Resolved? && s.conns[c].phase.rig in s.rigs &&
    s.rigs[s.conns[c].phase.rig].switch != Some(ByHandler(c))
  }

  /** The check of `translating` and the attach are one hold of the rig's lock. */
  predicate CanAttach(s: State, c: ConnId) {
    Aligned(s, c) && !s.rigs[s.conns[c].phase.rig].translating
  }

  function AfterAttach(s: State, c: ConnId): State
    requires CanAttach(s, c)
  {
    var p := s.conns[c].phase;
    Release(WithMembers(Goto(s, c, Serving(p.rig, Some(Joined(p.seen, p.store)))), p.rig,
                        s.rigs[p.rig].members + {c}),
            s.conns[c].worker)
  }

  predicate CanRefuse(s: State, c: ConnId) {
    Aligned(s, c) && s.rigs[s.conns[c].phase.rig].translating
  }

  function AfterRefuse(s: State, c: ConnId): State
    requires CanRefuse(s, c)
  {
    Goto(s, c, Building)
  }

  predicate CanBuild(s: State, c: ConnId, rig: RigId) {
    c in s.conns && s.conns[c].phase.Building? && rig !in s.rigs
  }

  function AfterBuild(s: State, c: ConnId, rig: RigId, translated: bool): State
    requires CanBuild(s, c, rig)
  {
    Goto(s, c, Built(rig)).(rigs := s.rigs[rig := Rig(s.conns[c].worker, 0, {c}, 0, translated, true, None)])
  }

  predicate CanGiveUp(s: State, c: ConnId) {
    c in s.conns && s.conns[c].phase.Building?
  }

  function AfterGiveUp(s: State, c: ConnId): State
    requires CanGiveUp(s, c)
  {
    Release(Goto(s, c, Gone), s.conns[c].worker)
  }

  predicate CanList(s: State, c: ConnId) {
    c in s.conns && s.conns[c].phase.Built?
  }

  function AfterList(s: State, c: ConnId): State
    requires CanList(s, c)
  {
    Goto(s, c, Listed(s.conns[c].phase.rig)).(listed := s.listed + {s.conns[c].phase.rig})
  }

  predicate CanPublish(s: State, c: ConnId) {
    c in s.conns && s.conns[c].phase.Listed? && s.conns[c].phase.rig in s.rigs
  }

  function AfterPublish(s: State, c: ConnId): State
    requires CanPublish(s, c)
  {
    var rig, w := s.conns[c].phase.rig, s.conns[c].worker;
    Release(Goto(s, c, Serving(rig, None)), w).(
      targets := if s.rigs[rig].translating then s.targets else InsertIfAbsent(s.targets, w, rig))
  }

  predicate CanDetach(s: State, c: ConnId) {
    c in s.conns && s.conns[c].phase.Serving? && s.conns[c].phase.rig in s.rigs
  }

  function AfterDetach(s: State, c: ConnId): State
    requires CanDetach(s, c)
  {
    var rig := s.conns[c].phase.rig;
    var members := s.rigs[rig].members - {c};
    WithMembers(Goto(s, c, if members == {} then Leaving(rig) else Gone), rig, members)
  }

  predicate CanCheckTarget(s: State, c: ConnId) {
    c in s.conns && s.conns[c].phase.Leaving?
  }

  function AfterCheckTarget(s: State, c: ConnId): State
    requires CanCheckTarget(s, c)
  {
    var rig := s.conns[c].phase.rig;
    Goto(s, c, if IsTarget(s.targets, s.conns[c].worker, rig) then Marking(rig) else Closing(rig))
  }

  predicate CanMark(s: State, c: ConnId, reaper: nat) {
    c in s.conns && s.conns[c].phase.Marking? && s.conns[c].phase.rig in s.rigs && reaper !in s.reapers
  }

  function AfterMark(s: State, c: ConnId, reaper: nat): State
    requires CanMark(s, c, reaper)
  {
    var rig := s.conns[c].phase.rig;
    var token := s.rigs[rig].idleToken + 1;
    Goto(s, c, Gone).(rigs := s.rigs[rig := s.rigs[rig].(idleToken := token)],
                      reapers := s.reapers[reaper := Reaper(s.conns[c].worker, rig, token, Sleeping)])
  }

  predicate CanClose(s: State, c: ConnId) {
    c in s.conns && s.conns[c].phase.Closing? && s.conns[c].phase.rig in s.rigs
  }

  function AfterClose(s: State, c: ConnId): State
    requires CanClose(s, c)
  {
    Goto(TakenDown(s, s.conns[c].phase.rig), c, Gone)
  }

  predicate CanReaperGate(s: State, reaper: nat) {
    reaper in s.reapers && s.reapers[reaper].phase.Sleeping? && s.reapers[reaper].worker !in s.gates
  }

  function AfterReaperGate(s: State, reaper: nat): State
    requires CanReaperGate(s, reaper)
  {
    GotoReaper(s, reaper, Holding).(gates := s.gates[s.reapers[reaper].worker := ByReaper(reaper)])
  }

  /** The reaper's check: the rig has no member and no newer reaper. */
  predicate Idle(s: State, reaper: nat) {
    reaper in s.reapers && s.reapers[reaper].rig in s.rigs &&
    var r := s.reapers[reaper];
    s.rigs[r.rig].members == {} && s.rigs[r.rig].idleToken == r.token
  }

  predicate CanReaperPass(s: State, reaper: nat) {
    reaper in s.reapers && s.reapers[reaper].phase.Holding? && Idle(s, reaper)
  }

  function AfterReaperPass(s: State, reaper: nat): State
    requires CanReaperPass(s, reaper)
  {
    GotoReaper(s, reaper, Clearing)
  }

  predicate CanReaperYield(s: State, reaper: nat) {
    reaper in s.reapers && s.reapers[reaper].phase.Holding? && !Idle(s, reaper)
  }

  function AfterReaperYield(s: State, reaper: nat): State
    requires CanReaperYield(s, reaper)
  {
    Release(GotoReaper(s, reaper, Finished), s.reapers[reaper].worker)
  }

  predicate CanReaperRemove(s: State, reaper: nat) {
    reaper in s.reapers && s.reapers[reaper].phase.Clearing?
  }

  function AfterReaperRemove(s: State, reaper: nat): State
    requires CanReaperRemove(s, reaper)
  {
    var r := s.reapers[reaper];
    GotoReaper(s, reaper, Unlisted).(targets := RemoveIfSame(s.targets, r.worker, r.rig))
  }

  predicate CanReaperClose(s: State, reaper: nat) {
    reaper in s.reapers && s.reapers[reaper].phase.Unlisted? && s.reapers[reaper].rig in s.rigs
  }

  function AfterReaperClose(s: State, reaper: nat): State
    requires CanReaperClose(s, reaper)
  {
    var r := s.reapers[reaper];
    Release(GotoReaper(TakenDown(s, r.rig), reaper, Finished), r.worker)
  }

  predicate InARound(s: State, rig: RigId) {
    rig in s.retries && s.retries[rig].InRound?
  }

  /** A handler swaps under its worker's gate, a supervisor until its rig is taken down, a retry
      in a round. One swap at a time holds the `switch` lock. */
  predicate CanBeginSwap(s: State, rig: RigId, who: Swapper) {
    rig in s.rigs && s.rigs[rig].switch.None? &&
    match who
    case ByHandler(c) => c in s.conns && s.conns[c].phase.Resolved? && s.conns[c].phase.rig == rig
    case BySupervisor => rig in s.listed
    case ByRetry => InARound(s, rig)
  }

  function WithSwitch(s: State, rig: RigId, switch: Option<Swapper>): State
    requires rig in s.rigs
  {
    s.(rigs := s.rigs[rig := s.rigs[rig].(switch := switch)])
  }

  function AfterBeginSwap(s: State, rig: RigId, who: Swapper): State
    requires CanBeginSwap(s, rig, who)
  {
    WithSwitch(s, rig, Some(who))
  }

  predicate Swapping(s: State, rig: RigId) {
    rig in s.rigs && s.rigs[rig].switch.Some?
  }

  /** The `switch` lock is free again. A retry that succeeded is done; a handler whose switch
      failed leaves one behind, unless the rig has one. */
  function Ended(s: State, rig: RigId, end: End): State
    requires rig in s.rigs
  {
    WithSwitch(s, rig, None).(
      retries := if end.Succeeded? && s.rigs[rig].switch == Some(ByRetry) then s.retries - {rig}
                 else if end.Failed? && end.retry && rig !in s.retries then s.retries[rig := Backoff]
                 else s.retries)
  }

  predicate CanFailSwap(s: State, rig: RigId, end: End) {
    Swapping(s, rig) && end.Failed? && (end.retry ==> s.rigs[rig].switch.value.ByHandler?)
  }

  /** A swap onto an SV1 pool can fail after it committed. */
  predicate CanCommitSwap(s: State, rig: RigId, translated: bool, end: End) {
    Swapping(s, rig) && (end.Succeeded? || (translated && CanFailSwap(s, rig, end)))
  }

  /** The commit installs an upstream with a reader of its own, whatever became of the rig. */
  function AfterCommitSwap(s: State, rig: RigId, translated: bool, end: End): State
    requires CanCommitSwap(s, rig, translated, end)
  {
    var t := Ended(s, rig, end);
    t.(rigs := t.rigs[rig := t.rigs[rig].(translating := translated, running := true)])
  }

  /** Somebody else keeps the rig alive: the list of sessions, its upstream's reader, a handler
      or a reaper. */
  predicate Held(s: State, rig: RigId) {
    || rig in s.listed
    || (rig in s.rigs && s.rigs[rig].running)
    || (exists c :: c in s.conns && OnRig(s.conns[c].phase) && s.conns[c].phase.rig == rig)
    || (exists k :: k in s.reapers && s.reapers[k].rig == rig && !s.reapers[k].phase.Finished?)
  }

  predicate CanRetryWake(s: State, rig: RigId) {
    rig in s.retries && s.retries[rig].Backoff? && Held(s, rig)
  }

  predicate BetweenSwaps(s: State, rig: RigId) {
    InARound(s, rig) && (rig in s.rigs ==> s.rigs[rig].switch != Some(ByRetry))
  }

  /** A retry ends when there is nothing to switch to any more, or its rig is gone. */
  predicate CanRetryEnd(s: State, rig: RigId) {
    BetweenSwaps(s, rig) || (rig in s.retries && s.retries[rig].Backoff? && !Held(s, rig))
  }

  predicate CanDrop(s: State, rig: RigId) {
    rig in s.rigs && s.rigs[rig].running
  }

  function AfterDrop(s: State, rig: RigId): State
    requires CanDrop(s, rig)
  {
    s.(rigs := s.rigs[rig := s.rigs[rig].(running := false)])
  }

  predicate CanReconnect(s: State, rig: RigId) {
    rig in s.rigs
  }

  function AfterReconnect(s: State, rig: RigId): State
    requires CanReconnect(s, rig)
  {
    Bumped(s, rig)
  }

  function AfterPersist(s: State, worker: Worker): State
  {
    s.(store := s.store + 1, changes := s.changes[s.store + 1 := Change(worker, Persisted)])
  }

  predicate CanLookupSessions(s: State, version: nat) {
    version in s.changes && s.changes[version].phase.Persisted?
  }

  function AfterLookupSessions(s: State, version: nat): State
    requires CanLookupSessions(s, version)
  {
    var w := s.changes[version].worker;
    var bumped := set r | r in s.listed && r in s.rigs && s.rigs[r].worker == w;
    s.(changes := s.changes[version := Change(w, Bumping(bumped))])
  }

  predicate CanBump(s: State, version: nat, rig: RigId) {
    version in s.changes && s.changes[version].phase.Bumping? && rig in s.changes[version].phase.left && rig in s.rigs
  }

  function AfterBump(s: State, version: nat, rig: RigId): State
    requires CanBump(s, version, rig)
  {
    Bumped(s, rig).(changes := s.changes[version := Change(s.changes[version].worker,
        Bumping(s.changes[version].phase.left - {rig}))])
  }

  /** A handler on its way onto its worker's rig. */
  predicate JoinStep(s: State, e: Event, s2: State) {
    match e
    case Arrive(c, worker) => CanArrive(s, c) && s2 == AfterArrive(s, c, worker)
    case TakeGate(c) => CanTakeGate(s, c) && s2 == AfterTakeGate(s, c)
    case Lookup(c) => CanLookup(s, c) && s2 == AfterLookup(s, c)
    case Subscribe(c) => CanSubscribe(s, c) && s2 == AfterSubscribe(s, c)
    case Resolve(c) => CanResolve(s, c) && s2 == AfterResolve(s, c)
    case _ => false
  }

  /** A handler that builds a rig of its own. */
  predicate FoundStep(s: State, e: Event, s2: State) {
    match e
    case Build(c, rig, translated) => CanBuild(s, c, rig) && s2 == AfterBuild(s, c, rig, translated)
    case GiveUp(c) => CanGiveUp(s, c) && s2 == AfterGiveUp(s, c)
    case List(c) => CanList(s, c) && s2 == AfterList(s, c)
    case _ => false
  }

  /** A handler that joins a rig, is refused by it, or puts its own rig up as the target. */
  predicate SettleStep(s: State, e: Event, s2: State) {
    match e
    case Attach(c) => CanAttach(s, c) && s2 == AfterAttach(s, c)
    case Refuse(c) => CanRefuse(s, c) && s2 == AfterRefuse(s, c)
    case Publish(c) => CanPublish(s, c) && s2 == AfterPublish(s, c)
    case _ => false
  }

  /** A handler whose miner left. */
  predicate LeaveStep(s: State, e: Event, s2: State) {
    match e
    case Detach(c) => CanDetach(s, c) && s2 == AfterDetach(s, c)
    case CheckTarget(c) => CanCheckTarget(s, c) && s2 == AfterCheckTarget(s, c)
    case Mark(c, reaper) => CanMark(s, c, reaper) && s2 == AfterMark(s, c, reaper)
    case Close(c) => CanClose(s, c) && s2 == AfterClose(s, c)
    case _ => false
  }

  /** A reaper. */
  predicate ReapStep(s: State, e: Event, s2: State) {
    match e
    case ReaperGate(reaper) => CanReaperGate(s, reaper) && s2 == AfterReaperGate(s, reaper)
    case ReaperPass(reaper) => CanReaperPass(s, reaper) && s2 == AfterReaperPass(s, reaper)
    case ReaperYield(reaper) => CanReaperYield(s, reaper) && s2 == AfterReaperYield(s, reaper)
    case ReaperRemove(reaper) => CanReaperRemove(s, reaper) && s2 == AfterReaperRemove(s, reaper)
    case ReaperClose(reaper) => CanReaperClose(s, reaper) && s2 == AfterReaperClose(s, reaper)
    case _ => false
  }

  /** A swap, a retry, or a pool that drops its connection. */
  predicate SwapStep(s: State, e: Event, s2: State) {
    match e
    case BeginSwap(rig, who) => CanBeginSwap(s, rig, who) && s2 == AfterBeginSwap(s, rig, who)
    case CommitSwap(rig, translated, end) =>
      CanCommitSwap(s, rig, translated, end) && s2 == AfterCommitSwap(s, rig, translated, end)
    case FailSwap(rig, end) => CanFailSwap(s, rig, end) && s2 == Ended(s, rig, end)
    case RetryWakes(rig) => CanRetryWake(s, rig) && s2 == s.(retries := s.retries[rig := InRound])
    case RetryBacksOff(rig) => BetweenSwaps(s, rig) && s2 == s.(retries := s.retries[rig := Backoff])
    case RetryEnds(rig) => CanRetryEnd(s, rig) && s2 == s.(retries := s.retries - {rig})
    case Drops(rig) => CanDrop(s, rig) && s2 == AfterDrop(s, rig)
    case _ => false
  }

  /** A reconnect of one rig, or an order change. */
  predicate ChangeStep(s: State, e: Event, s2: State) {
    match e
    case Reconnect(rig) => CanReconnect(s, rig) && s2 == AfterReconnect(s, rig)
    case Persist(worker) => s2 == AfterPersist(s, worker)
    case LookupSessions(version) => CanLookupSessions(s, version) && s2 == AfterLookupSessions(s, version)
    case Bump(version, rig) => CanBump(s, version, rig) && s2 == AfterBump(s, version, rig)
    case _ => false
  }

  predicate Step(s: State, e: Event, s2: State) {
    JoinStep(s, e, s2) || FoundStep(s, e, s2) || SettleStep(s, e, s2) || LeaveStep(s, e, s2) ||
        ReapStep(s, e, s2) || SwapStep(s, e, s2) || ChangeStep(s, e, s2)
  }

  const INITIAL: State := State(map[], map[], map[], {}, map[], {}, map[], map[], 0, map[])

  // --- the invariant ---

  predicate HoldsGate(p: Phase) {
    p.Gated? || p.Found? || p.Subscribed? || p.Resolved? || p.Building? || p.Built? || p.Listed?
  }

  predicate ReaperHoldsGate(p: ReaperPhase) {
    p.Holding? || p.Clearing? || p.Unlisted?
  }

  /** The phases in which a handler talks about a rig. */
  predicate OnRig(p: Phase) {
    p.Found? || p.Subscribed? || p.Resolved? || p.Built? || p.Listed? || p.Serving? || p.Leaving? ||
        p.Marking? || p.Closing?
  }

  predicate IsMember(p: Phase) {
    p.Built? || p.Listed? || p.Serving?
  }

  predicate Attaching(p: Phase) {
    p.Found? || p.Subscribed? || p.Resolved?
  }

  /** A worker's gate is held by exactly the handler or reaper in a gated phase. */
  ghost predicate GatesInv(s: State) {
    && (forall c | c in s.conns && HoldsGate(s.conns[c].phase) ::
          s.conns[c].worker in s.gates && s.gates[s.conns[c].worker] == ByConn(c))
    && (forall k | k in s.reapers && ReaperHoldsGate(s.reapers[k].phase) ::
          s.reapers[k].worker in s.gates && s.gates[s.reapers[k].worker] == ByReaper(k))
  }

  /** Handlers, reapers and targets talk about rigs of their own worker; a rig being attached
      to is its worker's target; a rig's members are the handlers serving on it. */
  ghost predicate RigsInv(s: State) {
    && (forall c | c in s.conns && OnRig(s.conns[c].phase) ::
          s.conns[c].phase.rig in s.rigs && s.rigs[s.conns[c].phase.rig].worker == s.conns[c].worker)
    && (forall k | k in s.reapers ::
          s.reapers[k].rig in s.rigs && s.rigs[s.reapers[k].rig].worker == s.reapers[k].worker)
    && (forall c | c in s.conns && Attaching(s.conns[c].phase) ::
          IsTarget(s.targets, s.conns[c].worker, s.conns[c].phase.rig))
  }

  ghost predicate MembersInv(s: State) {
    && (forall c | c in s.conns && IsMember(s.conns[c].phase) ::
          s.conns[c].phase.rig in s.rigs && c in s.rigs[s.conns[c].phase.rig].members)
    && (forall r, c | r in s.rigs && c in s.rigs[r].members ::
          c in s.conns && IsMember(s.conns[c].phase) && s.conns[c].phase.rig == r)
  }

  /** Every target is a listed rig of its worker, and so is every rig somebody serves on. */
  ghost predicate ListedInv(s: State) {
    && (forall w | w in s.targets ::
          s.targets[w] in s.rigs && s.rigs[s.targets[w]].worker == w && s.targets[w] in s.listed)
    && (forall c | c in s.conns && (s.conns[c].phase.Listed? || s.conns[c].phase.Serving?) ::
        s.conns[c].phase.rig in s.listed)
  }

  /** A leaver that found its rig empty still has an empty rig unless the rig is a target; a
      rig being taken down is empty, and is no longer a target once off the list. */
  ghost predicate EmptyInv(s: State) {
    && (forall c | c in s.conns && s.conns[c].phase.Leaving? && s.conns[c].phase.rig in s.rigs ::
          IsTarget(s.targets, s.conns[c].worker, s.conns[c].phase.rig) || s.rigs[s.conns[c].phase.rig].members == {})
    && (forall c | c in s.conns && s.conns[c].phase.Closing? && s.conns[c].phase.rig in s.rigs ::
          !IsTarget(s.targets, s.conns[c].worker, s.conns[c].phase.rig) && s.rigs[s.conns[c].phase.rig].members == {})
    && (forall k | k in s.reapers && (s.reapers[k].phase.Clearing? || s.reapers[k].phase.Unlisted?) &&
        s.reapers[k].rig in s.rigs ::
          s.rigs[s.reapers[k].rig].members == {})
    && (forall k | k in s.reapers && s.reapers[k].phase.Unlisted? ::
          !IsTarget(s.targets, s.reapers[k].worker, s.reapers[k].rig))
  }

  /** A handler that found the rig empty as it left and still has to see to it. */
  predicate LeaverActs(s: State, c: ConnId, r: RigId) {
    c in s.conns && (s.conns[c].phase == Leaving(r) || s.conns[c].phase == Marking(r) ||
        s.conns[c].phase == Closing(r))
  }

  /** A reaper that is not done with the rig, and whose token is the rig's current one. */
  predicate ReaperWaits(s: State, k: nat, r: RigId) {
    k in s.reapers && r in s.rigs && s.reapers[k].rig == r && s.reapers[k].token == s.rigs[r].idleToken &&
    !s.reapers[k].phase.Finished?
  }

  ghost predicate Covered(s: State, r: RigId) {
    (exists c :: LeaverActs(s, c, r)) || (exists k :: ReaperWaits(s, k, r))
  }

  /** A rig without a member that was not taken down. */
  predicate EmptyRig(s: State, r: RigId) {
    r in s.rigs && s.rigs[r].members == {} && r !in s.torn
  }

  /** Every such rig has a teardown under way. */
  ghost predicate CoveredInv(s: State) {
    forall r | EmptyRig(s, r) :: Covered(s, r)
  }

  /** A rig that was taken down stays empty and unlisted and is nobody's target. */
  ghost predicate TornInv(s: State) {
    forall r | r in s.torn ::
      r in s.rigs && s.rigs[r].members == {} && r !in s.listed && !IsTarget(s.targets, s.rigs[r].worker, r)
  }

  /** Whoever swaps a rig is still there to do so. */
  ghost predicate SwitchInv(s: State) {
    forall r | Swapping(s, r) ::
      match s.rigs[r].switch.value
      case ByHandler(c) => c in s.conns && s.conns[c].phase.Resolved? && s.conns[c].phase.rig == r
      case BySupervisor => r in s.listed
      case ByRetry => InARound(s, r)
  }

  /** What a handler that attached, or is about to, has subscribed to and resolved. */
  function JoinedOf(p: Phase): Option<Joined> {
    match p
    case Resolved(_, seen, store) => Some(Joined(seen, store))
    case Serving(_, bundled) => bundled
    case _ => None
  }

  /** The rig's epoch shows the change to a member that joined so, or still will, or the member
      resolved from a store that had it. */
  predicate Noticed(rig: Rig, id: RigId, j: Joined, v: nat, change: Change) {
    || v <= j.store
    || change.phase.Persisted?
    || (change.phase.Bumping? && id in change.phase.left)
    || rig.epoch > j.seen
  }

  /** Whatever changes of its worker's orders there are, a handler that subscribed is aware of them. */
  ghost predicate Aware(rigs: map<RigId, Rig>, changes: map<nat, Change>, conn: Conn) {
    && (conn.phase.Subscribed? && conn.phase.rig in rigs ==> conn.phase.seen <= rigs[conn.phase.rig].epoch)
    && (JoinedOf(conn.phase).Some? && conn.phase.rig in rigs ==>
          JoinedOf(conn.phase).value.seen <= rigs[conn.phase.rig].epoch &&
          forall v | v in changes && changes[v].worker == conn.worker ::
            Noticed(rigs[conn.phase.rig], conn.phase.rig, JoinedOf(conn.phase).value, v, changes[v]))
  }

  ghost predicate WakeupInv(s: State) {
    && (forall v | v in s.changes :: v <= s.store)
    && (forall c | c in s.conns :: Aware(s.rigs, s.changes, s.conns[c]))
  }

  ghost predicate Inv(s: State) {
    GatesInv(s) && RigsInv(s) && MembersInv(s) && ListedInv(s) && EmptyInv(s) && CoveredInv(s) && TornInv(s) &&
        SwitchInv(s) && WakeupInv(s)
  }

  lemma JoinKeepsGates(s: State, e: Event, s2: State)
    requires GatesInv(s) && JoinStep(s, e, s2)
    ensures GatesInv(s2)
  {
  }

  lemma FoundKeepsGates(s: State, e: Event, s2: State)
    requires GatesInv(s) && FoundStep(s, e, s2)
    ensures GatesInv(s2)
  {
  }

  lemma SettleKeepsGates(s: State, e: Event, s2: State)
    requires GatesInv(s) && SettleStep(s, e, s2)
    ensures GatesInv(s2)
  {
  }

  lemma LeaveKeepsGates(s: State, e: Event, s2: State)
    requires GatesInv(s) && LeaveStep(s, e, s2)
    ensures GatesInv(s2)
  {
  }

  lemma ReapKeepsGates(s: State, e: Event, s2: State)
    requires GatesInv(s) && ReapStep(s, e, s2)
    ensures GatesInv(s2)
  {
  }

  lemma SwapKeepsGates(s: State, e: Event, s2: State)
    requires GatesInv(s) && SwapStep(s, e, s2)
    ensures GatesInv(s2)
  {
  }

  lemma ChangeKeepsGates(s: State, e: Event, s2: State)
    requires GatesInv(s) && ChangeStep(s, e, s2)
    ensures GatesInv(s2)
  {
  }

  lemma LookupKeepsRigs(s: State, c: ConnId)
    requires RigsInv(s) && ListedInv(s) && CanLookup(s, c)
    ensures RigsInv(AfterLookup(s, c))
  {
  }

  lemma SubscribeKeepsRigs(s: State, c: ConnId)
    requires RigsInv(s) && ListedInv(s) && CanSubscribe(s, c)
    ensures RigsInv(AfterSubscribe(s, c))
  {
  }

  lemma JoinKeepsRigs(s: State, e: Event, s2: State)
    requires RigsInv(s) && ListedInv(s) && JoinStep(s, e, s2)
    ensures RigsInv(s2)
  {
    match e
    case Lookup(c) => LookupKeepsRigs(s, c);
    case Subscribe(c) => SubscribeKeepsRigs(s, c);
    case _ =>
  }

  lemma FoundKeepsRigs(s: State, e: Event, s2: State)
    requires RigsInv(s) && FoundStep(s, e, s2)
    ensures RigsInv(s2)
  {
  }

  lemma SettleKeepsRigs(s: State, e: Event, s2: State)
    requires RigsInv(s) && SettleStep(s, e, s2)
    ensures RigsInv(s2)
  {
  }

  lemma DetachKeepsRigs(s: State, c: ConnId)
    requires RigsInv(s) && CanDetach(s, c)
    ensures RigsInv(AfterDetach(s, c))
  {
  }

  lemma MarkKeepsRigs(s: State, c: ConnId, reaper: nat)
    requires RigsInv(s) && CanMark(s, c, reaper)
    ensures RigsInv(AfterMark(s, c, reaper))
  {
  }

  lemma LeaveKeepsRigs(s: State, e: Event, s2: State)
    requires RigsInv(s) && LeaveStep(s, e, s2)
    ensures RigsInv(s2)
  {
    match e
    case Detach(c) => DetachKeepsRigs(s, c);
    case Mark(c, reaper) => MarkKeepsRigs(s, c, reaper);
    case _ =>
  }

  lemma ReaperCloseKeepsRigs(s: State, k: nat)
    requires RigsInv(s) && CanReaperClose(s, k)
    ensures RigsInv(AfterReaperClose(s, k))
  {
  }

  lemma ReapKeepsRigs(s: State, e: Event, s2: State)
    requires RigsInv(s) && GatesInv(s) && ReapStep(s, e, s2)
    ensures RigsInv(s2)
  {
    match e
    case ReaperClose(k) => ReaperCloseKeepsRigs(s, k);
    case _ =>
  }

  lemma SwapKeepsRigs(s: State, e: Event, s2: State)
    requires RigsInv(s) && SwapStep(s, e, s2)
    ensures RigsInv(s2)
  {
  }

  lemma ChangeKeepsRigs(s: State, e: Event, s2: State)
    requires RigsInv(s) && ChangeStep(s, e, s2)
    ensures RigsInv(s2)
  {
  }

  lemma JoinKeepsMembers(s: State, e: Event, s2: State)
    requires MembersInv(s) && JoinStep(s, e, s2)
    ensures MembersInv(s2)
  {
  }

  lemma FoundKeepsMembers(s: State, e: Event, s2: State)
    requires MembersInv(s) && FoundStep(s, e, s2)
    ensures MembersInv(s2)
  {
  }

  lemma SettleKeepsMembers(s: State, e: Event, s2: State)
    requires MembersInv(s) && SettleStep(s, e, s2)
    ensures MembersInv(s2)
  {
  }

  lemma LeaveKeepsMembers(s: State, e: Event, s2: State)
    requires MembersInv(s) && LeaveStep(s, e, s2)
    ensures MembersInv(s2)
  {
  }

  lemma ReapKeepsMembers(s: State, e: Event, s2: State)
    requires MembersInv(s) && ReapStep(s, e, s2)
    ensures MembersInv(s2)
  {
  }

  lemma SwapKeepsMembers(s: State, e: Event, s2: State)
    requires MembersInv(s) && SwapStep(s, e, s2)
    ensures MembersInv(s2)
  {
  }

  lemma ChangeKeepsMembers(s: State, e: Event, s2: State)
    requires MembersInv(s) && ChangeStep(s, e, s2)
    ensures MembersInv(s2)
  {
  }

  lemma JoinKeepsListed(s: State, e: Event, s2: State)
    requires ListedInv(s) && JoinStep(s, e, s2)
    ensures ListedInv(s2)
  {
  }

  lemma FoundKeepsListed(s: State, e: Event, s2: State)
    requires ListedInv(s) && FoundStep(s, e, s2)
    ensures ListedInv(s2)
  {
  }

  lemma SettleKeepsListed(s: State, e: Event, s2: State)
    requires ListedInv(s) && RigsInv(s) && SettleStep(s, e, s2)
    ensures ListedInv(s2)
  {
  }

  lemma LeaveKeepsListed(s: State, e: Event, s2: State)
    requires ListedInv(s) && EmptyInv(s) && MembersInv(s) && RigsInv(s) && LeaveStep(s, e, s2)
    ensures ListedInv(s2)
  {
  }

  lemma ReapKeepsListed(s: State, e: Event, s2: State)
    requires ListedInv(s) && EmptyInv(s) && MembersInv(s) && RigsInv(s) && ReapStep(s, e, s2)
    ensures ListedInv(s2)
  {
  }

  lemma SwapKeepsListed(s: State, e: Event, s2: State)
    requires ListedInv(s) && SwapStep(s, e, s2)
    ensures ListedInv(s2)
  {
  }

  lemma ChangeKeepsListed(s: State, e: Event, s2: State)
    requires ListedInv(s) && ChangeStep(s, e, s2)
    ensures ListedInv(s2)
  {
  }

  lemma JoinKeepsEmpty(s: State, e: Event, s2: State)
    requires EmptyInv(s) && JoinStep(s, e, s2)
    ensures EmptyInv(s2)
  {
  }

  lemma FoundKeepsEmpty(s: State, e: Event, s2: State)
    requires EmptyInv(s) && RigsInv(s) && FoundStep(s, e, s2)
    ensures EmptyInv(s2)
  {
  }

  lemma AttachKeepsEmpty(s: State, c: ConnId)
    requires EmptyInv(s) && GatesInv(s) && RigsInv(s) && CanAttach(s, c)
    ensures EmptyInv(AfterAttach(s, c))
  {
  }

  lemma PublishKeepsEmpty(s: State, c: ConnId)
    requires EmptyInv(s) && GatesInv(s) && MembersInv(s) && RigsInv(s) && CanPublish(s, c)
    ensures EmptyInv(AfterPublish(s, c))
  {
  }

  lemma SettleKeepsEmpty(s: State, e: Event, s2: State)
    requires EmptyInv(s) && GatesInv(s) && MembersInv(s) && RigsInv(s) && SettleStep(s, e, s2)
    ensures EmptyInv(s2)
  {
    match e
    case Attach(c) => AttachKeepsEmpty(s, c);
    case Publish(c) => PublishKeepsEmpty(s, c);
    case _ =>
  }

  lemma LeaveKeepsEmpty(s: State, e: Event, s2: State)
    requires EmptyInv(s) && LeaveStep(s, e, s2)
    ensures EmptyInv(s2)
  {
  }

  lemma ReaperCloseKeepsEmpty(s: State, k: nat)
    requires EmptyInv(s) && RigsInv(s) && CanReaperClose(s, k)
    ensures EmptyInv(AfterReaperClose(s, k))
  {
  }

  lemma ReaperRemoveKeepsEmpty(s: State, k: nat)
    requires EmptyInv(s) && RigsInv(s) && CanReaperRemove(s, k)
    ensures EmptyInv(AfterReaperRemove(s, k))
  {
  }

  lemma ReapKeepsEmpty(s: State, e: Event, s2: State)
    requires EmptyInv(s) && RigsInv(s) && ReapStep(s, e, s2)
    ensures EmptyInv(s2)
  {
    match e
    case ReaperRemove(k) => ReaperRemoveKeepsEmpty(s, k);
    case ReaperClose(k) => ReaperCloseKeepsEmpty(s, k);
    case _ =>
  }

  lemma SwapKeepsEmpty(s: State, e: Event, s2: State)
    requires EmptyInv(s) && SwapStep(s, e, s2)
    ensures EmptyInv(s2)
  {
  }

  lemma ChangeKeepsEmpty(s: State, e: Event, s2: State)
    requires EmptyInv(s) && ChangeStep(s, e, s2)
    ensures EmptyInv(s2)
  {
  }

  lemma JoinKeepsTorn(s: State, e: Event, s2: State)
    requires TornInv(s) && JoinStep(s, e, s2)
    ensures TornInv(s2)
  {
  }

  lemma FoundKeepsTorn(s: State, e: Event, s2: State)
    requires TornInv(s) && RigsInv(s) && MembersInv(s) && FoundStep(s, e, s2)
    ensures TornInv(s2)
  {
  }

  lemma SettleKeepsTorn(s: State, e: Event, s2: State)
    requires TornInv(s) && MembersInv(s) && RigsInv(s) && SettleStep(s, e, s2)
    ensures TornInv(s2)
  {
  }

  lemma LeaveKeepsTorn(s: State, e: Event, s2: State)
    requires TornInv(s) && EmptyInv(s) && RigsInv(s) && LeaveStep(s, e, s2)
    ensures TornInv(s2)
  {
  }

  lemma ReapKeepsTorn(s: State, e: Event, s2: State)
    requires TornInv(s) && EmptyInv(s) && RigsInv(s) && ReapStep(s, e, s2)
    ensures TornInv(s2)
  {
  }

  lemma SwapKeepsTorn(s: State, e: Event, s2: State)
    requires TornInv(s) && SwapStep(s, e, s2)
    ensures TornInv(s2)
  {
  }

  lemma ChangeKeepsTorn(s: State, e: Event, s2: State)
    requires TornInv(s) && ChangeStep(s, e, s2)
    ensures TornInv(s2)
  {
  }

  lemma JoinKeepsSwitch(s: State, e: Event, s2: State)
    requires SwitchInv(s) && JoinStep(s, e, s2)
    ensures SwitchInv(s2)
  {
  }

  lemma FoundKeepsSwitch(s: State, e: Event, s2: State)
    requires SwitchInv(s) && RigsInv(s) && FoundStep(s, e, s2)
    ensures SwitchInv(s2)
  {
  }

  lemma SettleKeepsSwitch(s: State, e: Event, s2: State)
    requires SwitchInv(s) && SettleStep(s, e, s2)
    ensures SwitchInv(s2)
  {
  }

  lemma LeaveKeepsSwitch(s: State, e: Event, s2: State)
    requires SwitchInv(s) && LeaveStep(s, e, s2)
    ensures SwitchInv(s2)
  {
  }

  lemma ReapKeepsSwitch(s: State, e: Event, s2: State)
    requires SwitchInv(s) && ReapStep(s, e, s2)
    ensures SwitchInv(s2)
  {
  }

  lemma SwapKeepsSwitch(s: State, e: Event, s2: State)
    requires SwitchInv(s) && SwapStep(s, e, s2)
    ensures SwitchInv(s2)
  {
  }

  lemma ChangeKeepsSwitch(s: State, e: Event, s2: State)
    requires SwitchInv(s) && ChangeStep(s, e, s2)
    ensures SwitchInv(s2)
  {
  }

  lemma JoinKeepsWakeup(s: State, e: Event, s2: State)
    requires WakeupInv(s) && JoinStep(s, e, s2)
    ensures WakeupInv(s2)
  {
  }

  lemma FoundKeepsWakeup(s: State, e: Event, s2: State)
    requires WakeupInv(s) && RigsInv(s) && FoundStep(s, e, s2)
    ensures WakeupInv(s2)
  {
  }

  lemma SettleKeepsWakeup(s: State, e: Event, s2: State)
    requires WakeupInv(s) && SettleStep(s, e, s2)
    ensures WakeupInv(s2)
  {
  }

  lemma LeaveKeepsWakeup(s: State, e: Event, s2: State)
    requires WakeupInv(s) && LeaveStep(s, e, s2)
    ensures WakeupInv(s2)
  {
  }

  lemma ReapKeepsWakeup(s: State, e: Event, s2: State)
    requires WakeupInv(s) && ReapStep(s, e, s2)
    ensures WakeupInv(s2)
  {
  }

  lemma SwapKeepsWakeup(s: State, e: Event, s2: State)
    requires WakeupInv(s) && SwapStep(s, e, s2)
    ensures WakeupInv(s2)
  {
  }

  lemma ChangeKeepsWakeup(s: State, e: Event, s2: State)
    requires WakeupInv(s) && RigsInv(s) && ListedInv(s) && ChangeStep(s, e, s2)
    ensures WakeupInv(s2)
  {
  }

  /** A step that empties no rig, and stops no leaver and no waiting reaper of an empty one. */
  ghost predicate KeepsCover(s: State, s2: State) {
    && (forall r | EmptyRig(s2, r) :: EmptyRig(s, r))
    && (forall c, r | LeaverActs(s, c, r) && EmptyRig(s2, r) :: LeaverActs(s2, c, r))
    && (forall k, r | ReaperWaits(s, k, r) && EmptyRig(s2, r) :: ReaperWaits(s2, k, r))
  }

  lemma CoverKept(s: State, s2: State)
    requires CoveredInv(s) && KeepsCover(s, s2)
    ensures CoveredInv(s2)
  {
    forall r | EmptyRig(s2, r) ensures Covered(s2, r) {
      if c :| LeaverActs(s, c, r) {
        assert LeaverActs(s2, c, r);
      } else {
        var k :| ReaperWaits(s, k, r);
        assert ReaperWaits(s2, k, r);
      }
    }
  }

  lemma JoinKeepsCover(s: State, e: Event, s2: State)
    requires JoinStep(s, e, s2)
    ensures KeepsCover(s, s2)
  {
    assert s2.rigs == s.rigs && s2.torn == s.torn && s2.reapers == s.reapers;
  }

  lemma FoundKeepsCover(s: State, e: Event, s2: State)
    requires FoundStep(s, e, s2)
    ensures KeepsCover(s, s2)
  {
  }

  lemma SettleKeepsCover(s: State, e: Event, s2: State)
    requires SettleStep(s, e, s2)
    ensures KeepsCover(s, s2)
  {
  }

  lemma ReapKeepsCover(s: State, e: Event, s2: State)
    requires ReapStep(s, e, s2)
    ensures KeepsCover(s, s2)
  {
  }

  lemma SwapKeepsCover(s: State, e: Event, s2: State)
    requires SwapStep(s, e, s2)
    ensures KeepsCover(s, s2)
  {
  }

  lemma ChangeKeepsCover(s: State, e: Event, s2: State)
    requires ChangeStep(s, e, s2)
    ensures KeepsCover(s, s2)
  {
  }

  /** A leaver hands an empty rig on, from its detach to its mark to the reaper it spawns. */
  lemma LeaveKeepsCovered(s: State, e: Event, s2: State)
    requires CoveredInv(s) && LeaveStep(s, e, s2)
    ensures CoveredInv(s2)
  {
    var rig := s.conns[e.c].phase.rig;
    forall r | EmptyRig(s2, r) ensures Covered(s2, r) {
      if r == rig && !e.Close? {
        assert if e.Mark? then ReaperWaits(s2, e.reaper, r) else LeaverActs(s2, e.c, r);
      } else {
        assert EmptyRig(s, r);
        assert forall c :: LeaverActs(s, c, r) ==> LeaverActs(s2, c, r);
        assert forall k :: ReaperWaits(s, k, r) ==> ReaperWaits(s2, k, r);
      }
    }
  }

  lemma JoinKeepsInv(s: State, e: Event, s2: State)
    requires Inv(s) && JoinStep(s, e, s2)
    ensures Inv(s2)
  {
    JoinKeepsGates(s, e, s2);
    JoinKeepsRigs(s, e, s2);
    JoinKeepsMembers(s, e, s2);
    JoinKeepsListed(s, e, s2);
    JoinKeepsEmpty(s, e, s2);
    JoinKeepsTorn(s, e, s2);
    JoinKeepsSwitch(s, e, s2);
    JoinKeepsWakeup(s, e, s2);
    JoinKeepsCover(s, e, s2);
    CoverKept(s, s2);
  }

  lemma FoundKeepsInv(s: State, e: Event, s2: State)
    requires Inv(s) && FoundStep(s, e, s2)
    ensures Inv(s2)
  {
    FoundKeepsGates(s, e, s2);
    FoundKeepsRigs(s, e, s2);
    FoundKeepsMembers(s, e, s2);
    FoundKeepsListed(s, e, s2);
    FoundKeepsEmpty(s, e, s2);
    FoundKeepsTorn(s, e, s2);
    FoundKeepsSwitch(s, e, s2);
    FoundKeepsWakeup(s, e, s2);
    FoundKeepsCover(s, e, s2);
    CoverKept(s, s2);
  }

  lemma SettleKeepsInv(s: State, e: Event, s2: State)
    requires Inv(s) && SettleStep(s, e, s2)
    ensures Inv(s2)
  {
    SettleKeepsGates(s, e, s2);
    SettleKeepsRigs(s, e, s2);
    SettleKeepsMembers(s, e, s2);
    SettleKeepsListed(s, e, s2);
    SettleKeepsEmpty(s, e, s2);
    SettleKeepsTorn(s, e, s2);
    SettleKeepsSwitch(s, e, s2);
    SettleKeepsWakeup(s, e, s2);
    SettleKeepsCover(s, e, s2);
    CoverKept(s, s2);
  }

  lemma LeaveKeepsInv(s: State, e: Event, s2: State)
    requires Inv(s) && LeaveStep(s, e, s2)
    ensures Inv(s2)
  {
    LeaveKeepsGates(s, e, s2);
    LeaveKeepsRigs(s, e, s2);
    LeaveKeepsMembers(s, e, s2);
    LeaveKeepsListed(s, e, s2);
    LeaveKeepsEmpty(s, e, s2);
    LeaveKeepsTorn(s, e, s2);
    LeaveKeepsSwitch(s, e, s2);
    LeaveKeepsWakeup(s, e, s2);
    LeaveKeepsCovered(s, e, s2);
  }

  lemma ReapKeepsInv(s: State, e: Event, s2: State)
    requires Inv(s) && ReapStep(s, e, s2)
    ensures Inv(s2)
  {
    ReapKeepsGates(s, e, s2);
    ReapKeepsRigs(s, e, s2);
    ReapKeepsMembers(s, e, s2);
    ReapKeepsListed(s, e, s2);
    ReapKeepsEmpty(s, e, s2);
    ReapKeepsTorn(s, e, s2);
    ReapKeepsSwitch(s, e, s2);
    ReapKeepsWakeup(s, e, s2);
    ReapKeepsCover(s, e, s2);
    CoverKept(s, s2);
  }

  lemma SwapKeepsInv(s: State, e: Event, s2: State)
    requires Inv(s) && SwapStep(s, e, s2)
    ensures Inv(s2)
  {
    SwapKeepsGates(s, e, s2);
    SwapKeepsRigs(s, e, s2);
    SwapKeepsMembers(s, e, s2);
    SwapKeepsListed(s, e, s2);
    SwapKeepsEmpty(s, e, s2);
    SwapKeepsTorn(s, e, s2);
    SwapKeepsSwitch(s, e, s2);
    SwapKeepsWakeup(s, e, s2);
    SwapKeepsCover(s, e, s2);
    CoverKept(s, s2);
  }

  lemma ChangeKeepsInv(s: State, e: Event, s2: State)
    requires Inv(s) && ChangeStep(s, e, s2)
    ensures Inv(s2)
  {
    ChangeKeepsGates(s, e, s2);
    ChangeKeepsRigs(s, e, s2);
    ChangeKeepsMembers(s, e, s2);
    ChangeKeepsListed(s, e, s2);
    ChangeKeepsEmpty(s, e, s2);
    ChangeKeepsTorn(s, e, s2);
    ChangeKeepsSwitch(s, e, s2);
    ChangeKeepsWakeup(s, e, s2);
    ChangeKeepsCover(s, e, s2);
    CoverKept(s, s2);
  }

  lemma StepKeepsInv(s: State, e: Event, s2: State)
    requires Inv(s) && Step(s, e, s2)
    ensures Inv(s2)
  {
    if JoinStep(s, e, s2) {
      JoinKeepsInv(s, e, s2);
    } else if FoundStep(s, e, s2) {
      FoundKeepsInv(s, e, s2);
    } else if SettleStep(s, e, s2) {
      SettleKeepsInv(s, e, s2);
    } else if LeaveStep(s, e, s2) {
      LeaveKeepsInv(s, e, s2);
    } else if ReapStep(s, e, s2) {
      ReapKeepsInv(s, e, s2);
    } else if SwapStep(s, e, s2) {
      SwapKeepsInv(s, e, s2);
    } else {
      ChangeKeepsInv(s, e, s2);
    }
  }
}
