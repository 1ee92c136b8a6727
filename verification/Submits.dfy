/** The submits an SV1 miner has waiting on an SV2 pool (`Sv2UpState`, `drain_acked` and
    `remove_seq` in `src/proto/relay.rs`): a queue in the order of submission, answered by an
    acknowledgement up to a sequence number or by an error for one. */
module Submits {
  import opened Options
  import opened Wire

  /** The miner's own id of a submit, if it gave one. */
  type SubmitId = Option<string>

  datatype Waiting = Waiting(seqNo: nat, id: SubmitId)

  const MAX_JOB_VERSIONS := 64

  /** How many entries at the front an acknowledgement up to `last` takes. */
  function Acked(q: seq<Waiting>, last: nat): (k: nat)
    ensures k <= |q|
    ensures forall i | 0 <= i < k :: q[i].seqNo <= last
    ensures k < |q| ==> q[k].seqNo > last
  {
    if q == [] || q[0].seqNo > last then 0 else 1 + Acked(q[1..], last)
  }

  /** Where the first entry for a sequence number is; the length if there is none. */
  function Position(q: seq<Waiting>, seqNo: nat): (k: nat)
    ensures k <= |q|
    ensures k < |q| ==> q[k].seqNo == seqNo
    ensures forall i | 0 <= i < k :: q[i].seqNo != seqNo
  {
    if q == [] || q[0].seqNo == seqNo then 0 else 1 + Position(q[1..], seqNo)
  }

  function Ids(q: seq<Waiting>): seq<SubmitId> {
    seq(|q|, i requires 0 <= i < |q| => q[i].id)
  }

  class Sv2UpState {
    var channelId: nat
    var nextSeq: nat
    var latestVersion: nat
    var jobVersions: map<nat, nat>
    var pendingSubmits: seq<Waiting>

    ghost predicate Valid()
      reads this
    {
      nextSeq < U32 && |jobVersions| <= MAX_JOB_VERSIONS
    }

    constructor (channelId: nat)
      ensures Valid() && this.channelId == channelId && nextSeq == 0 && pendingSubmits == [] && jobVersions == map[]
    {
      this.channelId, nextSeq, latestVersion, jobVersions, pendingSubmits := channelId, 0, 0, map[], [];
    }

    /** A job of the pool: remember its version, forgetting all others once there are 64. */
    method OnJob(job: nat, version: nat)
      requires Valid()
      modifies this`jobVersions, this`latestVersion
      ensures Valid() && latestVersion == version
      ensures jobVersions ==
              if |old(jobVersions)| >= 64 then map[job := version] else old(jobVersions)[job := version]
    {
      if |jobVersions| >= MAX_JOB_VERSIONS {
        jobVersions := map[];
      }
      ghost var before := jobVersions;
      jobVersions := jobVersions[job := version];
      assert jobVersions.Keys == before.Keys + {job};
      latestVersion := version;
    }

    /** A submit of the miner: the sequence number it gets, and the version of its job or else
        of the latest one. */
    method Submit(id: SubmitId, job: Option<nat>) returns (seqNo: nat, version: nat)
      requires Valid()
      modifies this`nextSeq, this`pendingSubmits
      ensures Valid() && seqNo == old(nextSeq) && nextSeq == (old(nextSeq) + 1) % U32
      ensures pendingSubmits == old(pendingSubmits) + [Waiting(seqNo, id)]
      ensures version == if job.Some? && job.value in jobVersions then jobVersions[job.value] else latestVersion
    {
      seqNo := nextSeq;
      nextSeq := (nextSeq + 1) % U32;
      version := latestVersion;
      if job.Some? && job.value in jobVersions {
        version := jobVersions[job.value];
      }
      pendingSubmits := pendingSubmits + [Waiting(seqNo, id)];
    }

    /** Pop from the front as long as the sequence number is acknowledged. */
    method DrainAcked(last: nat) returns (out: seq<SubmitId>)
      modifies this`pendingSubmits
      ensures var k := Acked(old(pendingSubmits), last);
              pendingSubmits == old(pendingSubmits)[k..] && out == Ids(old(pendingSubmits)[..k])
    {
      ghost var q := pendingSubmits;
      ghost var done: nat := 0;
      out := [];
      while pendingSubmits != [] && pendingSubmits[0].seqNo <= last
        invariant done <= |q| && pendingSubmits == q[done..] && out == Ids(q[..done])
        invariant done + Acked(q[done..], last) == Acked(q, last)
        decreases |pendingSubmits|
      {
        assert q[done..][1..] == q[done + 1..];
        assert Ids(q[..done + 1]) == Ids(q[..done]) + [q[done].id];
        out := out + [pendingSubmits[0].id];
        pendingSubmits := pendingSubmits[1..];
        done := done + 1;
      }
    }

    /** Take out the entry of a rejected share. */
    method RemoveSeq(seqNo: nat) returns (id: Option<SubmitId>)
      modifies this`pendingSubmits
      ensures var q, k := old(pendingSubmits), Position(old(pendingSubmits), seqNo);
              if k == |q| then pendingSubmits == q && id == None
              else pendingSubmits == q[..k] + q[k + 1..] && id == Some(q[k].id)
    {
      ghost var q := pendingSubmits;
      var k := 0;
      while k < |pendingSubmits| && pendingSubmits[k].seqNo != seqNo
        invariant k <= |pendingSubmits| && pendingSubmits == q
        invariant k + Position(q[k..], seqNo) == Position(q, seqNo)
      {
        assert q[k..][1..] == q[k + 1..];
        k := k + 1;
      }
      if k == |pendingSubmits| {
        return None;
      }
      id := Some(pendingSubmits[k].id);
      pendingSubmits := pendingSubmits[..k] + pendingSubmits[k + 1..];
    }
  }

  // --- what a drain takes ---

  ghost predicate Ascending(q: seq<Waiting>) {
    forall i, j | 0 <= i < j < |q| :: q[i].seqNo < q[j].seqNo
  }

  /** A drain takes exactly the entries up to `last` if and only if none of them waits behind a
      later one. */
  lemma DrainIsExactIff(q: seq<Waiting>, last: nat)
    ensures (forall i | 0 <= i < |q| :: i < Acked(q, last) <==> q[i].seqNo <= last) <==>
            (forall i, j | 0 <= i < j < |q| && q[i].seqNo > last :: q[j].seqNo > last)
  {
    var k := Acked(q, last);
    if forall i, j | 0 <= i < j < |q| && q[i].seqNo > last :: q[j].seqNo > last {
      forall i | 0 <= i < |q| ensures i < k <==> q[i].seqNo <= last {
        if i > k {
          assert q[k].seqNo > last;
        }
      }
    }
  }

  /** On an ascending queue it always does, and what stays is ascending again. */
  lemma DrainIsExact(q: seq<Waiting>, last: nat)
    requires Ascending(q)
    ensures forall i | 0 <= i < |q| :: i < Acked(q, last) <==> q[i].seqNo <= last
    ensures Ascending(q[Acked(q, last)..])
  {
    DrainIsExactIff(q, last);
  }

  // --- over whole runs ---

  datatype Event =
    | SubmitShare(id: SubmitId)
    | Success(last: nat)
    | Rejected(seqNo: nat)

  /** `numbers` counts the waiting submits from the first one ever made; `answered` lists the
      numbers of those that got a result, with the result. */
  datatype State = State(queue: seq<Waiting>, numbers: seq<nat>, made: nat, answered: seq<(nat, bool)>)

  function Answers(numbers: seq<nat>, ok: bool): seq<(nat, bool)> {
    seq(|numbers|, i requires 0 <= i < |numbers| => (numbers[i], ok))
  }

  function Apply(s: State, e: Event): State
    requires |s.numbers| == |s.queue|
  {
    match e
    case SubmitShare(id) =>
      s.(queue := s.queue + [Waiting(s.made % U32, id)], numbers := s.numbers + [s.made], made := s.made + 1)
    case Success(last) =>
      var k := Acked(s.queue, last);
      s.(queue := s.queue[k..], numbers := s.numbers[k..], answered := s.answered + Answers(s.numbers[..k], true))
    case Rejected(seqNo) =>
      var k := Position(s.queue, seqNo);
      if k == |s.queue| then s
      else
        s.(queue := s.queue[..k] + s.queue[k + 1..], numbers := s.numbers[..k] + s.numbers[k + 1..],
           answered := s.answered + [(s.numbers[k], false)])
  }

  ghost predicate Numbered(s: State) {
    && |s.numbers| == |s.queue|
    && (forall i | 0 <= i < |s.queue| :: s.queue[i].seqNo == s.numbers[i] % U32 && s.numbers[i] < s.made)
    && (forall i, j | 0 <= i < j < |s.numbers| :: s.numbers[i] < s.numbers[j])
  }

  ghost predicate OnceInv(s: State) {
    && (forall a | 0 <= a < |s.answered| :: s.answered[a].0 < s.made && s.answered[a].0 !in s.numbers)
    && (forall a, b | 0 <= a < b < |s.answered| :: s.answered[a].0 != s.answered[b].0)
  }

  lemma SubmitKeepsNumbered(s: State, id: SubmitId)
    requires Numbered(s)
    ensures Numbered(Apply(s, SubmitShare(id)))
  {
  }

  lemma SuccessKeepsNumbered(s: State, last: nat)
    requires Numbered(s)
    ensures Numbered(Apply(s, Success(last)))
  {
    PartIsNumbered(s, s.queue[Acked(s.queue, last)..], s.numbers[Acked(s.queue, last)..], Acked(s.queue, last), 0);
  }

  lemma RejectedKeepsNumbered(s: State, seqNo: nat)
    requires Numbered(s)
    ensures Numbered(Apply(s, Rejected(seqNo)))
  {
    var k := Position(s.queue, seqNo);
    if k < |s.queue| {
      PartIsNumbered(s, s.queue[..k] + s.queue[k + 1..], s.numbers[..k] + s.numbers[k + 1..], 1, k);
    }
  }

  /** Leaving out some entries from `cut` on keeps the others numbered. */
  lemma PartIsNumbered(s: State, queue: seq<Waiting>, numbers: seq<nat>, out: nat, cut: nat)
    requires Numbered(s) && |queue| == |numbers| && |queue| + out == |s.queue| && cut <= |queue|
    requires forall i | 0 <= i < cut :: queue[i] == s.queue[i] && numbers[i] == s.numbers[i]
    requires forall i | cut <= i < |queue| :: queue[i] == s.queue[i + out] && numbers[i] == s.numbers[i + out]
    ensures Numbered(s.(queue := queue, numbers := numbers))
  {
  }

  lemma StepKeepsNumbered(s: State, e: Event)
    requires Numbered(s)
    ensures Numbered(Apply(s, e))
  {
    match e
    case SubmitShare(id) => SubmitKeepsNumbered(s, id);
    case Success(last) => SuccessKeepsNumbered(s, last);
    case Rejected(seqNo) => RejectedKeepsNumbered(s, seqNo);
  }

  lemma SuccessKeepsOnce(s: State, last: nat)
    requires Numbered(s) && OnceInv(s)
    ensures OnceInv(Apply(s, Success(last)))
  {
    var k, t := Acked(s.queue, last), Apply(s, Success(last));
    forall a | 0 <= a < |t.answered| ensures t.answered[a].0 < t.made && t.answered[a].0 !in t.numbers {
      if a >= |s.answered| {
        assert t.answered[a].0 == s.numbers[a - |s.answered|];
      }
    }
    forall a, b | 0 <= a < b < |t.answered| ensures t.answered[a].0 != t.answered[b].0 {
      if b >= |s.answered| {
        assert t.answered[b].0 == s.numbers[b - |s.answered|];
      }
    }
  }

  lemma RejectedKeepsOnce(s: State, seqNo: nat)
    requires Numbered(s) && OnceInv(s)
    ensures OnceInv(Apply(s, Rejected(seqNo)))
  {
    var k, t := Position(s.queue, seqNo), Apply(s, Rejected(seqNo));
    forall n | n in t.numbers ensures n in s.numbers && (k < |s.queue| ==> n != s.numbers[k]) {
    }
  }

  ghost predicate Stepped(ss: seq<State>, es: seq<Event>, i: nat)
    requires |ss| == |es| + 1 && i < |es|
  {
    |ss[i].numbers| == |ss[i].queue| && ss[i + 1] == Apply(ss[i], es[i])
  }

  ghost predicate Run(ss: seq<State>, es: seq<Event>) {
    |ss| == |es| + 1 && ss[0] == State([], [], 0, []) && forall i: nat | i < |es| :: Stepped(ss, es, i)
  }

  lemma {:induction false} RunInv(ss: seq<State>, es: seq<Event>, n: nat)
    requires Run(ss, es) && n < |ss|
    ensures Numbered(ss[n]) && OnceInv(ss[n])
  {
    if n > 0 {
      RunInv(ss, es, n - 1);
      assert Stepped(ss, es, n - 1);
      StepKeepsNumbered(ss[n - 1], es[n - 1]);
      match es[n - 1]
      case SubmitShare(_) =>
      case Success(last) => SuccessKeepsOnce(ss[n - 1], last);
      case Rejected(seqNo) => RejectedKeepsOnce(ss[n - 1], seqNo);
    }
  }

  /** Every submit gets at most one result, whatever the pool sends and even across a wrap of
      the sequence counter. */
  lemma AnsweredAtMostOnce(ss: seq<State>, es: seq<Event>, n: nat, a: nat, b: nat)
    requires Run(ss, es) && n < |ss| && a < b < |ss[n].answered|
    ensures ss[n].answered[a].0 != ss[n].answered[b].0
    ensures ss[n].answered[a].0 !in ss[n].numbers
  {
    RunInv(ss, es, n);
  }

  /** Until the counter wraps the queue is ascending, so an acknowledgement answers exactly the
      waiting submits up to its sequence number, in the order they were made. */
  lemma SuccessAnswersExactly(ss: seq<State>, es: seq<Event>, n: nat, last: nat)
    requires Run(ss, es) && n < |es| && es[n] == Success(last) && ss[n].made <= U32
    ensures Numbered(ss[n]) && Ascending(ss[n].queue)
    ensures var k := Acked(ss[n].queue, last);
            && ss[n + 1].answered == ss[n].answered + Answers(ss[n].numbers[..k], true)
            && (forall i | 0 <= i < |ss[n].numbers| :: ss[n].numbers[i] <= last <==> i < k)
            && (forall m | m in ss[n].numbers :: m in ss[n + 1].numbers <==> m > last)
  {
    RunInv(ss, es, n);
    assert Stepped(ss, es, n);
    var s, k := ss[n], Acked(ss[n].queue, last);
    forall i | 0 <= i < |s.queue| ensures s.queue[i].seqNo == s.numbers[i] {
    }
    DrainIsExact(s.queue, last);
    forall m | m in s.numbers ensures m in ss[n + 1].numbers <==> m > last {
      var i :| 0 <= i < |s.numbers| && s.numbers[i] == m;
      assert i >= k ==> ss[n + 1].numbers[i - k] == m;
    }
  }

  /** Until then a rejection answers exactly the submit with its number, if that one waits. */
  lemma RejectedAnswersExactly(ss: seq<State>, es: seq<Event>, n: nat, seqNo: nat)
    requires Run(ss, es) && n < |es| && es[n] == Rejected(seqNo) && ss[n].made <= U32
    ensures ss[n + 1].answered == ss[n].answered + if seqNo in ss[n].numbers then [(seqNo, false)] else []
    ensures forall m :: m in ss[n + 1].numbers <==> m in ss[n].numbers && m != seqNo
  {
    RunInv(ss, es, n);
    assert Stepped(ss, es, n);
    var s, k := ss[n], Position(ss[n].queue, seqNo);
    forall i | 0 <= i < |s.queue| ensures s.queue[i].seqNo == s.numbers[i] {
    }
    if k < |s.queue| {
      assert s.numbers == s.numbers[..k] + [s.numbers[k]] + s.numbers[k + 1..];
    }
  }

  lemma Extend(ss: seq<State>, es: seq<Event>, e: Event) returns (ts: seq<State>, fs: seq<Event>)
    requires Run(ss, es)
    ensures Run(ts, fs) && |fs| == |es| + 1 && Numbered(ss[|es|]) && ts[|fs|] == Apply(ss[|es|], e)
    ensures ts[|es|] == ss[|es|] && fs[|es|] == e
  {
    RunInv(ss, es, |es|);
    ts, fs := ss + [Apply(ss[|es|], e)], es + [e];
    forall i: nat | i < |fs| ensures Stepped(ts, fs, i) {
      if i < |es| {
        assert Stepped(ss, es, i);
      }
    }
  }

  lemma AcknowledgedAtOnce(s: State)
    requires s.queue == [] && s.numbers == [] && s.made < U32
    ensures var t := Apply(s, SubmitShare(None));
            && |t.numbers| == |t.queue|
            && var u := Apply(t, Success(s.made)); u.queue == [] && u.numbers == [] && u.made == s.made + 1
  {
    SmallNumber(s.made);
    assert Acked([Waiting(s.made, None)], s.made) == 1;
  }

  /** A run in which n submits were made and each was acknowledged at once. */
  lemma {:induction false} AllAcknowledged(n: nat) returns (ss: seq<State>, es: seq<Event>)
    requires n < U32
    ensures Run(ss, es) && ss[|es|].queue == [] && ss[|es|].numbers == [] && ss[|es|].made == n
  {
    if n == 0 {
      ss, es := [State([], [], 0, [])], [];
    } else {
      ss, es := AllAcknowledged(n - 1);
      AcknowledgedAtOnce(ss[|es|]);
      ss, es := Extend(ss, es, SubmitShare(None));
      ss, es := Extend(ss, es, Success(n - 1));
    }
  }

  lemma SmallNumber(n: nat)
    requires n < U32
    ensures n % U32 == n
  {
  }

  /** Past the wrap it need not: a run in which two submits wait on both sides of it, and an
      acknowledgement of the newer one answers neither. */
  lemma WrappedQueueMissesOne() returns (ss: seq<State>, es: seq<Event>, n: nat)
    ensures Run(ss, es) && n + 1 == |es| && es[n] == Success(0)
    ensures ss[n].queue == [Waiting(U32 - 1, None), Waiting(0, None)]
    ensures ss[n + 1].queue == ss[n].queue && ss[n + 1].answered == ss[n].answered
  {
    ss, es := AllAcknowledged(U32 - 1);
    SmallNumber(U32 - 1);
    ss, es := Extend(ss, es, SubmitShare(None));
    ss, es := Extend(ss, es, SubmitShare(None));
    n := |es|;
    ss, es := Extend(ss, es, Success(0));
  }
}
