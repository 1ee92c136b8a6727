/** What holds over every run of a translated connection: its pool's notifies and answers and its
    miner's shares, in any order. */
module TranslatorTheorems {
  import opened Bytes
  import opened Options
  import opened Wire
  import opened Translator

  /** `converts` is whether a notify makes a well-formed job, or a share a well-formed submit. */
  datatype Event =
    | Notified(notify: Notify, converts: bool)
    | Shared(share: Share, converts: bool)
    | Answered(id: nat)

  /** A job as it was built: its notify, the SV2 id it got and the extranonce2 it was built with. */
  datatype Built = Built(notify: Notify, id: nat, extranonce2: Option<seq<byte>>)

  /** `built` are the jobs built so far, the first `forgotten` of which are no longer known;
      `frames` what they were announced with to the miner; `sent` the sequence numbers of the
      shares that took a submit id, in the order of those; `answers` the submit ids answered,
      with the sequence number the answer went to. */
  datatype World = World(
    t: TranslatorState, built: seq<Built>, forgotten: nat, frames: seq<Sv2Frame>, sent: seq<nat>,
    answers: seq<(nat, nat)>)

  function AfterNotify(w: World, notify: Notify, converts: bool): World {
    var (t, id, asFuture) := OnNotify(w.t, notify);
    w.(t := t, frames := w.frames + Announced(notify, id, asFuture, t.jobs[id].extranonce2, converts),
       built := w.built + [Built(notify, id, t.jobs[id].extranonce2)],
       forgotten := if |w.t.jobs| >= MAX_JOBS then |w.built| else w.forgotten)
  }

  function AfterShare(w: World, share: Share): World {
    w.(t := OnShare(w.t, share), sent := if RollOf(w.t, share).None? then w.sent else w.sent + [share.seqNo])
  }

  function AfterAnswer(w: World, id: nat): World {
    var (t, seqNo) := OnResponse(w.t, id);
    w.(t := t, answers := if seqNo.Some? then w.answers + [(id, seqNo.value)] else w.answers)
  }

  function Apply(w: World, e: Event): World {
    match e
    case Notified(notify, converts) => AfterNotify(w, notify, converts)
    case Shared(share, _) => AfterShare(w, share)
    case Answered(id) => AfterAnswer(w, id)
  }

  /** The SV2 id of the n-th job built, and the extranonce2 it is built with. */
  function JobId(n: nat): nat {
    (n + 1) % U32
  }

  function RollAt(t: TranslatorState, n: nat): Option<seq<byte>> {
    if t.extended then None else Some(Extranonce2(n % U64, t.extranonce2Size))
  }

  /** Jobs are numbered and rolled one after the other. */
  ghost predicate NumberedInv(w: World) {
    && w.t.nextJobId == JobId(|w.built|)
    && (!w.t.extended ==> w.t.nextExtranonce2 == |w.built| % U64)
    && (forall n | 0 <= n < |w.built| :: w.built[n].id == JobId(n) && w.built[n].extranonce2 == RollAt(w.t, n))
    && (w.t.firstJobSent <==> w.built != [])
  }

  function InfoOf(b: Built): JobInfo {
    JobInfo(b.notify.jobId, b.extranonce2)
  }

  ghost predicate KnownFrom(jobs: map<nat, JobInfo>, built: seq<Built>, from: nat) {
    && (forall n | from <= n < |built| :: built[n].id in jobs && jobs[built[n].id] == InfoOf(built[n]))
    && (forall j | j in jobs :: exists n :: from <= n < |built| && built[n].id == j)
  }

  /** The known jobs are exactly the latest ones built, at most 64 of them, each under its id. */
  ghost predicate KnownInv(w: World) {
    && w.forgotten <= |w.built| && |w.built| - w.forgotten == |w.t.jobs| <= MAX_JOBS
    && KnownFrom(w.t.jobs, w.built, w.forgotten)
  }

  /** A submit waiting for its answer knows its own share's number; an answered one is gone. */
  ghost predicate SubmitsInv(w: World) {
    w.t.nextSubmitId == |w.sent| + 1 && OwnAnswers(w.t.submitSeq, w.sent, w.answers)
  }

  /** Ids repeat only after the whole 32-bit range. */
  lemma NearIdsDiffer(m: nat, n: nat)
    requires m < n < m + 0x1_0000_0000
    ensures JobId(m) != JobId(n)
  {
    SameResidue(m + 1, n + 1, U32);
  }

  lemma NextIs(n: nat)
    ensures (JobId(n) + 1) % U32 == JobId(n + 1)
  {
    var k := n + 1;
    assert (k % 0x1_0000_0000 + 1) % 0x1_0000_0000 == (k + 1) % 0x1_0000_0000;
  }

  lemma NextRollIs(n: nat)
    ensures (n % U64 + 1) % U64 == (n + 1) % U64
  {
    assert (n % 0x1_0000_0000_0000_0000 + 1) % 0x1_0000_0000_0000_0000 == (n + 1) % 0x1_0000_0000_0000_0000;
  }

  lemma NotifyKeepsNumbered(w: World, notify: Notify, converts: bool)
    requires NumberedInv(w)
    ensures NumberedInv(AfterNotify(w, notify, converts))
  {
    NextIs(|w.built|);
    NextRollIs(|w.built|);
  }

  /** One more job under an id that is not taken. */
  lemma KnownGrows(jobs: map<nat, JobInfo>, built: seq<Built>, from: nat, b: Built)
    requires from <= |built| && KnownFrom(jobs, built, from) && b.id !in jobs
    ensures KnownFrom(jobs[b.id := InfoOf(b)], built + [b], from)
    ensures |jobs[b.id := InfoOf(b)]| == |jobs| + 1
  {
    var more, now := jobs[b.id := InfoOf(b)], built + [b];
    assert more.Keys == jobs.Keys + {b.id};
    forall j | j in more ensures exists n :: from <= n < |now| && now[n].id == j {
      if j == b.id {
        assert now[|built|].id == j;
      } else {
        var n :| from <= n < |built| && built[n].id == j;
        assert now[n].id == j;
      }
    }
  }

  lemma NotifyKeepsKnown(w: World, notify: Notify, converts: bool)
    requires NumberedInv(w) && KnownInv(w)
    ensures KnownInv(AfterNotify(w, notify, converts))
  {
    var v := AfterNotify(w, notify, converts);
    var b := v.built[|w.built|];
    var kept := if |w.t.jobs| >= MAX_JOBS then map[] else w.t.jobs;
    if b.id in kept {
      var n :| w.forgotten <= n < |w.built| && w.built[n].id == b.id;
      NearIdsDiffer(n, |w.built|);
    }
    KnownGrows(kept, w.built, v.forgotten, b);
  }

  lemma ShareKeepsSubmits(w: World, share: Share)
    requires SubmitsInv(w)
    ensures SubmitsInv(AfterShare(w, share))
  {
  }

  lemma AnswerKeepsSubmits(w: World, id: nat)
    requires SubmitsInv(w)
    ensures SubmitsInv(AfterAnswer(w, id))
  {
    if id in w.t.submitSeq {
      AnsweredOnce(w.t.submitSeq, w.sent, w.answers, id);
    }
  }

  ghost predicate OwnAnswers(waiting: map<nat, nat>, sent: seq<nat>, answers: seq<(nat, nat)>) {
    && (forall id | id in waiting :: 1 <= id <= |sent| && waiting[id] == sent[id - 1])
    && (forall a | 0 <= a < |answers| :: 1 <= answers[a].0 <= |sent| &&
          answers[a].1 == sent[answers[a].0 - 1] && answers[a].0 !in waiting)
    && (forall a, b | 0 <= a < b < |answers| :: answers[a].0 != answers[b].0)
  }

  lemma AnsweredOnce(waiting: map<nat, nat>, sent: seq<nat>, answers: seq<(nat, nat)>, id: nat)
    requires OwnAnswers(waiting, sent, answers) && id in waiting
    ensures OwnAnswers(waiting - {id}, sent, answers + [(id, waiting[id])])
  {
  }

  lemma StepKeepsInv(w: World, e: Event)
    requires NumberedInv(w) && KnownInv(w) && SubmitsInv(w)
    ensures NumberedInv(Apply(w, e)) && KnownInv(Apply(w, e)) && SubmitsInv(Apply(w, e))
  {
    match e
    case Notified(notify, converts) =>
      NotifyKeepsNumbered(w, notify, converts);
      NotifyKeepsKnown(w, notify, converts);
    case Shared(share, _) => ShareKeepsSubmits(w, share);
    case Answered(id) => AnswerKeepsSubmits(w, id);
  }

  ghost predicate Stepped(ws: seq<World>, es: seq<Event>, i: nat)
    requires |ws| == |es| + 1 && i < |es|
  {
    ws[i + 1] == Apply(ws[i], es[i])
  }

  ghost predicate Run(ws: seq<World>, es: seq<Event>) {
    && |ws| == |es| + 1
    && (exists mask, user, extended, size ::
          ws[0] == World(FreshTranslator(mask, user, extended, size), [], 0, [], [], []))
    && forall i: nat | i < |es| :: Stepped(ws, es, i)
  }

  lemma {:induction false} RunInv(ws: seq<World>, es: seq<Event>, n: nat)
    requires Run(ws, es) && n < |ws|
    ensures NumberedInv(ws[n]) && KnownInv(ws[n]) && SubmitsInv(ws[n])
  {
    if n > 0 {
      RunInv(ws, es, n - 1);
      assert Stepped(ws, es, n - 1);
      StepKeepsInv(ws[n - 1], es[n - 1]);
    }
  }

  lemma {:induction false} SettingsStay(ws: seq<World>, es: seq<Event>, n: nat)
    requires Run(ws, es) && n < |ws|
    ensures ws[n].t.user == ws[0].t.user && ws[n].t.versionMask == ws[0].t.versionMask
    ensures ws[n].t.extended == ws[0].t.extended && ws[n].t.extranonce2Size == ws[0].t.extranonce2Size
  {
    if n > 0 {
      SettingsStay(ws, es, n - 1);
      assert Stepped(ws, es, n - 1);
    }
  }

  /** What the miner found goes out under the connection's own account, rolled version bits only
      within the mask of the connection's handshake. */
  predicate AsMined(submit: Sv1Submit, share: Share, start: TranslatorState) {
    && submit.user == start.user && submit.time == share.ntime && submit.nonce == share.nonce
    && match start.versionMask
       case None => submit.versionBits == None
       case Some(mask) => submit.versionBits == Some(share.version & mask)
  }

  /** Provenance: a translated share goes out for one of the last 64 jobs built, the latest with
      the id the share names. It carries that job's pool id, and for a Standard share the very
      extranonce2 that job was built with; an Extended share keeps the one its miner rolled. Time,
      nonce and, as far as the pool agreed to rolling them, version bits are the miner's. */
  lemma ShareGoesToItsJob(ws: seq<World>, es: seq<Event>, i: nat, share: Share, converts: bool) returns (n: nat)
    requires Run(ws, es) && i < |ws| && SubmitOf(ws[i].t, share, converts).Some?
    ensures n < |ws[i].built| <= n + 64 && ws[i].built[n].id == share.job
    ensures forall m | n < m < |ws[i].built| :: ws[i].built[m].id != share.job
    ensures SubmitOf(ws[i].t, share, converts).value.jobId == ws[i].built[n].notify.jobId
    ensures share.extranonce.None? ==>
              ws[i].built[n].extranonce2 == Some(SubmitOf(ws[i].t, share, converts).value.extranonce2)
    ensures share.extranonce.Some? ==> SubmitOf(ws[i].t, share, converts).value.extranonce2 == share.extranonce.value
    ensures AsMined(SubmitOf(ws[i].t, share, converts).value, share, ws[0].t)
  {
    SettingsStay(ws, es, i);
    RunInv(ws, es, i);
    var w := ws[i];
    n :| w.forgotten <= n < |w.built| && w.built[n].id == share.job;
    forall m | n < m < |w.built| ensures w.built[m].id != share.job {
      NearIdsDiffer(n, m);
    }
  }

  /** A share is dropped exactly when its job is not known any more, or is one that offers no
      extranonce2 to a share without one, or the share does not convert. */
  lemma ShareIsDroppedIff(ws: seq<World>, es: seq<Event>, i: nat, share: Share, converts: bool)
    requires Run(ws, es) && i < |ws|
    ensures SubmitOf(ws[i].t, share, converts).None? <==>
              (forall n | ws[i].forgotten <= n < |ws[i].built| :: ws[i].built[n].id != share.job) ||
              (ws[i].t.extended && share.extranonce.None?) || !converts
  {
    RunInv(ws, es, i);
    var w := ws[i];
    if share.job in w.t.jobs {
      var n :| w.forgotten <= n < |w.built| && w.built[n].id == share.job;
      assert w.t.jobs[share.job] == InfoOf(w.built[n]);
    }
  }

  /** At most 64 jobs are ever known. */
  lemma JobsAreBounded(ws: seq<World>, es: seq<Event>, i: nat)
    requires Run(ws, es) && i < |ws|
    ensures |ws[i].t.jobs| <= 64
  {
    RunInv(ws, es, i);
  }

  /** All known jobs are forgotten by each 65th: exactly those built since the last full 64 are known. */
  lemma {:induction false} ForgottenByFull64(ws: seq<World>, es: seq<Event>, i: nat)
    requires Run(ws, es) && i < |ws|
    ensures ws[i].forgotten == if ws[i].built == [] then 0 else (|ws[i].built| - 1) / 64 * 64
  {
    if i > 0 {
      ForgottenByFull64(ws, es, i - 1);
      RunInv(ws, es, i - 1);
      assert Stepped(ws, es, i - 1);
      if es[i - 1].Notified? {
        FullAt64(|ws[i - 1].built|, ws[i - 1].forgotten);
      }
    }
  }

  lemma FullAt64(built: nat, forgotten: nat)
    requires forgotten == if built == 0 then 0 else (built - 1) / 64 * 64
    ensures (if built - forgotten >= 64 then built else forgotten) == built / 64 * 64
  {
  }

  /** The extranonce2 of the n-th Standard job is n, little-endian in as many bytes as fit, and zeros. */
  lemma RollCounts(t: TranslatorState, n: nat)
    requires !t.extended && n < U64
    ensures var e2, low := RollAt(t, n).value, Min(t.extranonce2Size, 8);
            && |e2| == t.extranonce2Size && LeValue(e2[..low]) == n % Pow256(low)
            && forall k | low <= k < |e2| :: e2[k] == 0
  {
    var low := Min(t.extranonce2Size, 8);
    assert RollAt(t, n).value[..low] == LeBytes(n, low);
    DecodeEncode(n, low);
  }

  /** Standard jobs of one connection fewer than 256 to the number of rolled bytes apart are
      built with different extranonce2 values. */
  lemma NearRollsDiffer(ws: seq<World>, es: seq<Event>, i: nat, a: nat, b: nat)
    requires Run(ws, es) && i < |ws| && a < b < |ws[i].built| && !ws[i].t.extended
    requires b - a < Pow256(Min(ws[i].t.extranonce2Size, 8))
    ensures ws[i].built[a].extranonce2.Some? && ws[i].built[b].extranonce2.Some?
    ensures ws[i].built[a].extranonce2 != ws[i].built[b].extranonce2
  {
    RunInv(ws, es, i);
    SameRollIff(a, b, ws[i].t.extranonce2Size);
    SmallIsNoMultiple(b - a, Pow256(Min(ws[i].t.extranonce2Size, 8)));
  }

  lemma SmallIsNoMultiple(k: nat, p: nat)
    requires 0 < k < p
    ensures k % p != 0
  {
  }

  /** Every answer of the pool reaches at most one share, with that share's own sequence number,
      and no share is answered twice. */
  lemma AnswersAreOwn(ws: seq<World>, es: seq<Event>, i: nat, a: nat)
    requires Run(ws, es) && i < |ws| && a < |ws[i].answers|
    ensures var (id, seqNo) := ws[i].answers[a]; 1 <= id <= |ws[i].sent| && seqNo == ws[i].sent[id - 1]
    ensures forall b | 0 <= b < |ws[i].answers| && b != a :: ws[i].answers[b].0 != ws[i].answers[a].0
    ensures OnResponse(ws[i].t, ws[i].answers[a].0) == (ws[i].t, None)
  {
    RunInv(ws, es, i);
  }

  /** The submit that goes to the pool at event i. */
  predicate GoesOut(w: World, e: Event, share: Share, submit: Sv1Submit) {
    e == Shared(share, true) && SubmitOf(w.t, share, true) == Some(submit)
  }

  predicate Waits(t: TranslatorState, id: nat, seqNo: nat) {
    id in t.submitSeq && t.submitSeq[id] == seqNo
  }

  ghost predicate Unanswered(es: seq<Event>, i: nat, j: nat, id: nat) {
    j <= |es| && forall k | i < k < j :: es[k] != Answered(id)
  }

  /** After n events the submit still waits, with its own share's number, or does so no more. */
  predicate Stands(t: TranslatorState, id: nat, seqNo: nat, waits: bool) {
    id < t.nextSubmitId && if waits then Waits(t, id, seqNo) else id !in t.submitSeq
  }

  lemma StandsAtFirst(ws: seq<World>, es: seq<Event>, i: nat, share: Share, submit: Sv1Submit)
    requires Run(ws, es) && i < |es| && GoesOut(ws[i], es[i], share, submit)
    ensures Stands(ws[i + 1].t, submit.id, share.seqNo, true)
  {
    RunInv(ws, es, i);
    assert Stepped(ws, es, i);
  }

  lemma StandsOn(ws: seq<World>, es: seq<Event>, p: nat, id: nat, seqNo: nat, waits: bool)
    requires Run(ws, es) && p < |es| && Stands(ws[p].t, id, seqNo, waits)
    ensures Stands(ws[p + 1].t, id, seqNo, waits && es[p] != Answered(id))
  {
    assert Stepped(ws, es, p);
  }

  lemma UnansweredStep(es: seq<Event>, i: nat, p: nat, j: nat, id: nat)
    requires i < p < j == p + 1 <= |es|
    ensures Unanswered(es, i, j, id) <==> Unanswered(es, i, p, id) && es[p] != Answered(id)
  {
  }

  /** A submit waits for its answer, with its own share's number, from when it went out until the
      pool answers it, and never again. */
  lemma {:induction false} WaitsUntilAnswered(ws: seq<World>, es: seq<Event>, i: nat, j: nat, share: Share,
                                              submit: Sv1Submit)
    requires Run(ws, es) && i < j < |ws| && GoesOut(ws[i], es[i], share, submit)
    ensures Stands(ws[j].t, submit.id, share.seqNo, Unanswered(es, i, j, submit.id))
  {
    if j == i + 1 {
      StandsAtFirst(ws, es, i, share, submit);
    } else {
      WaitsUntilAnswered(ws, es, i, j - 1, share, submit);
      UnansweredStep(es, i, j - 1, j, submit.id);
      StandsOn(ws, es, j - 1, submit.id, share.seqNo, Unanswered(es, i, j - 1, submit.id));
    }
  }

  /** The pool's answer to a submit it was sent reaches the very share the submit was made for,
      unless it was answered before, and then nobody; and so does an answer to it before it went
      out. */
  lemma AnswerReachesItsShare(ws: seq<World>, es: seq<Event>, i: nat, j: nat, share: Share, submit: Sv1Submit)
    requires Run(ws, es) && i < |es| && j < |es| && GoesOut(ws[i], es[i], share, submit)
    requires es[j] == Answered(submit.id)
    ensures ws[j + 1].answers == ws[j].answers +
            if i < j && Unanswered(es, i, j, submit.id) then [(submit.id, share.seqNo)] else []
  {
    RunInv(ws, es, j);
    assert Stepped(ws, es, j);
    if i < j {
      WaitsUntilAnswered(ws, es, i, j, share, submit);
    } else {
      RunInv(ws, es, i);
      SubmitIdsGrow(ws, es, j, i);
    }
  }

  lemma {:induction false} SubmitIdsGrow(ws: seq<World>, es: seq<Event>, i: nat, j: nat)
    requires Run(ws, es) && i <= j < |ws|
    ensures ws[i].t.nextSubmitId <= ws[j].t.nextSubmitId
  {
    if i < j {
      SubmitIdsGrow(ws, es, i, j - 1);
      assert Stepped(ws, es, j - 1);
    }
  }

  /** No two submits go out under one id. */
  lemma SubmitIdsDiffer(ws: seq<World>, es: seq<Event>, i: nat, j: nat, share: Share, submit: Sv1Submit,
                        share': Share, submit': Sv1Submit)
    requires Run(ws, es) && i < j < |es|
    requires GoesOut(ws[i], es[i], share, submit) && GoesOut(ws[j], es[j], share', submit')
    ensures submit.id != submit'.id
  {
    WaitsUntilAnswered(ws, es, i, j, share, submit);
    RunInv(ws, es, j);
  }

  lemma {:induction false} BuiltGrows(ws: seq<World>, es: seq<Event>, i: nat, j: nat)
    requires Run(ws, es) && i <= j < |ws|
    ensures |ws[i].built| <= |ws[j].built|
  {
    if i < j {
      BuiltGrows(ws, es, i, j - 1);
      assert Stepped(ws, es, j - 1);
    }
  }

  /** A job is announced as a future one exactly when its notify is clean or it is the first
      notify of the connection. */
  lemma FutureIff(ws: seq<World>, es: seq<Event>, i: nat)
    requires Run(ws, es) && i < |es| && es[i].Notified?
    ensures OnNotify(ws[i].t, es[i].notify).2 <==> es[i].notify.cleanJobs || forall k | 0 <= k < i :: !es[k].Notified?
  {
    RunInv(ws, es, i);
    if k :| 0 <= k < i && es[k].Notified? {
      assert Stepped(ws, es, k);
      BuiltGrows(ws, es, k + 1, i);
    } else {
      NoneYet(ws, es, i);
    }
  }

  lemma {:induction false} NoneYet(ws: seq<World>, es: seq<Event>, i: nat)
    requires Run(ws, es) && i < |ws| && forall k | 0 <= k < i :: !es[k].Notified?
    ensures ws[i].built == []
  {
    if i > 0 {
      NoneYet(ws, es, i - 1);
      assert Stepped(ws, es, i - 1);
    }
  }

  /** Nothing was announced as long as no notify converted. */
  lemma {:induction false} NoFrames(ws: seq<World>, es: seq<Event>, i: nat)
    requires Run(ws, es) && i < |ws| && forall k | 0 <= k < i && es[k].Notified? :: !es[k].converts
    ensures ws[i].frames == []
  {
    if i > 0 {
      NoFrames(ws, es, i - 1);
      assert Stepped(ws, es, i - 1);
    }
  }

  /** The first job that is delivered need not be a future one: it is if and only if its notify
      is clean or no notify before it failed to convert. */
  lemma FirstDeliveredIsFutureIff(ws: seq<World>, es: seq<Event>, i: nat)
    requires Run(ws, es) && i < |es| && es[i].Notified? && es[i].converts
    requires forall k | 0 <= k < i && es[k].Notified? :: !es[k].converts
    ensures ws[i].frames == [] && |ws[i + 1].frames| > 0 && ws[i + 1].frames[0].JobFrame?
    ensures ws[i + 1].frames[0].job.minNtime.None? <==>
              es[i].notify.cleanJobs || forall k | 0 <= k < i :: !es[k].Notified?
  {
    FutureIff(ws, es, i);
    NoFrames(ws, es, i);
    assert Stepped(ws, es, i);
  }

  /** It does happen: a run whose only delivered job is an immediate one, on a connection that
      never delivered a previous hash. */
  lemma FirstDeliveredIsImmediate(first: Notify, second: Notify, user: string, size: nat)
    returns (ws: seq<World>, es: seq<Event>)
    requires !second.cleanJobs
    ensures Run(ws, es) && |es| == 2 && es[0] == Notified(first, false) && es[1] == Notified(second, true)
    ensures |ws[2].frames| == 1 && ws[2].frames[0].JobFrame? && ws[2].frames[0].job.minNtime == Some(second.time)
  {
    var w := World(FreshTranslator(None, user, true, size), [], 0, [], [], []);
    es := [Notified(first, false), Notified(second, true)];
    ws := [w, Apply(w, es[0]), Apply(Apply(w, es[0]), es[1])];
  }

  /** What the miner is told of a notify that converts is what the pool said: the job under the next
      id, with the notify's version; if it is a future one without a time, and then the notify's
      previous hash, time and bits for that very job; if not, with the notify's time and no more. */
  lemma AnnouncedAsNotified(ws: seq<World>, es: seq<Event>, i: nat, notify: Notify)
    requires Run(ws, es) && i < |es| && es[i] == Notified(notify, true)
    ensures ws[i].frames <= ws[i + 1].frames
    ensures var told, future := ws[i + 1].frames[|ws[i].frames|..],
                                notify.cleanJobs || forall k | 0 <= k < i :: !es[k].Notified?;
            && |told| == (if future then 2 else 1)
            && told[0].JobFrame? && told[0].job.job == JobId(|ws[i].built|)
            && told[0].job.version == notify.version && told[0].job.extranonce2 == RollAt(ws[0].t, |ws[i].built|)
            && told[0].job.minNtime == (if future then None else Some(notify.time))
            && (future ==> told[1] == PrevFrame(PrevHash(told[0].job.job, notify.prevHash, notify.time, notify.bits)))
  {
    FutureIff(ws, es, i);
    SettingsStay(ws, es, i);
    RunInv(ws, es, i);
    RunInv(ws, es, i + 1);
    assert Stepped(ws, es, i);
  }

  /** A future job is followed at once by the previous hash that names it, and a previous hash
      comes in no other place. */
  ghost predicate Activated(frames: seq<Sv2Frame>, k: nat)
    requires k < |frames|
  {
    match frames[k]
    case JobFrame(j) =>
      j.minNtime.None? ==> k + 1 < |frames| && frames[k + 1].PrevFrame? && frames[k + 1].prev.job == j.job
    case PrevFrame(p) =>
      k > 0 && frames[k - 1].JobFrame? && frames[k - 1].job.minNtime.None? && frames[k - 1].job.job == p.job
  }

  lemma AnnouncesInOrder(frames: seq<Sv2Frame>, notify: Notify, job: nat, asFuture: bool, e2: Option<seq<byte>>,
                         converts: bool)
    requires forall k: nat | k < |frames| :: Activated(frames, k)
    ensures var more := frames + Announced(notify, job, asFuture, e2, converts);
            forall k: nat | k < |more| :: Activated(more, k)
  {
    var more := frames + Announced(notify, job, asFuture, e2, converts);
    forall k: nat | k < |more| ensures Activated(more, k) {
      if k < |frames| {
        assert Activated(frames, k);
      }
    }
  }

  /** On every run each future job the miner gets is activated by the next frame, and each
      previous hash it gets activates the job before. */
  lemma {:induction false} FutureJobsAreActivated(ws: seq<World>, es: seq<Event>, i: nat)
    requires Run(ws, es) && i < |ws|
    ensures forall k: nat | k < |ws[i].frames| :: Activated(ws[i].frames, k)
  {
    if i > 0 {
      FutureJobsAreActivated(ws, es, i - 1);
      assert Stepped(ws, es, i - 1);
      var w, e := ws[i - 1], es[i - 1];
      if e.Notified? {
        var (t, id, asFuture) := OnNotify(w.t, e.notify);
        AnnouncesInOrder(w.frames, e.notify, id, asFuture, t.jobs[id].extranonce2, e.converts);
      }
    }
  }
}
