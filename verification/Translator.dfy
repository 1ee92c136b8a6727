/** An SV1 pool behind an SV2 miner (`Sv1UpState`, `handle_sv1_line` and the share writer in
    `src/proto/sv2/relay.rs`, with the job and submit conversions of `src/proto/translate.rs`):
    what is remembered per job, and what a share is sent to the pool with. */
module Translator {
  import opened Bytes
  import opened Division
  import opened Options
  import opened Wire

  const U64 := 0x1_0000_0000_0000_0000
  const MAX_JOBS := 64

  /** The parts of a `mining.notify` that decide how it is announced. */
  datatype Notify = Notify(jobId: string, cleanJobs: bool, time: nat, version: nat, bits: nat, prevHash: seq<byte>)

  datatype JobInfo = JobInfo(sv1JobId: string, extranonce2: Option<seq<byte>>)

  /** A share of the miner; an Extended one brings the extranonce it rolled. */
  datatype Share = Share(job: nat, seqNo: nat, extranonce: Option<seq<byte>>, ntime: nat, nonce: nat, version: bv32)

  datatype Sv1Submit = Sv1Submit(
    user: string, jobId: string, extranonce2: seq<byte>, time: nat, nonce: nat, versionBits: Option<bv32>, id: nat)

  /** An announced job: the job itself, and the previous hash that activates a future one. */
  datatype NewJob = NewJob(job: nat, minNtime: Option<nat>, version: nat, extranonce2: Option<seq<byte>>)
  datatype PrevHash = PrevHash(job: nat, prevHash: seq<byte>, minNtime: nat, bits: nat)
  datatype Sv2Frame = JobFrame(job: NewJob) | PrevFrame(prev: PrevHash)

  datatype TranslatorState = TranslatorState(
    versionMask: Option<bv32>, user: string, extended: bool, extranonce2Size: nat,
    nextExtranonce2: nat, nextJobId: nat, jobs: map<nat, JobInfo>,
    nextSubmitId: nat, submitSeq: map<nat, nat>, firstJobSent: bool)

  function Min(a: nat, b: nat): nat {
    if a < b then a else b
  }

  function Zeros(n: nat): (z: seq<byte>)
    ensures |z| == n
  {
    seq(n, _ => 0 as byte)
  }

  /** The low bytes of the counter, as many as fit into the size, then zeros. */
  function Extranonce2(counter: nat, size: nat): (e: seq<byte>)
    ensures |e| == size
  {
    LeBytes(counter, Min(size, 8)) + Zeros(size - Min(size, 8))
  }

  function OnNotify(t: TranslatorState, notify: Notify): (TranslatorState, nat, bool) {
    var e2 := if t.extended then None else Some(Extranonce2(t.nextExtranonce2, t.extranonce2Size));
    var kept := if |t.jobs| >= MAX_JOBS then map[] else t.jobs;
    (t.(nextJobId := (t.nextJobId + 1) % U32, firstJobSent := true,
        nextExtranonce2 := if t.extended then t.nextExtranonce2 else (t.nextExtranonce2 + 1) % U64,
        jobs := kept[t.nextJobId := JobInfo(notify.jobId, e2)]),
     t.nextJobId, notify.cleanJobs || !t.firstJobSent)
  }

  /** The frames a notify becomes: none if it does not convert; else the job, and for a future
      one the previous hash that activates it. */
  function Announced(notify: Notify, job: nat, asFuture: bool, extranonce2: Option<seq<byte>>,
                     converts: bool): seq<Sv2Frame> {
    if !converts then []
    else
      [JobFrame(NewJob(job, if asFuture then None else Some(notify.time), notify.version, extranonce2))] +
      if asFuture then [PrevFrame(PrevHash(job, notify.prevHash, notify.time, notify.bits))] else []
  }

  /** The extranonce2 a share goes out with, if its job is known and has one to offer. */
  function RollOf(t: TranslatorState, share: Share): Option<seq<byte>> {
    if share.job !in t.jobs then None
    else if share.extranonce.Some? then share.extranonce
    else t.jobs[share.job].extranonce2
  }

  /** The rolled version bits, if the pool agreed to version rolling. */
  function RolledBits(mask: Option<bv32>, version: bv32): Option<bv32> {
    if mask.Some? then Some(version & mask.value) else None
  }

  /** What goes to the pool for a share: nothing if it has no job, or does not convert. */
  function SubmitOf(t: TranslatorState, share: Share, converts: bool): Option<Sv1Submit> {
    match RollOf(t, share)
    case None => None
    case Some(e2) =>
      if !converts then None
      else Some(Sv1Submit(t.user, t.jobs[share.job].sv1JobId, e2, share.ntime, share.nonce,
                     RolledBits(t.versionMask, share.version), t.nextSubmitId))
  }

  /** A share with a job takes a submit id and waits for an answer, whether it converts or not. */
  function OnShare(t: TranslatorState, share: Share): TranslatorState {
    if RollOf(t, share).None? then t
    else t.(nextSubmitId := t.nextSubmitId + 1, submitSeq := t.submitSeq[t.nextSubmitId := share.seqNo])
  }

  function OnResponse(t: TranslatorState, id: nat): (TranslatorState, Option<nat>) {
    if id !in t.submitSeq then (t, None)
    else (t.(submitSeq := t.submitSeq - {id}), Some(t.submitSeq[id]))
  }

  function FreshTranslator(versionMask: Option<bv32>, user: string, extended: bool,
                           extranonce2Size: nat): TranslatorState {
    TranslatorState(versionMask, user, extended, extranonce2Size, 0, 1, map[], 1, map[], false)
  }

  class Sv1UpState {
    var versionMask: Option<bv32>
    var user: string
    var extended: bool
    var extranonce2Size: nat
    var nextExtranonce2: nat
    var nextJobId: nat
    var jobs: map<nat, JobInfo>
    var nextSubmitId: nat
    var submitSeq: map<nat, nat>
    var firstJobSent: bool

    function View(): TranslatorState
      reads this
    {
      TranslatorState(versionMask, user, extended, extranonce2Size, nextExtranonce2, nextJobId, jobs, nextSubmitId,
                      submitSeq, firstJobSent)
    }

    constructor (versionMask: Option<bv32>, user: string, extended: bool, extranonce2Size: nat)
      ensures View() == FreshTranslator(versionMask, user, extended, extranonce2Size)
    {
      this.versionMask, this.user, this.extended, this.extranonce2Size := versionMask, user, extended,
          extranonce2Size;
      nextExtranonce2, nextJobId, jobs, nextSubmitId, submitSeq, firstJobSent := 0, 1, map[], 1, map[], false;
    }

    /** A zeroed buffer of the pool's size, with the low bytes of the counter copied in. */
    method RollExtranonce2() returns (e2: seq<byte>)
      modifies this`nextExtranonce2
      ensures e2 == Extranonce2(old(nextExtranonce2), extranonce2Size)
      ensures nextExtranonce2 == (old(nextExtranonce2) + 1) % U64
    {
      var buffer := new byte[extranonce2Size](_ => 0);
      var counter := LeBytes(nextExtranonce2, 8);
      nextExtranonce2 := (nextExtranonce2 + 1) % U64;
      var n := Min(buffer.Length, 8);
      for i := 0 to n
        modifies buffer
        invariant buffer[..] == counter[..i] + Zeros(buffer.Length - i)
      {
        buffer[i] := counter[i];
      }
      LowBytes(old(nextExtranonce2), n, 8);
      e2 := buffer[..];
    }

    /** A job line of the pool; `converts` is whether it makes a well-formed SV2 job. */
    method OnNotifyLine(notify: Notify, converts: bool) returns (frames: seq<Sv2Frame>)
      modifies this`nextJobId, this`firstJobSent, this`nextExtranonce2, this`jobs
      ensures var (t, id, asFuture) := OnNotify(old(View()), notify);
              View() == t && frames == Announced(notify, id, asFuture, t.jobs[id].extranonce2, converts)
    {
      var id := nextJobId;
      nextJobId := (nextJobId + 1) % U32;
      if |jobs| >= MAX_JOBS {
        jobs := map[];
      }
      var asFuture := notify.cleanJobs || !firstJobSent;
      firstJobSent := true;
      var e2 := None;
      if !extended {
        var rolled := RollExtranonce2();
        e2 := Some(rolled);
      }
      jobs := jobs[id := JobInfo(notify.jobId, e2)];
      frames := Announced(notify, id, asFuture, e2, converts);
    }

    /** A share of the miner; `converts` is whether it makes a well-formed SV1 submit. */
    method OnMinerShare(share: Share, converts: bool) returns (submit: Option<Sv1Submit>)
      modifies this`nextSubmitId, this`submitSeq
      ensures View() == OnShare(old(View()), share) && submit == SubmitOf(old(View()), share, converts)
    {
      if share.job !in jobs {
        return None;
      }
      var info := jobs[share.job];
      var e2: seq<byte>;
      match share.extranonce {
        case Some(rolled) => e2 := rolled;
        case None =>
          if info.extranonce2.None? {
            return None;
          }
          e2 := info.extranonce2.value;
      }
      var id := nextSubmitId;
      nextSubmitId := nextSubmitId + 1;
      submitSeq := submitSeq[id := share.seqNo];
      if !converts {
        return None;
      }
      var bits := RolledBits(versionMask, share.version);
      submit := Some(Sv1Submit(user, info.sv1JobId, e2, share.ntime, share.nonce, bits, id));
    }

    /** The pool's answer to submit `id`: the miner's sequence number to answer, once. */
    method OnPoolResponse(id: nat) returns (seqNo: Option<nat>)
      modifies this`submitSeq
      ensures (View(), seqNo) == OnResponse(old(View()), id)
    {
      if id !in submitSeq {
        return None;
      }
      seqNo := Some(submitSeq[id]);
      submitSeq := submitSeq - {id};
    }
  }

  /** Writing more bytes of a number does not change its low ones. */
  lemma {:induction false} LowBytes(v: nat, n: nat, m: nat)
    requires n <= m
    ensures LeBytes(v, m)[..n] == LeBytes(v, n)
  {
    if n > 0 {
      LowBytes(v / 256, n - 1, m - 1);
      assert LeBytes(v, m)[..n] == [LeBytes(v, m)[0]] + LeBytes(v / 256, m - 1)[..n - 1];
    }
  }

  // --- rolling ---

  lemma EqualResidues(a: nat, b: nat, p: nat, q: int, s: int, r: nat)
    requires p > 0 && a <= b && a == p * q + r && b == p * s + r && r < p
    ensures (b - a) % p == 0
  {
    Distribute(p, s, -q);
    assert b - a == p * (s - q);
    MultipleAbove(p, s - q);
    RemainderIs(b - a, p, s - q, 0);
  }

  lemma ResidueAhead(a: nat, b: nat, p: nat, q: nat, r: nat, k: nat)
    requires p > 0 && a == p * q + r && r < p && b - a == p * k
    ensures b % p == r
  {
    Distribute(p, q, k);
    RemainderIs(b, p, q + k, r);
  }

  lemma SameRemainder(a: nat, b: nat, p: nat, q: nat, r: nat, s: nat, t: nat, k: nat, u: nat)
    requires a <= b && a == p * q + r && b == p * s + t && b - a == p * k + u && r < p && t < p && u < p
    ensures r == t <==> u == 0
  {
    if r == t {
      EqualResidues(a, b, p, q, s, r);
      RemainderIs(b - a, p, k, u);
    }
    if u == 0 {
      ResidueAhead(a, b, p, q, r, k);
      RemainderIs(b, p, s, t);
    }
  }

  lemma SameResidue(a: nat, b: nat, p: nat)
    requires p > 0 && a <= b
    ensures a % p == b % p <==> (b - a) % p == 0
  {
    var q, r := Divide(a, p);
    var s, t := Divide(b, p);
    var k, u := Divide(b - a, p);
    SameRemainder(a, b, p, q, r, s, t, k, u);
  }

  lemma ResidueOfResidue(a: nat, p: nat, pm: nat, m: nat)
    requires p > 0 && pm > 0 && pm == p * m
    ensures a % pm % p == a % p
  {
    DivisionIdentity(a, pm);
    DivisionIdentity(a % pm, p);
    NestedRemainder(a, p, m, a / pm, a % pm, a % pm / p, a % pm % p);
  }

  /** Two of the extranonce2 values a connection rolls are the same exactly when their places
      in the sequence differ by a multiple of 256 to the number of bytes rolled. */
  lemma SameRollIff(a: nat, b: nat, size: nat)
    requires a <= b
    ensures Extranonce2(a % U64, size) == Extranonce2(b % U64, size) <==> (b - a) % Pow256(Min(size, 8)) == 0
  {
    var n := Min(size, 8);
    var x, y, z := LeBytes(a % U64, n), LeBytes(b % U64, n), Zeros(size - n);
    assert (x + z)[..n] == x && (y + z)[..n] == y;
    SameBytesIffCongruent(a % U64, b % U64, n);
    PowAdd(n, 8 - n);
    assert Pow256(8) == U64;
    ResidueOfResidue(a, Pow256(n), U64, Pow256(8 - n));
    ResidueOfResidue(b, Pow256(n), U64, Pow256(8 - n));
    SameResidue(a, b, Pow256(n));
  }
}
