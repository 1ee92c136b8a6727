/** Re-opening channels one after the other on a fresh upstream connection (`open_on` and the
    re-open loop of `swap_upstream` in `src/proto/sv2/relay.rs`). */
module Reopening {
  import opened Options
  import opened Types
  import opened Rig

  /** A frame that answers an open, well-formed or not. */
  predicate IsAnswer(f: UpFrame) {
    f.OpenSuccess? || f.MalformedSuccess? || f.OpenError?
  }

  predicate NoAnswer(s: seq<UpFrame>) {
    forall f | f in s :: !IsAnswer(f)
  }

  /** The connection brings k answers, and they are all well-formed successes. */
  predicate Succeeds(s: seq<UpFrame>, k: nat) {
    if k == 0 then true
    else if s == [] then false
    else if IsAnswer(s[0]) then s[0].OpenSuccess? && Succeeds(s[1..], k - 1)
    else Succeeds(s[1..], k)
  }

  /** An arrival sequence without its first k open successes. */
  function WithoutSuccesses(s: seq<UpFrame>, k: nat): seq<UpFrame> {
    if k == 0 || s == [] then s
    else if s[0].OpenSuccess? then WithoutSuccesses(s[1..], k - 1)
    else [s[0]] + WithoutSuccesses(s[1..], k)
  }

  /** What the first k open successes of an arrival sequence carry. */
  function SuccessInfos(s: seq<UpFrame>, k: nat): seq<ChannelInfo> {
    if k == 0 || s == [] then []
    else if s[0].OpenSuccess? then [s[0].info] + SuccessInfos(s[1..], k - 1)
    else SuccessInfos(s[1..], k)
  }

  /** Reading up to and over the next success leaves the rest of the work unchanged. */
  lemma {:induction false} AfterSuccess(skipped: seq<UpFrame>, info: ChannelInfo, rest: seq<UpFrame>, k: nat)
    requires NoAnswer(skipped) && k > 0
    ensures var s := skipped + [OpenSuccess(info)] + rest;
            && (Succeeds(s, k) <==> Succeeds(rest, k - 1))
            && WithoutSuccesses(s, k) == skipped + WithoutSuccesses(rest, k - 1)
            && SuccessInfos(s, k) == [info] + SuccessInfos(rest, k - 1)
  {
    var s := skipped + [OpenSuccess(info)] + rest;
    if skipped == [] {
      assert s[1..] == rest;
    } else {
      assert s[1..] == skipped[1..] + [OpenSuccess(info)] + rest;
      AfterSuccess(skipped[1..], info, rest, k);
      assert skipped == [skipped[0]] + skipped[1..];
    }
  }

  /** A refusal, a malformed success or a closed connection before the next success ends it. */
  lemma {:induction false} AfterFailure(skipped: seq<UpFrame>, rest: seq<UpFrame>, k: nat)
    requires NoAnswer(skipped) && k > 0
    requires rest == [] || (IsAnswer(rest[0]) && !rest[0].OpenSuccess?)
    ensures !Succeeds(skipped + rest, k)
  {
    var s := skipped + rest;
    if skipped == [] {
      assert s == rest;
    } else {
      assert s[1..] == skipped[1..] + rest;
      AfterFailure(skipped[1..], rest, k);
    }
  }

  lemma NeverSucceeds(skipped: seq<UpFrame>, rest: seq<UpFrame>)
    requires NoAnswer(skipped) && (rest == [] || (IsAnswer(rest[0]) && !rest[0].OpenSuccess?))
    ensures forall k: nat | k > 0 :: !Succeeds(skipped + rest, k)
  {
    forall k: nat | k > 0 ensures !Succeeds(skipped + rest, k) {
      AfterFailure(skipped, rest, k);
    }
  }

  lemma OneMore(all: seq<UpFrame>, skipped: seq<UpFrame>, f: UpFrame, rest: seq<UpFrame>, after: seq<UpFrame>)
    requires all == skipped + rest && rest == [f] + after
    ensures all == skipped + [f] + after
  {
  }

  /** The frames of a sequence that are no open successes, in order. */
  function OtherFrames(s: seq<UpFrame>): seq<UpFrame> {
    if s == [] then []
    else (if s[0].OpenSuccess? then [] else [s[0]]) + OtherFrames(s[1..])
  }

  /** Taking out k successes takes out k frames, and every other frame keeps its place. */
  lemma {:induction false} NothingLost(s: seq<UpFrame>, k: nat)
    requires Succeeds(s, k)
    ensures |SuccessInfos(s, k)| == k && |WithoutSuccesses(s, k)| == |s| - k
    ensures OtherFrames(WithoutSuccesses(s, k)) == OtherFrames(s)
  {
    if k > 0 {
      NothingLost(s[1..], if s[0].OpenSuccess? then k - 1 else k);
      var w := WithoutSuccesses(s, k);
      if !s[0].OpenSuccess? {
        assert w[1..] == WithoutSuccesses(s[1..], k);
      }
    }
  }

  /** How many open successes there are in an arrival sequence. */
  function Successes(s: seq<UpFrame>): nat {
    if s == [] then 0 else (if s[0].OpenSuccess? then 1 else 0) + Successes(s[1..])
  }

  /** The i-th re-open gets the i-th success that arrives. */
  lemma {:induction false} InOrderOfArrival(s: seq<UpFrame>, k: nat, i: nat) returns (p: nat)
    requires Succeeds(s, k) && i < k && |SuccessInfos(s, k)| == k
    ensures p < |s| && s[p] == OpenSuccess(SuccessInfos(s, k)[i]) && Successes(s[..p]) == i
  {
    var rest := if s[0].OpenSuccess? then k - 1 else k;
    NothingLost(s[1..], rest);
    if s[0].OpenSuccess? && i == 0 {
      p := 0;
    } else {
      var q := InOrderOfArrival(s[1..], rest, if s[0].OpenSuccess? then i - 1 else i);
      p := q + 1;
      assert s[..p][1..] == s[1..][..q];
    }
  }

  /** How far the re-open loop has come: what is left to read and do adds up to the whole. */
  ghost predicate Halfway(all: seq<UpFrame>, count: nat, done: nat, infos: seq<ChannelInfo>,
                          deferred: seq<UpFrame>, rest: seq<UpFrame>)
  {
    && done <= count && |infos| == done
    && (Succeeds(all, count) <==> Succeeds(rest, count - done))
    && deferred + WithoutSuccesses(rest, count - done) == WithoutSuccesses(all, count)
    && infos + SuccessInfos(rest, count - done) == SuccessInfos(all, count)
  }

  lemma OneFurther(all: seq<UpFrame>, count: nat, done: nat, infos: seq<ChannelInfo>, deferred: seq<UpFrame>,
                   skipped: seq<UpFrame>, info: ChannelInfo, rest: seq<UpFrame>)
    requires done < count && NoAnswer(skipped)
    requires Halfway(all, count, done, infos, deferred, skipped + [OpenSuccess(info)] + rest)
    ensures Halfway(all, count, done + 1, infos + [info], deferred + skipped, rest)
  {
    AfterSuccess(skipped, info, rest, count - done);
    var k := count - done - 1;
    assert deferred + skipped + WithoutSuccesses(rest, k) == deferred + (skipped + WithoutSuccesses(rest, k));
    assert infos + [info] + SuccessInfos(rest, k) == infos + ([info] + SuccessInfos(rest, k));
  }

  /** An upstream connection: the frames it delivers before it closes, and how far they were read. */
  class Connection {
    const frames: seq<UpFrame>
    var next: nat

    ghost predicate Valid()
      reads this
    {
      next <= |frames|
    }

    ghost function Rest(): seq<UpFrame>
      reads this
      requires Valid()
    {
      frames[next..]
    }

    constructor (frames: seq<UpFrame>)
      ensures Valid() && Rest() == frames
    {
      this.frames, next := frames, 0;
    }

    method ReadFrame() returns (f: Option<UpFrame>)
      requires Valid()
      modifies this
      ensures Valid()
      ensures f.None? ==> old(Rest()) == [] && Rest() == []
      ensures f.Some? ==> old(Rest()) == [f.value] + Rest()
    {
      if next == |frames| {
        return None;
      }
      f := Some(frames[next]);
      next := next + 1;
    }

    /** `open_on`: read until the answer, putting every frame before it aside in `deferred`.
        `fits` is false when the open itself cannot be encoded. */
    method OpenOn(fits: bool, deferred: seq<UpFrame>) returns (info: Option<ChannelInfo>, deferred': seq<UpFrame>)
      requires Valid()
      modifies this
      ensures Valid()
      ensures info.Some? ==> fits && exists skipped ::
                NoAnswer(skipped) && deferred' == deferred + skipped &&
                old(Rest()) == skipped + [OpenSuccess(info.value)] + Rest()
      ensures info.None? ==> !fits || forall k: nat | k > 0 :: !Succeeds(old(Rest()), k)
    {
      deferred' := deferred;
      if !fits {
        return None, deferred';
      }
      ghost var all, skipped := Rest(), [];
      while true
        invariant Valid() && NoAnswer(skipped)
        invariant deferred' == deferred + skipped
        invariant all == skipped + Rest()
        decreases |Rest()|
      {
        ghost var rest := Rest();
        var f := ReadFrame();
        if f.None? || (IsAnswer(f.value) && !f.value.OpenSuccess?) {
          NeverSucceeds(skipped, rest);
          return None, deferred';
        }
        OneMore(all, skipped, f.value, rest, Rest());
        if f.value.OpenSuccess? {
          info := Some(f.value.info);
          return;
        }
        deferred' := deferred' + [f.value];
        skipped := skipped + [f.value];
      }
    }

    /** The re-open loop: succeeds exactly when the connection's first answers are all
        successes, takes exactly those out of the arrival sequence, and leaves every other
        frame, in arrival order, to the deferred frames and the unread rest. */
    method ReopenAll(count: nat, fits: bool)
      returns (ok: bool, infos: seq<ChannelInfo>, deferred: seq<UpFrame>)
      requires Valid()
      modifies this
      ensures Valid()
      ensures ok <==> count == 0 || (fits && Succeeds(old(Rest()), count))
      ensures ok ==> infos == SuccessInfos(old(Rest()), count) && |infos| == count
      ensures ok ==> deferred + Rest() == WithoutSuccesses(old(Rest()), count)
    {
      infos, deferred := [], [];
      ghost var all := Rest();
      for i := 0 to count
        invariant Valid() && Halfway(all, count, i, infos, deferred, Rest())
        invariant i > 0 ==> fits
      {
        ghost var before, todo, left: nat := deferred, Rest(), count - i;
        var info;
        info, deferred := OpenOn(fits, deferred);
        if info.None? {
          assert !fits || !Succeeds(todo, left);
          return false, infos, deferred;
        }
        ghost var skipped :| NoAnswer(skipped) && deferred == before + skipped &&
          Halfway(all, count, i, infos, before, skipped + [OpenSuccess(info.value)] + Rest());
        OneFurther(all, count, i, infos, before, skipped, info.value, Rest());
        infos := infos + [info.value];
      }
      ok := true;
    }
  }
}
