/** The rolling hashrate estimate (`HashrateWindow` in `src/session.rs`). Times are real seconds. */
module Hashrate {

  const MIN_RATE_SECS := 60.0
  const DIFF1_HASHES := 4294967296.0

  datatype Sample = Sample(at: real, difficulty: real)

  function Age(now: real, at: real): (age: real)
    ensures age >= 0.0 && (at <= now ==> at + age == now) && (now <= at ==> age == 0.0)
  {
    if now > at then now - at else 0.0
  }

  function Total(samples: seq<Sample>): real {
    if samples == [] then 0.0 else Total(samples[..|samples| - 1]) + samples[|samples| - 1].difficulty
  }

  /** The part of a history that is not older than the window, in order. */
  function Within(history: seq<Sample>, now: real, window: real): seq<Sample> {
    if history == [] then []
    else
      var last := history[|history| - 1];
      Within(history[..|history| - 1], now, window) + if Age(now, last.at) > window then [] else [last]
  }

  /** Drop samples from the front as long as they are too old. */
  function Pruned(samples: seq<Sample>, now: real, window: real): seq<Sample> {
    if samples != [] && Age(now, samples[0].at) > window then Pruned(samples[1..], now, window) else samples
  }

  /** The span a rate is taken over: from the oldest sample to now, at most the window, and at
      least a minute. */
  function Span(oldest: real, now: real, window: real): (span: real)
    ensures span >= 60.0 && (window >= 60.0 ==> span <= window)
    ensures 60.0 <= Age(now, oldest) <= window ==> span == Age(now, oldest)
    ensures Age(now, oldest) <= 60.0 || window <= 60.0 ==> span == 60.0
    ensures 60.0 <= window <= Age(now, oldest) ==> span == window
  {
    var age := Age(now, oldest);
    var capped := if age < window then age else window;
    if capped > MIN_RATE_SECS then capped else MIN_RATE_SECS
  }

  function Rate(samples: seq<Sample>, now: real, window: real): real {
    if samples == [] then 0.0 else Total(samples) * DIFF1_HASHES / Span(samples[0].at, now, window)
  }

  class HashrateWindow {
    const window: real
    var samples: seq<Sample>

    constructor (window: real)
      ensures this.window == window && samples == []
    {
      this.window, samples := window, [];
    }

    method RecordAt(now: real, difficulty: real)
      modifies this`samples
      ensures samples == Pruned(old(samples) + [Sample(now, difficulty)], now, window)
    {
      samples := samples + [Sample(now, difficulty)];
      Prune(now);
    }

    method Prune(now: real)
      modifies this`samples
      ensures samples == Pruned(old(samples), now, window)
    {
      while samples != [] && Age(now, samples[0].at) > window
        invariant Pruned(samples, now, window) == Pruned(old(samples), now, window)
        decreases |samples|
      {
        samples := samples[1..];
      }
    }

    method HashesPerSecondAt(now: real) returns (rate: real)
      ensures rate == Rate(samples, now, window)
    {
      if samples == [] {
        return 0.0;
      }
      var sum := 0.0;
      for i := 0 to |samples|
        invariant sum == Total(samples[..i])
      {
        assert samples[..i + 1][..i] == samples[..i];
        sum := sum + samples[i].difficulty;
      }
      assert samples[..|samples|] == samples;
      rate := sum * DIFF1_HASHES / Span(samples[0].at, now, window);
    }
  }

  // --- the deque and the history ---

  ghost predicate InOrder(history: seq<Sample>) {
    forall i, j | 0 <= i < j < |history| :: history[i].at <= history[j].at
  }

  /** The samples after recording a whole history, one share after the other. */
  function Recorded(history: seq<Sample>, window: real): seq<Sample> {
    if history == [] then []
    else
      var last := history[|history| - 1];
      Pruned(Recorded(history[..|history| - 1], window) + [last], last.at, window)
  }

  lemma {:induction false} AllWithin(s: seq<Sample>, now: real, window: real)
    requires forall i | 0 <= i < |s| :: Age(now, s[i].at) <= window
    ensures Within(s, now, window) == s
  {
    if s != [] {
      AllWithin(s[..|s| - 1], now, window);
    }
  }

  lemma {:induction false} WithinDropsOldFirst(s: seq<Sample>, now: real, window: real)
    requires s != [] && Age(now, s[0].at) > window
    ensures Within(s, now, window) == Within(s[1..], now, window)
  {
    if |s| > 1 {
      WithinDropsOldFirst(s[..|s| - 1], now, window);
      assert s[..|s| - 1][1..] == s[1..][..|s| - 2];
    }
  }

  /** On samples in order, pruning the front is filtering the whole. */
  lemma {:induction false} PruningIsFiltering(s: seq<Sample>, now: real, window: real)
    requires InOrder(s)
    ensures Pruned(s, now, window) == Within(s, now, window)
  {
    if s != [] && Age(now, s[0].at) > window {
      WithinDropsOldFirst(s, now, window);
      PruningIsFiltering(s[1..], now, window);
    } else {
      forall i | 0 <= i < |s| ensures Age(now, s[i].at) <= window {
        assert s[0].at <= s[i].at;
      }
      AllWithin(s, now, window);
    }
  }

  lemma {:induction false} WithinIsPart(s: seq<Sample>, now: real, window: real)
    ensures forall x | x in Within(s, now, window) :: x in s
  {
    if s != [] {
      WithinIsPart(s[..|s| - 1], now, window);
    }
  }

  lemma {:induction false} WithinKeepsOrder(s: seq<Sample>, now: real, window: real)
    requires InOrder(s)
    ensures InOrder(Within(s, now, window))
  {
    if s != [] {
      var init := s[..|s| - 1];
      WithinKeepsOrder(init, now, window);
      WithinIsPart(init, now, window);
      assert forall x | x in init :: x.at <= s[|s| - 1].at;
    }
  }

  /** What an earlier filter dropped, a later one would drop as well. */
  lemma {:induction false} FilterAgain(s: seq<Sample>, early: real, late: real, window: real)
    requires early <= late
    ensures Within(Within(s, early, window), late, window) == Within(s, late, window)
  {
    if s != [] {
      var init, last := s[..|s| - 1], s[|s| - 1];
      FilterAgain(init, early, late, window);
      if Age(early, last.at) <= window {
        var kept := Within(init, early, window);
        assert (kept + [last])[..|kept|] == kept;
      } else {
        assert Within(s, early, window) == Within(init, early, window);
      }
    }
  }

  lemma AppendInOrder(part: seq<Sample>, init: seq<Sample>, last: Sample)
    requires InOrder(part) && InOrder(init + [last]) && forall x | x in part :: x in init
    ensures InOrder(part + [last])
  {
    forall i | 0 <= i < |part| ensures part[i].at <= last.at {
      assert part[i] in init;
      var k :| 0 <= k < |init| && init[k] == part[i];
      assert (init + [last])[k].at <= (init + [last])[|init|].at;
    }
  }

  /** The deque holds exactly the recorded shares that are not older than the window, as of the
      last one, in order. */
  lemma {:induction false} DequeIsFilteredHistory(history: seq<Sample>, window: real)
    requires InOrder(history) && history != []
    ensures Recorded(history, window) == Within(history, history[|history| - 1].at, window)
  {
    var init, last := history[..|history| - 1], history[|history| - 1];
    var before := Recorded(init, window);
    assert init + [last] == history;
    if init != [] {
      var early := init[|init| - 1].at;
      DequeIsFilteredHistory(init, window);
      WithinKeepsOrder(init, early, window);
      WithinIsPart(init, early, window);
      FilterAgain(init, early, last.at, window);
    }
    AppendInOrder(before, init, last);
    PruningIsFiltering(before + [last], last.at, window);
    assert (before + [last])[..|before|] == before;
  }

  // --- the estimate ---

  lemma {:induction false} TotalIsPositive(s: seq<Sample>)
    requires forall i | 0 <= i < |s| :: s[i].difficulty >= 0.0
    ensures Total(s) >= 0.0
  {
    if s != [] {
      TotalIsPositive(s[..|s| - 1]);
    }
  }

  /** Every sample counts once. */
  lemma {:induction false} TotalAdds(a: seq<Sample>, b: seq<Sample>)
    ensures Total(a + b) == Total(a) + Total(b)
    ensures forall s: Sample :: Total([s]) == s.difficulty
  {
    forall s: Sample ensures Total([s]) == s.difficulty {
      assert [s][..0] == [];
    }
    if b == [] {
      assert a + b == a;
    } else {
      TotalAdds(a, b[..|b| - 1]);
      assert (a + b)[..|a + b| - 1] == a + b[..|b| - 1];
    }
  }

  lemma {:induction false} SteadyTotal(d: real, t: real, n: nat)
    ensures Total(seq(n, i => Sample(i as real * t, d))) == n as real * d
  {
    var s := seq(n, i => Sample(i as real * t, d));
    if n > 0 {
      SteadyTotal(d, t, n - 1);
      assert s[..n - 1] == seq(n - 1, i => Sample(i as real * t, d));
      assert n as real * d == (n - 1) as real * d + d;
    }
  }

  /** A miner that finds shares of one difficulty at an even pace, for at least a minute and with its
      first in the window, is rated at the hashes they stand for over that time. */
  lemma SteadyRate(d: real, t: real, n: nat, now: real, window: real)
    requires n > 0 && 60.0 <= now <= window
    ensures Rate(seq(n, i => Sample(i as real * t, d)), now, window) * now == n as real * d * 4294967296.0
  {
    var s := seq(n, i => Sample(i as real * t, d));
    SteadyTotal(d, t, n);
    assert s[0].at == 0.0;
    RateTimesSpan(s, now, window);
  }

  lemma LongerSpan(sum: real, a: real, b: real)
    requires sum >= 0.0 && 0.0 < a <= b
    ensures sum / b <= sum / a && sum / a * a == sum
  {
    var x, y := sum / a, sum / b;
    assert x * a == sum && y * b == sum;
    assert y >= 0.0;
    if y > x {
      assert y * b >= y * a;
      assert y * a > x * a;
    }
  }

  /** The rate times the clamped span is the work of the samples in hashes. */
  lemma RateTimesSpan(samples: seq<Sample>, now: real, window: real)
    requires samples != []
    ensures Rate(samples, now, window) * Span(samples[0].at, now, window) == Total(samples) * 4294967296.0
  {
    QuotientTimes(Total(samples) * DIFF1_HASHES, Span(samples[0].at, now, window));
  }

  lemma QuotientTimes(a: real, b: real)
    requires b > 0.0
    ensures a / b * b == a
  {
  }

  /** Without a new share the estimate never rises; and since reading does not prune, it never
      falls below the samples' work over a whole window either. */
  lemma EstimateFadesToWindow(samples: seq<Sample>, now: real, later: real, window: real)
    requires now <= later && samples != []
    requires forall i | 0 <= i < |samples| :: samples[i].difficulty >= 0.0
    ensures Rate(samples, later, window) <= Rate(samples, now, window)
    ensures var floor := if window > MIN_RATE_SECS then window else MIN_RATE_SECS;
            Total(samples) * DIFF1_HASHES / floor <= Rate(samples, later, window)
  {
    TotalIsPositive(samples);
    var work := Total(samples) * DIFF1_HASHES;
    var a, b := Span(samples[0].at, now, window), Span(samples[0].at, later, window);
    LongerSpan(work, a, b);
    LongerSpan(work, b, if window > MIN_RATE_SECS then window else MIN_RATE_SECS);
  }
}
