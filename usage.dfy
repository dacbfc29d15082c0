/** The usage aggregator: the process-wide `stats_data` record (bot.py:47-54)
    and `update_stats` (bot.py:92-100), which folds one response's `usage`
    object into it, plus the mean response speed the `stats` command reports
    (bot.py:214). */
module Usage {
  import opened Wrappers

  /** The `usage` object of a chat-completion response. A key the response
      leaves out is `None`; `tokensPerSecond` is the `response_token/s` key. */
  datatype Usage = Usage(
    promptTokens: Option<nat>,
    completionTokens: Option<nat>,
    totalTokens: Option<nat>,
    totalDuration: Option<nat>,
    tokensPerSecond: Option<real>)

  /** The `{}` that stands in for a response without a `usage` key (bot.py:125). */
  const NoUsage := Usage(None, None, None, None, None)

  /** The values held in `stats_data`. */
  datatype Totals = Totals(
    requests: nat,
    tokens: nat,
    promptTokens: nat,
    completionTokens: nat,
    durationNs: nat,
    speeds: seq<real>)

  /** `stats_data` as initialised at bot.py:47-54. */
  const ZeroTotals := Totals(0, 0, 0, 0, 0, [])

  /** The totals after `update_stats(u)`: one more request, each count added
      in (0 when the key is absent), and the speed sample appended only when
      the response reported one. */
  function Record(t: Totals, u: Usage): Totals
  {
    Totals(
      t.requests + 1,
      t.tokens + u.totalTokens.GetOr(0),
      t.promptTokens + u.promptTokens.GetOr(0),
      t.completionTokens + u.completionTokens.GetOr(0),
      t.durationNs + u.totalDuration.GetOr(0),
      if u.tokensPerSecond.Some? then t.speeds + [u.tokensPerSecond.value] else t.speeds)
  }

  /** The totals after recording each of `us`, in order. */
  function RecordAll(t: Totals, us: seq<Usage>): Totals
    decreases |us|
  {
    if us == [] then t else Record(RecordAll(t, us[..|us| - 1]), us[|us| - 1])
  }

  /** No counter of `t'` is below that of `t`, and `t`'s speed samples are
      the first ones of `t'`. */
  predicate Dominates(t': Totals, t: Totals)
  {
    t'.requests >= t.requests && t'.tokens >= t.tokens
    && t'.promptTokens >= t.promptTokens && t'.completionTokens >= t.completionTokens
    && t'.durationNs >= t.durationNs
    && |t'.speeds| >= |t.speeds| && t'.speeds[..|t.speeds|] == t.speeds
  }

  /** Recording never lowers a counter nor drops a sample, and it counts
      exactly one more request. */
  lemma RecordGrows(t: Totals, u: Usage)
    ensures Dominates(Record(t, u), t)
    ensures Record(t, u).requests == t.requests + 1
  {
  }

  /** The counters are non-decreasing over any run of requests. */
  lemma {:induction false} RecordAllGrows(t: Totals, us: seq<Usage>)
    ensures Dominates(RecordAll(t, us), t)
    ensures RecordAll(t, us).requests == t.requests + |us|
    decreases |us|
  {
    if us != [] {
      var mid := RecordAll(t, us[..|us| - 1]);
      RecordAllGrows(t, us[..|us| - 1]);
      RecordGrows(mid, us[|us| - 1]);
      assert Record(mid, us[|us| - 1]).speeds[..|mid.speeds|] == mid.speeds;
      assert mid.speeds[..|t.speeds|] == t.speeds;
    }
  }

  /** The sum of one usage field over a run of responses, absent keys counting 0. */
  function SumOf(us: seq<Usage>, field: Usage -> Option<nat>): nat
    decreases |us|
  {
    if us == [] then 0 else SumOf(us[..|us| - 1], field) + field(us[|us| - 1]).GetOr(0)
  }

  /** The speed samples of the responses that reported one, in order. */
  function SpeedsOf(us: seq<Usage>): seq<real>
    decreases |us|
  {
    if us == [] then []
    else
      var last := us[|us| - 1];
      SpeedsOf(us[..|us| - 1]) + if last.tokensPerSecond.Some? then [last.tokensPerSecond.value] else []
  }

  /** After N recorded responses starting from the initial record, the request
      count is N, every token and duration total is the sum over the
      responses, and the speed samples are exactly those the responses
      reported. */
  lemma {:induction false} RecordAllFromZero(us: seq<Usage>)
    ensures RecordAll(ZeroTotals, us) == Totals(
      |us|,
      SumOf(us, (u: Usage) => u.totalTokens),
      SumOf(us, (u: Usage) => u.promptTokens),
      SumOf(us, (u: Usage) => u.completionTokens),
      SumOf(us, (u: Usage) => u.totalDuration),
      SpeedsOf(us))
    decreases |us|
  {
    if us != [] {
      RecordAllFromZero(us[..|us| - 1]);
    }
  }

  // ------------------------------------------------------------------
  // The mean response speed (bot.py:214)
  // ------------------------------------------------------------------

  /** `sum(xs)`, summed from the left. */
  function Sum(xs: seq<real>): real
    decreases |xs|
  {
    if xs == [] then 0.0 else Sum(xs[..|xs| - 1]) + xs[|xs| - 1]
  }

  /** `sum(xs) / len(xs) if xs else 0`. */
  function Mean(xs: seq<real>): real
  {
    if xs == [] then 0.0 else Sum(xs) / (|xs| as real)
  }

  lemma {:induction false} SumBounds(xs: seq<real>, lo: real, hi: real)
    requires forall i :: 0 <= i < |xs| ==> lo <= xs[i] <= hi
    ensures (|xs| as real) * lo <= Sum(xs) <= (|xs| as real) * hi
    decreases |xs|
  {
    if xs != [] {
      SumBounds(xs[..|xs| - 1], lo, hi);
    }
  }

  /** Dividing by a positive count keeps an order between multiples of it. */
  lemma DivideBounds(s: real, n: real, b: real)
    requires n > 0.0
    ensures n * b <= s ==> b <= s / n
    ensures s <= n * b ==> s / n <= b
  {
    var m := s / n;
    assert s == n * m;
    assert s - n * b == n * (m - b);
  }

  /** The mean of the samples lies between their bounds; with no samples it is 0. */
  lemma MeanBounds(xs: seq<real>, lo: real, hi: real)
    requires forall i :: 0 <= i < |xs| ==> lo <= xs[i] <= hi
    ensures xs == [] ==> Mean(xs) == 0.0
    ensures xs != [] ==> lo <= Mean(xs) <= hi
  {
    if xs != [] {
      SumBounds(xs, lo, hi);
      DivideBounds(Sum(xs), |xs| as real, lo);
      DivideBounds(Sum(xs), |xs| as real, hi);
    }
  }

  /** The mutable `stats_data` dictionary. */
  class UsageStats {
    var totalRequests: nat
    var totalTokens: nat
    var totalPromptTokens: nat
    var totalCompletionTokens: nat
    var totalDurationNs: nat
    /** The `avg_response_speed` list: every reported speed sample, in arrival order. */
    var avgResponseSpeed: seq<real>

    /** The record's current values. */
    function Snapshot(): Totals
      reads this
    {
      Totals(totalRequests, totalTokens, totalPromptTokens, totalCompletionTokens,
             totalDurationNs, avgResponseSpeed)
    }

    constructor ()
      ensures Snapshot() == ZeroTotals
    {
      totalRequests, totalTokens, totalPromptTokens := 0, 0, 0;
      totalCompletionTokens, totalDurationNs := 0, 0;
      avgResponseSpeed := [];
    }

    /** `update_stats(usage)` (bot.py:92-100). */
    method UpdateStats(usage: Usage)
      modifies this
      ensures totalRequests == old(totalRequests) + 1
      ensures totalTokens == old(totalTokens) + usage.totalTokens.GetOr(0)
      ensures totalPromptTokens == old(totalPromptTokens) + usage.promptTokens.GetOr(0)
      ensures totalCompletionTokens == old(totalCompletionTokens) + usage.completionTokens.GetOr(0)
      ensures totalDurationNs == old(totalDurationNs) + usage.totalDuration.GetOr(0)
      ensures avgResponseSpeed == if usage.tokensPerSecond.Some?
                                  then old(avgResponseSpeed) + [usage.tokensPerSecond.value]
                                  else old(avgResponseSpeed)
      ensures Snapshot() == Record(old(Snapshot()), usage)
    {
      totalRequests := totalRequests + 1;
      totalTokens := totalTokens + usage.totalTokens.GetOr(0);
      totalPromptTokens := totalPromptTokens + usage.promptTokens.GetOr(0);
      totalCompletionTokens := totalCompletionTokens + usage.completionTokens.GetOr(0);
      totalDurationNs := totalDurationNs + usage.totalDuration.GetOr(0);
      if usage.tokensPerSecond.Some? {
        avgResponseSpeed := avgResponseSpeed + [usage.tokensPerSecond.value];
      }
    }
  }
}
