/** Window metrics over stored logs: error rate, mean latency, log rate, mean retry count. */
module Aggregation {
  import opened Util

  /** The stored log fields the metrics read; the others play no part here. */
  datatype Log = Log(
    service: string,
    level: string,
    latencyMs: Option<int>,
    statusCode: Option<int>,
    retryCount: Option<int>)

  /** A log counts as an error when its status is at least 400 or its level is ERROR. */
  predicate IsErrorLog(l: Log)
  {
    (l.statusCode.Some? && l.statusCode.value >= 400) || l.level == "ERROR"
  }

  function ErrorCount(logs: seq<Log>): (n: nat)
    ensures n <= |logs|
  {
    if logs == [] then 0 else (if IsErrorLog(logs[0]) then 1 else 0) + ErrorCount(logs[1..])
  }

  lemma {:induction false} ErrorCountAppend(a: seq<Log>, b: seq<Log>)
    ensures ErrorCount(a + b) == ErrorCount(a) + ErrorCount(b)
  {
    if a == [] {
      assert a + b == b;
    } else {
      assert (a + b)[1..] == a[1..] + b;
      ErrorCountAppend(a[1..], b);
    }
  }

  /** `compute_error_rate`: 0 for no logs, else the fraction of error logs. */
  function ErrorRate(logs: seq<Log>): (r: real)
    ensures 0.0 <= r <= 1.0
    ensures logs == [] ==> r == 0.0
    ensures logs != [] ==> r * |logs| as real == ErrorCount(logs) as real
    ensures r == 1.0 <==> logs != [] && ErrorCount(logs) == |logs|
  {
    if logs == [] then 0.0
    else
      FractionBounds(ErrorCount(logs), |logs|);
      ErrorCount(logs) as real / |logs| as real
  }

  /** A count out of a positive total, as a fraction: within [0, 1], and 1 exactly when the count is the total. */
  lemma FractionBounds(c: nat, n: nat)
    requires 0 < n && c <= n
    ensures 0.0 <= c as real / n as real <= 1.0
    ensures (c as real / n as real) * n as real == c as real
    ensures c as real / n as real == 1.0 <==> c == n
  {
  }

  /** Every log is an error log exactly when the count reaches the length. */
  lemma {:induction false} AllErrorsExactly(logs: seq<Log>)
    ensures ErrorCount(logs) == |logs| <==> forall i :: 0 <= i < |logs| ==> IsErrorLog(logs[i])
    ensures ErrorCount(logs) == 0 <==> forall i :: 0 <= i < |logs| ==> !IsErrorLog(logs[i])
  {
    if logs != [] {
      AllErrorsExactly(logs[1..]);
      assert forall i :: 1 <= i < |logs| ==> logs[i] == logs[1..][i - 1];
    }
  }

  /**
   * The values present in the latency column: exactly the present latencies
   * (`PresentLatenciesMembers`), in log order and with their multiplicity
   * (`PresentLatenciesAppend`).
   */
  function PresentLatencies(logs: seq<Log>): (xs: seq<int>)
    ensures |xs| <= |logs|
  {
    if logs == [] then []
    else (if logs[0].latencyMs.Some? then [logs[0].latencyMs.value] else []) + PresentLatencies(logs[1..])
  }

  /** Exactly the values some log carries in this column are kept. */
  lemma {:induction false} PresentLatenciesMembers(logs: seq<Log>)
    ensures forall x :: x in PresentLatencies(logs) <==> exists i :: 0 <= i < |logs| && logs[i].latencyMs == Some(x)
  {
    if logs != [] {
      PresentLatenciesMembers(logs[1..]);
      assert forall i :: 1 <= i < |logs| ==> logs[i] == logs[1..][i - 1];
      forall x | exists i :: 0 <= i < |logs| && logs[i].latencyMs == Some(x)
        ensures x in PresentLatencies(logs)
      {
        var i :| 0 <= i < |logs| && logs[i].latencyMs == Some(x);
        if i > 0 {
          assert logs[1..][i - 1].latencyMs == Some(x);
        }
      }
    }
  }

  /** The latencies of two consecutive stretches of logs are those of the first, then the second. */
  lemma {:induction false} PresentLatenciesAppend(a: seq<Log>, b: seq<Log>)
    ensures PresentLatencies(a + b) == PresentLatencies(a) + PresentLatencies(b)
  {
    if a == [] {
      assert a + b == b;
    } else {
      var head := if a[0].latencyMs.Some? then [a[0].latencyMs.value] else [];
      assert (a + b)[0] == a[0];
      assert (a + b)[1..] == a[1..] + b;
      assert PresentLatencies(a + b) == head + PresentLatencies(a[1..] + b);
      PresentLatenciesAppend(a[1..], b);
      assert PresentLatencies(a) == head + PresentLatencies(a[1..]);
    }
  }

  /**
   * The values present in the retry-count column: exactly the present counts
   * (`PresentRetriesMembers`), in log order and with their multiplicity
   * (`PresentRetriesAppend`).
   */
  function PresentRetries(logs: seq<Log>): (xs: seq<int>)
    ensures |xs| <= |logs|
  {
    if logs == [] then []
    else (if logs[0].retryCount.Some? then [logs[0].retryCount.value] else []) + PresentRetries(logs[1..])
  }

  /** Exactly the values some log carries in this column are kept. */
  lemma {:induction false} PresentRetriesMembers(logs: seq<Log>)
    ensures forall x :: x in PresentRetries(logs) <==> exists i :: 0 <= i < |logs| && logs[i].retryCount == Some(x)
  {
    if logs != [] {
      PresentRetriesMembers(logs[1..]);
      assert forall i :: 1 <= i < |logs| ==> logs[i] == logs[1..][i - 1];
      forall x | exists i :: 0 <= i < |logs| && logs[i].retryCount == Some(x)
        ensures x in PresentRetries(logs)
      {
        var i :| 0 <= i < |logs| && logs[i].retryCount == Some(x);
        if i > 0 {
          assert logs[1..][i - 1].retryCount == Some(x);
        }
      }
    }
  }

  /** The retry counts of two consecutive stretches of logs are those of the first, then the second. */
  lemma {:induction false} PresentRetriesAppend(a: seq<Log>, b: seq<Log>)
    ensures PresentRetries(a + b) == PresentRetries(a) + PresentRetries(b)
  {
    if a == [] {
      assert a + b == b;
    } else {
      var head := if a[0].retryCount.Some? then [a[0].retryCount.value] else [];
      assert (a + b)[0] == a[0];
      assert (a + b)[1..] == a[1..] + b;
      assert PresentRetries(a + b) == head + PresentRetries(a[1..] + b);
      PresentRetriesAppend(a[1..], b);
      assert PresentRetries(a) == head + PresentRetries(a[1..]);
    }
  }

  function Sum(xs: seq<int>): int
  {
    if xs == [] then 0 else xs[0] + Sum(xs[1..])
  }

  /** A sum of values within [lo, hi] lies within [lo * n, hi * n]. */
  lemma {:induction false} SumBounds(xs: seq<int>, lo: int, hi: int)
    requires forall x :: x in xs ==> lo <= x <= hi
    ensures lo * |xs| <= Sum(xs) <= hi * |xs|
  {
    if xs != [] {
      assert xs[0] in xs;
      assert forall x :: x in xs[1..] ==> x in xs;
      SumBounds(xs[1..], lo, hi);
      MulSucc(lo, |xs[1..]|);
      MulSucc(hi, |xs[1..]|);
    }
  }

  lemma MulSucc(a: int, n: nat)
    ensures a * (n + 1) == a + a * n
  {
  }

  /** The mean of the present values, 0 when there are none. */
  function Mean(xs: seq<int>): (m: real)
    ensures xs == [] ==> m == 0.0
    ensures xs != [] ==> m * |xs| as real == Sum(xs) as real
  {
    if xs == [] then 0.0 else Sum(xs) as real / |xs| as real
  }

  /** A non-empty mean lies between any lower and upper bound of its values. */
  lemma MeanBetweenBounds(xs: seq<int>, lo: int, hi: int)
    requires xs != []
    requires forall x :: x in xs ==> lo <= x <= hi
    ensures lo as real <= Mean(xs) <= hi as real
  {
    SumBounds(xs, lo, hi);
    var n := |xs|;
    CastProduct(lo, n);
    CastProduct(hi, n);
    ScaledBounds(Mean(xs), n as real, lo as real, hi as real);
  }

  lemma CastProduct(a: int, n: nat)
    ensures (a * n) as real == a as real * n as real
  {
  }

  /** A value whose n-fold multiple lies within [n * lo, n * hi] lies within [lo, hi]. */
  lemma ScaledBounds(m: real, n: real, lo: real, hi: real)
    requires n > 0.0
    requires lo * n <= m * n <= hi * n
    ensures lo <= m <= hi
  {
  }

  /** `compute_avg_latency`: logs without a latency are skipped; 0 when none has one. */
  function AvgLatency(logs: seq<Log>): (r: real)
    ensures PresentLatencies(logs) == [] ==> r == 0.0
    ensures PresentLatencies(logs) != [] ==> r * |PresentLatencies(logs)| as real == Sum(PresentLatencies(logs)) as real
  {
    Mean(PresentLatencies(logs))
  }

  /** The mean latency lies between the smallest and the largest present latency. */
  lemma AvgLatencyWithinRange(logs: seq<Log>, lo: int, hi: int)
    requires exists i :: 0 <= i < |logs| && logs[i].latencyMs.Some?
    requires forall i :: 0 <= i < |logs| && logs[i].latencyMs.Some? ==> lo <= logs[i].latencyMs.value <= hi
    ensures lo as real <= AvgLatency(logs) <= hi as real
  {
    PresentLatenciesNonEmpty(logs);
    PresentLatenciesMembers(logs);
    forall x | x in PresentLatencies(logs) ensures lo <= x <= hi {
      var i :| 0 <= i < |logs| && logs[i].latencyMs == Some(x);
    }
    MeanBetweenBounds(PresentLatencies(logs), lo, hi);
  }

  /** One log with a latency is enough for a non-empty list of latencies. */
  lemma PresentLatenciesNonEmpty(logs: seq<Log>)
    requires exists i :: 0 <= i < |logs| && logs[i].latencyMs.Some?
    ensures PresentLatencies(logs) != []
  {
    var i :| 0 <= i < |logs| && logs[i].latencyMs.Some?;
    var x := logs[i].latencyMs.value;
    PresentLatenciesMembers(logs);
    assert logs[i].latencyMs == Some(x);
    assert x in PresentLatencies(logs);
  }

  /** One log with a retry count is enough for a non-empty list of retry counts. */
  lemma PresentRetriesNonEmpty(logs: seq<Log>)
    requires exists i :: 0 <= i < |logs| && logs[i].retryCount.Some?
    ensures PresentRetries(logs) != []
  {
    var i :| 0 <= i < |logs| && logs[i].retryCount.Some?;
    var x := logs[i].retryCount.value;
    PresentRetriesMembers(logs);
    assert logs[i].retryCount == Some(x);
    assert x in PresentRetries(logs);
  }

  /** `compute_log_rate`: 0 for a non-positive window, else logs per second. */
  function LogRate(logs: seq<Log>, windowSeconds: int): (r: real)
    ensures windowSeconds <= 0 ==> r == 0.0
    ensures windowSeconds > 0 ==> r * windowSeconds as real == |logs| as real
    ensures r >= 0.0
  {
    if windowSeconds <= 0 then 0.0 else |logs| as real / windowSeconds as real
  }

  /** `compute_avg_retry`: logs without a retry count are skipped; 0 when none has one. */
  function AvgRetry(logs: seq<Log>): (r: real)
    ensures PresentRetries(logs) == [] ==> r == 0.0
    ensures PresentRetries(logs) != [] ==> r * |PresentRetries(logs)| as real == Sum(PresentRetries(logs)) as real
  {
    Mean(PresentRetries(logs))
  }

  /** The mean retry count lies between the smallest and the largest present count. */
  lemma AvgRetryWithinRange(logs: seq<Log>, lo: int, hi: int)
    requires exists i :: 0 <= i < |logs| && logs[i].retryCount.Some?
    requires forall i :: 0 <= i < |logs| && logs[i].retryCount.Some? ==> lo <= logs[i].retryCount.value <= hi
    ensures lo as real <= AvgRetry(logs) <= hi as real
  {
    PresentRetriesNonEmpty(logs);
    PresentRetriesMembers(logs);
    forall x | x in PresentRetries(logs) ensures lo <= x <= hi {
      var i :| 0 <= i < |logs| && logs[i].retryCount == Some(x);
    }
    MeanBetweenBounds(PresentRetries(logs), lo, hi);
  }
}
