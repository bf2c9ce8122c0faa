/** The independent time-to-first-token summary and its nearest-rank 95th percentile
    (scripts/review_gpu_evidence_publication.py:766-790). */
module Quantile {
  import opened Wrappers

  /** A JSON value as far as the summary looks at it. */
  datatype Value = Absent | Boolean(b: bool) | Integer(n: int) | Other

  datatype Outcome = NoOutcome | Outcome(status: Option<string>)

  datatype Timing = NoTiming | Timing(definition: Option<string>, ttft: Value)

  datatype Record = Record(outcome: Outcome, timing: Timing)

  datatype Summary = Summary(successes: nat, samples: nat, p95: nat)

  const NATIVE: string := "vllm_first_choices_event_v0_26"

  // ---- Specification -----------------------------------------------------------------

  predicate Succeeded(r: Record) { r.outcome.Outcome? && r.outcome.status == Some("SUCCESS") }

  predicate WellFormed(r: Record) {
    && r.outcome.Outcome? && r.timing.Timing?
    && (Succeeded(r) ==> r.timing.definition == Some(NATIVE) && r.timing.ttft.Integer? && r.timing.ttft.n >= 0)
  }

  function Sample(r: Record): nat {
    if r.timing.Timing? && r.timing.ttft.Integer? && r.timing.ttft.n >= 0 then r.timing.ttft.n else 0
  }

  function Samples(records: seq<Record>): seq<nat> {
    if records == [] then []
    else
      var r := records[|records| - 1];
      Samples(records[..|records| - 1]) + if Succeeded(r) then [Sample(r)] else []
  }

  function CountBelow(s: seq<nat>, limit: nat): nat {
    if s == [] then 0 else CountBelow(s[1..], limit) + if s[0] < limit then 1 else 0
  }

  /** q is the nearest-rank 95th percentile: a sample such that at least 95 % of the samples
      are at most q and fewer than 95 % are below it. */
  predicate IsP95(s: seq<nat>, q: nat) {
    && q in s
    && 100 * CountBelow(s, q + 1) >= 95 * |s|
    && 100 * CountBelow(s, q) < 95 * |s|
  }

  // ---- Sorting -----------------------------------------------------------------------------

  predicate Ascending(s: seq<nat>) { forall i, j :: 0 <= i < j < |s| ==> s[i] <= s[j] }

  function Insert(x: nat, s: seq<nat>): seq<nat> {
    if s == [] || x <= s[0] then [x] + s else [s[0]] + Insert(x, s[1..])
  }

  lemma {:induction false} InsertKeepsOrder(x: nat, s: seq<nat>)
    requires Ascending(s)
    ensures Ascending(Insert(x, s)) && multiset(Insert(x, s)) == multiset(s) + multiset{x}
  {
    if s != [] && x > s[0] {
      var tail := s[1..];
      InsertKeepsOrder(x, tail);
      var rest := Insert(x, tail);
      hide Insert;
      assert s == [s[0]] + tail;
      SameElements(rest, x, tail);
      forall y | y in tail ensures s[0] <= y {}
      Prepended(s[0], rest);
    }
  }

  lemma SameElements(rest: seq<nat>, x: nat, tail: seq<nat>)
    requires multiset(rest) == multiset(tail) + multiset{x}
    ensures forall y :: y in rest <==> y == x || y in tail
  {
    forall y ensures y in rest <==> y == x || y in tail {
      assert y in rest <==> y in multiset(rest);
      assert y in tail <==> y in multiset(tail);
    }
  }

  lemma Prepended(x: nat, s: seq<nat>)
    requires Ascending(s) && forall y :: y in s ==> x <= y
    ensures Ascending([x] + s)
  {
    forall i | 0 <= i < |s| ensures x <= s[i] { assert s[i] in s; }
  }

  function Sorted(s: seq<nat>): seq<nat> {
    if s == [] then [] else Insert(s[0], Sorted(s[1..]))
  }

  lemma {:induction false} SortedSorts(s: seq<nat>)
    ensures Ascending(Sorted(s)) && multiset(Sorted(s)) == multiset(s)
  {
    if s != [] {
      SortedSorts(s[1..]);
      InsertKeepsOrder(s[0], Sorted(s[1..]));
      assert s == [s[0]] + s[1..];
    }
  }

  lemma Taken<T>(a: seq<T>, b: seq<T>, i: nat)
    requires a != [] && i < |b| && multiset(a) == multiset(b) && b[i] == a[0]
    ensures a == [a[0]] + a[1..] && b == b[..i] + ([b[i]] + b[i + 1..])
    ensures multiset(a[1..]) == multiset(b[..i] + b[i + 1..])
  {
    assert a == [a[0]] + a[1..];
    assert b == b[..i] + ([b[i]] + b[i + 1..]);
    assert multiset(a[1..]) == multiset(a) - multiset{a[0]};
    assert multiset(b[..i] + b[i + 1..]) == multiset(b) - multiset{b[i]};
  }

  // ---- The rank picks the quantile ------------------------------------------------------------

  function Rank(n: nat): nat { (95 * n + 99) / 100 }

  lemma RankInRange(n: nat)
    requires n > 0
    ensures 1 <= Rank(n) <= n
    ensures 100 * Rank(n) >= 95 * n > 100 * (Rank(n) - 1)
  {
  }

  lemma {:induction false} CountOfConcat(a: seq<nat>, b: seq<nat>, limit: nat)
    ensures CountBelow(a + b, limit) == CountBelow(a, limit) + CountBelow(b, limit)
  {
    if a == [] {
      assert a + b == b;
    } else {
      assert (a + b)[1..] == a[1..] + b;
      CountOfConcat(a[1..], b, limit);
    }
  }

  lemma {:induction false} CountAll(s: seq<nat>, limit: nat)
    ensures CountBelow(s, limit) <= |s|
    ensures (forall i :: 0 <= i < |s| ==> s[i] < limit) ==> CountBelow(s, limit) == |s|
    ensures (forall i :: 0 <= i < |s| ==> s[i] >= limit) ==> CountBelow(s, limit) == 0
  {
    if s != [] { CountAll(s[1..], limit); }
  }

  /** In ascending order the element at a rank has that many samples at or below it, and
      fewer strictly below. */
  lemma CountAtRank(s: seq<nat>, rank: nat)
    requires Ascending(s) && 1 <= rank <= |s|
    ensures CountBelow(s, s[rank - 1] + 1) >= rank
    ensures CountBelow(s, s[rank - 1]) < rank
  {
    CountBeyond(s, rank, s[rank - 1] + 1);
    CountBefore(s, rank - 1, s[rank - 1]);
  }

  lemma CountBeyond(s: seq<nat>, n: nat, limit: nat)
    requires n <= |s| && forall i :: 0 <= i < n ==> s[i] < limit
    ensures CountBelow(s, limit) >= n
  {
    hide CountBelow;
    assert s == s[..n] + s[n..];
    CountOfConcat(s[..n], s[n..], limit);
    CountAll(s[..n], limit);
  }

  lemma CountBefore(s: seq<nat>, n: nat, limit: nat)
    requires n <= |s| && forall i :: n <= i < |s| ==> s[i] >= limit
    ensures CountBelow(s, limit) <= n
  {
    hide CountBelow;
    assert s == s[..n] + s[n..];
    CountOfConcat(s[..n], s[n..], limit);
    CountAll(s[..n], limit);
    CountAll(s[n..], limit);
  }

  lemma {:induction false} CountIgnoresOrder(a: seq<nat>, b: seq<nat>, limit: nat)
    requires multiset(a) == multiset(b)
    ensures CountBelow(a, limit) == CountBelow(b, limit) && |a| == |b|
  {
    assert |a| == |multiset(a)| == |b|;
    if a != [] {
      assert a[0] in multiset(b);
      var i :| 0 <= i < |b| && b[i] == a[0];
      Taken(a, b, i);
      var rest := b[..i] + b[i + 1..];
      CountIgnoresOrder(a[1..], rest, limit);
      CountOfConcat(b[..i], [b[i]] + b[i + 1..], limit);
      CountOfConcat([b[i]], b[i + 1..], limit);
      CountOfConcat(b[..i], b[i + 1..], limit);
      CountOfConcat([a[0]], a[1..], limit);
    }
  }

  /** The definition does not see the order of the samples. */
  lemma P95IgnoresOrder(a: seq<nat>, b: seq<nat>, q: nat)
    requires multiset(a) == multiset(b)
    ensures IsP95(a, q) <==> IsP95(b, q)
  {
    CountIgnoresOrder(a, b, q);
    CountIgnoresOrder(a, b, q + 1);
    assert q in a <==> q in multiset(a);
    assert q in b <==> q in multiset(b);
  }

  lemma {:induction false} CountGrows(s: seq<nat>, a: nat, b: nat)
    requires a <= b
    ensures CountBelow(s, a) <= CountBelow(s, b)
  {
    if s != [] { CountGrows(s[1..], a, b); }
  }

  /** It determines the result. */
  lemma P95IsUnique(s: seq<nat>, p: nat, q: nat)
    requires IsP95(s, p) && IsP95(s, q)
    ensures p == q
  {
    if p < q { CountGrows(s, p + 1, q); }
    if q < p { CountGrows(s, q + 1, p); }
  }

  /** `sorted(values)[rank - 1]`. */
  lemma SortedRankIsP95(s: seq<nat>)
    requires s != []
    ensures |Sorted(s)| == |s| && 1 <= Rank(|s|) <= |s| && IsP95(s, Sorted(s)[Rank(|s|) - 1])
  {
    SortedSorts(s);
    hide Sorted;
    var t := Sorted(s);
    assert |t| == |multiset(t)| == |s|;
    RankInRange(|s|);
    hide Rank;
    CountAtRank(t, Rank(|s|));
    P95IgnoresOrder(t, s, t[Rank(|s|) - 1]);
  }

  // ---- The summary -------------------------------------------------------------------------------

  /** `_independent_ttft`. */
  method IndependentTtft(records: seq<Record>) returns (summary: Option<Summary>)
    ensures summary.Some? <==>
      (forall i :: 0 <= i < |records| ==> WellFormed(records[i])) && exists i :: 0 <= i < |records| && Succeeded(records[i])
    ensures summary.Some? ==>
      && summary.value.successes == summary.value.samples == |Samples(records)|
      && IsP95(Samples(records), summary.value.p95)
  {
    hide IsP95, Sorted;
    var values: seq<nat> := [];
    var successes := 0;
    for n := 0 to |records|
      invariant forall i :: 0 <= i < n ==> WellFormed(records[i])
      invariant values == Samples(records[..n]) && successes == |values|
      invariant values != [] <==> exists i :: 0 <= i < n && Succeeded(records[i])
    {
      var r := records[n];
      assert records[..n + 1][..n] == records[..n];
      if !r.outcome.Outcome? || !r.timing.Timing? { return None; }
      if r.outcome.status == Some("SUCCESS") {
        successes := successes + 1;
        if r.timing.definition != Some(NATIVE) || !r.timing.ttft.Integer? || r.timing.ttft.n < 0 { return None; }
        values := values + [r.timing.ttft.n as nat];
      }
    }
    assert records[..|records|] == records;
    if values == [] { return None; }
    SortedRankIsP95(values);
    summary := Some(Summary(successes, |values|, Sorted(values)[Rank(|values|) - 1]));
  }

  lemma {:induction false} SamplesOfConcat(a: seq<Record>, b: seq<Record>)
    ensures Samples(a + b) == Samples(a) + Samples(b)
  {
    hide Succeeded, Sample;
    if b == [] {
      assert a + b == a;
    } else {
      assert (a + b)[..|a + b| - 1] == a + b[..|b| - 1];
      SamplesOfConcat(a, b[..|b| - 1]);
    }
  }

  /** The samples of reordered records are the reordered samples. */
  lemma {:induction false} SamplesIgnoreOrder(a: seq<Record>, b: seq<Record>)
    requires multiset(a) == multiset(b)
    ensures multiset(Samples(a)) == multiset(Samples(b))
    decreases |a|
  {
    hide Succeeded, Sample;
    assert |a| == |multiset(a)| == |b|;
    if a != [] {
      assert a[0] in multiset(b);
      var i :| 0 <= i < |b| && b[i] == a[0];
      Taken(a, b, i);
      var rest := b[..i] + b[i + 1..];
      SamplesIgnoreOrder(a[1..], rest);
      SamplesOfConcat([a[0]], a[1..]);
      SamplesOfConcat(b[..i], [b[i]] + b[i + 1..]);
      SamplesOfConcat([b[i]], b[i + 1..]);
      SamplesOfConcat(b[..i], b[i + 1..]);
    }
  }

  /** Whatever the order of the records, the reported percentile is the same. */
  lemma RecordOrderIsIrrelevant(a: seq<Record>, b: seq<Record>, p: nat, q: nat)
    requires multiset(a) == multiset(b)
    requires IsP95(Samples(a), p) && IsP95(Samples(b), q)
    ensures p == q
  {
    hide IsP95, Samples;
    SamplesIgnoreOrder(a, b);
    P95IgnoresOrder(Samples(a), Samples(b), q);
    P95IsUnique(Samples(a), p, q);
  }

  /** Rows the summary refuses: no outcome or timing, and successes whose time is missing, negative,
      a boolean, or measured by another definition. */
  lemma BadRowsAreRefused(r: Record)
    ensures r.outcome.NoOutcome? || r.timing.NoTiming? ==> !WellFormed(r)
    ensures r.outcome == Outcome(Some("SUCCESS")) && r.timing.Timing? ==>
      (WellFormed(r) <==>
        && r.timing.definition == Some("vllm_first_choices_event_v0_26")
        && exists n: nat :: r.timing.ttft == Integer(n))
    ensures r.outcome.Outcome? && r.outcome.status != Some("SUCCESS") && r.timing.Timing? ==> WellFormed(r) && !Succeeded(r)
  {
    if r.timing.Timing? && r.timing.ttft.Integer? && r.timing.ttft.n >= 0 {
      var n: nat := r.timing.ttft.n;
      assert r.timing.ttft == Integer(n);
    }
  }
}
