/** The dashboard's figures: how many proposals, their summed and average
  * value, and how many were created in the last thirty days. */
module ProposalMetrics {
  import opened Seqs
  import PC = ProposalContext

  datatype Metrics = Metrics(totalCount: nat, totalValue: int, recentCount: nat, averageValue: real)

  function Total(p: PC.Proposal): int
  {
    p.total
  }

  function CreatedSince(cutoff: int): PC.Proposal -> bool
  {
    (p: PC.Proposal) => p.createdAt >= cutoff
  }

  /** The proposals created at or after the cutoff, in order. */
  function Recent(proposals: seq<PC.Proposal>, cutoff: int): (r: seq<PC.Proposal>)
    ensures |r| <= |proposals|
    ensures forall p :: p in r <==> p in proposals && p.createdAt >= cutoff
  {
    Filter(proposals, CreatedSince(cutoff))
  }

  /** A division of reals, undone by multiplying back. */
  function Quotient(t: real, n: real): (q: real)
    requires n > 0.0
    ensures q * n == t
  {
    t / n
  }

  /** `useProposalMetrics`, with `cutoff` the instant thirty calendar days
    * before now. The average is a division of reals, as in JavaScript. */
  function Compute(proposals: seq<PC.Proposal>, cutoff: int): (r: Metrics)
    ensures r.totalCount == |proposals|
    ensures r.totalValue == SumBy(proposals, Total)
    ensures r.recentCount == |Recent(proposals, cutoff)| <= r.totalCount
    ensures r.totalCount > 0 ==> r.averageValue == (r.totalValue as real) / (r.totalCount as real)
    ensures r.totalCount == 0 ==> r.averageValue == 0.0 && r.totalValue == 0
  {
    var totalCount := |proposals|;
    var totalValue := SumBy(proposals, Total);
    var recentCount := |Recent(proposals, cutoff)|;
    if totalCount > 0 then
      var average := Quotient(totalValue as real, totalCount as real);
      Metrics(totalCount, totalValue, recentCount, average)
    else
      Metrics(0, totalValue, recentCount, 0.0)
  }

  /** The sum lies between the count times the smallest and the count
    * times the largest value. */
  lemma {:induction false} SumBetween(proposals: seq<PC.Proposal>, lo: int, hi: int)
    requires forall p :: p in proposals ==> lo <= p.total <= hi
    ensures |proposals| * lo <= SumBy(proposals, Total) <= |proposals| * hi
  {
    if proposals != [] {
      var rest := proposals[1..];
      assert forall p :: p in rest ==> p in proposals;
      SumBetween(rest, lo, hi);
      assert lo <= Total(proposals[0]) <= hi;
      BoundsStep(|rest|, SumBy(rest, Total), Total(proposals[0]), lo, hi);
    }
  }

  /** One more term between `lo` and `hi` keeps the sum between the count
    * times each bound. */
  lemma BoundsStep(n: int, s: int, x: int, lo: int, hi: int)
    requires n * lo <= s <= n * hi && lo <= x <= hi
    ensures (n + 1) * lo <= x + s <= (n + 1) * hi
  {
    assert (n + 1) * lo == n * lo + lo;
    assert (n + 1) * hi == n * hi + hi;
  }

  lemma QuotientBetween(t: real, n: real, lo: real, hi: real)
    requires n > 0.0 && n * lo <= t <= n * hi
    ensures lo <= Quotient(t, n) <= hi
  {
    var q := Quotient(t, n);
    assert (q - lo) * n == t - lo * n;
    assert (hi - q) * n == hi * n - t;
  }

  /** The average lies between the smallest and the largest value. */
  lemma AverageBetween(proposals: seq<PC.Proposal>, cutoff: int, lo: int, hi: int)
    requires proposals != []
    requires forall p :: p in proposals ==> lo <= p.total <= hi
    ensures lo as real <= Compute(proposals, cutoff).averageValue <= hi as real
  {
    SumBetween(proposals, lo, hi);
    var t := SumBy(proposals, Total);
    var n := |proposals|;
    assert (n * lo) as real == (n as real) * (lo as real);
    assert (n * hi) as real == (n as real) * (hi as real);
    QuotientBetween(t as real, n as real, lo as real, hi as real);
  }

  /** Counts and sums of two lists add up; the average is not additive. */
  lemma MetricsOfAppend(a: seq<PC.Proposal>, b: seq<PC.Proposal>, cutoff: int)
    ensures Compute(a + b, cutoff).totalValue == Compute(a, cutoff).totalValue + Compute(b, cutoff).totalValue
    ensures Compute(a + b, cutoff).recentCount == Compute(a, cutoff).recentCount + Compute(b, cutoff).recentCount
  {
    SumByAppend(a, b, Total);
    FilterAppend(a, b, CreatedSince(cutoff));
  }

  /** A later cutoff counts no more proposals as recent. */
  lemma {:induction false} LaterCutoffFewerRecent(proposals: seq<PC.Proposal>, c1: int, c2: int)
    requires c1 <= c2
    ensures Compute(proposals, c2).recentCount <= Compute(proposals, c1).recentCount
  {
    if proposals != [] {
      LaterCutoffFewerRecent(proposals[1..], c1, c2);
      assert proposals == [proposals[0]] + proposals[1..];
      FilterAppend([proposals[0]], proposals[1..], CreatedSince(c1));
      FilterAppend([proposals[0]], proposals[1..], CreatedSince(c2));
    }
  }
}
