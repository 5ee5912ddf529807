/** The equal-share arithmetic of a red packet. */
module Shares {
  import opened Money

  function Min(a: int, b: int): int { if a < b then a else b }

  /** What is left of `total` cut into `count` shares once `k` of them are taken. */
  function RemainingAfter(total: int, count: int, k: int): int
    requires count > 0
  {
    total - k * (total / count) - Min(k, total % count)
  }

  /** The shape every stored packet keeps: its counters follow the closed form. */
  ghost predicate WellFormed(p: Packet)
  {
    && 1 <= p.totalCount <= p.totalAmount
    && 0 <= p.remainingCount <= p.totalCount
    && p.remainingAmount == RemainingAfter(p.totalAmount, p.totalCount, p.totalCount - p.remainingCount)
    && (p.status == Finished <==> p.remainingCount == 0)
    && p.expiresAt > 0
  }

  lemma Quotient(total: int, count: int)
    requires 1 <= count <= total
    ensures total == count * (total / count) + total % count && total / count >= 1
  {
  }

  /** With `r` shares left, what remains is `r` bases plus the ones not yet handed out. */
  lemma RemainingByShares(total: int, count: int, r: int)
    requires 1 <= count <= total && 0 <= r <= count
    ensures RemainingAfter(total, count, count - r)
         == r * (total / count) + (if count - r < total % count then total % count - (count - r) else 0)
    ensures RemainingAfter(total, count, count - r) >= r
    ensures r == 0 ==> RemainingAfter(total, count, count - r) == 0
  {
    var base := total / count;
    Quotient(total, count);
    assert (count - r) * base == count * base - r * base;
    assert r * base >= r * 1;
  }

  /** The next share is the base or the base plus one, fits, and leaves the closed form for one share less. */
  lemma NextShare(p: Packet)
    requires WellFormed(p) && p.remainingCount >= 1
    ensures var a := NextEqualClaimAmount(p); var k := p.totalCount - p.remainingCount;
            && a == p.totalAmount / p.totalCount + (if k < p.totalAmount % p.totalCount then 1 else 0)
            && 1 <= a <= p.remainingAmount
            && p.remainingAmount - a == RemainingAfter(p.totalAmount, p.totalCount, k + 1)
            && (p.remainingAmount == a <==> p.remainingCount == 1)
  {
    var base, k := p.totalAmount / p.totalCount, p.totalCount - p.remainingCount;
    Quotient(p.totalAmount, p.totalCount);
    RemainingByShares(p.totalAmount, p.totalCount, p.remainingCount);
    RemainingByShares(p.totalAmount, p.totalCount, p.remainingCount - 1);
    assert (k + 1) * base == k * base + base;
  }

  /** A claim keeps the shape and finishes the packet exactly when it takes the last share. */
  lemma AfterShare(p: Packet)
    requires WellFormed(p) && p.status == Active
    ensures var q := WithoutShare(p, NextEqualClaimAmount(p));
            && WellFormed(q)
            && (q.status == Finished <==> q.remainingCount == 0)
            && (q.status == Finished ==> q.remainingAmount == 0)
  {
    NextShare(p);
    RemainingByShares(p.totalAmount, p.totalCount, p.remainingCount - 1);
  }
}
