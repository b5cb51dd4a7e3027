/** The customer dashboard's derived state: three status buckets, the earned
    and pending reward totals (12% of each product's price), the stats record
    and the label on each product's status badge. */
module CustomerDashboard {
  import opened Wrappers
  import opened Collections
  import opened Lifecycle

  /** The flat reward rate, 0.12 of the price. */
  const RewardRate: real := 0.12

  predicate IsPendingPickupStatus(status: Option<string>) {
    status == Some(PendingPickup)
  }

  /** The customer side counts "Collected" as done, beside "Processing" and
      "Recycled". */
  predicate IsCollectedStatus(status: Option<string>) {
    status.Some? && status.value in {Collected, Processing, Recycled}
  }

  function PendingPickupProducts(ps: seq<Product>): seq<Product> {
    Filter(ps, (p: Product) => IsPendingPickupStatus(p.currentStatus))
  }

  function CollectedProducts(ps: seq<Product>): seq<Product> {
    Filter(ps, (p: Product) => IsCollectedStatus(p.currentStatus))
  }

  /** Where each status goes: the three known groups land in exactly one bucket,
      anything else in none. */
  lemma {:induction false} StatusPlacement(ps: seq<Product>, p: Product)
    requires p in ps
    ensures IsActiveStatus(p.currentStatus) ==>
      p in ActiveProducts(ps) && p !in PendingPickupProducts(ps) && p !in CollectedProducts(ps)
    ensures p.currentStatus == Some(PendingPickup) ==>
      p !in ActiveProducts(ps) && p in PendingPickupProducts(ps) && p !in CollectedProducts(ps)
    ensures p.currentStatus in {Some(Collected), Some(Processing), Some(Recycled)} ==>
      p !in ActiveProducts(ps) && p !in PendingPickupProducts(ps) && p in CollectedProducts(ps)
    ensures !IsKnownStatus(p.currentStatus) ==>
      p !in ActiveProducts(ps) && p !in PendingPickupProducts(ps) && p !in CollectedProducts(ps)
  {
  }

  /** No product value sits in two buckets. */
  lemma BucketsDisjoint(ps: seq<Product>)
    ensures forall p :: p in ActiveProducts(ps) ==> p !in PendingPickupProducts(ps) && p !in CollectedProducts(ps)
    ensures forall p :: p in PendingPickupProducts(ps) ==> p !in CollectedProducts(ps)
  {
  }

  /** The three buckets and the unknown-status products together are the
      product list, as a multiset. */
  lemma BucketsPartition(ps: seq<Product>)
    ensures multiset(ActiveProducts(ps)) + multiset(PendingPickupProducts(ps))
          + multiset(CollectedProducts(ps)) + multiset(UnknownStatusProducts(ps)) == multiset(ps)
  {
    var lhs := multiset(ActiveProducts(ps)) + multiset(PendingPickupProducts(ps))
             + multiset(CollectedProducts(ps)) + multiset(UnknownStatusProducts(ps));
    forall x ensures lhs[x] == multiset(ps)[x] {
      FilterMultiset(ps, (p: Product) => IsActiveStatus(p.currentStatus), x);
      FilterMultiset(ps, (p: Product) => IsPendingPickupStatus(p.currentStatus), x);
      FilterMultiset(ps, (p: Product) => IsCollectedStatus(p.currentStatus), x);
      FilterMultiset(ps, (p: Product) => !IsKnownStatus(p.currentStatus), x);
    }
  }

  /** The bucket lengths sum to at most the number of products, with equality
      exactly when every status is known. */
  lemma BucketSizes(ps: seq<Product>)
    ensures |ActiveProducts(ps)| + |PendingPickupProducts(ps)| + |CollectedProducts(ps)| <= |ps|
    ensures |ActiveProducts(ps)| + |PendingPickupProducts(ps)| + |CollectedProducts(ps)| == |ps| <==> AllKnown(ps)
  {
    BucketsPartition(ps);
    assert |multiset(ps)| == |ps|;
    NoUnknownIffAllKnown(ps);
  }

  /** Each bucket keeps the products in their list order. */
  lemma BucketsAreSubsequences(ps: seq<Product>)
    ensures IsSubsequence(ActiveProducts(ps), ps)
    ensures IsSubsequence(PendingPickupProducts(ps), ps)
    ensures IsSubsequence(CollectedProducts(ps), ps)
  {
    FilterIsSubsequence(ps, (p: Product) => IsActiveStatus(p.currentStatus));
    FilterIsSubsequence(ps, (p: Product) => IsPendingPickupStatus(p.currentStatus));
    FilterIsSubsequence(ps, (p: Product) => IsCollectedStatus(p.currentStatus));
  }

  /** `product.price ? product.price * 0.12 : 0`: an absent or zero price adds
      nothing. */
  function Reward(p: Product): (r: real)
    ensures p.price.None? || p.price.value == 0.0 ==> r == 0.0
    ensures p.price.Some? && p.price.value >= 0.0 ==> 0.0 <= r <= p.price.value
  {
    if p.price.Some? && p.price.value != 0.0 then p.price.value * RewardRate else 0.0
  }

  /** `ps.reduce((sum, p) => sum + reward(p), 0)`: a left fold. */
  function RewardSum(ps: seq<Product>): real {
    if ps == [] then 0.0 else RewardSum(ps[..|ps| - 1]) + Reward(ps[|ps| - 1])
  }

  lemma {:induction false} RewardSumAppend(xs: seq<Product>, ys: seq<Product>)
    ensures RewardSum(xs + ys) == RewardSum(xs) + RewardSum(ys)
    decreases |ys|
  {
    if ys == [] {
      assert xs + ys == xs;
    } else {
      var n := |ys| - 1;
      assert (xs + ys)[..|xs + ys| - 1] == xs + ys[..n];
      RewardSumAppend(xs, ys[..n]);
    }
  }

  lemma {:induction false} RewardSumNonNegative(ps: seq<Product>)
    requires forall p :: p in ps && p.price.Some? ==> p.price.value >= 0.0
    ensures RewardSum(ps) >= 0.0
  {
    if ps != [] {
      assert ps[|ps| - 1] in ps;
      assert forall p :: p in ps[..|ps| - 1] ==> p in ps;
      RewardSumNonNegative(ps[..|ps| - 1]);
    }
  }

  /** The sum does not depend on the order of the list. */
  lemma {:induction false} RewardSumPermutation(xs: seq<Product>, ys: seq<Product>)
    requires multiset(xs) == multiset(ys)
    ensures RewardSum(xs) == RewardSum(ys)
    decreases |xs|
  {
    if xs != [] {
      var n := |xs| - 1;
      var last := xs[n];
      assert xs == xs[..n] + [last];
      assert last in multiset(ys);
      var j :| 0 <= j < |ys| && ys[j] == last;
      assert ys == ys[..j] + [last] + ys[j + 1..];
      var rest := ys[..j] + ys[j + 1..];
      assert multiset(xs) == multiset(xs[..n]) + multiset{last};
      assert multiset(ys) == multiset(ys[..j]) + multiset{last} + multiset(ys[j + 1..]);
      assert multiset(rest) == multiset(ys[..j]) + multiset(ys[j + 1..]);
      assert multiset(xs[..n]) == multiset(xs) - multiset{last};
      assert multiset(rest) == multiset(ys) - multiset{last};
      RewardSumPermutation(xs[..n], rest);
      RewardSumAppend(ys[..j] + [last], ys[j + 1..]);
      RewardSumAppend(ys[..j], [last]);
      RewardSumAppend(ys[..j], ys[j + 1..]);
      assert RewardSum([last]) == Reward(last) by {
        assert [last][..0] == [];
      }
    } else {
      assert |ys| == |multiset(ys)| == 0;
    }
  }

  /** Rewards already earned: only the collected bucket. */
  function EarnedRewards(ps: seq<Product>): real {
    RewardSum(CollectedProducts(ps))
  }

  /** Rewards still to come: the active bucket followed by the pending-pickup
      bucket. */
  function PendingRewards(ps: seq<Product>): real {
    RewardSum(ActiveProducts(ps) + PendingPickupProducts(ps))
  }

  /** Earned and pending rewards and the rewards of unknown-status products
      together are the rewards of the whole list: an unknown status contributes
      to neither total. */
  lemma RewardsPartition(ps: seq<Product>)
    ensures EarnedRewards(ps) + PendingRewards(ps) + RewardSum(UnknownStatusProducts(ps)) == RewardSum(ps)
  {
    var a, pp, c, u := ActiveProducts(ps), PendingPickupProducts(ps), CollectedProducts(ps), UnknownStatusProducts(ps);
    BucketsPartition(ps);
    assert multiset(c + (a + pp) + u) == multiset(ps);
    RewardSumPermutation(c + (a + pp) + u, ps);
    RewardSumAppend(c + (a + pp), u);
    RewardSumAppend(c, a + pp);
  }

  /** Both totals are non-negative when no price is negative. */
  lemma RewardsNonNegative(ps: seq<Product>)
    requires forall p :: p in ps && p.price.Some? ==> p.price.value >= 0.0
    ensures EarnedRewards(ps) >= 0.0 && PendingRewards(ps) >= 0.0
  {
    RewardSumNonNegative(CollectedProducts(ps));
    RewardSumNonNegative(ActiveProducts(ps) + PendingPickupProducts(ps));
  }

  /** Reordering the product list changes neither total. */
  lemma RewardsOrderIndependent(ps: seq<Product>, qs: seq<Product>)
    requires multiset(ps) == multiset(qs)
    ensures EarnedRewards(ps) == EarnedRewards(qs)
    ensures PendingRewards(ps) == PendingRewards(qs)
  {
    FilterPermutation(ps, qs, (p: Product) => IsCollectedStatus(p.currentStatus));
    RewardSumPermutation(CollectedProducts(ps), CollectedProducts(qs));
    FilterPermutation(ps, qs, (p: Product) => IsActiveStatus(p.currentStatus));
    FilterPermutation(ps, qs, (p: Product) => IsPendingPickupStatus(p.currentStatus));
    RewardSumPermutation(ActiveProducts(ps) + PendingPickupProducts(ps), ActiveProducts(qs) + PendingPickupProducts(qs));
  }

  /** `Math.round(x * 100) / 100`. `Math.round` takes the nearest integer and
      breaks ties upwards, which is `floor(v + 1/2)`. The result is a whole
      number of hundredths within half a hundredth of `x`, below or at. */
  function RoundToCents(x: real): (r: real)
    ensures (r * 100.0).Floor as real == r * 100.0
    ensures x - 0.005 < r <= x + 0.005
    ensures x >= 0.0 ==> r >= 0.0
  {
    ((x * 100.0 + 0.5).Floor as real) / 100.0
  }

  /** A total that is already whole hundredths is left as it is. */
  lemma RoundWholeCents(x: real)
    requires (x * 100.0).Floor as real == x * 100.0
    ensures RoundToCents(x) == x
  {
    var v := x * 100.0;
    assert (v + 0.5).Floor == v.Floor;
  }

  datatype Stats = Stats(registeredProducts: nat, collected: nat, pendingPickup: nat, totalRewards: real)

  /** The `stats` record: the three bucket sizes and the earned total rounded to
      hundredths. */
  function StatsOf(ps: seq<Product>): (s: Stats)
    ensures s.registeredProducts == |ActiveProducts(ps)|
    ensures s.collected == |CollectedProducts(ps)|
    ensures s.pendingPickup == |PendingPickupProducts(ps)|
    ensures s.registeredProducts + s.collected + s.pendingPickup <= |ps|
    ensures s.registeredProducts + s.collected + s.pendingPickup == |ps| <==> AllKnown(ps)
    ensures (s.totalRewards * 100.0).Floor as real == s.totalRewards * 100.0
    ensures EarnedRewards(ps) - 0.005 < s.totalRewards <= EarnedRewards(ps) + 0.005
  {
    BucketSizes(ps);
    Stats(|ActiveProducts(ps)|, |CollectedProducts(ps)|, |PendingPickupProducts(ps)|,
          RoundToCents(EarnedRewards(ps)))
  }

  /** The text of `getStatusBadge`: the four later statuses show themselves,
      anything else (absent, empty, "Registered", "Active" or unknown) shows
      "Active". */
  function BadgeLabel(status: Option<string>): (text: string)
    ensures status.Some? && status.value in {PendingPickup, Collected, Processing, Recycled} ==> text == status.value
    ensures !(status.Some? && status.value in {PendingPickup, Collected, Processing, Recycled}) ==> text == Active
  {
    match status
    case Some(s) =>
      if s == PendingPickup then PendingPickup
      else if s == Collected then Collected
      else if s == Processing then Processing
      else if s == Recycled then Recycled
      else Active
    case None => Active
  }

  /** The badge and the buckets disagree on unknown statuses: such a product is
      labelled "Active" but counted in no bucket, so it adds to neither reward
      total. */
  lemma UnknownStatusLabelledActiveButUncounted(ps: seq<Product>, p: Product)
    requires p in ps && !IsKnownStatus(p.currentStatus)
    ensures BadgeLabel(p.currentStatus) == Active
    ensures p !in ActiveProducts(ps) && p !in PendingPickupProducts(ps) && p !in CollectedProducts(ps)
  {
  }

  /** Two products, 100 active and 200 recycled: 24 earned, 12 pending. */
  lemma TwoProductExample()
    ensures var ps := [Product("a", "r1", "c", "m", Some(100.0), Some(Active)),
                       Product("b", "r2", "c", "m", Some(200.0), Some(Recycled))];
            EarnedRewards(ps) == 24.0 && PendingRewards(ps) == 12.0 && StatsOf(ps).totalRewards == 24.0
  {
    var a := Product("a", "r1", "c", "m", Some(100.0), Some(Active));
    var b := Product("b", "r2", "c", "m", Some(200.0), Some(Recycled));
    var ps := [a, b];
    assert ps[1..] == [b];
    assert [b][1..] == [];
    assert IsCollectedStatus(b.currentStatus) && !IsCollectedStatus(a.currentStatus);
    assert IsActiveStatus(a.currentStatus) && !IsActiveStatus(b.currentStatus);
    assert CollectedProducts([b]) == [b] && ActiveProducts([b]) == [] && PendingPickupProducts([b]) == [];
    assert CollectedProducts(ps) == [b];
    assert ActiveProducts(ps) == [a];
    assert PendingPickupProducts(ps) == [];
    assert RewardSum([b]) == 24.0 by { assert [b][..0] == []; }
    assert RewardSum([a]) == 12.0 by { assert [a][..0] == []; }
    assert [a] + [] == [a];
    RoundWholeCents(24.0);
  }
}
