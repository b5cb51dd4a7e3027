/** The company dashboard's derived state: its three status buckets (which
    group "Collected" differently from the customer side), the stats record,
    the search filter, the status badge and the recent-products list. */
module CompanyDashboard {
  import opened Wrappers
  import opened Collections
  import opened Lifecycle
  import CustomerDashboard

  /** The company side puts "Collected" in the market, beside "Pending Pickup". */
  predicate IsInMarketStatus(status: Option<string>) {
    status.Some? && status.value in {PendingPickup, Collected}
  }

  predicate IsCollectedStatus(status: Option<string>) {
    status.Some? && status.value in {Processing, Recycled}
  }

  function InMarketProducts(ps: seq<Product>): seq<Product> {
    Filter(ps, (p: Product) => IsInMarketStatus(p.currentStatus))
  }

  function CollectedProducts(ps: seq<Product>): seq<Product> {
    Filter(ps, (p: Product) => IsCollectedStatus(p.currentStatus))
  }

  /** No product value sits in two buckets, and each bucket keeps list order. */
  lemma BucketsDisjoint(ps: seq<Product>)
    ensures forall p :: p in ActiveProducts(ps) ==> p !in InMarketProducts(ps) && p !in CollectedProducts(ps)
    ensures forall p :: p in InMarketProducts(ps) ==> p !in CollectedProducts(ps)
    ensures IsSubsequence(ActiveProducts(ps), ps)
    ensures IsSubsequence(InMarketProducts(ps), ps)
    ensures IsSubsequence(CollectedProducts(ps), ps)
  {
    FilterIsSubsequence(ps, (p: Product) => IsActiveStatus(p.currentStatus));
    FilterIsSubsequence(ps, (p: Product) => IsInMarketStatus(p.currentStatus));
    FilterIsSubsequence(ps, (p: Product) => IsCollectedStatus(p.currentStatus));
  }

  lemma BucketsPartition(ps: seq<Product>)
    ensures multiset(ActiveProducts(ps)) + multiset(InMarketProducts(ps))
          + multiset(CollectedProducts(ps)) + multiset(UnknownStatusProducts(ps)) == multiset(ps)
  {
    var lhs := multiset(ActiveProducts(ps)) + multiset(InMarketProducts(ps))
             + multiset(CollectedProducts(ps)) + multiset(UnknownStatusProducts(ps));
    forall x ensures lhs[x] == multiset(ps)[x] {
      FilterMultiset(ps, (p: Product) => IsActiveStatus(p.currentStatus), x);
      FilterMultiset(ps, (p: Product) => IsInMarketStatus(p.currentStatus), x);
      FilterMultiset(ps, (p: Product) => IsCollectedStatus(p.currentStatus), x);
      FilterMultiset(ps, (p: Product) => !IsKnownStatus(p.currentStatus), x);
    }
  }

  datatype Stats = Stats(totalProducts: nat, activeProducts: nat, inMarket: nat, collected: nat)

  /** The `stats` record: the total is the list length, which bounds the sum of
      the bucket sizes, with equality exactly when every status is known. */
  function StatsOf(ps: seq<Product>): (s: Stats)
    ensures s.totalProducts == |ps|
    ensures s.activeProducts == |ActiveProducts(ps)|
    ensures s.inMarket == |InMarketProducts(ps)|
    ensures s.collected == |CollectedProducts(ps)|
    ensures s.activeProducts + s.inMarket + s.collected <= s.totalProducts
    ensures s.activeProducts + s.inMarket + s.collected == s.totalProducts <==> AllKnown(ps)
  {
    BucketsPartition(ps);
    assert |multiset(ps)| == |ps|;
    NoUnknownIffAllKnown(ps);
    Stats(|ps|, |ActiveProducts(ps)|, |InMarketProducts(ps)|, |CollectedProducts(ps)|)
  }

  /** Any status after "Registered"/"Active": pending pickup or later. */
  predicate IsInLifecycleStatus(status: Option<string>) {
    status.Some? && status.value in {PendingPickup, Collected, Processing, Recycled}
  }

  /** The "In Lifecycle" tab count, `inMarketProducts.length + collectedProducts.length`. */
  function InLifecycleCount(ps: seq<Product>): nat {
    |InMarketProducts(ps)| + |CollectedProducts(ps)|
  }

  /** The tab counts every product whose status is pending pickup or later,
      each once. */
  lemma {:induction false} InLifecycleCountIsLifecycleProducts(ps: seq<Product>)
    ensures InLifecycleCount(ps) == |Filter(ps, (p: Product) => IsInLifecycleStatus(p.currentStatus))|
  {
    if ps != [] {
      InLifecycleCountIsLifecycleProducts(ps[1..]);
    }
  }

  /** The two dashboards split the later statuses differently but cover the
      same products: customer pending + collected equals company in-market +
      collected. */
  lemma {:induction false} DashboardsAgreeOnLifecycleTotal(ps: seq<Product>)
    ensures |CustomerDashboard.PendingPickupProducts(ps)| + |CustomerDashboard.CollectedProducts(ps)|
         == |InMarketProducts(ps)| + |CollectedProducts(ps)|
  {
    if ps != [] {
      DashboardsAgreeOnLifecycleTotal(ps[1..]);
    }
  }

  /** ... and they disagree on where a "Collected" product goes. */
  lemma CollectedStatusDisagreement(ps: seq<Product>, p: Product)
    requires p in ps && p.currentStatus == Some(Collected)
    ensures p in CustomerDashboard.CollectedProducts(ps) && p !in CustomerDashboard.PendingPickupProducts(ps)
    ensures p in InMarketProducts(ps) && p !in CollectedProducts(ps)
  {
  }

  /** The search test: the lower-cased query occurs in the lower-cased name,
      RFID, category or material. */
  predicate MatchesSearch(p: Product, query: string) {
    var q := Lower(query);
    Includes(Lower(p.productName), q) || Includes(Lower(p.rfid), q)
      || Includes(Lower(p.category), q) || Includes(Lower(p.material), q)
  }

  /** `filteredProducts`. */
  function FilteredProducts(ps: seq<Product>, query: string): seq<Product> {
    Filter(ps, (p: Product) => MatchesSearch(p, query))
  }

  /** A product is shown exactly when it is in the list and one of its four
      fields contains the query, ignoring case. */
  lemma SearchIff(ps: seq<Product>, query: string, p: Product)
    ensures p in FilteredProducts(ps, query) <==>
      p in ps && exists i: nat ::
        OccursAt(Lower(p.productName), Lower(query), i) || OccursAt(Lower(p.rfid), Lower(query), i)
        || OccursAt(Lower(p.category), Lower(query), i) || OccursAt(Lower(p.material), Lower(query), i)
  {
    IncludesIffOccurs(Lower(p.productName), Lower(query));
    IncludesIffOccurs(Lower(p.rfid), Lower(query));
    IncludesIffOccurs(Lower(p.category), Lower(query));
    IncludesIffOccurs(Lower(p.material), Lower(query));
  }

  /** An empty query shows every product; any query keeps list order. */
  lemma EmptySearchKeepsAll(ps: seq<Product>)
    ensures FilteredProducts(ps, "") == ps
  {
    forall p | p in ps ensures MatchesSearch(p, "") {
      IncludesEmpty(Lower(p.productName));
    }
    FilterKeepsAll(ps, (p: Product) => MatchesSearch(p, ""));
  }

  lemma SearchKeepsOrder(ps: seq<Product>, query: string)
    ensures IsSubsequence(FilteredProducts(ps, query), ps)
  {
    FilterIsSubsequence(ps, (p: Product) => MatchesSearch(p, query));
  }

  /** Case does not matter in the query. */
  lemma SearchIgnoresQueryCase(ps: seq<Product>, query: string)
    ensures FilteredProducts(ps, Lower(query)) == FilteredProducts(ps, query)
  {
    LowerIdempotent(query);
    FilterCongruent(ps, (p: Product) => MatchesSearch(p, Lower(query)), (p: Product) => MatchesSearch(p, query));
  }

  /** The colour classes of the six known statuses. */
  const StatusColors: map<string, string> := map[
    Registered := "bg-blue-500/10 text-blue-700 dark:text-blue-400 border-blue-300",
    Active := "bg-green-500/10 text-green-700 dark:text-green-400 border-green-300",
    PendingPickup := "bg-yellow-500/10 text-yellow-700 dark:text-yellow-400 border-yellow-300",
    Collected := "bg-purple-500/10 text-purple-700 dark:text-purple-400 border-purple-300",
    Processing := "bg-orange-500/10 text-orange-700 dark:text-orange-400 border-orange-300",
    Recycled := "bg-emerald-500/10 text-emerald-700 dark:text-emerald-400 border-emerald-300"]

  const FallbackColor := "bg-gray-500/10"

  datatype Badge = Badge(text: string, colorClass: string)

  /** `getStatusBadge`: the text is the status, or "Active" when it is absent
      or empty; the colour is the status's own, or grey for one it does not
      know. */
  function StatusBadge(status: Option<string>): (b: Badge)
    ensures Truthy(status) ==> b.text == status.value
    ensures !Truthy(status) ==> b.text == Active && b.colorClass == StatusColors[Active]
    ensures b.text in StatusColors ==> b.colorClass == StatusColors[b.text]
    ensures b.text !in StatusColors ==> b.colorClass == FallbackColor
  {
    var text := OrElse(status, Active);
    Badge(text, if text in StatusColors then StatusColors[text] else FallbackColor)
  }

  /** Known statuses get their own colour, others keep their text and turn grey. */
  lemma BadgeColorIffKnown(status: Option<string>)
    ensures StatusBadge(status).colorClass != FallbackColor <==> IsKnownStatus(status)
  {
  }

  /** "Recent Products": the first five, or all when there are fewer. */
  function RecentProducts(ps: seq<Product>): (r: seq<Product>)
    ensures |r| == if |ps| < 5 then |ps| else 5
    ensures r == ps[..|r|]
  {
    Take(ps, 5)
  }
}
