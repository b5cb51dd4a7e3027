/** The product record as both dashboards read it, and the lifecycle status
    strings they test for. A missing `currentStatus` is `None`. */
module Lifecycle {
  import opened Wrappers
  import opened Collections

  const Registered := "Registered"
  const Active := "Active"
  const PendingPickup := "Pending Pickup"
  const Collected := "Collected"
  const Processing := "Processing"
  const Recycled := "Recycled"

  /** The fields of a product that the dashboards look at. The price arrives as
      a number on the customer side and as a string on the company side; the
      model holds it already parsed. */
  datatype Product = Product(
    productName: string,
    rfid: string,
    category: string,
    material: string,
    price: Option<real>,
    currentStatus: Option<string>)

  /** `!p.currentStatus || p.currentStatus === "Registered" || p.currentStatus === "Active"`:
      absent and empty both count as not yet in the lifecycle. Both dashboards
      use this rule for their active bucket. */
  predicate IsActiveStatus(status: Option<string>) {
    status.None? || status.value in {"", Registered, Active}
  }

  /** One of the six statuses the dashboards know, or none at all. */
  predicate IsKnownStatus(status: Option<string>) {
    IsActiveStatus(status) || status.value in {PendingPickup, Collected, Processing, Recycled}
  }

  predicate AllKnown(ps: seq<Product>) {
    forall p :: p in ps ==> IsKnownStatus(p.currentStatus)
  }

  /** `products.filter(p => !p.currentStatus || ...)` on either dashboard. */
  function ActiveProducts(ps: seq<Product>): seq<Product> {
    Filter(ps, (p: Product) => IsActiveStatus(p.currentStatus))
  }

  /** The products neither dashboard puts in any bucket. */
  function UnknownStatusProducts(ps: seq<Product>): seq<Product> {
    Filter(ps, (p: Product) => !IsKnownStatus(p.currentStatus))
  }

  lemma {:induction false} NoUnknownIffAllKnown(ps: seq<Product>)
    ensures UnknownStatusProducts(ps) == [] <==> AllKnown(ps)
  {
    if ps != [] {
      NoUnknownIffAllKnown(ps[1..]);
      assert ps == [ps[0]] + ps[1..];
    }
  }
}
