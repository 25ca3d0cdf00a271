/** Which orders the driver page lists (app/driver/page.tsx): every
    pay-on-delivery order, and a pay-now order only once it is paid. Fetching
    the orders is I/O and is not modelled; the page receives them as a list. */
module DriverPage {
  import opened Types
  import opened Seqs

  /** The page's `filter` predicate. */
  predicate ShownToDriver(o: Order)
  {
    o.paymentMethod == PayOnDelivery || (o.paymentMethod == PayNow && o.paymentStatus == Paid)
  }

  /** The orders handed to the dashboard. */
  function DriverOrders(all: seq<Order>): (r: seq<Order>)
    ensures forall k :: 0 <= k < |r| ==> r[k].paymentMethod == PayOnDelivery || r[k].paymentStatus == Paid
    ensures forall k :: 0 <= k < |all| && all[k].paymentMethod == PayOnDelivery ==> all[k] in r
    ensures forall k :: 0 <= k < |all| && all[k].paymentStatus == Paid ==> all[k] in r
    ensures IsSubsequence(r, all)
    ensures forall o {:trigger multiset(r)[o]} :: multiset(r)[o] == if ShownToDriver(o) then multiset(all)[o] else 0
  {
    Filter(all, ShownToDriver)
  }

  /** An order is listed exactly when it is pay-on-delivery or paid; in
      particular no pending pay-now order is ever listed. */
  lemma ListedIff(all: seq<Order>, o: Order)
    requires o in all
    ensures o in DriverOrders(all) <==> o.paymentMethod == PayOnDelivery || o.paymentStatus == Paid
    ensures o.paymentMethod == PayNow && o.paymentStatus == Pending ==> o !in DriverOrders(all)
  {
    var r := DriverOrders(all);
    if o in r {
      var k :| 0 <= k < |r| && r[k] == o;
    } else {
      var k :| 0 <= k < |all| && all[k] == o;
    }
  }
}
