/** The driver dashboard's order search (components/driver/DriverDashboard.tsx):
    the status an order is shown and searched under, and the `filteredOrders`
    memo. */
module DriverDashboard {
  import opened Types
  import opened Strings
  import opened Seqs
  import opened DriverPage

  /** The status derived from an order's delivery and payment fields. */
  datatype DerivedStatus = StatusDelivered | StatusPaid | StatusPending

  /** Delivered wins over paid, and anything else is pending (an order with
      no delivery status counts as not delivered). */
  function StatusOf(o: Order): (r: DerivedStatus)
    ensures r == StatusDelivered <==> o.deliveryStatus == Some(Delivered)
    ensures r == StatusPaid <==> o.deliveryStatus != Some(Delivered) && o.paymentStatus == Paid
    ensures r == StatusPending <==> o.deliveryStatus != Some(Delivered) && o.paymentStatus != Paid
  {
    if o.deliveryStatus == Some(Delivered) then StatusDelivered
    else if o.paymentStatus == Paid then StatusPaid
    else StatusPending
  }

  /** The word the search matches the status against. */
  function SearchLabel(s: DerivedStatus): string
  {
    match s
    case StatusDelivered => "delivered"
    case StatusPaid => "paid"
    case StatusPending => "pending"
  }

  /** The word the table's status badge shows. */
  function BadgeLabel(s: DerivedStatus): string
  {
    match s
    case StatusDelivered => "Delivered"
    case StatusPaid => "Paid"
    case StatusPending => "Pending"
  }

  /** The badge and the search use the same status: the badge's word is the
      search word capitalised, and distinct statuses have distinct words. */
  lemma LabelsAgree(s: DerivedStatus, t: DerivedStatus)
    ensures ToLower(BadgeLabel(s)) == SearchLabel(s)
    ensures SearchLabel(s) == SearchLabel(t) <==> s == t
  {
    assert ToLower(BadgeLabel(s))[0] == SearchLabel(s)[0];
    if s != t {
      assert SearchLabel(s)[0] != SearchLabel(t)[0] || |SearchLabel(s)| != |SearchLabel(t)|;
    }
  }

  /** `query.trim().toLowerCase()`. */
  function SearchTerm(query: string): string
  {
    ToLower(Trim(query))
  }

  /** The search predicate for a non-empty term. */
  predicate MatchesTerm(o: Order, term: string)
  {
    || Includes(ToLower(o.id), term)
    || Includes(ToLower(o.name), term)
    || Includes(SearchLabel(StatusOf(o)), term)
  }

  /** `filteredOrders`: the whole list for a blank query, otherwise the
      orders whose lower-cased id, lower-cased name or status word contains
      the term, in their original order. */
  function FilterOrders(orders: seq<Order>, query: string): (r: seq<Order>)
    ensures SearchTerm(query) == "" ==> r == orders
    ensures IsSubsequence(r, orders)
    ensures forall k :: 0 <= k < |r| ==> r[k] in orders
    ensures SearchTerm(query) != "" ==>
              && (forall k :: 0 <= k < |r| ==> MatchesTerm(r[k], SearchTerm(query)))
              && (forall k :: 0 <= k < |orders| && MatchesTerm(orders[k], SearchTerm(query)) ==> orders[k] in r)
              && (forall o {:trigger multiset(r)[o]} :: multiset(r)[o] == if MatchesTerm(o, SearchTerm(query)) then multiset(orders)[o] else 0)
  {
    var term := SearchTerm(query);
    SubsequenceOfSelf(orders);
    if term == "" then orders else Filter(orders, o => MatchesTerm(o, term))
  }

  /** For a non-blank query an order of the list is kept exactly when it
      matches the term. */
  lemma KeptIffMatches(orders: seq<Order>, query: string, o: Order)
    requires o in orders && SearchTerm(query) != ""
    ensures o in FilterOrders(orders, query) <==> MatchesTerm(o, SearchTerm(query))
  {
    var r := FilterOrders(orders, query);
    if o in r {
      var k :| 0 <= k < |r| && r[k] == o;
    } else {
      var k :| 0 <= k < |orders| && orders[k] == o;
    }
  }

  /** A query that is blank once trimmed, such as "   ", keeps every order. */
  lemma BlankQueryKeepsAll(orders: seq<Order>, query: string)
    requires forall k :: 0 <= k < |query| ==> IsWhitespace(query[k])
    ensures FilterOrders(orders, query) == orders
  {
    assert TrimStart(query) == [];
  }

  /** A word of lower-case ASCII letters is its own search term. */
  lemma {:induction false} LowerWordIsItsOwnTerm(q: string)
    requires |q| > 0 && forall k :: 0 <= k < |q| ==> 'a' <= q[k] <= 'z'
    ensures SearchTerm(q) == q
  {
    var first, last := q[0], q[|q| - 1];
    assert 'a' <= first <= 'z' && 'a' <= last <= 'z';
    assert !IsWhitespace(first) && !IsWhitespace(last);
    TrimKeepsUnpadded(q);
    assert forall k :: 0 <= k < |q| ==> LowerChar(q[k]) == q[k];
  }

  /** A status word is already trimmed and lower-case. */
  lemma SearchLabelIsItsOwnTerm(s: DerivedStatus)
    ensures SearchTerm(SearchLabel(s)) == SearchLabel(s)
  {
    match s
    case StatusDelivered => LowerWordIsItsOwnTerm("delivered");
    case StatusPaid => LowerWordIsItsOwnTerm("paid");
    case StatusPending => LowerWordIsItsOwnTerm("pending");
  }

  /** Searching for a status word finds every order in that status, whatever
      its id and name. */
  lemma StatusWordFindsStatus(orders: seq<Order>, s: DerivedStatus, o: Order)
    requires o in orders && StatusOf(o) == s
    ensures o in FilterOrders(orders, SearchLabel(s))
  {
    SearchLabelIsItsOwnTerm(s);
    IncludesEmptyAndSelf(SearchLabel(s));
    KeptIffMatches(orders, SearchLabel(s), o);
  }

  /** Searching the driver page's list never surfaces a pending pay-now
      order. */
  lemma SearchStaysWithinDriverOrders(all: seq<Order>, query: string)
    ensures forall k :: 0 <= k < |FilterOrders(DriverOrders(all), query)| ==>
              ShownToDriver(FilterOrders(DriverOrders(all), query)[k])
  {
    var shown := DriverOrders(all);
    var r := FilterOrders(shown, query);
    forall k | 0 <= k < |r|
      ensures ShownToDriver(r[k])
    {
      var j :| 0 <= j < |shown| && shown[j] == r[k];
    }
  }
}
