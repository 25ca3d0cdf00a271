/** The order store (lib/firebase/orders.ts over the Firestore "orders"
    collection): point read, add under a fresh id, partial-field update and
    equality query. The collection is a map from document id to order plus
    the sequence in which the store enumerates its documents. */
module Orders {
  import opened Types
  import opened Seqs

  /** The order fields the handlers query by equality. */
  datatype Field = PaystackRefField | RedemptionCodeField

  predicate FieldEquals(o: Order, f: Field, value: string)
  {
    match f
    case PaystackRefField => o.paystackRef == Some(value)
    case RedemptionCodeField => o.redemptionCode == value
  }

  /** The fields an `updateDocument` call names; absent ones are not written. */
  datatype OrderPatch = OrderPatch(paymentStatus: Option<PaymentStatus>, paystackRef: Option<string>)

  /** Firestore's partial merge: the named fields are overwritten and every
      other field of the document is kept. */
  function Merge(o: Order, p: OrderPatch): (r: Order)
    ensures p.paymentStatus.Some? ==> r.paymentStatus == p.paymentStatus.value
    ensures p.paymentStatus.None? ==> r.paymentStatus == o.paymentStatus
    ensures p.paystackRef.Some? ==> r.paystackRef == p.paystackRef
    ensures p.paystackRef.None? ==> r.paystackRef == o.paystackRef
    ensures r.(paymentStatus := o.paymentStatus, paystackRef := o.paystackRef) == o
  {
    o.(paymentStatus := if p.paymentStatus.Some? then p.paymentStatus.value else o.paymentStatus,
       paystackRef := if p.paystackRef.Some? then p.paystackRef else o.paystackRef)
  }

  /** The patch `updateOrderPaymentStatus` writes: the status always, the
      Paystack reference only when one is supplied and non-empty. */
  function PaymentStatusPatch(status: PaymentStatus, paystackRef: Option<string>): OrderPatch
  {
    OrderPatch(Some(status), if Truthy(paystackRef) then paystackRef else None)
  }

  /** What `updateOrderPaymentStatus` does to one order: the status is set,
      the reference is written only when non-empty, nothing else changes, and
      neither the current payment status nor the delivery status is consulted
      (a paid, delivered order can be set back to pending). Applying it twice
      is applying it once. */
  lemma PaymentStatusUpdate(o: Order, status: PaymentStatus, paystackRef: Option<string>)
    ensures var r := Merge(o, PaymentStatusPatch(status, paystackRef));
            && r.paymentStatus == status
            && r.paystackRef == (if Truthy(paystackRef) then paystackRef else o.paystackRef)
            && r.deliveryStatus == o.deliveryStatus && r.redemptionCode == o.redemptionCode
            && r.items == o.items && r.paymentMethod == o.paymentMethod && r.id == o.id
            && r.deliveryPosCode == o.deliveryPosCode && r.deliveryTransferCode == o.deliveryTransferCode
            && r.offlineReference == o.offlineReference && r.totalAmount == o.totalAmount
            && Merge(r, PaymentStatusPatch(status, paystackRef)) == r
  {
  }

  /** The ids, in enumeration order, of the documents whose field `f`
      equals `value`: a Firestore `where(f, "==", value)` query. */
  function MatchingIds(ids: seq<string>, orders: map<string, Order>, f: Field, value: string): (r: seq<string>)
    ensures forall k :: 0 <= k < |r| ==> r[k] in ids && r[k] in orders && FieldEquals(orders[r[k]], f, value)
    ensures forall id :: id in ids && id in orders && FieldEquals(orders[id], f, value) ==> id in r
    ensures IsSubsequence(r, ids)
  {
    if ids == [] then []
    else
      var front, last := ids[..|ids| - 1], ids[|ids| - 1];
      var keep := last in orders && FieldEquals(orders[last], f, value);
      var m := MatchingIds(front, orders, f, value);
      assert ids == front + [last];
      assert m + (if keep then [last] else []) == (if keep then m + [last] else m);
      SubsequenceSnoc(m, front, last, keep);
      m + (if keep then [last] else [])
  }

  /** Two stores that agree on which of the enumerated ids match a query give
      the same answer to it. */
  lemma {:induction false} MatchingIdsDependsOnlyOnMatches(ids: seq<string>, o1: map<string, Order>,
                                                           o2: map<string, Order>, f: Field, value: string)
    requires forall k :: 0 <= k < |ids| ==>
               (ids[k] in o1 && FieldEquals(o1[ids[k]], f, value)) == (ids[k] in o2 && FieldEquals(o2[ids[k]], f, value))
    ensures MatchingIds(ids, o1, f, value) == MatchingIds(ids, o2, f, value)
  {
    if ids != [] {
      MatchingIdsDependsOnlyOnMatches(ids[..|ids| - 1], o1, o2, f, value);
    }
  }

  /** Redemption codes are pairwise distinct across the store. */
  ghost predicate CodesUnique(orders: map<string, Order>)
  {
    forall a, b :: a in orders && b in orders && a != b ==> orders[a].redemptionCode != orders[b].redemptionCode
  }

  /** Some order in the store carries `code`. */
  ghost predicate CodeInUse(orders: map<string, Order>, code: string)
  {
    exists id :: id in orders && orders[id].redemptionCode == code
  }

  /** Adding an order whose code no order carries keeps codes unique. */
  lemma AddKeepsCodesUnique(orders: map<string, Order>, id: string, o: Order)
    requires CodesUnique(orders) && id !in orders && !CodeInUse(orders, o.redemptionCode)
    ensures CodesUnique(orders[id := o])
  {
  }

  /** A merge never touches the redemption code, so it keeps codes unique. */
  lemma MergeKeepsCodesUnique(orders: map<string, Order>, id: string, p: OrderPatch)
    requires CodesUnique(orders) && id in orders
    ensures CodesUnique(orders[id := Merge(orders[id], p)])
  {
    var after := orders[id := Merge(orders[id], p)];
    assert forall k :: k in orders ==> k in after && after[k].redemptionCode == orders[k].redemptionCode;
  }

  /** The Firestore "orders" collection. */
  class OrderStore {
    var orders: map<string, Order>
    /** The order in which the store enumerates its documents. */
    var ids: seq<string>

    ghost predicate Valid()
      reads this
    {
      && (forall id :: id in orders ==> orders[id].id == id)
      && (forall k :: 0 <= k < |ids| ==> ids[k] in orders)
      && (forall id :: id in orders ==> id in ids)
      && (forall j, k :: 0 <= j < k < |ids| ==> ids[j] != ids[k])
    }

    constructor ()
      ensures Valid() && orders == map[] && ids == []
    {
      orders := map[];
      ids := [];
    }

    /** `createOrder`: the given fields plus `createdAt`, stored under the
        fresh id the store assigns, which is returned. */
    method CreateOrder(data: Order, freshId: string, now: Timestamp) returns (id: string)
      requires Valid() && freshId !in orders
      modifies this
      ensures Valid()
      ensures id == freshId && orders == old(orders)[id := data.(id := id, createdAt := now)]
      ensures ids == old(ids) + [id]
    {
      id := freshId;
      orders := orders[id := data.(id := id, createdAt := now)];
      ids := ids + [id];
    }

    /** `getOrderById`: the stored order, or null for an unknown id. */
    method GetOrderById(id: string) returns (r: Option<Order>)
      ensures r.Some? <==> id in orders
      ensures r.Some? ==> r.value == orders[id]
    {
      if id in orders {
        r := Some(orders[id]);
      } else {
        r := None;
      }
    }

    /** `updateDocument`: a partial merge into an existing document. Updating
        a document that does not exist fails and changes nothing. */
    method UpdateDocument(id: string, patch: OrderPatch) returns (ok: bool)
      requires Valid()
      modifies this
      ensures Valid() && ids == old(ids)
      ensures ok <==> id in old(orders)
      ensures orders == if ok then old(orders)[id := Merge(old(orders)[id], patch)] else old(orders)
    {
      ok := id in orders;
      if ok {
        orders := orders[id := Merge(orders[id], patch)];
      }
    }

    /** `updateOrderPaymentStatus`: writes the status, and the reference when
        it is non-empty, without looking at the order's current state. */
    method UpdateOrderPaymentStatus(id: string, status: PaymentStatus, paystackRef: Option<string>)
      returns (ok: bool)
      requires Valid()
      modifies this
      ensures Valid() && ids == old(ids)
      ensures ok <==> id in old(orders)
      ensures orders == if ok then old(orders)[id := Merge(old(orders)[id], PaymentStatusPatch(status, paystackRef))]
                        else old(orders)
    {
      ok := UpdateDocument(id, PaymentStatusPatch(status, paystackRef));
    }

    /** `queryDocuments(field, "==", value)`: the matching documents' ids in
        enumeration order. */
    method QueryDocuments(f: Field, value: string) returns (r: seq<string>)
      ensures r == MatchingIds(ids, orders, f, value)
    {
      r := [];
      for i := 0 to |ids|
        invariant r == MatchingIds(ids[..i], orders, f, value)
      {
        assert ids[..i + 1][..i] == ids[..i];
        if ids[i] in orders && FieldEquals(orders[ids[i]], f, value) {
          r := r + [ids[i]];
        }
      }
      assert ids[..|ids|] == ids;
    }
  }
}
