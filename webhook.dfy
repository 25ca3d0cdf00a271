/** The Paystack webhook (app/api/paystack/webhook/route.ts): two signature
    guards, then, for a `charge.success` event, the order is marked paid. It
    is found by its stored Paystack reference or else by the `orderId` the
    transaction's metadata carries. */
module Webhook {
  import opened Types
  import opened Orders

  const ChargeSuccess: string := "charge.success"
  const MissingSignatureMessage: string := "Missing signature"
  const InvalidSignatureMessage: string := "Invalid signature"
  const SecretMissingMessage: string := "PAYSTACK_WEBHOOK_SECRET is not configured"
  /** The store's error for an update of a document that does not exist. */
  const NoDocumentMessage: string := "No document to update"

  /** The outcome of the HMAC-SHA512 comparison, which throws when the secret
      is not configured. */
  datatype SignatureCheck = SignatureMatches | SignatureMismatch | SecretNotConfigured

  /** The fields of a webhook event the handler reads. */
  datatype WebhookEvent = WebhookEvent(event: string, reference: string, metadataOrderId: Option<string>)

  /** The request body: a parsed event, or text `JSON.parse` rejects. */
  datatype WebhookBody = Parsed(ev: WebhookEvent) | Malformed(parseError: string)

  datatype WebhookResponse = Received | Rejected(status: int, message: string)

  /** The id a `charge.success` event updates: the first order whose stored
      Paystack reference equals the event's, else the metadata `orderId` when
      it is non-empty. */
  function ChargeTarget(ids: seq<string>, orders: map<string, Order>, ev: WebhookEvent): Option<string>
  {
    var matches := MatchingIds(ids, orders, PaystackRefField, ev.reference);
    if |matches| > 0 then Some(matches[0])
    else if Truthy(ev.metadataOrderId) then ev.metadataOrderId
    else None
  }

  /** The orders after the event is handled. */
  function EventOrders(ids: seq<string>, orders: map<string, Order>, ev: WebhookEvent): map<string, Order>
  {
    if ev.event != ChargeSuccess then orders
    else match ChargeTarget(ids, orders, ev)
      case None => orders
      case Some(t) =>
        if t in orders then orders[t := Merge(orders[t], PaymentStatusPatch(Paid, Some(ev.reference)))]
        else orders
  }

  /** The response to a verified, parsed event: an update of a missing
      document throws, and the handler answers 500. */
  function EventResponse(ids: seq<string>, orders: map<string, Order>, ev: WebhookEvent): WebhookResponse
  {
    if ev.event != ChargeSuccess then Received
    else match ChargeTarget(ids, orders, ev)
      case None => Received
      case Some(t) => if t in orders then Received else Rejected(500, NoDocumentMessage)
  }

  /** `POST`. */
  method HandleWebhook(store: OrderStore, signature: Option<string>, check: SignatureCheck, body: WebhookBody)
    returns (resp: WebhookResponse)
    requires store.Valid()
    modifies store
    ensures store.Valid() && store.ids == old(store.ids)
    ensures !Truthy(signature) ==>
              resp == Rejected(401, MissingSignatureMessage) && store.orders == old(store.orders)
    ensures Truthy(signature) && check == SignatureMismatch ==>
              resp == Rejected(401, InvalidSignatureMessage) && store.orders == old(store.orders)
    ensures Truthy(signature) && check == SecretNotConfigured ==>
              resp == Rejected(500, SecretMissingMessage) && store.orders == old(store.orders)
    ensures Truthy(signature) && check == SignatureMatches && body.Malformed? ==>
              resp == Rejected(500, body.parseError) && store.orders == old(store.orders)
    ensures Truthy(signature) && check == SignatureMatches && body.Parsed? ==>
              && store.orders == EventOrders(old(store.ids), old(store.orders), body.ev)
              && resp == EventResponse(old(store.ids), old(store.orders), body.ev)
  {
    if !Truthy(signature) {
      return Rejected(401, MissingSignatureMessage);
    }
    match check
    case SecretNotConfigured =>
      return Rejected(500, SecretMissingMessage);
    case SignatureMismatch =>
      return Rejected(401, InvalidSignatureMessage);
    case SignatureMatches =>
    if body.Malformed? {
      return Rejected(500, body.parseError);
    }
    var ev := body.ev;
    if ev.event == ChargeSuccess {
      var reference := ev.reference;
      var matches := store.QueryDocuments(PaystackRefField, reference);
      if |matches| > 0 {
        var ok := store.UpdateOrderPaymentStatus(matches[0], Paid, Some(reference));
        if !ok {
          return Rejected(500, NoDocumentMessage);
        }
      } else {
        var orderId := ev.metadataOrderId;
        if Truthy(orderId) {
          var ok := store.UpdateOrderPaymentStatus(orderId.value, Paid, Some(reference));
          if !ok {
            return Rejected(500, NoDocumentMessage);
          }
        }
      }
    }
    resp := Received;
  }

  /** The handler only ever marks one order paid: no order is added or
      removed, every order other than the target is untouched, the target is
      paid afterwards, and its delivery status and redemption code are
      kept. So a paid order stays paid and redemption codes stay unique. */
  lemma EventOnlyMarksPaid(ids: seq<string>, orders: map<string, Order>, ev: WebhookEvent)
    ensures var after := EventOrders(ids, orders, ev);
            && after.Keys == orders.Keys
            && (forall id :: id in orders && Some(id) != ChargeTarget(ids, orders, ev) ==> after[id] == orders[id])
            && (forall id :: id in orders ==>
                  && (orders[id].paymentStatus == Paid ==> after[id].paymentStatus == Paid)
                  && after[id].deliveryStatus == orders[id].deliveryStatus
                  && after[id].redemptionCode == orders[id].redemptionCode)
            && (ev.event == ChargeSuccess && ChargeTarget(ids, orders, ev).Some? && ChargeTarget(ids, orders, ev).value in orders ==>
                  after[ChargeTarget(ids, orders, ev).value].paymentStatus == Paid)
            && (CodesUnique(orders) ==> CodesUnique(after))
  {
  }

  /** An event whose reference matches stored orders updates the first of
      them in enumeration order and none of the others; an event that matches
      none falls back to the metadata `orderId`, and without one changes
      nothing. */
  lemma ChargeTargetChoice(ids: seq<string>, orders: map<string, Order>, ev: WebhookEvent)
    ensures forall k :: 0 <= k < |ids| && ids[k] in orders && orders[ids[k]].paystackRef == Some(ev.reference) ==>
              ChargeTarget(ids, orders, ev).Some? &&
              ChargeTarget(ids, orders, ev).value in orders &&
              orders[ChargeTarget(ids, orders, ev).value].paystackRef == Some(ev.reference)
    ensures (forall k :: 0 <= k < |ids| ==> !(ids[k] in orders && orders[ids[k]].paystackRef == Some(ev.reference))) ==>
              ChargeTarget(ids, orders, ev) == (if Truthy(ev.metadataOrderId) then ev.metadataOrderId else None)
  {
    var matches := MatchingIds(ids, orders, PaystackRefField, ev.reference);
    forall k | 0 <= k < |ids| && ids[k] in orders && orders[ids[k]].paystackRef == Some(ev.reference)
      ensures |matches| > 0
    {
      assert ids[k] in matches;
    }
  }

  /** When no order matches a reference, after one order is replaced the
      only order that can match it is the replaced one. */
  lemma OnlyUpdatedOrderCanMatch(ids: seq<string>, orders: map<string, Order>, t: string, o: Order, reference: string)
    requires MatchingIds(ids, orders, PaystackRefField, reference) == []
    ensures var m := MatchingIds(ids, orders[t := o], PaystackRefField, reference);
            forall k :: 0 <= k < |m| ==> m[k] == t
  {
    var after := orders[t := o];
    var m := MatchingIds(ids, after, PaystackRefField, reference);
    forall k | 0 <= k < |m|
      ensures m[k] == t
    {
      var id := m[k];
      assert id in ids && id in after && FieldEquals(after[id], PaystackRefField, reference);
    }
  }

  /** Replaying an event leaves the store as the first delivery left it and
      gets the same answer: the handler writes only `paid`, and the order it
      updated is the one a replay finds again. */
  lemma ReplayIsIdempotent(ids: seq<string>, orders: map<string, Order>, ev: WebhookEvent)
    ensures EventOrders(ids, EventOrders(ids, orders, ev), ev) == EventOrders(ids, orders, ev)
    ensures EventResponse(ids, EventOrders(ids, orders, ev), ev) == EventResponse(ids, orders, ev)
  {
    if ev.event == ChargeSuccess {
      var target := ChargeTarget(ids, orders, ev);
      if target.Some? && target.value in orders {
        var t := target.value;
        var patch := PaymentStatusPatch(Paid, Some(ev.reference));
        var after := orders[t := Merge(orders[t], patch)];
        assert EventOrders(ids, orders, ev) == after;
        var matches := MatchingIds(ids, orders, PaystackRefField, ev.reference);
        var matches' := MatchingIds(ids, after, PaystackRefField, ev.reference);
        if |matches| > 0 {
          // The target already carried the reference, and still does.
          MatchingIdsDependsOnlyOnMatches(ids, orders, after, PaystackRefField, ev.reference);
          assert ChargeTarget(ids, after, ev) == target;
        } else {
          // Only the target can match after the update.
          OnlyUpdatedOrderCanMatch(ids, orders, t, Merge(orders[t], patch), ev.reference);
          assert ChargeTarget(ids, after, ev) == target;
        }
        PaymentStatusUpdate(orders[t], Paid, Some(ev.reference));
        assert after[t := Merge(after[t], patch)] == after;
      }
    }
  }
}
