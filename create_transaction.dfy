/** The pay-now checkout (app/api/paystack/create-transaction/route.ts):
    validate the body, draw a unique redemption code, store the order, then
    open a Paystack transaction and record its reference on the order. The
    order is written BEFORE the gateway is called, so a gateway failure
    leaves a pending order without a reference behind. */
module CreateTransaction {
  import opened Types
  import opened Orders
  import opened RedemptionCode
  import opened CheckoutRequest

  const FieldsRequiredMessage: string := "Name, email, and totalAmount are required"
  const GatewayFailedMessage: string := "Failed to create Paystack transaction"
  /** The client's own message for a non-ok answer without one. */
  const ClientFailedMessage: string := "Failed to create transaction"

  /** The metadata sent to Paystack with the transaction (the amount in kobo
      and the `ORDER_<id>_<time>` reference are not modelled). */
  datatype TransactionRequest = TransactionRequest(email: string, orderId: string, redemptionCode: string, name: string)

  /** Paystack's answer: a transaction with its reference and access code;
      an answer with `status` false or no `data`; or a thrown client call. */
  datatype GatewayTransaction =
    | TransactionFailed
    | TransactionThrew(cause: GatewayThrow)
    | TransactionCreated(reference: string, accessCode: string)

  datatype TransactionResponse =
    | TransactionOk(accessCode: string, reference: string, orderId: string, redemptionCode: string)
    | TransactionError(status: int, message: string)

  /** The two guards: the error message of the first that fails, if any. */
  function ValidateBody(body: CheckoutBody): (r: Option<string>)
    ensures r.None? <==>
              ItemsPresent(body.items) && Truthy(body.name) && Truthy(body.email) && AmountTruthy(body.totalAmount)
    ensures !ItemsPresent(body.items) ==> r == Some(ItemsRequiredMessage)
    ensures ItemsPresent(body.items) && r.Some? ==> r == Some(FieldsRequiredMessage)
  {
    if !ItemsPresent(body.items) then Some(ItemsRequiredMessage)
    else if !Truthy(body.name) || !Truthy(body.email) || !AmountTruthy(body.totalAmount) then Some(FieldsRequiredMessage)
    else None
  }

  /** The fields `createOrder` receives: a pending pay-now order with the
      generated code and no reference, address or delivery codes. `id` and
      `createdAt` are placeholders the store overwrites. */
  function PayNowOrder(body: CheckoutBody, code: string): Order
    requires ValidateBody(body).None?
  {
    Order(id := "", items := body.items.value, name := body.name.value, email := body.email.value,
          address := None, paymentMethod := PayNow, paymentStatus := Pending, deliveryStatus := None,
          deliveredAt := None, totalAmount := body.totalAmount.value, paystackRef := None,
          offlineReference := None, deliveryPosCode := None, deliveryTransferCode := None,
          redemptionCode := code, createdAt := 0)
  }

  /** `POST`. `freshId` is the id the store assigns to the new order, `now`
      its clock, `random` the draws of `Math.random`, and `gateway` Paystack's
      answer; `sent` is the request made to Paystack, if any. */
  method HandleCreateTransaction(store: OrderStore, body: CheckoutBody, random: RandomSource,
                                 gateway: GatewayTransaction, freshId: string, now: Timestamp)
    returns (resp: TransactionResponse, sent: Option<TransactionRequest>)
    requires store.Valid() && freshId !in store.orders
    modifies store
    ensures store.Valid()
    ensures old(CodesUnique(store.orders)) ==> CodesUnique(store.orders)
    // An invalid body: 400, no code drawn, nothing stored, nothing sent.
    ensures ValidateBody(body).Some? ==>
              && resp == TransactionError(400, ValidateBody(body).value) && sent == None
              && store.orders == old(store.orders) && store.ids == old(store.ids)
    // No free code within the cap: 500, nothing stored, nothing sent.
    ensures ValidateBody(body).None? &&
            UniqueCodeOutcome(random, RedemptionCodeExists(old(store.ids), old(store.orders))).Thrown? ==>
              && resp == TransactionError(500, ExhaustedMessage) && sent == None
              && store.orders == old(store.orders) && store.ids == old(store.ids)
    // Otherwise the order is stored first, then Paystack is asked.
    ensures ValidateBody(body).None? &&
            UniqueCodeOutcome(random, RedemptionCodeExists(old(store.ids), old(store.orders))).Generated? ==>
              var code := UniqueCodeOutcome(random, RedemptionCodeExists(old(store.ids), old(store.orders))).code;
              var stored := PayNowOrder(body, code).(id := freshId, createdAt := now);
              && !CodeInUse(old(store.orders), code)
              && store.ids == old(store.ids) + [freshId]
              && sent == Some(TransactionRequest(body.email.value, freshId, code, body.name.value))
              && (gateway.TransactionFailed? ==>
                    && resp == TransactionError(500, GatewayFailedMessage)
                    && store.orders == old(store.orders)[freshId := stored])
              && (gateway.TransactionThrew? ==>
                    && resp == TransactionError(500, ThrownMessage(gateway.cause, ClientFailedMessage))
                    && store.orders == old(store.orders)[freshId := stored])
              && (gateway.TransactionCreated? ==>
                    && resp == TransactionOk(gateway.accessCode, gateway.reference, freshId, code)
                    && store.orders == old(store.orders)[freshId := stored.(paystackRef := Some(gateway.reference))])
  {
    sent := None;
    var invalid := ValidateBody(body);
    if invalid.Some? {
      return TransactionError(400, invalid.value), None;
    }

    var checkExists := RedemptionCodeExists(store.ids, store.orders);
    var generated, _ := GenerateUniqueRedemptionCode(random, checkExists);
    if generated.Thrown? {
      return TransactionError(500, generated.message), None;
    }
    var code := generated.code;
    RedemptionCodeExistsIffInUse(store.ids, store.orders, code);
    resp, sent := StoreThenOpenTransaction(store, body, code, gateway, freshId, now);
  }

  /** The second half of `POST`: `createOrder`, then the gateway, then the
      reference write. */
  method StoreThenOpenTransaction(store: OrderStore, body: CheckoutBody, code: string,
                                  gateway: GatewayTransaction, freshId: string, now: Timestamp)
    returns (resp: TransactionResponse, sent: Option<TransactionRequest>)
    requires store.Valid() && freshId !in store.orders && ValidateBody(body).None?
    modifies store
    ensures store.Valid()
    ensures old(CodesUnique(store.orders)) && !CodeInUse(old(store.orders), code) ==> CodesUnique(store.orders)
    ensures var stored := PayNowOrder(body, code).(id := freshId, createdAt := now);
            && store.ids == old(store.ids) + [freshId]
            && sent == Some(TransactionRequest(body.email.value, freshId, code, body.name.value))
            && (gateway.TransactionFailed? ==>
                  && resp == TransactionError(500, GatewayFailedMessage)
                  && store.orders == old(store.orders)[freshId := stored])
            && (gateway.TransactionThrew? ==>
                  && resp == TransactionError(500, ThrownMessage(gateway.cause, ClientFailedMessage))
                  && store.orders == old(store.orders)[freshId := stored])
            && (gateway.TransactionCreated? ==>
                  && resp == TransactionOk(gateway.accessCode, gateway.reference, freshId, code)
                  && store.orders == old(store.orders)[freshId := stored.(paystackRef := Some(gateway.reference))])
  {
    ghost var before := store.orders;
    ghost var stored := PayNowOrder(body, code).(id := freshId, createdAt := now);

    var orderId := store.CreateOrder(PayNowOrder(body, code), freshId, now);
    if CodesUnique(before) && !CodeInUse(before, code) {
      AddKeepsCodesUnique(before, freshId, stored);
    }

    sent := Some(TransactionRequest(body.email.value, orderId, code, body.name.value));
    match gateway
    case TransactionThrew(cause) =>
      return TransactionError(500, ThrownMessage(cause, ClientFailedMessage)), sent;
    case TransactionFailed =>
      return TransactionError(500, GatewayFailedMessage), sent;
    case TransactionCreated(_, _) =>

    RecordReference(store, orderId, gateway.reference);
    resp := TransactionOk(gateway.accessCode, gateway.reference, orderId, code);
  }

  /** The reference write after a created transaction: `updateDocument` with
      only `paystackRef`, which leaves every other order and field alone. */
  method RecordReference(store: OrderStore, orderId: string, reference: string)
    requires store.Valid() && orderId in store.orders
    modifies store
    ensures store.Valid() && store.ids == old(store.ids)
    ensures store.orders == old(store.orders)[orderId := old(store.orders)[orderId].(paystackRef := Some(reference))]
    ensures old(CodesUnique(store.orders)) ==> CodesUnique(store.orders)
  {
    ghost var before := store.orders;
    var patch := OrderPatch(None, Some(reference));
    var _ := store.UpdateDocument(orderId, patch);
    assert Merge(before[orderId], patch) == before[orderId].(paystackRef := Some(reference));
    if CodesUnique(before) {
      MergeKeepsCodesUnique(before, orderId, patch);
    }
  }
}
