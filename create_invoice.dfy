/** The pay-on-delivery checkout (app/api/paystack/create-invoice/route.ts):
    validate the body, draw a unique redemption code, ask Paystack for a
    payment request, and only then store the order with the request's offline
    reference. A gateway failure therefore stores nothing. */
module CreateInvoice {
  import opened Types
  import opened Orders
  import opened RedemptionCode
  import opened CheckoutRequest

  const FieldsRequiredMessage: string := "Name, email, address, and totalAmount are required"
  const GatewayFailedMessage: string := "Failed to create Paystack invoice"
  /** The client's own message for a non-ok answer without one. */
  const ClientFailedMessage: string := "Failed to create invoice"

  /** The metadata sent to Paystack with the payment request (the amount in
      kobo is not modelled). It carries no order id: none exists yet. */
  datatype InvoiceRequest = InvoiceRequest(email: string, orderName: string, address: string, redemptionCode: string)

  /** Paystack's answer: a payment request with its offline reference and
      number; an answer with `status` false or no `data`; or a thrown client
      call. */
  datatype GatewayInvoice =
    | InvoiceFailed
    | InvoiceThrew(cause: GatewayThrow)
    | InvoiceCreated(offlineReference: string, invoiceNumber: string)

  datatype InvoiceResponse =
    | InvoiceOk(orderId: string, redemptionCode: string, offlineReference: string, invoiceNumber: string)
    | InvoiceError(status: int, message: string)

  /** The two guards: the error message of the first that fails, if any. */
  function ValidateBody(body: CheckoutBody): (r: Option<string>)
    ensures r.None? <==>
              && ItemsPresent(body.items) && Truthy(body.name) && Truthy(body.email)
              && Truthy(body.address) && AmountTruthy(body.totalAmount)
    ensures !ItemsPresent(body.items) ==> r == Some(ItemsRequiredMessage)
    ensures ItemsPresent(body.items) && r.Some? ==> r == Some(FieldsRequiredMessage)
  {
    if !ItemsPresent(body.items) then Some(ItemsRequiredMessage)
    else if !Truthy(body.name) || !Truthy(body.email) || !Truthy(body.address) || !AmountTruthy(body.totalAmount)
    then Some(FieldsRequiredMessage)
    else None
  }

  /** The fields `createOrder` receives: a pending pay-on-delivery order with
      the generated code and the offline reference, and neither a POS nor a
      transfer delivery code. */
  function PayOnDeliveryOrder(body: CheckoutBody, code: string, offlineReference: string): Order
    requires ValidateBody(body).None?
  {
    Order(id := "", items := body.items.value, name := body.name.value, email := body.email.value,
          address := body.address, paymentMethod := PayOnDelivery, paymentStatus := Pending,
          deliveryStatus := None, deliveredAt := None, totalAmount := body.totalAmount.value,
          paystackRef := None, offlineReference := Some(offlineReference), deliveryPosCode := None,
          deliveryTransferCode := None, redemptionCode := code, createdAt := 0)
  }

  /** `POST`. The parameters are as for the pay-now route; `sent` is the
      payment request made to Paystack, if any. */
  method HandleCreateInvoice(store: OrderStore, body: CheckoutBody, random: RandomSource,
                             gateway: GatewayInvoice, freshId: string, now: Timestamp)
    returns (resp: InvoiceResponse, sent: Option<InvoiceRequest>)
    requires store.Valid() && freshId !in store.orders
    modifies store
    ensures store.Valid()
    ensures old(CodesUnique(store.orders)) ==> CodesUnique(store.orders)
    // An invalid body: 400, nothing stored, nothing sent.
    ensures ValidateBody(body).Some? ==>
              && resp == InvoiceError(400, ValidateBody(body).value) && sent == None
              && store.orders == old(store.orders) && store.ids == old(store.ids)
    // No free code within the cap: 500, nothing stored, nothing sent.
    ensures ValidateBody(body).None? &&
            UniqueCodeOutcome(random, RedemptionCodeExists(old(store.ids), old(store.orders))).Thrown? ==>
              && resp == InvoiceError(500, ExhaustedMessage) && sent == None
              && store.orders == old(store.orders) && store.ids == old(store.ids)
    // Otherwise Paystack is asked first; the order is stored only if it answers.
    ensures ValidateBody(body).None? &&
            UniqueCodeOutcome(random, RedemptionCodeExists(old(store.ids), old(store.orders))).Generated? ==>
              var code := UniqueCodeOutcome(random, RedemptionCodeExists(old(store.ids), old(store.orders))).code;
              && !CodeInUse(old(store.orders), code)
              && sent == Some(InvoiceRequest(body.email.value, body.name.value, body.address.value, code))
              && (gateway.InvoiceFailed? ==>
                    && resp == InvoiceError(500, GatewayFailedMessage)
                    && store.orders == old(store.orders) && store.ids == old(store.ids))
              && (gateway.InvoiceThrew? ==>
                    && resp == InvoiceError(500, ThrownMessage(gateway.cause, ClientFailedMessage))
                    && store.orders == old(store.orders) && store.ids == old(store.ids))
              && (gateway.InvoiceCreated? ==>
                    && resp == InvoiceOk(freshId, code, gateway.offlineReference, gateway.invoiceNumber)
                    && store.ids == old(store.ids) + [freshId]
                    && store.orders == old(store.orders)[freshId :=
                         PayOnDeliveryOrder(body, code, gateway.offlineReference).(id := freshId, createdAt := now)])
  {
    sent := None;
    var invalid := ValidateBody(body);
    if invalid.Some? {
      return InvoiceError(400, invalid.value), None;
    }

    var checkExists := RedemptionCodeExists(store.ids, store.orders);
    var generated, _ := GenerateUniqueRedemptionCode(random, checkExists);
    if generated.Thrown? {
      return InvoiceError(500, generated.message), None;
    }
    var code := generated.code;
    RedemptionCodeExistsIffInUse(store.ids, store.orders, code);

    sent := Some(InvoiceRequest(body.email.value, body.name.value, body.address.value, code));
    match gateway
    case InvoiceThrew(cause) =>
      return InvoiceError(500, ThrownMessage(cause, ClientFailedMessage)), sent;
    case InvoiceFailed =>
      return InvoiceError(500, GatewayFailedMessage), sent;
    case InvoiceCreated(_, _) =>

    ghost var before := store.orders;
    var offlineReference := gateway.offlineReference;
    var data := PayOnDeliveryOrder(body, code, offlineReference);
    var orderId := store.CreateOrder(data, freshId, now);
    if CodesUnique(before) {
      AddKeepsCodesUnique(before, freshId, data.(id := freshId, createdAt := now));
    }
    resp := InvoiceOk(orderId, code, offlineReference, gateway.invoiceNumber);
  }

  /** What the driver sees of a freshly stored pay-on-delivery order: it
      carries the offline reference, no POS or transfer code, and is pending
      on payment and delivery. */
  lemma StoredInvoiceOrder(body: CheckoutBody, code: string, offlineReference: string, id: string, now: Timestamp)
    requires ValidateBody(body).None?
    ensures var o := PayOnDeliveryOrder(body, code, offlineReference).(id := id, createdAt := now);
            && o.paymentMethod == PayOnDelivery && o.paymentStatus == Pending
            && o.deliveryStatus != Some(Delivered)
            && o.offlineReference == Some(offlineReference) && o.redemptionCode == code
            && o.deliveryPosCode.None? && o.deliveryTransferCode.None?
            && o.address == body.address && o.items == body.items.value && |o.items| > 0
  {
  }
}
