/** The driver's delivery controls for one order
    (components/driver/DriverOrderActions.tsx): which payment confirmation an
    order needs before it may be marked delivered, the POS and transfer
    confirmations that record one, and the deliver request.

    The two server endpoints the component calls (payment status and
    deliver) are not part of this model: each call is represented by the
    reply it gets, which the handlers take as a parameter. */
module DriverOrderActions {
  import opened Types
  import opened Strings
  import RedemptionCode

  const NoPosCodeMessage: string := "No POS delivery code is available for this order."
  const PosMismatchMessage: string := "Provided POS delivery code does not match the customer's code."
  const NoTransferCodeMessage: string := "No transfer delivery code is available. Contact support."
  const TransferMismatchMessage: string := "Provided transfer delivery code does not match the customer's code."
  const PaymentUpdateFailedMessage: string := "Failed to update payment status"
  const VerifiedInfo: string :=
    "Transaction completed successfully. Payment status updated. You can now mark the order as delivered."
  /** The message the popup's cancel callback rejects with. */
  const CancelledMessage: string := "cancelled"
  const TransferCancelledInfo: string := "Transfer flow cancelled."
  const NoVerificationMessage: string := "No verified payment method. Complete payment before delivering."
  const DeliverFailedMessage: string := "Failed to update order status."
  const DeliveredInfo: string := "Order marked as delivered."

  /** `order.deliveryPosCode ?? order.offlineReference ?? null`: `??` only
      skips absent values, so a stored empty code is kept. */
  function ExpectedPosCode(o: Order): (r: Option<string>)
    ensures o.deliveryPosCode.Some? ==> r == o.deliveryPosCode
    ensures o.deliveryPosCode.None? ==> r == o.offlineReference
    ensures r.None? <==> o.deliveryPosCode.None? && o.offlineReference.None?
  {
    if o.deliveryPosCode.Some? then o.deliveryPosCode else o.offlineReference
  }

  /** `order.deliveryTransferCode ?? null`: present exactly when a transfer
      code is stored, and then that code, even an empty one. It never falls
      back to the offline reference the POS code falls back to. */
  function ExpectedTransferCode(o: Order): (r: Option<string>)
    ensures r.Some? <==> o.deliveryTransferCode.Some?
    ensures r.Some? ==> r.value == o.deliveryTransferCode.value
    ensures o.deliveryTransferCode.None? && o.offlineReference.Some? ==> r != o.offlineReference
  {
    o.deliveryTransferCode
  }

  /** `canDeliver`: never for a delivered order; for a pay-now order the
      trimmed input must equal the stored code ignoring letter case, for a
      pay-on-delivery order a POS or transfer confirmation must have gone
      through; either way the order must be paid. */
  function CanDeliver(o: Order, redemptionInput: string, posVerified: bool, transferVerified: bool): (r: bool)
    ensures o.deliveryStatus == Some(Delivered) ==> !r
    ensures o.deliveryStatus != Some(Delivered) && o.paymentMethod == PayNow ==>
              (r <==> ToUpper(Trim(redemptionInput)) == ToUpper(o.redemptionCode) && o.paymentStatus == Paid)
    ensures o.deliveryStatus != Some(Delivered) && o.paymentMethod == PayOnDelivery ==>
              (r <==> (posVerified || transferVerified) && o.paymentStatus == Paid)
  {
    if o.deliveryStatus == Some(Delivered) then false
    else if o.paymentMethod == PayNow then
      ToUpper(Trim(redemptionInput)) == ToUpper(o.redemptionCode) && o.paymentStatus == Paid
    else (posVerified || transferVerified) && o.paymentStatus == Paid
  }

  /** Whatever the flags and input, only a paid order that is not yet
      delivered can be delivered. */
  lemma DeliverableIsPaidAndUndelivered(o: Order, redemptionInput: string, posVerified: bool, transferVerified: bool)
    requires CanDeliver(o, redemptionInput, posVerified, transferVerified)
    ensures o.paymentStatus == Paid && o.deliveryStatus != Some(Delivered)
  {
  }

  /** For a generated (upper-case) redemption code, the pay-now gate accepts
      exactly the inputs that spell the code in any letter case, with any
      surrounding white space. */
  lemma PayNowGateForGeneratedCode(o: Order, redemptionInput: string)
    requires RedemptionCode.IsRedemptionCode(o.redemptionCode)
    requires o.paymentMethod == PayNow && o.paymentStatus == Paid && o.deliveryStatus != Some(Delivered)
    ensures CanDeliver(o, redemptionInput, false, false) <==>
              |Trim(redemptionInput)| == |o.redemptionCode| &&
              forall k :: 0 <= k < |o.redemptionCode| ==> UpperChar(Trim(redemptionInput)[k]) == o.redemptionCode[k]
  {
    var code := o.redemptionCode;
    assert forall k :: 0 <= k < |code| ==> UpperChar(code[k]) == code[k] by {
      forall k | 0 <= k < |code|
        ensures UpperChar(code[k]) == code[k]
      {
        assert RedemptionCode.IsCodeChar(code[k]);
      }
    }
    assert ToUpper(code) == code;
    UpperCaseEqualityIsCaseInsensitive(Trim(redemptionInput), code);
  }

  datatype VerificationType = Redemption | Pos | Transfer

  /** The confirmation `markAsDelivered` sends. */
  datatype Verification = Verification(kind: VerificationType, code: string, reference: Option<string>, markPaid: bool)

  /** `determineVerification`: a pay-now order always sends its stored
      redemption code (not the driver's input) without asking for it to be
      marked paid; a pay-on-delivery order sends a confirmed transfer in
      preference to a confirmed POS payment, each asking to be marked paid,
      and nothing when neither is confirmed with a non-empty code. */
  function DetermineVerification(o: Order, posVerified: bool, transferVerified: bool,
                                 transferReference: Option<string>): (r: Option<Verification>)
    ensures o.paymentMethod == PayNow ==> r == Some(Verification(Redemption, o.redemptionCode, None, false))
    ensures o.paymentMethod == PayOnDelivery && transferVerified && Truthy(ExpectedTransferCode(o)) ==>
              r == Some(Verification(Transfer, ExpectedTransferCode(o).value, transferReference, true))
    ensures o.paymentMethod == PayOnDelivery && !(transferVerified && Truthy(ExpectedTransferCode(o)))
              && posVerified && Truthy(ExpectedPosCode(o)) ==>
              r == Some(Verification(Pos, ExpectedPosCode(o).value, None, true))
    ensures r.None? <==>
              && o.paymentMethod == PayOnDelivery
              && !(transferVerified && Truthy(ExpectedTransferCode(o)))
              && !(posVerified && Truthy(ExpectedPosCode(o)))
    ensures r.Some? ==> (r.value.markPaid <==> r.value.kind != Redemption)
    ensures r.Some? && r.value.kind != Redemption ==> r.value.code != ""
  {
    match o.paymentMethod
    case PayNow => Some(Verification(Redemption, o.redemptionCode, None, false))
    case PayOnDelivery =>
      if transferVerified && Truthy(ExpectedTransferCode(o)) then
        Some(Verification(Transfer, ExpectedTransferCode(o).value, transferReference, true))
      else if posVerified && Truthy(ExpectedPosCode(o)) then
        Some(Verification(Pos, ExpectedPosCode(o).value, None, true))
      else None
  }

  /** A confirmation flag is only ever set while the order has a non-empty
      code for it. */
  ghost predicate FlagsBacked(o: Order, posVerified: bool, transferVerified: bool)
  {
    && (posVerified ==> Truthy(ExpectedPosCode(o)))
    && (transferVerified ==> Truthy(ExpectedTransferCode(o)))
  }

  /** Whenever the deliver button is enabled, `markAsDelivered` has a
      confirmation to send. */
  lemma DeliverableHasVerification(o: Order, redemptionInput: string, posVerified: bool,
                                   transferVerified: bool, transferReference: Option<string>)
    requires FlagsBacked(o, posVerified, transferVerified)
    requires CanDeliver(o, redemptionInput, posVerified, transferVerified)
    ensures DetermineVerification(o, posVerified, transferVerified, transferReference).Some?
  {
  }

  /** A pay-on-delivery order stored by the invoice checkout carries no POS
      or transfer code: the expected POS code is the invoice's offline
      reference, and a transfer confirmation can never be recorded for it. */
  lemma InvoiceOrderCodes(o: Order, offlineReference: string)
    requires o.paymentMethod == PayOnDelivery && o.deliveryPosCode.None? && o.deliveryTransferCode.None?
    requires o.offlineReference == Some(offlineReference)
    ensures ExpectedPosCode(o) == Some(offlineReference)
    ensures !Truthy(ExpectedTransferCode(o))
    ensures forall pv: bool, tv: bool :: FlagsBacked(o, pv, tv) ==> !tv
  {
  }

  /** The body of a `PATCH .../payment-status` request. */
  datatype PaymentChannel = PosChannel | TransferChannel
  datatype PaymentStatusRequest = PaymentStatusRequest(channel: PaymentChannel, verificationCode: string, transferReference: Option<string>)

  /** How a request to the server ended: an ok response, a failed one with
      the `error` its JSON payload carried (absent when there was none or it
      did not parse), or a thrown `fetch` with its message. */
  datatype ServerReply = Accepted | Refused(payloadError: Option<string>) | Unreachable(message: string)

  /** The message a failed request is reported with. */
  function FailureMessage(reply: ServerReply, fallback: string): (r: string)
    requires !reply.Accepted?
    ensures reply.Refused? && Truthy(reply.payloadError) ==> r == reply.payloadError.value
    ensures reply.Refused? && !Truthy(reply.payloadError) ==> r == fallback
    ensures reply.Unreachable? ==> r == reply.message
  {
    match reply
    case Refused(e) => if Truthy(e) then e.value else fallback
    case Unreachable(m) => m
  }

  /** How the Paystack popup ended: a completed transfer with its reference,
      a cancel, or a failure to load or run it. */
  datatype PopupOutcome = PopupSucceeded(reference: string) | PopupCancelled | PopupFailed(message: string)

  /** The message a transfer confirmation ends with once both guards pass,
      if it fails: "cancelled" for a cancelled popup, the popup's own
      message, or the payment-status request's failure; none when a
      completed popup's request succeeds or none is sent (empty reference). */
  function TransferFailure(popup: PopupOutcome, reply: ServerReply): (r: Option<string>)
    ensures popup.PopupCancelled? ==> r == Some(CancelledMessage)
    ensures popup.PopupFailed? ==> r == Some(popup.message)
    ensures popup.PopupSucceeded? ==> (r.None? <==> popup.reference == "" || reply.Accepted?)
    ensures popup.PopupSucceeded? && r.Some? ==> r == Some(FailureMessage(reply, PaymentUpdateFailedMessage))
  {
    match popup
    case PopupCancelled => Some(CancelledMessage)
    case PopupFailed(message) => Some(message)
    case PopupSucceeded(reference) =>
      if reference != "" && !reply.Accepted? then Some(FailureMessage(reply, PaymentUpdateFailedMessage)) else None
  }

  /** The component's state. `order` is its prop; the processing flags,
      which are only true while a request is in flight, are not modelled. */
  class OrderActions {
    const order: Order
    var redemptionInput: string
    var posInput: string
    var transferInput: string
    var posModalOpen: bool
    var transferModalOpen: bool
    var posVerified: bool
    var transferVerified: bool
    var transferReference: Option<string>
    var error: Option<string>
    var info: Option<string>

    ghost predicate Valid()
      reads this
    {
      FlagsBacked(order, posVerified, transferVerified)
    }

    constructor (order: Order)
      ensures Valid() && this.order == order
      ensures redemptionInput == "" && posInput == "" && transferInput == ""
      ensures !posModalOpen && !transferModalOpen && !posVerified && !transferVerified
      ensures transferReference == None && error == None && info == None
    {
      this.order := order;
      redemptionInput, posInput, transferInput := "", "", "";
      posModalOpen, transferModalOpen := false, false;
      posVerified, transferVerified := false, false;
      transferReference, error, info := None, None, None;
    }

    /** The redemption input's handler upper-cases what is typed. */
    method SetRedemptionInput(value: string)
      modifies this
      ensures redemptionInput == ToUpper(value)
      ensures posInput == old(posInput) && transferInput == old(transferInput)
      ensures posModalOpen == old(posModalOpen) && transferModalOpen == old(transferModalOpen)
      ensures posVerified == old(posVerified) && transferVerified == old(transferVerified)
      ensures transferReference == old(transferReference) && error == old(error) && info == old(info)
    {
      redemptionInput := ToUpper(value);
    }

    /** The POS code field's `onChange`: the text is stored as typed. */
    method SetPosInput(value: string)
      modifies this
      ensures posInput == value
      ensures redemptionInput == old(redemptionInput) && transferInput == old(transferInput)
      ensures posModalOpen == old(posModalOpen) && transferModalOpen == old(transferModalOpen)
      ensures posVerified == old(posVerified) && transferVerified == old(transferVerified)
      ensures transferReference == old(transferReference) && error == old(error) && info == old(info)
    {
      posInput := value;
    }

    /** The transfer code field's `onChange`: the text is stored as typed. */
    method SetTransferInput(value: string)
      modifies this
      ensures transferInput == value
      ensures redemptionInput == old(redemptionInput) && posInput == old(posInput)
      ensures posModalOpen == old(posModalOpen) && transferModalOpen == old(transferModalOpen)
      ensures posVerified == old(posVerified) && transferVerified == old(transferVerified)
      ensures transferReference == old(transferReference) && error == old(error) && info == old(info)
    {
      transferInput := value;
    }

    /** The "Confirm POS" button: clear the messages and open the modal. */
    method OpenPosModal()
      modifies this
      ensures posModalOpen && error == None && info == None
      ensures redemptionInput == old(redemptionInput) && posInput == old(posInput) && transferInput == old(transferInput)
      ensures transferModalOpen == old(transferModalOpen)
      ensures posVerified == old(posVerified) && transferVerified == old(transferVerified)
      ensures transferReference == old(transferReference)
    {
      error, info := None, None;
      posModalOpen := true;
    }

    /** The "Confirm Transfer" button: clear the messages and open the modal. */
    method OpenTransferModal()
      modifies this
      ensures transferModalOpen && error == None && info == None
      ensures redemptionInput == old(redemptionInput) && posInput == old(posInput) && transferInput == old(transferInput)
      ensures posModalOpen == old(posModalOpen)
      ensures posVerified == old(posVerified) && transferVerified == old(transferVerified)
      ensures transferReference == old(transferReference)
    {
      error, info := None, None;
      transferModalOpen := true;
    }

    /** `handlePosConfirm`. Without a non-empty expected code, or when the
        trimmed input differs from it (case matters here), an error is shown
        and no request is made. Otherwise the payment-status request is sent
        with the expected code; only an ok reply confirms the POS payment. */
    method HandlePosConfirm(reply: ServerReply) returns (sent: Option<PaymentStatusRequest>)
      requires Valid()
      modifies this
      ensures Valid()
      ensures redemptionInput == old(redemptionInput) && posInput == old(posInput) && transferInput == old(transferInput)
      ensures transferModalOpen == old(transferModalOpen)
      ensures transferVerified == old(transferVerified) && transferReference == old(transferReference)
      ensures !Truthy(ExpectedPosCode(order)) ==>
                && sent == None && error == Some(NoPosCodeMessage) && info == None
                && posVerified == old(posVerified) && posModalOpen == old(posModalOpen)
      ensures Truthy(ExpectedPosCode(order)) && Trim(posInput) != ExpectedPosCode(order).value ==>
                && sent == None && error == Some(PosMismatchMessage) && info == None
                && posVerified == old(posVerified) && posModalOpen == old(posModalOpen)
      ensures Truthy(ExpectedPosCode(order)) && Trim(posInput) == ExpectedPosCode(order).value ==>
                && sent == Some(PaymentStatusRequest(PosChannel, ExpectedPosCode(order).value, None))
                && (reply.Accepted? ==>
                      posVerified && !posModalOpen && error == None && info == Some(VerifiedInfo))
                && (!reply.Accepted? ==>
                      && posVerified == old(posVerified) && posModalOpen == old(posModalOpen)
                      && error == Some(FailureMessage(reply, PaymentUpdateFailedMessage)) && info == None)
    {
      error, info := None, None;
      sent := None;
      var expected := ExpectedPosCode(order);
      if !Truthy(expected) {
        error := Some(NoPosCodeMessage);
        return;
      }
      if Trim(posInput) != expected.value {
        error := Some(PosMismatchMessage);
        return;
      }
      sent := PayByPos(expected.value, reply);
    }

    /** The part of `handlePosConfirm` after both guards passed with the
        expected POS code `code`: the payment-status request. */
    method PayByPos(code: string, reply: ServerReply) returns (sent: Option<PaymentStatusRequest>)
      requires Valid() && ExpectedPosCode(order) == Some(code) && code != ""
      requires error == None && info == None
      modifies this
      ensures Valid()
      ensures redemptionInput == old(redemptionInput) && posInput == old(posInput) && transferInput == old(transferInput)
      ensures transferModalOpen == old(transferModalOpen)
      ensures transferVerified == old(transferVerified) && transferReference == old(transferReference)
      ensures sent == Some(PaymentStatusRequest(PosChannel, code, None))
      ensures reply.Accepted? ==> posVerified && !posModalOpen && error == None && info == Some(VerifiedInfo)
      ensures !reply.Accepted? ==>
                && posVerified == old(posVerified) && posModalOpen == old(posModalOpen)
                && error == Some(FailureMessage(reply, PaymentUpdateFailedMessage)) && info == None
    {
      sent := Some(PaymentStatusRequest(PosChannel, code, None));
      if !reply.Accepted? {
        error := Some(FailureMessage(reply, PaymentUpdateFailedMessage));
        return;
      }
      posVerified := true;
      info := Some(VerifiedInfo);
      posModalOpen := false;
    }

    /** `handleTransferConfirm`. The same two guards against the transfer
        code; then the popup runs. A completed popup records its reference
        and, when that reference is non-empty, the payment-status request is
        sent; the transfer is confirmed unless that request fails. Every
        failure shows its message as an error, except a failure whose
        message is "cancelled", which, like a cancel, shows the cancellation
        notice instead. */
    method HandleTransferConfirm(popup: PopupOutcome, reply: ServerReply) returns (sent: Option<PaymentStatusRequest>)
      requires Valid()
      modifies this
      ensures Valid()
      ensures redemptionInput == old(redemptionInput) && posInput == old(posInput) && transferInput == old(transferInput)
      ensures posModalOpen == old(posModalOpen) && posVerified == old(posVerified)
      ensures !Truthy(ExpectedTransferCode(order)) ==>
                && sent == None && error == Some(NoTransferCodeMessage) && info == None
                && transferVerified == old(transferVerified) && transferReference == old(transferReference)
                && transferModalOpen == old(transferModalOpen)
      ensures Truthy(ExpectedTransferCode(order)) && Trim(transferInput) != ExpectedTransferCode(order).value ==>
                && sent == None && error == Some(TransferMismatchMessage) && info == None
                && transferVerified == old(transferVerified) && transferReference == old(transferReference)
                && transferModalOpen == old(transferModalOpen)
      ensures Truthy(ExpectedTransferCode(order)) && Trim(transferInput) == ExpectedTransferCode(order).value ==>
                && transferReference == (if popup.PopupSucceeded? then Some(popup.reference) else old(transferReference))
                && sent == (if popup.PopupSucceeded? && popup.reference != ""
                            then Some(PaymentStatusRequest(TransferChannel, ExpectedTransferCode(order).value, Some(popup.reference)))
                            else None)
      ensures Truthy(ExpectedTransferCode(order)) && Trim(transferInput) == ExpectedTransferCode(order).value &&
              TransferFailure(popup, reply).None? ==>
                transferVerified && !transferModalOpen && error == None && info == Some(VerifiedInfo)
      ensures Truthy(ExpectedTransferCode(order)) && Trim(transferInput) == ExpectedTransferCode(order).value &&
              TransferFailure(popup, reply) == Some(CancelledMessage) ==>
                && transferVerified == old(transferVerified) && transferModalOpen == old(transferModalOpen)
                && error == None && info == Some(TransferCancelledInfo)
      ensures Truthy(ExpectedTransferCode(order)) && Trim(transferInput) == ExpectedTransferCode(order).value &&
              TransferFailure(popup, reply).Some? && TransferFailure(popup, reply) != Some(CancelledMessage) ==>
                && transferVerified == old(transferVerified) && transferModalOpen == old(transferModalOpen)
                && error == TransferFailure(popup, reply) && info == None
    {
      error, info := None, None;
      sent := None;
      var expected := ExpectedTransferCode(order);
      if !Truthy(expected) {
        error := Some(NoTransferCodeMessage);
        return;
      }
      if Trim(transferInput) != expected.value {
        error := Some(TransferMismatchMessage);
        return;
      }
      sent := PayByTransfer(expected.value, popup, reply);
    }

    /** The part of `handleTransferConfirm` after both guards passed with
        the expected transfer code `code`: the popup, then the
        payment-status request. */
    method PayByTransfer(code: string, popup: PopupOutcome, reply: ServerReply) returns (sent: Option<PaymentStatusRequest>)
      requires Valid() && ExpectedTransferCode(order) == Some(code) && code != ""
      requires error == None && info == None
      modifies this
      ensures Valid()
      ensures redemptionInput == old(redemptionInput) && posInput == old(posInput) && transferInput == old(transferInput)
      ensures posModalOpen == old(posModalOpen) && posVerified == old(posVerified)
      ensures transferReference == (if popup.PopupSucceeded? then Some(popup.reference) else old(transferReference))
      ensures sent == (if popup.PopupSucceeded? && popup.reference != ""
                       then Some(PaymentStatusRequest(TransferChannel, code, Some(popup.reference)))
                       else None)
      ensures TransferFailure(popup, reply).None? ==>
                transferVerified && !transferModalOpen && error == None && info == Some(VerifiedInfo)
      ensures TransferFailure(popup, reply) == Some(CancelledMessage) ==>
                && transferVerified == old(transferVerified) && transferModalOpen == old(transferModalOpen)
                && error == None && info == Some(TransferCancelledInfo)
      ensures TransferFailure(popup, reply).Some? && TransferFailure(popup, reply) != Some(CancelledMessage) ==>
                && transferVerified == old(transferVerified) && transferModalOpen == old(transferModalOpen)
                && error == TransferFailure(popup, reply) && info == None
    {
      sent := None;
      var failure: Option<string> := None;
      match popup {
        case PopupCancelled =>
          failure := Some(CancelledMessage);
        case PopupFailed(message) =>
          failure := Some(message);
        case PopupSucceeded(reference) =>
          transferReference := Some(reference);
          if reference != "" {
            sent := Some(PaymentStatusRequest(TransferChannel, code, Some(reference)));
            if !reply.Accepted? {
              failure := Some(FailureMessage(reply, PaymentUpdateFailedMessage));
            }
          }
      }
      if failure.Some? {
        if failure.value != CancelledMessage {
          error := failure;
        } else {
          info := Some(TransferCancelledInfo);
        }
        return;
      }
      transferVerified := true;
      info := Some(VerifiedInfo);
      transferModalOpen := false;
    }

    /** `markAsDelivered`: with no confirmation to send an error is shown and
        no request is made; otherwise the deliver request carries the chosen
        confirmation, and its reply decides between the delivered notice and
        an error. The confirmation flags are left as they are. */
    method MarkAsDelivered(reply: ServerReply) returns (sent: Option<Verification>)
      requires Valid()
      modifies this
      ensures Valid()
      ensures redemptionInput == old(redemptionInput) && posInput == old(posInput) && transferInput == old(transferInput)
      ensures posModalOpen == old(posModalOpen) && transferModalOpen == old(transferModalOpen)
      ensures posVerified == old(posVerified) && transferVerified == old(transferVerified)
      ensures transferReference == old(transferReference)
      ensures sent == DetermineVerification(order, posVerified, transferVerified, transferReference)
      ensures sent.None? ==> error == Some(NoVerificationMessage) && info == None
      ensures sent.Some? && reply.Accepted? ==> error == None && info == Some(DeliveredInfo)
      ensures sent.Some? && !reply.Accepted? ==> error == Some(FailureMessage(reply, DeliverFailedMessage)) && info == None
    {
      error, info := None, None;
      sent := DetermineVerification(order, posVerified, transferVerified, transferReference);
      if sent.None? {
        error := Some(NoVerificationMessage);
        return;
      }
      if reply.Accepted? {
        info := Some(DeliveredInfo);
      } else {
        error := Some(FailureMessage(reply, DeliverFailedMessage));
      }
    }
  }
}
