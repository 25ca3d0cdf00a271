/** What the two checkout routes (app/api/paystack/create-transaction and
    create-invoice) share: the request body, the items guard, and the
    redemption-code existence check they hand to the code generator. */
module CheckoutRequest {
  import opened Types
  import opened Orders

  const ItemsRequiredMessage: string := "Items are required"

  const SecretKeyMissingMessage: string := "PAYSTACK_SECRET_KEY is not configured"

  /** Why a call of the Paystack client (lib/paystack.ts) threw: the secret
      key is not configured, or Paystack answered a non-ok status, with the
      `message` of its JSON error body if it has one. */
  datatype GatewayThrow = SecretKeyMissing | HttpError(errorMessage: Option<string>)

  /** The message of the error the client throws, which the route's `catch`
      answers with: a missing key names the key; a non-ok answer gives
      Paystack's own non-empty message, else the client's `fallback`. */
  function ThrownMessage(t: GatewayThrow, fallback: string): (r: string)
    ensures t.SecretKeyMissing? ==> r == SecretKeyMissingMessage
    ensures t.HttpError? && Truthy(t.errorMessage) ==> r == t.errorMessage.value
    ensures t.HttpError? && !Truthy(t.errorMessage) ==> r == fallback
  {
    match t
    case SecretKeyMissing => SecretKeyMissingMessage
    case HttpError(m) => if Truthy(m) then m.value else fallback
  }

  /** The JSON body. `items` is absent when the field is missing or is not an
      array; `totalAmount` is absent when missing. */
  datatype CheckoutBody = CheckoutBody(
    items: Option<seq<OrderItem>>,
    name: Option<string>,
    email: Option<string>,
    address: Option<string>,
    totalAmount: Option<int>)

  /** `items` is an array with at least one element. */
  predicate ItemsPresent(items: Option<seq<OrderItem>>)
  {
    items.Some? && |items.value| > 0
  }

  /** JavaScript truthiness of the amount: missing and 0 are falsy. */
  predicate AmountTruthy(amount: Option<int>)
  {
    amount.Some? && amount.value != 0
  }

  /** The `checkExists` callback both routes pass: a `redemptionCode ==`
      query over the orders collection has a result. */
  function RedemptionCodeExists(ids: seq<string>, orders: map<string, Order>): string -> bool
  {
    code => |MatchingIds(ids, orders, RedemptionCodeField, code)| > 0
  }

  /** On a well-formed store the callback answers exactly whether some order
      already carries the code. */
  lemma RedemptionCodeExistsIffInUse(ids: seq<string>, orders: map<string, Order>, code: string)
    requires forall id :: id in orders ==> id in ids
    ensures RedemptionCodeExists(ids, orders)(code) <==> CodeInUse(orders, code)
  {
    var m := MatchingIds(ids, orders, RedemptionCodeField, code);
    if CodeInUse(orders, code) {
      var id :| id in orders && orders[id].redemptionCode == code;
      assert id in m;
    }
    if |m| > 0 {
      assert m[0] in orders && orders[m[0]].redemptionCode == code;
    }
  }
}
