/**
 * Properties that follow a value from the client through the gateway and
 * back: what an order form sends upstream, and what the dashboard shows
 * when the server has no usable credential.
 */
module EndToEnd {
  import opened Wrappers
  import opened JsonValues
  import Decimal
  import Gateway
  import OrderForm
  import Dashboard

  /**
   * An order placed with a quantity typed in canonical decimal form reaches
   * the panel as five fields: the credential, the action "add", then the
   * service id, the link and the quantity exactly as typed.
   */
  lemma PlacedOrderFields(env: Option<string>, serviceId: string, link: string, quantity: string)
    requires serviceId != "" && link != "" && Decimal.IsCanonical(quantity)
    ensures OrderForm.OrderPayload(serviceId, link, quantity).Some?
    ensures Gateway.FieldList(Gateway.ResolveKey(env), "add",
              OrderForm.RequestEntries(OrderForm.OrderPayload(serviceId, link, quantity).value))
         == [Gateway.Field("key", Gateway.ResolveKey(env)), Gateway.Field("action", "add"),
             Gateway.Field("service", serviceId), Gateway.Field("link", link), Gateway.Field("quantity", quantity)]
  {
    var req := OrderForm.OrderPayload(serviceId, link, quantity).value;
    assert req.quantity == Some(Decimal.DigitsValue(quantity));
    Decimal.NatTextOfDigits(quantity);
    assert StringOf(JNum(Decimal.DigitsValue(quantity))) == quantity;
  }

  /** `parseInt` drops leading zeros, so "007" reaches the panel as "7". */
  lemma LeadingZerosDropped(env: Option<string>)
    ensures OrderForm.OrderPayload("101", "https://example.com/post/1", "007")
         == Some(OrderForm.OrderRequest("101", "https://example.com/post/1", Some(7)))
    ensures Gateway.FieldList(Gateway.ResolveKey(env), "add",
              OrderForm.RequestEntries(OrderForm.OrderRequest("101", "https://example.com/post/1", Some(7))))[4]
         == Gateway.Field("quantity", "7")
  {
    assert Decimal.DigitsValue("007") == 7 by {
      assert "007"[..2] == "00" && "00"[..1] == "0";
    }
  }

  /**
   * When the credential is the placeholder, the balance route's error body
   * makes the dashboard show the configuration hint, whatever the services
   * result was.
   */
  lemma MissingKeyShowsConfigHint(services: Dashboard.ServicesData)
    ensures Dashboard.Validation(Dashboard.BalanceDataOf(Gateway.ErrorBody(Gateway.KeyMissing)), services)
         == Some(Dashboard.KeyMissing)
    ensures Dashboard.ErrorText(Dashboard.KeyMissing) == Dashboard.ConfigHint
  {
  }

  /** Any other failure message reaches the error screen behind "Error: ". */
  lemma OtherFailureShown(message: string, services: Dashboard.ServicesData)
    requires message != "" && message != Gateway.KeyMissing
    ensures Dashboard.Validation(Dashboard.BalanceDataOf(Gateway.ErrorBody(message)), services) == Some(message)
    ensures Dashboard.ErrorText(message) == "Error: " + message
  {
  }
}
