/**
 * The new-order form: its selection state, the category filter it shows,
 * the submit guard, the order it sends, and the result it keeps.
 */
module OrderForm {
  import opened Wrappers
  import opened Types
  import opened JsonValues
  import Decimal
  import Catalogue

  const PlaceFailed: string := "Failed to place order"

  /** The order `placeOrder` sends; a `None` quantity is `parseInt`'s `NaN`. */
  datatype OrderRequest = OrderRequest(service: string, link: string, quantity: Option<int>)

  /** How `placeOrder` ends: with the decoded reply, or by throwing. */
  datatype PlaceOutcome = Replied(body: Json) | Threw

  /**
   * The submit guard and payload: no order when the service id, the link
   * or the quantity is empty; otherwise the id and link as typed and the
   * quantity read by `parseInt`.
   */
  function OrderPayload(serviceId: string, link: string, quantity: string): (r: Option<OrderRequest>)
    ensures r.None? <==> serviceId == "" || link == "" || quantity == ""
    ensures r.Some? ==> r.value.service == serviceId && r.value.link == link
    ensures r.Some? && Decimal.IsDigits(quantity) ==> r.value.quantity == Some(Decimal.DigitsValue(quantity))
  {
    if serviceId == "" || link == "" || quantity == "" then None
    else Some(OrderRequest(serviceId, link, Decimal.ParseInt(quantity)))
  }

  /**
   * The body `placeOrder` posts, as the server's JSON parser hands it on:
   * its three members in order, with `NaN` serialised as `null`.
   */
  function RequestEntries(req: OrderRequest): (entries: seq<(string, Json)>)
    ensures |entries| == 3
    ensures entries[0] == ("service", JStr(req.service)) && entries[1] == ("link", JStr(req.link))
    ensures entries[2].0 == "quantity"
    ensures entries[2].1 == if req.quantity.Some? then JNum(req.quantity.value) else JNull
  {
    [("service", JStr(req.service)),
     ("link", JStr(req.link)),
     ("quantity", if req.quantity.Some? then JNum(req.quantity.value) else JNull)]
  }

  /** What the form keeps after a request: the reply, or a fixed error object when the request threw. */
  function ResultOf(outcome: PlaceOutcome): (result: Json)
    ensures outcome.Replied? ==> result == outcome.body
    ensures outcome.Threw? ==> result == JObj([("error", JStr(PlaceFailed))])
  {
    match outcome
    case Replied(body) => body
    case Threw => JObj([("error", JStr(PlaceFailed))])
  }

  /** `categories[0] || ""`. */
  function InitialCategory(categories: seq<string>): (c: string)
    ensures categories == [] ==> c == ""
    ensures categories != [] ==> c == categories[0]
  {
    if categories != [] && categories[0] != "" then categories[0] else ""
  }

  /** The `NewOrderPage` component: its two props and its state. */
  class Form {
    const categories: seq<string>
    const services: seq<Service>
    var selectedCategory: string
    var selectedServiceId: string
    var link: string
    var quantity: string
    var submitting: bool
    var orderResult: Option<Json>

    constructor (categories: seq<string>, services: seq<Service>)
      ensures this.categories == categories && this.services == services
      ensures selectedCategory == InitialCategory(categories)
      ensures selectedServiceId == "" && link == "" && quantity == ""
      ensures !submitting && orderResult == None
    {
      this.categories := categories;
      this.services := services;
      selectedCategory := InitialCategory(categories);
      selectedServiceId := "";
      link := "";
      quantity := "";
      submitting := false;
      orderResult := None;
    }

    /** The services offered for the selected category. */
    function FilteredServices(): seq<Service>
      reads this
    {
      Catalogue.FilteredServices(services, selectedCategory)
    }

    /** The chosen service, looked up among all services, not only the filtered ones. */
    function SelectedService(): Option<Service>
      reads this
    {
      Catalogue.SelectedService(services, selectedServiceId)
    }

    /** The submit button is disabled while a request is in flight or no service is chosen. */
    predicate SubmitDisabled(): (disabled: bool)
      reads this
      ensures submitting ==> disabled
      ensures selectedServiceId == "" ==> disabled
      ensures !disabled ==> !submitting && selectedServiceId != ""
    {
      submitting || selectedServiceId == ""
    }

    /** Choosing a category clears the chosen service. */
    method ChangeCategory(category: string)
      modifies this
      ensures selectedCategory == category && selectedServiceId == ""
      ensures FilteredServices() == Catalogue.FilteredServices(services, category)
      ensures SelectedService() == Catalogue.SelectedService(services, "")
      ensures link == old(link) && quantity == old(quantity)
      ensures submitting == old(submitting) && orderResult == old(orderResult)
      ensures SubmitDisabled()
    {
      selectedCategory := category;
      selectedServiceId := "";
    }

    method ChooseService(id: string)
      modifies this
      ensures selectedServiceId == id && selectedCategory == old(selectedCategory)
      ensures SelectedService() == Catalogue.SelectedService(services, id)
      ensures link == old(link) && quantity == old(quantity)
      ensures submitting == old(submitting) && orderResult == old(orderResult)
    {
      selectedServiceId := id;
    }

    method EditLink(text: string)
      modifies this
      ensures link == text && selectedServiceId == old(selectedServiceId) && selectedCategory == old(selectedCategory)
      ensures quantity == old(quantity) && submitting == old(submitting) && orderResult == old(orderResult)
    {
      link := text;
    }

    method EditQuantity(text: string)
      modifies this
      ensures quantity == text && selectedServiceId == old(selectedServiceId) && selectedCategory == old(selectedCategory)
      ensures link == old(link) && submitting == old(submitting) && orderResult == old(orderResult)
    {
      quantity := text;
    }

    /**
     * `handleSubmit`. A failed guard sends nothing and changes nothing;
     * otherwise the payload goes to `placeOrder`, the result is kept, and
     * `submitting` ends false. The form's inputs are left as they were.
     */
    method HandleSubmit(placeOrder: OrderRequest -> PlaceOutcome) returns (sent: Option<OrderRequest>)
      modifies this
      ensures sent == OrderPayload(old(selectedServiceId), old(link), old(quantity))
      ensures selectedCategory == old(selectedCategory) && selectedServiceId == old(selectedServiceId)
      ensures link == old(link) && quantity == old(quantity)
      ensures sent.None? ==> submitting == old(submitting) && orderResult == old(orderResult)
      ensures sent.Some? ==> !submitting && orderResult == Some(ResultOf(placeOrder(sent.value)))
      ensures sent.Some? ==> !SubmitDisabled()
    {
      if selectedServiceId == "" || link == "" || quantity == "" {
        return None;
      }
      submitting := true;
      sent := Some(OrderRequest(selectedServiceId, link, Decimal.ParseInt(quantity)));
      var outcome := placeOrder(sent.value);
      match outcome {
        case Replied(body) => orderResult := Some(body);
        case Threw => orderResult := Some(JObj([("error", JStr(PlaceFailed))]));
      }
      submitting := false;
    }
  }
}
