/**
 * The dashboard's top-level state: loading the balance and the catalogue,
 * validating both results, and choosing what the page shows.
 */
module Dashboard {
  import opened Wrappers
  import opened Types
  import opened JsonValues
  import Text
  import Seqs
  import Catalogue

  /**
   * The message the client compares against. The client repeats the text
   * the server throws instead of sharing it; `EndToEnd.MissingKeyShowsConfigHint`
   * holds only because the two texts agree.
   */
  const KeyMissing: string := "API_KEY_MISSING"
  const InvalidServices: string := "Invalid services data"
  const ConnectFailed: string := "Failed to connect to MotherPanel API"
  /** Written as two literals so that the verifier sees its first character. */
  const ConfigHint: string := "Please set your " + "MOTHERPANEL_API_KEY in the Secrets panel."

  /** The balance result as the client receives it: the balance and an optional `error` field. */
  datatype BalanceData = BalanceData(info: Balance, error: Option<string>)

  /** The services result: an array of services, or some other value with an optional `error` field. */
  datatype ServicesData = ServiceArray(items: seq<Service>) | NotAnArray(error: Option<string>)

  /** JavaScript truthiness of an optional string field. */
  predicate Truthy(field: Option<string>) {
    field.Some? && field.value != ""
  }

  /** `body` has a member `name` whose value is a string. */
  predicate IsStringMember(body: Json, name: string) {
    Member(body, name).Some? && Member(body, name).value.JStr?
  }

  /** The string member `name` of `body`, or `None` when it is absent or not a string. */
  function StringMember(body: Json, name: string): (r: Option<string>)
    ensures r.Some? <==> IsStringMember(body, name)
    ensures r.Some? ==> Member(body, name) == Some(JStr(r.value))
  {
    match Member(body, name)
    case Some(JStr(s)) => Some(s)
    case _ => None
  }

  /** The balance result read from a response body, whatever its status. */
  function BalanceDataOf(body: Json): (b: BalanceData)
    ensures b.error.Some? ==> Member(body, "error") == Some(JStr(b.error.value))
    ensures IsStringMember(body, "error") ==> b.error == Some(Member(body, "error").value.s)
    ensures IsStringMember(body, "balance") ==> b.info.balance == Member(body, "balance").value.s
    ensures !IsStringMember(body, "balance") ==> b.info.balance == ""
    ensures IsStringMember(body, "currency") ==> b.info.currency == Member(body, "currency").value.s
    ensures !IsStringMember(body, "currency") ==> b.info.currency == ""
  {
    var balance := StringMember(body, "balance");
    var currency := StringMember(body, "currency");
    BalanceData(
      Balance(if balance.Some? then balance.value else "", if currency.Some? then currency.value else ""),
      StringMember(body, "error"))
  }

  /**
   * The message `fetchData` throws for a pair of results, or `None` when
   * both are usable. The balance is checked first, so its error wins.
   */
  function Validation(b: BalanceData, s: ServicesData): (thrown: Option<string>)
    ensures thrown.Some? ==> thrown.value != ""
    ensures Truthy(b.error) ==> thrown == b.error
    ensures !Truthy(b.error) && s.NotAnArray? ==> thrown == Some(if Truthy(s.error) then s.error.value else InvalidServices)
    ensures thrown.None? <==> !Truthy(b.error) && s.ServiceArray?
  {
    if Truthy(b.error) then b.error
    else if s.NotAnArray? then Some(if Truthy(s.error) then s.error.value else InvalidServices)
    else None
  }

  /** `err.message || "Failed to connect to MotherPanel API"`. */
  function CaughtMessage(message: string): (text: string)
    ensures text != ""
    ensures message != "" ==> text == message
    ensures message == "" ==> text == ConnectFailed
  {
    if message != "" then message else ConnectFailed
  }

  /** The text of the error screen: a configuration hint for a missing key, the message otherwise. */
  function ErrorText(apiError: string): (text: string)
    ensures text == ConfigHint <==> apiError == KeyMissing
    ensures apiError != KeyMissing ==> text == "Error: " + apiError
  {
    if apiError == KeyMissing then ConfigHint
    else
      var text := "Error: " + apiError;
      assert text[0] == 'E';
      text
  }

  /** The five pages of the sidebar. */
  datatype Page = NewOrder | ServicesPage | Orders | AddFunds | Support

  function PageKey(page: Page): string {
    match page
    case NewOrder => "new-order"
    case ServicesPage => "services"
    case Orders => "orders"
    case AddFunds => "add-funds"
    case Support => "support"
  }

  /** The header title: `activePage.replace("-", " ")`. */
  function Title(page: Page): (title: string)
    ensures |title| == |PageKey(page)|
    ensures forall i :: 0 <= i < |title| ==>
              title[i] == PageKey(page)[i] || (PageKey(page)[i] == '-' && title[i] == ' ')
    ensures '-' !in PageKey(page) ==> title == PageKey(page)
  {
    var key := PageKey(page);
    Text.ReplaceFirstPointwise(key, '-', ' ');
    Text.ReplaceFirstSpec(key, '-', ' ');
    Text.ReplaceFirst(key, '-', ' ')
  }

  /** "new-order" is titled "new order". */
  lemma NewOrderTitle()
    ensures Title(NewOrder) == "new order"
  {
    assert Text.ReplaceFirst("order", '-', ' ') == "order";
  }

  /** "add-funds" is titled "add funds". */
  lemma AddFundsTitle()
    ensures Title(AddFunds) == "add funds"
  {
    assert Text.ReplaceFirst("funds", '-', ' ') == "funds";
  }

  /** A key without a hyphen is its own title. */
  lemma ServicesTitle()
    ensures Title(ServicesPage) == "services"
  {
    assert Text.ReplaceFirst("services", '-', ' ') == "services";
  }

  lemma OrdersTitle()
    ensures Title(Orders) == "orders"
  {
    assert Text.ReplaceFirst("orders", '-', ' ') == "orders";
  }

  lemma SupportTitle()
    ensures Title(Support) == "support"
  {
    assert Text.ReplaceFirst("support", '-', ' ') == "support";
  }

  /** Only the first hyphen is replaced. */
  lemma OnlyFirstHyphenReplaced()
    ensures Text.ReplaceFirst("a-b-c", '-', ' ') == "a b-c"
  {
  }

  /** What the content area shows. */
  datatype Screen = Loading | ErrorScreen(text: string) | PageScreen(page: Page)

  /** The `App` component's state. */
  class AppState {
    var activePage: Page
    var balance: Option<Balance>
    var services: seq<Service>
    var loading: bool
    var apiError: Option<string>

    constructor ()
      ensures activePage == NewOrder && balance == None && services == [] && loading && apiError == None
    {
      activePage := NewOrder;
      balance := None;
      services := [];
      loading := true;
      apiError := None;
    }

    /** The loading spinner, then the error screen when `apiError` is truthy, then the active page. */
    function CurrentScreen(): (screen: Screen)
      reads this
      ensures screen == Loading <==> loading
      ensures screen.ErrorScreen? <==> !loading && Truthy(apiError)
      ensures screen.ErrorScreen? ==> screen.text == ErrorText(apiError.value)
      ensures screen.PageScreen? ==> screen.page == activePage
    {
      if loading then Loading
      else if Truthy(apiError) then ErrorScreen(ErrorText(apiError.value))
      else PageScreen(activePage)
    }

    /** The distinct categories the order form offers. */
    function Categories(): seq<string>
      reads this
    {
      Catalogue.Categories(services)
    }

    method Navigate(page: Page)
      modifies this
      ensures activePage == page
      ensures balance == old(balance) && services == old(services)
      ensures loading == old(loading) && apiError == old(apiError)
    {
      activePage := page;
    }

    /**
     * `fetchData` with both results in hand: on success the balance and
     * services are stored and the error cleared; on failure only the error
     * is set, to the thrown message. Loading ends either way.
     */
    method FetchData(b: BalanceData, s: ServicesData)
      modifies this
      ensures !loading && activePage == old(activePage)
      ensures Validation(b, s).None? ==> balance == Some(b.info) && services == s.items && apiError == None
      ensures Validation(b, s).None? ==> Categories() == Catalogue.Categories(s.items)
      ensures Validation(b, s).Some? ==>
                apiError == Validation(b, s) && balance == old(balance) && services == old(services)
      ensures CurrentScreen() == if Validation(b, s).None? then PageScreen(activePage)
                                 else ErrorScreen(ErrorText(Validation(b, s).value))
    {
      var thrown: Option<string> := None;
      if Truthy(b.error) {
        thrown := Some(b.error.value);
      } else if s.NotAnArray? {
        thrown := Some(if Truthy(s.error) then s.error.value else InvalidServices);
      }
      if thrown.None? {
        balance := Some(b.info);
        services := s.items;
        apiError := None;
      } else {
        apiError := Some(CaughtMessage(thrown.value));
      }
      loading := false;
    }
  }
}
