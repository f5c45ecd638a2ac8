# BD Service storefront: verified model of the gateway and client selection logic

BD Service is a small storefront for a social-media-marketing reseller panel.
The browser talks to a thin Express server. The server forwards each request
to the panel's action-based HTTP API and injects the panel key. This project
models the parts of the system that make decisions, in Dafny:

- **The gateway** (`server.ts`), in `gateway.dfy` and `router.dfy`.
  `callSmmApi` resolves the credential and rejects the placeholder key before
  any request exists. It builds the ordered form fields in a mutable
  `URLSearchParams` object, modelled as the class `Gateway.SearchParams`.
  Each of the three proxy routes turns the upstream outcome into a response;
  `/api/health` answers on its own and never calls upstream.
  The route table is registered in order, so no API route is shadowed by the
  `*` fallback. The upstream HTTP call is a parameter `upstream` that maps
  the fields sent to an outcome: a delivered body, or a failure with a
  message.
- **The catalogue views** (`src/App.tsx`, `src/components/NewOrderPage.tsx`,
  `src/components/ServicesPage.tsx`), in `catalogue.dfy`. These are the
  distinct categories in first-occurrence order, the order form's category
  filter and lookup by id, and the case-insensitive search. They are built on
  `seqs.dfy`, which models `filter`, `find` and `Set` insertion order, and on
  `text.dfy`, which models `toLowerCase`, `includes` and `replace`.
- **The client state** in `dashboard.dfy` and `order_form.dfy`:
  - the `App` component's `fetchData` validation and state updates, its error
    text and its header title (class `Dashboard.AppState`);
  - the new-order form's submit guard, payload and result handling, and its
    category reset (class `OrderForm.Form`).
- **Cross-module properties** in `end_to_end.dfy`. An order typed in the form
  reaches the panel as five fields. A placeholder key on the server makes the
  dashboard show its configuration hint.

`decimal.dfy` models how JavaScript writes an integer (`String`) and reads
one back (`parseInt`). `json_values.dfy` holds the JSON values that cross the
gateway and JavaScript's `String(v)` conversion. `wrappers.dfy` holds
`Option`, and `types.dfy` holds the `Service` and `Balance` records.

Three behaviours of the code are worth stating plainly, since a reader might
expect otherwise. The gateway has no 401 and no 504 response: every failure
on the three proxy routes, a missing key included, becomes status 500 with
`{error: message || <route text>}` (`Gateway.Reply`, `Gateway.Handle`). The
`*` route matches every GET that no earlier route takes, including unknown
paths under `/api` (`Router.OtherRequests`). Caller entries are appended
after the `key` and `action` fields rather than merged, so a caller entry
named `key` adds a second `key` field (`Gateway.CallerFieldsAppended`).

## Model

| member | source | states |
|---|---|---|
| `Gateway.ResolveKey` | server.ts:24-28 | The resolved key is never empty. It is usable (non-empty and not the placeholder) exactly when the environment value is not the placeholder. A set, non-empty environment value is used as it is; an unset or empty one resolves to the built-in key. |
| `Gateway.FieldList` | server.ts:30-35 | The form fields are `key`, then `action`, then one field per caller entry in order with value `String(v)`, so there are 2 + \|data\| fields. |
| `Gateway.CallerFieldsAppended` | server.ts:31-35 | Caller entries are appended, not merged. The first two fields always carry the key and the action. The number of fields with a given name is the number of caller entries with that name, plus one for `key` and one for `action`. |
| `Gateway.SearchParams.constructor` | server.ts:30 | A new parameter list is empty. |
| `Gateway.SearchParams.Append` | server.ts:31-34 | `append` adds one field at the end and changes nothing else. |
| `Gateway.CallSmmApi` | server.ts:23-52 | With the placeholder key, no request is sent and the call fails with `API_KEY_MISSING`. Otherwise exactly one request is sent: the field list built by the loop. Its outcome is returned unchanged. |
| `Gateway.FailureMessage` | server.ts:63-83 | `error.message \|\| <route text>` is never empty. A non-empty failure message is used as it is; an empty one falls back to the route's text. |
| `Gateway.Reply` | server.ts:59-85 | The status is 200 exactly when the upstream delivered a body. That body is sent unchanged, and nothing inspects an `error` field inside it. Every failure becomes status 500 with the body `{error: m}` and no other member, where m is the failure message, or the route's text when the message is empty. |
| `Gateway.Handle` | server.ts:54-85 | `/api/health` never calls upstream and answers 200 with status "ok". With the placeholder key, every proxy route answers 500 `{error: "API_KEY_MISSING"}` and sends nothing. Otherwise the route sends one request: action `balance`, `services`, or the path segment; data is the request body on the open route only. |
| `Gateway.ActionOf` | server.ts:61-80 | The balance route performs `balance`, the services route `services`, and the open route the action named in its path. |
| `Gateway.RouteData` | server.ts:61-80 | The open route forwards the request body as the caller data; the balance and services routes forward none. |
| `Gateway.FixedRoutesSendTwoFields` | server.ts:59-75 | The balance and services routes send exactly two fields: the key and the action. |
| `Router.Dispatch` | server.ts:77-80 | When the open route is reached, its action is the third path segment, verbatim. |
| `Router.ApiRegisteredBeforeFallback` | server.ts:54-102 | The `*` fallback is the last registration, and every registration before it is an API route. |
| `Router.ApiRoutesNotShadowed` | server.ts:54-102 | A request that any API route matches reaches an API route, never the entry document. |
| `Router.HealthPathReachesHealth` | server.ts:55 | GET /api/health reaches the health route. |
| `Router.BalancePathReachesBalance` | server.ts:59 | GET /api/balance reaches the balance route. |
| `Router.ServicesPathReachesServices` | server.ts:68 | GET /api/services reaches the services route. |
| `Router.SmmPathReachesSmm` | server.ts:77-78 | POST /api/smm/x reaches the open route with action x. |
| `Router.OtherRequests` | server.ts:100-102 | Every GET that no GET route names gets the entry document, including an unknown /api path and GET /api/smm/add. Every POST that the open route does not take matches no route, including a POST to /api/health, /api/balance or /api/services. |
| `JsonValues.StringOf` | server.ts:33-35 | `String(v)` keeps a string as it is and writes a number so that `parseInt` reads it back. |
| `Decimal.NatText` | server.ts:34 | `String(n)` of a non-negative integer is canonical decimal text (no leading zero) whose value is n. |
| `Decimal.NatTextOfDigits` | src/components/NewOrderPage.tsx:32 | A canonical digit string round-trips through its value. |
| `Decimal.ParseInt` | src/components/NewOrderPage.tsx:32 | `parseInt` of an all-digit string is its value. The result is NaN exactly when no digit follows the optional sign. |
| `Decimal.ParseIntOfText` | src/components/NewOrderPage.tsx:32 | `parseInt(String(n)) == n` for every integer n. |
| `Seqs.Distinct` | src/App.tsx:67-68 | `Array.from(new Set(xs))` has no duplicates and holds exactly the elements of xs. |
| `Seqs.DistinctFirstOccurrenceOrder` | src/App.tsx:67-68 | The Set lists elements in the order of their first occurrences in xs. |
| `Seqs.Filter` | src/components/ServicesPage.tsx:10-13 | `filter` keeps exactly the elements that satisfy the predicate, and no more elements than it was given. |
| `Seqs.FilterIsSubsequence` | src/components/ServicesPage.tsx:10-13 | `filter` keeps the original order; its result is a subsequence of its input. |
| `Seqs.FilterCount` | src/components/NewOrderPage.tsx:16 | `filter` keeps every occurrence of a satisfying element and none of the others. |
| `Seqs.FilterKeepsAll` | src/components/ServicesPage.tsx:10-13 | When every element satisfies the predicate, `filter` returns its input. |
| `Seqs.FilterIdempotent` | src/components/ServicesPage.tsx:10-13 | Filtering twice with one predicate is filtering once. |
| `Seqs.FilterCongruent` | src/components/ServicesPage.tsx:10-13 | Predicates that agree on every element give the same filter result. |
| `Seqs.Find` | src/components/NewOrderPage.tsx:20 | `find` returns nothing exactly when no element satisfies the predicate. Otherwise it returns the first element that does. |
| `Text.ContainsAt` | src/components/ServicesPage.tsx:11-12 | `includes` holds exactly when the needle occurs at some position of the haystack. |
| `Text.ContainsEmpty` | src/components/ServicesPage.tsx:11-12 | Every string includes the empty string. |
| `Text.LowerIdempotent` | src/components/ServicesPage.tsx:11-12 | Lower-casing twice is lower-casing once. |
| `Text.ReplaceFirstPointwise` | src/App.tsx:148 | `replace` keeps the length, and every character is kept or is the pattern character turned into the replacement. |
| `Text.ReplaceFirstSpec` | src/App.tsx:148 | `replace` with a one-character pattern changes only the first occurrence. A string without the character is unchanged. |
| `Catalogue.Categories` | src/App.tsx:66-69 | The category list has no duplicates. A category is listed exactly when some service has it. |
| `Catalogue.CategoriesInFirstOccurrenceOrder` | src/App.tsx:67-68 | An earlier-listed category's first service comes before a later-listed category's first service. |
| `Catalogue.FilteredServices` | src/components/NewOrderPage.tsx:15-17 | The filter result is a subsequence of the services. It holds only services of the selected category and includes each of them. |
| `Catalogue.FilteredServicesCount` | src/components/NewOrderPage.tsx:15-17 | Each service of the category appears as often as in the input; services of other categories do not appear. |
| `Catalogue.SelectedService` | src/components/NewOrderPage.tsx:19-21 | The result is absent exactly when no service has the id. Otherwise it is the first service whose id matches. |
| `Catalogue.Search` | src/components/ServicesPage.tsx:9-14 | The result is a subsequence of the services. It holds exactly the services whose lower-cased name or category includes the lower-cased term. |
| `Catalogue.SearchCount` | src/components/ServicesPage.tsx:9-14 | The search keeps every occurrence of a matching service, as often as it appears in the input, and no occurrence of a service that does not match. |
| `Catalogue.SearchEmptyTermKeepsAll` | src/components/ServicesPage.tsx:11-12 | An empty term keeps every service. |
| `Catalogue.SearchIgnoresCase` | src/components/ServicesPage.tsx:10-13 | Terms that lower-case alike give identical results. |
| `Catalogue.SearchLowerTerm` | src/components/ServicesPage.tsx:10-13 | Searching for the lower-cased term gives the same result. |
| `Catalogue.SearchIdempotent` | src/components/ServicesPage.tsx:9-14 | Searching a result again with the same term returns it unchanged. |
| `Dashboard.BalanceDataOf` | src/services/api.ts:13 | A response body's string `error` member, whatever the status, becomes the balance result's error, and the result has an error only when the body has one. The string `balance` and `currency` members become the balance and currency; an absent or non-string member reads as "". |
| `Dashboard.Validation` | src/App.tsx:45-51 | A thrown message is never empty. A truthy balance error wins, because it is checked first. A non-array services result throws its error or "Invalid services data". Nothing is thrown exactly when the balance has no truthy error and the services result is an array. |
| `Dashboard.ErrorText` | src/App.tsx:184-186 | The configuration hint is shown exactly when the error is `API_KEY_MISSING`. Otherwise the text is "Error: " followed by the error. |
| `Dashboard.CaughtMessage` | src/App.tsx:58 | The stored error is never empty: the thrown message when it has text, otherwise "Failed to connect to MotherPanel API". |
| `Dashboard.Title` | src/App.tsx:148 | The title has the page key's length. Each character is the key's, or a hyphen turned into a space. A key without a hyphen is its own title. |
| `Dashboard.NewOrderTitle` | src/App.tsx:148 | The page "new-order" is titled "new order". |
| `Dashboard.AddFundsTitle` | src/App.tsx:148 | The page "add-funds" is titled "add funds". |
| `Dashboard.ServicesTitle` | src/App.tsx:148 | The page "services" keeps its key as its title. |
| `Dashboard.OrdersTitle` | src/App.tsx:148 | The page "orders" keeps its key as its title. |
| `Dashboard.SupportTitle` | src/App.tsx:148 | The page "support" keeps its key as its title. |
| `Dashboard.OnlyFirstHyphenReplaced` | src/App.tsx:148 | Only the first hyphen becomes a space: "a-b-c" becomes "a b-c". |
| `Dashboard.AppState.constructor` | src/App.tsx:30-35 | The app starts on the new-order page with no balance, no services, no error, and loading. |
| `Dashboard.AppState.CurrentScreen` | src/App.tsx:172-195 | The spinner shows exactly while loading. After loading, the error screen shows exactly when `apiError` is truthy, with the matching error text; otherwise the active page shows. |
| `Dashboard.AppState.Navigate` | src/App.tsx:100 | Navigating changes only the active page. |
| `Dashboard.AppState.FetchData` | src/App.tsx:37-64 | On success, the balance and services are stored and the error is cleared. On failure, only the error is set, to the thrown message; the "Failed to connect" fallback is never reached. Loading ends either way. The screen shows the page or the matching error text. On success the category list is the one derived from the new services. |
| `OrderForm.OrderPayload` | src/components/NewOrderPage.tsx:25-33 | No order exists exactly when the service id, the link or the quantity is empty. An order carries the id and link as typed and `parseInt(quantity)`, which is the digits' value for a digit string. |
| `OrderForm.RequestEntries` | src/services/api.ts:42-46 | The posted body has three members in order: service and link as strings, then quantity, which is the `parseInt` result as a number, or `null` when it was NaN. |
| `OrderForm.ResultOf` | src/components/NewOrderPage.tsx:34-36 | A reply is kept as it is; a thrown request leaves `{error: "Failed to place order"}`. |
| `OrderForm.InitialCategory` | src/components/NewOrderPage.tsx:8 | The initial category is the first category, or "" when there are none. |
| `OrderForm.Form.constructor` | src/components/NewOrderPage.tsx:7-13 | A new form starts on the initial category, with empty inputs, not submitting and no result. |
| `OrderForm.Form.SubmitDisabled` | src/components/NewOrderPage.tsx:121 | The button is disabled while submitting and while no service id is chosen; an enabled button means neither holds. |
| `OrderForm.Form.ChangeCategory` | src/components/NewOrderPage.tsx:56-59 | Changing category sets the category and clears the selected service. Nothing else changes, so the submit button is disabled. The filtered list becomes the services of the new category, and no service is selected. |
| `OrderForm.Form.ChooseService` | src/components/NewOrderPage.tsx:72 | Choosing a service changes only the selected id; the selected service becomes the first service with that id. |
| `OrderForm.Form.EditLink` | src/components/NewOrderPage.tsx:87 | Editing the link changes only the link. |
| `OrderForm.Form.EditQuantity` | src/components/NewOrderPage.tsx:100 | Editing the quantity changes only the quantity. |
| `OrderForm.Form.HandleSubmit` | src/components/NewOrderPage.tsx:23-40 | A failed guard sends nothing and changes nothing. Otherwise the payload is sent and the reply is kept; a thrown request keeps `{error: "Failed to place order"}`. `submitting` ends false, the inputs are unchanged, and the button is enabled again. |
| `EndToEnd.PlacedOrderFields` | src/components/NewOrderPage.tsx:29-33 | An order with a canonical decimal quantity reaches the panel as exactly these fields: key, action "add", service, link, and the quantity as typed. |
| `EndToEnd.LeadingZerosDropped` | src/components/NewOrderPage.tsx:32 | A quantity typed as "007" reaches the panel as "7". |
| `EndToEnd.MissingKeyShowsConfigHint` | src/App.tsx:45-46 | The gateway's `API_KEY_MISSING` error body makes the dashboard fail with that message, whatever the services result, and show the configuration hint. |
| `EndToEnd.OtherFailureShown` | server.ts:63-64 | Any other non-empty failure message reaches the dashboard and is shown after "Error: ". |

## Left out

- The upstream HTTP call (server.ts:37-51) is not modelled: the axios request, its 15-second timeout, headers, URL and log lines. It is the `upstream` parameter of `Gateway.CallSmmApi`. Transport failures, timeouts and non-2xx replies are all a `Failed(message)` outcome, which is how the code treats them.
- Turning the field list into bytes (`URLSearchParams.toString()`) is not modelled. That is the application/x-www-form-urlencoded serializer of the WHATWG URL Standard, section 5.2. Only the ordered field list is modelled.
- The built-in fallback key's literal is not reproduced. `Gateway.FallbackKey` is a stand-in of type `UsableKey`, and proofs use only the fact that it is usable.
- Express and Vite plumbing is not modelled: JSON body parsing, request logging, Vite dev middleware, `express.static` and `listen` (server.ts:14-20, 87-112). `Router` models the production route table. In production, a file that exists under `dist` is served by `express.static` before `*` is reached.
- Express path matching is simplified. Paths are given as segments. Case-insensitive matching, trailing-slash tolerance and URL-decoding of `:action` are not modelled.
- `/api/health`'s timestamp is the `now` parameter; the clock is not modelled.
- The data entries are taken in `Object.entries` order as given. JavaScript's rule that integer-like keys come first, and duplicate JSON keys, are not modelled.
- JSON numbers are modelled as integers. Fractional numbers, exponents, `-0`, `Infinity` and their `String()` forms are not modelled.
- `Decimal.ParseInt` does not skip leading whitespace and does not handle the "0x" hexadecimal prefix. A number input never produces either.
- `toLowerCase` covers ASCII letters only; Unicode case mapping is not modelled.
- The `fetch` client in src/services/api.ts is not modelled beyond two pieces. `Dashboard.BalanceDataOf` models how the balance body is read. `OrderForm.RequestEntries` models the order body. Its non-JSON fallback only produces an `error` result, which the `BalanceData` and `ServicesData` inputs already cover.
- A balance result that is not an object (for example `null`, where reading `.error` throws a `TypeError`) is not modelled. Error fields that are not strings are not modelled either.
- `Promise.all` concurrency and React's asynchronous state updates are not modelled. `fetchData` takes both results at once. `HandleSubmit` treats the request as one step, so the in-flight state with `submitting` true is not observable. `handleSubmit` itself does not check `submitting`; only the disabled button prevents a second submit.
- The "Total Charge" computation is not modelled because it uses floating point (NewOrderPage.tsx:115).
- Rendering is not modelled: JSX, animation and styling, the `capitalize` CSS on the title, Sidebar, Header, AddFundsPage, OrdersPage and SupportPage (whose submit is a simulated timeout). The order form's and services page's copies inside src/App.tsx (250-283, 438-446) repeat the components and are modelled once.
- src/mockData.ts is fixture data and is not part of this model.
- EndToEnd.PlacedOrderFields: holds for unbounded integers only. `parseInt` returns a double, so a quantity of 2^53 + 1 or more can reach the panel rounded ("9007199254740993" is sent as "9007199254740992"), and from 10^21 upwards in exponent form ("1e+21"). Double precision is not modelled.
- Decimal.ParseInt: reads a digit string as an unbounded integer. JavaScript's `parseInt` returns a double, so from 2^53 + 1 upwards the value read can be rounded.
- Decimal.NatText: writes an unbounded integer in plain decimal. JavaScript's `String` of a double writes 10^21 and above in exponent form.
- JsonValues.StringOf: converts unbounded integers. JSON numbers are doubles in the program, so its round trip with `parseInt` holds there only below 2^53.
- The browser's form validation, which stops `handleSubmit` from running at all, is not modelled: `required` on the link and quantity, `type="url"` on the link, and `type="number"` with `min`/`max` on the quantity (src/components/NewOrderPage.tsx:84-105). `OrderForm.Form.HandleSubmit` takes any typed text.
