# LuxTravel-AI travel-agent chat: a Dafny model

This project models the core of a browser chat application for a travel
agency. The user types (or attaches a PDF), and a Gemini chat session
answers. The model may ask for one of seven local tools, and those tools
reach two back ends:

- the Monde back-office REST API (people, tasks and cities), through a
  bearer-token client that logs in once, caches the token, and on a 401
  refreshes it exactly once and retries the call exactly once;
- a Google-Sheets sales ledger, which degrades to a built-in three-row
  sample whenever the live answer is unusable.

The modules follow the source files:

| module | file | models |
|---|---|---|
| `Base`, `Text`, `JsonValues`, `Types` | `base.dfy`, `text.dfy`, `json.dfy`, `types.dfy` | Option/Result, the JavaScript string operations the core uses (`trim`, `toLowerCase`, `includes`, `split`, `normalize("NFD")` on Latin-1), JSON values with truthiness, and the shapes of `types.ts` |
| `MondeClient` | `monde_client.dfy` | `AuthService` (a class over `token` and `tokenPromise`) and `MondeApiClient.request` over a `Backend` whose `fetch` and `login` answers are parameters |
| `MondeServices` | `monde_services.dfy` | `normalizeStr`, the client-side people filter, the JSON:API envelopes and unwrappers, and the People/Tasks/Cities services |
| `SalesApi` | `sales_api.dfy` | `SalesService`: filter building, query parameters, the live-or-sample policy of `fetchSales`, the sample filter and `formatDate` |
| `ToolDefinitions` | `tool_definitions.dfy` | the `mondeToolsSchema` catalogue and `executeMondeTool` |
| `GeminiService` | `gemini_service.dfy` | the first payload, the one-call-per-round tool loop and the final `AgentResponse` of `sendMessageToAgent`; a chat session is a class whose answers are given |
| `App` | `app.dfy` | the `App` component as a class over the transcript, `isLoading`, `error`, `sessionId`, the session and the position |

The outside world enters as parameters:

- **HTTP.** `Backend` takes `login: nat -> Result<string>` and
  `respond: (nat, HttpRequest) -> FetchOutcome`. The k-th login and the
  k-th fetch get the k-th answer, and every fetch is logged.
- **The sales ledger.** `Ledger` takes whether its configured URL parses,
  and an answer per query. Every query is logged.
- **The model.** `ChatSession` takes a finite list of answers, one per
  send. Each is a response or the error the send rejects with. Sends past
  the end are rejected.
- **Clock and geolocation.** Clock readings (`Date.now()`) and the
  browser's position are method arguments.

## Model

| member | source | states |
|---|---|---|
| Base.NatToString | App.tsx:81 | `Date.now().toString()`: a non-empty digit string without a leading zero |
| Base.ParseNatToString | App.tsx:81 | the decimal rendering reads back as the number it renders |
| Base.NatToStringInjective | App.tsx:81-100 | two clock readings give the same identifier iff they are equal |
| Base.Filter | services/salesApi.ts:156-163 | `Array.filter`: no longer than the input; an element is in the result iff it is in the input and passes |
| Base.FilterConcat | services/mondeApi.ts:156-176 | filtering a concatenation is concatenating the filtered parts, so filtering keeps order |
| Text.Trim | App.tsx:78 | `trim()`: the slice of the input left after dropping its leading and trailing whitespace (what lies before and after the slice is all whitespace), with no whitespace at either end, empty iff the input is all whitespace |
| Text.ToLower | services/salesApi.ts:157 | `toLowerCase()`: same length, each upper-case letter replaced by the letter 32 code points above it, other characters untouched |
| Text.ToLowerIdempotent | services/mondeApi.ts:18 | lower-casing twice is lower-casing once |
| Text.ToLowerConcat | services/salesApi.ts:157 | lower-casing a concatenation is concatenating the lower-cased parts |
| Text.ContainsIff | services/mondeApi.ts:175 | `includes` holds iff the needle occurs at some position of the haystack |
| Text.Split | services/mondeApi.ts:167 | `split(" ")`: at least one piece, none holding the separator |
| Text.SplitJoin | services/mondeApi.ts:167 | joining the pieces of a split gives the string back |
| Text.JoinSplit | services/mondeApi.ts:167 | splitting a join of separator-free pieces gives the pieces back |
| Text.NonEmpty | services/mondeApi.ts:167 | `.filter(t => t.length > 0)`: exactly the non-empty pieces |
| Text.Tokens | services/mondeApi.ts:167 | every search token is non-empty and holds no space |
| Text.TokensLoseOnlySpaces | services/mondeApi.ts:167 | the tokens put together are the term with its spaces removed: tokenising drops nothing else |
| Text.Decompose | services/mondeApi.ts:19 | `normalize("NFD")` on Latin-1 letters: no precomposed letter is left; lower case is kept; text without precomposed letters is unchanged |
| Text.DecomposeConcat | services/mondeApi.ts:19 | decomposing a concatenation is concatenating the decomposed parts |
| Text.DecomposeOne | services/mondeApi.ts:19 | one character decomposes to its base letter and mark when it has a decomposition, and to itself otherwise |
| Text.OnlyLatin1Decomposes | services/mondeApi.ts:19 | outside U+00C0..U+00FF no character has a decomposition in the table |
| JsonValues.Get | services/mondeApi.ts:154 | a property read gives a value iff the object has that own key |
| MondeClient.Backend.Login | services/mondeApi.ts:47-73 | one login per call; its outcome is the next scripted login answer |
| MondeClient.Backend.Fetch | services/mondeApi.ts:88-91 | the request is appended to the fetch log and answered by the answer for its position |
| MondeClient.CachedToken | services/mondeApi.ts:28-35 | a forced refresh never uses the cache; a non-empty cached token is used as is; otherwise the pending login's token is used |
| MondeClient.CachedTokenIsTheToken | services/mondeApi.ts:24-45 | while the slot holds only what the cache holds, a cached answer is the token itself, and there is none exactly when nothing is cached |
| MondeClient.AuthService.GetToken | services/mondeApi.ts:28-45 | a cached token is returned with no login and no state change; otherwise exactly one login runs; success fills the token and the slot; failure clears the slot, keeps the old token and propagates; the token and the slot afterwards are what the logins made of them (`MondeClient.AfterLogins`) |
| MondeClient.Settle | services/mondeApi.ts:103-114 | 204 gives `{}`; a non-2xx status throws "Monde API Error: status - statusText"; otherwise the parsed body; succeeds iff 2xx and (204 or the body parses) |
| MondeClient.SettleOutcome | services/mondeApi.ts:88-114 | a rejected fetch propagates its message; a response settles as above |
| MondeClient.Retry | services/mondeApi.ts:94-101 | after a 401: exactly one forced login; its failure propagates with no fetch; otherwise its token is stored and the same call is sent once more with it, and that answer settles the call; the token and the slot afterwards are what that login made of them (`MondeClient.AfterLogin`) |
| MondeClient.Held | services/mondeApi.ts:28-45 | the login count once `getToken` has answered: the same count exactly when a token was cached, one more exactly when it was not |
| MondeClient.GotToken | services/mondeApi.ts:29-40 | the token `getToken` hands out: the cached token, or else the token of the next login; its properties are stated by `MondeClient.AnsweredUsesGetToken` |
| MondeClient.Answered | services/mondeApi.ts:78-115 | one `request` run over a stretch of the log, from a given token cache: a failed first login with nothing cached and no fetch; or a first fetch with `getToken`'s token, settled unless it answers 401, else one more login and either its error or a second fetch with its token; logins counted exactly. Its properties are stated by `MondeClient.AnsweredUsesGetToken` and `MondeClient.AnsweredExtends` |
| MondeClient.AnsweredUsesGetToken | services/mondeApi.ts:78-101 | a run that fetched sent the cached token or else the first login's token (which then succeeded), and made one login for an uncached token plus one after a 401 |
| MondeClient.AnsweredExtends | services/mondeApi.ts:78-115 | how a request was answered stays true as later requests are logged |
| MondeClient.UnauthorizedRetryThrows | services/mondeApi.ts:94-111 | a 401 on the retry is not retried again: it throws the API error for 401 |
| MondeClient.ApiErrorMessageStatus | services/mondeApi.ts:110 | with the same status text, two API errors read alike iff their statuses are equal |
| MondeClient.Request | services/mondeApi.ts:78-115 | the requests it adds and its result are exactly one of three runs (`MondeClient.Answered`): a failed login with no fetch and its error; one fetch carrying the token `getToken` handed out (the cached token, or else the token of the login it made), not answered 401, settling the call; or a 401, exactly one forced login, and then either that login's error or one more fetch of the same call with the refreshed token, which settles the call; logins counted exactly (one when no token was cached, one more after a 401); the token and the slot afterwards are what those logins made of them, so a successful login or refresh is cached and a call with a cached token changes neither |
| MondeClient.Attempt | services/mondeApi.ts:89-114 | the first fetch carries the given token, which must be the one `getToken` handed out from the cache before the call; a 401 is refreshed once and sent once more; the result, the login count and the token cache are as `Request` states |
| MondeClient.AfterLogin | services/mondeApi.ts:37-44 | a successful login stores its token in both the token and the slot, and `getToken` then returns it; a failed login clears the slot and keeps the old token |
| MondeClient.AfterLogins | services/mondeApi.ts:28-45 | no login leaves the cache as it was, and a slot that holds the token keeps doing so |
| MondeClient.AfterLoginsChain | services/mondeApi.ts:28-45 | the cache after two runs of logins is the cache after all of them |
| MondeServices.RemoveMarks | services/mondeApi.ts:20 | removes every combining mark, keeps folded text folded, and leaves mark-free text unchanged |
| MondeServices.RemoveMarksIsFilter | services/mondeApi.ts:20 | removing the marks is keeping exactly the characters that are not combining marks, in order |
| MondeServices.NormalizeStr | services/mondeApi.ts:16-21 | the result has no combining mark and only lower-case, undecomposable characters |
| MondeServices.NormalizeStrIdempotent | services/mondeApi.ts:16-21 | normalising a normalised string changes nothing |
| MondeServices.NormalizeStrConcat | services/mondeApi.ts:16-21 | normalising a concatenation is concatenating the normalised parts |
| MondeServices.NormalizeStrChar | services/mondeApi.ts:16-21 | one character normalises to nothing if it is a combining mark, to the base letter of its lower-cased form if that decomposes, and to its lower-cased form otherwise |
| MondeServices.NormalizeStrFixes | services/mondeApi.ts:16-21 | text already lower-case, undecomposable and mark-free is left unchanged |
| MondeServices.NormalizeStrJoao | services/mondeApi.ts:15-20 | "João" normalises to "joao" |
| MondeServices.SearchTokens | services/mondeApi.ts:167 | the search tokens are non-empty and space-free |
| MondeServices.ContainsAll | services/mondeApi.ts:175 | `every(token => name.includes(token))` holds iff each token occurs in the name |
| MondeServices.NameMatches | services/mondeApi.ts:169-174 | a person matches when `name` is a non-empty string whose normalised form contains every token; stated with the list by `MondeServices.FilterPeopleKeeps` |
| MondeServices.FilterPeople | services/mondeApi.ts:166-176 | the people kept by `people.filter`, in order; stated by `MondeServices.FilterPeopleKeeps` and `MondeServices.FilterPeopleConcat` |
| MondeServices.ApplyNameFilter | services/mondeApi.ts:164-176 | the filter applies only to a truthy term; otherwise the people come back as they were; stated by `MondeServices.FilterPeopleKeeps` |
| MondeServices.FilterPeopleKeeps | services/mondeApi.ts:165-176 | a person is kept iff listed, its `name` is a non-empty string, and every token occurs in its normalised name |
| MondeServices.FilterPeopleConcat | services/mondeApi.ts:156-176 | filtering both pages together is filtering each page in turn |
| MondeServices.FilterPeopleExample | services/mondeApi.ts:164-176 | a search for "joao" keeps a person named "João" |
| MondeServices.EnvelopeRoundTrip | services/mondeApi.ts:188-207 | every `{data: {type, id?, attributes}}` document sent reads back as the resource it was built from |
| MondeServices.Flatten | services/mondeApi.ts:159-162 | `{id: p.id, ...p.attributes}`: throws on null; the keys are the attributes' plus `id` when present; attribute values are copied |
| MondeServices.FlattenAll | services/mondeApi.ts:159-162 | `map(flatten)` succeeds iff no item is null, and then keeps the length |
| MondeServices.FlattenAllAt | services/mondeApi.ts:159-162 | the i-th record is the i-th item flattened |
| MondeServices.FlattenAllConcat | services/mondeApi.ts:156-162 | two pages flatten to page 1's records followed by page 2's |
| MondeServices.UnwrapList | services/mondeApi.ts:213-216 | `res.data.map(...)`: the TypeError texts for a null document, a missing `data` and a null `data`; "res.data.map is not a function" for any other non-array `data`; an array `data` gives its items flattened in order (`FlattenAll`), and only an array can succeed |
| MondeServices.UnwrapOne | services/mondeApi.ts:195-196 | `{id: res.data.id, ...res.data.attributes}`: the TypeError texts for a null document and a missing `data`; otherwise `data` flattened |
| MondeServices.UnwrapOneEnvelope | services/mondeApi.ts:188-196 | an echoed resource unwraps to `{id, ...attributes}`, or to the attributes alone without an id |
| MondeServices.NoContentDoesNotUnwrap | services/mondeApi.ts:103-105 | the `{}` a 204 yields makes both unwrappers throw |
| MondeServices.ReadData | services/mondeApi.ts:154 | `res.data` throws exactly on a null document |
| MondeServices.SpreadData | services/mondeApi.ts:154-156 | `[...(data \|\| [])]`: falsy gives nothing, an array its items, a string one string item per character in order, anything else throws |
| MondeServices.CombinePages | services/mondeApi.ts:149-162 | both pages' people, page 1's first, or the first error; stated by `MondeServices.CombinePagesInOrder`, `MondeServices.CombinePagesMissingData` and `MondeServices.CombinePagesFailure` |
| MondeServices.CombinePagesInOrder | services/mondeApi.ts:149-162 | two well-formed pages give page 1's people, then page 2's |
| MondeServices.CombinePagesMissingData | services/mondeApi.ts:154-155 | a page without `data` counts as empty |
| MondeServices.CombinePagesFailure | services/mondeApi.ts:148-185 | a failed page request sends the listing to the fallback |
| MondeServices.CitiesEndpoint | services/mondeApi.ts:237-238 | `/cities`, with `filter[name]` iff the name is truthy |
| MondeServices.Unwrapped | services/mondeApi.ts:195-196 | a rejected request propagates its error, otherwise the answer is unwrapped; each service's contract states its use |
| MondeServices.PeopleList | services/mondeApi.ts:143-186 | page 1 and then page 2 are each answered by one `Request` run (`Answered`) on consecutive stretches of the request log, the second from the cache the first left, leaving the token cache as its logins made it; if combining them succeeds nothing more is sent and the result is the combined pages name-filtered; otherwise one more run GETs the page-1 fallback and its unwrapped answer (or its error) is the result |
| MondeServices.PeoplePages | services/mondeApi.ts:149-152 | page 1 and then page 2 are each one `Request` run (`Answered`), the second stretch starting where the first ends and from the cache the first left, leaving the token cache as its logins made it |
| MondeServices.PeopleFallbackAfter | services/mondeApi.ts:183-184 | the page-1 fallback is one more `Request` run (`Answered`) from the cache the two pages left, and what the two pages were answered stays true |
| MondeServices.PeopleCreate | services/mondeApi.ts:188-197 | POSTs `/people` with the `people` envelope as one `Request` run (`Answered`) from the cache as it was, its first fetch carrying `getToken`'s token, leaving the token cache as its logins made it: the login failure, the settled answer or the failed refresh; the result is that answer unwrapped as one record, or its error |
| MondeServices.PeopleUpdate | services/mondeApi.ts:199-209 | PATCHes `/people/<id>` with the id-carrying envelope as one `Request` run (`Answered`) from the cache as it was, its first fetch carrying `getToken`'s token, leaving the token cache as its logins made it; the result is that answer unwrapped as one record, or its error |
| MondeServices.TasksList | services/mondeApi.ts:213-216 | GETs `/tasks` as one `Request` run (`Answered`) from the cache as it was, its first fetch carrying `getToken`'s token, leaving the token cache as its logins made it; the result is that answer unwrapped as a list, or its error |
| MondeServices.TasksCreate | services/mondeApi.ts:218-227 | POSTs `/tasks` with the `tasks` envelope as one `Request` run (`Answered`) from the cache as it was, its first fetch carrying `getToken`'s token, leaving the token cache as its logins made it; the result is that answer unwrapped as one record, or its error |
| MondeServices.TasksGetHistory | services/mondeApi.ts:229-232 | GETs `/task-historics?filter[task_id]=<id>` as one `Request` run (`Answered`) from the cache as it was, its first fetch carrying `getToken`'s token, leaving the token cache as its logins made it; the result is that answer unwrapped as a list, or its error |
| MondeServices.CitiesList | services/mondeApi.ts:236-240 | GETs the cities endpoint as one `Request` run (`Answered`) from the cache as it was, its first fetch carrying `getToken`'s token, leaving the token cache as its logins made it; the result is that answer unwrapped as a list, or its error |
| SalesApi.Lookup | services/salesApi.ts:86-91 | a value found under a key is an entry of the record |
| SalesApi.TruthyText | services/salesApi.ts:88-91 | a parameter counts iff it is given and non-empty |
| SalesApi.BuildFilters | services/salesApi.ts:86-91 | each column holds its parameter iff that parameter is truthy (passengerName→Passageiro, date→Data_ida, provider→Fornecedor, reservationId→Reserva), values non-empty, keys in that order |
| SalesApi.Named | services/salesApi.ts:34-35 | one query pair per entry, named after its column |
| SalesApi.SearchParams | services/salesApi.ts:34-36 | the loop appends exactly the entries with a non-empty value, in order |
| SalesApi.KeyNameInjective | services/salesApi.ts:86-91 | distinct columns have distinct parameter names |
| SalesApi.SearchParamsKeepOrder | services/salesApi.ts:34-36 | the non-empty filter is piecewise, and an entry survives iff its value is non-empty |
| SalesApi.GetMockData | services/salesApi.ts:106-164 | the sample rows that pass the filters, in order; stated by `SalesApi.GetMockDataKeeps` and the sample lemmas below |
| SalesApi.GetMockDataKeeps | services/salesApi.ts:156-163 | a sample row comes back iff it passes each given filter: passenger and provider as case-insensitive substrings, reservation exactly |
| SalesApi.MockIgnoresDate | services/salesApi.ts:156-163 | the date filter has no effect on the sample |
| SalesApi.MockProviderCvc | services/salesApi.ts:160 | a provider search for "CVC" gives exactly sale 1003 |
| SalesApi.MockPassengerSilva | services/salesApi.ts:157 | a passenger search for "Silva" gives exactly sale 1001 |
| SalesApi.MockUnfiltered | services/salesApi.ts:106-163 | with no filters the whole sample comes back |
| SalesApi.Ledger.Get | services/salesApi.ts:41-44 | the query is logged and answered by the answer for its position |
| SalesApi.LiveData | services/salesApi.ts:46-67 | live records exist iff the status is 2xx, the content type includes `application/json`, and the body parses to an array; they are that array's items |
| SalesApi.LiveOrMock | services/salesApi.ts:46-72 | the live records when usable, otherwise the sample filtered the same way |
| SalesApi.FallbackCases | services/salesApi.ts:46-72 | a rejected fetch, a non-2xx status, a missing content type or one without `application/json` (such as `text/html`), an unparsable body and a non-array body all give the sample |
| SalesApi.FetchSales | services/salesApi.ts:30-73 | an unparsable URL throws "Invalid URL" (Node's message) before any request; otherwise one request with the non-empty filters, answered live or by the sample |
| SalesApi.IsoDate | services/salesApi.ts:170 | the `YYYY-MM-DD` form is ten characters |
| SalesApi.DisplayDate | services/salesApi.ts:173 | the `DD/MM/YYYY` form is ten characters |
| SalesApi.ParseIso | services/salesApi.ts:170-171 | a date read from an ISO string is a valid calendar date |
| SalesApi.ParseIsoDate | services/salesApi.ts:170 | an ISO date, alone or with a UTC time of day, parses to that date |
| SalesApi.ParseDisplayDate | services/salesApi.ts:173 | the display form reads back as the date shown, so no two days display alike |
| SalesApi.FormatIsoDate | services/salesApi.ts:166-177 | an ISO timestamp is shown as `DD/MM/YYYY` of the day it names |
| SalesApi.FormatDate | services/salesApi.ts:166-177 | "" for a falsy value, the UTC day as DD/MM/YYYY for an ISO date, the string unchanged otherwise; stated by `SalesApi.FormatIsoDate`, `SalesApi.FormatDateFallbacks` and `SalesApi.FormatDateNoSuchDay` |
| SalesApi.FormatDateFallbacks | services/salesApi.ts:166-177 | a falsy value gives ""; a string that is not a date is returned unchanged |
| SalesApi.FormatDateNoSuchDay | services/salesApi.ts:170-171 | an ISO date naming a day past its month's end ("2023-02-29") is not a date, so the string comes back unchanged |
| SalesApi.FormatSampleDate | services/salesApi.ts:113 | sale 1001's departure "2024-05-10T00:00:00.000Z" is shown as "10/05/2024" |
| SalesApi.DisplaySale | services/salesApi.ts:96-101 | `{...s, Data_ida, Data_volta, Data_venda}`: throws on null, reading `Data_ida`; keeps every other field; rewrites the three dates with `formatDate` |
| SalesApi.DisplayAll | services/salesApi.ts:96-101 | succeeds iff no sale is null, and then keeps the count; a null sale throws "Cannot read properties of null (reading 'Data_ida')" |
| SalesApi.DisplayAllAt | services/salesApi.ts:96-101 | the i-th record shown is the i-th sale with its dates rewritten |
| SalesApi.List | services/salesApi.ts:79-104 | builds the filters as above, fetches them, and rewrites the dates of every sale, or propagates the error |
| ToolDefinitions.ToolOf | services/toolDefinitions.ts:92-115 | the `case` a name selects, none for any other name; stated both ways by `ToolDefinitions.ToolOfName` |
| ToolDefinitions.ToolOfName | services/toolDefinitions.ts:92-115 | each declared name selects its own case; any name that selects a case is that case's label |
| ToolDefinitions.MondeToolsSchema | services/toolDefinitions.ts:7-84 | one declaration per tool, in catalogue order |
| ToolDefinitions.RequiredDeclared | services/toolDefinitions.ts:7-84 | every required field is a declared property |
| ToolDefinitions.RequiredFields | services/toolDefinitions.ts:28-61 | only create_person (`name`), update_person (`id`) and create_task (`description`) require a field |
| ToolDefinitions.ToolNameInjective | services/toolDefinitions.ts:7-84 | distinct tools have distinct names |
| ToolDefinitions.CatalogueNamesDistinct | services/toolDefinitions.ts:7-84 | exactly seven declarations, pairwise distinct names, each dispatched to its own tool |
| ToolDefinitions.EveryToolDeclared | services/toolDefinitions.ts:7-84 | every dispatched tool is declared in the catalogue |
| ToolDefinitions.Arg | services/toolDefinitions.ts:94-112 | `args.key` is given iff the model supplied that key |
| ToolDefinitions.Pick | services/toolDefinitions.ts:97-106 | only the listed fields the model supplied are forwarded, unchanged |
| ToolDefinitions.SalesParamsAsWritten | services/toolDefinitions.ts:112 | the call as written hands `list` no parameter at all |
| ToolDefinitions.ListSalesLosesPassenger | services/toolDefinitions.ts:112 | as written, list_sales sends no filter, and the sample comes back whole whatever passenger was asked for |
| ToolDefinitions.SalesParamsFor | services/toolDefinitions.ts:112 | the intended call forwards exactly `passengerName` |
| ToolDefinitions.ListSalesForwardsPassenger | services/toolDefinitions.ts:112 | with the intended call, a non-empty passenger name is the Passageiro filter, and it is the only filter |
| ToolDefinitions.ErrorPayload | services/toolDefinitions.ts:117-119 | `{error: ...}` with the single key `error`: the message, or the fixed fallback when the message is empty |
| ToolDefinitions.Deliver | services/toolDefinitions.ts:91-119 | the adapter's value on success, the error payload on failure |
| ToolDefinitions.ErrorAlwaysExplained | services/toolDefinitions.ts:117-119 | a failed call is always reported with a non-empty error text |
| ToolDefinitions.MondeDispatched | services/toolDefinitions.ts:93-109 | what each Monde tool's case does: exactly its service's `request` runs from the given token cache, with the tool's declared fields, and the service's result; the contract of `ToolDefinitions.CallMondeTool` |
| ToolDefinitions.CallMondeTool | services/toolDefinitions.ts:93-109 | the Monde cases of the switch: `MondeDispatched` holds, the request log only grows, and the token cache is what the logins made of it |
| ToolDefinitions.Dispatched | services/toolDefinitions.ts:88-120 | one dispatch: an unknown name touches nothing; a Monde tool does what `MondeDispatched` says and leaves the ledger alone; list_sales makes one ledger query (none on a bad URL), no request and no login; the token cache follows the logins; the contract of `ToolDefinitions.ExecuteMondeTool` |
| ToolDefinitions.ExecuteMondeTool | services/toolDefinitions.ts:88-120 | an unknown name reports "Unknown tool: name" and touches nothing; each Monde tool makes exactly its service's `Request` runs (`Answered`, each from the cache the previous left, each first fetch carrying `getToken`'s token), with the tool's declared fields, and answers with the service's result; the token cache is what the logins made of it; list_sales makes no Monde request, no login and one ledger query (or none on a bad URL); an unknown name and list_sales leave the token cache unchanged; no failure escapes |
| GeminiService.ChatSession.SendMessage | services/geminiService.ts:126-133 | each send is logged and answered by the session's answer for its position |
| GeminiService.LocationConfig | services/geminiService.ts:63-75 | a config exactly when a location is known, carrying its latitude and longitude |
| GeminiService.BuildPayload | services/geminiService.ts:78-95 | the bare text without an attachment; otherwise the PDF part, then the text, or the default request when the text is blank |
| GeminiService.AttachmentTextNeverBlank | services/geminiService.ts:89-93 | with an attachment, the text part is never blank |
| GeminiService.FirstCall | services/geminiService.ts:113 | `parts.find(p => p.functionCall)`: some call iff any part holds one, and it is the call of the first such part |
| GeminiService.FirstCallIsFirst | services/geminiService.ts:113 | a later call never shadows an earlier one |
| GeminiService.FinalText | services/geminiService.ts:140 | the response text when non-empty, else "Processado com sucesso."; never empty |
| GeminiService.GroundingOf | services/geminiService.ts:143-150 | the first candidate's `groundingMetadata.groundingChunks` when present, and otherwise no references |
| GeminiService.LoggedCalls | services/geminiService.ts:155 | the call log, or `undefined` exactly when no tool ran |
| GeminiService.RunTool | services/geminiService.ts:122 | running a tool keeps the token service usable |
| GeminiService.ExchangedStep | services/geminiService.ts:115-133 | answering the call the last answer asked for extends the turn's exchange by one logged call and its follow-up |
| GeminiService.SendMessageToAgent | services/geminiService.ts:55-157 | the whole turn (`AgentTurn`): the first send carries the payload and the location config; each later send answers, with one function response and no config, the first call of the previous answer; a rejected send propagates its error; a success returns the final text, the grounding and the ordered call log of the last answer, which asks for no call |
| App.Welcome | App.tsx:14-25 | the greeting is a model message with the fixed welcome text |
| App.Fresh | App.tsx:60-72 | a fresh transcript holds only the greeting, idle and without error |
| App.Ignored | App.tsx:78 | a send is dropped when the text is blank and there is no attachment, or when there is no session; stated both ways by `App.IgnoredIff` |
| App.IgnoredIff | App.tsx:78 | a send goes ahead iff a session exists and there is an attachment or a non-whitespace character |
| App.UserMessage | App.tsx:80-86 | the user's turn carries the text and the attachment under the clock's identifier |
| App.BotMessage | App.tsx:99-106 | the model's turn carries the agent's text, references and call log under the clock plus one |
| App.TurnIdsDistinct | App.tsx:81-100 | with a clock that does not run backwards, the two turns of a send get different identifiers |
| App.Submitted | App.tsx:88-93 | the user's turn is appended, loading is set and the error cleared |
| App.Settled | App.tsx:108-121 | idle again; success appends exactly one model turn; failure appends nothing and sets the apology |
| App.SendAppendsOnly | App.tsx:88-121 | one accepted send only appends: the user's turn then one model turn, or the user's turn alone with the apology |
| App.ChatScreen.constructor | App.tsx:12-27 | the first render holds the `welcome-1` greeting, session id 0, no session and no position |
| App.ChatScreen.InitSession | App.tsx:30-37 | a created session is kept; a failure sets "Falha ao inicializar serviço de IA." and leaves the transcript alone |
| App.ChatScreen.Locate | App.tsx:40-54 | a granted position is stored; a denial changes nothing |
| App.ChatScreen.NewChat | App.tsx:56-75 | the session id goes up by one and the transcript is the fresh greeting `welcome-<clock>` |
| App.ChatScreen.HandleSendMessage | App.tsx:77-122 | an ignored send changes nothing; otherwise the state is the settled state after the user's turn and the agent's outcome, and that outcome is the whole agent turn (`AgentTurn`) started from the text, the attachment and the known position |
| App.ChatScreen.Send | App.tsx:80-121 | an accepted send: the user's turn, the agent turn on the session after everything sent before, and the transcript settled on exactly that turn's outcome |
| App.ChatScreen.Settle | App.tsx:99-121 | the transcript after the agent's outcome is `App.Settled` of the one before |

## Left out

- Concurrency is left out. `Promise.all` over the two people pages runs as
  two requests in order (page 1 first). The shared `tokenPromise` is a
  settled slot. Overlapping sends in the UI are not modelled.
- `getToken` returns a pending login's token when asked during the login.
  In a sequential model no call observes a pending login.
- The body text of a failed request and the console output are not
  modelled. Headers are not modelled either; each request carries only its
  bearer token.
- `encodeURIComponent` and URL serialisation are left out. Endpoints are a
  path plus ordered query pairs.
- Tool arguments are string-valued (`map<string, string>`), as every
  declared parameter is a string. Non-string JSON arguments are left out.
- JSON numbers are integers, and `undefined` is an absent key. Geolocation
  coordinates are `real` and are only passed through.
- SalesApi.FormatDate models `new Date(...)` and `Intl.DateTimeFormat`
  only for ISO `YYYY[-MM[-DD]]` strings, optionally followed by a UTC time,
  with years 1000 to 9999. Any other string is returned unchanged, as when
  the parse fails. Numbers and other date-string formats that JavaScript
  accepts are returned as given. For a non-string value that is not
  falsy (`true`, a non-zero number, an object or an array), the model
  returns the value itself. The source returns a string: `String(value)`
  when the date is invalid (services/salesApi.ts:171,175), or a formatted
  date when it is valid. `true`, for example, gives "01/01/1970". An ISO
  string naming a day that does not exist, such as "2023-02-29", is
  treated as unparsable and returned unchanged, as Firefox and Safari do
  (`SalesApi.FormatDateNoSuchDay`); V8 (Chrome, Node) rolls it over, so
  `new Date("2023-02-29")` is 1 March 2023 and the source gives
  "01/03/2023" there.
- GeminiService.ChatSession stands for the SDK chat. Its answers are a
  given finite list, and a send past the end is rejected. The system
  instruction, the model name, the temperature and Maps grounding itself
  belong to the SDK and are not modelled. `response.text` is a field of
  the response.
- GeminiService.SendMessageToAgent states which tool calls were made and
  what was sent back for each. It does not restate what every tool did:
  that is `ToolDefinitions.ExecuteMondeTool`'s contract.
- GeminiService.RunTool states only that the token service stays usable.
  What the tool did and answered is `ToolDefinitions.ExecuteMondeTool`'s
  contract. The turn's contract records each call and the value sent back,
  not how the tool produced that value.
- GeminiService.SendMessageToAgent: the source's loop has no round limit.
  It stops only on an answer with no function call, so a model that keeps
  asking for tools keeps it sending forever. The model's loop ends because
  a session's answers are a finite list, and a send past the end is
  rejected.
- App.ChatScreen.HandleSendMessage runs to completion in one step. The
  loading state in between is `App.Submitted`. The console and rendering
  are left out.
- App.ChatScreen.NewChat does not drop the old session. The session
  effect, `App.ChatScreen.InitSession`, re-creates it afterwards, as in
  the source.
- `createChatSession` throwing is a `Result` argument.
  `navigator.geolocation` is an optional position argument.
- Text.ToLower lowers only A–Z and the Latin-1 capitals U+00C0–U+00DE
  (not U+00D7), one character for one. JavaScript's `toLowerCase` lowers
  every cased letter ("Ā" gives "ā"), and a few letters change length
  ("İ" gives two characters). Those cases are outside the model.
- MondeServices.NormalizeStr decomposes only the Latin-1 letters that have
  a canonical decomposition. Letters outside Latin-1 keep their marks:
  "Ștefan" stays "Ștefan", where JavaScript gives "stefan", so a search
  for "stefan" does not find it in the model.
- MondeServices.Flatten spreads `attributes` only when it is an object.
  An `attributes` that is a string or an array spreads to index keys
  ("0", "1", …) in JavaScript and to nothing in the model.
- SalesApi.DisplaySale spreads the sale only when it is an object. A sale
  that is a string or an array spreads to index keys in JavaScript and to
  nothing in the model.
- ToolDefinitions.ExecuteMondeTool dispatches list_sales with the corrected
  parameters (`ToolDefinitions.SalesParamsFor`), which forward
  `passengerName`. The code as written passes the bare string, so no
  filter is built: see "## Findings". The as-written call is
  `ToolDefinitions.SalesParamsAsWritten`, and its effect is
  `ToolDefinitions.ListSalesLosesPassenger`.
- `MondeApiClient.delete` is not modelled. It is declared but no service
  calls it.
- The presentation components are not part of this model:
  `components/ChatInterface.tsx`, `components/MessageBubble.tsx` and
  `components/Layout.tsx`.

Behaviours of the code worth knowing:

- `fetchSales` builds the URL outside its `try`. An unparsable configured
  URL therefore throws instead of falling back to the sample. The message
  modelled is Node's, "Invalid URL". Chrome's is "Failed to construct
  'URL': Invalid URL".
- An API error carries the status and the status text, not the response
  body.
- The people filter runs in the client, over the first two pages.
- A new chat leaves the old session in place until the session effect
  replaces it.

## Findings

| source | as written | input that shows it | evidently intended | confidence | as-written member | corrected member |
|---|---|---|---|---|---|---|
| services/toolDefinitions.ts:112 | `SalesService.list(args.passengerName)` passes a string where `list` expects `{passengerName, ...}`, so `params.passengerName` is undefined and no filter is built | `list_sales` with `{passengerName: "Silva"}`: no filter is sent, and the sample fallback returns all three sales instead of sale 1001 alone | `SalesService.list({ passengerName: args.passengerName })` | not executed | ToolDefinitions.ListSalesLosesPassenger | ToolDefinitions.ListSalesForwardsPassenger |

The dispatch in `ToolDefinitions.ExecuteMondeTool` uses the corrected
parameters (`ToolDefinitions.SalesParamsFor`).
