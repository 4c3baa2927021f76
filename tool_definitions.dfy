/** The tool registry: the catalogue of function declarations offered to the
    model, and the dispatch that runs a named tool against the back-office
    adapters and always answers with a JSON value, turning every failure
    into `{error: message}`. */
module ToolDefinitions {

  import opened Base
  import opened JsonValues
  import opened Types
  import opened MondeClient
  import opened MondeServices
  import SalesApi

  // ---------------------------------------------------------------------
  // The catalogue
  // ---------------------------------------------------------------------

  /** The seven tools, in catalogue order. */
  datatype Tool = ListPeople | CreatePerson | UpdatePerson | ListTasks | CreateTask | ListCities | ListSales

  const AllTools: seq<Tool> := [ListPeople, CreatePerson, UpdatePerson, ListTasks, CreateTask, ListCities, ListSales]

  function ToolName(t: Tool): string {
    match t
    case ListPeople => "list_people"
    case CreatePerson => "create_person"
    case UpdatePerson => "update_person"
    case ListTasks => "list_tasks"
    case CreateTask => "create_task"
    case ListCities => "list_cities"
    case ListSales => "list_sales"
  }

  /** The `case` label a name selects in the dispatch, if any. */
  function ToolOf(name: string): Option<Tool> {
    if name == "list_people" then Some(ListPeople)
    else if name == "create_person" then Some(CreatePerson)
    else if name == "update_person" then Some(UpdatePerson)
    else if name == "list_tasks" then Some(ListTasks)
    else if name == "create_task" then Some(CreateTask)
    else if name == "list_cities" then Some(ListCities)
    else if name == "list_sales" then Some(ListSales)
    else None
  }

  /** Every declared name reaches its own `case`, and every `case` label is
      a declared name: the dispatch and the catalogue agree exactly. */
  lemma ToolOfName(t: Tool, name: string)
    ensures ToolOf(ToolName(t)) == Some(t)
    ensures ToolOf(name).Some? ==> ToolName(ToolOf(name).value) == name
  {
  }

  /** A declared parameter: its name and description (every one is a
      string). */
  datatype Parameter = Parameter(name: string, description: string)

  /** A function declaration: an object schema with named string
      properties, some of them required. */
  datatype FunctionDeclaration =
    FunctionDeclaration(name: string, description: string, properties: seq<Parameter>, required: seq<string>)

  function Description(t: Tool): string {
    match t
    case ListPeople => "Lists customers/people from the Monde database. Can filter by name."
    case CreatePerson => "Creates a new customer/person in the database."
    case UpdatePerson => "Updates details of an existing person/customer."
    case ListTasks => "Lists pending tasks from the system."
    case CreateTask => "Creates a new task."
    case ListCities => "Lists available cities for travel references."
    case ListSales =>
      "Lista vendas, passageiros e reservas do sistema. Use para buscar informações sobre viagens, passageiros e datas."
  }

  function Properties(t: Tool): seq<Parameter> {
    match t
    case ListPeople => [Parameter("filterName", "Optional name to filter results.")]
    case CreatePerson =>
      [Parameter("name", "Full name of the person."), Parameter("email", "Email address."),
       Parameter("phone", "Phone number.")]
    case UpdatePerson =>
      [Parameter("id", "The ID of the person to update."), Parameter("phone", "New phone number."),
       Parameter("email", "New email.")]
    case ListTasks => []
    case CreateTask =>
      [Parameter("description", "Description of the task."), Parameter("due_date", "Due date in YYYY-MM-DD format.")]
    case ListCities => [Parameter("filterName", "Optional name of city to find.")]
    case ListSales => [Parameter("passengerName", "Nome parcial do passageiro para buscar.")]
  }

  function Required(t: Tool): seq<string> {
    match t
    case CreatePerson => ["name"]
    case UpdatePerson => ["id"]
    case CreateTask => ["description"]
    case _ => []
  }

  function Declaration(t: Tool): FunctionDeclaration {
    FunctionDeclaration(ToolName(t), Description(t), Properties(t), Required(t))
  }

  /** `mondeToolsSchema`. */
  function MondeToolsSchema(): (schema: seq<FunctionDeclaration>)
    ensures |schema| == |AllTools|
    ensures forall i :: 0 <= i < |schema| ==> schema[i] == Declaration(AllTools[i])
  {
    seq(|AllTools|, i requires 0 <= i < |AllTools| => Declaration(AllTools[i]))
  }

  function ParameterNames(d: FunctionDeclaration): seq<string> {
    seq(|d.properties|, i requires 0 <= i < |d.properties| => d.properties[i].name)
  }

  /** Every required field is a declared property: the one required field
      of each tool that has one is its first property. */
  lemma RequiredDeclared(t: Tool)
    ensures forall r :: r in Declaration(t).required ==> r in ParameterNames(Declaration(t))
  {
    RequiredIsFirst(t);
    var d := Declaration(t);
    if d.required != [] {
      FirstParameterNamed(d, d.required[0]);
    }
  }

  lemma RequiredIsFirst(t: Tool)
    ensures Required(t) == [] || (|Properties(t)| > 0 && Required(t) == [Properties(t)[0].name])
  {
    match t
    case CreatePerson =>
    case UpdatePerson =>
    case CreateTask =>
    case _ =>
  }

  lemma FirstParameterNamed(d: FunctionDeclaration, name: string)
    requires d.required == [name] && |d.properties| > 0 && d.properties[0].name == name
    ensures forall r :: r in d.required ==> r in ParameterNames(d)
  {
    assert ParameterNames(d)[0] == name;
  }

  /** Only create_person (`name`), update_person (`id`) and create_task
      (`description`) require anything, one field each. */
  lemma RequiredFields(t: Tool)
    ensures t == CreatePerson ==> Declaration(t).required == ["name"]
    ensures t == UpdatePerson ==> Declaration(t).required == ["id"]
    ensures t == CreateTask ==> Declaration(t).required == ["description"]
    ensures t != CreatePerson && t != UpdatePerson && t != CreateTask ==> Declaration(t).required == []
  {
  }

  /** Distinct tools have distinct names. */
  lemma ToolNameInjective(a: Tool, b: Tool)
    requires a != b
    ensures ToolName(a) != ToolName(b)
  {
    ToolOfName(a, "");
    ToolOfName(b, "");
  }

  /** A tool's position in the catalogue. */
  function ToolIndex(t: Tool): nat {
    match t
    case ListPeople => 0
    case CreatePerson => 1
    case UpdatePerson => 2
    case ListTasks => 3
    case CreateTask => 4
    case ListCities => 5
    case ListSales => 6
  }

  lemma SchemaEntry(i: nat)
    requires i < |AllTools|
    ensures ToolIndex(AllTools[i]) == i
    ensures MondeToolsSchema()[i].name == ToolName(AllTools[i])
    ensures ToolOf(MondeToolsSchema()[i].name) == Some(AllTools[i])
  {
    ToolOfName(AllTools[i], "");
  }

  /** Exactly seven tools, with pairwise distinct names, each of which the
      dispatch recognises. */
  lemma {:induction false} CatalogueNamesDistinct()
    ensures |MondeToolsSchema()| == 7
    ensures forall i, j :: 0 <= i < j < |MondeToolsSchema()| ==> MondeToolsSchema()[i].name != MondeToolsSchema()[j].name
    ensures forall i :: 0 <= i < |MondeToolsSchema()| ==> ToolOf(MondeToolsSchema()[i].name) == Some(AllTools[i])
  {
    var schema := MondeToolsSchema();
    forall i | 0 <= i < |schema|
      ensures ToolOf(schema[i].name) == Some(AllTools[i])
    {
      SchemaEntry(i);
    }
    forall i, j | 0 <= i < j < |schema|
      ensures schema[i].name != schema[j].name
    {
      SchemaEntry(i);
      SchemaEntry(j);
      ToolNameInjective(AllTools[i], AllTools[j]);
    }
  }

  /** Every tool has its declaration in the catalogue. */
  lemma EveryToolDeclared(t: Tool)
    ensures Declaration(t) in MondeToolsSchema()
  {
    var i := ToolIndex(t);
    IndexOfTool(t);
    var schema := MondeToolsSchema();
    assert schema[i] == Declaration(AllTools[i]);
  }

  lemma IndexOfTool(t: Tool)
    ensures ToolIndex(t) < |AllTools| && AllTools[ToolIndex(t)] == t
  {
  }

  // ---------------------------------------------------------------------
  // Arguments forwarded to the adapters
  // ---------------------------------------------------------------------

  /** `args.key`: the argument, or `undefined`. */
  function Arg(args: ToolArgs, key: string): (v: Option<string>)
    ensures v.Some? <==> key in args
    ensures v.Some? ==> v.value == args[key]
  {
    if key in args then Some(args[key]) else None
  }

  /** `{k1: args.k1, ...}` as it is serialised: the listed keys the call
      actually supplied, and nothing else. */
  function Pick(args: ToolArgs, keys: set<string>): (attrs: map<string, Json>)
    ensures forall k :: k in attrs <==> k in keys && k in args
    ensures forall k :: k in attrs ==> attrs[k] == JStr(args[k])
  {
    map k | k in keys && k in args :: JStr(args[k])
  }

  const PersonFields: set<string> := {"name", "email", "phone"}
  const PersonUpdateFields: set<string> := {"phone", "email"}
  const TaskFields: set<string> := {"description", "due_date"}

  /** What `list_sales` hands to `SalesService.list`, as written: the bare
      `args.passengerName`. A string has no `passengerName` property and an
      absent value selects the default `{}`, so every parameter is absent. */
  function SalesParamsAsWritten(args: ToolArgs): (p: SalesApi.SalesParams)
    ensures p == SalesApi.SalesParams(None, None, None, None)
  {
    SalesApi.SalesParams(None, None, None, None)
  }

  /** The call evidently intended: `{passengerName: args.passengerName}`. */
  function SalesParamsFor(args: ToolArgs): (p: SalesApi.SalesParams)
    ensures p.passengerName == Arg(args, "passengerName")
    ensures p.date.None? && p.provider.None? && p.reservationId.None?
  {
    SalesApi.SalesParams(Arg(args, "passengerName"), None, None, None)
  }

  /** A non-empty filter has a first key, and that key is found. */
  lemma LookupHead(filters: SalesApi.Filters)
    requires filters != []
    ensures SalesApi.Lookup(filters, filters[0].0).Some?
  {
  }

  /** As written, `list_sales` never sends a passenger filter: whatever
      name the model asks for, the ledger receives an empty query and the
      sample fallback returns every sale. */
  lemma {:induction false} ListSalesLosesPassenger(args: ToolArgs, filters: SalesApi.Filters)
    requires SalesApi.ApiFiltersFor(SalesParamsAsWritten(args), filters)
    ensures filters == []
    ensures SalesApi.GetMockData(filters) == SalesApi.MockSales
  {
    if filters != [] {
      LookupHead(filters);
      var k := filters[0].0;
      assert SalesApi.Lookup(filters, k) == None by {
        match k
        case Passageiro =>
        case DataIda =>
        case Fornecedor =>
        case Reserva =>
      }
    }
    SalesApi.MockUnfiltered();
  }

  /** With the intended call, a non-empty passenger name reaches the ledger
      as the `Passageiro` filter and is the only filter sent. */
  lemma ListSalesForwardsPassenger(args: ToolArgs, filters: SalesApi.Filters)
    requires SalesApi.ApiFiltersFor(SalesParamsFor(args), filters)
    ensures "passengerName" in args && args["passengerName"] != "" ==>
      SalesApi.Lookup(filters, SalesApi.Passageiro) == Some(args["passengerName"])
    ensures forall i :: 0 <= i < |filters| ==> filters[i].0 == SalesApi.Passageiro
  {
    forall i | 0 <= i < |filters|
      ensures filters[i].0 == SalesApi.Passageiro
    {
      var k := filters[i].0;
      assert SalesApi.Lookup(filters, k).Some? by {
        LookupFinds(filters, i);
      }
    }
  }

  /** Every key held by an entry is found. */
  lemma {:induction false} LookupFinds(filters: SalesApi.Filters, i: nat)
    requires i < |filters|
    ensures SalesApi.Lookup(filters, filters[i].0).Some?
  {
    if i > 0 && filters[0].0 != filters[i].0 {
      LookupFinds(filters[1..], i - 1);
    }
  }

  // ---------------------------------------------------------------------
  // Results
  // ---------------------------------------------------------------------

  const FailureFallback: string := "Failed to execute operation on Monde API."

  /** `{error: error.message || "Failed to execute operation on Monde API."}`. */
  function ErrorPayload(message: string): (j: Json)
    ensures j.JObj? && j.fields.Keys == {"error"}
    ensures message != "" ==> j.fields["error"] == JStr(message)
    ensures message == "" ==> j.fields["error"] == JStr(FailureFallback)
  {
    JObj(map["error" := JStr(if message != "" then message else FailureFallback)])
  }

  /** What the tool call answers: the adapter's value, or the error payload
      in place of the exception. */
  function Deliver(outcome: Result<Json>): (j: Json)
    ensures outcome.Ok? ==> j == outcome.value
    ensures outcome.Err? ==> j == ErrorPayload(outcome.message)
  {
    if outcome.Ok? then outcome.value else ErrorPayload(outcome.message)
  }

  /** A failed call is always reported with a non-empty error text. */
  lemma ErrorAlwaysExplained(outcome: Result<Json>)
    requires outcome.Err?
    ensures "error" in Deliver(outcome).fields
    ensures Deliver(outcome).fields["error"].JStr? && Deliver(outcome).fields["error"].s != ""
  {
  }

  function RecordJson(r: Record): Json { JObj(r) }

  function RecordsJson(rs: seq<Record>): (j: Json)
    ensures j.JArr? && |j.items| == |rs|
    ensures forall i :: 0 <= i < |rs| ==> j.items[i] == JObj(rs[i])
  {
    JArr(seq(|rs|, i requires 0 <= i < |rs| => JObj(rs[i])))
  }

  function OneAsJson(r: Result<Record>): Result<Json> {
    if r.Ok? then Ok(RecordJson(r.value)) else Err(r.message)
  }

  function ManyAsJson(r: Result<seq<Record>>): Result<Json> {
    if r.Ok? then Ok(RecordsJson(r.value)) else Err(r.message)
  }

  function SalesAsJson(r: Result<seq<Json>>): Result<Json> {
    if r.Ok? then Ok(JArr(r.value)) else Err(r.message)
  }

  /** What the adapters exchanged during one tool call, for the contract. */
  datatype Exchange =
    | NoExchange
    | Single(res: Result<Json>)
    | Paged(page1: Result<Json>, page2: Result<Json>, fallback: Option<Result<Json>>, first: Span, second: Span)
    | Ledgered(filters: SalesApi.Filters, fetched: Result<seq<Json>>)

  // ---------------------------------------------------------------------
  // The dispatch
  // ---------------------------------------------------------------------

  /** The one adapter request of a single-request tool, counted from the
      request log, the sign-in count and the token cache before the
      dispatch. */
  ghost predicate SingleAnswer(auth: AuthService, logBefore: seq<HttpRequest>, loginsBefore: nat, cacheBefore: TokenCache,
                               endpoint: Endpoint, verb: Verb, body: Option<Json>, exchange: Exchange)
    reads auth, auth.backend
  {
    && exchange.Single?
    && Answered(auth.backend, auth.backend.fetchLog, SinceThen(auth.backend, |logBefore|, loginsBefore), cacheBefore,
         endpoint, verb, body, exchange.res)
  }

  /** What a Monde tool's adapter did, given the request log, the sign-in
      count and the token cache before it: exactly its service's requests,
      each answered as `Answered` says, with the arguments the adapter
      takes, and the service's result as the outcome. */
  ghost predicate MondeDispatched(auth: AuthService, tool: Tool, args: ToolArgs,
                                  logBefore: seq<HttpRequest>, loginsBefore: nat, cacheBefore: TokenCache,
                                  outcome: Result<Json>, exchange: Exchange)
    reads auth, auth.backend
  {
    && (tool == ListPeople ==>
        && exchange.Paged?
        && exchange.first.lo == |logBefore| && exchange.first.c0 == loginsBefore
        && exchange.second.lo == exchange.first.hi && exchange.second.c0 == exchange.first.c1
        && Answered(auth.backend, auth.backend.fetchLog, exchange.first, cacheBefore, PeoplePage("1"), GET, None, exchange.page1)
        && Answered(auth.backend, auth.backend.fetchLog, exchange.second,
             AfterLogins(auth.backend, loginsBefore, exchange.first.c1, cacheBefore), PeoplePage("2"), GET, None, exchange.page2)
        && (CombinePages(exchange.page1, exchange.page2).Ok? ==>
              && exchange.fallback.None?
              && SinceThen(auth.backend, exchange.second.hi, exchange.second.c1)
                   == Span(exchange.second.hi, exchange.second.hi, exchange.second.c1, exchange.second.c1)
              && outcome == Ok(RecordsJson(ApplyNameFilter(CombinePages(exchange.page1, exchange.page2).value, Arg(args, "filterName")))))
        && (CombinePages(exchange.page1, exchange.page2).Err? ==>
              && exchange.fallback.Some?
              && Answered(auth.backend, auth.backend.fetchLog, SinceThen(auth.backend, exchange.second.hi, exchange.second.c1),
                   AfterLogins(auth.backend, loginsBefore, exchange.second.c1, cacheBefore), PeopleFallback, GET, None, exchange.fallback.value)
              && outcome == ManyAsJson(Unwrapped(exchange.fallback.value, UnwrapList))))
    && (tool == CreatePerson ==>
        && SingleAnswer(auth, logBefore, loginsBefore, cacheBefore, Endpoint("/people", []), POST,
             Some(Envelope(JsonApiResource(None, "people", Pick(args, PersonFields)))), exchange)
        && outcome == OneAsJson(Unwrapped(exchange.res, UnwrapOne)))
    && (tool == UpdatePerson ==>
        && SingleAnswer(auth, logBefore, loginsBefore, cacheBefore, Endpoint("/people/" + TemplateText(Arg(args, "id")), []), PATCH,
             Some(Envelope(JsonApiResource(Arg(args, "id"), "people", Pick(args, PersonUpdateFields)))), exchange)
        && outcome == OneAsJson(Unwrapped(exchange.res, UnwrapOne)))
    && (tool == ListTasks ==>
        && SingleAnswer(auth, logBefore, loginsBefore, cacheBefore, Endpoint("/tasks", []), GET, None, exchange)
        && outcome == ManyAsJson(Unwrapped(exchange.res, UnwrapList)))
    && (tool == CreateTask ==>
        && SingleAnswer(auth, logBefore, loginsBefore, cacheBefore, Endpoint("/tasks", []), POST,
             Some(Envelope(JsonApiResource(None, "tasks", Pick(args, TaskFields)))), exchange)
        && outcome == OneAsJson(Unwrapped(exchange.res, UnwrapOne)))
    && (tool == ListCities ==>
        && SingleAnswer(auth, logBefore, loginsBefore, cacheBefore, CitiesEndpoint(Arg(args, "filterName")), GET, None, exchange)
        && outcome == ManyAsJson(Unwrapped(exchange.res, UnwrapList)))
  }

  /** What one dispatch did, given the request log, the sign-in count, the
      token cache and the ledger queries before it: an unknown name touches
      nothing and reports "Unknown tool"; a Monde tool does what
      `MondeDispatched` says and leaves the ledger alone; list_sales makes
      one ledger query (none on a bad URL) and no Monde request; the token
      cache is what the logins made of it. */
  ghost predicate Dispatched(auth: AuthService, ledger: SalesApi.Ledger, name: string, args: ToolArgs,
                             logBefore: seq<HttpRequest>, loginsBefore: nat, cacheBefore: TokenCache,
                             queriesBefore: seq<SalesApi.Query>, outcome: Result<Json>, exchange: Exchange)
    reads auth, auth.backend, ledger
  {
    && logBefore <= auth.backend.fetchLog
    && auth.Cache() == AfterLogins(auth.backend, loginsBefore, auth.backend.loginCalls, cacheBefore)
    && (ToolOf(name).None? ==>
        && outcome == Err("Unknown tool: " + name)
        && auth.backend.fetchLog == logBefore
        && auth.backend.loginCalls == loginsBefore
        && auth.Cache() == cacheBefore
        && ledger.queries == queriesBefore)
    && (ToolOf(name) != Some(ListSales) ==> ledger.queries == queriesBefore)
    && (ToolOf(name).Some? && ToolOf(name).value != ListSales ==>
        MondeDispatched(auth, ToolOf(name).value, args, logBefore, loginsBefore, cacheBefore, outcome, exchange))
    && (ToolOf(name) == Some(ListSales) ==>
        && exchange.Ledgered?
        && auth.backend.fetchLog == logBefore
        && auth.backend.loginCalls == loginsBefore
        && auth.Cache() == cacheBefore
        && SalesApi.ApiFiltersFor(SalesParamsFor(args), exchange.filters)
        && (!ledger.urlValid ==> ledger.queries == queriesBefore && exchange.fetched == Err("Invalid URL"))
        && (ledger.urlValid ==>
              && ledger.queries == queriesBefore + [SalesApi.Named(Filter(exchange.filters, SalesApi.HasValue))]
              && exchange.fetched == Ok(SalesApi.LiveOrMock(ledger.answer(|queriesBefore|,
                   SalesApi.Named(Filter(exchange.filters, SalesApi.HasValue))), exchange.filters)))
        && (exchange.fetched.Err? ==> outcome == Err(exchange.fetched.message))
        && (exchange.fetched.Ok? ==> outcome == SalesAsJson(SalesApi.DisplayAll(exchange.fetched.value))))
  }

  /** `executeMondeTool`: routes the call by name, forwards only the
      declared arguments, and answers with the adapter's result or with
      `{error: ...}`; it never throws. */
  method ExecuteMondeTool(auth: AuthService, ledger: SalesApi.Ledger, name: string, args: ToolArgs)
    returns (result: Json, ghost outcome: Result<Json>, ghost exchange: Exchange)
    requires auth.Valid()
    modifies auth, auth.backend, ledger`queries
    ensures auth.Valid()
    ensures result == Deliver(outcome)
    ensures Dispatched(auth, ledger, name, args, old(auth.backend.fetchLog), old(auth.backend.loginCalls), old(auth.Cache()), old(ledger.queries),
                       outcome, exchange)
  {
    var tool := ToolOf(name);
    var answer: Result<Json>;
    if tool.None? {
      answer := Err("Unknown tool: " + name);
      exchange := NoExchange;
    } else if tool.value == ListSales {
      var sales, filters, fetched := SalesApi.List(ledger, SalesParamsFor(args));
      answer := SalesAsJson(sales);
      exchange := Ledgered(filters, fetched);
    } else {
      answer, exchange := CallMondeTool(auth, tool.value, args);
    }
    outcome := answer;
    result := Deliver(answer);
  }

  /** The `case`s of the dispatch that call a Monde service. */
  method CallMondeTool(auth: AuthService, tool: Tool, args: ToolArgs)
    returns (answer: Result<Json>, ghost exchange: Exchange)
    requires auth.Valid() && tool != ListSales
    modifies auth, auth.backend
    ensures auth.Valid()
    ensures old(auth.backend.fetchLog) <= auth.backend.fetchLog
    ensures auth.Cache() == AfterLogins(auth.backend, old(auth.backend.loginCalls), auth.backend.loginCalls, old(auth.Cache()))
    ensures MondeDispatched(auth, tool, args, old(auth.backend.fetchLog), old(auth.backend.loginCalls), old(auth.Cache()),
                            answer, exchange)
  {
    if tool == ListPeople {
      var people, page1, page2, fallback, first, second := PeopleList(auth, Arg(args, "filterName"));
      answer := ManyAsJson(people);
      exchange := Paged(page1, page2, fallback, first, second);
    } else if tool == CreatePerson {
      var person, res := PeopleCreate(auth, Pick(args, PersonFields));
      answer := OneAsJson(person);
      exchange := Single(res);
    } else if tool == UpdatePerson {
      var person, res := PeopleUpdate(auth, Arg(args, "id"), Pick(args, PersonUpdateFields));
      answer := OneAsJson(person);
      exchange := Single(res);
    } else if tool == ListTasks {
      var tasks, res := TasksList(auth);
      answer := ManyAsJson(tasks);
      exchange := Single(res);
    } else if tool == CreateTask {
      var task, res := TasksCreate(auth, Pick(args, TaskFields));
      answer := OneAsJson(task);
      exchange := Single(res);
    } else {
      var cities, res := CitiesList(auth, Arg(args, "filterName"));
      answer := ManyAsJson(cities);
      exchange := Single(res);
    }
  }
}
