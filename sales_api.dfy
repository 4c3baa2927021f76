/** The sales-ledger adapter: it maps search parameters to the ledger's
    query keys, asks the spreadsheet endpoint, falls back to a built-in
    three-record sample whenever the live answer is unusable, and rewrites
    the three date columns for display. */
module SalesApi {

  import opened Base
  import opened Text
  import opened JsonValues

  // ---------------------------------------------------------------------
  // Query filters
  // ---------------------------------------------------------------------

  /** The optional search parameters of `list`. */
  datatype SalesParams = SalesParams(
    passengerName: Option<string>,
    date: Option<string>,
    provider: Option<string>,
    reservationId: Option<string>)

  /** The four ledger columns `list` can filter on. */
  datatype FilterKey = Passageiro | DataIda | Fornecedor | Reserva

  /** The column name, which is also the query-parameter name. */
  function KeyName(k: FilterKey): string {
    match k
    case Passageiro => "Passageiro"
    case DataIda => "Data_ida"
    case Fornecedor => "Fornecedor"
    case Reserva => "Reserva"
  }

  /** The order in which `list` fills the keys in. */
  function KeyRank(k: FilterKey): nat {
    match k
    case Passageiro => 0
    case DataIda => 1
    case Fornecedor => 2
    case Reserva => 3
  }

  /** The `Record<string, string>` of filters, as its entries in insertion
      order. */
  type Filters = seq<(FilterKey, string)>

  /** URL query parameters, in order. */
  type Query = seq<(string, string)>

  /** The value stored under `key`, if any. */
  function Lookup(filters: Filters, key: FilterKey): (v: Option<string>)
    ensures v.Some? ==> (key, v.value) in filters
  {
    if filters == [] then None
    else if filters[0].0 == key then Some(filters[0].1)
    else Lookup(filters[1..], key)
  }

  /** Appending an entry leaves existing keys alone and adds one new key. */
  lemma {:induction false} LookupSnoc(filters: Filters, entry: (FilterKey, string), key: FilterKey)
    ensures Lookup(filters + [entry], key) ==
              (if Lookup(filters, key).Some? then Lookup(filters, key)
               else if entry.0 == key then Some(entry.1) else None)
  {
    if filters != [] {
      LookupSnoc(filters[1..], entry, key);
      assert (filters + [entry])[1..] == filters[1..] + [entry];
    }
  }

  /** A string parameter when it is truthy (given and non-empty). */
  function TruthyText(v: Option<string>): (r: Option<string>)
    ensures r.Some? <==> v.Some? && v.value != ""
    ensures r.Some? ==> r == v
  {
    if v.Some? && v.value != "" then v else None
  }

  /** `filters` is what `list` builds from `params`: each key holds its
      parameter exactly when that parameter is truthy, no value is empty,
      and the keys come in the fixed order, each at most once. */
  ghost predicate ApiFiltersFor(params: SalesParams, filters: Filters) {
    && Lookup(filters, Passageiro) == TruthyText(params.passengerName)
    && Lookup(filters, DataIda) == TruthyText(params.date)
    && Lookup(filters, Fornecedor) == TruthyText(params.provider)
    && Lookup(filters, Reserva) == TruthyText(params.reservationId)
    && (forall i :: 0 <= i < |filters| ==> filters[i].1 != "")
    && (forall i, j :: 0 <= i < j < |filters| ==> KeyRank(filters[i].0) < KeyRank(filters[j].0))
  }

  /** The parameter that fills `key`. */
  function ParamOf(params: SalesParams, key: FilterKey): Option<string> {
    match key
    case Passageiro => params.passengerName
    case DataIda => params.date
    case Fornecedor => params.provider
    case Reserva => params.reservationId
  }

  /** What one `if (params.x) apiFilters[key] = params.x` adds. */
  function Entry(key: FilterKey, v: Option<string>): Filters {
    if v.Some? && v.value != "" then [(key, v.value)] else []
  }

  /** The keys ranked below `n` hold their truthy parameters, the others
      nothing yet. */
  ghost predicate LookupsUpTo(params: SalesParams, filters: Filters, n: nat) {
    forall k :: Lookup(filters, k) == if KeyRank(k) < n then TruthyText(ParamOf(params, k)) else None
  }

  /** Every value is non-empty, every key ranks below `n`, and the keys come
      in rank order. */
  ghost predicate RankedBelow(filters: Filters, n: nat) {
    && (forall i :: 0 <= i < |filters| ==> filters[i].1 != "" && KeyRank(filters[i].0) < n)
    && (forall i, j :: 0 <= i < j < |filters| ==> KeyRank(filters[i].0) < KeyRank(filters[j].0))
  }

  lemma LookupStep(params: SalesParams, filters: Filters, key: FilterKey)
    requires LookupsUpTo(params, filters, KeyRank(key))
    ensures LookupsUpTo(params, filters + Entry(key, ParamOf(params, key)), KeyRank(key) + 1)
  {
    var entry := Entry(key, ParamOf(params, key));
    forall k
      ensures Lookup(filters + entry, k) == if KeyRank(k) < KeyRank(key) + 1 then TruthyText(ParamOf(params, k)) else None
    {
      if entry != [] {
        LookupSnoc(filters, entry[0], k);
        assert filters + entry == filters + [entry[0]];
      } else {
        assert filters + entry == filters;
      }
    }
  }

  lemma RankStep(filters: Filters, key: FilterKey, v: Option<string>)
    requires RankedBelow(filters, KeyRank(key))
    ensures RankedBelow(filters + Entry(key, v), KeyRank(key) + 1)
  {
  }

  /** The four steps of `list` one after the other. */
  function Filled(params: SalesParams): Filters {
    Entry(Passageiro, params.passengerName) + Entry(DataIda, params.date)
      + Entry(Fornecedor, params.provider) + Entry(Reserva, params.reservationId)
  }

  /** Taken together, the four steps give the filters `list` promises. */
  lemma FilledFor(params: SalesParams)
    ensures ApiFiltersFor(params, Filled(params))
  {
    var f1 := Entry(Passageiro, params.passengerName);
    var f2 := f1 + Entry(DataIda, params.date);
    var f3 := f2 + Entry(Fornecedor, params.provider);
    var f4 := f3 + Entry(Reserva, params.reservationId);
    assert [] + f1 == f1;
    LookupStep(params, [], Passageiro);
    LookupStep(params, f1, DataIda);
    LookupStep(params, f2, Fornecedor);
    LookupStep(params, f3, Reserva);
    RankStep([], Passageiro, params.passengerName);
    RankStep(f1, DataIda, params.date);
    RankStep(f2, Fornecedor, params.provider);
    RankStep(f3, Reserva, params.reservationId);
    FilledAll(params, f4);
  }

  lemma FilledAll(params: SalesParams, filters: Filters)
    requires LookupsUpTo(params, filters, 4) && RankedBelow(filters, 4)
    ensures ApiFiltersFor(params, filters)
  {
    assert Lookup(filters, Passageiro) == TruthyText(params.passengerName);
    assert Lookup(filters, DataIda) == TruthyText(params.date);
    assert Lookup(filters, Fornecedor) == TruthyText(params.provider);
    assert Lookup(filters, Reserva) == TruthyText(params.reservationId);
  }

  /** Fills the filter record one parameter at a time. */
  method BuildFilters(params: SalesParams) returns (filters: Filters)
    ensures ApiFiltersFor(params, filters)
  {
    filters := [];
    if params.passengerName.Some? && params.passengerName.value != "" {
      filters := filters + [(Passageiro, params.passengerName.value)];
    }
    assert filters == Entry(Passageiro, params.passengerName);
    ghost var before := filters;
    if params.date.Some? && params.date.value != "" {
      filters := filters + [(DataIda, params.date.value)];
    }
    assert filters == before + Entry(DataIda, params.date);
    before := filters;
    if params.provider.Some? && params.provider.value != "" {
      filters := filters + [(Fornecedor, params.provider.value)];
    }
    assert filters == before + Entry(Fornecedor, params.provider);
    before := filters;
    if params.reservationId.Some? && params.reservationId.value != "" {
      filters := filters + [(Reserva, params.reservationId.value)];
    }
    assert filters == before + Entry(Reserva, params.reservationId);
    FilledFor(params);
  }

  predicate HasValue(entry: (FilterKey, string)) { entry.1 != "" }

  /** The entries as named URL parameters. */
  function Named(filters: Filters): (q: Query)
    ensures |q| == |filters|
    ensures forall i :: 0 <= i < |q| ==> q[i] == (KeyName(filters[i].0), filters[i].1)
  {
    seq(|filters|, i requires 0 <= i < |filters| => (KeyName(filters[i].0), filters[i].1))
  }

  /** `url.searchParams.append(key, value)` for each entry with a non-empty
      value, in order. */
  method SearchParams(filters: Filters) returns (query: Query)
    ensures query == Named(Filter(filters, HasValue))
  {
    query := [];
    var i := 0;
    while i < |filters|
      invariant 0 <= i <= |filters|
      invariant query == Named(Filter(filters[..i], HasValue))
    {
      var entry := filters[i];
      assert filters[..i + 1] == filters[..i] + [entry];
      NamedStep(filters[..i], entry);
      if entry.1 != "" {
        query := query + [(KeyName(entry.0), entry.1)];
      }
      i := i + 1;
    }
    assert filters[..|filters|] == filters;
  }

  lemma NamedStep(done: Filters, entry: (FilterKey, string))
    ensures Named(Filter(done + [entry], HasValue)) ==
            Named(Filter(done, HasValue)) + (if entry.1 != "" then [(KeyName(entry.0), entry.1)] else [])
  {
    FilterConcat(done, [entry], HasValue);
    var last := Filter([entry], HasValue);
    assert last == if entry.1 != "" then [entry] else [];
    NamedConcat(Filter(done, HasValue), last);
  }

  lemma NamedConcat(a: Filters, b: Filters)
    ensures Named(a + b) == Named(a) + Named(b)
  {
  }

  /** Distinct keys are distinct query-parameter names. */
  lemma KeyNameInjective(a: FilterKey, b: FilterKey)
    ensures KeyName(a) == KeyName(b) <==> a == b
  {
    if a != b {
      assert KeyName(a)[0] != KeyName(b)[0] || |KeyName(a)| != |KeyName(b)|;
    }
  }

  /** Only non-empty values reach the URL, each one that does, in order. */
  lemma SearchParamsKeepOrder(a: Filters, b: Filters)
    ensures Filter(a + b, HasValue) == Filter(a, HasValue) + Filter(b, HasValue)
    ensures forall e :: e in Filter(a, HasValue) <==> e in a && e.1 != ""
  {
    FilterConcat(a, b, HasValue);
  }

  // ---------------------------------------------------------------------
  // The built-in sample
  // ---------------------------------------------------------------------

  /** One row of the ledger, as the `Sale` interface describes it. */
  datatype Sale = Sale(
    venda: int,
    passageiro: string,
    produto: string,
    fornecedor: string,
    dataIda: string,
    dataVolta: string,
    idade: int,
    rg: string,
    telefone: string,
    celular: string,
    dataVenda: string,
    nomePacote: string,
    reserva: string)

  function SaleJson(s: Sale): Json {
    JObj(map[
      "Venda" := JNum(s.venda),
      "Passageiro" := JStr(s.passageiro),
      "Produto" := JStr(s.produto),
      "Fornecedor" := JStr(s.fornecedor),
      "Data_ida" := JStr(s.dataIda),
      "Data_volta" := JStr(s.dataVolta),
      "Idade" := JNum(s.idade),
      "RG" := JStr(s.rg),
      "Telefone" := JStr(s.telefone),
      "Celular" := JStr(s.celular),
      "Data_venda" := JStr(s.dataVenda),
      "Nome_pacote" := JStr(s.nomePacote),
      "Reserva" := JStr(s.reserva)])
  }

  const Sale1001: Sale := Sale(1001, "João Silva", "Pacote Paris", "EuroAdventures",
    "2024-05-10T00:00:00.000Z", "2024-05-20T00:00:00.000Z", 35, "123456789", "11999999999", "11988888888",
    "2024-01-15T00:00:00.000Z", "Paris Romântica", "RES-001")

  const Sale1002: Sale := Sale(1002, "Maria Oliveira", "Cruzeiro Caribe", "SeaDreams",
    "2024-07-01T00:00:00.000Z", "2024-07-10T00:00:00.000Z", 29, "987654321", "21999999999", "21977777777",
    "2024-02-20T00:00:00.000Z", "Caribe Dreams", "RES-002")

  const Sale1003: Sale := Sale(1003, "Carlos Pereira", "Resort Nordeste", "CVC",
    "2024-04-04T00:00:00.000Z", "2024-04-10T00:00:00.000Z", 40, "11223344", "31999998888", "31988887777",
    "2024-03-01T00:00:00.000Z", "Porto de Galinhas", "RES-003")

  const MockSales: seq<Sale> := [Sale1001, Sale1002, Sale1003]

  /** The sample's own filter: passenger and provider match as
      case-insensitive substrings, the reservation exactly; an absent or
      empty filter matches everything, and the date filter is not looked at. */
  predicate MockKeeps(item: Sale, filters: Filters) {
    && (var p := Lookup(filters, Passageiro);
        p.Some? && p.value != "" ==> Contains(ToLower(item.passageiro), ToLower(p.value)))
    && (var f := Lookup(filters, Fornecedor);
        f.Some? && f.value != "" ==> Contains(ToLower(item.fornecedor), ToLower(f.value)))
    && (var r := Lookup(filters, Reserva);
        r.Some? && r.value != "" ==> item.reserva == r.value)
  }

  function GetMockData(filters: Filters): seq<Sale> {
    Filter(MockSales, item => MockKeeps(item, filters))
  }

  /** A sample row is returned iff it passes each given filter, with
      "matches" meaning occurrence of the lower-cased filter anywhere in the
      lower-cased field. */
  lemma GetMockDataKeeps(filters: Filters, item: Sale)
    ensures item in GetMockData(filters) <==>
      && item in MockSales
      && (Lookup(filters, Passageiro).Some? && Lookup(filters, Passageiro).value != "" ==>
            exists i :: OccursAt(ToLower(Lookup(filters, Passageiro).value), ToLower(item.passageiro), i))
      && (Lookup(filters, Fornecedor).Some? && Lookup(filters, Fornecedor).value != "" ==>
            exists i :: OccursAt(ToLower(Lookup(filters, Fornecedor).value), ToLower(item.fornecedor), i))
      && (Lookup(filters, Reserva).Some? && Lookup(filters, Reserva).value != "" ==>
            item.reserva == Lookup(filters, Reserva).value)
  {
    assert item in GetMockData(filters) <==> item in MockSales && MockKeeps(item, filters);
    var p, f := Lookup(filters, Passageiro), Lookup(filters, Fornecedor);
    if p.Some? {
      ContainsIff(ToLower(item.passageiro), ToLower(p.value));
    }
    if f.Some? {
      ContainsIff(ToLower(item.fornecedor), ToLower(f.value));
    }
  }

  function WithoutKey(filters: Filters, key: FilterKey): (r: Filters)
    ensures forall k :: k != key ==> Lookup(r, k) == Lookup(filters, k)
    ensures Lookup(r, key) == None
  {
    if filters == [] then []
    else if filters[0].0 == key then WithoutKey(filters[1..], key)
    else [filters[0]] + WithoutKey(filters[1..], key)
  }

  /** The date filter has no effect on the sample. */
  lemma MockIgnoresDate(filters: Filters)
    ensures GetMockData(filters) == GetMockData(WithoutKey(filters, DataIda))
  {
    var other := WithoutKey(filters, DataIda);
    FilterCongruent(MockSales, item => MockKeeps(item, filters), item => MockKeeps(item, other));
  }

  /** The sample filter over the three sample rows, one row at a time. */
  lemma MockFilterRows(keep: Sale -> bool)
    ensures Filter(MockSales, keep) ==
      (if keep(Sale1001) then [Sale1001] else []) +
      (if keep(Sale1002) then [Sale1002] else []) +
      (if keep(Sale1003) then [Sale1003] else [])
  {
    FilterConcat([Sale1001], [Sale1002, Sale1003], keep);
    FilterConcat([Sale1002], [Sale1003], keep);
    assert MockSales == [Sale1001] + ([Sale1002] + [Sale1003]);
    assert [Sale1002, Sale1003] == [Sale1002] + [Sale1003];
    assert [Sale1001][1..] == [] && [Sale1002][1..] == [] && [Sale1003][1..] == [];
  }

  lemma ProviderCvcKeeps()
    ensures MockKeeps(Sale1003, [(Fornecedor, "CVC")])
  {
    assert ToLower("CVC") == "cvc";
    assert OccursAt("cvc", "cvc", 0);
    OccursContained("cvc", "cvc", 0);
  }

  /** `hay.toLowerCase()` lacks a lower-case letter of `needle`, in either
      case, so the search fails. */
  lemma LowerMisses(hay: string, needle: string, c: char)
    requires 'a' <= c <= 'z' && c !in hay && (c as int - 32) as char !in hay && c in needle
    ensures !Contains(ToLower(hay), needle)
  {
    LowerLacks(hay, c);
    MissingCharNotContained(ToLower(hay), needle, c);
  }

  lemma CvcLower()
    ensures ToLower("CVC") == "cvc"
  {
  }

  lemma ProviderCvcDrops1001()
    ensures !MockKeeps(Sale1001, [(Fornecedor, "CVC")])
  {
    CvcLower();
    LowerMisses("EuroAdventures", "cvc", 'c');
    assert Sale1001.fornecedor == "EuroAdventures";
  }

  lemma ProviderCvcDrops1002()
    ensures !MockKeeps(Sale1002, [(Fornecedor, "CVC")])
  {
    CvcLower();
    LowerMisses("SeaDreams", "cvc", 'c');
    assert Sale1002.fornecedor == "SeaDreams";
  }

  /** A provider search for "CVC" gives exactly sale 1003. */
  lemma MockProviderCvc()
    ensures GetMockData([(Fornecedor, "CVC")]) == [Sale1003]
  {
    ProviderCvcKeeps();
    ProviderCvcDrops1001();
    ProviderCvcDrops1002();
    MockFilterRows(item => MockKeeps(item, [(Fornecedor, "CVC")]));
  }

  lemma PassengerSilvaKeeps()
    ensures MockKeeps(Sale1001, [(Passageiro, "Silva")])
  {
    assert ToLower("Silva") == "silva";
    var name := ToLower(Sale1001.passageiro);
    assert name[5..10] == "silva";
    assert OccursAt("silva", name, 5);
    OccursContained(name, "silva", 5);
  }

  lemma SilvaLower()
    ensures ToLower("Silva") == "silva"
  {
  }

  lemma PassengerSilvaDrops1002()
    ensures !MockKeeps(Sale1002, [(Passageiro, "Silva")])
  {
    SilvaLower();
    LowerMisses("Maria Oliveira", "silva", 's');
    assert Sale1002.passageiro == "Maria Oliveira";
  }

  lemma PassengerSilvaDrops1003()
    ensures !MockKeeps(Sale1003, [(Passageiro, "Silva")])
  {
    SilvaLower();
    LowerMisses("Carlos Pereira", "silva", 'v');
    assert Sale1003.passageiro == "Carlos Pereira";
  }

  /** A passenger search for "Silva" gives exactly sale 1001. */
  lemma MockPassengerSilva()
    ensures GetMockData([(Passageiro, "Silva")]) == [Sale1001]
  {
    PassengerSilvaKeeps();
    PassengerSilvaDrops1002();
    PassengerSilvaDrops1003();
    MockFilterRows(item => MockKeeps(item, [(Passageiro, "Silva")]));
  }

  /** Without filters the whole sample comes back. */
  lemma MockUnfiltered()
    ensures GetMockData([]) == MockSales
  {
    FilterAll(MockSales, item => MockKeeps(item, []));
  }

  function MockJson(filters: Filters): seq<Json> {
    seq(|GetMockData(filters)|, i requires 0 <= i < |GetMockData(filters)| => SaleJson(GetMockData(filters)[i]))
  }

  // ---------------------------------------------------------------------
  // The ledger endpoint and the fallback policy
  // ---------------------------------------------------------------------

  /** What a ledger request yields: a rejected fetch, or a status, the
      `content-type` header if present, and the outcome of parsing the body. */
  datatype LedgerReply =
    | Unreachable(message: string)
    | Replied(status: nat, contentType: Option<string>, body: Result<Json>)

  /** The spreadsheet endpoint as an oracle: whether its configured URL
      parses, and the answer to the i-th request with the given query. */
  class Ledger {
    const urlValid: bool
    const answer: (nat, Query) -> LedgerReply
    var queries: seq<Query>

    constructor (urlValid: bool, answer: (nat, Query) -> LedgerReply)
      ensures this.urlValid == urlValid && this.answer == answer && queries == []
    {
      this.urlValid := urlValid;
      this.answer := answer;
      queries := [];
    }

    method Get(query: Query) returns (reply: LedgerReply)
      modifies this`queries
      ensures queries == old(queries) + [query]
      ensures reply == answer(|old(queries)|, query)
    {
      reply := answer(|queries|, query);
      queries := queries + [query];
    }
  }

  /** The records of a usable live answer: a 2xx status, a content type
      that mentions JSON, a body that parses, and an array at its top. */
  function LiveData(reply: LedgerReply): (r: Option<seq<Json>>)
    ensures r.Some? <==>
      && reply.Replied? && IsOk(reply.status)
      && reply.contentType.Some? && Contains(reply.contentType.value, "application/json")
      && reply.body.Ok? && reply.body.value.JArr?
    ensures r.Some? ==> r.value == reply.body.value.items
  {
    if reply.Replied? && IsOk(reply.status)
       && reply.contentType.Some? && Contains(reply.contentType.value, "application/json")
       && reply.body.Ok? && reply.body.value.JArr?
    then Some(reply.body.value.items)
    else None
  }

  /** The live records, or the sample filtered the same way. */
  function LiveOrMock(reply: LedgerReply, filters: Filters): (r: seq<Json>)
    ensures LiveData(reply).Some? ==> r == LiveData(reply).value
    ensures LiveData(reply).None? ==> r == MockJson(filters)
  {
    if LiveData(reply).Some? then LiveData(reply).value else MockJson(filters)
  }

  /** Each way the live answer can fail gives the sample. */
  lemma FallbackCases(reply: LedgerReply, filters: Filters)
    ensures reply.Unreachable? ==> LiveOrMock(reply, filters) == MockJson(filters)
    ensures reply.Replied? && !IsOk(reply.status) ==> LiveOrMock(reply, filters) == MockJson(filters)
    ensures reply.Replied? && (reply.contentType.None? || reply.contentType.value == "") ==>
      LiveOrMock(reply, filters) == MockJson(filters)
    ensures reply.Replied? && reply.contentType.Some? && !Contains(reply.contentType.value, "application/json") ==>
      LiveOrMock(reply, filters) == MockJson(filters)
    ensures reply.Replied? && reply.body.Err? ==> LiveOrMock(reply, filters) == MockJson(filters)
    ensures reply.Replied? && reply.body.Ok? && !reply.body.value.JArr? ==> LiveOrMock(reply, filters) == MockJson(filters)
  {
    if reply.Replied? && reply.contentType == Some("") {
      assert !Contains("", "application/json");
    }
  }

  /** Builds the URL (which throws when the configured address does not
      parse, with Node's message "Invalid URL"), sends the non-empty filters as its query, and returns the live
      records or, on any failure after that point, the filtered sample. */
  method FetchSales(ledger: Ledger, filters: Filters) returns (r: Result<seq<Json>>)
    modifies ledger`queries
    ensures !ledger.urlValid ==> r == Err("Invalid URL") && ledger.queries == old(ledger.queries)
    ensures ledger.urlValid ==>
      && ledger.queries == old(ledger.queries) + [Named(Filter(filters, HasValue))]
      && r == Ok(LiveOrMock(ledger.answer(|old(ledger.queries)|, Named(Filter(filters, HasValue))), filters))
  {
    if !ledger.urlValid {
      return Err("Invalid URL");
    }
    var query := SearchParams(filters);
    var reply := ledger.Get(query);
    r := Ok(LiveOrMock(reply, filters));
  }

  // ---------------------------------------------------------------------
  // Dates for display
  // ---------------------------------------------------------------------

  datatype CalendarDate = CalendarDate(year: nat, month: nat, day: nat)

  predicate LeapYear(year: nat) {
    year % 4 == 0 && (year % 100 != 0 || year % 400 == 0)
  }

  function DaysInMonth(year: nat, month: nat): nat {
    if month == 2 then (if LeapYear(year) then 29 else 28)
    else if month == 4 || month == 6 || month == 9 || month == 11 then 30
    else 31
  }

  /** A proleptic Gregorian date with a four-digit year. */
  predicate ValidDate(d: CalendarDate) {
    1000 <= d.year <= 9999 && 1 <= d.month <= 12 && 1 <= d.day <= DaysInMonth(d.year, d.month)
  }

  predicate AllDigits(s: string) {
    forall i :: 0 <= i < |s| ==> IsDigit(s[i])
  }

  /** The number written with exactly `len` digits at position `i`. */
  function NumberAt(s: string, i: nat, len: nat): (r: Option<nat>)
    ensures r.Some? ==> i + len <= |s| && AllDigits(s[i..i + len])
  {
    if i + len <= |s| && AllDigits(s[i..i + len]) then Some(ParseNat(s[i..i + len])) else None
  }

  predicate Below(n: Option<nat>, bound: nat) {
    n.Some? && n.value < bound
  }

  function Pad2(n: nat): (s: string)
    requires n < 100
    ensures |s| == 2
  {
    [DigitChar(n / 10), DigitChar(n % 10)]
  }

  function Pad4(n: nat): (s: string)
    requires n < 10000
    ensures |s| == 4
  {
    Pad2(n / 100) + Pad2(n % 100)
  }

  /** `YYYY-MM-DD`. */
  function IsoDate(d: CalendarDate): (s: string)
    requires ValidDate(d)
    ensures |s| == 10
  {
    Pad4(d.year) + "-" + Pad2(d.month) + "-" + Pad2(d.day)
  }

  /** `DD/MM/YYYY`, as the pt-BR locale writes a date. */
  function DisplayDate(d: CalendarDate): (s: string)
    requires ValidDate(d)
    ensures |s| == 10
  {
    Pad2(d.day) + "/" + Pad2(d.month) + "/" + Pad4(d.year)
  }

  function Checked(d: CalendarDate): (r: Option<CalendarDate>)
    ensures r.Some? ==> ValidDate(r.value)
  {
    if ValidDate(d) then Some(d) else None
  }

  /** `THH:mmZ`, `THH:mm:ssZ` or `THH:mm:ss.sssZ`, a UTC time of day. */
  predicate TimeOfDay(t: string) {
    && (|t| == 7 || |t| == 10 || |t| == 14)
    && t[0] == 'T' && t[3] == ':' && t[|t| - 1] == 'Z'
    && Below(NumberAt(t, 1, 2), 24) && Below(NumberAt(t, 4, 2), 60)
    && (|t| >= 10 ==> t[6] == ':' && Below(NumberAt(t, 7, 2), 60))
    && (|t| == 14 ==> t[9] == '.' && NumberAt(t, 10, 3).Some?)
  }

  /** The date of an ISO 8601 date-only string (`YYYY`, `YYYY-MM`,
      `YYYY-MM-DD`) or of a UTC date-time string, when it names a real day. */
  function ParseIso(s: string): (r: Option<CalendarDate>)
    ensures r.Some? ==> ValidDate(r.value)
  {
    var year := NumberAt(s, 0, 4);
    if year.None? then None
    else if |s| == 4 then Checked(CalendarDate(year.value, 1, 1))
    else if s[4] != '-' then None
    else
      var month := NumberAt(s, 5, 2);
      if month.None? then None
      else if |s| == 7 then Checked(CalendarDate(year.value, month.value, 1))
      else if s[7] != '-' then None
      else
        var day := NumberAt(s, 8, 2);
        if day.None? then None
        else if |s| == 10 || TimeOfDay(s[10..]) then Checked(CalendarDate(year.value, month.value, day.value))
        else None
  }

  /** Reads `DD/MM/YYYY` back. */
  function ParseDisplay(s: string): (r: Option<CalendarDate>)
    ensures r.Some? ==> ValidDate(r.value)
  {
    var day, month, year := NumberAt(s, 0, 2), NumberAt(s, 3, 2), NumberAt(s, 6, 4);
    if |s| == 10 && s[2] == '/' && s[5] == '/' && day.Some? && month.Some? && year.Some?
    then Checked(CalendarDate(year.value, month.value, day.value))
    else None
  }

  /** `formatDate`: a falsy value gives "", a string naming a day gives that
      day as DD/MM/YYYY, any other string comes back unchanged. */
  function FormatDate(v: Option<Json>): Json {
    if !Present(v) then JStr("")
    else if v.value.JStr? then
      var d := ParseIso(v.value.s);
      if d.Some? then JStr(DisplayDate(d.value)) else v.value
    else v.value
  }

  lemma ParsePad2(n: nat)
    requires n < 100
    ensures AllDigits(Pad2(n)) && ParseNat(Pad2(n)) == n
  {
    var s := Pad2(n);
    assert s[..1] == [DigitChar(n / 10)];
    assert s[..1][..0] == [];
    assert ParseNat(s[..1]) == n / 10;
    assert ParseNat(s) == 10 * (n / 10) + n % 10;
  }

  lemma ParsePad4(n: nat)
    requires n < 10000
    ensures AllDigits(Pad4(n)) && ParseNat(Pad4(n)) == n
  {
    var hi, lo := Pad2(n / 100), Pad2(n % 100);
    var s := Pad4(n);
    ParsePad2(n / 100);
    ParsePad2(n % 100);
    assert s[..3] == hi + [lo[0]];
    assert s[..3][..2] == hi;
    assert ParseNat(s[..3]) == 10 * (n / 100) + n % 100 / 10;
  }

  lemma NumberAtPad2(s: string, i: nat, n: nat)
    requires n < 100 && i + 2 <= |s| && s[i..i + 2] == Pad2(n)
    ensures NumberAt(s, i, 2) == Some(n)
  {
    ParsePad2(n);
  }

  lemma NumberAtPad4(s: string, i: nat, n: nat)
    requires n < 10000 && i + 4 <= |s| && s[i..i + 4] == Pad4(n)
    ensures NumberAt(s, i, 4) == Some(n)
  {
    ParsePad4(n);
  }

  /** Where the parts of `YYYY-MM-DD` sit. */
  lemma IsoDateLayout(d: CalendarDate)
    requires ValidDate(d)
    ensures IsoDate(d)[0..4] == Pad4(d.year) && IsoDate(d)[4] == '-'
    ensures IsoDate(d)[5..7] == Pad2(d.month) && IsoDate(d)[7] == '-'
    ensures IsoDate(d)[8..10] == Pad2(d.day)
  {
    var y, m, dd := Pad4(d.year), Pad2(d.month), Pad2(d.day);
    var s := IsoDate(d);
    assert s == y + "-" + m + "-" + dd;
    assert s[0..4] == y;
    assert s[5..7] == [s[5], s[6]] == [m[0], m[1]] == m;
    assert s[8..10] == [s[8], s[9]] == [dd[0], dd[1]] == dd;
  }

  /** An ISO date, alone or followed by a UTC time of day, parses to that
      date. */
  lemma {:induction false} ParseIsoDate(d: CalendarDate, time: string)
    requires ValidDate(d) && (time == "" || TimeOfDay(time))
    ensures ParseIso(IsoDate(d) + time) == Some(d)
  {
    var iso := IsoDate(d);
    var s := iso + time;
    IsoDateLayout(d);
    assert s[..10] == iso && s[10..] == time;
    assert s[0..4] == iso[0..4] && s[5..7] == iso[5..7] && s[8..10] == iso[8..10];
    NumberAtPad4(s, 0, d.year);
    NumberAtPad2(s, 5, d.month);
    NumberAtPad2(s, 8, d.day);
  }

  /** The display form reads back as the date it shows, so no two days
      display alike. */
  lemma {:induction false} ParseDisplayDate(d: CalendarDate)
    requires ValidDate(d)
    ensures ParseDisplay(DisplayDate(d)) == Some(d)
  {
    var s := DisplayDate(d);
    assert s[0..2] == Pad2(d.day);
    assert s[3..5] == Pad2(d.month);
    assert s[6..10] == Pad4(d.year);
    NumberAtPad2(s, 0, d.day);
    NumberAtPad2(s, 3, d.month);
    NumberAtPad4(s, 6, d.year);
  }

  /** An ISO timestamp is shown as the day it names. */
  lemma FormatIsoDate(d: CalendarDate, time: string)
    requires ValidDate(d) && (time == "" || TimeOfDay(time))
    ensures FormatDate(Some(JStr(IsoDate(d) + time))) == JStr(DisplayDate(d))
  {
    ParseIsoDate(d, time);
  }

  /** Falsy input gives the empty string; a string that is not an ISO date
      comes back as it was. */
  lemma FormatDateFallbacks(v: Option<Json>)
    ensures !Present(v) ==> FormatDate(v) == JStr("")
    ensures v.Some? && v.value.JStr? && ParseIso(v.value.s).None? ==> FormatDate(v) == v.value
  {
  }

  /** A day past the end of its month names no date, so an ISO string for
      it comes back as it was ("2023-02-29" stays "2023-02-29"). */
  lemma FormatDateNoSuchDay(year: nat, month: nat, day: nat)
    requires 1000 <= year <= 9999 && 1 <= month <= 12 && DaysInMonth(year, month) < day < 100
    ensures var s := Pad4(year) + "-" + Pad2(month) + "-" + Pad2(day);
      FormatDate(Some(JStr(s))) == JStr(s)
  {
    var y, m, dd := Pad4(year), Pad2(month), Pad2(day);
    var s := y + "-" + m + "-" + dd;
    assert s[0..4] == y;
    assert s[5..7] == [s[5], s[6]] == [m[0], m[1]] == m;
    assert s[8..10] == [s[8], s[9]] == [dd[0], dd[1]] == dd;
    NumberAtPad4(s, 0, year);
    NumberAtPad2(s, 5, month);
    NumberAtPad2(s, 8, day);
    assert ParseIso(s) == Checked(CalendarDate(year, month, day)) == None;
  }

  lemma SampleTime()
    ensures TimeOfDay("T00:00:00.000Z")
  {
    var t := "T00:00:00.000Z";
    assert t[1..3] == "00" && t[4..6] == "00" && t[7..9] == "00" && t[10..13] == "000";
    assert ParseNat("00") == 0;
  }

  /** The sample's departure date of sale 1001 is shown as 10/05/2024. */
  lemma FormatSampleDate()
    ensures FormatDate(Some(JStr("2024-05-10T00:00:00.000Z"))) == JStr("10/05/2024")
  {
    var d := CalendarDate(2024, 5, 10);
    assert ValidDate(d);
    assert Pad4(2024) == "2024";
    assert IsoDate(d) == "2024-05-10";
    assert DisplayDate(d) == "10/05/2024";
    SampleTime();
    assert "2024-05-10T00:00:00.000Z" == IsoDate(d) + "T00:00:00.000Z";
    FormatIsoDate(d, "T00:00:00.000Z");
  }

  // ---------------------------------------------------------------------
  // list
  // ---------------------------------------------------------------------

  const DateKeys: seq<string> := ["Data_ida", "Data_volta", "Data_venda"]

  /** The own fields `{...s}` copies from a record. */
  function SpreadOf(s: Json): map<string, Json> {
    if s.JObj? then s.fields else map[]
  }

  /** `{...s, Data_ida: formatDate(s.Data_ida), ...}`: reading a date off
      `null` throws; the three date fields are rewritten, every other field
      is copied unchanged. */
  function DisplaySale(s: Json): (r: Result<Json>)
    ensures r.Err? <==> s.JNull?
    ensures r.Err? ==> r.message == CannotRead("null", "Data_ida")
    ensures r.Ok? ==> r.value.JObj?
    ensures r.Ok? ==> forall k :: k in r.value.fields <==> k in SpreadOf(s) || k in DateKeys
    ensures r.Ok? ==> forall k :: k in SpreadOf(s) && k !in DateKeys ==> r.value.fields[k] == SpreadOf(s)[k]
    ensures r.Ok? ==> forall k :: k in DateKeys ==> r.value.fields[k] == FormatDate(Get(s, k))
  {
    if s.JNull? then Err(CannotRead("null", "Data_ida"))
    else Ok(JObj(SpreadOf(s)[
      "Data_ida" := FormatDate(Get(s, "Data_ida"))][
      "Data_volta" := FormatDate(Get(s, "Data_volta"))][
      "Data_venda" := FormatDate(Get(s, "Data_venda"))]))
  }

  /** `sales.map(displaySale)`: one display record per sale, in order, or
      the error of the first `null`. */
  function DisplayAll(sales: seq<Json>): (r: Result<seq<Json>>)
    ensures r.Ok? <==> JNull !in sales
    ensures r.Err? ==> r.message == CannotRead("null", "Data_ida")
    ensures r.Ok? ==> |r.value| == |sales|
  {
    if sales == [] then Ok([])
    else
      var head :- DisplaySale(sales[0]);
      var tail :- DisplayAll(sales[1..]);
      Ok([head] + tail)
  }

  /** The i-th record shown is the i-th sale with its dates rewritten. */
  lemma {:induction false} DisplayAllAt(sales: seq<Json>, i: nat)
    requires DisplayAll(sales).Ok? && i < |sales|
    ensures DisplaySale(sales[i]) == Ok(DisplayAll(sales).value[i])
  {
    if i > 0 {
      assert JNull !in sales[1..];
      DisplayAllAt(sales[1..], i - 1);
    }
  }

  /** Builds the filters, fetches (live or sample), and rewrites the dates
      of every record for display. */
  method List(ledger: Ledger, params: SalesParams)
    returns (r: Result<seq<Json>>, ghost filters: Filters, ghost fetched: Result<seq<Json>>)
    modifies ledger`queries
    ensures ApiFiltersFor(params, filters)
    ensures !ledger.urlValid ==> fetched == Err("Invalid URL") && ledger.queries == old(ledger.queries)
    ensures ledger.urlValid ==>
      && ledger.queries == old(ledger.queries) + [Named(Filter(filters, HasValue))]
      && fetched == Ok(LiveOrMock(ledger.answer(|old(ledger.queries)|, Named(Filter(filters, HasValue))), filters))
    ensures fetched.Err? ==> r == Err(fetched.message)
    ensures fetched.Ok? ==> r == DisplayAll(fetched.value)
  {
    var apiFilters := BuildFilters(params);
    filters := apiFilters;
    var sales := FetchSales(ledger, apiFilters);
    fetched := sales;
    if sales.Err? {
      r := Err(sales.message);
    } else {
      r := DisplayAll(sales.value);
    }
  }
}
