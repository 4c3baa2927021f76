/** The domain services over the back-office client: people (listing with a
    client-side fuzzy name filter, creation, update), tasks and their
    history, and cities. Requests and responses follow the JSON:API document
    shape `{data: {type, id?, attributes}}` (section 7.1 of JSON:API 1.0);
    every resource a service returns is flattened into `{id, ...attributes}`. */
module MondeServices {

  import opened Base
  import opened Text
  import opened JsonValues
  import opened Types
  import opened MondeClient

  /** A flattened resource: its `id` next to its attributes. */
  type Record = map<string, Json>

  // ---------------------------------------------------------------------
  // normalizeStr
  // ---------------------------------------------------------------------

  /** A character that lower-casing and decomposition leave alone. */
  predicate Folded(c: char) {
    !IsUpper(c) && LatinDecomposition(c).None?
  }

  predicate Unmarked(c: char) {
    !IsCombiningMark(c)
  }

  /** `.replace(/[\u0300-\u036f]/g, "")`: every combining mark removed,
      everything else kept in order (`RemoveMarksIsFilter`). */
  function RemoveMarks(s: string): (r: string)
    ensures forall i :: 0 <= i < |r| ==> !IsCombiningMark(r[i])
    ensures (forall i :: 0 <= i < |s| ==> Folded(s[i])) ==> forall i :: 0 <= i < |r| ==> Folded(r[i])
    ensures (forall i :: 0 <= i < |s| ==> !IsCombiningMark(s[i])) ==> r == s
  {
    if s == [] then []
    else (if IsCombiningMark(s[0]) then [] else [s[0]]) + RemoveMarks(s[1..])
  }

  /** Removing the marks is filtering out the unmarked characters. */
  lemma {:induction false} RemoveMarksIsFilter(s: string)
    ensures RemoveMarks(s) == Filter(s, Unmarked)
  {
    if s != [] {
      RemoveMarksIsFilter(s[1..]);
    }
  }

  lemma RemoveMarksOne(x: char)
    ensures RemoveMarks([x]) == if IsCombiningMark(x) then [] else [x]
  {
    assert [x][1..] == [];
  }

  /** Lower-case, canonical decomposition, combining marks removed: the form
      in which names and search terms are compared. */
  function NormalizeStr(s: string): (r: string)
    ensures forall i :: 0 <= i < |r| ==> !IsCombiningMark(r[i])
    ensures forall i :: 0 <= i < |r| ==> Folded(r[i])
  {
    RemoveMarks(Decompose(ToLower(s)))
  }

  /** Normalising twice changes nothing, so a normalised term compares
      against a normalised name the same way however often either went
      through `NormalizeStr`. */
  lemma NormalizeStrIdempotent(s: string)
    ensures NormalizeStr(NormalizeStr(s)) == NormalizeStr(s)
  {
    var t := NormalizeStr(s);
    assert ToLower(t) == t;
  }

  /** Normalisation works character by character: it distributes over
      concatenation... */
  lemma NormalizeStrConcat(a: string, b: string)
    ensures NormalizeStr(a + b) == NormalizeStr(a) + NormalizeStr(b)
  {
    ToLowerConcat(a, b);
    var la, lb := ToLower(a), ToLower(b);
    DecomposeConcat(la, lb);
    var da, db := Decompose(la), Decompose(lb);
    RemoveMarksIsFilter(da + db);
    RemoveMarksIsFilter(da);
    RemoveMarksIsFilter(db);
    FilterConcat(da, db, Unmarked);
  }

  /** ...and one character normalises to nothing if it is a combining mark,
      to the base letter of its lower-case form if that form is a
      precomposed Latin-1 letter, and to its lower-case form otherwise. */
  lemma NormalizeStrChar(c: char)
    ensures IsCombiningMark(c) ==> NormalizeStr([c]) == []
    ensures LatinDecomposition(LowerChar(c)).Some? ==> NormalizeStr([c]) == [LatinDecomposition(LowerChar(c)).value.0]
    ensures !IsCombiningMark(c) && LatinDecomposition(LowerChar(c)).None? ==> NormalizeStr([c]) == [LowerChar(c)]
  {
    var l := LowerChar(c);
    ToLowerOne(c);
    DecomposeOne(l);
    if LatinDecomposition(l).Some? {
      var d := LatinDecomposition(l).value;
      DecompositionShape(l);
      assert [d.0, d.1][1..] == [d.1];
      RemoveMarksOne(d.1);
    } else {
      RemoveMarksOne(l);
    }
  }

  /** A string of folded, unmarked characters is already normal. */
  lemma NormalizeStrFixes(s: string)
    requires forall i :: 0 <= i < |s| ==> Folded(s[i]) && !IsCombiningMark(s[i])
    ensures NormalizeStr(s) == s
  {
  }

  lemma DecomposeJoao()
    ensures Decompose("joão") == ['j', 'o', 'a', Tilde, 'o']
  {
    OnlyLatin1Decomposes('j');
    OnlyLatin1Decomposes('o');
    assert DecomposeChar('j') == "j" && DecomposeChar('o') == "o";
    assert DecomposeChar('ã') == ['a', Tilde];
    var s := "joão";
    assert s[1..] == "oão" && s[1..][1..] == "ão" && s[1..][1..][1..] == "o" && "o"[1..] == [];
    assert Decompose("o") == "o";
    assert Decompose("ão") == ['a', Tilde] + "o";
    assert Decompose("oão") == "o" + ['a', Tilde, 'o'];
    assert Decompose(s) == "j" + ['o', 'a', Tilde, 'o'];
  }

  lemma RemoveMarksJoao()
    ensures RemoveMarks(['j', 'o', 'a', Tilde, 'o']) == "joao"
  {
    var d := ['j', 'o', 'a', Tilde, 'o'];
    assert d[1..] == ['o', 'a', Tilde, 'o'] && d[2..] == ['a', Tilde, 'o'] && d[3..] == [Tilde, 'o'] && d[4..] == "o";
    assert RemoveMarks("o") == "o";
    assert RemoveMarks(d[3..]) == "o";
    assert RemoveMarks(d[2..]) == "ao";
    assert RemoveMarks(d[1..]) == "oao";
  }

  /** The example the source gives for the accent-insensitive form. */
  lemma NormalizeStrJoao()
    ensures NormalizeStr("João") == "joao"
  {
    assert ToLower("João") == "joão";
    DecomposeJoao();
    RemoveMarksJoao();
  }

  // ---------------------------------------------------------------------
  // The fuzzy name filter
  // ---------------------------------------------------------------------

  /** A person passes when `name` is a non-empty string whose normalised
      form contains every search token. */
  predicate NameMatches(person: Record, searchTokens: seq<string>) {
    && "name" in person
    && person["name"].JStr?
    && person["name"].s != ""
    && forall k :: 0 <= k < |searchTokens| ==> Contains(NormalizeStr(person["name"].s), searchTokens[k])
  }

  /** The non-empty space-separated words of the normalised search term. */
  function SearchTokens(filterName: string): (r: seq<string>)
    ensures forall k :: 0 <= k < |r| ==> r[k] != "" && ' ' !in r[k]
  {
    Tokens(NormalizeStr(filterName))
  }

  function FilterPeople(people: seq<Record>, filterName: string): seq<Record> {
    var tokens := SearchTokens(filterName);
    Filter(people, p => NameMatches(p, tokens))
  }

  /** The filter is applied only when a truthy search term is given. */
  function ApplyNameFilter(people: seq<Record>, filterName: Option<string>): seq<Record> {
    if filterName.Some? && filterName.value != "" then FilterPeople(people, filterName.value) else people
  }

  /** `token` occurs somewhere in `name`. */
  ghost predicate Occurs(token: string, name: string) {
    exists i :: OccursAt(token, name, i)
  }

  /** Every token occurs somewhere in the name. */
  ghost predicate HasAllTokens(name: string, tokens: seq<string>) {
    forall k :: 0 <= k < |tokens| ==> Occurs(tokens[k], name)
  }

  lemma ContainsAll(name: string, tokens: seq<string>)
    ensures (forall k :: 0 <= k < |tokens| ==> Contains(name, tokens[k])) <==> HasAllTokens(name, tokens)
  {
    forall k | 0 <= k < |tokens| ensures Contains(name, tokens[k]) <==> Occurs(tokens[k], name) {
      ContainsIff(name, tokens[k]);
    }
  }

  /** A person is kept iff it was listed, its name is a non-empty string,
      and every search token occurs somewhere in its normalised form. */
  lemma FilterPeopleKeeps(people: seq<Record>, filterName: string, person: Record)
    ensures person in FilterPeople(people, filterName) <==>
      && person in people
      && "name" in person && person["name"].JStr? && person["name"].s != ""
      && HasAllTokens(NormalizeStr(person["name"].s), SearchTokens(filterName))
  {
    var tokens := SearchTokens(filterName);
    assert person in FilterPeople(people, filterName) <==> person in people && NameMatches(person, tokens);
    if "name" in person && person["name"].JStr? {
      ContainsAll(NormalizeStr(person["name"].s), tokens);
    }
  }

  /** Filtering the two pages together is filtering each and concatenating:
      the order of page 1 then page 2 is kept. */
  lemma FilterPeopleConcat(page1: seq<Record>, page2: seq<Record>, filterName: string)
    ensures FilterPeople(page1 + page2, filterName) == FilterPeople(page1, filterName) + FilterPeople(page2, filterName)
  {
    var tokens := SearchTokens(filterName);
    FilterConcat(page1, page2, p => NameMatches(p, tokens));
  }

  lemma NormalizeStrJoaoFixed()
    ensures NormalizeStr("joao") == "joao"
  {
    NormalizeStrJoao();
    NormalizeStrIdempotent("João");
  }

  lemma TokensJoao()
    ensures Tokens("joao") == ["joao"]
  {
    assert ' ' !in "joao";
    SingleToken("joao");
  }

  lemma SearchTokensJoao()
    ensures SearchTokens("joao") == ["joao"]
  {
    NormalizeStrJoaoFixed();
    TokensJoao();
  }

  lemma NameMatchesJoao()
    ensures NameMatches(map["id" := JStr("7"), "name" := JStr("João")], ["joao"])
  {
    NormalizeStrJoao();
    assert OccursAt("joao", "joao", 0);
    ContainsIff("joao", "joao");
  }

  /** Case and accents do not matter: a search for "joao" finds "João". */
  lemma FilterPeopleExample()
    ensures var joao := map["id" := JStr("7"), "name" := JStr("João")];
      FilterPeople([joao], "joao") == [joao]
  {
    var joao := map["id" := JStr("7"), "name" := JStr("João")];
    SearchTokensJoao();
    NameMatchesJoao();
    FilterPeopleOne(joao, "joao");
  }

  lemma FilterPeopleOne(person: Record, filterName: string)
    requires NameMatches(person, SearchTokens(filterName))
    ensures FilterPeople([person], filterName) == [person]
  {
    var keep := (p: Record) => NameMatches(p, SearchTokens(filterName));
    assert keep(person);
    FilterAll([person], keep);
  }

  // ---------------------------------------------------------------------
  // JSON:API envelopes
  // ---------------------------------------------------------------------

  /** The resource object of a request document. */
  function ResourceJson(res: JsonApiResource): Json {
    JObj(map["type" := JStr(res.resourceType), "attributes" := JObj(res.attributes)]
      + (if res.id.Some? then map["id" := JStr(res.id.value)] else map[]))
  }

  /** `{data: resource}`. */
  function Envelope(res: JsonApiResource): Json {
    JObj(map["data" := ResourceJson(res)])
  }

  /** How a JSON:API server reads a single-resource document: `data` must
      be an object with a string `type`, an optional string `id` and an
      object `attributes`. */
  function ResourceOf(doc: Json): Option<JsonApiResource> {
    match Get(doc, "data")
    case Some(JObj(data)) =>
      if "type" in data && data["type"].JStr? && "attributes" in data && data["attributes"].JObj?
         && ("id" in data ==> data["id"].JStr?)
      then Some(JsonApiResource(
        if "id" in data then Some(data["id"].s) else None,
        data["type"].s,
        data["attributes"].fields))
      else None
    case _ => None
  }

  /** Every document the services send reads back as the resource it was
      built from. */
  lemma EnvelopeRoundTrip(res: JsonApiResource)
    ensures ResourceOf(Envelope(res)) == Some(res)
  {
    var fields := ResourceJson(res).fields;
    assert "type" in fields && "attributes" in fields;
    assert "id" in fields <==> res.id.Some?;
  }

  // ---------------------------------------------------------------------
  // Unwrapping responses
  // ---------------------------------------------------------------------

  /** The attributes object of a resource, or nothing to spread. */
  function AttributesOf(p: Json): map<string, Json> {
    if p.JObj? && "attributes" in p.fields && p.fields["attributes"].JObj? then p.fields["attributes"].fields
    else map[]
  }

  /** `{id: p.id, ...p.attributes}`: reading `id` off `null` throws; an
      attribute named `id` overrides the resource's. */
  function Flatten(p: Json): (r: Result<Record>)
    ensures r.Err? <==> p == JNull
    ensures r.Err? ==> r.message == CannotRead("null", "id")
    ensures r.Ok? ==> forall k :: k in r.value <==> k in AttributesOf(p) || (k == "id" && Get(p, "id").Some?)
    ensures r.Ok? ==> forall k :: k in AttributesOf(p) ==> r.value[k] == AttributesOf(p)[k]
    ensures r.Ok? && Get(p, "id").Some? && "id" !in AttributesOf(p) ==> r.value["id"] == Get(p, "id").value
  {
    if p == JNull then Err(CannotRead("null", "id"))
    else
      var id := if p.JObj? && "id" in p.fields then map["id" := p.fields["id"]] else map[];
      Ok(id + AttributesOf(p))
  }

  /** `items.map(flatten)`: every item flattened in order, or the error of
      the first `null`. */
  function FlattenAll(items: seq<Json>): (r: Result<seq<Record>>)
    ensures r.Ok? <==> JNull !in items
    ensures r.Ok? ==> |r.value| == |items|
    ensures r.Err? ==> r.message == CannotRead("null", "id")
  {
    if items == [] then Ok([])
    else
      var head :- Flatten(items[0]);
      var tail :- FlattenAll(items[1..]);
      Ok([head] + tail)
  }

  /** The i-th record is the i-th item flattened. */
  lemma {:induction false} FlattenAllAt(items: seq<Json>, i: nat)
    requires FlattenAll(items).Ok? && i < |items|
    ensures Flatten(items[i]) == Ok(FlattenAll(items).value[i])
  {
    if i > 0 {
      assert JNull !in items[1..];
      FlattenAllAt(items[1..], i - 1);
    }
  }

  /** Flattening works item by item, so two pages flatten to the two
      flattened pages, in order. */
  lemma {:induction false} FlattenAllConcat(a: seq<Json>, b: seq<Json>)
    requires FlattenAll(a).Ok? && FlattenAll(b).Ok?
    ensures FlattenAll(a + b) == Ok(FlattenAll(a).value + FlattenAll(b).value)
  {
    if a == [] {
      assert a + b == b;
      assert [] + FlattenAll(b).value == FlattenAll(b).value;
    } else {
      var ab, rest := a + b, a[1..];
      assert ab[0] == a[0] && ab[1..] == rest + b;
      assert JNull !in rest;
      FlattenAllConcat(rest, b);
      var head, fr, fb := Flatten(a[0]).value, FlattenAll(rest).value, FlattenAll(b).value;
      assert FlattenAll(a).value == [head] + fr;
      assert FlattenAll(ab).value == [head] + (fr + fb);
      assert [head] + (fr + fb) == ([head] + fr) + fb;
    }
  }

  /** `res.data.map(...)` on a list document. */
  function UnwrapList(res: Json): (r: Result<seq<Record>>)
    ensures res.JNull? ==> r == Err(CannotRead("null", "data"))
    ensures !res.JNull? && Get(res, "data") == None ==> r == Err(CannotRead("undefined", "map"))
    ensures Get(res, "data") == Some(JNull) ==> r == Err(CannotRead("null", "map"))
    ensures Get(res, "data").Some? && Get(res, "data").value.JArr? ==> r == FlattenAll(Get(res, "data").value.items)
    ensures Get(res, "data").Some? && !Get(res, "data").value.JArr? && !Get(res, "data").value.JNull? ==>
      r == Err("res.data.map is not a function")
    ensures r.Ok? ==> Get(res, "data").Some? && Get(res, "data").value.JArr?
  {
    if res.JNull? then Err(CannotRead("null", "data"))
    else match Get(res, "data")
      case None => Err(CannotRead("undefined", "map"))
      case Some(JNull) => Err(CannotRead("null", "map"))
      case Some(JArr(items)) => FlattenAll(items)
      case Some(_) => Err("res.data.map is not a function")
  }

  /** `{id: res.data.id, ...res.data.attributes}` on a single-resource
      document. */
  function UnwrapOne(res: Json): (r: Result<Record>)
    ensures res.JNull? ==> r == Err(CannotRead("null", "data"))
    ensures !res.JNull? && Get(res, "data") == None ==> r == Err(CannotRead("undefined", "id"))
    ensures Get(res, "data").Some? ==> r == Flatten(Get(res, "data").value)
  {
    if res.JNull? then Err(CannotRead("null", "data"))
    else match Get(res, "data")
      case None => Err(CannotRead("undefined", "id"))
      case Some(data) => Flatten(data)
  }

  /** A document echoing a resource unwraps to `{id, ...attributes}`. */
  lemma UnwrapOneEnvelope(res: JsonApiResource)
    ensures res.id.Some? ==> UnwrapOne(Envelope(res)) == Ok(map["id" := JStr(res.id.value)] + res.attributes)
    ensures res.id.None? ==> UnwrapOne(Envelope(res)) == Ok(res.attributes)
  {
    var p := ResourceJson(res);
    assert Get(Envelope(res), "data") == Some(p);
    assert AttributesOf(p) == res.attributes;
    assert "id" in p.fields <==> res.id.Some?;
    if res.id.None? {
      assert map[] + res.attributes == res.attributes;
    }
  }

  /** A 204 answer (`{}`) has no `data`, so unwrapping it throws. */
  lemma NoContentDoesNotUnwrap()
    ensures UnwrapOne(JObj(map[])) == Err(CannotRead("undefined", "id"))
    ensures UnwrapList(JObj(map[])) == Err(CannotRead("undefined", "map"))
  {
  }

  /** `res.data`, which throws on a `null` document. */
  function ReadData(res: Json): (r: Result<Option<Json>>)
    ensures r.Err? <==> res.JNull?
    ensures r.Ok? ==> r.value == Get(res, "data")
  {
    if res.JNull? then Err(CannotRead("null", "data")) else Ok(Get(res, "data"))
  }

  /** The one-character strings a string spreads into. */
  function Characters(s: string): (r: seq<Json>)
    ensures |r| == |s|
    ensures forall i :: 0 <= i < |s| ==> r[i] == JStr([s[i]])
  {
    if s == [] then [] else [JStr([s[0]])] + Characters(s[1..])
  }

  /** `[...(data || [])]`: a falsy value spreads to nothing, an array to its
      items, a string to its characters; anything else is not iterable. */
  function SpreadData(data: Option<Json>): (r: Result<seq<Json>>)
    ensures !Present(data) ==> r == Ok([])
    ensures data.Some? && data.value.JArr? ==> r == Ok(data.value.items)
    ensures data.Some? && data.value.JStr? ==> r == Ok(Characters(data.value.s))
    ensures r.Err? <==> Present(data) && !data.value.JArr? && !data.value.JStr?
  {
    if !Present(data) then Ok([])
    else match data.value
      case JArr(items) => Ok(items)
      case JStr(s) => Ok(Characters(s))
      case _ => Err("data is not iterable")
  }

  /** The body of the `try` in the people listing, up to the name filter:
      both pages must have been fetched; their `data` (or nothing) are
      concatenated and flattened. */
  function CombinePages(page1: Result<Json>, page2: Result<Json>): Result<seq<Record>> {
    var res1 :- page1;
    var res2 :- page2;
    var data1 :- ReadData(res1);
    var data2 :- ReadData(res2);
    var items1 :- SpreadData(data1);
    var items2 :- SpreadData(data2);
    FlattenAll(items1 + items2)
  }

  /** A list document with the given resources. */
  function ListDocument(items: seq<Json>): Json {
    JObj(map["data" := JArr(items)])
  }

  /** Two well-formed pages give page 1's people then page 2's, flattened. */
  lemma CombinePagesInOrder(items1: seq<Json>, items2: seq<Json>)
    requires FlattenAll(items1).Ok? && FlattenAll(items2).Ok?
    ensures CombinePages(Ok(ListDocument(items1)), Ok(ListDocument(items2)))
      == Ok(FlattenAll(items1).value + FlattenAll(items2).value)
  {
    FlattenAllConcat(items1, items2);
  }

  /** A page without `data` counts as empty. */
  lemma CombinePagesMissingData(items2: seq<Json>)
    ensures CombinePages(Ok(JObj(map[])), Ok(ListDocument(items2))) == FlattenAll(items2)
  {
    assert [] + items2 == items2;
  }

  /** A failed page request sends the listing to the fallback. */
  lemma CombinePagesFailure(page1: Result<Json>, page2: Result<Json>)
    requires page1.Err? || page2.Err?
    ensures CombinePages(page1, page2).Err?
  {
  }

  // ---------------------------------------------------------------------
  // Endpoints
  // ---------------------------------------------------------------------

  function PeoplePage(number: string): Endpoint {
    Endpoint("/people", [("page[size]", "50"), ("page[number]", number)])
  }

  const PeopleFallback: Endpoint := Endpoint("/people", [("page[size]", "50")])

  /** A template literal renders a missing value as "undefined". */
  function TemplateText(v: Option<string>): string {
    if v.Some? then v.value else "undefined"
  }

  function TaskHistoryEndpoint(taskId: Option<string>): Endpoint {
    Endpoint("/task-historics", [("filter[task_id]", TemplateText(taskId))])
  }

  /** The city name goes into the query only when it is truthy. */
  function CitiesEndpoint(filterName: Option<string>): (e: Endpoint)
    ensures e.path == "/cities"
    ensures e.query == [] <==> filterName.None? || filterName.value == ""
    ensures e.query != [] ==> e.query == [("filter[name]", filterName.value)]
  {
    if filterName.Some? && filterName.value != "" then Endpoint("/cities", [("filter[name]", filterName.value)])
    else Endpoint("/cities", [])
  }

  /** The error of a failed request, or what `unwrap` makes of its body. */
  function Unwrapped<T>(res: Result<Json>, unwrap: Json -> Result<T>): Result<T> {
    if res.Ok? then unwrap(res.value) else Err(res.message)
  }

  // ---------------------------------------------------------------------
  // The services
  // ---------------------------------------------------------------------

  /** Both pages are requested (in parallel in the source, one after the
      other here). If both arrive and hold iterable data, the people of page
      1 then page 2 are returned, filtered by name when a truthy term is
      given. Otherwise page 1 alone is requested again and returned
      unfiltered, and its failure propagates. */
  method PeopleList(auth: AuthService, filterName: Option<string>)
    returns (r: Result<seq<Record>>, ghost page1: Result<Json>, ghost page2: Result<Json>, ghost fallback: Option<Result<Json>>,
             ghost first: Span, ghost second: Span)
    requires auth.Valid()
    modifies auth, auth.backend
    ensures auth.Valid()
    ensures old(auth.backend.fetchLog) <= auth.backend.fetchLog
    ensures auth.Cache() == AfterLogins(auth.backend, old(auth.backend.loginCalls), auth.backend.loginCalls, old(auth.Cache()))
    ensures first.lo == |old(auth.backend.fetchLog)| && first.c0 == old(auth.backend.loginCalls)
    ensures second.lo == first.hi && second.c0 == first.c1
    ensures Answered(auth.backend, auth.backend.fetchLog, first, old(auth.Cache()), PeoplePage("1"), GET, None, page1)
    ensures Answered(auth.backend, auth.backend.fetchLog, second, AfterLogins(auth.backend, first.c0, first.c1, old(auth.Cache())),
      PeoplePage("2"), GET, None, page2)
    ensures CombinePages(page1, page2).Ok? ==>
      && fallback == None
      && SinceThen(auth.backend, second.hi, second.c1) == Span(second.hi, second.hi, second.c1, second.c1)
      && r == Ok(ApplyNameFilter(CombinePages(page1, page2).value, filterName))
    ensures CombinePages(page1, page2).Err? ==>
      && fallback.Some?
      && Answered(auth.backend, auth.backend.fetchLog, SinceThen(auth.backend, second.hi, second.c1),
           AfterLogins(auth.backend, first.c0, second.c1, old(auth.Cache())), PeopleFallback, GET, None, fallback.value)
      && r == Unwrapped(fallback.value, UnwrapList)
  {
    ghost var c, cache := auth.backend.loginCalls, auth.Cache();
    var res1, res2;
    res1, res2, first, second := PeoplePages(auth);
    page1, page2 := res1, res2;
    var combined := CombinePages(res1, res2);
    if combined.Ok? {
      fallback := None;
      r := Ok(ApplyNameFilter(combined.value, filterName));
    } else {
      ghost var c2 := auth.backend.loginCalls;
      var res := PeopleFallbackAfter(auth, first, second, cache, AfterLogins(auth.backend, c, first.c1, cache), res1, res2);
      fallback := Some(res);
      r := Unwrapped(res, UnwrapList);
      AfterLoginsChain(auth.backend, c, c2, auth.backend.loginCalls, cache);
    }
  }

  /** The unpaged `/people` call made when the two pages do not combine;
      what the pages were answered stays as it was. */
  method PeopleFallbackAfter(auth: AuthService, ghost first: Span, ghost second: Span,
                             ghost cache1: TokenCache, ghost cache2: TokenCache,
                             ghost res1: Result<Json>, ghost res2: Result<Json>)
    returns (res: Result<Json>)
    requires auth.Valid()
    requires Answered(auth.backend, auth.backend.fetchLog, first, cache1, PeoplePage("1"), GET, None, res1)
    requires Answered(auth.backend, auth.backend.fetchLog, second, cache2, PeoplePage("2"), GET, None, res2)
    modifies auth, auth.backend
    ensures auth.Valid()
    ensures old(auth.backend.fetchLog) <= auth.backend.fetchLog
    ensures auth.Cache() == AfterLogins(auth.backend, old(auth.backend.loginCalls), auth.backend.loginCalls, old(auth.Cache()))
    ensures Answered(auth.backend, auth.backend.fetchLog, first, cache1, PeoplePage("1"), GET, None, res1)
    ensures Answered(auth.backend, auth.backend.fetchLog, second, cache2, PeoplePage("2"), GET, None, res2)
    ensures Answered(auth.backend, auth.backend.fetchLog, SinceThen(auth.backend, |old(auth.backend.fetchLog)|, old(auth.backend.loginCalls)), old(auth.Cache()),
      PeopleFallback, GET, None, res)
  {
    ghost var log := auth.backend.fetchLog;
    res := Request(auth, PeopleFallback, GET, None);
    AnsweredExtends(auth.backend, log, auth.backend.fetchLog, first, cache1, PeoplePage("1"), GET, None, res1);
    AnsweredExtends(auth.backend, log, auth.backend.fetchLog, second, cache2, PeoplePage("2"), GET, None, res2);
  }

  /** The first two pages of `/people`, one request after the other. */
  method PeoplePages(auth: AuthService)
    returns (res1: Result<Json>, res2: Result<Json>, ghost first: Span, ghost second: Span)
    requires auth.Valid()
    modifies auth, auth.backend
    ensures auth.Valid()
    ensures old(auth.backend.fetchLog) <= auth.backend.fetchLog
    ensures auth.Cache() == AfterLogins(auth.backend, old(auth.backend.loginCalls), auth.backend.loginCalls, old(auth.Cache()))
    ensures first.lo == |old(auth.backend.fetchLog)| && first.c0 == old(auth.backend.loginCalls)
    ensures second.lo == first.hi && second.c0 == first.c1
    ensures second == SinceThen(auth.backend, first.hi, first.c1)
    ensures Answered(auth.backend, auth.backend.fetchLog, first, old(auth.Cache()), PeoplePage("1"), GET, None, res1)
    ensures Answered(auth.backend, auth.backend.fetchLog, second, AfterLogins(auth.backend, first.c0, first.c1, old(auth.Cache())),
      PeoplePage("2"), GET, None, res2)
  {
    ghost var n, c, cache := |auth.backend.fetchLog|, auth.backend.loginCalls, auth.Cache();
    res1 := Request(auth, PeoplePage("1"), GET, None);
    first := SinceThen(auth.backend, n, c);
    ghost var log1 := auth.backend.fetchLog;
    res2 := Request(auth, PeoplePage("2"), GET, None);
    second := SinceThen(auth.backend, first.hi, first.c1);
    AfterLoginsChain(auth.backend, c, first.c1, second.c1, cache);
    AnsweredExtends(auth.backend, log1, auth.backend.fetchLog, first, cache, PeoplePage("1"), GET, None, res1);
  }

  /** `{data: {type: "people", attributes}}` is posted and the echoed
      resource flattened. */
  method PeopleCreate(auth: AuthService, attributes: map<string, Json>)
    returns (r: Result<Record>, ghost res: Result<Json>)
    requires auth.Valid()
    modifies auth, auth.backend
    ensures auth.Valid()
    ensures old(auth.backend.fetchLog) <= auth.backend.fetchLog
    ensures auth.Cache() == AfterLogins(auth.backend, old(auth.backend.loginCalls), auth.backend.loginCalls, old(auth.Cache()))
    ensures Answered(auth.backend, auth.backend.fetchLog, SinceThen(auth.backend, |old(auth.backend.fetchLog)|, old(auth.backend.loginCalls)), old(auth.Cache()),
      Endpoint("/people", []), POST,
      Some(Envelope(JsonApiResource(None, "people", attributes))), res)
    ensures r == Unwrapped(res, UnwrapOne)
  {
    var answer := Request(auth, Endpoint("/people", []), POST, Some(Envelope(JsonApiResource(None, "people", attributes))));
    res := answer;
    r := Unwrapped(answer, UnwrapOne);
  }

  /** `{data: {id, type: "people", attributes}}` is patched to the person's
      own path and the echoed resource flattened. */
  method PeopleUpdate(auth: AuthService, id: Option<string>, attributes: map<string, Json>)
    returns (r: Result<Record>, ghost res: Result<Json>)
    requires auth.Valid()
    modifies auth, auth.backend
    ensures auth.Valid()
    ensures old(auth.backend.fetchLog) <= auth.backend.fetchLog
    ensures auth.Cache() == AfterLogins(auth.backend, old(auth.backend.loginCalls), auth.backend.loginCalls, old(auth.Cache()))
    ensures Answered(auth.backend, auth.backend.fetchLog, SinceThen(auth.backend, |old(auth.backend.fetchLog)|, old(auth.backend.loginCalls)), old(auth.Cache()),
      Endpoint("/people/" + TemplateText(id), []), PATCH,
      Some(Envelope(JsonApiResource(id, "people", attributes))), res)
    ensures r == Unwrapped(res, UnwrapOne)
  {
    var answer := Request(auth, Endpoint("/people/" + TemplateText(id), []), PATCH, Some(Envelope(JsonApiResource(id, "people", attributes))));
    res := answer;
    r := Unwrapped(answer, UnwrapOne);
  }

  method TasksList(auth: AuthService) returns (r: Result<seq<Record>>, ghost res: Result<Json>)
    requires auth.Valid()
    modifies auth, auth.backend
    ensures auth.Valid()
    ensures old(auth.backend.fetchLog) <= auth.backend.fetchLog
    ensures auth.Cache() == AfterLogins(auth.backend, old(auth.backend.loginCalls), auth.backend.loginCalls, old(auth.Cache()))
    ensures Answered(auth.backend, auth.backend.fetchLog, SinceThen(auth.backend, |old(auth.backend.fetchLog)|, old(auth.backend.loginCalls)), old(auth.Cache()),
      Endpoint("/tasks", []), GET, None, res)
    ensures r == Unwrapped(res, UnwrapList)
  {
    var answer := Request(auth, Endpoint("/tasks", []), GET, None);
    res := answer;
    r := Unwrapped(answer, UnwrapList);
  }

  method TasksCreate(auth: AuthService, attributes: map<string, Json>)
    returns (r: Result<Record>, ghost res: Result<Json>)
    requires auth.Valid()
    modifies auth, auth.backend
    ensures auth.Valid()
    ensures old(auth.backend.fetchLog) <= auth.backend.fetchLog
    ensures auth.Cache() == AfterLogins(auth.backend, old(auth.backend.loginCalls), auth.backend.loginCalls, old(auth.Cache()))
    ensures Answered(auth.backend, auth.backend.fetchLog, SinceThen(auth.backend, |old(auth.backend.fetchLog)|, old(auth.backend.loginCalls)), old(auth.Cache()),
      Endpoint("/tasks", []), POST,
      Some(Envelope(JsonApiResource(None, "tasks", attributes))), res)
    ensures r == Unwrapped(res, UnwrapOne)
  {
    var answer := Request(auth, Endpoint("/tasks", []), POST, Some(Envelope(JsonApiResource(None, "tasks", attributes))));
    res := answer;
    r := Unwrapped(answer, UnwrapOne);
  }

  method TasksGetHistory(auth: AuthService, taskId: Option<string>)
    returns (r: Result<seq<Record>>, ghost res: Result<Json>)
    requires auth.Valid()
    modifies auth, auth.backend
    ensures auth.Valid()
    ensures old(auth.backend.fetchLog) <= auth.backend.fetchLog
    ensures auth.Cache() == AfterLogins(auth.backend, old(auth.backend.loginCalls), auth.backend.loginCalls, old(auth.Cache()))
    ensures Answered(auth.backend, auth.backend.fetchLog, SinceThen(auth.backend, |old(auth.backend.fetchLog)|, old(auth.backend.loginCalls)), old(auth.Cache()),
      TaskHistoryEndpoint(taskId), GET, None, res)
    ensures r == Unwrapped(res, UnwrapList)
  {
    var answer := Request(auth, TaskHistoryEndpoint(taskId), GET, None);
    res := answer;
    r := Unwrapped(answer, UnwrapList);
  }

  method CitiesList(auth: AuthService, filterName: Option<string>)
    returns (r: Result<seq<Record>>, ghost res: Result<Json>)
    requires auth.Valid()
    modifies auth, auth.backend
    ensures auth.Valid()
    ensures old(auth.backend.fetchLog) <= auth.backend.fetchLog
    ensures auth.Cache() == AfterLogins(auth.backend, old(auth.backend.loginCalls), auth.backend.loginCalls, old(auth.Cache()))
    ensures Answered(auth.backend, auth.backend.fetchLog, SinceThen(auth.backend, |old(auth.backend.fetchLog)|, old(auth.backend.loginCalls)), old(auth.Cache()),
      CitiesEndpoint(filterName), GET, None, res)
    ensures r == Unwrapped(res, UnwrapList)
  {
    var answer := Request(auth, CitiesEndpoint(filterName), GET, None);
    res := answer;
    r := Unwrapped(answer, UnwrapList);
  }
}
