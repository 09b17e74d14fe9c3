/**
 * web/src/api/index.js: the browser's API layer. Each resource has a getAll that builds
 * its query string by successive appends, per-id URLs, and a method per HTTP verb; every
 * reply goes through handleResponse. fetch itself is not modelled: a reply is an input.
 */
module WebApi {
  import opened Wrappers
  import opened Strings
  import opened JsValues

  datatype Resource = Servers | Destinations | Tasks | Logs

  function ResourcePath(res: Resource): (r: string)
    ensures HasPrefix(r, "/api/")
  {
    match res
    case Servers => "/api/servers"
    case Destinations => "/api/destinations"
    case Tasks => "/api/tasks"
    case Logs => "/api/logs"
  }

  /** A getAll call's `params` object; an absent property is Undefined, and `{}` is the default. */
  datatype ListParams = ListParams(enabled: JsValue, taskId: JsValue, page: JsValue, pageSize: JsValue)

  datatype Param = Param(key: string, value: string)

  /** URLSearchParams.toString, without the percent-encoding of keys and values. */
  function QueryString(q: seq<Param>): (r: string)
    ensures r == "" <==> q == []
  {
    if q == [] then ""
    else
      var first := q[0].key + "=" + q[0].value;
      assert first[|q[0].key|] == '=';
      if |q| == 1 then first else first + "&" + QueryString(q[1..])
  }

  /** The request URL: the resource path, then "?" and the query exactly when there is one. */
  function ListUrl(res: Resource, q: seq<Param>): (r: string)
    ensures r == ResourcePath(res) <==> q == []
    ensures q != [] ==> r == ResourcePath(res) + "?" + QueryString(q)
  {
    var qs := QueryString(q);
    if qs != "" then ResourcePath(res) + "?" + qs else ResourcePath(res)
  }

  /** The condition under which getAll of `res` appends a key; keys a getAll does not know are never sent. */
  predicate Sends(res: Resource, key: string, p: ListParams) {
    if key == "enabled" then res == Servers && p.enabled != Undefined
    else if key == "task_id" then res == Logs && Truthy(p.taskId)
    else if key == "page" then Truthy(p.page)
    else if key == "page_size" then Truthy(p.pageSize)
    else false
  }

  function ValueOf(key: string, p: ListParams): JsValue {
    if key == "enabled" then p.enabled
    else if key == "task_id" then p.taskId
    else if key == "page" then p.page
    else p.pageSize
  }

  /** The order of the appends. */
  const KeyOrder: seq<string> := ["enabled", "task_id", "page", "page_size"]

  /** The query getAll of `res` builds: the keys it sends, in the order of KeyOrder. */
  function QueryFor(res: Resource, p: ListParams): seq<Param> {
    QueryFrom(res, p, KeyOrder)
  }

  /** The one append a key may cause. */
  function Entry(res: Resource, p: ListParams, key: string): seq<Param> {
    if Sends(res, key, p) then [Param(key, ToJsString(ValueOf(key, p)))] else []
  }

  function QueryFrom(res: Resource, p: ListParams, keys: seq<string>): seq<Param> {
    if keys == [] then [] else Entry(res, p, keys[0]) + QueryFrom(res, p, keys[1..])
  }

  lemma QueryForUnfold(res: Resource, p: ListParams)
    ensures QueryFor(res, p)
      == Entry(res, p, "enabled") + Entry(res, p, "task_id") + Entry(res, p, "page") + Entry(res, p, "page_size")
  {
    var k1 := KeyOrder[1..];
    var k2 := k1[1..];
    var k3 := k2[1..];
    assert KeyOrder[0] == "enabled" && k1[0] == "task_id" && k2[0] == "page" && k3 == ["page_size"];
    assert k3[1..] == [];
    var e0, e1, e2, e3 := Entry(res, p, "enabled"), Entry(res, p, "task_id"), Entry(res, p, "page"), Entry(res, p, "page_size");
    assert QueryFrom(res, p, k3) == e3 + [];
    assert QueryFrom(res, p, k2) == e2 + e3;
    assert QueryFrom(res, p, k1) == e1 + (e2 + e3);
    assert QueryFrom(res, p, KeyOrder) == e0 + (e1 + (e2 + e3));
  }

  /** The keys of QueryFrom come from `keys`, in its order, each exactly when it is sent. */
  lemma {:induction false} QueryFromContents(res: Resource, p: ListParams, keys: seq<string>)
    ensures forall k :: k in keys && Sends(res, k, p) ==> Param(k, ToJsString(ValueOf(k, p))) in QueryFrom(res, p, keys)
    ensures forall x :: x in QueryFrom(res, p, keys) ==> x.key in keys && Sends(res, x.key, p) && x.value == ToJsString(ValueOf(x.key, p))
    ensures |QueryFrom(res, p, keys)| <= |keys|
  {
    if keys != [] {
      QueryFromContents(res, p, keys[1..]);
    }
  }

  function Keys(q: seq<Param>): seq<string> {
    if q == [] then [] else [q[0].key] + Keys(q[1..])
  }

  /** The keys of `keys` that are sent, in their order. */
  function SentKeys(res: Resource, p: ListParams, keys: seq<string>): seq<string> {
    if keys == [] then []
    else if Sends(res, keys[0], p) then [keys[0]] + SentKeys(res, p, keys[1..])
    else SentKeys(res, p, keys[1..])
  }

  lemma {:induction false} KeysAppend(a: seq<Param>, b: seq<Param>)
    ensures Keys(a + b) == Keys(a) + Keys(b)
  {
    if a == [] {
      assert a + b == b;
    } else {
      assert (a + b)[0] == a[0] && (a + b)[1..] == a[1..] + b;
      KeysAppend(a[1..], b);
      assert [a[0].key] + (Keys(a[1..]) + Keys(b)) == ([a[0].key] + Keys(a[1..])) + Keys(b);
    }
  }

  /** The query's keys are exactly the sent keys, in the order they are tried. */
  lemma {:induction false} QueryFromKeys(res: Resource, p: ListParams, keys: seq<string>)
    ensures Keys(QueryFrom(res, p, keys)) == SentKeys(res, p, keys)
  {
    if keys != [] {
      QueryFromKeys(res, p, keys[1..]);
      KeysAppend(Entry(res, p, keys[0]), QueryFrom(res, p, keys[1..]));
    }
  }

  /**
   * What each getAll sends: a key is in the query exactly when its condition holds, with
   * String(value) as its value, and the keys come in the order enabled, task_id, page,
   * page_size.
   */
  lemma QueryForContents(res: Resource, p: ListParams)
    ensures forall k :: k in KeyOrder ==> (Sends(res, k, p) <==> Param(k, ToJsString(ValueOf(k, p))) in QueryFor(res, p))
    ensures forall x :: x in QueryFor(res, p) ==> Sends(res, x.key, p) && x.value == ToJsString(ValueOf(x.key, p))
    ensures Keys(QueryFor(res, p)) == SentKeys(res, p, KeyOrder)
  {
    QueryFromContents(res, p, KeyOrder);
    QueryFromKeys(res, p, KeyOrder);
  }

  /** With every parameter set, servers send enabled, page, page_size and logs send task_id, page, page_size. */
  lemma FullQueryKeyOrder(p: ListParams)
    requires Truthy(p.enabled) && Truthy(p.taskId) && Truthy(p.page) && Truthy(p.pageSize)
    ensures Keys(QueryFor(Servers, p)) == ["enabled", "page", "page_size"]
    ensures Keys(QueryFor(Logs, p)) == ["task_id", "page", "page_size"]
    ensures Keys(QueryFor(Tasks, p)) == ["page", "page_size"]
  {
    QueryFromKeys(Servers, p, KeyOrder);
    QueryFromKeys(Logs, p, KeyOrder);
    QueryFromKeys(Tasks, p, KeyOrder);
    var k1 := KeyOrder[1..];
    var k2 := k1[1..];
    var k3 := k2[1..];
    assert KeyOrder[0] == "enabled" && k1[0] == "task_id" && k2[0] == "page" && k3 == ["page_size"];
    assert k3[1..] == [];
    forall res: Resource
      ensures SentKeys(res, p, k2) == ["page", "page_size"]
    {
      assert SentKeys(res, p, k3) == ["page_size"];
    }
    assert SentKeys(Servers, p, KeyOrder) == ["enabled"] + SentKeys(Servers, p, k2);
    assert SentKeys(Logs, p, KeyOrder) == ["task_id"] + SentKeys(Logs, p, k2);
    assert SentKeys(Tasks, p, KeyOrder) == SentKeys(Tasks, p, k2);
  }

  /** `enabled: false` is still sent for servers, while `page: 0` and `page: ""` are dropped. */
  lemma FalsyFiltersDiffer(p: ListParams)
    requires p.enabled == Bool(false) && (p.page == Number(0) || p.page == Str(""))
    ensures Sends(Servers, "enabled", p) && !Sends(Servers, "page", p)
    ensures !Sends(Tasks, "enabled", p) && !Sends(Destinations, "enabled", p)
  {
  }

  /** With `{}`, every getAll asks for the bare resource path. */
  lemma DefaultParamsSendNothing(res: Resource)
    ensures ListUrl(res, QueryFor(res, ListParams(Undefined, Undefined, Undefined, Undefined))) == ResourcePath(res)
  {
  }

  /** The getAll functions: `query.append` for each key whose condition holds, then the URL. */
  method GetAllUrl(res: Resource, p: ListParams) returns (url: string)
    ensures url == ListUrl(res, QueryFor(res, p))
  {
    var query: seq<Param> := [];
    if res == Servers && p.enabled != Undefined {
      query := query + [Param("enabled", ToJsString(p.enabled))];
    }
    assert query == Entry(res, p, "enabled");
    if res == Logs && Truthy(p.taskId) {
      query := query + [Param("task_id", ToJsString(p.taskId))];
    }
    assert query == Entry(res, p, "enabled") + Entry(res, p, "task_id");
    if Truthy(p.page) {
      query := query + [Param("page", ToJsString(p.page))];
    }
    assert query == Entry(res, p, "enabled") + Entry(res, p, "task_id") + Entry(res, p, "page");
    if Truthy(p.pageSize) {
      query := query + [Param("page_size", ToJsString(p.pageSize))];
    }
    QueryForUnfold(res, p);
    assert query == QueryFor(res, p);
    var queryString := QueryString(query);
    url := if queryString != "" then ResourcePath(res) + "?" + queryString else ResourcePath(res);
  }

  datatype HttpMethod = GET | POST | PUT | DELETE

  /** A request: verb, URL, whether the JSON content type is declared, and the JSON body. */
  datatype Request = Request(verb: HttpMethod, url: string, jsonHeader: bool, body: Option<string>)

  /** The calls of the API objects; `data` is given already passed through JSON.stringify. */
  datatype Call =
    | GetAll(params: ListParams)
    | GetById(id: string)
    | Create(data: string)
    | Update(id: string, data: string)
    | Remove(id: string)
    | Execute(id: string)

  /** Which calls each API object has: logs only lists, and only tasks can be executed. */
  predicate Offers(res: Resource, c: Call) {
    if res == Logs then c.GetAll?
    else if c.Execute? then res == Tasks
    else true
  }

  /** The request a call sends, or None when that API object has no such call. */
  function RequestFor(res: Resource, c: Call): (r: Option<Request>)
    ensures r.Some? <==> Offers(res, c)
    ensures r.Some? ==> HasPrefix(r.value.url, ResourcePath(res))
    ensures r.Some? ==> (r.value.verb == GET <==> c.GetAll? || c.GetById?)
    ensures r.Some? ==> (r.value.body.Some? <==> c.Create? || c.Update?)
    ensures r.Some? ==> (r.value.jsonHeader <==> c.Create? || c.Update? || c.Execute?)
  {
    if !Offers(res, c) then None
    else
      var base := ResourcePath(res);
      var req := match c
        case GetAll(p) => Request(GET, ListUrl(res, QueryFor(res, p)), false, None)
        case GetById(id) => Request(GET, base + "/" + id, false, None)
        case Create(data) => Request(POST, base, true, Some(data))
        case Update(id, data) => Request(PUT, base + "/" + id, true, Some(data))
        case Remove(id) => Request(DELETE, base + "/" + id, false, None)
        case Execute(id) => Request(POST, base + "/" + id + "/execute", true, None);
      assert req.url[..|base|] == base;
      Some(req)
  }

  /** Create and Update send the same body; Update and Remove address the same record URL, by PUT and DELETE. */
  lemma UpdateAndRemoveShareUrl(res: Resource, id: string, data: string)
    requires res != Logs
    ensures RequestFor(res, Update(id, data)).value.url == RequestFor(res, Remove(id)).value.url
    ensures RequestFor(res, Update(id, data)).value.verb == PUT && RequestFor(res, Remove(id)).value.verb == DELETE
    ensures RequestFor(res, Update(id, data)).value.body == RequestFor(res, Create(data)).value.body == Some(data)
  {
  }

  /** The body of a reply: its `error` property, as JSON.parse gives it, stands for the whole object. */
  datatype JsonBody = JsonBody(error: JsValue, raw: string)

  /** response.json(): the parsed body, or the SyntaxError it throws (its message). */
  datatype Parse = Parsed(body: JsonBody) | ParseError(message: string)

  datatype Response = Response(ok: bool, status: int, json: Parse)

  /** A settled promise. */
  datatype Outcome = Resolved(value: JsonBody) | Rejected(message: string)

  function HttpStatusMessage(status: int): (r: string)
    ensures HasPrefix(r, "HTTP ")
  {
    var m := "HTTP " + IntToString(status);
    assert m[..5] == "HTTP ";
    m
  }

  /**
   * handleResponse. A failure throws `data.error || "HTTP <status>"`; the catch rethrows
   * any error with a non-empty message, the parse error included, and otherwise throws
   * "HTTP <status>".
   */
  function HandleResponse(r: Response): (o: Outcome)
    ensures r.ok && r.json.Parsed? ==> o == Resolved(r.json.body)
    ensures r.ok && r.json.ParseError? ==> o == Rejected(r.json.message)
    ensures !r.ok ==> o.Rejected? && o.message != ""
    ensures !r.ok && r.json.Parsed? && Truthy(r.json.body.error) && ToJsString(r.json.body.error) != "" ==>
      o.message == ToJsString(r.json.body.error)
    ensures !r.ok && r.json.Parsed? && !Truthy(r.json.body.error) ==> o.message == HttpStatusMessage(r.status)
    ensures !r.ok && r.json.ParseError? && r.json.message != "" ==> o.message == r.json.message
  {
    if r.ok then
      match r.json
      case Parsed(body) => Resolved(body)
      case ParseError(m) => Rejected(m)
    else
      var thrown := match r.json
        case Parsed(body) => if Truthy(body.error) then ToJsString(body.error) else HttpStatusMessage(r.status)
        case ParseError(m) => m;
      if thrown != "" then Rejected(thrown) else Rejected(HttpStatusMessage(r.status))
  }

  /** The last fallback is reached from a parsed body too: an empty array as `error` is truthy but prints as "". */
  lemma EmptyArrayErrorFallsBackToStatus(status: int, raw: string)
    ensures HandleResponse(Response(false, status, Parsed(JsonBody(Arr([]), raw)))) == Rejected(HttpStatusMessage(status))
  {
  }

  /** A failed request is rejected with the same message whether its body is `{}` or `{"error": ""}`. */
  lemma MissingAndEmptyErrorAgree(status: int, raw1: string, raw2: string)
    ensures HandleResponse(Response(false, status, Parsed(JsonBody(Undefined, raw1))))
         == HandleResponse(Response(false, status, Parsed(JsonBody(Str(""), raw2))))
  {
  }
}
