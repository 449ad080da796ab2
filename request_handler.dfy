/**
 * The decisions of `FlowsheetServerHandler`: the tolerant query-string parser,
 * the routing of GET and PUT requests, and the status codes written for each
 * outcome. Writing to the socket is not modelled; a handler returns the response
 * it would write. The request target arrives already split into its path and
 * query components (what `urlparse` returns).
 */
module RequestHandler {
  import opened Common
  import opened Strings
  import opened ModelServer
  import opened CanonicalName

  /** A `name=value` token: it splits on `=` into exactly two parts. */
  predicate IsPair(token: string) {
    |Split(token, '=')| == 2
  }

  /** `token` is a pair whose name is `key`. */
  predicate HasKey(token: string, key: string) {
    IsPair(token) && Split(token, '=')[0] == key
  }

  /** Reference definition of a parameter's value: that of the last pair naming it. */
  function LastValue(tokens: seq<string>, key: string): (v: Option<string>)
    decreases |tokens|
  {
    if tokens == [] then None
    else
      var parts := Split(tokens[|tokens| - 1], '=');
      if |parts| == 2 && parts[0] == key then Some(parts[1])
      else LastValue(tokens[..|tokens| - 1], key)
  }

  /** The value a handler reads for `key`: `queries.get(key) if queries else None`
      applied to what `_parse_flowsheet_url` returns for the query string `query`. */
  function QueryParam(query: string, key: string): Option<string> {
    if query == "" then None else LastValue(Split(query, '&'), key)
  }

  /** `queries.get(key) if queries else None`. */
  function Lookup(queries: Option<map<string, string>>, key: string): Option<string> {
    if queries.Some? && key in queries.value then Some(queries.value[key]) else None
  }

  /** A parameter is present exactly when some `&`-token is a pair naming it, and its value is
      taken from the last such token: a later duplicate overrides an earlier one. */
  lemma {:induction false} LastValueSpec(tokens: seq<string>, key: string)
    ensures LastValue(tokens, key).None? <==> forall i :: 0 <= i < |tokens| ==> !HasKey(tokens[i], key)
    ensures LastValue(tokens, key).Some? ==>
              exists i :: 0 <= i < |tokens| && HasKey(tokens[i], key)
                       && LastValue(tokens, key).value == Split(tokens[i], '=')[1]
                       && forall j :: i < j < |tokens| ==> !HasKey(tokens[j], key)
    decreases |tokens|
  {
    if tokens != [] {
      var n := |tokens| - 1;
      var init := tokens[..n];
      LastValueSpec(init, key);
      assert forall i :: 0 <= i < n ==> init[i] == tokens[i];
      if !HasKey(tokens[n], key) && LastValue(init, key).Some? {
        var i :| 0 <= i < |init| && HasKey(init[i], key)
                 && LastValue(init, key).value == Split(init[i], '=')[1]
                 && forall j :: i < j < |init| ==> !HasKey(init[j], key);
        assert forall j :: i < j < |tokens| ==> !HasKey(tokens[j], key) by {
          forall j | i < j < |tokens| ensures !HasKey(tokens[j], key) {
            if j < n { assert tokens[j] == init[j]; }
          }
        }
      }
    }
  }

  /** `_parse_flowsheet_url` on the query component: no map at all for an empty query;
      otherwise one entry per `&`-token that splits on `=` into exactly two parts, a
      later token overriding an earlier one with the same name. */
  method ParseQuery(query: string) returns (queries: Option<map<string, string>>)
    ensures queries.None? <==> query == ""
    ensures queries.Some? ==> forall key :: key in queries.value <==> exists t :: t in Split(query, '&') && HasKey(t, key)
    ensures forall key :: Lookup(queries, key) == QueryParam(query, key)
  {
    if query == "" {
      return None;
    }
    var items := Split(query, '&');
    var m: map<string, string> := map[];
    var i := 0;
    while i < |items|
      invariant 0 <= i <= |items|
      invariant forall key :: Lookup(Some(m), key) == LastValue(items[..i], key)
    {
      var parts := Split(items[i], '=');
      if |parts| == 2 {
        m := m[parts[0] := parts[1]];
      }
      assert items[..i + 1][..i] == items[..i];
      i := i + 1;
    }
    assert items[..|items|] == items;
    forall key ensures key in m <==> exists t :: t in items && HasKey(t, key) {
      LastValueSpec(items, key);
    }
    return Some(m);
  }

  /** What `do_GET` does with a request, before any flowsheet work. */
  datatype GetRoute =
    | MissingParam(name: string)        // 400: a required query parameter is absent
    | AppPage(id: string)               // `_get_app`
    | FlowsheetGet(id: string)          // `_get_fs`
    | SettingGet(key: string)           // `_get_setting`
    | DiagnosticsGet(maybeId: Option<string>)// `_get_diagnostics`
    | StaticFile                        // `SimpleHTTPRequestHandler.do_GET`

  /** The routing of `do_GET`. */
  function RouteGet(path: string, query: string): (r: GetRoute)
    ensures r == MissingParam("id") <==> (path == "/app" || path == "/fs") && QueryParam(query, "id").None?
    ensures r == MissingParam("setting_key") <==> path == "/setting" && QueryParam(query, "setting_key").None?
    ensures r.MissingParam? ==> r.name == "id" || r.name == "setting_key"
    ensures r.AppPage? <==> path == "/app" && QueryParam(query, "id").Some?
    ensures r.FlowsheetGet? <==> path == "/fs" && QueryParam(query, "id").Some?
    ensures (r.AppPage? || r.FlowsheetGet?) ==> QueryParam(query, "id") == Some(r.id)
    ensures r.SettingGet? <==> path == "/setting" && QueryParam(query, "setting_key").Some?
    ensures r.SettingGet? ==> QueryParam(query, "setting_key") == Some(r.key)
    ensures r == StaticFile <==> path !in {"/app", "/fs", "/setting", "/diagnostics"}
  {
    var id := QueryParam(query, "id");
    if (path == "/app" || path == "/fs") && id.None? then MissingParam("id")
    else if path == "/app" then AppPage(id.value)
    else if path == "/fs" then FlowsheetGet(id.value)
    else if path == "/setting" then
      (match QueryParam(query, "setting_key")
       case None => MissingParam("setting_key")
       case Some(key) => SettingGet(key))
    else if path == "/diagnostics" then DiagnosticsGet(id)
    else StaticFile
  }

  /** What `do_PUT` does with a request. */
  datatype PutRoute =
    | MissingId                          // 400: `/fs` without `id`
    | FlowsheetPut(id: string)           // `_put_fs`
    | DiagnosticPut(maybeId: Option<string>)// `_put_diagnostic`
    | Ignored                            // any other path: nothing is written back

  /** The routing of `do_PUT`. */
  function RoutePut(path: string, query: string): (r: PutRoute)
    ensures r == MissingId <==> path == "/fs" && QueryParam(query, "id").None?
    ensures r.FlowsheetPut? <==> path == "/fs" && QueryParam(query, "id").Some?
    ensures r.FlowsheetPut? ==> QueryParam(query, "id") == Some(r.id)
    ensures r == Ignored <==> path != "/fs" && path != "/run_diagnostic"
  {
    var id := QueryParam(query, "id");
    if path == "/fs" && id.None? then MissingId
    else if path == "/fs" then FlowsheetPut(id.value)
    else if path == "/run_diagnostic" then DiagnosticPut(id)
    else Ignored
  }

  /** The body of a response. */
  datatype Body =
    | Message                      // an error page or a plain-text message
    | Flowsheet(doc: Json)         // the merged flowsheet, as JSON
    | Setting(value: Option<Json>) // `{"setting_value": value}`, with `null` for `None`
    | Page(id: string)             // the application page for flowsheet `id`

  /** What a handler leaves on the connection. */
  datatype Response =
    | Reply(code: int, body: Body)
    | NotModelled   // static files and diagnostics
    | Aborted       // an exception escaped the handler: no response is written
    | NoReply       // the handler wrote nothing

  /** `_get_fs`: the response for the outcome of `update_flowsheet`. */
  function FlowsheetGetResponse(r: Result<Json, Error>): (resp: Response)
    ensures r.Ok? <==> resp.Reply? && resp.code == 200
    ensures r.Ok? ==> resp.body == Flowsheet(r.value)
    ensures resp == Reply(404, Message) <==> r.Err? && r.error.FlowsheetUnknown?
    ensures resp == Reply(500, Message) <==> r.Err? && (r.error.IsFlowsheetNotFound() || r.error.ProcessingError?)
    ensures resp == Aborted <==> r.Err? && !r.error.FlowsheetUnknown? && !r.error.IsFlowsheetNotFound() && !r.error.ProcessingError?
  {
    match r
    case Ok(doc) => Reply(200, Flowsheet(doc))
    case Err(e) =>
      if e.FlowsheetUnknown? then Reply(404, Message)
      else if e.IsFlowsheetNotFound() || e.ProcessingError? then Reply(500, Message)
      else Aborted
  }

  /** `_put_fs`: the response for the outcome of `save_flowsheet`. */
  function FlowsheetPutResponse(r: Result<(), Error>): (resp: Response)
    ensures resp.Reply? && resp.body == Message
    ensures resp.code == 200 <==> r.Ok?
    ensures resp.code == 400 <==> r.Err? && r.error.ProcessingError?
    ensures resp.code == 500 <==> r.Err? && !r.error.ProcessingError?
  {
    match r
    case Ok(_) => Reply(200, Message)
    case Err(e) => if e.ProcessingError? then Reply(400, Message) else Reply(500, Message)
  }

  /** A GET of `/fs` always gets an answer: 200, 404 or 500, never an escaped exception. */
  lemma FlowsheetGetAlwaysAnswered<Obj>(c: Collaborators<Obj>, flowsheets: map<Id, Obj>, stores: map<Id, DataStore>, id: Id)
    ensures var resp := FlowsheetGetResponse(Reconcile(c, flowsheets, stores, id).result);
            resp.Reply? && resp.code in {200, 404, 500}
  {
  }

  /** A PUT of `/fs` is answered 200 or 400: every failure of `save_flowsheet` is a `ProcessingError`. */
  lemma FlowsheetPutNeverServerError<Obj>(c: Collaborators<Obj>, stores: map<Id, DataStore>, id: Id, body: string)
    ensures FlowsheetPutResponse(Save(c, stores, id, Text(body)).result).code in {200, 400}
  {
  }

  /** `do_GET` for a request whose path component is `path` and query component `query`. */
  method DoGet<Obj>(server: FlowsheetServer<Obj>, path: string, query: string) returns (resp: Response)
    requires server.Valid()
    modifies server`stores
    ensures server.Valid()
    ensures match RouteGet(path, query)
      case MissingParam(_) => resp == Reply(400, Message) && server.stores == old(server.stores)
      case AppPage(id) => resp == Reply(200, Page(id)) && server.stores == old(server.stores)
      case FlowsheetGet(id) =>
        var e := Reconcile(server.collab, server.flowsheets, old(server.stores), id);
        resp == FlowsheetGetResponse(e.result) && server.stores == e.stores
      case SettingGet(key) => resp == Reply(200, Setting(server.GetSetting(key))) && server.stores == old(server.stores)
      case DiagnosticsGet(_) => resp == NotModelled && server.stores == old(server.stores)
      case StaticFile => resp == NotModelled && server.stores == old(server.stores)
    ensures RouteGet(path, query).FlowsheetGet? && !IsCanonical(RouteGet(path, query).id) ==> resp == Reply(404, Message)
  {
    var queries := ParseQuery(query);
    var id := Lookup(queries, "id");
    if (path == "/app" || path == "/fs") && id.None? {
      return Reply(400, Message);
    }
    if path == "/app" {
      resp := Reply(200, Page(id.value));
    } else if path == "/fs" {
      var merged := server.UpdateFlowsheet(id.value);
      resp := FlowsheetGetResponse(merged);
    } else if path == "/setting" {
      var key := Lookup(queries, "setting_key");
      if key.None? {
        return Reply(400, Message);
      }
      resp := Reply(200, Setting(server.GetSetting(key.value)));
    } else {
      resp := NotModelled;
    }
  }

  /** `do_PUT` for a request with path `path`, query `query` and body text `body`. */
  method DoPut<Obj>(server: FlowsheetServer<Obj>, path: string, query: string, body: string) returns (resp: Response)
    requires server.Valid()
    modifies server`stores
    ensures server.Valid()
    ensures match RoutePut(path, query)
      case MissingId => resp == Reply(400, Message) && server.stores == old(server.stores)
      case FlowsheetPut(id) =>
        var e := Save(server.collab, old(server.stores), id, Text(body));
        resp == FlowsheetPutResponse(e.result) && server.stores == e.stores
      case DiagnosticPut(_) => resp == NotModelled && server.stores == old(server.stores)
      case Ignored => resp == NoReply && server.stores == old(server.stores)
  {
    var queries := ParseQuery(query);
    var id := Lookup(queries, "id");
    if path == "/fs" && id.None? {
      return Reply(400, Message);
    }
    if path == "/fs" {
      var saved := server.SaveFlowsheet(id.value, Text(body));
      resp := FlowsheetPutResponse(saved);
    } else if path == "/run_diagnostic" {
      resp := NotModelled;
    } else {
      resp := NoReply;
    }
  }
}
