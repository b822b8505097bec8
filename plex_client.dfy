/** The request executors and the operation table of `plex-client.ts`.

    An executor builds one authenticated request (base URL of its host + path, the four
    Plex headers), hands it to the HTTP transport and classifies what comes back. The
    transport is not run here: its answer is an input, `Outcome`, and an executor is a
    function from that answer to the request it sent and the result it produced. */
module PlexClient {
  import opened Wrappers
  import opened Text
  import opened Json
  import opened Errors
  import opened PlexConfig
  import PlexServer
  import PlexTv

  const PlexTvBase: string := "https://plex.tv"

  datatype Header = Header(name: string, value: string)

  datatype Request = Request(verb: Method, url: string, headers: seq<Header>)

  /** What reading the response body gives: nothing (the read failed), or its text and,
      when the text is well-formed JSON, the parsed value. */
  datatype Body = Unreadable(reason: string) | Readable(text: string, json: Option<Json>)

  /** The transport's answer to a request. */
  datatype Outcome = NoResponse(reason: string) | Response(status: int, body: Body)

  /** The request one executor call sends, and the result it yields. */
  datatype Exchange<T> = Exchange(request: Request, result: Result<T, PlexApiError>)

  /** The headers set on every request, for both hosts. */
  function PlexHeaders(config: Config): (hs: seq<Header>)
    ensures |hs| == 4
    ensures hs[0] == Header("Accept", "application/json")
    ensures hs[1] == Header("X-Plex-Token", config.plexToken)
    ensures hs[2] == Header("X-Plex-Client-Identifier", config.clientIdentifier)
    ensures hs[3] == Header("X-Plex-Product", config.product)
  {
    [ Header("Accept", "application/json"),
      Header("X-Plex-Token", config.plexToken),
      Header("X-Plex-Client-Identifier", config.clientIdentifier),
      Header("X-Plex-Product", config.product) ]
  }

  /** A failure without a status: method, path and cause, nothing else. */
  function WrapError(verb: Method, path: string, cause: Cause): (e: PlexApiError)
    ensures WellFormed(e) && e.status.None? && e.body.None? && e.cause == Some(cause)
    ensures e.httpMethod == MethodName(verb) && e.path == path
  {
    PlexApiError(MethodName(verb), path, None, None, Some(cause))
  }

  /** The response text for an error status, `""` when the body cannot be read. */
  function ErrorBodyText(body: Body): (text: string)
    ensures body.Readable? ==> text == body.text
    ensures body.Unreadable? ==> text == ""
  {
    if body.Readable? then body.text else ""
  }

  /** The classification shared by the valued executors, once the request is sent:
      transport failure, error status (>= 400) with the body text, or the body decoded by
      the schema. */
  function Receive<T>(verb: Method, path: string, decode: Json -> Decoded<T>, outcome: Outcome): (r: Result<T, PlexApiError>)
    ensures outcome.NoResponse? ==> r == Err(WrapError(verb, path, RequestError(outcome.reason)))
    ensures outcome.Response? && outcome.status >= 400 ==>
      r == Err(PlexApiError(MethodName(verb), path, Some(outcome.status), Some(ErrorBodyText(outcome.body)), None))
    ensures outcome.Response? && outcome.status < 400 ==>
      && (r.Ok? <==> outcome.body.Readable? && outcome.body.json.Some? && decode(outcome.body.json.value).Ok?)
      && (r.Ok? ==> r.value == decode(outcome.body.json.value).value)
      && (r.Err? ==> r.error.status.None? && r.error.cause.Some? && !r.error.cause.value.RequestError?)
    ensures r.Err? ==> WellFormed(r.error) && r.error.httpMethod == MethodName(verb) && r.error.path == path
  {
    match outcome
    case NoResponse(reason) => Err(WrapError(verb, path, RequestError(reason)))
    case Response(status, body) =>
      if status >= 400 then
        Err(PlexApiError(MethodName(verb), path, Some(status), Some(ErrorBodyText(body)), None))
      else if body.Unreadable? then
        Err(WrapError(verb, path, ResponseError(body.reason)))
      else if body.json.None? then
        Err(WrapError(verb, path, ResponseError("body is not valid JSON")))
      else
        match decode(body.json.value)
        case Ok(v) => Ok(v)
        case Err(e) => Err(WrapError(verb, path, ParseError(e)))
  }

  /** `requestPlexTv`: the cloud host. */
  function RequestPlexTv<T>(verb: Method, path: string, decode: Json -> Decoded<T>, config: Config, outcome: Outcome): (x: Exchange<T>)
    ensures x.request.verb == verb && x.request.url == PlexTvBase + path
    ensures x.request.headers == PlexHeaders(config)
    ensures x.result == Receive(verb, path, decode, outcome)
  {
    Exchange(Request(verb, PlexTvBase + path, PlexHeaders(config)), Receive(verb, path, decode, outcome))
  }

  /** `requestServer`: the configured media server, its URL concatenated with the path. */
  function RequestServer<T>(verb: Method, path: string, decode: Json -> Decoded<T>, config: Config, outcome: Outcome): (x: Exchange<T>)
    ensures x.request.verb == verb && x.request.url == config.serverUrl + path
    ensures x.request.headers == PlexHeaders(config)
    ensures x.result == Receive(verb, path, decode, outcome)
  {
    Exchange(Request(verb, config.serverUrl + path, PlexHeaders(config)), Receive(verb, path, decode, outcome))
  }

  /** `requestServerVoid`: success is any status below 400, whatever the body; only
      `DELETE` is sent as such, every other method as `GET`. */
  function RequestServerVoid(verb: Method, path: string, config: Config, outcome: Outcome): (x: Exchange<()>)
    ensures x.request.verb == (if verb == DELETE then DELETE else GET)
    ensures x.request.url == config.serverUrl + path && x.request.headers == PlexHeaders(config)
    ensures x.result.Ok? <==> outcome.Response? && outcome.status < 400
    ensures outcome.NoResponse? ==> x.result == Err(WrapError(verb, path, RequestError(outcome.reason)))
    ensures outcome.Response? && outcome.status >= 400 ==>
      x.result == Err(PlexApiError(MethodName(verb), path, Some(outcome.status), Some(ErrorBodyText(outcome.body)), None))
  {
    var request := Request(if verb == DELETE then DELETE else GET, config.serverUrl + path, PlexHeaders(config));
    var result :=
      match outcome
      case NoResponse(reason) => Err(WrapError(verb, path, RequestError(reason)))
      case Response(status, body) =>
        if status >= 400 then Err(PlexApiError(MethodName(verb), path, Some(status), Some(ErrorBodyText(body)), None))
        else Ok(());
    Exchange(request, result)
  }

  // ---------------------------------------------------------------------------
  // The operation table (`PlexClientLive`)
  // ---------------------------------------------------------------------------

  /** A call of one of the client's operations, with its arguments. */
  datatype Call =
    | CreatePin
    | CheckPin(pinId: int)
    | GetUser
    | GetResources
    | GetFriends
    | GetHomeUsers
    | GetLibrarySections
    | GetLibraryItems(sectionId: string)
    | GetMetadata(ratingKey: string)
    | GetChildren(ratingKey: string)
    | GetAllLeaves(ratingKey: string)
    | GetHistory(minDate: Option<int>)
    | DeleteItem(ratingKey: string)

  /** The response schema an operation decodes its body with. */
  datatype ResponseSchema =
    | PinSchema | UserSchema | ResourcesSchema | FriendsSchema | HomeUsersSchema
    | LibrarySectionsSchema | LibraryItemsSchema | MetadataSchema | ChildrenSchema | LeavesSchema | HistorySchema

  /** Which executor an operation goes through; the executor fixes the host. */
  datatype Executor = PlexTvExecutor(schema: ResponseSchema) | ServerExecutor(schema: ResponseSchema) | ServerVoidExecutor

  datatype Host = Cloud | Server

  function HostOf(e: Executor): Host {
    if e.PlexTvExecutor? then Cloud else Server
  }

  function BaseUrl(h: Host, config: Config): string {
    if h == Cloud then PlexTvBase else config.serverUrl
  }

  /** An operation: method, executor (host and schema) and resolved path. */
  datatype Operation = Operation(verb: Method, executor: Executor, path: string)

  /** The successful result of any operation. */
  datatype Value =
    | PinValue(pin: PlexTv.Pin)
    | UserValue(user: PlexTv.User)
    | ResourcesValue(resources: seq<PlexTv.Resource>)
    | FriendsValue(friends: seq<PlexTv.Friend>)
    | HomeUsersValue(homeUsers: PlexTv.HomeUsersResponse)
    | LibrarySectionsValue(sections: PlexServer.LibrarySectionsResponse)
    | LibraryItemsValue(items: PlexServer.LibraryItemsResponse)
    | MetadataValue(metadata: PlexServer.MetadataResponse)
    | ChildrenValue(children: PlexServer.ChildrenResponse)
    | LeavesValue(leaves: PlexServer.LeavesResponse)
    | HistoryValue(history: PlexServer.HistoryResponse)
    | Deleted

  /** `getHistory`'s query: `?mindate=<n>` for any given number, zero included (the source
      tests `minDate != null`), nothing when no lower bound is given. */
  function HistoryParams(minDate: Option<int>): (q: string)
    ensures q == "" <==> minDate.None?
    ensures minDate.Some? ==> |q| > 9 && q[..9] == "?mindate=" && IsDecimal(q[9..]) && DecimalToInt(q[9..]) == minDate.value
  {
    if minDate.Some? then
      IntDecimalRoundTrip(minDate.value);
      var q := "?mindate=" + IntToDecimal(minDate.value);
      assert q[9..] == IntToDecimal(minDate.value);
      q
    else ""
  }

  function OperationFor(call: Call): Operation {
    match call
    case CreatePin => Operation(POST, PlexTvExecutor(PinSchema), "/api/v2/pins?strong=true")
    case CheckPin(pinId) => Operation(GET, PlexTvExecutor(PinSchema), "/api/v2/pins/" + IntToDecimal(pinId))
    case GetUser => Operation(GET, PlexTvExecutor(UserSchema), "/api/v2/user")
    case GetResources =>
      Operation(GET, PlexTvExecutor(ResourcesSchema), "/api/v2/resources?includeHttps=1&includeRelay=1&includeIPv6=1")
    case GetFriends => Operation(GET, PlexTvExecutor(FriendsSchema), "/api/v2/friends")
    case GetHomeUsers => Operation(GET, PlexTvExecutor(HomeUsersSchema), "/api/v2/home/users")
    case GetLibrarySections => Operation(GET, ServerExecutor(LibrarySectionsSchema), "/library/sections")
    case GetLibraryItems(sectionId) =>
      Operation(GET, ServerExecutor(LibraryItemsSchema), "/library/sections/" + sectionId + "/all")
    case GetMetadata(ratingKey) => Operation(GET, ServerExecutor(MetadataSchema), "/library/metadata/" + ratingKey)
    case GetChildren(ratingKey) =>
      Operation(GET, ServerExecutor(ChildrenSchema), "/library/metadata/" + ratingKey + "/children")
    case GetAllLeaves(ratingKey) =>
      Operation(GET, ServerExecutor(LeavesSchema), "/library/metadata/" + ratingKey + "/allLeaves")
    case GetHistory(minDate) =>
      Operation(GET, ServerExecutor(HistorySchema), "/status/sessions/history/all" + HistoryParams(minDate))
    case DeleteItem(ratingKey) => Operation(DELETE, ServerVoidExecutor, "/library/metadata/" + ratingKey)
  }

  /** The schema `s` maps the payload `j` to the value `v`. */
  ghost predicate Matches(s: ResponseSchema, j: Json, v: Value) {
    match s
    case PinSchema => v.PinValue? && PlexTv.IsPin(j, v.pin)
    case UserSchema => v.UserValue? && PlexTv.IsUser(j, v.user)
    case ResourcesSchema => v.ResourcesValue? && PlexTv.IsResources(j, v.resources)
    case FriendsSchema => v.FriendsValue? && PlexTv.IsFriends(j, v.friends)
    case HomeUsersSchema => v.HomeUsersValue? && PlexTv.IsHomeUsersResponse(j, v.homeUsers)
    case LibrarySectionsSchema => v.LibrarySectionsValue? && PlexServer.IsLibrarySectionsResponse(j, v.sections)
    case LibraryItemsSchema => v.LibraryItemsValue? && PlexServer.IsLibraryItemsResponse(j, v.items)
    case MetadataSchema => v.MetadataValue? && PlexServer.IsMetadataResponse(j, v.metadata)
    case ChildrenSchema => v.ChildrenValue? && PlexServer.IsChildrenResponse(j, v.children)
    case LeavesSchema => v.LeavesValue? && PlexServer.IsLeavesResponse(j, v.leaves)
    case HistorySchema => v.HistoryValue? && PlexServer.IsHistoryResponse(j, v.history)
  }

  /** The body decoder of a schema, its value tagged with the operation's result kind: it
      yields a value the schema maps the payload to, or fails when there is none. */
  function DecodeAs(s: ResponseSchema, j: Json): (r: Decoded<Value>)
    ensures r.Ok? ==> Matches(s, j, r.value)
    ensures r.Err? ==> forall v :: !Matches(s, j, v)
  {
    match s
    case PinSchema => var v :- PlexTv.DecodePin(j); Ok(PinValue(v))
    case UserSchema => var v :- PlexTv.DecodeUser(j); Ok(UserValue(v))
    case ResourcesSchema => var v :- PlexTv.DecodeResources(j); Ok(ResourcesValue(v))
    case FriendsSchema => var v :- PlexTv.DecodeFriends(j); Ok(FriendsValue(v))
    case HomeUsersSchema => var v :- PlexTv.DecodeHomeUsersResponse(j); Ok(HomeUsersValue(v))
    case LibrarySectionsSchema => var v :- PlexServer.DecodeLibrarySectionsResponse(j); Ok(LibrarySectionsValue(v))
    case LibraryItemsSchema => var v :- PlexServer.DecodeLibraryItemsResponse(j); Ok(LibraryItemsValue(v))
    case MetadataSchema => var v :- PlexServer.DecodeMetadataResponse(j); Ok(MetadataValue(v))
    case ChildrenSchema => var v :- PlexServer.DecodeChildrenResponse(j); Ok(ChildrenValue(v))
    case LeavesSchema => var v :- PlexServer.DecodeLeavesResponse(j); Ok(LeavesValue(v))
    case HistorySchema => var v :- PlexServer.DecodeHistoryResponse(j); Ok(HistoryValue(v))
  }

  /** Runs one operation through its executor, with its schema's decoder when it has one. */
  function Execute(op: Operation, config: Config, outcome: Outcome): Exchange<Value> {
    match op.executor
    case PlexTvExecutor(s) => RequestPlexTv(op.verb, op.path, (j: Json) => DecodeAs(s, j), config, outcome)
    case ServerExecutor(s) => RequestServer(op.verb, op.path, (j: Json) => DecodeAs(s, j), config, outcome)
    case ServerVoidExecutor =>
      var x := RequestServerVoid(op.verb, op.path, config, outcome);
      Exchange(x.request, if x.result.Ok? then Ok(Deleted) else Err(x.result.error))
  }

  /** One call of the client against the transport's answer `outcome`. */
  function Invoke(call: Call, config: Config, outcome: Outcome): Exchange<Value> {
    Execute(OperationFor(call), config, outcome)
  }

  // ---------------------------------------------------------------------------
  // Properties of the client
  // ---------------------------------------------------------------------------

  /** The table: the account operations go to plex.tv and the library operations to the
      configured server; only `createPin` posts, only `deleteItem` goes through the void
      executor, with DELETE. */
  lemma OperationTable(call: Call)
    ensures var op := OperationFor(call);
            && (HostOf(op.executor) == Cloud <==>
                 call.CreatePin? || call.CheckPin? || call.GetUser? || call.GetResources? || call.GetFriends? || call.GetHomeUsers?)
            && (op.verb == POST <==> call.CreatePin?)
            && (op.executor.ServerVoidExecutor? <==> call.DeleteItem?)
            && (op.executor.ServerVoidExecutor? ==> op.verb == DELETE)
  {
    match call
    case CreatePin =>
    case CheckPin(_) =>
    case GetUser =>
    case GetResources =>
    case GetFriends =>
    case GetHomeUsers =>
    case GetLibrarySections =>
    case GetLibraryItems(_) =>
    case GetMetadata(_) =>
    case GetChildren(_) =>
    case GetAllLeaves(_) =>
    case GetHistory(_) =>
    case DeleteItem(_) =>
  }

  /** Each valued operation decodes its body with the schema of its own result: the two
      pin calls share the pin schema, and every other call has a schema of its own. */
  lemma OperationSchemas(call: Call)
    ensures var op := OperationFor(call);
            && ((call.CreatePin? || call.CheckPin?) ==> op.executor.schema == PinSchema)
            && (call.GetUser? ==> op.executor.schema == UserSchema)
            && (call.GetResources? ==> op.executor.schema == ResourcesSchema)
            && (call.GetFriends? ==> op.executor.schema == FriendsSchema)
            && (call.GetHomeUsers? ==> op.executor.schema == HomeUsersSchema)
            && (call.GetLibrarySections? ==> op.executor.schema == LibrarySectionsSchema)
            && (call.GetLibraryItems? ==> op.executor.schema == LibraryItemsSchema)
            && (call.GetMetadata? ==> op.executor.schema == MetadataSchema)
            && (call.GetChildren? ==> op.executor.schema == ChildrenSchema)
            && (call.GetAllLeaves? ==> op.executor.schema == LeavesSchema)
            && (call.GetHistory? ==> op.executor.schema == HistorySchema)
  {
    match call
    case CreatePin =>
    case CheckPin(_) =>
    case GetUser =>
    case GetResources =>
    case GetFriends =>
    case GetHomeUsers =>
    case GetLibrarySections =>
    case GetLibraryItems(_) =>
    case GetMetadata(_) =>
    case GetChildren(_) =>
    case GetAllLeaves(_) =>
    case GetHistory(_) =>
    case DeleteItem(_) =>
  }

  /** The request of an operation: the host's base URL followed by the path with no
      separator added, the four Plex headers, and the operation's method, except that the
      void executor sends anything but DELETE as GET. */
  lemma ExecuteRequest(op: Operation, config: Config, outcome: Outcome)
    ensures var req := Execute(op, config, outcome).request;
            && req.verb == (if op.executor.ServerVoidExecutor? && op.verb != DELETE then GET else op.verb)
            && req.url == BaseUrl(HostOf(op.executor), config) + op.path
            && req.headers == PlexHeaders(config)
  {
  }

  /** How an operation fails: without a response, with the transport's failure as cause;
      on a status of 400 or more, with that status and the response text, whatever the body
      holds; in every case well-formed and naming the operation's method and its path, never
      the full URL. */
  lemma ExecuteFailure(op: Operation, config: Config, outcome: Outcome)
    ensures var r := Execute(op, config, outcome).result;
            && (r.Err? ==> WellFormed(r.error) && r.error.httpMethod == MethodName(op.verb) && r.error.path == op.path)
            && (outcome.NoResponse? ==> r == Err(WrapError(op.verb, op.path, RequestError(outcome.reason))))
            && (outcome.Response? && outcome.status >= 400 ==>
                 r == Err(PlexApiError(MethodName(op.verb), op.path, Some(outcome.status), Some(ErrorBodyText(outcome.body)), None)))
  {
  }

  /** A valued operation succeeds exactly when the status is below 400, the body is JSON
      and the schema maps it to a value; that value is the result. A body the schema rejects
      is a decode failure, never a partial value. */
  lemma ExecuteSuccess(op: Operation, config: Config, outcome: Outcome)
    requires !op.executor.ServerVoidExecutor?
    ensures var s := op.executor.schema;
            var r := Execute(op, config, outcome).result;
            && (r.Ok? ==> outcome.Response? && outcome.status < 400 && outcome.body.Readable?
                          && outcome.body.json.Some? && Matches(s, outcome.body.json.value, r.value))
            && ((outcome.Response? && outcome.status < 400 && outcome.body.Readable? && outcome.body.json.Some?
                 && exists v :: Matches(s, outcome.body.json.value, v)) ==> r.Ok?)
            && (outcome.Response? && outcome.status < 400 && r.Err? ==> Kind(r.error) == DecodeFailure)
  {
    var decode := (j: Json) => DecodeAs(op.executor.schema, j);
    assert Execute(op, config, outcome).result == Receive(op.verb, op.path, decode, outcome);
  }

  /** `deleteItem` succeeds on any status below 400 whatever the body, and is sent as DELETE. */
  lemma DeleteIgnoresBody(ratingKey: string, config: Config, status: int, body: Body)
    requires status < 400
    ensures var x := Invoke(DeleteItem(ratingKey), config, Response(status, body));
            x.result == Ok(Deleted) && x.request.verb == DELETE
            && x.request.url == config.serverUrl + "/library/metadata/" + ratingKey
  {
    var op := OperationFor(DeleteItem(ratingKey));
    assert op == Operation(DELETE, ServerVoidExecutor, "/library/metadata/" + ratingKey);
    ExecuteRequest(op, config, Response(status, body));
    assert config.serverUrl + "/library/metadata/" + ratingKey == config.serverUrl + op.path;
  }

  /** The void executor sends only DELETE as such: asked for POST it sends GET, while an
      error still reports POST. No operation uses it with POST. */
  lemma VoidExecutorSendsPostAsGet(path: string, config: Config, status: int, body: Body)
    requires status >= 400
    ensures var x := RequestServerVoid(POST, path, config, Response(status, body));
            x.request.verb == GET && x.result.error.httpMethod == "POST"
  {
  }

  /** A zero bound is rendered as `0`, not dropped. */
  lemma ZeroMinDateParams()
    ensures HistoryParams(Some(0)) == "?mindate=0"
  {
    assert IntToDecimal(0) == [DigitChar(0)];
  }

  /** `getHistory` asks for all history without a bound, and passes any given bound, zero
      included, as `mindate`. */
  lemma HistoryQuery(minDate: Option<int>)
    ensures minDate.None? ==> OperationFor(GetHistory(minDate)).path == "/status/sessions/history/all"
    ensures minDate.Some? ==>
      OperationFor(GetHistory(minDate)).path == "/status/sessions/history/all" + ("?mindate=" + IntToDecimal(minDate.value))
    ensures minDate == Some(0) ==> OperationFor(GetHistory(minDate)).path == "/status/sessions/history/all" + "?mindate=0"
  {
    var path := OperationFor(GetHistory(minDate)).path;
    assert path == "/status/sessions/history/all" + HistoryParams(minDate);
    if minDate.None? {
      assert HistoryParams(minDate) == [];
    } else if minDate == Some(0) {
      ZeroMinDateParams();
    }
  }

  /** Different pins are checked at different paths. */
  lemma {:induction false} CheckPinPathInjective(a: int, b: int)
    requires OperationFor(CheckPin(a)).path == OperationFor(CheckPin(b)).path
    ensures a == b
  {
    var prefix := "/api/v2/pins/";
    var pa := prefix + IntToDecimal(a);
    var pb := prefix + IntToDecimal(b);
    assert pa[|prefix|..] == IntToDecimal(a);
    assert pb[|prefix|..] == IntToDecimal(b);
    IntToDecimalInjective(a, b);
  }

  /** Path arguments are interpolated as they are, without escaping: a rating key holding
      `/children` makes `getMetadata` send the method, host and path `getChildren` sends. */
  lemma RatingKeyNotEscaped(ratingKey: string)
    ensures var m := OperationFor(GetMetadata(ratingKey + "/children"));
            var c := OperationFor(GetChildren(ratingKey));
            m.verb == c.verb && HostOf(m.executor) == HostOf(c.executor) && m.path == c.path
  {
    assert "/library/metadata/" + (ratingKey + "/children") == "/library/metadata/" + ratingKey + "/children";
  }

  /** An example: deleting an item the server does not know fails with the status and the
      response text. */
  lemma DeleteNotFoundExample(config: Config)
    ensures Invoke(DeleteItem("42"), config, Response(404, Readable("Not Found", None))).result
         == Err(PlexApiError("DELETE", "/library/metadata/42", Some(404), Some("Not Found"), None))
  {
    var p := "/library/metadata/" + "42";
    assert p == "/library/metadata/42" by {
      assert |p| == |"/library/metadata/42"|;
      assert forall i | 0 <= i < |p| :: p[i] == "/library/metadata/42"[i];
    }
    var x := RequestServerVoid(DELETE, p, config, Response(404, Readable("Not Found", None)));
    assert x.result == Err(PlexApiError("DELETE", p, Some(404), Some("Not Found"), None));
  }
}
