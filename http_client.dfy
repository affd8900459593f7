/** The REST client of examples/python/lais_vegas.py (class `LAISVegas`):
    session fields, table resolution, request building, the classification of
    error responses and the per-event handler lists. The HTTP exchange is a
    parameter `server` from request to response. */
module HttpClient {
  import opened Wrappers
  import opened Json
  import Decimal

  /** The SDK's exceptions; the last two are subclasses of the first. */
  datatype SdkError =
    | LaisVegasError(message: string)
    | AuthenticationError(message: string)
    | GameError(message: string)

  datatype Verb = Get | Post | Patch

  /** What `_request` sends: verb, endpoint below the base URL, JSON body. */
  datatype Request = Request(verb: Verb, endpoint: string, body: Option<map<string, Value>>)

  /** What `_request` reads back: the status code and the body's `error` key. */
  datatype Response = Response(status: int, error: Option<string>)

  /** `requests`' `Response.ok`: false exactly for client and server errors. */
  predicate IsOk(status: int) {
    !(400 <= status < 600)
  }

  /** The exception `_request` raises for a response, if any. */
  function RaisedBy(response: Response): (e: Option<SdkError>)
    ensures e.None? <==> IsOk(response.status)
    ensures e.Some? ==> e.value.message == response.error.GetOr("Unknown error")
    ensures e.Some? ==> (e.value.AuthenticationError? <==> response.status == 401)
    ensures e.Some? ==> (e.value.GameError? <==> response.status in {400, 403})
  {
    if IsOk(response.status) then None
    else
      var message := response.error.GetOr("Unknown error");
      if response.status == 401 then Some(AuthenticationError(message))
      else if response.status == 400 || response.status == 403 then Some(GameError(message))
      else Some(LaisVegasError(message))
  }

  /** Sending `request`: it is returned when the server accepts it, otherwise
      the exception `_request` raises. */
  function Exchange(request: Request, server: Request -> Response): (r: Result<Request, SdkError>)
    ensures r.Ok? <==> IsOk(server(request).status)
    ensures r.Ok? ==> r.value == request
    ensures r.Err? ==> RaisedBy(server(request)) == Some(r.error)
  {
    match RaisedBy(server(request))
    case Some(e) => Err(e)
    case None => Ok(request)
  }

  /** Python truthiness of an optional string: present and non-empty. */
  predicate Truthy(s: Option<string>) {
    s.Some? && s.value != ""
  }

  const NoTable: SdkError := GameError("No table specified")

  /** `table_id or self.current_table`, failing when neither is truthy. */
  function ResolveTable(explicit: Option<string>, current: Option<string>): (r: Result<string, SdkError>)
    ensures r.Ok? <==> Truthy(explicit) || Truthy(current)
    ensures r.Ok? ==> r.value != ""
    ensures Truthy(explicit) ==> r == Ok(explicit.value)
    ensures !Truthy(explicit) && Truthy(current) ==> r == Ok(current.value)
    ensures r.Err? ==> r.error == NoTable
  {
    if Truthy(explicit) then Ok(explicit.value)
    else if Truthy(current) then Ok(current.value)
    else Err(NoTable)
  }

  /** `base_url.rstrip("/")`. */
  function StripTrailingSlashes(s: string): (r: string)
    ensures r <= s
    ensures r == [] || r[|r| - 1] != '/'
    ensures forall i :: |r| <= i < |s| ==> s[i] == '/'
  {
    if s != [] && s[|s| - 1] == '/' then StripTrailingSlashes(s[..|s| - 1]) else s
  }

  function TablePath(tableId: string, operation: string): string {
    "/api/tables/" + tableId + "/" + operation
  }

  /** The body of `action`: always `action`; `amount` when one is given;
      `reasoning` when it is non-empty. */
  function ActionPayload(action: string, amount: Option<int>, reasoning: Option<string>): (body: map<string, Value>)
    ensures "action" in body && body["action"] == Str(action)
    ensures "amount" in body <==> amount.Some?
    ensures "amount" in body ==> body["amount"] == Int(amount.value)
    ensures "reasoning" in body <==> Truthy(reasoning)
    ensures "reasoning" in body ==> body["reasoning"] == Str(reasoning.value)
    ensures body.Keys <= {"action", "amount", "reasoning"}
  {
    var withAction := map["action" := Str(action)];
    var withAmount := if amount.Some? then withAction["amount" := Int(amount.value)] else withAction;
    if Truthy(reasoning) then withAmount["reasoning" := Str(reasoning.value)] else withAmount
  }

  /** The body of `join_table`: the buy-in, and the seat when one is asked for. */
  function JoinPayload(buyIn: int, seat: Option<int>): (body: map<string, Value>)
    ensures body.Keys == if seat.Some? then {"buy_in", "seat"} else {"buy_in"}
    ensures body["buy_in"] == Int(buyIn)
    ensures seat.Some? ==> body["seat"] == Int(seat.value)
  {
    var data := map["buy_in" := Int(buyIn)];
    if seat.Some? then data["seat" := Int(seat.value)] else data
  }

  /** The body of `update_profile`: each field that is given (even when
      empty), and no other. */
  function ProfilePayload(description: Option<string>, avatarUrl: Option<string>): (body: map<string, Value>)
    ensures "description" in body <==> description.Some?
    ensures "description" in body ==> body["description"] == Str(description.value)
    ensures "avatar_url" in body <==> avatarUrl.Some?
    ensures "avatar_url" in body ==> body["avatar_url"] == Str(avatarUrl.value)
    ensures body.Keys <= {"description", "avatar_url"}
  {
    var withDescription := if description.Some? then map["description" := Str(description.value)] else map[];
    if avatarUrl.Some? then withDescription["avatar_url" := Str(avatarUrl.value)] else withDescription
  }

  /** The endpoint of `list_tables`: the tier filter is a query exactly when
      it is non-empty, and reads back as the tier. */
  function TablesEndpoint(tier: Option<string>): (e: string)
    ensures "/api/tables" <= e
    ensures e == "/api/tables" <==> !Truthy(tier)
    ensures Truthy(tier) ==> e[|"/api/tables"|..] == "?tier=" + tier.value
  {
    if Truthy(tier) then "/api/tables" + "?tier=" + tier.value else "/api/tables"
  }

  /** The endpoint of `get_leaderboard`: sort and limit always, then the tier
      filter exactly when it is non-empty. */
  function LeaderboardEndpoint(sort: string, limit: int, tier: Option<string>): (e: string)
    ensures var head := "/api/leaderboard?sort=" + sort + "&limit=" + Decimal.IntToString(limit);
      head <= e && (e == head <==> !Truthy(tier)) && (Truthy(tier) ==> e[|head|..] == "&tier=" + tier.value)
  {
    var head := "/api/leaderboard?sort=" + sort + "&limit=" + Decimal.IntToString(limit);
    if Truthy(tier) then head + "&tier=" + tier.value else head
  }

  /** An agent id as the client stores it: a JSON string, or none. */
  function IdentityOf(v: Value): (id: Option<string>)
    ensures id.Some? <==> v.Str?
    ensures id.Some? ==> id.value == v.s
  {
    if v.Str? then Some(v.s) else None
  }

  /** A registration response's `agent` object. */
  datatype AgentRecord = AgentRecord(apiKey: Option<string>, id: Option<string>)

  /** What a user handler did with an event: returned, or raised an exception. */
  datatype HandlerOutcome = Returned | Raised(message: string)

  /** A handler registered with `on`, seen through what it does with a payload. */
  type Handler = Value -> HandlerOutcome

  class LaisVegas {
    var apiKey: Option<string>
    const baseUrl: string
    var currentTable: Option<string>
    var agentId: Option<string>
    var eventHandlers: map<string, seq<Handler>>

    constructor (apiKey: Option<string>, baseUrl: string)
      ensures this.apiKey == apiKey && this.baseUrl == StripTrailingSlashes(baseUrl)
      ensures currentTable == None && agentId == None && eventHandlers == map[]
    {
      this.apiKey := apiKey;
      this.baseUrl := StripTrailingSlashes(baseUrl);
      currentTable := None;
      agentId := None;
      eventHandlers := map[];
    }

    /** `_headers`: JSON content type, and a bearer token when the key is set. */
    function Headers(): (h: map<string, string>)
      reads this
      ensures "Content-Type" in h && h["Content-Type"] == "application/json"
      ensures "Authorization" in h <==> Truthy(apiKey)
      ensures "Authorization" in h ==> h["Authorization"] == "Bearer " + apiKey.value
      ensures h.Keys <= {"Content-Type", "Authorization"}
    {
      var headers := map["Content-Type" := "application/json"];
      if Truthy(apiKey) then headers["Authorization" := "Bearer " + apiKey.value] else headers
    }

    /** The identity update of `register`: when the response's agent carries
        a truthy `api_key`, the key is stored, then the id; an agent without
        `id` raises a KeyError (reported as the missing key) after the key
        has already been stored. */
    method ApplyRegistration(agent: Option<AgentRecord>) returns (r: Result<AgentRecord, string>)
      modifies this
      ensures var a := agent.GetOr(AgentRecord(None, None));
        if !Truthy(a.apiKey) then
          r == Ok(a) && apiKey == old(apiKey) && agentId == old(agentId)
        else if a.id.None? then
          r == Err("id") && apiKey == a.apiKey && agentId == old(agentId)
        else
          r == Ok(a) && apiKey == a.apiKey && agentId == a.id
      ensures currentTable == old(currentTable) && eventHandlers == old(eventHandlers)
    {
      var a := agent.GetOr(AgentRecord(None, None));
      if Truthy(a.apiKey) {
        apiKey := a.apiKey;
        if a.id.None? {
          return Err("id");
        }
        agentId := a.id;
      }
      r := Ok(a);
    }

    /** `join_table`: a successful join makes the table current. */
    method JoinTable(tableId: string, buyIn: int, seat: Option<int>, server: Request -> Response)
      returns (r: Result<Request, SdkError>)
      modifies this
      ensures r == Exchange(Request(Post, TablePath(tableId, "join"), Some(JoinPayload(buyIn, seat))), server)
      ensures currentTable == if r.Ok? then Some(tableId) else old(currentTable)
      ensures apiKey == old(apiKey) && agentId == old(agentId) && eventHandlers == old(eventHandlers)
    {
      var data := JoinPayload(buyIn, seat);
      r := Exchange(Request(Post, TablePath(tableId, "join"), Some(data)), server);
      if r.Ok? {
        currentTable := Some(tableId);
      }
    }

    /** `leave_table`: clears the current table only after successfully
        leaving that same table. */
    method LeaveTable(tableId: Option<string>, server: Request -> Response)
      returns (r: Result<Request, SdkError>)
      modifies this
      ensures var resolved := ResolveTable(tableId, old(currentTable));
        (resolved.Err? ==> r == Err(NoTable)) &&
        (resolved.Ok? ==> r == Exchange(Request(Post, TablePath(resolved.value, "leave"), None), server)) &&
        currentTable == if r.Ok? && old(currentTable) == Some(resolved.value) then None else old(currentTable)
      ensures apiKey == old(apiKey) && agentId == old(agentId) && eventHandlers == old(eventHandlers)
    {
      var resolved := ResolveTable(tableId, currentTable);
      if resolved.Err? {
        return Err(resolved.error);
      }
      var id := resolved.value;
      r := Exchange(Request(Post, TablePath(id, "leave"), None), server);
      if r.Ok? && currentTable == Some(id) {
        currentTable := None;
      }
    }

    /** `action`: posts the action payload to the resolved table. */
    method Action(action: string, amount: Option<int>, tableId: Option<string>, reasoning: Option<string>,
                  server: Request -> Response)
      returns (r: Result<Request, SdkError>)
      ensures ResolveTable(tableId, currentTable).Err? ==> r == Err(NoTable)
      ensures ResolveTable(tableId, currentTable).Ok? ==>
        r == Exchange(Request(Post, TablePath(ResolveTable(tableId, currentTable).value, "action"),
                              Some(ActionPayload(action, amount, reasoning))), server)
    {
      var resolved := ResolveTable(tableId, currentTable);
      if resolved.Err? {
        return Err(resolved.error);
      }
      var data := ActionPayload(action, amount, reasoning);
      r := Exchange(Request(Post, TablePath(resolved.value, "action"), Some(data)), server);
    }

    /** `get_chat`: reads the resolved table's chat, `limit` as a query. */
    method GetChat(tableId: Option<string>, limit: int, server: Request -> Response)
      returns (r: Result<Request, SdkError>)
      ensures ResolveTable(tableId, currentTable).Err? ==> r == Err(NoTable)
      ensures ResolveTable(tableId, currentTable).Ok? ==>
        r == Exchange(Request(Get, TablePath(ResolveTable(tableId, currentTable).value, "chat")
                                   + "?limit=" + Decimal.IntToString(limit), None), server)
    {
      var resolved := ResolveTable(tableId, currentTable);
      if resolved.Err? {
        return Err(resolved.error);
      }
      r := Exchange(Request(Get, TablePath(resolved.value, "chat") + "?limit=" + Decimal.IntToString(limit), None),
                    server);
    }

    /** `send_chat`: posts the message content to the resolved table. */
    method SendChat(content: string, tableId: Option<string>, server: Request -> Response)
      returns (r: Result<Request, SdkError>)
      ensures ResolveTable(tableId, currentTable).Err? ==> r == Err(NoTable)
      ensures ResolveTable(tableId, currentTable).Ok? ==>
        r == Exchange(Request(Post, TablePath(ResolveTable(tableId, currentTable).value, "chat"),
                              Some(map["content" := Str(content)])), server)
    {
      var resolved := ResolveTable(tableId, currentTable);
      if resolved.Err? {
        return Err(resolved.error);
      }
      r := Exchange(Request(Post, TablePath(resolved.value, "chat"), Some(map["content" := Str(content)])), server);
    }

    /** `get_challenge`: asks the server for a challenge of the given type. */
    method GetChallenge(challengeType: string, server: Request -> Response) returns (r: Result<Request, SdkError>)
      ensures r == Exchange(Request(Post, "/api/challenge", Some(map["type" := Str(challengeType)])), server)
    {
      r := Exchange(Request(Post, "/api/challenge", Some(map["type" := Str(challengeType)])), server);
    }

    /** The request of `get_profile`. */
    method GetProfile(server: Request -> Response) returns (r: Result<Request, SdkError>)
      ensures r == Exchange(Request(Get, "/api/agents/me", None), server)
    {
      r := Exchange(Request(Get, "/api/agents/me", None), server);
    }

    /** The identity update of `get_profile`, given the response's `agent`
        object: a non-empty object sets the agent id from its `id`, and
        raises (after nothing is stored) when `id` is missing. */
    method ApplyProfile(agent: Option<map<string, Value>>) returns (r: Result<map<string, Value>, string>)
      modifies this
      ensures agent.None? || agent.value == map[] ==> r == Ok(agent.GetOr(map[])) && agentId == old(agentId)
      ensures agent.Some? && agent.value != map[] && "id" !in agent.value ==> r == Err("id") && agentId == old(agentId)
      ensures agent.Some? && "id" in agent.value ==> r == Ok(agent.value) && agentId == IdentityOf(agent.value["id"])
      ensures apiKey == old(apiKey) && currentTable == old(currentTable) && eventHandlers == old(eventHandlers)
    {
      var a := agent.GetOr(map[]);
      if a != map[] {
        if "id" !in a {
          return Err("id");
        }
        agentId := IdentityOf(a["id"]);
      }
      r := Ok(a);
    }

    /** `update_profile`: patches the profile with the fields given. */
    method UpdateProfile(description: Option<string>, avatarUrl: Option<string>, server: Request -> Response)
      returns (r: Result<Request, SdkError>)
      ensures r == Exchange(Request(Patch, "/api/agents/me", Some(ProfilePayload(description, avatarUrl))), server)
    {
      r := Exchange(Request(Patch, "/api/agents/me", Some(ProfilePayload(description, avatarUrl))), server);
    }

    /** `list_tables`: lists the tables, filtered by tier when one is given. */
    method ListTables(tier: Option<string>, server: Request -> Response) returns (r: Result<Request, SdkError>)
      ensures r == Exchange(Request(Get, TablesEndpoint(tier), None), server)
    {
      r := Exchange(Request(Get, TablesEndpoint(tier), None), server);
    }

    /** `get_table`: reads one table, named in the path. */
    method GetTable(tableId: string, server: Request -> Response) returns (r: Result<Request, SdkError>)
      ensures r == Exchange(Request(Get, "/api/tables/" + tableId, None), server)
    {
      r := Exchange(Request(Get, "/api/tables/" + tableId, None), server);
    }

    /** `get_leaderboard`: reads the leaderboard with its query. */
    method GetLeaderboard(sort: string, limit: int, tier: Option<string>, server: Request -> Response)
      returns (r: Result<Request, SdkError>)
      ensures r == Exchange(Request(Get, LeaderboardEndpoint(sort, limit, tier), None), server)
    {
      r := Exchange(Request(Get, LeaderboardEndpoint(sort, limit, tier), None), server);
    }

    /** The handlers registered for `event`, in registration order. */
    function HandlersFor(event: string): seq<Handler>
      reads this
    {
      if event in eventHandlers then eventHandlers[event] else []
    }

    /** `on`: appends the handler to that event's list only. */
    method On(event: string, handler: Handler)
      modifies this
      ensures HandlersFor(event) == old(HandlersFor(event)) + [handler]
      ensures forall e :: e != event ==> HandlersFor(e) == old(HandlersFor(e))
      ensures eventHandlers.Keys == old(eventHandlers.Keys) + {event}
      ensures apiKey == old(apiKey) && currentTable == old(currentTable) && agentId == old(agentId)
    {
      if event !in eventHandlers {
        eventHandlers := eventHandlers[event := []];
      }
      eventHandlers := eventHandlers[event := eventHandlers[event] + [handler]];
    }

    /** `_trigger`: runs every handler of the event, in order; one that raises
        is logged and does not stop the ones after it. */
    method Trigger(event: string, data: Value) returns (outcomes: seq<HandlerOutcome>)
      ensures |outcomes| == |HandlersFor(event)|
      ensures forall i :: 0 <= i < |outcomes| ==> outcomes[i] == HandlersFor(event)[i](data)
    {
      var handlers := if event in eventHandlers then eventHandlers[event] else [];
      outcomes := [];
      for i := 0 to |handlers|
        invariant |outcomes| == i
        invariant forall j :: 0 <= j < i ==> outcomes[j] == handlers[j](data)
      {
        var outcome := handlers[i](data);
        outcomes := outcomes + [outcome];
      }
    }
  }
}
