/** The DocBase client: building the four HTTP requests, classifying the
    server's reply, and the fixed sequence every operation runs (build,
    execute, read the body, decode it). The network, `http.NewRequestWithContext`
    and `json.Unmarshal` are parameters of a `World`, so each operation's
    outcome is stated for every possible behaviour of them. */
module Api {
  import opened Wrappers
  import opened Decimal
  import opened Json
  import opened Posts
  import opened PostJson
  import opened Errors

  /** The state of a client; no operation changes it. */
  datatype Client = Client(team: string, token: string, apiVersion: string)

  function NewClient(team: string, token: string): (c: Client)
    ensures c.team == team && c.token == token
    ensures c.apiVersion == "2"
  {
    Client(team, token, "2")
  }

  // ---------------------------------------------------------------- requests

  datatype HttpMethod = GET | POST | PATCH

  datatype Request = Request(
    verb: HttpMethod,
    url: string,
    headers: seq<(string, string)>,  // in the order they were added
    body: Option<Json>)              // None: no body at all

  const TOKEN_HEADER: string := "X-DocBaseToken"
  const CONTENT_TYPE_HEADER: string := "Content-Type"
  const JSON_CONTENT_TYPE: string := "application/json"

  /** The values added under `name`, in order. */
  function HeaderValues(headers: seq<(string, string)>, name: string): (vs: seq<string>)
    ensures |vs| <= |headers|
    ensures forall v :: v in vs <==> (name, v) in headers
  {
    if headers == [] then []
    else (if headers[0].0 == name then [headers[0].1] else []) + HeaderValues(headers[1..], name)
  }

  function TeamUrl(team: string): string {
    "https://api.docbase.io/teams/" + team
  }

  function PostsUrl(team: string): string {
    TeamUrl(team) + "/posts"
  }

  function PostUrl(team: string, id: Uint): string {
    PostsUrl(team) + "/" + Format(id)
  }

  function TagsUrl(team: string): string {
    TeamUrl(team) + "/tags"
  }

  /** A post's URL is the posts URL, a slash, and the id in decimal, which
      reads back as that id. */
  lemma PostUrlNamesId(team: string, id: Uint)
    ensures StartsWith(PostUrl(team, id), PostsUrl(team) + "/")
    ensures Parse(PostUrl(team, id)[|PostsUrl(team)| + 1..]) == Some(id as nat)
  {
    var u := PostUrl(team, id);
    assert u[..|PostsUrl(team)| + 1] == PostsUrl(team) + "/";
    assert u[|PostsUrl(team)| + 1..] == Format(id);
    ParseFormat(id);
  }

  /** Different ids address different posts. */
  lemma PostUrlInjective(team: string, a: Uint, b: Uint)
    requires PostUrl(team, a) == PostUrl(team, b)
    ensures a == b
  {
    PostUrlNamesId(team, a);
    PostUrlNamesId(team, b);
  }

  /** A post URL ends in a digit, so it is never a tags or posts URL, of any team. */
  lemma RoutesDistinct(t1: string, t2: string, id: Uint)
    ensures TagsUrl(t1) != PostUrl(t2, id)
    ensures PostsUrl(t1) != PostUrl(t2, id)
    ensures TagsUrl(t1) != PostsUrl(t2)
  {
    var d := Format(id);
    var u := PostUrl(t2, id);
    assert u[|u| - 1] == d[|d| - 1];
    assert IsDigit(u[|u| - 1]);
    var t := TagsUrl(t1);
    assert t[|t| - 1] == 's' && t[|t| - 2] == 'g';
    var p := PostsUrl(t2);
    assert p[|p| - 1] == 's' && p[|p| - 2] == 't';
  }

  /** How `http.NewRequestWithContext` treats a method and URL: Some(text)
      when it refuses them (a malformed URL, a nil context) with that error text. */
  type Refusal = (HttpMethod, string) -> Option<string>

  /** A request as `http.NewRequestWithContext` returns it: no headers yet, so
      the builders' headers are exactly the ones they add. */
  function NewRequest(verb: HttpMethod, url: string, body: Option<Json>, refuse: Refusal): (r: Result<Request, Error>)
    ensures r.Failure? <==> refuse(verb, url).Some?
    ensures r.Failure? ==> r.error == NewRequestFailed(Foreign(refuse(verb, url).value))
    ensures r.Success? ==> r.value == Request(verb, url, [], body)
  {
    match refuse(verb, url)
    case Some(cause) => Failure(NewRequestFailed(Foreign(cause)))
    case None => Success(Request(verb, url, [], body))
  }

  /** The header list after `Header.Add(name, value)`: the pair goes last. */
  function AddHeader(headers: seq<(string, string)>, name: string, value: string): (hs: seq<(string, string)>)
    ensures hs == headers + [(name, value)]
  {
    headers + [(name, value)]
  }

  /** The headers added to a write request: the token, then the JSON content type. */
  function WriteHeaders(token: string): (hs: seq<(string, string)>)
    ensures hs == [(TOKEN_HEADER, token), (CONTENT_TYPE_HEADER, JSON_CONTENT_TYPE)]
  {
    AddHeader(AddHeader([], TOKEN_HEADER, token), CONTENT_TYPE_HEADER, JSON_CONTENT_TYPE)
  }

  /** The headers added to a read request: the token only. */
  function ReadHeaders(token: string): (hs: seq<(string, string)>)
    ensures hs == [(TOKEN_HEADER, token)]
  {
    AddHeader([], TOKEN_HEADER, token)
  }

  function CreatePostHttpRequest(c: Client, req: Option<CreatePostRequest>, refuse: Refusal): (r: Result<Request, Error>)
    ensures r.Failure? <==> refuse(POST, PostsUrl(c.team)).Some?
    ensures r.Failure? ==> r.error == NewRequestFailed(Foreign(refuse(POST, PostsUrl(c.team)).value))
    ensures r.Success? ==> r.value == Request(POST, PostsUrl(c.team),
      [(TOKEN_HEADER, c.token), (CONTENT_TYPE_HEADER, JSON_CONTENT_TYPE)], Some(MarshalCreate(req)))
  {
    var base :- NewRequest(POST, PostsUrl(c.team), Some(MarshalCreate(req)), refuse);
    Success(base.(headers := WriteHeaders(c.token)))
  }

  /** Building an update needs the request itself for its id; a nil request
      panics in the operation before this is reached. */
  function UpdatePostHttpRequest(c: Client, req: UpdatePostRequest, refuse: Refusal): (r: Result<Request, Error>)
    ensures r.Failure? <==> refuse(PATCH, PostUrl(c.team, req.id)).Some?
    ensures r.Failure? ==> r.error == NewRequestFailed(Foreign(refuse(PATCH, PostUrl(c.team, req.id)).value))
    ensures r.Success? ==> r.value == Request(PATCH, PostUrl(c.team, req.id),
      [(TOKEN_HEADER, c.token), (CONTENT_TYPE_HEADER, JSON_CONTENT_TYPE)], Some(EncodeUpdate(req)))
  {
    var base :- NewRequest(PATCH, PostUrl(c.team, req.id), Some(EncodeUpdate(req)), refuse);
    Success(base.(headers := WriteHeaders(c.token)))
  }

  function GetPostHttpRequest(c: Client, id: Uint, refuse: Refusal): (r: Result<Request, Error>)
    ensures r.Failure? <==> refuse(GET, PostUrl(c.team, id)).Some?
    ensures r.Failure? ==> r.error == NewRequestFailed(Foreign(refuse(GET, PostUrl(c.team, id)).value))
    ensures r.Success? ==> r.value == Request(GET, PostUrl(c.team, id), [(TOKEN_HEADER, c.token)], None)
  {
    var base :- NewRequest(GET, PostUrl(c.team, id), None, refuse);
    Success(base.(headers := ReadHeaders(c.token)))
  }

  function ListTagsHttpRequest(c: Client, refuse: Refusal): (r: Result<Request, Error>)
    ensures r.Failure? <==> refuse(GET, TagsUrl(c.team)).Some?
    ensures r.Failure? ==> r.error == NewRequestFailed(Foreign(refuse(GET, TagsUrl(c.team)).value))
    ensures r.Success? ==> r.value == Request(GET, TagsUrl(c.team), [(TOKEN_HEADER, c.token)], None)
  {
    var base :- NewRequest(GET, TagsUrl(c.team), None, refuse);
    Success(base.(headers := ReadHeaders(c.token)))
  }

  /** Every request carries the team's token exactly once; the two writes
      carry the JSON content type and the two reads no content type. */
  lemma RequestHeaders(c: Client, create: Option<CreatePostRequest>, update: UpdatePostRequest, id: Uint, refuse: Refusal)
    ensures var r := CreatePostHttpRequest(c, create, refuse);
      r.Success? ==> (HeaderValues(r.value.headers, TOKEN_HEADER) == [c.token]
        && HeaderValues(r.value.headers, CONTENT_TYPE_HEADER) == [JSON_CONTENT_TYPE])
    ensures var r := UpdatePostHttpRequest(c, update, refuse);
      r.Success? ==> (HeaderValues(r.value.headers, TOKEN_HEADER) == [c.token]
        && HeaderValues(r.value.headers, CONTENT_TYPE_HEADER) == [JSON_CONTENT_TYPE])
    ensures var r := GetPostHttpRequest(c, id, refuse);
      r.Success? ==> (HeaderValues(r.value.headers, TOKEN_HEADER) == [c.token]
        && HeaderValues(r.value.headers, CONTENT_TYPE_HEADER) == [])
    ensures var r := ListTagsHttpRequest(c, refuse);
      r.Success? ==> (HeaderValues(r.value.headers, TOKEN_HEADER) == [c.token]
        && HeaderValues(r.value.headers, CONTENT_TYPE_HEADER) == [])
  {
    var both := [(TOKEN_HEADER, c.token), (CONTENT_TYPE_HEADER, JSON_CONTENT_TYPE)];
    assert TOKEN_HEADER[0] != CONTENT_TYPE_HEADER[0];
    assert both[1..] == [(CONTENT_TYPE_HEADER, JSON_CONTENT_TYPE)];
    assert HeaderValues(both, TOKEN_HEADER) == [c.token];
    assert HeaderValues(both, CONTENT_TYPE_HEADER) == [JSON_CONTENT_TYPE];
    assert HeaderValues([(TOKEN_HEADER, c.token)], CONTENT_TYPE_HEADER) == [];
  }

  /** The body sent to create a post decodes back to the request that was given
      (and a nil request sends JSON null). */
  lemma CreateRequestCarries(c: Client, req: Option<CreatePostRequest>, refuse: Refusal)
    ensures var r := CreatePostHttpRequest(c, req, refuse);
      r.Success? && req.Some? ==> DecodeCreate(r.value.body.value) == req
    ensures var r := CreatePostHttpRequest(c, req, refuse);
      r.Success? && req.None? ==> r.value.body == Some(JNull)
  {
    if req.Some? {
      CreateRoundTrip(req.value);
    }
  }

  /** An update goes to the URL of the request's id, with a body that decodes
      back to the request. */
  lemma UpdateRequestCarries(c: Client, req: UpdatePostRequest, refuse: Refusal)
    ensures var r := UpdatePostHttpRequest(c, req, refuse);
      r.Success? ==> (Parse(r.value.url[|PostsUrl(c.team)| + 1..]) == Some(req.id as nat)
        && DecodeUpdate(r.value.body.value) == Some(req))
  {
    PostUrlNamesId(c.team, req.id);
    UpdateRoundTrip(req);
  }

  /** The stored API version never reaches a request: each builder reads
      only the team and the token. */
  lemma CreateIgnoresApiVersion(c: Client, v: string, req: Option<CreatePostRequest>, refuse: Refusal)
    ensures CreatePostHttpRequest(c.(apiVersion := v), req, refuse) == CreatePostHttpRequest(c, req, refuse)
  {
    var c' := c.(apiVersion := v);
    assert c'.team == c.team && c'.token == c.token;
  }

  lemma UpdateIgnoresApiVersion(c: Client, v: string, req: UpdatePostRequest, refuse: Refusal)
    ensures UpdatePostHttpRequest(c.(apiVersion := v), req, refuse) == UpdatePostHttpRequest(c, req, refuse)
  {
    var c' := c.(apiVersion := v);
    assert c'.team == c.team && c'.token == c.token;
  }

  lemma GetIgnoresApiVersion(c: Client, v: string, id: Uint, refuse: Refusal)
    ensures GetPostHttpRequest(c.(apiVersion := v), id, refuse) == GetPostHttpRequest(c, id, refuse)
  {
    var c' := c.(apiVersion := v);
    assert c'.team == c.team && c'.token == c.token;
  }

  lemma ListTagsIgnoresApiVersion(c: Client, v: string, refuse: Refusal)
    ensures ListTagsHttpRequest(c.(apiVersion := v), refuse) == ListTagsHttpRequest(c, refuse)
  {
    var c' := c.(apiVersion := v);
    assert c'.team == c.team && c'.token == c.token;
  }

  // ---------------------------------------------------------------- replies

  datatype ReadOutcome = ReadOk(bytes: string) | ReadError(cause: string)

  /** A response as the transport delivers it; reading its body has the given outcome. */
  datatype Response = Response(statusCode: int, status: string, body: ReadOutcome)

  datatype Reply = TransportError(cause: string) | Received(response: Response)

  predicate IsErrorStatus(code: int) {
    code >= 400
  }

  /** The error the client reports for a reply, if it reports one. */
  function ApiError(reply: Reply): (e: Option<Error>)
    ensures e.Some? <==> reply.TransportError? || IsErrorStatus(reply.response.statusCode)
    ensures reply.TransportError? ==> e == Some(SendFailed(Foreign(reply.cause)))
  {
    match reply
    case TransportError(cause) => Some(SendFailed(Foreign(cause)))
    case Received(res) =>
      if !IsErrorStatus(res.statusCode) then None
      else match res.body
        case ReadError(_) => Some(ServerError(res.status))
        case ReadOk(bytes) => Some(ServerErrorWithBody(res.status, bytes))
  }

  /** A server error's text carries the status line, and the body whenever it could be read. */
  lemma ApiErrorMentions(res: Response)
    requires IsErrorStatus(res.statusCode)
    ensures Contains(Text(ApiError(Received(res)).value), res.status)
    ensures res.body.ReadOk? ==> Contains(Text(ApiError(Received(res)).value), res.body.bytes)
  {
    ServerErrorMentions(res.status, if res.body.ReadOk? then res.body.bytes else "");
  }

  /** Sends a request and classifies the reply: a transport failure or a
      status of 400 or more is an error and yields no response; anything
      else, redirects included, yields the response. */
  method ExecuteApi(transport: Request -> Reply, req: Request) returns (res: Option<Response>, err: Option<Error>)
    ensures err == ApiError(transport(req))
    ensures res.Some? <==> err.None?
    ensures res.Some? ==> transport(req) == Received(res.value)
  {
    var reply := transport(req);
    if reply.TransportError? {
      return None, Some(SendFailed(Foreign(reply.cause)));
    }
    var response := reply.response;
    if response.statusCode >= 400 {
      if response.body.ReadError? {
        return None, Some(ServerError(response.status));
      }
      return None, Some(ServerErrorWithBody(response.status, response.body.bytes));
    }
    return Some(response), None;
  }

  // ---------------------------------------------------------------- operations

  /** What `json.Unmarshal` makes of a body: a value (None when the body is
      JSON null) or an error with its text. */
  datatype Decoded<T> = DecodedValue(value: Option<T>) | DecodeError(cause: string)

  /** Everything outside the client an operation depends on. */
  datatype World<T> = World(refuse: Refusal, transport: Request -> Reply, decode: string -> Decoded<T>)

  datatype Panic =
    | NilResponse       // `defer res.Body.Close()` on the nil response of a failed call
    | NilUpdateRequest  // reading the id of a nil update request

  /** How an operation ends: it returns a result and an error, or it panics. */
  datatype Outcome<T> = Returned(result: Option<T>, err: Option<Error>) | Panicked(reason: Panic)

  /** The first stage of an operation that fails, given the built request and the world. */
  function FirstFailure<T>(built: Result<Request, Error>, world: World<T>): Option<Stage> {
    if built.Failure? then Some(Build)
    else
      var reply := world.transport(built.value);
      if ApiError(reply).Some? then Some(Execute)
      else match reply.response.body
        case ReadError(_) => Some(Read)
        case ReadOk(bytes) => if world.decode(bytes).DecodeError? then Some(Decode) else None
  }

  /** The error the failing stage produced. */
  function StageCause<T>(built: Result<Request, Error>, world: World<T>): Error
    requires FirstFailure(built, world).Some?
  {
    if built.Failure? then built.error
    else
      var reply := world.transport(built.value);
      match ApiError(reply)
      case Some(e) => e
      case None =>
        match reply.response.body
        case ReadError(cause) => Foreign(cause)
        case ReadOk(bytes) => Foreign(world.decode(bytes).cause)
  }

  /** The decoded value, when no stage fails. */
  function Delivered<T>(built: Result<Request, Error>, world: World<T>): Option<T>
    requires FirstFailure(built, world).None?
  {
    world.decode(world.transport(built.value).response.body.bytes).value
  }

  /** The outcome the operations' code produces: a failed stage returns its
      wrapped error, except that a failed call panics on the deferred close
      of its nil response before its error is looked at. */
  function AsWritten<T>(built: Result<Request, Error>, world: World<T>): Outcome<T> {
    match FirstFailure(built, world)
    case None => Returned(Delivered(built, world), None)
    case Some(Execute) => Panicked(NilResponse)
    case Some(stage) => Returned(None, Some(Wrapped(stage, StageCause(built, world))))
  }

  /** The outcome the operations evidently intend: every failed stage,
      the call included, returns its wrapped error. */
  function Intended<T>(built: Result<Request, Error>, world: World<T>): Outcome<T> {
    match FirstFailure(built, world)
    case None => Returned(Delivered(built, world), None)
    case Some(stage) => Returned(None, Some(Wrapped(stage, StageCause(built, world))))
  }

  /** The steps every operation runs once its request is built, as written. */
  method Call<T>(built: Result<Request, Error>, world: World<T>) returns (out: Outcome<T>)
    ensures out == AsWritten(built, world)
  {
    if built.Failure? {
      return Returned(None, Some(Wrapped(Build, built.error)));
    }
    var res, err := ExecuteApi(world.transport, built.value);
    // The deferred close reads the response before the error is checked.
    if res.None? {
      return Panicked(NilResponse);
    }
    // A response never comes with an error, so the error check here never fires.
    assert err.None?;
    match res.value.body {
      case ReadError(cause) =>
        return Returned(None, Some(Wrapped(Read, Foreign(cause))));
      case ReadOk(bytes) =>
        var decoded := world.decode(bytes);
        if decoded.DecodeError? {
          return Returned(None, Some(Wrapped(Decode, Foreign(decoded.cause))));
        }
        return Returned(decoded.value, None);
    }
  }

  /** The same steps with the error checked before the response is touched. */
  method CallIntended<T>(built: Result<Request, Error>, world: World<T>) returns (out: Outcome<T>)
    ensures out == Intended(built, world)
  {
    if built.Failure? {
      return Returned(None, Some(Wrapped(Build, built.error)));
    }
    var res, err := ExecuteApi(world.transport, built.value);
    if err.Some? {
      return Returned(None, Some(Wrapped(Execute, err.value)));
    }
    match res.value.body {
      case ReadError(cause) =>
        return Returned(None, Some(Wrapped(Read, Foreign(cause))));
      case ReadOk(bytes) =>
        var decoded := world.decode(bytes);
        if decoded.DecodeError? {
          return Returned(None, Some(Wrapped(Decode, Foreign(decoded.cause))));
        }
        return Returned(decoded.value, None);
    }
  }

  method CreatePost(c: Client, req: Option<CreatePostRequest>, world: World<Post>) returns (out: Outcome<Post>)
    ensures out == AsWritten(CreatePostHttpRequest(c, req, world.refuse), world)
  {
    var built := CreatePostHttpRequest(c, req, world.refuse);
    out := Call(built, world);
  }

  method UpdatePost(c: Client, req: Option<UpdatePostRequest>, world: World<Post>) returns (out: Outcome<Post>)
    ensures req.None? ==> out == Panicked(NilUpdateRequest)
    ensures req.Some? ==> out == AsWritten(UpdatePostHttpRequest(c, req.value, world.refuse), world)
  {
    // A nil request marshals to `null` (`MarshalUpdate(None)`), and the URL
    // then reads its id.
    if req.None? {
      return Panicked(NilUpdateRequest);
    }
    var built := UpdatePostHttpRequest(c, req.value, world.refuse);
    out := Call(built, world);
  }

  method GetPost(c: Client, id: Uint, world: World<Post>) returns (out: Outcome<Post>)
    ensures out == AsWritten(GetPostHttpRequest(c, id, world.refuse), world)
  {
    var built := GetPostHttpRequest(c, id, world.refuse);
    out := Call(built, world);
  }

  /** Tags decode into a list of pointers, any of which may be nil. */
  method ListTags(c: Client, world: World<seq<Option<Tag>>>) returns (out: Outcome<seq<Option<Tag>>>)
    ensures out == AsWritten(ListTagsHttpRequest(c, world.refuse), world)
  {
    var built := ListTagsHttpRequest(c, world.refuse);
    out := Call(built, world);
  }

  // ---------------------------------------------------------------- properties

  /** The code and the intended behaviour agree except where the call fails. */
  lemma AsWrittenDiffersOnlyOnCall<T>(built: Result<Request, Error>, world: World<T>)
    ensures FirstFailure(built, world) != Some(Execute) ==> AsWritten(built, world) == Intended(built, world)
    ensures FirstFailure(built, world) == Some(Execute) ==> AsWritten(built, world) == Panicked(NilResponse)
  {
  }

  /** As written, a server error status never comes back as an error: the
      operation panics. */
  lemma ErrorStatusPanics<T>(built: Result<Request, Error>, world: World<T>)
    requires built.Success? && world.transport(built.value).Received?
    requires IsErrorStatus(world.transport(built.value).response.statusCode)
    ensures AsWritten(built, world) == Panicked(NilResponse)
  {
  }

  /** Intended, an operation never panics, never returns both a result and
      an error, and returns an error exactly when some stage fails, whose
      text starts with that stage's message. */
  lemma IntendedOutcome<T>(built: Result<Request, Error>, world: World<T>)
    ensures Intended(built, world).Returned?
    ensures var out := Intended(built, world);
      !(out.result.Some? && out.err.Some?)
    ensures var out := Intended(built, world);
      out.err.Some? <==> FirstFailure(built, world).Some?
    ensures var out := Intended(built, world);
      out.err.Some? ==> StageOfText(Text(out.err.value)) == FirstFailure(built, world)
  {
    var out := Intended(built, world);
    if out.err.Some? {
      StageOfWrappedText(FirstFailure(built, world).value, StageCause(built, world));
    }
  }

  /** As written, an operation that returns never returns both a result and
      an error, and an error it returns names the stage that failed, which
      is never the call. */
  lemma AsWrittenOutcome<T>(built: Result<Request, Error>, world: World<T>)
    ensures var out := AsWritten(built, world);
      out.Returned? ==> !(out.result.Some? && out.err.Some?)
    ensures var out := AsWritten(built, world);
      out.Returned? && out.err.Some? ==>
        StageOfText(Text(out.err.value)) == FirstFailure(built, world) != Some(Execute)
  {
    AsWrittenDiffersOnlyOnCall(built, world);
    IntendedOutcome(built, world);
  }

  /** Intended, a status of 400 or more is reported with the server's status
      line and, when it could be read, its body. */
  lemma IntendedReportsErrorStatus<T>(built: Result<Request, Error>, world: World<T>)
    requires built.Success? && world.transport(built.value).Received?
    requires IsErrorStatus(world.transport(built.value).response.statusCode)
    ensures var res := world.transport(built.value).response;
      var out := Intended(built, world);
      out.Returned? && out.result.None? && out.err.Some?
        && Contains(Text(out.err.value), res.status)
        && (res.body.ReadOk? ==> Contains(Text(out.err.value), res.body.bytes))
  {
    var res := world.transport(built.value).response;
    var e := ApiError(Received(res)).value;
    ApiErrorMentions(res);
    WrappedMentionsCause(Execute, e);
    ContainsTransitive(Text(Wrapped(Execute, e)), Text(e), res.status);
    if res.body.ReadOk? {
      ContainsTransitive(Text(Wrapped(Execute, e)), Text(e), res.body.bytes);
    }
  }

  /** Any status below 400 (redirects included) whose body reads and decodes
      delivers the decoded value with no error; a body that does not decode
      gives the unmarshal error and no value. */
  lemma BelowErrorStatusDelivers<T>(built: Result<Request, Error>, world: World<T>)
    requires built.Success? && world.transport(built.value).Received?
    requires !IsErrorStatus(world.transport(built.value).response.statusCode)
    requires world.transport(built.value).response.body.ReadOk?
    ensures var d := world.decode(world.transport(built.value).response.body.bytes);
      d.DecodedValue? ==> AsWritten(built, world) == Returned(d.value, None)
    ensures var d := world.decode(world.transport(built.value).response.body.bytes);
      d.DecodeError? ==> AsWritten(built, world) == Returned(None, Some(Wrapped(Decode, Foreign(d.cause))))
  {
  }

  /** A body of JSON null leaves the post nil with no error, so an operation
      can return neither a result nor an error. */
  lemma NullBodyReturnsNeither(c: Client)
    ensures var world := World((v: HttpMethod, u: string) => None,
        (r: Request) => Received(Response(200, "200 OK", ReadOk("null"))),
        (b: string) => DecodedValue(None));
      AsWritten<Post>(GetPostHttpRequest(c, 1, world.refuse), world) == Returned(None, None)
  {
  }
}
