# go-docbase client, modelled in Dafny

This project models the core of go-docbase, a small Go client for the
DocBase HTTP API. It covers two parts of the client:

- **Posts** (`post.go`, `user.go`). These are the request and response records. The model covers the two
  `Validate` methods with their fixed check order and messages. It also covers the JSON body each
  request record marshals to, which depends on its `omitempty` tags.
- **Client** (`client.go`). The model covers the client constructor and the four request builders:
  method, URL, headers and body. It covers `executeAPI`'s status rule and the error texts it
  produces. It also covers the fixed pipeline behind `CreatePost`, `UpdatePost`, `GetPost` and
  `ListTags`: build the request, execute it, read the body, decode it.

## Modules

- `Wrappers`: `Option` and `Result`.
- `Decimal`: Go's `%d` formatting of an unsigned id, and a parser that inverts it.
- `Json`: JSON values as a tree. An object keeps its members, and their order, as marshalled.
- `Posts`:
  - the records;
  - the six validation errors and their messages;
  - `ValidateCreate`, exactly as written, and `ValidateCreateIntended`;
  - `ValidateUpdate`.
- `PostJson`:
  - the bodies `json.Marshal` produces for the two request records: which keys appear, in field order;
  - a reference decoder;
  - the round trip from each request to its body and back.
- `Errors`: the chain of wrapped errors and the text `fmt.Errorf` renders for it.
- `Api`:
  - the client configuration and the builders;
  - `ExecuteApi`;
  - the pipeline `Call`, as written;
  - `CallIntended`, the pipeline as evidently intended;
  - the four operations.

Everything outside the client is a parameter of an `Api.World`:

- `refuse` stands for `http.NewRequestWithContext`.
- `transport` stands for `httpClient.Do`, together with the outcome of reading the body.
- `decode` stands for `json.Unmarshal`.

Each operation's outcome is therefore proved for every behaviour of these three.

Some of what the code does departs from what its names, messages or Go conventions lead a
reader to expect. The model keeps the code's behaviour in each case:

- An update body always carries the untagged `ID` field, under the key `"ID"`. The other update
  fields are all `omitempty` and have lower-case keys, so this one member stands out.
- Create validation rejects a non-empty title. Its own message, "Title must not be empty", says the
  opposite.
- No operation calls `Validate` (client.go:37-135). An invalid request is built and sent as it is.
- Every status below 400, redirects included, counts as success, not just the 2xx range.
- A failed call does not return its "DocBase API error". It panics in `defer res.Body.Close()`,
  because the deferred call evaluates `res.Body` on the nil response right away.
- `UpdatePost(nil)` panics rather than returning an error.
  - `json.Marshal(nil)` gives `null`, and then the URL reads `req.ID`.
  - `CreatePost(nil)` differs: it sends the body `null`.
- A response body of JSON `null` returns a nil post and a nil error, not one of the two.
  - So the operations never return both a result and an error.
  - But they do not always return exactly one of them.

## Model

| member | source | states |
|---|---|---|
| Posts.ErrorOfMessageInverts | post.go:18-56 | Each validation error can be read back from its message. |
| Posts.MessageInjective | post.go:18-56 | The validation errors have pairwise different messages. |
| Posts.CreateNilFirst | post.go:19-21 | A nil create request gets the "CreatePostRequest must be set" error before any field is read. |
| Posts.CreateAcceptedIff | post.go:18-29 | As written, a create request is accepted iff it is set, its title is empty, and not (scope is group and there are no groups). |
| Posts.CreateCheckOrder | post.go:19-27 | The first failing check, in the order nil, title, group, decides the error. A set request never gets the nil error. |
| Posts.CreateIgnoresOtherFields | post.go:22-28 | Two requests with the same title and scope get the same verdict when they agree on whether groups are empty under group scope. Outside group scope the groups, and always the body, draft, tags and notice fields, make no difference. |
| Posts.CreateIntendedAcceptedIff | post.go:22-23 | The intended rule accepts iff the request is set, its title is non-empty, and it names a group whenever its scope is group. |
| Posts.CreateTitleCheckInverted | post.go:22-23 | A titled everyone-scope request is refused with "Title must not be empty" as written but accepted by the intended rule. An untitled one is accepted as written. |
| Posts.CreateValidatorsAlwaysDisagree | post.go:22-23 | The two create validators agree on no set request: for each one, exactly one of them returns the title error. |
| Posts.UpdateZeroIdRefused | post.go:46-48 | An update request with id 0 is refused with "ID must be specified", whatever its other fields hold. |
| Posts.UpdateAcceptedIff | post.go:42-56 | An update request is accepted iff it is set, its id is non-zero, and the scope is group exactly when groups are given. |
| Posts.UpdateCheckOrder | post.go:43-54 | Each update error is returned exactly when its check is the first one that fails, in the order nil, id, group required, group forbidden. |
| Posts.ValidatorsUseOwnErrors | post.go:18-56 | The create validator only returns create errors or none. The update validator never returns a create-only error. |
| PostJson.KeyOfName | post.go:8-40 | Each body key's JSON name reads back as that key, so the eight names are distinct. |
| PostJson.CreateKeys | post.go:8-16 | A create body has "title", "body", "draft", "scope" and "notice" always. It has "tags" and "groups" iff those lists are non-empty, and never "ID". |
| PostJson.UpdateKeys | post.go:31-40 | An update body has "ID" always, and every other key iff its field is not the zero value. |
| PostJson.CreateRoundTrip | post.go:8-16 | Decoding a create request's body gives back the request. |
| PostJson.BodyNamesAreFields | post.go:8-40 | Every member name of a create or update body is the JSON name of one of the record's fields. |
| PostJson.BodiesInFieldOrder | post.go:8-40 | The members of both bodies appear in the order the fields are declared. |
| PostJson.UpdateRoundTrip | post.go:31-40 | Decoding an update request's body gives back the request. Leaving a field out therefore means exactly the zero value. |
| Decimal.Format | client.go:184 | `%d` of an id is a non-empty string of digits. It has no leading zero unless the id is 0, and it is one digit iff the id is below 10. |
| Decimal.ParseFormat | client.go:184 | Parsing the decimal text of a number gives back that number. |
| Decimal.FormatInjective | client.go:200 | Different numbers have different decimal texts. |
| Errors.StageOfWrappedText | client.go:37-60 | The four stage messages map one-to-one onto the stages. A wrapped error's text starts with its own stage's message and no other's. |
| Errors.ServerErrorMentions | client.go:142-148 | A server error's text contains the status line; when the body was read, it contains the body too. |
| Errors.WrappedMentionsCause | client.go:46 | A wrapped error's text contains the cause's whole text. |
| Api.NewClient | client.go:28-35 | A new client keeps the team and token unchanged, and its API version is "2". |
| Api.PostUrlNamesId | client.go:184 | A post URL is the team's posts URL, a slash, and text that parses back to the id. |
| Api.PostUrlInjective | client.go:196-209 | Different ids give different post URLs. |
| Api.RoutesDistinct | client.go:160-215 | A post URL is never a posts or tags URL of any team, and a tags URL is never a posts URL. |
| Api.NewRequest | client.go:160-168 | The request is refused iff the request constructor refuses its method and URL, and then the error is "Failed to create request" around that refusal. Otherwise the request keeps the method, URL and body and has no headers yet. |
| Api.CreatePostHttpRequest | client.go:154-173 | On success: a POST to `https://api.docbase.io/teams/{team}/posts` with the token header, then `Content-Type: application/json`, and the marshalled request as body. Otherwise the wrapped refusal. |
| Api.UpdatePostHttpRequest | client.go:175-194 | On success: a PATCH to the posts URL plus `/` and the id in decimal, with the same two headers, and the update request's body. Otherwise the wrapped refusal. |
| Api.GetPostHttpRequest | client.go:196-209 | On success: a GET to the post's URL with only the token header and no body. Otherwise the wrapped refusal. |
| Api.ListTagsHttpRequest | client.go:211-224 | On success: a GET to `…/teams/{team}/tags` with only the token header and no body. Otherwise the wrapped refusal. |
| Api.RequestHeaders | client.go:170-222 | Every built request has the token under `X-DocBaseToken` exactly once. The two writes have exactly one `Content-Type: application/json`; the two reads have no content type. |
| Api.CreateRequestCarries | client.go:155-164 | The body sent by a create decodes back to the given request. A nil request sends JSON null. |
| Api.UpdateRequestCarries | client.go:176-186 | An update is sent to the URL of the request's own id, with a body that decodes back to the request. |
| Api.CreateIgnoresApiVersion | client.go:154-173 | Changing the stored API version does not change the create request built. |
| Api.UpdateIgnoresApiVersion | client.go:175-194 | Changing the stored API version does not change the update request built. |
| Api.GetIgnoresApiVersion | client.go:196-209 | Changing the stored API version does not change the get request built. |
| Api.ListTagsIgnoresApiVersion | client.go:211-224 | Changing the stored API version does not change the tags request built. |
| Api.ApiError | client.go:137-152 | There is an error iff the transport failed or the status is 400 or more. A transport failure gives "Failed to send http reqeust" around its cause. |
| Api.ApiErrorMentions | client.go:142-148 | The error for a status of 400 or more contains the status line, and the body when the body was read. |
| Api.ExecuteApi | client.go:137-152 | The error is the one `ApiError` assigns to the transport's reply. A response is returned exactly when there is no error, and it is the transport's own response. |
| Api.Call | client.go:37-60 | The pipeline as written ends as `AsWritten` says. A failed build, read or decode returns that stage's wrapped error; a failed call panics on the nil response; otherwise the decoded value is returned. |
| Api.CallIntended | client.go:37-60 | The pipeline with the error checked before the response is touched ends as `Intended` says: a failed call also returns its wrapped error. |
| Api.CreatePost | client.go:37-60 | CreatePost runs the pipeline as written on the create request built for its argument. |
| Api.UpdatePost | client.go:62-85 | UpdatePost panics on a nil request. Otherwise it runs the pipeline as written on the update request built for it. |
| Api.GetPost | client.go:87-110 | GetPost runs the pipeline as written on the GET request for the id. |
| Api.ListTags | client.go:112-135 | ListTags runs the pipeline as written on the tags request. Its value is a list of possibly-nil tags. |
| Api.AsWrittenDiffersOnlyOnCall | client.go:43-47 | The code and the intended behaviour agree unless the call fails. A failed call always panics. |
| Api.ErrorStatusPanics | client.go:44 | As written, a status of 400 or more makes the operation panic instead of returning the server error. |
| Api.IntendedOutcome | client.go:38-59 | Intended, an operation never panics and never returns both a result and an error. It returns an error iff some stage fails, and the error's text starts with the first failing stage's message. |
| Api.AsWrittenOutcome | client.go:37-135 | As written, a returning operation never returns both a result and an error. An error it returns names the stage that failed, and that stage is never the call. |
| Api.IntendedReportsErrorStatus | client.go:45-47 | Intended, a status of 400 or more returns no value and an error whose text contains the status line, and the body when it was read. |
| Api.BelowErrorStatusDelivers | client.go:49-59 | For a status below 400 with a readable body: a body that decodes gives the decoded value with no error; one that does not gives the unmarshal error and no value. |
| Api.NullBodyReturnsNeither | client.go:99-109 | A 200 response whose body is JSON null makes GetPost return neither a post nor an error. |

## Left out

- The network, `http.NewRequestWithContext`, `ioutil.ReadAll` and `json.Unmarshal` are library calls. They are the `refuse`, `transport` and `decode` parameters of a `World`.
- `httpClient.Do`'s own behaviour is not modelled. Redirects are followed inside it; the model sees only the final reply.
- `context.Context`: cancellation and deadlines belong to the transport. A context the request constructor rejects is one of its refusals.
- JSON text is not modelled. Request bodies are `Json` value trees, with no byte-level encoding or string escaping.
- `json.Marshal` failure is not modelled. The "Failed to marshal request to json" branch (client.go:155-158) cannot be taken for these record types.
- Decoding responses into `Post` and `Tag` is not modelled, and neither are the JSON keys of post.go:58-104 and user.go. `decode` is abstract, and the records are datatypes only.
- `Header.Add` canonicalises header names. Headers are kept as the pairs added, in order, under the names as written.
- `time.Time` and `Group` are kept opaque: `Posts.Time` wraps uninterpreted text and `Posts.Group` the JSON it came from.
- Closing the response body is not modelled, apart from the panic the deferred close causes on a nil response.
- sample/main.go is a demo program that reads the environment and prints. It is not part of this model.
- `Validate` never changing its receiver holds by construction: the validators are functions of a record value.
- Go's `uint` is taken to be 64 bits wide: `Decimal.Uint`.
- The `Client` interface (client.go:12-18) is not modelled as such. The four operations are methods that take the `Api.Client` value.
- Api.AsWrittenOutcome: states "never both a result and an error" rather than "exactly one", because a JSON null body returns neither (`Api.NullBodyReturnsNeither`).

## Findings

| source | as written | input that shows it | evidently intended | confidence | as-written member | corrected member |
|---|---|---|---|---|---|---|
| post.go:22 | The create check refuses a request whose title is not empty, with the message "Title must not be empty". | A set request titled "Release notes" with scope everyone is refused, and an untitled one is accepted. | Refuse an empty title, as the message says. | not executed | Posts.CreateTitleCheckInverted | Posts.CreateIntendedAcceptedIff |
| client.go:44 | `defer res.Body.Close()` runs before the error check, on the nil response `executeAPI` returns on failure. The same line is at client.go:69, 94 and 119. | Any reply with a status of 400 or more, for example a GetPost answered with 404, or any transport failure, panics instead of returning "DocBase API error". | Check the error first, and return the wrapped server error carrying its status and body. | not executed | Api.ErrorStatusPanics | Api.IntendedReportsErrorStatus |
