/** The records of post.go and user.go and the two request validators. */
module Posts {
  import opened Wrappers
  import opened Decimal
  import opened Json

  /** A post's visibility. Go's `Scope` is a string type, so any string is a
      scope; the three named constants are the ones the service knows. */
  type Scope = string

  const ScopeEveryone: Scope := "everyone"
  const ScopeGroup: Scope := "group"
  const ScopePrivate: Scope := "private"

  /** Stand-in for Go's `time.Time`: the instant is kept uninterpreted. */
  datatype Time = Time(raw: string)

  /** Stand-in for `Group`, a type no modelled file defines: kept as the JSON it came from. */
  datatype Group = Group(raw: Json)

  datatype User = User(id: Uint, name: string, profileImageUrl: string)

  datatype Tag = Tag(name: string)

  datatype Comment = Comment(id: string, body: string, createdAt: Time, user: User)

  datatype Attachment = Attachment(
    id: string, name: string, size: Uint, url: string, markdown: string, createdAt: Time)

  datatype Post = Post(
    id: Uint,
    title: string,
    body: string,
    draft: bool,
    archived: bool,
    url: string,
    createdAt: Time,
    updatedAt: Time,
    scope: Scope,
    tags: seq<Tag>,
    user: User,
    starsCount: Uint,
    goodJobsCount: Uint,
    sharingUrl: Option<Time>,
    comments: seq<Comment>,
    groups: seq<Group>,
    attachments: seq<Attachment>)

  datatype CreatePostRequest = CreatePostRequest(
    title: string,
    body: string,
    draft: bool,
    scope: Scope,
    tags: seq<string>,
    groups: seq<Uint>,
    notice: bool)

  /** Every field but `id` left at its zero value means "leave unchanged". */
  datatype UpdatePostRequest = UpdatePostRequest(
    id: Uint,
    title: string,
    body: string,
    draft: bool,
    scope: Scope,
    tags: seq<string>,
    groups: seq<Uint>,
    notice: bool)

  /** The six errors the validators can return, one per distinct message. */
  datatype ValidationError =
    | CreateRequestNotSet
    | TitleMustNotBeEmpty
    | GroupRequired
    | UpdateRequestNotSet
    | IdNotSpecified
    | GroupForbidden

  function Message(e: ValidationError): string {
    match e
    case CreateRequestNotSet => "CreatePostRequest must be set"
    case TitleMustNotBeEmpty => "Title must not be empty"
    case GroupRequired => "Group must be specified when the scope is group"
    case UpdateRequestNotSet => "UpdatePostRequest must be set"
    case IdNotSpecified => "ID must be specified"
    case GroupForbidden => "Group cannot be set when the scope is not group"
  }

  /** Tells the validation errors apart by their text: its length, and one
      character where two messages have the same length. */
  function ErrorOfMessage(m: string): Option<ValidationError> {
    if |m| == 23 then Some(TitleMustNotBeEmpty)
    else if |m| == 20 then Some(IdNotSpecified)
    else if |m| == 29 then (if m[0] == 'C' then Some(CreateRequestNotSet) else Some(UpdateRequestNotSet))
    else if |m| == 47 then (if m[6] == 'm' then Some(GroupRequired) else Some(GroupForbidden))
    else None
  }

  /** Each error is recovered from its message. */
  lemma ErrorOfMessageInverts(e: ValidationError)
    ensures ErrorOfMessage(Message(e)) == Some(e)
  {
    var m := Message(e);
    match e
    case CreateRequestNotSet => assert |m| == 29 && m[0] == 'C';
    case TitleMustNotBeEmpty => assert |m| == 23;
    case GroupRequired => assert |m| == 47 && m[6] == 'm';
    case UpdateRequestNotSet => assert |m| == 29 && m[0] == 'U';
    case IdNotSpecified => assert |m| == 20;
    case GroupForbidden => assert |m| == 47 && m[6] == 'c';
  }

  /** Different errors carry different messages, so a caller can tell them apart by text. */
  lemma MessageInjective(a: ValidationError, b: ValidationError)
    ensures Message(a) == Message(b) ==> a == b
  {
    ErrorOfMessageInverts(a);
    ErrorOfMessageInverts(b);
  }

  // ---------------------------------------------------------------------------
  // CreatePostRequest.Validate, as written: the title test rejects a non-empty
  // title although its message says the title must not be empty.

  function ValidateCreate(r: Option<CreatePostRequest>): Option<ValidationError> {
    if r.None? then Some(CreateRequestNotSet)
    else if r.value.title != "" then Some(TitleMustNotBeEmpty)
    else if r.value.scope == ScopeGroup && |r.value.groups| == 0 then Some(GroupRequired)
    else None
  }

  /** A nil request is refused with the "must be set" error, before any field is looked at. */
  lemma CreateNilFirst()
    ensures ValidateCreate(None) == Some(CreateRequestNotSet)
    ensures Message(ValidateCreate(None).value) == "CreatePostRequest must be set"
  {
  }

  /** Exactly the non-nil requests with an empty title that do not ask for
      group scope without groups are accepted. */
  lemma CreateAcceptedIff(r: Option<CreatePostRequest>)
    ensures ValidateCreate(r).None? <==>
      r.Some? && r.value.title == "" && !(r.value.scope == ScopeGroup && |r.value.groups| == 0)
  {
  }

  /** Every failing check yields its own error, in the order nil, title, group. */
  lemma CreateCheckOrder(r: CreatePostRequest)
    ensures r.title != "" ==> ValidateCreate(Some(r)) == Some(TitleMustNotBeEmpty)
    ensures r.title == "" && r.scope == ScopeGroup && r.groups == [] ==>
      ValidateCreate(Some(r)) == Some(GroupRequired)
    ensures ValidateCreate(Some(r)) != Some(CreateRequestNotSet)
  {
  }

  /** Outside group scope the groups are not restricted, and the body, draft,
      tags and notice fields are never consulted. */
  lemma CreateIgnoresOtherFields(r: CreatePostRequest, s: CreatePostRequest)
    requires r.title == s.title && r.scope == s.scope
    requires r.scope != ScopeGroup || (|r.groups| == 0 <==> |s.groups| == 0)
    ensures ValidateCreate(Some(r)) == ValidateCreate(Some(s))
  {
  }

  /** The validator as its message reads: the title must be non-empty. */
  function ValidateCreateIntended(r: Option<CreatePostRequest>): Option<ValidationError> {
    if r.None? then Some(CreateRequestNotSet)
    else if r.value.title == "" then Some(TitleMustNotBeEmpty)
    else if r.value.scope == ScopeGroup && |r.value.groups| == 0 then Some(GroupRequired)
    else None
  }

  /** The intended rule accepts a request iff it is set, titled, and names a
      group whenever its scope is group. */
  lemma CreateIntendedAcceptedIff(r: Option<CreatePostRequest>)
    ensures ValidateCreateIntended(r).None? <==>
      r.Some? && r.value.title != "" && (r.value.scope != ScopeGroup || |r.value.groups| > 0)
  {
  }

  /** A titled everyone-scope request separates the two: the as-written check
      refuses it with "Title must not be empty", the intended one accepts it; an
      untitled one is accepted as written. */
  lemma CreateTitleCheckInverted()
    ensures ValidateCreate(Some(CreatePostRequest("Release notes", "", false, ScopeEveryone, [], [], false)))
      == Some(TitleMustNotBeEmpty)
    ensures ValidateCreateIntended(Some(CreatePostRequest("Release notes", "", false, ScopeEveryone, [], [], false)))
      == None
    ensures ValidateCreate(Some(CreatePostRequest("", "", false, ScopeEveryone, [], [], false))) == None
  {
  }

  /** The two create validators agree on no set request: exactly one of
      them returns the title error. */
  lemma CreateValidatorsAlwaysDisagree(r: CreatePostRequest)
    ensures ValidateCreate(Some(r)) != ValidateCreateIntended(Some(r))
    ensures (ValidateCreate(Some(r)) == Some(TitleMustNotBeEmpty))
      != (ValidateCreateIntended(Some(r)) == Some(TitleMustNotBeEmpty))
  {
  }

  // ---------------------------------------------------------------------------
  // UpdatePostRequest.Validate

  function ValidateUpdate(r: Option<UpdatePostRequest>): Option<ValidationError> {
    if r.None? then Some(UpdateRequestNotSet)
    else if r.value.id == 0 then Some(IdNotSpecified)
    else if r.value.scope == ScopeGroup && |r.value.groups| == 0 then Some(GroupRequired)
    else if r.value.scope != ScopeGroup && |r.value.groups| > 0 then Some(GroupForbidden)
    else None
  }

  /** A zero id is refused whatever the other fields hold. */
  lemma UpdateZeroIdRefused(r: UpdatePostRequest)
    requires r.id == 0
    ensures ValidateUpdate(Some(r)) == Some(IdNotSpecified)
    ensures Message(ValidateUpdate(Some(r)).value) == "ID must be specified"
  {
  }

  /** Accepted iff set, with a non-zero id, and groups given exactly when the scope is group. */
  lemma UpdateAcceptedIff(r: Option<UpdatePostRequest>)
    ensures ValidateUpdate(r).None? <==>
      r.Some? && r.value.id != 0 && (r.value.scope == ScopeGroup <==> |r.value.groups| > 0)
  {
  }

  /** The first failing check, in the order nil, id, group required, group forbidden, decides the error. */
  lemma UpdateCheckOrder(r: Option<UpdatePostRequest>)
    ensures ValidateUpdate(r) == Some(UpdateRequestNotSet) <==> r.None?
    ensures ValidateUpdate(r) == Some(IdNotSpecified) <==> r.Some? && r.value.id == 0
    ensures ValidateUpdate(r) == Some(GroupRequired) <==>
      r.Some? && r.value.id != 0 && r.value.scope == ScopeGroup && |r.value.groups| == 0
    ensures ValidateUpdate(r) == Some(GroupForbidden) <==>
      r.Some? && r.value.id != 0 && r.value.scope != ScopeGroup && |r.value.groups| > 0
  {
  }

  /** The update validator never returns an error that belongs to the create validator, and vice versa. */
  lemma ValidatorsUseOwnErrors(c: Option<CreatePostRequest>, u: Option<UpdatePostRequest>)
    ensures ValidateCreate(c) in {None, Some(CreateRequestNotSet), Some(TitleMustNotBeEmpty), Some(GroupRequired)}
    ensures ValidateUpdate(u) !in {Some(CreateRequestNotSet), Some(TitleMustNotBeEmpty)}
  {
  }
}
