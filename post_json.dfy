/** The JSON bodies `encoding/json` writes for the two request records, as
    their struct tags decide: keys in field order, `omitempty` fields dropped
    when they hold their zero value, and the untagged `ID` field written under
    its Go name. A reference decoder reads such a body back. */
module PostJson {
  import opened Wrappers
  import opened Decimal
  import opened Json
  import opened Posts

  function EncodeStrings(xs: seq<string>): (js: seq<Json>)
    ensures |js| == |xs|
  {
    if xs == [] then [] else [JString(xs[0])] + EncodeStrings(xs[1..])
  }

  function EncodeUints(xs: seq<Uint>): (js: seq<Json>)
    ensures |js| == |xs|
  {
    if xs == [] then [] else [JNumber(xs[0])] + EncodeUints(xs[1..])
  }

  /** The member names the two request records use, one per tagged field
      plus the untagged `ID`. */
  datatype Key = IdKey | TitleKey | BodyKey | DraftKey | ScopeKey | TagsKey | GroupsKey | NoticeKey

  /** The name a key is written under: the struct tag's name, or the Go field name for `ID`. */
  function Name(k: Key): string {
    match k
    case IdKey => "ID"
    case TitleKey => "title"
    case BodyKey => "body"
    case DraftKey => "draft"
    case ScopeKey => "scope"
    case TagsKey => "tags"
    case GroupsKey => "groups"
    case NoticeKey => "notice"
  }

  /** The key a member name stands for; names of no field are ignored by the decoder. */
  function KeyOf(name: string): Option<Key> {
    if name == "ID" then Some(IdKey)
    else if name == "title" then Some(TitleKey)
    else if name == "body" then Some(BodyKey)
    else if name == "draft" then Some(DraftKey)
    else if name == "scope" then Some(ScopeKey)
    else if name == "tags" then Some(TagsKey)
    else if name == "groups" then Some(GroupsKey)
    else if name == "notice" then Some(NoticeKey)
    else None
  }

  lemma KeyOfName(k: Key)
    ensures KeyOf(Name(k)) == Some(k)
  {
  }

  /** Every member a record can write, in field order, each marked with
      whether it is written: a member whose field carries `omitempty` is
      written only when the field is not its zero value. */
  datatype Slots = NoMore | Slot(key: Key, value: Json, emitted: bool, rest: Slots)

  /** What a body holds under `k`: the value of the first slot for `k`, if it is written. */
  function Find(s: Slots, k: Key): Option<Json> {
    match s
    case NoMore => None
    case Slot(k', v, emitted, rest) => if k' == k then (if emitted then Some(v) else None) else Find(rest, k)
  }

  /** Some slot is for `k`, written or not. */
  predicate HasKey(s: Slots, k: Key) {
    s.Slot? && (s.key == k || HasKey(s.rest, k))
  }

  /** No key has two slots. */
  predicate DistinctKeys(s: Slots) {
    s.Slot? ==> !HasKey(s.rest, s.key) && DistinctKeys(s.rest)
  }

  /** Some slot for `k` is written. */
  predicate Written(s: Slots, k: Key) {
    s.Slot? && ((s.key == k && s.emitted) || Written(s.rest, k))
  }

  lemma {:induction false} AbsentNotFound(s: Slots, k: Key)
    requires !HasKey(s, k)
    ensures Find(s, k).None? && !Written(s, k)
  {
    if s.Slot? {
      AbsentNotFound(s.rest, k);
    }
  }

  /** Adds one slot in front of `rest`; the ensures lets the verifier look
      through a chain of slots one link at a time. */
  function Put(k: Key, value: Json, emitted: bool, rest: Slots): (s: Slots)
    ensures s.Slot? && s.key == k && s.value == value && s.emitted == emitted && s.rest == rest
    ensures forall k' :: Find(s, k') == if k' == k then (if emitted then Some(value) else None) else Find(rest, k')
    ensures forall k' :: HasKey(s, k') <==> k' == k || HasKey(rest, k')
    ensures forall k' :: Written(s, k') <==> (k' == k && emitted) || Written(rest, k')
    ensures DistinctKeys(s) <==> !HasKey(rest, k) && DistinctKeys(rest)
  {
    Slot(k, value, emitted, rest)
  }

  /** The members written, under their names. */
  function Render(s: Slots): seq<(string, Json)> {
    match s
    case NoMore => []
    case Slot(k, v, emitted, rest) => (if emitted then [(Name(k), v)] else []) + Render(rest)
  }

  /** Reads member names back into keys, skipping names that are no field's;
      every member read counts as written. */
  function Recognize(named: seq<(string, Json)>): Slots {
    if named == [] then NoMore
    else
      var rest := Recognize(named[1..]);
      match KeyOf(named[0].0)
      case Some(k) => Slot(k, named[0].1, true, rest)
      case None => rest
  }

  /** Reading the names back gives every key the value written under it. */
  lemma {:induction false} RecognizeRender(s: Slots, k: Key)
    requires DistinctKeys(s)
    ensures Find(Recognize(Render(s)), k) == Find(s, k)
  {
    if s.Slot? {
      if s.key == k {
        AbsentNotFound(s.rest, k);
      }
      RecognizeRender(s.rest, k);
      if s.emitted {
        var named := Render(s);
        assert named == [(Name(s.key), s.value)] + Render(s.rest);
        assert named[1..] == Render(s.rest);
        KeyOfName(s.key);
      } else {
        assert Render(s) == Render(s.rest);
      }
    }
  }

  /** The slots of a create body: only `tags` and `groups` carry `omitempty`. */
  function CreateSlots(r: CreatePostRequest): Slots {
    Put(TitleKey, JString(r.title), true,
    Put(BodyKey, JString(r.body), true,
    Put(DraftKey, JBool(r.draft), true,
    Put(ScopeKey, JString(r.scope), true,
    Put(TagsKey, JArray(EncodeStrings(r.tags)), |r.tags| > 0,
    Put(GroupsKey, JArray(EncodeUints(r.groups)), |r.groups| > 0,
    Put(NoticeKey, JBool(r.notice), true, NoMore)))))))
  }

  /** The slots of an update body: every tagged field carries `omitempty`;
      `ID` has no tag and is always written. */
  function UpdateSlots(r: UpdatePostRequest): Slots {
    Put(IdKey, JNumber(r.id), true,
    Put(TitleKey, JString(r.title), r.title != "",
    Put(BodyKey, JString(r.body), r.body != "",
    Put(DraftKey, JBool(r.draft), r.draft,
    Put(ScopeKey, JString(r.scope), r.scope != "",
    Put(TagsKey, JArray(EncodeStrings(r.tags)), |r.tags| > 0,
    Put(GroupsKey, JArray(EncodeUints(r.groups)), |r.groups| > 0,
    Put(NoticeKey, JBool(r.notice), r.notice, NoMore))))))))
  }

  function EncodeCreate(r: CreatePostRequest): Json {
    JObject(Render(CreateSlots(r)))
  }

  function EncodeUpdate(r: UpdatePostRequest): Json {
    JObject(Render(UpdateSlots(r)))
  }

  /** `json.Marshal` of a request pointer: nil becomes `null`. */
  function MarshalCreate(r: Option<CreatePostRequest>): Json {
    if r.None? then JNull else EncodeCreate(r.value)
  }

  /** A nil update request also marshals to `null`; `UpdatePost` then
      panics on its id before the body is used. */
  function MarshalUpdate(r: Option<UpdatePostRequest>): Json {
    if r.None? then JNull else EncodeUpdate(r.value)
  }

  // ---------------------------------------------------------------------------
  // Which keys appear.

  /** The names of a rendered slot list: the first slot's name when it is
      written, then the rest's. */
  lemma NamesRenderSlot(s: Slots)
    requires s.Slot?
    ensures Names(Render(s)) == (if s.emitted then [Name(s.key)] else []) + Names(Render(s.rest))
  {
    var named := Render(s);
    if s.emitted {
      assert named == [(Name(s.key), s.value)] + Render(s.rest);
      assert named[1..] == Render(s.rest);
    } else {
      assert named == Render(s.rest);
    }
  }

  /** Every name written is the name of some field. */
  lemma {:induction false} RenderedNamesKnown(s: Slots)
    ensures forall n :: n in Names(Render(s)) ==> KeyOf(n).Some?
  {
    if s.Slot? {
      RenderedNamesKnown(s.rest);
      NamesRenderSlot(s);
      KeyOfName(s.key);
    }
  }

  /** A key's position among the fields of the request records. */
  function Rank(k: Key): nat {
    match k
    case IdKey => 0
    case TitleKey => 1
    case BodyKey => 2
    case DraftKey => 3
    case ScopeKey => 4
    case TagsKey => 5
    case GroupsKey => 6
    case NoticeKey => 7
  }

  function NameRank(n: string): int {
    match KeyOf(n)
    case Some(k) => Rank(k)
    case None => -1
  }

  /** Names that follow the order the fields are declared in. */
  predicate InFieldOrder(names: seq<string>) {
    forall i, j :: 0 <= i < j < |names| ==> NameRank(names[i]) < NameRank(names[j])
  }

  /** The slots' keys rank above `lo` and rise strictly from one slot to the next. */
  predicate AscendingFrom(s: Slots, lo: int) {
    s.Slot? ==> lo < Rank(s.key) && AscendingFrom(s.rest, Rank(s.key))
  }

  /** Slots in field order are written in field order, every name ranked above `lo`. */
  lemma {:induction false} AscendingRender(s: Slots, lo: int)
    requires AscendingFrom(s, lo)
    ensures InFieldOrder(Names(Render(s)))
    ensures forall n :: n in Names(Render(s)) ==> lo < NameRank(n)
  {
    if s.Slot? {
      AscendingRender(s.rest, Rank(s.key));
      NamesRenderSlot(s);
      KeyOfName(s.key);
      if s.emitted {
        var names := Names(Render(s));
        var rest := Names(Render(s.rest));
        assert names == [Name(s.key)] + rest;
        forall i, j | 0 <= i < j < |names|
          ensures NameRank(names[i]) < NameRank(names[j])
        {
          assert names[j] == rest[j - 1];
          assert rest[j - 1] in rest;
          if i > 0 {
            assert names[i] == rest[i - 1];
          }
        }
      }
    }
  }

  /** Neither body has a member that is no field's. */
  lemma BodyNamesAreFields(c: CreatePostRequest, u: UpdatePostRequest)
    ensures forall n :: n in Keys(EncodeCreate(c)) ==> KeyOf(n).Some?
    ensures forall n :: n in Keys(EncodeUpdate(u)) ==> KeyOf(n).Some?
  {
    RenderedNamesKnown(CreateSlots(c));
    RenderedNamesKnown(UpdateSlots(u));
  }

  /** Both bodies list their members in the order the fields are declared. */
  lemma BodiesInFieldOrder(c: CreatePostRequest, u: UpdatePostRequest)
    ensures InFieldOrder(Keys(EncodeCreate(c)))
    ensures InFieldOrder(Keys(EncodeUpdate(u)))
  {
    var cs := CreateSlots(c);
    assert AscendingFrom(cs.rest.rest.rest.rest.rest.rest, Rank(GroupsKey));
    assert AscendingFrom(cs.rest.rest.rest.rest.rest, Rank(TagsKey));
    assert AscendingFrom(cs.rest.rest.rest.rest, Rank(ScopeKey));
    assert AscendingFrom(cs.rest.rest.rest, Rank(DraftKey));
    assert AscendingFrom(cs.rest.rest, Rank(BodyKey));
    assert AscendingFrom(cs.rest, Rank(TitleKey));
    AscendingRender(cs, -1);
    var us := UpdateSlots(u);
    assert AscendingFrom(us.rest.rest.rest.rest.rest.rest.rest, Rank(GroupsKey));
    assert AscendingFrom(us.rest.rest.rest.rest.rest.rest, Rank(TagsKey));
    assert AscendingFrom(us.rest.rest.rest.rest.rest, Rank(ScopeKey));
    assert AscendingFrom(us.rest.rest.rest.rest, Rank(DraftKey));
    assert AscendingFrom(us.rest.rest.rest, Rank(BodyKey));
    assert AscendingFrom(us.rest.rest, Rank(TitleKey));
    assert AscendingFrom(us.rest, Rank(IdKey));
    AscendingRender(us, -1);
  }

  /** A name appears in the written body exactly when a slot for its key is written. */
  lemma {:induction false} WrittenNames(s: Slots, k: Key)
    ensures Name(k) in Names(Render(s)) <==> Written(s, k)
  {
    if s.Slot? {
      WrittenNames(s.rest, k);
      var named := Render(s);
      KeyOfName(k);
      KeyOfName(s.key);
      if s.emitted {
        assert named == [(Name(s.key), s.value)] + Render(s.rest);
        assert Names(named) == [Name(s.key)] + Names(Render(s.rest)) by {
          assert named[1..] == Render(s.rest);
        }
      } else {
        assert named == Render(s.rest);
      }
    }
  }

  /** A create body always has the title, body, draft, scope and notice
      keys, has tags and groups only when those lists are non-empty, and
      never has `ID`. */
  lemma CreateKeys(r: CreatePostRequest, k: Key)
    ensures Name(k) in Keys(EncodeCreate(r)) <==>
      k != IdKey && (k == TagsKey ==> |r.tags| > 0) && (k == GroupsKey ==> |r.groups| > 0)
  {
    WrittenNames(CreateSlots(r), k);
  }

  /** Whether an update request sets the field under `k`: the id always counts,
      every other field only when it is not its zero value. */
  predicate UpdateSets(r: UpdatePostRequest, k: Key) {
    match k
    case IdKey => true
    case TitleKey => r.title != ""
    case BodyKey => r.body != ""
    case DraftKey => r.draft
    case ScopeKey => r.scope != ""
    case TagsKey => |r.tags| > 0
    case GroupsKey => |r.groups| > 0
    case NoticeKey => r.notice
  }

  /** An update body has `ID`, and a tagged key exactly when its field is not the zero value. */
  lemma UpdateKeys(r: UpdatePostRequest, k: Key)
    ensures Name(k) in Keys(EncodeUpdate(r)) <==> UpdateSets(r, k)
  {
    WrittenNames(UpdateSlots(r), k);
  }



  // ---------------------------------------------------------------------------
  // A reference decoder, written as the inverse of the encoder above and not
  // as a model of Go's `json.Unmarshal`: it matches names exactly and keeps
  // the first of duplicate names, where `encoding/json` also accepts names
  // differing in case and keeps the last duplicate. An absent key reads as
  // the field's zero value; a present key must hold a value of the field's type.

  function DecodeStrings(js: seq<Json>): Option<seq<string>> {
    if js == [] then Some([])
    else if !js[0].JString? then None
    else
      var rest :- DecodeStrings(js[1..]);
      Some([js[0].s] + rest)
  }

  function DecodeUints(js: seq<Json>): Option<seq<Uint>> {
    if js == [] then Some([])
    else if !(js[0].JNumber? && 0 <= js[0].n < UINT_LIMIT) then None
    else
      var rest :- DecodeUints(js[1..]);
      Some([js[0].n as Uint] + rest)
  }

  function StringField(ms: Slots, k: Key): Option<string> {
    match Find(ms, k)
    case None => Some("")
    case Some(JString(s)) => Some(s)
    case Some(_) => None
  }

  function BoolField(ms: Slots, k: Key): Option<bool> {
    match Find(ms, k)
    case None => Some(false)
    case Some(JBool(b)) => Some(b)
    case Some(_) => None
  }

  function UintField(ms: Slots, k: Key): Option<Uint> {
    match Find(ms, k)
    case None => Some(0)
    case Some(JNumber(n)) => if 0 <= n < UINT_LIMIT then Some(n as Uint) else None
    case Some(_) => None
  }

  function StringsField(ms: Slots, k: Key): Option<seq<string>> {
    match Find(ms, k)
    case None => Some([])
    case Some(JArray(items)) => DecodeStrings(items)
    case Some(_) => None
  }

  function UintsField(ms: Slots, k: Key): Option<seq<Uint>> {
    match Find(ms, k)
    case None => Some([])
    case Some(JArray(items)) => DecodeUints(items)
    case Some(_) => None
  }

  function DecodeCreate(j: Json): Option<CreatePostRequest> {
    if !j.JObject? then None
    else
      var ms := Recognize(j.members);
      var title :- StringField(ms, TitleKey);
      var body :- StringField(ms, BodyKey);
      var draft :- BoolField(ms, DraftKey);
      var scope :- StringField(ms, ScopeKey);
      var tags :- StringsField(ms, TagsKey);
      var groups :- UintsField(ms, GroupsKey);
      var notice :- BoolField(ms, NoticeKey);
      Some(CreatePostRequest(title, body, draft, scope, tags, groups, notice))
  }

  function DecodeUpdate(j: Json): Option<UpdatePostRequest> {
    if !j.JObject? then None
    else
      var ms := Recognize(j.members);
      var id :- UintField(ms, IdKey);
      var title :- StringField(ms, TitleKey);
      var body :- StringField(ms, BodyKey);
      var draft :- BoolField(ms, DraftKey);
      var scope :- StringField(ms, ScopeKey);
      var tags :- StringsField(ms, TagsKey);
      var groups :- UintsField(ms, GroupsKey);
      var notice :- BoolField(ms, NoticeKey);
      Some(UpdatePostRequest(id, title, body, draft, scope, tags, groups, notice))
  }

  // ---------------------------------------------------------------------------
  // Round trips.

  lemma {:induction false} StringsRoundTrip(xs: seq<string>)
    ensures DecodeStrings(EncodeStrings(xs)) == Some(xs)
  {
    if xs != [] {
      var js := EncodeStrings(xs);
      assert js[1..] == EncodeStrings(xs[1..]);
      StringsRoundTrip(xs[1..]);
      assert xs == [xs[0]] + xs[1..];
    }
  }

  lemma {:induction false} UintsRoundTrip(xs: seq<Uint>)
    ensures DecodeUints(EncodeUints(xs)) == Some(xs)
  {
    if xs != [] {
      var js := EncodeUints(xs);
      assert js[1..] == EncodeUints(xs[1..]);
      UintsRoundTrip(xs[1..]);
      assert xs == [xs[0]] + xs[1..];
    }
  }

  /** The decoder yields `r` from any members whose fields each read as `r`'s. */
  lemma DecodeCreateFields(named: seq<(string, Json)>, r: CreatePostRequest)
    requires var ms := Recognize(named);
      && StringField(ms, TitleKey) == Some(r.title) && StringField(ms, BodyKey) == Some(r.body)
      && BoolField(ms, DraftKey) == Some(r.draft) && StringField(ms, ScopeKey) == Some(r.scope)
      && StringsField(ms, TagsKey) == Some(r.tags) && UintsField(ms, GroupsKey) == Some(r.groups)
      && BoolField(ms, NoticeKey) == Some(r.notice)
    ensures DecodeCreate(JObject(named)) == Some(r)
  {
  }

  lemma DecodeUpdateFields(named: seq<(string, Json)>, r: UpdatePostRequest)
    requires var ms := Recognize(named);
      && UintField(ms, IdKey) == Some(r.id)
      && StringField(ms, TitleKey) == Some(r.title) && StringField(ms, BodyKey) == Some(r.body)
      && BoolField(ms, DraftKey) == Some(r.draft) && StringField(ms, ScopeKey) == Some(r.scope)
      && StringsField(ms, TagsKey) == Some(r.tags) && UintsField(ms, GroupsKey) == Some(r.groups)
      && BoolField(ms, NoticeKey) == Some(r.notice)
    ensures DecodeUpdate(JObject(named)) == Some(r)
  {
  }

  /** Decoding a create body gives back the request field for field. */
  lemma CreateRoundTrip(r: CreatePostRequest)
    ensures DecodeCreate(EncodeCreate(r)) == Some(r)
  {
    var s := CreateSlots(r);
    assert DistinctKeys(s);
    var ms := Recognize(Render(s));
    assert StringField(ms, TitleKey) == Some(r.title) by { RecognizeRender(s, TitleKey); }
    assert StringField(ms, BodyKey) == Some(r.body) by { RecognizeRender(s, BodyKey); }
    assert BoolField(ms, DraftKey) == Some(r.draft) by { RecognizeRender(s, DraftKey); }
    assert StringField(ms, ScopeKey) == Some(r.scope) by { RecognizeRender(s, ScopeKey); }
    assert StringsField(ms, TagsKey) == Some(r.tags) by {
      RecognizeRender(s, TagsKey);
      StringsRoundTrip(r.tags);
    }
    assert UintsField(ms, GroupsKey) == Some(r.groups) by {
      RecognizeRender(s, GroupsKey);
      UintsRoundTrip(r.groups);
    }
    assert BoolField(ms, NoticeKey) == Some(r.notice) by { RecognizeRender(s, NoticeKey); }
    DecodeCreateFields(Render(s), r);
  }

  /** Dropping zero-valued fields loses nothing: decoding an update body gives back the request. */
  lemma UpdateRoundTrip(r: UpdatePostRequest)
    ensures DecodeUpdate(EncodeUpdate(r)) == Some(r)
  {
    var s := UpdateSlots(r);
    assert DistinctKeys(s);
    var ms := Recognize(Render(s));
    assert UintField(ms, IdKey) == Some(r.id) by { RecognizeRender(s, IdKey); }
    assert StringField(ms, TitleKey) == Some(r.title) by { RecognizeRender(s, TitleKey); }
    assert StringField(ms, BodyKey) == Some(r.body) by { RecognizeRender(s, BodyKey); }
    assert BoolField(ms, DraftKey) == Some(r.draft) by { RecognizeRender(s, DraftKey); }
    assert StringField(ms, ScopeKey) == Some(r.scope) by { RecognizeRender(s, ScopeKey); }
    assert StringsField(ms, TagsKey) == Some(r.tags) by {
      RecognizeRender(s, TagsKey);
      StringsRoundTrip(r.tags);
    }
    assert UintsField(ms, GroupsKey) == Some(r.groups) by {
      RecognizeRender(s, GroupsKey);
      UintsRoundTrip(r.groups);
    }
    assert BoolField(ms, NoticeKey) == Some(r.notice) by { RecognizeRender(s, NoticeKey); }
    DecodeUpdateFields(Render(s), r);
  }
}
