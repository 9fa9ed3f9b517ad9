/** The field projector: per-kind allowlists, the generic key filter, and the
    four projections that turn a source document into its target document. */
module Projection {
  import opened Wrappers
  import opened Values
  import opened Timestamps

  /** Allowed user fields; the first is the key field. */
  const UserKeys: seq<string> := [
    "user_id", "username", "email", "created_at", "last_login",
    "currently_logged_in", "digital_twins", "last_used_digital_twin"]

  /** Allowed digital-twin fields; the first is the key field. */
  const DigitalTwinKeys: seq<string> := [
    "digital_twin_id", "user_id", "name", "description", "created_at", "icon",
    "reference_audio", "files", "system_prompt_reference_image_description",
    "system_prompt_reference_audio_description", "system_prompt_description",
    "default_conversation"]

  /** Declared conversation schema. The projector does not read it; it loops
      over `ConversationFields` and sets the two id fields itself. */
  const ConversationKeys: seq<string> := [
    "conversation_id", "digital_twin_id", "summary", "created_at", "updated_at", "message_count"]

  /** Every field the conversation projector writes is in the declared schema. */
  lemma ConversationSchemaCovers()
    ensures "conversation_id" in ConversationKeys && "digital_twin_id" in ConversationKeys
    ensures forall k :: k in ConversationFields ==> k in ConversationKeys
  {
    assert ConversationKeys[0] == "conversation_id" && ConversationKeys[1] == "digital_twin_id";
    assert ConversationKeys[2..] == ConversationFields;
  }

  /** The optional fields the conversation projector copies. */
  const ConversationFields: seq<string> := ["summary", "created_at", "updated_at", "message_count"]

  /** Declared message schema. The projector does not read it either. */
  const MessageKeys: seq<string> := [
    "message_id", "digital_twin_id", "conversation_id", "sender", "message", "media",
    "timestamp", "type"]

  // ---------------------------------------------------------------------------
  // Generic key filter
  // ---------------------------------------------------------------------------

  /** The filter keeps `_id` and every field not starting with an underscore. */
  predicate Kept(k: string)
    requires k != ""
  {
    k == "_id" || k[0] != '_'
  }

  /** A `$date` wrapper is normalised; every other value is kept as is. */
  function Unwrap(iso: IsoParser, v: Value): Value
  {
    if IsDateWrapper(v) then AsValue(ToDatetime(iso, v)) else v
  }

  /** `snapshot_to_dict_keys`. Testing `k[0]` on the empty field name raises
      IndexError, which aborts the whole call whatever the iteration order. */
  function SnapshotToDictKeys(iso: IsoParser, snapshot: Fields): (r: Result<Fields, PyError>)
    ensures r.Failure? <==> "" in snapshot
    ensures r.Failure? ==> r.error == IndexError
    ensures r.Success? ==> r.value.Keys == set k | k in snapshot && k != "" && Kept(k)
    ensures r.Success? ==> forall k :: k in r.value ==>
              r.value[k] == (if IsDateWrapper(snapshot[k]) then AsValue(ToDatetime(iso, snapshot[k])) else snapshot[k])
  {
    if "" in snapshot then Failure(IndexError)
    else Success(map k | k in snapshot && Kept(k) :: Unwrap(iso, snapshot[k]))
  }

  /** Filtering an already filtered document changes nothing: no underscore
      field survives and no `$date` wrapper remains. */
  lemma SnapshotFilterIdempotent(iso: IsoParser, snapshot: Fields)
    requires SnapshotToDictKeys(iso, snapshot).Success?
    ensures SnapshotToDictKeys(iso, SnapshotToDictKeys(iso, snapshot).value) == SnapshotToDictKeys(iso, snapshot)
  {
    var once := SnapshotToDictKeys(iso, snapshot).value;
    assert "" !in once;
    var twice := SnapshotToDictKeys(iso, once).value;
    assert twice.Keys == once.Keys;
    forall k | k in once
      ensures twice[k] == once[k]
    {
      assert !IsDateWrapper(once[k]);
    }
    assert twice == once;
  }

  // ---------------------------------------------------------------------------
  // Allowlist projection
  // ---------------------------------------------------------------------------

  /** A field value after the kind's conversion rule: normalised when the rule
      picks it, copied verbatim otherwise. */
  function Converted(iso: IsoParser, converts: (string, Value) -> bool, k: string, v: Value): Value
  {
    if converts(k, v) then AsValue(ToDatetime(iso, v)) else v
  }

  /** The loop the projectors share: each listed field present in the source
      is copied (converted where the rule says so); an absent field is skipped,
      never filled with a default. */
  function CopyAllowed(iso: IsoParser, data: Fields, fields: seq<string>, converts: (string, Value) -> bool): (out: Fields)
    ensures forall k :: k in out <==> k in data && k in fields
    ensures forall k :: k in out ==> out[k] == Converted(iso, converts, k, data[k])
    decreases |fields|
  {
    if fields == [] then map[]
    else
      var rest := CopyAllowed(iso, data, fields[1..], converts);
      var k := fields[0];
      if k in data then rest[k := Converted(iso, converts, k, data[k])] else rest
  }

  predicate UserDateField(k: string, v: Value)
  {
    k == "created_at" || k == "last_login"
  }

  predicate DigitalTwinDateField(k: string, v: Value)
  {
    k == "created_at"
  }

  /** A conversation value is normalised when its name ends in `_at` or it
      is a `$date` wrapper. */
  predicate ConversationDateField(k: string, v: Value)
  {
    EndsWith(k, "_at") || IsDateWrapper(v)
  }

  /** The user document of `copy_user`: the key field from the source's own
      `user_id` or else the document id, then every allowlisted field the
      source has, with `created_at`/`last_login` normalised. An unparseable
      date stays as a None-valued field. */
  function ProjectUser(iso: IsoParser, d: SourceDoc): (r: Fields)
    ensures forall k :: k in r <==> k == "user_id" || (k in d.data && k in UserKeys)
    ensures forall k :: k in r ==> k in UserKeys
    ensures r["user_id"] == (if "user_id" in d.data then d.data["user_id"] else Str(d.id))
    ensures forall k :: k in r && k != "user_id" ==>
              r[k] == (if k == "created_at" || k == "last_login" then AsValue(ToDatetime(iso, d.data[k])) else d.data[k])
  {
    // UserKeys[0] is the key field, which the copy loop skips
    assert UserKeys == [UserKeys[0]] + UserKeys[1..];
    CopyAllowed(iso, d.data, UserKeys[1..], UserDateField)["user_id" := Get(d.data, "user_id", Str(d.id))]
  }

  /** The digital-twin document of `copy_digital_twin`; only `created_at` is
      normalised. */
  function ProjectDigitalTwin(iso: IsoParser, d: SourceDoc): (r: Fields)
    ensures forall k :: k in r <==> k == "digital_twin_id" || (k in d.data && k in DigitalTwinKeys)
    ensures forall k :: k in r ==> k in DigitalTwinKeys
    ensures r["digital_twin_id"] == (if "digital_twin_id" in d.data then d.data["digital_twin_id"] else Str(d.id))
    ensures forall k :: k in r && k != "digital_twin_id" ==>
              r[k] == (if k == "created_at" then AsValue(ToDatetime(iso, d.data[k])) else d.data[k])
  {
    assert DigitalTwinKeys == [DigitalTwinKeys[0]] + DigitalTwinKeys[1..];
    CopyAllowed(iso, d.data, DigitalTwinKeys[1..], DigitalTwinDateField)["digital_twin_id" := Get(d.data, "digital_twin_id", Str(d.id))]
  }

  /** The conversation document of `copy_conversation`. The parent id is the
      one passed in, whatever the source holds under `digital_twin_id`. */
  function ProjectConversation(iso: IsoParser, d: SourceDoc, twinId: string): (r: Fields)
    ensures forall k :: k in r <==> k == "conversation_id" || k == "digital_twin_id" || (k in d.data && k in ConversationFields)
    ensures forall k :: k in r ==> k in ConversationKeys
    ensures r["conversation_id"] == (if "conversation_id" in d.data then d.data["conversation_id"] else Str(d.id))
    ensures r["digital_twin_id"] == Str(twinId)
    ensures forall k :: k in r && k != "conversation_id" && k != "digital_twin_id" ==>
              r[k] == (if ConversationDateField(k, d.data[k]) then AsValue(ToDatetime(iso, d.data[k])) else d.data[k])
  {
    var ids := map["conversation_id" := Get(d.data, "conversation_id", Str(d.id)), "digital_twin_id" := Str(twinId)];
    assert ConversationKeys[0] == "conversation_id" && ConversationKeys[1] == "digital_twin_id";
    ConversationSchemaCovers();
    ids + CopyAllowed(iso, d.data, ConversationFields, ConversationDateField)
  }

  // ---------------------------------------------------------------------------
  // Message classification and projection
  // ---------------------------------------------------------------------------

  /** Values that `media[0]` can subscript with 0: sequences and strings. */
  predicate Subscriptable(v: Value)
  {
    v.List? || v.Str? || v.Bytes?
  }

  /** What `media[0]` raises on a value it cannot subscript: a mapping has
      string keys only, so it raises KeyError(0); anything else is not
      subscriptable and raises TypeError. */
  function SubscriptError(v: Value): PyError
  {
    if v.Dict? then KeyError(Int(0)) else TypeError
  }

  /** `media[0]` on a truthy value: the first list entry, the first
      character of a string, or the first byte as an integer. */
  function MediaHead(media: Value): (r: Result<Value, PyError>)
    requires Truthy(media)
    ensures r.Success? <==> Subscriptable(media)
    ensures media.List? ==> r == Success(media.items[0])
    ensures media.Str? ==> r == Success(Str([media.s[0]]))
    ensures media.Bytes? ==> r == Success(Int(media.bs[0] as int))
    ensures media.Dict? ==> r == Failure(KeyError(Int(0)))
    ensures !Subscriptable(media) && !media.Dict? ==> r == Failure(TypeError)
  {
    match media
    case List(items) => Success(items[0])
    case Str(s) => Success(Str([s[0]]))
    case Bytes(bs) => Success(Int(bs[0] as int))
    case Dict(_) => Failure(KeyError(Int(0)))
    case _ => Failure(TypeError)
  }

  /** The type a first media entry announces: its own truthy `type` when it
      is a mapping that has one, else "media". */
  function EntryType(first: Value): Value
  {
    if first.Dict? && "type" in first.fields && Truthy(first.fields["type"]) then first.fields["type"]
    else Str("media")
  }

  /** The message type derived from the mapped `message` and `media` values. */
  function MessageType(message: Value, media: Value): (r: Result<Value, PyError>)
    ensures !Truthy(media) ==> r == Success(Str("text"))
    ensures Truthy(media) && media.List? ==> r == Success(EntryType(media.items[0]))
    ensures Truthy(media) && (media.Str? || media.Bytes?) ==> r == Success(Str("media"))
    ensures r.Failure? <==> Truthy(media) && !Subscriptable(media)
    ensures r.Failure? ==> r.error == SubscriptError(media)
    ensures r.Success? ==> Truthy(r.value)
  {
    if Truthy(message) && !Truthy(media) then Success(Str("text"))
    else if Truthy(media) then
      match MediaHead(media)
      case Failure(e) => Failure(e)
      case Success(first) => Success(EntryType(first))
    else Success(Str("text"))
  }

  /** Classification examples: content "hi" with no media is text; an empty
      message whose first media entry is typed "image" is an image; one whose
      first entry has no type is media; an empty message with no media is text. */
  lemma MessageTypeExamples()
    ensures MessageType(Str("hi"), List([])) == Success(Str("text"))
    ensures MessageType(Str(""), List([Dict(map["type" := Str("image")])])) == Success(Str("image"))
    ensures MessageType(Str(""), List([Dict(map[])])) == Success(Str("media"))
    ensures MessageType(Str(""), List([])) == Success(Str("text"))
  {
  }

  /** Media the message projector cannot index: `media[0]` raises. */
  predicate UnindexableMedia(data: Fields)
  {
    "media" in data && Truthy(data["media"]) && !Subscriptable(data["media"])
  }

  /** The message document of `copy_message`, before the key lookup of the
      planner. Fields are renamed (`role` to `sender`, `content` to
      `message`), `media` defaults to the empty list, `type` is derived, the
      parent ids are the ones passed in, and every None value is dropped. */
  function ProjectMessage(iso: IsoParser, d: SourceDoc, twinId: string, conversationId: string): (r: Result<Fields, PyError>)
    ensures r.Failure? <==> UnindexableMedia(d.data)
    ensures r.Failure? ==> r.error == SubscriptError(d.data["media"])
    ensures r.Success? ==> forall k :: k in r.value ==> k in MessageKeys
    ensures r.Success? ==> forall k :: k in r.value ==> r.value[k] != Null
    ensures r.Success? ==> "digital_twin_id" in r.value && r.value["digital_twin_id"] == Str(twinId)
    ensures r.Success? ==> "conversation_id" in r.value && r.value["conversation_id"] == Str(conversationId)
    ensures r.Success? ==> "type" in r.value
    ensures r.Success? ==> Success(r.value["type"]) == MessageType(Get(d.data, "content", Null), Get(d.data, "media", List([])))
  {
    var data := d.data;
    var message := Get(data, "content", Null);
    var media := Get(data, "media", List([]));
    match MessageType(message, media)
    case Failure(e) => Failure(e)
    case Success(kind) =>
      var stamp := AsValue(ToDatetime(iso, Get(data, "timestamp", Null)));
      DraftKeysDeclared(d, twinId, conversationId, stamp, kind);
      DraftFields(d, twinId, conversationId, stamp, kind);
      Success(StripNulls(MessageDraft(d, twinId, conversationId, stamp, kind)))
  }

  /** The eight names the message schema declares. */
  lemma MessageKeysListed()
    ensures "message_id" in MessageKeys && "digital_twin_id" in MessageKeys && "conversation_id" in MessageKeys
    ensures "sender" in MessageKeys && "message" in MessageKeys && "media" in MessageKeys
    ensures "timestamp" in MessageKeys && "type" in MessageKeys
  {
    assert MessageKeys[0] == "message_id" && MessageKeys[1] == "digital_twin_id" && MessageKeys[2] == "conversation_id";
    assert MessageKeys[3] == "sender" && MessageKeys[4] == "message" && MessageKeys[5] == "media";
    assert MessageKeys[6] == "timestamp" && MessageKeys[7] == "type";
  }

  /** The message document before None values are stripped, given its
      normalised timestamp and its type. */
  function MessageDraft(d: SourceDoc, twinId: string, conversationId: string, stamp: Value, kind: Value): Fields
  {
    map[
      "message_id" := Get(d.data, "message_id", Str(d.id)),
      "digital_twin_id" := Str(twinId),
      "conversation_id" := Str(conversationId),
      "sender" := Get(d.data, "role", Null),
      "message" := Get(d.data, "content", Null),
      "media" := Get(d.data, "media", List([])),
      "timestamp" := stamp,
      "type" := kind]
  }

  /** The draft only holds fields of the declared message schema. */
  lemma DraftKeysDeclared(d: SourceDoc, twinId: string, conversationId: string, stamp: Value, kind: Value)
    ensures forall k :: k in MessageDraft(d, twinId, conversationId, stamp, kind) ==> k in MessageKeys
  {
    MessageKeysListed();
  }

  /** Where each draft field comes from. */
  lemma DraftFields(d: SourceDoc, twinId: string, conversationId: string, stamp: Value, kind: Value)
    ensures var r := MessageDraft(d, twinId, conversationId, stamp, kind);
      && "digital_twin_id" in r && r["digital_twin_id"] == Str(twinId)
      && "conversation_id" in r && r["conversation_id"] == Str(conversationId)
      && "type" in r && r["type"] == kind
      && "message_id" in r && r["message_id"] == Get(d.data, "message_id", Str(d.id))
      && "sender" in r && r["sender"] == Get(d.data, "role", Null)
      && "message" in r && r["message"] == Get(d.data, "content", Null)
  {
  }

  /** The renamed fields: `sender` is the source `role`, `message` the source
      `content`, `message_id` the source's own id or else the document id;
      each is present exactly when that value is not None. */
  lemma MessageRenames(iso: IsoParser, d: SourceDoc, twinId: string, conversationId: string)
    requires ProjectMessage(iso, d, twinId, conversationId).Success?
    ensures var m := ProjectMessage(iso, d, twinId, conversationId).value;
      && ("message_id" in m <==> Get(d.data, "message_id", Str(d.id)) != Null)
      && ("message_id" in m ==> m["message_id"] == Get(d.data, "message_id", Str(d.id)))
      && ("sender" in m <==> "role" in d.data && d.data["role"] != Null)
      && ("sender" in m ==> m["sender"] == d.data["role"])
      && ("message" in m <==> "content" in d.data && d.data["content"] != Null)
      && ("message" in m ==> m["message"] == d.data["content"])
  {
    var kind := MessageType(Get(d.data, "content", Null), Get(d.data, "media", List([]))).value;
    var stamp := AsValue(ToDatetime(iso, Get(d.data, "timestamp", Null)));
    var draft := MessageDraft(d, twinId, conversationId, stamp, kind);
    DraftFields(d, twinId, conversationId, stamp, kind);
    assert ProjectMessage(iso, d, twinId, conversationId).value == StripNulls(draft);
  }

  /** `media` defaults to the empty list and is dropped only when the source
      holds None; `timestamp` is present exactly when the source has one that
      normalises, so a source without it yields no `timestamp` key. */
  lemma MessageMediaAndTimestamp(iso: IsoParser, d: SourceDoc, twinId: string, conversationId: string)
    requires ProjectMessage(iso, d, twinId, conversationId).Success?
    ensures var m := ProjectMessage(iso, d, twinId, conversationId).value;
      && ("media" in m <==> Get(d.data, "media", List([])) != Null)
      && ("media" !in d.data ==> m["media"] == List([]))
      && ("media" in m ==> m["media"] == Get(d.data, "media", List([])))
      && ("timestamp" !in d.data ==> "timestamp" !in m)
      && ("timestamp" in m <==> "timestamp" in d.data && ToDatetime(iso, d.data["timestamp"]).Some?)
      && ("timestamp" in m ==> m["timestamp"] == DateTime(ToDatetime(iso, d.data["timestamp"]).value))
  {
  }
}
