/** The four copy functions of the migration: each projects one source
    document, then plans or performs the upsert on its natural key. */
module Copying {
  import opened Wrappers
  import opened Values
  import opened Timestamps
  import opened Projection
  import opened Destination
  import opened Walk

  const UsersCollection := "users"
  const DigitalTwinsCollection := "digital_twins"
  const ConversationsCollection := "conversations"
  const MessagesCollection := "avatar_conversations"

  // ---------------------------------------------------------------------------
  // The four copy functions
  // ---------------------------------------------------------------------------

  function UserRequest(iso: IsoParser, d: SourceDoc): Request
  {
    Request(UsersCollection, "user_id", ProjectUser(iso, d))
  }

  function DigitalTwinRequest(iso: IsoParser, d: SourceDoc): Request
  {
    Request(DigitalTwinsCollection, "digital_twin_id", ProjectDigitalTwin(iso, d))
  }

  function ConversationRequest(iso: IsoParser, d: SourceDoc, twinId: string): Request
  {
    Request(ConversationsCollection, "conversation_id", ProjectConversation(iso, d, twinId))
  }

  function MessageRequest(iso: IsoParser, d: SourceDoc, twinId: string, conversationId: string): Result<Request, PyError>
  {
    match ProjectMessage(iso, d, twinId, conversationId)
    case Failure(e) => Failure(e)
    case Success(doc) => Success(Request(MessagesCollection, "message_id", doc))
  }

  /** `copy_user`: raises nothing here, as the store accepts every value. A
      dry run leaves the store alone and reports the filter on the resolved
      `user_id` and the projected document; a live run upserts that document
      and reports its key. */
  function CopyUser(iso: IsoParser, dryRun: bool, db: Db, d: SourceDoc): (r: Result<Step, PyError>)
    ensures r.Success?
    ensures r.value.db == (if dryRun then db else Apply(db, UserRequest(iso, d)))
    ensures var key := Get(d.data, "user_id", Str(d.id));
      r.value.plan == (if dryRun then Planned(Filter("user_id", key), ProjectUser(iso, d)) else Upserted(key))
  {
    Execute(dryRun, db, UserRequest(iso, d))
  }

  /** `copy_digital_twin`: raises nothing here, as the store accepts every
      value; keyed by the resolved `digital_twin_id`. */
  function CopyDigitalTwin(iso: IsoParser, dryRun: bool, db: Db, d: SourceDoc): (r: Result<Step, PyError>)
    ensures r.Success?
    ensures r.value.db == (if dryRun then db else Apply(db, DigitalTwinRequest(iso, d)))
    ensures var key := Get(d.data, "digital_twin_id", Str(d.id));
      r.value.plan == (if dryRun then Planned(Filter("digital_twin_id", key), ProjectDigitalTwin(iso, d)) else Upserted(key))
  {
    Execute(dryRun, db, DigitalTwinRequest(iso, d))
  }

  /** `copy_conversation`: raises nothing here, as the store accepts every
      value; keyed by the resolved `conversation_id`. */
  function CopyConversation(iso: IsoParser, dryRun: bool, db: Db, d: SourceDoc, twinId: string): (r: Result<Step, PyError>)
    ensures r.Success?
    ensures r.value.db == (if dryRun then db else Apply(db, ConversationRequest(iso, d, twinId)))
    ensures var key := Get(d.data, "conversation_id", Str(d.id));
      r.value.plan == (if dryRun then Planned(Filter("conversation_id", key), ProjectConversation(iso, d, twinId)) else Upserted(key))
  {
    Execute(dryRun, db, ConversationRequest(iso, d, twinId))
  }

  /** `copy_message`: fails when `media[0]` raises, or with KeyError when the
      resolved `message_id` was None and has been stripped, in either mode. */
  function CopyMessage(iso: IsoParser, dryRun: bool, db: Db, d: SourceDoc, twinId: string, conversationId: string): (r: Result<Step, PyError>)
    ensures r.Failure? <==> UnindexableMedia(d.data) || Get(d.data, "message_id", Str(d.id)) == Null
    ensures UnindexableMedia(d.data) ==> r == Failure(SubscriptError(d.data["media"]))
    ensures !UnindexableMedia(d.data) && Get(d.data, "message_id", Str(d.id)) == Null ==> r == Failure(KeyError(Str("message_id")))
    ensures r.Success? ==>
      && MessageRequest(iso, d, twinId, conversationId).Success?
      && r.value.db == (if dryRun then db else Apply(db, MessageRequest(iso, d, twinId, conversationId).value))
    ensures var key := Get(d.data, "message_id", Str(d.id));
      r.Success? ==> r.value.plan == (if dryRun then Planned(Filter("message_id", key), ProjectMessage(iso, d, twinId, conversationId).value) else Upserted(key))
  {
    match MessageRequest(iso, d, twinId, conversationId)
    case Failure(e) => Failure(e)
    case Success(req) =>
      MessageRenames(iso, d, twinId, conversationId);
      Execute(dryRun, db, req)
  }

  /** The copy function for one visit. */
  function Copy(iso: IsoParser, dryRun: bool, db: Db, v: Visit): Result<Step, PyError>
  {
    match v
    case UserVisit(d) => CopyUser(iso, dryRun, db, d)
    case TwinVisit(d) => CopyDigitalTwin(iso, dryRun, db, d)
    case ConversationVisit(d, t) => CopyConversation(iso, dryRun, db, d, t)
    case MessageVisit(d, t, c) => CopyMessage(iso, dryRun, db, d, t, c)
  }

  /** The request a visit's copy function builds, failing where the copy
      function raises: only a message can fail, when its media cannot be
      indexed or its resolved `message_id` is None. */
  function Issue(iso: IsoParser, v: Visit): (r: Result<Request, PyError>)
    ensures r.Success? ==> r.value.Keyed()
    ensures !v.MessageVisit? ==> r.Success?
    ensures v.MessageVisit? ==>
              (r.Failure? <==> UnindexableMedia(v.doc.data) || Get(v.doc.data, "message_id", Str(v.doc.id)) == Null)
    ensures v.MessageVisit? && UnindexableMedia(v.doc.data) ==> r == Failure(SubscriptError(v.doc.data["media"]))
    ensures v.MessageVisit? && !UnindexableMedia(v.doc.data) && Get(v.doc.data, "message_id", Str(v.doc.id)) == Null ==>
              r == Failure(KeyError(Str("message_id")))
  {
    match v
    case UserVisit(d) => Success(UserRequest(iso, d))
    case TwinVisit(d) => Success(DigitalTwinRequest(iso, d))
    case ConversationVisit(d, t) => Success(ConversationRequest(iso, d, t))
    case MessageVisit(d, t, c) =>
      match MessageRequest(iso, d, t, c)
      case Failure(e) => Failure(e)
      case Success(req) =>
        MessageRenames(iso, d, t, c);
        if req.Keyed() then Success(req) else Failure(KeyError(Str(req.keyField)))
  }

  /** The collection each kind of document is copied into. */
  function CollectionOf(v: Visit): string
  {
    match v
    case UserVisit(_) => UsersCollection
    case TwinVisit(_) => DigitalTwinsCollection
    case ConversationVisit(_, _) => ConversationsCollection
    case MessageVisit(_, _, _) => MessagesCollection
  }

  /** Every issued upsert goes to the collection of its document's kind. */
  lemma IssueTargetsCollection(iso: IsoParser, v: Visit)
    ensures Issue(iso, v).Success? ==> Issue(iso, v).value.collection == CollectionOf(v)
  {
  }

  /** Each copy function carries out the visit's request: it raises exactly
      when the request fails, with the same exception, leaves the store alone
      in a dry run and applies the request in a live run. */
  lemma CopyCarriesOutIssue(iso: IsoParser, dryRun: bool, db: Db, v: Visit)
    ensures var r := Copy(iso, dryRun, db, v);
            var q := Issue(iso, v);
      && (r.Success? <==> q.Success?)
      && (r.Failure? ==> r.error == q.error)
      && (r.Success? ==> r.value.db == (if dryRun then db else Apply(db, q.value)))
  {
  }

  /** A message's upsert is keyed by its resolved `message_id` and carries
      the parent ids handed down by the walker. */
  lemma MessageIssueCarriesParents(iso: IsoParser, d: SourceDoc, twinId: string, conversationId: string)
    requires Issue(iso, MessageVisit(d, twinId, conversationId)).Success?
    ensures var req := Issue(iso, MessageVisit(d, twinId, conversationId)).value;
      && req.Key() == DocKey(MessagesCollection, Get(d.data, "message_id", Str(d.id)))
      && "digital_twin_id" in req.doc && req.doc["digital_twin_id"] == Str(twinId)
      && "conversation_id" in req.doc && req.doc["conversation_id"] == Str(conversationId)
  {
    MessageRenames(iso, d, twinId, conversationId);
  }
}
