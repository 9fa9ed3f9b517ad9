/** A worked run: one twin `dt1` with one conversation `c1` holding two
    messages, migrated live into an empty store. */
module Scenario {
  import opened Wrappers
  import opened Values
  import opened Timestamps
  import opened Destination
  import opened Walk
  import opened Copying
  import opened Migration

  const Message1 := SourceDoc("m1", map[])
  const Message2 := SourceDoc("m2", map[])
  const Conversation1 := SourceDoc("c1", map[])
  const Twin1 := SourceDoc("dt1", map[])

  const Example := Source([], [TwinNode(Twin1, [ConversationNode(Conversation1, [Message1, Message2])])])

  /** The example's visits, in walking order. */
  lemma ExampleOrder()
    ensures Flatten(Example) == [TwinVisit(Twin1), ConversationVisit(Conversation1, "dt1"),
                                 MessageVisit(Message1, "dt1", "c1"), MessageVisit(Message2, "dt1", "c1")]
  {
    var ms := MessageVisits("dt1", "c1", [Message1, Message2]);
    assert ms == [MessageVisit(Message1, "dt1", "c1"), MessageVisit(Message2, "dt1", "c1")];
    var cs := [ConversationNode(Conversation1, [Message1, Message2])];
    assert ConversationVisits("dt1", cs) == [ConversationVisit(Conversation1, "dt1")] + ms + ConversationVisits("dt1", cs[1..]);
    assert ConversationVisits("dt1", cs[1..]) == [];
    var ts := Example.twins;
    assert TwinVisits(ts) == [TwinVisit(Twin1)] + ConversationVisits("dt1", cs) + TwinVisits(ts[1..]);
    assert TwinVisits(ts[1..]) == [];
    assert UserVisits([]) == [];
  }

  lemma ExampleSizes()
    ensures |Flatten(Example)| == 4
    ensures ConversationsUnder(Example.twins) == 1 && MessagesUnder(Example.twins) == 2
  {
    ExampleOrder();
    var cs := [ConversationNode(Conversation1, [Message1, Message2])];
    assert MessagesIn(cs) == 2 + MessagesIn(cs[1..]);
  }

  /** Every document of the example is copied: the twin, the conversation and
      the two messages each issue an upsert, and the messages' upserts are
      keyed by their own ids and carry `dt1` and `c1`. */
  lemma ExampleRequests(iso: IsoParser)
    ensures var reqs := Requests(iso, Example);
      && |reqs| == 4
      && reqs[2].Key() == DocKey(MessagesCollection, Str("m1"))
      && reqs[3].Key() == DocKey(MessagesCollection, Str("m2"))
      && "digital_twin_id" in reqs[2].doc && reqs[2].doc["digital_twin_id"] == Str("dt1")
      && "conversation_id" in reqs[2].doc && reqs[2].doc["conversation_id"] == Str("c1")
      && "digital_twin_id" in reqs[3].doc && reqs[3].doc["digital_twin_id"] == Str("dt1")
      && "conversation_id" in reqs[3].doc && reqs[3].doc["conversation_id"] == Str("c1")
  {
    ExampleOrder();
    var vs := Flatten(Example);
    var reqs := Requests(iso, Example);
    assert Issue(iso, vs[2]).Success? && Issue(iso, vs[3]).Success?;
    assert |reqs| == 4;
    MessageIssueCarriesParents(iso, Message1, "dt1", "c1");
    MessageIssueCarriesParents(iso, Message2, "dt1", "c1");
  }

  /** The example's first two upserts go to the twin and conversation
      collections. */
  lemma ExampleCollections(iso: IsoParser)
    ensures var reqs := Requests(iso, Example);
      && |reqs| == 4
      && reqs[0].collection == DigitalTwinsCollection
      && reqs[1].collection == ConversationsCollection
  {
    ExampleOrder();
    ExampleSizes();
    UsersIssued(iso, Example);
    ExampleRequests(iso);
    var vs := Flatten(Example);
    IssueTargetsCollection(iso, vs[0]);
    IssueTargetsCollection(iso, vs[1]);
  }

  /** The only upserts of the example into the message collection are keyed
      `m1` and `m2`. */
  lemma OnlyExampleMessages(reqs: seq<Request>)
    requires AllKeyed(reqs) && |reqs| == 4
    requires reqs[0].collection == DigitalTwinsCollection
    requires reqs[1].collection == ConversationsCollection
    requires reqs[2].Key() == DocKey(MessagesCollection, Str("m1"))
    requires reqs[3].Key() == DocKey(MessagesCollection, Str("m2"))
    ensures forall i :: 0 <= i < |reqs| && reqs[i].Key().collection == MessagesCollection ==>
              reqs[i].Key().key == Str("m1") || reqs[i].Key().key == Str("m2")
  {
    assert reqs[0].Key().collection != MessagesCollection;
    assert reqs[1].Key().collection != MessagesCollection;
  }

  /** The two message upserts of the example come last and target distinct
      documents, so the store keeps what each wrote. */
  lemma MessagesStored(reqs: seq<Request>)
    requires AllKeyed(reqs) && |reqs| == 4
    requires reqs[2].Key() == DocKey(MessagesCollection, Str("m1"))
    requires reqs[3].Key() == DocKey(MessagesCollection, Str("m2"))
    requires "digital_twin_id" in reqs[2].doc && "conversation_id" in reqs[2].doc
    requires "digital_twin_id" in reqs[3].doc && "conversation_id" in reqs[3].doc
    ensures Lookup(ApplyAll(map[], reqs), reqs[2].Key(), "digital_twin_id") == Some(reqs[2].doc["digital_twin_id"])
    ensures Lookup(ApplyAll(map[], reqs), reqs[2].Key(), "conversation_id") == Some(reqs[2].doc["conversation_id"])
    ensures Lookup(ApplyAll(map[], reqs), reqs[3].Key(), "digital_twin_id") == Some(reqs[3].doc["digital_twin_id"])
    ensures Lookup(ApplyAll(map[], reqs), reqs[3].Key(), "conversation_id") == Some(reqs[3].doc["conversation_id"])
  {
    Survives(map[], reqs, 2, "digital_twin_id");
    Survives(map[], reqs, 2, "conversation_id");
    Survives(map[], reqs, 3, "digital_twin_id");
    Survives(map[], reqs, 3, "conversation_id");
  }

  /** The live run over the example finishes, counts one twin, one
      conversation and two messages, and leaves the store its four upserts
      build. */
  lemma ExampleFinishes(iso: IsoParser)
    ensures var o := Migrate(iso, false, map[], Example);
      && o.Finished?
      && o.run.counts == Counts(0, 1, 1, 2)
      && o.run.db == ApplyAll(map[], Requests(iso, Example))
  {
    ExampleSizes();
    ExampleRequests(iso);
    MigrateWrites(iso, false, map[], Example);
  }

  /** Migrating the example live into an empty store finishes with the summary
      {users 0, digital twins 1, conversations 1, messages 2}; the message
      collection holds exactly the two messages, and both carry the twin's
      and the conversation's source ids. */
  lemma EndToEndScenario(iso: IsoParser)
    ensures var o := Migrate(iso, false, map[], Example);
      && o.Finished?
      && o.run.counts == Counts(0, 1, 1, 2)
      && Lookup(o.run.db, DocKey(MessagesCollection, Str("m1")), "digital_twin_id") == Some(Str("dt1"))
      && Lookup(o.run.db, DocKey(MessagesCollection, Str("m1")), "conversation_id") == Some(Str("c1"))
      && Lookup(o.run.db, DocKey(MessagesCollection, Str("m2")), "digital_twin_id") == Some(Str("dt1"))
      && Lookup(o.run.db, DocKey(MessagesCollection, Str("m2")), "conversation_id") == Some(Str("c1"))
    ensures var o := Migrate(iso, false, map[], Example);
      forall k :: k in o.run.db && k.collection == MessagesCollection ==> k.key == Str("m1") || k.key == Str("m2")
  {
    ExampleFinishes(iso);
    ExampleRequests(iso);
    ExampleCollections(iso);
    MessagesStored(Requests(iso, Example));
    OnlyExampleMessages(Requests(iso, Example));
    forall k | k in Migrate(iso, false, map[], Example).run.db && k.collection == MessagesCollection
      ensures k.key == Str("m1") || k.key == Str("m2")
    {
      StoredKeysTargeted(Requests(iso, Example), k);
    }
  }
}
