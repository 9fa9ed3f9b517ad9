/** The hierarchy walker of the migration: users first, then every digital
    twin followed depth-first by its conversations and each conversation's
    messages, with four running counters. The walker is written once over an
    arbitrary per-document copier; the migration instantiates it with the
    copy functions. */
module Walk {
  import opened Wrappers
  import opened Values
  import opened Destination

  // ---------------------------------------------------------------------------
  // Source hierarchy and run state
  // ---------------------------------------------------------------------------

  datatype ConversationNode = ConversationNode(doc: SourceDoc, messages: seq<SourceDoc>)

  datatype TwinNode = TwinNode(doc: SourceDoc, conversations: seq<ConversationNode>)

  /** The source store: the `users` collection and the `digital_twins`
      collection with its nested `conversations` and `messages`. */
  datatype Source = Source(users: seq<SourceDoc>, twins: seq<TwinNode>)

  /** The run summary: documents processed per kind. */
  datatype Counts = Counts(users: nat, digitalTwins: nat, conversations: nat, messages: nat)

  const NoCounts := Counts(0, 0, 0, 0)

  datatype Run = Run(db: Db, counts: Counts)

  /** A finished run, or one aborted by an exception; upserts already made
      stay in the store. */
  datatype Outcome = Finished(run: Run) | Aborted(error: PyError, run: Run)

  /** One document visit of the walker, with the parent ids it threads down. */
  datatype Visit =
    | UserVisit(doc: SourceDoc)
    | TwinVisit(doc: SourceDoc)
    | ConversationVisit(doc: SourceDoc, twinId: string)
    | MessageVisit(doc: SourceDoc, twinId: string, conversationId: string)

  /** Copies the document of one visit in the given mode against the store. */
  type Copier = (bool, Db, Visit) -> Result<Step, PyError>

  /** The upsert a visit asks for, or the exception that stops it. */
  type Issuer = Visit -> Result<Request, PyError>

  // ---------------------------------------------------------------------------
  // The walker, as the source's nested loops
  // ---------------------------------------------------------------------------

  /** Messages over a sequence of conversations. */
  function MessagesIn(conversations: seq<ConversationNode>): nat
  {
    if conversations == [] then 0 else |conversations[0].messages| + MessagesIn(conversations[1..])
  }

  /** Conversations over a sequence of twins. */
  function ConversationsUnder(twins: seq<TwinNode>): nat
  {
    if twins == [] then 0 else |twins[0].conversations| + ConversationsUnder(twins[1..])
  }

  /** Messages over a sequence of twins. */
  function MessagesUnder(twins: seq<TwinNode>): nat
  {
    if twins == [] then 0 else MessagesIn(twins[0].conversations) + MessagesUnder(twins[1..])
  }

  /** The loop over the `users` collection. */
  function WalkUsers(copy: Copier, dryRun: bool, run: Run, users: seq<SourceDoc>): (o: Outcome)
    ensures o.Finished? ==> o.run.counts == run.counts.(users := run.counts.users + |users|)
    decreases |users|
  {
    if users == [] then Finished(run)
    else
      match copy(dryRun, run.db, UserVisit(users[0]))
      case Failure(e) => Aborted(e, run)
      case Success(step) =>
        WalkUsers(copy, dryRun, Run(step.db, run.counts.(users := run.counts.users + 1)), users[1..])
  }

  /** The loop over one conversation's messages. */
  function WalkMessages(copy: Copier, dryRun: bool, run: Run, twinId: string, conversationId: string, messages: seq<SourceDoc>): (o: Outcome)
    ensures o.Finished? ==> o.run.counts == run.counts.(messages := run.counts.messages + |messages|)
    decreases |messages|
  {
    if messages == [] then Finished(run)
    else
      match copy(dryRun, run.db, MessageVisit(messages[0], twinId, conversationId))
      case Failure(e) => Aborted(e, run)
      case Success(step) =>
        WalkMessages(copy, dryRun, Run(step.db, run.counts.(messages := run.counts.messages + 1)), twinId, conversationId, messages[1..])
  }

  /** Each conversation of a twin, then its messages. The parent ids passed
      down are the source document ids, not the resolved key values. */
  function WalkConversations(copy: Copier, dryRun: bool, run: Run, twinId: string, conversations: seq<ConversationNode>): (o: Outcome)
    ensures o.Finished? ==> o.run.counts == run.counts.(conversations := run.counts.conversations + |conversations|,
                                                        messages := run.counts.messages + MessagesIn(conversations))
    decreases |conversations|
  {
    if conversations == [] then Finished(run)
    else
      var c := conversations[0];
      match copy(dryRun, run.db, ConversationVisit(c.doc, twinId))
      case Failure(e) => Aborted(e, run)
      case Success(step) =>
        var next := Run(step.db, run.counts.(conversations := run.counts.conversations + 1));
        match WalkMessages(copy, dryRun, next, twinId, c.doc.id, c.messages)
        case Aborted(e, r) => Aborted(e, r)
        case Finished(r) => WalkConversations(copy, dryRun, r, twinId, conversations[1..])
  }

  /** Each digital twin, then its conversations. */
  function WalkTwins(copy: Copier, dryRun: bool, run: Run, twins: seq<TwinNode>): (o: Outcome)
    ensures o.Finished? ==> o.run.counts == run.counts.(digitalTwins := run.counts.digitalTwins + |twins|,
                                                        conversations := run.counts.conversations + ConversationsUnder(twins),
                                                        messages := run.counts.messages + MessagesUnder(twins))
    decreases |twins|
  {
    if twins == [] then Finished(run)
    else
      var t := twins[0];
      match copy(dryRun, run.db, TwinVisit(t.doc))
      case Failure(e) => Aborted(e, run)
      case Success(step) =>
        var next := Run(step.db, run.counts.(digitalTwins := run.counts.digitalTwins + 1));
        match WalkConversations(copy, dryRun, next, t.doc.id, t.conversations)
        case Aborted(e, r) => Aborted(e, r)
        case Finished(r) => WalkTwins(copy, dryRun, r, twins[1..])
  }

  /** The whole walk from a zero summary: the users loop, then the twins loop.
      A finished walk has counted every document of the source. */
  function WalkAll(copy: Copier, dryRun: bool, db: Db, src: Source): (o: Outcome)
    ensures o.Finished? ==>
              o.run.counts == Counts(|src.users|, |src.twins|, ConversationsUnder(src.twins), MessagesUnder(src.twins))
  {
    match WalkUsers(copy, dryRun, Run(db, NoCounts), src.users)
    case Aborted(e, r) => Aborted(e, r)
    case Finished(r) => WalkTwins(copy, dryRun, r, src.twins)
  }

  // ---------------------------------------------------------------------------
  // The traversal order, flattened
  // ---------------------------------------------------------------------------

  function UserVisits(users: seq<SourceDoc>): seq<Visit>
  {
    seq(|users|, i requires 0 <= i < |users| => UserVisit(users[i]))
  }

  function MessageVisits(twinId: string, conversationId: string, messages: seq<SourceDoc>): seq<Visit>
  {
    seq(|messages|, i requires 0 <= i < |messages| => MessageVisit(messages[i], twinId, conversationId))
  }

  /** Each conversation immediately followed by its messages. */
  function ConversationVisits(twinId: string, conversations: seq<ConversationNode>): seq<Visit>
    decreases |conversations|
  {
    if conversations == [] then []
    else
      var c := conversations[0];
      [ConversationVisit(c.doc, twinId)] + MessageVisits(twinId, c.doc.id, c.messages)
        + ConversationVisits(twinId, conversations[1..])
  }

  /** Each twin immediately followed by its conversations. */
  function TwinVisits(twins: seq<TwinNode>): seq<Visit>
    decreases |twins|
  {
    if twins == [] then []
    else
      var t := twins[0];
      [TwinVisit(t.doc)] + ConversationVisits(t.doc.id, t.conversations) + TwinVisits(twins[1..])
  }

  /** The order in which the walker visits the source. */
  function Flatten(src: Source): seq<Visit>
  {
    UserVisits(src.users) + TwinVisits(src.twins)
  }

  /** The counter a visit increments. */
  function Tick(c: Counts, v: Visit): Counts
  {
    match v
    case UserVisit(_) => c.(users := c.users + 1)
    case TwinVisit(_) => c.(digitalTwins := c.digitalTwins + 1)
    case ConversationVisit(_, _) => c.(conversations := c.conversations + 1)
    case MessageVisit(_, _, _) => c.(messages := c.messages + 1)
  }

  /** The counters after a sequence of visits. */
  function Tally(c: Counts, visits: seq<Visit>): Counts
    decreases |visits|
  {
    if visits == [] then c else Tally(Tick(c, visits[0]), visits[1..])
  }

  /** The walk as one loop over the flattened visits. */
  function Replay(copy: Copier, dryRun: bool, run: Run, visits: seq<Visit>): Outcome
    decreases |visits|
  {
    if visits == [] then Finished(run)
    else
      match copy(dryRun, run.db, visits[0])
      case Failure(e) => Aborted(e, run)
      case Success(step) => Replay(copy, dryRun, Run(step.db, Tick(run.counts, visits[0])), visits[1..])
  }

  /** Continue a walk with more visits unless it has aborted. */
  function Then(copy: Copier, dryRun: bool, o: Outcome, visits: seq<Visit>): Outcome
  {
    match o
    case Finished(run) => Replay(copy, dryRun, run, visits)
    case Aborted(_, _) => o
  }

  lemma {:induction false} ReplayAppend(copy: Copier, dryRun: bool, run: Run, a: seq<Visit>, b: seq<Visit>)
    ensures Replay(copy, dryRun, run, a + b) == Then(copy, dryRun, Replay(copy, dryRun, run, a), b)
    decreases |a|
  {
    if a != [] {
      assert (a + b)[0] == a[0] && (a + b)[1..] == a[1..] + b;
      match copy(dryRun, run.db, a[0])
      case Failure(e) =>
      case Success(step) => ReplayAppend(copy, dryRun, Run(step.db, Tick(run.counts, a[0])), a[1..], b);
    } else {
      assert a + b == b;
    }
  }

  lemma {:induction false} WalkUsersIsReplay(copy: Copier, dryRun: bool, run: Run, users: seq<SourceDoc>)
    ensures WalkUsers(copy, dryRun, run, users) == Replay(copy, dryRun, run, UserVisits(users))
    decreases |users|
  {
    if users != [] {
      var vs := UserVisits(users);
      assert vs[0] == UserVisit(users[0]);
      assert vs[1..] == UserVisits(users[1..]);
      match copy(dryRun, run.db, vs[0])
      case Failure(e) =>
      case Success(step) =>
        WalkUsersIsReplay(copy, dryRun, Run(step.db, Tick(run.counts, vs[0])), users[1..]);
    }
  }

  lemma {:induction false} WalkMessagesIsReplay(copy: Copier, dryRun: bool, run: Run, twinId: string, conversationId: string, messages: seq<SourceDoc>)
    ensures WalkMessages(copy, dryRun, run, twinId, conversationId, messages)
         == Replay(copy, dryRun, run, MessageVisits(twinId, conversationId, messages))
    decreases |messages|
  {
    if messages != [] {
      var vs := MessageVisits(twinId, conversationId, messages);
      assert vs[0] == MessageVisit(messages[0], twinId, conversationId);
      assert vs[1..] == MessageVisits(twinId, conversationId, messages[1..]);
      match copy(dryRun, run.db, vs[0])
      case Failure(e) =>
      case Success(step) =>
        WalkMessagesIsReplay(copy, dryRun, Run(step.db, Tick(run.counts, vs[0])), twinId, conversationId, messages[1..]);
    }
  }

  lemma {:induction false} WalkConversationsIsReplay(copy: Copier, dryRun: bool, run: Run, twinId: string, conversations: seq<ConversationNode>)
    ensures WalkConversations(copy, dryRun, run, twinId, conversations)
         == Replay(copy, dryRun, run, ConversationVisits(twinId, conversations))
    decreases |conversations|
  {
    if conversations != [] {
      var c := conversations[0];
      var ms := MessageVisits(twinId, c.doc.id, c.messages);
      var rest := ConversationVisits(twinId, conversations[1..]);
      var vs := ConversationVisits(twinId, conversations);
      assert vs == [ConversationVisit(c.doc, twinId)] + (ms + rest);
      assert vs[1..] == ms + rest;
      match copy(dryRun, run.db, vs[0])
      case Failure(e) =>
      case Success(step) =>
        var next := Run(step.db, Tick(run.counts, vs[0]));
        ReplayAppend(copy, dryRun, next, ms, rest);
        WalkMessagesIsReplay(copy, dryRun, next, twinId, c.doc.id, c.messages);
        var w := WalkMessages(copy, dryRun, next, twinId, c.doc.id, c.messages);
        if w.Finished? {
          WalkConversationsIsReplay(copy, dryRun, w.run, twinId, conversations[1..]);
        }
    }
  }

  lemma {:induction false} WalkTwinsIsReplay(copy: Copier, dryRun: bool, run: Run, twins: seq<TwinNode>)
    ensures WalkTwins(copy, dryRun, run, twins) == Replay(copy, dryRun, run, TwinVisits(twins))
    decreases |twins|
  {
    if twins != [] {
      var t := twins[0];
      var cs := ConversationVisits(t.doc.id, t.conversations);
      var rest := TwinVisits(twins[1..]);
      var vs := TwinVisits(twins);
      assert vs == [TwinVisit(t.doc)] + (cs + rest);
      assert vs[1..] == cs + rest;
      match copy(dryRun, run.db, vs[0])
      case Failure(e) =>
      case Success(step) =>
        var next := Run(step.db, Tick(run.counts, vs[0]));
        ReplayAppend(copy, dryRun, next, cs, rest);
        WalkConversationsIsReplay(copy, dryRun, next, t.doc.id, t.conversations);
        var w := WalkConversations(copy, dryRun, next, t.doc.id, t.conversations);
        if w.Finished? {
          WalkTwinsIsReplay(copy, dryRun, w.run, twins[1..]);
        }
    }
  }

  /** The nested loops visit the source in the order `Flatten` gives: all
      users, then each twin followed by its conversations, each followed by
      its messages. */
  lemma WalkAllIsReplay(copy: Copier, dryRun: bool, db: Db, src: Source)
    ensures WalkAll(copy, dryRun, db, src) == Replay(copy, dryRun, Run(db, NoCounts), Flatten(src))
  {
    var start := Run(db, NoCounts);
    WalkUsersIsReplay(copy, dryRun, start, src.users);
    ReplayAppend(copy, dryRun, start, UserVisits(src.users), TwinVisits(src.twins));
    var u := WalkUsers(copy, dryRun, start, src.users);
    if u.Finished? {
      WalkTwinsIsReplay(copy, dryRun, u.run, src.twins);
    }
  }

  // ---------------------------------------------------------------------------
  // What a run writes, given what each visit asks for
  // ---------------------------------------------------------------------------

  /** The copier carries out the issuer's requests: it fails exactly when the
      issuer does, with the same exception, and otherwise leaves the store
      alone in a dry run and applies the keyed request in a live one. */
  ghost predicate Realises(copy: Copier, issue: Issuer)
  {
    forall dryRun: bool, db: Db, v: Visit ::
      && (copy(dryRun, db, v).Success? <==> issue(v).Success?)
      && (copy(dryRun, db, v).Failure? ==> copy(dryRun, db, v).error == issue(v).error)
      && (copy(dryRun, db, v).Success? ==>
            issue(v).value.Keyed()
            && copy(dryRun, db, v).value.db == (if dryRun then db else Apply(db, issue(v).value)))
  }

  /** The requests of the longest prefix of `visits` whose requests succeed. */
  function Issued(issue: Issuer, visits: seq<Visit>): (reqs: seq<Request>)
    ensures |reqs| <= |visits|
    ensures forall i :: 0 <= i < |reqs| ==> issue(visits[i]) == Success(reqs[i])
    ensures |reqs| < |visits| ==> issue(visits[|reqs|]).Failure?
    decreases |visits|
  {
    if visits == [] then []
    else
      match issue(visits[0])
      case Failure(_) => []
      case Success(req) => [req] + Issued(issue, visits[1..])
  }

  /** A run is determined by the requests its visits issue: it stops at the
      first visit whose request fails, reporting that exception, has counted
      exactly the visits before it, and has applied their requests in order
      unless it is a dry run, which leaves the store as it was. */
  lemma {:induction false} ReplayByIssue(copy: Copier, issue: Issuer, dryRun: bool, run: Run, visits: seq<Visit>)
    requires Realises(copy, issue)
    ensures var o := Replay(copy, dryRun, run, visits);
            var reqs := Issued(issue, visits);
      && AllKeyed(reqs)
      && (o.Finished? <==> |reqs| == |visits|)
      && (o.Aborted? ==> o.error == issue(visits[|reqs|]).error)
      && o.run.counts == Tally(run.counts, visits[..|reqs|])
      && o.run.db == (if dryRun then run.db else ApplyAll(run.db, reqs))
    decreases |visits|
  {
    if visits != [] {
      var r := copy(dryRun, run.db, visits[0]);
      var reqs := Issued(issue, visits);
      if r.Success? {
        var req := issue(visits[0]).value;
        var next := Run(r.value.db, Tick(run.counts, visits[0]));
        ReplayByIssue(copy, issue, dryRun, next, visits[1..]);
        var rest := Issued(issue, visits[1..]);
        assert reqs == [req] + rest;
        assert reqs[1..] == rest;
        assert visits[..|reqs|][0] == visits[0];
        assert visits[..|reqs|][1..] == visits[1..][..|rest|];
      } else {
        assert reqs == [];
      }
    }
  }

  // ---------------------------------------------------------------------------
  // Shape of the traversal
  // ---------------------------------------------------------------------------

  /** Users are visited first, and nothing after them is a user. */
  lemma UsersComeFirst(src: Source)
    ensures |src.users| <= |Flatten(src)|
    ensures forall i :: 0 <= i < |src.users| ==> Flatten(src)[i] == UserVisit(src.users[i])
    ensures forall i :: |src.users| <= i < |Flatten(src)| ==> !Flatten(src)[i].UserVisit?
  {
    var tail := TwinVisits(src.twins);
    forall v | v in tail
      ensures !v.UserVisit?
    {
      TwinVisitsHaveParents(src.twins, v);
    }
    assert forall i :: |src.users| <= i < |Flatten(src)| ==> Flatten(src)[i] == tail[i - |src.users|];
  }

  /** A message visit under one conversation carries that conversation's
      source id and the twin id handed down. */
  lemma {:induction false} ConversationVisitsHaveParents(twinId: string, conversations: seq<ConversationNode>, v: Visit)
    requires v in ConversationVisits(twinId, conversations)
    ensures v.ConversationVisit? || v.MessageVisit?
    ensures v.twinId == twinId
    ensures v.ConversationVisit? ==> exists c :: c in conversations && v.doc == c.doc
    ensures v.MessageVisit? ==>
              exists c :: c in conversations && v.conversationId == c.doc.id && v.doc in c.messages
    decreases |conversations|
  {
    var c := conversations[0];
    var ms := MessageVisits(twinId, c.doc.id, c.messages);
    var rest := ConversationVisits(twinId, conversations[1..]);
    assert ConversationVisits(twinId, conversations) == [ConversationVisit(c.doc, twinId)] + ms + rest;
    if v in ms {
      var i :| 0 <= i < |ms| && ms[i] == v;
      assert v.doc == c.messages[i];
    } else if v in rest {
      ConversationVisitsHaveParents(twinId, conversations[1..], v);
      if v.ConversationVisit? {
        var c' :| c' in conversations[1..] && v.doc == c'.doc;
        assert c' in conversations;
      } else {
        var c' :| c' in conversations[1..] && v.conversationId == c'.doc.id && v.doc in c'.messages;
        assert c' in conversations;
      }
    }
  }

  /** Every visit under the twins loop hangs off a twin of the source: a
      conversation visit carries its twin's source id, and a message visit
      carries the source ids of its twin and of its conversation. */
  lemma {:induction false} TwinVisitsHaveParents(twins: seq<TwinNode>, v: Visit)
    requires v in TwinVisits(twins)
    ensures !v.UserVisit?
    ensures v.TwinVisit? ==> exists t :: t in twins && v.doc == t.doc
    ensures v.ConversationVisit? ==>
              exists t, c :: t in twins && c in t.conversations && v.twinId == t.doc.id && v.doc == c.doc
    ensures v.MessageVisit? ==>
              exists t, c :: t in twins && c in t.conversations && v.twinId == t.doc.id
                          && v.conversationId == c.doc.id && v.doc in c.messages
    decreases |twins|
  {
    var t := twins[0];
    var cs := ConversationVisits(t.doc.id, t.conversations);
    var rest := TwinVisits(twins[1..]);
    assert TwinVisits(twins) == [TwinVisit(t.doc)] + cs + rest;
    if v in cs {
      ConversationVisitsHaveParents(t.doc.id, t.conversations, v);
    } else if v in rest {
      TwinVisitsHaveParents(twins[1..], v);
      if v.TwinVisit? {
        var t' :| t' in twins[1..] && v.doc == t'.doc;
        assert t' in twins;
      } else if v.ConversationVisit? {
        var t', c :| t' in twins[1..] && c in t'.conversations && v.twinId == t'.doc.id && v.doc == c.doc;
        assert t' in twins;
      } else {
        var t', c :| t' in twins[1..] && c in t'.conversations && v.twinId == t'.doc.id
                   && v.conversationId == c.doc.id && v.doc in c.messages;
        assert t' in twins;
      }
    }
  }

  lemma {:induction false} ConversationVisitsSplit(twinId: string, a: seq<ConversationNode>, b: seq<ConversationNode>)
    ensures ConversationVisits(twinId, a + b) == ConversationVisits(twinId, a) + ConversationVisits(twinId, b)
    decreases |a|
  {
    if a == [] {
      assert a + b == b;
    } else {
      assert (a + b)[0] == a[0] && (a + b)[1..] == a[1..] + b;
      ConversationVisitsSplit(twinId, a[1..], b);
    }
  }

  lemma {:induction false} TwinVisitsSplit(a: seq<TwinNode>, b: seq<TwinNode>)
    ensures TwinVisits(a + b) == TwinVisits(a) + TwinVisits(b)
    decreases |a|
  {
    if a == [] {
      assert a + b == b;
    } else {
      assert (a + b)[0] == a[0] && (a + b)[1..] == a[1..] + b;
      TwinVisitsSplit(a[1..], b);
    }
  }

  /** Each conversation is visited right after the visits of the
      conversations before it, and its messages right after it, in order. */
  lemma MessagesFollowConversation(twinId: string, conversations: seq<ConversationNode>, k: nat)
    requires k < |conversations|
    ensures var vs := ConversationVisits(twinId, conversations);
            var c := conversations[k];
            var at := |ConversationVisits(twinId, conversations[..k])|;
      && at + 1 + |c.messages| <= |vs|
      && vs[at] == ConversationVisit(c.doc, twinId)
      && vs[at + 1 .. at + 1 + |c.messages|] == MessageVisits(twinId, c.doc.id, c.messages)
  {
    var c := conversations[k];
    assert conversations == conversations[..k] + conversations[k..];
    ConversationVisitsSplit(twinId, conversations[..k], conversations[k..]);
    var tail := conversations[k..];
    assert tail[0] == c;
    assert ConversationVisits(twinId, tail)
        == [ConversationVisit(c.doc, twinId)] + MessageVisits(twinId, c.doc.id, c.messages) + ConversationVisits(twinId, tail[1..]);
  }

  /** Each twin is visited after all users and the visits of the twins before
      it, and its conversations (with their messages) right after it. */
  lemma ConversationsFollowTwin(src: Source, k: nat)
    requires k < |src.twins|
    ensures var vs := Flatten(src);
            var t := src.twins[k];
            var cs := ConversationVisits(t.doc.id, t.conversations);
            var at := |src.users| + |TwinVisits(src.twins[..k])|;
      && at + 1 + |cs| <= |vs|
      && vs[at] == TwinVisit(t.doc)
      && vs[at + 1 .. at + 1 + |cs|] == cs
  {
    var twins := src.twins;
    var t := twins[k];
    assert twins == twins[..k] + twins[k..];
    TwinVisitsSplit(twins[..k], twins[k..]);
    var tail := twins[k..];
    assert tail[0] == t;
    assert TwinVisits(tail) == [TwinVisit(t.doc)] + ConversationVisits(t.doc.id, t.conversations) + TwinVisits(tail[1..]);
    assert |UserVisits(src.users)| == |src.users|;
  }
}
