# Firestore → MongoDB migration, modelled in Dafny

This project models the one-shot migration script
`scripts/migrate_firestore_to_mongo.py`. The script copies four kinds of
documents from a Firestore project into MongoDB:

- users;
- digital twins;
- each twin's conversations;
- each conversation's messages.

For each kind it keeps only an allowlist of fields and normalises timestamps
to one canonical instant. Messages also get renamed fields, a derived `type`
and no None values. Each document is upserted on its natural key with
`$set`, or reported as a plan in a dry run. The run ends with a four-counter
summary.

Modules, one per file:

- `wrappers.dfy` (`Wrappers`): `Option` and `Result`.
- `values.dfy` (`Values`): the field values a document can hold, as a closed
  datatype. `hasattr` probing becomes explicit variants. The file also holds
  the Python built-ins the script relies on (truthiness, `dict.get`,
  `endswith`, the None-stripping comprehension) and the exceptions it can
  raise.
- `timestamps.dfy` (`Timestamps`): `to_datetime`. ISO 8601 parsing is a
  parameter, `iso: string -> Option<Instant>`, where `None` means the parser
  raised.
- `projection.dfy` (`Projection`): the `*_KEYS` allowlists, the generic
  filter `snapshot_to_dict_keys`, and the four projections that build target
  documents, including message type classification.
- `destination.dfy` (`Destination`): the destination store. It is one map
  from (collection, key value) to document. The `$set` upsert is a map merge,
  and the planner tail that every `copy_*` function shares lives here.
- `walk.dfy` (`Walk`): the nested loops of `migrate`, written over an
  arbitrary per-document copier.
  - Also the flattened visiting order, and the proof that the nested loops
    equal one loop over that order.
  - Also the characterisation of a run by the upserts its documents issue.
- `copying.dfy` (`Copying`): `copy_user`, `copy_digital_twin`,
  `copy_conversation` and `copy_message`.
- `migration.dfy` (`Migration`): `migrate` itself, plus whole-run properties:
  - counts;
  - what is written;
  - that a dry run matches a live run;
  - that re-running changes nothing.
- `scenario.dfy` (`Scenario`): one twin `dt1` with one conversation `c1`
  holding two messages, migrated live into an empty store.

Behaviours of the script worth noting, all modelled as written:

- **None placeholders.** A user, twin or conversation date that is present
  but cannot be normalised is stored as a None-valued field (lines 143, 167
  and 188). Only messages strip None values (line 221).
- **Unused generic filter.** `snapshot_to_dict_keys` is defined but never
  called, so the model keeps it as a standalone function.
- **`type` before stripping.** The message `type` is derived from `content`
  and `media` before None values are stripped (lines 211-221).
- **`media` of any shape.** `media[0]` is taken on whatever truthy value the
  source holds:
  - a non-empty list gives its first entry;
  - a non-empty string or bytes value classifies as `"media"`;
  - a truthy mapping makes `media[0]` raise KeyError(0);
  - any other truthy value raises TypeError.
- **`$date` payloads.** The ISO parser reads a string or a bytes value; any
  other `$date` payload makes it raise, which the normaliser turns into None.
- **None `message_id`.** A message whose own `message_id` is None has that
  key stripped. The planner's `msg_doc["message_id"]` then raises KeyError
  (line 226 or 228), which aborts the run. The model keeps this as an error
  outcome.
- **Declared schemas.** `CONVERSATION_KEYS` and `MESSAGE_KEYS` are declared
  but the code never reads them. The model proves that the projectors only
  write fields those lists name.
- **Restarts.** A live run killed part-way and started again from the
  beginning ends in the store an uninterrupted run builds, because every
  write is an upsert on a natural key.

## Model

| member | source | states |
|---|---|---|
| Timestamps.ToDatetime | scripts/migrate_firestore_to_mongo.py:62-81 | None gives nothing. A native timestamp and a datetime give their instant. A string, and a `$date` wrapper around a string, give what the ISO parser gives; a wrapper around bytes gives what the parser gives on their characters. Any other shape, including a wrapper around any other payload, gives nothing. |
| Timestamps.AsValue | scripts/migrate_firestore_to_mongo.py:143 | A normaliser result stored in a field is None exactly when the normaliser gave nothing, and otherwise the datetime of the instant it gave; it is never a `$date` wrapper. |
| Timestamps.WrapperAgreesWithString | scripts/migrate_firestore_to_mongo.py:73-78 | `{"$date": s}` and the plain string `s` normalise to the same result. |
| Timestamps.AllShapesAgree | scripts/migrate_firestore_to_mongo.py:62-78 | If `s` parses to instant `t`, then the wrapper, the string, a native timestamp of `t` and the datetime `t` all normalise to `t`. |
| Timestamps.NormaliseIdempotent | scripts/migrate_firestore_to_mongo.py:62-81 | Normalising a stored normaliser result gives the same result again. |
| Projection.ConversationSchemaCovers | scripts/migrate_firestore_to_mongo.py:111 | Both id fields and every optional field the conversation projector copies are in `CONVERSATION_KEYS`. |
| Projection.SnapshotToDictKeys | scripts/migrate_firestore_to_mongo.py:116-127 | Fails with IndexError exactly when the empty field name is present. Otherwise its keys are exactly `_id` and the keys not starting with `_`. `$date` wrappers are replaced by their normalised value, and every other value is copied unchanged. |
| Projection.SnapshotFilterIdempotent | scripts/migrate_firestore_to_mongo.py:116-127 | Filtering an already filtered document changes nothing. |
| Projection.CopyAllowed | scripts/migrate_firestore_to_mongo.py:137-145 | A field is in the output exactly when it is both listed and present in the source. Its value is the converted source value. |
| Projection.ProjectUser | scripts/migrate_firestore_to_mongo.py:130-145 | Keys are exactly `user_id` plus the `USER_KEYS` fields present in the source. `user_id` is the source's own value, else the document id. Only `created_at` and `last_login` are normalised. Every other field is copied verbatim. |
| Projection.ProjectDigitalTwin | scripts/migrate_firestore_to_mongo.py:156-169 | Keys are exactly `digital_twin_id` plus the `DIGITAL_TWIN_KEYS` fields present. The key falls back to the document id. Only `created_at` is normalised. |
| Projection.ProjectConversation | scripts/migrate_firestore_to_mongo.py:180-188 | Keys are exactly the two ids plus the present fields among summary, created_at, updated_at and message_count. `digital_twin_id` is always the id passed in. A value is normalised exactly when its name ends in `_at` or it is a `$date` wrapper. |
| Projection.MediaHead | scripts/migrate_firestore_to_mongo.py:215 | `media[0]` succeeds exactly on a list, a string or bytes: the first entry, a one-character string, or the first byte as an integer. A mapping raises KeyError(0); any other value raises TypeError. |
| Projection.MessageType | scripts/migrate_firestore_to_mongo.py:211-218 | Falsy media gives `"text"`. A non-empty list gives the first entry's truthy `type`, else `"media"`. A non-empty string or bytes value gives `"media"`. Any other truthy media raises, KeyError(0) for a mapping and TypeError otherwise. A successful result is always truthy. |
| Projection.MessageTypeExamples | scripts/migrate_firestore_to_mongo.py:211-218 | Content "hi" with `media` [] gives "text"; empty content with `media` [{type: "image"}] gives "image"; with `media` [{}] gives "media"; with `media` [] gives "text". |
| Projection.ProjectMessage | scripts/migrate_firestore_to_mongo.py:199-221 | Fails exactly when media cannot be indexed, with the exception `media[0]` raises. Otherwise every key is in `MESSAGE_KEYS` and no value is None. The two parent ids are the ones passed in. `type` is present and equals the classification of `content` and `media`. |
| Projection.MessageRenames | scripts/migrate_firestore_to_mongo.py:201-206 | `message_id`, `sender` and `message` are the resolved id, `role` and `content`. Each is present exactly when that value is not None. |
| Projection.MessageMediaAndTimestamp | scripts/migrate_firestore_to_mongo.py:207-208 | A missing `media` becomes `[]`, and a None `media` is dropped. A missing `timestamp` gives no `timestamp` key. A present `timestamp` is kept exactly when it normalises. |
| Values.StripNulls | scripts/migrate_firestore_to_mongo.py:221 | Keeps exactly the fields whose value is not None, with their values. |
| Destination.Apply | scripts/migrate_firestore_to_mongo.py:152 | The upsert adds or updates only the document under the request's key. It sets every field the request carries and keeps every other stored field. |
| Destination.TouchedBy | scripts/migrate_firestore_to_mongo.py:152 | A document a sequence of upserts targets is the key of one of them. |
| Destination.StoredKeysTargeted | scripts/migrate_firestore_to_mongo.py:152 | A store built by upserts from empty holds only documents one of them targets. |
| Destination.ApplyIdempotent | scripts/migrate_firestore_to_mongo.py:152 | Applying an upsert twice equals applying it once. |
| Destination.ApplyAllFieldwise | scripts/migrate_firestore_to_mongo.py:152 | After a sequence of upserts, a document exists exactly when it existed or was targeted. Each field holds the last value written to it, else its old value. |
| Destination.Survives | scripts/migrate_firestore_to_mongo.py:152 | The value an upsert writes into a field is what the store holds after the run when no later upsert targets the same document. |
| Destination.ApplyAllIdempotent | scripts/migrate_firestore_to_mongo.py:152 | Replaying a sequence of upserts over its own result changes nothing. |
| Destination.PrefixWritesSurvive | scripts/migrate_firestore_to_mongo.py:152 | Every document a prefix of a run of upserts targets, and every field it writes, the whole run targets and writes too. |
| Destination.RestartConverges | scripts/migrate_firestore_to_mongo.py:152 | Applying the first `n` upserts of a run and then the whole run gives the store the whole run alone gives. |
| Destination.Execute | scripts/migrate_firestore_to_mongo.py:149-153 | Raises KeyError exactly when the document lacks its key field. A dry run leaves the store alone and reports the filter and the document. A live run applies the upsert and reports the key value. |
| Destination.DryRunPlanIsLiveWrite | scripts/migrate_firestore_to_mongo.py:225-229 | The document and filter a dry run reports are exactly what the live run writes, under the key it returns. |
| Copying.CopyUser | scripts/migrate_firestore_to_mongo.py:130-153 | Raises nothing of its own; BSON encoding failures are left out. A dry run reports the filter on the resolved `user_id` and the projected user. A live run upserts it into `users`. |
| Copying.CopyDigitalTwin | scripts/migrate_firestore_to_mongo.py:156-177 | Raises nothing of its own; BSON encoding failures are left out. Plans or upserts the projected twin into `digital_twins` on the resolved `digital_twin_id`. |
| Copying.CopyConversation | scripts/migrate_firestore_to_mongo.py:180-196 | Raises nothing of its own; BSON encoding failures are left out. Plans or upserts the projected conversation into `conversations` on the resolved `conversation_id`. |
| Copying.CopyMessage | scripts/migrate_firestore_to_mongo.py:199-229 | Raises exactly when media cannot be indexed, with the exception `media[0]` raises, or when the resolved `message_id` is None, with KeyError('message_id'). Otherwise plans or upserts into `avatar_conversations`. |
| Copying.Issue | scripts/migrate_firestore_to_mongo.py:199-229 | Every issued request carries its key field. Only messages can fail, exactly in the cases where `copy_message` raises and with the same exception. |
| Copying.IssueTargetsCollection | scripts/migrate_firestore_to_mongo.py:233-259 | Each issued upsert goes to the collection of its document's kind: `users`, `digital_twins`, `conversations` or `avatar_conversations`. |
| Copying.CopyCarriesOutIssue | scripts/migrate_firestore_to_mongo.py:149-153 | Each copy function raises exactly when its request fails, with the same exception. It writes nothing in a dry run and applies the request in a live run. |
| Copying.MessageIssueCarriesParents | scripts/migrate_firestore_to_mongo.py:201-204 | A message upsert is keyed by the resolved `message_id` and carries the parent ids handed down. |
| Walk.WalkUsers | scripts/migrate_firestore_to_mongo.py:241-243 | A completed users loop has counted every user. |
| Walk.WalkMessages | scripts/migrate_firestore_to_mongo.py:258-260 | A completed messages loop has counted every message of the conversation. |
| Walk.WalkConversations | scripts/migrate_firestore_to_mongo.py:252-260 | A completed conversations loop has counted every conversation and every message under them. |
| Walk.WalkTwins | scripts/migrate_firestore_to_mongo.py:246-260 | A completed twins loop has counted every twin, and every conversation and message under them. |
| Walk.WalkAll | scripts/migrate_firestore_to_mongo.py:238-263 | A finished walk reports the number of users, twins, conversations over all twins and messages over all conversations. |
| Walk.WalkUsersIsReplay | scripts/migrate_firestore_to_mongo.py:241-243 | The users loop is the flat walk over the user visits. |
| Walk.WalkMessagesIsReplay | scripts/migrate_firestore_to_mongo.py:258-260 | The messages loop is the flat walk over its message visits. Each visit carries the twin's and the conversation's ids. |
| Walk.WalkConversationsIsReplay | scripts/migrate_firestore_to_mongo.py:252-260 | The conversations loop is the flat walk in which each conversation is followed by its messages. |
| Walk.WalkTwinsIsReplay | scripts/migrate_firestore_to_mongo.py:246-260 | The twins loop is the flat walk in which each twin is followed by its conversations. |
| Walk.WalkAllIsReplay | scripts/migrate_firestore_to_mongo.py:240-260 | The whole nested walk equals one loop over the flattened visiting order. |
| Walk.Issued | scripts/migrate_firestore_to_mongo.py:241-260 | The issued requests are those of the longest prefix of visits whose requests succeed. The next visit's request fails. |
| Walk.ReplayByIssue | scripts/migrate_firestore_to_mongo.py:240-260 | A run stops at the first failing visit, with that exception. It has counted exactly the visits before it. It has applied their upserts in order, or nothing in a dry run. |
| Walk.UsersComeFirst | scripts/migrate_firestore_to_mongo.py:240-248 | All users are visited first, in order, and no later visit is a user. |
| Walk.ConversationVisitsHaveParents | scripts/migrate_firestore_to_mongo.py:252-259 | Under a twin, every visit carries that twin's id. Every message visit carries the source id of a conversation that contains it. |
| Walk.TwinVisitsHaveParents | scripts/migrate_firestore_to_mongo.py:246-259 | Every conversation or message visit carries the source id of a twin of the source, and the source id of a conversation of that twin that contains it. |
| Walk.MessagesFollowConversation | scripts/migrate_firestore_to_mongo.py:252-260 | Each conversation is visited right after the conversations before it, and its messages, in order, right after it. |
| Walk.ConversationsFollowTwin | scripts/migrate_firestore_to_mongo.py:246-260 | Each twin is visited after all users and the earlier twins, and its conversations right after it. |
| Migration.Migrate | scripts/migrate_firestore_to_mongo.py:232-263 | A finished migration reports the number of users, twins, conversations over all twins and messages over all conversations. |
| Migration.CopyRealisesIssue | scripts/migrate_firestore_to_mongo.py:149-153 | The copy functions carry out exactly the requests `Issue` describes, in either mode and against any store. |
| Migration.Requests | scripts/migrate_firestore_to_mongo.py:241-260 | The upserts a migration issues are keyed and follow the visiting order. |
| Migration.MigrateWrites | scripts/migrate_firestore_to_mongo.py:232-263 | A migration finishes exactly when every visit's request succeeds; otherwise it reports the first failing document's exception. Its counts tally the copied documents. A dry run leaves the store unchanged. A live run leaves the store as the issued upserts make it. |
| Migration.DryRunMatchesLive | scripts/migrate_firestore_to_mongo.py:232-263 | Dry and live runs finish or abort alike, with the same exception and the same counts, whatever each store holds, for sources whose values all BSON-encode. The dry run writes nothing. |
| Migration.MigrateIdempotent | scripts/migrate_firestore_to_mongo.py:232-263 | Re-running a live migration over its own result gives the same outcome, counts and store. |
| Migration.MigrateRestartConverges | scripts/migrate_firestore_to_mongo.py:232-263 | A live migration started over the store left by a run killed after its first `n` upserts ends exactly as an uninterrupted migration: same outcome, same counts, same store. |
| Migration.UsersAlwaysCopied | scripts/migrate_firestore_to_mongo.py:241-243 | User documents raise nothing the model covers, so every user is copied and counted. |
| Migration.UsersIssued | scripts/migrate_firestore_to_mongo.py:130-153 | User documents raise nothing the model covers, so the issued upserts cover every user. |
| Migration.TallyUsers | scripts/migrate_firestore_to_mongo.py:243 | Counting a prefix whose first `n` visits are exactly its users gives `n` users. |
| Scenario.ExampleRequests | scripts/migrate_firestore_to_mongo.py:253-259 | In the example, all four documents issue upserts. The two messages are keyed by their own ids and carry `dt1` and `c1`. |
| Scenario.ExampleCollections | scripts/migrate_firestore_to_mongo.py:246-253 | In the example, the twin's upsert goes to `digital_twins` and the conversation's to `conversations`. |
| Scenario.OnlyExampleMessages | scripts/migrate_firestore_to_mongo.py:258-259 | The only upserts of the example into `avatar_conversations` are keyed `m1` and `m2`. |
| Scenario.ExampleFinishes | scripts/migrate_firestore_to_mongo.py:238-263 | The example run finishes with summary {0, 1, 1, 2} and the store its upserts build. |
| Scenario.EndToEndScenario | scripts/migrate_firestore_to_mongo.py:246-260 | Migrating the example into an empty store finishes with summary {0, 1, 1, 2}. The message collection holds exactly the documents `m1` and `m2`, and both have `digital_twin_id` "dt1" and `conversation_id` "c1". |

## Left out

- Command-line parsing, environment defaults, `main`'s configuration check
  and exit (lines 39-46 and 266-292): process plumbing with no data logic.
- The Firestore and MongoDB clients (lines 49-59), `.stream()` and
  `.reference.collection()`. The source becomes nested sequences, and the
  destination becomes a map.
- Logging (`LOG.*`): it has no effect on results.
- The internals of ISO 8601 parsing, and of the native timestamp's
  `ToDatetime`.
  - The parser is a parameter.
  - A native timestamp carries the instant it converts to.
  - Any exception inside `to_datetime` is caught by the script, so no raising
    path is modelled there.
- Copying.CopyUser: a live upsert raises when the document holds a value
  BSON cannot encode (a document reference, geo point or other `Other`
  value, a vector, a timestamp object left unnormalised), which stops the
  run. The model assumes every value encodes, so it never raises here.
- Copying.CopyDigitalTwin: the same BSON encoding failure on a live upsert
  is not modelled.
- Copying.CopyConversation: the same BSON encoding failure on a live upsert
  is not modelled.
- Copying.CopyMessage: the same BSON encoding failure on a live upsert is
  not modelled; only the media and `message_id` errors are.
- Migration.DryRunMatchesLive: holds only for sources whose values all
  encode. A live run stops at the first unencodable document, while a dry
  run, which encodes nothing, goes on.
- BSON encoding, MongoDB's `_id`, the rule that a null filter matches a
  missing field, and matching that ignores numeric type. The store is keyed
  by the exact key value.
- Iteration order of Firestore streams, and field order inside documents.
  Sources are sequences in the order given, and documents are maps.
- Floating-point detail: `Float` carries a real, used only for truthiness.
- Firestore vector values: a vector indexes and tests for truth like a list
  of floats, so the model represents it as a `List` of `Float` values.
- Timestamps.ToDatetime: a bytes `$date` payload is parsed as its Latin-1
  string by the same parser parameter. The real parser accepts any single
  byte as the date/time separator of a bytes value but rejects a non-ASCII
  separator character in a string, so for such payloads the model's result
  can differ from the script's.
- Walk.WalkUsers: counters of a run that raises are kept in the model's
  `Aborted` outcome. In the script the exception propagates and the summary
  is lost. The finished-run counts are exact.
- Migration.Migrate: the ensures states the counts of a finished run only;
  `MigrateWrites` states the rest.
- Projection.SnapshotToDictKeys: the script's iteration stops at the first
  offending key. The model reports IndexError for the whole call whenever the
  empty field name is present, which has the same visible result.
