# Bot platform database and its test-data generator

This project models two files of a bot platform's data layer:

- `models.py` is the relational schema. It has ten tables (users, integrations, segments, contact sources, contacts, bot scripts, messengers, conversations, messages and tasks). It declares their foreign keys, their column defaults and the `back_populates` relationship collections.
- `populate_db.py` holds the factory_boy factories that generate rows for those tables. It also holds `populate_database`, which fills an empty database with a fixed program of batches.

## How the code maps to the model

- `models.dfy` (module `Models`) holds one datatype per table. Every foreign key is an `Option<int>`, because no foreign-key column is declared `nullable=False`.
  - `role`, `type`, `status` and `sender` are plain `string` fields with no restriction, as the String columns are. The `type` column is called `kind`.
  - The database is one sequence of rows per table (`Tables`).
  - Column defaults are insert functions.
  - Each `back_populates` collection is a filter of the child table on its foreign key (`Matching`).
  - `RefIntegrity` states that every non-NULL key names an existing row.
- `factories.dfy` (module `Factories`) has one pure function per factory. Each maps a generator `State` (tables, Iterator cursors, Faker) to the next one. factory_boy's behaviour is spelled out:
  - A `SubFactory` inserts a fresh parent first.
  - An `Iterator` is a cursor shared by every create of its factory. It cycles round-robin and moves only when its field is not overridden.
  - `Maybe` tests the truthiness of `status`.
  - `LazyAttribute` derives `is_ai_generated` from `sender`.
  - `create_batch(n)` is n creates.
- `factory_properties.dfy` (module `FactoryProperties`) proves, for each create and batch:
  - the rows it inserts;
  - that earlier rows are left unchanged;
  - that it keeps the invariant `Generated`: sequential keys, referential integrity, the variants each SubFactory pins, and the derived fields;
  - which key each appended row writes: the id of the parent its SubFactory has just inserted (`FreshParents`), or the conversation an override names;
  - that it therefore leaves every row that existed before it unreferenced, except a conversation that an override names.
- `iterators.dfy` (module `IteratorProperties`) proves how far each create moves every Iterator, and which values a batch takes in turn. It also proves the invariant `RoundRobin`: the integration names, contact-source names, messenger names, conversation statuses, message senders and task statuses go to their tables' rows in creation order, one value per row.
- `populate.dfy` (module `Populate`) defines `populate_database` as a pure function and proves what the filled database satisfies.
- `database.dfy` (module `Database`) is the program as it runs. A `Session` object's tables grow row by row, its cursor fields advance, and the conversations loop is a `for` loop. Every method is proved to leave exactly the state the pure definitions give, so the properties proved there hold of what the methods build.

`models.py:135` gives "active" and "completed" as examples of a conversation status, and `models.py:137` declares `ended_at` as a nullable DateTime, so an active conversation could be left without one. The factory never does that. `Maybe("status", ...)` tests whether `status` is truthy, and the status Iterator only yields the non-empty strings "active" and "completed". So every generated conversation gets an `ended_at`, including the active ones. The model follows the code, and `Populate.PopulateEndedAt` states the consequence.

## Model

| member | source | states |
|---|---|---|
| Models.InsertIntegration | models.py:37-44 | an inserted integration keeps the supplied columns; `is_active` is true unless False is supplied |
| Models.InsertMessenger | models.py:113-119 | an inserted messenger keeps the supplied columns; `is_active` is true unless False is supplied |
| Models.InsertMessage | models.py:146-154 | an inserted message keeps the supplied columns; `is_ai_generated` is true only when True is supplied |
| Models.MatchingMembers | models.py:142 | a back-populated collection holds exactly the child rows whose foreign key names the parent |
| Models.MatchingConcat | models.py:142 | a collection over a table that grew by appending is the old collection followed by the new matches |
| Models.MatchingAll | models.py:142 | rows that all name the parent all belong to its collection |
| Models.MatchingNone | models.py:142 | rows that name other parents add nothing to its collection |
| Models.UserTasks | models.py:33 | `User.tasks` is exactly the tasks whose `user_id` is the user's id |
| Models.IntegrationContactSources | models.py:48 | `Integration.contact_sources` is exactly the sources whose `integration_id` is the integration's id |
| Models.IntegrationMessengers | models.py:49 | `Integration.messengers` is exactly the messengers whose `integration_id` is the integration's id |
| Models.IntegrationTasks | models.py:50 | `Integration.tasks` is exactly the tasks whose `crm_id` is the integration's id |
| Models.SegmentContacts | models.py:63 | `Segment.contacts` is exactly the contacts whose `segment_id` is the segment's id |
| Models.ContactSourceContacts | models.py:76 | `ContactSource.contacts` is exactly the contacts whose `source_id` is the source's id |
| Models.ContactConversations | models.py:95 | `Contact.conversations` is exactly the conversations whose `contact_id` is the contact's id |
| Models.ContactTasks | models.py:96 | `Contact.tasks` is exactly the tasks whose `contact_id` is the contact's id |
| Models.BotScriptConversations | models.py:109 | `BotScript.conversations` is exactly the conversations whose `script_id` is the script's id |
| Models.MessengerConversations | models.py:123 | `Messenger.conversations` is exactly the conversations whose `messenger_id` is the messenger's id |
| Models.ConversationMessages | models.py:142 | `Conversation.messages` is exactly the messages whose `conversation_id` is the conversation's id |
| Factories.MaybeEndedAt | populate_db.py:130-134 | `ended_at` is set if and only if `status` is truthy (non-empty), and is then the yes-declaration's value |
| FactoryProperties.UserCost | populate_db.py:37-45 | a UserFactory create inserts one user and nothing else |
| FactoryProperties.IntegrationCost | populate_db.py:49-58 | an IntegrationFactory create inserts one integration and nothing else |
| FactoryProperties.SegmentCost | populate_db.py:62-69 | a SegmentFactory create inserts one segment and nothing else |
| FactoryProperties.ContactSourceCost | populate_db.py:73-80 | a ContactSourceFactory create inserts one integration and one contact source |
| FactoryProperties.ContactCost | populate_db.py:84-94 | a ContactFactory create inserts an integration, a segment, a source and a contact |
| FactoryProperties.BotScriptCost | populate_db.py:98-105 | a BotScriptFactory create inserts one bot script and nothing else |
| FactoryProperties.MessengerCost | populate_db.py:109-117 | a MessengerFactory create inserts one integration and one messenger |
| FactoryProperties.ConversationCost | populate_db.py:121-134 | a ConversationFactory create inserts its contact chain, messenger chain, bot script and conversation (two integrations in all) |
| FactoryProperties.MessageCost | populate_db.py:138-146 | a MessageFactory create inserts one message, plus a whole conversation chain when `conversation` is not overridden |
| FactoryProperties.FreshMessageCost | populate_db.py:142 | without the override, the SubFactory's conversation chain is inserted before the message |
| FactoryProperties.TaskCost | populate_db.py:150-160 | a TaskFactory create inserts a contact chain, a user, a third integration and the task |
| FactoryProperties.CreateCost | populate_db.py:37-160 | every create inserts exactly the rows its SubFactory declarations call for |
| FactoryProperties.BatchCost | populate_db.py:165-176 | `create_batch(n)` inserts n times the rows of one create |
| FactoryProperties.UserExtends | populate_db.py:37-45 | a user create only appends rows and keeps Faker |
| FactoryProperties.IntegrationExtends | populate_db.py:49-58 | an integration create only appends rows |
| FactoryProperties.SegmentExtends | populate_db.py:62-69 | a segment create only appends rows |
| FactoryProperties.ContactSourceExtends | populate_db.py:73-80 | a contact-source create only appends rows |
| FactoryProperties.ContactExtends | populate_db.py:84-94 | a contact create only appends rows |
| FactoryProperties.BotScriptExtends | populate_db.py:98-105 | a bot-script create only appends rows |
| FactoryProperties.MessengerExtends | populate_db.py:109-117 | a messenger create only appends rows |
| FactoryProperties.ConversationExtends | populate_db.py:121-134 | a conversation create only appends rows |
| FactoryProperties.MessageExtends | populate_db.py:138-146 | a message create only appends rows |
| FactoryProperties.TaskExtends | populate_db.py:150-160 | a task create only appends rows |
| FactoryProperties.CreateExtends | populate_db.py:37-160 | no create changes an existing row |
| FactoryProperties.BatchExtends | populate_db.py:165-176 | no batch changes an existing row or Faker |
| FactoryProperties.AppendContactSourceKeepsGenerated | populate_db.py:78 | when the last integration is a "CRM", the appended source row's `integration_id` is that integration's id, and the invariant holds |
| FactoryProperties.AppendContactKeepsGenerated | populate_db.py:91-92 | the appended contact's `source_id` and `segment_id` are the ids of the last source and the last segment, and the invariant holds |
| FactoryProperties.AppendMessengerKeepsGenerated | populate_db.py:114 | when the last integration is a "Messenger", the appended messenger's `integration_id` is its id, and the invariant holds |
| FactoryProperties.AppendConversationKeepsGenerated | populate_db.py:125-134 | the appended conversation's `contact_id`, `messenger_id` and `script_id` are the ids of the last contact, messenger and bot script, and the invariant (Iterator status, an `ended_at`) holds |
| FactoryProperties.AppendMessageKeepsGenerated | populate_db.py:142-146 | the message row points at an existing conversation and `is_ai_generated == (sender == "bot")` |
| FactoryProperties.AppendTaskKeepsGenerated | populate_db.py:154-158 | when the last user is a "manager" and the last integration a "CRM", the appended task's `contact_id`, `user_id` and `crm_id` are the ids of the last contact, user and integration, and the invariant holds |
| FactoryProperties.UserKeepsGenerated | populate_db.py:37-45 | a user create keeps the invariant |
| FactoryProperties.IntegrationKeepsGenerated | populate_db.py:49-58 | an integration create keeps the invariant |
| FactoryProperties.SegmentKeepsGenerated | populate_db.py:62-69 | a segment create keeps the invariant |
| FactoryProperties.BotScriptKeepsGenerated | populate_db.py:98-105 | a bot-script create keeps the invariant |
| FactoryProperties.ContactSourceKeepsGenerated | populate_db.py:73-80 | a contact-source create keeps the invariant; its integration is a "CRM" |
| FactoryProperties.MessengerKeepsGenerated | populate_db.py:109-117 | a messenger create keeps the invariant; its integration is a "Messenger" |
| FactoryProperties.ContactKeepsGenerated | populate_db.py:84-94 | a contact create keeps the invariant |
| FactoryProperties.ConversationKeepsGenerated | populate_db.py:121-134 | a conversation create keeps the invariant |
| FactoryProperties.MessageKeepsGenerated | populate_db.py:138-146 | a message create whose override names an existing conversation keeps the invariant |
| FactoryProperties.TaskKeepsGenerated | populate_db.py:150-160 | a task create keeps the invariant; its integration is a "CRM" and its user a "manager" |
| FactoryProperties.CreateKeepsGenerated | populate_db.py:37-160 | every create keeps referential integrity, the pinned variants and the derived fields |
| FactoryProperties.BatchKeepsGenerated | populate_db.py:165-176 | every batch keeps them too |
| FactoryProperties.ConsistentIsUnreferencedAbove | models.py:72 | in a database with referential integrity, no key names a row beyond the table's end |
| FactoryProperties.AppendContactSourceKeepsUnreferenced | populate_db.py:78 | after the source row is appended, rows (lo, hi] of a table are unreferenced exactly when they were before and, for integrations, key `|integrations|` (the newest) is outside the range: the row writes that one key and no other |
| FactoryProperties.AppendContactKeepsUnreferenced | populate_db.py:91-92 | likewise for the contact row, whose only keys are `|contactSources|` and `|segments|` |
| FactoryProperties.AppendMessengerKeepsUnreferenced | populate_db.py:114 | likewise for the messenger row, whose only key is `|integrations|` |
| FactoryProperties.AppendConversationKeepsUnreferenced | populate_db.py:125-127 | likewise for the conversation row, whose only keys are `|contacts|`, `|messengers|` and `|botScripts|` |
| FactoryProperties.AppendMessageKeepsUnreferenced | populate_db.py:142 | likewise for the message row, whose only key is the conversation it is given |
| FactoryProperties.AppendTaskKeepsUnreferenced | populate_db.py:154-156 | likewise for the task row, whose only keys are `|contacts|`, `|users|` and `|integrations|` |
| FactoryProperties.UserKeepsUnreferenced | populate_db.py:37-45 | a user create writes no foreign key |
| FactoryProperties.IntegrationKeepsUnreferenced | populate_db.py:49-58 | an integration create writes no foreign key |
| FactoryProperties.SegmentKeepsUnreferenced | populate_db.py:62-69 | a segment create writes no foreign key |
| FactoryProperties.BotScriptKeepsUnreferenced | populate_db.py:98-105 | a bot-script create writes no foreign key |
| FactoryProperties.ContactSourceKeepsUnreferenced | populate_db.py:73-80 | a contact-source create leaves earlier rows unreferenced, and its row points at the integration it has just inserted (id `|integrations| + 1`) |
| FactoryProperties.MessengerKeepsUnreferenced | populate_db.py:109-117 | a messenger create leaves earlier rows unreferenced, and its row points at the integration it has just inserted |
| FactoryProperties.ContactKeepsUnreferenced | populate_db.py:84-94 | a contact create leaves earlier rows unreferenced, and its row points at the source and segment it has just inserted |
| FactoryProperties.ConversationKeepsUnreferenced | populate_db.py:121-134 | a conversation create leaves earlier rows unreferenced, and its row points at the contact, messenger and bot script it has just inserted |
| FactoryProperties.MessageKeepsUnreferenced | populate_db.py:138-146 | a message create leaves earlier rows unreferenced except the conversation its override names, and its row points at that conversation, or at the fresh one |
| FactoryProperties.FreshMessageKeepsUnreferenced | populate_db.py:142 | without the override, a message create leaves every earlier row unreferenced and its row points at the conversation its SubFactory has just inserted (id `|conversations| + 1`) |
| FactoryProperties.TaskKeepsUnreferenced | populate_db.py:150-160 | a task create leaves earlier rows unreferenced, and its row points at the contact, user and integration it has just inserted |
| FactoryProperties.CreateKeepsUnreferenced | populate_db.py:37-160 | a create leaves every earlier row unreferenced, except where a `conversation` override points, and the row it appends points at the parents its SubFactories inserted (`FreshParents`) |
| FactoryProperties.BatchKeepsUnreferenced | populate_db.py:165-176 | a batch leaves earlier rows unreferenced, and each of its creates appends a row pointing at that create's fresh parents |
| FactoryProperties.ContactSourceFreshParents | populate_db.py:78 | the new source's `integration_id` is `|integrations| + 1`, the integration its SubFactory inserts |
| FactoryProperties.MessengerFreshParents | populate_db.py:114 | the new messenger's `integration_id` is `|integrations| + 1` |
| FactoryProperties.ContactFreshParents | populate_db.py:91-92 | the new contact's `source_id` is `|contactSources| + 1` and its `segment_id` is `|segments| + 1` |
| FactoryProperties.ConversationFreshParents | populate_db.py:125-127 | the new conversation's `contact_id`, `messenger_id` and `script_id` are `|contacts| + 1`, `|messengers| + 1` and `|botScripts| + 1` |
| FactoryProperties.MessageFreshParents | populate_db.py:142 | the new message's `conversation_id` is the override, or `|conversations| + 1` without one |
| FactoryProperties.TaskFreshParents | populate_db.py:154-156 | the new task's `contact_id` is `|contacts| + 1`, its `user_id` `|users| + 1` and its `crm_id` `|integrations| + 2` (the contact's source chain inserts an integration first) |
| FactoryProperties.CreateFreshParents | populate_db.py:73-160 | every create's row points at the parents its own SubFactories insert, never at an existing row |
| FactoryProperties.BatchFreshParents | populate_db.py:165-176 | so does every create of a batch |
| IteratorProperties.UserTicks | populate_db.py:43 | a UserFactory create moves the role Iterator exactly when `role` is not overridden |
| IteratorProperties.IntegrationTicks | populate_db.py:53-54 | an IntegrationFactory create moves the name Iterator, and the type Iterator only when `type` is not overridden |
| IteratorProperties.SegmentTicks | populate_db.py:62-69 | a SegmentFactory create moves no Iterator |
| IteratorProperties.BotScriptTicks | populate_db.py:98-105 | a BotScriptFactory create moves no Iterator |
| IteratorProperties.ContactSourceTicks | populate_db.py:77-78 | a ContactSourceFactory create moves the source-name and integration-name Iterators, but not the type Iterator |
| IteratorProperties.MessengerTicks | populate_db.py:113-114 | a MessengerFactory create moves the messenger-name and integration-name Iterators |
| IteratorProperties.ContactTicks | populate_db.py:91-92 | a ContactFactory create moves the Iterators of its SubFactories |
| IteratorProperties.ConversationTicks | populate_db.py:125-128 | a ConversationFactory create moves the status Iterator once, plus its parents' Iterators |
| IteratorProperties.MessageTicks | populate_db.py:142-143 | a MessageFactory create moves the sender Iterator once, plus a conversation chain's when not overridden |
| IteratorProperties.FreshMessageTicks | populate_db.py:142 | without the override, the SubFactory's conversation chain moves its Iterators first |
| IteratorProperties.TaskTicks | populate_db.py:154-158 | a TaskFactory create moves the task-status Iterator but neither the role nor the type Iterator |
| IteratorProperties.CreateTicks | populate_db.py:37-160 | each create moves each Iterator by a fixed amount |
| IteratorProperties.BatchTicks | populate_db.py:165-176 | a batch moves them n times as far |
| IteratorProperties.KindCursorMovesOnlyUnpinned | populate_db.py:54 | only an IntegrationFactory create without a `type` override consults the type Iterator |
| IteratorProperties.BatchRoles | populate_db.py:43 | user j of a batch gets role `["manager", "administrator"][(cursor + j) mod 2]` |
| IteratorProperties.BatchSenders | populate_db.py:143-146 | message j of an overridden batch belongs to that conversation, has sender `["bot", "client"][(cursor + j) mod 2]`, and `is_ai_generated == (sender == "bot")` |
| IteratorProperties.ConversationParents | populate_db.py:125-128 | a conversation's SubFactories insert no conversation and draw no status |
| IteratorProperties.AppendConversationRow | populate_db.py:128-134 | the conversation row takes the status at the cursor and always has an `ended_at` |
| IteratorProperties.IntegrationKeepsRoundRobin | populate_db.py:53 | an integration create gives its row the name at the cursor, so integration names stay in row order |
| IteratorProperties.AppendContactSourceKeepsRoundRobin | populate_db.py:77 | the source row takes the source name at the cursor |
| IteratorProperties.AppendMessengerKeepsRoundRobin | populate_db.py:113 | the messenger row takes the messenger name at the cursor |
| IteratorProperties.AppendConversationKeepsRoundRobin | populate_db.py:128 | the conversation row takes the status at the cursor |
| IteratorProperties.AppendMessageKeepsRoundRobin | populate_db.py:143 | the message row takes the sender at the cursor |
| IteratorProperties.AppendTaskKeepsRoundRobin | populate_db.py:158 | the task row takes the task status at the cursor |
| IteratorProperties.UserKeepsRoundRobin | populate_db.py:37-45 | a user create keeps the six tables in round-robin order |
| IteratorProperties.SegmentKeepsRoundRobin | populate_db.py:62-69 | so does a segment create |
| IteratorProperties.BotScriptKeepsRoundRobin | populate_db.py:98-105 | so does a bot-script create |
| IteratorProperties.ContactSourceKeepsRoundRobin | populate_db.py:73-80 | so does a contact-source create, integration included |
| IteratorProperties.MessengerKeepsRoundRobin | populate_db.py:109-117 | so does a messenger create |
| IteratorProperties.ContactKeepsRoundRobin | populate_db.py:84-94 | so does a contact create |
| IteratorProperties.ConversationKeepsRoundRobin | populate_db.py:121-134 | so does a conversation create with its parent chains |
| IteratorProperties.MessageKeepsRoundRobin | populate_db.py:138-146 | so does a message create, with or without the override |
| IteratorProperties.TaskKeepsRoundRobin | populate_db.py:150-160 | so does a task create |
| IteratorProperties.CreateKeepsRoundRobin | populate_db.py:37-160 | every create keeps row i of each of the six tables at the value `cursor - |rows| + i` of its Iterator |
| IteratorProperties.BatchKeepsRoundRobin | populate_db.py:165-176 | so does every batch |
| IteratorProperties.IntegrationKind | populate_db.py:54 | a new integration's `type` is the override when one is passed, and otherwise the type Iterator's value at the cursor, so it is one of "CRM" and "Messenger" or the override |
| IteratorProperties.IntegrationKeepsKindsKnown | populate_db.py:49-58 | an integration create whose override, if any, is "CRM" or "Messenger" gives the row one of those types |
| IteratorProperties.ContactSourceKeepsKindsKnown | populate_db.py:78 | the source's SubFactory integration is a "CRM" |
| IteratorProperties.MessengerKeepsKindsKnown | populate_db.py:114 | the messenger's SubFactory integration is a "Messenger" |
| IteratorProperties.ContactKeepsKindsKnown | populate_db.py:91 | a contact's source chain inserts only a "CRM" integration |
| IteratorProperties.ConversationKeepsKindsKnown | populate_db.py:125-127 | a conversation's parent chains insert only "CRM" and "Messenger" integrations |
| IteratorProperties.MessageKeepsKindsKnown | populate_db.py:142 | so does a message create, with or without the override |
| IteratorProperties.TaskKeepsKindsKnown | populate_db.py:154-156 | a task's contact chain and its `crm` SubFactory insert only "CRM" integrations |
| IteratorProperties.CreateKeepsKindsKnown | populate_db.py:37-160 | every create whose `type` override is "CRM" or "Messenger" gives every integration it inserts one of those types |
| IteratorProperties.BatchKeepsKindsKnown | populate_db.py:165-176 | so does every such batch |
| IteratorProperties.BatchPinnedKinds | populate_db.py:166-167 | `create_batch(n, type=k)` appends n integrations, all of `type` k, and keeps the earlier ones |
| Populate.AttachCost | populate_db.py:174-175 | the message loop inserts 10 messages per conversation and no other row |
| Populate.AttachExtends | populate_db.py:174-175 | the loop changes no existing row |
| Populate.AttachTicks | populate_db.py:174-175 | the loop moves only the sender Iterator, by 10 per conversation |
| Populate.AttachKeepsGenerated | populate_db.py:174-175 | the loop over existing conversations keeps the invariant |
| Populate.AttachKeepsUnreferenced | populate_db.py:174-175 | the loop writes keys into the conversations table only |
| Populate.AlternatingHalves | populate_db.py:143 | an alternating exchange of 2k messages has k from "bot" and k from "client" |
| Populate.MessageBatchExchange | populate_db.py:175 | one `create_batch(10, conversation=c)` appends 10 alternating messages, all in c |
| Populate.OthersUnchanged | populate_db.py:175 | a batch for one conversation leaves every other conversation's messages as they were |
| Populate.OwnBatch | populate_db.py:174-175 | a conversation that had no messages ends with exactly its own batch |
| Populate.OthersStillEmpty | populate_db.py:174-175 | a batch for one conversation leaves the later conversations of the list without messages |
| Populate.ExchangeStep | populate_db.py:174-175 | one loop iteration followed by the rest of the loop gives the current conversation exactly its batch |
| Populate.AttachExchanges | populate_db.py:174-175 | after the loop each listed conversation has exactly one alternating exchange of 10 messages |
| Populate.BatchNumbersConversations | populate_db.py:173 | the conversations a batch inserts carry the ids their positions give them |
| Populate.ConversationFactoryAppendsOne | populate_db.py:121-134 | every ConversationFactory create appends exactly one conversation, with the next id |
| Populate.ConversationId | populate_db.py:121-134 | a single ConversationFactory create appends one conversation with the next id and keeps the earlier ones |
| Populate.BatchReturnsNewIds | populate_db.py:173-174 | the list `create_batch(15)` returns is the conversations with the next 15 ids, in order |
| Populate.StatementSizes | populate_db.py:165-172 | the rows each of the eight directory statements inserts |
| Populate.PrefixSizes | populate_db.py:165-172 | the rows the first k directory statements insert |
| Populate.DirectoryCost | populate_db.py:165-172 | the directory statements insert 5 users, 30 integrations, 23 segments, 23 sources, 20 contacts, 2 scripts and 3 messengers |
| Populate.ConverseCost | populate_db.py:173-175 | the conversations and their messages add 15 conversations, their parent chains and 150 messages |
| Populate.PopulateCounts | populate_db.py:164-176 | `populate_database` adds exactly 15 users, 80 integrations, 48 segments, 48 sources, 45 contacts, 17 scripts, 18 messengers, 15 conversations, 150 messages and 10 tasks |
| Populate.SumPopulate | populate_db.py:164-176 | the directory, conversation and task row counts add up to the totals of `populate_database` |
| Populate.SumPopulateTicks | populate_db.py:164-176 | the Iterator moves of the three phases add up to those of `populate_database` |
| Populate.StatementCursors | populate_db.py:165-172 | how far each directory statement moves each Iterator |
| Populate.PrefixCursors | populate_db.py:165-172 | how far the first k directory statements move them |
| Populate.DirectoryTicks | populate_db.py:165-172 | the directory statements never consult the type Iterator: both integration batches pin `type` |
| Populate.ConverseTicks | populate_db.py:173-175 | the conversations and their messages move the status Iterator 15 and the sender Iterator 150 times |
| Populate.PopulateCursors | populate_db.py:164-176 | `populate_database` moves every Iterator by a fixed amount, and never moves the type Iterator |
| Populate.PrefixKeepsGenerated | populate_db.py:165-172 | the directory statements keep the invariant |
| Populate.DirectoryKeepsGenerated | populate_db.py:165-172 | all eight directory statements keep the invariant |
| Populate.ConverseKeepsGenerated | populate_db.py:173-175 | the conversations and the message loop keep the invariant |
| Populate.PopulateKeepsGenerated | populate_db.py:164-176 | from a consistent database, `populate_database` leaves a consistent one: sequential keys, resolving foreign keys, pinned variants, derived fields |
| Populate.PopulateEndedAt | populate_db.py:128-134 | every conversation afterwards has a status from the Iterator and an `ended_at`, active ones included |
| Populate.AttachKeepsRoundRobin | populate_db.py:174-175 | the message loop keeps the round-robin order |
| Populate.PrefixKeepsRoundRobin | populate_db.py:165-172 | the directory statements keep it |
| Populate.PopulateKeepsRoundRobin | populate_db.py:164-176 | `populate_database` keeps it, continuing each Iterator where it stood |
| Populate.AttachKeepsKindsKnown | populate_db.py:174-175 | the message loop inserts no integration of another type |
| Populate.PrefixKeepsKindsKnown | populate_db.py:165-172 | the directory statements insert only "CRM" and "Messenger" integrations |
| Populate.PopulateKindsKnown | populate_db.py:164-176 | every integration `populate_database` inserts has `type` "CRM" or "Messenger", from any start state |
| Populate.PrefixExtends | populate_db.py:165-172 | a later directory statement changes no row an earlier one left |
| Populate.PopulatePinnedKinds | populate_db.py:166-167 | the two integrations of line 166 end the run as "CRM" and the two of line 167 as "Messenger" |
| Populate.PopulateRoundRobinFromEmpty | populate_db.py:53-158 | from the empty database, integration i is named `IntegrationNames[i mod 5]`, source i `ContactSourceNames[i mod 3]`, messenger i `MessengerNames[i mod 4]`, conversation i has status `["active", "completed"][i mod 2]`, message i sender `["bot", "client"][i mod 2]` and task i status `["new", "in_progress", "completed"][i mod 3]` |
| Populate.PopulateFromEmpty | populate_db.py:164-176 | on an empty database the result has exactly those row counts and is consistent |
| Populate.NoMessagesYet | models.py:150 | a consistent database has no message in a conversation it does not yet have |
| Populate.ConverseMessages | populate_db.py:173-175 | each of the 15 new conversations has an alternating exchange of 10 messages |
| Populate.ExchangesByRow | populate_db.py:173-175 | the exchange property, stated per conversation id, holds for each of the last 15 conversation rows |
| Populate.TasksKeepMessages | populate_db.py:176 | the task batch inserts no conversation and no message |
| Populate.PopulateMessages | populate_db.py:173-175 | each conversation `populate_database` creates has 10 messages, 5 from "bot" and 5 from "client", with `is_ai_generated` set exactly on the bot's |
| Populate.BatchKeepsUnreferencedAbove | populate_db.py:165-176 | rows that already exist stay unreferenced through a batch |
| Populate.FinishKeepsUnreferenced | populate_db.py:173-176 | nothing after the directory statements references their rows |
| Populate.PrefixKeepsUnreferenced | populate_db.py:165-172 | directory statements that write no key into a table keep its rows unreferenced |
| Populate.SuffixKeepsUnreferenced | populate_db.py:165-172 | the remaining directory statements keep earlier rows unreferenced |
| Populate.PrefixRowsStayUnreferenced | populate_db.py:165-172 | the rows a statement inserts into its own table stay unreferenced to the end |
| Populate.StatementRowsUnreferenced | populate_db.py:165-172 | the rows of directory statement i are never referenced |
| Populate.DirectoryUnreferenced | populate_db.py:165-172 | the results of lines 165-172 are dead: no task is assigned to the 5 users; no row uses the 4 integrations, 3 segments, 3 sources, 20 contacts, 2 scripts or 3 messengers |
| Database.Session.constructor | populate_db.py:181 | a new session, on a database file that does not exist yet, has empty tables and every Iterator at its start |
| Database.Session.CreateUser | populate_db.py:37-45 | appends the user the UserFactory definition gives and advances the role cursor |
| Database.Session.CreateIntegration | populate_db.py:49-58 | appends the integration the IntegrationFactory definition gives |
| Database.Session.CreateSegment | populate_db.py:62-69 | appends the segment the SegmentFactory definition gives |
| Database.Session.CreateContactSource | populate_db.py:73-80 | inserts the "CRM" integration and then the source |
| Database.Session.AddContactSource | populate_db.py:77-78 | appends the source row pointing at the last integration |
| Database.Session.CreateContact | populate_db.py:84-94 | inserts a source chain and a segment, then the contact |
| Database.Session.AddContact | populate_db.py:88-92 | appends the contact row pointing at the last source and segment |
| Database.Session.CreateBotScript | populate_db.py:98-105 | appends the bot script the BotScriptFactory definition gives |
| Database.Session.CreateMessenger | populate_db.py:109-117 | inserts the "Messenger" integration and then the messenger |
| Database.Session.AddMessenger | populate_db.py:113-115 | appends the messenger row pointing at the last integration |
| Database.Session.CreateConversation | populate_db.py:121-134 | inserts contact, messenger and bot-script chains, then the conversation |
| Database.Session.AddConversation | populate_db.py:125-134 | appends the conversation row with the Iterator status and the Maybe `ended_at` |
| Database.Session.CreateMessage | populate_db.py:138-146 | appends a message to the given conversation, or to a fresh one |
| Database.Session.AddMessage | populate_db.py:143-146 | appends the message row with the Iterator sender and the derived `is_ai_generated` |
| Database.Session.CreateTask | populate_db.py:150-160 | inserts a contact chain, a "manager" user and a "CRM" integration, then the task |
| Database.Session.AddTask | populate_db.py:154-158 | appends the task row pointing at the last contact, user and integration |
| Database.Session.Create | populate_db.py:37-160 | `Factory.create` leaves the session in the state the pure factory gives |
| Database.Session.CreateBatch | populate_db.py:165-176 | the `create_batch(n)` loop leaves the state of n creates |
| Database.Session.ConverseConversations | populate_db.py:173-175 | the conversations batch and the `for` loop over its result leave the state of `Populate.Converse` |
| Database.Session.PopulateDatabase | populate_db.py:164-176 | `populate_database` leaves exactly `Populate.Populated` of the initial state, so every `Populate` property holds of it |

## Left out

- Faker: its values are an oracle (`ValueProvider`) indexed by column and row id, so every run's values fit. Nothing is proved about their content, format or length.
- `created_at` and `updated_at`: they take wall-clock defaults or Faker dates, and nothing reads them.
- The `datetime.utcnow` defaults of `started_at` and `timestamp`: the factories always supply these columns.
- The engine, the `sessionmaker` session and the commit after every create: each create is one atomic, successful append, with no transactions, no failures and no concurrency.
- The `__main__` block and its `print`.
- Autoincrement ids are the table's size plus one. This matches integer primary keys on tables that only ever receive inserts, and nothing is deleted here.
- Only the overrides the program passes are modelled: `role`, `type` and `conversation`. Other keyword overrides of the factories are not.
- NULL in scalar columns: every string, text and boolean column is always supplied by the factories, so those columns are not optional in the model.
- Database.Session.constructor: models `create_all` on a database file that does not exist yet, so every table starts empty. On an existing file, `create_all` keeps the old rows while the Iterators start again, and the model does not cover that start. `Populate.Populated` is defined on any state, and `Populate.PopulateCounts`, `Populate.PopulateCursors`, `Populate.PopulateKindsKnown` and `Populate.PopulatePinnedKinds` hold from any state. The lemmas that require `Generated` or `RefIntegrity` hold from any state that meets their requires. The round-robin results (`Populate.PopulateKeepsRoundRobin`, `Populate.PopulateRoundRobinFromEmpty`) do not cover such a restart, because the cursors then lag behind the tables.
- The lists the directory statements bind (`users`, `crm_integrations`, ...) are not kept, because the program never reads them. `Populate.DirectoryUnreferenced` proves that nothing refers to their rows.
