/** The factories and `populate_database` as the program runs them: one
    session whose tables grow row by row, with the Iterator cursors kept
    beside them. Every method is proved to leave the state the pure
    definitions of module Factories and module Populate describe, so the
    lemmas proved there hold of what the methods build. */
module Database {
  import opened Models
  import opened Factories
  import opened FactoryProperties
  import opened Populate

  class Session {
    var users: seq<User>
    var integrations: seq<Integration>
    var segments: seq<Segment>
    var contactSources: seq<ContactSource>
    var contacts: seq<Contact>
    var botScripts: seq<BotScript>
    var messengers: seq<Messenger>
    var conversations: seq<Conversation>
    var messages: seq<Message>
    var tasks: seq<Task>

    // One cursor per Iterator declaration.
    var userRole: nat
    var integrationName: nat
    var integrationKind: nat
    var contactSourceName: nat
    var messengerName: nat
    var conversationStatus: nat
    var messageSender: nat
    var taskStatus: nat

    /** Faker. */
    const fake: ValueProvider

    /** The session's tables and cursors as a value. */
    function Snapshot(): State
      reads this
    {
      State(Tables(users, integrations, segments, contactSources, contacts,
                   botScripts, messengers, conversations, messages, tasks),
            Cursors(userRole, integrationName, integrationKind, contactSourceName,
                    messengerName, conversationStatus, messageSender, taskStatus),
            fake)
    }

    /** `Base.metadata.create_all` run against a database file that does
        not exist yet: every table empty, every Iterator at its start. */
    constructor(fake: ValueProvider)
      ensures Snapshot() == State(NoTables, FreshCursors, fake)
    {
      users, integrations, segments, contactSources, contacts := [], [], [], [], [];
      botScripts, messengers, conversations, messages, tasks := [], [], [], [], [];
      userRole, integrationName, integrationKind, contactSourceName := 0, 0, 0, 0;
      messengerName, conversationStatus, messageSender, taskStatus := 0, 0, 0, 0;
      this.fake := fake;
    }

    // -------------------------------------------------------------------
    // One create per factory.
    // -------------------------------------------------------------------

    method CreateUser(role: Option<string>)
      modifies this
      ensures Snapshot() == NewUser(old(Snapshot()), role)
    {
      var id := |users| + 1;
      users := users + [User(id, fake.text(UserName, id), fake.text(UserEmail, id),
                             Resolve(Roles, userRole, role))];
      userRole := Advance(userRole, role);
    }

    method CreateIntegration(kind: Option<string>)
      modifies this
      ensures Snapshot() == NewIntegration(old(Snapshot()), kind)
    {
      var id := |integrations| + 1;
      integrations := integrations + [InsertIntegration(id, Cycle(IntegrationNames, integrationName),
                                                        Resolve(IntegrationKinds, integrationKind, kind),
                                                        fake.text(IntegrationSettings, id), Some(true))];
      integrationName := integrationName + 1;
      integrationKind := Advance(integrationKind, kind);
    }

    method CreateSegment()
      modifies this
      ensures Snapshot() == NewSegment(old(Snapshot()))
    {
      var id := |segments| + 1;
      segments := segments + [Segment(id, "Сегмент " + fake.text(SegmentWord, id),
                                      fake.text(SegmentDescription, id))];
    }

    method CreateContactSource()
      modifies this
      ensures Snapshot() == NewContactSource(old(Snapshot()))
    {
      CreateIntegration(Some("CRM"));
      AddContactSource();
    }

    /** The source row, pointing at the integration inserted last. */
    method AddContactSource()
      modifies this
      ensures Snapshot() == AppendContactSource(old(Snapshot()))
    {
      var id := |contactSources| + 1;
      contactSources := contactSources + [ContactSource(id, Cycle(ContactSourceNames, contactSourceName),
                                                        Some(|integrations|))];
      contactSourceName := contactSourceName + 1;
    }

    method CreateContact()
      modifies this
      ensures Snapshot() == NewContact(old(Snapshot()))
    {
      CreateContactSource();
      CreateSegment();
      AddContact();
    }

    /** The contact row, pointing at the source and the segment inserted last. */
    method AddContact()
      modifies this
      ensures Snapshot() == AppendContact(old(Snapshot()))
    {
      var id := |contacts| + 1;
      contacts := contacts + [Contact(id, fake.text(ContactName, id), fake.text(ContactPhone, id),
                                      fake.text(ContactEmail, id),
                                      Some(|contactSources|), Some(|segments|))];
    }

    method CreateBotScript()
      modifies this
      ensures Snapshot() == NewBotScript(old(Snapshot()))
    {
      var id := |botScripts| + 1;
      botScripts := botScripts + [BotScript(id, "Сценарий " + fake.text(BotScriptWord, id),
                                            fake.text(BotScriptContent, id))];
    }

    method CreateMessenger()
      modifies this
      ensures Snapshot() == NewMessenger(old(Snapshot()))
    {
      CreateIntegration(Some("Messenger"));
      AddMessenger();
    }

    /** The messenger row, pointing at the integration inserted last. */
    method AddMessenger()
      modifies this
      ensures Snapshot() == AppendMessenger(old(Snapshot()))
    {
      var id := |messengers| + 1;
      messengers := messengers + [InsertMessenger(id, Cycle(MessengerNames, messengerName),
                                                  Some(|integrations|), Some(true))];
      messengerName := messengerName + 1;
    }

    method CreateConversation()
      modifies this
      ensures Snapshot() == NewConversation(old(Snapshot()))
    {
      ghost var s := Snapshot();
      CreateContact();
      CreateMessenger();
      CreateBotScript();
      assert Snapshot() == Factories.Create(Factories.Create(Factories.Create(s, ContactFactory),
                                                             MessengerFactory), BotScriptFactory);
      AddConversation();
    }

    /** The conversation row, pointing at the contact, messenger and bot
        script inserted last; the Maybe on `status` decides `ended_at`. */
    method AddConversation()
      modifies this
      ensures Snapshot() == AppendConversation(old(Snapshot()))
    {
      var id := |conversations| + 1;
      var status := Cycle(ConversationStatuses, conversationStatus);
      conversations := conversations + [Conversation(id, Some(|contacts|), Some(|messengers|),
                                                     Some(|botScripts|), status,
                                                     fake.time(ConversationStartedAt, id),
                                                     MaybeEndedAt(status, fake.time(ConversationEndedAt, id)))];
      conversationStatus := conversationStatus + 1;
    }

    method CreateMessage(conversation: Option<int>)
      modifies this
      ensures Snapshot() == NewMessage(old(Snapshot()), conversation)
    {
      if conversation.Some? {
        AddMessage(conversation.value);
      } else {
        CreateConversation();
        AddMessage(|conversations|);
      }
    }

    /** The message row, in the conversation with id `parent`. */
    method AddMessage(parent: int)
      modifies this
      ensures Snapshot() == AppendMessage(old(Snapshot()), parent)
    {
      var id := |messages| + 1;
      var sender := Cycle(Senders, messageSender);
      messages := messages + [InsertMessage(id, Some(parent), sender, fake.text(MessageText, id),
                                            fake.time(MessageTimestamp, id), Some(AiGenerated(sender)))];
      messageSender := messageSender + 1;
    }

    method CreateTask()
      modifies this
      ensures Snapshot() == NewTask(old(Snapshot()))
    {
      CreateContact();
      CreateUser(Some("manager"));
      CreateIntegration(Some("CRM"));
      AddTask();
    }

    /** The task row, pointing at the contact, user and integration
        inserted last. */
    method AddTask()
      modifies this
      ensures Snapshot() == AppendTask(old(Snapshot()))
    {
      var id := |tasks| + 1;
      tasks := tasks + [Task(id, Some(|contacts|), Some(|users|), Some(|integrations|),
                             fake.text(TaskDescription, id), Cycle(TaskStatuses, taskStatus))];
      taskStatus := taskStatus + 1;
    }

    /** `Factory.create(**overrides)`. */
    method Create(f: Factory)
      modifies this
      ensures Snapshot() == Factories.Create(old(Snapshot()), f)
    {
      match f
      case UserFactory(role) => CreateUser(role);
      case IntegrationFactory(kind) => CreateIntegration(kind);
      case SegmentFactory => CreateSegment();
      case ContactSourceFactory => CreateContactSource();
      case ContactFactory => CreateContact();
      case BotScriptFactory => CreateBotScript();
      case MessengerFactory => CreateMessenger();
      case ConversationFactory => CreateConversation();
      case MessageFactory(conversation) => CreateMessage(conversation);
      case TaskFactory => CreateTask();
    }

    /** `Factory.create_batch(n, **overrides)`. */
    method CreateBatch(n: nat, f: Factory)
      modifies this
      ensures Snapshot() == Factories.CreateBatch(old(Snapshot()), n, f)
    {
      for i := 0 to n
        invariant Snapshot() == Factories.CreateBatch(old(Snapshot()), i, f)
      {
        Create(f);
      }
    }

    /** `populate_database`. */
    method PopulateDatabase()
      modifies this
      ensures Snapshot() == Populated(old(Snapshot()))
    {
      ghost var s := Snapshot();
      CreateBatch(5, UserFactory(None));
      assert Snapshot() == Prefix(s, 1);
      CreateBatch(2, IntegrationFactory(Some("CRM")));
      assert Snapshot() == Prefix(s, 2);
      CreateBatch(2, IntegrationFactory(Some("Messenger")));
      assert Snapshot() == Prefix(s, 3);
      CreateBatch(3, SegmentFactory);
      assert Snapshot() == Prefix(s, 4);
      CreateBatch(3, ContactSourceFactory);
      assert Snapshot() == Prefix(s, 5);
      CreateBatch(20, ContactFactory);
      assert Snapshot() == Prefix(s, 6);
      CreateBatch(2, BotScriptFactory);
      assert Snapshot() == Prefix(s, 7);
      CreateBatch(3, MessengerFactory);
      assert Snapshot() == Directory(s);
      ConverseConversations();
      CreateBatch(10, TaskFactory);
    }

    /** `conversations = ConversationFactory.create_batch(15)` and the loop
        that gives each of them 10 messages. */
    method ConverseConversations()
      modifies this
      ensures Snapshot() == Converse(old(Snapshot()))
    {
      ghost var d := Snapshot();
      var before := |conversations|;
      CreateBatch(15, ConversationFactory);
      BatchReturnsNewIds(d, 15);
      ghost var q := Snapshot();
      var batch := conversations[before..];
      ghost var ids := ConversationIds(batch);
      for i := 0 to |batch|
        invariant AttachMessages(Snapshot(), ids[i..], 10) == AttachMessages(q, ids, 10)
      {
        assert ids[i..][1..] == ids[i + 1..];
        CreateBatch(10, MessageFactory(Some(batch[i].id)));
      }
      assert ids[|batch|..] == [];
    }
  }
}
