/** The factories of populate_db.py, as pure functions from one generator
    state to the next. The factory_boy semantics they rely on are explicit:
    - SubFactory creates a fresh parent row first, then the child row;
    - Iterator is a cursor shared by every use of its factory, cycling
      round-robin through its list and advanced only when the field is not
      overridden;
    - Maybe tests the truthiness of its decider field;
    - create_batch(n, overrides) is n creates with the same overrides. */
module Factories {
  import opened Models

  /** Text columns whose values come from Faker. */
  datatype TextColumn =
    | UserName | UserEmail | IntegrationSettings | SegmentWord | SegmentDescription
    | ContactName | ContactPhone | ContactEmail | BotScriptWord | BotScriptContent
    | MessageText | TaskDescription

  /** Timestamp columns whose values come from Faker. */
  datatype TimeColumn = ConversationStartedAt | ConversationEndedAt | MessageTimestamp

  /** Faker, as an oracle: the value it produced for a column of the row
      with a given id. Each row is created once, so any run's values fit. */
  datatype ValueProvider = ValueProvider(text: (TextColumn, int) -> string,
                                         time: (TimeColumn, int) -> Timestamp)

  // The lists of the Iterator declarations.
  const Roles: seq<string> := ["manager", "administrator"]
  const IntegrationNames: seq<string> := ["AmoCRM", "Bitrix24", "GetCourse", "ChatApp", "Umnico"]
  const IntegrationKinds: seq<string> := ["CRM", "Messenger"]
  const ContactSourceNames: seq<string> := ["Ручная загрузка", "AmoCRM", "Bitrix24"]
  const MessengerNames: seq<string> := ["ChatApp", "Umnico", "WhatsApp", "Telegram"]
  const ConversationStatuses: seq<string> := ["active", "completed"]
  const Senders: seq<string> := ["bot", "client"]
  const TaskStatuses: seq<string> := ["new", "in_progress", "completed"]

  /** The value an Iterator yields at a cursor position. */
  function Cycle(values: seq<string>, cursor: nat): string
    requires values != []
  {
    values[cursor % |values|]
  }

  /** An Iterator-declared field: the override if given, else the next value. */
  function Resolve(values: seq<string>, cursor: nat, override: Option<string>): string
    requires values != []
  {
    if override.Some? then override.value else Cycle(values, cursor)
  }

  /** The cursor after resolving the field: it moves only when consulted. */
  function Advance(cursor: nat, override: Option<string>): nat
  {
    if override.Some? then cursor else cursor + 1
  }

  /** `ended_at = Maybe("status", yes, None)`: Python truthiness of a string
      is non-emptiness. */
  function MaybeEndedAt(status: string, yes: Timestamp): (r: Option<Timestamp>)
    ensures r.Some? <==> |status| > 0
    ensures r.Some? ==> r.value == yes
  {
    if status != "" then Some(yes) else None
  }

  /** `is_ai_generated = LazyAttribute(lambda x: x.sender == "bot")`. */
  predicate AiGenerated(sender: string)
  {
    sender == "bot"
  }

  /** One cursor per Iterator declaration, shared by every create of its factory. */
  datatype Cursors = Cursors(userRole: nat, integrationName: nat, integrationKind: nat,
                             contactSourceName: nat, messengerName: nat,
                             conversationStatus: nat, messageSender: nat, taskStatus: nat)

  const FreshCursors := Cursors(0, 0, 0, 0, 0, 0, 0, 0)

  /** What the generator works on: the tables, the iterator cursors and Faker. */
  datatype State = State(db: Tables, cur: Cursors, fake: ValueProvider)

  // ---------------------------------------------------------------------
  // One create per factory. The id of a new row is the table's size plus
  // one (an integer primary key on a table filled only by inserts).
  // ---------------------------------------------------------------------

  /** UserFactory, with an optional `role` override. */
  function NewUser(s: State, role: Option<string>): State
  {
    var id := |s.db.users| + 1;
    var row := User(id, s.fake.text(UserName, id), s.fake.text(UserEmail, id),
                    Resolve(Roles, s.cur.userRole, role));
    s.(db := s.db.(users := s.db.users + [row]),
       cur := s.cur.(userRole := Advance(s.cur.userRole, role)))
  }

  /** IntegrationFactory, with an optional `type` override. */
  function NewIntegration(s: State, kind: Option<string>): State
  {
    var id := |s.db.integrations| + 1;
    var row := InsertIntegration(id, Cycle(IntegrationNames, s.cur.integrationName),
                                 Resolve(IntegrationKinds, s.cur.integrationKind, kind),
                                 s.fake.text(IntegrationSettings, id), Some(true));
    s.(db := s.db.(integrations := s.db.integrations + [row]),
       cur := s.cur.(integrationName := s.cur.integrationName + 1,
                     integrationKind := Advance(s.cur.integrationKind, kind)))
  }

  /** SegmentFactory. */
  function NewSegment(s: State): State
  {
    var id := |s.db.segments| + 1;
    var row := Segment(id, "Сегмент " + s.fake.text(SegmentWord, id), s.fake.text(SegmentDescription, id));
    s.(db := s.db.(segments := s.db.segments + [row]))
  }

  /** ContactSourceFactory: a fresh Integration pinned to "CRM", then the source. */
  function NewContactSource(s: State): State
    decreases 1, 0
  {
    AppendContactSource(Create(s, IntegrationFactory(Some("CRM"))))
  }

  /** The source row itself, pointing at the integration inserted last. */
  function AppendContactSource(p: State): State
  {
    var id := |p.db.contactSources| + 1;
    var row := ContactSource(id, Cycle(ContactSourceNames, p.cur.contactSourceName),
                             Some(|p.db.integrations|));
    p.(db := p.db.(contactSources := p.db.contactSources + [row]),
       cur := p.cur.(contactSourceName := p.cur.contactSourceName + 1))
  }

  /** ContactFactory: a fresh ContactSource, a fresh Segment, then the contact. */
  function NewContact(s: State): State
    decreases 2, 0
  {
    AppendContact(Create(Create(s, ContactSourceFactory), SegmentFactory))
  }

  /** The contact row itself, pointing at the source and the segment inserted last. */
  function AppendContact(q: State): State
  {
    var id := |q.db.contacts| + 1;
    var row := Contact(id, q.fake.text(ContactName, id), q.fake.text(ContactPhone, id),
                       q.fake.text(ContactEmail, id),
                       Some(|q.db.contactSources|), Some(|q.db.segments|));
    q.(db := q.db.(contacts := q.db.contacts + [row]))
  }

  /** BotScriptFactory. */
  function NewBotScript(s: State): State
  {
    var id := |s.db.botScripts| + 1;
    var row := BotScript(id, "Сценарий " + s.fake.text(BotScriptWord, id), s.fake.text(BotScriptContent, id));
    s.(db := s.db.(botScripts := s.db.botScripts + [row]))
  }

  /** MessengerFactory: a fresh Integration pinned to "Messenger", then the messenger. */
  function NewMessenger(s: State): State
    decreases 1, 0
  {
    AppendMessenger(Create(s, IntegrationFactory(Some("Messenger"))))
  }

  /** The messenger row itself, pointing at the integration inserted last. */
  function AppendMessenger(p: State): State
  {
    var id := |p.db.messengers| + 1;
    var row := InsertMessenger(id, Cycle(MessengerNames, p.cur.messengerName),
                               Some(|p.db.integrations|), Some(true));
    p.(db := p.db.(messengers := p.db.messengers + [row]),
       cur := p.cur.(messengerName := p.cur.messengerName + 1))
  }

  /** ConversationFactory: fresh Contact, Messenger and BotScript, then the
      conversation, whose `ended_at` the Maybe on `status` decides. */
  function NewConversation(s: State): State
    decreases 3, 0
  {
    AppendConversation(Create(Create(Create(s, ContactFactory), MessengerFactory), BotScriptFactory))
  }

  /** The conversation row itself, pointing at the contact, messenger and
      bot script inserted last. */
  function AppendConversation(c: State): State
  {
    var id := |c.db.conversations| + 1;
    var status := Cycle(ConversationStatuses, c.cur.conversationStatus);
    var row := Conversation(id, Some(|c.db.contacts|), Some(|c.db.messengers|), Some(|c.db.botScripts|),
                            status, c.fake.time(ConversationStartedAt, id),
                            MaybeEndedAt(status, c.fake.time(ConversationEndedAt, id)));
    c.(db := c.db.(conversations := c.db.conversations + [row]),
       cur := c.cur.(conversationStatus := c.cur.conversationStatus + 1))
  }

  /** MessageFactory, with an optional `conversation` override; without it
      the SubFactory creates a fresh Conversation. */
  function NewMessage(s: State, conversation: Option<int>): State
    decreases 4, 0
  {
    if conversation.Some? then AppendMessage(s, conversation.value)
    else
      var p := Create(s, ConversationFactory);
      AppendMessage(p, |p.db.conversations|)
  }

  /** The message row itself, in the conversation with id `parent`. */
  function AppendMessage(p: State, parent: int): State
  {
    var id := |p.db.messages| + 1;
    var sender := Cycle(Senders, p.cur.messageSender);
    var row := InsertMessage(id, Some(parent), sender, p.fake.text(MessageText, id),
                             p.fake.time(MessageTimestamp, id), Some(AiGenerated(sender)));
    p.(db := p.db.(messages := p.db.messages + [row]),
       cur := p.cur.(messageSender := p.cur.messageSender + 1))
  }

  /** TaskFactory: a fresh Contact, a fresh User pinned to "manager" and a
      fresh Integration pinned to "CRM", then the task. */
  function NewTask(s: State): State
    decreases 4, 0
  {
    AppendTask(Create(Create(Create(s, ContactFactory), UserFactory(Some("manager"))),
                      IntegrationFactory(Some("CRM"))))
  }

  /** The task row itself, pointing at the contact, user and integration
      inserted last. */
  function AppendTask(c: State): State
  {
    var id := |c.db.tasks| + 1;
    var row := Task(id, Some(|c.db.contacts|), Some(|c.db.users|), Some(|c.db.integrations|),
                    c.fake.text(TaskDescription, id), Cycle(TaskStatuses, c.cur.taskStatus));
    c.(db := c.db.(tasks := c.db.tasks + [row]),
       cur := c.cur.(taskStatus := c.cur.taskStatus + 1))
  }

  /** A factory together with the overrides the program passes to it. */
  datatype Factory =
    | UserFactory(role: Option<string>)
    | IntegrationFactory(kind: Option<string>)
    | SegmentFactory
    | ContactSourceFactory
    | ContactFactory
    | BotScriptFactory
    | MessengerFactory
    | ConversationFactory
    | MessageFactory(conversation: Option<int>)
    | TaskFactory

  /** How deep a factory's SubFactory chain goes. */
  function Depth(f: Factory): nat
  {
    match f
    case ContactSourceFactory => 1
    case MessengerFactory => 1
    case ContactFactory => 2
    case ConversationFactory => 3
    case MessageFactory(_) => 4
    case TaskFactory => 4
    case _ => 0
  }

  /** `Factory.create(**overrides)`; a SubFactory declaration is a nested
      create of the parent's factory. */
  function Create(s: State, f: Factory): State
    decreases Depth(f), 1
  {
    match f
    case UserFactory(role) => NewUser(s, role)
    case IntegrationFactory(kind) => NewIntegration(s, kind)
    case SegmentFactory => NewSegment(s)
    case ContactSourceFactory => NewContactSource(s)
    case ContactFactory => NewContact(s)
    case BotScriptFactory => NewBotScript(s)
    case MessengerFactory => NewMessenger(s)
    case ConversationFactory => NewConversation(s)
    case MessageFactory(conversation) => NewMessage(s, conversation)
    case TaskFactory => NewTask(s)
  }

  /** `Factory.create_batch(n, **overrides)`: n creates, one after another. */
  function CreateBatch(s: State, n: nat, f: Factory): State
  {
    if n == 0 then s else Create(CreateBatch(s, n - 1, f), f)
  }
}
