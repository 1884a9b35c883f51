/** The relational schema of the bot platform: ten mapped tables, their
    foreign keys, column defaults and the back-populated relationship
    collections, as declared in models.py. */
module Models {

  datatype Option<T> = None | Some(value: T)

  /** A DateTime column value; its meaning (a point in time) is opaque here. */
  type Timestamp = int

  // ---------------------------------------------------------------------
  // Rows. Every foreign-key column is declared without `nullable=False`,
  // so every foreign key is an optional id. `kind` is the `type` column.
  // role, type, status and sender are plain String columns.
  // ---------------------------------------------------------------------

  datatype User = User(id: int, name: string, email: string, role: string)

  datatype Integration = Integration(id: int, name: string, kind: string, settings: string, isActive: bool)

  datatype Segment = Segment(id: int, name: string, description: string)

  datatype ContactSource = ContactSource(id: int, name: string, integrationId: Option<int>)

  datatype Contact = Contact(id: int, name: string, phone: string, email: string,
                             sourceId: Option<int>, segmentId: Option<int>)

  datatype BotScript = BotScript(id: int, name: string, content: string)

  datatype Messenger = Messenger(id: int, name: string, integrationId: Option<int>, isActive: bool)

  datatype Conversation = Conversation(id: int, contactId: Option<int>, messengerId: Option<int>,
                                       scriptId: Option<int>, status: string,
                                       startedAt: Timestamp, endedAt: Option<Timestamp>)

  datatype Message = Message(id: int, conversationId: Option<int>, sender: string, text: string,
                             timestamp: Timestamp, isAiGenerated: bool)

  /** `crmId` references the integrations table: a "CRM" is an Integration row. */
  datatype Task = Task(id: int, contactId: Option<int>, userId: Option<int>, crmId: Option<int>,
                       description: string, status: string)

  /** The database: one sequence of rows per table, in insertion order. */
  datatype Tables = Tables(users: seq<User>, integrations: seq<Integration>, segments: seq<Segment>,
                           contactSources: seq<ContactSource>, contacts: seq<Contact>,
                           botScripts: seq<BotScript>, messengers: seq<Messenger>,
                           conversations: seq<Conversation>, messages: seq<Message>, tasks: seq<Task>)

  const NoTables := Tables([], [], [], [], [], [], [], [], [], [])

  // ---------------------------------------------------------------------
  // Column defaults, applied when an insert does not supply the column.
  // ---------------------------------------------------------------------

  /** The value a column takes: the supplied one, else the column default. */
  function Column<T>(supplied: Option<T>, default: T): T
  {
    if supplied.Some? then supplied.value else default
  }

  /** An integration row; `is_active` defaults to True. */
  function InsertIntegration(id: int, name: string, kind: string, settings: string,
                             isActive: Option<bool>): (r: Integration)
    ensures r.id == id && r.name == name && r.kind == kind && r.settings == settings
    ensures r.isActive <==> isActive != Some(false)
  {
    Integration(id, name, kind, settings, Column(isActive, true))
  }

  /** A messenger row; `is_active` defaults to True. */
  function InsertMessenger(id: int, name: string, integrationId: Option<int>,
                           isActive: Option<bool>): (r: Messenger)
    ensures r.id == id && r.name == name && r.integrationId == integrationId
    ensures r.isActive <==> isActive != Some(false)
  {
    Messenger(id, name, integrationId, Column(isActive, true))
  }

  /** A message row; `is_ai_generated` defaults to False. */
  function InsertMessage(id: int, conversationId: Option<int>, sender: string, text: string,
                         timestamp: Timestamp, isAiGenerated: Option<bool>): (r: Message)
    ensures r.id == id && r.conversationId == conversationId && r.sender == sender
    ensures r.text == text && r.timestamp == timestamp
    ensures r.isAiGenerated <==> isAiGenerated == Some(true)
  {
    Message(id, conversationId, sender, text, timestamp, Column(isAiGenerated, false))
  }

  // ---------------------------------------------------------------------
  // Keys and referential integrity.
  // ---------------------------------------------------------------------

  /** Row i of a table has id i + 1: an integer primary key on a table
      filled only by inserts hands out 1, 2, 3, ... in insertion order, so
      the row with id k sits at index k - 1. */
  ghost predicate Numbered<R>(rows: seq<R>, key: R -> int)
  {
    forall i :: 0 <= i < |rows| ==> key(rows[i]) == i + 1
  }

  // The primary-key columns, as functions.
  function UserKey(u: User): int { u.id }
  function IntegrationKey(i: Integration): int { i.id }
  function SegmentKey(g: Segment): int { g.id }
  function ContactSourceKey(c: ContactSource): int { c.id }
  function ContactKey(c: Contact): int { c.id }
  function BotScriptKey(b: BotScript): int { b.id }
  function MessengerKey(m: Messenger): int { m.id }
  function ConversationKey(v: Conversation): int { v.id }
  function MessageKey(m: Message): int { m.id }
  function TaskKey(k: Task): int { k.id }

  ghost predicate KeysSequential(t: Tables)
  {
    && Numbered(t.users, UserKey)
    && Numbered(t.integrations, IntegrationKey)
    && Numbered(t.segments, SegmentKey)
    && Numbered(t.contactSources, ContactSourceKey)
    && Numbered(t.contacts, ContactKey)
    && Numbered(t.botScripts, BotScriptKey)
    && Numbered(t.messengers, MessengerKey)
    && Numbered(t.conversations, ConversationKey)
    && Numbered(t.messages, MessageKey)
    && Numbered(t.tasks, TaskKey)
  }

  /** A foreign key is NULL or names one of the `count` existing rows. */
  predicate Resolves(fk: Option<int>, count: nat)
  {
    fk.Some? ==> 1 <= fk.value <= count
  }

  /** Every key in column `fk` of `rows` is NULL or names one of the `count`
      rows of the table it references. */
  ghost predicate KeysResolve<R>(rows: seq<R>, fk: R -> Option<int>, count: nat)
  {
    forall i :: 0 <= i < |rows| ==> Resolves(fk(rows[i]), count)
  }

  /** Every non-NULL foreign key names an existing row of its target table. */
  ghost predicate RefIntegrity(t: Tables)
  {
    && KeysResolve(t.contactSources, SourceIntegrationId, |t.integrations|)
    && KeysResolve(t.contacts, ContactSourceId, |t.contactSources|)
    && KeysResolve(t.contacts, ContactSegmentId, |t.segments|)
    && KeysResolve(t.messengers, MessengerIntegrationId, |t.integrations|)
    && KeysResolve(t.conversations, ConversationContactId, |t.contacts|)
    && KeysResolve(t.conversations, ConversationMessengerId, |t.messengers|)
    && KeysResolve(t.conversations, ConversationScriptId, |t.botScripts|)
    && KeysResolve(t.messages, MessageConversationId, |t.conversations|)
    && KeysResolve(t.tasks, TaskContactId, |t.contacts|)
    && KeysResolve(t.tasks, TaskUserId, |t.users|)
    && KeysResolve(t.tasks, TaskCrmId, |t.integrations|)
  }

  // ---------------------------------------------------------------------
  // back_populates pairs: each collection is derived from the foreign key
  // on the child side, never stored.
  // ---------------------------------------------------------------------

  /** The rows of `rows` whose `key` equals `k`, in insertion order. */
  function Matching<R(==,!new), K(==)>(rows: seq<R>, key: R -> K, k: K): (r: seq<R>)
    ensures |r| <= |rows|
  {
    if rows == [] then []
    else
      var last := rows[|rows| - 1];
      Matching(rows[..|rows| - 1], key, k) + (if key(last) == k then [last] else [])
  }

  /** Matching keeps exactly the rows whose key is k. */
  lemma {:induction false} MatchingMembers<R(!new), K>(rows: seq<R>, key: R -> K, k: K)
    ensures forall x :: x in Matching(rows, key, k) <==> x in rows && key(x) == k
  {
    if rows != [] {
      var front := rows[..|rows| - 1];
      MatchingMembers(front, key, k);
      assert rows == front + [rows[|rows| - 1]];
    }
  }

  lemma {:induction false} MatchingConcat<R(!new), K>(a: seq<R>, b: seq<R>, key: R -> K, k: K)
    ensures Matching(a + b, key, k) == Matching(a, key, k) + Matching(b, key, k)
  {
    if b == [] {
      assert a + b == a;
    } else {
      var b' := b[..|b| - 1];
      assert (a + b)[..|a + b| - 1] == a + b';
      MatchingConcat(a, b', key, k);
    }
  }

  /** When every row matches, all of them are kept. */
  lemma {:induction false} MatchingAll<R(!new), K>(rows: seq<R>, key: R -> K, k: K)
    requires forall i :: 0 <= i < |rows| ==> key(rows[i]) == k
    ensures Matching(rows, key, k) == rows
  {
    if rows != [] {
      MatchingAll(rows[..|rows| - 1], key, k);
    }
  }

  /** When no row matches, nothing is kept. */
  lemma {:induction false} MatchingNone<R(!new), K>(rows: seq<R>, key: R -> K, k: K)
    requires forall i :: 0 <= i < |rows| ==> key(rows[i]) != k
    ensures Matching(rows, key, k) == []
  {
    if rows != [] {
      MatchingNone(rows[..|rows| - 1], key, k);
    }
  }

  // The child-side foreign-key columns, as functions.
  function TaskUserId(k: Task): Option<int> { k.userId }
  function TaskCrmId(k: Task): Option<int> { k.crmId }
  function TaskContactId(k: Task): Option<int> { k.contactId }
  function SourceIntegrationId(c: ContactSource): Option<int> { c.integrationId }
  function MessengerIntegrationId(m: Messenger): Option<int> { m.integrationId }
  function ContactSegmentId(c: Contact): Option<int> { c.segmentId }
  function ContactSourceId(c: Contact): Option<int> { c.sourceId }
  function ConversationContactId(v: Conversation): Option<int> { v.contactId }
  function ConversationScriptId(v: Conversation): Option<int> { v.scriptId }
  function ConversationMessengerId(v: Conversation): Option<int> { v.messengerId }
  function MessageConversationId(m: Message): Option<int> { m.conversationId }

  /** User.tasks / Task.user */
  function UserTasks(t: Tables, u: User): (r: seq<Task>)
    ensures forall k :: k in r <==> k in t.tasks && k.userId == Some(u.id)
  {
    MatchingMembers(t.tasks, TaskUserId, Some(u.id));
    Matching(t.tasks, TaskUserId, Some(u.id))
  }

  /** Integration.contact_sources / ContactSource.integration */
  function IntegrationContactSources(t: Tables, i: Integration): (r: seq<ContactSource>)
    ensures forall c :: c in r <==> c in t.contactSources && c.integrationId == Some(i.id)
  {
    MatchingMembers(t.contactSources, SourceIntegrationId, Some(i.id));
    Matching(t.contactSources, SourceIntegrationId, Some(i.id))
  }

  /** Integration.messengers / Messenger.integration */
  function IntegrationMessengers(t: Tables, i: Integration): (r: seq<Messenger>)
    ensures forall m :: m in r <==> m in t.messengers && m.integrationId == Some(i.id)
  {
    MatchingMembers(t.messengers, MessengerIntegrationId, Some(i.id));
    Matching(t.messengers, MessengerIntegrationId, Some(i.id))
  }

  /** Integration.tasks / Task.crm */
  function IntegrationTasks(t: Tables, i: Integration): (r: seq<Task>)
    ensures forall k :: k in r <==> k in t.tasks && k.crmId == Some(i.id)
  {
    MatchingMembers(t.tasks, TaskCrmId, Some(i.id));
    Matching(t.tasks, TaskCrmId, Some(i.id))
  }

  /** Segment.contacts / Contact.segment */
  function SegmentContacts(t: Tables, g: Segment): (r: seq<Contact>)
    ensures forall c :: c in r <==> c in t.contacts && c.segmentId == Some(g.id)
  {
    MatchingMembers(t.contacts, ContactSegmentId, Some(g.id));
    Matching(t.contacts, ContactSegmentId, Some(g.id))
  }

  /** ContactSource.contacts / Contact.source */
  function ContactSourceContacts(t: Tables, s: ContactSource): (r: seq<Contact>)
    ensures forall c :: c in r <==> c in t.contacts && c.sourceId == Some(s.id)
  {
    MatchingMembers(t.contacts, ContactSourceId, Some(s.id));
    Matching(t.contacts, ContactSourceId, Some(s.id))
  }

  /** Contact.conversations / Conversation.contact */
  function ContactConversations(t: Tables, c: Contact): (r: seq<Conversation>)
    ensures forall v :: v in r <==> v in t.conversations && v.contactId == Some(c.id)
  {
    MatchingMembers(t.conversations, ConversationContactId, Some(c.id));
    Matching(t.conversations, ConversationContactId, Some(c.id))
  }

  /** Contact.tasks / Task.contact */
  function ContactTasks(t: Tables, c: Contact): (r: seq<Task>)
    ensures forall k :: k in r <==> k in t.tasks && k.contactId == Some(c.id)
  {
    MatchingMembers(t.tasks, TaskContactId, Some(c.id));
    Matching(t.tasks, TaskContactId, Some(c.id))
  }

  /** BotScript.conversations / Conversation.script */
  function BotScriptConversations(t: Tables, b: BotScript): (r: seq<Conversation>)
    ensures forall v :: v in r <==> v in t.conversations && v.scriptId == Some(b.id)
  {
    MatchingMembers(t.conversations, ConversationScriptId, Some(b.id));
    Matching(t.conversations, ConversationScriptId, Some(b.id))
  }

  /** Messenger.conversations / Conversation.messenger */
  function MessengerConversations(t: Tables, m: Messenger): (r: seq<Conversation>)
    ensures forall v :: v in r <==> v in t.conversations && v.messengerId == Some(m.id)
  {
    MatchingMembers(t.conversations, ConversationMessengerId, Some(m.id));
    Matching(t.conversations, ConversationMessengerId, Some(m.id))
  }

  /** Conversation.messages / Message.conversation */
  function ConversationMessages(t: Tables, v: Conversation): (r: seq<Message>)
    ensures forall m :: m in r <==> m in t.messages && m.conversationId == Some(v.id)
  {
    MatchingMembers(t.messages, MessageConversationId, Some(v.id));
    Matching(t.messages, MessageConversationId, Some(v.id))
  }
}
