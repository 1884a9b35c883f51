/** The Iterator declarations of populate_db.py: how far each create moves
    every cursor, and the values a batch therefore yields in turn. */
module IteratorProperties {
  import opened Models
  import opened Factories
  import opened FactoryProperties

  /** Cursor positions added field by field. */
  function Advanced(c: Cursors, d: Cursors): Cursors
  {
    Cursors(c.userRole + d.userRole, c.integrationName + d.integrationName,
            c.integrationKind + d.integrationKind, c.contactSourceName + d.contactSourceName,
            c.messengerName + d.messengerName, c.conversationStatus + d.conversationStatus,
            c.messageSender + d.messageSender, c.taskStatus + d.taskStatus)
  }

  lemma AdvancedAssociates(a: Cursors, b: Cursors, c: Cursors)
    ensures Advanced(Advanced(a, b), c) == Advanced(a, Advanced(b, c))
  {
  }

  /** n times the same movement. */
  function Repeated(n: nat, d: Cursors): Cursors
  {
    Cursors(n * d.userRole, n * d.integrationName, n * d.integrationKind, n * d.contactSourceName,
            n * d.messengerName, n * d.conversationStatus, n * d.messageSender, n * d.taskStatus)
  }

  /** One more movement: n of them are n - 1 and one. */
  lemma RepeatedStep(n: nat, d: Cursors)
    requires n > 0
    ensures Repeated(n, d) == Advanced(Repeated(n - 1, d), d)
  {
    MultipleStep(n, d.userRole);
    MultipleStep(n, d.integrationName);
    MultipleStep(n, d.integrationKind);
    MultipleStep(n, d.contactSourceName);
    MultipleStep(n, d.messengerName);
    MultipleStep(n, d.conversationStatus);
    MultipleStep(n, d.messageSender);
    MultipleStep(n, d.taskStatus);
  }

  /** How many values one create of `f` draws from each Iterator, counting
      its SubFactories; an overridden field draws none. */
  function Ticks(f: Factory): Cursors
  {
    match f
    case UserFactory(role) =>      Cursors(if role.None? then 1 else 0, 0, 0, 0, 0, 0, 0, 0)
    case IntegrationFactory(kind) => Cursors(0, 1, if kind.None? then 1 else 0, 0, 0, 0, 0, 0)
    case SegmentFactory =>         Cursors(0, 0, 0, 0, 0, 0, 0, 0)
    case ContactSourceFactory =>   Cursors(0, 1, 0, 1, 0, 0, 0, 0)
    case ContactFactory =>         Cursors(0, 1, 0, 1, 0, 0, 0, 0)
    case BotScriptFactory =>       Cursors(0, 0, 0, 0, 0, 0, 0, 0)
    case MessengerFactory =>       Cursors(0, 1, 0, 0, 1, 0, 0, 0)
    case ConversationFactory =>    Cursors(0, 2, 0, 1, 1, 1, 0, 0)
    case MessageFactory(c) =>
      if c.Some? then              Cursors(0, 0, 0, 0, 0, 0, 1, 0)
      else                         Cursors(0, 2, 0, 1, 1, 1, 1, 0)
    case TaskFactory =>            Cursors(0, 2, 0, 1, 0, 0, 0, 1)
  }

  // The cursors after one create, layer by layer, parents first.

  lemma UserTicks(s: State, role: Option<string>)
    ensures NewUser(s, role).cur == Advanced(s.cur, Ticks(UserFactory(role)))
  {
  }

  lemma IntegrationTicks(s: State, kind: Option<string>)
    ensures NewIntegration(s, kind).cur == Advanced(s.cur, Ticks(IntegrationFactory(kind)))
  {
  }

  lemma SegmentTicks(s: State)
    ensures NewSegment(s).cur == Advanced(s.cur, Ticks(SegmentFactory))
  {
  }

  lemma BotScriptTicks(s: State)
    ensures NewBotScript(s).cur == Advanced(s.cur, Ticks(BotScriptFactory))
  {
  }

  lemma ContactSourceTicks(s: State)
    ensures NewContactSource(s).cur == Advanced(s.cur, Ticks(ContactSourceFactory))
  {
    IntegrationTicks(s, Some("CRM"));
    ContactSourceUnfolds(s);
  }

  lemma MessengerTicks(s: State)
    ensures NewMessenger(s).cur == Advanced(s.cur, Ticks(MessengerFactory))
  {
    IntegrationTicks(s, Some("Messenger"));
    MessengerUnfolds(s);
  }

  lemma ContactTicks(s: State)
    ensures NewContact(s).cur == Advanced(s.cur, Ticks(ContactFactory))
  {
    var p := NewContactSource(s);
    ContactSourceTicks(s);
    SegmentTicks(p);
    ContactUnfolds(s);
  }

  lemma ConversationTicks(s: State)
    ensures NewConversation(s).cur == Advanced(s.cur, Ticks(ConversationFactory))
  {
    var a := NewContact(s);
    var b := NewMessenger(a);
    ContactTicks(s);
    MessengerTicks(a);
    BotScriptTicks(b);
    ConversationUnfolds(s);
  }

  lemma MessageTicks(s: State, conversation: Option<int>)
    ensures NewMessage(s, conversation).cur == Advanced(s.cur, Ticks(MessageFactory(conversation)))
  {
    if conversation.Some? {
      MessageUnfolds(s, conversation);
    } else {
      FreshMessageTicks(s);
    }
  }

  /** Without an override, the SubFactory's conversation chain comes first. */
  lemma FreshMessageTicks(s: State)
    ensures NewMessage(s, None).cur == Advanced(s.cur, Ticks(MessageFactory(None)))
  {
    var p := NewConversation(s);
    calc {
      NewMessage(s, None).cur;
      AppendMessage(p, |p.db.conversations|).cur;
      Advanced(p.cur, Cursors(0, 0, 0, 0, 0, 0, 1, 0));
      { ConversationTicks(s); }
      Advanced(Advanced(s.cur, Ticks(ConversationFactory)), Cursors(0, 0, 0, 0, 0, 0, 1, 0));
    }
  }

  lemma TaskTicks(s: State)
    ensures NewTask(s).cur == Advanced(s.cur, Ticks(TaskFactory))
  {
    var a := NewContact(s);
    var b := NewUser(a, Some("manager"));
    ContactTicks(s);
    UserTicks(a, Some("manager"));
    IntegrationTicks(b, Some("CRM"));
    TaskUnfolds(s);
  }

  /** One create moves every cursor by exactly Ticks(f). */
  lemma CreateTicks(s: State, f: Factory)
    ensures Create(s, f).cur == Advanced(s.cur, Ticks(f))
  {
    SimpleCreateTicks(s, f);
    CompositeCreateTicks(s, f);
  }

  lemma SimpleCreateTicks(s: State, f: Factory)
    ensures Simple(f) ==> Create(s, f).cur == Advanced(s.cur, Ticks(f))
  {
    match f
    case UserFactory(role) => UserTicks(s, role);
    case IntegrationFactory(kind) => IntegrationTicks(s, kind);
    case SegmentFactory => SegmentTicks(s);
    case ContactSourceFactory => ContactSourceTicks(s);
    case BotScriptFactory => BotScriptTicks(s);
    case MessengerFactory => MessengerTicks(s);
    case _ =>
  }

  lemma CompositeCreateTicks(s: State, f: Factory)
    ensures !Simple(f) ==> Create(s, f).cur == Advanced(s.cur, Ticks(f))
  {
    match f
    case ContactFactory => ContactTicks(s);
    case ConversationFactory => ConversationTicks(s);
    case MessageFactory(c) => MessageTicks(s, c);
    case TaskFactory => TaskTicks(s);
    case _ =>
  }

  lemma {:induction false} BatchTicks(s: State, n: nat, f: Factory)
    ensures CreateBatch(s, n, f).cur == Advanced(s.cur, Repeated(n, Ticks(f)))
  {
    if n > 0 {
      var q := CreateBatch(s, n - 1, f);
      calc {
        CreateBatch(s, n, f).cur;
        Create(q, f).cur;
        { CreateTicks(q, f); }
        Advanced(q.cur, Ticks(f));
        { BatchTicks(s, n - 1, f); }
        Advanced(Advanced(s.cur, Repeated(n - 1, Ticks(f))), Ticks(f));
        { AdvancedAssociates(s.cur, Repeated(n - 1, Ticks(f)), Ticks(f)); }
        Advanced(s.cur, Advanced(Repeated(n - 1, Ticks(f)), Ticks(f)));
        { RepeatedStep(n, Ticks(f)); }
        Advanced(s.cur, Repeated(n, Ticks(f)));
      }
    }
  }

  /** The type Iterator moves only on a create of IntegrationFactory
      without a `type` override. */
  lemma KindCursorMovesOnlyUnpinned(f: Factory)
    ensures Ticks(f).integrationKind != 0 <==> f == IntegrationFactory(None)
  {
  }

  // ---------------------------------------------------------------------
  // Round robin: the i-th row of a batch takes the value at the cursor's
  // starting position plus i.
  // ---------------------------------------------------------------------

  /** `create_batch(n)` of UserFactory: the user at index j of the batch
      gets role Roles[(cursor + j) mod 2]. */
  lemma {:induction false} BatchRoles(s: State, n: nat)
    ensures var r := CreateBatch(s, n, UserFactory(None));
      && |r.db.users| == |s.db.users| + n
      && r.db.users[..|s.db.users|] == s.db.users
      && r.cur.userRole == s.cur.userRole + n
      && forall j :: |s.db.users| <= j < |r.db.users| ==>
           r.db.users[j].role == Cycle(Roles, s.cur.userRole + (j - |s.db.users|))
  {
    if n > 0 {
      var q := CreateBatch(s, n - 1, UserFactory(None));
      BatchRoles(s, n - 1);
      assert CreateBatch(s, n, UserFactory(None)) == Create(q, UserFactory(None));
      assert Create(q, UserFactory(None)) == NewUser(q, None);
    }
  }

  /** The messages a batch with a `conversation` override appends: all in
      that conversation, senders taken round robin from the cursor on, and
      `is_ai_generated` set from the sender. */
  lemma {:induction false} BatchSenders(s: State, n: nat, conversation: int)
    ensures var r := CreateBatch(s, n, MessageFactory(Some(conversation)));
      && |r.db.messages| == |s.db.messages| + n
      && r.db.messages[..|s.db.messages|] == s.db.messages
      && r.cur.messageSender == s.cur.messageSender + n
      && forall j :: |s.db.messages| <= j < |r.db.messages| ==>
           && r.db.messages[j].conversationId == Some(conversation)
           && r.db.messages[j].sender == Cycle(Senders, s.cur.messageSender + (j - |s.db.messages|))
           && (r.db.messages[j].isAiGenerated <==> r.db.messages[j].sender == "bot")
  {
    if n > 0 {
      var f := MessageFactory(Some(conversation));
      var q := CreateBatch(s, n - 1, f);
      BatchSenders(s, n - 1, conversation);
      assert CreateBatch(s, n, f) == Create(q, f);
      assert Create(q, f) == NewMessage(q, Some(conversation));
      assert NewMessage(q, Some(conversation)) == AppendMessage(q, conversation);
    }
  }

  /** A ConversationFactory create is its SubFactories' creates followed by
      the conversation row; they neither insert conversations nor draw a
      status. */
  lemma ConversationParents(s: State)
    ensures var c := NewBotScript(NewMessenger(NewContact(s)));
      && NewConversation(s) == AppendConversation(c)
      && c.cur.conversationStatus == s.cur.conversationStatus
      && c.db.conversations == s.db.conversations
  {
    var a := NewContact(s);
    var b := NewMessenger(a);
    ContactTicks(s);
    MessengerTicks(a);
    BotScriptTicks(b);
    ContactCost(s);
    MessengerCost(a);
    BotScriptCost(b);
    ContactExtends(s);
    MessengerExtends(a);
    BotScriptExtends(b);
    ConversationUnfolds(s);
  }

  /** The conversation row takes its status from the status cursor and
      has an `ended_at`. */
  lemma AppendConversationRow(c: State)
    ensures var r := AppendConversation(c);
      && |r.db.conversations| == |c.db.conversations| + 1
      && r.db.conversations[..|c.db.conversations|] == c.db.conversations
      && r.cur.conversationStatus == c.cur.conversationStatus + 1
      && r.db.conversations[|c.db.conversations|].status == Cycle(ConversationStatuses, c.cur.conversationStatus)
      && r.db.conversations[|c.db.conversations|].endedAt.Some?
  {
    assert Cycle(ConversationStatuses, c.cur.conversationStatus) in ConversationStatuses;
  }

  // ---------------------------------------------------------------------
  // Round robin over whole tables. Six Iterators are consulted exactly
  // once per row of one table: integration `name`, contact-source `name`,
  // messenger `name`, conversation `status`, message `sender` and task
  // `status`. Their rows take the values in creation order.
  // ---------------------------------------------------------------------

  function IntegrationNameOf(r: Integration): string { r.name }
  function SourceNameOf(r: ContactSource): string { r.name }
  function MessengerNameOf(r: Messenger): string { r.name }
  function ConversationStatusOf(r: Conversation): string { r.status }
  function MessageSenderOf(r: Message): string { r.sender }
  function TaskStatusOf(r: Task): string { r.status }

  /** Row i of `rows` holds the Iterator value at position
      `cursor - |rows| + i`: consecutive rows take consecutive values, and
      the next row will take the value at `cursor`. */
  ghost predicate CyclesFrom<R>(rows: seq<R>, value: R -> string, values: seq<string>, cursor: nat)
    requires values != []
  {
    && |rows| <= cursor
    && forall i :: 0 <= i < |rows| ==> value(rows[i]) == Cycle(values, cursor - |rows| + i)
  }

  /** Every per-row Iterator has handed its values out in row order. */
  ghost predicate RoundRobin(s: State)
  {
    && CyclesFrom(s.db.integrations, IntegrationNameOf, IntegrationNames, s.cur.integrationName)
    && CyclesFrom(s.db.contactSources, SourceNameOf, ContactSourceNames, s.cur.contactSourceName)
    && CyclesFrom(s.db.messengers, MessengerNameOf, MessengerNames, s.cur.messengerName)
    && CyclesFrom(s.db.conversations, ConversationStatusOf, ConversationStatuses, s.cur.conversationStatus)
    && CyclesFrom(s.db.messages, MessageSenderOf, Senders, s.cur.messageSender)
    && CyclesFrom(s.db.tasks, TaskStatusOf, TaskStatuses, s.cur.taskStatus)
  }

  /** A row that takes the value at the cursor, with the cursor moved on,
      keeps the order. */
  lemma CyclesFromAppend<R>(rows: seq<R>, r: R, value: R -> string, values: seq<string>, cursor: nat)
    requires values != [] && CyclesFrom(rows, value, values, cursor)
    requires value(r) == Cycle(values, cursor)
    ensures CyclesFrom(rows + [r], value, values, cursor + 1)
  {
    forall i | 0 <= i < |rows + [r]|
      ensures value((rows + [r])[i]) == Cycle(values, cursor + 1 - |rows + [r]| + i)
    {
      if i < |rows| {
        assert (rows + [r])[i] == rows[i];
      }
    }
  }

  lemma UserKeepsRoundRobin(s: State, role: Option<string>)
    requires RoundRobin(s)
    ensures RoundRobin(NewUser(s, role))
  {
  }

  lemma IntegrationKeepsRoundRobin(s: State, kind: Option<string>)
    requires RoundRobin(s)
    ensures RoundRobin(NewIntegration(s, kind))
  {
    var t := NewIntegration(s, kind);
    CyclesFromAppend(s.db.integrations, t.db.integrations[|s.db.integrations|], IntegrationNameOf,
                     IntegrationNames, s.cur.integrationName);
    assert t.db.integrations == s.db.integrations + [t.db.integrations[|s.db.integrations|]];
  }

  lemma SegmentKeepsRoundRobin(s: State)
    requires RoundRobin(s)
    ensures RoundRobin(NewSegment(s))
  {
  }

  lemma BotScriptKeepsRoundRobin(s: State)
    requires RoundRobin(s)
    ensures RoundRobin(NewBotScript(s))
  {
  }

  lemma AppendContactSourceKeepsRoundRobin(p: State)
    requires RoundRobin(p)
    ensures RoundRobin(AppendContactSource(p))
  {
    var t := AppendContactSource(p);
    CyclesFromAppend(p.db.contactSources, t.db.contactSources[|p.db.contactSources|], SourceNameOf,
                     ContactSourceNames, p.cur.contactSourceName);
    assert t.db.contactSources == p.db.contactSources + [t.db.contactSources[|p.db.contactSources|]];
  }

  lemma AppendMessengerKeepsRoundRobin(p: State)
    requires RoundRobin(p)
    ensures RoundRobin(AppendMessenger(p))
  {
    var t := AppendMessenger(p);
    CyclesFromAppend(p.db.messengers, t.db.messengers[|p.db.messengers|], MessengerNameOf,
                     MessengerNames, p.cur.messengerName);
    assert t.db.messengers == p.db.messengers + [t.db.messengers[|p.db.messengers|]];
  }

  lemma AppendConversationKeepsRoundRobin(c: State)
    requires RoundRobin(c)
    ensures RoundRobin(AppendConversation(c))
  {
    var t := AppendConversation(c);
    CyclesFromAppend(c.db.conversations, t.db.conversations[|c.db.conversations|], ConversationStatusOf,
                     ConversationStatuses, c.cur.conversationStatus);
    assert t.db.conversations == c.db.conversations + [t.db.conversations[|c.db.conversations|]];
  }

  lemma AppendMessageKeepsRoundRobin(p: State, parent: int)
    requires RoundRobin(p)
    ensures RoundRobin(AppendMessage(p, parent))
  {
    var t := AppendMessage(p, parent);
    CyclesFromAppend(p.db.messages, t.db.messages[|p.db.messages|], MessageSenderOf,
                     Senders, p.cur.messageSender);
    assert t.db.messages == p.db.messages + [t.db.messages[|p.db.messages|]];
  }

  lemma AppendTaskKeepsRoundRobin(c: State)
    requires RoundRobin(c)
    ensures RoundRobin(AppendTask(c))
  {
    var t := AppendTask(c);
    CyclesFromAppend(c.db.tasks, t.db.tasks[|c.db.tasks|], TaskStatusOf, TaskStatuses, c.cur.taskStatus);
    assert t.db.tasks == c.db.tasks + [t.db.tasks[|c.db.tasks|]];
  }

  lemma ContactSourceKeepsRoundRobin(s: State)
    requires RoundRobin(s)
    ensures RoundRobin(NewContactSource(s))
  {
    IntegrationKeepsRoundRobin(s, Some("CRM"));
    AppendContactSourceKeepsRoundRobin(NewIntegration(s, Some("CRM")));
    ContactSourceUnfolds(s);
  }

  lemma MessengerKeepsRoundRobin(s: State)
    requires RoundRobin(s)
    ensures RoundRobin(NewMessenger(s))
  {
    IntegrationKeepsRoundRobin(s, Some("Messenger"));
    AppendMessengerKeepsRoundRobin(NewIntegration(s, Some("Messenger")));
    MessengerUnfolds(s);
  }

  lemma ContactKeepsRoundRobin(s: State)
    requires RoundRobin(s)
    ensures RoundRobin(NewContact(s))
  {
    var p := NewContactSource(s);
    ContactSourceKeepsRoundRobin(s);
    SegmentKeepsRoundRobin(p);
    ContactUnfolds(s);
  }

  lemma ConversationKeepsRoundRobin(s: State)
    requires RoundRobin(s)
    ensures RoundRobin(NewConversation(s))
  {
    var a := NewContact(s);
    var b := NewMessenger(a);
    ContactKeepsRoundRobin(s);
    MessengerKeepsRoundRobin(a);
    BotScriptKeepsRoundRobin(b);
    AppendConversationKeepsRoundRobin(NewBotScript(b));
    ConversationUnfolds(s);
  }

  lemma MessageKeepsRoundRobin(s: State, conversation: Option<int>)
    requires RoundRobin(s)
    ensures RoundRobin(NewMessage(s, conversation))
  {
    MessageUnfolds(s, conversation);
    if conversation.Some? {
      AppendMessageKeepsRoundRobin(s, conversation.value);
    } else {
      var p := NewConversation(s);
      ConversationKeepsRoundRobin(s);
      AppendMessageKeepsRoundRobin(p, |p.db.conversations|);
    }
  }

  lemma TaskKeepsRoundRobin(s: State)
    requires RoundRobin(s)
    ensures RoundRobin(NewTask(s))
  {
    var a := NewContact(s);
    var b := NewUser(a, Some("manager"));
    ContactKeepsRoundRobin(s);
    UserKeepsRoundRobin(a, Some("manager"));
    IntegrationKeepsRoundRobin(b, Some("CRM"));
    AppendTaskKeepsRoundRobin(NewIntegration(b, Some("CRM")));
    TaskUnfolds(s);
  }

  /** Every create keeps the per-row Iterators in row order. */
  lemma CreateKeepsRoundRobin(s: State, f: Factory)
    requires RoundRobin(s)
    ensures RoundRobin(Create(s, f))
  {
    match f
    case UserFactory(role) => UserKeepsRoundRobin(s, role);
    case IntegrationFactory(kind) => IntegrationKeepsRoundRobin(s, kind);
    case SegmentFactory => SegmentKeepsRoundRobin(s);
    case ContactSourceFactory => ContactSourceKeepsRoundRobin(s);
    case ContactFactory => ContactKeepsRoundRobin(s);
    case BotScriptFactory => BotScriptKeepsRoundRobin(s);
    case MessengerFactory => MessengerKeepsRoundRobin(s);
    case ConversationFactory => ConversationKeepsRoundRobin(s);
    case MessageFactory(c) => MessageKeepsRoundRobin(s, c);
    case TaskFactory => TaskKeepsRoundRobin(s);
  }

  lemma {:induction false} BatchKeepsRoundRobin(s: State, n: nat, f: Factory)
    requires RoundRobin(s)
    ensures RoundRobin(CreateBatch(s, n, f))
  {
    if n > 0 {
      BatchKeepsRoundRobin(s, n - 1, f);
      CreateKeepsRoundRobin(CreateBatch(s, n - 1, f), f);
    }
  }

  // ---------------------------------------------------------------------
  // The `type` of the integrations. An override sets it, and otherwise the
  // type Iterator does; every override the factories and the program pass
  // is one of IntegrationKinds, so every new integration gets one of them.
  // ---------------------------------------------------------------------

  /** The new integration's `type` is the override when there is one, and
      the value at the type Iterator's cursor otherwise. */
  lemma IntegrationKind(s: State, kind: Option<string>)
    ensures var r := NewIntegration(s, kind).db.integrations[|s.db.integrations|];
      && (kind.Some? ==> r.kind == kind.value)
      && (kind.None? ==> r.kind == Cycle(IntegrationKinds, s.cur.integrationKind))
      && r.kind in IntegrationKinds + (if kind.Some? then [kind.value] else [])
  {
  }

  /** Integrations from position lo on all have a `type` from IntegrationKinds. */
  ghost predicate KindsKnownFrom(t: Tables, lo: nat)
  {
    forall i :: lo <= i < |t.integrations| ==> t.integrations[i].kind in IntegrationKinds
  }

  /** The factory overrides `type` only with one of IntegrationKinds. */
  predicate KnownOverride(f: Factory)
  {
    f.IntegrationFactory? && f.kind.Some? ==> f.kind.value in IntegrationKinds
  }

  lemma IntegrationKeepsKindsKnown(s: State, kind: Option<string>, lo: nat)
    requires KindsKnownFrom(s.db, lo)
    requires kind.Some? ==> kind.value in IntegrationKinds
    ensures KindsKnownFrom(NewIntegration(s, kind).db, lo)
  {
    var t := NewIntegration(s, kind).db;
    IntegrationKind(s, kind);
    forall i | lo <= i < |t.integrations|
      ensures t.integrations[i].kind in IntegrationKinds
    {
      if i < |s.db.integrations| {
        assert t.integrations[i] == s.db.integrations[i];
      }
    }
  }

  lemma ContactSourceKeepsKindsKnown(s: State, lo: nat)
    requires KindsKnownFrom(s.db, lo)
    ensures KindsKnownFrom(NewContactSource(s).db, lo)
  {
    IntegrationKeepsKindsKnown(s, Some("CRM"), lo);
    ContactSourceUnfolds(s);
  }

  lemma MessengerKeepsKindsKnown(s: State, lo: nat)
    requires KindsKnownFrom(s.db, lo)
    ensures KindsKnownFrom(NewMessenger(s).db, lo)
  {
    IntegrationKeepsKindsKnown(s, Some("Messenger"), lo);
    MessengerUnfolds(s);
  }

  lemma ContactKeepsKindsKnown(s: State, lo: nat)
    requires KindsKnownFrom(s.db, lo)
    ensures KindsKnownFrom(NewContact(s).db, lo)
  {
    ContactSourceKeepsKindsKnown(s, lo);
    ContactUnfolds(s);
  }

  lemma ConversationKeepsKindsKnown(s: State, lo: nat)
    requires KindsKnownFrom(s.db, lo)
    ensures KindsKnownFrom(NewConversation(s).db, lo)
  {
    var a := NewContact(s);
    ContactKeepsKindsKnown(s, lo);
    MessengerKeepsKindsKnown(a, lo);
    ConversationUnfolds(s);
  }

  lemma MessageKeepsKindsKnown(s: State, conversation: Option<int>, lo: nat)
    requires KindsKnownFrom(s.db, lo)
    ensures KindsKnownFrom(NewMessage(s, conversation).db, lo)
  {
    MessageUnfolds(s, conversation);
    if conversation.None? {
      ConversationKeepsKindsKnown(s, lo);
    }
  }

  lemma TaskKeepsKindsKnown(s: State, lo: nat)
    requires KindsKnownFrom(s.db, lo)
    ensures KindsKnownFrom(NewTask(s).db, lo)
  {
    var a := NewContact(s);
    ContactKeepsKindsKnown(s, lo);
    IntegrationKeepsKindsKnown(NewUser(a, Some("manager")), Some("CRM"), lo);
    TaskUnfolds(s);
  }

  /** A create whose `type` override, if any, is one of IntegrationKinds
      gives every integration it inserts a `type` from IntegrationKinds. */
  lemma CreateKeepsKindsKnown(s: State, f: Factory, lo: nat)
    requires KindsKnownFrom(s.db, lo) && KnownOverride(f)
    ensures KindsKnownFrom(Create(s, f).db, lo)
  {
    match f
    case UserFactory(_) =>
    case IntegrationFactory(kind) => IntegrationKeepsKindsKnown(s, kind, lo);
    case SegmentFactory =>
    case ContactSourceFactory => ContactSourceKeepsKindsKnown(s, lo);
    case ContactFactory => ContactKeepsKindsKnown(s, lo);
    case BotScriptFactory =>
    case MessengerFactory => MessengerKeepsKindsKnown(s, lo);
    case ConversationFactory => ConversationKeepsKindsKnown(s, lo);
    case MessageFactory(c) => MessageKeepsKindsKnown(s, c, lo);
    case TaskFactory => TaskKeepsKindsKnown(s, lo);
  }

  lemma {:induction false} BatchKeepsKindsKnown(s: State, n: nat, f: Factory, lo: nat)
    requires KindsKnownFrom(s.db, lo) && KnownOverride(f)
    ensures KindsKnownFrom(CreateBatch(s, n, f).db, lo)
  {
    if n > 0 {
      BatchKeepsKindsKnown(s, n - 1, f, lo);
      CreateKeepsKindsKnown(CreateBatch(s, n - 1, f), f, lo);
    }
  }

  /** A batch with a pinned `type` appends n integrations, all of that type. */
  lemma {:induction false} BatchPinnedKinds(s: State, n: nat, k: string)
    ensures var t := CreateBatch(s, n, IntegrationFactory(Some(k))).db;
      && |t.integrations| == |s.db.integrations| + n
      && s.db.integrations <= t.integrations
      && forall i :: |s.db.integrations| <= i < |t.integrations| ==> t.integrations[i].kind == k
  {
    if n > 0 {
      var q := CreateBatch(s, n - 1, IntegrationFactory(Some(k)));
      BatchPinnedKinds(s, n - 1, k);
      IntegrationKind(q, Some(k));
      var t := NewIntegration(q, Some(k)).db;
      forall i | |s.db.integrations| <= i < |t.integrations|
        ensures t.integrations[i].kind == k
      {
        if i < |q.db.integrations| {
          assert t.integrations[i] == q.db.integrations[i];
        }
      }
    }
  }
}
