/** What every factory create guarantees: the rows it adds, the integrity
    and pinned variants it keeps, the fields it derives, the freshness of
    the parents its SubFactories create, and the Iterator cycles. */
module FactoryProperties {
  import opened Models
  import opened Factories

  // ---------------------------------------------------------------------
  // Row counts.
  // ---------------------------------------------------------------------

  datatype Counts = Counts(users: nat, integrations: nat, segments: nat, contactSources: nat,
                           contacts: nat, botScripts: nat, messengers: nat,
                           conversations: nat, messages: nat, tasks: nat)

  function Sizes(t: Tables): Counts
  {
    Counts(|t.users|, |t.integrations|, |t.segments|, |t.contactSources|, |t.contacts|,
           |t.botScripts|, |t.messengers|, |t.conversations|, |t.messages|, |t.tasks|)
  }

  function Plus(a: Counts, b: Counts): Counts
  {
    Counts(a.users + b.users, a.integrations + b.integrations, a.segments + b.segments,
           a.contactSources + b.contactSources, a.contacts + b.contacts,
           a.botScripts + b.botScripts, a.messengers + b.messengers,
           a.conversations + b.conversations, a.messages + b.messages, a.tasks + b.tasks)
  }

  const NoRows := Counts(0, 0, 0, 0, 0, 0, 0, 0, 0, 0)

  /** Adding row counts in two steps or one gives the same total, so a
      run's counts can be summed statement by statement. */
  lemma PlusAssociates(a: Counts, b: Counts, c: Counts)
    ensures Plus(Plus(a, b), c) == Plus(a, Plus(b, c))
  {
  }

  /** n copies of `a`, added up. */
  function Times(n: nat, a: Counts): Counts
  {
    Counts(n * a.users, n * a.integrations, n * a.segments, n * a.contactSources, n * a.contacts,
           n * a.botScripts, n * a.messengers, n * a.conversations, n * a.messages, n * a.tasks)
  }

  /** One column of TimesStep: peeling one copy off a product, which the
      solver's nonlinear arithmetic does not find on its own. */
  lemma MultipleStep(n: nat, x: nat)
    requires n > 0
    ensures n * x == (n - 1) * x + x
  {
  }

  /** One more copy: n copies are n - 1 copies and one; the batch lemmas
      unroll a batch of n creates with it. */
  lemma TimesStep(n: nat, a: Counts)
    requires n > 0
    ensures Times(n, a) == Plus(Times(n - 1, a), a)
  {
    MultipleStep(n, a.users);
    MultipleStep(n, a.integrations);
    MultipleStep(n, a.segments);
    MultipleStep(n, a.contactSources);
    MultipleStep(n, a.contacts);
    MultipleStep(n, a.botScripts);
    MultipleStep(n, a.messengers);
    MultipleStep(n, a.conversations);
    MultipleStep(n, a.messages);
    MultipleStep(n, a.tasks);
  }

  // ---------------------------------------------------------------------
  // Each composite factory, written out as its SubFactory creates in
  // declaration order followed by its own row.
  // ---------------------------------------------------------------------

  lemma ContactSourceUnfolds(s: State)
    ensures NewContactSource(s) == AppendContactSource(NewIntegration(s, Some("CRM")))
  {
  }

  lemma MessengerUnfolds(s: State)
    ensures NewMessenger(s) == AppendMessenger(NewIntegration(s, Some("Messenger")))
  {
  }

  lemma ContactUnfolds(s: State)
    ensures NewContact(s) == AppendContact(NewSegment(NewContactSource(s)))
  {
  }

  lemma ConversationUnfolds(s: State)
    ensures NewConversation(s) == AppendConversation(NewBotScript(NewMessenger(NewContact(s))))
  {
  }

  lemma MessageUnfolds(s: State, conversation: Option<int>)
    ensures conversation.Some? ==> NewMessage(s, conversation) == AppendMessage(s, conversation.value)
    ensures conversation.None? ==>
      NewMessage(s, conversation) == AppendMessage(NewConversation(s), |NewConversation(s).db.conversations|)
  {
  }

  lemma TaskUnfolds(s: State)
    ensures NewTask(s) == AppendTask(NewIntegration(NewUser(NewContact(s), Some("manager")), Some("CRM")))
  {
  }

  /** The rows one create inserts in each table, counted from the SubFactory
      declarations: every SubFactory adds its whole parent chain. */
  function Cost(f: Factory): Counts
  {
    match f
    case UserFactory(_) =>         Counts(1, 0, 0, 0, 0, 0, 0, 0, 0, 0)
    case IntegrationFactory(_) =>  Counts(0, 1, 0, 0, 0, 0, 0, 0, 0, 0)
    case SegmentFactory =>         Counts(0, 0, 1, 0, 0, 0, 0, 0, 0, 0)
    case ContactSourceFactory =>   Counts(0, 1, 0, 1, 0, 0, 0, 0, 0, 0)
    case ContactFactory =>         Counts(0, 1, 1, 1, 1, 0, 0, 0, 0, 0)
    case BotScriptFactory =>       Counts(0, 0, 0, 0, 0, 1, 0, 0, 0, 0)
    case MessengerFactory =>       Counts(0, 1, 0, 0, 0, 0, 1, 0, 0, 0)
    case ConversationFactory =>    Counts(0, 2, 1, 1, 1, 1, 1, 1, 0, 0)
    case MessageFactory(c) =>
      if c.Some? then              Counts(0, 0, 0, 0, 0, 0, 0, 0, 1, 0)
      else                         Counts(0, 2, 1, 1, 1, 1, 1, 1, 1, 0)
    case TaskFactory =>            Counts(1, 2, 1, 1, 1, 0, 0, 0, 0, 1)
  }

  // Row counts. The lemmas go up the SubFactory chains one layer at a
  // time, parents first: a create inserts its own row and its whole chain.

  lemma UserCost(s: State, role: Option<string>)
    ensures Sizes(NewUser(s, role).db) == Plus(Sizes(s.db), Cost(UserFactory(role)))
  {
  }

  lemma IntegrationCost(s: State, kind: Option<string>)
    ensures Sizes(NewIntegration(s, kind).db) == Plus(Sizes(s.db), Cost(IntegrationFactory(kind)))
  {
  }

  lemma SegmentCost(s: State)
    ensures Sizes(NewSegment(s).db) == Plus(Sizes(s.db), Cost(SegmentFactory))
  {
  }

  lemma BotScriptCost(s: State)
    ensures Sizes(NewBotScript(s).db) == Plus(Sizes(s.db), Cost(BotScriptFactory))
  {
  }

  lemma ContactSourceCost(s: State)
    ensures Sizes(NewContactSource(s).db) == Plus(Sizes(s.db), Cost(ContactSourceFactory))
  {
    IntegrationCost(s, Some("CRM"));
    ContactSourceUnfolds(s);
  }

  lemma MessengerCost(s: State)
    ensures Sizes(NewMessenger(s).db) == Plus(Sizes(s.db), Cost(MessengerFactory))
  {
    IntegrationCost(s, Some("Messenger"));
    MessengerUnfolds(s);
  }

  lemma ContactCost(s: State)
    ensures Sizes(NewContact(s).db) == Plus(Sizes(s.db), Cost(ContactFactory))
  {
    var p := NewContactSource(s);
    ContactSourceCost(s);
    SegmentCost(p);
    ContactUnfolds(s);
  }

  lemma ConversationCost(s: State)
    ensures Sizes(NewConversation(s).db) == Plus(Sizes(s.db), Cost(ConversationFactory))
  {
    var a := NewContact(s);
    var b := NewMessenger(a);
    ContactCost(s);
    MessengerCost(a);
    BotScriptCost(b);
    ConversationUnfolds(s);
  }

  lemma MessageCost(s: State, conversation: Option<int>)
    ensures Sizes(NewMessage(s, conversation).db) == Plus(Sizes(s.db), Cost(MessageFactory(conversation)))
  {
    if conversation.Some? {
      AppendMessageCost(s, conversation.value);
    } else {
      FreshMessageCost(s);
    }
  }

  /** Without an override, the SubFactory's conversation chain comes first. */
  lemma FreshMessageCost(s: State)
    ensures Sizes(NewMessage(s, None).db) == Plus(Sizes(s.db), Cost(MessageFactory(None)))
  {
    var p := NewConversation(s);
    var one := Counts(0, 0, 0, 0, 0, 0, 0, 0, 1, 0);
    calc {
      Sizes(NewMessage(s, None).db);
      Sizes(AppendMessage(p, |p.db.conversations|).db);
      { AppendMessageCost(p, |p.db.conversations|); }
      Plus(Sizes(p.db), one);
      { ConversationCost(s); }
      Plus(Plus(Sizes(s.db), Cost(ConversationFactory)), one);
    }
  }

  /** The message row alone. */
  lemma AppendMessageCost(p: State, parent: int)
    ensures Sizes(AppendMessage(p, parent).db) == Plus(Sizes(p.db), Counts(0, 0, 0, 0, 0, 0, 0, 0, 1, 0))
  {
  }

  lemma TaskCost(s: State)
    ensures Sizes(NewTask(s).db) == Plus(Sizes(s.db), Cost(TaskFactory))
  {
    var a := NewContact(s);
    var b := NewUser(a, Some("manager"));
    ContactCost(s);
    UserCost(a, Some("manager"));
    IntegrationCost(b, Some("CRM"));
    TaskUnfolds(s);
  }

  /** One create inserts exactly Cost(f) rows, its own and its parents'. */
  lemma CreateCost(s: State, f: Factory)
    ensures Sizes(Create(s, f).db) == Plus(Sizes(s.db), Cost(f))
  {
    SimpleCreateCost(s, f);
    CompositeCreateCost(s, f);
  }

  lemma SimpleCreateCost(s: State, f: Factory)
    ensures Simple(f) ==> Sizes(Create(s, f).db) == Plus(Sizes(s.db), Cost(f))
  {
    match f
    case UserFactory(role) => UserCost(s, role);
    case IntegrationFactory(kind) => IntegrationCost(s, kind);
    case SegmentFactory => SegmentCost(s);
    case ContactSourceFactory => ContactSourceCost(s);
    case BotScriptFactory => BotScriptCost(s);
    case MessengerFactory => MessengerCost(s);
    case _ =>
  }

  lemma CompositeCreateCost(s: State, f: Factory)
    ensures !Simple(f) ==> Sizes(Create(s, f).db) == Plus(Sizes(s.db), Cost(f))
  {
    match f
    case ContactFactory => ContactCost(s);
    case ConversationFactory => ConversationCost(s);
    case MessageFactory(c) => MessageCost(s, c);
    case TaskFactory => TaskCost(s);
    case _ =>
  }


  // Creates only append: no earlier row changes, and Faker is the same.

  lemma UserExtends(s: State, role: Option<string>)
    ensures Extends(s.db, NewUser(s, role).db) && NewUser(s, role).fake == s.fake
  {
  }

  lemma IntegrationExtends(s: State, kind: Option<string>)
    ensures Extends(s.db, NewIntegration(s, kind).db) && NewIntegration(s, kind).fake == s.fake
  {
  }

  lemma SegmentExtends(s: State)
    ensures Extends(s.db, NewSegment(s).db) && NewSegment(s).fake == s.fake
  {
  }

  lemma BotScriptExtends(s: State)
    ensures Extends(s.db, NewBotScript(s).db) && NewBotScript(s).fake == s.fake
  {
  }

  lemma ContactSourceExtends(s: State)
    ensures Extends(s.db, NewContactSource(s).db) && NewContactSource(s).fake == s.fake
  {
    IntegrationExtends(s, Some("CRM"));
    ContactSourceUnfolds(s);
  }

  lemma MessengerExtends(s: State)
    ensures Extends(s.db, NewMessenger(s).db) && NewMessenger(s).fake == s.fake
  {
    IntegrationExtends(s, Some("Messenger"));
    MessengerUnfolds(s);
  }

  lemma ContactExtends(s: State)
    ensures Extends(s.db, NewContact(s).db) && NewContact(s).fake == s.fake
  {
    var p := NewContactSource(s);
    ContactSourceExtends(s);
    SegmentExtends(p);
    ContactUnfolds(s);
  }

  lemma ConversationExtends(s: State)
    ensures Extends(s.db, NewConversation(s).db) && NewConversation(s).fake == s.fake
  {
    var a := NewContact(s);
    var b := NewMessenger(a);
    ContactExtends(s);
    MessengerExtends(a);
    BotScriptExtends(b);
    ConversationUnfolds(s);
  }

  lemma MessageExtends(s: State, conversation: Option<int>)
    ensures Extends(s.db, NewMessage(s, conversation).db) && NewMessage(s, conversation).fake == s.fake
  {
    if conversation.Some? {
      MessageUnfolds(s, conversation);
    } else {
      var p := NewConversation(s);
      ConversationExtends(s);
      MessageUnfolds(s, conversation);
    }
  }

  lemma TaskExtends(s: State)
    ensures Extends(s.db, NewTask(s).db) && NewTask(s).fake == s.fake
  {
    var a := NewContact(s);
    var b := NewUser(a, Some("manager"));
    ContactExtends(s);
    UserExtends(a, Some("manager"));
    IntegrationExtends(b, Some("CRM"));
    TaskUnfolds(s);
  }

  /** One create leaves every earlier row where it was. */
  lemma CreateExtends(s: State, f: Factory)
    ensures Extends(s.db, Create(s, f).db) && Create(s, f).fake == s.fake
  {
    SimpleCreateExtends(s, f);
    CompositeCreateExtends(s, f);
  }

  lemma SimpleCreateExtends(s: State, f: Factory)
    ensures Simple(f) ==> Extends(s.db, Create(s, f).db) && Create(s, f).fake == s.fake
  {
    match f
    case UserFactory(role) => UserExtends(s, role);
    case IntegrationFactory(kind) => IntegrationExtends(s, kind);
    case SegmentFactory => SegmentExtends(s);
    case ContactSourceFactory => ContactSourceExtends(s);
    case BotScriptFactory => BotScriptExtends(s);
    case MessengerFactory => MessengerExtends(s);
    case _ =>
  }

  lemma CompositeCreateExtends(s: State, f: Factory)
    ensures !Simple(f) ==> Extends(s.db, Create(s, f).db) && Create(s, f).fake == s.fake
  {
    match f
    case ContactFactory => ContactExtends(s);
    case ConversationFactory => ConversationExtends(s);
    case MessageFactory(c) => MessageExtends(s, c);
    case TaskFactory => TaskExtends(s);
    case _ =>
  }


  predicate Simple(f: Factory)
  {
    f.UserFactory? || f.IntegrationFactory? || f.SegmentFactory? || f.BotScriptFactory?
    || f.ContactSourceFactory? || f.MessengerFactory?
  }

  lemma {:induction false} BatchCost(s: State, n: nat, f: Factory)
    ensures Sizes(CreateBatch(s, n, f).db) == Plus(Sizes(s.db), Times(n, Cost(f)))
  {
    if n > 0 {
      var q := CreateBatch(s, n - 1, f);
      calc {
        Sizes(CreateBatch(s, n, f).db);
        Sizes(Create(q, f).db);
        { CreateCost(q, f); }
        Plus(Sizes(q.db), Cost(f));
        { BatchCost(s, n - 1, f); }
        Plus(Plus(Sizes(s.db), Times(n - 1, Cost(f))), Cost(f));
        { PlusAssociates(Sizes(s.db), Times(n - 1, Cost(f)), Cost(f)); }
        Plus(Sizes(s.db), Plus(Times(n - 1, Cost(f)), Cost(f)));
        { TimesStep(n, Cost(f)); }
        Plus(Sizes(s.db), Times(n, Cost(f)));
      }
    }
  }

  // ---------------------------------------------------------------------
  // Creates only append: earlier rows are never changed.
  // ---------------------------------------------------------------------

  ghost predicate Extends(t: Tables, u: Tables)
  {
    && t.users <= u.users && t.integrations <= u.integrations && t.segments <= u.segments
    && t.contactSources <= u.contactSources && t.contacts <= u.contacts
    && t.botScripts <= u.botScripts && t.messengers <= u.messengers
    && t.conversations <= u.conversations && t.messages <= u.messages && t.tasks <= u.tasks
  }

  lemma {:induction false} BatchExtends(s: State, n: nat, f: Factory)
    ensures Extends(s.db, CreateBatch(s, n, f).db) && CreateBatch(s, n, f).fake == s.fake
  {
    if n > 0 {
      BatchExtends(s, n - 1, f);
      CreateExtends(CreateBatch(s, n - 1, f), f);
    }
  }

  // ---------------------------------------------------------------------
  // The invariant every create keeps.
  // ---------------------------------------------------------------------

  /** Every key in column `fk` of `rows` names an integration of the given
      kind. */
  ghost predicate PointsAtKind<R>(rows: seq<R>, fk: R -> Option<int>, integrations: seq<Integration>,
                                  kind: string)
  {
    forall i :: 0 <= i < |rows| && fk(rows[i]).Some? ==>
      1 <= fk(rows[i]).value <= |integrations| && integrations[fk(rows[i]).value - 1].kind == kind
  }

  /** Every task's user is a "manager". */
  ghost predicate AssignedToManagers(tasks: seq<Task>, users: seq<User>)
  {
    forall i :: 0 <= i < |tasks| && tasks[i].userId.Some? ==>
      1 <= tasks[i].userId.value <= |users| && users[tasks[i].userId.value - 1].role == "manager"
  }

  /** Each SubFactory that pins a variant is honoured: a ContactSource's and
      a Task's integration is a "CRM", a Messenger's is a "Messenger", and a
      Task's user is a "manager". */
  ghost predicate PinnedVariants(t: Tables)
  {
    && PointsAtKind(t.contactSources, SourceIntegrationId, t.integrations, "CRM")
    && PointsAtKind(t.messengers, MessengerIntegrationId, t.integrations, "Messenger")
    && PointsAtKind(t.tasks, TaskCrmId, t.integrations, "CRM")
    && AssignedToManagers(t.tasks, t.users)
  }

  /** `is_ai_generated` is derived from `sender`. */
  ghost predicate AiFlagsDerived(messages: seq<Message>)
  {
    forall i :: 0 <= i < |messages| ==> messages[i].isAiGenerated == AiGenerated(messages[i].sender)
  }

  /** `status` comes from the status Iterator, so `ended_at` is always set. */
  ghost predicate EndedAtDerived(conversations: seq<Conversation>)
  {
    forall i :: 0 <= i < |conversations| ==>
      conversations[i].status in ConversationStatuses && conversations[i].endedAt.Some?
  }

  /** The fields a factory derives from a sibling field: `is_ai_generated`
      from `sender`, and `ended_at` from the truthiness of `status`. */
  ghost predicate DerivedFields(t: Tables)
  {
    AiFlagsDerived(t.messages) && EndedAtDerived(t.conversations)
  }

  /** What holds of a database filled only by the factories. */
  ghost predicate Generated(t: Tables)
  {
    KeysSequential(t) && RefIntegrity(t) && PinnedVariants(t) && DerivedFields(t)
  }

  /** An override names an existing row, as the object passed to
      `create_batch(conversation=...)` does. */
  predicate OverrideResolves(s: State, f: Factory)
  {
    f.MessageFactory? ==> Resolves(f.conversation, |s.db.conversations|)
  }

  // Every create keeps referential integrity, the pinned variants and the
  // derived fields: each SubFactory inserts its parent before the child
  // that points at it. First the row a factory appends, given the parents
  // it points at; then the chains, one layer at a time, parents first.

  lemma AppendContactSourceKeepsGenerated(p: State)
    requires Generated(p.db) && |p.db.integrations| > 0
    requires p.db.integrations[|p.db.integrations| - 1].kind == "CRM"
    ensures Generated(AppendContactSource(p).db)
    ensures AppendContactSource(p).db.contactSources[|p.db.contactSources|].integrationId
         == Some(p.db.integrations[|p.db.integrations| - 1].id)
  {
  }

  lemma AppendContactKeepsGenerated(q: State)
    requires Generated(q.db) && |q.db.contactSources| > 0 && |q.db.segments| > 0
    ensures Generated(AppendContact(q).db)
    ensures AppendContact(q).db.contacts[|q.db.contacts|].sourceId
         == Some(q.db.contactSources[|q.db.contactSources| - 1].id)
    ensures AppendContact(q).db.contacts[|q.db.contacts|].segmentId
         == Some(q.db.segments[|q.db.segments| - 1].id)
  {
  }

  lemma AppendMessengerKeepsGenerated(p: State)
    requires Generated(p.db) && |p.db.integrations| > 0
    requires p.db.integrations[|p.db.integrations| - 1].kind == "Messenger"
    ensures Generated(AppendMessenger(p).db)
    ensures AppendMessenger(p).db.messengers[|p.db.messengers|].integrationId
         == Some(p.db.integrations[|p.db.integrations| - 1].id)
  {
  }

  lemma AppendConversationKeepsGenerated(c: State)
    requires Generated(c.db) && |c.db.contacts| > 0 && |c.db.messengers| > 0 && |c.db.botScripts| > 0
    ensures Generated(AppendConversation(c).db)
    ensures AppendConversation(c).db.conversations[|c.db.conversations|].contactId
         == Some(c.db.contacts[|c.db.contacts| - 1].id)
    ensures AppendConversation(c).db.conversations[|c.db.conversations|].messengerId
         == Some(c.db.messengers[|c.db.messengers| - 1].id)
    ensures AppendConversation(c).db.conversations[|c.db.conversations|].scriptId
         == Some(c.db.botScripts[|c.db.botScripts| - 1].id)
  {
    assert Cycle(ConversationStatuses, c.cur.conversationStatus) in ConversationStatuses;
  }

  lemma AppendMessageKeepsGenerated(p: State, parent: int)
    requires Generated(p.db) && 1 <= parent <= |p.db.conversations|
    ensures Generated(AppendMessage(p, parent).db)
  {
  }

  lemma AppendTaskKeepsGenerated(c: State)
    requires Generated(c.db) && |c.db.contacts| > 0
    requires |c.db.users| > 0 && c.db.users[|c.db.users| - 1].role == "manager"
    requires |c.db.integrations| > 0 && c.db.integrations[|c.db.integrations| - 1].kind == "CRM"
    ensures Generated(AppendTask(c).db)
    ensures AppendTask(c).db.tasks[|c.db.tasks|].contactId == Some(c.db.contacts[|c.db.contacts| - 1].id)
    ensures AppendTask(c).db.tasks[|c.db.tasks|].userId == Some(c.db.users[|c.db.users| - 1].id)
    ensures AppendTask(c).db.tasks[|c.db.tasks|].crmId == Some(c.db.integrations[|c.db.integrations| - 1].id)
  {
  }

  lemma UserKeepsGenerated(s: State, role: Option<string>)
    requires Generated(s.db)
    ensures Generated(NewUser(s, role).db)
  {
  }

  lemma IntegrationKeepsGenerated(s: State, kind: Option<string>)
    requires Generated(s.db)
    ensures Generated(NewIntegration(s, kind).db)
  {
  }

  lemma SegmentKeepsGenerated(s: State)
    requires Generated(s.db)
    ensures Generated(NewSegment(s).db)
  {
  }

  lemma BotScriptKeepsGenerated(s: State)
    requires Generated(s.db)
    ensures Generated(NewBotScript(s).db)
  {
  }

  lemma ContactSourceKeepsGenerated(s: State)
    requires Generated(s.db)
    ensures Generated(NewContactSource(s).db)
  {
    var p := NewIntegration(s, Some("CRM"));
    IntegrationKeepsGenerated(s, Some("CRM"));
    AppendContactSourceKeepsGenerated(p);
    ContactSourceUnfolds(s);
  }

  lemma MessengerKeepsGenerated(s: State)
    requires Generated(s.db)
    ensures Generated(NewMessenger(s).db)
  {
    var p := NewIntegration(s, Some("Messenger"));
    IntegrationKeepsGenerated(s, Some("Messenger"));
    AppendMessengerKeepsGenerated(p);
    MessengerUnfolds(s);
  }

  lemma ContactKeepsGenerated(s: State)
    requires Generated(s.db)
    ensures Generated(NewContact(s).db)
  {
    var p := NewContactSource(s);
    var q := NewSegment(p);
    ContactSourceKeepsGenerated(s);
    ContactSourceCost(s);
    SegmentKeepsGenerated(p);
    AppendContactKeepsGenerated(q);
    ContactUnfolds(s);
  }

  lemma ConversationKeepsGenerated(s: State)
    requires Generated(s.db)
    ensures Generated(NewConversation(s).db)
  {
    var a := NewContact(s);
    var b := NewMessenger(a);
    var c := NewBotScript(b);
    ContactKeepsGenerated(s);
    ContactCost(s);
    MessengerKeepsGenerated(a);
    MessengerCost(a);
    BotScriptKeepsGenerated(b);
    AppendConversationKeepsGenerated(c);
    ConversationUnfolds(s);
  }

  lemma MessageKeepsGenerated(s: State, conversation: Option<int>)
    requires Generated(s.db) && Resolves(conversation, |s.db.conversations|)
    ensures Generated(NewMessage(s, conversation).db)
  {
    if conversation.Some? {
      AppendMessageKeepsGenerated(s, conversation.value);
      MessageUnfolds(s, conversation);
    } else {
      var p := NewConversation(s);
      assert Generated(p.db) && |p.db.conversations| > 0 by {
        ConversationKeepsGenerated(s);
        ConversationCost(s);
      }
      AppendMessageKeepsGenerated(p, |p.db.conversations|);
      MessageUnfolds(s, conversation);
    }
  }

  lemma TaskKeepsGenerated(s: State)
    requires Generated(s.db)
    ensures Generated(NewTask(s).db)
  {
    var a := NewContact(s);
    var b := NewUser(a, Some("manager"));
    var c := NewIntegration(b, Some("CRM"));
    ContactKeepsGenerated(s);
    ContactCost(s);
    UserKeepsGenerated(a, Some("manager"));
    IntegrationKeepsGenerated(b, Some("CRM"));
    AppendTaskKeepsGenerated(c);
    TaskUnfolds(s);
  }

  /** Every create keeps the invariant, as long as an overridden
      `conversation` names an existing row. */
  lemma CreateKeepsGenerated(s: State, f: Factory)
    requires Generated(s.db) && OverrideResolves(s, f)
    ensures Generated(Create(s, f).db)
  {
    SimpleCreateKeepsGenerated(s, f);
    CompositeCreateKeepsGenerated(s, f);
  }

  lemma SimpleCreateKeepsGenerated(s: State, f: Factory)
    requires Generated(s.db) && OverrideResolves(s, f)
    ensures Simple(f) ==> Generated(Create(s, f).db)
  {
    match f
    case UserFactory(role) => UserKeepsGenerated(s, role);
    case IntegrationFactory(kind) => IntegrationKeepsGenerated(s, kind);
    case SegmentFactory => SegmentKeepsGenerated(s);
    case ContactSourceFactory => ContactSourceKeepsGenerated(s);
    case BotScriptFactory => BotScriptKeepsGenerated(s);
    case MessengerFactory => MessengerKeepsGenerated(s);
    case _ =>
  }

  lemma CompositeCreateKeepsGenerated(s: State, f: Factory)
    requires Generated(s.db) && OverrideResolves(s, f)
    ensures !Simple(f) ==> Generated(Create(s, f).db)
  {
    match f
    case ContactFactory => ContactKeepsGenerated(s);
    case ConversationFactory => ConversationKeepsGenerated(s);
    case MessageFactory(c) => MessageKeepsGenerated(s, c);
    case TaskFactory => TaskKeepsGenerated(s);
    case _ =>
  }


  lemma {:induction false} BatchKeepsGenerated(s: State, n: nat, f: Factory)
    requires Generated(s.db) && OverrideResolves(s, f)
    ensures Generated(CreateBatch(s, n, f).db)
  {
    if n > 0 {
      var p := CreateBatch(s, n - 1, f);
      BatchKeepsGenerated(s, n - 1, f);
      BatchCost(s, n - 1, f);
      assert OverrideResolves(p, f);
      CreateKeepsGenerated(p, f);
    }
  }

  // ---------------------------------------------------------------------
  // SubFactory never reuses a row: every foreign key a create writes
  // names a parent that the same create inserted.
  // ---------------------------------------------------------------------

  /** The tables that foreign keys point into. */
  datatype Parent = Users | Integrations | Segments | ContactSources | Contacts | BotScripts
                  | Messengers | Conversations

  function RowCount(t: Tables, p: Parent): nat
  {
    match p
    case Users => |t.users|
    case Integrations => |t.integrations|
    case Segments => |t.segments|
    case ContactSources => |t.contactSources|
    case Contacts => |t.contacts|
    case BotScripts => |t.botScripts|
    case Messengers => |t.messengers|
    case Conversations => |t.conversations|
  }

  /** The key is NULL or names a row outside the id range (lo, hi]. */
  predicate Outside(fk: Option<int>, lo: int, hi: int)
  {
    fk.Some? ==> fk.value <= lo || hi < fk.value
  }

  /** No key in column `fk` of `rows` names a row with id in (lo, hi]. */
  ghost predicate KeysAvoid<R>(rows: seq<R>, fk: R -> Option<int>, lo: int, hi: int)
  {
    forall i :: 0 <= i < |rows| ==> Outside(fk(rows[i]), lo, hi)
  }

  /** No foreign key into table p names a row with id in (lo, hi]; in other
      words every back-populated collection of those rows is empty. */
  ghost predicate Unreferenced(t: Tables, p: Parent, lo: int, hi: int)
  {
    match p
    case Users => KeysAvoid(t.tasks, TaskUserId, lo, hi)
    case Integrations =>
      && KeysAvoid(t.contactSources, SourceIntegrationId, lo, hi)
      && KeysAvoid(t.messengers, MessengerIntegrationId, lo, hi)
      && KeysAvoid(t.tasks, TaskCrmId, lo, hi)
    case Segments => KeysAvoid(t.contacts, ContactSegmentId, lo, hi)
    case ContactSources => KeysAvoid(t.contacts, ContactSourceId, lo, hi)
    case Contacts =>
      && KeysAvoid(t.conversations, ConversationContactId, lo, hi)
      && KeysAvoid(t.tasks, TaskContactId, lo, hi)
    case BotScripts => KeysAvoid(t.conversations, ConversationScriptId, lo, hi)
    case Messengers => KeysAvoid(t.conversations, ConversationMessengerId, lo, hi)
    case Conversations => KeysAvoid(t.messages, MessageConversationId, lo, hi)
  }

  /** Whether a create of `f` writes a foreign key into table p, counting the
      rows its SubFactories insert. */
  function Touches(f: Factory, p: Parent): bool
  {
    match f
    case UserFactory(_) => false
    case IntegrationFactory(_) => false
    case SegmentFactory => false
    case ContactSourceFactory => p == Integrations
    case ContactFactory => p == Integrations || p == ContactSources || p == Segments
    case BotScriptFactory => false
    case MessengerFactory => p == Integrations
    case ConversationFactory => p != Users && p != Conversations
    case MessageFactory(c) => p == Conversations || (c.None? && p != Users)
    case TaskFactory => p == Integrations || p == ContactSources || p == Segments || p == Contacts || p == Users
  }

  lemma ExtendsGrows(t: Tables, u: Tables, p: Parent)
    requires Extends(t, u)
    ensures RowCount(t, p) <= RowCount(u, p)
  {
  }

  /** Before any create, a consistent database references nothing beyond its
      own rows. */
  lemma ConsistentIsUnreferencedAbove(t: Tables, p: Parent, hi: int)
    requires RefIntegrity(t)
    ensures Unreferenced(t, p, RowCount(t, p), hi)
  {
  }

  // ---------------------------------------------------------------------
  // Fresh parents: every SubFactory field of the row a create writes names
  // the parent that same create has just inserted, never an earlier row.
  // ---------------------------------------------------------------------

  /** The keys of the row a create of `f` writes itself, as ids: each
      SubFactory field names the row its own nested create inserted (after
      the parents of the SubFactories declared before it), and an
      overridden `conversation` names what the override says. Factories
      without a SubFactory write no key. */
  ghost predicate FreshParents(s: State, f: Factory)
  {
    var u := Create(s, f).db;
    match f
    case ContactSourceFactory =>
      && |u.contactSources| > |s.db.contactSources|
      && u.contactSources[|s.db.contactSources|].integrationId == Some(|s.db.integrations| + 1)
    case ContactFactory =>
      && |u.contacts| > |s.db.contacts|
      && u.contacts[|s.db.contacts|].sourceId == Some(|s.db.contactSources| + 1)
      && u.contacts[|s.db.contacts|].segmentId == Some(|s.db.segments| + 1)
    case MessengerFactory =>
      && |u.messengers| > |s.db.messengers|
      && u.messengers[|s.db.messengers|].integrationId == Some(|s.db.integrations| + 1)
    case ConversationFactory =>
      && |u.conversations| > |s.db.conversations|
      && u.conversations[|s.db.conversations|].contactId == Some(|s.db.contacts| + 1)
      && u.conversations[|s.db.conversations|].messengerId == Some(|s.db.messengers| + 1)
      && u.conversations[|s.db.conversations|].scriptId == Some(|s.db.botScripts| + 1)
    case MessageFactory(c) =>
      && |u.messages| > |s.db.messages|
      && u.messages[|s.db.messages|].conversationId
         == (if c.Some? then c else Some(|s.db.conversations| + 1))
    case TaskFactory =>
      && |u.tasks| > |s.db.tasks|
      && u.tasks[|s.db.tasks|].contactId == Some(|s.db.contacts| + 1)
      && u.tasks[|s.db.tasks|].userId == Some(|s.db.users| + 1)
      && u.tasks[|s.db.tasks|].crmId == Some(|s.db.integrations| + 2)
    case _ => true
  }

  /** The source points at the "CRM" integration its SubFactory inserted. */
  lemma ContactSourceFreshParents(s: State)
    ensures FreshParents(s, ContactSourceFactory)
  {
    ContactSourceUnfolds(s);
  }

  /** The messenger points at the "Messenger" integration its SubFactory
      inserted. */
  lemma MessengerFreshParents(s: State)
    ensures FreshParents(s, MessengerFactory)
  {
    MessengerUnfolds(s);
  }

  /** The contact points at the source and the segment its SubFactories
      inserted. */
  lemma ContactFreshParents(s: State)
    ensures FreshParents(s, ContactFactory)
  {
    ContactUnfolds(s);
    ContactSourceCost(s);
  }

  /** The conversation points at the contact, messenger and bot script its
      SubFactories inserted. */
  lemma ConversationFreshParents(s: State)
    ensures FreshParents(s, ConversationFactory)
  {
    var a := NewContact(s);
    var b := NewMessenger(a);
    ContactCost(s);
    MessengerCost(a);
    ConversationUnfolds(s);
  }

  /** The message points at the overriding conversation, or else at the one
      its SubFactory inserted. */
  lemma MessageFreshParents(s: State, conversation: Option<int>)
    ensures FreshParents(s, MessageFactory(conversation))
  {
    MessageUnfolds(s, conversation);
    if conversation.None? {
      ConversationCost(s);
    }
  }

  /** The task points at the contact, the "manager" user and the "CRM"
      integration its SubFactories inserted; the contact chain's own
      integration comes first. */
  lemma TaskFreshParents(s: State)
    ensures FreshParents(s, TaskFactory)
  {
    ContactCost(s);
    TaskUnfolds(s);
  }

  /** Every create points only at the parents it inserted itself, or at
      what its `conversation` override names. */
  lemma CreateFreshParents(s: State, f: Factory)
    ensures FreshParents(s, f)
  {
    match f
    case ContactSourceFactory => ContactSourceFreshParents(s);
    case ContactFactory => ContactFreshParents(s);
    case MessengerFactory => MessengerFreshParents(s);
    case ConversationFactory => ConversationFreshParents(s);
    case MessageFactory(c) => MessageFreshParents(s, c);
    case TaskFactory => TaskFreshParents(s);
    case _ =>
  }

  // A create leaves rows (lo, hi] of table p unreferenced when they existed
  // before it (its SubFactories point only at rows they insert), or when it
  // writes no key into p at all; the one exception is an overridden
  // `conversation`, which points where it is told. First the rows the
  // factories append, then the chains, parents first.

  /** Appending one row keeps a column clear of (lo, hi] exactly when the
      new row's key is outside it. */
  lemma KeysAvoidAppend<R>(rows: seq<R>, r: R, fk: R -> Option<int>, lo: int, hi: int)
    ensures KeysAvoid(rows + [r], fk, lo, hi) <==> KeysAvoid(rows, fk, lo, hi) && Outside(fk(r), lo, hi)
  {
    if KeysAvoid(rows + [r], fk, lo, hi) {
      assert (rows + [r])[|rows|] == r;
      forall i | 0 <= i < |rows|
        ensures Outside(fk(rows[i]), lo, hi)
      {
        assert (rows + [r])[i] == rows[i];
      }
    }
    if KeysAvoid(rows, fk, lo, hi) && Outside(fk(r), lo, hi) {
      forall i | 0 <= i < |rows + [r]|
        ensures Outside(fk((rows + [r])[i]), lo, hi)
      {
        if i < |rows| {
          assert (rows + [r])[i] == rows[i];
        }
      }
    }
  }

  /** The source row writes one key, `|integrations|`: rows (lo, hi] of a
      table stay unreferenced exactly when they were, and that key is not
      among them. */
  lemma AppendContactSourceKeepsUnreferenced(q: State, p: Parent, lo: int, hi: int)
    ensures Unreferenced(AppendContactSource(q).db, p, lo, hi) <==>
      && Unreferenced(q.db, p, lo, hi)
      && (p == Integrations ==> Outside(Some(|q.db.integrations|), lo, hi))
  {
    var t := AppendContactSource(q).db;
    var r := t.contactSources[|q.db.contactSources|];
    assert t.contactSources == q.db.contactSources + [r];
    KeysAvoidAppend(q.db.contactSources, r, SourceIntegrationId, lo, hi);
  }

  /** The contact row writes two keys, `|contactSources|` and `|segments|`. */
  lemma AppendContactKeepsUnreferenced(q: State, p: Parent, lo: int, hi: int)
    ensures Unreferenced(AppendContact(q).db, p, lo, hi) <==>
      && Unreferenced(q.db, p, lo, hi)
      && (p == ContactSources ==> Outside(Some(|q.db.contactSources|), lo, hi))
      && (p == Segments ==> Outside(Some(|q.db.segments|), lo, hi))
  {
    var t := AppendContact(q).db;
    var r := t.contacts[|q.db.contacts|];
    assert t.contacts == q.db.contacts + [r];
    KeysAvoidAppend(q.db.contacts, r, ContactSourceId, lo, hi);
    KeysAvoidAppend(q.db.contacts, r, ContactSegmentId, lo, hi);
  }

  /** The messenger row writes one key, `|integrations|`. */
  lemma AppendMessengerKeepsUnreferenced(q: State, p: Parent, lo: int, hi: int)
    ensures Unreferenced(AppendMessenger(q).db, p, lo, hi) <==>
      && Unreferenced(q.db, p, lo, hi)
      && (p == Integrations ==> Outside(Some(|q.db.integrations|), lo, hi))
  {
    var t := AppendMessenger(q).db;
    var r := t.messengers[|q.db.messengers|];
    assert t.messengers == q.db.messengers + [r];
    KeysAvoidAppend(q.db.messengers, r, MessengerIntegrationId, lo, hi);
  }

  /** The conversation row writes three keys, `|contacts|`, `|messengers|`
      and `|botScripts|`. */
  lemma AppendConversationKeepsUnreferenced(q: State, p: Parent, lo: int, hi: int)
    ensures Unreferenced(AppendConversation(q).db, p, lo, hi) <==>
      && Unreferenced(q.db, p, lo, hi)
      && (p == Contacts ==> Outside(Some(|q.db.contacts|), lo, hi))
      && (p == Messengers ==> Outside(Some(|q.db.messengers|), lo, hi))
      && (p == BotScripts ==> Outside(Some(|q.db.botScripts|), lo, hi))
  {
    var t := AppendConversation(q).db;
    var r := t.conversations[|q.db.conversations|];
    assert t.conversations == q.db.conversations + [r];
    KeysAvoidAppend(q.db.conversations, r, ConversationContactId, lo, hi);
    KeysAvoidAppend(q.db.conversations, r, ConversationMessengerId, lo, hi);
    KeysAvoidAppend(q.db.conversations, r, ConversationScriptId, lo, hi);
  }

  /** The message row writes one key, the conversation it is given. */
  lemma AppendMessageKeepsUnreferenced(q: State, parent: int, p: Parent, lo: int, hi: int)
    ensures Unreferenced(AppendMessage(q, parent).db, p, lo, hi) <==>
      && Unreferenced(q.db, p, lo, hi)
      && (p == Conversations ==> Outside(Some(parent), lo, hi))
  {
    var t := AppendMessage(q, parent).db;
    var r := t.messages[|q.db.messages|];
    assert t.messages == q.db.messages + [r];
    KeysAvoidAppend(q.db.messages, r, MessageConversationId, lo, hi);
  }

  /** The task row writes three keys, `|contacts|`, `|users|` and
      `|integrations|`. */
  lemma AppendTaskKeepsUnreferenced(q: State, p: Parent, lo: int, hi: int)
    ensures Unreferenced(AppendTask(q).db, p, lo, hi) <==>
      && Unreferenced(q.db, p, lo, hi)
      && (p == Contacts ==> Outside(Some(|q.db.contacts|), lo, hi))
      && (p == Users ==> Outside(Some(|q.db.users|), lo, hi))
      && (p == Integrations ==> Outside(Some(|q.db.integrations|), lo, hi))
  {
    var t := AppendTask(q).db;
    var r := t.tasks[|q.db.tasks|];
    assert t.tasks == q.db.tasks + [r];
    KeysAvoidAppend(q.db.tasks, r, TaskContactId, lo, hi);
    KeysAvoidAppend(q.db.tasks, r, TaskUserId, lo, hi);
    KeysAvoidAppend(q.db.tasks, r, TaskCrmId, lo, hi);
  }

  lemma UserKeepsUnreferenced(s: State, role: Option<string>, p: Parent, lo: int, hi: int)
    requires Unreferenced(s.db, p, lo, hi)
    ensures Unreferenced(NewUser(s, role).db, p, lo, hi)
  {
  }

  lemma IntegrationKeepsUnreferenced(s: State, kind: Option<string>, p: Parent, lo: int, hi: int)
    requires Unreferenced(s.db, p, lo, hi)
    ensures Unreferenced(NewIntegration(s, kind).db, p, lo, hi)
  {
  }

  lemma SegmentKeepsUnreferenced(s: State, p: Parent, lo: int, hi: int)
    requires Unreferenced(s.db, p, lo, hi)
    ensures Unreferenced(NewSegment(s).db, p, lo, hi)
  {
  }

  lemma BotScriptKeepsUnreferenced(s: State, p: Parent, lo: int, hi: int)
    requires Unreferenced(s.db, p, lo, hi)
    ensures Unreferenced(NewBotScript(s).db, p, lo, hi)
  {
  }

  lemma ContactSourceKeepsUnreferenced(s: State, p: Parent, lo: int, hi: int)
    requires Unreferenced(s.db, p, lo, hi)
    requires Touches(ContactSourceFactory, p) ==> hi <= RowCount(s.db, p)
    ensures Unreferenced(NewContactSource(s).db, p, lo, hi)
    ensures FreshParents(s, ContactSourceFactory)
  {
    ContactSourceFreshParents(s);
    var q := NewIntegration(s, Some("CRM"));
    IntegrationKeepsUnreferenced(s, Some("CRM"), p, lo, hi);
    IntegrationCost(s, Some("CRM"));
    AppendContactSourceKeepsUnreferenced(q, p, lo, hi);
    ContactSourceUnfolds(s);
  }

  lemma MessengerKeepsUnreferenced(s: State, p: Parent, lo: int, hi: int)
    requires Unreferenced(s.db, p, lo, hi)
    requires Touches(MessengerFactory, p) ==> hi <= RowCount(s.db, p)
    ensures Unreferenced(NewMessenger(s).db, p, lo, hi)
    ensures FreshParents(s, MessengerFactory)
  {
    MessengerFreshParents(s);
    var q := NewIntegration(s, Some("Messenger"));
    IntegrationKeepsUnreferenced(s, Some("Messenger"), p, lo, hi);
    IntegrationCost(s, Some("Messenger"));
    AppendMessengerKeepsUnreferenced(q, p, lo, hi);
    MessengerUnfolds(s);
  }

  lemma ContactKeepsUnreferenced(s: State, p: Parent, lo: int, hi: int)
    requires Unreferenced(s.db, p, lo, hi)
    requires Touches(ContactFactory, p) ==> hi <= RowCount(s.db, p)
    ensures Unreferenced(NewContact(s).db, p, lo, hi)
    ensures FreshParents(s, ContactFactory)
  {
    ContactFreshParents(s);
    var a := NewContactSource(s);
    var q := NewSegment(a);
    ContactSourceKeepsUnreferenced(s, p, lo, hi);
    ContactSourceCost(s);
    SegmentKeepsUnreferenced(a, p, lo, hi);
    SegmentCost(a);
    AppendContactKeepsUnreferenced(q, p, lo, hi);
    ContactUnfolds(s);
  }

  lemma ConversationKeepsUnreferenced(s: State, p: Parent, lo: int, hi: int)
    requires Unreferenced(s.db, p, lo, hi)
    requires Touches(ConversationFactory, p) ==> hi <= RowCount(s.db, p)
    ensures Unreferenced(NewConversation(s).db, p, lo, hi)
    ensures FreshParents(s, ConversationFactory)
  {
    ConversationFreshParents(s);
    var a := NewContact(s);
    var b := NewMessenger(a);
    var q := NewBotScript(b);
    ContactGrows(s);
    MessengerGrows(a);
    ContactMessengerKeepUnreferenced(s, p, lo, hi);
    BotScriptKeepsUnreferenced(b, p, lo, hi);
    AppendConversationKeepsUnreferenced(q, p, lo, hi);
    ConversationUnfolds(s);
  }

  /** The contact and messenger chains of a conversation point only at rows
      they insert themselves. */
  lemma ContactMessengerKeepUnreferenced(s: State, p: Parent, lo: int, hi: int)
    requires Unreferenced(s.db, p, lo, hi)
    requires Touches(ConversationFactory, p) ==> hi <= RowCount(s.db, p)
    ensures Unreferenced(NewMessenger(NewContact(s)).db, p, lo, hi)
  {
    var a := NewContact(s);
    ContactGrows(s);
    ContactKeepsUnreferenced(s, p, lo, hi);
    MessengerKeepsUnreferenced(a, p, lo, hi);
  }

  /** A contact create appends exactly one contact, no messenger or bot
      script, and removes no integration. */
  lemma ContactGrows(s: State)
    ensures |NewContact(s).db.integrations| >= |s.db.integrations|
    ensures |NewContact(s).db.contacts| == |s.db.contacts| + 1
    ensures |NewContact(s).db.messengers| == |s.db.messengers|
    ensures |NewContact(s).db.botScripts| == |s.db.botScripts|
  {
    ContactCost(s);
  }

  /** A messenger create appends exactly one messenger and no contact or
      bot script. */
  lemma MessengerGrows(s: State)
    ensures |NewMessenger(s).db.messengers| == |s.db.messengers| + 1
    ensures |NewMessenger(s).db.contacts| == |s.db.contacts|
    ensures |NewMessenger(s).db.botScripts| == |s.db.botScripts|
  {
    MessengerCost(s);
  }

  lemma MessageKeepsUnreferenced(s: State, conversation: Option<int>, p: Parent, lo: int, hi: int)
    requires Unreferenced(s.db, p, lo, hi)
    requires Touches(MessageFactory(conversation), p) ==> hi <= RowCount(s.db, p)
    requires p == Conversations ==> Outside(conversation, lo, hi)
    ensures Unreferenced(NewMessage(s, conversation).db, p, lo, hi)
    ensures FreshParents(s, MessageFactory(conversation))
  {
    MessageFreshParents(s, conversation);
    if conversation.Some? {
      AppendMessageKeepsUnreferenced(s, conversation.value, p, lo, hi);
      MessageUnfolds(s, conversation);
    } else {
      FreshMessageKeepsUnreferenced(s, p, lo, hi);
    }
  }

  /** Without an override, the message points at the conversation its
      SubFactory has just inserted. */
  lemma FreshMessageKeepsUnreferenced(s: State, p: Parent, lo: int, hi: int)
    requires Unreferenced(s.db, p, lo, hi)
    requires Touches(MessageFactory(None), p) ==> hi <= RowCount(s.db, p)
    ensures Unreferenced(NewMessage(s, None).db, p, lo, hi)
    ensures FreshParents(s, MessageFactory(None))
  {
    MessageFreshParents(s, None);
    var q := NewConversation(s);
    MessageUnfolds(s, None);
    assert |q.db.conversations| == |s.db.conversations| + 1 by {
      ConversationCost(s);
    }
    ConversationKeepsUnreferenced(s, p, lo, hi);
    AppendMessageKeepsUnreferenced(q, |q.db.conversations|, p, lo, hi);
  }

  lemma TaskKeepsUnreferenced(s: State, p: Parent, lo: int, hi: int)
    requires Unreferenced(s.db, p, lo, hi)
    requires Touches(TaskFactory, p) ==> hi <= RowCount(s.db, p)
    ensures Unreferenced(NewTask(s).db, p, lo, hi)
    ensures FreshParents(s, TaskFactory)
  {
    TaskFreshParents(s);
    var a := NewContact(s);
    var b := NewUser(a, Some("manager"));
    var q := NewIntegration(b, Some("CRM"));
    ContactKeepsUnreferenced(s, p, lo, hi);
    ContactCost(s);
    UserKeepsUnreferenced(a, Some("manager"), p, lo, hi);
    UserCost(a, Some("manager"));
    IntegrationKeepsUnreferenced(b, Some("CRM"), p, lo, hi);
    IntegrationCost(b, Some("CRM"));
    AppendTaskKeepsUnreferenced(q, p, lo, hi);
    TaskUnfolds(s);
  }

  /** A create never points at rows (lo, hi] of table p that existed
      before it, unless its `conversation` override says so: the row it
      writes names the parents it has just inserted. */
  lemma CreateKeepsUnreferenced(s: State, f: Factory, p: Parent, lo: int, hi: int)
    requires Unreferenced(s.db, p, lo, hi)
    requires Touches(f, p) ==> hi <= RowCount(s.db, p)
    requires f.MessageFactory? && p == Conversations ==> Outside(f.conversation, lo, hi)
    ensures Unreferenced(Create(s, f).db, p, lo, hi)
    ensures FreshParents(s, f)
  {
    CreateFreshParents(s, f);
    SimpleCreateKeepsUnreferenced(s, f, p, lo, hi);
    CompositeCreateKeepsUnreferenced(s, f, p, lo, hi);
  }

  lemma SimpleCreateKeepsUnreferenced(s: State, f: Factory, p: Parent, lo: int, hi: int)
    requires Unreferenced(s.db, p, lo, hi)
    requires Touches(f, p) ==> hi <= RowCount(s.db, p)
    requires f.MessageFactory? && p == Conversations ==> Outside(f.conversation, lo, hi)
    ensures Simple(f) ==> Unreferenced(Create(s, f).db, p, lo, hi)
  {
    match f
    case UserFactory(role) => UserKeepsUnreferenced(s, role, p, lo, hi);
    case IntegrationFactory(kind) => IntegrationKeepsUnreferenced(s, kind, p, lo, hi);
    case SegmentFactory => SegmentKeepsUnreferenced(s, p, lo, hi);
    case ContactSourceFactory => ContactSourceKeepsUnreferenced(s, p, lo, hi);
    case BotScriptFactory => BotScriptKeepsUnreferenced(s, p, lo, hi);
    case MessengerFactory => MessengerKeepsUnreferenced(s, p, lo, hi);
    case _ =>
  }

  lemma CompositeCreateKeepsUnreferenced(s: State, f: Factory, p: Parent, lo: int, hi: int)
    requires Unreferenced(s.db, p, lo, hi)
    requires Touches(f, p) ==> hi <= RowCount(s.db, p)
    requires f.MessageFactory? && p == Conversations ==> Outside(f.conversation, lo, hi)
    ensures !Simple(f) ==> Unreferenced(Create(s, f).db, p, lo, hi)
  {
    match f
    case ContactFactory => ContactKeepsUnreferenced(s, p, lo, hi);
    case ConversationFactory => ConversationKeepsUnreferenced(s, p, lo, hi);
    case MessageFactory(c) => MessageKeepsUnreferenced(s, c, p, lo, hi);
    case TaskFactory => TaskKeepsUnreferenced(s, p, lo, hi);
    case _ =>
  }


  /** Each create of a batch points only at the parents it inserted itself,
      or at what the `conversation` override names. */
  lemma BatchFreshParents(s: State, n: nat, f: Factory)
    ensures forall j :: 0 <= j < n ==> FreshParents(CreateBatch(s, j, f), f)
  {
    forall j | 0 <= j < n
      ensures FreshParents(CreateBatch(s, j, f), f)
    {
      CreateFreshParents(CreateBatch(s, j, f), f);
    }
  }

  /** A batch never points at rows (lo, hi] of table p that existed before
      it, unless its `conversation` override says so: each of its creates
      names the parents it has just inserted. */
  lemma BatchKeepsUnreferenced(s: State, n: nat, f: Factory, p: Parent, lo: int, hi: int)
    requires Unreferenced(s.db, p, lo, hi)
    requires Touches(f, p) ==> hi <= RowCount(s.db, p)
    requires f.MessageFactory? && p == Conversations ==> Outside(f.conversation, lo, hi)
    ensures Unreferenced(CreateBatch(s, n, f).db, p, lo, hi)
    ensures forall j :: 0 <= j < n ==> FreshParents(CreateBatch(s, j, f), f)
  {
    BatchStaysUnreferenced(s, n, f, p, lo, hi);
    BatchFreshParents(s, n, f);
  }

  /** The induction behind BatchKeepsUnreferenced. */
  lemma {:induction false} BatchStaysUnreferenced(s: State, n: nat, f: Factory, p: Parent, lo: int, hi: int)
    requires Unreferenced(s.db, p, lo, hi)
    requires Touches(f, p) ==> hi <= RowCount(s.db, p)
    requires f.MessageFactory? && p == Conversations ==> Outside(f.conversation, lo, hi)
    ensures Unreferenced(CreateBatch(s, n, f).db, p, lo, hi)
  {
    if n > 0 {
      var q := CreateBatch(s, n - 1, f);
      BatchStaysUnreferenced(s, n - 1, f, p, lo, hi);
      BatchExtends(s, n - 1, f);
      ExtendsGrows(s.db, q.db, p);
      assert Touches(f, p) ==> hi <= RowCount(q.db, p);
      CreateKeepsUnreferenced(q, f, p, lo, hi);
      assert CreateBatch(s, n, f) == Create(q, f);
    }
  }
}
