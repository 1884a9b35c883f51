/** `populate_database` of populate_db.py: the fixed sequence of batches,
    with the loop that gives each new conversation its messages, and what
    the filled database then satisfies. */
module Populate {
  import opened Models
  import opened Factories
  import opened FactoryProperties
  import opened IteratorProperties

  // ---------------------------------------------------------------------
  // The message loop.
  // ---------------------------------------------------------------------

  /** `for conversation in conversations:
         MessageFactory.create_batch(n, conversation=conversation)`,
      over the conversation ids in list order. */
  function AttachMessages(s: State, ids: seq<int>, n: nat): State
    decreases |ids|
  {
    if ids == [] then s
    else AttachMessages(CreateBatch(s, n, MessageFactory(Some(ids[0]))), ids[1..], n)
  }

  /** The loop inserts n messages per conversation and no other row. */
  lemma {:induction false} AttachCost(s: State, ids: seq<int>, n: nat)
    ensures Sizes(AttachMessages(s, ids, n).db)
         == Plus(Sizes(s.db), Times(|ids|, Counts(0, 0, 0, 0, 0, 0, 0, 0, n, 0)))
    decreases |ids|
  {
    if ids != [] {
      var f := MessageFactory(Some(ids[0]));
      var d := Counts(0, 0, 0, 0, 0, 0, 0, 0, n, 0);
      BatchCost(s, n, f);
      AttachCost(CreateBatch(s, n, f), ids[1..], n);
      TimesStep(|ids|, d);
      PlusAssociates(Sizes(s.db), d, Times(|ids| - 1, d));
    }
  }

  /** The loop changes no earlier row. */
  lemma {:induction false} AttachExtends(s: State, ids: seq<int>, n: nat)
    ensures Extends(s.db, AttachMessages(s, ids, n).db)
    decreases |ids|
  {
    if ids != [] {
      var f := MessageFactory(Some(ids[0]));
      BatchExtends(s, n, f);
      AttachExtends(CreateBatch(s, n, f), ids[1..], n);
    }
  }

  /** The loop draws n senders per conversation and moves no other cursor. */
  lemma {:induction false} AttachTicks(s: State, ids: seq<int>, n: nat)
    ensures AttachMessages(s, ids, n).cur == Advanced(s.cur, Repeated(|ids|, Cursors(0, 0, 0, 0, 0, 0, n, 0)))
    decreases |ids|
  {
    if ids != [] {
      var f := MessageFactory(Some(ids[0]));
      var d := Cursors(0, 0, 0, 0, 0, 0, n, 0);
      BatchTicks(s, n, f);
      AttachTicks(CreateBatch(s, n, f), ids[1..], n);
      RepeatedStep(|ids|, d);
      AdvancedAssociates(s.cur, d, Repeated(|ids| - 1, d));
    }
  }

  /** The loop keeps the invariant when every id names an existing
      conversation. */
  lemma {:induction false} AttachKeepsGenerated(s: State, ids: seq<int>, n: nat)
    requires Generated(s.db)
    requires forall i :: 0 <= i < |ids| ==> 1 <= ids[i] <= |s.db.conversations|
    ensures Generated(AttachMessages(s, ids, n).db)
    decreases |ids|
  {
    if ids != [] {
      var f := MessageFactory(Some(ids[0]));
      var q := CreateBatch(s, n, f);
      BatchKeepsGenerated(s, n, f);
      BatchCost(s, n, f);
      AttachKeepsGenerated(q, ids[1..], n);
    }
  }

  /** The loop writes keys into the conversations table only. */
  lemma {:induction false} AttachKeepsUnreferenced(s: State, ids: seq<int>, n: nat, p: Parent, lo: int, hi: int)
    requires p != Conversations && Unreferenced(s.db, p, lo, hi)
    ensures Unreferenced(AttachMessages(s, ids, n).db, p, lo, hi)
    decreases |ids|
  {
    if ids != [] {
      var f := MessageFactory(Some(ids[0]));
      BatchKeepsUnreferenced(s, n, f, p, lo, hi);
      AttachKeepsUnreferenced(CreateBatch(s, n, f), ids[1..], n, p, lo, hi);
    }
  }

  // ---------------------------------------------------------------------
  // Each conversation's messages.
  // ---------------------------------------------------------------------

  function MessageSender(m: Message): string { m.sender }

  /** Consecutive messages come from different senders of the sender list. */
  ghost predicate Alternating(ms: seq<Message>)
  {
    && (forall i :: 0 <= i < |ms| ==> ms[i].sender in Senders)
    && (forall i :: 0 < i < |ms| ==> ms[i].sender != ms[i - 1].sender)
  }

  /** An alternating exchange of even length has as many "bot" as "client"
      messages. */
  lemma {:induction false} AlternatingHalves(ms: seq<Message>, k: nat)
    requires Alternating(ms) && |ms| == 2 * k
    ensures |Matching(ms, MessageSender, "bot")| == k
    ensures |Matching(ms, MessageSender, "client")| == k
  {
    if k > 0 {
      var pair := ms[..|ms| - 2];
      AlternatingPrefix(ms, |ms| - 2);
      AlternatingHalves(pair, k - 1);
      LastPair(ms);
    }
  }

  /** A prefix of an alternating exchange alternates. */
  lemma AlternatingPrefix(ms: seq<Message>, j: nat)
    requires Alternating(ms) && j <= |ms|
    ensures Alternating(ms[..j])
  {
    var pre := ms[..j];
    forall i | 0 <= i < |pre|
      ensures pre[i].sender in Senders
    {
      assert pre[i] == ms[i];
    }
    forall i | 0 < i < |pre|
      ensures pre[i].sender != pre[i - 1].sender
    {
      assert pre[i] == ms[i] && pre[i - 1] == ms[i - 1];
    }
  }

  /** The last two messages of an alternating exchange are one "bot" and
      one "client" message. */
  lemma LastPair(ms: seq<Message>)
    requires Alternating(ms) && |ms| >= 2
    ensures |Matching(ms, MessageSender, "bot")| == |Matching(ms[..|ms| - 2], MessageSender, "bot")| + 1
    ensures |Matching(ms, MessageSender, "client")| == |Matching(ms[..|ms| - 2], MessageSender, "client")| + 1
  {
    assert ms[|ms| - 1].sender != ms[|ms| - 2].sender;
    assert ms[|ms| - 1].sender in Senders && ms[|ms| - 2].sender in Senders;
    MatchingDropTwo(ms, "bot");
    MatchingDropTwo(ms, "client");
  }

  /** The last two messages each add one to the count of their sender. */
  lemma MatchingDropTwo(ms: seq<Message>, sender: string)
    requires |ms| >= 2
    ensures |Matching(ms, MessageSender, sender)|
         == |Matching(ms[..|ms| - 2], MessageSender, sender)|
            + (if ms[|ms| - 2].sender == sender then 1 else 0)
            + (if ms[|ms| - 1].sender == sender then 1 else 0)
  {
    var front := ms[..|ms| - 1];
    assert front[..|front| - 1] == ms[..|ms| - 2];
    assert front[|front| - 1] == ms[|ms| - 2];
  }

  /** The messages of one conversation, as the loop leaves them: n of
      them, alternating senders, `is_ai_generated` set for the bot's. */
  ghost predicate Exchange(ms: seq<Message>, n: nat)
  {
    && |ms| == n && Alternating(ms)
    && forall i :: 0 <= i < |ms| ==> (ms[i].isAiGenerated <==> ms[i].sender == "bot")
  }

  /** Every message of `ms` belongs to the conversation with id `id`. */
  ghost predicate AllIn(ms: seq<Message>, id: int)
  {
    forall i :: 0 <= i < |ms| ==> ms[i].conversationId == Some(id)
  }

  /** Every message of `ms` belongs to a conversation whose id is in `ids`. */
  ghost predicate AllAmong(ms: seq<Message>, ids: seq<int>)
  {
    forall i :: 0 <= i < |ms| ==> ms[i].conversationId.Some? && ms[i].conversationId.value in ids
  }

  /** One batch with a `conversation` override appends an exchange of n
      messages, all in that conversation. */
  lemma MessageBatchExchange(s: State, n: nat, id: int)
    ensures var r := CreateBatch(s, n, MessageFactory(Some(id)));
      && |r.db.messages| == |s.db.messages| + n
      && r.db.messages == s.db.messages + r.db.messages[|s.db.messages|..]
      && Exchange(r.db.messages[|s.db.messages|..], n)
      && AllIn(r.db.messages[|s.db.messages|..], id)
  {
    var r := CreateBatch(s, n, MessageFactory(Some(id)));
    BatchSenders(s, n, id);
    var b := r.db.messages[|s.db.messages|..];
    assert r.db.messages == s.db.messages + b;
    forall i | 0 <= i < |b|
      ensures b[i].sender == Cycle(Senders, s.cur.messageSender + i)
      ensures b[i].isAiGenerated <==> b[i].sender == "bot"
      ensures b[i].conversationId == Some(id)
    {
      assert b[i] == r.db.messages[|s.db.messages| + i];
    }
    forall i | 0 < i < |b|
      ensures b[i].sender != b[i - 1].sender
    {
      assert (s.cur.messageSender + i) % 2 != (s.cur.messageSender + i - 1) % 2;
    }
  }

  /** Appending messages of conversation h leaves the messages of every
      other conversation as they were. */
  lemma OthersUnchanged(prior: seq<Message>, b: seq<Message>, h: int, id: int)
    requires AllIn(b, h) && id != h
    ensures Matching(prior + b, MessageConversationId, Some(id)) == Matching(prior, MessageConversationId, Some(id))
  {
    MatchingConcat(prior, b, MessageConversationId, Some(id));
    MatchingNone(b, MessageConversationId, Some(id));
  }

  /** Conversation h, which had no messages, has exactly batch b once
      messages of other conversations follow it. */
  lemma OwnBatch(prior: seq<Message>, b: seq<Message>, c: seq<Message>, h: int, rest: seq<int>)
    requires Matching(prior, MessageConversationId, Some(h)) == []
    requires AllIn(b, h) && AllAmong(c, rest) && h !in rest
    ensures Matching(prior + b + c, MessageConversationId, Some(h)) == b
  {
    var pb := prior + b;
    MatchingConcat(prior, b, MessageConversationId, Some(h));
    MatchingAll(b, MessageConversationId, Some(h));
    assert Matching(pb, MessageConversationId, Some(h)) == b;
    MatchingConcat(pb, c, MessageConversationId, Some(h));
    NoneAmongOthers(c, h, rest);
    assert pb + c == prior + b + c;
  }

  /** Messages of the conversations `rest` are none of conversation h's. */
  lemma NoneAmongOthers(c: seq<Message>, h: int, rest: seq<int>)
    requires AllAmong(c, rest) && h !in rest
    ensures Matching(c, MessageConversationId, Some(h)) == []
  {
    forall i | 0 <= i < |c|
      ensures MessageConversationId(c[i]) != Some(h)
    {
      assert c[i].conversationId.value in rest;
    }
    MatchingNone(c, MessageConversationId, Some(h));
  }

  /** Conversation ids in strictly increasing order. */
  ghost predicate Increasing(ids: seq<int>)
  {
    forall i, j :: 0 <= i < j < |ids| ==> ids[i] < ids[j]
  }

  lemma IncreasingTail(ids: seq<int>)
    requires Increasing(ids) && ids != []
    ensures ids == [ids[0]] + ids[1..]
    ensures Increasing(ids[1..]) && ids[0] !in ids[1..]
  {
    forall i | 0 <= i < |ids| - 1
      ensures ids[1..][i] == ids[i + 1] && ids[0] < ids[1..][i]
    {
    }
  }

  /** A batch for conversation h leaves the other conversations of the loop
      without messages. */
  lemma OthersStillEmpty(sm: seq<Message>, qm: seq<Message>, h: int, rest: seq<int>)
    requires |qm| >= |sm| && qm == sm + qm[|sm|..] && AllIn(qm[|sm|..], h)
    requires h !in rest
    requires forall i :: 0 <= i < |rest| ==> Matching(sm, MessageConversationId, Some(rest[i])) == []
    ensures forall i :: 0 <= i < |rest| ==> Matching(qm, MessageConversationId, Some(rest[i])) == []
  {
    forall i | 0 <= i < |rest|
      ensures Matching(qm, MessageConversationId, Some(rest[i])) == []
    {
      OthersUnchanged(sm, qm[|sm|..], h, rest[i]);
    }
  }

  /** One turn of the loop: batch b for conversation h, then the messages c
      of the later turns, which belong to the conversations `rest`. */
  lemma ExchangeStep(sm: seq<Message>, qm: seq<Message>, rm: seq<Message>, h: int, rest: seq<int>, n: nat)
    requires |qm| == |sm| + n && qm == sm + qm[|sm|..]
    requires Exchange(qm[|sm|..], n) && AllIn(qm[|sm|..], h)
    requires |rm| >= |qm| && rm == qm + rm[|qm|..] && AllAmong(rm[|qm|..], rest)
    requires h !in rest && Matching(sm, MessageConversationId, Some(h)) == []
    requires forall i :: 0 <= i < |rest| ==> Exchange(Matching(rm, MessageConversationId, Some(rest[i])), n)
    ensures |rm| >= |sm| && rm == sm + rm[|sm|..]
    ensures AllAmong(rm[|sm|..], [h] + rest)
    ensures forall i :: 0 <= i < |[h] + rest| ==>
              Exchange(Matching(rm, MessageConversationId, Some(([h] + rest)[i])), n)
  {
    var b := qm[|sm|..];
    var c := rm[|qm|..];
    SplitThree(sm, qm, rm);
    OwnBatch(sm, b, c, h, rest);
    AmongStep(b, c, h, rest);
    ExchangesCons(rm, h, rest, n);
  }

  /** The messages after the loop's first turn are its batch, then the
      later turns'. */
  lemma SplitThree(sm: seq<Message>, qm: seq<Message>, rm: seq<Message>)
    requires |qm| >= |sm| && qm == sm + qm[|sm|..]
    requires |rm| >= |qm| && rm == qm + rm[|qm|..]
    ensures rm == sm + qm[|sm|..] + rm[|qm|..]
    ensures rm[|sm|..] == qm[|sm|..] + rm[|qm|..]
  {
  }

  lemma AmongStep(b: seq<Message>, c: seq<Message>, h: int, rest: seq<int>)
    requires AllIn(b, h) && AllAmong(c, rest)
    ensures AllAmong(b + c, [h] + rest)
  {
    forall i | 0 <= i < |b + c|
      ensures (b + c)[i].conversationId.Some? && (b + c)[i].conversationId.value in [h] + rest
    {
      if i < |b| {
        assert (b + c)[i] == b[i];
      } else {
        assert (b + c)[i] == c[i - |b|];
      }
    }
  }

  lemma ExchangesCons(rm: seq<Message>, h: int, rest: seq<int>, n: nat)
    requires Exchange(Matching(rm, MessageConversationId, Some(h)), n)
    requires forall i :: 0 <= i < |rest| ==> Exchange(Matching(rm, MessageConversationId, Some(rest[i])), n)
    ensures forall i :: 0 <= i < |[h] + rest| ==>
              Exchange(Matching(rm, MessageConversationId, Some(([h] + rest)[i])), n)
  {
    forall i | 0 <= i < |[h] + rest|
      ensures Exchange(Matching(rm, MessageConversationId, Some(([h] + rest)[i])), n)
    {
      if i > 0 {
        assert ([h] + rest)[i] == rest[i - 1];
      }
    }
  }

  /** The loop over increasing ids none of whose conversations has a
      message yet leaves each of them with an exchange of n messages; every
      message it adds belongs to one of them. */
  lemma {:induction false} AttachExchanges(s: State, ids: seq<int>, n: nat)
    requires Increasing(ids)
    requires forall i :: 0 <= i < |ids| ==> Matching(s.db.messages, MessageConversationId, Some(ids[i])) == []
    ensures var r := AttachMessages(s, ids, n);
      && |r.db.messages| >= |s.db.messages|
      && r.db.messages == s.db.messages + r.db.messages[|s.db.messages|..]
      && AllAmong(r.db.messages[|s.db.messages|..], ids)
      && forall i :: 0 <= i < |ids| ==>
           Exchange(Matching(r.db.messages, MessageConversationId, Some(ids[i])), n)
    decreases |ids|
  {
    if ids != [] {
      var h := ids[0];
      var rest := ids[1..];
      IncreasingTail(ids);
      var q := CreateBatch(s, n, MessageFactory(Some(h)));
      MessageBatchExchange(s, n, h);
      OthersStillEmpty(s.db.messages, q.db.messages, h, rest);
      AttachExchanges(q, rest, n);
      var r := AttachMessages(q, rest, n);
      assert AttachMessages(s, ids, n) == r;
      ExchangeStep(s.db.messages, q.db.messages, r.db.messages, h, rest, n);
    }
  }

  // ---------------------------------------------------------------------
  // populate_database.
  // ---------------------------------------------------------------------

  /** The ids count rows inserted after the first `before`: before + 1,
      ..., before + count. */
  function NewIds(before: nat, count: nat): (r: seq<int>)
    ensures |r| == count
    ensures forall i :: 0 <= i < count ==> r[i] == before + 1 + i
  {
    if count == 0 then [] else NewIds(before, count - 1) + [before + count]
  }

  /** The ids of a list of conversations, in list order. */
  function ConversationIds(rows: seq<Conversation>): (r: seq<int>)
    ensures |r| == |rows|
    ensures forall i :: 0 <= i < |rows| ==> r[i] == rows[i].id
  {
    seq(|rows|, i requires 0 <= i < |rows| => rows[i].id)
  }

  /** The conversations from index lo on carry the ids their positions
      give them. */
  ghost predicate NumberedFrom(rows: seq<Conversation>, lo: nat)
  {
    forall j :: lo <= j < |rows| ==> rows[j].id == j + 1
  }

  /** b is a followed by one conversation with the next id. */
  ghost predicate AppendsOne(a: seq<Conversation>, b: seq<Conversation>)
  {
    |b| == |a| + 1 && b[..|a|] == a && b[|a|].id == |a| + 1
  }

  /** Every create of f appends exactly one conversation, with the next id. */
  ghost predicate AppendsOneConversation(f: Factory)
  {
    forall q: State {:trigger Create(q, f)} :: AppendsOne(q.db.conversations, Create(q, f).db.conversations)
  }

  /** Appending a row with the next id keeps the numbering. */
  lemma NumberedFromAppend(a: seq<Conversation>, b: seq<Conversation>, lo: nat)
    requires NumberedFrom(a, lo) && AppendsOne(a, b)
    ensures NumberedFrom(b, lo)
  {
    forall j | lo <= j < |b|
      ensures b[j].id == j + 1
    {
      if j < |a| {
        assert b[j] == b[..|a|][j];
      }
    }
  }

  /** A batch of a factory that appends one conversation per create numbers
      the conversations it appends by their positions. */
  lemma {:induction false} BatchNumbersConversations(s: State, n: nat, f: Factory)
    requires AppendsOneConversation(f)
    ensures var r := CreateBatch(s, n, f);
      && |r.db.conversations| == |s.db.conversations| + n
      && NumberedFrom(r.db.conversations, |s.db.conversations|)
  {
    if n > 0 {
      var q := CreateBatch(s, n - 1, f);
      BatchNumbersConversations(s, n - 1, f);
      NumberedFromAppend(q.db.conversations, Create(q, f).db.conversations, |s.db.conversations|);
    }
  }

  /** ConversationFactory appends one conversation per create. */
  lemma ConversationFactoryAppendsOne()
    ensures AppendsOneConversation(ConversationFactory)
  {
    forall q: State
      ensures AppendsOne(q.db.conversations, Create(q, ConversationFactory).db.conversations)
    {
      ConversationId(q);
    }
  }

  /** One ConversationFactory create appends one conversation, with the
      next id. */
  lemma ConversationId(q: State)
    ensures var r := Create(q, ConversationFactory);
      && |r.db.conversations| == |q.db.conversations| + 1
      && r.db.conversations[..|q.db.conversations|] == q.db.conversations
      && r.db.conversations[|q.db.conversations|].id == |q.db.conversations| + 1
  {
    ConversationParents(q);
  }

  /** The list `ConversationFactory.create_batch(count)` returns holds the
      conversations with ids before + 1, ..., before + count. */
  lemma BatchReturnsNewIds(s: State, count: nat)
    ensures var r := CreateBatch(s, count, ConversationFactory);
      && |r.db.conversations| == |s.db.conversations| + count
      && ConversationIds(r.db.conversations[|s.db.conversations|..]) == NewIds(|s.db.conversations|, count)
  {
    ConversationFactoryAppendsOne();
    BatchNumbersConversations(s, count, ConversationFactory);
  }

  /** A `create_batch(n)` statement of factory f. */
  datatype Batch = Batch(n: nat, f: Factory)

  /** The statements before the conversations, in program order: 5 users,
      2 integrations of type "CRM", 2 of type "Messenger", 3 segments, 3
      contact sources, 20 contacts, 2 bot scripts and 3 messengers. */
  function Statement(i: nat): Batch
    requires i < 8
  {
    match i
    case 0 => Batch(5, UserFactory(None))
    case 1 => Batch(2, IntegrationFactory(Some("CRM")))
    case 2 => Batch(2, IntegrationFactory(Some("Messenger")))
    case 3 => Batch(3, SegmentFactory)
    case 4 => Batch(3, ContactSourceFactory)
    case 5 => Batch(20, ContactFactory)
    case 6 => Batch(2, BotScriptFactory)
    case 7 => Batch(3, MessengerFactory)
  }

  /** The state after the first k of those statements. */
  function Prefix(s: State, k: nat): State
    requires k <= 8
  {
    if k == 0 then s else CreateBatch(Prefix(s, k - 1), Statement(k - 1).n, Statement(k - 1).f)
  }

  /** All eight statements. */
  function Directory(s: State): State
  {
    Prefix(s, 8)
  }

  /** 15 conversations, then 10 messages in each of them, in the order the
      batch returned them: the conversations of the batch are the rows
      inserted after the ones already there. */
  function Converse(s: State): State
  {
    AttachMessages(CreateBatch(s, 15, ConversationFactory), NewIds(|s.db.conversations|, 15), 10)
  }

  /** `populate_database`: the directory batches, the conversations with
      their messages, then 10 tasks. */
  function Populated(s: State): State
  {
    CreateBatch(Converse(Directory(s)), 10, TaskFactory)
  }

  // ---------------------------------------------------------------------
  // Row counts.
  // ---------------------------------------------------------------------

  /** The rows statement i inserts, its SubFactories' parents included. */
  function StatementCost(i: nat): Counts
    requires i < 8
  {
    match i
    case 0 => Counts(5, 0, 0, 0, 0, 0, 0, 0, 0, 0)
    case 1 => Counts(0, 2, 0, 0, 0, 0, 0, 0, 0, 0)
    case 2 => Counts(0, 2, 0, 0, 0, 0, 0, 0, 0, 0)
    case 3 => Counts(0, 0, 3, 0, 0, 0, 0, 0, 0, 0)
    case 4 => Counts(0, 3, 0, 3, 0, 0, 0, 0, 0, 0)
    case 5 => Counts(0, 20, 20, 20, 20, 0, 0, 0, 0, 0)
    case 6 => Counts(0, 0, 0, 0, 0, 2, 0, 0, 0, 0)
    case 7 => Counts(0, 3, 0, 0, 0, 0, 3, 0, 0, 0)
  }

  /** The rows the first k statements insert. */
  function PrefixCost(k: nat): Counts
    requires k <= 8
  {
    match k
    case 0 => Counts(0, 0, 0, 0, 0, 0, 0, 0, 0, 0)
    case 1 => Counts(5, 0, 0, 0, 0, 0, 0, 0, 0, 0)
    case 2 => Counts(5, 2, 0, 0, 0, 0, 0, 0, 0, 0)
    case 3 => Counts(5, 4, 0, 0, 0, 0, 0, 0, 0, 0)
    case 4 => Counts(5, 4, 3, 0, 0, 0, 0, 0, 0, 0)
    case 5 => Counts(5, 7, 3, 3, 0, 0, 0, 0, 0, 0)
    case 6 => Counts(5, 27, 23, 23, 20, 0, 0, 0, 0, 0)
    case 7 => Counts(5, 27, 23, 23, 20, 2, 0, 0, 0, 0)
    case 8 => Counts(5, 30, 23, 23, 20, 2, 3, 0, 0, 0)
  }

  /** Statement i inserts StatementCost(i): n times its factory's rows. */
  lemma StatementSizes(x: State, i: nat)
    requires i < 8
    ensures Sizes(CreateBatch(x, Statement(i).n, Statement(i).f).db) == Plus(Sizes(x.db), StatementCost(i))
  {
    match i
    case 0 => BatchCost(x, 5, UserFactory(None));
    case 1 => BatchCost(x, 2, IntegrationFactory(Some("CRM")));
    case 2 => BatchCost(x, 2, IntegrationFactory(Some("Messenger")));
    case 3 => BatchCost(x, 3, SegmentFactory);
    case 4 => BatchCost(x, 3, ContactSourceFactory);
    case 5 => BatchCost(x, 20, ContactFactory);
    case 6 => BatchCost(x, 2, BotScriptFactory);
    case 7 => BatchCost(x, 3, MessengerFactory);
  }

  /** One more statement of the directory. The case split gives k a
      literal value in each branch, so that PrefixCost(k) and PrefixCost(k - 1) unfold
      to constants the solver adds up; the branches need no further hint. */
  lemma PrefixCostStep(k: nat)
    requires 0 < k <= 8
    ensures PrefixCost(k) == Plus(PrefixCost(k - 1), StatementCost(k - 1))
  {
    if k == 1 {
    } else if k == 2 {
    } else if k == 3 {
    } else if k == 4 {
    } else if k == 5 {
    } else if k == 6 {
    } else if k == 7 {
    } else {
    }
  }

  /** The first k statements insert PrefixCost(k). */
  lemma {:induction false} PrefixSizes(s: State, k: nat)
    requires k <= 8
    ensures Sizes(Prefix(s, k).db) == Plus(Sizes(s.db), PrefixCost(k))
  {
    if k > 0 {
      PrefixSizes(s, k - 1);
      StatementSizes(Prefix(s, k - 1), k - 1);
      PlusAssociates(Sizes(s.db), PrefixCost(k - 1), StatementCost(k - 1));
      PrefixCostStep(k);
    }
  }

  /** The directory's rows: 5 users; 2 + 2 integrations, one more per
      contact source, contact and messenger; 3 segments and one more per
      contact; 3 contact sources and one more per contact; 20 contacts; 2
      bot scripts; 3 messengers. */
  lemma DirectoryCost(s: State)
    ensures Sizes(Directory(s).db) == Plus(Sizes(s.db), Counts(5, 30, 23, 23, 20, 2, 3, 0, 0, 0))
  {
    PrefixSizes(s, 8);
  }

  /** The conversations with their parents and their 150 messages. */
  lemma ConverseCost(d: State)
    ensures Sizes(Converse(d).db) == Plus(Sizes(d.db), Counts(0, 30, 15, 15, 15, 15, 15, 15, 150, 0))
  {
    var q := CreateBatch(d, 15, ConversationFactory);
    var ids := NewIds(|d.db.conversations|, 15);
    BatchCost(d, 15, ConversationFactory);
    AttachCost(q, ids, 10);
  }

  /** `populate_database` adds 15 users, 80 integrations, 48 segments, 48
      contact sources, 45 contacts, 17 bot scripts, 18 messengers, 15
      conversations, 150 messages and 10 tasks, counting the parents every
      SubFactory inserts. */
  lemma PopulateCounts(s: State)
    ensures Sizes(Populated(s).db) == Plus(Sizes(s.db), Counts(15, 80, 48, 48, 45, 17, 18, 15, 150, 10))
  {
    var d := Directory(s);
    var m := Converse(d);
    DirectoryCost(s);
    ConverseCost(d);
    BatchCost(m, 10, TaskFactory);
    SumPopulate(Sizes(s.db), Sizes(d.db), Sizes(m.db), Sizes(CreateBatch(m, 10, TaskFactory).db));
  }

  lemma SumPopulate(a0: Counts, a1: Counts, a2: Counts, a3: Counts)
    requires a1 == Plus(a0, Counts(5, 30, 23, 23, 20, 2, 3, 0, 0, 0))
    requires a2 == Plus(a1, Counts(0, 30, 15, 15, 15, 15, 15, 15, 150, 0))
    requires a3 == Plus(a2, Times(10, Cost(TaskFactory)))
    ensures a3 == Plus(a0, Counts(15, 80, 48, 48, 45, 17, 18, 15, 150, 10))
  {
  }

  // ---------------------------------------------------------------------
  // Iterator cursors.
  // ---------------------------------------------------------------------

  /** How far statement i moves each Iterator. */
  function StatementTicks(i: nat): Cursors
    requires i < 8
  {
    match i
    case 0 => Cursors(5, 0, 0, 0, 0, 0, 0, 0)
    case 1 => Cursors(0, 2, 0, 0, 0, 0, 0, 0)
    case 2 => Cursors(0, 2, 0, 0, 0, 0, 0, 0)
    case 3 => Cursors(0, 0, 0, 0, 0, 0, 0, 0)
    case 4 => Cursors(0, 3, 0, 3, 0, 0, 0, 0)
    case 5 => Cursors(0, 20, 0, 20, 0, 0, 0, 0)
    case 6 => Cursors(0, 0, 0, 0, 0, 0, 0, 0)
    case 7 => Cursors(0, 3, 0, 0, 3, 0, 0, 0)
  }

  /** How far the first k statements move each Iterator. */
  function PrefixTicks(k: nat): Cursors
    requires k <= 8
  {
    match k
    case 0 => Cursors(0, 0, 0, 0, 0, 0, 0, 0)
    case 1 => Cursors(5, 0, 0, 0, 0, 0, 0, 0)
    case 2 => Cursors(5, 2, 0, 0, 0, 0, 0, 0)
    case 3 => Cursors(5, 4, 0, 0, 0, 0, 0, 0)
    case 4 => Cursors(5, 4, 0, 0, 0, 0, 0, 0)
    case 5 => Cursors(5, 7, 0, 3, 0, 0, 0, 0)
    case 6 => Cursors(5, 27, 0, 23, 0, 0, 0, 0)
    case 7 => Cursors(5, 27, 0, 23, 0, 0, 0, 0)
    case 8 => Cursors(5, 30, 0, 23, 3, 0, 0, 0)
  }

  lemma StatementCursors(x: State, i: nat)
    requires i < 8
    ensures CreateBatch(x, Statement(i).n, Statement(i).f).cur == Advanced(x.cur, StatementTicks(i))
  {
    match i
    case 0 => BatchTicks(x, 5, UserFactory(None));
    case 1 => BatchTicks(x, 2, IntegrationFactory(Some("CRM")));
    case 2 => BatchTicks(x, 2, IntegrationFactory(Some("Messenger")));
    case 3 => BatchTicks(x, 3, SegmentFactory);
    case 4 => BatchTicks(x, 3, ContactSourceFactory);
    case 5 => BatchTicks(x, 20, ContactFactory);
    case 6 => BatchTicks(x, 2, BotScriptFactory);
    case 7 => BatchTicks(x, 3, MessengerFactory);
  }

  /** One more statement of the directory. The case split gives k a
      literal value in each branch, so that PrefixTicks(k) and PrefixTicks(k - 1) unfold
      to constants the solver adds up; the branches need no further hint. */
  lemma PrefixTicksStep(k: nat)
    requires 0 < k <= 8
    ensures PrefixTicks(k) == Advanced(PrefixTicks(k - 1), StatementTicks(k - 1))
  {
    if k == 1 {
    } else if k == 2 {
    } else if k == 3 {
    } else if k == 4 {
    } else if k == 5 {
    } else if k == 6 {
    } else if k == 7 {
    } else {
    }
  }

  lemma {:induction false} PrefixCursors(s: State, k: nat)
    requires k <= 8
    ensures Prefix(s, k).cur == Advanced(s.cur, PrefixTicks(k))
  {
    if k > 0 {
      PrefixCursors(s, k - 1);
      StatementCursors(Prefix(s, k - 1), k - 1);
      AdvancedAssociates(s.cur, PrefixTicks(k - 1), StatementTicks(k - 1));
      PrefixTicksStep(k);
    }
  }

  /** The directory draws 5 roles, 30 integration names, 23 contact source
      names and 3 messenger names, and no integration type: both
      integration statements override `type`. */
  lemma DirectoryTicks(s: State)
    ensures Directory(s).cur == Advanced(s.cur, Cursors(5, 30, 0, 23, 3, 0, 0, 0))
  {
    PrefixCursors(s, 8);
  }

  /** The conversations draw 15 statuses and the loop 150 senders. */
  lemma ConverseTicks(d: State)
    ensures Converse(d).cur == Advanced(d.cur, Cursors(0, 30, 0, 15, 15, 15, 150, 0))
  {
    var q := CreateBatch(d, 15, ConversationFactory);
    var ids := NewIds(|d.db.conversations|, 15);
    BatchTicks(d, 15, ConversationFactory);
    AttachTicks(q, ids, 10);
  }

  /** How far `populate_database` moves each Iterator. The type Iterator of
      IntegrationFactory never moves: every integration the program creates
      has its type pinned by an override. */
  lemma PopulateCursors(s: State)
    ensures Populated(s).cur == Advanced(s.cur, Cursors(5, 80, 0, 48, 18, 15, 150, 10))
  {
    var d := Directory(s);
    var m := Converse(d);
    DirectoryTicks(s);
    ConverseTicks(d);
    BatchTicks(m, 10, TaskFactory);
    SumPopulateTicks(s.cur, d.cur, m.cur, CreateBatch(m, 10, TaskFactory).cur);
  }

  lemma SumPopulateTicks(a0: Cursors, a1: Cursors, a2: Cursors, a3: Cursors)
    requires a1 == Advanced(a0, Cursors(5, 30, 0, 23, 3, 0, 0, 0))
    requires a2 == Advanced(a1, Cursors(0, 30, 0, 15, 15, 15, 150, 0))
    requires a3 == Advanced(a2, Repeated(10, Ticks(TaskFactory)))
    ensures a3 == Advanced(a0, Cursors(5, 80, 0, 48, 18, 15, 150, 10))
  {
  }

  // ---------------------------------------------------------------------
  // The invariant across the whole program.
  // ---------------------------------------------------------------------

  lemma {:induction false} PrefixKeepsGenerated(s: State, k: nat)
    requires k <= 8 && Generated(s.db)
    ensures Generated(Prefix(s, k).db)
  {
    if k > 0 {
      PrefixKeepsGenerated(s, k - 1);
      BatchKeepsGenerated(Prefix(s, k - 1), Statement(k - 1).n, Statement(k - 1).f);
    }
  }

  lemma DirectoryKeepsGenerated(s: State)
    requires Generated(s.db)
    ensures Generated(Directory(s).db)
  {
    PrefixKeepsGenerated(s, 8);
  }

  /** The loop's ids name the conversations the batch just inserted. */
  lemma ConverseKeepsGenerated(d: State)
    requires Generated(d.db)
    ensures Generated(Converse(d).db)
  {
    var q := CreateBatch(d, 15, ConversationFactory);
    var ids := NewIds(|d.db.conversations|, 15);
    BatchKeepsGenerated(d, 15, ConversationFactory);
    BatchCost(d, 15, ConversationFactory);
    AttachKeepsGenerated(q, ids, 10);
  }

  /** Starting from a consistent database, `populate_database` leaves one:
      keys numbered, every foreign key resolving, the pinned variants
      and the derived fields in place. */
  lemma PopulateKeepsGenerated(s: State)
    requires Generated(s.db)
    ensures Generated(Populated(s).db)
  {
    var d := Directory(s);
    DirectoryKeepsGenerated(s);
    ConverseKeepsGenerated(d);
    BatchKeepsGenerated(Converse(d), 10, TaskFactory);
  }

  /** Every conversation in the filled database has an `ended_at`: the
      status Iterator only yields non-empty statuses, so the Maybe always
      takes its `yes` branch, "active" conversations included. */
  lemma PopulateEndedAt(s: State)
    requires Generated(s.db)
    ensures var t := Populated(s).db;
      forall i :: 0 <= i < |t.conversations| ==>
        t.conversations[i].status in ConversationStatuses && t.conversations[i].endedAt.Some?
  {
    PopulateKeepsGenerated(s);
  }

  /** On the empty database the program starts from, it leaves exactly
      these rows, consistent as above. */
  lemma PopulateFromEmpty(fake: ValueProvider)
    ensures var t := Populated(State(NoTables, FreshCursors, fake)).db;
      && Sizes(t) == Counts(15, 80, 48, 48, 45, 17, 18, 15, 150, 10)
      && Generated(t)
  {
    var s := State(NoTables, FreshCursors, fake);
    NoTablesGenerated();
    PopulateCounts(s);
    PopulateKeepsGenerated(s);
  }

  /** The empty database is trivially consistent. */
  lemma NoTablesGenerated()
    ensures Generated(NoTables) && Sizes(NoTables) == Counts(0, 0, 0, 0, 0, 0, 0, 0, 0, 0)
  {
  }

  // ---------------------------------------------------------------------
  // The per-row Iterators across the whole run.
  // ---------------------------------------------------------------------

  lemma {:induction false} AttachKeepsRoundRobin(s: State, ids: seq<int>, n: nat)
    requires RoundRobin(s)
    ensures RoundRobin(AttachMessages(s, ids, n))
    decreases |ids|
  {
    if ids != [] {
      var f := MessageFactory(Some(ids[0]));
      BatchKeepsRoundRobin(s, n, f);
      AttachKeepsRoundRobin(CreateBatch(s, n, f), ids[1..], n);
    }
  }

  lemma {:induction false} PrefixKeepsRoundRobin(s: State, k: nat)
    requires k <= 8 && RoundRobin(s)
    ensures RoundRobin(Prefix(s, k))
  {
    if k > 0 {
      PrefixKeepsRoundRobin(s, k - 1);
      BatchKeepsRoundRobin(Prefix(s, k - 1), Statement(k - 1).n, Statement(k - 1).f);
    }
  }

  /** `populate_database` hands out integration names, contact-source
      names, messenger names, conversation statuses, message senders and
      task statuses in row order, each continuing where its Iterator
      stood. */
  lemma PopulateKeepsRoundRobin(s: State)
    requires RoundRobin(s)
    ensures RoundRobin(Populated(s))
  {
    var d := Directory(s);
    PrefixKeepsRoundRobin(s, 8);
    BatchKeepsRoundRobin(d, 15, ConversationFactory);
    AttachKeepsRoundRobin(CreateBatch(d, 15, ConversationFactory), NewIds(|d.db.conversations|, 15), 10);
    BatchKeepsRoundRobin(Converse(d), 10, TaskFactory);
  }

  /** On the empty database, row i of each of these tables takes the i-th
      value of its Iterator's list, counted round robin from the start. */
  lemma PopulateRoundRobinFromEmpty(fake: ValueProvider)
    ensures var t := Populated(State(NoTables, FreshCursors, fake)).db;
      && (forall i :: 0 <= i < |t.integrations| ==> t.integrations[i].name == Cycle(IntegrationNames, i))
      && (forall i :: 0 <= i < |t.contactSources| ==> t.contactSources[i].name == Cycle(ContactSourceNames, i))
      && (forall i :: 0 <= i < |t.messengers| ==> t.messengers[i].name == Cycle(MessengerNames, i))
      && (forall i :: 0 <= i < |t.conversations| ==> t.conversations[i].status == Cycle(ConversationStatuses, i))
      && (forall i :: 0 <= i < |t.messages| ==> t.messages[i].sender == Cycle(Senders, i))
      && (forall i :: 0 <= i < |t.tasks| ==> t.tasks[i].status == Cycle(TaskStatuses, i))
  {
    var s := State(NoTables, FreshCursors, fake);
    assert RoundRobin(s);
    PopulateKeepsRoundRobin(s);
    PopulateCounts(s);
    PopulateCursors(s);
  }

  // ---------------------------------------------------------------------
  // The `type` of the integrations the run inserts.
  // ---------------------------------------------------------------------

  lemma {:induction false} AttachKeepsKindsKnown(s: State, ids: seq<int>, n: nat, lo: nat)
    requires KindsKnownFrom(s.db, lo)
    ensures KindsKnownFrom(AttachMessages(s, ids, n).db, lo)
    decreases |ids|
  {
    if ids != [] {
      var f := MessageFactory(Some(ids[0]));
      BatchKeepsKindsKnown(s, n, f, lo);
      AttachKeepsKindsKnown(CreateBatch(s, n, f), ids[1..], n, lo);
    }
  }

  lemma {:induction false} PrefixKeepsKindsKnown(s: State, k: nat, lo: nat)
    requires k <= 8 && KindsKnownFrom(s.db, lo)
    ensures KindsKnownFrom(Prefix(s, k).db, lo)
  {
    if k > 0 {
      PrefixKeepsKindsKnown(s, k - 1, lo);
      BatchKeepsKindsKnown(Prefix(s, k - 1), Statement(k - 1).n, Statement(k - 1).f, lo);
    }
  }

  /** Every integration `populate_database` inserts has `type` "CRM" or
      "Messenger", whatever the type Iterator's position. */
  lemma PopulateKindsKnown(s: State)
    ensures KindsKnownFrom(Populated(s).db, |s.db.integrations|)
  {
    var d := Directory(s);
    PrefixKeepsKindsKnown(s, 8, |s.db.integrations|);
    BatchKeepsKindsKnown(d, 15, ConversationFactory, |s.db.integrations|);
    AttachKeepsKindsKnown(CreateBatch(d, 15, ConversationFactory), NewIds(|d.db.conversations|, 15), 10,
                          |s.db.integrations|);
    BatchKeepsKindsKnown(Converse(d), 10, TaskFactory, |s.db.integrations|);
  }

  /** The later directory statements change no row the earlier ones left. */
  lemma {:induction false} PrefixExtends(s: State, j: nat, k: nat)
    requires j <= k <= 8
    ensures Extends(Prefix(s, j).db, Prefix(s, k).db)
    decreases k
  {
    if j < k {
      PrefixExtends(s, j, k - 1);
      BatchExtends(Prefix(s, k - 1), Statement(k - 1).n, Statement(k - 1).f);
    }
  }

  /** The two integrations of line 166 are "CRM" and the two of line 167
      "Messenger", and they stay so to the end of the run. */
  lemma PopulatePinnedKinds(s: State)
    ensures var t := Populated(s).db;
      var n := |s.db.integrations|;
      && |t.integrations| >= n + 4
      && t.integrations[n].kind == "CRM" && t.integrations[n + 1].kind == "CRM"
      && t.integrations[n + 2].kind == "Messenger" && t.integrations[n + 3].kind == "Messenger"
  {
    var d := Directory(s);
    var q := CreateBatch(d, 15, ConversationFactory);
    var m := Converse(d);
    PrefixSizes(s, 1);
    BatchPinnedKinds(Prefix(s, 1), 2, "CRM");
    BatchPinnedKinds(Prefix(s, 2), 2, "Messenger");
    PrefixExtends(s, 3, 8);
    BatchExtends(d, 15, ConversationFactory);
    AttachExtends(q, NewIds(|d.db.conversations|, 15), 10);
    BatchExtends(m, 10, TaskFactory);
  }
  // ---------------------------------------------------------------------
  // The messages of the new conversations.
  // ---------------------------------------------------------------------

  /** A consistent database has no message in a conversation it does not
      have yet. */
  lemma NoMessagesYet(t: Tables, id: int)
    requires RefIntegrity(t) && id > |t.conversations|
    ensures Matching(t.messages, MessageConversationId, Some(id)) == []
  {
    forall i | 0 <= i < |t.messages|
      ensures MessageConversationId(t.messages[i]) != Some(id)
    {
      assert Resolves(MessageConversationId(t.messages[i]), |t.conversations|);
    }
    MatchingNone(t.messages, MessageConversationId, Some(id));
  }

  /** Each of the 15 new conversations ends up with an exchange of 10
      messages. */
  lemma ConverseMessages(d: State)
    requires Generated(d.db)
    ensures forall id :: |d.db.conversations| < id <= |d.db.conversations| + 15 ==>
      Exchange(Matching(Converse(d).db.messages, MessageConversationId, Some(id)), 10)
  {
    var q := CreateBatch(d, 15, ConversationFactory);
    var ids := NewIds(|d.db.conversations|, 15);
    BatchCost(d, 15, ConversationFactory);
    BatchExtends(d, 15, ConversationFactory);
    assert q.db.messages == d.db.messages;
    forall i | 0 <= i < |ids|
      ensures Matching(q.db.messages, MessageConversationId, Some(ids[i])) == []
    {
      NoMessagesYet(d.db, ids[i]);
    }
    AttachExchanges(q, ids, 10);
    forall id | |d.db.conversations| < id <= |d.db.conversations| + 15
      ensures Exchange(Matching(Converse(d).db.messages, MessageConversationId, Some(id)), 10)
    {
      assert ids[id - |d.db.conversations| - 1] == id;
    }
  }

  /** The task batch inserts no conversation and no message. */
  lemma TasksKeepMessages(m: State)
    ensures var t := CreateBatch(m, 10, TaskFactory).db;
      t.conversations == m.db.conversations && t.messages == m.db.messages
  {
    BatchCost(m, 10, TaskFactory);
    BatchExtends(m, 10, TaskFactory);
  }

  /** With sequential keys, the conversations at indices lo .. lo + 14
      are the ones with ids lo + 1 .. lo + 15. */
  lemma ExchangesByRow(t: Tables, lo: nat)
    requires KeysSequential(t) && |t.conversations| == lo + 15
    requires forall id :: lo < id <= lo + 15 ==>
               Exchange(Matching(t.messages, MessageConversationId, Some(id)), 10)
    ensures forall j :: lo <= j < |t.conversations| ==>
              var ms := ConversationMessages(t, t.conversations[j]);
              && Exchange(ms, 10)
              && |Matching(ms, MessageSender, "bot")| == 5
              && |Matching(ms, MessageSender, "client")| == 5
  {
    forall j | lo <= j < |t.conversations|
      ensures var ms := ConversationMessages(t, t.conversations[j]);
        && Exchange(ms, 10)
        && |Matching(ms, MessageSender, "bot")| == 5
        && |Matching(ms, MessageSender, "client")| == 5
    {
      assert ConversationKey(t.conversations[j]) == j + 1;
      AlternatingHalves(ConversationMessages(t, t.conversations[j]), 5);
    }
  }

  /** `populate_database` gives each conversation it creates 10 messages,
      alternating between the senders, 5 from "bot" and 5 from "client",
      with `is_ai_generated` set exactly on the bot's. */
  lemma PopulateMessages(s: State)
    requires Generated(s.db)
    ensures var t := Populated(s).db;
      && |t.conversations| == |s.db.conversations| + 15
      && forall j :: |s.db.conversations| <= j < |t.conversations| ==>
           var ms := ConversationMessages(t, t.conversations[j]);
           && Exchange(ms, 10)
           && |Matching(ms, MessageSender, "bot")| == 5
           && |Matching(ms, MessageSender, "client")| == 5
  {
    var d := Directory(s);
    var m := Converse(d);
    DirectoryKeepsGenerated(s);
    DirectoryCost(s);
    ConverseMessages(d);
    ConverseCost(d);
    TasksKeepMessages(m);
    PopulateKeepsGenerated(s);
    ExchangesByRow(Populated(s).db, |s.db.conversations|);
  }

  // ---------------------------------------------------------------------
  // The directory rows stay unreferenced.
  // ---------------------------------------------------------------------

  /** Rows that already exist stay unreferenced through a batch, and they
      still exist after it. */
  lemma BatchKeepsUnreferencedAbove(s: State, n: nat, f: Factory, p: Parent, lo: int, hi: int)
    requires p != Conversations && Unreferenced(s.db, p, lo, hi) && hi <= RowCount(s.db, p)
    ensures Unreferenced(CreateBatch(s, n, f).db, p, lo, hi) && hi <= RowCount(CreateBatch(s, n, f).db, p)
  {
    BatchKeepsUnreferenced(s, n, f, p, lo, hi);
    BatchExtends(s, n, f);
    ExtendsGrows(s.db, CreateBatch(s, n, f).db, p);
  }

  /** Nothing after the directory references rows that existed before it,
      in any table but the conversations. */
  lemma FinishKeepsUnreferenced(d: State, p: Parent, lo: int, hi: int)
    requires p != Conversations && Unreferenced(d.db, p, lo, hi) && hi <= RowCount(d.db, p)
    ensures Unreferenced(CreateBatch(Converse(d), 10, TaskFactory).db, p, lo, hi)
  {
    var q := CreateBatch(d, 15, ConversationFactory);
    var ids := NewIds(|d.db.conversations|, 15);
    BatchKeepsUnreferencedAbove(d, 15, ConversationFactory, p, lo, hi);
    AttachKeepsUnreferenced(q, ids, 10, p, lo, hi);
    AttachExtends(q, ids, 10);
    ExtendsGrows(q.db, Converse(d).db, p);
    BatchKeepsUnreferenced(Converse(d), 10, TaskFactory, p, lo, hi);
  }

  /** The count of table p in counts c. */
  function Share(c: Counts, p: Parent): nat
  {
    match p
    case Users => c.users
    case Integrations => c.integrations
    case Segments => c.segments
    case ContactSources => c.contactSources
    case Contacts => c.contacts
    case BotScripts => c.botScripts
    case Messengers => c.messengers
    case Conversations => c.conversations
  }

  lemma ShareSizes(t: Tables, a: Counts, p: Parent)
    ensures Share(Plus(Sizes(t), a), p) == RowCount(t, p) + Share(a, p)
  {
  }

  /** The table statement i creates its own rows in. */
  function Home(i: nat): Parent
    requires i < 8
  {
    match i
    case 0 => Users
    case 1 => Integrations
    case 2 => Integrations
    case 3 => Segments
    case 4 => ContactSources
    case 5 => Contacts
    case 6 => BotScripts
    case 7 => Messengers
  }

  /** No statement up to i writes a key into statement i's own table: the
      directory's SubFactories point at tables filled earlier. */
  lemma HomeUntouched(i: nat, j: nat)
    requires j <= i < 8
    ensures !Touches(Statement(j).f, Home(i))
  {
    if i == 0 {
    } else if i == 1 {
    } else if i == 2 {
    } else if i == 3 {
    } else if i == 4 {
    } else if i == 5 {
    } else if i == 6 {
    } else {
    }
  }

  /** The first k statements keep rows unreferenced in a table none of
      them writes a key into. */
  lemma {:induction false} PrefixKeepsUnreferenced(s: State, k: nat, p: Parent, lo: int, hi: int)
    requires k <= 8 && p != Conversations && Unreferenced(s.db, p, lo, hi)
    requires forall j :: 0 <= j < k ==> !Touches(Statement(j).f, p)
    ensures Unreferenced(Prefix(s, k).db, p, lo, hi)
  {
    if k > 0 {
      PrefixKeepsUnreferenced(s, k - 1, p, lo, hi);
      BatchKeepsUnreferenced(Prefix(s, k - 1), Statement(k - 1).n, Statement(k - 1).f, p, lo, hi);
    }
  }

  /** The statements from k on keep rows that exist by then unreferenced. */
  lemma {:induction false} SuffixKeepsUnreferenced(s: State, k: nat, p: Parent, lo: int, hi: int)
    requires k <= 8 && p != Conversations
    requires Unreferenced(Prefix(s, k).db, p, lo, hi) && hi <= RowCount(Prefix(s, k).db, p)
    ensures Unreferenced(Directory(s).db, p, lo, hi) && hi <= RowCount(Directory(s).db, p)
    decreases 8 - k
  {
    if k < 8 {
      BatchKeepsUnreferencedAbove(Prefix(s, k), Statement(k).n, Statement(k).f, p, lo, hi);
      SuffixKeepsUnreferenced(s, k + 1, p, lo, hi);
    }
  }

  /** Through the end of the directory, the rows the first k statements
      create in a table none of them writes a key into stay unreferenced. */
  lemma PrefixRowsStayUnreferenced(s: State, k: nat, p: Parent)
    requires 0 < k <= 8 && p != Conversations && RefIntegrity(s.db)
    requires forall j :: 0 <= j < k ==> !Touches(Statement(j).f, p)
    ensures Unreferenced(Directory(s).db, p, RowCount(s.db, p), RowCount(s.db, p) + Share(PrefixCost(k), p))
    ensures RowCount(s.db, p) + Share(PrefixCost(k), p) <= RowCount(Directory(s).db, p)
  {
    var lo := RowCount(s.db, p);
    var hi := lo + Share(PrefixCost(k), p);
    ConsistentIsUnreferencedAbove(s.db, p, hi);
    PrefixKeepsUnreferenced(s, k, p, lo, hi);
    PrefixSizes(s, k);
    ShareSizes(s.db, PrefixCost(k), p);
    SuffixKeepsUnreferenced(s, k, p, lo, hi);
  }

  /** The rows statement i creates in its own table, together with any
      earlier statement's rows there, are never referenced by anything
      `populate_database` creates afterwards. */
  lemma StatementRowsUnreferenced(s: State, i: nat)
    requires i < 8 && RefIntegrity(s.db)
    ensures Unreferenced(Populated(s).db, Home(i), RowCount(s.db, Home(i)),
                         RowCount(s.db, Home(i)) + Share(PrefixCost(i + 1), Home(i)))
  {
    forall j | 0 <= j < i + 1
      ensures !Touches(Statement(j).f, Home(i))
    {
      HomeUntouched(i, j);
    }
    PrefixRowsStayUnreferenced(s, i + 1, Home(i));
    FinishKeepsUnreferenced(Directory(s), Home(i), RowCount(s.db, Home(i)),
                            RowCount(s.db, Home(i)) + Share(PrefixCost(i + 1), Home(i)));
  }

  /** Nothing `populate_database` creates points at the rows of the
      statements before the conversations: no task is assigned to the 5
      users; no contact source, messenger or task uses the 4 integrations;
      no contact is in the 3 segments or comes from the 3 contact sources;
      no conversation or task is with the 20 contacts; no conversation
      follows the 2 bot scripts or runs on the 3 messengers. Each factory
      creates its own parents instead. */
  lemma DirectoryUnreferenced(s: State)
    requires RefIntegrity(s.db)
    ensures var t := Populated(s).db;
      && Unreferenced(t, Users, |s.db.users|, |s.db.users| + 5)
      && Unreferenced(t, Integrations, |s.db.integrations|, |s.db.integrations| + 4)
      && Unreferenced(t, Segments, |s.db.segments|, |s.db.segments| + 3)
      && Unreferenced(t, ContactSources, |s.db.contactSources|, |s.db.contactSources| + 3)
      && Unreferenced(t, Contacts, |s.db.contacts|, |s.db.contacts| + 20)
      && Unreferenced(t, BotScripts, |s.db.botScripts|, |s.db.botScripts| + 2)
      && Unreferenced(t, Messengers, |s.db.messengers|, |s.db.messengers| + 3)
  {
    StatementRowsUnreferenced(s, 0);
    StatementRowsUnreferenced(s, 2);
    StatementRowsUnreferenced(s, 3);
    StatementRowsUnreferenced(s, 4);
    StatementRowsUnreferenced(s, 5);
    StatementRowsUnreferenced(s, 6);
    StatementRowsUnreferenced(s, 7);
  }
}
