/** The model-facing conversation: content blocks, messages, and the role-collapsing
    append that every stage of the runtime shares (internal/domain/message.go and
    AppendMerging in internal/agentruntime/agentcore.go).

    Strings are byte strings: one `char` stands for one byte. JSON values are carried as
    their encoding, with the empty string for an absent raw value. */
module Conversation {

  datatype Option<+T> = None | Some(value: T)

  datatype Role = User | Assistant

  datatype Block = Block(
    kind: string,
    text: string,
    toolUseId: string,
    toolName: string,
    input: string,
    resultFor: string,
    isError: bool,
    resultContent: seq<string>,
    raw: string)

  function TextBlock(text: string): Block {
    Block("text", text, "", "", "", "", false, [], "")
  }

  function RawBlock(kind: string, raw: string): Block {
    Block(kind, "", "", "", "", "", false, [], raw)
  }

  function ToolUseBlock(id: string, name: string, input: string): Block {
    Block("tool_use", "", id, name, input, "", false, [], "")
  }

  function ToolResultBlock(id: string, text: string, isError: bool, rich: seq<string>): Block {
    Block("tool_result", text, "", "", "", id, isError, rich, "")
  }

  /** Private usage baseline attached to a message by a provider response. */
  datatype Anchor = Anchor(contextTokens: int, requestFingerprint: string, prefixFingerprint: string,
      contentBlocks: nat)

  datatype Message = Message(role: Role, content: seq<Block>, usage: Option<Anchor>)

  /** One block together with the role of the message that carries it. */
  datatype Entry = Entry(role: Role, block: Block)

  function Tagged(role: Role, blocks: seq<Block>): (es: seq<Entry>)
    ensures |es| == |blocks|
    ensures forall i :: 0 <= i < |es| ==> es[i] == Entry(role, blocks[i])
  {
    seq(|blocks|, i requires 0 <= i < |blocks| => Entry(role, blocks[i]))
  }

  /** Every block of the conversation in order, with its role. */
  function Flatten(messages: seq<Message>): seq<Entry> {
    if messages == [] then []
    else
      var last := messages[|messages| - 1];
      Flatten(messages[..|messages| - 1]) + Tagged(last.role, last.content)
  }

  predicate Alternating(messages: seq<Message>) {
    forall i :: 0 < i < |messages| ==> messages[i - 1].role != messages[i].role
  }

  predicate NoEmptyMessage(messages: seq<Message>) {
    forall i :: 0 <= i < |messages| ==> messages[i].content != []
  }

  predicate Unanchored(messages: seq<Message>) {
    forall i :: 0 <= i < |messages| ==> messages[i].usage == None
  }

  /** `messages` is a request the Messages API accepts, carrying exactly the entries `es`. */
  predicate IsConversation(messages: seq<Message>, es: seq<Entry>) {
    && Alternating(messages)
    && NoEmptyMessage(messages)
    && Unanchored(messages)
    && Flatten(messages) == es
  }

  lemma FlattenSnoc(init: seq<Message>, last: Message)
    ensures Flatten(init + [last]) == Flatten(init) + Tagged(last.role, last.content)
  {
    assert (init + [last])[..|init|] == init;
  }

  lemma {:induction false} FlattenCons(first: Message, rest: seq<Message>)
    ensures Flatten([first] + rest) == Tagged(first.role, first.content) + Flatten(rest)
  {
    if rest == [] {
      FlattenSnoc([], first);
      assert [first] + rest == [] + [first];
    } else {
      var init, last := rest[..|rest| - 1], rest[|rest| - 1];
      FlattenCons(first, init);
      FlattenSnoc([first] + init, last);
      assert [first] + rest == ([first] + init) + [last];
      Reassociate(Tagged(first.role, first.content), Flatten(init), Tagged(last.role, last.content));
    }
  }

  lemma Reassociate(x: seq<Entry>, y: seq<Entry>, z: seq<Entry>)
    ensures (x + y) + z == x + (y + z)
  {
  }

  lemma {:induction false} FlattenNonEmpty(messages: seq<Message>)
    requires messages != [] && NoEmptyMessage(messages)
    ensures Flatten(messages) != []
    ensures var es := Flatten(messages); es[|es| - 1].role == messages[|messages| - 1].role
  {
    var last := messages[|messages| - 1];
    assert Tagged(last.role, last.content)[|last.content| - 1].role == last.role;
  }

  lemma SplitRun(before: seq<Entry>, last: Message)
    requires last.content != []
    ensures var es := before + Tagged(last.role, last.content);
      && |es| == |before| + |last.content|
      && es[..|before|] == before
      && es[|before|..] == Tagged(last.role, last.content)
      && (forall i :: |before| <= i < |es| ==> es[i].role == last.role)
      && (before != [] ==> es[|before| - 1] == before[|before| - 1])
  {
  }

  /** The last message of a conversation is the longest run of equal roles at its end. */
  lemma TrailingRun(messages: seq<Message>)
    requires messages != [] && Alternating(messages) && NoEmptyMessage(messages)
    ensures var es, last := Flatten(messages), messages[|messages| - 1];
      var k := |es| - |last.content|;
      && 0 <= k < |es|
      && es[..k] == Flatten(messages[..|messages| - 1])
      && es[k..] == Tagged(last.role, last.content)
      && (forall i :: k <= i < |es| ==> es[i].role == es[|es| - 1].role)
      && (k == 0 || es[k - 1].role != es[|es| - 1].role)
  {
    var init, last := messages[..|messages| - 1], messages[|messages| - 1];
    SplitRun(Flatten(init), last);
    if Flatten(init) != [] { FlattenNonEmpty(init); }
  }

  lemma WithoutLast(messages: seq<Message>, es: seq<Entry>)
    requires messages != [] && IsConversation(messages, es)
    ensures var last := messages[|messages| - 1];
      && |last.content| <= |es|
      && IsConversation(messages[..|messages| - 1], es[..|es| - |last.content|])
  {
    TrailingRun(messages);
  }

  lemma SameLast(a: seq<Message>, b: seq<Message>, es: seq<Entry>)
    requires a != [] && b != [] && IsConversation(a, es) && IsConversation(b, es)
    ensures a[|a| - 1] == b[|b| - 1]
  {
    TrailingRun(a);
    TrailingRun(b);
    var x, y := a[|a| - 1], b[|b| - 1];
    assert |x.content| == |y.content|;
    TaggedInjective(x, y);
  }

  /** A list of entries has at most one rendering as a conversation. */
  lemma {:induction false} ConversationUnique(a: seq<Message>, b: seq<Message>, es: seq<Entry>)
    requires IsConversation(a, es) && IsConversation(b, es)
    ensures a == b
    decreases |a|
  {
    if a == [] {
      if b != [] { FlattenNonEmpty(b); }
    } else if b == [] {
      FlattenNonEmpty(a);
    } else {
      var m, n := |a| - 1, |b| - 1;
      SameLast(a, b, es);
      WithoutLast(a, es);
      WithoutLast(b, es);
      ConversationUnique(a[..m], b[..n], es[..|es| - |a[m].content|]);
      assert a == a[..m] + [a[m]];
      assert b == b[..n] + [b[n]];
    }
  }

  lemma TaggedInjective(x: Message, y: Message)
    requires x.content != [] && x.usage == y.usage
    requires Tagged(x.role, x.content) == Tagged(y.role, y.content)
    ensures x == y
  {
    forall i | 0 <= i < |x.content| ensures x.content[i] == y.content[i] {
      assert Tagged(x.role, x.content)[i] == Tagged(y.role, y.content)[i];
    }
    assert Tagged(x.role, x.content)[0] == Tagged(y.role, y.content)[0];
  }

  /** Appends blocks under a role, folding them into a trailing message of the same role. */
  function Push(out: seq<Message>, role: Role, blocks: seq<Block>): seq<Message> {
    if blocks == [] then out
    else if out != [] && out[|out| - 1].role == role then
      out[|out| - 1 := out[|out| - 1].(content := out[|out| - 1].content + blocks)]
    else out + [Message(role, blocks, None)]
  }

  lemma FoldIntoLast(out: seq<Message>, blocks: seq<Block>, usage: Option<Anchor>)
    requires out != []
    ensures var last := out[|out| - 1];
      Flatten(out[|out| - 1 := Message(last.role, last.content + blocks, usage)])
          == Flatten(out) + Tagged(last.role, blocks)
  {
    var last := out[|out| - 1];
    var folded := Message(last.role, last.content + blocks, usage);
    assert out == out[..|out| - 1] + [last];
    assert out[|out| - 1 := folded] == out[..|out| - 1] + [folded];
    FlattenSnoc(out[..|out| - 1], last);
    FlattenSnoc(out[..|out| - 1], folded);
    assert Tagged(last.role, folded.content) == Tagged(last.role, last.content) + Tagged(last.role, blocks);
  }

  lemma PushFlattens(out: seq<Message>, role: Role, blocks: seq<Block>)
    ensures Flatten(Push(out, role, blocks)) == Flatten(out) + Tagged(role, blocks)
  {
    if blocks == [] {
    } else if out != [] && out[|out| - 1].role == role {
      FoldIntoLast(out, blocks, out[|out| - 1].usage);
    } else {
      FlattenSnoc(out, Message(role, blocks, None));
    }
  }

  lemma PushShape(out: seq<Message>, role: Role, blocks: seq<Block>)
    requires Alternating(out) && NoEmptyMessage(out) && Unanchored(out)
    ensures var r := Push(out, role, blocks); Alternating(r) && NoEmptyMessage(r) && Unanchored(r)
  {
    var r, n := Push(out, role, blocks), |out|;
    assert forall i :: 0 <= i < n && i != n - 1 ==> r[i] == out[i];
    assert n > 0 ==> r[n - 1].role == out[n - 1].role;
  }

  lemma PushConversation(out: seq<Message>, es: seq<Entry>, role: Role, blocks: seq<Block>)
    requires IsConversation(out, es)
    ensures IsConversation(Push(out, role, blocks), es + Tagged(role, blocks))
  {
    PushShape(out, role, blocks);
    PushFlattens(out, role, blocks);
  }

  /** The conversation that carries exactly the given entries. */
  function Conversed(es: seq<Entry>): (messages: seq<Message>)
    ensures IsConversation(messages, es)
  {
    if es == [] then []
    else
      var n := |es| - 1;
      var init := Conversed(es[..n]);
      PushConversation(init, es[..n], es[n].role, [es[n].block]);
      assert es[..n] + Tagged(es[n].role, [es[n].block]) == es;
      Push(init, es[n].role, [es[n].block])
  }

  /** What one step of AppendMerging does: fold into the trailing message, whose anchor is
      replaced only when the added message brings one, or append. */
  function MergeOne(out: seq<Message>, m: Message): seq<Message> {
    if out != [] && out[|out| - 1].role == m.role then
      var last := out[|out| - 1];
      out[|out| - 1 := Message(last.role, last.content + m.content, if m.usage.Some? then m.usage else last.usage)]
    else out + [m]
  }

  function Merged(base: seq<Message>, added: seq<Message>): seq<Message> {
    if added == [] then base
    else MergeOne(Merged(base, added[..|added| - 1]), added[|added| - 1])
  }

  method AppendMerging(base: seq<Message>, added: seq<Message>) returns (out: seq<Message>)
    ensures out == Merged(base, added)
  {
    out := base;
    for i := 0 to |added|
      invariant out == Merged(base, added[..i])
    {
      var m := added[i];
      assert added[..i + 1][..i] == added[..i];
      var n := |out|;
      if n > 0 && out[n - 1].role == m.role {
        var anchor := out[n - 1].usage;
        if m.usage.Some? { anchor := m.usage; }
        out := out[n - 1 := Message(out[n - 1].role, out[n - 1].content + m.content, anchor)];
      } else {
        out := out + [m];
      }
    }
    assert added[..|added|] == added;
  }

  /** Folding a message in appends exactly its entries. */
  lemma MergeOneFlattens(out: seq<Message>, m: Message)
    ensures Flatten(MergeOne(out, m)) == Flatten(out) + Tagged(m.role, m.content)
  {
    if out != [] && out[|out| - 1].role == m.role {
      FoldIntoLast(out, m.content, if m.usage.Some? then m.usage else out[|out| - 1].usage);
    } else {
      FlattenSnoc(out, m);
    }
  }

  /** Merging never loses, reorders or re-roles a block. */
  lemma {:induction false} MergedFlattens(base: seq<Message>, added: seq<Message>)
    ensures Flatten(Merged(base, added)) == Flatten(base) + Flatten(added)
  {
    if added != [] {
      var n := |added| - 1;
      MergedFlattens(base, added[..n]);
      MergeOneFlattens(Merged(base, added[..n]), added[n]);
      Reassociate(Flatten(base), Flatten(added[..n]), Tagged(added[n].role, added[n].content));
    }
  }

  /** Merging onto an alternating base gives an alternating list, whatever is added. */
  lemma {:induction false} MergedAlternates(base: seq<Message>, added: seq<Message>)
    requires Alternating(base) && NoEmptyMessage(base) && NoEmptyMessage(added)
    ensures Alternating(Merged(base, added)) && NoEmptyMessage(Merged(base, added))
    ensures added != [] ==>
      (Merged(base, added) != [] && Merged(base, added)[|Merged(base, added)| - 1].role == added[|added| - 1].role)
    ensures Unanchored(base) && Unanchored(added) ==> Unanchored(Merged(base, added))
  {
    if added != [] {
      var n := |added| - 1;
      MergedAlternates(base, added[..n]);
    }
  }

  /** On conversations AppendMerging is concatenation of entries: the homomorphism law. */
  lemma MergedConversations(a: seq<Entry>, b: seq<Entry>)
    ensures Merged(Conversed(a), Conversed(b)) == Conversed(a + b)
  {
    MergedFlattens(Conversed(a), Conversed(b));
    MergedAlternates(Conversed(a), Conversed(b));
    ConversationUnique(Merged(Conversed(a), Conversed(b)), Conversed(a + b), a + b);
  }

  // ---------------------------------------------------------------- legal requests

  /** The tool ids a message calls, and the tool ids it answers. */
  function Calls(content: seq<Block>): multiset<string> {
    if content == [] then multiset{}
    else
      var b := content[|content| - 1];
      Calls(content[..|content| - 1]) + if b.kind == "tool_use" then multiset{b.toolUseId} else multiset{}
  }

  function Answers(content: seq<Block>): multiset<string> {
    if content == [] then multiset{}
    else
      var b := content[|content| - 1];
      Answers(content[..|content| - 1]) + if b.kind == "tool_result" then multiset{b.resultFor} else multiset{}
  }

  predicate HasToolResult(m: Message) {
    exists b | b in m.content :: b.kind == "tool_result"
  }

  /** Roles alternate, no message is empty, only users answer tools, and every user message
      answers exactly the tools the assistant message just before it called. */
  predicate Legal(messages: seq<Message>) {
    && Alternating(messages)
    && NoEmptyMessage(messages)
    && (forall i :: 0 <= i < |messages| && messages[i].role == Assistant ==> !HasToolResult(messages[i]))
    && (messages != [] && messages[0].role == User ==> Answers(messages[0].content) == multiset{})
    && (forall i :: 0 < i < |messages| && messages[i].role == User ==>
          Answers(messages[i].content) == Calls(messages[i - 1].content))
  }

  lemma IdsOfSnoc(init: seq<Block>, b: Block)
    ensures Calls(init + [b]) == Calls(init) + if b.kind == "tool_use" then multiset{b.toolUseId} else multiset{}
    ensures Answers(init + [b]) == Answers(init) + if b.kind == "tool_result" then multiset{b.resultFor} else multiset{}
  {
    assert (init + [b])[..|init|] == init;
  }

  lemma {:induction false} IdsOfConcat(a: seq<Block>, b: seq<Block>)
    ensures Calls(a + b) == Calls(a) + Calls(b)
    ensures Answers(a + b) == Answers(a) + Answers(b)
  {
    if b == [] {
      assert a + b == a;
    } else {
      var init, last := b[..|b| - 1], b[|b| - 1];
      assert b == init + [last] && a + b == (a + init) + [last];
      IdsOfConcat(a, init);
      IdsOfSnoc(init, last);
      IdsOfSnoc(a + init, last);
    }
  }

  lemma {:induction false} NoResultNoAnswer(content: seq<Block>)
    ensures (forall b | b in content :: b.kind != "tool_result") <==> Answers(content) == multiset{}
  {
    if content != [] {
      var init := content[..|content| - 1];
      NoResultNoAnswer(init);
      assert content == init + [content[|content| - 1]];
    }
  }

  // ---------------------------------------------------------------- legality, read off the blocks

  /** The tool ids called by assistants and answered by users in a list of blocks. */
  function CalledIn(es: seq<Entry>): multiset<string> {
    if es == [] then multiset{}
    else
      var e := es[|es| - 1];
      CalledIn(es[..|es| - 1]) + if e.role == Assistant && e.block.kind == "tool_use" then multiset{e.block.toolUseId}
          else multiset{}
  }

  function AnsweredIn(es: seq<Entry>): multiset<string> {
    if es == [] then multiset{}
    else
      var e := es[|es| - 1];
      AnsweredIn(es[..|es| - 1]) + if e.role == User && e.block.kind == "tool_result" then multiset{e.block.resultFor}
          else multiset{}
  }

  predicate UserTurnEnds(es: seq<Entry>, p: nat) {
    0 < p <= |es| && es[p - 1].role == User && (p < |es| ==> es[p].role == Assistant)
  }

  predicate UsersReply(es: seq<Entry>) {
    forall e | e in es && e.role == Assistant :: e.block.kind != "tool_result"
  }

  /** Whenever the user has spoken, every call made so far has been answered. */
  ghost predicate TurnsSettle(es: seq<Entry>) {
    forall p: nat | UserTurnEnds(es, p) :: CalledIn(es[..p]) == AnsweredIn(es[..p])
  }

  lemma {:induction false} EntryIds(es: seq<Entry>, e: Entry)
    ensures CalledIn(es + [e])
      == CalledIn(es) + if e.role == Assistant && e.block.kind == "tool_use" then multiset{e.block.toolUseId}
          else multiset{}
    ensures AnsweredIn(es + [e])
      == AnsweredIn(es) + if e.role == User && e.block.kind == "tool_result" then multiset{e.block.resultFor}
          else multiset{}
  {
    assert (es + [e])[..|es|] == es;
  }

  lemma {:induction false} SumAssociates(a: multiset<string>, b: multiset<string>, c: multiset<string>)
    ensures (a + b) + c == a + (b + c)
  {
  }

  lemma {:induction false} SumCancels(a: multiset<string>, b: multiset<string>, c: multiset<string>)
    ensures a + b == a + c <==> b == c
  {
    if a + b == a + c {
      forall x: string ensures b[x] == c[x] { assert (a + b)[x] == (a + c)[x]; }
    }
  }

  lemma {:induction false} TaggedSnoc(before: seq<Entry>, role: Role, init: seq<Block>, b: Block)
    ensures before + Tagged(role, init + [b]) == (before + Tagged(role, init)) + [Entry(role, b)]
  {
  }

  lemma {:induction false} TaggedCalls(before: seq<Entry>, content: seq<Block>)
    ensures CalledIn(before + Tagged(Assistant, content)) == CalledIn(before) + Calls(content)
    ensures AnsweredIn(before + Tagged(Assistant, content)) == AnsweredIn(before)
    decreases |content|
  {
    if content == [] {
      assert before + Tagged(Assistant, content) == before;
    } else {
      var init, b := content[..|content| - 1], content[|content| - 1];
      assert content == init + [b];
      TaggedCalls(before, init);
      TaggedSnoc(before, Assistant, init, b);
      EntryIds(before + Tagged(Assistant, init), Entry(Assistant, b));
      IdsOfSnoc(init, b);
      SumAssociates(CalledIn(before), Calls(init), if b.kind == "tool_use" then multiset{b.toolUseId} else multiset{});
    }
  }

  lemma {:induction false} TaggedAnswers(before: seq<Entry>, content: seq<Block>)
    ensures CalledIn(before + Tagged(User, content)) == CalledIn(before)
    ensures AnsweredIn(before + Tagged(User, content)) == AnsweredIn(before) + Answers(content)
    decreases |content|
  {
    if content == [] {
      assert before + Tagged(User, content) == before;
    } else {
      var init, b := content[..|content| - 1], content[|content| - 1];
      assert content == init + [b];
      TaggedAnswers(before, init);
      TaggedSnoc(before, User, init, b);
      EntryIds(before + Tagged(User, init), Entry(User, b));
      IdsOfSnoc(init, b);
      SumAssociates(AnsweredIn(before), Answers(init), if b.kind == "tool_result" then multiset{b.resultFor}
          else multiset{});
    }
  }

  lemma {:induction false} SettleSnoc(before: seq<Entry>, m: Message)
    requires m.content != [] && (before != [] ==> before[|before| - 1].role != m.role)
    ensures var es := before + Tagged(m.role, m.content);
      TurnsSettle(es) <==> TurnsSettle(before) && (m.role == User ==> CalledIn(es) == AnsweredIn(es))
  {
    var es, k := before + Tagged(m.role, m.content), |before|;
    assert es[..|es|] == es;
    forall p: nat | 0 < p <= k ensures UserTurnEnds(before, p) <==> UserTurnEnds(es, p) && es[..p] == before[..p] {
      assert es[..p] == before[..p] && es[p - 1] == before[p - 1];
      if p < k { assert es[p] == before[p]; }
    }
    forall p: nat | k < p <= |es| && UserTurnEnds(es, p) ensures p == |es| && m.role == User { }
    if m.role == User { assert UserTurnEnds(es, |es|); }
  }

  /** What a message must be after an initial part for both to be legal together. */
  predicate Follows(init: seq<Message>, m: Message) {
    if m.role == Assistant then !HasToolResult(m)
    else Answers(m.content) == if init == [] then multiset{} else Calls(init[|init| - 1].content)
  }

  lemma {:induction false} LegalInit(init: seq<Message>, m: Message)
    requires Legal(init + [m])
    ensures Legal(init) && Follows(init, m)
  {
    var all := init + [m];
    assert all[|init|] == m;
    forall i | 0 <= i < |init| ensures all[i] == init[i] { }
  }

  lemma {:induction false} LegalSnoc(init: seq<Message>, m: Message)
    requires Legal(init) && Follows(init, m) && m.content != [] && (init != [] ==> init[|init| - 1].role != m.role)
    ensures Legal(init + [m])
  {
    var all := init + [m];
    assert all[|init|] == m;
    forall i | 0 <= i < |init| ensures all[i] == init[i] { }
  }

  lemma {:induction false} SnocShape(messages: seq<Message>)
    requires messages != [] && Alternating(messages) && NoEmptyMessage(messages) && UsersReply(Flatten(messages))
    ensures var init, m := messages[..|messages| - 1], messages[|messages| - 1];
      && messages == init + [m] && Alternating(init) && NoEmptyMessage(init) && UsersReply(Flatten(init))
      && (m.role == Assistant ==> !HasToolResult(m))
      && (Flatten(init) != [] ==> Flatten(init)[|Flatten(init)| - 1].role != m.role)
      && (init == [] <==> Flatten(init) == [])
  {
    var init, m := messages[..|messages| - 1], messages[|messages| - 1];
    forall e | e in Flatten(init) ensures e in Flatten(messages) { }
    if m.role == Assistant {
      forall b | b in m.content ensures b.kind != "tool_result" {
        var i :| 0 <= i < |m.content| && m.content[i] == b;
        assert Tagged(m.role, m.content)[i] == Entry(Assistant, b);
        assert Entry(Assistant, b) in Flatten(messages);
      }
    }
    if init != [] { FlattenNonEmpty(init); }
  }

  lemma {:induction false} SettledSoFar(messages: seq<Message>)
    requires Alternating(messages) && NoEmptyMessage(messages) && TurnsSettle(Flatten(messages))
    requires messages != [] ==> messages[|messages| - 1].role == User
    ensures CalledIn(Flatten(messages)) == AnsweredIn(Flatten(messages))
  {
    if messages != [] {
      var es := Flatten(messages);
      FlattenNonEmpty(messages);
      assert UserTurnEnds(es, |es|) && es[..|es|] == es;
    }
  }

  /** After a settled conversation a user message settles exactly when it answers the calls of
      the message before it. */
  lemma {:induction false} ReplySettles(init: seq<Message>, content: seq<Block>)
    requires Alternating(init) && NoEmptyMessage(init) && UsersReply(Flatten(init)) && TurnsSettle(Flatten(init))
    requires init != [] ==> init[|init| - 1].role == Assistant
    ensures var es := Flatten(init) + Tagged(User, content);
      CalledIn(es) == AnsweredIn(es) <==> Answers(content) == if init == [] then multiset{}
          else Calls(init[|init| - 1].content)
  {
    TaggedAnswers(Flatten(init), content);
    if init != [] {
      var rest, a := init[..|init| - 1], init[|init| - 1];
      SnocShape(init);
      SettleSnoc(Flatten(rest), a);
      SettledSoFar(rest);
      TaggedCalls(Flatten(rest), a.content);
      SumCancels(CalledIn(Flatten(rest)), Calls(a.content), Answers(content));
    }
  }

  /** A conversation is legal exactly when every call made so far has been answered whenever
      the user has spoken. */
  lemma {:induction false} LegalExactly(messages: seq<Message>)
    requires Alternating(messages) && NoEmptyMessage(messages) && UsersReply(Flatten(messages))
    ensures Legal(messages) <==> TurnsSettle(Flatten(messages))
    decreases |messages|
  {
    if messages != [] {
      var init, m := messages[..|messages| - 1], messages[|messages| - 1];
      SnocShape(messages);
      LegalExactly(init);
      SettleSnoc(Flatten(init), m);
      if m.role == User && TurnsSettle(Flatten(init)) { ReplySettles(init, m.content); }
      if Legal(messages) { LegalInit(init, m); }
      if TurnsSettle(Flatten(messages)) { LegalSnoc(init, m); }
    }
  }

  // ---------------------------------------------------------------- picking out of a list

  /** `at` lists, in order, exactly the positions of `xs` that are kept. */
  ghost predicate Picks<T(!new)>(xs: seq<T>, at: seq<nat>, keep: (nat, T) -> bool) {
    && (forall k :: 0 <= k < |at| ==> at[k] < |xs| && keep(at[k], xs[at[k]]))
    && (forall j, k :: 0 <= j < k < |at| ==> at[j] < at[k])
    && (forall i: nat :: i < |xs| && keep(i, xs[i]) ==> i in at)
  }

  lemma {:induction false} PicksSnoc<T(!new)>(xs: seq<T>, at: seq<nat>, x: T, keep: (nat, T) -> bool)
    requires Picks(xs, at, keep)
    ensures Picks(xs + [x], if keep(|xs|, x) then at + [|xs|] else at, keep)
  {
    var ys, more := xs + [x], if keep(|xs|, x) then at + [|xs|] else at;
    forall i: nat | i < |ys| && keep(i, ys[i]) ensures i in more {
      if i < |xs| {
        assert ys[i] == xs[i] && i in at;
        var k :| 0 <= k < |at| && at[k] == i;
        assert more[k] == i;
      } else {
        assert more[|at|] == |xs|;
      }
    }
  }
}
