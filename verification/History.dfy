/** Projection of the durable event log onto the model conversation
    (internal/domain/message.go). */
module History {
  import opened Conversation

  /** One element of an event's `content` array. `kind` is empty when the object has no
      string `type`; `fileSource` is the `file_id` of a document whose source is a File. */
  datatype Item =
    | NotObject(encoded: string)
    | Object(kind: string, text: string, fileSource: Option<string>, encoded: string)

  /** Admission-time snapshot of a File document and the text it is rendered to. */
  datatype FileSnapshot = FileSnapshot(fileId: string, rendered: string)

  /** `Missing` when the payload has no `content` array. */
  datatype Content = Missing | Items(items: seq<Item>, files: map<nat, FileSnapshot>)

  datatype UseKind = BuiltinUse | CustomUse | McpUse
  datatype ResultKind = AgentResult | McpResult | UserCustomResult | UserToolResult

  datatype Event =
    | UserMessage(id: string, content: Content)
    | ThreadMessageReceived(id: string, content: Content, metadata: string)
    | ThreadMessageSent(id: string, content: Content, metadata: string)
    | DefineOutcome(id: string, prompt: string)
    | AgentMessage(id: string, content: Content)
    | ToolUse(id: string, payloadId: string, useKind: UseKind, name: string, input: string)
    | ToolResult(id: string, resultKind: ResultKind, reference: string, content: Content, isError: bool)
    | OtherEvent(id: string, eventType: string)

  const WHITE_SPACE := [' ', '\t', '\n', '\r', '\U{0B}', '\U{0C}']

  predicate IsBlank(text: string) {
    forall c | c in text :: c in WHITE_SPACE
  }

  /** The block one content item contributes, if any. */
  function ItemBlocks(item: Item, index: nat, files: map<nat, FileSnapshot>): (blocks: seq<Block>)
    ensures forall b | b in blocks :: b.toolUseId == "" && b.resultFor == ""
  {
    match item
    case NotObject(_) => []
    case Object(kind, text, fileSource, encoded) =>
      if kind == "" then []
      else if kind == "text" then
        if IsBlank(text) then [] else [TextBlock(text)]
      else if kind == "document" && fileSource.Some? then
        if index in files && files[index].fileId != "" && files[index].fileId == fileSource.value
        then [TextBlock(files[index].rendered)]
        else []
      else [RawBlock(kind, encoded)]
  }

  function ItemsBlocks(items: seq<Item>, files: map<nat, FileSnapshot>): (blocks: seq<Block>)
    ensures forall b | b in blocks :: b.toolUseId == "" && b.resultFor == ""
  {
    if items == [] then []
    else
      var n := |items| - 1;
      ItemsBlocks(items[..n], files) + ItemBlocks(items[n], n, files)
  }

  function ContentBlocks(content: Content): (blocks: seq<Block>)
    ensures forall b | b in blocks :: b.toolUseId == "" && b.resultFor == ""
  {
    match content
    case Missing => []
    case Items(items, files) => ItemsBlocks(items, files)
  }

  function EnvelopedBlocks(content: Content, metadata: string): seq<Block> {
    var blocks := ContentBlocks(content);
    if blocks == [] then []
    else
      [TextBlock("<agent-thread-message>\n<metadata>" + metadata + "</metadata>\n<content>")]
      + blocks
      + [TextBlock("</content>\n</agent-thread-message>")]
  }

  predicate IsText(item: Item) {
    item.Object? && item.kind == "text"
  }

  function FlattenText(items: seq<Item>): string {
    if items == [] then ""
    else
      var n := |items| - 1;
      FlattenText(items[..n]) + if IsText(items[n]) then items[n].text else ""
  }

  predicate TextOnly(items: seq<Item>) {
    forall item | item in items :: IsText(item)
  }

  /** Encodings of all items when at least one of them is not a text block, else nothing. */
  function RawContentBlocks(items: seq<Item>): seq<string> {
    if TextOnly(items) then [] else seq(|items|, i requires 0 <= i < |items| => items[i].encoded)
  }

  function ResultBlock(id: string, content: Content, isError: bool): Block {
    match content
    case Missing => ToolResultBlock(id, "", isError, [])
    case Items(items, _) => ToolResultBlock(id, FlattenText(items), isError, RawContentBlocks(items))
  }

  /** The correlation id of a tool use: the committed event id, else the payload's. */
  function UseId(e: Event): string
    requires e.ToolUse?
  {
    if e.id != "" then e.id else e.payloadId
  }

  /** Ids that some result in the log refers to. */
  function Answered(events: seq<Event>): set<string> {
    set e | e in events && e.ToolResult? && e.reference != "" :: e.reference
  }

  /** Ids that some tool use in the log committed. */
  function Seen(events: seq<Event>): set<string> {
    set e | e in events && e.ToolUse? && UseId(e) != "" :: UseId(e)
  }

  function EventRole(e: Event): Role {
    if e.UserMessage? || e.ThreadMessageReceived? || e.DefineOutcome? || e.ToolResult? then User else Assistant
  }

  /** The blocks an event contributes, given the answered and the committed tool ids. */
  function EventBlocks(e: Event, answered: set<string>, seen: set<string>): seq<Block> {
    match e
    case UserMessage(_, content) => ContentBlocks(content)
    case ThreadMessageReceived(_, content, metadata) => EnvelopedBlocks(content, metadata)
    case ThreadMessageSent(_, content, metadata) => EnvelopedBlocks(content, metadata)
    case DefineOutcome(_, prompt) => [TextBlock(prompt)]
    case AgentMessage(_, content) => ContentBlocks(content)
    case ToolUse(_, _, _, name, input) =>
      if UseId(e) in answered && UseId(e) != "" then [ToolUseBlock(UseId(e), name, input)] else []
    case ToolResult(_, _, reference, content, isError) =>
      if reference in seen && reference != "" then [ResultBlock(reference, content, isError)] else []
    case OtherEvent(_, _) => []
  }

  function EventEntries(e: Event, answered: set<string>, seen: set<string>): seq<Entry> {
    Tagged(EventRole(e), EventBlocks(e, answered, seen))
  }

  function Collected(events: seq<Event>, f: Event -> seq<Entry>): seq<Entry> {
    if events == [] then []
    else
      var n := |events| - 1;
      Collected(events[..n], f) + f(events[n])
  }

  function Keeping(answered: set<string>, seen: set<string>): Event -> seq<Entry> {
    (e: Event) => EventEntries(e, answered, seen)
  }

  /** What the projection keeps of a log: each event's blocks once, in log order. */
  function Kept(events: seq<Event>, answered: set<string>, seen: set<string>): seq<Entry> {
    Collected(events, Keeping(answered, seen))
  }

  function KeptEntries(events: seq<Event>): seq<Entry> {
    Kept(events, Answered(events), Seen(events))
  }

  function Projection(events: seq<Event>): (messages: seq<Message>)
    ensures IsConversation(messages, KeptEntries(events))
  {
    Conversed(KeptEntries(events))
  }

  lemma LogIdsSnoc(init: seq<Event>, e: Event)
    ensures Seen(init + [e]) == Seen(init) + Seen([e])
    ensures Answered(init + [e]) == Answered(init) + Answered([e])
    ensures Seen([e]) == if e.ToolUse? && UseId(e) != "" then {UseId(e)} else {}
    ensures Answered([e]) == if e.ToolResult? && e.reference != "" then {e.reference} else {}
  {
    assert e in [e];
  }

  lemma KeptSnoc(init: seq<Event>, e: Event, answered: set<string>, seen: set<string>)
    ensures Kept(init + [e], answered, seen) == Kept(init, answered, seen) + EventEntries(e, answered, seen)
  {
    assert (init + [e])[..|init|] == init;
  }

  lemma PushCollected(out: seq<Message>, events: seq<Event>, i: nat, f: Event -> seq<Entry>, role: Role,
      blocks: seq<Block>)
    requires i < |events| && IsConversation(out, Collected(events[..i], f))
    requires f(events[i]) == Tagged(role, blocks)
    ensures IsConversation(Push(out, role, blocks), Collected(events[..i + 1], f))
  {
    PushConversation(out, Collected(events[..i], f), role, blocks);
    assert events[..i + 1][..i] == events[..i];
  }

  lemma PushEvent(out: seq<Message>, events: seq<Event>, i: nat, answered: set<string>, seen: set<string>)
    requires i < |events| && IsConversation(out, Kept(events[..i], answered, seen))
    ensures IsConversation(Push(out, EventRole(events[i]), EventBlocks(events[i], answered, seen)),
                           Kept(events[..i + 1], answered, seen))
  {
    PushCollected(out, events, i, Keeping(answered, seen), EventRole(events[i]),
        EventBlocks(events[i], answered, seen));
  }

  lemma NothingKept(events: seq<Event>, answered: set<string>, seen: set<string>)
    ensures IsConversation([], Kept(events[..0], answered, seen))
  {
  }

  lemma AllKept(out: seq<Message>, events: seq<Event>)
    requires IsConversation(out, Kept(events[..|events|], Answered(events), Seen(events)))
    ensures IsConversation(out, KeptEntries(events)) && out == Projection(events)
  {
    assert events[..|events|] == events;
    ConversationUnique(out, Projection(events), KeptEntries(events));
  }

  /** First pass: the ids some result refers to and the ids some tool use committed. */
  method CollectToolIds(events: seq<Event>) returns (answered: set<string>, seen: set<string>)
    ensures answered == Answered(events) && seen == Seen(events)
  {
    answered, seen := {}, {};
    for i := 0 to |events|
      invariant answered == Answered(events[..i])
      invariant seen == Seen(events[..i])
    {
      var e := events[i];
      assert events[..i + 1] == events[..i] + [e];
      LogIdsSnoc(events[..i], e);
      if e.ToolUse? {
        var id := e.id;
        if id == "" { id := e.payloadId; }
        if id != "" { seen := seen + {id}; }
      } else if e.ToolResult? {
        if e.reference != "" { answered := answered + {e.reference}; }
      }
    }
    assert events[..|events|] == events;
  }

  /** Second pass, one event: tool uses without a result and results without a tool use are
      dropped, everything else is pushed under its role. */
  method AppendEvent(out: seq<Message>, e: Event, answered: set<string>, seen: set<string>) returns (out': seq<Message>)
    ensures out' == Push(out, EventRole(e), EventBlocks(e, answered, seen))
  {
    out' := out;
    match e {
      case UserMessage(_, content) =>
        out' := Push(out, User, ContentBlocks(content));
      case ThreadMessageReceived(_, content, metadata) =>
        out' := Push(out, User, EnvelopedBlocks(content, metadata));
      case ThreadMessageSent(_, content, metadata) =>
        out' := Push(out, Assistant, EnvelopedBlocks(content, metadata));
      case DefineOutcome(_, prompt) =>
        out' := Push(out, User, [TextBlock(prompt)]);
      case AgentMessage(_, content) =>
        out' := Push(out, Assistant, ContentBlocks(content));
      case ToolUse(_, _, _, name, input) =>
        var id := e.id;
        if id == "" { id := e.payloadId; }
        if id != "" && id in answered {
          out' := Push(out, Assistant, [ToolUseBlock(id, name, input)]);
        }
      case ToolResult(_, _, reference, content, isError) =>
        if reference != "" && reference in seen {
          out' := Push(out, User, [ResultBlock(reference, content, isError)]);
        }
      case OtherEvent(_, _) =>
    }
  }

  method ProjectMessages(events: seq<Event>) returns (out: seq<Message>)
    ensures IsConversation(out, KeptEntries(events))
    ensures out == Projection(events)
  {
    var answered, seen := CollectToolIds(events);
    out := [];
    NothingKept(events, answered, seen);
    for i := 0 to |events|
      invariant IsConversation(out, Kept(events[..i], answered, seen))
    {
      PushEvent(out, events, i, answered, seen);
      out := AppendEvent(out, events[i], answered, seen);
    }
    AllKept(out, events);
  }

  // ---------------------------------------------------------------- tool pairing

  function UseIds(es: seq<Entry>): set<string> {
    set e | e in es && e.block.kind == "tool_use" && e.block.toolUseId != "" :: e.block.toolUseId
  }

  function ResultIds(es: seq<Entry>): set<string> {
    set e | e in es && e.block.kind == "tool_result" && e.block.resultFor != "" :: e.block.resultFor
  }

  lemma IdsConcat(a: seq<Entry>, b: seq<Entry>)
    ensures UseIds(a + b) == UseIds(a) + UseIds(b)
    ensures ResultIds(a + b) == ResultIds(a) + ResultIds(b)
  {
  }

  lemma {:induction false} KeptIds(events: seq<Event>, answered: set<string>, seen: set<string>)
    ensures UseIds(Kept(events, answered, seen)) == Seen(events) * answered
    ensures ResultIds(Kept(events, answered, seen)) == Answered(events) * seen
  {
    if events != [] {
      var init, e := events[..|events| - 1], events[|events| - 1];
      assert events == init + [e];
      KeptIds(init, answered, seen);
      KeptSnoc(init, e, answered, seen);
      LogIdsSnoc(init, e);
      EventIds(e, answered, seen);
      IdsConcat(Kept(init, answered, seen), EventEntries(e, answered, seen));
    }
  }

  lemma EventIds(e: Event, answered: set<string>, seen: set<string>)
    ensures UseIds(EventEntries(e, answered, seen)) == Seen([e]) * answered
    ensures ResultIds(EventEntries(e, answered, seen)) == Answered([e]) * seen
  {
    var blocks := EventBlocks(e, answered, seen);
    var es := Tagged(EventRole(e), blocks);
    assert e in [e];
    if e.ToolUse? && blocks != [] {
      assert es == [Entry(Assistant, blocks[0])];
    } else if e.ToolResult? && blocks != [] {
      assert es == [Entry(User, blocks[0])];
    } else {
      assert forall x | x in es :: x.block.toolUseId == "" && x.block.resultFor == "" by {
        forall x | x in es ensures x.block.toolUseId == "" && x.block.resultFor == "" {
          var i :| 0 <= i < |es| && es[i] == x;
          assert x.block == blocks[i];
        }
      }
    }
  }

  /** In every projection the tool ids called and the tool ids answered are the same set:
      the ids both used and answered somewhere in the log. */
  lemma ToolIdsPair(events: seq<Event>)
    ensures UseIds(Flatten(Projection(events))) == ResultIds(Flatten(Projection(events)))
    ensures UseIds(Flatten(Projection(events))) == Seen(events) * Answered(events)
  {
    KeptIds(events, Answered(events), Seen(events));
  }

  // ---------------------------------------------------------------- legal projections

  lemma {:induction false} TaggedReplies(m: Message)
    requires m.role == Assistant ==> !HasToolResult(m)
    ensures UsersReply(Tagged(m.role, m.content))
  {
  }

  lemma {:induction false} ConcatReplies(a: seq<Entry>, b: seq<Entry>)
    requires UsersReply(a) && UsersReply(b)
    ensures UsersReply(a + b)
  {
  }

  lemma {:induction false} LegalHasReplies(messages: seq<Message>)
    requires Legal(messages)
    ensures UsersReply(Flatten(messages))
  {
    if messages != [] {
      var init, m := messages[..|messages| - 1], messages[|messages| - 1];
      assert messages == init + [m];
      LegalInit(init, m);
      LegalHasReplies(init);
      TaggedReplies(m);
      ConcatReplies(Flatten(init), Tagged(m.role, m.content));
    }
  }

  /** A log projects to a legal conversation exactly when no agent event carries a raw tool
      result, and whenever the user has spoken every kept use so far has its kept result. */
  lemma {:induction false} LegalProjection(events: seq<Event>)
    ensures Legal(Projection(events)) <==> UsersReply(KeptEntries(events)) && TurnsSettle(KeptEntries(events))
  {
    if UsersReply(KeptEntries(events)) {
      LegalExactly(Projection(events));
    } else if Legal(Projection(events)) {
      LegalHasReplies(Projection(events));
    }
  }

  /** A tool call, the user and the agent speaking, and only then the result of the call. */
  function LateLog(u: string, name: string, input: string, x: Content, y: Content, z: Content,
      isError: bool): seq<Event> {
    [ToolUse(u, "", BuiltinUse, name, input), UserMessage("", x), AgentMessage("", y),
        ToolResult("", AgentResult, u, z, isError)]
  }

  lemma {:induction false} CollectedTwo(a: Event, b: Event, f: Event -> seq<Entry>)
    ensures Collected([a, b], f) == f(a) + f(b)
  {
    assert [a, b][..1] == [a] && [a][..0] == [];
    assert Collected([a], f) == [] + f(a) == f(a);
  }

  lemma {:induction false} CollectedFour(a: Event, b: Event, c: Event, d: Event, f: Event -> seq<Entry>)
    ensures Collected([a, b, c, d], f) == f(a) + f(b) + (f(c) + f(d))
  {
    assert [a, b, c, d] == [a, b] + [c, d];
    CollectedConcat([a, b], [c, d], f);
    CollectedTwo(a, b, f);
    CollectedTwo(c, d, f);
  }

  lemma {:induction false} StillOpen(before: seq<Entry>, said: seq<Block>, after: seq<Entry>, u: string)
    requires u in CalledIn(before) && u !in AnsweredIn(before) && said != []
        && (forall b | b in said :: b.resultFor != u)
    requires after != [] && after[0].role == Assistant
    ensures !TurnsSettle(before + Tagged(User, said) + after)
  {
    var es, p := before + Tagged(User, said) + after, |before| + |said|;
    TaggedAnswers(before, said);
    NotAnswered(said, u);
    assert es[..p] == before + Tagged(User, said);
    assert UserTurnEnds(es, p);
  }

  lemma {:induction false} NotAnswered(content: seq<Block>, u: string)
    requires forall b | b in content :: b.resultFor != u
    ensures u !in Answers(content)
  {
    if content != [] {
      var init := content[..|content| - 1];
      assert content[|content| - 1] in content && forall b | b in init :: b in content;
      NotAnswered(init, u);
    }
  }

  lemma {:induction false} CalledFirst(u: string, name: string, input: string)
    requires u != ""
    ensures var called := [Entry(Assistant, ToolUseBlock(u, name, input))];
      u in CalledIn(called) && u !in AnsweredIn(called)
  {
    EntryIds([], Entry(Assistant, ToolUseBlock(u, name, input)));
    assert [] + [Entry(Assistant, ToolUseBlock(u, name, input))] == [Entry(Assistant, ToolUseBlock(u, name, input))];
  }

  lemma {:induction false} UnsettledFour(use: seq<Entry>, said: seq<Block>, spoken: seq<Block>, result: seq<Entry>,
      u: string)
    requires u in CalledIn(use) && u !in AnsweredIn(use) && said != [] && spoken != []
    requires forall b | b in said :: b.resultFor != u
    ensures !TurnsSettle(use + Tagged(User, said) + (Tagged(Assistant, spoken) + result))
  {
    var after := Tagged(Assistant, spoken) + result;
    assert after[0] == Tagged(Assistant, spoken)[0];
    StillOpen(use, said, after, u);
  }

  lemma {:induction false} LateKept(u: string, name: string, input: string, x: Content, y: Content, z: Content,
      isError: bool) returns (result: seq<Entry>)
    requires u != ""
    ensures KeptEntries(LateLog(u, name, input, x, y, z, isError))
      == [Entry(Assistant, ToolUseBlock(u, name, input))] + Tagged(User, ContentBlocks(x))
          + (Tagged(Assistant, ContentBlocks(y)) + result)
  {
    var h := LateLog(u, name, input, x, y, z, isError);
    var f := Keeping(Answered(h), Seen(h));
    assert h[3] in h;
    assert u in Answered(h);
    assert f(h[0]) == [Entry(Assistant, ToolUseBlock(u, name, input))];
    CollectedFour(h[0], h[1], h[2], h[3], f);
    result := f(h[3]);
  }

  lemma {:induction false} LateUnsettled(u: string, name: string, input: string, x: Content, y: Content, z: Content,
      isError: bool)
    requires u != "" && ContentBlocks(x) != [] && ContentBlocks(y) != []
    ensures !TurnsSettle(KeptEntries(LateLog(u, name, input, x, y, z, isError)))
  {
    var result := LateKept(u, name, input, x, y, z, isError);
    CalledFirst(u, name, input);
    UnsettledFour([Entry(Assistant, ToolUseBlock(u, name, input))], ContentBlocks(x), ContentBlocks(y), result, u);
  }

  /** Such a log, whatever is said, projects to a conversation that is not legal. */
  lemma {:induction false} LateResultIllegal(u: string, name: string, input: string, x: Content, y: Content, z: Content,
      isError: bool)
    requires u != "" && ContentBlocks(x) != [] && ContentBlocks(y) != []
    ensures !Legal(Projection(LateLog(u, name, input, x, y, z, isError)))
  {
    LateUnsettled(u, name, input, x, y, z, isError);
    LegalProjection(LateLog(u, name, input, x, y, z, isError));
  }

  // ---------------------------------------------------------------- splitting the log

  lemma {:induction false} CollectedConcat(a: seq<Event>, b: seq<Event>, f: Event -> seq<Entry>)
    ensures Collected(a + b, f) == Collected(a, f) + Collected(b, f)
  {
    if b == [] {
      assert a + b == a;
    } else {
      var n := |b| - 1;
      CollectedConcat(a, b[..n], f);
      assert (a + b)[..|a + b| - 1] == a + b[..n];
      Reassociate(Collected(a, f), Collected(b[..n], f), f(b[n]));
    }
  }

  lemma KeptConcat(a: seq<Event>, b: seq<Event>, answered: set<string>, seen: set<string>)
    ensures Kept(a + b, answered, seen) == Kept(a, answered, seen) + Kept(b, answered, seen)
  {
    CollectedConcat(a, b, Keeping(answered, seen));
  }

  lemma EventGrows(e: Event, answered: set<string>, seen: set<string>, answered': set<string>, seen': set<string>)
    requires answered <= answered' && seen <= seen'
    ensures var es, es' := EventEntries(e, answered, seen), EventEntries(e, answered', seen');
      if Seen([e]) * answered' <= answered && Answered([e]) * seen' <= seen then es == es' else |es| < |es'|
  {
    LogIdsSnoc([], e);
  }

  /** Knowing more answered and committed ids only adds blocks; it adds none exactly when
      the log uses no newly answered id and answers no newly committed one. */
  lemma {:induction false} KeptGrows(events: seq<Event>, answered: set<string>, seen: set<string>,
                                     answered': set<string>, seen': set<string>)
    requires answered <= answered' && seen <= seen'
    ensures var es, es' := Kept(events, answered, seen), Kept(events, answered', seen');
      if Seen(events) * answered' <= answered && Answered(events) * seen' <= seen then es == es' else |es| < |es'|
  {
    if events != [] {
      var init, e := events[..|events| - 1], events[|events| - 1];
      assert events == init + [e];
      KeptGrows(init, answered, seen, answered', seen');
      EventGrows(e, answered, seen, answered', seen');
      KeptSnoc(init, e, answered, seen);
      KeptSnoc(init, e, answered', seen');
      LogIdsSnoc(init, e);
    }
  }

  /** An id used on one side of the split and answered on the other is used and answered
      on both sides. In particular no tool call straddles the split. */
  predicate Uncrossed(a: seq<Event>, b: seq<Event>) {
    forall id | id in Seen(a) * Answered(b) + Seen(b) * Answered(a) ::
      id in Seen(a) && id in Seen(b) && id in Answered(a) && id in Answered(b)
  }

  /** Projecting a log piecewise and joining the pieces with AppendMerging equals projecting
      the whole log exactly when no tool call crosses the split. */
  lemma SplitProjection(a: seq<Event>, b: seq<Event>)
    ensures Merged(Projection(a), Projection(b)) == Projection(a + b) <==> Uncrossed(a, b)
  {
    var answered, seen := Answered(a + b), Seen(a + b);
    assert answered == Answered(a) + Answered(b);
    assert seen == Seen(a) + Seen(b);
    KeptConcat(a, b, answered, seen);
    KeptGrows(a, Answered(a), Seen(a), answered, seen);
    KeptGrows(b, Answered(b), Seen(b), answered, seen);
    MergedConversations(KeptEntries(a), KeptEntries(b));
    var whole, parts := KeptEntries(a + b), KeptEntries(a) + KeptEntries(b);
    assert Merged(Projection(a), Projection(b)) == Conversed(parts);
    assert Conversed(parts) == Conversed(whole) <==> parts == whole;
    if Uncrossed(a, b) {
      forall id | id in Seen(a) * answered ensures id in Answered(a) {
        if id in Answered(b) { assert id in Seen(a) * Answered(b) + Seen(b) * Answered(a); }
      }
      forall id | id in Answered(a) * seen ensures id in Seen(a) {
        if id in Seen(b) { assert id in Seen(a) * Answered(b) + Seen(b) * Answered(a); }
      }
      forall id | id in Seen(b) * answered ensures id in Answered(b) {
        if id in Answered(a) { assert id in Seen(a) * Answered(b) + Seen(b) * Answered(a); }
      }
      forall id | id in Answered(b) * seen ensures id in Seen(b) {
        if id in Seen(a) { assert id in Seen(a) * Answered(b) + Seen(b) * Answered(a); }
      }
      assert parts == whole;
    }
    if parts == whole {
      assert Seen(a) * answered <= Answered(a) && Answered(a) * seen <= Seen(a);
      assert Seen(b) * answered <= Answered(b) && Answered(b) * seen <= Seen(b);
    }
  }

  // ---------------------------------------------------------------- resuming a parked confirmation

  /** The pair a confirmation threads into the running conversation. */
  function SeededPair(id: string, name: string, input: string, text: string, isError: bool): seq<Message> {
    [Message(Assistant, [ToolUseBlock(id, name, input)], None),
     Message(User, [ToolResultBlock(id, text, isError, [])], None)]
  }

  lemma SeededPairConverses(id: string, name: string, input: string, text: string, isError: bool)
    ensures SeededPair(id, name, input, text, isError)
      == Conversed([Entry(Assistant, ToolUseBlock(id, name, input)),
          Entry(User, ToolResultBlock(id, text, isError, []))])
  {
    var pair := SeededPair(id, name, input, text, isError);
    var es := [Entry(Assistant, ToolUseBlock(id, name, input)), Entry(User, ToolResultBlock(id, text, isError, []))];
    FlattenSnoc([], pair[0]);
    FlattenSnoc([pair[0]], pair[1]);
    assert pair == [pair[0]] + [pair[1]];
    assert Flatten(pair) == es;
    ConversationUnique(pair, Conversed(es), es);
  }

  /** Log positions: `h[k]` is a tool use that no result answers and no other use shares. */
  predicate Dangling(h: seq<Event>, k: nat) {
    && k < |h| && h[k].ToolUse? && h[k].id != ""
    && h[k].id !in Answered(h)
    && forall j :: 0 <= j < |h| && j != k && h[j].ToolUse? ==> UseId(h[j]) != h[k].id
  }

  lemma UsedOnce(h: seq<Event>, k: nat)
    requires Dangling(h, k)
    ensures h[k].id !in Seen(h[..k]) && h[k].id !in Seen(h[k + 1..])
    ensures h[k].id in Seen(h)
  {
    assert h[k] in h;
    forall e | e in h[..k] && e.ToolUse? ensures UseId(e) != h[k].id {
      var j :| 0 <= j < k && h[..k][j] == e;
      assert h[j] == e;
    }
    forall e | e in h[k + 1..] && e.ToolUse? ensures UseId(e) != h[k].id {
      var j :| 0 <= j < |h| - k - 1 && h[k + 1..][j] == e;
      assert h[k + 1 + j] == e;
    }
  }

  /** What the log keeps around a use, whichever ids are answered. */
  lemma KeptAround(h: seq<Event>, k: nat, answered: set<string>, seen: set<string>)
    requires k < |h|
    ensures Kept(h, answered, seen)
      == Kept(h[..k], answered, seen) + EventEntries(h[k], answered, seen) + Kept(h[k + 1..], answered, seen)
  {
    assert h == (h[..k] + [h[k]]) + h[k + 1..];
    KeptConcat(h[..k] + [h[k]], h[k + 1..], answered, seen);
    KeptSnoc(h[..k], h[k], answered, seen);
  }

  lemma DanglingSilent(h: seq<Event>, k: nat)
    requires Dangling(h, k)
    ensures EventEntries(h[k], Answered(h), Seen(h)) == []
  {
  }

  lemma DropEmpty(x: seq<Entry>, y: seq<Entry>, z: seq<Entry>)
    requires y == []
    ensures x + y + z == x + z
  {
  }

  /** Before the answer arrives the use contributes nothing. */
  lemma DanglingEntries(h: seq<Event>, k: nat)
    requires Dangling(h, k)
    ensures KeptEntries(h) == Kept(h[..k], Answered(h), Seen(h)) + Kept(h[k + 1..], Answered(h), Seen(h))
  {
    var answered, seen := Answered(h), Seen(h);
    KeptAround(h, k, answered, seen);
    DanglingSilent(h, k);
    DropEmpty(Kept(h[..k], answered, seen), EventEntries(h[k], answered, seen), Kept(h[k + 1..], answered, seen));
  }

  lemma LaterUses(h: seq<Event>, k: nat)
    requires Dangling(h, k)
    ensures h[k].id !in UseIds(Kept(h[k + 1..], Answered(h), Seen(h)))
  {
    UsedOnce(h, k);
    KeptIds(h[k + 1..], Answered(h), Seen(h));
  }

  lemma KeptLater(events: seq<Event>, answered: set<string>, seen: set<string>, id: string)
    requires id !in Seen(events)
    ensures Kept(events, answered + {id}, seen) == Kept(events, answered, seen)
  {
    assert Answered(events) * seen <= seen;
    KeptGrows(events, answered, seen, answered + {id}, seen);
  }

  lemma AnsweredLog(h: seq<Event>, k: nat, r: Event)
    requires Dangling(h, k) && r.ToolResult? && r.reference == h[k].id
    ensures Answered(h + [r]) == Answered(h) + {h[k].id} && Seen(h + [r]) == Seen(h)
  {
    LogIdsSnoc(h, r);
  }

  lemma UseAnswered(h: seq<Event>, k: nat, answered: set<string>, seen: set<string>)
    requires Dangling(h, k) && h[k].id in answered
    ensures EventEntries(h[k], answered, seen) == [Entry(Assistant, ToolUseBlock(h[k].id, h[k].name, h[k].input))]
  {
  }

  lemma ResultSeen(r: Event, answered: set<string>, seen: set<string>)
    requires r.ToolResult? && r.reference != "" && r.reference in seen
    ensures EventEntries(r, answered, seen) == [Entry(User, ResultBlock(r.reference, r.content, r.isError))]
  {
  }

  /** Appending the result of a dangling use makes the use reappear in place, and appends
      the result block; every other event keeps what it had. */
  lemma ReplayEntries(h: seq<Event>, k: nat, r: Event)
    requires Dangling(h, k) && r.ToolResult? && r.reference == h[k].id
    ensures KeptEntries(h + [r])
      == Kept(h[..k], Answered(h), Seen(h))
         + [Entry(Assistant, ToolUseBlock(h[k].id, h[k].name, h[k].input))]
         + Kept(h[k + 1..], Answered(h), Seen(h))
         + [Entry(User, ResultBlock(h[k].id, r.content, r.isError))]
  {
    var id, seen := h[k].id, Seen(h);
    var answered := Answered(h) + {id};
    AnsweredLog(h, k, r);
    UsedOnce(h, k);
    KeptSnoc(h, r, answered, seen);
    KeptAround(h, k, answered, seen);
    KeptLater(h[..k], Answered(h), seen, id);
    KeptLater(h[k + 1..], Answered(h), seen, id);
    UseAnswered(h, k, answered, seen);
    ResultSeen(r, answered, seen);
  }

  lemma NotListed(es: seq<Entry>, use: Entry)
    requires use.block.kind == "tool_use" && use.block.toolUseId != ""
    requires use.block.toolUseId !in UseIds(es)
    ensures use !in es
  {
  }

  lemma InsertedLater(p: seq<Entry>, q: seq<Entry>, u: Entry, r: Entry, r': Entry)
    requires u !in q
    ensures (p + q) + [u, r] == p + [u] + q + [r'] <==> (q == [] && r == r')
  {
    var x, y := (p + q) + [u, r], p + [u] + q + [r'];
    assert x[|x| - 1] == r && y[|y| - 1] == r';
    if q != [] {
      assert x[|p|] == q[0] && y[|p|] == u;
    }
  }

  /** Resuming equals replaying: threading the seeded pair into the projected history gives
      the projection of the history that records the emitted agent.tool_result, exactly when
      the result is text only and nothing after the parked call projects to a block. */
  lemma ResumeEqualsReplay(h: seq<Event>, k: nat, resultId: string, items: seq<Item>, files: map<nat, FileSnapshot>,
      isError: bool)
    requires Dangling(h, k)
    ensures var r := ToolResult(resultId, AgentResult, h[k].id, Items(items, files), isError);
      Merged(Projection(h), SeededPair(h[k].id, h[k].name, h[k].input, FlattenText(items), isError))
          == Projection(h + [r])
      <==> (TextOnly(items) && Kept(h[k + 1..], Answered(h), Seen(h)) == [])
  {
    var u := h[k];
    var r := ToolResult(resultId, AgentResult, u.id, Items(items, files), isError);
    var pair := SeededPair(u.id, u.name, u.input, FlattenText(items), isError);
    var use := Entry(Assistant, ToolUseBlock(u.id, u.name, u.input));
    var result := Entry(User, ToolResultBlock(u.id, FlattenText(items), isError, []));
    var before, after := Kept(h[..k], Answered(h), Seen(h)), Kept(h[k + 1..], Answered(h), Seen(h));
    DanglingEntries(h, k);
    LaterUses(h, k);
    ReplayEntries(h, k, r);
    SeededPairConverses(u.id, u.name, u.input, FlattenText(items), isError);
    MergedConversations(KeptEntries(h), [use, result]);
    NotListed(after, use);
    InsertedLater(before, after, use, result, Entry(User, ResultBlock(u.id, Items(items, files), isError)));
    RichContent(items);
    var resumed, replayed := Conversed((before + after) + [use, result]), Projection(h + [r]);
    assert Flatten(resumed) == (before + after) + [use, result];
    assert Flatten(replayed) == KeptEntries(h + [r]);
  }

  lemma RichContent(items: seq<Item>)
    ensures RawContentBlocks(items) == [] <==> TextOnly(items)
  {
    if items == [] { assert TextOnly(items); }
  }
}
