/** What a projected conversation says (internal/domain/message.go), read off the events
    themselves: which items speak, as which block, under which role, in which order. */
module ProjectedContent {
  import opened Conversation
  import opened History

  /** A character other than ASCII white space. */
  predicate Real(text: string) {
    exists i :: 0 <= i < |text| && text[i] !in {' ', '\t', '\n', '\r', '\U{0B}', '\U{0C}'}
  }

  predicate IsFileDocument(item: Item) {
    item.Object? && item.kind == "document" && item.fileSource.Some?
  }

  /** An item that becomes a block: a typed object, a text with something in it, a File document
      whose admission snapshot is of that File. */
  predicate Speaks(files: map<nat, FileSnapshot>, i: nat, item: Item) {
    && item.Object? && item.kind != ""
    && (item.kind == "text" ==> Real(item.text))
    && (IsFileDocument(item) ==> i in files && item.fileSource == Some(files[i].fileId) && item.fileSource != Some(""))
  }

  /** The block it becomes: its text, the snapshot's rendering, or its own encoding. */
  ghost predicate Voices(files: map<nat, FileSnapshot>, i: nat, item: Item, b: Block)
    requires Speaks(files, i, item)
  {
    if item.kind == "text" then b == Block("text", item.text, "", "", "", "", false, [], "")
    else if IsFileDocument(item) then b == Block("text", files[i].rendered, "", "", "", "", false, [], "")
    else b == Block(item.kind, "", "", "", "", "", false, [], item.encoded)
  }

  function Speaking(files: map<nat, FileSnapshot>): (nat, Item) -> bool {
    (i: nat, item: Item) => Speaks(files, i, item)
  }

  ghost predicate VoicesAt(items: seq<Item>, files: map<nat, FileSnapshot>, blocks: seq<Block>, at: seq<nat>) {
    && |blocks| == |at|
    && forall k :: 0 <= k < |at| ==>
         at[k] < |items| && Speaks(files, at[k], items[at[k]]) && Voices(files, at[k], items[at[k]], blocks[k])
  }

  ghost predicate ItemsSayAt(items: seq<Item>, files: map<nat, FileSnapshot>, blocks: seq<Block>, at: seq<nat>) {
    Picks(items, at, Speaking(files)) && VoicesAt(items, files, blocks, at)
  }

  /** One block for each item that speaks, in item order. */
  ghost predicate ContentSays(content: Content, blocks: seq<Block>) {
    match content
    case Missing => blocks == []
    case Items(items, files) => exists at :: ItemsSayAt(items, files, blocks, at)
  }

  /** A cross-Thread message: what it says, between the two markers of its envelope. */
  ghost predicate EnvelopeSays(content: Content, metadata: string, blocks: seq<Block>) {
    || (ContentSays(content, []) && blocks == [])
    || (|blocks| > 2 && ContentSays(content, blocks[1..|blocks| - 1])
        && blocks[0] == TextBlock("<agent-thread-message>\n<metadata>" + metadata + "</metadata>\n<content>")
        && blocks[|blocks| - 1] == TextBlock("</content>\n</agent-thread-message>"))
  }

  /** The texts of the text items, run together. */
  function Spoken(items: seq<Item>): string {
    if items == [] then ""
    else (if items[0].Object? && items[0].kind == "text" then items[0].text else "") + Spoken(items[1..])
  }

  /** A result carries its text, and the encodings of all its items if one of them is not text. */
  ghost predicate ResultSays(id: string, content: Content, isError: bool, b: Block) {
    && b.kind == "tool_result" && b.resultFor == id && b.isError == isError
    && b.toolUseId == b.toolName == b.input == b.raw == ""
    && match content
       case Missing => b.text == "" && b.resultContent == []
       case Items(items, _) =>
         && b.text == Spoken(items)
         && if exists i :: 0 <= i < |items| && !(items[i].Object? && items[i].kind == "text") then
              |b.resultContent| == |items| && forall i :: 0 <= i < |items| ==> b.resultContent[i] == items[i].encoded
            else b.resultContent == []
  }

  /** Some tool use of the log goes by the id: its event id, or lacking one its payload's. */
  ghost predicate Used(events: seq<Event>, id: string) {
    id != "" && exists e | e in events :: e.ToolUse? && (e.id == id || (e.id == "" && e.payloadId == id))
  }

  ghost predicate Resulted(events: seq<Event>, id: string) {
    id != "" && exists e | e in events :: e.ToolResult? && e.reference == id
  }

  /** What an event of the log contributes. */
  ghost predicate EventSays(events: seq<Event>, e: Event, blocks: seq<Block>) {
    match e
    case UserMessage(_, content) => ContentSays(content, blocks)
    case AgentMessage(_, content) => ContentSays(content, blocks)
    case ThreadMessageReceived(_, content, metadata) => EnvelopeSays(content, metadata, blocks)
    case ThreadMessageSent(_, content, metadata) => EnvelopeSays(content, metadata, blocks)
    case DefineOutcome(_, prompt) => blocks == [TextBlock(prompt)]
    case ToolUse(id, payloadId, _, name, input) =>
      var used := if id != "" then id else payloadId;
      blocks == if Resulted(events, used) then [Block("tool_use", "", used, name, input, "", false, [], "")] else []
    case ToolResult(_, _, reference, content, isError) =>
      if Used(events, reference) then |blocks| == 1 && ResultSays(reference, content, isError, blocks[0])
      else blocks == []
    case OtherEvent(_, _) => blocks == []
  }

  function Speaker(e: Event): Role {
    match e
    case UserMessage(_, _) => User
    case ThreadMessageReceived(_, _, _) => User
    case DefineOutcome(_, _) => User
    case ToolResult(_, _, _, _, _) => User
    case _ => Assistant
  }

  /** The contributions of the events in log order, each under its event's role. */
  function Spliced(events: seq<Event>, said: seq<seq<Block>>): seq<Entry>
    requires |events| == |said|
  {
    if events == [] then [] else Tagged(Speaker(events[0]), said[0]) + Spliced(events[1..], said[1..])
  }

  lemma {:induction false} SpaceExactly(c: char)
    ensures c in WHITE_SPACE <==> c in {' ', '\t', '\n', '\r', '\U{0B}', '\U{0C}'}
  {
    assert WHITE_SPACE[0] == ' ' && WHITE_SPACE[1] == '\t' && WHITE_SPACE[2] == '\n';
    assert WHITE_SPACE[3] == '\r' && WHITE_SPACE[4] == '\U{0B}' && WHITE_SPACE[5] == '\U{0C}';
  }

  lemma {:induction false} RealExactly(text: string)
    ensures IsBlank(text) <==> !Real(text)
  {
    forall i | 0 <= i < |text|
      ensures text[i] in WHITE_SPACE <==> text[i] in {' ', '\t', '\n', '\r', '\U{0B}', '\U{0C}'}
    {
      SpaceExactly(text[i]);
    }
    if Real(text) {
      var i :| 0 <= i < |text| && text[i] !in {' ', '\t', '\n', '\r', '\U{0B}', '\U{0C}'};
      assert text[i] in text;
    }
  }

  lemma {:induction false} ItemExactly(item: Item, i: nat, files: map<nat, FileSnapshot>)
    ensures if Speaks(files, i, item) then
        |ItemBlocks(item, i, files)| == 1 && Voices(files, i, item, ItemBlocks(item, i, files)[0])
      else ItemBlocks(item, i, files) == []
  {
    if item.Object? && item.kind == "text" { RealExactly(item.text); }
  }

  lemma {:induction false} ItemsSaid(items: seq<Item>, files: map<nat, FileSnapshot>) returns (at: seq<nat>)
    ensures ItemsSayAt(items, files, ItemsBlocks(items, files), at)
  {
    if items == [] { return []; }
    var n := |items| - 1;
    var before := ItemsSaid(items[..n], files);
    at := ItemsSaySnoc(items[..n], files, ItemsBlocks(items[..n], files), before, items[n]);
    assert items == items[..n] + [items[n]];
  }

  lemma {:induction false} ItemsSaySnoc(items: seq<Item>, files: map<nat, FileSnapshot>, blocks: seq<Block>,
      at: seq<nat>, item: Item) returns (more: seq<nat>)
    requires ItemsSayAt(items, files, blocks, at)
    ensures ItemsSayAt(items + [item], files, blocks + ItemBlocks(item, |items|, files), more)
  {
    more := if Speaking(files)(|items|, item) then at + [|items|] else at;
    assert Picks(items + [item], more, Speaking(files)) by { PicksSnoc(items, at, item, Speaking(files)); }
    var added := ItemBlocks(item, |items|, files);
    ItemExactly(item, |items|, files);
    VoicesSnoc(items, files, blocks, at, item);
    if Speaks(files, |items|, item) {
      assert added == [added[0]];
    } else {
      assert blocks + added == blocks;
    }
  }

  lemma {:induction false} VoicesSnoc(items: seq<Item>, files: map<nat, FileSnapshot>, blocks: seq<Block>,
      at: seq<nat>, item: Item)
    requires VoicesAt(items, files, blocks, at)
    ensures VoicesAt(items + [item], files, blocks, at)
    ensures forall b :: Speaks(files, |items|, item) && Voices(files, |items|, item, b) ==>
        VoicesAt(items + [item], files, blocks + [b], at + [|items|])
  {
  }

  lemma {:induction false} ContentSaid(content: Content)
    ensures ContentSays(content, ContentBlocks(content))
  {
    if content.Items? { var _ := ItemsSaid(content.items, content.files); }
  }

  lemma {:induction false} EnvelopeSaid(content: Content, metadata: string)
    ensures EnvelopeSays(content, metadata, EnvelopedBlocks(content, metadata))
  {
    ContentSaid(content);
    var blocks := EnvelopedBlocks(content, metadata);
    if ContentBlocks(content) != [] { assert blocks[1..|blocks| - 1] == ContentBlocks(content); }
  }

  lemma {:induction false} SpokenSnoc(items: seq<Item>, last: Item)
    ensures Spoken(items + [last]) == Spoken(items) + if last.Object? && last.kind == "text" then last.text else ""
  {
    if items == [] {
      assert [last][1..] == [];
    } else {
      assert (items + [last])[1..] == items[1..] + [last];
      SpokenSnoc(items[1..], last);
    }
  }

  lemma {:induction false} FlattenSpeaks(items: seq<Item>)
    ensures FlattenText(items) == Spoken(items)
  {
    if items != [] {
      var n := |items| - 1;
      FlattenSpeaks(items[..n]);
      SpokenSnoc(items[..n], items[n]);
      assert items == items[..n] + [items[n]];
    }
  }

  lemma {:induction false} ResultSaid(id: string, content: Content, isError: bool)
    ensures ResultSays(id, content, isError, ResultBlock(id, content, isError))
  {
    if content.Items? {
      var items := content.items;
      FlattenSpeaks(items);
      if TextOnly(items) {
        forall i | 0 <= i < |items| ensures items[i].Object? && items[i].kind == "text" { assert IsText(items[i]); }
      } else {
        var item :| item in items && !IsText(item);
        var i :| 0 <= i < |items| && items[i] == item;
      }
    }
  }

  lemma {:induction false} IdsExactly(events: seq<Event>, id: string)
    ensures id in Seen(events) <==> Used(events, id)
    ensures id in Answered(events) <==> Resulted(events, id)
  {
  }

  lemma {:induction false} EventSaid(events: seq<Event>, e: Event)
    ensures EventSays(events, e, EventBlocks(e, Answered(events), Seen(events)))
    ensures EventRole(e) == Speaker(e)
  {
    match e
    case UserMessage(_, content) => ContentSaid(content);
    case AgentMessage(_, content) => ContentSaid(content);
    case ThreadMessageReceived(_, content, metadata) => EnvelopeSaid(content, metadata);
    case ThreadMessageSent(_, content, metadata) => EnvelopeSaid(content, metadata);
    case ToolUse(_, _, _, _, _) => IdsExactly(events, UseId(e));
    case ToolResult(_, _, reference, content, isError) =>
      IdsExactly(events, reference);
      ResultSaid(reference, content, isError);
    case _ =>
  }

  lemma {:induction false} SplicedSnoc(events: seq<Event>, said: seq<seq<Block>>, e: Event, blocks: seq<Block>)
    requires |events| == |said|
    ensures Spliced(events + [e], said + [blocks]) == Spliced(events, said) + Tagged(Speaker(e), blocks)
  {
    var grown, more := events + [e], said + [blocks];
    if events == [] {
      assert grown[1..] == [] && more[1..] == [];
    } else {
      assert grown[1..] == events[1..] + [e] && more[1..] == said[1..] + [blocks];
      SplicedSnoc(events[1..], said[1..], e, blocks);
      Reassociate(Tagged(Speaker(events[0]), said[0]), Spliced(events[1..], said[1..]), Tagged(Speaker(e), blocks));
    }
  }

  /** Each of the first contributions is its event's. */
  ghost predicate AllSay(events: seq<Event>, said: seq<seq<Block>>) {
    |said| <= |events| && forall i :: 0 <= i < |said| ==> EventSays(events, events[i], said[i])
  }

  lemma {:induction false} AllSaySnoc(events: seq<Event>, said: seq<seq<Block>>, blocks: seq<Block>)
    requires AllSay(events, said) && |said| < |events| && EventSays(events, events[|said|], blocks)
    ensures AllSay(events, said + [blocks])
  {
  }

  lemma {:induction false} KeptSaid(events: seq<Event>, upto: nat) returns (said: seq<seq<Block>>)
    requires upto <= |events|
    ensures |said| == upto && AllSay(events, said)
    ensures Kept(events[..upto], Answered(events), Seen(events)) == Spliced(events[..upto], said)
  {
    if upto == 0 { return []; }
    var before := KeptSaid(events, upto - 1);
    said := KeptSaidSnoc(events, before);
  }

  lemma {:induction false} KeptSplices(init: seq<Event>, e: Event, before: seq<seq<Block>>, answered: set<string>,
      seen: set<string>)
    requires |init| == |before| && Kept(init, answered, seen) == Spliced(init, before) && EventRole(e) == Speaker(e)
    ensures Kept(init + [e], answered, seen) == Spliced(init + [e], before + [EventBlocks(e, answered, seen)])
  {
    KeptSnoc(init, e, answered, seen);
    SplicedSnoc(init, before, e, EventBlocks(e, answered, seen));
  }

  lemma {:induction false} KeptSaidSnoc(events: seq<Event>, before: seq<seq<Block>>) returns (said: seq<seq<Block>>)
    requires AllSay(events, before) && |before| < |events|
    requires Kept(events[..|before|], Answered(events), Seen(events)) == Spliced(events[..|before|], before)
    ensures |said| == |before| + 1 && AllSay(events, said)
    ensures Kept(events[..|said|], Answered(events), Seen(events)) == Spliced(events[..|said|], said)
  {
    var init, e := events[..|before|], events[|before|];
    EventSaid(events, e);
    said := before + [EventBlocks(e, Answered(events), Seen(events))];
    AllSaySnoc(events, before, EventBlocks(e, Answered(events), Seen(events)));
    KeptSplices(init, e, before, Answered(events), Seen(events));
    assert events[..|said|] == init + [e];
  }

  /** The projection of a log says, event by event and in order, under the event's role: of a
      message each item that speaks, as its text, its File's rendering or its encoding, and
      nothing of the others; of a cross-Thread message the same between its envelope's markers;
      a tool use when the log has a result for it; a result when the log has its use. */
  lemma {:induction false} ProjectionSays(events: seq<Event>) returns (said: seq<seq<Block>>)
    ensures |said| == |events| && AllSay(events, said)
    ensures Flatten(Projection(events)) == Spliced(events, said)
  {
    said := KeptSaid(events, |events|);
    assert events[..|events|] == events;
  }
}
