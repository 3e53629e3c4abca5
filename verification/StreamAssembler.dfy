/** The incremental decoder of a streamed model response (internal/model/anthropic.go).

    It starts from parsed server-sent events. `parse` is the JSON object decoder applied to the
    accumulated tool input, a partial function on byte strings. */
module StreamAssembler {
  import opened Conversation
  import opened Text

  type Parser = string -> Option<string>

  datatype Init = Init(kind: string, text: string, thinking: string, signature: string, data: string,
                       id: string, name: string, input: Option<string>)

  datatype Delta = TextDelta(text: string) | InputDelta(json: string) | ThinkingDelta(thinking: string)
    | SignatureDelta(signature: string) | OtherDelta

  datatype Usage = Usage(cacheCreation1h: int, cacheCreation5m: int, cacheRead: int, input: int, output: int,
                         webFetch: int, webSearch: int, speed: string)

  datatype Patch = Patch(cacheCreation1h: Option<int>, cacheCreation5m: Option<int>, cacheRead: Option<int>,
      input: Option<int>,
                         output: Option<int>, webFetch: Option<int>, webSearch: Option<int>, speed: Option<string>)

  datatype Event =
    | MessageStart(usage: Usage)
    | BlockStart(index: int, init: Init)
    | BlockDelta(index: int, delta: Delta)
    | BlockStop(index: int)
    | MessageDelta(stopReason: string, patch: Patch)
    | MessageStop
    | Undecodable

  /** One content block as its deltas arrive. */
  datatype Partial = Partial(kind: string, text: string, thinking: string, signature: string, data: string,
                             id: string, name: string, input: Option<string>, json: string)

  /** What a finished block carries, including what goes into its provider encoding. */
  datatype Built = Built(kind: string, text: string, signature: string, data: string, id: string, name: string,
      input: Option<string>)

  datatype Callback = ThinkingStart | TextPiece(index: int, text: string)

  datatype Response = Response(content: seq<Built>, stopReason: string, usage: Usage)

  const NO_USAGE := Usage(0, 0, 0, 0, 0, 0, 0, "")
  const NO_BLOCK := Partial("text", "", "", "", "", "", "", None, "")

  // ---------------------------------------------------------------- one block

  function Opened(init: Init): Partial {
    var kind := if init.kind == "" then "text" else init.kind;
    Partial(
      kind,
      if kind == "text" then init.text else "",
      if kind == "thinking" then init.thinking else "",
      if kind == "thinking" then init.signature else "",
      if kind == "redacted_thinking" then init.data else "",
      if kind == "tool_use" then init.id else "",
      if kind == "tool_use" then init.name else "",
      if kind == "tool_use" then init.input else None,
      "")
  }

  function Grown(b: Partial, d: Delta): Partial {
    match d
    case TextDelta(text) => b.(text := b.text + text)
    case InputDelta(json) => b.(json := b.json + json)
    case ThinkingDelta(thinking) => b.(thinking := b.thinking + thinking)
    case SignatureDelta(signature) => b.(signature := b.signature + signature)
    case OtherDelta => b
  }

  /** The accumulated tool input replaces the initial one when it decodes. */
  function Finalized(b: Partial, parse: Parser): Partial {
    if b.kind == "tool_use" && TrimSpace(b.json) != "" && parse(b.json).Some? then b.(input := parse(b.json)) else b
  }

  /** The effect of an event on the block it names. */
  function BlockStep(b: Option<Partial>, e: Event, parse: Parser): Option<Partial> {
    match e
    case BlockStart(_, init) => Some(Opened(init))
    case BlockDelta(_, delta) => Some(Grown(if b.Some? then b.value else NO_BLOCK, delta))
    case BlockStop(_) => if b.Some? then Some(Finalized(b.value, parse)) else None
    case _ => b
  }

  predicate Names(e: Event, index: int) {
    match e
    case BlockStart(i, _) => i == index
    case BlockDelta(i, _) => i == index
    case BlockStop(i) => i == index
    case _ => false
  }

  /** The events of one block. */
  function Of(events: seq<Event>, index: int): seq<Event> {
    if events == [] then []
    else
      var e := events[|events| - 1];
      Of(events[..|events| - 1], index) + if Names(e, index) then [e] else []
  }

  /** A block is a function of its own events alone. */
  function Block(events: seq<Event>, parse: Parser): Option<Partial> {
    if events == [] then None
    else BlockStep(Block(events[..|events| - 1], parse), events[|events| - 1], parse)
  }

  function Finish(b: Partial): Built {
    match b.kind
    case "tool_use" => Built(b.kind, "", "", "", b.id, b.name, b.input)
    case "thinking" => Built(b.kind, b.thinking, b.signature, "", "", "", None)
    case "redacted_thinking" => Built(b.kind, "", "", b.data, "", "", None)
    case _ => Built(b.kind, b.text, "", "", "", "", None)
  }

  // ---------------------------------------------------------------- the whole response

  /** Block indices in the order they first appear. */
  function Order(events: seq<Event>): seq<int> {
    if events == [] then []
    else
      var e, before := events[|events| - 1], Order(events[..|events| - 1]);
      if (e.BlockStart? || e.BlockDelta?) && e.index !in before then before + [e.index] else before
  }

  function Or<T>(patch: Option<T>, old0: T): T {
    if patch.Some? then patch.value else old0
  }

  function Patched(u: Usage, p: Patch): Usage {
    Usage(Or(p.cacheCreation1h, u.cacheCreation1h), Or(p.cacheCreation5m, u.cacheCreation5m),
        Or(p.cacheRead, u.cacheRead),
          Or(p.input, u.input), Or(p.output, u.output), Or(p.webFetch, u.webFetch), Or(p.webSearch, u.webSearch),
              Or(p.speed, u.speed))
  }

  function UsageOf(events: seq<Event>): Usage {
    if events == [] then NO_USAGE
    else
      var e, before := events[|events| - 1], UsageOf(events[..|events| - 1]);
      if e.MessageStart? then e.usage else if e.MessageDelta? then Patched(before, e.patch) else before
  }

  function StopReason(events: seq<Event>): string {
    if events == [] then ""
    else
      var e, before := events[|events| - 1], StopReason(events[..|events| - 1]);
      if e.MessageDelta? && e.stopReason != "" then e.stopReason else before
  }

  predicate StartsThinking(e: Event) {
    e.BlockStart? && (e.init.kind == "thinking" || e.init.kind == "redacted_thinking")
  }

  /** What the callbacks receive: a marker for the first thinking block, and every text piece. */
  function Callbacks(events: seq<Event>): seq<Callback> {
    if events == [] then []
    else
      var e, before := events[|events| - 1], events[..|events| - 1];
      Callbacks(before) +
        if StartsThinking(e) && !(exists x :: x in before && StartsThinking(x)) then [ThinkingStart]
        else if e.BlockDelta? && e.delta.TextDelta? && e.delta.text != "" then [TextPiece(e.index, e.delta.text)]
        else []
  }

  function Content(events: seq<Event>, order: seq<int>, parse: Parser): (content: seq<Built>)
    ensures |content| == |order|
  {
    seq(|order|, k requires 0 <= k < |order| =>
      var b := Block(Of(events, order[k]), parse);
      Finish(Finalized(if b.Some? then b.value else NO_BLOCK, parse)))
  }

  /** The response as a function of the events: each block from its own events only. */
  function Assembled(events: seq<Event>, parse: Parser): Option<Response> {
    if Undecodable in events then None
    else Some(Response(Content(events, Order(events), parse), StopReason(events), UsageOf(events)))
  }

  lemma {:induction false} OfSnoc(init: seq<Event>, e: Event, index: int)
    ensures Of(init + [e], index) == Of(init, index) + if Names(e, index) then [e] else []
  {
    assert (init + [e])[..|init|] == init;
  }

  lemma {:induction false} BlockSnoc(init: seq<Event>, e: Event, parse: Parser)
    ensures Block(init + [e], parse) == BlockStep(Block(init, parse), e, parse)
  {
    assert (init + [e])[..|init|] == init;
  }

  /** How one event moves each block. */
  lemma {:induction false} BlockMoves(events: seq<Event>, k: nat, index: int, parse: Parser)
    requires k < |events|
    ensures Block(Of(events[..k + 1], index), parse)
      == if Names(events[k], index) then BlockStep(Block(Of(events[..k], index), parse), events[k], parse)
         else Block(Of(events[..k], index), parse)
  {
    assert events[..k + 1] == events[..k] + [events[k]];
    OfSnoc(events[..k], events[k], index);
    if Names(events[k], index) {
      BlockSnoc(Of(events[..k], index), events[k], parse);
    } else {
      assert Of(events[..k], index) + [] == Of(events[..k], index);
    }
  }

  /** The live blocks agree with the events decoded so far. */
  ghost predicate Agrees(blocks: map<int, Partial>, events: seq<Event>, parse: Parser) {
    forall i :: Block(Of(events, i), parse) == if i in blocks then Some(blocks[i]) else None
  }

  lemma {:induction false} AgreesNext(blocks: map<int, Partial>, blocks': map<int, Partial>, events: seq<Event>, k: nat,
      parse: Parser)
    requires k < |events| && Agrees(blocks, events[..k], parse)
    requires forall i :: if Names(events[k], i)
      then BlockStep(if i in blocks then Some(blocks[i]) else None, events[k], parse) ==
          if i in blocks' then Some(blocks'[i]) else None
      else (i in blocks') == (i in blocks) && (i in blocks ==> blocks'[i] == blocks[i])
    ensures Agrees(blocks', events[..k + 1], parse)
  {
    forall i ensures Block(Of(events[..k + 1], i), parse) == if i in blocks' then Some(blocks'[i]) else None {
      BlockMoves(events, k, i, parse);
      assert Block(Of(events[..k], i), parse) == if i in blocks then Some(blocks[i]) else None;
    }
  }

  lemma {:induction false} FoldsNext(events: seq<Event>, k: nat)
    requires k < |events|
    ensures var e, prefix := events[k], events[..k];
      && Order(events[..k + 1]) == (if (e.BlockStart? || e.BlockDelta?) && e.index !in Order(prefix) then
          Order(prefix) + [e.index] else Order(prefix))
      && UsageOf(events[..k + 1]) == (if e.MessageStart? then e.usage
          else if e.MessageDelta? then Patched(UsageOf(prefix), e.patch) else UsageOf(prefix))
      && StopReason(events[..k + 1]) == (if e.MessageDelta? && e.stopReason != "" then e.stopReason
          else StopReason(prefix))
      && Callbacks(events[..k + 1]) == Callbacks(prefix) +
           if StartsThinking(e) && !(exists x :: x in prefix && StartsThinking(x)) then [ThinkingStart]
           else if e.BlockDelta? && e.delta.TextDelta? && e.delta.text != "" then [TextPiece(e.index, e.delta.text)]
           else []
  {
    assert events[..k + 1][..k] == events[..k];
  }

  lemma {:induction false} ThinkingNext(events: seq<Event>, k: nat)
    requires k < |events|
    ensures (exists x :: x in events[..k + 1] && StartsThinking(x))
      <==> (exists x :: x in events[..k] && StartsThinking(x)) || StartsThinking(events[k])
  {
    assert events[..k + 1] == events[..k] + [events[k]];
  }

  /** A block is live exactly when its index is in the order. */
  lemma {:induction false} LiveOrdered(events: seq<Event>, index: int, parse: Parser)
    ensures index in Order(events) <==> Block(Of(events, index), parse).Some?
  {
    if events != [] {
      var k := |events| - 1;
      assert events[..k + 1] == events;
      LiveOrdered(events[..k], index, parse);
      OrderNext(events, k);
      BlockMoves(events, k, index, parse);
      LiveStep(Order(events[..k]), Block(Of(events[..k], index), parse), events[k], index, parse);
    }
  }

  lemma {:induction false} OrderNext(events: seq<Event>, k: nat)
    requires k < |events|
    ensures Order(events[..k + 1]) == Joined(Order(events[..k]), events[k])
  {
    assert events[..k + 1][..k] == events[..k];
  }

  function Joined(order: seq<int>, e: Event): seq<int> {
    if (e.BlockStart? || e.BlockDelta?) && e.index !in order then order + [e.index] else order
  }

  lemma {:induction false} LiveStep(order: seq<int>, b: Option<Partial>, e: Event, index: int, parse: Parser)
    requires index in order <==> b.Some?
    ensures index in Joined(order, e) <==> (if Names(e, index) then BlockStep(b, e, parse) else b).Some?
  {
  }

  // ---------------------------------------------------------------- the decoder

  /** One event applied to the live blocks, their order and the thinking marker. */
  method StepBlocks(blocks: map<int, Partial>, order: seq<int>, e: Event, parse: Parser)
    returns (blocks': map<int, Partial>, order': seq<int>)
    ensures forall i :: if Names(e, i)
      then BlockStep(if i in blocks then Some(blocks[i]) else None, e, parse) == if i in blocks' then Some(blocks'[i])
          else None
      else (i in blocks') == (i in blocks) && (i in blocks ==> blocks'[i] == blocks[i])
    ensures order' == if (e.BlockStart? || e.BlockDelta?) && e.index !in blocks then order + [e.index] else order
  {
    blocks', order' := blocks, order;
    match e {
      case BlockStart(index, init) =>
        if index !in blocks { order' := order + [index]; }
        blocks' := blocks[index := Opened(init)];
      case BlockDelta(index, delta) =>
        var b := NO_BLOCK;
        if index in blocks { b := blocks[index]; } else { order' := order + [index]; }
        match delta {
          case TextDelta(text) => b := b.(text := b.text + text);
          case InputDelta(json) => b := b.(json := b.json + json);
          case ThinkingDelta(thinking) => b := b.(thinking := b.thinking + thinking);
          case SignatureDelta(signature) => b := b.(signature := b.signature + signature);
          case OtherDelta =>
        }
        blocks' := blocks[index := b];
      case BlockStop(index) =>
        if index in blocks { blocks' := blocks[index := Finalized(blocks[index], parse)]; }
      case _ =>
    }
  }

  /** What the decoder keeps besides the blocks. */
  datatype Rest = Rest(usage: Usage, stopReason: string, thinkingStarted: bool, callbacks: seq<Callback>)

  ghost function RestOf(events: seq<Event>): Rest {
    Rest(UsageOf(events), StopReason(events), exists x :: x in events && StartsThinking(x), Callbacks(events))
  }

  /** One event applied to the usage, the stop reason and the callbacks. */
  method StepRest(rest: Rest, ghost events: seq<Event>, ghost k: nat, e: Event) returns (rest': Rest)
    requires k < |events| && e == events[k] && rest == RestOf(events[..k])
    ensures rest' == RestOf(events[..k + 1])
  {
    FoldsNext(events, k);
    ThinkingNext(events, k);
    rest' := rest;
    if StartsThinking(e) {
      if !rest.thinkingStarted { rest' := rest'.(callbacks := rest.callbacks + [ThinkingStart]); }
      rest' := rest'.(thinkingStarted := true);
    } else if e.BlockDelta? && e.delta.TextDelta? && e.delta.text != "" {
      rest' := rest'.(callbacks := rest.callbacks + [TextPiece(e.index, e.delta.text)]);
    } else if e.MessageStart? {
      rest' := rest'.(usage := e.usage);
    } else if e.MessageDelta? {
      if e.stopReason != "" { rest' := rest'.(stopReason := e.stopReason); }
      rest' := rest'.(usage := Patched(rest.usage, e.patch));
    }
  }

  method DecodeMessageStream(events: seq<Event>, parse: Parser)
      returns (response: Option<Response>, callbacks: seq<Callback>)
    ensures response == Assembled(events, parse)
    ensures response.Some? ==> callbacks == Callbacks(events)
  {
    var blocks: map<int, Partial> := map[];
    var order: seq<int> := [];
    var rest := Rest(NO_USAGE, "", false, []);
    for k := 0 to |events|
      invariant Agrees(blocks, events[..k], parse) && order == Order(events[..k])
      invariant rest == RestOf(events[..k])
      invariant Undecodable !in events[..k]
    {
      var e := events[k];
      if e.Undecodable? {
        assert Undecodable in events;
        return None, rest.callbacks;
      }
      blocks, order := StepLive(blocks, order, events, k, e, parse);
      rest := StepRest(rest, events, k, e);
      assert events[..k + 1] == events[..k] + [e];
    }
    assert events[..|events|] == events;
    var content := BuildContent(events, blocks, order, parse);
    response := Some(Response(content, rest.stopReason, rest.usage));
    callbacks := rest.callbacks;
  }

  method StepLive(blocks: map<int, Partial>, order: seq<int>, ghost events: seq<Event>, ghost k: nat, e: Event,
      parse: Parser)
    returns (blocks': map<int, Partial>, order': seq<int>)
    requires k < |events| && e == events[k] && Agrees(blocks, events[..k], parse) && order == Order(events[..k])
    ensures Agrees(blocks', events[..k + 1], parse) && order' == Order(events[..k + 1])
  {
    FoldsNext(events, k);
    if e.BlockDelta? || e.BlockStart? { LiveOrdered(events[..k], e.index, parse); }
    blocks', order' := StepBlocks(blocks, order, e, parse);
    AgreesNext(blocks, blocks', events, k, parse);
  }

  /** Finalizes and emits the blocks in their order. */
  method BuildContent(ghost events: seq<Event>, blocks: map<int, Partial>, order: seq<int>, parse: Parser)
      returns (content: seq<Built>)
    requires Agrees(blocks, events, parse) && order == Order(events)
    ensures content == Content(events, order, parse)
  {
    content := [];
    for j := 0 to |order|
      invariant |content| == j && forall i :: 0 <= i < j ==> content[i] == Content(events, order, parse)[i]
    {
      LiveOrdered(events, order[j], parse);
      var b := blocks[order[j]];
      if b.kind == "tool_use" && TrimSpace(b.json) != "" {
        var input := parse(b.json);
        if input.Some? { b := b.(input := input); }
      }
      content := content + [Finish(b)];
    }
  }

  // ---------------------------------------------------------------- decoding inverts any chunking

  function TextOf(ds: seq<Delta>): string {
    if ds == [] then ""
    else
      var d := ds[|ds| - 1];
      TextOf(ds[..|ds| - 1]) + if d.TextDelta? then d.text else ""
  }

  function JsonOf(ds: seq<Delta>): string {
    if ds == [] then ""
    else
      var d := ds[|ds| - 1];
      JsonOf(ds[..|ds| - 1]) + if d.InputDelta? then d.json else ""
  }

  function ThinkingOf(ds: seq<Delta>): string {
    if ds == [] then ""
    else
      var d := ds[|ds| - 1];
      ThinkingOf(ds[..|ds| - 1]) + if d.ThinkingDelta? then d.thinking else ""
  }

  function SignatureOf(ds: seq<Delta>): string {
    if ds == [] then ""
    else
      var d := ds[|ds| - 1];
      SignatureOf(ds[..|ds| - 1]) + if d.SignatureDelta? then d.signature else ""
  }

  /** The start of a block, its deltas, and possibly its stop. */
  ghost predicate Sequence(es: seq<Event>, index: int, init: Init, ds: seq<Delta>, stopped: bool) {
    && |es| == 1 + |ds| + (if stopped then 1 else 0)
    && es[0] == BlockStart(index, init)
    && (forall k :: 0 <= k < |ds| ==> es[1 + k] == BlockDelta(index, ds[k]))
    && (stopped ==> es[|es| - 1] == BlockStop(index))
  }

  /** `es` is some way to stream the block `b`: the pieces of each kind concatenate to it. */
  ghost predicate Streams(es: seq<Event>, index: int, init: Init, ds: seq<Delta>, stopped: bool, b: Built,
      parse: Parser) {
    && Sequence(es, index, init, ds, stopped)
    && b == match b.kind
       case "tool_use" =>
         var json := JsonOf(ds);
         Built(init.kind, "", "", "", init.id, init.name,
               if TrimSpace(json) != "" && parse(json).Some? then parse(json) else init.input)
       case "thinking" => Built(init.kind, init.thinking + ThinkingOf(ds), init.signature + SignatureOf(ds), "", "", "",
           None)
       case "redacted_thinking" => Built(init.kind, "", "", init.data, "", "", None)
       case _ => Built(if init.kind == "" then "text"
           else init.kind, (if b.kind == "text" then init.text else "") + TextOf(ds), "", "", "", "", None)
  }

  /** What the deltas after a start have accumulated. */
  function Accumulated(init: Init, ds: seq<Delta>): Partial {
    var b := Opened(init);
    b.(text := b.text + TextOf(ds), json := JsonOf(ds), thinking := b.thinking + ThinkingOf(ds), signature :=
        b.signature + SignatureOf(ds))
  }

  lemma {:induction false} AccumulatedSnoc(init: Init, ds: seq<Delta>, d: Delta)
    ensures Accumulated(init, ds + [d]) == Grown(Accumulated(init, ds), d)
  {
    assert (ds + [d])[..|ds|] == ds;
    var b := Opened(init);
    assert b.text + (TextOf(ds) + if d.TextDelta? then d.text else "") == (b.text + TextOf(ds)) +
        if d.TextDelta? then d.text else "";
    assert b.thinking + (ThinkingOf(ds) + if d.ThinkingDelta? then d.thinking else "")
      == (b.thinking + ThinkingOf(ds)) + if d.ThinkingDelta? then d.thinking else "";
    assert b.signature + (SignatureOf(ds) + if d.SignatureDelta? then d.signature else "")
      == (b.signature + SignatureOf(ds)) + if d.SignatureDelta? then d.signature else "";
  }

  lemma {:induction false} DeltaNext(prev: seq<Event>, index: int, init: Init, ds: seq<Delta>, d: Delta, parse: Parser)
    requires Block(prev, parse) == Some(Accumulated(init, ds))
    ensures Block(prev + [BlockDelta(index, d)], parse) == Some(Accumulated(init, ds + [d]))
  {
    BlockSnoc(prev, BlockDelta(index, d), parse);
    AccumulatedSnoc(init, ds, d);
  }

  lemma {:induction false} SequenceInit(es: seq<Event>, index: int, init: Init, ds: seq<Delta>)
    requires Sequence(es, index, init, ds, false) && ds != []
    ensures var n := |ds| - 1;
      n + 1 < |es| && es == es[..n + 1] + [BlockDelta(index, ds[n])]
          && Sequence(es[..n + 1], index, init, ds[..n], false)
  {
  }

  lemma {:induction false} DeltasAccumulate(es: seq<Event>, index: int, init: Init, ds: seq<Delta>, parse: Parser)
    requires Sequence(es, index, init, ds, false)
    ensures Block(es, parse) == Some(Accumulated(init, ds))
    decreases |ds|
  {
    if ds == [] {
      assert es == [] + [BlockStart(index, init)];
      BlockSnoc([], BlockStart(index, init), parse);
      assert Accumulated(init, []) == Opened(init);
    } else {
      var n := |ds| - 1;
      SequenceInit(es, index, init, ds);
      DeltasAccumulate(es[..n + 1], index, init, ds[..n], parse);
      assert ds == ds[..n] + [ds[n]];
      DeltaNext(es[..n + 1], index, init, ds[..n], ds[n], parse);
    }
  }

  lemma {:induction false} StreamedBlock(es: seq<Event>, index: int, init: Init, ds: seq<Delta>, stopped: bool,
      parse: Parser)
    requires Sequence(es, index, init, ds, stopped)
    ensures Block(es, parse).Some?
    ensures Finalized(Block(es, parse).value, parse) == Finalized(Accumulated(init, ds), parse)
  {
    if stopped {
      var n := |es| - 1;
      DeltasAccumulate(es[..n], index, init, ds, parse);
      assert es == es[..n] + [BlockStop(index)];
      BlockSnoc(es[..n], BlockStop(index), parse);
    } else {
      DeltasAccumulate(es, index, init, ds, parse);
    }
  }

  /** The block rebuilt from any of its streams is the block. */
  lemma {:induction false} BlockRebuilt(es: seq<Event>, index: int, init: Init, ds: seq<Delta>, stopped: bool, b: Built,
      parse: Parser)
    requires Streams(es, index, init, ds, stopped, b, parse)
    ensures Block(es, parse).Some? && Finish(Finalized(Block(es, parse).value, parse)) == b
  {
    StreamedBlock(es, index, init, ds, stopped, parse);
  }

  /** A block of a response together with one way it was streamed. */
  datatype Chunked = Chunked(index: int, init: Init, deltas: seq<Delta>, stopped: bool, block: Built)

  /** The events stream these blocks: however the blocks are interleaved, the events of each
      are a stream of it, and they start in this order. */
  ghost predicate StreamsAll(events: seq<Event>, blocks: seq<Chunked>, parse: Parser) {
    && |Order(events)| == |blocks|
    && forall k :: 0 <= k < |blocks| ==>
         && Order(events)[k] == blocks[k].index
         && Streams(Of(events, blocks[k].index), blocks[k].index, blocks[k].init, blocks[k].deltas, blocks[k].stopped,
             blocks[k].block, parse)
  }

  /** Whatever way a response's blocks are cut into deltas and interleaved, the decoder
      rebuilds exactly its blocks, in the order they started. */
  lemma {:induction false} ChunkingInverted(events: seq<Event>, blocks: seq<Chunked>, parse: Parser)
    requires Undecodable !in events && StreamsAll(events, blocks, parse)
    ensures Assembled(events, parse).Some?
    ensures var content := Assembled(events, parse).value.content;
      |content| == |blocks| && forall k :: 0 <= k < |blocks| ==> content[k] == blocks[k].block
  {
    var content := Content(events, Order(events), parse);
    forall k | 0 <= k < |blocks| ensures content[k] == blocks[k].block {
      var c := blocks[k];
      BlockRebuilt(Of(events, c.index), c.index, c.init, c.deltas, c.stopped, c.block, parse);
    }
  }

  /** Only each block's own events and the order of first appearance matter to the content. */
  lemma {:induction false} InterleavingIrrelevant(a: seq<Event>, b: seq<Event>, parse: Parser)
    requires Undecodable !in a && Undecodable !in b && Order(a) == Order(b)
    requires forall i | i in Order(a) :: Of(a, i) == Of(b, i)
    ensures Assembled(a, parse).value.content == Assembled(b, parse).value.content
  {
    var x, y := Content(a, Order(a), parse), Content(b, Order(b), parse);
    forall k | 0 <= k < |x| ensures x[k] == y[k] {
      assert Order(a)[k] in Order(a);
    }
  }

  /** Two streams that no block, no total and no order can tell apart. */
  ghost predicate Alike(a: seq<Event>, b: seq<Event>) {
    && Order(a) == Order(b) && (forall i :: Of(a, i) == Of(b, i))
    && StopReason(a) == StopReason(b) && UsageOf(a) == UsageOf(b) && (Undecodable in a <==> Undecodable in b)
  }

  lemma {:induction false} AlikeAssembled(a: seq<Event>, b: seq<Event>, parse: Parser)
    requires Alike(a, b)
    ensures Assembled(a, parse) == Assembled(b, parse)
  {
    var x, y := Content(a, Order(a), parse), Content(b, Order(b), parse);
    forall k | 0 <= k < |x| ensures x[k] == y[k] {
      assert Of(a, Order(a)[k]) == Of(b, Order(a)[k]);
    }
    assert x == y;
  }

  lemma {:induction false} TotalsSnoc(init: seq<Event>, e: Event)
    ensures Order(init + [e]) == if (e.BlockStart? || e.BlockDelta?) && e.index !in Order(init) then
        Order(init) + [e.index] else Order(init)
    ensures StopReason(init + [e]) == if e.MessageDelta? && e.stopReason != "" then e.stopReason else StopReason(init)
    ensures UsageOf(init + [e])
      == if e.MessageStart? then e.usage else if e.MessageDelta? then Patched(UsageOf(init), e.patch) else UsageOf(init)
  {
    assert (init + [e])[..|init|] == init;
  }

  lemma {:induction false} AlikeSnoc(a: seq<Event>, b: seq<Event>, e: Event)
    requires Alike(a, b)
    ensures Alike(a + [e], b + [e])
  {
    TotalsSnoc(a, e);
    TotalsSnoc(b, e);
    forall i ensures Of(a + [e], i) == Of(b + [e], i) {
      OfSnoc(a, e, i);
      OfSnoc(b, e, i);
    }
  }

  lemma AppendSnoc(a: seq<Event>, init: seq<Event>, e: Event)
    ensures a + (init + [e]) == (a + init) + [e]
  {
  }

  lemma {:induction false} AlikeThen(a: seq<Event>, b: seq<Event>, after: seq<Event>)
    requires Alike(a, b)
    ensures Alike(a + after, b + after)
  {
    if after == [] {
      assert a + after == a;
      assert b + after == b;
    } else {
      var init, e := after[..|after| - 1], after[|after| - 1];
      assert after == init + [e];
      AlikeThen(a, b, init);
      AlikeSnoc(a + init, b + init, e);
      AppendSnoc(a, init, e);
      AppendSnoc(b, init, e);
    }
  }

  predicate OfBlock(e: Event) {
    e.BlockStart? || e.BlockDelta? || e.BlockStop?
  }

  /** An event that may open its block's place in the response. */
  predicate Places(e: Event, before: seq<Event>) {
    (e.BlockStart? || e.BlockDelta?) && e.index !in Order(before)
  }

  lemma {:induction false} SwappedAlike(before: seq<Event>, x: Event, y: Event)
    requires OfBlock(x) && OfBlock(y) && x.index != y.index && !(Places(x, before) && Places(y, before))
    ensures Alike(before + [x] + [y], before + [y] + [x])
  {
    TotalsSnoc(before, x);
    TotalsSnoc(before, y);
    TotalsSnoc(before + [x], y);
    TotalsSnoc(before + [y], x);
    forall i ensures Of(before + [x] + [y], i) == Of(before + [y] + [x], i) {
      OfSnoc(before, x, i);
      OfSnoc(before, y, i);
      OfSnoc(before + [x], y, i);
      OfSnoc(before + [y], x, i);
    }
  }

  /** Anywhere in a stream two neighbouring events of different blocks may trade places, unless
      both are the first of their block, without any change to the response. */
  lemma {:induction false} EventsCommute(before: seq<Event>, x: Event, y: Event, after: seq<Event>, parse: Parser)
    requires OfBlock(x) && OfBlock(y) && x.index != y.index && !(Places(x, before) && Places(y, before))
    ensures Assembled(before + [x] + [y] + after, parse) == Assembled(before + [y] + [x] + after, parse)
  {
    SwappedAlike(before, x, y);
    AlikeThen(before + [x] + [y], before + [y] + [x], after);
    AlikeAssembled(before + [x] + [y] + after, before + [y] + [x] + after, parse);
  }

  // ---------------------------------------------------------------- callbacks

  /** The text pieces handed to the callback for one block, joined. */
  function Pieces(callbacks: seq<Callback>, index: int): string {
    if callbacks == [] then ""
    else
      var c := callbacks[|callbacks| - 1];
      Pieces(callbacks[..|callbacks| - 1], index) + if c.TextPiece? && c.index == index then c.text else ""
  }

  /** The text a block's events add after its latest start, and the text it starts with. */
  function StartText(es: seq<Event>): string {
    if es == [] then ""
    else
      var e := es[|es| - 1];
      if e.BlockStart? then Opened(e.init).text else StartText(es[..|es| - 1])
  }

  predicate StartsOnce(es: seq<Event>) {
    forall k :: 0 < k < |es| ==> !es[k].BlockStart?
  }

  lemma {:induction false} PiecesSnoc(callbacks: seq<Callback>, c: Callback, index: int)
    ensures Pieces(callbacks + [c], index) == Pieces(callbacks, index) + if c.TextPiece? && c.index == index then c.text
        else ""
  {
    assert (callbacks + [c])[..|callbacks|] == callbacks;
  }

  /** The callback pieces of a block are its text deltas. */
  lemma {:induction false} PiecesNext(events: seq<Event>, k: nat, index: int)
    requires k < |events|
    ensures var e := events[k];
      Pieces(Callbacks(events[..k + 1]), index) == Pieces(Callbacks(events[..k]), index)
        + if e.BlockDelta? && e.delta.TextDelta? && e.index == index then e.delta.text else ""
  {
    FoldsNext(events, k);
    var e, before := events[k], Callbacks(events[..k]);
    if StartsThinking(e) {
      PiecesSnoc(before, ThinkingStart, index);
      assert before + [] == before;
    } else if e.BlockDelta? && e.delta.TextDelta? && e.delta.text != "" {
      PiecesSnoc(before, TextPiece(e.index, e.delta.text), index);
    } else {
      assert before + [] == before;
    }
  }

  /** For every block that starts once, the text it starts with followed by the pieces the
      callback received for it is the block's text. */
  lemma {:induction false} PiecesSpellText(events: seq<Event>, index: int, parse: Parser)
    requires StartsOnce(Of(events, index)) && Block(Of(events, index), parse).Some?
    ensures Block(Of(events, index), parse).value.text
        == StartText(Of(events, index)) + Pieces(Callbacks(events), index)
  {
    PiecesSoFar(events, index, parse);
  }

  /** A block's text is what it started with and the pieces handed out; before it appears
      nothing was handed out for it. */
  ghost predicate Spelled(b: Option<Partial>, start: string, pieces: string) {
    match b
    case None => start == "" && pieces == ""
    case Some(b) => b.text == start + pieces
  }

  lemma {:induction false} SpelledStep(b: Option<Partial>, start: string, pieces: string, e: Event, parse: Parser)
    requires Spelled(b, start, pieces) && (e.BlockStart? ==> b.None?)
    requires e.BlockStart? || e.BlockDelta? || e.BlockStop?
    ensures Spelled(BlockStep(b, e, parse), if e.BlockStart? then Opened(e.init).text else start,
                    pieces + if e.BlockDelta? && e.delta.TextDelta? then e.delta.text else "")
  {
    if e.BlockDelta? && e.delta.TextDelta? {
      assert start + (pieces + e.delta.text) == (start + pieces) + e.delta.text;
    } else {
      assert pieces + "" == pieces;
    }
  }

  lemma {:induction false} PiecesSoFar(events: seq<Event>, index: int, parse: Parser)
    requires StartsOnce(Of(events, index))
    ensures Spelled(Block(Of(events, index), parse), StartText(Of(events, index)), Pieces(Callbacks(events), index))
  {
    if events != [] {
      var k := |events| - 1;
      var init, e := events[..k], events[k];
      assert events[..k + 1] == events && init + [e] == events;
      var before := Of(init, index);
      OfSnoc(init, e, index);
      StartsOnceInit(before, Of(events, index), e, Names(e, index));
      PiecesSoFar(init, index, parse);
      PiecesNext(events, k, index);
      if Names(e, index) {
        BlockSnoc(before, e, parse);
        StartTextSnoc(before, e);
        SpelledStep(Block(before, parse), StartText(before), Pieces(Callbacks(init), index), e, parse);
      } else {
        assert before + [] == before;
        assert Pieces(Callbacks(init), index) + "" == Pieces(Callbacks(init), index);
      }
    }
  }

  lemma {:induction false} StartTextSnoc(es: seq<Event>, e: Event)
    ensures StartText(es + [e]) == if e.BlockStart? then Opened(e.init).text else StartText(es)
  {
    assert (es + [e])[..|es|] == es;
  }

  lemma {:induction false} StartsOnceInit(before: seq<Event>, after: seq<Event>, e: Event, named: bool)
    requires after == before + (if named then [e] else []) && StartsOnce(after)
    ensures StartsOnce(before) && (named && before != [] ==> !e.BlockStart?)
  {
    if named { assert after[|before|] == e; }
    assert forall k :: 0 <= k < |before| ==> after[k] == before[k];
  }

  // ---------------------------------------------------------------- usage

  datatype Field = CacheCreation1h | CacheCreation5m | CacheRead | Input | Output | WebFetch | WebSearch | Speed

  datatype Value = Count(n: int) | Name(s: string)

  function Get(u: Usage, f: Field): Value {
    match f
    case CacheCreation1h => Count(u.cacheCreation1h)
    case CacheCreation5m => Count(u.cacheCreation5m)
    case CacheRead => Count(u.cacheRead)
    case Input => Count(u.input)
    case Output => Count(u.output)
    case WebFetch => Count(u.webFetch)
    case WebSearch => Count(u.webSearch)
    case Speed => Name(u.speed)
  }

  function Counted(n: Option<int>): Option<Value> {
    if n.Some? then Some(Count(n.value)) else None
  }

  /** The value of a usage field that an event carries, if it carries one. */
  function Carried(e: Event, f: Field): Option<Value> {
    match e
    case MessageStart(usage) => Some(Get(usage, f))
    case MessageDelta(_, p) =>
      (match f
       case CacheCreation1h => Counted(p.cacheCreation1h)
       case CacheCreation5m => Counted(p.cacheCreation5m)
       case CacheRead => Counted(p.cacheRead)
       case Input => Counted(p.input)
       case Output => Counted(p.output)
       case WebFetch => Counted(p.webFetch)
       case WebSearch => Counted(p.webSearch)
       case Speed => if p.speed.Some? then Some(Name(p.speed.value)) else None)
    case _ => None
  }

  lemma {:induction false} UsageUnchanged(events: seq<Event>, from: nat, f: Field)
    requires from <= |events| && forall k :: from <= k < |events| ==> Carried(events[k], f) == None
    ensures Get(UsageOf(events), f) == Get(UsageOf(events[..from]), f)
    decreases |events|
  {
    if from < |events| {
      UsageUnchanged(events[..|events| - 1], from, f);
      assert events[..|events| - 1][..from] == events[..from];
    } else {
      assert events[..from] == events;
    }
  }

  /** What a stream that carries nothing for a field leaves it at. */
  function Unset(f: Field): Value {
    if f == Speed then Name("") else Count(0)
  }

  /** The last event that carries a field, or nothing. */
  ghost predicate LastCarrier(events: seq<Event>, at: Option<nat>, f: Field) {
    match at
    case None => forall k :: 0 <= k < |events| ==> Carried(events[k], f) == None
    case Some(k) =>
      && k < |events| && Carried(events[k], f).Some?
      && forall j :: k < j < |events| ==> Carried(events[j], f) == None
  }

  /** Every usage field of the response is the last value the stream carried for it. */
  lemma {:induction false} UsageIsLastCarried(events: seq<Event>, at: Option<nat>, f: Field, parse: Parser)
    requires Undecodable !in events && LastCarrier(events, at, f)
    ensures Assembled(events, parse).Some?
    ensures Get(Assembled(events, parse).value.usage, f)
        == match at case None => Unset(f) case Some(k) => Carried(events[k], f).value
  {
    match at
    case None =>
      UsageUnchanged(events, 0, f);
    case Some(k) =>
      UsageUnchanged(events, k + 1, f);
      assert events[..k + 1][..k] == events[..k];
  }

  predicate Reasons(e: Event) {
    e.MessageDelta? && |e.stopReason| > 0
  }

  ghost predicate LastReason(events: seq<Event>, at: Option<nat>) {
    match at
    case None => forall k :: 0 <= k < |events| ==> !Reasons(events[k])
    case Some(k) => k < |events| && Reasons(events[k]) && forall j :: k < j < |events| ==> !Reasons(events[j])
  }

  /** The response's stop reason is the last one the stream carried. */
  lemma {:induction false} StopReasonIsLast(events: seq<Event>, at: Option<nat>, parse: Parser)
    requires Undecodable !in events && LastReason(events, at)
    ensures Assembled(events, parse).Some?
    ensures Assembled(events, parse).value.stopReason == match at case None => "" case Some(k) => events[k].stopReason
  {
    LastReasonKept(events, at);
  }

  lemma {:induction false} LastReasonKept(events: seq<Event>, at: Option<nat>)
    requires LastReason(events, at)
    ensures StopReason(events) == match at case None => "" case Some(k) => events[k].stopReason
    decreases |events|
  {
    if events != [] && at != Some(|events| - 1) { LastReasonKept(events[..|events| - 1], at); }
  }

  // ---------------------------------------------------------------- order and callbacks

  predicate Appears(e: Event) {
    e.BlockStart? || e.BlockDelta?
  }

  /** A block's first start or delta. */
  ghost predicate Introduces(events: seq<Event>, i: nat, e: Event) {
    Appears(e) && forall j: nat :: j < i && j < |events| && Appears(events[j]) ==> events[j].index != e.index
  }

  ghost function Introductions(events: seq<Event>): (nat, Event) -> bool {
    (i: nat, e: Event) => Introduces(events, i, e)
  }

  ghost predicate IndicesAt(order: seq<int>, events: seq<Event>, at: seq<nat>) {
    |order| == |at| && forall k :: 0 <= k < |at| ==>
      at[k] < |events| && Appears(events[at[k]]) && order[k] == events[at[k]].index
  }

  lemma {:induction false} InOrder(events: seq<Event>, n: nat, index: int)
    requires n <= |events|
    ensures index in Order(events[..n]) <==> exists j :: 0 <= j < n && Appears(events[j]) && events[j].index == index
  {
    if n > 0 {
      InOrder(events, n - 1, index);
      OrderNext(events, n - 1);
    }
  }

  /** The blocks of a response are ordered by their first start or delta. */
  lemma {:induction false} OrderPicked(events: seq<Event>, n: nat) returns (at: seq<nat>)
    requires n <= |events|
    ensures Picks(events[..n], at, Introductions(events)) && IndicesAt(Order(events[..n]), events, at)
  {
    if n == 0 { return []; }
    var e := events[n - 1];
    var before := OrderPicked(events, n - 1);
    assert events[..n] == events[..n - 1] + [e];
    OrderNext(events, n - 1);
    if Appears(e) { InOrder(events, n - 1, e.index); }
    at := if Introductions(events)(n - 1, e) then before + [n - 1] else before;
    assert Picks(events[..n], at, Introductions(events)) by {
      PicksSnoc(events[..n - 1], before, e, Introductions(events));
    }
  }

  predicate Thinks(e: Event) {
    e.BlockStart? && e.init.kind in {"thinking", "redacted_thinking"}
  }

  predicate Says(e: Event) {
    e.BlockDelta? && e.delta.TextDelta? && |e.delta.text| > 0
  }

  /** The first thinking block, and every piece of text. */
  ghost predicate Heard(events: seq<Event>, i: nat, e: Event) {
    Says(e) || (Thinks(e) && forall j: nat :: j < i && j < |events| ==> !Thinks(events[j]))
  }

  ghost function Hearing(events: seq<Event>): (nat, Event) -> bool {
    (i: nat, e: Event) => Heard(events, i, e)
  }

  ghost predicate CallsAt(calls: seq<Callback>, events: seq<Event>, at: seq<nat>) {
    |calls| == |at| && forall k :: 0 <= k < |at| ==> at[k] < |events| && calls[k] == Call(events[at[k]])
  }

  function Call(e: Event): Callback {
    if e.BlockDelta? && e.delta.TextDelta? then TextPiece(e.index, e.delta.text) else ThinkingStart
  }

  lemma {:induction false} HeardNext(events: seq<Event>, k: nat)
    requires k < |events|
    ensures Callbacks(events[..k + 1])
      == Callbacks(events[..k]) + if Heard(events, k, events[k]) then [Call(events[k])] else []
  {
    FoldsNext(events, k);
    ThoughtBefore(events, k);
  }

  lemma {:induction false} CallsSnoc(calls: seq<Callback>, events: seq<Event>, at: seq<nat>, k: nat)
    requires CallsAt(calls, events, at) && k < |events|
    ensures CallsAt(calls + [Call(events[k])], events, at + [k])
  {
  }

  lemma {:induction false} ThoughtBefore(events: seq<Event>, n: nat)
    requires n <= |events|
    ensures (exists x :: x in events[..n] && StartsThinking(x)) <==> exists j :: 0 <= j < n && Thinks(events[j])
  {
    if n > 0 {
      ThoughtBefore(events, n - 1);
      ThinkingNext(events, n - 1);
    }
  }

  /** The callbacks are one for each piece of text, in order, and one for the first thinking block. */
  lemma {:induction false} CallbacksPicked(events: seq<Event>, n: nat) returns (at: seq<nat>)
    requires n <= |events|
    ensures Picks(events[..n], at, Hearing(events)) && CallsAt(Callbacks(events[..n]), events, at)
  {
    if n == 0 { return []; }
    var e := events[n - 1];
    var before := CallbacksPicked(events, n - 1);
    assert events[..n] == events[..n - 1] + [e];
    HeardNext(events, n - 1);
    CallsSnoc(Callbacks(events[..n - 1]), events, before, n - 1);
    at := if Hearing(events)(n - 1, e) then before + [n - 1] else before;
    assert Picks(events[..n], at, Hearing(events)) by { PicksSnoc(events[..n - 1], before, e, Hearing(events)); }
  }
}
