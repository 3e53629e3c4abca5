/** The bounded request-time projection of a transcript (internal/domain/context.go).

    A transcript on the heap is a list of `Slot`s whose block lists are arrays, because the
    source rewrites blocks in place; `View` is its value. The only size the estimator cannot
    read off a block is that of the JSON encoding of a block of an unknown kind, which is the
    parameter `size`. */
module Compaction {
  import opened Conversation
  import opened Text

  type Sizer = Block -> nat

  datatype Slot = Slot(role: Role, content: array<Block>, usage: Option<Anchor>)

  datatype ContextProjection = ContextProjection(
    compacted: bool,
    originalEstimatedTokens: nat,
    projectedEstimatedTokens: nat,
    droppedMessages: nat)

  // ---------------------------------------------------------------- size estimate

  function ByteTokens(bytes: int): nat {
    if bytes <= 0 then 0 else (bytes + 2) / 3
  }

  function RichTokens(items: seq<string>): nat {
    if items == [] then 0
    else RichTokens(items[..|items| - 1]) + ByteTokens(|items[|items| - 1]|)
  }

  function BlockTokens(b: Block, size: Sizer): nat {
    if b.raw != "" then ByteTokens(|b.raw|)
    else if b.kind == "text" then ByteTokens(|b.text|)
    else if b.kind == "tool_use" then ByteTokens(|b.toolName| + |b.toolUseId|) + ByteTokens(|b.input|)
    else if b.kind == "tool_result" then ByteTokens(|b.resultFor| + |b.text|) + RichTokens(b.resultContent)
    else ByteTokens(size(b))
  }

  function ContentTokens(content: seq<Block>, size: Sizer): nat {
    if content == [] then 0
    else ContentTokens(content[..|content| - 1], size) + 3 + BlockTokens(content[|content| - 1], size)
  }

  function Tokens(messages: seq<Message>, size: Sizer): nat {
    if messages == [] then 0
    else Tokens(messages[..|messages| - 1], size) + 4 + ContentTokens(messages[|messages| - 1].content, size)
  }

  lemma {:induction false} TokensConcat(a: seq<Message>, b: seq<Message>, size: Sizer)
    ensures Tokens(a + b, size) == Tokens(a, size) + Tokens(b, size)
  {
    if b == [] {
      assert a + b == a;
    } else {
      TokensConcat(a, b[..|b| - 1], size);
      assert (a + b)[..|a + b| - 1] == a + b[..|b| - 1];
    }
  }

  lemma {:induction false} ContentTokensConcat(a: seq<Block>, b: seq<Block>, size: Sizer)
    ensures ContentTokens(a + b, size) == ContentTokens(a, size) + ContentTokens(b, size)
  {
    if b == [] {
      assert a + b == a;
    } else {
      ContentTokensConcat(a, b[..|b| - 1], size);
      assert (a + b)[..|a + b| - 1] == a + b[..|b| - 1];
    }
  }

  // ---------------------------------------------------------------- what the estimate measures

  function Lengths(items: seq<string>): (ns: seq<nat>)
    ensures |ns| == |items| && forall i :: 0 <= i < |items| ==> ns[i] == |items[i]|
  {
    seq(|items|, i requires 0 <= i < |items| => |items[i]|)
  }

  /** The sizes in bytes of the parts of a block that are sent: its raw encoding where it has
      one, else its text; or name, id and input of a call; or id, text and each rich item of a
      result; or the encoding of a block of another kind. */
  function SentParts(b: Block, size: Sizer): seq<nat> {
    if |b.raw| > 0 then [|b.raw|]
    else
      match b.kind
      case "text" => [|b.text|]
      case "tool_use" => [|b.toolName| + |b.toolUseId|, |b.input|]
      case "tool_result" => [|b.resultFor| + |b.text|] + Lengths(b.resultContent)
      case _ => [size(b)]
  }

  function ContentParts(content: seq<Block>, size: Sizer): seq<nat> {
    if content == [] then [] else SentParts(content[0], size) + ContentParts(content[1..], size)
  }

  function AllParts(v: seq<Message>, size: Sizer): seq<nat> {
    if v == [] then [] else ContentParts(v[0].content, size) + AllParts(v[1..], size)
  }

  function Sum(ns: seq<nat>): nat {
    if ns == [] then 0 else ns[0] + Sum(ns[1..])
  }

  /** The framing of the messages and of their blocks, in bytes at three to a token. */
  function FramingBytes(v: seq<Message>): nat {
    if v == [] then 0 else 12 + 9 * |v[0].content| + FramingBytes(v[1..])
  }

  /** Three bytes to a token, each part rounded up on its own. */
  predicate Measures(tokens: nat, framing: nat, parts: seq<nat>) {
    framing + Sum(parts) <= 3 * tokens <= framing + Sum(parts) + 2 * |parts|
  }

  lemma {:induction false} SumConcat(a: seq<nat>, b: seq<nat>)
    ensures Sum(a + b) == Sum(a) + Sum(b)
  {
    if a == [] {
      assert a + b == b;
    } else {
      assert (a + b)[1..] == a[1..] + b;
      SumConcat(a[1..], b);
    }
  }

  lemma {:induction false} MeasuresConcat(s: nat, f: nat, a: seq<nat>, t: nat, g: nat, b: seq<nat>)
    requires Measures(s, f, a) && Measures(t, g, b)
    ensures Measures(s + t, f + g, a + b)
  {
    SumConcat(a, b);
  }

  lemma {:induction false} PartMeasured(n: nat)
    ensures Measures(ByteTokens(n), 0, [n])
  {
    assert Sum([n]) == n;
  }

  lemma {:induction false} RichMeasured(items: seq<string>)
    ensures Measures(RichTokens(items), 0, Lengths(items))
  {
    if items != [] {
      var init, last := items[..|items| - 1], items[|items| - 1];
      RichMeasured(init);
      PartMeasured(|last|);
      MeasuresConcat(RichTokens(init), 0, Lengths(init), ByteTokens(|last|), 0, [|last|]);
      assert Lengths(items) == Lengths(init) + [|last|];
    }
  }

  lemma {:induction false} BlockMeasured(b: Block, size: Sizer)
    ensures Measures(BlockTokens(b, size), 0, SentParts(b, size))
  {
    PartMeasured(|b.raw|);
    PartMeasured(|b.text|);
    PartMeasured(size(b));
    PartMeasured(|b.toolName| + |b.toolUseId|);
    PartMeasured(|b.input|);
    PartMeasured(|b.resultFor| + |b.text|);
    if |b.raw| > 0 {
    } else if b.kind == "tool_use" {
      var parts := [|b.toolName| + |b.toolUseId|] + [|b.input|];
      assert SentParts(b, size) == parts;
      MeasuresConcat(ByteTokens(|b.toolName| + |b.toolUseId|), 0, [|b.toolName| + |b.toolUseId|],
        ByteTokens(|b.input|), 0, [|b.input|]);
    } else if b.kind == "tool_result" {
      RichMeasured(b.resultContent);
      MeasuresConcat(ByteTokens(|b.resultFor| + |b.text|), 0, [|b.resultFor| + |b.text|],
        RichTokens(b.resultContent), 0, Lengths(b.resultContent));
    }
  }

  lemma {:induction false} ContentMeasured(content: seq<Block>, size: Sizer)
    ensures Measures(ContentTokens(content, size), 9 * |content|, ContentParts(content, size))
  {
    if content != [] {
      var b, rest := content[0], content[1..];
      BlockMeasured(b, size);
      ContentMeasured(rest, size);
      ContentTokensConcat([b], rest, size);
      assert [b] + rest == content;
      assert ContentTokens([b], size) == 3 + BlockTokens(b, size);
      MeasuresConcat(3 + BlockTokens(b, size), 9, SentParts(b, size),
        ContentTokens(rest, size), 9 * |rest|, ContentParts(rest, size));
    }
  }

  /** The estimate of any transcript is its framing and the bytes it sends at three to a
      token, and over by no more than two bytes for each part it counts. */
  lemma {:induction false} TokensMeasure(v: seq<Message>, size: Sizer)
    ensures Measures(Tokens(v, size), FramingBytes(v), AllParts(v, size))
  {
    if v != [] {
      var m, rest := v[0], v[1..];
      ContentMeasured(m.content, size);
      TokensMeasure(rest, size);
      TokensConcat([m], rest, size);
      assert [m] + rest == v;
      assert Tokens([m], size) == 4 + ContentTokens(m.content, size);
      MeasuresConcat(4 + ContentTokens(m.content, size), 12 + 9 * |m.content|, ContentParts(m.content, size),
        Tokens(rest, size), FramingBytes(rest), AllParts(rest, size));
    }
  }

  ghost function Footprint(transcript: seq<Slot>): set<object> {
    set i | 0 <= i < |transcript| :: transcript[i].content
  }

  ghost function View(transcript: seq<Slot>): (messages: seq<Message>)
    reads Footprint(transcript)
    ensures |messages| == |transcript|
    ensures forall i :: 0 <= i < |transcript| ==>
      messages[i] == Message(transcript[i].role, transcript[i].content[..], transcript[i].usage)
  {
    seq(|transcript|, i requires 0 <= i < |transcript| reads Footprint(transcript) =>
      Message(transcript[i].role, transcript[i].content[..], transcript[i].usage))
  }

  lemma {:induction false} ViewSlice(transcript: seq<Slot>, lo: nat, hi: nat)
    requires lo <= hi <= |transcript|
    ensures View(transcript[lo..hi]) == View(transcript)[lo..hi]
  {
  }

  /** No two messages share a block list. */
  ghost predicate Unshared(transcript: seq<Slot>) {
    forall i, j :: 0 <= i < j < |transcript| ==> transcript[i].content != transcript[j].content
  }

  method EstimateMessagesTokens(messages: seq<Slot>, size: Sizer) returns (tokens: nat)
    ensures View(messages) == old(View(messages))
    ensures tokens == Tokens(View(messages), size)
  {
    tokens := 0;
    ghost var view := View(messages);
    for i := 0 to |messages|
      invariant view == View(messages)
      invariant tokens == Tokens(view[..i], size)
    {
      tokens := tokens + 4;
      var content := messages[i].content;
      for j := 0 to content.Length
        invariant view == View(messages)
        invariant tokens == Tokens(view[..i], size) + 4 + ContentTokens(content[..j], size)
      {
        assert content[..j + 1][..j] == content[..j];
        tokens := tokens + 3;
        var b := content[j];
        if |b.raw| > 0 {
          tokens := tokens + ByteTokens(|b.raw|);
        } else if b.kind == "text" {
          tokens := tokens + ByteTokens(|b.text|);
        } else if b.kind == "tool_use" {
          tokens := tokens + ByteTokens(|b.toolName| + |b.toolUseId|);
          tokens := tokens + ByteTokens(|b.input|);
        } else if b.kind == "tool_result" {
          tokens := tokens + ByteTokens(|b.resultFor| + |b.text|);
          tokens := tokens + RichTokens(b.resultContent);
        } else {
          tokens := tokens + ByteTokens(size(b));
        }
      }
      assert content[..content.Length] == content[..] == view[i].content;
      assert view[..i + 1][..i] == view[..i];
    }
    assert view[..|messages|] == view;
  }

  method CloneMessages(messages: seq<Slot>) returns (out: seq<Slot>)
    ensures fresh(Footprint(out)) && Unshared(out)
    ensures View(messages) == old(View(messages)) && View(out) == View(messages)
  {
    out := [];
    for i := 0 to |messages|
      invariant |out| == i && fresh(Footprint(out)) && Unshared(out)
      invariant View(out) == View(messages)[..i]
    {
      var source := messages[i].content;
      var content := new Block[source.Length](j requires 0 <= j < source.Length reads source => source[j]);
      var slot := Slot(messages[i].role, content, messages[i].usage);
      assert content[..] == source[..];
      assert (out + [slot])[..i] == out;
      ghost var before := out;
      out := out + [slot];
      assert Footprint(out) <= Footprint(before) + {content};
    }
  }

  // ---------------------------------------------------------------- the shrinking pass

  const COMPACTED_MARK := "Tool result compacted"
  const EXCERPT_BYTES: nat := 3000
  const BIG_RESULT_BYTES: nat := 1024

  function RichBytes(items: seq<string>): nat {
    if items == [] then 0 else RichBytes(items[..|items| - 1]) + |items[|items| - 1]|
  }

  function OriginalBytes(b: Block): nat {
    |b.text| + |b.raw| + RichBytes(b.resultContent)
  }

  predicate IsBig(b: Block) {
    b.kind == "tool_result" && OriginalBytes(b) >= BIG_RESULT_BYTES
  }

  function MarkerLine(originalBytes: nat): string {
    MARK_OPEN + COMPACTED_MARK + (MARK_COUNT + Decimal(originalBytes) + MARK_CLOSE)
  }

  const MARK_OPEN := "...["
  const MARK_COUNT := "; "
  const MARK_CLOSE := " original bytes]..."

  function Marker(originalBytes: nat): string {
    ['\n'] + MarkerLine(originalBytes) + ['\n']
  }

  /** The two ends of `text` kept around the marker when `room` bytes are left for them. */
  function Head(text: string, room: nat): (p: string)
    ensures |text| > room ==> |p| <= room * 3 / 4
  {
    ValidPrefix(text, room * 3 / 4)
  }

  function Tail(text: string, room: nat): (t: string)
    ensures |text| > room ==> |t| <= room - room * 3 / 4
  {
    ValidSuffix(text, room - room * 3 / 4)
  }

  function Spliced(text: string, marker: string, maxBytes: nat, head: string, tail: string): string {
    if text == "" || maxBytes <= |marker| then TrimSpace(marker)
    else if |text| <= maxBytes then text + marker
    else head + marker + tail
  }

  function ExcerptAround(text: string, marker: string, maxBytes: nat): string {
    var room := if |marker| < maxBytes then maxBytes - |marker| else 0;
    Spliced(text, marker, maxBytes, Head(text, room), Tail(text, room))
  }

  function Excerpt(text: string, originalBytes: nat, maxBytes: nat): string {
    ExcerptAround(text, Marker(originalBytes), maxBytes)
  }

  function ExcerptBlock(b: Block): Block {
    if IsBig(b) then b.(text := Excerpt(b.text, OriginalBytes(b), EXCERPT_BYTES), raw := "", resultContent := [])
    else b
  }

  function Placeholder(id: string): string {
    "[" + COMPACTED_MARK + "; original content omitted; tool_use_id=" + id + "]"
  }

  function PlaceholderBlock(b: Block): Block {
    if b.kind == "tool_result" && Contains(b.text, COMPACTED_MARK) then b.(text := Placeholder(b.resultFor)) else b
  }

  /** A point between two blocks, or the end. */
  predicate Position(v: seq<Message>, mi: nat, bi: nat) {
    mi <= |v| && bi <= if mi < |v| then |v[mi].content| else 0
  }

  predicate Before(i: nat, j: nat, mi: nat, bi: nat) {
    i < mi || (i == mi && j < bi)
  }

  function MapPrefix(content: seq<Block>, f: Block -> Block, n: nat): (r: seq<Block>)
    ensures |r| == |content|
    ensures forall k :: 0 <= k < |r| ==> r[k] == if k < n then f(content[k]) else content[k]
  {
    seq(|content|, k requires 0 <= k < |content| => if k < n then f(content[k]) else content[k])
  }

  /** The transcript with every block before a position rewritten by `f`. */
  function MapUpTo(v: seq<Message>, f: Block -> Block, mi: nat, bi: nat): (r: seq<Message>)
    ensures |r| == |v|
    ensures forall i :: 0 <= i < |v| ==>
      r[i] == v[i].(content := MapPrefix(v[i].content, f, if i < mi then |v[i].content| else if i == mi then bi else 0))
  {
    seq(|v|, i requires 0 <= i < |v| =>
      v[i].(content := MapPrefix(v[i].content, f, if i < mi then |v[i].content| else if i == mi then bi else 0)))
  }

  function MapAll(v: seq<Message>, f: Block -> Block): seq<Message> {
    MapUpTo(v, f, |v|, 0)
  }

  ghost predicate OverBefore(v: seq<Message>, f: Block -> Block, max: int, size: Sizer, mi: nat, bi: nat) {
    forall i: nat, j: nat :: Position(v, i, j) && Before(i, j, mi, bi) ==> Tokens(MapUpTo(v, f, i, j), size) > max
  }

  /** `w` is `v` rewritten block by block just until it fits, or completely. */
  ghost predicate RewrittenUntil(v: seq<Message>, w: seq<Message>, f: Block -> Block, max: int, size: Sizer) {
    exists mi: nat, bi: nat :: Position(v, mi, bi) && w == MapUpTo(v, f, mi, bi)
      && OverBefore(v, f, max, size, mi, bi)
      && (Tokens(w, size) <= max || w == MapAll(v, f))
  }

  ghost predicate AnyBig(v: seq<Message>) {
    AnyTarget(v, IsBig)
  }

  /** Excerpts first, then, if that was not enough, placeholders. */
  ghost predicate ShrunkVia(v: seq<Message>, u: seq<Message>, w: seq<Message>, max: int, size: Sizer) {
    RewrittenUntil(v, u, ExcerptBlock, max, size)
    && if Tokens(u, size) <= max || !AnyBig(v) then w == u
       else RewrittenUntil(u, w, PlaceholderBlock, max, size)
  }

  ghost predicate Shrunk(v: seq<Message>, w: seq<Message>, max: int, size: Sizer) {
    if Tokens(v, size) <= max then w == v
    else exists u :: ShrunkVia(v, u, w, max, size)
  }

  lemma {:induction false} MapNothing(v: seq<Message>, f: Block -> Block)
    ensures MapUpTo(v, f, 0, 0) == v
  {
    var r := MapUpTo(v, f, 0, 0);
    forall i | 0 <= i < |v| ensures r[i] == v[i] {
      assert r[i].content == v[i].content;
    }
  }

  lemma {:induction false} MapNextMessage(v: seq<Message>, f: Block -> Block, mi: nat)
    requires mi < |v|
    ensures MapUpTo(v, f, mi, |v[mi].content|) == MapUpTo(v, f, mi + 1, 0)
  {
    var r, r' := MapUpTo(v, f, mi, |v[mi].content|), MapUpTo(v, f, mi + 1, 0);
    forall i | 0 <= i < |v| ensures r[i] == r'[i] {
      assert r[i].content == r'[i].content;
    }
  }

  lemma {:induction false} MapNextBlock(v: seq<Message>, f: Block -> Block, mi: nat, bi: nat)
    requires mi < |v| && bi < |v[mi].content|
    ensures var r := MapUpTo(v, f, mi, bi);
      && r[mi].content[bi] == v[mi].content[bi]
      && MapUpTo(v, f, mi, bi + 1) == r[mi := r[mi].(content := r[mi].content[bi := f(v[mi].content[bi])])]
  {
    var r, r' := MapUpTo(v, f, mi, bi), MapUpTo(v, f, mi, bi + 1);
    var expected := r[mi := r[mi].(content := r[mi].content[bi := f(v[mi].content[bi])])];
    forall i | 0 <= i < |v| ensures r'[i] == expected[i] {
      assert r'[i].content == expected[i].content;
    }
  }

  /** The pass has rewritten everything before a position and still does not fit. */
  ghost predicate Midway(v: seq<Message>, cur: seq<Message>, f: Block -> Block, max: int, size: Sizer, mi: nat,
      bi: nat) {
    Position(v, mi, bi) && cur == MapUpTo(v, f, mi, bi) && OverBefore(v, f, max, size, mi, bi)
        && Tokens(cur, size) > max
  }

  lemma {:induction false} MidwayStart(v: seq<Message>, f: Block -> Block, max: int, size: Sizer)
    requires Tokens(v, size) > max
    ensures Midway(v, v, f, max, size, 0, 0)
  {
    MapNothing(v, f);
  }

  lemma {:induction false} MidwayBlock(v: seq<Message>, cur: seq<Message>, f: Block -> Block, max: int, size: Sizer,
      mi: nat, bi: nat)
    requires Midway(v, cur, f, max, size, mi, bi) && mi < |v| && bi < |v[mi].content|
    ensures cur[mi].content[bi] == v[mi].content[bi]
    ensures var next := cur[mi := cur[mi].(content := cur[mi].content[bi := f(v[mi].content[bi])])];
      if Tokens(next, size) > max then Midway(v, next, f, max, size, mi, bi + 1)
      else RewrittenUntil(v, next, f, max, size)
  {
    MapNextBlock(v, f, mi, bi);
    assert Position(v, mi, bi + 1);
    assert OverBefore(v, f, max, size, mi, bi + 1);
  }

  lemma {:induction false} MidwayMessage(v: seq<Message>, cur: seq<Message>, f: Block -> Block, max: int, size: Sizer,
      mi: nat)
    requires mi < |v| && Midway(v, cur, f, max, size, mi, |v[mi].content|)
    ensures Midway(v, cur, f, max, size, mi + 1, 0)
  {
    MapNextMessage(v, f, mi);
  }

  lemma {:induction false} MidwayEnd(v: seq<Message>, cur: seq<Message>, f: Block -> Block, max: int, size: Sizer)
    requires Midway(v, cur, f, max, size, |v|, 0)
    ensures RewrittenUntil(v, cur, f, max, size)
  {
  }

  /** Some block before a position, or anywhere, is a target. */
  ghost predicate TargetAt(v: seq<Message>, target: Block -> bool, i: nat, j: nat) {
    i < |v| && j < |v[i].content| && target(v[i].content[j])
  }

  ghost predicate AnyBefore(v: seq<Message>, target: Block -> bool, mi: nat, bi: nat) {
    exists i: nat, j: nat :: TargetAt(v, target, i, j) && Before(i, j, mi, bi)
  }

  lemma {:induction false} AnyStep(v: seq<Message>, target: Block -> bool, mi: nat, bi: nat)
    requires mi < |v| && bi < |v[mi].content|
    ensures AnyBefore(v, target, mi, bi + 1) <==> AnyBefore(v, target, mi, bi) || target(v[mi].content[bi])
  {
    if target(v[mi].content[bi]) { assert TargetAt(v, target, mi, bi) && Before(mi, bi, mi, bi + 1); }
    if AnyBefore(v, target, mi, bi) {
      var i: nat, j: nat :| TargetAt(v, target, i, j) && Before(i, j, mi, bi);
      assert Before(i, j, mi, bi + 1);
    }
  }

  lemma {:induction false} AnyNextMessage(v: seq<Message>, target: Block -> bool, mi: nat)
    requires mi < |v|
    ensures AnyBefore(v, target, mi + 1, 0) <==> AnyBefore(v, target, mi, |v[mi].content|)
  {
    if AnyBefore(v, target, mi + 1, 0) {
      var i: nat, j: nat :| TargetAt(v, target, i, j) && Before(i, j, mi + 1, 0);
      assert Before(i, j, mi, |v[mi].content|);
    }
    if AnyBefore(v, target, mi, |v[mi].content|) {
      var i: nat, j: nat :| TargetAt(v, target, i, j) && Before(i, j, mi, |v[mi].content|);
      assert Before(i, j, mi + 1, 0);
    }
  }

  ghost predicate AnyTarget(v: seq<Message>, target: Block -> bool) {
    exists i: nat, j: nat :: TargetAt(v, target, i, j)
  }

  ghost predicate OnlyTargets(f: Block -> Block, target: Block -> bool) {
    forall b :: !target(b) ==> f(b) == b
  }

  /** Midway through the pass: whether a target has been met so far. */
  ghost function Met(v: seq<Message>, cur: seq<Message>, f: Block -> Block, target: Block -> bool, max: int,
      size: Sizer,
                     mi: nat, bi: nat): Option<bool>
  {
    if Midway(v, cur, f, max, size, mi, bi) then Some(AnyBefore(v, target, mi, bi)) else None
  }

  /** The pass brought the transcript within the limit: whether there was a target. */
  ghost function Fitted(v: seq<Message>, w: seq<Message>, f: Block -> Block, target: Block -> bool, max: int,
      size: Sizer): Option<bool> {
    if RewrittenUntil(v, w, f, max, size) && Tokens(w, size) <= max then Some(AnyTarget(v, target)) else None
  }

  lemma {:induction false} MetShape(v: seq<Message>, cur: seq<Message>, f: Block -> Block, target: Block -> bool,
      max: int, size: Sizer,
                                    mi: nat, bi: nat)
    requires Met(v, cur, f, target, max, size, mi, bi).Some?
    ensures |v| == |cur| && forall i :: 0 <= i < |v| ==> |v[i].content| == |cur[i].content|
  {
  }

  lemma {:induction false} MetStart(v: seq<Message>, f: Block -> Block, target: Block -> bool, max: int, size: Sizer)
    requires Tokens(v, size) > max
    ensures Met(v, v, f, target, max, size, 0, 0) == Some(false)
  {
    MidwayStart(v, f, max, size);
  }

  lemma {:induction false} MetNext(v: seq<Message>, cur: seq<Message>, f: Block -> Block, target: Block -> bool,
      max: int, size: Sizer,
                                   mi: nat, bi: nat, any: bool)
    requires Met(v, cur, f, target, max, size, mi, bi) == Some(any) && mi < |v| && bi < |v[mi].content|
    requires OnlyTargets(f, target)
    ensures mi < |cur| && bi < |cur[mi].content| && cur[mi].content[bi] == v[mi].content[bi]
    ensures var b := v[mi].content[bi];
      var next := cur[mi := cur[mi].(content := cur[mi].content[bi := f(b)])];
      if !target(b) then Met(v, cur, f, target, max, size, mi, bi + 1) == Some(any)
      else if Tokens(next, size) > max then Met(v, next, f, target, max, size, mi, bi + 1) == Some(true)
      else Fitted(v, next, f, target, max, size) == Some(true)
  {
    MidwayBlock(v, cur, f, max, size, mi, bi);
    AnyStep(v, target, mi, bi);
    Unrewritten(cur, mi, bi);
    if target(v[mi].content[bi]) { assert TargetAt(v, target, mi, bi); }
  }

  lemma {:induction false} MetNextMessage(v: seq<Message>, cur: seq<Message>, f: Block -> Block, target: Block -> bool,
      max: int, size: Sizer,
                                          mi: nat, any: bool)
    requires mi < |v| && Met(v, cur, f, target, max, size, mi, |v[mi].content|) == Some(any)
    ensures Met(v, cur, f, target, max, size, mi + 1, 0) == Some(any)
  {
    MidwayMessage(v, cur, f, max, size, mi);
    AnyNextMessage(v, target, mi);
  }

  /** The whole pass: whether there was a target, and whether the transcript now fits. */
  ghost function Passed(v: seq<Message>, w: seq<Message>, f: Block -> Block, target: Block -> bool, max: int,
      size: Sizer): Option<(bool, bool)> {
    if RewrittenUntil(v, w, f, max, size) then Some((AnyTarget(v, target), Tokens(w, size) <= max)) else None
  }

  lemma {:induction false} PassedFitted(v: seq<Message>, w: seq<Message>, f: Block -> Block, target: Block -> bool,
      max: int, size: Sizer, any: bool)
    requires Fitted(v, w, f, target, max, size) == Some(any)
    ensures Passed(v, w, f, target, max, size) == Some((any, true))
  {
  }

  lemma {:induction false} PassedAll(v: seq<Message>, w: seq<Message>, f: Block -> Block, target: Block -> bool,
      max: int, size: Sizer, any: bool)
    requires Met(v, w, f, target, max, size, |v|, 0) == Some(any)
    ensures Passed(v, w, f, target, max, size) == Some((any, false))
  {
    MidwayEnd(v, w, f, max, size);
    AllBefore(v, target);
  }

  /** One loop nest of compactOversizedToolResults: rewrites targeted blocks in place, in
      order, and stops as soon as the transcript fits. */
  method RewritePass(messages: seq<Slot>, max: int, size: Sizer, f: Block -> Block, target: Block -> bool)
    returns (any: bool, fits: bool)
    requires Unshared(messages)
    requires OnlyTargets(f, target)
    requires Tokens(View(messages), size) > max
    modifies Footprint(messages)
    ensures Passed(old(View(messages)), View(messages), f, target, max, size) == Some((any, fits))
  {
    ghost var v := View(messages);
    any, fits := false, false;
    MetStart(v, f, target, max, size);
    for mi := 0 to |messages|
      invariant Met(v, View(messages), f, target, max, size, mi, 0) == Some(any)
    {
      any, fits := RewriteMessage(messages, mi, max, size, f, target, any, v);
      if fits {
        PassedFitted(v, View(messages), f, target, max, size, any);
        return;
      }
      MetNextMessage(v, View(messages), f, target, max, size, mi, any);
    }
    PassedAll(v, View(messages), f, target, max, size, any);
  }

  lemma {:induction false} AllBefore(v: seq<Message>, target: Block -> bool)
    ensures AnyTarget(v, target) <==> AnyBefore(v, target, |v|, 0)
  {
    if AnyTarget(v, target) {
      var i: nat, j: nat :| TargetAt(v, target, i, j);
      assert Before(i, j, |v|, 0);
    }
  }

  /** The inner loop: one message's blocks. */
  method RewriteMessage(messages: seq<Slot>, mi: nat, max: int, size: Sizer, f: Block -> Block, target: Block -> bool,
                        before: bool, ghost v: seq<Message>) returns (any: bool, fits: bool)
    requires Unshared(messages) && mi < |messages| && OnlyTargets(f, target)
    requires Met(v, View(messages), f, target, max, size, mi, 0) == Some(before)
    modifies Footprint(messages)
    ensures |v| == |messages|
    ensures fits ==> Fitted(v, View(messages), f, target, max, size) == Some(any)
    ensures !fits ==> Met(v, View(messages), f, target, max, size, mi, |v[mi].content|) == Some(any)
  {
    any, fits := before, false;
    MetShape(v, View(messages), f, target, max, size, mi, 0);
    var n := messages[mi].content.Length;
    assert |View(messages)[mi].content| == n;
    for bi := 0 to n
      invariant Met(v, View(messages), f, target, max, size, mi, bi) == Some(any)
    {
      any, fits := RewriteAt(messages, mi, bi, max, size, f, target, any, v);
      if fits { return; }
    }
  }

  /** The loop body: one block. */
  method RewriteAt(messages: seq<Slot>, mi: nat, bi: nat, max: int, size: Sizer, f: Block -> Block,
      target: Block -> bool,
                   before: bool, ghost v: seq<Message>) returns (any: bool, fits: bool)
    requires Unshared(messages) && mi < |messages| && bi < messages[mi].content.Length && OnlyTargets(f, target)
    requires Met(v, View(messages), f, target, max, size, mi, bi) == Some(before)
    modifies Footprint(messages)
    ensures fits ==> Fitted(v, View(messages), f, target, max, size) == Some(any)
    ensures !fits ==> Met(v, View(messages), f, target, max, size, mi, bi + 1) == Some(any)
  {
    any, fits := before, false;
    ghost var cur := View(messages);
    MetShape(v, cur, f, target, max, size, mi, bi);
    assert |cur[mi].content| == messages[mi].content.Length;
    MetNext(v, cur, f, target, max, size, mi, bi, before);
    var content := messages[mi].content;
    assert content[bi] == v[mi].content[bi];
    if target(content[bi]) {
      RewriteBlock(messages, mi, bi, f(content[bi]));
      any := true;
      ghost var next := View(messages);
      var tokens := EstimateMessagesTokens(messages, size);
      assert View(messages) == next;
      fits := tokens <= max;
    }
  }

  lemma {:induction false} Unrewritten(cur: seq<Message>, mi: nat, bi: nat)
    requires mi < |cur| && bi < |cur[mi].content|
    ensures cur[mi := cur[mi].(content := cur[mi].content[bi := cur[mi].content[bi]])] == cur
  {
    assert cur[mi].content[bi := cur[mi].content[bi]] == cur[mi].content;
  }

  /** Overwrites one block through its message's block list. */
  method RewriteBlock(messages: seq<Slot>, mi: nat, bi: nat, b: Block)
    requires Unshared(messages)
    requires mi < |messages| && bi < messages[mi].content.Length
    modifies messages[mi].content
    ensures var v := old(View(messages));
      View(messages) == v[mi := v[mi].(content := v[mi].content[bi := b])]
  {
    ghost var v := View(messages);
    messages[mi].content[bi] := b;
    var expected := v[mi := v[mi].(content := v[mi].content[bi := b])];
    forall i | 0 <= i < |messages| ensures View(messages)[i] == expected[i] {
      assert View(messages)[i].content == expected[i].content;
    }
  }

  predicate IsMarked(b: Block) {
    b.kind == "tool_result" && Contains(b.text, COMPACTED_MARK)
  }

  /** The outcome of the shrinking pass, or nothing when `w` is not one. */
  ghost function Shrinking(v: seq<Message>, w: seq<Message>, max: int, size: Sizer): Option<bool> {
    if Shrunk(v, w, max, size) then Some(Tokens(v, size) > max && AnyBig(v)) else None
  }

  lemma {:induction false} TwoPasses(v: seq<Message>, u: seq<Message>, w: seq<Message>, max: int, size: Sizer,
      any: bool, fits: bool)
    requires Tokens(v, size) > max
    requires Passed(v, u, ExcerptBlock, IsBig, max, size) == Some((any, fits))
    requires if fits || !any then w == u else Passed(u, w, PlaceholderBlock, IsMarked, max, size).Some?
    ensures Shrinking(v, w, max, size) == Some(any)
  {
    assert ShrunkVia(v, u, w, max, size);
  }

  method CompactOversizedToolResults(messages: seq<Slot>, max: int, size: Sizer) returns (compacted: bool)
    requires Unshared(messages)
    modifies Footprint(messages)
    ensures Shrinking(old(View(messages)), View(messages), max, size) == Some(compacted)
  {
    ghost var v := View(messages);
    var tokens := EstimateMessagesTokens(messages, size);
    if tokens <= max { return false; }
    var any, fits := RewritePass(messages, max, size, ExcerptBlock, IsBig);
    compacted := any;
    ghost var u := View(messages);
    if fits || !compacted {
      TwoPasses(v, u, u, max, size, any, fits);
      return;
    }
    var _, _ := RewritePass(messages, max, size, PlaceholderBlock, IsMarked);
    TwoPasses(v, u, View(messages), max, size, any, fits);
  }

  // ---------------------------------------------------------------- what shrinking keeps and reaches

  /** What the API matches on is untouched; blocks other than tool results are identical. */
  predicate SameBlockShape(b: Block, c: Block) {
    b == c || (b.kind == "tool_result" && c == b.(text := c.text, raw := c.raw, resultContent := c.resultContent))
  }

  predicate SameShape(v: seq<Message>, w: seq<Message>) {
    |v| == |w| && forall i :: 0 <= i < |v| ==>
      && v[i].role == w[i].role && v[i].usage == w[i].usage
      && |v[i].content| == |w[i].content|
      && forall j :: 0 <= j < |v[i].content| ==> SameBlockShape(v[i].content[j], w[i].content[j])
  }

  lemma {:induction false} RewrittenShape(v: seq<Message>, w: seq<Message>, f: Block -> Block, max: int, size: Sizer)
    requires RewrittenUntil(v, w, f, max, size)
    requires forall b :: SameBlockShape(b, f(b))
    ensures SameShape(v, w)
  {
  }

  lemma {:induction false} ShapeTransitive(u: seq<Message>, v: seq<Message>, w: seq<Message>)
    requires SameShape(u, v) && SameShape(v, w)
    ensures SameShape(u, w)
  {
    forall i, j | 0 <= i < |u| && 0 <= j < |u[i].content| ensures SameBlockShape(u[i].content[j], w[i].content[j]) {
      assert SameBlockShape(u[i].content[j], v[i].content[j]);
      assert SameBlockShape(v[i].content[j], w[i].content[j]);
    }
  }

  lemma {:induction false} ShrunkShape(v: seq<Message>, w: seq<Message>, max: int, size: Sizer)
    requires Shrunk(v, w, max, size)
    ensures SameShape(v, w)
  {
    if Tokens(v, size) > max {
      var u: seq<Message> :| ShrunkVia(v, u, w, max, size);
      RewrittenShape(v, u, ExcerptBlock, max, size);
      if w != u {
        RewrittenShape(u, w, PlaceholderBlock, max, size);
        ShapeTransitive(v, u, w);
      }
    }
  }

  lemma {:induction false} SameShapeIds(a: seq<Block>, b: seq<Block>)
    requires |a| == |b| && forall j :: 0 <= j < |a| ==> SameBlockShape(a[j], b[j])
    ensures Calls(a) == Calls(b) && Answers(a) == Answers(b)
  {
    if a != [] {
      var n := |a| - 1;
      SameShapeIds(a[..n], b[..n]);
      assert SameBlockShape(a[n], b[n]);
    }
  }

  /** Shrinking preserves request legality. */
  lemma {:induction false} SameShapeLegal(v: seq<Message>, w: seq<Message>)
    requires SameShape(v, w) && Legal(v)
    ensures Legal(w)
  {
    forall i | 0 <= i < |v|
      ensures Calls(v[i].content) == Calls(w[i].content) && Answers(v[i].content) == Answers(w[i].content)
      ensures HasToolResult(v[i]) == HasToolResult(w[i])
    {
      SameShapeIds(v[i].content, w[i].content);
      NoResultNoAnswer(v[i].content);
      NoResultNoAnswer(w[i].content);
    }
  }

  lemma {:induction false} LineShape(open: string, mark: string, count: string, digits: string, close: string)
    ensures var line := open + mark + (count + digits + close);
      && |line| == |open| + |mark| + |count| + |digits| + |close|
      && (open != "" ==> line[0] == open[0])
      && (close != "" ==> line[|line| - 1] == close[|close| - 1])
      && Contains(line, mark)
  {
    ContainsMiddle(open, mark, count + digits + close);
  }

  lemma {:induction false} MarkLengths()
    ensures |MARK_OPEN| == 4 && |COMPACTED_MARK| == 21 && |MARK_COUNT| == 2 && |MARK_CLOSE| == 19
    ensures !IsSpace(MARK_OPEN[0]) && !IsSpace(MARK_CLOSE[18])
  {
  }

  lemma {:induction false} MarkerShape(originalBytes: nat)
    ensures TrimSpace(Marker(originalBytes)) == MarkerLine(originalBytes)
    ensures Contains(MarkerLine(originalBytes), COMPACTED_MARK)
    ensures |MarkerLine(originalBytes)| == |Decimal(originalBytes)| + 46
  {
    MarkLengths();
    LineShape(MARK_OPEN, COMPACTED_MARK, MARK_COUNT, Decimal(originalBytes), MARK_CLOSE);
    TrimInner('\n', MarkerLine(originalBytes), '\n');
  }

  lemma {:induction false} ContainsWithin(before: string, s: string, after: string, sub: string)
    requires Contains(s, sub)
    ensures Contains(before + s + after, sub)
  {
    var i :| 0 <= i <= |s| && OccursAt(s, sub, i);
    var whole := before + s + after;
    var at := |before| + i;
    assert whole[at..at + |sub|] == s[i..i + |sub|];
    assert OccursAt(whole, sub, at);
  }

  lemma {:induction false} SplicedContains(text: string, marker: string, maxBytes: nat, head: string, tail: string,
      mark: string)
    requires Contains(marker, mark) && Contains(TrimSpace(marker), mark)
    ensures Contains(Spliced(text, marker, maxBytes, head, tail), mark)
  {
    ContainsWithin(text, marker, "", mark);
    assert text + marker + "" == text + marker;
    ContainsWithin(head, marker, tail, mark);
  }

  lemma {:induction false} AroundContains(text: string, marker: string, maxBytes: nat, mark: string)
    requires Contains(marker, mark) && Contains(TrimSpace(marker), mark)
    ensures Contains(ExcerptAround(text, marker, maxBytes), mark)
  {
    var room := if |marker| < maxBytes then maxBytes - |marker| else 0;
    SplicedContains(text, marker, maxBytes, Head(text, room), Tail(text, room), mark);
  }

  lemma {:induction false} MarkerContains(originalBytes: nat)
    ensures Contains(Marker(originalBytes), COMPACTED_MARK)
    ensures Contains(TrimSpace(Marker(originalBytes)), COMPACTED_MARK)
  {
    MarkerShape(originalBytes);
    ContainsWithin(['\n'], MarkerLine(originalBytes), ['\n'], COMPACTED_MARK);
  }

  lemma {:induction false} ExcerptMarked(text: string, originalBytes: nat, maxBytes: nat)
    ensures Contains(Excerpt(text, originalBytes, maxBytes), COMPACTED_MARK)
  {
    MarkerContains(originalBytes);
    AroundContains(text, Marker(originalBytes), maxBytes, COMPACTED_MARK);
  }

  /** The shrinking pass ends within the limit, or with every result of 1024 or more
      original bytes reduced to its placeholder. */
  lemma {:induction false} ShrunkReaches(v: seq<Message>, w: seq<Message>, max: int, size: Sizer, i: nat, j: nat)
    requires Shrunk(v, w, max, size)
    requires i < |v| && j < |v[i].content| && IsBig(v[i].content[j])
    requires Tokens(w, size) > max
    ensures i < |w| && j < |w[i].content|
    ensures w[i].content[j] == v[i].content[j].(text := Placeholder(v[i].content[j].resultFor), raw :=
        "", resultContent := [])
  {
    var b := v[i].content[j];
    assert TargetAt(v, IsBig, i, j);
    var u: seq<Message> :| ShrunkVia(v, u, w, max, size);
    assert Tokens(u, size) > max;
    assert u == MapAll(v, ExcerptBlock) && w == MapAll(u, PlaceholderBlock);
    assert u[i].content[j] == ExcerptBlock(b);
    ExcerptMarked(b.text, OriginalBytes(b), EXCERPT_BYTES);
    assert w[i].content[j] == PlaceholderBlock(ExcerptBlock(b));
  }

  lemma {:induction false} RewrittenSpares(v: seq<Message>, w: seq<Message>, f: Block -> Block, max: int, size: Sizer,
      i: nat, j: nat)
    requires RewrittenUntil(v, w, f, max, size)
    requires i < |v| && j < |v[i].content| && f(v[i].content[j]) == v[i].content[j]
    ensures i < |w| && j < |w[i].content| && w[i].content[j] == v[i].content[j]
  {
  }

  /** A result under 1024 bytes survives untouched unless its own text contains the mark. */
  lemma {:induction false} ShrunkSpares(v: seq<Message>, w: seq<Message>, max: int, size: Sizer, i: nat, j: nat)
    requires Shrunk(v, w, max, size)
    requires i < |v| && j < |v[i].content| && !IsBig(v[i].content[j]) && !IsMarked(v[i].content[j])
    ensures i < |w| && j < |w[i].content| && w[i].content[j] == v[i].content[j]
  {
    if Tokens(v, size) > max {
      var u: seq<Message> :| ShrunkVia(v, u, w, max, size);
      RewrittenSpares(v, u, ExcerptBlock, max, size, i, j);
      if w != u { RewrittenSpares(u, w, PlaceholderBlock, max, size, i, j); }
    }
  }

  /** The first loop nest cannot help: excerpts leave the transcript over the limit wherever
      it might stop. */
  ghost predicate ExcerptsFail(v: seq<Message>, max: int, size: Sizer) {
    forall p: nat, q: nat :: Position(v, p, q) ==> Tokens(MapUpTo(v, ExcerptBlock, p, q), size) > max
  }

  /** A loop nest rewrites a block: the transcript is still over the limit when it gets there. */
  ghost predicate OverUntil(v: seq<Message>, f: Block -> Block, max: int, size: Sizer, i: nat, j: nat) {
    forall p: nat, q: nat :: Position(v, p, q) && !Before(i, j, p, q) ==> Tokens(MapUpTo(v, f, p, q), size) > max
  }

  ghost predicate PlaceholdersReach(v: seq<Message>, max: int, size: Sizer, i: nat, j: nat) {
    OverUntil(MapAll(v, ExcerptBlock), PlaceholderBlock, max, size, i, j)
  }

  lemma {:induction false} StoppedAt(v: seq<Message>, f: Block -> Block, max: int, size: Sizer, i: nat, j: nat, mi: nat,
      bi: nat)
    requires Position(v, mi, bi) && OverBefore(v, f, max, size, mi, bi) && Position(v, i, j)
    requires Tokens(MapUpTo(v, f, mi, bi), size) <= max
    ensures OverUntil(v, f, max, size, i, j) <==> Before(i, j, mi, bi)
  {
  }

  /** Where a rewriting leaves a block. */
  lemma {:induction false} RewrittenBlock(v: seq<Message>, w: seq<Message>, f: Block -> Block, max: int, size: Sizer,
      i: nat, j: nat)
    requires RewrittenUntil(v, w, f, max, size) && i < |v| && j < |v[i].content|
    ensures i < |w| && j < |w[i].content|
    ensures w[i].content[j] == if OverUntil(v, f, max, size, i, j) then f(v[i].content[j]) else v[i].content[j]
  {
    if Tokens(w, size) > max {
      forall p: nat, q: nat | Position(v, p, q) ensures Tokens(MapUpTo(v, f, p, q), size) > max {
        RewrittenOver(v, w, f, max, size, p, q);
      }
      RewrittenOver(v, w, f, max, size, i, j);
    } else {
      var mi: nat, bi: nat :| Position(v, mi, bi) && w == MapUpTo(v, f, mi, bi) && OverBefore(v, f, max, size, mi, bi);
      StoppedAt(v, f, max, size, i, j, mi, bi);
    }
  }

  lemma {:induction false} MapSettled(v: seq<Message>, f: Block -> Block, mi: nat, bi: nat, p: nat, q: nat)
    requires !Before(p, q, mi, bi) && MapUpTo(v, f, mi, bi) == MapAll(v, f)
    ensures MapUpTo(v, f, p, q) == MapAll(v, f)
  {
    var r, w, all := MapUpTo(v, f, p, q), MapUpTo(v, f, mi, bi), MapAll(v, f);
    forall i | 0 <= i < |v| ensures r[i] == all[i] {
      forall j | 0 <= j < |v[i].content| ensures r[i].content[j] == all[i].content[j] {
        assert w[i].content[j] == all[i].content[j];
      }
      assert r[i].content == all[i].content;
    }
  }

  /** A rewriting that runs to the end over the limit stops nowhere before. */
  lemma {:induction false} RewrittenOver(v: seq<Message>, w: seq<Message>, f: Block -> Block, max: int, size: Sizer,
      p: nat, q: nat)
    requires RewrittenUntil(v, w, f, max, size) && Tokens(w, size) > max && Position(v, p, q)
    ensures w == MapAll(v, f) && Tokens(MapUpTo(v, f, p, q), size) > max
  {
    var mi: nat, bi: nat :| Position(v, mi, bi) && w == MapUpTo(v, f, mi, bi)
      && OverBefore(v, f, max, size, mi, bi) && (Tokens(w, size) <= max || w == MapAll(v, f));
    if !Before(p, q, mi, bi) { MapSettled(v, f, mi, bi, p, q); }
  }

  lemma {:induction false} ExcerptsExact(v: seq<Message>, u: seq<Message>, max: int, size: Sizer)
    requires RewrittenUntil(v, u, ExcerptBlock, max, size)
    ensures Tokens(u, size) > max <==> ExcerptsFail(v, max, size)
    ensures Tokens(u, size) > max ==> u == MapAll(v, ExcerptBlock)
  {
    if Tokens(u, size) > max {
      forall p: nat, q: nat | Position(v, p, q) ensures Tokens(MapUpTo(v, ExcerptBlock, p, q), size) > max {
        RewrittenOver(v, u, ExcerptBlock, max, size, p, q);
      }
      RewrittenOver(v, u, ExcerptBlock, max, size, 0, 0);
    }
  }

  /** Exactly what becomes of a block under 1024 bytes: it is replaced by its placeholder if
      some other result is big, no amount of excerpts brings the transcript within the limit,
      the second nest is still over it when it reaches the block, and the block's own text
      contains the mark (and is not that placeholder already). Otherwise it is untouched. */
  lemma {:induction false} ShrunkSmall(v: seq<Message>, w: seq<Message>, max: int, size: Sizer, i: nat, j: nat)
    requires Shrunk(v, w, max, size) && i < |v| && j < |v[i].content| && !IsBig(v[i].content[j])
    ensures i < |w| && j < |w[i].content|
    ensures var b := v[i].content[j];
      var lost := AnyBig(v) && ExcerptsFail(v, max, size) && PlaceholdersReach(v, max, size, i, j);
      && w[i].content[j] == (if lost then PlaceholderBlock(b) else b)
      && (w[i].content[j] != b <==> lost && IsMarked(b) && b.text != Placeholder(b.resultFor))
  {
    MapNothing(v, ExcerptBlock);
    assert Position(v, 0, 0);
    if Tokens(v, size) > max {
      var u: seq<Message> :| ShrunkVia(v, u, w, max, size);
      ExcerptsExact(v, u, max, size);
      RewrittenSpares(v, u, ExcerptBlock, max, size, i, j);
      if Tokens(u, size) > max && AnyBig(v) {
        RewrittenBlock(u, w, PlaceholderBlock, max, size, i, j);
      }
    }
  }

  lemma {:induction false} ContentAtLeast(content: seq<Block>, size: Sizer)
    ensures ContentTokens(content, size) >= 3 * |content|
  {
    if content != [] { ContentAtLeast(content[..|content| - 1], size); }
  }

  lemma {:induction false} ExchangeTokens(v: seq<Message>, size: Sizer)
    requires |v| == 2
    ensures Tokens(v, size) > 3 * |v[1].content|
  {
    assert v[..1][..0] == [];
    ContentAtLeast(v[1].content, size);
  }

  /** An answer of 21 bytes that reads like the mark, and a big one. */
  function MarkedAnswer(id: string): Block {
    ToolResultBlock(id, COMPACTED_MARK, false, [])
  }

  function Long(): (text: string)
    ensures |text| == BIG_RESULT_BYTES
  {
    seq(BIG_RESULT_BYTES, i => 'x')
  }

  function BigAnswer(id: string): Block {
    ToolResultBlock(id, Long(), false, [])
  }

  function ParallelCalls(n: nat): (calls: seq<Block>)
    ensures |calls| == n
  {
    if n == 0 then [] else ParallelCalls(n - 1) + [ToolUseBlock(Decimal(n - 1), "bash", "{}")]
  }

  function ParallelAnswer(k: nat): Block {
    if k == 0 then BigAnswer(Decimal(k)) else MarkedAnswer(Decimal(k))
  }

  function ParallelAnswers(n: nat): (answers: seq<Block>)
    ensures |answers| == n
  {
    if n == 0 then [] else ParallelAnswers(n - 1) + [ParallelAnswer(n - 1)]
  }

  /** One exchange: `n` calls at once, and their answers, of which only the first is big. */
  function Parallel(n: nat): seq<Message> {
    [Message(Assistant, ParallelCalls(n), None), Message(User, ParallelAnswers(n), None)]
  }

  lemma {:induction false} ParallelAt(n: nat, k: nat)
    requires k < n
    ensures ParallelAnswers(n)[k] == ParallelAnswer(k)
  {
    if k < n - 1 { ParallelAt(n - 1, k); }
  }

  lemma {:induction false} SnocIds(calls: seq<Block>, answers: seq<Block>, call: Block, answer: Block)
    requires Calls(calls) == Answers(answers) && call.kind == "tool_use" && answer.kind == "tool_result"
    requires call.toolUseId == answer.resultFor
    ensures Calls(calls + [call]) == Answers(answers + [answer])
  {
    IdsOfSnoc(calls, call);
    IdsOfSnoc(answers, answer);
  }

  lemma {:induction false} ParallelIds(n: nat)
    ensures Calls(ParallelCalls(n)) == Answers(ParallelAnswers(n))
  {
    if n == 0 {
      assert ParallelCalls(0) == [] && ParallelAnswers(0) == [];
    } else {
      ParallelIds(n - 1);
      SnocIds(ParallelCalls(n - 1), ParallelAnswers(n - 1), ToolUseBlock(Decimal(n - 1), "bash", "{}"),
          ParallelAnswer(n - 1));
    }
  }

  lemma {:induction false} ParallelUses(n: nat)
    ensures forall b | b in ParallelCalls(n) :: b.kind == "tool_use"
  {
    if n > 0 { ParallelUses(n - 1); }
  }

  lemma {:induction false} ParallelLegal(n: nat)
    requires n > 0
    ensures Legal(Parallel(n))
  {
    ParallelIds(n);
    ParallelUses(n);
    assert !HasToolResult(Parallel(n)[0]);
  }

  lemma {:induction false} MarkedIsMarked(id: string)
    ensures IsMarked(MarkedAnswer(id)) && !IsBig(MarkedAnswer(id)) && OriginalBytes(MarkedAnswer(id)) == 21
    ensures IsBig(BigAnswer(id)) && COMPACTED_MARK != Placeholder(id)
  {
    ContainsMiddle("", COMPACTED_MARK, "");
    assert "" + COMPACTED_MARK + "" == COMPACTED_MARK;
    MarkLengths();
    assert Placeholder(id)[0] == '[' && COMPACTED_MARK[0] == 'T';
  }

  /** No rewriting brings a long exchange within the limit, so every marked answer goes. */
  lemma {:induction false} MarkedLost(v: seq<Message>, w: seq<Message>, max: int, size: Sizer, j: nat)
    requires |v| == 2 && max < 3 * |v[1].content| && AnyBig(v) && Shrunk(v, w, max, size)
    requires j < |v[1].content| && !IsBig(v[1].content[j]) && IsMarked(v[1].content[j])
    ensures 1 < |w| && j < |w[1].content|
    ensures w[1].content[j] == v[1].content[j].(text := Placeholder(v[1].content[j].resultFor))
  {
    forall p: nat, q: nat | Position(v, p, q) ensures Tokens(MapUpTo(v, ExcerptBlock, p, q), size) > max {
      ExchangeTokens(MapUpTo(v, ExcerptBlock, p, q), size);
    }
    var u := MapAll(v, ExcerptBlock);
    forall p: nat, q: nat | Position(u, p, q) ensures Tokens(MapUpTo(u, PlaceholderBlock, p, q), size) > max {
      ExchangeTokens(MapUpTo(u, PlaceholderBlock, p, q), size);
    }
    ShrunkSmall(v, w, max, size, 1, j);
  }

  lemma {:induction false} DecimalShort(n: nat)
    ensures |Decimal(n)| <= 1 + n / 10
  {
    if n >= 10 { DecimalShort(n / 10); }
  }

  lemma {:induction false} AroundBound(text: string, marker: string, maxBytes: nat)
    requires text != "" && marker != "" && |marker| < maxBytes
    ensures |text| > maxBytes ==> |ExcerptAround(text, marker, maxBytes)| < |text|
    ensures |text| <= maxBytes ==> |ExcerptAround(text, marker, maxBytes)| > |text|
  {
  }

  lemma {:induction false} AroundTrims(text: string, marker: string, maxBytes: nat)
    requires |marker| >= maxBytes
    ensures |ExcerptAround(text, marker, maxBytes)| <= |marker|
  {
  }

  lemma {:induction false} ExcerptBound(text: string, originalBytes: nat)
    requires text != "" && originalBytes == |text|
    ensures |text| > EXCERPT_BYTES ==> |Excerpt(text, originalBytes, EXCERPT_BYTES)| < |text|
    ensures |text| <= EXCERPT_BYTES ==> |Excerpt(text, originalBytes, EXCERPT_BYTES)| > |text|
  {
    MarkerShape(originalBytes);
    DecimalShort(originalBytes);
    var marker := Marker(originalBytes);
    assert |marker| == |Decimal(originalBytes)| + 48;
    if |marker| < EXCERPT_BYTES {
      AroundBound(text, marker, EXCERPT_BYTES);
    } else {
      AroundTrims(text, marker, EXCERPT_BYTES);
    }
  }

  /** An excerpt of a text-only result is shorter than the text exactly when the text is
      longer than 3000 bytes: a result of 1024 to 3000 bytes grows. */
  lemma {:induction false} ExcerptShortens(b: Block)
    requires IsBig(b) && b.raw == "" && b.resultContent == []
    ensures |ExcerptBlock(b).text| < |b.text| <==> |b.text| > EXCERPT_BYTES
  {
    ExcerptBound(b.text, OriginalBytes(b));
  }

  lemma {:induction false} OpenAscii()
    ensures Ascii(MARK_OPEN) && Ascii(MARK_COUNT)
  {
  }

  lemma {:induction false} MarkAscii()
    ensures Ascii(COMPACTED_MARK)
  {
  }

  lemma {:induction false} CloseAscii()
    ensures Ascii(MARK_CLOSE)
  {
  }

  lemma {:induction false} MarkerValid(originalBytes: nat)
    ensures ValidUtf8(MarkerLine(originalBytes)) && ValidUtf8(Marker(originalBytes))
  {
    OpenAscii();
    MarkAscii();
    CloseAscii();
    var digits := Decimal(originalBytes);
    AsciiConcat(MARK_COUNT, digits);
    AsciiConcat(MARK_COUNT + digits, MARK_CLOSE);
    AsciiConcat(MARK_OPEN, COMPACTED_MARK);
    AsciiConcat(MARK_OPEN + COMPACTED_MARK, MARK_COUNT + digits + MARK_CLOSE);
    var line := MarkerLine(originalBytes);
    AsciiConcat(['\n'], line);
    AsciiConcat(['\n'] + line, ['\n']);
    AsciiValid(line);
    AsciiValid(Marker(originalBytes));
  }

  lemma {:induction false} EndsValid(text: string, room: nat)
    requires ValidUtf8(text)
    ensures ValidUtf8(Head(text, room)) && ValidUtf8(Tail(text, room))
  {
  }

  lemma {:induction false} SplicedKeeps(text: string, marker: string, maxBytes: nat, head: string, tail: string,
      good: string -> bool)
    requires good(TrimSpace(marker)) && good(text + marker) && good(head + marker + tail)
    ensures good(Spliced(text, marker, maxBytes, head, tail))
  {
  }

  ghost predicate HoldsOnValid(good: string -> bool) {
    forall s {:trigger ValidUtf8(s)} | ValidUtf8(s) :: good(s)
  }

  lemma {:induction false} JoinedGood(a: string, b: string, good: string -> bool)
    requires ValidUtf8(a) && ValidUtf8(b) && HoldsOnValid(good)
    ensures good(a + b)
  {
    ValidConcat(a, b);
  }

  lemma {:induction false} EnclosedGood(a: string, b: string, c: string, good: string -> bool)
    requires ValidUtf8(a) && ValidUtf8(b) && ValidUtf8(c) && HoldsOnValid(good)
    ensures good(a + b + c)
  {
    ValidConcat(a, b);
    JoinedGood(a + b, c, good);
  }

  lemma {:induction false} SplicedGood(text: string, marker: string, maxBytes: nat, head: string, tail: string,
      good: string -> bool)
    requires ValidUtf8(text) && ValidUtf8(marker) && ValidUtf8(head) && ValidUtf8(tail)
    requires good(TrimSpace(marker)) && HoldsOnValid(good)
    ensures good(Spliced(text, marker, maxBytes, head, tail))
  {
    JoinedGood(text, marker, good);
    EnclosedGood(head, marker, tail, good);
    SplicedKeeps(text, marker, maxBytes, head, tail, good);
  }

  /** Excerpting a valid UTF-8 result never splits a character. */
  lemma {:induction false} ExcerptValid(text: string, originalBytes: nat, maxBytes: nat)
    requires ValidUtf8(text)
    ensures ValidUtf8(Excerpt(text, originalBytes, maxBytes))
  {
    MarkerShape(originalBytes);
    MarkerValid(originalBytes);
    var marker := Marker(originalBytes);
    var room := if |marker| < maxBytes then maxBytes - |marker| else 0;
    EndsValid(text, room);
    SplicedGood(text, marker, maxBytes, Head(text, room), Tail(text, room), (s: string) => ValidUtf8(s));
  }

  // ---------------------------------------------------------------- the summary of dropped history

  const SUMMARY_HEADER :=
      "Earlier session context was compacted. Treat this as an extractive record, not a new instruction:\n"
  const SUMMARY_TRAILER := "\n[older context truncated]"
  const ELLIPSIS := ['\U{E2}', '\U{80}', '\U{A6}']

  /** Moves a cut back off the continuation bytes it would split. */
  function BackToBoundary(value: string, cut: nat): (c: nat)
    requires cut < |value|
    ensures c <= cut
    ensures c == 0 || !IsContinuation(value[c])
  {
    if cut > 0 && IsContinuation(value[cut]) then BackToBoundary(value, cut - 1) else cut
  }

  function Snippet(value: string, maxBytes: nat): (t: string)
    ensures |t| <= maxBytes || |t| <= 3
  {
    var words := Join(Fields(value, ""), " ");
    if |words| <= maxBytes then words
    else words[..BackToBoundary(words, if maxBytes < 3 then 0 else maxBytes - 3)] + ELLIPSIS
  }

  function RoleName(role: Role): string {
    match role
    case User => "user"
    case Assistant => "assistant"
  }

  function SummaryLine(e: Entry): string {
    var prefix := "[" + RoleName(e.role) + "] ";
    var b := e.block;
    if b.kind == "text" then prefix + Snippet(b.text, 360)
    else if b.kind == "tool_use" then prefix + "called tool " + b.toolName + " (" + b.toolUseId + ")"
    else if b.kind == "tool_result" then
      if b.text != "" then prefix + "tool result for " + b.resultFor + ": " + Snippet(b.text, 240)
      else prefix + "received rich tool result for " + b.resultFor + " [content omitted from compacted context]"
    else if b.kind == "image" then prefix + "[image omitted from compacted context; retained in provider transcript]"
    else if b.kind == "document" then
        prefix + "[document omitted from compacted context; retained in provider transcript]"
    else prefix + "[" + b.kind + " content omitted from compacted context]"
  }

  /** Adds one line per block while the budget lasts, then the truncation notice. */
  function SummaryFrom(es: seq<Entry>, out: string, maxBytes: nat): (r: string)
    ensures out <= r
    ensures |out| <= maxBytes ==> |r| <= maxBytes + |SUMMARY_TRAILER|
    decreases |es|
  {
    if es == [] then out
    else
      var line := SummaryLine(es[0]);
      if |out| + |line| + 1 > maxBytes then out + SUMMARY_TRAILER
      else SummaryFrom(es[1..], out + "\n" + line, maxBytes)
  }

  function Summary(dropped: seq<Message>, maxBytes: nat): string {
    SummaryFrom(Flatten(dropped), SUMMARY_HEADER, maxBytes)
  }

  /** The summary as it continues from `out` with the messages from `i` on. */
  ghost function SummaryRest(v: seq<Message>, i: nat, out: string, maxBytes: nat): string
    requires i <= |v|
  {
    SummaryFrom(Flatten(v[i..]), out, maxBytes)
  }

  lemma {:induction false} SummaryStart(v: seq<Message>, maxBytes: nat)
    ensures SummaryRest(v, 0, SUMMARY_HEADER, maxBytes) == Summary(v, maxBytes)
  {
    assert v[0..] == v;
  }

  lemma {:induction false} SummaryEnd(v: seq<Message>, out: string, maxBytes: nat)
    ensures SummaryRest(v, |v|, out, maxBytes) == out
  {
    assert v[|v|..] == [];
  }

  lemma {:induction false} SummaryStep(v: seq<Message>, i: nat, out: string, out': string, full: bool, maxBytes: nat)
    requires i < |v|
    requires SummaryFrom(Tagged(v[i].role, v[i].content) + Flatten(v[i + 1..]), out, maxBytes)
      == if full then out' else SummaryFrom(Flatten(v[i + 1..]), out', maxBytes)
    ensures SummaryRest(v, i, out, maxBytes) == if full then out' else SummaryRest(v, i + 1, out', maxBytes)
  {
    FlattenFrom(v, i);
  }

  method CompactedSummary(messages: seq<Slot>, maxBytes: nat) returns (out: string)
    ensures View(messages) == old(View(messages))
    ensures out == Summary(View(messages), maxBytes)
  {
    ghost var v := View(messages);
    ghost var whole := Summary(v, maxBytes);
    out := SUMMARY_HEADER;
    SummaryStart(v, maxBytes);
    for i := 0 to |messages|
      invariant View(messages) == v
      invariant SummaryRest(v, i, out, maxBytes) == whole
    {
      var full;
      out, full := SummarizeNext(messages[i], v, i, out, maxBytes);
      if full { return; }
    }
    SummaryEnd(v, out, maxBytes);
  }

  lemma {:induction false} FlattenFrom(v: seq<Message>, i: nat)
    requires i < |v|
    ensures Flatten(v[i..]) == Tagged(v[i].role, v[i].content) + Flatten(v[i + 1..])
  {
    assert v[i..] == [v[i]] + v[i + 1..];
    FlattenCons(v[i], v[i + 1..]);
  }

  /** One message of the outer loop. */
  method SummarizeNext(m: Slot, ghost v: seq<Message>, ghost i: nat, soFar: string, maxBytes: nat)
      returns (out: string, full: bool)
    requires i < |v| && v[i] == Message(m.role, m.content[..], m.usage)
    ensures SummaryRest(v, i, soFar, maxBytes) == if full then out else SummaryRest(v, i + 1, out, maxBytes)
  {
    out, full := SummarizeMessage(m.role, m.content[..], soFar, maxBytes, Flatten(v[i + 1..]));
    SummaryStep(v, i, soFar, out, full, maxBytes);
  }

  /** The inner loop: the lines of one message, or the truncation notice. */
  method SummarizeMessage(role: Role, content: seq<Block>, soFar: string, maxBytes: nat, ghost later: seq<Entry>)
    returns (out: string, full: bool)
    ensures SummaryFrom(Tagged(role, content) + later, soFar, maxBytes)
      == if full then out else SummaryFrom(later, out, maxBytes)
  {
    out, full := soFar, false;
    ghost var whole := SummaryFrom(Tagged(role, content) + later, soFar, maxBytes);
    assert content[0..] == content;
    for j := 0 to |content|
      invariant whole == SummaryFrom(Tagged(role, content[j..]) + later, out, maxBytes)
    {
      var line := SummaryLine(Entry(role, content[j]));
      SummaryNext(role, content[j..], later, out, maxBytes);
      assert content[j..][1..] == content[j + 1..];
      if |out| + |line| + 1 > maxBytes {
        out := out + SUMMARY_TRAILER;
        full := true;
        return;
      }
      out := out + "\n" + line;
    }
    assert Tagged(role, content[|content|..]) + later == later;
  }

  lemma {:induction false} SummaryNext(role: Role, content: seq<Block>, later: seq<Entry>, out: string, maxBytes: nat)
    requires content != []
    ensures var line := SummaryLine(Entry(role, content[0]));
      SummaryFrom(Tagged(role, content) + later, out, maxBytes)
      == if |out| + |line| + 1 > maxBytes then out + SUMMARY_TRAILER
         else SummaryFrom(Tagged(role, content[1..]) + later, out + "\n" + line, maxBytes)
  {
    var es := Tagged(role, content) + later;
    assert es[0] == Entry(role, content[0]);
    assert es[1..] == Tagged(role, content[1..]) + later;
  }

  function SummaryBudget(max: nat): nat {
    var budget := max * 3 / 10;
    if budget < 512 then 512 else if budget > 12_000 then 12_000 else budget
  }

  /** The kept suffix with the summary in front of it, in a user message. */
  function WithSummary(suffix: seq<Message>, summary: string): seq<Message>
    requires suffix != []
  {
    if suffix[0].role == User then
      [suffix[0].(content := [TextBlock(summary)] + suffix[0].content)] + suffix[1..]
    else [Message(User, [TextBlock(summary)], None)] + suffix
  }

  // ---------------------------------------------------------------- choosing the cut

  function SuffixBudget(max: nat): nat {
    if max * 9 / 10 < 1 then 1 else max * 9 / 10
  }

  /** `cut` starts the longest suffix that fits the budget, or is the newest message alone. */
  ghost predicate IsLongestSuffix(v: seq<Message>, budget: nat, cut: nat, size: Sizer) {
    && cut < |v|
    && (cut == |v| - 1 || Tokens(v[cut..], size) <= budget)
    && (forall k :: 0 <= k < cut ==> Tokens(v[k..], size) > budget)
  }

  /** The cut CompactMessages uses: moved back one message only to keep a tool pair. */
  ghost predicate IsCut(v: seq<Message>, max: nat, cut: nat, size: Sizer) {
    exists base: nat :: IsLongestSuffix(v, SuffixBudget(max), base, size)
      && cut == if base > 0 && HasToolResult(v[base]) then base - 1 else base
  }

  lemma {:induction false} SuffixTokens(v: seq<Message>, k: nat, size: Sizer)
    requires k < |v|
    ensures Tokens(v[k..], size) == Tokens([v[k]], size) + Tokens(v[k + 1..], size)
  {
    assert v[k..] == [v[k]] + v[k + 1..];
    TokensConcat([v[k]], v[k + 1..], size);
  }

  lemma {:induction false} LongerSuffixesOver(v: seq<Message>, budget: nat, cut: nat, k: nat, size: Sizer)
    requires k <= cut < |v| && Tokens(v[cut..], size) > budget
    ensures Tokens(v[k..], size) > budget
    decreases cut - k
  {
    if k < cut {
      LongerSuffixesOver(v, budget, cut, k + 1, size);
      SuffixTokens(v, k, size);
    }
  }

  lemma {:induction false} StopHere(v: seq<Message>, budget: nat, cut: nat, size: Sizer)
    requires 0 < cut < |v|
    requires Tokens(v[cut..], size) + Tokens([v[cut - 1]], size) > budget
    ensures forall k :: 0 <= k < cut ==> Tokens(v[k..], size) > budget
  {
    SuffixTokens(v, cut - 1, size);
    forall k | 0 <= k < cut ensures Tokens(v[k..], size) > budget {
      LongerSuffixesOver(v, budget, cut - 1, k, size);
    }
  }

  /** The suffix from `cut` is estimated at `used`, and fits unless it is one message. */
  ghost predicate Fitting(v: seq<Message>, budget: nat, cut: nat, used: nat, size: Sizer) {
    cut < |v| && used == Tokens(v[cut..], size) && (cut == |v| - 1 || used <= budget)
  }

  lemma {:induction false} FittingStep(v: seq<Message>, budget: nat, cut: nat, used: nat, candidate: nat, size: Sizer)
    requires Fitting(v, budget, cut, used, size) && cut > 0 && candidate == Tokens([v[cut - 1]], size)
    ensures if used + candidate > budget then IsLongestSuffix(v, budget, cut, size)
            else Fitting(v, budget, cut - 1, used + candidate, size)
  {
    if used + candidate > budget { StopHere(v, budget, cut, size); }
    SuffixTokens(v, cut - 1, size);
  }

  lemma {:induction false} FittingAll(v: seq<Message>, budget: nat, used: nat, size: Sizer)
    requires Fitting(v, budget, 0, used, size)
    ensures IsLongestSuffix(v, budget, 0, size)
  {
  }

  method LongestSuffix(messages: seq<Slot>, suffixBudget: nat, size: Sizer) returns (cut: nat)
    requires messages != []
    ensures View(messages) == old(View(messages))
    ensures IsLongestSuffix(View(messages), suffixBudget, cut, size)
  {
    ghost var v := View(messages);
    cut := |messages| - 1;
    var used: nat := EstimateAt(messages, cut, size, v);
    assert v[cut..] == [v[cut]];
    while cut > 0
      invariant View(messages) == v && Fitting(v, suffixBudget, cut, used, size)
    {
      var candidate := EstimateAt(messages, cut - 1, size, v);
      FittingStep(v, suffixBudget, cut, used, candidate, size);
      if used + candidate > suffixBudget { return; }
      cut := cut - 1;
      used := used + candidate;
    }
    FittingAll(v, suffixBudget, used, size);
  }

  method EstimateAt(messages: seq<Slot>, i: nat, size: Sizer, ghost v: seq<Message>) returns (tokens: nat)
    requires i < |messages| && v == View(messages)
    ensures View(messages) == v
    ensures tokens == Tokens([v[i]], size)
  {
    tokens := EstimateMessagesTokens(messages[i..i + 1], size);
    ViewSlice(messages, i, i + 1);
    assert v[i..i + 1] == [v[i]];
  }

  lemma {:induction false} CutFrom(v: seq<Message>, max: nat, base: nat, size: Sizer)
    requires IsLongestSuffix(v, SuffixBudget(max), base, size)
    ensures IsCut(v, max, if base > 0 && HasToolResult(v[base]) then base - 1 else base, size)
  {
  }

  method FindCut(messages: seq<Slot>, max: nat, size: Sizer) returns (cut: nat)
    requires messages != []
    ensures View(messages) == old(View(messages))
    ensures IsCut(View(messages), max, cut, size)
  {
    ghost var v := View(messages);
    var suffixBudget := max * 9 / 10;
    if suffixBudget < 1 { suffixBudget := 1; }
    cut := LongestSuffix(messages, suffixBudget, size);
    CutFrom(v, max, cut, size);
    var paired := SlotHasToolResult(messages[cut], v[cut]);
    if cut > 0 && paired { cut := cut - 1; }
  }

  method SlotHasToolResult(m: Slot, ghost message: Message) returns (found: bool)
    requires message.content == m.content[..]
    ensures found <==> HasToolResult(message)
  {
    for j := 0 to m.content.Length
      invariant forall k :: 0 <= k < j ==> message.content[k].kind != "tool_result"
    {
      if m.content[j].kind == "tool_result" {
        assert message.content[j].kind == "tool_result";
        return true;
      }
    }
    return false;
  }

  lemma {:induction false} ViewCons(first: Slot, rest: seq<Slot>)
    ensures View([first] + rest) == [Message(first.role, first.content[..], first.usage)] + View(rest)
  {
  }

  lemma {:induction false} UnsharedCons(first: Slot, rest: seq<Slot>)
    requires Unshared(rest) && first.content !in Footprint(rest)
    ensures Unshared([first] + rest)
    ensures Footprint([first] + rest) == {first.content} + Footprint(rest)
  {
    var out := [first] + rest;
    assert out[0] == first;
    assert forall i :: 0 < i < |out| ==> out[i] == rest[i - 1] && rest[i - 1].content in Footprint(rest);
    forall o | o in Footprint(rest) ensures o in Footprint(out) {
      var i :| 0 <= i < |rest| && rest[i].content == o;
      assert out[i + 1].content == o;
    }
  }

  lemma {:induction false} FootprintSlice(transcript: seq<Slot>, lo: nat)
    requires lo <= |transcript| && Unshared(transcript)
    ensures Footprint(transcript[lo..]) <= Footprint(transcript) && Unshared(transcript[lo..])
  {
  }

  /** A slot whose fresh block list starts with a text block. */
  method Prefixed(role: Role, usage: Option<Anchor>, text: string, old0: seq<Block>) returns (slot: Slot)
    ensures fresh(slot.content) && slot.role == role && slot.usage == usage
    ensures slot.content[..] == [TextBlock(text)] + old0
  {
    var content := new Block[|old0| + 1](j requires 0 <= j <= |old0| => if j == 0 then TextBlock(text)
        else old0[j - 1]);
    assert content[..] == [TextBlock(text)] + old0;
    slot := Slot(role, content, usage);
  }

  method Attach(usage: Option<Anchor>, text: string, old0: seq<Block>, rest: seq<Slot>) returns (out: seq<Slot>)
    requires Unshared(rest)
    ensures Unshared(out) && fresh(Footprint(out) - Footprint(rest))
    ensures View(out) == [Message(User, [TextBlock(text)] + old0, usage)] + View(rest)
  {
    ghost var w := View(rest);
    var first := Prefixed(User, usage, text, old0);
    assert View(rest) == w;
    ViewCons(first, rest);
    UnsharedCons(first, rest);
    out := [first] + rest;
  }

  method PrependSummary(suffix: seq<Slot>, summary: string) returns (out: seq<Slot>)
    requires suffix != [] && Unshared(suffix)
    ensures Unshared(out) && fresh(Footprint(out) - Footprint(suffix))
    ensures View(out) == WithSummary(old(View(suffix)), summary)
  {
    if suffix[0].role == User {
      FootprintSlice(suffix, 1);
      ViewSlice(suffix, 1, |suffix|);
      out := Attach(suffix[0].usage, summary, suffix[0].content[..], suffix[1..]);
    } else {
      out := Attach(None, summary, [], suffix);
      assert [TextBlock(summary)] + [] == [TextBlock(summary)];
    }
  }

  // ---------------------------------------------------------------- CompactMessages

  /** The transcript the shrinking pass starts from. */
  function BeforeShrinking(v: seq<Message>, cut: nat, max: nat): seq<Message>
    requires cut < |v|
  {
    if cut == 0 then v else WithSummary(v[cut..], Summary(v[..cut], SummaryBudget(max)))
  }

  /** The statistics of the projection `w` built at a cut, or nothing when `w` is not one. */
  ghost function Projected(v: seq<Message>, w: seq<Message>, max: int, cut: nat,
      size: Sizer): Option<ContextProjection> {
    if max > 0 && cut < |v| && Shrunk(BeforeShrinking(v, cut, max), w, max, size) then
      var compacted := cut > 0 || AnyBig(v);
      Some(ContextProjection(compacted, Tokens(v, size), if compacted then Tokens(w, size) else Tokens(v, size), cut))
    else None
  }

  /** What CompactMessages may return for a transcript. */
  ghost predicate CompactedTo(v: seq<Message>, w: seq<Message>, p: ContextProjection, max: int, size: Sizer) {
    if max <= 0 || Tokens(v, size) <= max then
      && w == v
      && p == ContextProjection(false, Tokens(v, size), Tokens(v, size), 0)
    else
      exists cut :: IsCut(v, max, cut, size) && Projected(v, w, max, cut, size) == Some(p)
  }

  /** Of an exchange nothing is dropped: the cut never parts the answers from their calls. */
  lemma {:induction false} ExchangeKept(v: seq<Message>, w: seq<Message>, p: ContextProjection, max: int, size: Sizer)
    requires |v| == 2 && HasToolResult(v[1]) && 0 < max < Tokens(v, size) && CompactedTo(v, w, p, max, size)
    ensures Shrunk(v, w, max, size) && p.droppedMessages == 0
  {
    var cut :| IsCut(v, max, cut, size) && Projected(v, w, max, cut, size) == Some(p);
    var base: nat :| IsLongestSuffix(v, SuffixBudget(max), base, size)
        && cut == if base > 0 && HasToolResult(v[base]) then base - 1 else base;
    assert cut == 0;
  }

  lemma {:induction false} ParallelFacts(n: nat, k: nat)
    requires 0 < k < n
    ensures AnyBig(Parallel(n)) && HasToolResult(Parallel(n)[1])
        && Parallel(n)[1].content[k] == MarkedAnswer(Decimal(k))
  {
    ParallelAt(n, 0);
    ParallelAt(n, k);
    MarkedIsMarked(Decimal(0));
    assert TargetAt(Parallel(n), IsBig, 1, 0);
    assert Parallel(n)[1].content[0] in Parallel(n)[1].content;
  }

  /** Compaction does lose small results: whatever the limit, of one exchange with enough
      parallel calls every answer of 21 bytes that reads like the mark is replaced. */
  lemma {:induction false} SmallResultLost(max: nat, n: nat, w: seq<Message>, p: ContextProjection, size: Sizer, k: nat)
    requires 0 < max < 3 * n && 0 < k < n && CompactedTo(Parallel(n), w, p, max, size)
    ensures Legal(Parallel(n))
    ensures Parallel(n)[1].content[k] == MarkedAnswer(Decimal(k)) && OriginalBytes(MarkedAnswer(Decimal(k))) == 21
    ensures 1 < |w| && k < |w[1].content|
    ensures w[1].content[k] == MarkedAnswer(Decimal(k)).(text := Placeholder(Decimal(k))) != MarkedAnswer(Decimal(k))
  {
    ParallelLegal(n);
    ParallelFacts(n, k);
    MarkedIsMarked(Decimal(k));
    ExchangeTokens(Parallel(n), size);
    ExchangeKept(Parallel(n), w, p, max, size);
    MarkedLost(Parallel(n), w, max, size, k);
  }

  /** Nothing can be dropped: shrink a copy. */
  method ShrinkCopy(messages: seq<Slot>, max: int, size: Sizer) returns (out: seq<Slot>, compacted: bool)
    ensures fresh(Footprint(out)) && Unshared(out)
    ensures View(messages) == old(View(messages))
    ensures Shrinking(View(messages), View(out), max, size) == Some(compacted)
  {
    ghost var v := View(messages);
    out := CloneMessages(messages);
    assert View(out) == v;
    compacted := CompactOversizedToolResults(out, max, size);
    assert View(messages) == v;
  }

  /** Drop everything before the cut: put its summary in front of a copy of the rest. */
  method SummarizeDropped(messages: seq<Slot>, cut: nat, maxBytes: nat) returns (out: seq<Slot>)
    requires cut < |messages|
    ensures fresh(Footprint(out)) && Unshared(out)
    ensures View(messages) == old(View(messages))
    ensures View(out) == WithSummary(View(messages)[cut..], Summary(View(messages)[..cut], maxBytes))
  {
    ghost var v := View(messages);
    ViewSlice(messages, 0, cut);
    assert v[0..cut] == v[..cut] && messages[0..cut] == messages[..cut];
    var summary := CompactedSummary(messages[..cut], maxBytes);
    ViewSlice(messages, cut, |messages|);
    assert v[cut..|messages|] == v[cut..] && messages[cut..|messages|] == messages[cut..];
    out := CloneMessages(messages[cut..]);
    assert View(out) == v[cut..] && View(messages) == v;
    out := PrependSummary(out, summary);
    assert View(messages) == v;
    assert View(out) == WithSummary(v[cut..], summary);
  }

  method DropAndShrink(messages: seq<Slot>, cut: nat, max: int, size: Sizer) returns (out: seq<Slot>)
    requires cut < |messages| && max > 0
    ensures fresh(Footprint(out)) && Unshared(out)
    ensures View(messages) == old(View(messages))
    ensures Shrinking(WithSummary(View(messages)[cut..], Summary(View(messages)[..cut], SummaryBudget(max))), View(out),
        max, size).Some?
  {
    ghost var v := View(messages);
    out := SummarizeDropped(messages, cut, SummaryBudget(max));
    ghost var summarized := View(out);
    var _ := CompactOversizedToolResults(out, max, size);
    assert View(messages) == v;
  }

  /** Builds the projection on fresh block lists; the source transcript is untouched. */
  method CompactMessages(messages: seq<Slot>, max: int, size: Sizer)
      returns (out: seq<Slot>, projection: ContextProjection)
    ensures fresh(Footprint(out)) && Unshared(out)
    ensures View(messages) == old(View(messages))
    ensures CompactedTo(View(messages), View(out), projection, max, size)
  {
    ghost var v := View(messages);
    var original := EstimateMessagesTokens(messages, size);
    if max <= 0 || original <= max {
      projection := ContextProjection(false, original, original, 0);
      out := CloneMessages(messages);
      return;
    }
    var cut := 0;
    if |messages| > 1 {
      cut := FindCut(messages, max, size);
    } else {
      CutFrom(v, max, 0, size);
    }
    out, projection := CompactAt(messages, cut, max, size, original);
    assert View(messages) == v;
  }

  method Measure(messages: seq<Slot>, compacted: bool, original: nat, size: Sizer) returns (tokens: nat)
    ensures View(messages) == old(View(messages))
    ensures tokens == if compacted then Tokens(View(messages), size) else original
  {
    tokens := original;
    if compacted {
      tokens := EstimateMessagesTokens(messages, size);
    }
  }

  method CompactAt(messages: seq<Slot>, cut: nat, max: int, size: Sizer, original: nat)
    returns (out: seq<Slot>, projection: ContextProjection)
    requires cut < |messages| && max > 0 && original > max
    requires original == Tokens(View(messages), size)
    ensures fresh(Footprint(out)) && Unshared(out)
    ensures View(messages) == old(View(messages))
    ensures Projected(View(messages), View(out), max, cut, size) == Some(projection)
  {
    ghost var v := View(messages);
    var compacted := true;
    if cut == 0 {
      out, compacted := ShrinkCopy(messages, max, size);
    } else {
      out := DropAndShrink(messages, cut, max, size);
    }
    assert View(messages) == v;
    ghost var w := View(out);
    var projected := Measure(out, compacted, original, size);
    assert View(messages) == v;
    assert View(out) == w;
    projection := ContextProjection(compacted, original, projected, cut);
    ProjectedIs(v, w, max, cut, size, compacted, projected);
  }

  lemma {:induction false} ProjectedIs(v: seq<Message>, w: seq<Message>, max: int, cut: nat, size: Sizer,
      compacted: bool, projected: nat)
    requires max > 0 && cut < |v| && Tokens(v, size) > max
    requires var shrinking := Shrinking(BeforeShrinking(v, cut, max), w, max, size);
      if cut == 0 then shrinking == Some(compacted) else shrinking.Some? && compacted
    requires projected == if compacted then Tokens(w, size) else Tokens(v, size)
    ensures Projected(v, w, max, cut, size) == Some(ContextProjection(compacted, Tokens(v, size), projected, cut))
  {
  }

  // ---------------------------------------------------------------- legality and the token budget

  lemma {:induction false} CutStartsClean(v: seq<Message>, max: nat, cut: nat, size: Sizer)
    requires Legal(v) && IsCut(v, max, cut, size) && cut > 0
    ensures cut < |v| && !HasToolResult(v[cut])
  {
  }

  lemma {:induction false} SuffixLegal(v: seq<Message>, cut: nat)
    requires Legal(v) && cut < |v| && !HasToolResult(v[cut])
    ensures Legal(v[cut..])
  {
    var w := v[cut..];
    NoResultNoAnswer(w[0].content);
    assert forall i :: 0 <= i < |w| ==> w[i] == v[cut + i];
  }

  lemma {:induction false} NoteLegal(suffix: seq<Message>, note: seq<Block>)
    requires suffix != [] && Legal(suffix) && suffix[0].role == User && note != [] && Answers(note) == multiset{}
    ensures Legal([suffix[0].(content := note + suffix[0].content)] + suffix[1..])
  {
    var first := suffix[0].(content := note + suffix[0].content);
    IdsOfConcat(note, suffix[0].content);
    ReplaceFirstLegal(suffix, first);
    assert [first] + suffix[1..] == suffix[0 := first];
  }

  lemma {:induction false} WithSummaryLegal(suffix: seq<Message>, summary: string)
    requires suffix != [] && Legal(suffix)
    ensures Legal(WithSummary(suffix, summary))
    ensures WithSummary(suffix, summary)[0].role == User
  {
    var note := [TextBlock(summary)];
    assert Answers(note) == multiset{} by { NoResultNoAnswer(note); }
    if suffix[0].role == User {
      NoteLegal(suffix, note);
    } else {
      AttachFirstLegal(suffix, Message(User, note, None));
    }
  }

  lemma {:induction false} ReplaceFirstLegal(v: seq<Message>, first: Message)
    requires v != [] && Legal(v) && v[0].role == User == first.role
    requires first.content != [] && Answers(first.content) == multiset{}
    ensures Legal(v[0 := first])
  {
  }

  lemma {:induction false} AttachFirstLegal(v: seq<Message>, first: Message)
    requires v != [] && Legal(v) && v[0].role == Assistant && first.role == User
    requires first.content != [] && Answers(first.content) == multiset{}
    ensures Legal([first] + v)
  {
    var w := [first] + v;
    assert w[0] == first;
    assert forall i :: 0 < i < |w| ==> w[i] == v[i - 1];
  }

  /** Compaction preserves legality, starts with a user message whenever it drops anything,
      and changes nothing in the survivors but the payload of tool results. */
  lemma {:induction false} CompactedLegal(v: seq<Message>, w: seq<Message>, p: ContextProjection, max: int, size: Sizer)
    requires Legal(v) && CompactedTo(v, w, p, max, size)
    ensures Legal(w)
    ensures p.droppedMessages > 0 ==> w != [] && w[0].role == User
    ensures v != [] ==> p.droppedMessages < |v| && (max > 0 || p.droppedMessages == 0)
    ensures v != [] ==> SameShape(if p.droppedMessages == 0 then v else BeforeShrinking(v, p.droppedMessages, max), w)
  {
    if max > 0 && Tokens(v, size) > max {
      var cut: nat :| IsCut(v, max, cut, size) && Projected(v, w, max, cut, size) == Some(p);
      ProjectedLegal(v, w, p, max, cut, size);
    }
  }

  lemma {:induction false} ProjectedLegal(v: seq<Message>, w: seq<Message>, p: ContextProjection, max: nat, cut: nat,
      size: Sizer)
    requires Legal(v) && cut < |v|
    requires IsCut(v, max, cut, size) && Projected(v, w, max, cut, size) == Some(p)
    ensures Legal(w)
    ensures cut > 0 ==> w != [] && w[0].role == User
    ensures SameShape(BeforeShrinking(v, cut, max), w)
  {
    var u := BeforeShrinking(v, cut, max);
    assert Legal(u) && (cut > 0 ==> u != [] && u[0].role == User) by {
      if cut > 0 {
        CutStartsClean(v, max, cut, size);
        SuffixLegal(v, cut);
        WithSummaryLegal(v[cut..], Summary(v[..cut], SummaryBudget(max)));
      }
    }
    assert Shrunk(u, w, max, size);
    ShrunkShape(u, w, max, size);
    SameShapeLegal(u, w);
  }

  lemma {:induction false} NoteLengths()
    ensures |SUMMARY_HEADER| <= 512 && |SUMMARY_TRAILER| == 26
  {
  }

  lemma {:induction false} SummaryLength(dropped: seq<Message>, max: nat)
    ensures |Summary(dropped, SummaryBudget(max))| <= SummaryBudget(max) + 26
  {
    NoteLengths();
  }

  lemma {:induction false} TextTokens(summary: string, size: Sizer)
    ensures ContentTokens([TextBlock(summary)], size) == 3 + ByteTokens(|summary|)
  {
  }

  lemma {:induction false} OneMessageTokens(m: Message, size: Sizer)
    ensures Tokens([m], size) == 4 + ContentTokens(m.content, size)
  {
  }

  /** What the summary costs on top of the suffix. */
  lemma {:induction false} WithSummaryTokens(suffix: seq<Message>, summary: string, size: Sizer)
    requires suffix != []
    ensures Tokens(WithSummary(suffix, summary), size)
      == Tokens(suffix, size) + ByteTokens(|summary|) + if suffix[0].role == User then 3 else 7
  {
    var note := [TextBlock(summary)];
    TextTokens(summary, size);
    if suffix[0].role == User {
      var first := suffix[0].(content := note + suffix[0].content);
      TokensConcat([first], suffix[1..], size);
      assert suffix == [suffix[0]] + suffix[1..];
      TokensConcat([suffix[0]], suffix[1..], size);
      ContentTokensConcat(note, suffix[0].content, size);
      OneMessageTokens(first, size);
      OneMessageTokens(suffix[0], size);
    } else {
      TokensConcat([Message(User, note, None)], suffix, size);
      OneMessageTokens(Message(User, note, None), size);
    }
  }

  /** When the newest message fits nine tenths of the limit and the cut was not moved back,
      the summary and the suffix stay within a fixed overshoot of the budget. */
  lemma {:induction false} SummaryWithinBudget(v: seq<Message>, max: nat, cut: nat, size: Sizer)
    requires IsLongestSuffix(v, SuffixBudget(max), cut, size) && cut > 0
    requires Tokens([v[|v| - 1]], size) <= SuffixBudget(max)
    ensures Tokens(BeforeShrinking(v, cut, max), size) <= max * 9 / 10 + 7 + (SummaryBudget(max) + 28) / 3
  {
    OneMessageTokens(v[|v| - 1], size);
    assert SuffixBudget(max) == max * 9 / 10;
    assert v[|v| - 1..] == [v[|v| - 1]];
    SummaryLength(v[..cut], max);
    WithSummaryTokens(v[cut..], Summary(v[..cut], SummaryBudget(max)), size);
  }

  /** The longest suffix is unique, so the cut is determined by the transcript. */
  lemma {:induction false} LongestSuffixUnique(v: seq<Message>, budget: nat, a: nat, b: nat, size: Sizer)
    requires IsLongestSuffix(v, budget, a, size) && IsLongestSuffix(v, budget, b, size)
    ensures a == b
  {
  }
}
