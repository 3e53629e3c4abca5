/** Which Skills are carried across compaction, and how much of them
    (internal/agentruntime/skills.go), with the texts and limits written out. */
module SkillRules {
  import opened Conversation
  import opened Text
  import opened Compaction
  import opened SkillContext
  import MountPaths
  import CompactedContent

  // ---------------------------------------------------------------- what an injection looks like

  predicate HexDigits(s: string) {
    forall c | c in s :: '0' <= c <= '9' || 'a' <= c <= 'f' || 'A' <= c <= 'F'
  }

  /** A path below the Skills root that names a Skill: its name, or its place in an agent's bundle. */
  ghost predicate PathOf(path: string, name: string) {
    && name != "" && '/' !in name && '\\' !in name && '\0' !in name
    && (path == name || exists bundle ::
          |bundle| == 24 && HexDigits(bundle) && path == ".agents" + "/" + bundle + "/" + name)
  }

  ghost predicate BodyOf(text: string, name: string) {
    exists path, body :: PathOf(path, name) && '\n' !in path
      && text == "Base directory for this skill: " + "/workspace/skills/" + path + "\n" + body
  }

  /** The complete body of a Skill: a text block that starts with the Skill's directory and does
      not end with the note that it was cut. */
  ghost predicate IsBody(b: Block, name: string) {
    && b.kind == "text" && BodyOf(b.text, name)
    && forall kept :: b.text != kept
         + "\n\n[... skill content truncated for compaction; re-invoke the Skill to restore the full content]"
  }

  lemma {:induction false} LineExactly(s: string, line: string)
    ensures Line(s) == Some(line) <==> '\n' !in line && line + "\n" <= s
  {
    if s == "" || s[0] == '\n' {
      if line != "" && line + "\n" <= s { assert line[0] == (line + "\n")[0] == s[0] && line[0] in line; }
    } else if line == "" {
      assert (line + "\n")[0] == '\n';
    } else {
      LineExactly(s[1..], line[1..]);
      LineStep(s, line);
    }
  }

  lemma {:induction false} LineStep(s: string, line: string)
    requires s != "" && line != "" && s[0] != '\n'
    ensures Line(s) == Some(line) <==> line[0] == s[0] && Line(s[1..]) == Some(line[1..])
    ensures '\n' !in line && line + "\n" <= s <==> line[0] == s[0] && '\n' !in line[1..] && line[1..] + "\n" <= s[1..]
  {
    assert line == [line[0]] + line[1..] && s == [s[0]] + s[1..];
    assert line + "\n" == [line[0]] + (line[1..] + "\n");
    if line[0] == s[0] && line[1..] + "\n" <= s[1..] {
      assert s == [line[0]] + (line[1..] + "\n") + s[1..][|line[1..] + "\n"|..];
    }
  }

  lemma {:induction false} SplitPath(path: string)
    ensures |Split(path)| == 1 ==> Split(path) == [path] && '/' !in path
    ensures |Split(path)| == 3 ==>
      path == Split(path)[0] + "/" + Split(path)[1] + "/" + Split(path)[2]
      && '/' !in Split(path)[0] && '/' !in Split(path)[1] && '/' !in Split(path)[2]
  {
    MountPaths.SplitNoSlash(path);
    SplitRejoined(path);
    var parts := Split(path);
    if |parts| == 3 {
      assert parts[1..][1..] == [parts[2]] && Rejoined([parts[2]]) == parts[2];
      assert Rejoined(parts[1..]) == parts[1] + "/" + parts[2];
      assert Rejoined(parts) == parts[0] + "/" + (parts[1] + "/" + parts[2]);
    }
  }

  function Rejoined(parts: seq<string>): string
    requires parts != []
  {
    if |parts| == 1 then parts[0] else parts[0] + "/" + Rejoined(parts[1..])
  }

  lemma {:induction false} SplitRejoined(s: string)
    ensures Rejoined(Split(s)) == s
  {
    if s != "" {
      SplitRejoined(s[1..]);
      var rest := Split(s[1..]);
      assert s == [s[0]] + s[1..];
      if s[0] != '/' && |rest| > 1 {
        assert Split(s)[1..] == rest[1..];
        assert ([s[0]] + rest[0]) + "/" + Rejoined(rest[1..]) == [s[0]] + (rest[0] + "/" + Rejoined(rest[1..]));
      }
    }
  }

  lemma {:induction false} SplitBundle(bundle: string, name: string)
    requires '/' !in bundle && '/' !in name
    ensures Split(".agents" + "/" + bundle + "/" + name) == [".agents", bundle, name]
  {
    MountPaths.SplitAtSlash(".agents" + "/" + bundle, name);
    MountPaths.SplitAtSlash(".agents", bundle);
    MountPaths.SplitPlain(".agents");
    MountPaths.SplitPlain(bundle);
    MountPaths.SplitPlain(name);
  }

  lemma {:induction false} DirectoryExactly(path: string, name: string)
    ensures DirectoryName(path) == Some(name) <==> PathOf(path, name)
  {
    SplitPath(path);
    if DirectoryName(path) == Some(name) {
      if |Split(path)| == 3 { assert HexDigits(Split(path)[1]); }
    }
    if PathOf(path, name) {
      if path == name {
        MountPaths.SplitPlain(name);
      } else {
        var bundle :| |bundle| == 24 && HexDigits(bundle) && path == ".agents" + "/" + bundle + "/" + name;
        assert '/' !in bundle;
        SplitBundle(bundle, name);
      }
    }
  }

  lemma {:induction false} CutExactly(text: string)
    ensures HasSuffix(text, MARKER) <==> exists kept ::
      text == kept + "\n\n[... skill content truncated for compaction; re-invoke the Skill to restore the full content]"
  {
    if HasSuffix(text, MARKER) { assert text == text[..|text| - |MARKER|] + MARKER; }
  }

  /** A text that starts with a base, a root below it and a path to the end of the line. */
  ghost predicate Opens(text: string, base: string, root: string, path: string) {
    '\n' !in path && base + root + path + "\n" <= text
  }

  lemma {:induction false} OpensExactly(text: string, base: string, root: string, path: string)
    requires '\n' !in root
    ensures Opens(text, base, root, path) <==>
      base <= text && Line(text[|base|..]) == Some(root + path)
  {
    var line := root + path;
    assert base + root + path + "\n" == base + (line + "\n");
    if base <= text {
      var after := text[|base|..];
      assert text == base + after;
      LineExactly(after, line);
      if line + "\n" <= after { assert text == base + (line + "\n") + after[|line + "\n"|..]; }
    }
  }

  lemma {:induction false} RootPlain()
    ensures '\n' !in SKILLS_ROOT
  {
  }

  lemma {:induction false} BodyOpens(text: string, name: string)
    ensures BodyOf(text, name) <==> exists path :: PathOf(path, name) && Opens(text, BASE_PREFIX, SKILLS_ROOT, path)
  {
    if BodyOf(text, name) {
      var path, body :| PathOf(path, name) && '\n' !in path
        && text == "Base directory for this skill: " + "/workspace/skills/" + path + "\n" + body;
      assert BASE_PREFIX + SKILLS_ROOT + path + "\n" <= text;
      assert Opens(text, BASE_PREFIX, SKILLS_ROOT, path);
    }
    if path :| PathOf(path, name) && Opens(text, BASE_PREFIX, SKILLS_ROOT, path) {
      var start := BASE_PREFIX + SKILLS_ROOT + path + "\n";
      assert text == start + text[|start|..];
    }
  }

  lemma {:induction false} BodyExactly(text: string, name: string)
    ensures BodyOf(text, name) <==>
      && HasPrefix(text, BASE_PREFIX)
      && var line := Line(text[|BASE_PREFIX|..]);
         line.Some? && HasPrefix(line.value, SKILLS_ROOT) && PathOf(line.value[|SKILLS_ROOT|..], name)
  {
    BodyOpens(text, name);
    RootPlain();
    if path :| PathOf(path, name) && Opens(text, BASE_PREFIX, SKILLS_ROOT, path) {
      OpensExactly(text, BASE_PREFIX, SKILLS_ROOT, path);
      assert (SKILLS_ROOT + path)[|SKILLS_ROOT|..] == path;
    }
    if HasPrefix(text, BASE_PREFIX) {
      var line := Line(text[|BASE_PREFIX|..]);
      if line.Some? && HasPrefix(line.value, SKILLS_ROOT) {
        var path := line.value[|SKILLS_ROOT|..];
        assert line.value == SKILLS_ROOT + path;
        OpensExactly(text, BASE_PREFIX, SKILLS_ROOT, path);
      }
    }
  }

  /** A block is taken for a Skill's complete body exactly when it is one. */
  lemma {:induction false} InjectionExactly(b: Block, name: string)
    ensures InjectionName(b) == Some(name) <==> IsBody(b, name)
  {
    CutExactly(b.text);
    BodyExactly(b.text, name);
    if HasPrefix(b.text, BASE_PREFIX) {
      var line := Line(b.text[|BASE_PREFIX|..]);
      if line.Some? && HasPrefix(line.value, SKILLS_ROOT) { DirectoryExactly(line.value[|SKILLS_ROOT|..], name); }
    }
  }

  // ---------------------------------------------------------------- the latest bodies

  /** The last block of a conversation that carries a Skill's complete body. */
  ghost predicate LatestBody(blocks: seq<Block>, n: nat, name: string) {
    n < |blocks| && IsBody(blocks[n], name) && forall m :: n < m < |blocks| ==> !IsBody(blocks[m], name)
  }

  /** The last block that is named so. */
  ghost predicate LastNamed(blocks: seq<Block>, e: Injection) {
    && e.order < |blocks| && e.block == blocks[e.order] && InjectionName(e.block) == Some(e.name)
    && forall m :: e.order < m < |blocks| ==> InjectionName(blocks[m]) != Some(e.name)
  }

  lemma {:induction false} LastNamedSnoc(before: seq<Block>, b: Block, e: Injection)
    ensures LastNamed(before + [b], e)
      <==> if InjectionName(b) == Some(e.name) then e.order == |before| && e.block == b else LastNamed(before, e)
  {
    var blocks := before + [b];
    assert blocks[|before|] == b && forall m :: 0 <= m < |before| ==> blocks[m] == before[m];
    if LastNamed(blocks, e) && e.order < |before| { assert InjectionName(blocks[|before|]) != Some(e.name); }
  }

  lemma {:induction false} LatestMember(blocks: seq<Block>, e: Injection)
    ensures e in LatestOf(blocks) <==> LastNamed(blocks, e)
  {
    if blocks != [] {
      var init, b := blocks[..|blocks| - 1], blocks[|blocks| - 1];
      assert blocks == init + [b];
      LatestMember(init, e);
      LastNamedSnoc(init, b, e);
      LatestSnoc(init, b);
      if InjectionName(b).Some? { WithoutMember(LatestOf(init), InjectionName(b).value, e); }
    }
  }

  /** The injections found are exactly the last complete body of each Skill, where it stands. */
  lemma {:induction false} LatestExactly(blocks: seq<Block>, e: Injection)
    ensures e in LatestOf(blocks) <==> LatestBody(blocks, e.order, e.name) && e.block == blocks[e.order]
  {
    LatestMember(blocks, e);
    InjectionExactly(e.block, e.name);
    forall m | e.order < m < |blocks| ensures InjectionName(blocks[m]) == Some(e.name) <==> IsBody(blocks[m], e.name) {
      InjectionExactly(blocks[m], e.name);
    }
  }

  // ---------------------------------------------------------------- how much is carried

  /** What a body costs: three bytes to a token. */
  function Tokens3(bytes: nat): nat {
    (bytes + 2) / 3
  }

  /** A body within its limit is kept whole; a longer one to the last character boundary that
      leaves room for the note, but no less than its first line's beginning. */
  ghost predicate KeptOf(text: string, limit: nat, kept: string) {
    if Tokens3(|text|) <= limit then kept == text
    else
      exists c: nat :: c <= |text| && kept == text[..c]
          + "\n\n[... skill content truncated for compaction; re-invoke the Skill to restore the full content]"
        && (var most := if 3 * limit < 126 then 31 else 3 * limit - 95;
            c <= most && (c == 0 || c == |text| || !(0x80 <= text[c] as int <= 0xBF))
            && forall k :: c < k <= most && k < |text| ==> 0x80 <= text[k] as int <= 0xBF)
  }

  lemma {:induction false} TruncatedSays(text: string, limit: nat)
    ensures KeptOf(text, limit, Truncated(text, limit))
  {
    MarkerLengths();
    if Tokens3(|text|) > limit {
      var most := if 3 * limit < 126 then 31 else 3 * limit - 95;
      if most < |text| { CompactedContent.Continues(text, most); }
    }
  }

  /** What the bodies carried from after a position cost. */
  function CostAfter(chosen: seq<Injection>, order: nat): nat {
    if chosen == [] then 0
    else
      var c := chosen[|chosen| - 1];
      CostAfter(chosen[..|chosen| - 1], order) + if c.order > order then Tokens3(|c.block.text|) else 0
  }

  ghost predicate AtPlace(chosen: seq<Injection>, order: nat) {
    exists c | c in chosen :: c.order == order
  }

  /** A body is carried unless it is there already or the newer ones use up the budget; then it
      is kept to what they leave of it, and to 5000 tokens. */
  ghost predicate CarriedOf(chosen: seq<Injection>, e: Injection, already: set<string>, budget: nat) {
    var spent := CostAfter(chosen, e.order);
    if e.name in already || spent >= budget then !AtPlace(chosen, e.order)
    else
      exists c | c in chosen :: c == e.(block := e.block.(text := c.block.text))
        && KeptOf(e.block.text, if budget - spent < 5000 then budget - spent else 5000, c.block.text)
  }

  lemma {:induction false} NothingAfter(chosen: seq<Injection>, order: nat)
    requires forall c | c in chosen :: c.order <= order
    ensures CostAfter(chosen, order) == 0
  {
    if chosen != [] {
      var init, c := chosen[..|chosen| - 1], chosen[|chosen| - 1];
      assert c in chosen && forall x | x in init :: x in chosen;
      NothingAfter(init, order);
    }
  }

  lemma {:induction false} CostAfterSnoc(chosen: seq<Injection>, c: Injection, order: nat)
    ensures CostAfter(chosen + [c], order)
      == CostAfter(chosen, order) + if c.order > order then Tokens3(|c.block.text|) else 0
  {
    assert (chosen + [c])[..|chosen|] == chosen;
  }

  /** An older body, once a newer one is carried too. */
  lemma {:induction false} OlderCarried(chosen: seq<Injection>, e: Injection, last: Injection, already: set<string>,
      budget: nat)
    requires e.order < last.order && budget > 0
    requires CarriedOf(chosen, e, already, Left(budget, last))
    requires Left(budget, last) == 0 ==> chosen == []
    ensures CarriedOf(chosen + [Cut(last, Limit(budget))], e, already, budget)
  {
    var c, left := Cut(last, Limit(budget)), Left(budget, last);
    var grown := chosen + [c];
    CutCost(last, budget);
    CostAfterSnoc(chosen, c, e.order);
    forall x ensures x in grown <==> x in chosen || x == c { }
    if left > 0 { assert CostAfter(grown, e.order) == CostAfter(chosen, e.order) + (budget - left); }
  }

  lemma {:induction false} NewestCarried(chosen: seq<Injection>, e: Injection, already: set<string>, budget: nat)
    requires e.name !in already && budget > 0 && forall c | c in chosen :: c.order < e.order
    ensures CarriedOf(chosen + [Cut(e, Limit(budget))], e, already, budget)
  {
    var c := Cut(e, Limit(budget));
    var grown := chosen + [c];
    forall x | x in grown ensures x.order <= e.order { assert x in chosen || x == c; }
    NothingAfter(grown, e.order);
    TruncatedSays(e.block.text, Limit(budget));
    assert c in grown;
  }

  lemma {:induction false} OlderBefore(entries: seq<Injection>, n: nat, older: seq<Injection>)
    requires WellListed(entries) && n < |entries| && forall c | c in older :: CutOf(entries[..n], c)
    ensures forall c | c in older :: c.order < entries[n].order
  {
    forall c | c in older ensures c.order < entries[n].order { CutOfLonger(entries, n, c); }
  }

  /** Of every Skill's latest body, whether it is carried, and how much of it. */
  lemma {:induction false} ChosenSays(entries: seq<Injection>, already: set<string>, budget: nat, i: nat)
    requires WellListed(entries) && i < |entries|
    ensures CarriedOf(Chosen(entries, already, budget), entries[i], already, budget)
    decreases |entries|
  {
    var n, chosen := |entries| - 1, Chosen(entries, already, budget);
    var last, e := entries[n], entries[i];
    if budget > 0 {
      var rest := if last.name in already then budget else Left(budget, last);
      WellListedInit(entries, n);
      ChosenInOrder(entries[..n], already, rest);
      var older := Chosen(entries[..n], already, rest);
      OlderBefore(entries, n, older);
      if i < n {
        ChosenSays(entries[..n], already, rest, i);
        if last.name !in already { OlderCarried(older, e, last, already, budget); }
      } else if last.name !in already {
        NewestCarried(older, last, already, budget);
      }
    }
  }

  lemma {:induction false} ReserveSnoc(entries: seq<Injection>, e: Injection)
    ensures CappedSum(entries + [e])
      == CappedSum(entries) + if |e.block.text| > 15_000 then 5000 else Tokens3(|e.block.text|)
  {
    assert (entries + [e])[..|entries|] == entries;
  }

  function Costs(entries: seq<Injection>): (costs: seq<nat>)
    ensures |costs| == |entries| && forall i :: 0 <= i < |costs| ==>
      costs[i] == if |entries[i].block.text| > 15_000 then 5000 else Tokens3(|entries[i].block.text|)
  {
    seq(|entries|, i requires 0 <= i < |entries| =>
      if |entries[i].block.text| > 15_000 then 5000 else Tokens3(|entries[i].block.text|))
  }

  /** The reserve adds up what each body costs, 5000 tokens at most. */
  lemma {:induction false} ReserveSays(entries: seq<Injection>)
    ensures CappedSum(entries) == Sum(Costs(entries))
  {
    if entries != [] {
      var init, e := entries[..|entries| - 1], entries[|entries| - 1];
      assert entries == init + [e];
      ReserveSays(init);
      ReserveSnoc(init, e);
      var cost := Costs(entries)[|init|];
      assert Costs(entries) == Costs(init) + [cost];
      SumConcat(Costs(init), [cost]);
      assert Sum([cost]) == cost;
    }
  }

  // ---------------------------------------------------------------- where it is put

  /** The reattached blocks join the conversation as the user's: behind the results its last
      message answers with, before anything else the user says last, or after everything. */
  lemma {:induction false} AttachedSays(projected: seq<Message>, blocks: seq<Block>)
    ensures var out := Flatten(Attached(projected, blocks));
      var n := |projected|;
      if n == 0 || projected[n - 1].role == Assistant || HasToolResult(projected[n - 1]) then
        out == Flatten(projected) + Tagged(User, blocks)
      else
        var before, last := projected[..|projected| - 1], projected[|projected| - 1];
        out == Flatten(before) + Tagged(User, blocks) + Tagged(User, last.content)
  {
    if projected == [] || projected[|projected| - 1].role == Assistant {
      AttachedAnew(projected, blocks);
    } else {
      var before, last := projected[..|projected| - 1], projected[|projected| - 1];
      assert projected == before + [last];
      AttachedToUser(before, last, blocks);
      FlattenSnoc(before, last);
      Reassociate(Flatten(before), Tagged(User, last.content), Tagged(User, blocks));
      Reassociate(Flatten(before), Tagged(User, blocks), Tagged(User, last.content));
    }
  }

  lemma {:induction false} AttachedAnew(projected: seq<Message>, blocks: seq<Block>)
    requires projected == [] || projected[|projected| - 1].role == Assistant
    ensures Flatten(Attached(projected, blocks)) == Flatten(projected) + Tagged(User, blocks)
  {
    var m := Message(User, blocks, None);
    assert [m][..0] == [] && Flatten([m]) == Flatten([]) + Tagged(User, blocks);
    assert Flatten([m]) == Tagged(User, blocks);
    if blocks == [] {
      assert Flatten(projected) + [] == Flatten(projected);
    } else if projected != [] {
      MergedFlattens(projected, [m]);
    }
  }

  lemma {:induction false} AttachedToUser(before: seq<Message>, last: Message, blocks: seq<Block>)
    requires last.role == User
    ensures Flatten(Attached(before + [last], blocks)) == Flatten(before)
      + if HasToolResult(last) then Tagged(User, last.content) + Tagged(User, blocks)
        else Tagged(User, blocks) + Tagged(User, last.content)
  {
    var content := if HasToolResult(last) then last.content + blocks else blocks + last.content;
    FlattenSnoc(before, last);
    FlattenSnoc(before, last.(content := content));
    assert (before + [last])[|before| := last.(content := content)] == before + [last.(content := content)];
    assert Tagged(User, last.content + blocks) == Tagged(User, last.content) + Tagged(User, blocks);
    assert Tagged(User, blocks + last.content) == Tagged(User, blocks) + Tagged(User, last.content);
    if blocks == [] {
      assert content == last.content;
      assert Tagged(User, last.content) + [] == Tagged(User, last.content) == [] + Tagged(User, last.content);
    }
  }

  // ---------------------------------------------------------------- the whole step

  function BlocksIn(es: seq<Entry>): (blocks: seq<Block>)
    ensures |blocks| == |es| && forall i :: 0 <= i < |es| ==> blocks[i] == es[i].block
  {
    seq(|es|, i requires 0 <= i < |es| => es[i].block)
  }

  lemma {:induction false} BlocksAre(messages: seq<Message>)
    ensures Blocks(messages) == BlocksIn(Flatten(messages))
  {
    if messages != [] {
      var init, last := messages[..|messages| - 1], messages[|messages| - 1];
      BlocksAre(init);
      assert Flatten(messages) == Flatten(init) + Tagged(last.role, last.content);
      assert BlocksIn(Flatten(init) + Tagged(last.role, last.content)) == BlocksIn(Flatten(init)) + last.content;
    }
  }

  /** A Skill counts as loaded exactly when its complete body is somewhere in the conversation. */
  lemma {:induction false} LoadedExactly(messages: seq<Message>, name: string)
    ensures name in Loaded(messages) <==> exists e | e in Flatten(messages) :: IsBody(e.block, name)
  {
    if name in Loaded(messages) { LoadedSome(messages, name); }
    if e :| e in Flatten(messages) && IsBody(e.block, name) { SomeLoaded(messages, name, e); }
  }

  lemma {:induction false} LoadedSome(messages: seq<Message>, name: string)
    requires name in Loaded(messages)
    ensures exists e | e in Flatten(messages) :: IsBody(e.block, name)
  {
    BlocksAre(messages);
    var b :| b in Blocks(messages) && InjectionName(b) == Some(name);
    InjectionExactly(b, name);
    var es := Flatten(messages);
    var i :| 0 <= i < |es| && BlocksIn(es)[i] == b;
    assert es[i] in es;
  }

  lemma {:induction false} SomeLoaded(messages: seq<Message>, name: string, e: Entry)
    requires e in Flatten(messages) && IsBody(e.block, name)
    ensures name in Loaded(messages)
  {
    BlocksAre(messages);
    InjectionExactly(e.block, name);
    var es := Flatten(messages);
    var i :| 0 <= i < |es| && es[i] == e;
    assert BlocksIn(es)[i] == e.block;
  }

  /** What becomes of each Skill's latest body in the whole conversation when what is left of it
      is added to a projection: it is carried unless the projection has it, within 25000 tokens
      shared newest first. */
  lemma {:induction false} ReattachedSays(full: seq<Message>, projected: seq<Message>, n: nat, name: string)
    requires LatestBody(BlocksIn(Flatten(full)), n, name)
    ensures CarriedOf(Chosen(Latest(full), Loaded(projected), ALL_SKILLS_TOKENS),
      Injection(name, Flatten(full)[n].block, n), Loaded(projected), 25_000)
  {
    BlocksAre(full);
    LatestWellListed(Blocks(full));
    var e := Injection(name, Flatten(full)[n].block, n);
    LatestExactly(Blocks(full), e);
    var i :| 0 <= i < |Latest(full)| && Latest(full)[i] == e;
    ChosenSays(Latest(full), Loaded(projected), ALL_SKILLS_TOKENS, i);
  }

  /** And nothing else is carried. */
  lemma {:induction false} OnlyBodiesCarried(full: seq<Message>, projected: seq<Message>, c: Injection)
    requires c in Chosen(Latest(full), Loaded(projected), ALL_SKILLS_TOKENS)
    ensures LatestBody(BlocksIn(Flatten(full)), c.order, c.name)
    ensures c.block == Flatten(full)[c.order].block.(text := c.block.text)
  {
    BlocksAre(full);
    LatestWellListed(Blocks(full));
    ChosenInOrder(Latest(full), Loaded(projected), ALL_SKILLS_TOKENS);
    var e: Injection, limit: nat :| e in Latest(full) && c == Cut(e, limit);
    LatestExactly(Blocks(full), e);
  }
}
