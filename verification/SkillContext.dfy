/** Loaded Skills across compaction (internal/agentruntime/skills.go). */
module SkillContext {
  import opened Conversation
  import opened Text
  import opened Compaction

  const BASE_PREFIX := "Base directory for this skill: "
  const SKILLS_ROOT := "/workspace/skills/"
  const MARKER := "\n\n[... skill content truncated for compaction; re-invoke the Skill to restore the full content]"
  const SKILL_TOKENS: nat := 5_000
  const ALL_SKILLS_TOKENS: nat := 25_000

  // ---------------------------------------------------------------- recognising an injection

  function Line(s: string): Option<string> {
    if s == "" then None
    else if s[0] == '\n' then Some("")
    else
      var rest := Line(s[1..]);
      if rest.Some? then Some([s[0]] + rest.value) else None
  }

  predicate IsHex(c: char) {
    '0' <= c <= '9' || 'a' <= c <= 'f' || 'A' <= c <= 'F'
  }

  /** The Skill named by a directory below the Skills root, directly or in an agent's bundle. */
  function DirectoryName(path: string): Option<string> {
    var parts := Split(path);
    var name :=
      if |parts| == 1 then parts[0]
      else if |parts| == 3 && parts[0] == ".agents" && |parts[1]| == 24 && (forall c | c in parts[1] :: IsHex(c)) then
          parts[2]
      else "";
    if name == "" || '\\' in name || '\0' in name then None else Some(name)
  }

  /** The Skill a block is the complete injected body of. */
  function InjectionName(b: Block): Option<string> {
    if b.kind != "text" || !HasPrefix(b.text, BASE_PREFIX) || HasSuffix(b.text, MARKER) then None
    else
      var line := Line(b.text[|BASE_PREFIX|..]);
      if line.None? || !HasPrefix(line.value, SKILLS_ROOT) then None
      else DirectoryName(line.value[|SKILLS_ROOT|..])
  }

  datatype Injection = Injection(name: string, block: Block, order: nat)

  function Blocks(messages: seq<Message>): seq<Block> {
    if messages == [] then [] else Blocks(messages[..|messages| - 1]) + messages[|messages| - 1].content
  }

  function Without(entries: seq<Injection>, name: string): (rest: seq<Injection>)
    ensures forall e | e in rest :: e in entries && e.name != name
  {
    if entries == [] then []
    else
      var e := entries[|entries| - 1];
      Without(entries[..|entries| - 1], name) + if e.name != name then [e] else []
  }

  /** The latest injection of each Skill, in the order of the blocks. */
  function LatestOf(blocks: seq<Block>): seq<Injection> {
    if blocks == [] then []
    else
      var n, b := |blocks| - 1, blocks[|blocks| - 1];
      var before := LatestOf(blocks[..n]);
      match InjectionName(b)
      case None => before
      case Some(name) => Without(before, name) + [Injection(name, b, n)]
  }

  function Latest(messages: seq<Message>): seq<Injection> {
    LatestOf(Blocks(messages))
  }

  function Loaded(messages: seq<Message>): set<string> {
    set b | b in Blocks(messages) && InjectionName(b).Some? :: InjectionName(b).value
  }

  /** Distinct names, increasing positions, complete bodies. */
  ghost predicate WellListed(entries: seq<Injection>) {
    && (forall i, j :: 0 <= i < j < |entries| ==>
        entries[i].order < entries[j].order && entries[i].name != entries[j].name)
    && (forall i :: 0 <= i < |entries| ==> InjectionName(entries[i].block) == Some(entries[i].name))
  }

  lemma {:induction false} WellListedSnoc(entries: seq<Injection>, e: Injection)
    requires WellListed(entries) && InjectionName(e.block) == Some(e.name)
    requires forall x | x in entries :: x.order < e.order && x.name != e.name
    ensures WellListed(entries + [e])
  {
  }

  lemma {:induction false} WellListedInit(entries: seq<Injection>, n: nat)
    requires n <= |entries| && WellListed(entries)
    ensures WellListed(entries[..n])
  {
  }

  lemma {:induction false} LastFollows(entries: seq<Injection>, x: Injection)
    requires entries != [] && WellListed(entries) && x in entries[..|entries| - 1]
    ensures var e := entries[|entries| - 1];
      x.order < e.order && x.name != e.name && InjectionName(e.block) == Some(e.name)
  {
  }

  lemma {:induction false} WithoutKeeps(entries: seq<Injection>, name: string)
    requires WellListed(entries)
    ensures WellListed(Without(entries, name))
  {
    if entries != [] {
      var n, e := |entries| - 1, entries[|entries| - 1];
      WellListedInit(entries, n);
      WithoutKeeps(entries[..n], name);
      var rest := Without(entries[..n], name);
      if e.name != name {
        forall x | x in rest ensures x.order < e.order && x.name != e.name { LastFollows(entries, x); }
        assert InjectionName(entries[n].block) == Some(entries[n].name);
        WellListedSnoc(rest, e);
      } else {
        assert rest + [] == rest;
      }
    }
  }

  lemma {:induction false} LatestWellListed(blocks: seq<Block>)
    ensures WellListed(LatestOf(blocks))
    ensures forall e | e in LatestOf(blocks) :: e.order < |blocks|
  {
    if blocks != [] {
      var n, b := |blocks| - 1, blocks[|blocks| - 1];
      LatestWellListed(blocks[..n]);
      if InjectionName(b).Some? {
        var name := InjectionName(b).value;
        WithoutKeeps(LatestOf(blocks[..n]), name);
        WellListedSnoc(Without(LatestOf(blocks[..n]), name), Injection(name, b, n));
      }
    }
  }

  // ---------------------------------------------------------------- truncation

  function TextTokens(text: string): nat {
    ByteTokens(|text|)
  }

  function Truncated(text: string, maxTokens: nat): string {
    if TextTokens(text) <= maxTokens then text
    else
      var wanted := maxTokens * 3 - |MARKER|;
      var atLeast := if wanted < |BASE_PREFIX| then |BASE_PREFIX| else wanted;
      var bytes := if atLeast > |text| then |text| else atLeast;
      text[..if bytes < |text| then BackToBoundary(text, bytes) else bytes] + MARKER
  }

  lemma {:induction false} MarkerLengths()
    ensures |MARKER| == 95 && |BASE_PREFIX| == 31
  {
  }

  /** A truncated body costs at most the limit, or 42 tokens when the limit is below that. */
  lemma {:induction false} TruncatedCost(text: string, maxTokens: nat)
    ensures TextTokens(Truncated(text, maxTokens)) <= maxTokens || TextTokens(Truncated(text, maxTokens)) <= 42
    ensures TextTokens(text) <= maxTokens ==> Truncated(text, maxTokens) == text
    ensures TextTokens(text) > maxTokens ==> HasSuffix(Truncated(text, maxTokens), MARKER)
  {
    MarkerLengths();
    if TextTokens(text) > maxTokens {
      var wanted := maxTokens * 3 - 95;
      var kept := Truncated(text, maxTokens);
      assert kept[|kept| - |MARKER|..] == MARKER;
    }
  }

  lemma {:induction false} TruncatedUnnamed(b: Block, maxTokens: nat)
    requires TextTokens(b.text) > maxTokens
    ensures InjectionName(b.(text := Truncated(b.text, maxTokens))) == None
  {
    TruncatedCost(b.text, maxTokens);
  }

  // ---------------------------------------------------------------- the reserve

  function Min(a: int, b: int): int {
    if a < b then a else b
  }

  function CappedSum(entries: seq<Injection>): nat {
    if entries == [] then 0
    else CappedSum(entries[..|entries| - 1]) + Min(SKILL_TOKENS, TextTokens(entries[|entries| - 1].block.text))
  }

  lemma {:induction false} CappedSumGrows(entries: seq<Injection>, k: nat)
    requires k <= |entries|
    ensures CappedSum(entries[..k]) <= CappedSum(entries)
    decreases |entries|
  {
    if k < |entries| {
      CappedSumGrows(entries[..|entries| - 1], k);
      assert entries[..|entries| - 1][..k] == entries[..k];
    } else {
      assert entries[..k] == entries;
    }
  }

  /** The reserve is the sum of each Skill's cost, capped for each Skill and overall. */
  method ReattachmentBudget(messages: seq<Message>) returns (total: nat)
    ensures total == Min(ALL_SKILLS_TOKENS, CappedSum(Latest(messages)))
  {
    var entries := LatestInjections(messages);
    total := 0;
    for i := 0 to |entries|
      invariant total == CappedSum(entries[..i]) <= ALL_SKILLS_TOKENS
    {
      assert entries[..i + 1][..i] == entries[..i];
      var tokens := TextTokens(entries[i].block.text);
      if tokens > SKILL_TOKENS { tokens := SKILL_TOKENS; }
      if tokens > ALL_SKILLS_TOKENS - total {
        CappedSumGrows(entries, i + 1);
        return ALL_SKILLS_TOKENS;
      }
      total := total + tokens;
    }
    assert entries[..|entries|] == entries;
  }

  // ---------------------------------------------------------------- choosing what to reattach

  function Limit(remaining: nat): nat {
    if remaining < SKILL_TOKENS then remaining else SKILL_TOKENS
  }

  function Cut(e: Injection, limit: nat): Injection {
    e.(block := e.block.(text := Truncated(e.block.text, limit)))
  }

  function Cost(e: Injection): nat {
    TextTokens(e.block.text)
  }

  function Left(remaining: nat, e: Injection): nat {
    remaining - Min(Limit(remaining), Cost(Cut(e, Limit(remaining))))
  }

  /** Newest first, while the budget lasts, the Skills not already present; in original order. */
  function Chosen(entries: seq<Injection>, already: set<string>, remaining: nat): seq<Injection>
    decreases |entries|
  {
    if entries == [] || remaining == 0 then []
    else
      var n, e := |entries| - 1, entries[|entries| - 1];
      if e.name in already then Chosen(entries[..n], already, remaining)
      else Chosen(entries[..n], already, Left(remaining, e)) + [Cut(e, Limit(remaining))]
  }

  function TotalCost(entries: seq<Injection>): nat {
    if entries == [] then 0 else TotalCost(entries[..|entries| - 1]) + Cost(entries[|entries| - 1])
  }

  lemma {:induction false} TotalCostSnoc(entries: seq<Injection>, e: Injection)
    ensures TotalCost(entries + [e]) == TotalCost(entries) + Cost(e)
  {
    assert (entries + [e])[..|entries|] == entries;
  }

  /** One reattachment costs what is deducted for it, plus at most 41 tokens, and then only
      when it uses up the budget. */
  lemma {:induction false} CutCost(e: Injection, remaining: nat)
    requires remaining > 0
    ensures var c := Cut(e, Limit(remaining));
      && Left(remaining, e) <= remaining
      && Cost(c) <= remaining - Left(remaining, e) + 41
      && (Cost(c) > remaining - Left(remaining, e) ==> Left(remaining, e) == 0)
      && remaining - Left(remaining, e) <= Min(SKILL_TOKENS, Cost(e))
  {
    TruncatedCost(e.block.text, Limit(remaining));
  }

  /** What reattachment adds stays within the reserve, but for one overshoot of at most 41
      tokens. */
  lemma {:induction false} ChosenCost(entries: seq<Injection>, already: set<string>, remaining: nat)
    ensures TotalCost(Chosen(entries, already, remaining)) <= Min(remaining, CappedSum(entries)) + 41
    ensures remaining == 0 ==> Chosen(entries, already, remaining) == []
    decreases |entries|
  {
    if entries != [] && remaining > 0 {
      var n, e := |entries| - 1, entries[|entries| - 1];
      if e.name in already {
        ChosenCost(entries[..n], already, remaining);
      } else {
        var left := Left(remaining, e);
        CutCost(e, remaining);
        ChosenCost(entries[..n], already, left);
        TotalCostSnoc(Chosen(entries[..n], already, left), Cut(e, Limit(remaining)));
      }
    }
  }

  /** `c` is an entry of `entries`, whole or truncated. */
  ghost predicate CutOf(entries: seq<Injection>, c: Injection) {
    exists e: Injection, limit: nat :: e in entries && c == Cut(e, limit)
  }

  ghost predicate InOrder(chosen: seq<Injection>) {
    forall i, j :: 0 <= i < j < |chosen| ==> chosen[i].order < chosen[j].order && chosen[i].name != chosen[j].name
  }

  lemma {:induction false} CutOfLonger(entries: seq<Injection>, n: nat, c: Injection)
    requires n <= |entries| && CutOf(entries[..n], c)
    ensures CutOf(entries, c)
    ensures exists i :: 0 <= i < n && entries[i].order == c.order && entries[i].name == c.name
  {
    var x: Injection, limit: nat :| x in entries[..n] && c == Cut(x, limit);
    var i :| 0 <= i < n && entries[..n][i] == x;
    assert entries[i] == x && x in entries;
  }

  lemma {:induction false} InOrderSnoc(chosen: seq<Injection>, c: Injection)
    requires InOrder(chosen) && forall x | x in chosen :: x.order < c.order && x.name != c.name
    ensures InOrder(chosen + [c])
  {
  }

  /** Each Skill is reattached at most once, in original order, and never one already present. */
  lemma {:induction false} ChosenInOrder(entries: seq<Injection>, already: set<string>, remaining: nat)
    requires WellListed(entries)
    ensures var chosen := Chosen(entries, already, remaining);
      && InOrder(chosen)
      && forall c | c in chosen :: CutOf(entries, c) && c.name !in already
    decreases |entries|
  {
    if entries != [] && remaining > 0 {
      var n, e := |entries| - 1, entries[|entries| - 1];
      var rest := if e.name in already then remaining else Left(remaining, e);
      WellListedInit(entries, n);
      ChosenInOrder(entries[..n], already, rest);
      var chosen := Chosen(entries[..n], already, rest);
      forall c | c in chosen ensures CutOf(entries, c) && c.name != e.name && c.order < e.order {
        CutOfLonger(entries, n, c);
      }
      if e.name !in already {
        InOrderSnoc(chosen, Cut(e, Limit(remaining)));
        assert e in entries && CutOf(entries, Cut(e, Limit(remaining)));
      }
    }
  }

  /** A reattached block counts as loaded exactly when its body is complete. */
  lemma {:induction false} LoadedIfComplete(entries: seq<Injection>, already: set<string>, remaining: nat, c: Injection)
    requires WellListed(entries) && c in Chosen(entries, already, remaining)
    ensures InjectionName(c.block) == Some(c.name) || InjectionName(c.block) == None
    ensures exists e ::
      && e in entries && e.name == c.name && e.order == c.order
      && (InjectionName(c.block) == Some(c.name) <==> c.block == e.block)
  {
    ChosenInOrder(entries, already, remaining);
    var e: Injection, limit: nat :| e in entries && c == Cut(e, limit);
    TruncatedCost(e.block.text, limit);
    if TextTokens(e.block.text) > limit { TruncatedUnnamed(e.block, limit); }
  }

  // ---------------------------------------------------------------- reattaching

  function BlocksOf(chosen: seq<Injection>): (blocks: seq<Block>)
    ensures |blocks| == |chosen| && forall i :: 0 <= i < |chosen| ==> blocks[i] == chosen[i].block
  {
    seq(|chosen|, i requires 0 <= i < |chosen| => chosen[i].block)
  }

  /** The projection with blocks added to its last user turn, or as a new one. */
  function Attached(projected: seq<Message>, blocks: seq<Block>): seq<Message> {
    if blocks == [] then projected
    else if projected == [] then [Message(User, blocks, None)]
    else
      var last := projected[|projected| - 1];
      if last.role == User then
        projected[|projected| - 1 := last.(content := if HasToolResult(last) then last.content + blocks
            else blocks + last.content)]
      else Merged(projected, [Message(User, blocks, None)])
  }

  lemma {:induction false} ChosenStep(entries: seq<Injection>, index: nat, already: set<string>, remaining: nat)
    requires index < |entries| && remaining > 0
    ensures var e := entries[index];
      Chosen(entries[..index + 1], already, remaining)
      == if e.name in already then Chosen(entries[..index], already, remaining)
         else Chosen(entries[..index], already, Left(remaining, e)) + [Cut(e, Limit(remaining))]
  {
    assert entries[..index + 1][..index] == entries[..index];
  }

  /** The selection loop, newest first. */
  method Select(entries: seq<Injection>, already: set<string>) returns (selected: seq<Injection>)
    ensures selected == Reversed(Chosen(entries, already, ALL_SKILLS_TOKENS))
  {
    selected := [];
    var remaining: nat := ALL_SKILLS_TOKENS;
    var index := |entries|;
    ghost var all := Chosen(entries, already, ALL_SKILLS_TOKENS);
    assert entries[..index] == entries && all + [] == all;
    while index > 0 && remaining > 0
      invariant 0 <= index <= |entries|
      invariant all == Chosen(entries[..index], already, remaining) + Reversed(selected)
    {
      index := index - 1;
      var entry := entries[index];
      ChosenStep(entries, index, already, remaining);
      if entry.name in already { continue; }
      var kept, left := Shorten(entry, remaining);
      ReversedSnoc(selected, kept);
      Together(Chosen(entries[..index], already, left), [kept], Reversed(selected));
      remaining := left;
      selected := selected + [kept];
    }
    assert Chosen(entries[..index], already, remaining) == [];
    ReversedTwice(selected);
  }

  /** One body within the Skill's limit and the remaining budget. */
  method Shorten(entry: Injection, remaining: nat) returns (kept: Injection, left: nat)
    requires remaining > 0
    ensures kept == Cut(entry, Limit(remaining)) && left == Left(remaining, entry)
  {
    var limit := SKILL_TOKENS;
    if remaining < limit { limit := remaining; }
    var text := Truncated(entry.block.text, limit);
    kept := entry.(block := entry.block.(text := text));
    var cost := TextTokens(text);
    left := remaining - if limit < cost then limit else cost;
  }

  function Reversed(s: seq<Injection>): (r: seq<Injection>)
    ensures |r| == |s| && forall i :: 0 <= i < |s| ==> r[i] == s[|s| - 1 - i]
  {
    seq(|s|, i requires 0 <= i < |s| => s[|s| - 1 - i])
  }

  lemma ReversedSnoc(s: seq<Injection>, e: Injection)
    ensures Reversed(s + [e]) == [e] + Reversed(s)
  {
  }

  lemma ReversedTwice(s: seq<Injection>)
    ensures Reversed(Reversed(s)) == s
  {
  }

  lemma Together(a: seq<Injection>, b: seq<Injection>, c: seq<Injection>)
    ensures (a + b) + c == a + (b + c)
  {
  }

  ghost predicate Ascending(s: seq<Injection>) {
    forall i, j :: 0 <= i < j < |s| ==> s[i].order <= s[j].order
  }

  /** Sorting by position. */
  method SortByOrder(selected: seq<Injection>) returns (sorted: seq<Injection>)
    ensures Ascending(sorted) && multiset(sorted) == multiset(selected)
  {
    sorted := [];
    for i := 0 to |selected|
      invariant Ascending(sorted) && multiset(sorted) == multiset(selected[..i])
    {
      sorted := Insert(sorted, selected[i]);
      assert selected[..i + 1] == selected[..i] + [selected[i]];
    }
    assert selected[..|selected|] == selected;
  }

  method Insert(sorted: seq<Injection>, e: Injection) returns (r: seq<Injection>)
    requires Ascending(sorted)
    ensures Ascending(r) && multiset(r) == multiset(sorted) + multiset{e}
  {
    var k := |sorted|;
    while k > 0 && sorted[k - 1].order > e.order
      invariant 0 <= k <= |sorted| && forall i :: k <= i < |sorted| ==> sorted[i].order > e.order
    {
      k := k - 1;
    }
    r := sorted[..k] + [e] + sorted[k..];
    InsertedAt(sorted, k, e);
  }

  lemma InsertedAt(sorted: seq<Injection>, k: nat, e: Injection)
    requires k <= |sorted| && Ascending(sorted)
    requires (k > 0 ==> sorted[k - 1].order <= e.order) && forall i :: k <= i < |sorted| ==> sorted[i].order > e.order
    ensures Ascending(sorted[..k] + [e] + sorted[k..])
        && multiset(sorted[..k] + [e] + sorted[k..]) == multiset(sorted) + multiset{e}
  {
    assert sorted == sorted[..k] + sorted[k..];
    InsertedSame(sorted[..k], e, sorted[k..]);
    InsertedAscending(sorted[..k], e, sorted[k..]);
  }

  lemma InsertedAscending(a: seq<Injection>, e: Injection, b: seq<Injection>)
    requires Ascending(a + b)
    requires (forall x | x in b :: e.order < x.order) && (a != [] ==> a[|a| - 1].order <= e.order)
    ensures Ascending(a + [e] + b)
  {
    var r := a + [e] + b;
    var joined := a + b;
    forall i, j | 0 <= i < j < |r| ensures r[i].order <= r[j].order {
      if i < |a| {
        assert joined[i] == a[i];
        if j < |a| { assert joined[j] == a[j]; }
        assert joined[|a| - 1] == a[|a| - 1];
        if j > |a| { assert joined[j - 1] == b[j - 1 - |a|] == r[j]; }
      } else if i > |a| {
        assert joined[i - 1] == r[i] && joined[j - 1] == r[j];
      }
    }
  }

  lemma InsertedSame(a: seq<Injection>, e: Injection, b: seq<Injection>)
    ensures multiset(a + [e] + b) == multiset(a + b) + multiset{e}
  {
  }

  /** The last entries of two sorted arrangements of the same entries agree. */
  lemma {:induction false} SameLastEntry(a: seq<Injection>, b: seq<Injection>)
    requires InOrder(a) && Ascending(b) && multiset(a) == multiset(b) && a != [] && b != []
    ensures a[|a| - 1] == b[|b| - 1]
  {
    var x, y := a[|a| - 1], b[|b| - 1];
    assert y in multiset(b) && x in multiset(a);
    var i :| 0 <= i < |a| && a[i] == y;
    var j :| 0 <= j < |b| && b[j] == x;
    assert y.order <= x.order && x.order <= y.order;
  }

  lemma WithoutLastEntry(a: seq<Injection>)
    requires a != []
    ensures multiset(a[..|a| - 1]) == multiset(a) - multiset{a[|a| - 1]}
  {
    assert a == a[..|a| - 1] + [a[|a| - 1]];
  }

  lemma SameLength(a: seq<Injection>, b: seq<Injection>)
    requires multiset(a) == multiset(b)
    ensures |a| == |b|
  {
    assert |a| == |multiset(a)| && |b| == |multiset(b)|;
  }

  /** Entries at distinct positions have one sorted arrangement. */
  lemma {:induction false} SortedUnique(a: seq<Injection>, b: seq<Injection>)
    requires InOrder(a) && Ascending(b) && multiset(a) == multiset(b)
    ensures a == b
    decreases |a|
  {
    SameLength(a, b);
    if a != [] {
      var n := |a| - 1;
      SameLastEntry(a, b);
      WithoutLastEntry(a);
      WithoutLastEntry(b);
      SortedUnique(a[..n], b[..n]);
      assert a == a[..n] + [a[n]] && b == b[..n] + [b[n]];
    }
  }

  lemma ReversedSame(s: seq<Injection>)
    ensures multiset(Reversed(s)) == multiset(s)
    decreases |s|
  {
    if s != [] {
      var n := |s| - 1;
      ReversedSame(s[..n]);
      ReversedSnoc(s[..n], s[n]);
      assert s == s[..n] + [s[n]];
    }
  }

  // The latest injections, as the map-and-sort of the source finds them.

  /** The map holds exactly the listed entries, under their names. */
  ghost predicate Indexes(latest: map<string, Injection>, entries: seq<Injection>) {
    && (forall e | e in entries :: e.name in latest && latest[e.name] == e)
    && (forall name | name in latest :: latest[name].name == name && latest[name] in entries)
  }

  lemma {:induction false} WithoutMember(entries: seq<Injection>, name: string, e: Injection)
    ensures e in Without(entries, name) <==> e in entries && e.name != name
  {
    if entries != [] {
      var n := |entries| - 1;
      WithoutMember(entries[..n], name, e);
      assert entries == entries[..n] + [entries[n]];
    }
  }

  lemma {:induction false} IndexesNext(latest: map<string, Injection>, entries: seq<Injection>, e: Injection)
    requires Indexes(latest, entries)
    ensures Indexes(latest[e.name := e], Without(entries, e.name) + [e])
  {
    var grown := latest[e.name := e];
    var listed := Without(entries, e.name) + [e];
    forall x | x in listed ensures x.name in grown && grown[x.name] == x {
      WithoutMember(entries, e.name, x);
    }
    forall name | name in grown ensures grown[name].name == name && grown[name] in listed {
      if name != e.name { WithoutMember(entries, e.name, latest[name]); }
    }
  }

  lemma {:induction false} LatestSnoc(before: seq<Block>, b: Block)
    ensures LatestOf(before + [b]) == match InjectionName(b)
      case None => LatestOf(before)
      case Some(name) => Without(LatestOf(before), name) + [Injection(name, b, |before|)]
  {
    assert (before + [b])[..|before|] == before;
  }

  method IndexBlock(b: Block, latest0: map<string, Injection>, order: nat, ghost before: seq<Block>)
      returns (latest: map<string, Injection>)
    requires Indexes(latest0, LatestOf(before)) && order == |before|
    ensures Indexes(latest, LatestOf(before + [b]))
  {
    latest := latest0;
    LatestSnoc(before, b);
    var name := InjectionName(b);
    if name.Some? {
      IndexesNext(latest, LatestOf(before), Injection(name.value, b, order));
      latest := latest[name.value := Injection(name.value, b, order)];
    }
  }

  /** One message's blocks. */
  method IndexMessage(m: Message, latest0: map<string, Injection>, order0: nat, ghost before: seq<Block>)
    returns (latest: map<string, Injection>, order: nat)
    requires Indexes(latest0, LatestOf(before)) && order0 == |before|
    ensures Indexes(latest, LatestOf(before + m.content)) && order == |before + m.content|
  {
    latest, order := latest0, order0;
    assert before + m.content[..0] == before;
    for i := 0 to |m.content|
      invariant Indexes(latest, LatestOf(before + m.content[..i])) && order == |before| + i
    {
      assert before + m.content[..i + 1] == (before + m.content[..i]) + [m.content[i]];
      latest := IndexBlock(m.content[i], latest, order, before + m.content[..i]);
      order := order + 1;
    }
    assert m.content[..|m.content|] == m.content;
  }

  /** The entries of the map, in whatever order iteration gives them. */
  method Entries(latest: map<string, Injection>, ghost listed: seq<Injection>) returns (entries: seq<Injection>)
    requires Indexes(latest, listed)
    ensures (forall e :: e in entries <==> e in listed)
        && (forall i, j :: 0 <= i < j < |entries| ==> entries[i] != entries[j])
  {
    entries := [];
    var rest := latest.Keys;
    while rest != {}
      invariant rest <= latest.Keys
      invariant forall e :: e in entries <==> e in listed && e.name !in rest
      invariant forall i, j :: 0 <= i < j < |entries| ==> entries[i] != entries[j]
      decreases |rest|
    {
      var name :| name in rest;
      rest := rest - {name};
      entries := entries + [latest[name]];
    }
  }

  lemma {:induction false} DistinctCount(s: seq<Injection>, e: Injection)
    requires forall i, j :: 0 <= i < j < |s| ==> s[i] != s[j]
    ensures multiset(s)[e] == if e in s then 1 else 0
  {
    if s != [] {
      var n := |s| - 1;
      DistinctCount(s[..n], e);
      assert s == s[..n] + [s[n]];
    }
  }

  lemma {:induction false} SameEntries(a: seq<Injection>, b: seq<Injection>)
    requires forall i, j :: 0 <= i < j < |a| ==> a[i] != a[j]
    requires forall i, j :: 0 <= i < j < |b| ==> b[i] != b[j]
    requires forall e :: e in a <==> e in b
    ensures multiset(a) == multiset(b)
  {
    forall e ensures multiset(a)[e] == multiset(b)[e] {
      DistinctCount(a, e);
      DistinctCount(b, e);
    }
  }

  /** The latest injection of each Skill: a map filled block by block, whose entries are then
      sorted by position. */
  method LatestInjections(messages: seq<Message>) returns (entries: seq<Injection>)
    ensures entries == Latest(messages)
  {
    var latest: map<string, Injection>, order := map[], 0;
    for i := 0 to |messages|
      invariant Indexes(latest, LatestOf(Blocks(messages[..i]))) && order == |Blocks(messages[..i])|
    {
      assert messages[..i + 1][..i] == messages[..i];
      latest, order := IndexMessage(messages[i], latest, order, Blocks(messages[..i]));
    }
    assert messages[..|messages|] == messages;
    LatestWellListed(Blocks(messages));
    var found := Entries(latest, Latest(messages));
    entries := SortByOrder(found);
    SameEntries(Latest(messages), found);
    SortedUnique(Latest(messages), entries);
  }

  /** Selection and sorting: the choice in original order. */
  method SelectSorted(entries: seq<Injection>, already: set<string>) returns (sorted: seq<Injection>)
    requires WellListed(entries)
    ensures sorted == Chosen(entries, already, ALL_SKILLS_TOKENS)
  {
    var selected := Select(entries, already);
    sorted := SortByOrder(selected);
    ReversedSame(Chosen(entries, already, ALL_SKILLS_TOKENS));
    ChosenInOrder(entries, already, ALL_SKILLS_TOKENS);
    SortedUnique(Chosen(entries, already, ALL_SKILLS_TOKENS), sorted);
  }

  method CollectBlocks(sorted: seq<Injection>) returns (blocks: seq<Block>)
    ensures blocks == BlocksOf(sorted)
  {
    blocks := [];
    for i := 0 to |sorted|
      invariant blocks == BlocksOf(sorted[..i])
    {
      blocks := blocks + [sorted[i].block];
    }
    assert sorted[..|sorted|] == sorted;
  }

  /** Reattaches in place: a trailing user turn of the projection is edited where it is, any
      other projection is left alone and a longer one returned. */
  method ReattachInjections(full: seq<Message>, projected: array<Message>) returns (out: array<Message>)
    modifies projected
    ensures out[..] == Attached(old(projected[..]),
        BlocksOf(Chosen(Latest(full), Loaded(old(projected[..])), ALL_SKILLS_TOKENS)))
    ensures if old(EndsWithUser(projected[..])) then out == projected else projected[..] == old(projected[..])
  {
    var entries := LatestInjections(full);
    if entries == [] { return projected; }
    LatestWellListed(Blocks(full));
    var sorted := SelectSorted(entries, Loaded(projected[..]));
    if sorted == [] { return projected; }
    var blocks := CollectBlocks(sorted);
    out := Attach(projected, blocks);
  }

  predicate EndsWithUser(messages: seq<Message>) {
    messages != [] && messages[|messages| - 1].role == User
  }

  method Attach(projected: array<Message>, blocks: seq<Block>) returns (out: array<Message>)
    requires blocks != []
    modifies projected
    ensures out[..] == Attached(old(projected[..]), blocks)
    ensures if old(EndsWithUser(projected[..])) then out == projected else projected[..] == old(projected[..])
  {
    var n := projected.Length;
    if n == 0 {
      out := new Message[] [Message(User, blocks, None)];
    } else if projected[n - 1].role == User {
      EditLast(projected, blocks);
      out := projected;
    } else {
      var merged := AppendMerging(projected[..], [Message(User, blocks, None)]);
      out := new Message[|merged|](i requires 0 <= i < |merged| => merged[i]);
      assert out[..] == merged;
    }
  }

  /** Behind the answers of a user turn, or in front of what it says. */
  method EditLast(projected: array<Message>, blocks: seq<Block>)
    requires projected.Length > 0 && projected[projected.Length - 1].role == User && blocks != []
    modifies projected
    ensures projected[..] == Attached(old(projected[..]), blocks)
  {
    var last := projected.Length - 1;
    var m := projected[last];
    ghost var before := projected[..];
    projected[last] := m.(content := if HasToolResult(m) then m.content + blocks else blocks + m.content);
    assert projected[..] == before[last := projected[last]];
  }

  // ---------------------------------------------------------------- legality

  lemma {:induction false} TextsOnly(blocks: seq<Block>)
    requires forall b | b in blocks :: b.kind == "text"
    ensures Calls(blocks) == multiset{} && Answers(blocks) == multiset{}
  {
    if blocks != [] {
      var init, b := blocks[..|blocks| - 1], blocks[|blocks| - 1];
      TextsOnly(init);
      assert b in blocks && blocks == init + [b];
    }
  }

  lemma {:induction false} LastUserGrows(messages: seq<Message>, content: seq<Block>)
    requires messages != [] && Legal(messages) && messages[|messages| - 1].role == User
    requires content != [] && Answers(content) == Answers(messages[|messages| - 1].content)
    ensures Legal(messages[|messages| - 1 := messages[|messages| - 1].(content := content)])
  {
  }

  lemma {:induction false} SnocTextLegal(messages: seq<Message>, blocks: seq<Block>)
    requires messages != [] && Legal(messages) && messages[|messages| - 1].role == Assistant
    requires blocks != [] && Answers(blocks) == multiset{}
    ensures Legal(messages + [Message(User, blocks, None)]) <==> Calls(messages[|messages| - 1].content) == multiset{}
  {
    var grown := messages + [Message(User, blocks, None)];
    var n := |messages|;
    assert grown[n].content == blocks && grown[n - 1] == messages[n - 1];
    forall i | 0 <= i < n ensures grown[i] == messages[i] { }
    if Legal(grown) { assert Answers(grown[n].content) == Calls(grown[n - 1].content); }
  }

  /** Reattaching keeps a conversation legal exactly unless it would put a user turn without
      results after unanswered calls. */
  lemma {:induction false} AttachedLegal(projected: seq<Message>, blocks: seq<Block>)
    requires Legal(projected) && forall b | b in blocks :: b.kind == "text"
    ensures Legal(Attached(projected, blocks)) <==>
      blocks == [] || projected == [] || projected[|projected| - 1].role == User
          || Calls(projected[|projected| - 1].content) == multiset{}
  {
    TextsOnly(blocks);
    if blocks != [] && projected != [] {
      var last := projected[|projected| - 1];
      if last.role == User {
        IdsOfConcat(last.content, blocks);
        IdsOfConcat(blocks, last.content);
        LastUserGrows(projected, if HasToolResult(last) then last.content + blocks else blocks + last.content);
      } else {
        var m := Message(User, blocks, None);
        assert [m][..0] == [];
        assert Merged(projected, [m]) == MergeOne(projected, m) == projected + [m];
        SnocTextLegal(projected, blocks);
      }
    }
  }

  lemma {:induction false} ChosenAreTexts(entries: seq<Injection>, already: set<string>, remaining: nat)
    requires WellListed(entries)
    ensures forall b | b in BlocksOf(Chosen(entries, already, remaining)) :: b.kind == "text"
  {
    ChosenInOrder(entries, already, remaining);
    forall b | b in BlocksOf(Chosen(entries, already, remaining)) ensures b.kind == "text" {
      var i :| 0 <= i < |BlocksOf(Chosen(entries, already, remaining))|
          && BlocksOf(Chosen(entries, already, remaining))[i] == b;
      var c := Chosen(entries, already, remaining)[i];
      var e: Injection, limit: nat :| e in entries && c == Cut(e, limit);
    }
  }

  /** Compaction and reattachment together: a legal transcript that ends with a user turn
      becomes a legal request that ends with one. */
  lemma {:induction false} CompactThenReattach(v: seq<Message>, w: seq<Message>, p: ContextProjection, max: int,
      size: Sizer)
    requires Legal(v) && v != [] && v[|v| - 1].role == User && CompactedTo(v, w, p, max, size)
    ensures var out := Attached(w, BlocksOf(Chosen(Latest(v), Loaded(w), ALL_SKILLS_TOKENS)));
      Legal(out) && out != [] && out[|out| - 1].role == User
  {
    CompactedLegal(v, w, p, max, size);
    LastRoleKept(v, w, p.droppedMessages, max);
    LatestWellListed(Blocks(v));
    ChosenAreTexts(Latest(v), Loaded(w), ALL_SKILLS_TOKENS);
    AttachedLegal(w, BlocksOf(Chosen(Latest(v), Loaded(w), ALL_SKILLS_TOKENS)));
  }

  lemma {:induction false} LastRoleKept(v: seq<Message>, w: seq<Message>, cut: nat, max: int)
    requires cut < |v| && (max > 0 || cut == 0) && SameShape(if cut == 0 then v else BeforeShrinking(v, cut, max), w)
    ensures w != [] && w[|w| - 1].role == v[|v| - 1].role
  {
    if cut > 0 { WithSummaryLast(v[cut..], Summary(v[..cut], SummaryBudget(max))); }
  }

  lemma {:induction false} WithSummaryLast(suffix: seq<Message>, summary: string)
    requires suffix != []
    ensures var u := WithSummary(suffix, summary); u != [] && u[|u| - 1].role == suffix[|suffix| - 1].role
  {
  }
}
