/** Memory listing: the directory roll-up and keyset paging (internal/app/memory_service.go). */
module MemoryListing {
  import opened Conversation

  datatype Memory = Memory(id: string, path: string)

  /** A memory, or a directory rolled up to its path with a trailing slash. */
  datatype Item = MemoryItem(memory: Memory) | PrefixItem(prefix: string)

  function ItemPath(item: Item): string {
    match item
    case MemoryItem(m) => m.path
    case PrefixItem(p) => p
  }

  // ---------------------------------------------------------------- byte order

  /** `a` and `b` agree before `d`, where `a` ends or has the smaller byte. */
  predicate LessAt(a: string, b: string, d: nat) {
    && d <= |a| && d < |b| && a[..d] == b[..d]
    && (d < |a| ==> a[d] < b[d])
  }

  predicate Less(a: string, b: string) {
    exists d | 0 <= d < |b| :: LessAt(a, b, d)
  }

  lemma LessTransitive(a: string, b: string, c: string)
    requires Less(a, b) && Less(b, c)
    ensures Less(a, c)
  {
    var d :| 0 <= d < |b| && LessAt(a, b, d);
    var e :| 0 <= e < |c| && LessAt(b, c, e);
    var m := if d < e then d else e;
    assert a[..m] == c[..m] by {
      assert a[..m] == a[..d][..m] && b[..m] == b[..d][..m] && b[..m] == b[..e][..m] && c[..m] == c[..e][..m];
    }
    if d < e { assert b[d] == b[..e][d] == c[..e][d] == c[d]; }
    if e < d { assert a[e] == a[..d][e] == b[..d][e] == b[e]; }
    assert LessAt(a, c, m);
  }

  lemma LessAsymmetric(a: string, b: string)
    requires Less(a, b)
    ensures !Less(b, a) && a != b
  {
    var d :| 0 <= d < |b| && LessAt(a, b, d);
    forall e | 0 <= e < |a| ensures !LessAt(b, a, e) {
      if e < d { assert a[e] == a[..d][e] == b[..d][e] == b[e]; }
    }
  }

  predicate InOrder(paths: seq<string>, i: nat, j: nat) {
    i < j < |paths| ==> Less(paths[i], paths[j])
  }

  ghost predicate Increasing(paths: seq<string>) {
    forall i: nat, j: nat :: InOrder(paths, i, j)
  }

  // ---------------------------------------------------------------- rolling up

  /** An absolute path of non-empty segments. */
  predicate ValidPath(p: string) {
    && |p| >= 2 && p[0] == '/' && p[|p| - 1] != '/'
    && forall i | 0 < i < |p| :: NoEmptySegment(p, i)
  }

  predicate NoEmptySegment(p: string, i: int)
    requires 0 < i < |p|
  {
    !(p[i - 1] == '/' && p[i] == '/')
  }

  /** What ListMemories accepts as path_prefix: nothing, or a directory with its slash. */
  predicate ValidPrefix(prefix: string) {
    prefix == "" || (prefix[0] == '/' && prefix[|prefix| - 1] == '/')
  }

  function TrimPrefix(s: string, prefix: string): string {
    if prefix <= s then s[|prefix|..] else s
  }

  function IndexOfSlash(s: string): (i: int)
    ensures -1 <= i < |s|
    ensures i >= 0 ==> s[i] == '/' && forall k :: 0 <= k < i ==> s[k] != '/'
    ensures i < 0 ==> forall k :: 0 <= k < |s| ==> s[k] != '/'
  {
    if s == "" then -1
    else if s[0] == '/' then 0
    else
      var i := IndexOfSlash(s[1..]);
      if i < 0 then -1 else i + 1
  }

  /** The part of a path below the listed directory. */
  function Remainder(path: string, prefix: string): string {
    TrimPrefix(TrimPrefix(path, prefix), "/")
  }

  function Directory(prefix: string): string {
    if prefix == "" then "/" else if prefix[|prefix| - 1] != '/' then prefix + "/" else prefix
  }

  /** What a memory is listed under at depth 1: its path, or the directory that holds it. */
  function Key(path: string, prefix: string): string {
    var remainder := Remainder(path, prefix);
    var slash := IndexOfSlash(remainder);
    if slash < 0 then path else Directory(prefix) + remainder[..slash + 1]
  }

  predicate IsNested(path: string, prefix: string) {
    IndexOfSlash(Remainder(path, prefix)) >= 0
  }

  /** The listing: at depth 1 every directory once, where its first memory stood. */
  function Listing(heads: seq<Memory>, prefix: string, depth: nat): seq<Item> {
    if heads == [] then []
    else
      var before, m := heads[..|heads| - 1], heads[|heads| - 1];
      Listing(before, prefix, depth) + Listed(RolledKeys(before, prefix), m, prefix, depth)
  }

  /** What one memory adds, given the directories already listed. */
  function Listed(rolled: set<string>, m: Memory, prefix: string, depth: nat): seq<Item> {
    if depth != 1 || !IsNested(m.path, prefix) then [MemoryItem(m)]
    else if Key(m.path, prefix) in rolled then []
    else [PrefixItem(Key(m.path, prefix))]
  }

  function RolledKeys(heads: seq<Memory>, prefix: string): set<string> {
    set m | m in heads && IsNested(m.path, prefix) :: Key(m.path, prefix)
  }

  method ProjectMemoryList(heads: seq<Memory>, prefix: string, depth: nat) returns (items: seq<Item>)
    ensures items == Listing(heads, prefix, depth)
  {
    items := [];
    var seenPrefixes: set<string> := {};
    for k := 0 to |heads|
      invariant items == Listing(heads[..k], prefix, depth)
      invariant depth == 1 ==> seenPrefixes == RolledKeys(heads[..k], prefix)
    {
      ListingNext(heads, k, prefix, depth);
      var added;
      added, seenPrefixes := ProjectOne(seenPrefixes, heads[k], prefix, depth);
      items := items + added;
    }
    assert heads[..|heads|] == heads;
  }

  /** The loop body: a memory, or the first sight of a directory. */
  method ProjectOne(seenPrefixes: set<string>, memory: Memory, prefix: string, depth: nat)
      returns (added: seq<Item>, seen: set<string>)
    ensures added == Listed(seenPrefixes, memory, prefix, depth) || depth != 1
    ensures depth != 1 ==> added == [MemoryItem(memory)]
    ensures depth == 1 ==> seen == seenPrefixes + if IsNested(memory.path, prefix) then {Key(memory.path, prefix)}
        else {}
  {
    added, seen := [], seenPrefixes;
    if depth == 1 {
      var rolled := RolledPrefix(memory.path, prefix);
      if rolled.Some? {
        if rolled.value !in seenPrefixes {
          seen := seenPrefixes + {rolled.value};
          added := [PrefixItem(rolled.value)];
        }
        return;
      }
    }
    added := [MemoryItem(memory)];
  }

  /** The directory a nested path is rolled up to. */
  method RolledPrefix(path: string, prefix: string) returns (rolled: Option<string>)
    ensures rolled == if IsNested(path, prefix) then Some(Key(path, prefix)) else None
  {
    var remainder := TrimPrefix(TrimPrefix(path, prefix), "/");
    var slash := IndexOfSlash(remainder);
    if slash < 0 { return None; }
    var directory := prefix;
    if directory == "" { directory := "/"; }
    if directory[|directory| - 1] != '/' { directory := directory + "/"; }
    rolled := Some(directory + remainder[..slash + 1]);
  }

  lemma {:induction false} ListingNext(heads: seq<Memory>, k: nat, prefix: string, depth: nat)
    requires k < |heads|
    ensures Listing(heads[..k + 1], prefix, depth)
        == Listing(heads[..k], prefix, depth) + Listed(RolledKeys(heads[..k], prefix), heads[k], prefix, depth)
    ensures RolledKeys(heads[..k + 1], prefix) == RolledKeys(heads[..k], prefix) +
        if IsNested(heads[k].path, prefix) then {Key(heads[k].path, prefix)} else {}
  {
    assert heads[..k + 1][..k] == heads[..k];
    assert heads[..k + 1] == heads[..k] + [heads[k]];
    RolledSnoc(heads[..k], heads[k], prefix);
  }

  lemma RolledSnoc(heads: seq<Memory>, m: Memory, prefix: string)
    ensures RolledKeys(heads + [m], prefix)
      == RolledKeys(heads, prefix) + if IsNested(m.path, prefix) then {Key(m.path, prefix)} else {}
  {
  }

  // ---------------------------------------------------------------- the listing is in order

  /** Where the part of a path below the directory starts. */
  function Base(prefix: string): nat {
    if prefix == "" then 1 else |prefix|
  }

  predicate Under(path: string, prefix: string) {
    ValidPath(path) && ValidPrefix(prefix) && prefix <= path
  }

  /** A rolled key is the path cut right after its first slash below the directory. */
  lemma {:induction false} KeyCuts(path: string, prefix: string) returns (base: nat, key: string, nested: bool)
    requires Under(path, prefix)
    ensures base == Base(prefix) && key == Key(path, prefix) && nested == IsNested(path, prefix)
    ensures base <= |path| && Cut(path, key, base, nested)
  {
    BelowPrefix(path, prefix);
    base := Base(prefix);
    KeyIs(path, prefix, base);
    key, nested := Key(path, prefix), IsNested(path, prefix);
    CutHere(path, base, key, nested);
  }

  lemma {:induction false} CutHere(path: string, base: nat, key: string, nested: bool)
    requires base <= |path|
    requires var slash := IndexOfSlash(path[base..]);
      key == (if slash < 0 then path else path[..base] + path[base..][..slash + 1]) && nested == (slash >= 0)
    ensures Cut(path, key, base, nested)
  {
    CutAt(path, base, IndexOfSlash(path[base..]));
  }

  lemma {:induction false} KeyIs(path: string, prefix: string, base: nat)
    requires base <= |path| && Remainder(path, prefix) == path[base..] && Directory(prefix) == path[..base]
    ensures var slash := IndexOfSlash(path[base..]);
      && Key(path, prefix) == (if slash < 0 then path else path[..base] + path[base..][..slash + 1])
      && (IsNested(path, prefix) <==> slash >= 0)
  {
  }

  lemma {:induction false} CutAt(path: string, base: nat, slash: int)
    requires base <= |path| && slash == IndexOfSlash(path[base..])
    ensures Cut(path, if slash < 0 then path else path[..base] + path[base..][..slash + 1], base, slash >= 0)
  {
    forall i | base <= i < |path| && (slash < 0 || i < base + slash) ensures path[i] != '/' {
      assert path[i] == path[base..][i - base];
    }
    if slash >= 0 {
      assert path[..base] + path[base..][..slash + 1] == path[..base + slash + 1];
      assert path[base + slash] == path[base..][slash];
    }
  }

  lemma {:induction false} BelowPrefix(path: string, prefix: string)
    requires Under(path, prefix)
    ensures Base(prefix) <= |path| && Remainder(path, prefix) == path[Base(prefix)..]
        && Directory(prefix) == path[..Base(prefix)]
  {
    if prefix != "" {
      var r := path[|prefix|..];
      assert prefix[|prefix| - 1] == path[|prefix| - 1];
      if r != "" {
        assert r[0] == path[|prefix|];
        assert NoEmptySegment(path, |prefix|);
      }
    } else {
      assert path[0] == '/' && "/" <= path;
    }
  }

  /** Rolling up keeps the order: the keys of increasing paths never decrease, and equal keys
      are the same directory. */
  lemma {:induction false} KeysFollow(a: string, b: string, prefix: string)
    requires Under(a, prefix) && Under(b, prefix) && Less(a, b)
    ensures Less(Key(a, prefix), Key(b, prefix))
        || (Key(a, prefix) == Key(b, prefix) && IsNested(a, prefix) && IsNested(b, prefix))
  {
    var base, x, m := KeyCuts(a, prefix);
    var _, y, n := KeyCuts(b, prefix);
    var d :| 0 <= d < |b| && LessAt(a, b, d);
    Agree(a, b, d);
    CutsFollow(a, b, x, y, base, d, m, n);
  }

  lemma {:induction false} Agree(a: string, b: string, d: nat)
    requires LessAt(a, b, d)
    ensures forall i :: 0 <= i < d ==> a[i] == b[i]
  {
    forall i | 0 <= i < d ensures a[i] == b[i] { assert a[..d][i] == b[..d][i]; }
  }

  /** `key` is the whole path, when nothing below `base` is nested, or its part up to and
      with the first slash. */
  predicate Cut(path: string, key: string, base: nat, nested: bool) {
    && base <= |key| && key <= path
    && if nested then |key| > base && key[|key| - 1] == '/' && forall i :: base <= i < |key| - 1 ==> path[i] != '/'
       else key == path && forall i :: base <= i < |path| ==> path[i] != '/'
  }

  lemma {:induction false} CutsFollow(a: string, b: string, x: string, y: string, base: nat, d: nat, m: bool, n: bool)
    requires LessAt(a, b, d) && (forall i :: 0 <= i < d ==> a[i] == b[i])
    requires Cut(a, x, base, m) && Cut(b, y, base, n)
    ensures Less(x, y) || (x == y && m && n)
  {
    if d < |x| && d < |y| {
      assert x[..d] == a[..d] && y[..d] == b[..d];
      assert LessAt(x, y, d);
    } else if |x| < |y| {
      assert x == a[..|x|] && y[..|x|] == b[..|x|] && a[..|x|] == b[..|x|];
      assert LessAt(x, y, |x|);
    } else if |x| == |y| {
      assert x == a[..|x|] && y == b[..|x|];
    }
  }

  function Paths(items: seq<Item>): (paths: seq<string>)
    ensures |paths| == |items| && forall i :: 0 <= i < |items| ==> paths[i] == ItemPath(items[i])
  {
    seq(|items|, i requires 0 <= i < |items| => ItemPath(items[i]))
  }

  function HeadPaths(heads: seq<Memory>): (paths: seq<string>)
    ensures |paths| == |heads| && forall i :: 0 <= i < |heads| ==> paths[i] == heads[i].path
  {
    seq(|heads|, i requires 0 <= i < |heads| => heads[i].path)
  }

  ghost predicate HeadsInOrder(heads: seq<Memory>, prefix: string) {
    (forall m | m in heads :: Under(m.path, prefix)) && Increasing(HeadPaths(heads))
  }

  lemma HeadsBefore(heads: seq<Memory>, k: nat, prefix: string)
    requires k <= |heads| && HeadsInOrder(heads, prefix)
    ensures HeadsInOrder(heads[..k], prefix)
  {
    var paths := HeadPaths(heads[..k]);
    forall i: nat, j: nat ensures InOrder(paths, i, j) {
      assert InOrder(HeadPaths(heads), i, j);
    }
  }

  /** What a memory is listed under. */
  function ListedAs(path: string, prefix: string, depth: nat): string {
    if depth == 1 then Key(path, prefix) else path
  }

  /** Every memory is listed under its own path or its directory, and nothing else is listed. */
  lemma {:induction false} ListingCovers(heads: seq<Memory>, prefix: string, depth: nat, p: string)
    ensures p in Paths(Listing(heads, prefix, depth)) <==>
        exists m :: m in heads && ListedAs(m.path, prefix, depth) == p
  {
    if heads != [] {
      var k := |heads| - 1;
      var before, m := heads[..k], heads[k];
      assert heads == before + [m];
      ListingCovers(before, prefix, depth, p);
      var items, last := Listing(before, prefix, depth), Listed(RolledKeys(before, prefix), m, prefix, depth);
      PathsConcat(items, last);
      ListedCovers(before, m, prefix, depth, p);
      assert (exists x :: x in heads && ListedAs(x.path, prefix, depth) == p)
        <==> (exists x :: x in before && ListedAs(x.path, prefix, depth) == p) || ListedAs(m.path, prefix, depth) == p;
    }
  }

  /** What a memory adds is its own key, unless the directory is listed already. */
  lemma {:induction false} ListedCovers(before: seq<Memory>, m: Memory, prefix: string, depth: nat, p: string)
    ensures var last := Listed(RolledKeys(before, prefix), m, prefix, depth);
      && (p in Paths(last) ==> p == ListedAs(m.path, prefix, depth))
      && (p == ListedAs(m.path, prefix, depth) ==>
          p in Paths(last) || exists x :: x in before && ListedAs(x.path, prefix, depth) == p)
  {
    var last := Listed(RolledKeys(before, prefix), m, prefix, depth);
    if last == [] {
      var x :| x in before && IsNested(x.path, prefix) && Key(x.path, prefix) == Key(m.path, prefix);
      assert ListedAs(x.path, prefix, depth) == ListedAs(m.path, prefix, depth);
    } else {
      assert Paths(last) == [ListedAs(m.path, prefix, depth)];
    }
  }

  lemma PathsConcat(a: seq<Item>, b: seq<Item>)
    ensures Paths(a + b) == Paths(a) + Paths(b)
  {
  }

  // ---------------------------------------------------------------- what is listed

  /** The directory right below the listed one that holds a path: cut after the first slash. */
  predicate DirectoryOf(path: string, prefix: string, p: string) {
    var base := if prefix == "" then 1 else |prefix|;
    && base < |p| && p <= path && p[|p| - 1] == '/'
    && forall i :: base <= i < |p| - 1 ==> path[i] != '/'
  }

  lemma {:induction false} KeyExactly(path: string, prefix: string)
    requires Under(path, prefix)
    ensures IsNested(path, prefix) ==> DirectoryOf(path, prefix, Key(path, prefix))
    ensures forall p :: DirectoryOf(path, prefix, p) ==> IsNested(path, prefix) && p == Key(path, prefix)
  {
    var base, key, nested := KeyCuts(path, prefix);
    forall p | DirectoryOf(path, prefix, p) ensures nested && p == key {
      assert p == path[..|p|] && path[|p| - 1] == '/';
      if nested {
        assert key == path[..|key|] && path[|key| - 1] == '/';
        assert |p| == |key|;
      }
    }
  }

  /** One memory lists itself, or the directory that holds it unless that is listed. */
  ghost predicate ListedFor(m: Memory, prefix: string, depth: nat, item: Item) {
    match item
    case MemoryItem(x) => x == m && (depth == 1 ==> forall p :: !DirectoryOf(m.path, prefix, p))
    case PrefixItem(p) => depth == 1 && DirectoryOf(m.path, prefix, p)
  }

  lemma {:induction false} ListedExactly(rolled: set<string>, m: Memory, prefix: string, depth: nat, item: Item)
    requires Under(m.path, prefix)
    ensures item in Listed(rolled, m, prefix, depth)
      <==> ListedFor(m, prefix, depth, item) && !(item.PrefixItem? && item.prefix in rolled)
  {
    KeyExactly(m.path, prefix);
  }

  lemma {:induction false} RolledExactly(heads: seq<Memory>, prefix: string, p: string)
    requires forall m | m in heads :: Under(m.path, prefix)
    ensures p in RolledKeys(heads, prefix) <==> exists m | m in heads :: DirectoryOf(m.path, prefix, p)
  {
    if p in RolledKeys(heads, prefix) {
      var m :| m in heads && IsNested(m.path, prefix) && Key(m.path, prefix) == p;
      KeyExactly(m.path, prefix);
    }
    if exists m | m in heads :: DirectoryOf(m.path, prefix, p) {
      var m :| m in heads && DirectoryOf(m.path, prefix, p);
      KeyExactly(m.path, prefix);
    }
  }

  /** Exactly what is listed: at depth 1 the memories of the directory itself and the
      directories that hold the others, at any other depth every memory. */
  lemma {:induction false} ListingExactly(heads: seq<Memory>, prefix: string, depth: nat, item: Item)
    requires forall m | m in heads :: Under(m.path, prefix)
    ensures item in Listing(heads, prefix, depth) <==> exists m | m in heads :: ListedFor(m, prefix, depth, item)
  {
    if heads != [] {
      var before, m := heads[..|heads| - 1], heads[|heads| - 1];
      assert heads == before + [m];
      ListingExactly(before, prefix, depth, item);
      ListedExactly(RolledKeys(before, prefix), m, prefix, depth, item);
      if item.PrefixItem? { RolledExactly(before, prefix, item.prefix); }
    }
  }

  lemma {:induction false} IncreasingSnoc(paths: seq<string>, p: string)
    requires Increasing(paths) && forall q | q in paths :: Less(q, p)
    ensures Increasing(paths + [p])
  {
    forall i: nat, j: nat ensures InOrder(paths + [p], i, j) {
      assert InOrder(paths, i, j);
      if i < |paths| { assert paths[i] in paths; }
    }
  }

  /** A new key follows every key listed before it. */
  lemma {:induction false} NewKeyFollows(heads: seq<Memory>, k: nat, prefix: string, depth: nat, q: string)
    requires k < |heads| && HeadsInOrder(heads, prefix)
    requires depth != 1 || !IsNested(heads[k].path, prefix)
        || Key(heads[k].path, prefix) !in RolledKeys(heads[..k], prefix)
    requires q in Paths(Listing(heads[..k], prefix, depth))
    ensures Less(q, ListedAs(heads[k].path, prefix, depth))
  {
    ListingCovers(heads[..k], prefix, depth, q);
    var m :| m in heads[..k] && ListedAs(m.path, prefix, depth) == q;
    var i :| 0 <= i < k && heads[..k][i] == m;
    assert heads[i] == m && InOrder(HeadPaths(heads), i, k);
    if depth == 1 { KeysFollow(m.path, heads[k].path, prefix); }
  }

  /** The listing of path-sorted memories is strictly increasing, though it rolls directories
      up: every directory is listed once, in its place. */
  lemma {:induction false} ListingIncreases(heads: seq<Memory>, prefix: string, depth: nat)
    requires HeadsInOrder(heads, prefix)
    ensures Increasing(Paths(Listing(heads, prefix, depth)))
  {
    if heads != [] {
      var k := |heads| - 1;
      HeadsBefore(heads, k, prefix);
      ListingIncreases(heads[..k], prefix, depth);
      var items, last := Listing(heads[..k], prefix, depth),
          Listed(RolledKeys(heads[..k], prefix), heads[k], prefix, depth);
      PathsConcat(items, last);
      if last == [] {
        assert items + last == items;
      } else {
        var p := ListedAs(heads[k].path, prefix, depth);
        assert Paths(last) == [p];
        forall q | q in Paths(items) ensures Less(q, p) { NewKeyFollows(heads, k, prefix, depth, q); }
        IncreasingSnoc(Paths(items), p);
      }
    }
  }

  // ---------------------------------------------------------------- paging

  predicate IsPast(path: string, after: string) {
    after == "" || !(path == after || Less(path, after))
  }

  /** The items a page with this cursor may show. */
  function Past(items: seq<Item>, after: string): seq<Item> {
    Filter(items, Behind(after))
  }

  function Behind(after: string): Item -> bool {
    (item: Item) => IsPast(ItemPath(item), after)
  }

  function Filter(items: seq<Item>, keep: Item -> bool): seq<Item> {
    if items == [] then []
    else
      var item := items[|items| - 1];
      Filter(items[..|items| - 1], keep) + if keep(item) then [item] else []
  }

  function Page(items: seq<Item>, after: string, limit: nat): (page: (seq<Item>, bool)) {
    var past := Past(items, after);
    if |past| <= limit then (past, false) else (past[..limit], true)
  }

  method ListPage(items: seq<Item>, after: string, limit: nat) returns (page: seq<Item>, hasNext: bool)
    ensures (page, hasNext) == Page(items, after, limit)
  {
    page, hasNext := [], false;
    for i := 0 to |items|
      invariant |page| <= limit && !hasNext && page == Past(items[..i], after)
    {
      assert items[..i + 1][..i] == items[..i];
      var path := ItemPath(items[i]);
      if after != "" && (path == after || Less(path, after)) { continue; }
      if |page| == limit {
        hasNext := true;
        PastPrefix(items, i, after);
        assert Past(items, after)[..limit] == page;
        return;
      }
      page := page + [items[i]];
    }
    assert items[..|items|] == items;
  }

  lemma {:induction false} PastPrefix(items: seq<Item>, i: nat, after: string)
    requires i < |items| && IsPast(ItemPath(items[i]), after)
    ensures Past(items[..i], after) + [items[i]] <= Past(items, after)
    decreases |items|
  {
    var n := |items| - 1;
    if i < n {
      PastPrefix(items[..n], i, after);
      assert items[..n][..i] == items[..i];
    }
  }

  lemma {:induction false} PastMember(items: seq<Item>, after: string, item: Item)
    ensures item in Past(items, after) <==> item in items && IsPast(ItemPath(item), after)
  {
    if items != [] {
      PastMember(items[..|items| - 1], after, item);
      assert items == items[..|items| - 1] + [items[|items| - 1]];
    }
  }

  /** Byte order is total. */
  lemma {:induction false} LessTotal(a: string, b: string, d: nat)
    requires d <= |a| && d <= |b| && a[..d] == b[..d]
    ensures a == b || Less(a, b) || Less(b, a)
    decreases |a| - d
  {
    if d == |a| {
      if d < |b| { assert LessAt(a, b, d); }
    } else if d == |b| {
      assert LessAt(b, a, d);
    } else if a[d] == b[d] {
      assert a[..d + 1] == b[..d + 1];
      LessTotal(a, b, d + 1);
    } else if a[d] < b[d] {
      assert LessAt(a, b, d);
    } else {
      assert LessAt(b, a, d);
    }
  }

  lemma {:induction false} PastIsLess(path: string, after: string)
    requires after != ""
    ensures IsPast(path, after) <==> Less(after, path)
  {
    LessTotal(path, after, 0);
    if Less(after, path) { LessAsymmetric(after, path); }
  }

  /** A later cursor that some item has leaves fewer items. */
  lemma {:induction false} PastShrinks(items: seq<Item>, after: string, next: string)
    requires next != "" && IsPast(next, after)
    ensures |Past(items, next)| <= |Past(items, after)|
    ensures (exists item :: item in items && ItemPath(item) == next) ==> |Past(items, next)| < |Past(items, after)|
  {
    if items != [] {
      var n := |items| - 1;
      var path := ItemPath(items[n]);
      PastShrinks(items[..n], after, next);
      assert items == items[..n] + [items[n]];
      PastIsLess(path, next);
      if path == next { PastIsLess(next, next); NotLessSelf(next); }
      if after != "" {
        PastIsLess(next, after);
        PastIsLess(path, after);
        if Less(next, path) { LessTransitive(after, next, path); }
      }
    }
  }

  lemma NotLessSelf(a: string)
    ensures !Less(a, a)
  {
    if Less(a, a) { LessAsymmetric(a, a); }
  }

  ghost predicate Named(items: seq<Item>) {
    forall item | item in items :: ItemPath(item) != ""
  }

  lemma {:induction false} NextPageShrinks(items: seq<Item>, after: string, k: nat)
    requires Named(items) && k < |Past(items, after)|
    ensures var next := ItemPath(Past(items, after)[k]);
      next != "" && IsPast(next, after) && |Past(items, next)| < |Past(items, after)|
  {
    var item := Past(items, after)[k];
    PastMember(items, after, item);
    PastShrinks(items, after, ItemPath(item));
  }

  lemma {:induction false} FilterConcat(a: seq<Item>, b: seq<Item>, keep: Item -> bool)
    ensures Filter(a + b, keep) == Filter(a, keep) + Filter(b, keep)
  {
    if b == [] {
      assert a + b == a;
    } else {
      FilterConcat(a, b[..|b| - 1], keep);
      assert (a + b)[..|a + b| - 1] == a + b[..|b| - 1];
    }
  }

  lemma {:induction false} PastConcat(a: seq<Item>, b: seq<Item>, after: string)
    ensures Past(a + b, after) == Past(a, after) + Past(b, after)
  {
    FilterConcat(a, b, Behind(after));
  }

  lemma {:induction false} PastNone(items: seq<Item>, after: string)
    requires NonePast(items, after)
    ensures Past(items, after) == []
  {
    if items != [] { PastNone(items[..|items| - 1], after); }
  }

  lemma {:induction false} PastAll(items: seq<Item>, after: string)
    requires AllPast(items, after)
    ensures Past(items, after) == items
  {
    if items != [] { PastAll(items[..|items| - 1], after); }
  }

  lemma {:induction false} PastOfIncreasing(items: seq<Item>, k: nat)
    requires Increasing(Paths(items)) && Named(items) && 1 <= k <= |items|
    ensures Past(items, ItemPath(items[k - 1])) == items[k..]
  {
    EarlyNotPast(items, k);
    LatePast(items, k);
    SliceJoin(items, 0, k);
    PastSplit(items, items[..k], items[k..], ItemPath(items[k - 1]));
  }

  lemma {:induction false} PastSplit(items: seq<Item>, early: seq<Item>, late: seq<Item>, after: string)
    requires items == early + late && NonePast(early, after) && AllPast(late, after)
    ensures Past(items, after) == late
  {
    PastNone(early, after);
    PastAll(late, after);
    PastConcat(early, late, after);
  }

  lemma {:induction false} SliceJoin(items: seq<Item>, k: nat, n: nat)
    requires k + n <= |items|
    ensures items[k..k + n] + items[k + n..] == items[k..]
    ensures items[..n] + items[n..] == items
  {
  }

  lemma {:induction false} EarlyNotPast(items: seq<Item>, k: nat)
    requires Increasing(Paths(items)) && Named(items) && 1 <= k <= |items|
    ensures NonePast(items[..k], ItemPath(items[k - 1]))
  {
    var early, after := items[..k], ItemPath(items[k - 1]);
    forall i | 0 <= i < |early| ensures !IsPast(ItemPath(early[i]), after) {
      PastOrder(items, i, k - 1);
      assert early[i] == items[i];
    }
  }

  lemma {:induction false} LatePast(items: seq<Item>, k: nat)
    requires Increasing(Paths(items)) && Named(items) && 1 <= k <= |items|
    ensures AllPast(items[k..], ItemPath(items[k - 1]))
  {
    var late, after := items[k..], ItemPath(items[k - 1]);
    forall i | 0 <= i < |late| ensures IsPast(ItemPath(late[i]), after) {
      PastOrder(items, k + i, k - 1);
      assert late[i] == items[k + i];
    }
  }

  ghost predicate NonePast(items: seq<Item>, after: string) {
    forall i :: 0 <= i < |items| ==> !IsPast(ItemPath(items[i]), after)
  }

  ghost predicate AllPast(items: seq<Item>, after: string) {
    forall i :: 0 <= i < |items| ==> IsPast(ItemPath(items[i]), after)
  }

  /** In an increasing listing the items past the one at `j` are those after it. */
  lemma {:induction false} PastOrder(items: seq<Item>, i: nat, j: nat)
    requires Increasing(Paths(items)) && Named(items) && i < |items| && j < |items|
    ensures IsPast(ItemPath(items[i]), ItemPath(items[j])) <==> i > j
  {
    var path, after := Paths(items)[i], Paths(items)[j];
    assert items[j] in items;
    assert InOrder(Paths(items), i, j) && InOrder(Paths(items), j, i);
    PastIsLess(path, after);
    if i < j { LessAsymmetric(path, after); }
    if i == j { NotLessSelf(after); }
  }

  lemma {:induction false} PastNothing(items: seq<Item>)
    ensures Past(items, "") == items
  {
    if items != [] { PastNothing(items[..|items| - 1]); }
  }

  /** The cursor after `k` items have been seen. */
  function Cursor(items: seq<Item>, k: nat): string
    requires k <= |items|
  {
    if k == 0 then "" else ItemPath(items[k - 1])
  }

  lemma {:induction false} PastCursor(items: seq<Item>, k: nat)
    requires Increasing(Paths(items)) && Named(items) && k <= |items|
    ensures Past(items, Cursor(items, k)) == items[k..]
  {
    if k == 0 { PastNothing(items); } else { PastOfIncreasing(items, k); }
  }

  lemma {:induction false} ListingNamed(heads: seq<Memory>, prefix: string, depth: nat)
    requires HeadsInOrder(heads, prefix)
    ensures Named(Listing(heads, prefix, depth))
  {
    forall item | item in Listing(heads, prefix, depth) ensures ItemPath(item) != "" {
      var i :| 0 <= i < |Listing(heads, prefix, depth)| && Listing(heads, prefix, depth)[i] == item;
      assert Paths(Listing(heads, prefix, depth))[i] == ItemPath(item);
      ListingCovers(heads, prefix, depth, ItemPath(item));
      var m :| m in heads && ListedAs(m.path, prefix, depth) == ItemPath(item);
      var _, key, _ := KeyCuts(m.path, prefix);
    }
  }

  /** The paths seen so far lead up to the cursor. */
  ghost predicate SeenUpTo(seen: seq<string>, after: string) {
    && Increasing(seen)
    && (if after == "" then seen == [] else forall q | q in seen :: q == after || Less(q, after))
  }

  lemma {:induction false} SeeOne(seen: seq<string>, after: string, next: string)
    requires SeenUpTo(seen, after) && next != "" && IsPast(next, after)
    ensures SeenUpTo(seen + [next], next)
  {
    if after != "" { PastIsLess(next, after); }
    forall q | q in seen ensures Less(q, next) {
      if q != after { LessTransitive(q, after, next); }
    }
    IncreasingSnoc(seen, next);
  }

  /** A page of an increasing listing continues right after the cursor. */
  lemma {:induction false} PageContinues(items: seq<Item>, k: nat, limit: nat)
    requires Increasing(Paths(items)) && Named(items) && k <= |items| && limit >= 1
    ensures var (page, hasNext) := Page(items, Cursor(items, k), limit);
      && hasNext == (|items| - k > limit)
      && page == items[k..if hasNext then k + limit else |items|]
  {
    PastCursor(items, k);
  }

  lemma {:induction false} PageOfOne(items: seq<Item>, after: string)
    requires Named(items)
    ensures var (page, hasNext) := Page(items, after, 1);
      && |page| <= 1 && (hasNext ==> |page| == 1)
      && (|page| == 1 ==> ItemPath(page[0]) != "" && IsPast(ItemPath(page[0]), after))
  {
    var past := Past(items, after);
    if past != [] { PastMember(items, after, past[0]); }
  }

  /** What a client that has seen `all` keeps, before its next page and after its last. */
  ghost predicate Following(items: seq<Item>, limit: nat, all: seq<Item>, after: string, hasNext: bool) {
    && (Increasing(Paths(items)) ==>
          |all| <= |items| && all == items[..|all|]
              && (if hasNext then after == Cursor(items, |all|) else all == items))
    && (limit == 1 ==> Increasing(Paths(all)) && (hasNext ==> SeenUpTo(Paths(all), after)))
  }

  lemma {:induction false} FollowOne(items: seq<Item>, limit: nat, all: seq<Item>, after: string, page: seq<Item>,
      hasNext: bool)
    requires Named(items) && limit >= 1 && Following(items, limit, all, after, true)
        && (page, hasNext) == Page(items, after, limit)
    ensures hasNext ==> |page| == limit
    ensures Following(items, limit, all + page, if hasNext then ItemPath(page[|page| - 1]) else after, hasNext)
  {
    if Increasing(Paths(items)) { ContinueOne(items, limit, all, page, hasNext); }
    if limit == 1 { SeePage(items, all, after); }
  }

  lemma {:induction false} ContinueOne(items: seq<Item>, limit: nat, all: seq<Item>, page: seq<Item>, hasNext: bool)
    requires Named(items) && limit >= 1 && Increasing(Paths(items)) && |all| <= |items| && all == items[..|all|]
    requires (page, hasNext) == Page(items, Cursor(items, |all|), limit)
    ensures var seen := all + page;
      && |seen| <= |items| && seen == items[..|seen|] && (hasNext ==> |page| == limit)
      && (if hasNext then ItemPath(page[|page| - 1]) == Cursor(items, |seen|) else seen == items)
  {
    PageContinues(items, |all|, limit);
  }

  /** What a client that follows pages from a cursor sees. */
  function Followed(items: seq<Item>, limit: nat, after: string): seq<Item>
    requires Named(items) && limit >= 1
    decreases |Past(items, after)|
  {
    var (page, hasNext) := Page(items, after, limit);
    if hasNext then
      NextPageShrinks(items, after, limit - 1);
      page + Followed(items, limit, ItemPath(page[|page| - 1]))
    else page
  }

  lemma {:induction false} FollowedKeeps(items: seq<Item>, limit: nat, all: seq<Item>, after: string)
    requires Named(items) && limit >= 1 && Following(items, limit, all, after, true)
    ensures Following(items, limit, all + Followed(items, limit, after), after, false)
    decreases |Past(items, after)|
  {
    var (page, hasNext) := Page(items, after, limit);
    FollowOne(items, limit, all, after, page, hasNext);
    FollowedStep(items, limit, after, all, page, hasNext);
    if hasNext {
      NextPageShrinks(items, after, limit - 1);
      FollowedKeeps(items, limit, all + page, ItemPath(page[limit - 1]));
    }
  }

  /** Following pages sees every item exactly once, in order, when the listing is strictly
      increasing in byte order, whatever the page size; with pages of one item only then. */
  lemma {:induction false} FollowedSees(items: seq<Item>, limit: nat)
    requires Named(items) && limit >= 1
    ensures Increasing(Paths(items)) ==> Followed(items, limit, "") == items
    ensures limit == 1 && Followed(items, limit, "") == items ==> Increasing(Paths(items))
  {
    assert Increasing(Paths([]));
    FollowedKeeps(items, limit, [], "");
    assert [] + Followed(items, limit, "") == Followed(items, limit, "");
  }

  /** Paging sees the listing at every page size exactly when the listing is strictly increasing. */
  lemma {:induction false} EveryPageSize(items: seq<Item>)
    requires Named(items)
    ensures (forall limit: nat | limit >= 1 :: Followed(items, limit, "") == items) <==> Increasing(Paths(items))
  {
    if Increasing(Paths(items)) {
      forall limit: nat | limit >= 1 ensures Followed(items, limit, "") == items { FollowedSees(items, limit); }
    } else {
      FollowedSees(items, 1);
      assert Followed(items, 1, "") != items;
    }
  }

  lemma {:induction false} FollowedStep(items: seq<Item>, limit: nat, after: string, all: seq<Item>, page: seq<Item>,
      hasNext: bool)
    requires Named(items) && limit >= 1 && (page, hasNext) == Page(items, after, limit)
    ensures hasNext ==>
      && |page| == limit
      && all + Followed(items, limit, after) == all + page + Followed(items, limit, ItemPath(page[limit - 1]))
    ensures !hasNext ==> all + Followed(items, limit, after) == all + page
  {
  }

  /** A client that follows pages terminates, having seen just what `Followed` says. */
  method FollowPages(items: seq<Item>, limit: nat) returns (all: seq<Item>)
    requires Named(items) && limit >= 1
    ensures all == Followed(items, limit, "")
    ensures Increasing(Paths(items)) ==> all == items
    ensures limit == 1 ==> (all == items <==> Increasing(Paths(items)))
  {
    FollowedSees(items, limit);
    ghost var whole := Followed(items, limit, "");
    all := [];
    var after := "";
    var hasNext := true;
    assert all + whole == whole;
    while hasNext
      invariant hasNext ==> all + Followed(items, limit, after) == whole
      invariant !hasNext ==> all == whole
      decreases hasNext, |Past(items, after)|
    {
      var page;
      ghost var seen := all;
      page, hasNext := ListPage(items, after, limit);
      FollowedStep(items, limit, after, seen, page, hasNext);
      all := all + page;
      if hasNext {
        NextPageShrinks(items, after, limit - 1);
        after := ItemPath(page[|page| - 1]);
      }
    }
  }

  /** Two memories that another collation puts first what byte order puts last. */
  lemma {:induction false} SecondLost(x: Item, y: Item)
    requires ItemPath(x) != "" && ItemPath(y) != "" && Less(ItemPath(y), ItemPath(x))
    ensures Followed([x, y], 1, "") == [x]
  {
    var items := [x, y];
    PastNothing(items);
    assert items[..1] == [x];
    assert Page(items, "", 1) == ([x], true);
    LessAsymmetric(ItemPath(y), ItemPath(x));
    NotLessSelf(ItemPath(x));
    PastIsLess(ItemPath(x), ItemPath(x));
    PastIsLess(ItemPath(y), ItemPath(x));
    PastNone(items, ItemPath(x));
    assert Page(items, ItemPath(x), 1) == ([], false);
    assert [x] + [] == [x];
  }

  lemma {:induction false} ListingTwo(a: Memory, b: Memory)
    ensures Listing([a, b], "", 0) == [MemoryItem(a), MemoryItem(b)]
  {
    assert [a, b][..1] == [a] && [a][..0] == [];
    assert Listing([a], "", 0) == [MemoryItem(a)];
  }

  lemma PathNotEmpty(p: string)
    requires ValidPath(p)
    ensures p != ""
  {
  }

  /** Heads out of byte order lose items: whatever two memories stand the wrong way round,
      pages of one show only the first. */
  lemma {:induction false} CollationLoses(a: Memory, b: Memory)
    requires ValidPath(a.path) && ValidPath(b.path) && Less(b.path, a.path)
    ensures Listing([a, b], "", 0) == [MemoryItem(a), MemoryItem(b)] && Named([MemoryItem(a), MemoryItem(b)])
    ensures Followed([MemoryItem(a), MemoryItem(b)], 1, "") == [MemoryItem(a)]
  {
    PathNotEmpty(a.path);
    PathNotEmpty(b.path);
    ListingTwo(a, b);
    SecondLost(MemoryItem(a), MemoryItem(b));
  }

  /** As `/a` and `/B` do under a collation that ignores case. */
  lemma WrongWayRound()
    ensures ValidPath("/a") && ValidPath("/B") && Less("/B", "/a")
  {
    assert LessAt("/B", "/a", 1);
  }

  lemma {:induction false} SeePage(items: seq<Item>, all: seq<Item>, after: string)
    requires Named(items) && SeenUpTo(Paths(all), after)
    ensures var (page, hasNext) := Page(items, after, 1);
      && Increasing(Paths(all + page))
      && (hasNext ==> |page| == 1 && SeenUpTo(Paths(all + page), ItemPath(page[0])))
  {
    PageOfOne(items, after);
    var (page, hasNext) := Page(items, after, 1);
    PathsConcat(all, page);
    if page == [] {
      assert all + page == all;
    } else {
      SeeOne(Paths(all), after, ItemPath(page[0]));
      assert Paths(page) == [ItemPath(page[0])];
    }
  }

  /** Paged listing equals unpaged listing: following pages of any size through the listing of
      path-sorted memories, at either depth, gives exactly that listing. */
  method ListAllMemories(heads: seq<Memory>, prefix: string, depth: nat, limit: nat) returns (all: seq<Item>)
    requires HeadsInOrder(heads, prefix) && limit >= 1
    ensures all == Listing(heads, prefix, depth) && Increasing(Paths(all))
  {
    ListingNamed(heads, prefix, depth);
    ListingIncreases(heads, prefix, depth);
    var items := ProjectMemoryList(heads, prefix, depth);
    all := FollowPages(items, limit);
  }
}
