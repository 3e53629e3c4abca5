/** Mount paths of Session files (internal/domain/session_resource.go and
    internal/controlplane/session_resource_service.go). */
module MountPaths {
  import opened Conversation
  import opened Text

  const MAX_PATH: nat := 1024
  const MAX_COMPONENT: nat := 255
  const MAX_TOTAL_BYTES: nat := 500 * 1024 * 1024

  const UPLOADS := ["mnt", "session", "uploads"]
  const UPLOADS_ROOT := "/mnt/session/uploads"

  // ---------------------------------------------------------------- clean paths

  /** A path component that a clean path may contain. */
  predicate IsName(c: string) {
    c != "" && c != "." && c != ".." && '/' !in c
  }

  ghost predicate AllNames(comps: seq<string>) {
    forall i :: 0 <= i < |comps| ==> IsName(comps[i])
  }

  function Path(comps: seq<string>): string {
    if comps == [] then "" else "/" + comps[0] + Path(comps[1..])
  }

  /** Components of a rooted path after dropping empty ones and resolving dots. */
  function Resolve(parts: seq<string>): seq<string> {
    if parts == [] then []
    else
      var p, before := parts[|parts| - 1], Resolve(parts[..|parts| - 1]);
      if p == "" || p == "." then before
      else if p == ".." then (if before == [] then [] else before[..|before| - 1])
      else before + [p]
  }

  /** path.Clean of a rooted path. */
  function Clean(s: string): string {
    var comps := Resolve(Split(s));
    if comps == [] then "/" else Path(comps)
  }

  lemma {:induction false} SplitNoSlash(s: string)
    ensures forall i :: 0 <= i < |Split(s)| ==> '/' !in Split(s)[i]
  {
    if s != "" { SplitNoSlash(s[1..]); }
  }

  lemma {:induction false} ResolveNames(parts: seq<string>)
    requires forall i :: 0 <= i < |parts| ==> '/' !in parts[i]
    ensures AllNames(Resolve(parts))
  {
    if parts != [] { ResolveNames(parts[..|parts| - 1]); }
  }

  lemma {:induction false} SplitCons(c: char, t: string)
    ensures Split([c] + t) == if c == '/' then [""] + Split(t) else [[c] + Split(t)[0]] + Split(t)[1..]
  {
    assert ([c] + t)[1..] == t;
  }

  lemma HeadJoin(h: string, a: seq<string>, b: seq<string>)
    requires a != []
    ensures [h + (a + b)[0]] + (a + b)[1..] == ([h + a[0]] + a[1..]) + b
  {
  }

  /** Splitting at a slash splits the parts. */
  lemma {:induction false} SplitAtSlash(x: string, t: string)
    ensures Split(x + "/" + t) == Split(x) + Split(t)
  {
    if x == "" {
      assert x + "/" + t == ['/'] + t;
      SplitCons('/', t);
    } else {
      var c, y := x[0], x[1..];
      SplitAtSlash(y, t);
      SplitPrepend(c, y, y + "/" + t, t);
      assert x == [c] + y && x + "/" + t == [c] + (y + "/" + t);
    }
  }

  lemma {:induction false} SplitPrepend(c: char, y: string, z: string, t: string)
    requires Split(z) == Split(y) + Split(t)
    ensures Split([c] + z) == Split([c] + y) + Split(t)
  {
    SplitCons(c, z);
    SplitCons(c, y);
    if c == '/' { SlashJoin(Split(y), Split(t)); } else { HeadJoin([c], Split(y), Split(t)); }
  }

  lemma SlashJoin(a: seq<string>, b: seq<string>)
    ensures [""] + (a + b) == ([""] + a) + b
  {
  }

  lemma {:induction false} SplitPlain(c: string)
    requires '/' !in c
    ensures Split(c) == [c]
  {
    if c != "" {
      SplitPlain(c[1..]);
      assert c == [c[0]] + c[1..];
      assert [[c[0]] + c[1..]] + [] == [c];
    }
  }

  lemma Tail(x: seq<string>, y: seq<string>)
    requires [""] + x == [""] + y
    ensures x == y
  {
    assert x == ([""] + x)[1..] && y == ([""] + y)[1..];
  }

  lemma {:induction false} SplitPath(comps: seq<string>)
    requires AllNames(comps)
    ensures Split(Path(comps)) == [""] + comps
  {
    if comps != [] {
      var c, rest := comps[0], comps[1..];
      SplitPath(rest);
      SplitPlain(c);
      assert comps == [c] + rest;
      if rest == [] {
        assert Path(comps) == "" + "/" + c;
        SplitAtSlash("", c);
      } else {
        var tail := rest[0] + Path(rest[1..]);
        assert Path(rest) == "" + "/" + tail;
        SplitAtSlash("", tail);
        Tail(Split(tail), rest);
        assert Path(comps) == "" + "/" + (c + "/" + tail);
        SplitAtSlash("", c + "/" + tail);
        SplitAtSlash(c, tail);
      }
    }
  }

  lemma {:induction false} ResolveKeeps(comps: seq<string>)
    requires AllNames(comps)
    ensures Resolve([""] + comps) == comps
  {
    if comps == [] {
      assert [""][..0] == [];
    } else {
      var n := |comps| - 1;
      ResolveKeeps(comps[..n]);
      assert ([""] + comps)[..n + 1] == [""] + comps[..n];
      assert comps == comps[..n] + [comps[n]];
    }
  }

  /** A path built from names is clean. */
  lemma {:induction false} CleanPath(comps: seq<string>)
    requires AllNames(comps) && comps != []
    ensures Clean(Path(comps)) == Path(comps) && Resolve(Split(Path(comps))) == comps
  {
    SplitPath(comps);
    ResolveKeeps(comps);
  }

  lemma {:induction false} PathConcat(a: seq<string>, b: seq<string>)
    ensures Path(a + b) == Path(a) + Path(b)
  {
    if a == [] {
      assert a + b == b;
    } else {
      PathConcat(a[1..], b);
      assert (a + b)[1..] == a[1..] + b;
    }
  }

  lemma PartsBelow(a: seq<string>, b: seq<string>, t: seq<string>)
    requires [""] + b == ([""] + a) + t && t != []
    ensures |a| < |b| && b[..|a|] == a
  {
    var x := [""] + b;
    assert b == x[1..] && x[1..] == a + t;
  }

  lemma {:induction false} BelowExtends(a: seq<string>, b: seq<string>, t: string)
    requires AllNames(a) && AllNames(b) && Path(b) == Path(a) + "/" + t
    ensures |a| < |b| && b[..|a|] == a
  {
    SplitAtSlash(Path(a), t);
    SplitPath(a);
    SplitPath(b);
    PartsBelow(a, b, Split(t));
  }

  lemma {:induction false} ExtensionBelow(a: seq<string>, c: seq<string>)
    requires c != []
    ensures Path(a) + "/" <= Path(a + c)
  {
    PathConcat(a, c);
    assert Path(c)[0] == '/';
  }

  /** One path lies below another exactly when its components extend the other's. */
  lemma {:induction false} BelowIsExtension(a: seq<string>, b: seq<string>)
    requires AllNames(a) && AllNames(b)
    ensures Path(a) + "/" <= Path(b) <==> |a| < |b| && b[..|a|] == a
  {
    if Path(a) + "/" <= Path(b) {
      var t := Path(b)[|Path(a)| + 1..];
      assert Path(b) == Path(a) + "/" + t;
      BelowExtends(a, b, t);
    }
    if |a| < |b| && b[..|a|] == a {
      assert b == a + b[|a|..];
      ExtensionBelow(a, b[|a|..]);
    }
  }

  lemma {:induction false} PathInjective(a: seq<string>, b: seq<string>)
    requires AllNames(a) && AllNames(b) && Path(a) == Path(b)
    ensures a == b
  {
    SplitPath(a);
    SplitPath(b);
    assert a == ([""] + a)[1..] && b == ([""] + b)[1..];
  }

  // ---------------------------------------------------------------- text checks

  /** A C0 control, DEL, or the UTF-8 encoding of a C1 control, starts at `i`. */
  predicate ControlAt(s: string, i: nat)
    requires i < |s|
  {
    || Byte(s[i]) < 0x20 || Byte(s[i]) == 0x7F
    || (Byte(s[i]) == 0xC2 && i + 1 < |s| && 0x80 <= Byte(s[i + 1]) <= 0x9F)
  }

  predicate NoControl(s: string) {
    forall i | 0 <= i < |s| :: !ControlAt(s, i)
  }

  predicate GoodText(s: string) {
    ValidUtf8(s) && NoControl(s)
  }

  lemma {:induction false} FirstPartPrefix(s: string)
    ensures Split(s)[0] <= s
  {
    if s != "" && s[0] != '/' {
      FirstPartPrefix(s[1..]);
      assert s == [s[0]] + s[1..];
    }
  }

  lemma {:induction false} NoControlTail(s: string)
    requires s != "" && NoControl(s)
    ensures NoControl(s[1..])
  {
    forall i | 0 <= i < |s[1..]| ensures !ControlAt(s[1..], i) { assert !ControlAt(s, i + 1); }
  }

  lemma {:induction false} NoControlHead(s: string, p: string)
    requires NoControl(s) && p <= s
    ensures NoControl(p)
  {
    forall i | 0 <= i < |p| ensures !ControlAt(p, i) { assert !ControlAt(s, i); }
  }

  lemma {:induction false} NoControlParts(s: string)
    requires NoControl(s)
    ensures forall i :: 0 <= i < |Split(s)| ==> NoControl(Split(s)[i])
  {
    FirstPartPrefix(s);
    NoControlHead(s, Split(s)[0]);
    if s != "" {
      NoControlTail(s);
      NoControlParts(s[1..]);
    }
  }

  /** The bytes of a rune stay together when a path is split. */
  lemma {:induction false} SplitHead(s: string, n: nat)
    requires n <= |s| && forall i :: 0 <= i < n ==> s[i] != '/'
    ensures Split(s) == [s[..n] + Split(s[n..])[0]] + Split(s[n..])[1..]
    decreases n
  {
    var t := s[n..];
    if n == 0 {
      assert t == s && s[..0] + Split(s)[0] == Split(s)[0];
    } else {
      var c, y := s[0], s[1..];
      SplitHead(y, n - 1);
      assert y[n - 1..] == t && s == [c] + y;
      assert s[..n] == [c] + y[..n - 1];
      PartPrepend(c, y, y[..n - 1], t);
    }
  }

  lemma {:induction false} PartPrepend(c: char, y: string, head: string, t: string)
    requires c != '/' && Split(y) == [head + Split(t)[0]] + Split(t)[1..]
    ensures Split([c] + y) == [([c] + head) + Split(t)[0]] + Split(t)[1..]
  {
    SplitCons(c, y);
    assert [c] + (head + Split(t)[0]) == ([c] + head) + Split(t)[0];
  }

  lemma {:induction false} RuneAlone(s: string, n: nat)
    requires s != "" && n == RuneLength(s) && n > 0
    ensures ValidUtf8(s[..n])
    ensures s[0] != '/' ==> forall i :: 0 <= i < n ==> s[i] != '/'
  {
    assert RuneLength(s[..n]) == n;
    assert s[..n][n..] == "";
  }

  lemma {:induction false} ValidParts(s: string)
    requires ValidUtf8(s)
    ensures forall i :: 0 <= i < |Split(s)| ==> ValidUtf8(Split(s)[i])
    decreases |s|
  {
    if s != "" {
      var n := RuneLength(s);
      ValidParts(s[n..]);
      RuneAlone(s, n);
      if s[0] != '/' {
        SplitHead(s, n);
        ValidConcat(s[..n], Split(s[n..])[0]);
      }
    }
  }

  ghost predicate AllGood(comps: seq<string>) {
    forall i :: 0 <= i < |comps| ==> GoodText(comps[i])
  }

  lemma {:induction false} ResolveGood(parts: seq<string>)
    requires AllGood(parts)
    ensures AllGood(Resolve(parts))
  {
    if parts != [] { ResolveGood(parts[..|parts| - 1]); }
  }

  lemma {:induction false} GoodJoin(c: string, rest: string)
    requires GoodText(c) && GoodText(rest) && (rest != "" ==> rest[0] == '/')
    ensures GoodText("/" + c + rest)
  {
    AsciiValid("/");
    ValidConcat("/", c);
    ValidConcat("/" + c, rest);
    var s := "/" + c + rest;
    forall i | 0 <= i < |s| ensures !ControlAt(s, i) {
      if 0 < i <= |c| { assert !ControlAt(c, i - 1); }
      if i > |c| { assert !ControlAt(rest, i - 1 - |c|); }
    }
  }

  lemma {:induction false} GoodPath(comps: seq<string>)
    requires AllGood(comps)
    ensures GoodText(Path(comps)) && (comps != [] ==> Path(comps)[0] == '/')
  {
    if comps != [] {
      GoodPath(comps[1..]);
      GoodJoin(comps[0], Path(comps[1..]));
    }
  }

  // ---------------------------------------------------------------- normalizing

  predicate Fits(path: string) {
    && |path| <= MAX_PATH
    && forall c | c in Split(if "/" <= path then path[1..] else path) :: |c| <= MAX_COMPONENT
  }

  /** What an acceptable request is cleaned and rebased to. */
  function Rebased(clean: string): string {
    if UPLOADS_ROOT + "/" <= clean then clean else Clean(UPLOADS_ROOT + "/" + if "/" <= clean then clean[1..]
        else clean)
  }

  /** NormalizeSessionFileMountPath: the accepted mount path, or nothing. */
  function Normalize(fileId: string, requested: Option<string>): Option<string> {
    if fileId == "" || !GoodText(fileId) || '/' in fileId then None
    else if requested.None? then
      var path := Clean(UPLOADS_ROOT + "/" + fileId);
      if !(UPLOADS_ROOT + "/" <= path) || !Fits(path) then None else Some(path)
    else
      var raw := requested.value;
      if raw == "" || raw[0] != '/' || !GoodText(raw) || ".." in Split(raw) then None
      else
        var clean := Clean(raw);
        if clean == "/" || clean == UPLOADS_ROOT then None
        else
          var path := Rebased(clean);
          if Fits(path) then Some(path) else None
  }

  lemma {:induction false} PathCons(c: string, rest: seq<string>, tail: string)
    requires Path(rest) == tail
    ensures Path([c] + rest) == "/" + c + tail
  {
    assert ([c] + rest)[1..] == rest;
  }

  lemma UploadsNames()
    ensures AllNames(UPLOADS) && UPLOADS == ["mnt"] + (["session"] + (["uploads"] + []))
  {
  }

  lemma {:induction false} UploadsPath()
    ensures Path(UPLOADS) == UPLOADS_ROOT && AllNames(UPLOADS)
  {
    UploadsNames();
    PathCons("uploads", [], "");
    PathCons("session", ["uploads"] + [], "/" + "uploads" + "");
    PathCons("mnt", ["session"] + (["uploads"] + []), "/" + "session" + ("/" + "uploads" + ""));
  }

  /** Components strictly below the uploads root, each a good name of at most 255 bytes. */
  ghost predicate IsMount(comps: seq<string>) {
    && |comps| > 3 && comps[..3] == UPLOADS
    && AllNames(comps) && AllGood(comps)
    && (forall i :: 0 <= i < |comps| ==> |comps[i]| <= MAX_COMPONENT)
    && |Path(comps)| <= MAX_PATH
  }

  predicate Printable(s: string) {
    forall c | c in s :: 0x20 <= Byte(c) < 0x7F
  }

  lemma {:induction false} PrintableGood(s: string)
    requires Printable(s)
    ensures GoodText(s)
  {
    AsciiValid(s);
    forall i | 0 <= i < |s| ensures !ControlAt(s, i) { assert s[i] in s; }
  }

  lemma {:induction false} UploadsPrintable()
    ensures Printable("mnt") && Printable("session") && Printable("uploads")
  {
  }

  lemma {:induction false} UploadsGood()
    ensures AllGood(UPLOADS)
  {
    UploadsPrintable();
    PrintableGood("mnt");
    PrintableGood("session");
    PrintableGood("uploads");
    AllOfThree("mnt", "session", "uploads");
  }

  lemma {:induction false} AllOfThree(a: string, b: string, c: string)
    requires GoodText(a) && GoodText(b) && GoodText(c)
    ensures AllGood([a, b, c])
  {
    forall i | 0 <= i < 3 ensures GoodText([a, b, c][i]) {
      assert [a, b, c][i] == a || [a, b, c][i] == b || [a, b, c][i] == c;
    }
  }

  /** The components of a good rooted path after cleaning. */
  lemma {:induction false} CleanComponents(s: string) returns (comps: seq<string>)
    requires GoodText(s)
    ensures comps == Resolve(Split(s)) && AllNames(comps) && AllGood(comps)
    ensures Clean(s) == if comps == [] then "/" else Path(comps)
  {
    comps := Resolve(Split(s));
    SplitNoSlash(s);
    ResolveNames(Split(s));
    ValidParts(s);
    NoControlParts(s);
    ResolveGood(Split(s));
  }

  lemma {:induction false} FitsIs(comps: seq<string>)
    requires AllNames(comps) && comps != []
    ensures Fits(Path(comps)) <==> |Path(comps)| <= MAX_PATH && forall i :: 0 <= i < |comps| ==>
        |comps[i]| <= MAX_COMPONENT
  {
    var tail := Path(comps)[1..];
    assert Path(comps) == "" + "/" + tail;
    SplitAtSlash("", tail);
    SplitPath(comps);
    Tail(Split(tail), comps);
    assert "/" <= Path(comps);
  }

  lemma {:induction false} MountBelowRoot(comps: seq<string>)
    requires AllNames(comps)
    ensures UPLOADS_ROOT + "/" <= Path(comps) <==> |comps| > 3 && comps[..3] == UPLOADS
  {
    UploadsPath();
    BelowIsExtension(UPLOADS, comps);
  }

  lemma {:induction false} GoodUnder(root: string, fileId: string)
    requires GoodText(root) && GoodText(fileId)
    ensures GoodText(root + "/" + fileId)
  {
    var tail := "/" + fileId;
    GoodJoin(fileId, "");
    assert tail + "" == tail;
    ValidConcat(root, tail);
    GoodAppend(root, tail);
    assert root + "/" + fileId == root + tail;
  }

  lemma {:induction false} RootGood()
    ensures GoodText(UPLOADS_ROOT)
  {
    UploadsPath();
    UploadsGood();
    GoodPath(UPLOADS);
  }

  lemma {:induction false} GoodUnderRoot(fileId: string)
    requires GoodText(fileId)
    ensures GoodText(UPLOADS_ROOT + "/" + fileId)
  {
    RootGood();
    GoodUnder(UPLOADS_ROOT, fileId);
  }

  lemma {:induction false} GoodAppend(a: string, b: string)
    requires NoControl(a) && NoControl(b) && b != "" && b[0] == '/'
    ensures NoControl(a + b)
  {
    var s := a + b;
    forall i | 0 <= i < |s| ensures !ControlAt(s, i) {
      if i < |a| { assert !ControlAt(a, i); } else { assert !ControlAt(b, i - |a|); }
    }
  }

  lemma {:induction false} DefaultMount(fileId: string) returns (comps: seq<string>)
    requires Normalize(fileId, None).Some?
    ensures IsMount(comps) && Normalize(fileId, None) == Some(Path(comps))
  {
    GoodUnderRoot(fileId);
    comps := CleanComponents(UPLOADS_ROOT + "/" + fileId);
    assert comps != [];
    MountBelowRoot(comps);
    FitsIs(comps);
  }

  /** A path outside the uploads root is mounted below it. */
  lemma {:induction false} RebasedPath(comps: seq<string>)
    requires AllNames(comps) && comps != []
    ensures "/" <= Path(comps)
    ensures Clean(UPLOADS_ROOT + "/" + Path(comps)[1..]) == Path(UPLOADS + comps)
  {
    UploadsPath();
    PathConcat(UPLOADS, comps);
    assert Path(comps)[0] == '/';
    assert UPLOADS_ROOT + "/" + Path(comps)[1..] == UPLOADS_ROOT + Path(comps);
    CleanPath(UPLOADS + comps);
  }

  lemma {:induction false} RebasedOutside(comps: seq<string>)
    requires AllNames(comps) && AllGood(comps) && comps != [] && !(UPLOADS_ROOT + "/" <= Path(comps))
    ensures Rebased(Path(comps)) == Path(UPLOADS + comps)
    ensures AllNames(UPLOADS + comps) && AllGood(UPLOADS + comps)
  {
    RebasedPath(comps);
    UploadsPath();
    UploadsGood();
  }

  lemma {:induction false} RequestedPath(comps: seq<string>) returns (mount: seq<string>)
    requires AllNames(comps) && AllGood(comps) && comps != []
    ensures AllNames(mount) && AllGood(mount) && |mount| > 3 && mount[..3] == UPLOADS
    ensures Path(mount) == Rebased(Path(comps))
  {
    if UPLOADS_ROOT + "/" <= Path(comps) {
      MountBelowRoot(comps);
      mount := comps;
    } else {
      RebasedOutside(comps);
      mount := UPLOADS + comps;
    }
  }

  lemma {:induction false} RequestedMount(fileId: string, raw: string) returns (mount: seq<string>)
    requires Normalize(fileId, Some(raw)).Some?
    ensures IsMount(mount) && Normalize(fileId, Some(raw)) == Some(Path(mount))
  {
    var comps := CleanComponents(raw);
    mount := RequestedPath(comps);
    FitsIs(mount);
  }

  /** Every accepted mount path is clean and strictly below the uploads root. */
  lemma {:induction false} AcceptedIsMount(fileId: string, requested: Option<string>) returns (comps: seq<string>)
    requires Normalize(fileId, requested).Some?
    ensures IsMount(comps) && Normalize(fileId, requested) == Some(Path(comps))
    ensures Clean(Path(comps)) == Path(comps)
  {
    match requested {
      case None => comps := DefaultMount(fileId);
      case Some(raw) => comps := RequestedMount(fileId, raw);
    }
    CleanPath(comps);
  }

  /** A mount path passes the checks on a request. */
  lemma {:induction false} MountIsRequest(comps: seq<string>)
    requires IsMount(comps)
    ensures var raw := Path(comps); raw != "" && raw[0] == '/' && GoodText(raw) && ".." !in Split(raw)
  {
    GoodPath(comps);
    SplitPath(comps);
    forall i | 0 <= i < |[""] + comps| ensures ([""] + comps)[i] != ".." {
      if i > 0 { assert IsName(comps[i - 1]); }
    }
  }

  lemma {:induction false} MountNotRoot(comps: seq<string>)
    requires IsMount(comps)
    ensures Path(comps) != "/" && Path(comps) != UPLOADS_ROOT
    ensures UPLOADS_ROOT + "/" <= Path(comps) && Fits(Path(comps)) && Clean(Path(comps)) == Path(comps)
  {
    CleanPath(comps);
    MountBelowRoot(comps);
    FitsIs(comps);
  }

  lemma {:induction false} MountIsFixed(fileId: string, comps: seq<string>)
    requires fileId != "" && GoodText(fileId) && '/' !in fileId && IsMount(comps)
    ensures Normalize(fileId, Some(Path(comps))) == Some(Path(comps))
  {
    MountIsRequest(comps);
    MountNotRoot(comps);
  }

  /** The accepted paths are exactly the fixed points of the function. */
  lemma {:induction false} AcceptedIsFixed(fileId: string, requested: Option<string>)
    requires Normalize(fileId, requested).Some?
    ensures Normalize(fileId, Normalize(fileId, requested)) == Normalize(fileId, requested)
  {
    var comps := AcceptedIsMount(fileId, requested);
    MountIsFixed(fileId, comps);
  }

  // ---------------------------------------------------------------- conflicts

  predicate Conflict(left: string, right: string) {
    var l, r := Clean(left), Clean(right);
    l == r || r + "/" <= l || l + "/" <= r
  }

  predicate Comparable(a: seq<string>, b: seq<string>) {
    a <= b || b <= a
  }

  /** On mount paths the conflict test is exactly "one component list is a prefix of the other". */
  lemma {:induction false} ConflictIsPrefix(a: seq<string>, b: seq<string>)
    requires AllNames(a) && AllNames(b) && a != [] && b != []
    ensures Conflict(Path(a), Path(b)) <==> Comparable(a, b)
  {
    CleanPath(a);
    CleanPath(b);
    BelowIsExtension(a, b);
    BelowIsExtension(b, a);
    if Path(a) == Path(b) { PathInjective(a, b); }
    PrefixIs(a, b);
    PrefixIs(b, a);
  }

  lemma PrefixIs(a: seq<string>, b: seq<string>)
    ensures a <= b <==> a == b || (|a| < |b| && b[..|a|] == a)
  {
  }

  datatype Input = Input(fileId: string, requested: Option<string>)

  type Test = (string, string) -> bool

  predicate Clashes(paths: seq<string>, path: string, conflict: Test) {
    exists p | p in paths :: conflict(p, path)
  }

  /** A path is tested against those accepted before it and those already mounted. */
  predicate Clear(paths: seq<string>, existing: seq<string>, i: nat, conflict: Test) {
    i < |paths| ==> !Clashes(paths[..i], paths[i], conflict) && !Clashes(existing, paths[i], conflict)
  }

  function NormalizeInput(input: Input): Option<string> {
    Normalize(input.fileId, input.requested)
  }

  /** The mount-path loops of PrepareForSession over the active resources of a session: either
      every path is accepted and none conflicts, or the first input that fails says why. */
  method PrepareMounts(inputs: seq<Input>, existing: seq<string>) returns (paths: seq<string>, failed: Option<nat>)
    ensures failed.None? ==>
      && |paths| == |inputs|
      && (forall i :: 0 <= i < |inputs| ==> NormalizeInput(inputs[i]) == Some(paths[i]))
      && (forall i: nat :: Clear(paths, existing, i, Conflict))
    ensures failed.Some? ==>
      && failed.value < |inputs| && |paths| == failed.value
      && var mount := NormalizeInput(inputs[failed.value]);
         mount.None? || Clashes(paths, mount.value, Conflict) || Clashes(existing, mount.value, Conflict)
  {
    paths, failed := PrepareWith(inputs, existing, NormalizeInput, Conflict);
  }

  method PrepareWith(inputs: seq<Input>, existing: seq<string>, normalize: Input -> Option<string>, conflict: Test)
    returns (paths: seq<string>, failed: Option<nat>)
    ensures failed.None? ==>
      && |paths| == |inputs|
      && (forall i :: 0 <= i < |inputs| ==> normalize(inputs[i]) == Some(paths[i]))
      && (forall i: nat :: Clear(paths, existing, i, conflict))
    ensures failed.Some? ==>
      && failed.value < |inputs| && |paths| == failed.value
      && var mount := normalize(inputs[failed.value]);
         mount.None? || Clashes(paths, mount.value, conflict) || Clashes(existing, mount.value, conflict)
  {
    paths, failed := [], None;
    for index := 0 to |inputs|
      invariant |paths| == index && failed.None?
      invariant forall i :: 0 <= i < index ==> normalize(inputs[i]) == Some(paths[i])
      invariant forall i: nat :: Clear(paths, existing, i, conflict)
    {
      var mount := normalize(inputs[index]);
      if mount.None? { return paths, Some(index); }
      var clash := AnyClash(paths, mount.value, conflict);
      if clash { return paths, Some(index); }
      clash := AnyClash(existing, mount.value, conflict);
      if clash { return paths, Some(index); }
      ghost var before := paths;
      paths := paths + [mount.value];
      ClearSnoc(before, mount.value, existing, conflict);
    }
  }

  lemma {:induction false} ClearSnoc(paths: seq<string>, path: string, existing: seq<string>, conflict: Test)
    requires forall i: nat :: Clear(paths, existing, i, conflict)
    requires !Clashes(paths, path, conflict) && !Clashes(existing, path, conflict)
    ensures forall i: nat :: Clear(paths + [path], existing, i, conflict)
  {
    var grown := paths + [path];
    forall i: nat ensures Clear(grown, existing, i, conflict) {
      assert Clear(paths, existing, i, conflict);
      if i < |paths| { assert grown[..i] == paths[..i]; }
      if i == |paths| { assert grown[..i] == paths; }
    }
  }

  method AnyClash(paths: seq<string>, path: string, conflict: Test) returns (clash: bool)
    ensures clash <==> Clashes(paths, path, conflict)
  {
    for j := 0 to |paths|
      invariant !Clashes(paths[..j], path, conflict)
    {
      if conflict(paths[j], path) {
        assert paths[j] in paths;
        return true;
      }
      assert paths[..j + 1] == paths[..j] + [paths[j]];
    }
    assert paths[..|paths|] == paths;
    return false;
  }

  // ---------------------------------------------------------------- the byte budget

  function Sum(sizes: seq<nat>): nat {
    if sizes == [] then 0 else Sum(sizes[..|sizes| - 1]) + sizes[|sizes| - 1]
  }

  lemma {:induction false} SumGrows(sizes: seq<nat>, k: nat)
    requires k <= |sizes|
    ensures Sum(sizes[..k]) <= Sum(sizes)
    decreases |sizes|
  {
    if k < |sizes| {
      SumGrows(sizes[..|sizes| - 1], k);
      assert sizes[..|sizes| - 1][..k] == sizes[..k];
    } else {
      assert sizes[..k] == sizes;
    }
  }

  /** The aggregate limit, tested without ever adding past it. */
  method AdmitBytes(active: nat, sizes: seq<nat>) returns (ok: bool, total: nat)
    requires sizes != []
    ensures ok <==> active + Sum(sizes) <= 524_288_000
    ensures ok ==> total == active + Sum(sizes)
  {
    total := active;
    for i := 0 to |sizes|
      invariant total == active + Sum(sizes[..i]) && (i > 0 ==> total <= MAX_TOTAL_BYTES)
    {
      assert sizes[..i + 1][..i] == sizes[..i];
      if sizes[i] > MAX_TOTAL_BYTES - total {
        SumGrows(sizes, i + 1);
        return false, total;
      }
      total := total + sizes[i];
    }
    assert sizes[..|sizes|] == sizes;
    ok := true;
  }

  // ---------------------------------------------------------------- the mounted tree

  datatype Node = Directory | File(id: string)

  type Tree = map<seq<string>, Node>

  datatype Mount = Mount(path: seq<string>, id: string)

  predicate FileInTheWay(t: Tree, path: seq<string>) {
    path in t || exists k | 0 <= k < |path| :: path[..k] in t && t[path[..k]].File?
  }

  function Parents(path: seq<string>): set<seq<string>> {
    set k | 0 <= k < |path| :: path[..k]
  }

  /** Creates the parent directories and the file, unless something is in the way. */
  function MountFile(t: Tree, m: Mount): Option<Tree> {
    if FileInTheWay(t, m.path) then None
    else
      var made := map p | p in t.Keys + Parents(m.path) :: if p in Parents(m.path) then Directory else t[p];
      Some(made[m.path := File(m.id)])
  }

  function MountAll(ms: seq<Mount>): Option<Tree> {
    if ms == [] then Some(map[])
    else
      var t := MountAll(ms[..|ms| - 1]);
      if t.Some? then MountFile(t.value, ms[|ms| - 1]) else None
  }

  ghost predicate Separate(ms: seq<Mount>, i: nat, j: nat) {
    i < j < |ms| ==> !Comparable(ms[i].path, ms[j].path)
  }

  ghost predicate Antichain(ms: seq<Mount>) {
    forall i: nat, j: nat :: Separate(ms, i, j)
  }

  ghost predicate Covered(ms: seq<Mount>, p: seq<string>) {
    exists m | m in ms :: p <= m.path
  }

  /** The tree of a set of mounts has their files, and every directory above one. */
  ghost predicate NodeOf(t: Tree, ms: seq<Mount>, p: seq<string>) {
    && (p in t <==> Covered(ms, p))
    && (p in t ==> if t[p].File? then Mount(p, t[p].id) in ms else forall m | m in ms :: m.path != p)
  }

  ghost predicate IsTreeOf(t: Tree, ms: seq<Mount>) {
    forall p :: NodeOf(t, ms, p)
  }

  lemma {:induction false} OnePerPath(ms: seq<Mount>, p: seq<string>, a: string, b: string)
    requires Antichain(ms) && Mount(p, a) in ms && Mount(p, b) in ms
    ensures a == b
  {
    var i :| 0 <= i < |ms| && ms[i] == Mount(p, a);
    var j :| 0 <= j < |ms| && ms[j] == Mount(p, b);
    assert Separate(ms, i, j) && Separate(ms, j, i);
  }

  lemma {:induction false} SameNode(t: Tree, u: Tree, ms: seq<Mount>, ns: seq<Mount>, p: seq<string>)
    requires NodeOf(t, ms, p) && NodeOf(u, ns, p) && Antichain(ms) && forall m :: m in ms <==> m in ns
    ensures (p in t <==> p in u) && (p in t ==> t[p] == u[p])
  {
    if p in t && t[p].File? {
      assert Mount(p, t[p].id) in ns;
      if p in u && u[p].File? { OnePerPath(ms, p, t[p].id, u[p].id); }
    }
    if p in u && u[p].File? { assert Mount(p, u[p].id) in ms; }
  }

  lemma {:induction false} TreeUnique(t: Tree, u: Tree, ms: seq<Mount>, ns: seq<Mount>)
    requires IsTreeOf(t, ms) && IsTreeOf(u, ns) && Antichain(ms) && forall m :: m in ms <==> m in ns
    ensures t == u
  {
    forall p ensures (p in t <==> p in u) && (p in t ==> t[p] == u[p]) {
      assert NodeOf(t, ms, p) && NodeOf(u, ns, p);
      SameNode(t, u, ms, ns, p);
    }
  }

  lemma {:induction false} ParentIsPrefix(path: seq<string>, p: seq<string>)
    ensures p in Parents(path) <==> p <= path && p != path
  {
    if p <= path && p != path { assert p == path[..|p|]; }
  }

  lemma {:induction false} MountedInTheWay(t: Tree, ms: seq<Mount>, m: Mount, path: seq<string>)
    requires IsTreeOf(t, ms) && m in ms && Comparable(m.path, path)
    ensures FileInTheWay(t, path)
  {
    assert NodeOf(t, ms, path) && NodeOf(t, ms, m.path);
    if path <= m.path {
      assert Covered(ms, path);
    } else {
      assert m.path <= m.path && Covered(ms, m.path);
      assert path[..|m.path|] == m.path && t[m.path].File?;
    }
  }

  /** In the tree of some mounts, a new mount is blocked exactly by a comparable one. */
  lemma {:induction false} BlockedIfComparable(t: Tree, ms: seq<Mount>, path: seq<string>)
    requires IsTreeOf(t, ms)
    ensures FileInTheWay(t, path) <==> exists m :: m in ms && Comparable(m.path, path)
  {
    if FileInTheWay(t, path) {
      if path in t {
        assert NodeOf(t, ms, path);
        var m :| m in ms && path <= m.path;
        assert Comparable(m.path, path);
      } else {
        var k :| 0 <= k < |path| && path[..k] in t && t[path[..k]].File?;
        var q := path[..k];
        assert NodeOf(t, ms, q);
        assert Comparable(Mount(q, t[q].id).path, path);
      }
    }
    if exists m :: m in ms && Comparable(m.path, path) {
      var m :| m in ms && Comparable(m.path, path);
      MountedInTheWay(t, ms, m, path);
    }
  }

  lemma {:induction false} CoveredSnoc(ms: seq<Mount>, m: Mount, p: seq<string>)
    ensures Covered(ms + [m], p) <==> Covered(ms, p) || p <= m.path
  {
    assert m in ms + [m];
  }

  lemma {:induction false} MountedNode(t: Tree, ms: seq<Mount>, m: Mount, p: seq<string>)
    requires NodeOf(t, ms, p) && !FileInTheWay(t, m.path) && forall x | x in ms :: !Comparable(x.path, m.path)
    ensures NodeOf(MountFile(t, m).value, ms + [m], p)
  {
    ParentIsPrefix(m.path, p);
    CoveredSnoc(ms, m, p);
    var u, all := MountFile(t, m).value, ms + [m];
    assert forall x :: x in all <==> x in ms || x == m;
    assert p in u <==> p in t || p <= m.path;
    if p == m.path {
      assert u[p] == File(m.id) && Mount(p, m.id) == m;
    } else if p in Parents(m.path) {
      assert u[p] == Directory;
      forall x | x in all ensures x.path != p { if x in ms { assert !Comparable(x.path, m.path); } }
    } else if p in t {
      assert u[p] == t[p];
    }
  }

  lemma {:induction false} MountedTree(t: Tree, ms: seq<Mount>, m: Mount)
    requires IsTreeOf(t, ms) && forall x | x in ms :: !Comparable(x.path, m.path)
    ensures MountFile(t, m).Some? && IsTreeOf(MountFile(t, m).value, ms + [m])
  {
    BlockedIfComparable(t, ms, m.path);
    forall p ensures NodeOf(MountFile(t, m).value, ms + [m], p) {
      assert NodeOf(t, ms, p);
      MountedNode(t, ms, m, p);
    }
  }

  lemma {:induction false} AntichainSnoc(init: seq<Mount>, m: Mount)
    ensures Antichain(init + [m]) <==> Antichain(init) && forall x | x in init :: !Comparable(x.path, m.path)
  {
    var ms, n := init + [m], |init|;
    if Antichain(ms) {
      forall i: nat, j: nat ensures Separate(init, i, j) { assert Separate(ms, i, j); }
      forall x | x in init ensures !Comparable(x.path, m.path) {
        var i :| 0 <= i < n && init[i] == x;
        assert Separate(ms, i, n);
      }
    }
    if Antichain(init) && forall x | x in init :: !Comparable(x.path, m.path) {
      forall i: nat, j: nat ensures Separate(ms, i, j) {
        assert Separate(init, i, j);
        if i < j == n { assert init[i] in init; }
      }
    }
  }

  lemma {:induction false} EmptyTree()
    ensures Antichain([]) && IsTreeOf(map[], [])
  {
  }

  /** Mounting a list of files succeeds exactly when no mount path is a prefix of another, and
      then gives the tree of the set of mounts. */
  lemma {:induction false} MountsSucceed(ms: seq<Mount>)
    ensures MountAll(ms).Some? <==> Antichain(ms)
    ensures MountAll(ms).Some? ==> IsTreeOf(MountAll(ms).value, ms)
  {
    if ms == [] {
      EmptyTree();
    } else {
      var n, m := |ms| - 1, ms[|ms| - 1];
      assert ms == ms[..n] + [m];
      MountsSucceed(ms[..n]);
      AntichainSnoc(ms[..n], m);
      if MountAll(ms[..n]).Some? { NextMount(MountAll(ms[..n]).value, ms[..n], m); }
    }
  }

  lemma {:induction false} NextMount(t: Tree, init: seq<Mount>, m: Mount)
    requires IsTreeOf(t, init)
    ensures MountFile(t, m).Some? <==> forall x | x in init :: !Comparable(x.path, m.path)
    ensures MountFile(t, m).Some? ==> IsTreeOf(MountFile(t, m).value, init + [m])
  {
    BlockedIfComparable(t, init, m.path);
    if forall x | x in init :: !Comparable(x.path, m.path) { MountedTree(t, init, m); }
  }

  /** Accepted mounts may be materialized in any order: the tree is the same. */
  lemma {:induction false} OrderIrrelevant(ms: seq<Mount>, ns: seq<Mount>)
    requires Antichain(ms) && multiset(ms) == multiset(ns)
    ensures MountAll(ns).Some? && MountAll(ns) == MountAll(ms)
  {
    MountsSucceed(ms);
    MountsSucceed(ns);
    PermutedAntichain(ms, ns);
    SameMembers(ms, ns);
    TreeUnique(MountAll(ms).value, MountAll(ns).value, ms, ns);
  }

  lemma SameMembers(ms: seq<Mount>, ns: seq<Mount>)
    requires multiset(ms) == multiset(ns)
    ensures forall m :: m in ms <==> m in ns
  {
    forall m ensures m in ms <==> m in ns { assert m in multiset(ms) <==> m in multiset(ns); }
  }

  lemma {:induction false} PermutedAntichain(ms: seq<Mount>, ns: seq<Mount>)
    requires Antichain(ms) && multiset(ms) == multiset(ns)
    ensures Antichain(ns)
  {
    forall i: nat, j: nat ensures Separate(ns, i, j) {
      if i < j < |ns| { DistinctSeparate(ms, ns, i, j); }
    }
  }

  lemma {:induction false} DistinctSeparate(ms: seq<Mount>, ns: seq<Mount>, i: nat, j: nat)
    requires Antichain(ms) && multiset(ms) == multiset(ns) && i < j < |ns|
    ensures !Comparable(ns[i].path, ns[j].path)
  {
    var x, y := ns[i], ns[j];
    assert ns == (ns[..i] + [x]) + (ns[i + 1..j] + [y] + ns[j + 1..]);
    assert x in multiset(ns) && y in multiset(ns);
    assert multiset(ns)[x] >= if x == y then 2 else 1;
    var a :| 0 <= a < |ms| && ms[a] == x;
    if x == y {
      SecondOccurrence(ms, a);
    } else {
      var b :| 0 <= b < |ms| && ms[b] == y;
      assert Separate(ms, a, b) && Separate(ms, b, a);
    }
  }

  lemma {:induction false} SecondOccurrence(ms: seq<Mount>, a: nat)
    requires Antichain(ms) && a < |ms|
    ensures multiset(ms)[ms[a]] == 1
  {
    assert ms == ms[..a] + [ms[a]] + ms[a + 1..];
    forall k | 0 <= k < |ms| && k != a ensures ms[k] != ms[a] {
      assert Separate(ms, a, k) && Separate(ms, k, a);
    }
    assert ms[a] !in ms[..a] && ms[a] !in ms[a + 1..];
  }

  ghost predicate IsAt(path: string, m: Mount) {
    AllNames(m.path) && m.path != [] && path == Path(m.path)
  }

  /** The mounts of a list of canonical paths. */
  ghost predicate MountedOn(paths: seq<string>, ms: seq<Mount>) {
    |ms| == |paths| && forall i :: 0 <= i < |ms| ==> IsAt(paths[i], ms[i])
  }

  /** A test decides comparability of two lists of mounts. */
  ghost predicate Decides(conflict: Test, paths: seq<string>, ms: seq<Mount>, others: seq<string>, ns: seq<Mount>) {
    && |paths| == |ms| && |others| == |ns|
    && forall i, j :: 0 <= i < |ms| && 0 <= j < |ns| ==>
        (conflict(paths[i], others[j]) <==> Comparable(ms[i].path, ns[j].path))
  }

  lemma {:induction false} ConflictDecides(paths: seq<string>, ms: seq<Mount>, others: seq<string>, ns: seq<Mount>)
    requires MountedOn(paths, ms) && MountedOn(others, ns)
    ensures Decides(Conflict, paths, ms, others, ns)
  {
    forall i, j | 0 <= i < |ms| && 0 <= j < |ns| ensures Conflict(paths[i], others[j]) <==>
        Comparable(ms[i].path, ns[j].path) {
      ConflictIsPrefix(ms[i].path, ns[j].path);
    }
  }

  lemma {:induction false} ClashIsComparable(paths: seq<string>, ms: seq<Mount>, k: nat, others: seq<string>,
      ns: seq<Mount>, j: nat, conflict: Test)
    requires Decides(conflict, paths, ms, others, ns) && k <= |ms| && j < |ns|
    ensures Clashes(paths[..k], others[j], conflict) <==> exists x | x in ms[..k] :: Comparable(x.path, ns[j].path)
  {
    if Clashes(paths[..k], others[j], conflict) {
      var p :| p in paths[..k] && conflict(p, others[j]);
      var i :| 0 <= i < k && paths[i] == p;
      assert ms[..k][i] == ms[i];
      assert ms[i] in ms[..k] && Comparable(ms[i].path, ns[j].path);
    }
    if exists x | x in ms[..k] :: Comparable(x.path, ns[j].path) {
      var x :| x in ms[..k] && Comparable(x.path, ns[j].path);
      var i :| 0 <= i < k && ms[i] == x;
      assert paths[..k][i] == paths[i];
      assert paths[i] in paths[..k];
    }
  }

  /** Testing a further path against those mounted and those accepted so far keeps them apart. */
  lemma {:induction false} ClearIsApart(existing: seq<string>, mounted: seq<Mount>, paths: seq<string>, ms: seq<Mount>,
      i: nat, conflict: Test)
    requires Decides(conflict, existing, mounted, paths, ms) && Decides(conflict, paths, ms, paths, ms) && i < |ms|
    requires Antichain(mounted + ms[..i])
    ensures Clear(paths, existing, i, conflict) <==> Antichain(mounted + ms[..i + 1])
  {
    ClashIsComparable(existing, mounted, |mounted|, paths, ms, i, conflict);
    ClashIsComparable(paths, ms, i, paths, ms, i, conflict);
    assert existing[..|mounted|] == existing && mounted[..|mounted|] == mounted;
    AntichainSnoc(mounted + ms[..i], ms[i]);
    assert mounted + ms[..i + 1] == (mounted + ms[..i]) + [ms[i]];
  }

  lemma {:induction false} AntichainPrefix(ms: seq<Mount>, n: nat)
    requires Antichain(ms) && n <= |ms|
    ensures Antichain(ms[..n])
  {
    forall i: nat, j: nat ensures Separate(ms[..n], i, j) { assert Separate(ms, i, j); }
  }

  ghost predicate AllClear(paths: seq<string>, existing: seq<string>, n: nat, conflict: Test) {
    forall i: nat | i < n :: Clear(paths, existing, i, conflict)
  }

  lemma {:induction false} AcceptedApart(existing: seq<string>, mounted: seq<Mount>, paths: seq<string>, ms: seq<Mount>,
      n: nat, conflict: Test)
    requires Decides(conflict, existing, mounted, paths, ms) && Decides(conflict, paths, ms, paths, ms)
    requires Antichain(mounted) && n <= |ms|
    ensures AllClear(paths, existing, n, conflict) <==> Antichain(mounted + ms[..n])
  {
    if n == 0 {
      assert mounted + ms[..0] == mounted;
    } else {
      AcceptedApart(existing, mounted, paths, ms, n - 1, conflict);
      assert (mounted + ms[..n])[..|mounted| + n - 1] == mounted + ms[..n - 1];
      if Antichain(mounted + ms[..n]) { AntichainPrefix(mounted + ms[..n], |mounted| + n - 1); }
      if Antichain(mounted + ms[..n - 1]) { ClearIsApart(existing, mounted, paths, ms, n - 1, conflict); }
    }
  }

  /** Over mounts that are already apart, the loops accept a list exactly when all of them
      together are. */
  lemma {:induction false} AcceptedMounts(existing: seq<string>, mounted: seq<Mount>, paths: seq<string>,
      ms: seq<Mount>)
    requires MountedOn(existing, mounted) && MountedOn(paths, ms) && Antichain(mounted)
    ensures AllClear(paths, existing, |paths|, Conflict) <==> Antichain(mounted + ms)
  {
    ConflictDecides(existing, mounted, paths, ms);
    ConflictDecides(paths, ms, paths, ms);
    AcceptedApart(existing, mounted, paths, ms, |ms|, Conflict);
    assert ms[..|ms|] == ms;
  }

  lemma {:induction false} NormalizedMount(input: Input) returns (m: Mount)
    requires NormalizeInput(input).Some?
    ensures IsAt(NormalizeInput(input).value, m) && m.id == input.fileId
  {
    var comps := AcceptedIsMount(input.fileId, input.requested);
    m := Mount(comps, input.fileId);
  }

  lemma {:induction false} MountedSnoc(paths: seq<string>, ms: seq<Mount>, path: string, m: Mount)
    requires MountedOn(paths, ms) && IsAt(path, m)
    ensures MountedOn(paths + [path], ms + [m])
  {
    forall i | 0 <= i < |ms| + 1 ensures IsAt((paths + [path])[i], (ms + [m])[i]) {
      if i < |ms| { assert IsAt(paths[i], ms[i]); }
    }
  }

  lemma {:induction false} NormalizedMounts(inputs: seq<Input>, paths: seq<string>, n: nat) returns (ms: seq<Mount>)
    requires |paths| == |inputs| && n <= |paths|
    requires forall i :: 0 <= i < |inputs| ==> NormalizeInput(inputs[i]) == Some(paths[i])
    ensures MountedOn(paths[..n], ms)
  {
    if n == 0 { return []; }
    var init := NormalizedMounts(inputs, paths, n - 1);
    var m := NormalizedMount(inputs[n - 1]);
    MountedSnoc(paths[..n - 1], init, paths[n - 1], m);
    assert paths[..n] == paths[..n - 1] + [paths[n - 1]];
    ms := init + [m];
  }

  /** What PrepareForSession accepts can be mounted beside what the session has, in any order,
      to one tree. */
  lemma {:induction false} PreparedMounts(inputs: seq<Input>, existing: seq<string>, mounted: seq<Mount>,
      paths: seq<string>)
      returns (ms: seq<Mount>)
    requires MountedOn(existing, mounted) && Antichain(mounted)
    requires |paths| == |inputs| && forall i :: 0 <= i < |inputs| ==> NormalizeInput(inputs[i]) == Some(paths[i])
    requires forall i: nat :: Clear(paths, existing, i, Conflict)
    ensures MountedOn(paths, ms) && Antichain(mounted + ms) && MountAll(mounted + ms).Some?
    ensures forall ns | multiset(ns) == multiset(mounted + ms) :: MountAll(ns) == MountAll(mounted + ms)
  {
    ms := NormalizedMounts(inputs, paths, |paths|);
    assert paths[..|paths|] == paths;
    AcceptedMounts(existing, mounted, paths, ms);
    MountsSucceed(mounted + ms);
    forall ns | multiset(ns) == multiset(mounted + ms) ensures MountAll(ns) == MountAll(mounted + ms) {
      OrderIrrelevant(mounted + ms, ns);
    }
  }
}
