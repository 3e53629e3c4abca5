/** Where a Session file may be mounted, and where it then is
    (internal/domain/session_resource.go), with the root and the limits written out. */
module MountRules {
  import opened Conversation
  import opened Text
  import opened MountPaths

  /** Valid UTF-8 without control characters. */
  ghost predicate PlainText(s: string) {
    exists rs :: Encodes(s, rs) && AllPlain(rs)
  }

  predicate AllPlain(rs: seq<int>) {
    forall r | r in rs :: r >= 0x20 && !(0x7F <= r <= 0x9F)
  }

  lemma {:induction false} HeadControls(r: int, rest: string)
    requires Scalar(r)
    ensures (forall i :: 0 <= i < |Encoded(r)| ==> !ControlAt(Encoded(r) + rest, i)) <==> AllPlain([r])
  {
    var s := Encoded(r) + rest;
    forall i | 0 < i < |Encoded(r)| ensures !ControlAt(s, i) { assert Byte(s[i]) == Byte(Encoded(r)[i]); }
    assert s[0] == Encoded(r)[0] && r in [r];
    if 0x80 <= r < 0x800 {
      assert Byte(s[0]) == 0xC0 + r / 64 && Byte(s[1]) == Byte(Encoded(r)[1]) == 0x80 + r % 64;
    }
    assert ControlAt(s, 0) <==> !(r >= 0x20 && !(0x7F <= r <= 0x9F));
  }

  lemma {:induction false} TailControls(head: string, rest: string)
    ensures NoControl(head + rest) <==> NoControl(rest) && forall i :: 0 <= i < |head| ==> !ControlAt(head + rest, i)
  {
    var s := head + rest;
    forall i | 0 <= i < |rest| ensures ControlAt(s, |head| + i) <==> ControlAt(rest, i) { }
    if NoControl(s) {
      forall i | 0 <= i < |rest| ensures !ControlAt(rest, i) { assert !ControlAt(s, |head| + i); }
    }
    if NoControl(rest) {
      forall i | |head| <= i < |s| ensures !ControlAt(s, i) { assert !ControlAt(rest, i - |head|); }
    }
  }

  lemma {:induction false} PlainCons(r: int, rest: seq<int>)
    ensures AllPlain([r] + rest) <==> AllPlain([r]) && AllPlain(rest)
  {
    forall x ensures x in [r] + rest <==> x in [r] || x in rest { }
  }

  lemma {:induction false} EncodedControls(rs: seq<int>)
    requires forall r | r in rs :: Scalar(r)
    ensures NoControl(EncodedAll(rs)) <==> AllPlain(rs)
  {
    if rs != [] {
      EncodedControls(rs[1..]);
      HeadControls(rs[0], EncodedAll(rs[1..]));
      TailControls(Encoded(rs[0]), EncodedAll(rs[1..]));
      PlainCons(rs[0], rs[1..]);
      assert rs == [rs[0]] + rs[1..];
    }
  }

  lemma {:induction false} GoodExactly(s: string)
    ensures GoodText(s) <==> PlainText(s)
  {
    ValidExactly(s);
    if GoodText(s) {
      var rs :| Encodes(s, rs);
      EncodedControls(rs);
    }
    if PlainText(s) {
      var rs :| Encodes(s, rs) && AllPlain(rs);
      EncodedControls(rs);
    }
  }

  // ---------------------------------------------------------------- the components of a path

  /** The components that name something. */
  function Named(parts: seq<string>): seq<string> {
    if parts == [] then [] else (if parts[0] in {"", "."} then [] else [parts[0]]) + Named(parts[1..])
  }

  lemma {:induction false} NamedSnoc(parts: seq<string>, p: string)
    ensures Named(parts + [p]) == Named(parts) + if p in {"", "."} then [] else [p]
  {
    if parts == [] {
      assert [p][1..] == [];
    } else {
      assert (parts + [p])[1..] == parts[1..] + [p];
      NamedSnoc(parts[1..], p);
    }
  }

  lemma {:induction false} ResolveNamed(parts: seq<string>)
    requires ".." !in parts
    ensures Resolve(parts) == Named(parts)
  {
    if parts != [] {
      var before, p := parts[..|parts| - 1], parts[|parts| - 1];
      assert parts == before + [p];
      ResolveNamed(before);
      NamedSnoc(before, p);
    }
  }

  /** A path already below the uploads root stays where it is; any other is put below it. */
  function Placed(comps: seq<string>): seq<string> {
    if |comps| > 3 && comps[..3] == ["mnt", "session", "uploads"] then comps
    else ["mnt", "session", "uploads"] + comps
  }

  /** An absolute path of plain text that climbs nowhere and names something other than the
      root and the uploads root, short enough once placed. */
  ghost predicate Mountable(raw: string) {
    && raw != "" && raw[0] == '/' && PlainText(raw) && ".." !in Split(raw)
    && var comps := Named(Split(raw));
       && comps != [] && comps != ["mnt", "session", "uploads"]
       && (forall c | c in Placed(comps) :: |c| <= 255) && |Path(Placed(comps))| <= 1024
  }

  ghost predicate IsFileId(fileId: string) {
    fileId != "" && PlainText(fileId) && '/' !in fileId
  }

  lemma {:induction false} PlacedIs(comps: seq<string>) returns (mount: seq<string>)
    requires AllNames(comps) && AllGood(comps) && comps != []
    ensures mount == Placed(comps) && AllNames(mount) && mount != [] && Path(mount) == Rebased(Path(comps))
  {
    MountBelowRoot(comps);
    if UPLOADS_ROOT + "/" <= Path(comps) {
      mount := comps;
    } else {
      RebasedOutside(comps);
      mount := UPLOADS + comps;
    }
  }

  lemma {:induction false} PathLong(comps: seq<string>)
    requires AllNames(comps) && comps != []
    ensures Path(comps) != "/" && (Path(comps) == UPLOADS_ROOT <==> comps == ["mnt", "session", "uploads"])
  {
    assert IsName(comps[0]) && |comps[0]| > 0;
    UploadsPath();
    if Path(comps) == UPLOADS_ROOT { PathInjective(comps, UPLOADS); }
  }

  lemma {:induction false} PlacedFits(mount: seq<string>)
    requires AllNames(mount) && mount != []
    ensures Fits(Path(mount)) <==> (forall c | c in mount :: |c| <= 255) && |Path(mount)| <= 1024
  {
    FitsIs(mount);
    if forall i :: 0 <= i < |mount| ==> |mount[i]| <= MAX_COMPONENT {
      forall c | c in mount ensures |c| <= 255 { }
    }
  }

  /** A requested mount path is accepted exactly when it is mountable, and placed. */
  lemma {:induction false} RequestedExactly(fileId: string, raw: string)
    ensures Normalize(fileId, Some(raw))
      == if IsFileId(fileId) && Mountable(raw) then Some(Path(Placed(Named(Split(raw))))) else None
  {
    GoodExactly(fileId);
    GoodExactly(raw);
    if GoodText(raw) && ".." !in Split(raw) {
      var comps := CleanComponents(raw);
      ResolveNamed(Split(raw));
      if comps != [] {
        PathLong(comps);
        var mount := PlacedIs(comps);
        PlacedFits(mount);
      }
    }
  }

  /** Without a requested path the file is mounted under its own id, if that names a file. */
  lemma {:induction false} DefaultExactly(fileId: string)
    ensures Normalize(fileId, None)
      == if IsFileId(fileId) && fileId !in {".", ".."} && |fileId| <= 255 then
           Some("/mnt/session/uploads" + "/" + fileId)
         else None
  {
    GoodExactly(fileId);
    if IsFileId(fileId) {
      UploadsPath();
      SplitAtSlash(UPLOADS_ROOT, fileId);
      SplitPath(UPLOADS);
      SplitPlain(fileId);
      DefaultResolved(fileId);
    }
  }

  lemma {:induction false} DefaultResolved(fileId: string)
    requires IsFileId(fileId) && Split(UPLOADS_ROOT + "/" + fileId) == ([""] + UPLOADS) + [fileId]
    ensures Normalize(fileId, None)
      == if fileId !in {".", ".."} && |fileId| <= 255 then Some(UPLOADS_ROOT + "/" + fileId) else None
  {
    GoodExactly(fileId);
    var parts := [""] + UPLOADS;
    assert (parts + [fileId])[..|parts|] == parts;
    UploadsPath();
    ResolveKeeps(UPLOADS);
    if fileId == "." || fileId == ".." {
      DotsEscape(fileId);
    } else {
      FileBelow(fileId);
    }
  }

  lemma {:induction false} FileBelow(fileId: string)
    requires IsName(fileId)
    ensures var path := Path(UPLOADS + [fileId]);
      path == UPLOADS_ROOT + "/" + fileId && (Fits(path) <==> |fileId| <= 255)
  {
    UploadsPath();
    PathConcat(UPLOADS, [fileId]);
    assert Path([fileId]) == "/" + fileId;
    PlacedFits(UPLOADS + [fileId]);
    RootShort();
    assert fileId in UPLOADS + [fileId];
  }

  lemma {:induction false} RootShort()
    ensures |UPLOADS_ROOT| == 20 && forall c | c in UPLOADS :: |c| <= 255
  {
  }

  lemma {:induction false} DotsEscape(fileId: string)
    requires fileId == "." || fileId == ".."
    ensures var comps := if fileId == "." then UPLOADS else UPLOADS[..2];
      comps != [] && !(UPLOADS_ROOT + "/" <= Path(comps))
  {
    UploadsPath();
    MountBelowRoot(if fileId == "." then UPLOADS else UPLOADS[..2]);
  }
}
