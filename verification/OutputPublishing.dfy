/** Publishing a session's output directory (internal/app/session_output_publisher.go): the
    archive is read twice, once to plan and once to upload. */
module OutputPublishing {
  import opened Conversation
  import opened BlobIntents

  const MAX_FILES: nat := 500

  /** One archive header as validated: refused, a directory, or a regular file with the size it
      declares and the content that can be read, if any. */
  datatype Header = Refused | Directory | File(path: string, size: int, content: Option<Info>)

  type Entries = map<string, Info>

  predicate Readable(h: Header) {
    h.File? ==> h.content.Some? && h.content.value.size == h.size
  }

  /** Regular files of an archive with their contents. */
  function Planned(headers: seq<Header>): Entries {
    if headers == [] then map[]
    else
      var h, before := headers[|headers| - 1], Planned(headers[..|headers| - 1]);
      if h.File? && h.content.Some? then before[h.path := h.content.value] else before
  }

  /** Nothing is refused, every file reads to its declared size, no path repeats. */
  ghost predicate WellFormedArchive(headers: seq<Header>) {
    && (forall i :: 0 <= i < |headers| ==> !headers[i].Refused? && Readable(headers[i]))
    && (forall i, j :: 0 <= i < j < |headers| && headers[i].File? && headers[j].File? ==>
        headers[i].path != headers[j].path)
  }

  lemma {:induction false} PlannedSnoc(headers: seq<Header>, k: nat)
    requires k < |headers|
    ensures Planned(headers[..k + 1])
      == if headers[k].File? && headers[k].content.Some? then
          Planned(headers[..k])[headers[k].path := headers[k].content.value]
         else Planned(headers[..k])
  {
    assert headers[..k + 1][..k] == headers[..k];
  }

  lemma {:induction false} PlannedPaths(headers: seq<Header>)
    requires forall i :: 0 <= i < |headers| ==> Readable(headers[i])
    ensures forall path :: path in Planned(headers) <==>
        exists i :: 0 <= i < |headers| && headers[i].File? && headers[i].path == path
  {
    if headers != [] {
      var n := |headers| - 1;
      PlannedPaths(headers[..n]);
      forall path ensures path in Planned(headers) <==>
          exists i :: 0 <= i < |headers| && headers[i].File? && headers[i].path == path {
        if path in Planned(headers[..n]) {
          var i :| 0 <= i < n && headers[..n][i].File? && headers[..n][i].path == path;
          assert headers[i].path == path;
        }
        if exists i :: 0 <= i < |headers| && headers[i].File? && headers[i].path == path {
          var i :| 0 <= i < |headers| && headers[i].File? && headers[i].path == path;
          if i < n { assert headers[..n][i].path == path; }
        }
      }
    }
  }

  /** The plan of an archive is its regular files, each with its content. */
  lemma {:induction false} PlannedExactly(headers: seq<Header>, path: string, info: Info)
    requires WellFormedArchive(headers)
    ensures path in Planned(headers) && Planned(headers)[path] == info
      <==> exists i :: 0 <= i < |headers| && headers[i] == File(path, info.size, Some(info))
  {
    if headers != [] {
      var n := |headers| - 1;
      var before, h := headers[..n], headers[n];
      assert forall i :: 0 <= i < n ==> before[i] == headers[i];
      PlannedExactly(before, path, info);
      assert Readable(h);
      if exists i :: 0 <= i < n && headers[i] == File(path, info.size, Some(info)) {
        var i :| 0 <= i < n && headers[i] == File(path, info.size, Some(info));
        assert before[i] == headers[i];
      }
      if h.File? && h.path == path {
        forall i | 0 <= i < n ensures headers[i] != File(path, info.size, Some(info)) { }
      }
    }
  }

  /** The first reading: refuses duplicates, more than 500 files, and files that change size. */
  method InspectArchive(headers: seq<Header>) returns (entries: Option<Entries>)
    ensures entries.Some? <==> WellFormedArchive(headers) && |Planned(headers)| <= 500
    ensures entries.Some? ==> entries.value == Planned(headers)
  {
    var found: Entries := map[];
    for k := 0 to |headers|
      invariant found == Planned(headers[..k]) && |found| <= MAX_FILES
      invariant WellFormedArchive(headers[..k])
    {
      var h := headers[k];
      PlannedSnoc(headers, k);
      PlannedPaths(headers[..k]);
      if h.Refused? {
        return None;
      } else if h.File? {
        if h.path in found {
          var i :| 0 <= i < k && headers[..k][i].File? && headers[..k][i].path == h.path;
          assert headers[i].File? && headers[i].path == h.path;
          return None;
        }
        if |found| >= MAX_FILES {
          TooMany(headers, k);
          return None;
        }
        if h.content.None? || h.content.value.size != h.size { return None; }
        found := found[h.path := h.content.value];
      }
      WellFormedSnoc(headers, k);
    }
    assert headers[..|headers|] == headers;
    entries := Some(found);
  }

  lemma {:induction false} WellFormedSnoc(headers: seq<Header>, k: nat)
    requires k < |headers| && WellFormedArchive(headers[..k]) && !headers[k].Refused? && Readable(headers[k])
    requires headers[k].File? ==> headers[k].path !in Planned(headers[..k])
    ensures WellFormedArchive(headers[..k + 1])
  {
    var all := headers[..k + 1];
    PlannedPaths(headers[..k]);
    forall i | 0 <= i < |all| ensures !all[i].Refused? && Readable(all[i]) {
      if i < k { assert all[i] == headers[..k][i]; }
    }
    forall i, j | 0 <= i < j < |all| && all[i].File? && all[j].File? ensures all[i].path != all[j].path {
      assert all[i] == headers[..k][i];
      if j < k { assert all[j] == headers[..k][j]; }
    }
  }

  lemma {:induction false} PlannedKeys(headers: seq<Header>, k: nat)
    requires k <= |headers|
    ensures Planned(headers[..k]).Keys <= Planned(headers).Keys
    decreases |headers|
  {
    if k < |headers| {
      PlannedKeys(headers[..|headers| - 1], k);
      assert headers[..|headers| - 1][..k] == headers[..k];
    } else {
      assert headers[..k] == headers;
    }
  }

  /** A readable file beyond the limit makes the whole plan too large. */
  lemma {:induction false} TooMany(headers: seq<Header>, k: nat)
    requires k < |headers| && headers[k].File? && headers[k].path !in Planned(headers[..k])
        && |Planned(headers[..k])| >= MAX_FILES
    ensures WellFormedArchive(headers) ==> |Planned(headers)| > MAX_FILES
  {
    if WellFormedArchive(headers) {
      assert Readable(headers[k]);
      PlannedSnoc(headers, k);
      PlannedKeys(headers, k + 1);
      var before, after := Planned(headers[..k]).Keys, Planned(headers).Keys;
      assert before + {headers[k].path} <= Planned(headers[..k + 1]).Keys;
      Smaller(before + {headers[k].path}, after);
      assert |before| == |Planned(headers[..k])| && |after| == |Planned(headers)|;
    }
  }

  lemma Smaller(a: set<string>, b: set<string>)
    requires a <= b
    ensures |a| <= |b|
  {
    assert b == a + (b - a);
  }

  // ---------------------------------------------------------------- the second reading

  function Output(session: string, path: string): Kind {
    SessionOutput(session, path)
  }

  /** The session shows exactly the planned files, and other rows are shown as before. */
  ghost predicate ShowsPlan(rows: map<Id, Row>, rows': map<Id, Row>, session: string, entries: Entries) {
    forall k, i :: Shown(rows', k, i) <==>
      if k.SessionOutput? && k.session == session then k.path in entries && i == entries[k.path] else Shown(rows, k, i)
  }

  /** So far, the paths seen show their planned content and the others what they showed. */
  ghost predicate ShowsSoFar(rows: map<Id, Row>, rows': map<Id, Row>, session: string, entries: Entries,
      seen: set<string>) {
    seen <= entries.Keys &&
    forall k, i :: Shown(rows', k, i) <==>
      if k.SessionOutput? && k.session == session && k.path in seen then i == entries[k.path] else Shown(rows, k, i)
  }

  lemma {:induction false} OneMoreShown(rows: map<Id, Row>, a: map<Id, Row>, b: map<Id, Row>, session: string,
      entries: Entries,
                                        seen: set<string>, path: string)
    requires ShowsSoFar(rows, a, session, entries, seen) && path in entries
        && ShowsInstead(a, b, Output(session, path), entries[path])
    ensures ShowsSoFar(rows, b, session, entries, seen + {path})
  {
    forall k, i ensures Shown(b, k, i) <==>
      if k.SessionOutput? && k.session == session && k.path in seen + {path} then i == entries[k.path]
          else Shown(rows, k, i)
    {
      assert Shown(b, k, i) <==> if k == Output(session, path) then i == entries[path] else Shown(a, k, i);
      assert Shown(a, k, i) <==>
        if k.SessionOutput? && k.session == session && k.path in seen then i == entries[k.path] else Shown(rows, k, i);
    }
  }

  lemma {:induction false} UnchangedShown(rows: map<Id, Row>, a: map<Id, Row>, session: string, entries: Entries,
      seen: set<string>, path: string)
    requires ShowsSoFar(rows, a, session, entries, seen) && path in entries && path !in seen
    requires forall i :: Shown(rows, Output(session, path), i) <==> i == entries[path]
    ensures ShowsSoFar(rows, a, session, entries, seen + {path})
  {
    forall k, i ensures Shown(a, k, i) <==>
      if k.SessionOutput? && k.session == session && k.path in seen + {path} then i == entries[k.path]
          else Shown(rows, k, i)
    {
      assert Shown(a, k, i) <==>
        if k.SessionOutput? && k.session == session && k.path in seen then i == entries[k.path] else Shown(rows, k, i);
      if k == Output(session, path) { assert Shown(rows, k, i) <==> i == entries[path]; }
    }
  }

  /** The upload pass over a second reading of the archive, which must be the first again. */
  method PublishArchive(w: World, p: nat, session: string, headers: seq<Header>, expected: Entries,
      current: set<string>, ids: seq<Id>)
    returns (ok: bool, w': World)
    requires Inv(w.sys) && At(w.sys, p, None) && |ids| == |headers|
    requires current <= expected.Keys
    ensures Stepped(w, w') && At(w'.sys, p, None)
    ensures ok && w.others == [] && OutputsUnique(w.sys.rows) && OutputsBounded(w.sys.rows)
            && (forall path, i :: path in current ==>
                (Shown(w.sys.rows, Output(session, path), i) <==> i == expected[path])) ==>
      ShowsSoFar(w.sys.rows, w'.sys.rows, session, expected, expected.Keys)
  {
    ok, w' := false, w;
    ReachesSelf(w.sys);
    var seen: set<string> := {};
    ghost var steady := w.others == [] && OutputsUnique(w.sys.rows) && OutputsBounded(w.sys.rows)
      && (forall path, i :: path in current ==> (Shown(w.sys.rows, Output(session, path), i) <==> i == expected[path]));
    for k := 0 to |headers|
      invariant Stepped(w, w') && At(w'.sys, p, None) && seen <= expected.Keys
      invariant steady ==> ShowsSoFar(w.sys.rows, w'.sys.rows, session, expected, seen)
    {
      var h := headers[k];
      if h.Refused? { return; }
      if h.Directory? { continue; }
      if h.path !in expected || h.path in seen || expected[h.path].size != h.size { return; }
      if h.path in current {
        if h.content != Some(expected[h.path]) { return; }
        if steady { UnchangedShown(w.sys.rows, w'.sys.rows, session, expected, seen, h.path); }
      } else {
        ghost var before := w';
        var published;
        published, w' := PublishOne(w', p, ids[k], session, h.path, expected[h.path]);
        SteppedTrans(w, before, w');
        if !published { return; }
        if steady {
          ReachesUnique(w.sys, before.sys);
          OneMoreShown(w.sys.rows, before.sys.rows, w'.sys.rows, session, expected, seen, h.path);
        }
      }
      seen := seen + {h.path};
    }
    ok := |seen| == |expected|;
    if ok { AllSeen(seen, expected.Keys); }
  }

  lemma AllSeen(a: set<string>, b: set<string>)
    requires a <= b && |a| == |b|
    ensures a == b
  {
    assert b == a + (b - a);
  }

  lemma {:induction false} ReachesUnique(sys: System, s': System)
    requires Reaches(sys, s') && OutputsUnique(sys.rows) && OutputsBounded(sys.rows)
    ensures OutputsUnique(s'.rows) && OutputsBounded(s'.rows)
  {
    var run: seq<Action> :| Run(sys, run) == Some(s');
    OutputsStayUnique(sys, run, s');
  }

  // ---------------------------------------------------------------- the whole publication

  /** The ready outputs of a session by path, as the snapshot returns them. */
  function CurrentOutputs(rows: map<Id, Row>, session: string): set<(string, Info)> {
    set id | id in ReadyOutputs(rows, session) :: (rows[id].kind.path, rows[id].info)
  }

  function UpToDate(rows: map<Id, Row>, session: string, entries: Entries): set<string> {
    set path | path in entries && (path, entries[path]) in CurrentOutputs(rows, session)
  }

  lemma {:induction false} UpToDateShown(rows: map<Id, Row>, rows': map<Id, Row>, session: string, entries: Entries,
      path: string, i: Info)
    requires OutputsUnique(rows) && path in UpToDate(rows, session, entries) && SameReady(rows, rows')
    ensures Shown(rows', Output(session, path), i) <==> i == entries[path]
  {
    var id :| id in ReadyOutputs(rows, session) && (rows[id].kind.path, rows[id].info) == (path, entries[path]);
    assert rows[id] == Row(Output(session, path), Ready, entries[path]) && rows'[id] == rows[id];
    if Shown(rows', Output(session, path), i) {
      var x :| x in rows' && rows'[x] == Row(Output(session, path), Ready, i);
      assert rows[x] == rows'[x];
      assert x == id;
    }
  }

  /** What is up to date is exactly what is shown already with its planned content. */
  lemma {:induction false} UpToDateExactly(rows: map<Id, Row>, session: string, entries: Entries, path: string)
    ensures path in UpToDate(rows, session, entries)
      <==> path in entries && Shown(rows, Output(session, path), entries[path])
  {
    if path in UpToDate(rows, session, entries) {
      var id :| id in ReadyOutputs(rows, session) && (rows[id].kind.path, rows[id].info) == (path, entries[path]);
      assert rows[id] == Row(Output(session, path), Ready, entries[path]);
    }
    if path in entries && Shown(rows, Output(session, path), entries[path]) {
      var id :| id in rows && rows[id] == Row(Output(session, path), Ready, entries[path]);
      assert id in ReadyOutputs(rows, session);
      assert (path, entries[path]) in CurrentOutputs(rows, session);
    }
  }

  /** After the snapshot only planned paths of the session are still shown. */
  lemma {:induction false} HiddenShows(rows: map<Id, Row>, session: string, entries: Entries, k: Kind, i: Info)
    ensures Shown(Hidden(rows, session, entries.Keys), k, i) <==>
      Shown(rows, k, i) && !(k.SessionOutput? && k.session == session && k.path !in entries)
  {
    var hidden := Hidden(rows, session, entries.Keys);
    if Shown(hidden, k, i) {
      var x :| x in hidden && hidden[x] == Row(k, Ready, i);
      assert rows[x] == hidden[x];
    }
    if Shown(rows, k, i) && !(k.SessionOutput? && k.session == session && k.path !in entries) {
      var x :| x in rows && rows[x] == Row(k, Ready, i);
      assert hidden[x] == rows[x];
    }
  }

  lemma {:induction false} PlanShown(rows: map<Id, Row>, swept: map<Id, Row>, rows': map<Id, Row>, session: string,
      entries: Entries)
    requires SameReady(Hidden(rows, session, entries.Keys), swept)
        && ShowsSoFar(swept, rows', session, entries, entries.Keys)
    ensures ShowsPlan(rows, rows', session, entries)
  {
    forall k, i ensures Shown(rows', k, i) <==>
      if k.SessionOutput? && k.session == session then k.path in entries && i == entries[k.path] else Shown(rows, k, i)
    {
      HiddenShows(rows, session, entries, k, i);
      SameReadyShown(Hidden(rows, session, entries.Keys), swept, k, i);
      assert Shown(rows', k, i) <==>
        if k.SessionOutput? && k.session == session && k.path in entries.Keys then i == entries[k.path]
            else Shown(swept, k, i);
    }
  }

  /** Hides what is no longer in the archive, and tells what is up to date. */
  method TakeSnapshot(w: World, p: nat, session: string, entries: Entries)
      returns (ok: bool, current: set<string>, w': World)
    requires Inv(w.sys) && At(w.sys, p, None)
    ensures Stepped(w, w') && At(w'.sys, p, None) && current <= entries.Keys
    ensures ok && w.others == [] ==>
      && SameReady(Hidden(w.sys.rows, session, entries.Keys), w'.sys.rows)
      && current == UpToDate(Hidden(w.sys.rows, session, entries.Keys), session, entries)
  {
    ok, current := false, {};
    var choice;
    choice, w' := Await(w, p);
    if session in w'.sys.marked || !choice.commits { return; }
    var rows := Hidden(w'.sys.rows, session, entries.Keys);
    var garbage := Listing(SessionDeleting(rows, session));
    current := UpToDate(rows, session, entries);
    ghost var before := w';
    w' := Call(w', Snapshot(p, session, entries.Keys, garbage, choice.ack));
    SteppedTrans(w, before, w');
    if !choice.ack { return; }
    before := w';
    ok, w' := CleanupFiles(w', p, garbage);
    SteppedTrans(w, before, w');
  }

  /** Publishing: plan, snapshot, clean up, upload what changed. Without interference a
      successful publication shows exactly the archive's files, each once, with their
      contents; what other sessions show is untouched. */
  method Publish(w: World, p: nat, session: string, first: seq<Header>, second: seq<Header>, ids: seq<Id>)
      returns (ok: bool, w': World)
    requires Inv(w.sys) && At(w.sys, p, None) && |ids| == |second|
    ensures Stepped(w, w') && At(w'.sys, p, None)
    ensures ok ==> WellFormedArchive(first) && |Planned(first)| <= 500
    ensures ok && w.others == [] && OutputsUnique(w.sys.rows) && OutputsBounded(w.sys.rows) ==>
      ShowsPlan(w.sys.rows, w'.sys.rows, session, Planned(first))
  {
    ok, w' := false, w;
    ReachesSelf(w.sys);
    var plan := InspectArchive(first);
    if plan.None? { return; }
    var entries := plan.value;
    var current;
    ok, current, w' := TakeSnapshot(w, p, session, entries);
    if !ok { return; }
    ghost var swept := w';
    ok, w' := PublishArchive(w', p, session, second, entries, current, ids);
    SteppedTrans(w, swept, w');
    if ok && w.others == [] && OutputsUnique(w.sys.rows) && OutputsBounded(w.sys.rows) {
      ReachesUnique(w.sys, swept.sys);
      HiddenUnique(w.sys.rows, session, entries);
      forall path, i | path in current ensures Shown(swept.sys.rows, Output(session, path), i) <==> i == entries[path] {
        UpToDateShown(Hidden(w.sys.rows, session, entries.Keys), swept.sys.rows, session, entries, path, i);
      }
      PlanShown(w.sys.rows, swept.sys.rows, w'.sys.rows, session, entries);
    }
  }

  lemma {:induction false} HiddenUnique(rows: map<Id, Row>, session: string, entries: Entries)
    requires OutputsUnique(rows)
    ensures OutputsUnique(Hidden(rows, session, entries.Keys))
  {
  }
}
