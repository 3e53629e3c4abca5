/** Crash-safe agreement of database rows and blobs (internal/app/file_service.go,
    internal/app/skill_service.go, internal/app/session_output_publisher.go, over the
    repository steps of internal/pg/files.go and internal/pg/skills.go).

    Every request, worker and reconciliation is a process that takes one repository
    transaction or one object-store call at a time. An action may fail, may commit without
    being acknowledged, and a process may crash between any two actions; a delete whose
    outcome is unknown may reach the object store later. Rows and blobs share their id,
    because a blob key is derived from it. */
module BlobIntents {
  import opened Conversation

  type Id = string

  datatype Info = Info(size: int, checksum: string)

  datatype Kind = PlainFile | SkillVersion | SessionOutput(session: string, path: string)

  datatype RowState = Uploading | Ready | Deleting

  datatype Row = Row(kind: Kind, state: RowState, info: Info)

  /** What a live process does next. The lists of the sweeps are never empty. */
  datatype Proc =
    | Putting(id: Id)
    | Completing(id: Id, info: Info)
    | CleaningBlob(id: Id)
    | CleaningRow(id: Id)
    | SweepingBlob(ids: seq<Id>)
    | SweepingRow(ids: seq<Id>)

  datatype System = System(
    rows: map<Id, Row>,
    blobs: map<Id, Info>,
    dying: set<Id>,
    marked: set<string>,
    procs: map<nat, Proc>,
    used: set<Id>)

  const MAX_OUTPUTS: nat := 500
  const NO_INFO := Info(0, "")

  /** A delete call: done; refused; or unanswered, in which case it may still be applied. */
  datatype Fate = Applied | Refused | Unknown

  datatype Action =
    | BeginUpload(p: nat, id: Id, kind: Kind, ack: bool)
    | Put(p: nat, stored: Option<Info>, ok: bool)
    | Complete(p: nat, commits: bool, ack: bool, current: Option<Id>, garbage: seq<Id>)
    | CleanBlob(p: nat, fate: Fate)
    | CleanRow(p: nat, commits: bool)
    | BeginDelete(p: nat, id: Id, ack: bool)
    | Snapshot(p: nat, session: string, paths: set<string>, garbage: seq<Id>, ack: bool)
    | MarkSession(session: string)
    | CleanupSession(p: nat, session: string, garbage: seq<Id>, ack: bool)
    | BeginReconcile(p: nat, skills: bool, incomplete: seq<Id>)
    | SweepBlob(p: nat, fate: Fate)
    | SweepRow(p: nat, commits: bool, ack: bool)
    | Crash(p: nat)
    | LateDelete(id: Id)

  // ---------------------------------------------------------------- repository contents

  function ReadyOutputs(rows: map<Id, Row>, session: string): set<Id> {
    set id | id in rows && rows[id].state == Ready && rows[id].kind.SessionOutput?
        && rows[id].kind.session == session :: id
  }

  function OfKind(rows: map<Id, Row>, kind: Kind, state: RowState): set<Id> {
    set id | id in rows && rows[id].kind == kind && rows[id].state == state :: id
  }

  predicate InTable(row: Row, skills: bool) {
    row.kind.SkillVersion? == skills
  }

  function Incomplete(rows: map<Id, Row>, skills: bool): set<Id> {
    set id | id in rows && InTable(rows[id], skills) && rows[id].state != Ready :: id
  }

  function SessionIncomplete(rows: map<Id, Row>, session: string): set<Id> {
    set id | id in rows && rows[id].kind.SessionOutput? && rows[id].kind.session == session
        && rows[id].state != Ready :: id
  }

  function SessionDeleting(rows: map<Id, Row>, session: string): set<Id> {
    set id | id in rows && rows[id].kind.SessionOutput? && rows[id].kind.session == session
        && rows[id].state == Deleting :: id
  }

  function Elements(ids: seq<Id>): set<Id> {
    set id | id in ids
  }

  /** Rows of the session whose path is not listed are hidden. */
  function Hidden(rows: map<Id, Row>, session: string, paths: set<string>): (r: map<Id, Row>)
    ensures r.Keys == rows.Keys
    ensures forall id | id in rows ::
      r[id] == rows[id] || (rows[id].state == Ready && r[id] == rows[id].(state := Deleting))
  {
    map id | id in rows ::
      if id in ReadyOutputs(rows, session) && rows[id].kind.path !in paths then rows[id].(state := Deleting)
          else rows[id]
  }

  /** A session being deleted hides all its outputs. */
  function AllHidden(rows: map<Id, Row>, session: string): (r: map<Id, Row>)
    ensures r.Keys == rows.Keys
    ensures forall id | id in rows ::
      r[id] == rows[id] || (rows[id].state == Ready && r[id] == rows[id].(state := Deleting))
  {
    map id | id in rows :: if id in ReadyOutputs(rows, session) then rows[id].(state := Deleting) else rows[id]
  }

  function WithoutIncomplete(rows: map<Id, Row>, id: Id): map<Id, Row> {
    if id in rows && rows[id].state != Ready then rows - {id} else rows
  }

  predicate SessionMarked(kind: Kind, marked: set<string>) {
    kind.SessionOutput? && kind.session in marked
  }

  // ---------------------------------------------------------------- steps

  function Done(sys: System, p: nat): System {
    sys.(procs := sys.procs - {p})
  }

  function Become(sys: System, p: nat, proc: Proc): System {
    sys.(procs := sys.procs[p := proc])
  }

  function Sweep(sys: System, p: nat, ids: seq<Id>, ack: bool): System {
    if ids == [] || !ack then Done(sys, p) else Become(sys, p, SweepingBlob(ids))
  }

  function Deleted(sys: System, id: Id, fate: Fate): System {
    match fate
    case Applied => sys.(blobs := sys.blobs - {id})
    case Refused => sys
    case Unknown => sys.(dying := sys.dying + {id})
  }

  predicate ValidCurrent(sys: System, kind: Kind, current: Option<Id>) {
    if current.Some? then current.value in OfKind(sys.rows, kind, Ready) else OfKind(sys.rows, kind, Ready) == {}
  }

  /** The rows after a successful CompleteSessionOutput that replaces `current`. */
  function Replaced(rows: map<Id, Row>, id: Id, info: Info, current: Option<Id>): map<Id, Row>
    requires id in rows && (current.Some? ==> current.value in rows)
  {
    var hidden := if current.Some? then rows[current.value := rows[current.value].(state := Deleting)] else rows;
    hidden[id := Row(rows[id].kind, Ready, info)]
  }

  /** The completing transaction of an uploader. */
  function Completed(sys: System, a: Action, id: Id, info: Info): Option<System>
    requires a.Complete?
  {
    if !a.commits || id !in sys.rows || sys.rows[id].state != Uploading
        || SessionMarked(sys.rows[id].kind, sys.marked) then
      Some(Done(sys, a.p))
    else
      var kind := sys.rows[id].kind;
      if !kind.SessionOutput? then
        Some(Done(sys.(rows := sys.rows[id := Row(kind, Ready, info)]), a.p))
      else if !ValidCurrent(sys, kind, a.current) then None
      else if a.current.Some? && sys.rows[a.current.value].info == info then
        if Elements(a.garbage) == OfKind(sys.rows, kind, Deleting) + {id} then Some(Sweep(sys, a.p, a.garbage, a.ack))
            else None
      else if a.current.None? && |ReadyOutputs(sys.rows, kind.session)| >= MAX_OUTPUTS then Some(Done(sys, a.p))
      else
        var rows := Replaced(sys.rows, id, info, a.current);
        if Elements(a.garbage) == OfKind(rows, kind, Deleting) then
            Some(Sweep(sys.(rows := rows), a.p, a.garbage, a.ack)) else None
  }

  /** No process is between beginning an upload and completing it, in one of the tables. */
  predicate NoUploads(sys: System, skills: bool) {
    forall p | p in sys.procs && (sys.procs[p].Putting? || sys.procs[p].Completing?) ::
      sys.procs[p].id in sys.rows ==> !InTable(sys.rows[sys.procs[p].id], skills)
  }

  /** The steps of a reconciliation that starts whatever is in flight. */
  function Listed(sys: System, p: nat, skills: bool, incomplete: seq<Id>): Option<System> {
    if p !in sys.procs && Elements(incomplete) == Incomplete(sys.rows, skills) then
        Some(Sweep(sys, p, incomplete, true)) else None
  }

  function Next(sys: System, a: Action): Option<System> {
    match a
    case BeginUpload(p, id, kind, ack) =>
      if p in sys.procs || id in sys.used || SessionMarked(kind, sys.marked) then None
      else
        var s := sys.(rows := sys.rows[id := Row(kind, Uploading, NO_INFO)], used := sys.used + {id});
        Some(if ack then Become(s, p, Putting(id)) else s)
    case Put(p, stored, ok) =>
      if p !in sys.procs || !sys.procs[p].Putting? || (ok && stored.None?) then None
      else
        var id := sys.procs[p].id;
        var s := if stored.Some? then sys.(blobs := sys.blobs[id := stored.value]) else sys;
        Some(Become(s, p, if ok then Completing(id, stored.value) else CleaningBlob(id)))
    case Complete(p, _, _, _, _) =>
      if p !in sys.procs || !sys.procs[p].Completing? then None
      else Completed(sys, a, sys.procs[p].id, sys.procs[p].info)
    case CleanBlob(p, fate) =>
      if p !in sys.procs || !sys.procs[p].CleaningBlob? then None
      else Some(Become(Deleted(sys, sys.procs[p].id, fate), p, CleaningRow(sys.procs[p].id)))
    case CleanRow(p, commits) =>
      if p !in sys.procs || !sys.procs[p].CleaningRow? then None
      else Some(Done(if commits then sys.(rows := WithoutIncomplete(sys.rows, sys.procs[p].id)) else sys, p))
    case BeginDelete(p, id, ack) =>
      if p in sys.procs || id !in sys.rows || sys.rows[id].state != Ready then None
      else Some(Sweep(sys.(rows := sys.rows[id := sys.rows[id].(state := Deleting)]), p, [id], ack))
    case Snapshot(p, session, paths, garbage, ack) =>
      if p in sys.procs || session in sys.marked then None
      else
        var rows := Hidden(sys.rows, session, paths);
        if Elements(garbage) == SessionDeleting(rows, session) then Some(Sweep(sys.(rows := rows), p, garbage, ack))
            else None
    case MarkSession(session) => Some(sys.(marked := sys.marked + {session}))
    case CleanupSession(p, session, garbage, ack) =>
      if p in sys.procs || session !in sys.marked then None
      else
        var rows := AllHidden(sys.rows, session);
        if Elements(garbage) == SessionIncomplete(rows, session) then Some(Sweep(sys.(rows := rows), p, garbage, ack))
            else None
    case BeginReconcile(p, skills, incomplete) =>
      if NoUploads(sys, skills) then Listed(sys, p, skills, incomplete) else None
    case SweepBlob(p, fate) =>
      if p !in sys.procs || !sys.procs[p].SweepingBlob? || sys.procs[p].ids == [] then None
      else
        var ids := sys.procs[p].ids;
        var s := Deleted(sys, ids[0], fate);
        Some(if fate == Applied then Become(s, p, SweepingRow(ids)) else Done(s, p))
    case SweepRow(p, commits, ack) =>
      if p !in sys.procs || !sys.procs[p].SweepingRow? || sys.procs[p].ids == [] then None
      else
        var ids := sys.procs[p].ids;
        Some(Sweep(if commits then sys.(rows := WithoutIncomplete(sys.rows, ids[0])) else sys, p, ids[1..], commits
            && ack))
    case Crash(p) => Some(Done(sys, p))
    case LateDelete(id) =>
      if id in sys.dying then Some(sys.(blobs := sys.blobs - {id}, dying := sys.dying - {id})) else None
  }

  function Run(sys: System, run: seq<Action>): Option<System> {
    if run == [] then Some(sys)
    else
      var s := Run(sys, run[..|run| - 1]);
      if s.Some? then Next(s.value, run[|run| - 1]) else None
  }

  const EMPTY := System(map[], map[], {}, {}, map[], {})

  // ---------------------------------------------------------------- invariants

  /** Every ready row has its blob, with the recorded size and checksum. */
  ghost predicate Backed(sys: System) {
    forall id | id in sys.rows && sys.rows[id].state == Ready :: id in sys.blobs && sys.blobs[id] == sys.rows[id].info
  }

  predicate Uploads(proc: Proc, id: Id) {
    (proc.Putting? || proc.Completing?) && proc.id == id
  }

  /** `p` is about to delete the blob or the row of `id`. */
  predicate Removes(proc: Proc, id: Id) {
    match proc
    case CleaningBlob(i) => i == id
    case CleaningRow(i) => i == id
    case SweepingBlob(ids) => id in ids
    case SweepingRow(ids) => id in ids
    case _ => false
  }

  ghost predicate Uploaded(sys: System, id: Id) {
    exists p :: p in sys.procs && Uploads(sys.procs[p], id)
  }

  /** The row of `id` is not ready and never will be. */
  ghost predicate NeverReady(sys: System, id: Id) {
    && id in sys.used
    && (id in sys.rows ==>
          && sys.rows[id].state != Ready
          && (sys.rows[id].state == Uploading ==> SessionMarked(sys.rows[id].kind, sys.marked) || !Uploaded(sys, id)))
  }

  /** Rows have used ids, and an uploader's row, while it exists, is still uploading. */
  ghost predicate Known(sys: System) {
    && (forall id | id in sys.rows :: id in sys.used)
    && (forall p, id | p in sys.procs && Uploads(sys.procs[p], id) ::
          id in sys.used && (id in sys.rows ==> sys.rows[id].state == Uploading))
  }

  /** An upload is driven by one process. */
  ghost predicate OneUploader(sys: System) {
    forall p, q, id | p in sys.procs && q in sys.procs && Uploads(sys.procs[p], id)
        && Uploads(sys.procs[q], id) :: p == q
  }

  /** Blobs and rows are only ever removed when they cannot become visible. */
  ghost predicate OnlyDoomedRemoved(sys: System) {
    && (forall p, id | p in sys.procs && Removes(sys.procs[p], id) :: NeverReady(sys, id))
    && (forall id | id in sys.dying :: NeverReady(sys, id))
  }

  /** Between the put and the completion the blob is there, unless its row can no longer become ready. */
  ghost predicate CompletionsBacked(sys: System) {
    forall p | p in sys.procs && sys.procs[p].Completing? ::
      var id := sys.procs[p].id;
      id in sys.rows && sys.rows[id].state == Uploading && !SessionMarked(sys.rows[id].kind, sys.marked) ==>
        id in sys.blobs && sys.blobs[id] == sys.procs[p].info
  }

  ghost predicate Inv(sys: System) {
    Known(sys) && OneUploader(sys) && OnlyDoomedRemoved(sys) && CompletionsBacked(sys) && Backed(sys)
  }

  /** A ready output is the only one of its session and path. */
  ghost predicate OutputsUnique(rows: map<Id, Row>) {
    forall a, b | a in rows && b in rows && rows[a].state == Ready && rows[b].state == Ready
                  && rows[a].kind.SessionOutput? && rows[a].kind == rows[b].kind :: a == b
  }

  ghost predicate OutputsBounded(rows: map<Id, Row>) {
    forall session :: |ReadyOutputs(rows, session)| <= 500
  }

  // ---------------------------------------------------------------- how a step changes rows and processes

  /** A row is created uploading under a fresh id; then it only becomes ready, by its own
      live uploader, or is hidden after having been ready. */
  ghost predicate RowsEvolve(sys: System, s': System, p: nat) {
    && sys.used <= s'.used && sys.marked <= s'.marked
    && forall id | id in s'.rows ::
         || (id !in sys.used && id in s'.used && s'.rows[id].state == Uploading)
         || (id in sys.rows && RowEvolves(sys, s', p, id, s'.rows[id]))
  }

  ghost predicate RowEvolves(sys: System, s': System, p: nat, id: Id, row: Row)
    requires id in sys.rows
  {
    var before := sys.rows[id];
    || row == before
    || (before.state == Ready && row == before.(state := Deleting))
    || (before.state == Uploading && row.state == Ready && row.kind == before.kind
        && !SessionMarked(before.kind, sys.marked)
        && p in sys.procs && Uploads(sys.procs[p], id) && (p in s'.procs ==> !Uploads(s'.procs[p], id)))
  }

  /** Only the acting process changes, and it uploads nothing new but a fresh id. */
  ghost predicate ProcsEvolve(sys: System, s': System, p: nat) {
    && (forall q | q in s'.procs && q != p :: q in sys.procs && s'.procs[q] == sys.procs[q])
    && (p in s'.procs ==> forall id | Uploads(s'.procs[p], id) ::
          (id !in sys.used && id in s'.used) || (p in sys.procs && Uploads(sys.procs[p], id)))
  }

  ghost predicate Evolves(sys: System, s': System, p: nat) {
    RowsEvolve(sys, s', p) && ProcsEvolve(sys, s', p)
  }

  function Actor(a: Action): nat {
    match a
    case MarkSession(_) => 0
    case LateDelete(_) => 0
    case BeginUpload(p, _, _, _) => p
    case Put(p, _, _) => p
    case Complete(p, _, _, _, _) => p
    case CleanBlob(p, _) => p
    case CleanRow(p, _) => p
    case BeginDelete(p, _, _) => p
    case Snapshot(p, _, _, _, _) => p
    case CleanupSession(p, _, _, _) => p
    case BeginReconcile(p, _, _) => p
    case SweepBlob(p, _) => p
    case SweepRow(p, _, _) => p
    case Crash(p) => p
  }

  lemma {:induction false} SameRowsEvolve(sys: System, s': System, p: nat)
    requires s'.rows == sys.rows && sys.used <= s'.used && sys.marked <= s'.marked
    ensures RowsEvolve(sys, s', p)
  {
  }

  lemma {:induction false} SweepEvolves(sys: System, s: System, p: nat, ids: seq<Id>, ack: bool)
    requires s.procs == sys.procs
    ensures ProcsEvolve(sys, Sweep(s, p, ids, ack), p)
  {
  }

  lemma {:induction false} CompletedEvolves(sys: System, a: Action, s': System)
    requires a.Complete? && Next(sys, a) == Some(s')
    ensures RowsEvolve(sys, s', a.p)
  {
    var id := sys.procs[a.p].id;
    assert Uploads(sys.procs[a.p], id);
  }

  lemma {:induction false} CompletedProcs(sys: System, a: Action, s': System)
    requires a.Complete? && Next(sys, a) == Some(s')
    ensures ProcsEvolve(sys, s', a.p)
  {
  }

  lemma {:induction false} HidingEvolves(sys: System, a: Action, s': System)
    requires Next(sys, a) == Some(s') && (a.BeginDelete? || a.Snapshot? || a.CleanupSession?)
    ensures Evolves(sys, s', a.p)
  {
  }

  lemma {:induction false} RemovingEvolves(sys: System, a: Action, s': System)
    requires Next(sys, a) == Some(s') && (a.CleanRow? || a.SweepRow?)
    ensures Evolves(sys, s', a.p)
  {
  }

  lemma {:induction false} BlobStepEvolves(sys: System, a: Action, s': System)
    requires Next(sys, a) == Some(s') && (a.Put? || a.CleanBlob? || a.SweepBlob? || a.LateDelete? || a.MarkSession?
        || a.Crash?)
    ensures Evolves(sys, s', Actor(a))
  {
    SameRowsEvolve(sys, s', Actor(a));
  }

  lemma {:induction false} StepEvolves(sys: System, a: Action, s': System)
    requires Next(sys, a) == Some(s')
    ensures Evolves(sys, s', Actor(a))
  {
    if a.Complete? {
      CompletedEvolves(sys, a, s');
      CompletedProcs(sys, a, s');
    } else if a.BeginDelete? || a.Snapshot? || a.CleanupSession? {
      HidingEvolves(sys, a, s');
    } else if a.CleanRow? || a.SweepRow? {
      RemovingEvolves(sys, a, s');
    } else if a.BeginReconcile? {
      SweepEvolves(sys, sys, a.p, a.incomplete, true);
    } else if a.BeginUpload? {
      BeginEvolves(sys, a, s');
    } else {
      BlobStepEvolves(sys, a, s');
    }
  }

  lemma {:induction false} BeginEvolves(sys: System, a: Action, s': System)
    requires a.BeginUpload? && Next(sys, a) == Some(s')
    ensures Evolves(sys, s', a.p)
  {
  }

  lemma {:induction false} NeverReadyStays(sys: System, s': System, p: nat, id: Id)
    requires Evolves(sys, s', p) && NeverReady(sys, id)
    ensures NeverReady(s', id)
  {
    if Uploaded(s', id) {
      var q :| q in s'.procs && Uploads(s'.procs[q], id);
      assert q in sys.procs && Uploads(sys.procs[q], id);
    }
    if p in sys.procs && Uploads(sys.procs[p], id) { assert Uploaded(sys, id); }
  }

  lemma {:induction false} UploaderRow(sys: System, s': System, p: nat, q: nat, id: Id)
    requires Known(sys) && OneUploader(sys) && Evolves(sys, s', p) && q in s'.procs && Uploads(s'.procs[q], id)
    ensures id in s'.used && (id in s'.rows ==> s'.rows[id].state == Uploading)
  {
    if id in sys.used {
      assert q in sys.procs && Uploads(sys.procs[q], id);
      if p in sys.procs && Uploads(sys.procs[p], id) { assert p == q; }
    }
  }

  lemma {:induction false} KnownStep(sys: System, s': System, p: nat)
    requires Known(sys) && OneUploader(sys) && Evolves(sys, s', p)
    ensures Known(s') && OneUploader(s')
  {
    forall q, id | q in s'.procs && Uploads(s'.procs[q], id)
      ensures id in s'.used && (id in s'.rows ==> s'.rows[id].state == Uploading)
    {
      UploaderRow(sys, s', p, q, id);
    }
    forall q, r, id | q in s'.procs && r in s'.procs && Uploads(s'.procs[q], id)
        && Uploads(s'.procs[r], id) ensures q == r {
      SameUploader(sys, s', p, q, r, id);
    }
  }

  lemma {:induction false} SameUploader(sys: System, s': System, p: nat, q: nat, r: nat, id: Id)
    requires Known(sys) && OneUploader(sys) && Evolves(sys, s', p)
    requires q in s'.procs && r in s'.procs && Uploads(s'.procs[q], id) && Uploads(s'.procs[r], id)
    ensures q == r
  {
    if q != p { assert q in sys.procs && Uploads(sys.procs[q], id); }
    if r != p { assert r in sys.procs && Uploads(sys.procs[r], id); }
  }

  // ---------------------------------------------------------------- what is removed never becomes visible

  /** The ids a step newly puts up for removal. */
  ghost predicate NewlyRemoved(sys: System, s': System, p: nat, id: Id) {
    p in s'.procs && Removes(s'.procs[p], id) && !(p in sys.procs && Removes(sys.procs[p], id))
  }

  lemma {:induction false} FailedPutDoomed(sys: System, a: Action, s': System, id: Id)
    requires Inv(sys) && Next(sys, a) == Some(s') && a.Put? && NewlyRemoved(sys, s', a.p, id)
    ensures NeverReady(s', id)
  {
    assert Uploads(sys.procs[a.p], id);
    NoLongerUploaded(sys, s', a.p, id);
  }

  /** An upload abandoned by its own process is driven by nobody. */
  lemma {:induction false} NoLongerUploaded(sys: System, s': System, p: nat, id: Id)
    requires Known(sys) && OneUploader(sys) && ProcsEvolve(sys, s', p)
    requires p in sys.procs && Uploads(sys.procs[p], id) && (p in s'.procs ==> !Uploads(s'.procs[p], id))
    ensures !Uploaded(s', id)
  {
  }

  lemma {:induction false} CompletedDoomed(sys: System, a: Action, s': System, id: Id)
    requires Inv(sys) && Next(sys, a) == Some(s') && a.Complete? && NewlyRemoved(sys, s', a.p, id)
    ensures NeverReady(s', id)
  {
    var own := sys.procs[a.p].id;
    assert Uploads(sys.procs[a.p], own) && id in Elements(a.garbage);
    StepEvolves(sys, a, s');
    if id == own { NoLongerUploaded(sys, s', a.p, own); }
  }

  lemma {:induction false} HiddenDoomed(sys: System, a: Action, s': System, id: Id)
    requires Inv(sys) && Next(sys, a) == Some(s') && (a.BeginDelete? || a.Snapshot?) && NewlyRemoved(sys, s', a.p, id)
    ensures NeverReady(s', id)
  {
    if a.Snapshot? { assert id in Elements(a.garbage); } else { assert id == a.id; }
  }

  lemma {:induction false} CleanedDoomed(sys: System, a: Action, s': System, id: Id)
    requires Inv(sys) && Next(sys, a) == Some(s') && a.CleanupSession? && NewlyRemoved(sys, s', a.p, id)
    ensures NeverReady(s', id)
  {
    assert id in Elements(a.garbage);
  }

  /** The hypothesis of reconciliation is used here: what it lists is driven by nobody. */
  lemma {:induction false} ReconciledDoomed(sys: System, a: Action, s': System, id: Id)
    requires Inv(sys) && Next(sys, a) == Some(s') && a.BeginReconcile? && NewlyRemoved(sys, s', a.p, id)
    ensures NeverReady(s', id)
  {
    assert id in Elements(a.incomplete);
  }

  lemma {:induction false} NoOtherRemoved(sys: System, a: Action, s': System, id: Id)
    requires Next(sys, a) == Some(s') && NewlyRemoved(sys, s', Actor(a), id)
    ensures a.Put? || a.Complete? || a.BeginDelete? || a.Snapshot? || a.CleanupSession? || a.BeginReconcile?
  {
  }

  lemma {:induction false} NewlyDoomed(sys: System, a: Action, s': System, id: Id)
    requires Inv(sys) && Next(sys, a) == Some(s') && NewlyRemoved(sys, s', Actor(a), id)
    ensures NeverReady(s', id)
  {
    NoOtherRemoved(sys, a, s', id);
    if a.Put? { FailedPutDoomed(sys, a, s', id); }
    else if a.Complete? { CompletedDoomed(sys, a, s', id); }
    else if a.BeginDelete? || a.Snapshot? { HiddenDoomed(sys, a, s', id); }
    else if a.CleanupSession? { CleanedDoomed(sys, a, s', id); }
    else { ReconciledDoomed(sys, a, s', id); }
  }

  lemma {:induction false} DyingDoomed(sys: System, a: Action, s': System, id: Id)
    requires Inv(sys) && Next(sys, a) == Some(s') && id in s'.dying
    ensures NeverReady(sys, id)
  {
    if id !in sys.dying {
      assert Removes(sys.procs[Actor(a)], id);
    }
  }

  lemma {:induction false} DoomedStep(sys: System, a: Action, s': System)
    requires Inv(sys) && Next(sys, a) == Some(s')
    ensures OnlyDoomedRemoved(s')
  {
    StepEvolves(sys, a, s');
    var p := Actor(a);
    forall q, id | q in s'.procs && Removes(s'.procs[q], id) ensures NeverReady(s', id) {
      if q == p && NewlyRemoved(sys, s', p, id) {
        NewlyDoomed(sys, a, s', id);
      } else {
        assert q in sys.procs && Removes(sys.procs[q], id);
        NeverReadyStays(sys, s', p, id);
      }
    }
    forall id | id in s'.dying ensures NeverReady(s', id) {
      DyingDoomed(sys, a, s', id);
      NeverReadyStays(sys, s', p, id);
    }
  }

  // ---------------------------------------------------------------- blobs

  /** A step changes a blob only when its row never becomes visible, or to put it. */
  lemma {:induction false} BlobChanges(sys: System, a: Action, s': System, id: Id)
    requires Inv(sys) && Next(sys, a) == Some(s') && id in sys.blobs
    ensures (id in s'.blobs && s'.blobs[id] == sys.blobs[id]) || NeverReady(sys, id)
        || (a.Put? && sys.procs[a.p].id == id)
  {
    if a.CleanBlob? { assert Removes(sys.procs[a.p], sys.procs[a.p].id); }
    if a.SweepBlob? { assert Removes(sys.procs[a.p], sys.procs[a.p].ids[0]); }
  }

  lemma {:induction false} CompletingBacked(sys: System, a: Action, s': System, q: nat)
    requires Inv(sys) && Next(sys, a) == Some(s') && q in s'.procs && s'.procs[q].Completing?
    requires var id := s'.procs[q].id;
      id in s'.rows && s'.rows[id].state == Uploading && !SessionMarked(s'.rows[id].kind, s'.marked)
    ensures s'.procs[q].id in s'.blobs && s'.blobs[s'.procs[q].id] == s'.procs[q].info
  {
    var id := s'.procs[q].id;
    StepEvolves(sys, a, s');
    if !a.Put? || q != a.p {
      OldCompletion(sys, a, s', q);
    }
  }

  lemma {:induction false} OldCompletion(sys: System, a: Action, s': System, q: nat)
    requires Inv(sys) && Next(sys, a) == Some(s') && Evolves(sys, s', Actor(a)) && q in s'.procs
        && s'.procs[q].Completing?
    requires !a.Put? || q != a.p
    requires var id := s'.procs[q].id;
      id in s'.rows && s'.rows[id].state == Uploading && !SessionMarked(s'.rows[id].kind, s'.marked)
    ensures s'.procs[q].id in s'.blobs && s'.blobs[s'.procs[q].id] == s'.procs[q].info
  {
    var id := s'.procs[q].id;
    SameCompletion(sys, a, s', q);
    assert Uploads(sys.procs[q], id) && Uploaded(sys, id);
    assert id in sys.rows && sys.rows[id] == s'.rows[id];
    BlobChanges(sys, a, s', id);
    if a.Put? { assert Uploads(sys.procs[a.p], sys.procs[a.p].id); }
  }

  lemma {:induction false} SameCompletion(sys: System, a: Action, s': System, q: nat)
    requires Next(sys, a) == Some(s') && Evolves(sys, s', Actor(a)) && q in s'.procs && s'.procs[q].Completing?
    requires !a.Put? || q != a.p
    ensures q in sys.procs && sys.procs[q] == s'.procs[q]
  {
  }

  lemma {:induction false} NewlyReady(sys: System, a: Action, s': System, id: Id)
    requires Inv(sys) && Next(sys, a) == Some(s')
    requires id in s'.rows && s'.rows[id].state == Ready && !(id in sys.rows && sys.rows[id].state == Ready)
    ensures id in s'.blobs && s'.blobs[id] == s'.rows[id].info
  {
    StepEvolves(sys, a, s');
    assert a.Complete? && sys.procs[a.p].id == id by { OnlyCompletes(sys, a, s', id); }
  }

  lemma {:induction false} OnlyCompletes(sys: System, a: Action, s': System, id: Id)
    requires Next(sys, a) == Some(s')
    requires id in s'.rows && s'.rows[id].state == Ready && !(id in sys.rows && sys.rows[id].state == Ready)
    ensures a.Complete? && a.p in sys.procs && sys.procs[a.p].Completing? && sys.procs[a.p].id == id
    ensures id in sys.rows && sys.rows[id].state == Uploading && !SessionMarked(sys.rows[id].kind, sys.marked)
    ensures s'.rows[id].info == sys.procs[a.p].info && s'.blobs == sys.blobs
  {
  }

  lemma {:induction false} BackedStep(sys: System, a: Action, s': System)
    requires Inv(sys) && Next(sys, a) == Some(s')
    ensures Backed(s')
  {
    StepEvolves(sys, a, s');
    forall id | id in s'.rows && s'.rows[id].state == Ready
      ensures id in s'.blobs && s'.blobs[id] == s'.rows[id].info
    {
      if id in sys.rows && sys.rows[id].state == Ready {
        assert sys.rows[id] == s'.rows[id];
        BlobChanges(sys, a, s', id);
        if a.Put? { assert Uploads(sys.procs[a.p], sys.procs[a.p].id); }
      } else {
        NewlyReady(sys, a, s', id);
      }
    }
  }

  lemma {:induction false} InvStep(sys: System, a: Action, s': System)
    requires Inv(sys) && Next(sys, a) == Some(s')
    ensures Inv(s')
  {
    StepEvolves(sys, a, s');
    KnownStep(sys, s', Actor(a));
    DoomedStep(sys, a, s');
    forall q | q in s'.procs && s'.procs[q].Completing?
      ensures var id := s'.procs[q].id;
        id in s'.rows && s'.rows[id].state == Uploading && !SessionMarked(s'.rows[id].kind, s'.marked) ==>
          id in s'.blobs && s'.blobs[id] == s'.procs[q].info
    {
      var id := s'.procs[q].id;
      if id in s'.rows && s'.rows[id].state == Uploading && !SessionMarked(s'.rows[id].kind, s'.marked) {
        CompletingBacked(sys, a, s', q);
      }
    }
    BackedStep(sys, a, s');
  }

  /** In every interleaving of uploads, publications, deletes, session deletions and
      reconciliations that never overlap an upload in flight, with failures, lost
      acknowledgements, late deletes and crashes anywhere, every ready row has its blob with
      the recorded size and checksum. */
  lemma {:induction false} ReadyIsBacked(sys: System, run: seq<Action>, s': System)
    requires Inv(sys) && Run(sys, run) == Some(s')
    ensures Inv(s') && Backed(s')
    decreases |run|
  {
    if run != [] {
      var init := Run(sys, run[..|run| - 1]).value;
      ReadyIsBacked(sys, run[..|run| - 1], init);
      InvStep(init, run[|run| - 1], s');
    }
  }

  lemma {:induction false} EmptyInv()
    ensures Inv(EMPTY)
  {
  }

  // ---------------------------------------------------------------- session outputs

  lemma {:induction false} UniqueStep(sys: System, a: Action, s': System)
    requires Next(sys, a) == Some(s') && OutputsUnique(sys.rows)
    ensures OutputsUnique(s'.rows)
  {
    if a.Complete? {
      UniqueCompleted(sys, a, s');
    } else {
      ReadyShrinks(sys, a, s');
    }
  }

  /** No other action makes a row ready. */
  lemma {:induction false} ReadyShrinks(sys: System, a: Action, s': System)
    requires Next(sys, a) == Some(s') && !a.Complete?
    ensures forall id | id in s'.rows && s'.rows[id].state == Ready :: id in sys.rows && sys.rows[id] == s'.rows[id]
  {
  }

  lemma {:induction false} ReadyIsCurrent(rows: map<Id, Row>, kind: Kind, x: Id, current: Option<Id>)
    requires OutputsUnique(rows) && kind.SessionOutput?
    requires if current.Some? then current.value in OfKind(rows, kind, Ready) else OfKind(rows, kind, Ready) == {}
    requires x in rows && rows[x].state == Ready && rows[x].kind == kind
    ensures current == Some(x)
  {
    assert x in OfKind(rows, kind, Ready);
  }

  lemma {:induction false} UniqueCompleted(sys: System, a: Action, s': System)
    requires Next(sys, a) == Some(s') && a.Complete? && OutputsUnique(sys.rows)
    ensures OutputsUnique(s'.rows)
  {
    var id := sys.procs[a.p].id;
    if s'.rows != sys.rows && sys.rows[id].kind.SessionOutput? {
      var kind := sys.rows[id].kind;
      forall x | x in sys.rows && sys.rows[x].state == Ready && sys.rows[x].kind == kind ensures a.current == Some(x) {
        ReadyIsCurrent(sys.rows, kind, x, a.current);
      }
    }
  }

  lemma {:induction false} SmallerOutputs(rows: map<Id, Row>, rows': map<Id, Row>, session: string)
    requires forall id | id in rows' && rows'[id].state == Ready :: id in rows && rows[id] == rows'[id]
    ensures |ReadyOutputs(rows', session)| <= |ReadyOutputs(rows, session)|
  {
    Included(ReadyOutputs(rows', session), ReadyOutputs(rows, session));
  }

  lemma {:induction false} Included(a: set<Id>, b: set<Id>)
    requires a <= b
    ensures |a| <= |b|
  {
    assert b == a + (b - a);
  }

  lemma {:induction false} BoundedStep(sys: System, a: Action, s': System)
    requires Next(sys, a) == Some(s') && OutputsBounded(sys.rows)
    ensures OutputsBounded(s'.rows)
  {
    forall session ensures |ReadyOutputs(s'.rows, session)| <= MAX_OUTPUTS {
      if a.Complete? {
        BoundedCompleted(sys, a, s', session);
      } else {
        ReadyShrinks(sys, a, s');
        SmallerOutputs(sys.rows, s'.rows, session);
      }
    }
  }

  lemma {:induction false} ReadyPlain(rows: map<Id, Row>, id: Id, row: Row, session: string)
    requires !row.kind.SessionOutput?
    ensures ReadyOutputs(rows[id := row], session) <= ReadyOutputs(rows, session)
  {
  }

  lemma {:induction false} ReadyReplaced(rows: map<Id, Row>, id: Id, info: Info, current: Option<Id>, session: string)
    requires id in rows && rows[id].state == Uploading && rows[id].kind.SessionOutput?
    requires current.Some? ==> current.value in OfKind(rows, rows[id].kind, Ready)
    ensures var before, after := ReadyOutputs(rows, session), ReadyOutputs(Replaced(rows, id, info, current), session);
      if rows[id].kind.session != session then after <= before
      else if current.Some? then current.value in before && after <= before - {current.value} + {id}
      else after <= before + {id}
  {
  }

  lemma {:induction false} CompletedRows(sys: System, a: Action, s': System)
    requires Next(sys, a) == Some(s') && a.Complete? && s'.rows != sys.rows
    ensures var id, info := sys.procs[a.p].id, sys.procs[a.p].info;
      && id in sys.rows && sys.rows[id].state == Uploading
      && var kind := sys.rows[id].kind;
      if !kind.SessionOutput? then s'.rows == sys.rows[id := Row(kind, Ready, info)]
      else
        && ValidCurrent(sys, kind, a.current) && s'.rows == Replaced(sys.rows, id, info, a.current)
        && (a.current.None? ==> |ReadyOutputs(sys.rows, kind.session)| < MAX_OUTPUTS)
  {
  }

  /** A completion that changes rows either replaces a ready output or adds one below the limit. */
  lemma {:induction false} CompletedReady(sys: System, a: Action, s': System, session: string)
    requires Next(sys, a) == Some(s') && a.Complete? && s'.rows != sys.rows
    ensures var id, before, after := sys.procs[a.p].id, ReadyOutputs(sys.rows, session), ReadyOutputs(s'.rows, session);
      || after <= before
      || (a.current.Some? && a.current.value in before && after <= before - {a.current.value} + {id})
      || (|before| < MAX_OUTPUTS && after <= before + {id})
  {
    var id, info := sys.procs[a.p].id, sys.procs[a.p].info;
    CompletedRows(sys, a, s');
    if sys.rows[id].kind.SessionOutput? {
      ReadyReplaced(sys.rows, id, info, a.current, session);
    } else {
      ReadyPlain(sys.rows, id, Row(sys.rows[id].kind, Ready, info), session);
    }
  }

  lemma {:induction false} BoundedCompleted(sys: System, a: Action, s': System, session: string)
    requires Next(sys, a) == Some(s') && a.Complete? && OutputsBounded(sys.rows)
    ensures |ReadyOutputs(s'.rows, session)| <= MAX_OUTPUTS
  {
    var id := sys.procs[a.p].id;
    var before, after := ReadyOutputs(sys.rows, session), ReadyOutputs(s'.rows, session);
    assert |before| <= MAX_OUTPUTS;
    if s'.rows != sys.rows {
      CompletedReady(sys, a, s', session);
      SizeAfter(before, after, id, a.current);
    }
  }

  lemma {:induction false} SizeAfter(before: set<Id>, after: set<Id>, id: Id, current: Option<Id>)
    requires |before| <= MAX_OUTPUTS
    requires || after <= before
             || (current.Some? && current.value in before && after <= before - {current.value} + {id})
             || (|before| < MAX_OUTPUTS && after <= before + {id})
    ensures |after| <= MAX_OUTPUTS
  {
    if after <= before {
      Included(after, before);
    } else if current.Some? && current.value in before && after <= before - {current.value} + {id} {
      Included(after, before - {current.value} + {id});
    } else {
      Included(after, before + {id});
    }
  }

  /** A session never shows two files for one output path, nor more than 500 outputs. */
  lemma {:induction false} OutputsStayUnique(sys: System, run: seq<Action>, s': System)
    requires OutputsUnique(sys.rows) && OutputsBounded(sys.rows) && Run(sys, run) == Some(s')
    ensures OutputsUnique(s'.rows) && OutputsBounded(s'.rows)
    decreases |run|
  {
    if run != [] {
      var init := Run(sys, run[..|run| - 1]).value;
      OutputsStayUnique(sys, run[..|run| - 1], init);
      UniqueStep(init, run[|run| - 1], s');
      BoundedStep(init, run[|run| - 1], s');
    }
  }

  // ---------------------------------------------------------------- a session being deleted

  predicate OutputOf(row: Row, session: string) {
    row.kind.SessionOutput? && row.kind.session == session
  }

  ghost predicate ShowsNone(rows: map<Id, Row>, session: string) {
    forall id | id in rows && OutputOf(rows[id], session) :: rows[id].state != Ready
  }

  /** Its cleanup hides every output of the session and nothing else, and sets out to remove all
      of them. */
  lemma {:induction false} CleanupHides(sys: System, a: Action, s': System, id: Id)
    requires a.CleanupSession? && Next(sys, a) == Some(s')
    ensures id in s'.rows <==> id in sys.rows
    ensures id in sys.rows && OutputOf(sys.rows[id], a.session) && sys.rows[id].state == Ready ==>
        s'.rows[id] == sys.rows[id].(state := Deleting)
    ensures id in sys.rows && !(OutputOf(sys.rows[id], a.session) && sys.rows[id].state == Ready) ==>
        s'.rows[id] == sys.rows[id]
    ensures a.session in sys.marked && (id in a.garbage <==> id in sys.rows && OutputOf(sys.rows[id], a.session))
    ensures ShowsNone(s'.rows, a.session)
  {
    var hidden := AllHidden(sys.rows, a.session);
    assert id in a.garbage <==> id in Elements(a.garbage);
    if id in hidden {
      assert id in ReadyOutputs(sys.rows, a.session) <==>
        sys.rows[id].state == Ready && OutputOf(sys.rows[id], a.session);
    }
  }

  predicate Dropped(row: Row, session: string, paths: set<string>) {
    OutputOf(row, session) && row.state == Ready && row.kind.path !in paths
  }

  /** A snapshot is only taken of a session that is not being deleted. It hides the outputs whose
      path is not listed and nothing else, and sets out to remove all that are hidden. */
  lemma {:induction false} SnapshotHides(sys: System, a: Action, s': System, id: Id)
    requires a.Snapshot? && Next(sys, a) == Some(s')
    ensures a.session !in sys.marked && (id in s'.rows <==> id in sys.rows)
    ensures id in sys.rows && Dropped(sys.rows[id], a.session, a.paths) ==>
        s'.rows[id] == sys.rows[id].(state := Deleting)
    ensures id in sys.rows && !Dropped(sys.rows[id], a.session, a.paths) ==> s'.rows[id] == sys.rows[id]
    ensures id in a.garbage <==> id in s'.rows && OutputOf(s'.rows[id], a.session) && s'.rows[id].state == Deleting
  {
    var hidden := Hidden(sys.rows, a.session, a.paths);
    assert id in a.garbage <==> id in Elements(a.garbage);
    if id in hidden {
      assert id in ReadyOutputs(sys.rows, a.session) <==>
        sys.rows[id].state == Ready && OutputOf(sys.rows[id], a.session);
    }
  }

  lemma {:induction false} NoneShownStep(sys: System, a: Action, s': System, session: string)
    requires session in sys.marked && ShowsNone(sys.rows, session) && Next(sys, a) == Some(s')
    ensures session in s'.marked && ShowsNone(s'.rows, session)
  {
    StepEvolves(sys, a, s');
  }

  /** Once the outputs of a session being deleted are hidden, none is ever shown again, whatever
      uploads were under way. */
  lemma {:induction false} StaysHidden(sys: System, run: seq<Action>, s': System, session: string)
    requires session in sys.marked && ShowsNone(sys.rows, session) && Run(sys, run) == Some(s')
    ensures session in s'.marked && ShowsNone(s'.rows, session)
    decreases |run|
  {
    if run != [] {
      var init := Run(sys, run[..|run| - 1]).value;
      StaysHidden(sys, run[..|run| - 1], init, session);
      NoneShownStep(init, run[|run| - 1], s', session);
    }
  }

  // ---------------------------------------------------------------- overlapping reconciliation

  ghost predicate Reaches(sys: System, s': System) {
    exists run :: Run(sys, run) == Some(s')
  }

  lemma {:induction false} ReachesSelf(sys: System)
    ensures Reaches(sys, sys)
  {
    assert Run(sys, []) == Some(sys);
  }

  lemma {:induction false} ReachesNext(sys: System, s: System, a: Action, s': System)
    requires Reaches(sys, s) && Next(s, a) == Some(s')
    ensures Reaches(sys, s')
  {
    var run: seq<Action> :| Run(sys, run) == Some(s);
    assert (run + [a])[..|run|] == run;
    assert Run(sys, run + [a]) == Some(s');
  }

  /** `rows'` is `rows` without some incomplete rows other than that of `id`. */
  ghost predicate Swept(rows: map<Id, Row>, rows': map<Id, Row>, id: Id) {
    && (forall x | x in rows' :: x in rows && rows'[x] == rows[x])
    && (forall x | x in rows && (rows[x].state == Ready || x == id) :: x in rows')
  }

  /** The sweep of `p` is about to take `id`'s blob, and nothing but incomplete rows has changed. */
  ghost predicate SweptTo(sys: System, s': System, p: nat, id: Id) {
    && Swept(sys.rows, s'.rows, id) && s'.marked == sys.marked && id !in s'.blobs
    && forall q | q in sys.procs && q != p :: q in s'.procs && s'.procs[q] == sys.procs[q]
  }

  lemma {:induction false} SweepFirst(from: System, sys: System, p: nat, ids: seq<Id>) returns (s': System)
    requires Reaches(from, sys) && p in sys.procs && sys.procs[p] == SweepingBlob(ids) && |ids| > 1
    ensures Reaches(from, s')
    ensures s' == Become(sys.(blobs := sys.blobs - {ids[0]}, rows := WithoutIncomplete(sys.rows, ids[0])), p,
        SweepingBlob(ids[1..]))
  {
    var s1 := Become(sys.(blobs := sys.blobs - {ids[0]}), p, SweepingRow(ids));
    ReachesNext(from, sys, SweepBlob(p, Applied), s1);
    s' := Become(s1.(rows := WithoutIncomplete(s1.rows, ids[0])), p, SweepingBlob(ids[1..]));
    ReachesNext(from, s1, SweepRow(p, true, true), s');
    assert s' == Become(sys.(blobs := sys.blobs - {ids[0]}, rows := WithoutIncomplete(sys.rows, ids[0])), p,
        SweepingBlob(ids[1..]));
  }

  /** A sweep can reach any id it has listed. */
  lemma {:induction false} SweepReaches(from: System, sys: System, p: nat, ids: seq<Id>, id: Id) returns (s': System)
    requires Reaches(from, sys) && p in sys.procs && sys.procs[p] == SweepingBlob(ids) && id in ids && id in sys.rows
    ensures Reaches(from, s') && SweptTo(sys, s', p, id)
    decreases |ids|
  {
    if ids[0] == id {
      s' := Become(sys.(blobs := sys.blobs - {id}), p, SweepingRow(ids));
      ReachesNext(from, sys, SweepBlob(p, Applied), s');
    } else {
      assert id in ids[1..];
      var s1 := SweepFirst(from, sys, p, ids);
      s' := SweepReaches(from, s1, p, ids[1..], id);
    }
  }

  /** Nothing but a reconciliation stands between a completion and its row being shown. */
  ghost predicate CanShow(sys: System, id: Id, info: Info) {
    id in sys.rows && sys.rows[id].state == Uploading && !SessionMarked(sys.rows[id].kind, sys.marked)
    && (sys.rows[id].kind.SessionOutput? ==> exists current :: ReplacesOrAdds(sys, sys.rows[id].kind, info, current))
  }

  ghost predicate ReplacesOrAdds(sys: System, kind: Kind, info: Info, current: Option<Id>) {
    && kind.SessionOutput? && ValidCurrent(sys, kind, current)
    && if current.Some? then current.value in sys.rows && sys.rows[current.value].info != info
       else |ReadyOutputs(sys.rows, kind.session)| < MAX_OUTPUTS
  }

  lemma {:induction false} StillReplaces(sys: System, s': System, p: nat, id: Id, kind: Kind, info: Info,
      current: Option<Id>)
    requires SweptTo(sys, s', p, id) && ReplacesOrAdds(sys, kind, info, current)
    ensures ReplacesOrAdds(s', kind, info, current)
  {
    assert OfKind(s'.rows, kind, Ready) == OfKind(sys.rows, kind, Ready);
    assert ReadyOutputs(s'.rows, kind.session) == ReadyOutputs(sys.rows, kind.session);
  }

  lemma {:induction false} StillShows(sys: System, s': System, p: nat, id: Id, info: Info)
    requires SweptTo(sys, s', p, id) && CanShow(sys, id, info)
    ensures CanShow(s', id, info) && s'.rows[id] == sys.rows[id]
  {
    if sys.rows[id].kind.SessionOutput? {
      var current :| ReplacesOrAdds(sys, sys.rows[id].kind, info, current);
      StillReplaces(sys, s', p, id, sys.rows[id].kind, info, current);
    }
  }

  lemma {:induction false} SameRowsShow(sys: System, s': System, id: Id, info: Info)
    requires CanShow(sys, id, info) && s'.rows == sys.rows && s'.marked == sys.marked
    ensures CanShow(s', id, info)
  {
    if sys.rows[id].kind.SessionOutput? {
      var current :| ReplacesOrAdds(sys, sys.rows[id].kind, info, current);
      assert ReplacesOrAdds(s', sys.rows[id].kind, info, current);
    }
  }

  lemma {:induction false} Enumerated(ids: set<Id>) returns (listed: seq<Id>)
    ensures Elements(listed) == ids
  {
    if ids == {} { return []; }
    var id :| id in ids;
    var rest := Enumerated(ids - {id});
    listed := [id] + rest;
    assert Elements(listed) == {id} + Elements(rest);
  }

  /** A completion that can show its row does so in one step, whether its blob is there or not. */
  lemma {:induction false} CompletionShows(sys: System, q: nat, id: Id, info: Info) returns (s': System)
    requires q in sys.procs && sys.procs[q] == Completing(id, info) && CanShow(sys, id, info)
    ensures Reaches(sys, s') && id in s'.rows && s'.rows[id].state == Ready && s'.blobs == sys.blobs
  {
    ReachesSelf(sys);
    var kind := sys.rows[id].kind;
    if kind.SessionOutput? {
      var current :| ReplacesOrAdds(sys, kind, info, current);
      s' := OutputShows(sys, q, id, info, current);
    } else {
      s' := Done(sys.(rows := sys.rows[id := Row(kind, Ready, info)]), q);
      ReachesNext(sys, sys, Complete(q, true, true, None, []), s');
    }
  }

  lemma {:induction false} OutputShows(sys: System, q: nat, id: Id, info: Info, current: Option<Id>)
      returns (s': System)
    requires q in sys.procs && sys.procs[q] == Completing(id, info) && CanShow(sys, id, info)
    requires ReplacesOrAdds(sys, sys.rows[id].kind, info, current)
    ensures Reaches(sys, s') && id in s'.rows && s'.rows[id].state == Ready && s'.blobs == sys.blobs
  {
    ReachesSelf(sys);
    var rows := Replaced(sys.rows, id, info, current);
    var garbage := Enumerated(OfKind(rows, sys.rows[id].kind, Deleting));
    s' := Sweep(sys.(rows := rows), q, garbage, true);
    ReachesNext(sys, sys, Complete(q, true, true, current, garbage), s');
  }

  lemma {:induction false} ReachesTrans(a: System, b: System, c: System)
    requires Reaches(a, b) && Reaches(b, c)
    ensures Reaches(a, c)
  {
    var run: seq<Action> :| Run(b, run) == Some(c);
    ReachesAfter(a, b, run, c);
  }

  lemma {:induction false} ReachesAfter(a: System, b: System, run: seq<Action>, c: System)
    requires Reaches(a, b) && Run(b, run) == Some(c)
    ensures Reaches(a, c)
    decreases |run|
  {
    if run != [] {
      var s := Run(b, run[..|run| - 1]).value;
      ReachesAfter(a, b, run[..|run| - 1], s);
      ReachesNext(a, s, run[|run| - 1], c);
    }
  }

  /** The hypothesis is needed in every state: once a reconciliation lists an upload that is
      about to complete, the run can go on to a ready row without its blob. */
  lemma {:induction false} OverlapLosesBlob(sys: System, p: nat, q: nat, skills: bool, incomplete: seq<Id>)
    requires q in sys.procs && sys.procs[q].Completing? && CanShow(sys, sys.procs[q].id, sys.procs[q].info)
    requires InTable(sys.rows[sys.procs[q].id], skills) && Listed(sys, p, skills, incomplete).Some?
    ensures !NoUploads(sys, skills)
    ensures exists s' :: Reaches(Listed(sys, p, skills, incomplete).value, s') && !Backed(s')
  {
    var (id, info) := (sys.procs[q].id, sys.procs[q].info);
    var listed := Listed(sys, p, skills, incomplete).value;
    assert id in Incomplete(sys.rows, skills) && id in Elements(incomplete);
    assert listed == Become(sys, p, SweepingBlob(incomplete));
    ReachesSelf(listed);
    var s1 := SweepReaches(listed, listed, p, incomplete, id);
    SameRowsShow(sys, listed, id, info);
    StillShows(listed, s1, p, id, info);
    var s2 := CompletionShows(s1, q, id, info);
    ReachesTrans(listed, s1, s2);
    assert id !in s2.blobs;
  }

  const LATE_INFO := Info(1, "c")

  /** An upload has put its blob and is about to complete. */
  const IN_FLIGHT := System(map["f" := Row(PlainFile, Uploading, NO_INFO)], map["f" := LATE_INFO], {}, {},
                            map[0 := Completing("f", LATE_INFO)], {"f"})

  lemma {:induction false} InFlight()
    ensures Reaches(EMPTY, IN_FLIGHT) && CanShow(IN_FLIGHT, "f", LATE_INFO) && Listed(IN_FLIGHT, 1, false, ["f"]).Some?
  {
    ReachesSelf(EMPTY);
    var s1 := System(map["f" := Row(PlainFile, Uploading, NO_INFO)], map[], {}, {}, map[0 := Putting("f")], {"f"});
    assert Next(EMPTY, BeginUpload(0, "f", PlainFile, true)).value == s1;
    ReachesNext(EMPTY, EMPTY, BeginUpload(0, "f", PlainFile, true), s1);
    assert Next(s1, Put(0, Some(LATE_INFO), true)).value == IN_FLIGHT;
    ReachesNext(EMPTY, s1, Put(0, Some(LATE_INFO), true), IN_FLIGHT);
    assert "f" in IN_FLIGHT.rows && "f" in ["f"];
    assert Incomplete(IN_FLIGHT.rows, false) == {"f"};
    assert Elements(["f"]) == {"f"};
  }

  // ---------------------------------------------------------------- the services' own code

  /** How the next repository or object-store call turns out. */
  datatype Choice = Choice(commits: bool, ack: bool, stored: Option<Info>, fate: Fate, current: Option<Id>)

  /** The shared state, what other processes do before each call, and how the calls turn out. */
  datatype World = World(sys: System, others: seq<seq<Action>>, choices: seq<Choice>)

  predicate ActsAs(a: Action, p: nat) {
    !a.MarkSession? && !a.LateDelete? && Actor(a) == p
  }

  function Interfered(sys: System, p: nat, actions: seq<Action>): System
    decreases |actions|
  {
    if actions == [] then sys
    else if !ActsAs(actions[0], p) && Next(sys, actions[0]).Some? then
      Interfered(Next(sys, actions[0]).value, p, actions[1..])
    else Interfered(sys, p, actions[1..])
  }

  /** Other processes reach their states, keep `p` where it is, and never bring a row back. */
  lemma {:induction false} InterferedReaches(from: System, sys: System, p: nat, actions: seq<Action>)
    requires Reaches(from, sys)
    ensures var s' := Interfered(sys, p, actions);
      && Reaches(from, s')
      && (p in s'.procs) == (p in sys.procs) && (p in sys.procs ==> s'.procs[p] == sys.procs[p])
      && (Inv(sys) ==> Inv(s'))
      && GoneStays(sys, s')
    decreases |actions|
  {
    if actions != [] {
      if !ActsAs(actions[0], p) && Next(sys, actions[0]).Some? {
        var s := Next(sys, actions[0]).value;
        ReachesNext(from, sys, actions[0], s);
        StepEvolves(sys, actions[0], s);
        OtherKeeps(sys, actions[0], s, p);
        if Inv(sys) { InvStep(sys, actions[0], s); }
        InterferedReaches(from, s, p, actions[1..]);
      } else {
        InterferedReaches(from, sys, p, actions[1..]);
      }
    }
  }

  lemma {:induction false} OtherKeeps(sys: System, a: Action, s': System, p: nat)
    requires Next(sys, a) == Some(s') && !ActsAs(a, p)
    ensures (p in s'.procs) == (p in sys.procs) && (p in sys.procs ==> s'.procs[p] == sys.procs[p])
    ensures GoneStays(sys, s')
  {
    StepEvolves(sys, a, s');
  }

  /** A removed row never comes back. */
  ghost predicate GoneStays(sys: System, s': System) {
    sys.used <= s'.used && forall id | id in sys.used && id !in sys.rows :: id !in s'.rows
  }

  ghost predicate At(sys: System, p: nat, proc: Option<Proc>) {
    if proc.Some? then p in sys.procs && sys.procs[p] == proc.value else p !in sys.procs
  }

  /** What every call of the services keeps. */
  ghost predicate Stepped(w: World, w': World) {
    Inv(w'.sys) && Reaches(w.sys, w'.sys) && GoneStays(w.sys, w'.sys) && (w.others == [] ==> w'.others == [])
  }

  lemma {:induction false} SteppedTrans(u: World, v: World, w: World)
    requires Stepped(u, v) && Stepped(v, w)
    ensures Stepped(u, w)
  {
    var run: seq<Action> :| Run(u.sys, run) == Some(v.sys);
    var more: seq<Action> :| Run(v.sys, more) == Some(w.sys);
    RunConcat(u.sys, run, more);
    assert Run(u.sys, run + more) == Some(w.sys);
  }

  lemma {:induction false} RunConcat(sys: System, a: seq<Action>, b: seq<Action>)
    requires Run(sys, a).Some?
    ensures Run(sys, a + b) == Run(Run(sys, a).value, b)
    decreases |b|
  {
    if b == [] {
      assert a + b == a;
    } else {
      assert (a + b)[..|a + b| - 1] == a + b[..|b| - 1];
      RunConcat(sys, a, b[..|b| - 1]);
    }
  }

  /** Nobody else moves, and the next `n` calls go through. */
  ghost predicate Smooth(w: World, n: nat) {
    && w.others == [] && n <= |w.choices|
    && forall k :: 0 <= k < n ==> GoesThrough(w.choices[k])
  }

  predicate GoesThrough(c: Choice) {
    c.commits && c.ack && c.stored.Some? && c.fate == Applied
  }

  /** Nobody else moved, and `n` calls were made. */
  ghost predicate Spent(w: World, w': World, n: nat) {
    w'.others == [] && n <= |w.choices| && w'.choices == w.choices[n..]
  }

  lemma {:induction false} SmoothOn(w: World, w': World, n: nat, m: nat)
    requires Smooth(w, m) && n <= m && Spent(w, w', n)
    ensures Smooth(w', m - n)
  {
  }

  lemma {:induction false} SpentTrans(u: World, v: World, w: World, m: nat, n: nat)
    requires Spent(u, v, m) && Spent(v, w, n)
    ensures Spent(u, w, m + n)
  {
  }

  /** Before a call: the other processes move, and the outcome of the call is drawn. */
  method Await(w: World, p: nat) returns (choice: Choice, w': World)
    requires Inv(w.sys)
    ensures Stepped(w, w')
    ensures At(w'.sys, p, if p in w.sys.procs then Some(w.sys.procs[p]) else None)
    ensures w.others == [] ==> w'.sys == w.sys
    ensures w.others == [] && w.choices != [] ==> choice == w.choices[0] && Spent(w, w', 1)
  {
    choice := if w.choices == [] then Choice(false, false, None, Refused, None) else w.choices[0];
    var choices := if w.choices == [] then [] else w.choices[1..];
    ReachesSelf(w.sys);
    if w.others == [] {
      w' := World(w.sys, [], choices);
    } else {
      InterferedReaches(w.sys, w.sys, p, w.others[0]);
      w' := World(Interfered(w.sys, p, w.others[0]), w.others[1..], choices);
    }
  }

  /** The call itself, as one step of process `p`. */
  method Call(w: World, a: Action) returns (w': World)
    requires Inv(w.sys) && Next(w.sys, a).Some?
    ensures w' == w.(sys := Next(w.sys, a).value) && Stepped(w, w')
  {
    w' := w.(sys := Next(w.sys, a).value);
    ReachesSelf(w.sys);
    ReachesNext(w.sys, w.sys, a, w'.sys);
    InvStep(w.sys, a, w'.sys);
    StepEvolves(w.sys, a, w'.sys);
  }

  method BlobDelete(w: World, p: nat, id: Id, sweeping: seq<Id>) returns (ok: bool, w': World)
    requires Inv(w.sys)
    requires if sweeping == [] then At(w.sys, p, Some(CleaningBlob(id)))
      else id == sweeping[0] && At(w.sys, p, Some(SweepingBlob(sweeping)))
    ensures Stepped(w, w')
    ensures sweeping == [] ==> At(w'.sys, p, Some(CleaningRow(id)))
    ensures sweeping != [] ==> At(w'.sys, p, if ok then Some(SweepingRow(sweeping)) else None)
    ensures w.others == [] ==> w'.sys.rows == w.sys.rows
    ensures Smooth(w, 1) ==> ok && Spent(w, w', 1) && w'.sys.blobs == w.sys.blobs - {id}
  {
    var choice, w1 := Await(w, p);
    ok := choice.fate == Applied;
    if sweeping == [] {
      w' := Call(w1, CleanBlob(p, choice.fate));
    } else {
      w' := Call(w1, SweepBlob(p, choice.fate));
    }
    SteppedTrans(w, w1, w');
  }

  /** cleanupIncomplete: best effort, errors ignored. */
  method CleanupIncomplete(w: World, p: nat, id: Id) returns (w': World)
    requires Inv(w.sys) && At(w.sys, p, Some(CleaningBlob(id)))
    ensures Stepped(w, w') && At(w'.sys, p, None)
    ensures w.others == [] ==> SameReady(w.sys.rows, w'.sys.rows)
  {
    var _, w1 := BlobDelete(w, p, id, []);
    var choice, w2 := Await(w1, p);
    SteppedTrans(w, w1, w2);
    w' := Call(w2, CleanRow(p, choice.commits));
    SteppedTrans(w, w2, w');
  }

  /** cleanupFiles: deletes the blob, then the row, of each file, and stops at the first error. */
  method CleanupFiles(w: World, p: nat, files: seq<Id>) returns (ok: bool, w': World)
    requires Inv(w.sys) && At(w.sys, p, if files == [] then None else Some(SweepingBlob(files)))
    ensures Stepped(w, w') && At(w'.sys, p, None)
    ensures ok ==> forall id | id in files :: id !in w'.sys.rows
    ensures w.others == [] ==> Shrinks(w.sys.rows, w'.sys.rows)
    ensures Smooth(w, 2 * |files|) ==>
      ok && Cleaned(w.sys, w'.sys, files)
  {
    ok, w' := true, w;
    ReachesSelf(w.sys);
    assert files[0..] == files;
    for i := 0 to |files|
      invariant ok && Stepped(w, w')
      invariant At(w'.sys, p, if files[i..] == [] then None else Some(SweepingBlob(files[i..])))
      invariant forall k :: 0 <= k < i ==> files[k] in w'.sys.used && files[k] !in w'.sys.rows
      invariant w.others == [] ==> Shrinks(w.sys.rows, w'.sys.rows)
      invariant Smooth(w, 2 * |files|) ==> Spent(w, w', 2 * i) && Cleaned(w.sys, w'.sys, files[..i])
    {
      ghost var before := w';
      ok, w' := CleanupFile(w', p, files[i..]);
      SteppedTrans(w, before, w');
      if Smooth(w, 2 * |files|) {
        SmoothOn(w, before, 2 * i, 2 * |files|);
        SpentTrans(w, before, w', 2 * i, 2);
        CleanedSnoc(w.sys, before.sys, w'.sys, files, i);
      }
      if !ok { return; }
      assert files[i..][1..] == files[i + 1..];
    }
    assert files[..|files|] == files;
  }

  /** The rows and blobs of `files` are gone, and no others. */
  ghost predicate Cleaned(sys: System, s': System, files: seq<Id>) {
    s'.rows == sys.rows - Elements(files) && s'.blobs == sys.blobs - Elements(files)
  }

  lemma {:induction false} CleanedSnoc(sys: System, s: System, s': System, files: seq<Id>, i: nat)
    requires i < |files| && Cleaned(sys, s, files[..i])
    requires s'.rows == s.rows - {files[i]} && s'.blobs == s.blobs - {files[i]}
    ensures Cleaned(sys, s', files[..i + 1])
  {
    ElementsSnoc(files[..i], files[i]);
    assert files[..i + 1] == files[..i] + [files[i]];
  }

  ghost predicate Shrinks(rows: map<Id, Row>, rows': map<Id, Row>) {
    && (forall id | id in rows' :: id in rows && rows'[id] == rows[id])
    && (forall id | id in rows && rows[id].state == Ready :: id in rows')
  }

  /** The same rows are ready, with the same contents. */
  ghost predicate SameReady(rows: map<Id, Row>, rows': map<Id, Row>) {
    && (forall id | id in rows && rows[id].state == Ready :: id in rows' && rows'[id] == rows[id])
    && (forall id | id in rows' && rows'[id].state == Ready :: id in rows && rows[id] == rows'[id])
  }

  method CleanupFile(w: World, p: nat, files: seq<Id>) returns (ok: bool, w': World)
    requires Inv(w.sys) && files != [] && At(w.sys, p, Some(SweepingBlob(files)))
    ensures Stepped(w, w')
    ensures At(w'.sys, p, if ok && files[1..] != [] then Some(SweepingBlob(files[1..])) else None)
    ensures ok ==> files[0] in w'.sys.used && files[0] !in w'.sys.rows
    ensures w.others == [] ==> Shrinks(w.sys.rows, w'.sys.rows)
    ensures Smooth(w, 2) ==>
      ok && Spent(w, w', 2) && w'.sys.rows == w.sys.rows - {files[0]} && w'.sys.blobs == w.sys.blobs - {files[0]}
  {
    var deleted, w1 := BlobDelete(w, p, files[0], files);
    if !deleted { return false, w1; }
    ok, w' := RowDelete(w1, p, files);
    SteppedTrans(w, w1, w');
    if Smooth(w, 2) {
      SmoothOn(w, w1, 1, 2);
      SpentTrans(w, w1, w', 1, 1);
    }
  }

  method RowDelete(w: World, p: nat, files: seq<Id>) returns (ok: bool, w': World)
    requires Inv(w.sys) && files != [] && At(w.sys, p, Some(SweepingRow(files)))
    ensures Stepped(w, w')
    ensures At(w'.sys, p, if ok && files[1..] != [] then Some(SweepingBlob(files[1..])) else None)
    ensures ok ==> files[0] in w'.sys.used && files[0] !in w'.sys.rows
    ensures w.others == [] ==> Shrinks(w.sys.rows, w'.sys.rows)
    ensures Smooth(w, 1) ==>
      ok && Spent(w, w', 1) && w'.sys.rows == w.sys.rows - {files[0]} && w'.sys.blobs == w.sys.blobs
  {
    var choice, w1 := Await(w, p);
    assert Removes(w1.sys.procs[p], files[0]) && NeverReady(w1.sys, files[0]);
    w' := Call(w1, SweepRow(p, choice.commits, choice.ack));
    SteppedTrans(w, w1, w');
    ok := choice.commits && choice.ack;
  }

  method BeginUploading(w: World, p: nat, id: Id, kind: Kind) returns (ok: bool, w': World)
    requires Inv(w.sys) && At(w.sys, p, None)
    ensures Stepped(w, w') && At(w'.sys, p, if ok then Some(Putting(id)) else None)
    ensures w.others == [] ==> SameReady(w.sys.rows, w'.sys.rows)
    ensures w.others == [] && ok ==> id in w'.sys.rows && w'.sys.rows[id] == Row(kind, Uploading, NO_INFO)
    ensures Smooth(w, 1) && id !in w.sys.used && !SessionMarked(kind, w.sys.marked) ==>
      && ok && Spent(w, w', 1) && w'.sys.marked == w.sys.marked
      && w'.sys.rows == w.sys.rows[id := Row(kind, Uploading, NO_INFO)] && w'.sys.blobs == w.sys.blobs
  {
    var choice, w1 := Await(w, p);
    if id in w1.sys.used || SessionMarked(kind, w1.sys.marked) || !choice.commits { return false, w1; }
    w' := Call(w1, BeginUpload(p, id, kind, choice.ack));
    SteppedTrans(w, w1, w');
    ok := choice.ack;
  }

  /** Puts the blob; a put that does not store what was expected counts as failed. */
  method BlobPut(w: World, p: nat, id: Id, expected: Option<Info>) returns (info: Option<Info>, w': World)
    requires Inv(w.sys) && At(w.sys, p, Some(Putting(id)))
    ensures Stepped(w, w')
    ensures At(w'.sys, p, Some(if info.Some? then Completing(id, info.value) else CleaningBlob(id)))
    ensures info.Some? && expected.Some? ==> info == expected
    ensures w.others == [] ==> w'.sys.rows == w.sys.rows
    ensures Smooth(w, 1) && (expected.Some? ==> w.choices[0].stored == expected) ==>
      && info == w.choices[0].stored && Spent(w, w', 1) && w'.sys.marked == w.sys.marked
      && w'.sys.blobs == w.sys.blobs[id := info.value]
  {
    var choice, w1 := Await(w, p);
    info := choice.stored;
    if !choice.ack || (expected.Some? && info != expected) { info := None; }
    w' := Call(w1, Put(p, choice.stored, info.Some?));
    SteppedTrans(w, w1, w');
  }

  predicate Completable(rows: map<Id, Row>, id: Id) {
    id in rows && rows[id].state == Uploading
  }

  method CompleteUploading(w: World, p: nat, id: Id, info: Info) returns (file: Option<Row>, w': World)
    requires Inv(w.sys) && At(w.sys, p, Some(Completing(id, info)))
    ensures Stepped(w, w') && At(w'.sys, p, None)
    ensures file.Some? ==>
      id in w'.sys.rows && w'.sys.rows[id] == file.value && file.value.state == Ready && file.value.info == info
    ensures Smooth(w, 1) && Completable(w.sys.rows, id) && !w.sys.rows[id].kind.SessionOutput? ==>
      && file == Some(Row(w.sys.rows[id].kind, Ready, info))
      && w'.sys.rows == w.sys.rows[id := file.value] && w'.sys.blobs == w.sys.blobs
  {
    var choice, w1 := Await(w, p);
    var commits := choice.commits && id in w1.sys.rows && w1.sys.rows[id].state == Uploading
        && !w1.sys.rows[id].kind.SessionOutput?;
    w' := Call(w1, Complete(p, commits, choice.ack, None, []));
    SteppedTrans(w, w1, w');
    file := if commits && choice.ack then Some(w'.sys.rows[id]) else None;
  }

  method Upload(w: World, p: nat, id: Id, kind: Kind) returns (file: Option<Row>, w': World)
    requires Inv(w.sys) && At(w.sys, p, None) && !kind.SessionOutput?
    ensures Stepped(w, w') && At(w'.sys, p, None)
    ensures file.Some? ==>
      && id in w'.sys.rows && w'.sys.rows[id] == file.value && file.value.state == Ready
      && id in w'.sys.blobs && w'.sys.blobs[id] == file.value.info
    ensures Smooth(w, 3) && id !in w.sys.used ==>
      && file == Some(Row(kind, Ready, w.choices[1].stored.value))
      && w'.sys.rows == w.sys.rows[id := file.value] && w'.sys.blobs == w.sys.blobs[id := file.value.info]
  {
    file := None;
    var begun, w1 := BeginUploading(w, p, id, kind);
    if !begun { return file, w1; }
    var info, w2 := BlobPut(w1, p, id, None);
    SteppedTrans(w, w1, w2);
    if info.None? {
      w' := CleanupIncomplete(w2, p, id);
    } else {
      file, w' := CompleteUploading(w2, p, id, info.value);
    }
    SteppedTrans(w, w2, w');
  }

  lemma {:induction false} ElementsSnoc(ids: seq<Id>, id: Id)
    ensures Elements(ids + [id]) == Elements(ids) + {id}
  {
  }

  method Listing(ids: set<Id>) returns (listing: seq<Id>)
    ensures Elements(listing) == ids && |listing| == |ids|
  {
    listing := [];
    var rest := ids;
    while rest != {}
      invariant Elements(listing) == ids - rest && rest <= ids && |listing| + |rest| == |ids|
    {
      var id :| id in rest;
      ElementsSnoc(listing, id);
      listing, rest := listing + [id], rest - {id};
    }
  }

  /** Some ready row shows this content under this session and path. */
  ghost predicate Shown(rows: map<Id, Row>, kind: Kind, info: Info) {
    exists id :: id in rows && rows[id] == Row(kind, Ready, info)
  }

  /** `info` is what is shown under `kind`, and everything else is shown as before. */
  ghost predicate ShowsInstead(rows: map<Id, Row>, rows': map<Id, Row>, kind: Kind, info: Info) {
    forall k, i :: Shown(rows', k, i) <==> if k == kind then i == info else Shown(rows, k, i)
  }

  lemma {:induction false} DuplicateShows(rows: map<Id, Row>, kind: Kind, info: Info, current: Id)
    requires OutputsUnique(rows) && kind.SessionOutput? && current in OfKind(rows, kind, Ready)
        && rows[current].info == info
    ensures ShowsInstead(rows, rows, kind, info)
  {
    forall k, i ensures Shown(rows, k, i) <==> if k == kind then i == info else Shown(rows, k, i) {
      assert rows[current] == Row(kind, Ready, info);
    }
  }

  lemma {:induction false} ReplacedShows(rows: map<Id, Row>, id: Id, info: Info, current: Option<Id>)
    requires OutputsUnique(rows) && id in rows && rows[id].state == Uploading && rows[id].kind.SessionOutput?
    requires if current.Some? then current.value in OfKind(rows, rows[id].kind, Ready)
        else OfKind(rows, rows[id].kind, Ready) == {}
    ensures ShowsInstead(rows, Replaced(rows, id, info, current), rows[id].kind, info)
  {
    var kind, rows' := rows[id].kind, Replaced(rows, id, info, current);
    forall k, i ensures Shown(rows', k, i) <==> if k == kind then i == info else Shown(rows, k, i) {
      assert rows'[id] == Row(kind, Ready, info);
      if Shown(rows', k, i) {
        var x :| x in rows' && rows'[x] == Row(k, Ready, i);
        if x != id {
          assert rows[x] == rows'[x];
          if k == kind { ReadyIsCurrent(rows, kind, x, current); }
        }
      }
      if k != kind && Shown(rows, k, i) {
        var x :| x in rows && rows[x] == Row(k, Ready, i);
        assert rows'[x] == rows[x];
      }
    }
  }

  method CurrentOutput(rows: map<Id, Row>, kind: Kind) returns (current: Option<Id>)
    ensures if current.Some? then current.value in OfKind(rows, kind, Ready) else OfKind(rows, kind, Ready) == {}
  {
    var ready := OfKind(rows, kind, Ready);
    if ready == {} { return None; }
    var c :| c in ready;
    current := Some(c);
  }

  /** There is room for an output: its path is shown already, or fewer than 500 outputs are. */
  ghost predicate HasRoom(rows: map<Id, Row>, session: string, path: string) {
    OfKind(rows, SessionOutput(session, path), Ready) != {} || |ReadyOutputs(rows, session)| < 500
  }

  ghost predicate CanComplete(sys: System, id: Id, session: string, path: string) {
    && Completable(sys.rows, id) && sys.rows[id].kind == SessionOutput(session, path)
    && session !in sys.marked && HasRoom(sys.rows, session, path)
  }

  lemma {:induction false} OneMoreDeleting(rows: map<Id, Row>, id: Id, info: Info, current: Option<Id>)
    requires id in rows && (current.Some? ==> current.value in rows)
    ensures |OfKind(Replaced(rows, id, info, current), rows[id].kind, Deleting)|
        <= |OfKind(rows, rows[id].kind, Deleting)| + 1
  {
    var kind := rows[id].kind;
    var before, after := OfKind(rows, kind, Deleting), OfKind(Replaced(rows, id, info, current), kind, Deleting);
    var more := before + if current.Some? then {current.value} else {};
    assert after <= more;
    SubsetSize(after, more);
  }

  lemma {:induction false} SubsetSize(a: set<Id>, b: set<Id>)
    requires a <= b
    ensures |a| <= |b|
  {
    assert b == a + (b - a);
  }

  /** The transaction of CompleteSessionOutput: `garbage` is what it asks to clean up. */
  method CompleteSessionOutput(w: World, p: nat, id: Id, info: Info, ghost session: string, ghost path: string)
      returns (ok: bool, garbage: seq<Id>, w': World)
    requires Inv(w.sys) && At(w.sys, p, Some(Completing(id, info)))
    ensures Stepped(w, w')
    ensures At(w'.sys, p, if garbage != [] then Some(SweepingBlob(garbage)) else None)
    ensures !ok ==> garbage == []
    ensures ok ==> id in w'.sys.rows && Shown(w'.sys.rows, w'.sys.rows[id].kind, info)
    ensures ok && w'.sys.rows[id].state != Ready ==> id in garbage
    ensures ok && w.others == [] && OutputsUnique(w.sys.rows) ==>
      id in w.sys.rows && ShowsInstead(w.sys.rows, w'.sys.rows, w.sys.rows[id].kind, info)
    ensures Smooth(w, 1) && CanComplete(w.sys, id, session, path) ==>
      && ok && Spent(w, w', 1)
      && |garbage| <= |OfKind(w.sys.rows, w.sys.rows[id].kind, Deleting)| + 1
  {
    var choice, w1 := Await(w, p);
    ok, garbage := false, [];
    var rows := w1.sys.rows;
    if !choice.commits || id !in rows || rows[id].state != Uploading || !rows[id].kind.SessionOutput?
        || SessionMarked(rows[id].kind, w1.sys.marked) {
      w' := Call(w1, Complete(p, false, false, None, []));
      SteppedTrans(w, w1, w');
      return;
    }
    var kind := rows[id].kind;
    var current := CurrentOutput(rows, kind);
    var list := [];
    if current.Some? && rows[current.value].info == info {
      list := Listing(OfKind(rows, kind, Deleting) + {id});
    } else if current.None? && |ReadyOutputs(rows, kind.session)| >= MAX_OUTPUTS {
      w' := Call(w1, Complete(p, true, choice.ack, None, []));
      SteppedTrans(w, w1, w');
      return;
    } else {
      list := Listing(OfKind(Replaced(rows, id, info, current), kind, Deleting));
      OneMoreDeleting(rows, id, info, current);
    }
    w' := Call(w1, Complete(p, true, choice.ack, current, list));
    SteppedTrans(w, w1, w');
    if choice.ack {
      ok, garbage := true, list;
      if current.Some? && rows[current.value].info == info {
        assert id in Elements(garbage) && w'.sys.rows == rows;
        assert rows[current.value] == Row(kind, Ready, info);
        if OutputsUnique(rows) { DuplicateShows(rows, kind, info, current.value); }
      } else {
        assert w'.sys.rows[id] == Row(kind, Ready, info);
        if OutputsUnique(rows) { ReplacedShows(rows, id, info, current); }
      }
    }
  }

  /** The id is fresh, the session is not being deleted, there is room, the object store keeps
      what it is given, and all goes through. */
  ghost predicate Publishable(w: World, id: Id, session: string, path: string, expected: Info) {
    && Smooth(w, 5 + 2 * |OfKind(w.sys.rows, SessionOutput(session, path), Deleting)|)
    && w.choices[1].stored == Some(expected)
    && id !in w.sys.used && session !in w.sys.marked && HasRoom(w.sys.rows, session, path)
  }

  lemma {:induction false} UploadingUnseen(rows: map<Id, Row>, id: Id, kind: Kind, k: Kind, state: RowState)
    requires id !in rows && state != Uploading
    ensures OfKind(rows[id := Row(kind, Uploading, NO_INFO)], k, state) == OfKind(rows, k, state)
  {
    var rows' := rows[id := Row(kind, Uploading, NO_INFO)];
    assert id in rows' && rows'[id].state == Uploading;
    assert forall x :: x in rows ==> x != id && x in rows' && rows'[x] == rows[x];
    assert OfKind(rows, k, state) <= OfKind(rows', k, state) <= OfKind(rows, k, state);
  }

  lemma {:induction false} UploadingHidden(rows: map<Id, Row>, id: Id, kind: Kind, session: string, path: string)
    requires id !in rows
    ensures var rows' := rows[id := Row(kind, Uploading, NO_INFO)];
      && OfKind(rows', kind, Deleting) == OfKind(rows, kind, Deleting)
      && (HasRoom(rows, session, path) ==> HasRoom(rows', session, path))
  {
    var rows' := rows[id := Row(kind, Uploading, NO_INFO)];
    assert id in rows' && rows'[id].state == Uploading;
    assert forall x :: x in rows ==> x != id && x in rows' && rows'[x] == rows[x];
    assert ReadyOutputs(rows, session) <= ReadyOutputs(rows', session) <= ReadyOutputs(rows, session);
    assert ReadyOutputs(rows', session) == ReadyOutputs(rows, session);
    UploadingUnseen(rows, id, kind, kind, Deleting);
    UploadingUnseen(rows, id, kind, SessionOutput(session, path), Ready);
  }

  /** The first two calls of a publication that can succeed leave a completion that can. */
  lemma {:induction false} Committable(w: World, w2: World, id: Id, session: string, path: string, expected: Info)
    requires Inv(w.sys) && Publishable(w, id, session, path, expected) && Spent(w, w2, 2)
    requires w2.sys.rows == w.sys.rows[id := Row(SessionOutput(session, path), Uploading, NO_INFO)]
    ensures Smooth(w2, 3 + 2 * |OfKind(w2.sys.rows, SessionOutput(session, path), Deleting)|)
    ensures HasRoom(w2.sys.rows, session, path)
  {
    UploadingHidden(w.sys.rows, id, SessionOutput(session, path), session, path);
    SmoothOn(w, w2, 2, 5 + 2 * |OfKind(w.sys.rows, SessionOutput(session, path), Deleting)|);
  }

  /** Publishes one output of a session and cleans up what it replaced. */
  method PublishOne(w: World, p: nat, id: Id, session: string, path: string, expected: Info)
      returns (ok: bool, w': World)
    requires Inv(w.sys) && At(w.sys, p, None)
    ensures Stepped(w, w') && At(w'.sys, p, None)
    ensures ok && w.others == [] && OutputsUnique(w.sys.rows) ==>
      ShowsInstead(w.sys.rows, w'.sys.rows, SessionOutput(session, path), expected)
    ensures Publishable(w, id, session, path, expected) ==> ok
  {
    ok := false;
    var begun, w1 := BeginUploading(w, p, id, SessionOutput(session, path));
    if !begun { return false, w1; }
    var info, w2 := BlobPut(w1, p, id, Some(expected));
    SteppedTrans(w, w1, w2);
    if info.None? {
      w' := CleanupIncomplete(w2, p, id);
      SteppedTrans(w, w2, w');
      return;
    }
    ok, w' := FinishPublishing(w2, p, id, session, path, expected);
    SteppedTrans(w, w2, w');
    if Publishable(w, id, session, path, expected) {
      SpentTrans(w, w1, w2, 1, 1);
      Committable(w, w2, id, session, path, expected);
    }
    if ok && w.others == [] && OutputsUnique(w.sys.rows) {
      ShowsThrough(w.sys.rows, w2.sys.rows, w'.sys.rows, w'.sys.rows, SessionOutput(session, path), expected);
    }
  }

  /** The completing transaction, and the cleanup it asks for. */
  method FinishPublishing(w: World, p: nat, id: Id, session: string, path: string, expected: Info)
      returns (ok: bool, w': World)
    requires Inv(w.sys) && At(w.sys, p, Some(Completing(id, expected)))
    ensures Stepped(w, w') && At(w'.sys, p, None)
    ensures ok && w.others == [] && OutputsUnique(w.sys.rows) ==>
      id in w.sys.rows && ShowsInstead(w.sys.rows, w'.sys.rows, w.sys.rows[id].kind, expected)
    ensures CanComplete(w.sys, id, session, path) ==>
      Smooth(w, 3 + 2 * |OfKind(w.sys.rows, SessionOutput(session, path), Deleting)|) ==> ok
  {
    var completed, garbage, w1 := CompleteSessionOutput(w, p, id, expected, session, path);
    if !completed { return false, w1; }
    if Smooth(w, 1 + 2 * |garbage|) && Spent(w, w1, 1) { SmoothOn(w, w1, 1, 1 + 2 * |garbage|); }
    ok, w' := CleanupFiles(w1, p, garbage);
    SteppedTrans(w, w1, w');
    if w.others == [] && OutputsUnique(w.sys.rows) {
      ShowsThrough(w.sys.rows, w.sys.rows, w1.sys.rows, w'.sys.rows, w.sys.rows[id].kind, expected);
    }
  }

  lemma {:induction false} SameReadyShown(rows: map<Id, Row>, rows': map<Id, Row>, k: Kind, i: Info)
    requires SameReady(rows, rows')
    ensures Shown(rows, k, i) <==> Shown(rows', k, i)
  {
    if Shown(rows, k, i) {
      var x :| x in rows && rows[x] == Row(k, Ready, i);
      assert rows'[x] == rows[x];
    }
    if Shown(rows', k, i) {
      var x :| x in rows' && rows'[x] == Row(k, Ready, i);
      assert rows[x] == rows'[x];
    }
  }

  /** Beginning an upload and cleaning up around a completion do not change what is shown. */
  lemma {:induction false} ShowsThrough(a: map<Id, Row>, b: map<Id, Row>, c: map<Id, Row>, d: map<Id, Row>, kind: Kind,
      info: Info)
    requires SameReady(a, b) && ShowsInstead(b, c, kind, info) && Shrinks(c, d)
    ensures ShowsInstead(a, d, kind, info)
  {
    forall k, i ensures Shown(d, k, i) <==> if k == kind then i == info else Shown(a, k, i) {
      SameReadyShown(a, b, k, i);
      SameReadyShown(c, d, k, i);
      assert Shown(c, k, i) <==> if k == kind then i == info else Shown(b, k, i);
    }
  }

  method Delete(w: World, p: nat, id: Id) returns (ok: bool, w': World)
    requires Inv(w.sys) && At(w.sys, p, None)
    ensures Stepped(w, w') && At(w'.sys, p, None)
    ensures ok ==> id !in w'.sys.rows
    ensures Smooth(w, 3) && id in w.sys.rows && w.sys.rows[id].state == Ready ==>
      ok && w'.sys.rows == w.sys.rows - {id} && w'.sys.blobs == w.sys.blobs - {id}
  {
    var choice;
    choice, w' := Await(w, p);
    if id !in w'.sys.rows || w'.sys.rows[id].state != Ready || !choice.commits { return false, w'; }
    ghost var before := w';
    w' := Call(w', BeginDelete(p, id, choice.ack));
    SteppedTrans(w, before, w');
    if !choice.ack { return false, w'; }
    before := w';
    ok, w' := CleanupFiles(w', p, [id]);
    SteppedTrans(w, before, w');
    assert id in [id];
  }

  /** Removes what a crash left behind. Run alone and without an error it leaves only ready
      rows, and every ready row. */
  method Reconcile(w: World, p: nat, skills: bool, listing: seq<Id>) returns (ok: bool, w': World)
    requires Inv(w.sys) && At(w.sys, p, None)
    requires w.others == [] && NoUploads(w.sys, skills) && Elements(listing) == Incomplete(w.sys.rows, skills)
    ensures Stepped(w, w') && At(w'.sys, p, None)
    ensures Shrinks(w.sys.rows, w'.sys.rows)
    ensures ok ==> Incomplete(w'.sys.rows, skills) == {}
    ensures Smooth(w, 1 + 2 * |listing|) ==> ok && Cleaned(w.sys, w'.sys, listing)
  {
    var choice;
    choice, w' := Await(w, p);
    if !choice.ack { return false, w'; }
    ghost var before := w';
    w' := Call(w', BeginReconcile(p, skills, listing));
    SteppedTrans(w, before, w');
    before := w';
    ok, w' := CleanupFiles(w', p, listing);
    SteppedTrans(w, before, w');
    if ok { AllSwept(w.sys.rows, w'.sys.rows, skills, listing); }
  }

  lemma {:induction false} AllSwept(rows: map<Id, Row>, rows': map<Id, Row>, skills: bool, listing: seq<Id>)
    requires Elements(listing) == Incomplete(rows, skills) && Shrinks(rows, rows')
    requires forall id | id in listing :: id !in rows'
    ensures Incomplete(rows', skills) == {}
  {
    forall id | id in rows' && InTable(rows'[id], skills) ensures rows'[id].state == Ready {
      assert id in Incomplete(rows, skills) ==> id in Elements(listing);
    }
  }
}
