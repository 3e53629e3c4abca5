/** Scheduled Deployment runs (internal/app/deployment_service.go, over the transactions of
    internal/pg/deployment.go and internal/pg/store.go).

    Workers run RunScheduled for an occurrence any number of times, concurrently, whatever
    leases say. Each repository call is one step; it may fail, or commit without being
    acknowledged, and a worker may crash between any two steps. Times are nanoseconds; the
    store keeps microseconds. */
module ScheduledRuns {
  import opened Conversation

  datatype Status = Active | Paused

  datatype PausedReason = Manual | ErrorReason(errorType: string)

  /** `upcoming` is absent when the deployment has no schedule; `config` stands for every
      other field an owner may edit. */
  datatype Deployment = Deployment(
    status: Status,
    reason: Option<PausedReason>,
    archivedAt: Option<nat>,
    updatedAt: nat,
    upcoming: Option<seq<nat>>,
    lastRunAt: Option<nat>,
    config: string)

  /** What an owner asks to change: the configuration, and the schedule, set or removed. */
  datatype Patch = Patch(config: Option<string>, schedule: Option<Option<seq<nat>>>)

  /** An owner's update between its read and its write. */
  datatype Edit = Edit(deployment: string, read: Deployment, patch: Patch)

  datatype Run = Run(
    id: string,
    deployment: string,
    scheduledAt: Option<nat>,
    createdAt: nat,
    session: Option<string>,
    errorType: string)

  function Micros(t: nat): nat {
    t / 1000 * 1000
  }

  function ChangedAt(previous: nat, now: nat): nat {
    if Micros(now) > Micros(previous) then Micros(now) else Micros(previous) + 1000
  }

  predicate ShouldPause(errorType: string) {
    errorType != "" && errorType != "session_rate_limited_error" && errorType != "unknown_error"
  }

  lemma {:induction false} ShouldPauseExactly(errorType: string)
    ensures ShouldPause(errorType) <==> errorType !in {"", "session_rate_limited_error", "unknown_error"}
  {
  }

  function NextRunAt(d: Deployment): Option<nat> {
    if d.archivedAt.Some? || d.status != Active || d.upcoming.None? || d.upcoming.value == [] then None
    else Some(d.upcoming.value[0])
  }

  // ---------------------------------------------------------------- updates of a deployment

  function Created(now: nat, config: string, schedule: Option<seq<nat>>): Deployment {
    Deployment(Active, None, None, Micros(now), schedule, None, config)
  }

  function Patched(d: Deployment, patch: Patch): Deployment {
    var d := if patch.config.Some? then d.(config := patch.config.value) else d;
    if patch.schedule.Some? then d.(upcoming := patch.schedule.value, lastRunAt := None) else d
  }

  /** What an update writes over the locked row: what was read, patched. Nothing is written for
      an archived deployment, for a patch without effect, or when the row changed meanwhile. */
  function Updated(locked: Deployment, edit: Edit, now: nat): Deployment {
    var next := Patched(edit.read, edit.patch);
    if edit.read.archivedAt.Some? || next == edit.read || locked.updatedAt != edit.read.updatedAt then locked
    else next.(updatedAt := ChangedAt(edit.read.updatedAt, now))
  }

  function PausedByUser(d: Deployment, now: nat): Deployment {
    if d.archivedAt.Some? || (d.status == Paused && d.reason == Some(Manual)) then d
    else d.(status := Paused, reason := Some(Manual), updatedAt := ChangedAt(d.updatedAt, now))
  }

  function Unpaused(d: Deployment, now: nat, upcoming: seq<nat>): Deployment {
    if d.archivedAt.Some? || d.status == Active then d
    else d.(status := Active, reason := None, updatedAt := ChangedAt(d.updatedAt, now),
            upcoming := if d.upcoming.Some? then Some(upcoming) else None)
  }

  function Archived(d: Deployment, now: nat): Deployment {
    if d.archivedAt.Some? then d
    else
      var at := ChangedAt(d.updatedAt, now);
      d.(archivedAt := Some(at), updatedAt := at, upcoming := if d.upcoming.Some? then Some([]) else None)
  }

  function PausedForError(d: Deployment, errorType: string, now: nat): Deployment {
    if d.archivedAt.Some? then d
    else if d.status == Paused && d.reason == Some(Manual) then d
    else if d.status == Paused && d.reason == Some(ErrorReason(errorType)) then d
    else d.(status := Paused, reason := Some(ErrorReason(errorType)), updatedAt := ChangedAt(d.updatedAt, now))
  }

  function Completed(d: Deployment, at: nat, lastRunAt: nat, upcoming: seq<nat>): Deployment {
    if NextRunAt(d) != Some(at) then d
    else
      var last := Micros(lastRunAt);
      d.(lastRunAt := Some(last), upcoming := Some(upcoming), updatedAt :=
          Micros(if d.updatedAt < last then last else d.updatedAt))
  }

  /** Recovery never overwrites an archived deployment or a user's pause; any other deployment
      ends up paused for the error, and repeating it changes nothing. */
  lemma RecoverySpares(d: Deployment, errorType: string, now: nat, later: nat)
    ensures var p := PausedForError(d, errorType, now);
      && (d.archivedAt.Some? || (d.status == Paused && d.reason == Some(Manual)) ==> p == d)
      && (d.archivedAt.None? && !(d.status == Paused && d.reason == Some(Manual)) ==>
            p.status == Paused && p.reason == Some(ErrorReason(errorType)) && NextRunAt(p) == None)
      && PausedForError(p, errorType, later) == p
      && (p != d <==> p.updatedAt > d.updatedAt)
      && p.upcoming == d.upcoming && p.lastRunAt == d.lastRunAt && p.archivedAt == d.archivedAt
  {
  }

  /** `d'` is `d` after some changes: updated_at never moves back, an archived deployment stays
      as it is, and only schedule bookkeeping may change without moving updated_at forward. */
  predicate Later(d: Deployment, d': Deployment) {
    && d'.updatedAt >= d.updatedAt
    && (d.archivedAt.Some? ==> d' == d)
    && (d'.updatedAt == d.updatedAt ==> d' == d.(upcoming := d'.upcoming, lastRunAt := d'.lastRunAt))
  }

  predicate Kept(d: Deployment) {
    d.updatedAt == Micros(d.updatedAt)
  }

  /** A pause, an unpause, an archival and a recovery move updated_at strictly forward. */
  lemma UpdatesMoveForward(d: Deployment, now: nat, errorType: string, upcoming: seq<nat>)
    ensures forall d' | d' in {PausedByUser(d, now), Unpaused(d, now, upcoming), Archived(d, now),
        PausedForError(d, errorType, now)} ::
      Later(d, d') && (d' == d || d'.updatedAt > d.updatedAt) && (Kept(d) ==> Kept(d'))
  {
  }

  lemma CompletedLater(d: Deployment, at: nat, last: nat, upcoming: seq<nat>)
    requires Kept(d)
    ensures Later(d, Completed(d, at, last, upcoming)) && Kept(Completed(d, at, last, upcoming))
  {
  }

  lemma UpdatedLater(locked: Deployment, edit: Edit, now: nat)
    requires Kept(locked) && Later(edit.read, locked)
    ensures var d := Updated(locked, edit, now);
      Later(locked, d) && Kept(d) && (d == locked || d.updatedAt > locked.updatedAt)
  {
  }

  /** A schedule advance leaves updated_at alone exactly when the run is not newer than the
      last update. */
  lemma AdvanceUnseen(d: Deployment, at: nat, last: nat, upcoming: seq<nat>)
    requires Kept(d)
    ensures Completed(d, at, last, upcoming).updatedAt == d.updatedAt <==>
        NextRunAt(d) != Some(at) || Micros(last) <= d.updatedAt
  {
  }

  // ---------------------------------------------------------------- workers

  /** What a worker does next. */
  datatype Proc =
    | Looking(dep: string, at: nat)
    | Loading(dep: string, at: nat)
    | Creating(run: Run)
    | Rechecking(run: Run, errorType: string)
    | Recording(run: Run)
    | CheckingAgain(dep: string, at: nat)
    | Pausing(run: Run)
    | Recovering(run: Run)
    | Reading(run: Run)
    | Advancing(run: Run, upcoming: seq<nat>)
    | Returned(run: Run)

  datatype Entry = PausedFor(runId: string) | Advanced(runId: string)

  /** `index` is the store's unique index of scheduled runs by deployment and time; `sessions`
      names the run each deployment session was created with; `history` records the recoveries
      and schedule advances that committed; `edits` holds the owners' updates under way. */
  datatype System = System(
    deployments: map<string, Deployment>,
    runs: map<string, Run>,
    index: map<(string, nat), string>,
    sessions: map<string, string>,
    procs: map<nat, Proc>,
    used: set<string>,
    history: seq<Entry>,
    edits: map<nat, Edit>)

  datatype Action =
    | Begin(p: nat, dep: string, at: nat)
    | Look(p: nat, ok: bool)
    | Load(p: nat, ok: bool, runId: string, now: nat)
    | Create(p: nat, commits: bool, ack: bool, session: string, errorType: string)
    | Recheck(p: nat, ok: bool)
    | Record(p: nat, commits: bool, ack: bool)
    | CheckAgain(p: nat, ok: bool)
    | PauseFirst(p: nat, commits: bool, now: nat)
    | Recover(p: nat, commits: bool, ack: bool, now: nat)
    | Read(p: nat, ok: bool, upcoming: seq<nat>)
    | Advance(p: nat, commits: bool, ack: bool)
    | Crash(p: nat)
    | UserCreate(dep: string, now: nat, config: string, schedule: Option<seq<nat>>)
    | UserPause(dep: string, now: nat)
    | UserUnpause(dep: string, now: nat, upcoming: seq<nat>)
    | UserArchive(dep: string, now: nat)
    | BeginUpdate(o: nat, dep: string, patch: Patch)
    | CommitUpdate(o: nat, now: nat)
    | ManualRun(run: Run)
    | ManualPause(id: string, now: nat)

  function Stored(run: Run): Run {
    run.(createdAt := Micros(run.createdAt))
  }

  function Done(sys: System, p: nat): System {
    sys.(procs := sys.procs - {p})
  }

  function Become(sys: System, p: nat, proc: Proc): System {
    sys.(procs := sys.procs[p := proc])
  }

  function AfterRun(run: Run): Proc {
    if ShouldPause(run.errorType) then Recovering(run) else Reading(run)
  }

  /** A lookup by occurrence. */
  function Found(sys: System, dep: string, at: nat): Option<Run> {
    if dep in sys.deployments && (dep, at) in sys.index && sys.index[(dep, at)] in sys.runs then
      Some(sys.runs[sys.index[(dep, at)]])
    else None
  }

  /** Inserting a run, rejected when its occurrence is already recorded. */
  predicate Insertable(sys: System, run: Run) {
    && run.id !in sys.runs && run.deployment in sys.deployments
    && (run.scheduledAt.Some? ==> (run.deployment, run.scheduledAt.value) !in sys.index)
  }

  function Inserted(sys: System, run: Run): System {
    sys.(runs := sys.runs[run.id := Stored(run)],
         index := if run.scheduledAt.Some? then sys.index[(run.deployment, run.scheduledAt.value) := run.id]
             else sys.index)
  }

  function WithDeployment(sys: System, dep: string, d: Deployment): System {
    sys.(deployments := sys.deployments[dep := d])
  }

  function Logged(sys: System, e: Entry): System {
    sys.(history := sys.history + [e])
  }

  /** pauseForError as a transaction on the run's deployment. */
  function PauseTx(sys: System, run: Run, now: nat): System {
    if run.deployment !in sys.deployments then sys
    else
      Logged(WithDeployment(sys, run.deployment, PausedForError(sys.deployments[run.deployment], run.errorType, now)),
          PausedFor(run.id))
  }

  /** What a worker does with the outcome of a lookup. */
  function AfterLookup(sys: System, p: nat, found: Option<Run>, otherwise: Option<Proc>): System {
    if found.Some? then Become(sys, p, AfterRun(found.value))
    else if otherwise.Some? then Become(sys, p, otherwise.value)
    else Done(sys, p)
  }

  /** Steps that only read: lookups, loads, the end of a worker. */
  function Looked(sys: System, a: Action): Option<System>
    requires a.Begin? || a.Look? || a.Load? || a.Recheck? || a.CheckAgain? || a.Read? || a.Crash?
  {
    match a
    case Begin(p, dep, at) =>
      if p in sys.procs then None else Some(Become(sys, p, Looking(dep, Micros(at))))
    case Look(p, ok) =>
      if p !in sys.procs || !sys.procs[p].Looking? then None
      else if !ok then Some(Done(sys, p))
      else
        var (dep, at) := (sys.procs[p].dep, sys.procs[p].at);
        Some(AfterLookup(sys, p, Found(sys, dep, at), Some(Loading(dep, at))))
    case Load(p, ok, runId, now) =>
      if p !in sys.procs || !sys.procs[p].Loading? || runId in sys.used then None
      else
        var (dep, at) := (sys.procs[p].dep, sys.procs[p].at);
        if !ok || dep !in sys.deployments || sys.deployments[dep].archivedAt.Some?
            || sys.deployments[dep].status != Active then
          Some(Done(sys, p))
        else
          Some(Become(sys.(used := sys.used + {runId}), p, Creating(Run(runId, dep, Some(at), now, None, ""))))
    case Recheck(p, ok) =>
      if p !in sys.procs || !sys.procs[p].Rechecking? then None
      else
        var run := sys.procs[p].run;
        var found := if ok && run.scheduledAt.Some? then Found(sys, run.deployment, run.scheduledAt.value) else None;
        Some(AfterLookup(sys, p, found, Some(Recording(run.(errorType := sys.procs[p].errorType)))))
    case CheckAgain(p, ok) =>
      if p !in sys.procs || !sys.procs[p].CheckingAgain? then None
      else Some(AfterLookup(sys, p, if ok then Found(sys, sys.procs[p].dep, sys.procs[p].at) else None, None))
    case Read(p, ok, upcoming) =>
      if p !in sys.procs || !sys.procs[p].Reading? then None
      else
        var run := sys.procs[p].run;
        if ok && run.deployment in sys.deployments then Some(Become(sys, p, Advancing(run, upcoming)))
            else Some(Done(sys, p))
    case Crash(p) => Some(Done(sys, p))
  }

  /** Steps that may record a run. */
  function Wrote(sys: System, a: Action): Option<System>
    requires a.Create? || a.Record? || a.ManualRun?
  {
    match a
    case Create(p, commits, ack, session, errorType) =>
      if p !in sys.procs || !sys.procs[p].Creating? then None
      else
        var run := sys.procs[p].run;
        if commits && Insertable(sys, run) && session !in sys.sessions then
          var made := run.(session := Some(session));
          var s := Inserted(sys, made).(sessions := sys.sessions[session := run.id]);
          Some(Become(s, p, if ack then AfterRun(made) else Rechecking(run, errorType)))
        else Some(Become(sys, p, Rechecking(run, errorType)))
    case Record(p, commits, ack) =>
      if p !in sys.procs || !sys.procs[p].Recording? then None
      else
        var run := sys.procs[p].run;
        var s := if commits && Insertable(sys, run) then Inserted(sys, run) else sys;
        if commits && Insertable(sys, run) && ack then
          Some(Become(s, p, if ShouldPause(run.errorType) then Pausing(Stored(run)) else Reading(Stored(run))))
        else if run.scheduledAt.Some? then Some(Become(s, p, CheckingAgain(run.deployment, run.scheduledAt.value)))
        else Some(Done(s, p))
    case ManualRun(run) =>
      if run.id in sys.used || run.scheduledAt.Some? || !Insertable(sys, run)
          || (run.session.Some? && run.session.value in sys.sessions) then None
      else
        var s := Inserted(sys, run).(used := sys.used + {run.id});
        Some(if run.session.Some? then s.(sessions := sys.sessions[run.session.value := run.id]) else s)
  }

  /** Steps that may pause a deployment or advance its schedule. */
  function Settled(sys: System, a: Action): Option<System>
    requires a.PauseFirst? || a.Recover? || a.Advance?
  {
    match a
    case PauseFirst(p, commits, now) =>
      if p !in sys.procs || !sys.procs[p].Pausing? then None
      else
        var run := sys.procs[p].run;
        Some(Become(if commits then PauseTx(sys, run, now) else sys, p, Recovering(run)))
    case Recover(p, commits, ack, now) =>
      if p !in sys.procs || !sys.procs[p].Recovering? then None
      else
        var run := sys.procs[p].run;
        var s := if commits then PauseTx(sys, run, now) else sys;
        if commits && ack && run.deployment in sys.deployments then Some(Become(s, p, Reading(run)))
            else Some(Done(s, p))
    case Advance(p, commits, ack) =>
      if p !in sys.procs || !sys.procs[p].Advancing? || sys.procs[p].run.scheduledAt.None? then None
      else
        var run := sys.procs[p].run;
        if !commits || run.deployment !in sys.deployments then Some(Done(sys, p))
        else
          var d := sys.deployments[run.deployment];
          var s := Logged(WithDeployment(sys, run.deployment,
            Completed(d, run.scheduledAt.value, run.createdAt, sys.procs[p].upcoming)), Advanced(run.id));
          Some(if ack then Become(s, p, Returned(run)) else Done(s, p))
  }

  /** The pause that follows a manual run which failed; a manual run ignores its outcome. */
  function ManualPaused(sys: System, id: string, now: nat): Option<System> {
    if id in sys.runs && sys.runs[id].scheduledAt.None? && ShouldPause(sys.runs[id].errorType) then
      Some(PauseTx(sys, sys.runs[id], now))
    else None
  }

  /** What owners do to a deployment. */
  function Managed(sys: System, a: Action): Option<System>
    requires Manages(a)
  {
    match a
    case UserPause(dep, now) =>
      if dep in sys.deployments then Some(WithDeployment(sys, dep, PausedByUser(sys.deployments[dep], now))) else None
    case UserUnpause(dep, now, upcoming) =>
      if dep in sys.deployments then Some(WithDeployment(sys, dep, Unpaused(sys.deployments[dep], now, upcoming)))
          else None
    case UserArchive(dep, now) =>
      if dep in sys.deployments then Some(WithDeployment(sys, dep, Archived(sys.deployments[dep], now))) else None
    case UserCreate(dep, now, config, schedule) =>
      if dep in sys.deployments then None else Some(WithDeployment(sys, dep, Created(now, config, schedule)))
    case BeginUpdate(o, dep, patch) =>
      if dep !in sys.deployments || o in sys.edits then None
      else Some(sys.(edits := sys.edits[o := Edit(dep, sys.deployments[dep], patch)]))
    case CommitUpdate(o, now) =>
      if o !in sys.edits || sys.edits[o].deployment !in sys.deployments then None
      else
        var dep := sys.edits[o].deployment;
        Some(WithDeployment(sys, dep, Updated(sys.deployments[dep], sys.edits[o], now)).(edits := sys.edits - {o}))
  }

  function Next(sys: System, a: Action): Option<System> {
    if a.Create? || a.Record? || a.ManualRun? then Wrote(sys, a)
    else if a.PauseFirst? || a.Recover? || a.Advance? then Settled(sys, a)
    else if Manages(a) then Managed(sys, a)
    else if a.ManualPause? then ManualPaused(sys, a.id, a.now)
    else Looked(sys, a)
  }

  function RunAll(sys: System, run: seq<Action>): Option<System> {
    if run == [] then Some(sys)
    else
      var s := RunAll(sys, run[..|run| - 1]);
      if s.Some? then Next(s.value, run[|run| - 1]) else None
  }

  // ---------------------------------------------------------------- invariants

  /** The index lists exactly the scheduled runs, one for each occurrence. */
  ghost predicate Indexed(sys: System) {
    && (forall id | id in sys.runs :: sys.runs[id].id == id && id in sys.used)
    && (forall id | id in sys.runs && sys.runs[id].scheduledAt.Some? ::
          (sys.runs[id].deployment, sys.runs[id].scheduledAt.value) in sys.index
          && sys.index[(sys.runs[id].deployment, sys.runs[id].scheduledAt.value)] == id)
    && (forall key | key in sys.index :: sys.index[key] in sys.runs
          && sys.runs[sys.index[key]].deployment == key.0 && sys.runs[sys.index[key]].scheduledAt == Some(key.1))
  }

  /** A session exists exactly when its run does, and names it. */
  ghost predicate SessionsMatch(sys: System) {
    && (forall s | s in sys.sessions :: sys.sessions[s] in sys.runs && sys.runs[sys.sessions[s]].session == Some(s))
    && (forall id | id in sys.runs && sys.runs[id].session.Some? ::
          sys.runs[id].session.value in sys.sessions && sys.sessions[sys.runs[id].session.value] == id)
  }

  /** `run` is recorded, up to the precision the store keeps. */
  predicate IsRecorded(sys: System, run: Run) {
    run.id in sys.runs && sys.runs[run.id] == Stored(run) && run.scheduledAt.Some?
  }

  predicate Holds(proc: Proc) {
    proc.Pausing? || proc.Recovering? || proc.Reading? || proc.Advancing? || proc.Returned?
  }

  predicate Drafts(proc: Proc) {
    proc.Creating? || proc.Rechecking? || proc.Recording?
  }

  /** Workers draft scheduled runs under drawn ids, and hold only recorded ones. */
  ghost predicate WorkersHonest(sys: System) {
    && (forall p | p in sys.procs && Holds(sys.procs[p]) :: IsRecorded(sys, sys.procs[p].run))
    && (forall p | p in sys.procs && Drafts(sys.procs[p]) ::
          sys.procs[p].run.id in sys.used && sys.procs[p].run.session.None? && sys.procs[p].run.scheduledAt.Some?)
  }

  predicate Recovers(proc: Proc) {
    proc.Reading? || proc.Advancing? || proc.Returned?
  }

  ghost predicate AdvancedAfterPause(sys: System, k: nat) {
    k < |sys.history| && sys.history[k].Advanced? && sys.history[k].runId in sys.runs
        && ShouldPause(sys.runs[sys.history[k].runId].errorType) ==>
      PausedFor(sys.history[k].runId) in sys.history[..k]
  }

  /** No schedule was advanced past a pause-worthy failure before its recovery committed. */
  ghost predicate PausedBeforeAdvance(sys: System) {
    && (forall p | p in sys.procs && Recovers(sys.procs[p]) && ShouldPause(sys.procs[p].run.errorType) ::
          PausedFor(sys.procs[p].run.id) in sys.history)
    && (forall k: nat :: AdvancedAfterPause(sys, k))
    && (forall e | e in sys.history && e.Advanced? :: e.runId in sys.runs)
  }

  ghost predicate Inv(sys: System) {
    Indexed(sys) && SessionsMatch(sys) && WorkersHonest(sys) && PausedBeforeAdvance(sys)
  }

  /** Records are never changed or removed. */
  ghost predicate Extends(sys: System, s': System) {
    && (forall id | id in sys.runs :: id in s'.runs && s'.runs[id] == sys.runs[id])
    && (forall key | key in sys.index :: key in s'.index && s'.index[key] == sys.index[key])
    && (forall x | x in sys.sessions :: x in s'.sessions && s'.sessions[x] == sys.sessions[x])
    && sys.used <= s'.used && sys.history <= s'.history
  }

  predicate Looks(a: Action) {
    a.Begin? || a.Look? || a.Load? || a.Recheck? || a.CheckAgain? || a.Read? || a.Crash?
  }

  predicate Settles(a: Action) {
    a.PauseFirst? || a.Recover? || a.Advance?
  }

  predicate Manages(a: Action) {
    a.UserCreate? || a.UserPause? || a.UserUnpause? || a.UserArchive? || a.BeginUpdate? || a.CommitUpdate?
  }

  ghost predicate SameRecords(sys: System, s': System) {
    s'.runs == sys.runs && s'.index == sys.index && s'.sessions == sys.sessions && sys.used <= s'.used
        && sys.history <= s'.history
  }

  lemma {:induction false} LookupRecords(sys: System, p: nat, found: Option<Run>, otherwise: Option<Proc>)
    ensures var s' := AfterLookup(sys, p, found, otherwise);
      SameRecords(sys, s') && s'.history == sys.history && s'.deployments == sys.deployments && s'.edits == sys.edits
  {
  }

  lemma {:induction false} LookedRecords(sys: System, a: Action, s': System)
    requires Looks(a) && Looked(sys, a) == Some(s')
    ensures SameRecords(sys, s') && s'.history == sys.history && s'.deployments == sys.deployments
        && s'.edits == sys.edits
  {
    if (a.Look? && a.ok) || a.Recheck? || a.CheckAgain? {
      var dep, at, found, otherwise := LookupStep(sys, a, s');
      LookupRecords(sys, a.p, found, otherwise);
    } else {
      PlainRecords(sys, a, s');
    }
  }

  lemma {:induction false} PlainRecords(sys: System, a: Action, s': System)
    requires (a.Look? && !a.ok) || a.Begin? || a.Load? || a.Read? || a.Crash?
    requires Looked(sys, a) == Some(s')
    ensures SameRecords(sys, s') && s'.history == sys.history && s'.deployments == sys.deployments
        && s'.edits == sys.edits
  {
  }

  lemma {:induction false} PauseTxRecords(sys: System, run: Run, now: nat)
    ensures var s := PauseTx(sys, run, now); SameRecords(sys, s) && s.edits == sys.edits && s.procs == sys.procs
  {
  }

  lemma {:induction false} AdvanceRecords(sys: System, p: nat, commits: bool, ack: bool, s': System)
    requires Settled(sys, Advance(p, commits, ack)) == Some(s')
    ensures SameRecords(sys, s') && s'.edits == sys.edits
  {
  }

  lemma {:induction false} PausesRecord(sys: System, a: Action, s': System)
    requires (a.PauseFirst? || a.Recover?) && Settled(sys, a) == Some(s')
    ensures SameRecords(sys, s') && s'.edits == sys.edits
  {
    PauseTxRecords(sys, sys.procs[a.p].run, a.now);
  }

  lemma {:induction false} SettledRecords(sys: System, a: Action, s': System)
    requires Settles(a) && Settled(sys, a) == Some(s')
    ensures SameRecords(sys, s') && s'.edits == sys.edits
  {
    if a.Advance? { AdvanceRecords(sys, a.p, a.commits, a.ack, s'); } else { PausesRecord(sys, a, s'); }
  }

  lemma {:induction false} ManagedRecords(sys: System, a: Action, s': System)
    requires Manages(a) && Managed(sys, a) == Some(s')
    ensures SameRecords(sys, s') && s'.history == sys.history && s'.procs == sys.procs
  {
  }

  lemma {:induction false} OtherRecords(sys: System, a: Action, s': System)
    requires Next(sys, a) == Some(s') && !a.Create? && !a.Record? && !a.ManualRun?
    ensures SameRecords(sys, s')
  {
    if Looks(a) { LookedRecords(sys, a, s'); }
    else if Settles(a) { SettledRecords(sys, a, s'); }
    else if Manages(a) { ManagedRecords(sys, a, s'); }
    else { PauseTxRecords(sys, sys.runs[a.id], a.now); }
  }

  /** The run a step records, if any. */
  function Made(sys: System, a: Action): Option<Run> {
    if a.ManualRun? then Some(a.run)
    else if a.Create? && a.p in sys.procs && sys.procs[a.p].Creating? && a.commits
        && Insertable(sys, sys.procs[a.p].run) && a.session !in sys.sessions then
      Some(sys.procs[a.p].run.(session := Some(a.session)))
    else if a.Record? && a.p in sys.procs && sys.procs[a.p].Recording? && a.commits
        && Insertable(sys, sys.procs[a.p].run) then
      Some(sys.procs[a.p].run)
    else None
  }

  /** A step that may record a run records `made`, with its session, or nothing. */
  ghost predicate RecordedAs(sys: System, s': System, made: Option<Run>) {
    && s'.history == sys.history && s'.deployments == sys.deployments && s'.edits == sys.edits && sys.used <= s'.used
    && (made.None? ==> SameRecords(sys, s'))
    && (made.Some? ==>
          var run := made.value;
          && Insertable(sys, run) && s'.runs == Inserted(sys, run).runs && s'.index == Inserted(sys, run).index
          && s'.sessions == (if run.session.Some? then sys.sessions[run.session.value := run.id] else sys.sessions)
          && (run.session.Some? ==> run.session.value !in sys.sessions))
  }

  lemma {:induction false} CreateRecords(sys: System, p: nat, commits: bool, ack: bool, session: string,
      errorType: string, s': System)
    requires Wrote(sys, Create(p, commits, ack, session, errorType)) == Some(s')
    ensures RecordedAs(sys, s', Made(sys, Create(p, commits, ack, session, errorType))) && s'.used == sys.used
  {
  }

  lemma {:induction false} RecordRecords(sys: System, p: nat, commits: bool, ack: bool, s': System)
    requires Wrote(sys, Record(p, commits, ack)) == Some(s') && sys.procs[p].run.session.None?
    ensures RecordedAs(sys, s', Made(sys, Record(p, commits, ack))) && s'.used == sys.used
  {
  }

  lemma {:induction false} ManualRecords(sys: System, run: Run, s': System)
    requires Wrote(sys, ManualRun(run)) == Some(s')
    ensures RecordedAs(sys, s', Made(sys, ManualRun(run))) && s'.used == sys.used + {run.id} && s'.procs == sys.procs
  {
  }

  lemma {:induction false} WroteRecords(sys: System, a: Action, s': System)
    requires WorkersHonest(sys) && (a.Create? || a.Record? || a.ManualRun?) && Wrote(sys, a) == Some(s')
    ensures RecordedAs(sys, s', Made(sys, a)) && (Made(sys, a).Some? ==> Made(sys, a).value.id in s'.used)
  {
    match a
    case Create(p, commits, ack, session, errorType) => CreateRecords(sys, p, commits, ack, session, errorType, s');
    case Record(p, commits, ack) => RecordRecords(sys, p, commits, ack, s');
    case ManualRun(run) => ManualRecords(sys, run, s');
  }

  lemma {:induction false} StepExtends(sys: System, a: Action, s': System)
    requires Next(sys, a) == Some(s') && WorkersHonest(sys)
    ensures Extends(sys, s')
  {
    if a.Create? || a.Record? || a.ManualRun? {
      WroteRecords(sys, a, s');
    } else {
      OtherRecords(sys, a, s');
    }
  }

  lemma {:induction false} InsertedKeeps(sys: System, run: Run)
    requires Indexed(sys) && Insertable(sys, run) && run.id in sys.used
    ensures Indexed(Inserted(sys, run))
  {
    var s := Inserted(sys, run);
    forall id | id in s.runs && s.runs[id].scheduledAt.Some?
      ensures (s.runs[id].deployment, s.runs[id].scheduledAt.value) in s.index
           && s.index[(s.runs[id].deployment, s.runs[id].scheduledAt.value)] == id
    {
      if id != run.id {
        var key := (sys.runs[id].deployment, sys.runs[id].scheduledAt.value);
        assert key in sys.index;
      }
    }
  }

  lemma {:induction false} RecordKept(sys: System, s': System, run: Run)
    requires Indexed(sys) && SessionsMatch(sys) && RecordedAs(sys, s', Some(run)) && run.id in s'.used
    ensures Indexed(s') && SessionsMatch(s')
  {
    InsertedKeeps(sys.(used := s'.used), run);
    SessionsKept(sys, s', run);
  }

  lemma {:induction false} RecordsStep(sys: System, a: Action, s': System)
    requires Inv(sys) && Next(sys, a) == Some(s')
    ensures Indexed(s') && SessionsMatch(s')
  {
    if a.Create? || a.Record? || a.ManualRun? {
      WroteRecords(sys, a, s');
      if Made(sys, a).Some? { RecordKept(sys, s', Made(sys, a).value); }
    } else {
      OtherRecords(sys, a, s');
    }
  }

  lemma {:induction false} SessionsKept(sys: System, s': System, run: Run)
    requires SessionsMatch(sys) && Insertable(sys, run) && s'.runs == Inserted(sys, run).runs
    requires s'.sessions == (if run.session.Some? then sys.sessions[run.session.value := run.id] else sys.sessions)
    requires run.session.Some? ==> run.session.value !in sys.sessions
    ensures SessionsMatch(s')
  {
  }

  // ---------------------------------------------------------------- workers stay honest

  /** Runs are kept in the store's precision. */
  ghost predicate Rounded(sys: System) {
    forall id | id in sys.runs :: sys.runs[id] == Stored(sys.runs[id])
  }

  lemma {:induction false} RoundedRecord(sys: System, s': System, made: Option<Run>)
    requires Rounded(sys) && RecordedAs(sys, s', made)
    ensures Rounded(s')
  {
  }

  lemma {:induction false} RoundedStep(sys: System, a: Action, s': System)
    requires Rounded(sys) && WorkersHonest(sys) && Next(sys, a) == Some(s')
    ensures Rounded(s')
  {
    if a.Create? || a.Record? || a.ManualRun? {
      WroteRecords(sys, a, s');
      RoundedRecord(sys, s', Made(sys, a));
    } else {
      OtherRecords(sys, a, s');
    }
  }

  lemma {:induction false} FoundRecorded(sys: System, dep: string, at: nat)
    requires Indexed(sys) && Rounded(sys) && Found(sys, dep, at).Some?
    ensures IsRecorded(sys, Found(sys, dep, at).value)
    ensures Found(sys, dep, at).value.deployment == dep && Found(sys, dep, at).value.scheduledAt == Some(at)
  {
  }

  function Actor(a: Action): nat {
    match a
    case Begin(p, _, _) => p
    case Look(p, _) => p
    case Load(p, _, _, _) => p
    case Create(p, _, _, _, _) => p
    case Recheck(p, _) => p
    case Record(p, _, _) => p
    case CheckAgain(p, _) => p
    case PauseFirst(p, _, _) => p
    case Recover(p, _, _, _) => p
    case Read(p, _, _) => p
    case Advance(p, _, _) => p
    case Crash(p) => p
    case _ => 0
  }

  predicate ByWorker(a: Action) {
    !Manages(a) && !a.ManualRun? && !a.ManualPause?
  }

  /** A step moves only its own worker. */
  lemma {:induction false} OthersStay(sys: System, a: Action, s': System, q: nat)
    requires Next(sys, a) == Some(s') && (!ByWorker(a) || q != Actor(a))
    ensures (q in s'.procs) == (q in sys.procs) && (q in sys.procs ==> s'.procs[q] == sys.procs[q])
  {
    if Manages(a) { ManagedRecords(sys, a, s'); }
    else if a.ManualRun? { ManualRecords(sys, a.run, s'); }
    else if a.ManualPause? { PauseTxRecords(sys, sys.runs[a.id], a.now); }
    else if Looks(a) { LookedOthers(sys, a, s', q); }
    else if Settles(a) { SettledOthers(sys, a, s', q); }
    else { WroteOthers(sys, a, s', q); }
  }

  lemma {:induction false} LookupOthers(sys: System, p: nat, found: Option<Run>, otherwise: Option<Proc>, q: nat)
    requires q != p
    ensures var s' := AfterLookup(sys, p, found, otherwise);
      (q in s'.procs) == (q in sys.procs) && (q in sys.procs ==> s'.procs[q] == sys.procs[q])
  {
  }

  /** A lookup step is the continuation of a lookup of the worker's occurrence. */
  lemma {:induction false} LookupStep(sys: System, a: Action, s': System)
      returns (dep: string, at: nat, found: Option<Run>, otherwise: Option<Proc>)
    requires ((a.Look? && a.ok) || a.Recheck? || a.CheckAgain?) && Looked(sys, a) == Some(s')
    ensures s' == AfterLookup(sys, a.p, found, otherwise)
    ensures found.Some? ==> found == Found(sys, dep, at)
    ensures otherwise.Some? ==>
      && !Holds(otherwise.value)
      && (Drafts(otherwise.value) ==>
        a.Recheck? && otherwise.value.run == sys.procs[a.p].run.(errorType := sys.procs[a.p].errorType))
  {
    if a.Recheck? {
      var run := sys.procs[a.p].run;
      dep, at := run.deployment, if run.scheduledAt.Some? then run.scheduledAt.value else 0;
      found := if a.ok && run.scheduledAt.Some? then Found(sys, dep, at) else None;
      otherwise := Some(Recording(run.(errorType := sys.procs[a.p].errorType)));
    } else {
      dep, at := sys.procs[a.p].dep, sys.procs[a.p].at;
      found := if a.ok then Found(sys, dep, at) else None;
      otherwise := if a.Look? then Some(Loading(dep, at)) else None;
    }
  }

  lemma {:induction false} LookedOthers(sys: System, a: Action, s': System, q: nat)
    requires Looks(a) && Looked(sys, a) == Some(s') && q != Actor(a)
    ensures (q in s'.procs) == (q in sys.procs) && (q in sys.procs ==> s'.procs[q] == sys.procs[q])
  {
    if (a.Look? && a.ok) || a.Recheck? || a.CheckAgain? {
      var dep, at, found, otherwise := LookupStep(sys, a, s');
      LookupOthers(sys, a.p, found, otherwise, q);
    } else {
      PlainOthers(sys, a, s', q);
    }
  }

  lemma {:induction false} PlainOthers(sys: System, a: Action, s': System, q: nat)
    requires (a.Look? && !a.ok) || a.Begin? || a.Load? || a.Read? || a.Crash?
    requires Looked(sys, a) == Some(s') && q != a.p
    ensures (q in s'.procs) == (q in sys.procs) && (q in sys.procs ==> s'.procs[q] == sys.procs[q])
  {
    match a
    case Begin(_, _, _) =>
    case Look(_, _) =>
    case Load(_, _, _, _) =>
    case Read(_, _, _) =>
    case Crash(_) =>
  }

  lemma {:induction false} SettledOthers(sys: System, a: Action, s': System, q: nat)
    requires Settles(a) && Settled(sys, a) == Some(s') && q != a.p
    ensures (q in s'.procs) == (q in sys.procs) && (q in sys.procs ==> s'.procs[q] == sys.procs[q])
  {
    match a
    case PauseFirst(_, _, _) =>
    case Recover(_, _, _, _) =>
    case Advance(_, _, _) =>
  }

  lemma {:induction false} WroteOthers(sys: System, a: Action, s': System, q: nat)
    requires (a.Create? || a.Record?) && Wrote(sys, a) == Some(s') && q != a.p
    ensures (q in s'.procs) == (q in sys.procs) && (q in sys.procs ==> s'.procs[q] == sys.procs[q])
  {
    match a
    case Create(_, _, _, _, _) =>
    case Record(_, _, _) =>
  }

  /** What is asked of one worker. */
  ghost predicate Honest(sys: System, proc: Proc) {
    && (Holds(proc) ==> IsRecorded(sys, proc.run))
    && (Drafts(proc) ==> proc.run.id in sys.used && proc.run.session.None? && proc.run.scheduledAt.Some?)
    && (Recovers(proc) && ShouldPause(proc.run.errorType) ==> PausedFor(proc.run.id) in sys.history)
  }

  lemma {:induction false} HonestStays(sys: System, s': System, proc: Proc)
    requires Honest(sys, proc) && Extends(sys, s')
    ensures Honest(s', proc)
  {
  }

  lemma {:induction false} LookupHonest(sys: System, p: nat, found: Option<Run>, otherwise: Option<Proc>)
    requires found.Some? ==> IsRecorded(sys, found.value)
    requires otherwise.Some? ==> Honest(sys, otherwise.value)
    ensures var s' := AfterLookup(sys, p, found, otherwise); p in s'.procs ==> Honest(s', s'.procs[p])
  {
  }

  lemma {:induction false} LookedHonest(sys: System, a: Action, s': System)
    requires Inv(sys) && Rounded(sys) && Looks(a) && Looked(sys, a) == Some(s') && a.p in s'.procs
    requires a.p in sys.procs ==> Honest(sys, sys.procs[a.p])
    ensures Honest(s', s'.procs[a.p])
  {
    if (a.Look? && a.ok) || a.Recheck? || a.CheckAgain? {
      var dep, at, found, otherwise := LookupStep(sys, a, s');
      if found.Some? { FoundRecorded(sys, dep, at); }
      LookupHonest(sys, a.p, found, otherwise);
    } else {
      PlainHonest(sys, a, s');
    }
  }

  lemma {:induction false} LoadHonest(sys: System, p: nat, ok: bool, runId: string, now: nat, s': System)
    requires Looked(sys, Load(p, ok, runId, now)) == Some(s') && p in s'.procs
    ensures Honest(s', s'.procs[p])
  {
  }

  lemma {:induction false} PlainHonest(sys: System, a: Action, s': System)
    requires (a.Look? && !a.ok) || a.Begin? || a.Load? || a.Read? || a.Crash?
    requires Looked(sys, a) == Some(s') && a.p in s'.procs
    requires a.p in sys.procs ==> Honest(sys, sys.procs[a.p])
    ensures Honest(s', s'.procs[a.p])
  {
    match a
    case Begin(_, _, _) =>
    case Look(_, _) =>
    case Load(p, ok, runId, now) => LoadHonest(sys, p, ok, runId, now, s');
    case Read(_, _, _) =>
    case Crash(_) =>
  }

  lemma {:induction false} CreateHonest(sys: System, p: nat, commits: bool, ack: bool, session: string,
      errorType: string, s': System)
    requires Wrote(sys, Create(p, commits, ack, session, errorType)) == Some(s') && p in s'.procs
    requires Honest(sys, sys.procs[p])
    ensures Honest(s', s'.procs[p])
  {
  }

  lemma {:induction false} RecordHonest(sys: System, p: nat, commits: bool, ack: bool, s': System)
    requires Wrote(sys, Record(p, commits, ack)) == Some(s') && p in s'.procs
    requires Honest(sys, sys.procs[p])
    ensures Honest(s', s'.procs[p])
  {
  }

  lemma {:induction false} WroteHonest(sys: System, a: Action, s': System)
    requires (a.Create? || a.Record?) && Wrote(sys, a) == Some(s') && a.p in s'.procs
    requires Honest(sys, sys.procs[a.p])
    ensures Honest(s', s'.procs[a.p])
  {
    match a
    case Create(p, commits, ack, session, errorType) => CreateHonest(sys, p, commits, ack, session, errorType, s');
    case Record(p, commits, ack) => RecordHonest(sys, p, commits, ack, s');
  }

  lemma {:induction false} SettledHonest(sys: System, a: Action, s': System)
    requires Inv(sys) && Settles(a) && Settled(sys, a) == Some(s') && a.p in s'.procs
    requires Honest(sys, sys.procs[a.p])
    ensures Honest(s', s'.procs[a.p])
  {
    SettledRecords(sys, a, s');
  }

  lemma {:induction false} ActorHonest(sys: System, a: Action, s': System)
    requires Inv(sys) && Rounded(sys) && ByWorker(a) && Next(sys, a) == Some(s') && Actor(a) in s'.procs
    ensures Honest(s', s'.procs[Actor(a)])
  {
    assert a.p in sys.procs ==> Honest(sys, sys.procs[a.p]);
    if Looks(a) { LookedHonest(sys, a, s'); }
    else if Settles(a) { SettledHonest(sys, a, s'); }
    else { WroteHonest(sys, a, s'); }
  }

  lemma {:induction false} PauseTxLogged(sys: System, run: Run, now: nat)
    ensures PauseTx(sys, run, now).history == sys.history
        || PauseTx(sys, run, now).history == sys.history + [PausedFor(run.id)]
  {
  }

  lemma {:induction false} HistoryStep(sys: System, a: Action, s': System)
    requires Inv(sys) && Next(sys, a) == Some(s')
    ensures s'.history == sys.history || (exists id :: s'.history == sys.history + [PausedFor(id)])
      || (a.Advance? && Recovers(sys.procs[a.p]) && s'.history == sys.history + [Advanced(sys.procs[a.p].run.id)])
  {
    if Looks(a) { LookedRecords(sys, a, s'); }
    else if Manages(a) { ManagedRecords(sys, a, s'); }
    else if Settles(a) {
      if a.PauseFirst? || a.Recover? { PauseLogged(sys, a, s'); } else { AdvanceLogged(sys, a, s'); }
    } else if a.ManualPause? {
      PauseTxLogged(sys, sys.runs[a.id], a.now);
    } else { WroteRecords(sys, a, s'); }
  }

  lemma {:induction false} PauseLogged(sys: System, a: Action, s': System)
    requires (a.PauseFirst? || a.Recover?) && Settled(sys, a) == Some(s')
    ensures s'.history == sys.history || (exists id :: s'.history == sys.history + [PausedFor(id)])
  {
  }

  lemma {:induction false} AdvanceLogged(sys: System, a: Action, s': System)
    requires a.Advance? && Settled(sys, a) == Some(s')
    ensures s'.history == sys.history || s'.history == sys.history + [Advanced(sys.procs[a.p].run.id)]
  {
  }

  lemma {:induction false} AdvancesStep(sys: System, a: Action, s': System, k: nat)
    requires Inv(sys) && Next(sys, a) == Some(s') && Extends(sys, s')
    ensures AdvancedAfterPause(s', k)
  {
    HistoryStep(sys, a, s');
    if k < |sys.history| {
      assert AdvancedAfterPause(sys, k);
      assert s'.history[..k] == sys.history[..k] && s'.history[k] == sys.history[k];
      assert sys.history[k] in sys.history;
    } else if k < |s'.history| {
      assert s'.history[..k] == sys.history;
    }
  }

  lemma {:induction false} InvStep(sys: System, a: Action, s': System)
    requires Inv(sys) && Rounded(sys) && Next(sys, a) == Some(s')
    ensures Inv(s') && Rounded(s') && Extends(sys, s')
  {
    StepExtends(sys, a, s');
    RecordsStep(sys, a, s');
    RoundedStep(sys, a, s');
    forall q | q in s'.procs ensures Honest(s', s'.procs[q]) {
      if ByWorker(a) && q == Actor(a) {
        ActorHonest(sys, a, s');
      } else {
        OthersStay(sys, a, s', q);
        HonestStays(sys, s', sys.procs[q]);
      }
    }
    forall k: nat ensures AdvancedAfterPause(s', k) { AdvancesStep(sys, a, s', k); }
    HistoryStep(sys, a, s');
  }

  // ---------------------------------------------------------------- what every interleaving keeps

  const EMPTY := System(map[], map[], map[], map[], map[], {}, [], map[])

  lemma {:induction false} EmptyInv()
    ensures Inv(EMPTY) && Rounded(EMPTY)
  {
  }

  lemma {:induction false} ExtendsTrans(a: System, b: System, c: System)
    requires Extends(a, b) && Extends(b, c)
    ensures Extends(a, c)
  {
  }

  /** Over any interleaving of workers, owners and manual runs, with failures, lost
      acknowledgements and crashes anywhere, the invariants hold and records only grow. */
  lemma {:induction false} RunsStayHonest(sys: System, run: seq<Action>, s': System)
    requires Inv(sys) && Rounded(sys) && RunAll(sys, run) == Some(s')
    ensures Inv(s') && Rounded(s') && Extends(sys, s')
    decreases |run|
  {
    if run != [] {
      var init := RunAll(sys, run[..|run| - 1]).value;
      RunsStayHonest(sys, run[..|run| - 1], init);
      InvStep(init, run[|run| - 1], s');
      ExtendsTrans(sys, init, s');
    }
  }

  /** An occurrence has at most one recorded run. */
  lemma {:induction false} OneRunPerOccurrence(run: seq<Action>, sys: System, a: string, b: string)
    requires RunAll(EMPTY, run) == Some(sys) && a in sys.runs && b in sys.runs
    requires sys.runs[a].scheduledAt.Some? && sys.runs[a].scheduledAt == sys.runs[b].scheduledAt
    requires sys.runs[a].deployment == sys.runs[b].deployment
    ensures a == b
  {
    EmptyInv();
    RunsStayHonest(EMPTY, run, sys);
  }

  /** An occurrence has at most one Session. */
  lemma {:induction false} OneSessionPerOccurrence(run: seq<Action>, sys: System, x: string, y: string)
    requires RunAll(EMPTY, run) == Some(sys) && x in sys.sessions && y in sys.sessions
    requires sys.sessions[x] in sys.runs && sys.sessions[y] in sys.runs
    requires var (a, b) := (sys.runs[sys.sessions[x]], sys.runs[sys.sessions[y]]);
      a.scheduledAt.Some? && a.scheduledAt == b.scheduledAt && a.deployment == b.deployment
    ensures x == y
  {
    EmptyInv();
    RunsStayHonest(EMPTY, run, sys);
    OneRunPerOccurrence(run, sys, sys.sessions[x], sys.sessions[y]);
  }

  // Where a worker's run came from.

  /** A step that can hand its worker a run, or send it on without one. */
  predicate Gives(a: Action) {
    a.Look? || a.Create? || a.Recheck? || a.Record? || a.CheckAgain?
  }

  /** The last such step of a worker. */
  function Given(run: seq<Action>, p: nat): Option<Action> {
    if run == [] then None
    else
      var a := run[|run| - 1];
      if Gives(a) && a.p == p then Some(a) else Given(run[..|run| - 1], p)
  }

  /** What a worker's last load read from the clock. */
  function ClockRead(run: seq<Action>, p: nat): Option<nat> {
    if run == [] then None
    else
      var a := run[|run| - 1];
      if a.Load? && a.p == p then Some(a.now) else ClockRead(run[..|run| - 1], p)
  }

  lemma {:induction false} OriginSnoc(run: seq<Action>, a: Action, p: nat)
    ensures Given(run + [a], p) == if Gives(a) && a.p == p then Some(a) else Given(run, p)
    ensures ClockRead(run + [a], p) == if a.Load? && a.p == p then Some(a.now) else ClockRead(run, p)
  {
    assert (run + [a])[..|run|] == run;
  }

  /** A draft carries the clock reading of its load, and a run in hand is rounded unless the
      worker's own acknowledged creation made it. */
  predicate Sourced(clock: Option<nat>, given: Option<Action>, proc: Proc) {
    && (Drafts(proc) ==> clock == Some(proc.run.createdAt))
    && (Holds(proc) ==>
          if given.Some? && given.value.Create? then given.value.commits && given.value.ack
              && clock == Some(proc.run.createdAt)
          else proc.run == Stored(proc.run))
  }

  ghost predicate AllSourced(run: seq<Action>, sys: System) {
    forall p | p in sys.procs :: Sourced(ClockRead(run, p), Given(run, p), sys.procs[p])
  }

  lemma {:induction false} FoundSourced(sys: System, p: nat, found: Option<Run>, otherwise: Option<Proc>,
      clock: Option<nat>, a: Action)
    requires found.Some? ==> found.value == Stored(found.value)
    requires otherwise.Some? ==>
      !Holds(otherwise.value) && (Drafts(otherwise.value) ==> clock == Some(otherwise.value.run.createdAt))
    requires !a.Create?
    ensures var s' := AfterLookup(sys, p, found, otherwise); p in s'.procs ==> Sourced(clock, Some(a), s'.procs[p])
  {
  }

  lemma {:induction false} LookupSourced(sys: System, a: Action, s': System, clock: Option<nat>)
    requires Indexed(sys) && Rounded(sys) && ((a.Look? && a.ok) || a.Recheck? || a.CheckAgain?)
        && Looked(sys, a) == Some(s')
    requires a.p in sys.procs && Drafts(sys.procs[a.p]) ==> clock == Some(sys.procs[a.p].run.createdAt)
    ensures a.p in s'.procs ==> Sourced(clock, Some(a), s'.procs[a.p])
  {
    var dep, at, found, otherwise := LookupStep(sys, a, s');
    if found.Some? { FoundRecorded(sys, dep, at); }
    if a.Recheck? { assert Drafts(sys.procs[a.p]); }
    FoundSourced(sys, a.p, found, otherwise, clock, a);
  }

  lemma {:induction false} LoadSourced(sys: System, p: nat, ok: bool, runId: string, now: nat, s': System,
      given: Option<Action>)
    requires Looked(sys, Load(p, ok, runId, now)) == Some(s') && p in s'.procs
    ensures Sourced(Some(now), given, s'.procs[p])
  {
  }

  lemma {:induction false} PlainSourced(sys: System, a: Action, s': System, clock: Option<nat>, given: Option<Action>)
    requires (a.Look? && !a.ok) || a.Begin? || a.Read? || a.Crash?
    requires Looked(sys, a) == Some(s') && a.p in s'.procs
    requires a.p in sys.procs ==> Sourced(clock, given, sys.procs[a.p])
    ensures !a.Look? && Sourced(clock, given, s'.procs[a.p])
  {
    match a
    case Begin(_, _, _) =>
    case Look(_, _) =>
    case Read(_, _, _) =>
    case Crash(_) =>
  }

  lemma {:induction false} CreateSourced(sys: System, a: Action, s': System, clock: Option<nat>)
    requires a.Create? && Wrote(sys, a) == Some(s') && a.p in s'.procs
    requires clock == Some(sys.procs[a.p].run.createdAt)
    ensures Sourced(clock, Some(a), s'.procs[a.p])
  {
  }

  lemma {:induction false} RecordSourced(sys: System, p: nat, commits: bool, ack: bool, s': System, clock: Option<nat>)
    requires Wrote(sys, Record(p, commits, ack)) == Some(s') && p in s'.procs
    ensures Sourced(clock, Some(Record(p, commits, ack)), s'.procs[p])
  {
  }

  lemma {:induction false} HeldSourced(clock: Option<nat>, given: Option<Action>, proc: Proc, proc': Proc)
    requires Holds(proc) && Holds(proc') && proc'.run == proc.run && Sourced(clock, given, proc)
    ensures Sourced(clock, given, proc')
  {
  }

  lemma {:induction false} SettledHolds(sys: System, a: Action, s': System)
    requires Settles(a) && Settled(sys, a) == Some(s') && a.p in s'.procs
    ensures a.p in sys.procs && Holds(sys.procs[a.p]) && Holds(s'.procs[a.p]) && s'.procs[a.p].run == sys.procs[a.p].run
  {
    match a
    case PauseFirst(_, _, _) =>
    case Recover(_, _, _, _) =>
    case Advance(_, _, _) =>
  }

  lemma {:induction false} SettledSourced(sys: System, a: Action, s': System, clock: Option<nat>, given: Option<Action>)
    requires Settles(a) && Settled(sys, a) == Some(s') && a.p in s'.procs
    requires a.p in sys.procs && Sourced(clock, given, sys.procs[a.p])
    ensures Sourced(clock, given, s'.procs[a.p])
  {
    SettledHolds(sys, a, s');
    HeldSourced(clock, given, sys.procs[a.p], s'.procs[a.p]);
  }

  lemma {:induction false} ActorSourced(run: seq<Action>, sys: System, a: Action, s': System)
    requires Inv(sys) && Rounded(sys) && AllSourced(run, sys) && ByWorker(a) && Next(sys, a) == Some(s')
        && a.p in s'.procs
    ensures Sourced(ClockRead(run + [a], a.p), Given(run + [a], a.p), s'.procs[a.p])
  {
    OriginSnoc(run, a, a.p);
    var clock, given := ClockRead(run, a.p), Given(run, a.p);
    assert a.p in sys.procs ==> Sourced(clock, given, sys.procs[a.p]);
    if (a.Look? && a.ok) || a.Recheck? || a.CheckAgain? { LookupSourced(sys, a, s', clock); }
    else if a.Load? { LoadSourced(sys, a.p, a.ok, a.runId, a.now, s', given); }
    else if Looks(a) { PlainSourced(sys, a, s', clock, given); }
    else if Settles(a) { SettledSourced(sys, a, s', clock, given); }
    else if a.Create? { CreateSourced(sys, a, s', clock); }
    else { RecordSourced(sys, a.p, a.commits, a.ack, s', clock); }
  }

  lemma {:induction false} ActorIs(a: Action)
    requires Gives(a) || a.Load?
    ensures ByWorker(a) && Actor(a) == a.p
  {
    match a
    case Look(_, _) =>
    case Create(_, _, _, _, _) =>
    case Recheck(_, _) =>
    case Record(_, _, _) =>
    case CheckAgain(_, _) =>
    case Load(_, _, _, _) =>
  }

  lemma {:induction false} NotGiven(run: seq<Action>, a: Action, q: nat)
    requires !ByWorker(a) || q != Actor(a)
    ensures Given(run + [a], q) == Given(run, q) && ClockRead(run + [a], q) == ClockRead(run, q)
  {
    OriginSnoc(run, a, q);
    if Gives(a) || a.Load? { ActorIs(a); }
  }

  lemma {:induction false} OtherSourced(run: seq<Action>, sys: System, a: Action, s': System, q: nat)
    requires AllSourced(run, sys) && Next(sys, a) == Some(s') && q in s'.procs && (!ByWorker(a) || q != Actor(a))
    ensures Sourced(ClockRead(run + [a], q), Given(run + [a], q), s'.procs[q])
  {
    OthersStay(sys, a, s', q);
    NotGiven(run, a, q);
  }

  lemma {:induction false} SourcedStep(run: seq<Action>, sys: System, a: Action, s': System)
    requires Inv(sys) && Rounded(sys) && AllSourced(run, sys) && Next(sys, a) == Some(s')
    ensures AllSourced(run + [a], s')
  {
    forall q | q in s'.procs ensures Sourced(ClockRead(run + [a], q), Given(run + [a], q), s'.procs[q]) {
      if ByWorker(a) && q == Actor(a) { ActorSourced(run, sys, a, s'); } else { OtherSourced(run, sys, a, s', q); }
    }
  }

  lemma {:induction false} RunSourced(run: seq<Action>, sys: System)
    requires RunAll(EMPTY, run) == Some(sys)
    ensures AllSourced(run, sys)
    decreases |run|
  {
    if run != [] {
      var init, a := run[..|run| - 1], run[|run| - 1];
      var s := RunAll(EMPTY, init).value;
      assert run == init + [a];
      EmptyInv();
      RunsStayHonest(EMPTY, init, s);
      RunSourced(init, s);
      SourcedStep(init, s, a, sys);
    }
  }

  /** A worker that returns has the recorded run of its occurrence. Its answer differs from the
      record exactly when it got the run from its own acknowledged creation and its load had
      read the clock finer than the store's microseconds; and then in the creation time only. */
  lemma {:induction false} ReturnsRecordedRun(run: seq<Action>, sys: System, p: nat)
    requires RunAll(EMPTY, run) == Some(sys) && p in sys.procs && sys.procs[p].Returned?
    ensures var r := sys.procs[p].run;
      && r.id in sys.runs && sys.runs[r.id] == Stored(r)
      && (r.errorType !in {"", "session_rate_limited_error", "unknown_error"} ==> PausedFor(r.id) in sys.history)
      && var created := Given(run, p).Some? && Given(run, p).value.Create?;
         && (created ==> Given(run, p).value.commits && Given(run, p).value.ack && ClockRead(run, p).Some?)
         && (sys.runs[r.id] != r <==> created && ClockRead(run, p).value % 1000 != 0)
  {
    EmptyInv();
    RunsStayHonest(EMPTY, run, sys);
    RunSourced(run, sys);
    ShouldPauseExactly(sys.procs[p].run.errorType);
    assert Sourced(ClockRead(run, p), Given(run, p), sys.procs[p]);
  }

  lemma {:induction false} WorkersAgree(run: seq<Action>, sys: System, p: nat, q: nat)
    requires RunAll(EMPTY, run) == Some(sys) && p in sys.procs && q in sys.procs && sys.procs[p].Returned?
        && sys.procs[q].Returned?
    requires sys.procs[p].run.deployment == sys.procs[q].run.deployment
    requires sys.procs[p].run.scheduledAt == sys.procs[q].run.scheduledAt
    ensures Stored(sys.procs[p].run) == Stored(sys.procs[q].run)
  {
    EmptyInv();
    RunsStayHonest(EMPTY, run, sys);
    OneRunPerOccurrence(run, sys, sys.procs[p].run.id, sys.procs[q].run.id);
  }

  /** Wherever the schedule was advanced for a failure of another type than a rate limit or an
      unknown error, its recovery had committed before. */
  lemma {:induction false} PauseBeforeAdvance(run: seq<Action>, sys: System, k: nat)
    requires RunAll(EMPTY, run) == Some(sys) && k < |sys.history| && sys.history[k].Advanced?
    ensures sys.history[k].runId in sys.runs
    ensures sys.runs[sys.history[k].runId].errorType !in {"", "session_rate_limited_error", "unknown_error"} ==>
        PausedFor(sys.history[k].runId) in sys.history[..k]
  {
    if sys.history[k].runId in sys.runs { ShouldPauseExactly(sys.runs[sys.history[k].runId].errorType); }
    EmptyInv();
    RunsStayHonest(EMPTY, run, sys);
    assert sys.history[k] in sys.history;
    assert AdvancedAfterPause(sys, k);
  }

  // ---------------------------------------------------------------- owners' updates

  /** Every update under way has read a version that the stored deployment is later than. */
  ghost predicate Known(sys: System) {
    && (forall dep | dep in sys.deployments :: Kept(sys.deployments[dep]))
    && (forall o | o in sys.edits ::
          sys.edits[o].deployment in sys.deployments
              && Later(sys.edits[o].read, sys.deployments[sys.edits[o].deployment]))
  }

  /** Deployments are never removed and only move to later versions. */
  ghost predicate Forward(sys: System, s': System) {
    forall dep | dep in sys.deployments :: dep in s'.deployments && Later(sys.deployments[dep], s'.deployments[dep])
  }

  lemma LaterTrans(a: Deployment, b: Deployment, c: Deployment)
    requires Later(a, b) && Later(b, c)
    ensures Later(a, c)
  {
  }

  lemma {:induction false} ForwardTrans(a: System, b: System, c: System)
    requires Forward(a, b) && Forward(b, c)
    ensures Forward(a, c)
  {
    forall dep | dep in a.deployments ensures dep in c.deployments && Later(a.deployments[dep], c.deployments[dep]) {
      LaterTrans(a.deployments[dep], b.deployments[dep], c.deployments[dep]);
    }
  }

  /** Moving one deployment, or adding one, to a later version keeps what is known. */
  lemma {:induction false} MovedKnown(sys: System, s': System, dep: string, d: Deployment)
    requires Known(sys) && Kept(d) && (dep in sys.deployments ==> Later(sys.deployments[dep], d))
    requires s'.deployments == sys.deployments[dep := d]
    requires forall o | o in s'.edits :: o in sys.edits && s'.edits[o] == sys.edits[o]
    ensures Known(s') && Forward(sys, s')
  {
    forall o | o in s'.edits ensures Later(s'.edits[o].read, s'.deployments[s'.edits[o].deployment]) {
      if s'.edits[o].deployment == dep {
        LaterTrans(sys.edits[o].read, sys.deployments[dep], d);
      }
    }
  }

  lemma {:induction false} SameKnown(sys: System, s': System)
    requires Known(sys) && s'.deployments == sys.deployments && s'.edits == sys.edits
    ensures Known(s') && Forward(sys, s')
  {
  }

  lemma {:induction false} PauseTxKnown(sys: System, run: Run, now: nat)
    requires Known(sys)
    ensures Known(PauseTx(sys, run, now)) && Forward(sys, PauseTx(sys, run, now))
  {
    if run.deployment in sys.deployments {
      var d := sys.deployments[run.deployment];
      UpdatesMoveForward(d, now, run.errorType, []);
      MovedKnown(sys, PauseTx(sys, run, now), run.deployment, PausedForError(d, run.errorType, now));
    }
  }

  lemma {:induction false} AdvanceKnown(sys: System, p: nat, commits: bool, ack: bool, s': System)
    requires Known(sys) && Settled(sys, Advance(p, commits, ack)) == Some(s')
    ensures Known(s') && Forward(sys, s')
  {
    var run := sys.procs[p].run;
    if commits && run.deployment in sys.deployments {
      var d := sys.deployments[run.deployment];
      var c := Completed(d, run.scheduledAt.value, run.createdAt, sys.procs[p].upcoming);
      CompletedLater(d, run.scheduledAt.value, run.createdAt, sys.procs[p].upcoming);
      assert s'.deployments == sys.deployments[run.deployment := c];
      MovedKnown(sys, s', run.deployment, c);
    } else {
      SameKnown(sys, s');
    }
  }

  lemma {:induction false} PausesMove(sys: System, a: Action, s': System)
    requires (a.PauseFirst? || a.Recover?) && Settled(sys, a) == Some(s')
    ensures var t := if a.commits then PauseTx(sys, sys.procs[a.p].run, a.now) else sys;
      s'.deployments == t.deployments && s'.edits == t.edits
  {
    match a
    case PauseFirst(_, _, _) =>
    case Recover(_, _, _, _) =>
  }

  lemma {:induction false} PausesKnown(sys: System, a: Action, s': System)
    requires Known(sys) && (a.PauseFirst? || a.Recover?) && Settled(sys, a) == Some(s')
    ensures Known(s') && Forward(sys, s')
  {
    PausesMove(sys, a, s');
    if a.commits {
      var t := PauseTx(sys, sys.procs[a.p].run, a.now);
      PauseTxKnown(sys, sys.procs[a.p].run, a.now);
      SameKnown(t, s');
      ForwardTrans(sys, t, s');
    } else {
      SameKnown(sys, s');
    }
  }

  lemma {:induction false} ManagedKnown(sys: System, a: Action, s': System)
    requires Known(sys) && Manages(a) && Managed(sys, a) == Some(s')
    ensures Known(s') && Forward(sys, s')
  {
    match a
    case UserCreate(dep, now, config, schedule) =>
      MovedKnown(sys, s', dep, Created(now, config, schedule));
    case UserPause(dep, now) =>
      UpdatesMoveForward(sys.deployments[dep], now, "", []);
      MovedKnown(sys, s', dep, PausedByUser(sys.deployments[dep], now));
    case UserUnpause(dep, now, upcoming) =>
      UpdatesMoveForward(sys.deployments[dep], now, "", upcoming);
      MovedKnown(sys, s', dep, Unpaused(sys.deployments[dep], now, upcoming));
    case UserArchive(dep, now) =>
      UpdatesMoveForward(sys.deployments[dep], now, "", []);
      MovedKnown(sys, s', dep, Archived(sys.deployments[dep], now));
    case BeginUpdate(o, dep, patch) =>
    case CommitUpdate(o, now) =>
      var dep := sys.edits[o].deployment;
      UpdatedLater(sys.deployments[dep], sys.edits[o], now);
      MovedKnown(sys, s', dep, Updated(sys.deployments[dep], sys.edits[o], now));
  }

  lemma {:induction false} KnownStep(sys: System, a: Action, s': System)
    requires Known(sys) && WorkersHonest(sys) && Next(sys, a) == Some(s')
    ensures Known(s') && Forward(sys, s')
  {
    if Looks(a) {
      LookedRecords(sys, a, s');
      SameKnown(sys, s');
    } else if Manages(a) {
      ManagedKnown(sys, a, s');
    } else if Settles(a) {
      if a.Advance? { AdvanceKnown(sys, a.p, a.commits, a.ack, s'); } else { PausesKnown(sys, a, s'); }
    } else if a.ManualPause? {
      PauseTxKnown(sys, sys.runs[a.id], a.now);
    } else {
      WroteRecords(sys, a, s');
      SameKnown(sys, s');
    }
  }

  /** In every interleaving, updated_at of a deployment never moves back, an archived
      deployment never changes again, and only a schedule advance can go unnoticed by it. */
  lemma {:induction false} DeploymentsMoveForward(sys: System, run: seq<Action>, s': System)
    requires Known(sys) && Inv(sys) && Rounded(sys) && RunAll(sys, run) == Some(s')
    ensures Known(s') && Forward(sys, s')
    decreases |run|
  {
    if run != [] {
      var init := RunAll(sys, run[..|run| - 1]).value;
      DeploymentsMoveForward(sys, run[..|run| - 1], init);
      RunsStayHonest(sys, run[..|run| - 1], init);
      KnownStep(init, run[|run| - 1], s');
      ForwardTrans(sys, init, s');
    }
  }

  /** An owner's update that commits over the row it finds overwrites nothing it has not read
      but the schedule bookkeeping of an advance; and that exactly when there was one. Every
      pause, unpause, archival, recovery or other update since the read makes it a conflict. */
  lemma {:induction false} UpdateSeesAll(run: seq<Action>, sys: System, o: nat, now: nat)
    requires RunAll(EMPTY, run) == Some(sys) && o in sys.edits
    ensures sys.edits[o].deployment in sys.deployments
    ensures var e, d := sys.edits[o], sys.deployments[sys.edits[o].deployment];
      var d' := Updated(d, e, now);
      d' != d ==>
        && d'.archivedAt == d.archivedAt == None && d'.status == d.status && d'.reason == d.reason
        && (e.patch.config.None? ==> d'.config == d.config)
        && (e.patch.schedule.None? ==> (d'.upcoming == d.upcoming && d'.lastRunAt == d.lastRunAt <==> d == e.read))
  {
    EmptyInv();
    DeploymentsMoveForward(EMPTY, run, sys);
  }

  /** When a schedule advance commits between an owner's read and write, the write puts the old
      occurrence back exactly when the run is not newer than the last update; otherwise the
      write is refused. */
  lemma {:induction false} AdvancePutBack(d: Deployment, at: nat, last: nat, upcoming: seq<nat>, edit: Edit, now: nat)
    requires Kept(d) && NextRunAt(d) == Some(at) && edit.read == d
    requires edit.patch.schedule.None? && Patched(d, edit.patch) != d
    ensures var c := Completed(d, at, last, upcoming);
      if Micros(last) <= d.updatedAt then NextRunAt(Updated(c, edit, now)) == Some(at) else Updated(c, edit, now) == c
  {
  }

  /** No run, scheduled or manual, ever changes an archived deployment, or lifts or replaces a
      user's pause. */
  lemma {:induction false} WorkersSpareDeployment(sys: System, a: Action, s': System, dep: string)
    requires Inv(sys) && !Manages(a) && Next(sys, a) == Some(s') && dep in sys.deployments
    requires sys.deployments[dep].archivedAt.Some?
        || (sys.deployments[dep].status == Paused && sys.deployments[dep].reason == Some(Manual))
    ensures dep in s'.deployments && s'.deployments[dep] == sys.deployments[dep]
  {
    if Looks(a) {
      LookedRecords(sys, a, s');
    } else if Settles(a) {
      SettledSpares(sys, a, s', dep);
    } else if a.ManualPause? {
      PauseTxSpares(sys, sys.runs[a.id], a.now, dep);
    } else {
      WroteRecords(sys, a, s');
    }
  }

  lemma {:induction false} SettledSpares(sys: System, a: Action, s': System, dep: string)
    requires Settles(a) && Next(sys, a) == Some(s') && dep in sys.deployments
    requires sys.deployments[dep].archivedAt.Some?
        || (sys.deployments[dep].status == Paused && sys.deployments[dep].reason == Some(Manual))
    ensures dep in s'.deployments && s'.deployments[dep] == sys.deployments[dep]
  {
    if a.Advance? {
      AdvanceSpares(sys, a, s', dep);
    } else {
      PauseTxSpares(sys, sys.procs[a.p].run, a.now, dep);
    }
  }

  lemma {:induction false} PauseTxSpares(sys: System, run: Run, now: nat, dep: string)
    requires dep in sys.deployments
    requires sys.deployments[dep].archivedAt.Some?
        || (sys.deployments[dep].status == Paused && sys.deployments[dep].reason == Some(Manual))
    ensures dep in PauseTx(sys, run, now).deployments && PauseTx(sys, run, now).deployments[dep] == sys.deployments[dep]
  {
    RecoverySpares(sys.deployments[dep], run.errorType, now, now);
  }

  lemma {:induction false} AdvanceSpares(sys: System, a: Action, s': System, dep: string)
    requires a.Advance? && Next(sys, a) == Some(s') && dep in sys.deployments
    requires NextRunAt(sys.deployments[dep]) == None
    ensures dep in s'.deployments && s'.deployments[dep] == sys.deployments[dep]
  {
  }

  // ---------------------------------------------------------------- runs that get there

  ghost predicate Reaches(sys: System, s': System) {
    exists run :: RunAll(sys, run) == Some(s')
  }

  lemma {:induction false} ReachesSelf(sys: System)
    ensures Reaches(sys, sys)
  {
    assert RunAll(sys, []) == Some(sys);
  }

  lemma {:induction false} ReachesNext(sys: System, s: System, a: Action, s': System)
    requires Reaches(sys, s) && Next(s, a) == Some(s')
    ensures Reaches(sys, s')
  {
    var run: seq<Action> :| RunAll(sys, run) == Some(s);
    assert (run + [a])[..|run|] == run;
    assert RunAll(sys, run + [a]) == Some(s');
  }

  ghost predicate Good(sys: System) {
    Inv(sys) && Rounded(sys)
  }

  ghost predicate At(sys: System, p: nat, proc: Option<Proc>) {
    if proc.Some? then p in sys.procs && sys.procs[p] == proc.value else p !in sys.procs
  }

  predicate SameStore(sys: System, s': System) {
    && s'.deployments == sys.deployments && s'.runs == sys.runs && s'.index == sys.index
    && s'.sessions == sys.sessions && sys.used <= s'.used
  }

  predicate Runnable(sys: System, dep: string) {
    dep in sys.deployments && sys.deployments[dep].archivedAt.None? && sys.deployments[dep].status == Active
  }

  lemma {:induction false} LookStep(sys: System, p: nat, dep: string, at: nat, ok: bool)
    requires At(sys, p, Some(Looking(dep, at)))
    ensures Next(sys, Look(p, ok)).Some?
    ensures var existing := if ok then Found(sys, dep, at) else None;
      At(Next(sys, Look(p, ok)).value, p,
         if !ok then None else if existing.Some? then Some(AfterRun(existing.value)) else Some(Loading(dep, at)))
    ensures var s' := Next(sys, Look(p, ok)).value; SameStore(sys, s') && s'.used == sys.used
  {
  }

  lemma {:induction false} RecheckStep(sys: System, p: nat, run: Run, errorType: string, ok: bool)
    requires At(sys, p, Some(Rechecking(run, errorType))) && run.scheduledAt.Some?
    ensures Next(sys, Recheck(p, ok)).Some?
    ensures var existing := if ok then Found(sys, run.deployment, run.scheduledAt.value) else None;
      At(Next(sys, Recheck(p, ok)).value, p,
         Some(if existing.Some? then AfterRun(existing.value) else Recording(run.(errorType := errorType))))
    ensures SameStore(sys, Next(sys, Recheck(p, ok)).value)
  {
  }

  lemma {:induction false} AdvanceStep(sys: System, p: nat, run: Run, upcoming: seq<nat>, commits: bool, ack: bool)
    requires At(sys, p, Some(Advancing(run, upcoming))) && run.scheduledAt.Some?
    ensures Next(sys, Advance(p, commits, ack)).Some?
    ensures var ok := commits && run.deployment in sys.deployments && ack;
      var s' := Next(sys, Advance(p, commits, ack)).value;
      && At(s', p, if ok then Some(Returned(run)) else None)
      && (ok ==> s'.history == sys.history + [Advanced(run.id)])
  {
  }

  lemma {:induction false} ReturnedFacts(sys: System, p: nat)
    requires Good(sys) && p in sys.procs && sys.procs[p].Returned?
    ensures var run := sys.procs[p].run;
      IsRecorded(sys, run) && (ShouldPause(run.errorType) ==> PausedFor(run.id) in sys.history)
  {
    assert Recovers(sys.procs[p]) && Holds(sys.procs[p]);
  }

  /** A run is recorded for its occurrence, and its deployment is there. */
  ghost predicate Recorded(sys: System, run: Run) {
    && run.deployment in sys.deployments && run.scheduledAt.Some?
    && Found(sys, run.deployment, run.scheduledAt.value) == Some(run)
  }

  lemma {:induction false} StepBegin(from: System, sys: System, p: nat, dep: string, at: nat)
    requires Reaches(from, sys) && p !in sys.procs && at == Micros(at)
    ensures Reaches(from, Become(sys, p, Looking(dep, at)))
  {
    ReachesNext(from, sys, Begin(p, dep, at), Become(sys, p, Looking(dep, at)));
  }

  lemma {:induction false} StepLook(from: System, sys: System, p: nat, dep: string, at: nat)
    requires Reaches(from, sys) && At(sys, p, Some(Looking(dep, at)))
    ensures Reaches(from, AfterLookup(sys, p, Found(sys, dep, at), Some(Loading(dep, at))))
  {
    ReachesNext(from, sys, Look(p, true), AfterLookup(sys, p, Found(sys, dep, at), Some(Loading(dep, at))));
  }

  lemma {:induction false} StepLoad(from: System, sys: System, p: nat, dep: string, at: nat, id: string, now: nat)
    requires Reaches(from, sys) && At(sys, p, Some(Loading(dep, at))) && id !in sys.used
    requires dep in sys.deployments && sys.deployments[dep].archivedAt.None? && sys.deployments[dep].status.Active?
    ensures Reaches(from, Become(sys.(used := sys.used + {id}), p, Creating(Run(id, dep, Some(at), now, None, ""))))
  {
    var drafted := Run(id, dep, Some(at), now, None, "");
    ReachesNext(from, sys, Load(p, true, id, now), Become(sys.(used := sys.used + {id}), p, Creating(drafted)));
  }

  lemma {:induction false} StepCreateFails(from: System, sys: System, p: nat, run: Run, errorType: string)
    requires Reaches(from, sys) && At(sys, p, Some(Creating(run)))
    ensures Reaches(from, Become(sys, p, Rechecking(run, errorType)))
  {
    ReachesNext(from, sys, Create(p, false, false, "", errorType), Become(sys, p, Rechecking(run, errorType)));
  }

  lemma {:induction false} StepRecheck(from: System, sys: System, p: nat, run: Run, errorType: string)
    requires Reaches(from, sys) && At(sys, p, Some(Rechecking(run, errorType))) && run.scheduledAt.Some?
    requires Found(sys, run.deployment, run.scheduledAt.value) == None
    ensures Reaches(from, Become(sys, p, Recording(run.(errorType := errorType))))
  {
    ReachesNext(from, sys, Recheck(p, true), Become(sys, p, Recording(run.(errorType := errorType))));
  }

  lemma {:induction false} StepRecord(from: System, sys: System, p: nat, run: Run)
    requires Reaches(from, sys) && At(sys, p, Some(Recording(run))) && Insertable(sys, run)
        && ShouldPause(run.errorType)
    ensures Reaches(from, Become(Inserted(sys, run), p, Pausing(Stored(run))))
  {
    ReachesNext(from, sys, Record(p, true, true), Become(Inserted(sys, run), p, Pausing(Stored(run))));
  }

  lemma {:induction false} StepPause(from: System, sys: System, p: nat, run: Run)
    requires Reaches(from, sys) && At(sys, p, Some(Pausing(run)))
    ensures Reaches(from, Become(PauseTx(sys, run, 0), p, Recovering(run)))
  {
    ReachesNext(from, sys, PauseFirst(p, true, 0), Become(PauseTx(sys, run, 0), p, Recovering(run)));
  }

  lemma {:induction false} StepRecover(from: System, sys: System, p: nat, run: Run)
    requires Reaches(from, sys) && At(sys, p, Some(Recovering(run))) && run.deployment in sys.deployments
    ensures Reaches(from, Become(PauseTx(sys, run, 0), p, Reading(run)))
  {
    ReachesNext(from, sys, Recover(p, true, true, 0), Become(PauseTx(sys, run, 0), p, Reading(run)));
  }

  lemma {:induction false} StepRead(from: System, sys: System, p: nat, run: Run)
    requires Reaches(from, sys) && At(sys, p, Some(Reading(run))) && run.deployment in sys.deployments
    ensures Reaches(from, Become(sys, p, Advancing(run, [])))
  {
    ReachesNext(from, sys, Read(p, true, []), Become(sys, p, Advancing(run, [])));
  }

  function AdvancedTo(sys: System, run: Run): System
    requires run.deployment in sys.deployments && run.scheduledAt.Some?
  {
    Logged(WithDeployment(sys, run.deployment,
      Completed(sys.deployments[run.deployment], run.scheduledAt.value, run.createdAt, [])), Advanced(run.id))
  }

  lemma {:induction false} StepAdvance(from: System, sys: System, p: nat, run: Run)
    requires Reaches(from, sys) && At(sys, p, Some(Advancing(run, []))) && run.deployment in sys.deployments
        && run.scheduledAt.Some?
    ensures Reaches(from, Become(AdvancedTo(sys, run), p, Returned(run)))
  {
    ReachesNext(from, sys, Advance(p, true, true), Become(AdvancedTo(sys, run), p, Returned(run)));
  }

  lemma {:induction false} PauseTxShape(sys: System, run: Run)
    requires run.deployment in sys.deployments
    ensures var s := PauseTx(sys, run, 0);
      s.procs == sys.procs && SameRecords(sys, s) && s.deployments.Keys == sys.deployments.Keys
          && s.history == sys.history + [PausedFor(run.id)]
  {
  }

  /** A worker that holds the recorded run can go on until it returns it. */
  lemma {:induction false} CanFinish(from: System, sys: System, p: nat, run: Run) returns (s': System)
    requires Reaches(from, sys) && Recorded(sys, run) && At(sys, p, Some(Recovering(run)))
    ensures Reaches(from, s') && Recorded(s', run) && s'.procs == sys.procs[p := Returned(run)]
    ensures |s'.history| > 0 && s'.history[|s'.history| - 1] == Advanced(run.id)
  {
    StepRecover(from, sys, p, run);
    PauseTxShape(sys, run);
    var s1 := Become(PauseTx(sys, run, 0), p, Reading(run));
    StepRead(from, s1, p, run);
    var s2 := Become(s1, p, Advancing(run, []));
    StepAdvance(from, s2, p, run);
    s' := Become(AdvancedTo(s2, run), p, Returned(run));
  }

  /** Any further worker of a recorded, pause-worthy failure can return it too. */
  lemma {:induction false} CanReturn(from: System, sys: System, p: nat, run: Run) returns (s': System)
    requires Reaches(from, sys) && Recorded(sys, run) && p !in sys.procs
    requires ShouldPause(run.errorType) && run.scheduledAt.value == Micros(run.scheduledAt.value)
    ensures Reaches(from, s') && Recorded(s', run) && s'.procs == sys.procs[p := Returned(run)]
    ensures |s'.history| > 0 && s'.history[|s'.history| - 1] == Advanced(run.id)
  {
    var dep, at := run.deployment, run.scheduledAt.value;
    StepBegin(from, sys, p, dep, at);
    var s1 := Become(sys, p, Looking(dep, at));
    assert Found(s1, dep, at) == Some(run);
    StepLook(from, s1, p, dep, at);
    var s2 := Become(s1, p, Recovering(run));
    assert s2 == AfterLookup(s1, p, Found(s1, dep, at), Some(Loading(dep, at)));
    s' := CanFinish(from, s2, p, run);
  }

  /** A worker can draft a run of an occurrence nobody has recorded. */
  lemma {:induction false} CanDraft(from: System, sys: System, p: nat, id: string, dep: string, at: nat, now: nat)
      returns (s': System)
    requires Reaches(from, sys) && p !in sys.procs && at == Micros(at) && id !in sys.used
    requires dep in sys.deployments && sys.deployments[dep].archivedAt.None? && sys.deployments[dep].status.Active?
    requires (dep, at) !in sys.index
    ensures Reaches(from, s') && s'.procs == sys.procs[p := Creating(Run(id, dep, Some(at), now, None, ""))]
    ensures s'.runs == sys.runs && s'.index == sys.index && s'.deployments == sys.deployments
        && s'.sessions == sys.sessions
  {
    StepBegin(from, sys, p, dep, at);
    var s1 := Become(sys, p, Looking(dep, at));
    StepLook(from, s1, p, dep, at);
    var s2 := Become(s1, p, Loading(dep, at));
    assert s2 == AfterLookup(s1, p, Found(s1, dep, at), Some(Loading(dep, at)));
    StepLoad(from, s2, p, dep, at, id, now);
    s' := Become(s2.(used := s2.used + {id}), p, Creating(Run(id, dep, Some(at), now, None, "")));
  }

  /** A worker whose attempt to create the Session fails can record that failure. */
  lemma {:induction false} CanRecord(from: System, sys: System, p: nat, drafted: Run, errorType: string)
      returns (s': System)
    requires Reaches(from, sys) && At(sys, p, Some(Creating(drafted))) && ShouldPause(errorType)
        && drafted == Stored(drafted)
    requires drafted.scheduledAt.Some? && Insertable(sys, drafted)
    ensures var run := drafted.(errorType := errorType);
      Reaches(from, s') && Recorded(s', run) && s'.procs == sys.procs[p := Recovering(run)]
  {
    var run := drafted.(errorType := errorType);
    StepCreateFails(from, sys, p, drafted, errorType);
    var s1 := Become(sys, p, Rechecking(drafted, errorType));
    StepRecheck(from, s1, p, drafted, errorType);
    var s2 := Become(s1, p, Recording(run));
    StepRecord(from, s2, p, run);
    var s3 := Become(Inserted(s2, run), p, Pausing(run));
    StepPause(from, s3, p, run);
    PauseTxShape(s3, run);
    s' := Become(PauseTx(s3, run, 0), p, Recovering(run));
  }

  ghost predicate BothReturned(sys: System, p: nat, q: nat, run: Run) {
    && At(sys, p, Some(Returned(run))) && At(sys, q, Some(Returned(run))) && IsRecorded(sys, run)
    && PausedFor(run.id) in sys.history && Advanced(run.id) in sys.history
  }

  /** Runs get there: an owner creates a deployment, one worker's attempt at an occurrence
      fails and is recorded, and that worker and another both return the recorded failure,
      after the deployment was paused and its schedule advanced. */
  lemma {:induction false} WorkersCanReturn(id: string, dep: string, at: nat, errorType: string, p: nat, q: nat)
    requires at == Micros(at) && p != q
    requires errorType !in {"", "session_rate_limited_error", "unknown_error"}
    ensures exists run, sys ::
      RunAll(EMPTY, run) == Some(sys) && BothReturned(sys, p, q, Run(id, dep, Some(at), 0, None, errorType))
  {
    ShouldPauseExactly(errorType);
    ReachesSelf(EMPTY);
    var s1 := WithDeployment(EMPTY, dep, Created(0, "", Some([at])));
    ReachesNext(EMPTY, EMPTY, UserCreate(dep, 0, "", Some([at])), s1);
    var s2 := CanDraft(EMPTY, s1, p, id, dep, at, 0);
    var r := Run(id, dep, Some(at), 0, None, errorType);
    var s3 := CanRecord(EMPTY, s2, p, Run(id, dep, Some(at), 0, None, ""), errorType);
    var s4 := CanFinish(EMPTY, s3, p, r);
    var s5 := CanReturn(EMPTY, s4, q, r);
    var run :| RunAll(EMPTY, run) == Some(s5);
    EmptyInv();
    RunsStayHonest(EMPTY, run, s5);
    ReturnedFacts(s5, p);
    assert s5.history[|s5.history| - 1] in s5.history;
    assert BothReturned(s5, p, q, r);
  }

  lemma {:induction false} StepCreate(from: System, sys: System, p: nat, run: Run, session: string)
    requires Reaches(from, sys) && At(sys, p, Some(Creating(run))) && Insertable(sys, run) && session !in sys.sessions
    requires run.errorType == ""
    ensures var made := run.(session := Some(session));
      Reaches(from, Become(Inserted(sys, made).(sessions := sys.sessions[session := run.id]), p, Reading(made)))
  {
    var made := run.(session := Some(session));
    var s' := Become(Inserted(sys, made).(sessions := sys.sessions[session := run.id]), p, Reading(made));
    ReachesNext(from, sys, Create(p, true, true, session, ""), s');
  }

  /** A worker returns the run it created. */
  ghost predicate CreatorReturned(sys: System, p: nat, run: Run, session: string) {
    && At(sys, p, Some(Returned(run))) && run.session == Some(session)
    && session in sys.sessions && sys.sessions[session] == run.id && IsRecorded(sys, run)
    && Advanced(run.id) in sys.history
  }

  /** Runs get there too: a worker creates the Session and the run of an occurrence itself, and
      returns that run. It is not the recorded one when the clock was read finer than a
      microsecond. */
  lemma {:induction false} CreatorReturnsFiner(id: string, dep: string, at: nat, session: string, p: nat, now: nat)
    requires at == Micros(at)
    ensures var r := Run(id, dep, Some(at), now, Some(session), "");
      exists run, sys :: RunAll(EMPTY, run) == Some(sys) && CreatorReturned(sys, p, r, session)
        && (sys.runs[id] != r <==> now % 1000 != 0)
  {
    ReachesSelf(EMPTY);
    var s1 := WithDeployment(EMPTY, dep, Created(0, "", Some([at])));
    ReachesNext(EMPTY, EMPTY, UserCreate(dep, 0, "", Some([at])), s1);
    var s2 := CanDraft(EMPTY, s1, p, id, dep, at, now);
    var s5 := CanCreate(EMPTY, s2, p, Run(id, dep, Some(at), now, None, ""), session);
    var run :| RunAll(EMPTY, run) == Some(s5);
    assert s5.runs[id] == Stored(Run(id, dep, Some(at), now, Some(session), ""));
  }

  lemma {:induction false} CanCreate(from: System, sys: System, p: nat, drafted: Run, session: string)
      returns (s': System)
    requires Reaches(from, sys) && At(sys, p, Some(Creating(drafted))) && drafted.errorType == ""
        && drafted.scheduledAt.Some?
    requires Insertable(sys, drafted) && session !in sys.sessions
    ensures Reaches(from, s') && CreatorReturned(s', p, drafted.(session := Some(session)), session)
  {
    var made := drafted.(session := Some(session));
    StepCreate(from, sys, p, drafted, session);
    var s1 := Become(Inserted(sys, made).(sessions := sys.sessions[session := made.id]), p, Reading(made));
    StepRead(from, s1, p, made);
    var s2 := Become(s1, p, Advancing(made, []));
    StepAdvance(from, s2, p, made);
    s' := Become(AdvancedTo(s2, made), p, Returned(made));
    assert s'.history[|s2.history|] == Advanced(made.id);
  }

  // ---------------------------------------------------------------- RunScheduled

  datatype Choice = Choice(commits: bool, ack: bool, id: string, errorType: string, now: nat, upcoming: seq<nat>)

  datatype World = World(sys: System, others: seq<seq<Action>>, choices: seq<Choice>)

  function Interfered(sys: System, p: nat, actions: seq<Action>): System
    decreases |actions|
  {
    if actions == [] then sys
    else if !(ByWorker(actions[0]) && Actor(actions[0]) == p) && Next(sys, actions[0]).Some? then
      Interfered(Next(sys, actions[0]).value, p, actions[1..])
    else Interfered(sys, p, actions[1..])
  }

  lemma {:induction false} InterferedReaches(from: System, sys: System, p: nat, actions: seq<Action>)
    requires Reaches(from, sys) && Good(sys)
    ensures var s' := Interfered(sys, p, actions);
      && Reaches(from, s') && Good(s') && Extends(sys, s')
      && At(s', p, if p in sys.procs then Some(sys.procs[p]) else None)
    decreases |actions|
  {
    if actions != [] {
      if !(ByWorker(actions[0]) && Actor(actions[0]) == p) && Next(sys, actions[0]).Some? {
        var s := Next(sys, actions[0]).value;
        ReachesNext(from, sys, actions[0], s);
        InvStep(sys, actions[0], s);
        OthersStay(sys, actions[0], s, p);
        InterferedReaches(from, s, p, actions[1..]);
        ExtendsTrans(sys, s, Interfered(s, p, actions[1..]));
      } else {
        InterferedReaches(from, sys, p, actions[1..]);
      }
    }
  }

  /** What every call of a worker keeps: a good state, reached by steps from where it began. */
  ghost function Stepped(from: System, s': System): Option<System> {
    if Good(s') && Reaches(from, s') then Some(s') else None
  }

  /** Nobody interferes, and the next `n` calls go through. */
  predicate Smooth(w: World, n: nat) {
    w.others == [] && n <= |w.choices| && forall k :: 0 <= k < n ==> w.choices[k].commits && w.choices[k].ack
  }

  /** One call has been made, and nobody interfered. */
  predicate Next1(w: World, w': World) {
    w'.others == [] && w.choices != [] && w'.choices == w.choices[1..]
  }

  /** Before a call: other workers and owners move, and the outcome of the call is drawn. */
  method Await(w: World, p: nat, ghost from: System) returns (choice: Choice, w': World)
    requires Stepped(from, w.sys).Some?
    ensures Stepped(from, w'.sys).Some? && At(w'.sys, p, if p in w.sys.procs then Some(w.sys.procs[p]) else None)
    ensures w.others == [] && w.choices != [] ==> choice == w.choices[0] && w' == w.(choices := w.choices[1..])
  {
    choice := if w.choices == [] then Choice(false, false, "", "", 0, []) else w.choices[0];
    var actions := if w.others == [] then [] else w.others[0];
    InterferedReaches(from, w.sys, p, actions);
    w' := World(Interfered(w.sys, p, actions), if w.others == [] then [] else w.others[1..], if w.choices == [] then []
        else w.choices[1..]);
  }

  method Call(w: World, a: Action, ghost from: System) returns (w': World)
    requires Stepped(from, w.sys).Some? && Next(w.sys, a).Some?
    ensures w' == w.(sys := Next(w.sys, a).value) && Stepped(from, w'.sys).Some?
  {
    w' := w.(sys := Next(w.sys, a).value);
    InvStep(w.sys, a, w'.sys);
    ReachesNext(from, w.sys, a, w'.sys);
  }

  predicate OfOccurrence(run: Run, dep: string, at: nat) {
    run.deployment == dep && run.scheduledAt == Some(at)
  }

  /** The existing run, or a not-found error that lets the worker go on. */
  method GetScheduledRun(w: World, p: nat, dep: string, at: nat, ghost from: System)
      returns (ok: bool, existing: Option<Run>, w': World)
    requires Stepped(from, w.sys).Some? && At(w.sys, p, Some(Looking(dep, at)))
    ensures Stepped(from, w'.sys).Some?
    ensures At(w'.sys, p, if !ok then None else if existing.Some? then Some(AfterRun(existing.value))
        else Some(Loading(dep, at)))
    ensures existing.Some? ==> OfOccurrence(existing.value, dep, at)
    ensures Smooth(w, 1) ==>
        ok && existing == Found(w.sys, dep, at) && Next1(w, w') && SameStore(w.sys, w'.sys) && w'.sys.used == w.sys.used
  {
    var choice, w1 := Await(w, p, from);
    ok := choice.ack;
    existing := if ok then Found(w1.sys, dep, at) else None;
    if existing.Some? { FoundRecorded(w1.sys, dep, at); }
    LookStep(w1.sys, p, dep, at, ok);
    w' := Call(w1, Look(p, ok), from);
  }

  lemma {:induction false} LoadStep(sys: System, p: nat, dep: string, at: nat, ok: bool, id: string, now: nat)
    requires At(sys, p, Some(Loading(dep, at))) && id !in sys.used
    ensures Next(sys, Load(p, ok, id, now)).Some?
    ensures var s' := Next(sys, Load(p, ok, id, now)).value;
      && SameStore(sys, s')
      && At(s', p, if ok && Runnable(sys, dep) then Some(Creating(Run(id, dep, Some(at), now, None, ""))) else None)
  {
  }

  /** The deployment is loaded and must be runnable; the run gets its id. */
  method LoadDeployment(w: World, p: nat, dep: string, at: nat, ghost from: System)
      returns (run: Option<Run>, w': World)
    requires Stepped(from, w.sys).Some? && At(w.sys, p, Some(Loading(dep, at)))
    ensures Stepped(from, w'.sys).Some? && At(w'.sys, p, if run.Some? then Some(Creating(run.value)) else None)
    ensures run.Some? ==> OfOccurrence(run.value, dep, at) && run.value.errorType == ""
    ensures Smooth(w, 1) && w.choices[0].id !in w.sys.used && Runnable(w.sys, dep) ==>
        run.Some? && run.value.id == w.choices[0].id && Next1(w, w') && SameStore(w.sys, w'.sys)
  {
    var choice, w1 := Await(w, p, from);
    run := None;
    if choice.id in w1.sys.used {
      w' := Call(w1, Crash(p), from);
      return;
    }
    LoadStep(w1.sys, p, dep, at, choice.ack, choice.id, choice.now);
    w' := Call(w1, Load(p, choice.ack, choice.id, choice.now), from);
    if choice.ack && dep in w1.sys.deployments && w1.sys.deployments[dep].archivedAt.None?
        && w1.sys.deployments[dep].status == Active {
      run := Some(Run(choice.id, dep, Some(at), choice.now, None, ""));
    }
  }

  /** Session and run are inserted in one transaction. */
  method CreateSession(w: World, p: nat, run: Run, ghost from: System)
      returns (session: Option<string>, errorType: string, w': World)
    requires Stepped(from, w.sys).Some? && At(w.sys, p, Some(Creating(run)))
    ensures Stepped(from, w'.sys).Some?
    ensures At(w'.sys, p, Some(if session.Some? then AfterRun(run.(session := session))
        else Rechecking(run, errorType)))
    ensures Smooth(w, 1) && Insertable(w.sys, run) && w.choices[0].id !in w.sys.sessions ==>
        session == Some(w.choices[0].id) && Next1(w, w') && w'.sys.deployments == w.sys.deployments
    ensures w.others == [] && w.choices != [] && !w.choices[0].commits ==>
        session == None && errorType == w.choices[0].errorType && Next1(w, w') && SameStore(w.sys, w'.sys)
  {
    var choice, w1 := Await(w, p, from);
    errorType := choice.errorType;
    var created := choice.commits && Insertable(w1.sys, run) && choice.id !in w1.sys.sessions;
    session := if created && choice.ack then Some(choice.id) else None;
    w' := Call(w1, Create(p, choice.commits, choice.ack, choice.id, errorType), from);
  }

  /** After a failed attempt: another worker may have recorded the occurrence. */
  method RecheckRun(w: World, p: nat, run: Run, errorType: string, ghost from: System)
      returns (existing: Option<Run>, w': World)
    requires Stepped(from, w.sys).Some? && At(w.sys, p, Some(Rechecking(run, errorType))) && run.scheduledAt.Some?
    ensures Stepped(from, w'.sys).Some?
    ensures At(w'.sys, p, Some(if existing.Some? then AfterRun(existing.value)
        else Recording(run.(errorType := errorType))))
    ensures existing.Some? ==> OfOccurrence(existing.value, run.deployment, run.scheduledAt.value)
    ensures Smooth(w, 1) ==>
        existing == Found(w.sys, run.deployment, run.scheduledAt.value) && Next1(w, w') && SameStore(w.sys, w'.sys)
  {
    var choice, w1 := Await(w, p, from);
    existing := if choice.ack then Found(w1.sys, run.deployment, run.scheduledAt.value) else None;
    if existing.Some? { FoundRecorded(w1.sys, run.deployment, run.scheduledAt.value); }
    RecheckStep(w1.sys, p, run, errorType, choice.ack);
    w' := Call(w1, Recheck(p, choice.ack), from);
  }

  method CreateRun(w: World, p: nat, run: Run, ghost from: System) returns (created: bool, w': World)
    requires Stepped(from, w.sys).Some? && At(w.sys, p, Some(Recording(run))) && run.scheduledAt.Some?
    ensures Stepped(from, w'.sys).Some?
    ensures At(w'.sys, p, Some(if !created then CheckingAgain(run.deployment, run.scheduledAt.value)
                               else if ShouldPause(run.errorType) then Pausing(Stored(run)) else Reading(Stored(run))))
    ensures Smooth(w, 1) && Insertable(w.sys, run) ==>
        created && Next1(w, w') && w'.sys.deployments == w.sys.deployments
  {
    var choice, w1 := Await(w, p, from);
    created := choice.commits && Insertable(w1.sys, run) && choice.ack;
    w' := Call(w1, Record(p, choice.commits, choice.ack), from);
  }

  method CheckRunAgain(w: World, p: nat, dep: string, at: nat, ghost from: System)
      returns (existing: Option<Run>, w': World)
    requires Stepped(from, w.sys).Some? && At(w.sys, p, Some(CheckingAgain(dep, at)))
    ensures Stepped(from, w'.sys).Some? && At(w'.sys, p, if existing.Some? then Some(AfterRun(existing.value))
        else None)
    ensures existing.Some? ==> OfOccurrence(existing.value, dep, at)
  {
    var choice, w1 := Await(w, p, from);
    existing := if choice.ack then Found(w1.sys, dep, at) else None;
    if existing.Some? { FoundRecorded(w1.sys, dep, at); }
    CheckAgainStep(w1.sys, p, dep, at, choice.ack);
    w' := Call(w1, CheckAgain(p, choice.ack), from);
  }

  /** The first pause for a failure; its errors are ignored, recovery will repeat it. */
  method PauseForError(w: World, p: nat, run: Run, ghost from: System) returns (w': World)
    requires Stepped(from, w.sys).Some? && At(w.sys, p, Some(Pausing(run)))
    ensures Stepped(from, w'.sys).Some? && At(w'.sys, p, Some(Recovering(run)))
    ensures w.others == [] && w.choices != [] ==> Next1(w, w') && w'.sys.deployments.Keys == w.sys.deployments.Keys
  {
    var choice, w1 := Await(w, p, from);
    w' := Call(w1, PauseFirst(p, choice.commits, choice.now), from);
  }

  /** Records the failure; a concurrent record wins. */
  method RecordFailure(w: World, p: nat, run: Run, ghost from: System, ghost n: nat)
      returns (result: Option<Run>, w': World)
    requires Stepped(from, w.sys).Some? && At(w.sys, p, Some(Recording(run))) && run.scheduledAt.Some?
    ensures Stepped(from, w'.sys).Some? && At(w'.sys, p, if result.Some? then Some(AfterRun(result.value)) else None)
    ensures result.Some? ==> OfOccurrence(result.value, run.deployment, run.scheduledAt.value)
    ensures Smooth(w, n + 2) && Insertable(w.sys, run) ==>
        result == Some(Stored(run)) && Smooth(w', n) && run.deployment in w'.sys.deployments
  {
    var created;
    created, w' := CreateRun(w, p, run, from);
    if !created {
      result, w' := CheckRunAgain(w', p, run.deployment, run.scheduledAt.value, from);
      return;
    }
    result := Some(Stored(run));
    if ShouldPause(run.errorType) { w' := PauseForError(w', p, Stored(run), from); }
  }

  /** The occurrence is free, its deployment can run, and the ids drawn are fresh. */
  ghost predicate Startable(w: World, dep: string, at: nat) {
    && |w.choices| >= 2 && Runnable(w.sys, dep) && (dep, at) !in w.sys.index
    && w.choices[0].id !in w.sys.used && w.choices[1].id !in w.sys.sessions
  }

  /** Nobody interferes, and of the next `n` calls all but the first go through. */
  ghost predicate FailsFirst(w: World, n: nat) {
    && w.others == [] && 1 <= n <= |w.choices| && !w.choices[0].commits
    && forall k :: 1 <= k < n ==> w.choices[k].commits && w.choices[k].ack
  }

  /** What is left once the first call is made. */
  function Ahead(w: World): World {
    if w.choices == [] then w else w.(choices := w.choices[1..])
  }

  method RunDeployment(w: World, p: nat, dep: string, at: nat, ghost from: System, ghost n: nat)
      returns (result: Option<Run>, w': World)
    requires Stepped(from, w.sys).Some? && At(w.sys, p, Some(Loading(dep, at)))
    ensures Stepped(from, w'.sys).Some? && At(w'.sys, p, if result.Some? then Some(AfterRun(result.value)) else None)
    ensures result.Some? ==> OfOccurrence(result.value, dep, at)
    ensures Smooth(w, n + 2) && Startable(w, dep, at) ==>
        result.Some? && result.value.session == Some(w.choices[1].id) && Smooth(w', n) && dep in w'.sys.deployments
    ensures Smooth(w, 1) && FailsFirst(Ahead(w), n + 4) && Startable(w, dep, at) ==>
        result.Some? && result.value.session == None && result.value.errorType == w.choices[1].errorType
        && Smooth(w', n) && dep in w'.sys.deployments
  {
    result := None;
    var run;
    run, w' := LoadDeployment(w, p, dep, at, from);
    if run.None? { return; }
    result, w' := AttemptRun(w', p, run.value, from, n);
  }

  /** Creates the Session with the drafted run, or records why it could not. */
  method AttemptRun(w: World, p: nat, run: Run, ghost from: System, ghost n: nat)
      returns (result: Option<Run>, w': World)
    requires Stepped(from, w.sys).Some? && At(w.sys, p, Some(Creating(run))) && run.scheduledAt.Some?
    ensures Stepped(from, w'.sys).Some? && At(w'.sys, p, if result.Some? then Some(AfterRun(result.value)) else None)
    ensures result.Some? ==> OfOccurrence(result.value, run.deployment, run.scheduledAt.value)
    ensures Smooth(w, n + 1) && Insertable(w.sys, run) && w.choices[0].id !in w.sys.sessions ==>
        result == Some(run.(session := Some(w.choices[0].id))) && Smooth(w', n) && run.deployment in w'.sys.deployments
    ensures FailsFirst(w, n + 4) && Insertable(w.sys, run) ==>
        result == Some(Stored(run.(errorType := w.choices[0].errorType))) && Smooth(w', n)
        && run.deployment in w'.sys.deployments
  {
    var session, errorType;
    session, errorType, w' := CreateSession(w, p, run, from);
    if session.Some? { return Some(run.(session := session)), w'; }
    if FailsFirst(w, n + 4) { SmoothAfter(w, w', n + 3); }
    result, w' := FailedRun(w', p, run, errorType, from, n);
  }

  lemma {:induction false} SmoothAfter(w: World, w': World, n: nat)
    requires FailsFirst(w, n + 1) && Next1(w, w')
    ensures Smooth(w', n)
  {
  }

  /** The attempt failed: the run recorded meanwhile, or the failure. */
  method FailedRun(w: World, p: nat, run: Run, errorType: string, ghost from: System, ghost n: nat)
      returns (result: Option<Run>, w': World)
    requires Stepped(from, w.sys).Some? && At(w.sys, p, Some(Rechecking(run, errorType))) && run.scheduledAt.Some?
    ensures Stepped(from, w'.sys).Some? && At(w'.sys, p, if result.Some? then Some(AfterRun(result.value)) else None)
    ensures result.Some? ==> OfOccurrence(result.value, run.deployment, run.scheduledAt.value)
    ensures Smooth(w, n + 3) && Insertable(w.sys, run) ==>
        result == Some(Stored(run.(errorType := errorType))) && Smooth(w', n) && run.deployment in w'.sys.deployments
  {
    result, w' := RecheckRun(w, p, run, errorType, from);
    if result.Some? { return; }
    result, w' := RecordFailure(w', p, run.(errorType := errorType), from, n);
  }

  method RecoverScheduledFailure(w: World, p: nat, run: Run, ghost from: System, ghost n: nat)
      returns (ok: bool, w': World)
    requires Stepped(from, w.sys).Some? && At(w.sys, p, Some(AfterRun(run)))
    ensures Stepped(from, w'.sys).Some? && At(w'.sys, p, if ok then Some(Reading(run)) else None)
    ensures Smooth(w, n + 1) && run.deployment in w.sys.deployments ==>
        ok && Smooth(w', n) && run.deployment in w'.sys.deployments
  {
    if !ShouldPause(run.errorType) { return true, w; }
    var choice, w1 := Await(w, p, from);
    ok := choice.commits && choice.ack && run.deployment in w1.sys.deployments;
    w' := Call(w1, Recover(p, choice.commits, choice.ack, choice.now), from);
  }

  method ReadSchedule(w: World, p: nat, run: Run, ghost from: System) returns (upcoming: Option<seq<nat>>, w': World)
    requires Stepped(from, w.sys).Some? && At(w.sys, p, Some(Reading(run)))
    ensures Stepped(from, w'.sys).Some? && At(w'.sys, p, if upcoming.Some? then Some(Advancing(run, upcoming.value))
        else None)
    ensures Smooth(w, 2) && run.deployment in w.sys.deployments ==>
        upcoming.Some? && Smooth(w', 1) && run.deployment in w'.sys.deployments
  {
    var choice, w1 := Await(w, p, from);
    ReadStep(w1.sys, p, run, choice.ack, choice.upcoming);
    upcoming := if choice.ack && run.deployment in w1.sys.deployments then Some(choice.upcoming) else None;
    w' := Call(w1, Read(p, choice.ack, choice.upcoming), from);
  }

  lemma {:induction false} CheckAgainStep(sys: System, p: nat, dep: string, at: nat, ok: bool)
    requires At(sys, p, Some(CheckingAgain(dep, at)))
    ensures Next(sys, CheckAgain(p, ok)).Some?
    ensures var existing := if ok then Found(sys, dep, at) else None;
      At(Next(sys, CheckAgain(p, ok)).value, p, if existing.Some? then Some(AfterRun(existing.value)) else None)
  {
  }

  lemma {:induction false} ReadStep(sys: System, p: nat, run: Run, ok: bool, upcoming: seq<nat>)
    requires At(sys, p, Some(Reading(run)))
    ensures Next(sys, Read(p, ok, upcoming)).Some?
    ensures At(Next(sys, Read(p, ok, upcoming)).value, p,
               if ok && run.deployment in sys.deployments then Some(Advancing(run, upcoming)) else None)
    ensures SameStore(sys, Next(sys, Read(p, ok, upcoming)).value)
  {
  }

  method CompleteSchedule(w: World, p: nat, run: Run, ghost from: System) returns (ok: bool, w': World)
    requires Stepped(from, w.sys).Some? && At(w.sys, p, Some(Reading(run))) && run.scheduledAt.Some?
    ensures Stepped(from, w'.sys).Some? && At(w'.sys, p, if ok then Some(Returned(run)) else None)
    ensures ok ==> Advanced(run.id) in w'.sys.history
    ensures Smooth(w, 2) && run.deployment in w.sys.deployments ==> ok
  {
    var upcoming, w1 := ReadSchedule(w, p, run, from);
    if upcoming.None? { return false, w1; }
    ok, w' := AdvanceSchedule(w1, p, run, upcoming.value, from);
  }

  method AdvanceSchedule(w: World, p: nat, run: Run, upcoming: seq<nat>, ghost from: System)
      returns (ok: bool, w': World)
    requires Stepped(from, w.sys).Some? && At(w.sys, p, Some(Advancing(run, upcoming))) && run.scheduledAt.Some?
    ensures Stepped(from, w'.sys).Some? && At(w'.sys, p, if ok then Some(Returned(run)) else None)
    ensures ok ==> Advanced(run.id) in w'.sys.history
    ensures Smooth(w, 1) && run.deployment in w.sys.deployments ==> ok
  {
    var choice, w1 := Await(w, p, from);
    ok := choice.commits && run.deployment in w1.sys.deployments && choice.ack;
    AdvanceStep(w1.sys, p, run, upcoming, choice.commits, choice.ack);
    w' := Call(w1, Advance(p, choice.commits, choice.ack), from);
  }

  /** What the first call of an attempt leaves of a smooth run. */
  lemma {:induction false} SmoothAhead(w: World, w': World, dep: string, at: nat)
    requires Next1(w, w') && SameStore(w.sys, w'.sys) && w'.sys.used == w.sys.used
    ensures (Smooth(w, 2) ==> Smooth(w', 1)) && (Smooth(w, 4) ==> Smooth(w', 3)) && (Smooth(w, 6) ==> Smooth(w', 5))
    ensures FailsFirst(Ahead(Ahead(w)), 7) ==> FailsFirst(Ahead(w'), 7)
    ensures Startable(Ahead(w), dep, at) ==>
      Startable(w', dep, at) && w'.choices[1].id == w.choices[2].id && w'.choices[1].errorType == w.choices[2].errorType
  {
  }

  /** Nobody interferes, and the occurrence has a run, or it can be run and either everything
      goes through or everything but the creation. */
  ghost predicate Clear(w: World, dep: string, at: nat) {
    || (Smooth(w, 4) && Found(w.sys, dep, at).Some?)
    || (Smooth(w, 6) && Startable(Ahead(w), dep, at))
    || (Smooth(w, 2) && FailsFirst(Ahead(Ahead(w)), 7) && Startable(Ahead(w), dep, at))
  }

  /** Then the attempt returns: the run recorded before, a run with a new Session, or the failure. */
  ghost predicate AsExpected(w: World, dep: string, at: nat, result: Option<Run>) {
    && (Smooth(w, 4) && Found(w.sys, dep, at).Some? ==> result == Found(w.sys, dep, at))
    && (Smooth(w, 6) && Startable(Ahead(w), dep, at) ==>
          result.Some? && result.value.session == Some(w.choices[2].id))
    && (Smooth(w, 2) && FailsFirst(Ahead(Ahead(w)), 7) && Startable(Ahead(w), dep, at) ==>
          result.Some? && result.value.session == None && result.value.errorType == w.choices[2].errorType)
  }

  lemma {:induction false} ExpectedAgain(w: World, w': World, dep: string, at: nat, result: Option<Run>)
    requires w' == w.(sys := w'.sys) && w'.sys == w.sys.(procs := w'.sys.procs)
    ensures AsExpected(w, dep, at, result) == AsExpected(w', dep, at, result)
    ensures Clear(w, dep, at) == Clear(w', dep, at)
  {
  }

  lemma {:induction false} UnclearExpects(w: World, dep: string, at: nat)
    requires !Clear(w, dep, at)
    ensures AsExpected(w, dep, at, None)
  {
  }

  /** One worker's attempt at an occurrence, interleaved with any others. A returned run is the
      recorded one, its recovery has committed if it needed one, and then the schedule was
      advanced. When nobody interferes, an attempt whose calls go through returns the run already
      recorded or one with a new Session, and one whose creation fails returns that failure. */
  method RunScheduled(w: World, p: nat, dep: string, scheduledAt: nat) returns (result: Option<Run>, w': World)
    requires Good(w.sys) && p !in w.sys.procs
    ensures Stepped(w.sys, w'.sys).Some? && At(w'.sys, p, if result.Some? then Some(Returned(result.value)) else None)
    ensures result.Some? ==>
      && OfOccurrence(result.value, dep, Micros(scheduledAt))
      && IsRecorded(w'.sys, result.value)
      && (result.value.errorType !in {"", "session_rate_limited_error", "unknown_error"} ==>
            PausedFor(result.value.id) in w'.sys.history)
      && Advanced(result.value.id) in w'.sys.history
    ensures AsExpected(w, dep, Micros(scheduledAt), result)
  {
    w' := BeginRun(w, p, dep, scheduledAt);
    ghost var begun := w';
    result, w' := FindOrRun(w', p, dep, Micros(scheduledAt), w.sys);
    ExpectedAgain(w, begun, dep, Micros(scheduledAt), result);
    if result.None? { return; }
    var ok;
    ok, w' := ConcludeRun(w', p, result.value, w.sys);
    if !ok {
      UnclearExpects(w, dep, Micros(scheduledAt));
      return None, w';
    }
  }

  method BeginRun(w: World, p: nat, dep: string, scheduledAt: nat) returns (w': World)
    requires Good(w.sys) && p !in w.sys.procs
    ensures Stepped(w.sys, w'.sys).Some? && At(w'.sys, p, Some(Looking(dep, Micros(scheduledAt))))
    ensures w' == w.(sys := w'.sys) && w'.sys == w.sys.(procs := w'.sys.procs)
  {
    ReachesSelf(w.sys);
    w' := Call(w, Begin(p, dep, scheduledAt), w.sys);
  }

  /** The recorded run of the occurrence, or a new one. */
  method FindOrRun(w: World, p: nat, dep: string, at: nat, ghost from: System)
      returns (result: Option<Run>, w': World)
    requires Stepped(from, w.sys).Some? && At(w.sys, p, Some(Looking(dep, at)))
    ensures Stepped(from, w'.sys).Some? && At(w'.sys, p, if result.Some? then Some(AfterRun(result.value)) else None)
    ensures result.Some? ==> OfOccurrence(result.value, dep, at)
    ensures AsExpected(w, dep, at, result) && (Clear(w, dep, at) ==> Smooth(w', 3) && dep in w'.sys.deployments)
  {
    var ok;
    ok, result, w' := GetScheduledRun(w, p, dep, at, from);
    if !ok { return None, w'; }
    ghost var w1 := w';
    if Next1(w, w1) && SameStore(w.sys, w1.sys) && w1.sys.used == w.sys.used { SmoothAhead(w, w1, dep, at); }
    if result.None? { result, w' := RunDeployment(w', p, dep, at, from, 3); }
  }

  /** The failure of a run in hand is recovered, then the schedule advanced. */
  method ConcludeRun(w: World, p: nat, run: Run, ghost from: System) returns (ok: bool, w': World)
    requires Stepped(from, w.sys).Some? && At(w.sys, p, Some(AfterRun(run))) && run.scheduledAt.Some?
    ensures Stepped(from, w'.sys).Some? && At(w'.sys, p, if ok then Some(Returned(run)) else None)
    ensures ok ==>
      && IsRecorded(w'.sys, run) && Advanced(run.id) in w'.sys.history
      && (run.errorType !in {"", "session_rate_limited_error", "unknown_error"} ==>
            PausedFor(run.id) in w'.sys.history)
    ensures Smooth(w, 3) && run.deployment in w.sys.deployments ==> ok
  {
    ok, w' := RecoverScheduledFailure(w, p, run, from, 2);
    if !ok { return; }
    ok, w' := CompleteSchedule(w', p, run, from);
    if !ok { return; }
    ReturnedFacts(w'.sys, p);
    ShouldPauseExactly(run.errorType);
  }
}
