/** What scheduled runs and owners do to a deployment (internal/app/deployment_service.go),
    said of every interleaving: which failures pause it, and what each operation changes. */
module ScheduledFailures {
  import opened Conversation
  import opened ScheduledRuns

  // ---------------------------------------------------------------- which failures pause

  /** The failures that leave a deployment running: none, a rate limit, an unknown error. */
  predicate Passing(errorType: string) {
    errorType == "" || errorType == "session_rate_limited_error" || errorType == "unknown_error"
  }

  /** A worker about to pause for its run holds a failure that is not passing. */
  ghost predicate Warranted(proc: Proc) {
    proc.Pausing? || proc.Recovering? ==> !Passing(proc.run.errorType)
  }

  ghost predicate PausedFairly(sys: System, e: ScheduledRuns.Entry) {
    e.PausedFor? ==> e.runId in sys.runs && !Passing(sys.runs[e.runId].errorType)
  }

  ghost predicate Fair(sys: System) {
    && (forall p | p in sys.procs :: Warranted(sys.procs[p]))
    && (forall e | e in sys.history :: PausedFairly(sys, e))
  }

  lemma {:induction false} AfterRunWarranted(run: Run)
    ensures Warranted(AfterRun(run))
  {
    ShouldPauseExactly(run.errorType);
  }

  lemma {:induction false} LookupWarranted(sys: System, p: nat, found: Option<Run>, otherwise: Option<Proc>)
    requires otherwise.Some? ==> Warranted(otherwise.value)
    ensures var s' := AfterLookup(sys, p, found, otherwise); p in s'.procs ==> Warranted(s'.procs[p])
  {
    if found.Some? { AfterRunWarranted(found.value); }
  }

  lemma {:induction false} LookedWarranted(sys: System, a: Action, s': System)
    requires Looks(a) && Looked(sys, a) == Some(s') && a.p in s'.procs
    requires a.p in sys.procs ==> Warranted(sys.procs[a.p])
    ensures Warranted(s'.procs[a.p])
  {
    if (a.Look? && a.ok) || a.Recheck? || a.CheckAgain? {
      var dep, at, found, otherwise := LookupStep(sys, a, s');
      LookupWarranted(sys, a.p, found, otherwise);
    } else {
      PlainWarranted(sys, a, s');
    }
  }

  lemma {:induction false} PlainWarranted(sys: System, a: Action, s': System)
    requires (a.Look? && !a.ok) || a.Begin? || a.Load? || a.Read? || a.Crash?
    requires Looked(sys, a) == Some(s') && a.p in s'.procs
    ensures Warranted(s'.procs[a.p])
  {
    match a
    case Begin(_, _, _) =>
    case Look(_, _) =>
    case Load(p, ok, runId, now) => LoadWarranted(sys, p, ok, runId, now, s');
    case Read(_, _, _) =>
    case Crash(_) =>
  }

  lemma {:induction false} LoadWarranted(sys: System, p: nat, ok: bool, runId: string, now: nat, s': System)
    requires Looked(sys, Load(p, ok, runId, now)) == Some(s') && p in s'.procs
    ensures Warranted(s'.procs[p])
  {
  }

  lemma {:induction false} CreateWarranted(sys: System, a: Action, s': System)
    requires a.Create? && Wrote(sys, a) == Some(s') && a.p in s'.procs
    ensures Warranted(s'.procs[a.p])
  {
    AfterRunWarranted(sys.procs[a.p].run.(session := Some(a.session)));
  }

  lemma {:induction false} RecordWarranted(sys: System, a: Action, s': System)
    requires a.Record? && Wrote(sys, a) == Some(s') && a.p in s'.procs
    ensures Warranted(s'.procs[a.p])
  {
    ShouldPauseExactly(sys.procs[a.p].run.errorType);
  }

  lemma {:induction false} SettledWarranted(sys: System, a: Action, s': System)
    requires Settles(a) && Settled(sys, a) == Some(s') && a.p in s'.procs
    requires a.p in sys.procs ==> Warranted(sys.procs[a.p])
    ensures Warranted(s'.procs[a.p])
  {
    match a
    case PauseFirst(_, _, _) =>
    case Recover(_, _, _, _) =>
    case Advance(_, _, _) =>
  }

  lemma {:induction false} WarrantedStep(sys: System, a: Action, s': System, q: nat)
    requires Fair(sys) && Next(sys, a) == Some(s') && q in s'.procs
    ensures Warranted(s'.procs[q])
  {
    if !ByWorker(a) || q != Actor(a) { OthersStay(sys, a, s', q); }
    else if Looks(a) { LookedWarranted(sys, a, s'); }
    else if Settles(a) { SettledWarranted(sys, a, s'); }
    else if a.Create? { CreateWarranted(sys, a, s'); }
    else { RecordWarranted(sys, a, s'); }
  }

  /** The run a step may pause for: the worker's own, or a manual run. */
  function Blamed(sys: System, a: Action): Option<Run> {
    if (a.PauseFirst? && a.p in sys.procs && sys.procs[a.p].Pausing? && a.commits)
        || (a.Recover? && a.p in sys.procs && sys.procs[a.p].Recovering? && a.commits) then Some(sys.procs[a.p].run)
    else if a.ManualPause? && a.id in sys.runs then Some(sys.runs[a.id])
    else None
  }

  lemma {:induction false} BlamedFairly(sys: System, a: Action, s': System)
    requires Inv(sys) && Fair(sys) && Next(sys, a) == Some(s') && Blamed(sys, a).Some?
    ensures var run := Blamed(sys, a).value;
      && run.id in sys.runs && !Passing(run.errorType)
      && sys.runs[run.id].errorType == run.errorType && sys.runs[run.id].deployment == run.deployment
  {
    if a.ManualPause? {
      ShouldPauseExactly(sys.runs[a.id].errorType);
    } else {
      assert Holds(sys.procs[a.p]) && Warranted(sys.procs[a.p]);
    }
  }

  predicate SameEffect(t: System, s': System) {
    s'.history == t.history && s'.deployments == t.deployments
  }

  /** Only a pause adds a recovery to the history. */
  lemma {:induction false} PausesLogged(sys: System, a: Action, s': System, e: ScheduledRuns.Entry)
    requires Inv(sys) && Next(sys, a) == Some(s') && e in s'.history && e !in sys.history && e.PausedFor?
    ensures Blamed(sys, a).Some? && e.runId == Blamed(sys, a).value.id
  {
    if Looks(a) { LookedRecords(sys, a, s'); }
    else if Manages(a) { ManagedRecords(sys, a, s'); }
    else if a.Create? || a.Record? || a.ManualRun? { WroteRecords(sys, a, s'); }
    else if a.Advance? { AdvanceLogged(sys, a, s'); }
    else { PauseNamed(sys, a, s'); }
  }

  lemma {:induction false} PauseNamed(sys: System, a: Action, s': System)
    requires (a.PauseFirst? || a.Recover? || a.ManualPause?) && Next(sys, a) == Some(s')
    ensures Blamed(sys, a) == None ==> s'.history == sys.history && s'.deployments == sys.deployments
    ensures Blamed(sys, a).Some? ==> exists now :: SameEffect(PauseTx(sys, Blamed(sys, a).value, now), s')
  {
    match a
    case PauseFirst(_, _, _) => PauseNamedFirst(sys, a, s');
    case Recover(_, _, _, _) => RecoverNamed(sys, a, s');
    case ManualPause(_, _) => assert SameEffect(PauseTx(sys, sys.runs[a.id], a.now), s');
  }

  lemma {:induction false} PauseNamedFirst(sys: System, a: Action, s': System)
    requires a.PauseFirst? && Next(sys, a) == Some(s')
    ensures SameEffect(
      if Blamed(sys, a).Some? then PauseTx(sys, Blamed(sys, a).value, a.now) else sys, s')
  {
  }

  lemma {:induction false} RecoverNamed(sys: System, a: Action, s': System)
    requires a.Recover? && Next(sys, a) == Some(s')
    ensures SameEffect(
      if Blamed(sys, a).Some? then PauseTx(sys, Blamed(sys, a).value, a.now) else sys, s')
  {
  }

  lemma {:induction false} FairStep(sys: System, a: Action, s': System)
    requires Inv(sys) && Fair(sys) && Next(sys, a) == Some(s') && Extends(sys, s')
    ensures Fair(s')
  {
    forall q | q in s'.procs ensures Warranted(s'.procs[q]) { WarrantedStep(sys, a, s', q); }
    forall e | e in s'.history ensures PausedFairly(s', e) {
      if e in sys.history {
        assert PausedFairly(sys, e);
      } else if e.PausedFor? {
        PausesLogged(sys, a, s', e);
        BlamedFairly(sys, a, s');
      }
    }
  }

  lemma {:induction false} RunsFair(run: seq<Action>, sys: System)
    requires RunAll(EMPTY, run) == Some(sys)
    ensures Fair(sys) && Inv(sys) && Rounded(sys)
    decreases |run|
  {
    EmptyInv();
    RunsStayHonest(EMPTY, run, sys);
    if run != [] {
      var init := RunAll(EMPTY, run[..|run| - 1]).value;
      RunsFair(run[..|run| - 1], init);
      StepExtends(init, run[|run| - 1], sys);
      FairStep(init, run[|run| - 1], sys);
    }
  }

  /** In every interleaving, of a run that did not fail, or failed by a rate limit or an unknown
      error, no recovery is ever committed. */
  lemma {:induction false} NeverPausedFor(run: seq<Action>, sys: System, id: string)
    requires RunAll(EMPTY, run) == Some(sys) && id in sys.runs
    requires sys.runs[id].errorType in {"", "session_rate_limited_error", "unknown_error"}
    ensures PausedFor(id) !in sys.history
  {
    RunsFair(run, sys);
    assert PausedFor(id) in sys.history ==> PausedFairly(sys, PausedFor(id));
  }

  // ---------------------------------------------------------------- what runs do to a deployment

  predicate OutOfReach(d: Deployment) {
    d.archivedAt.Some? || (d.status == Paused && d.reason == Some(Manual))
  }

  /** A recovery for a recorded failure of the deployment that is not passing: it is paused for
      that error, unless it is archived or its user paused it. */
  ghost predicate Recovered(sys: System, s': System, dep: string, id: string)
    requires dep in sys.deployments && dep in s'.deployments
  {
    var d, d' := sys.deployments[dep], s'.deployments[dep];
    && id in sys.runs && sys.runs[id].deployment == dep
    && sys.runs[id].errorType !in {"", "session_rate_limited_error", "unknown_error"}
    && s'.history == sys.history + [PausedFor(id)]
    && (OutOfReach(d) ==> d' == d)
    && (!OutOfReach(d) ==> d'.status == Paused && d'.reason == Some(ErrorReason(sys.runs[id].errorType)))
    && d' == d.(status := d'.status, reason := d'.reason, updatedAt := d'.updatedAt)
  }

  /** The schedule moves past a recorded occurrence, if that is the one the deployment is due for. */
  ghost predicate MovedPast(sys: System, s': System, dep: string, id: string)
    requires dep in sys.deployments && dep in s'.deployments
  {
    var d, d' := sys.deployments[dep], s'.deployments[dep];
    && id in sys.runs && sys.runs[id].deployment == dep && sys.runs[id].scheduledAt.Some?
    && s'.history == sys.history + [Advanced(id)]
    && var due := d.archivedAt.None? && d.status == Active && d.upcoming.Some? && d.upcoming.value != []
         && d.upcoming.value[0] == sys.runs[id].scheduledAt.value;
       && (!due ==> d' == d)
       && (due ==>
             && d'.upcoming.Some? && d'.lastRunAt == Some(sys.runs[id].createdAt)
             && d'.updatedAt == (if d.updatedAt < sys.runs[id].createdAt then sys.runs[id].createdAt else d.updatedAt))
       && d' == d.(upcoming := d'.upcoming, lastRunAt := d'.lastRunAt, updatedAt := d'.updatedAt)
  }

  lemma {:induction false} RecoveredBy(sys: System, a: Action, s': System, dep: string)
    requires Inv(sys) && Fair(sys) && (a.PauseFirst? || a.Recover? || a.ManualPause?) && Next(sys, a) == Some(s')
    requires dep in sys.deployments
    ensures dep in s'.deployments
    ensures s'.deployments[dep] == sys.deployments[dep] || exists id :: Recovered(sys, s', dep, id)
  {
    PauseNamed(sys, a, s');
    if Blamed(sys, a).Some? {
      BlamedFairly(sys, a, s');
      var run := Blamed(sys, a).value;
      var now :| SameEffect(PauseTx(sys, run, now), s');
      PauseTxRecovers(sys, s', run, now, dep);
    }
  }

  lemma {:induction false} PauseTxRecovers(sys: System, s': System, run: Run, now: nat, dep: string)
    requires dep in sys.deployments && run.id in sys.runs && !Passing(run.errorType)
    requires sys.runs[run.id].errorType == run.errorType && sys.runs[run.id].deployment == run.deployment
    requires SameEffect(PauseTx(sys, run, now), s')
    ensures dep in s'.deployments
    ensures run.deployment == dep ==> Recovered(sys, s', dep, run.id)
    ensures run.deployment != dep ==> s'.deployments[dep] == sys.deployments[dep]
  {
    RecoverySpares(sys.deployments[dep], run.errorType, now, now);
  }

  lemma {:induction false} MovedBy(sys: System, a: Action, s': System, dep: string)
    requires Inv(sys) && Rounded(sys) && Known(sys) && a.Advance? && Next(sys, a) == Some(s') && dep in sys.deployments
    ensures dep in s'.deployments
    ensures s'.deployments[dep] == sys.deployments[dep] || exists id :: MovedPast(sys, s', dep, id)
  {
    var run := sys.procs[a.p].run;
    assert IsRecorded(sys, run) && Stored(sys.runs[run.id]) == sys.runs[run.id];
    if a.commits && run.deployment == dep {
      var d := sys.deployments[dep];
      CompletedMoves(d, run.scheduledAt.value, run.createdAt, sys.procs[a.p].upcoming);
      assert s'.deployments[dep] == Completed(d, run.scheduledAt.value, run.createdAt, sys.procs[a.p].upcoming);
      assert MovedPast(sys, s', dep, run.id);
    }
  }

  lemma {:induction false} CompletedMoves(d: Deployment, at: nat, last: nat, upcoming: seq<nat>)
    requires Kept(d)
    ensures var d' := Completed(d, at, last, upcoming);
      var due := d.archivedAt.None? && d.status == Active && d.upcoming.Some? && d.upcoming.value != []
        && d.upcoming.value[0] == at;
      && (!due ==> d' == d)
      && (due ==> d' == d.(upcoming := Some(upcoming), lastRunAt := Some(Micros(last)),
            updatedAt := if d.updatedAt < Micros(last) then Micros(last) else d.updatedAt))
  {
  }

  /** In every interleaving, a step of a run, scheduled or manual, changes a deployment in one
      of two ways only: it pauses it for a recorded failure that is neither a rate limit nor an
      unknown error, or it moves its schedule past a recorded occurrence it was due for. */
  lemma {:induction false} RunsChangeDeployment(run: seq<Action>, sys: System, a: Action, s': System, dep: string)
    requires RunAll(EMPTY, run) == Some(sys) && Next(sys, a) == Some(s') && !Manages(a) && dep in sys.deployments
    ensures dep in s'.deployments
    ensures || s'.deployments[dep] == sys.deployments[dep]
            || (exists id :: Recovered(sys, s', dep, id))
            || (exists id :: MovedPast(sys, s', dep, id))
  {
    RunsFair(run, sys);
    EmptyInv();
    DeploymentsMoveForward(EMPTY, run, sys);
    if Looks(a) { LookedRecords(sys, a, s'); }
    else if a.Create? || a.Record? || a.ManualRun? { WroteRecords(sys, a, s'); }
    else if a.Advance? { MovedBy(sys, a, s', dep); }
    else { RecoveredBy(sys, a, s', dep); }
  }

  /** And a recovery that enters the history took effect: at that moment the deployment of its
      run is paused for its error, or out of reach. */
  lemma {:induction false} RecoveriesTakeEffect(run: seq<Action>, sys: System, a: Action, s': System, id: string)
    requires RunAll(EMPTY, run) == Some(sys) && Next(sys, a) == Some(s')
    requires PausedFor(id) in s'.history && PausedFor(id) !in sys.history
    ensures id in sys.runs && sys.runs[id].deployment in sys.deployments && sys.runs[id].deployment in s'.deployments
    ensures Recovered(sys, s', sys.runs[id].deployment, id)
  {
    RunsFair(run, sys);
    PausesLogged(sys, a, s', PausedFor(id));
    BlamedFairly(sys, a, s');
    PauseNamed(sys, a, s');
    var blamed := Blamed(sys, a).value;
    var now :| SameEffect(PauseTx(sys, blamed, now), s');
    PauseTxRecovers(sys, s', blamed, now, blamed.deployment);
  }

  // ---------------------------------------------------------------- what owners do to a deployment

  /** The time of a change: the clock's microsecond, or the next one after the last change. */
  predicate StampedAt(before: nat, now: nat, after: nat) {
    after == if now - now % 1000 > before then now - now % 1000 else before + 1000
  }

  /** What becomes of a deployment by an owner's pause, unpause or archival. */
  predicate OwnerMoves(d: Deployment, a: Action, d': Deployment)
    requires a.UserPause? || a.UserUnpause? || a.UserArchive?
  {
    match a
    case UserPause(_, now) =>
      if OutOfReach(d) then d' == d
      else
        && d' == d.(status := Paused, reason := Some(Manual), updatedAt := d'.updatedAt)
        && StampedAt(d.updatedAt, now, d'.updatedAt)
    case UserUnpause(_, now, upcoming) =>
      if d.archivedAt.Some? || d.status == Active then d' == d
      else
        && d' == d.(status := Active, reason := None, updatedAt := d'.updatedAt, upcoming := d'.upcoming)
        && StampedAt(d.updatedAt, now, d'.updatedAt)
        && d'.upcoming == (if d.upcoming == None then None else Some(upcoming))
    case UserArchive(_, now) =>
      if d.archivedAt.Some? then d' == d
      else
        && d' == d.(archivedAt := Some(d'.updatedAt), updatedAt := d'.updatedAt, upcoming := d'.upcoming)
        && StampedAt(d.updatedAt, now, d'.updatedAt)
        && d'.upcoming == (if d.upcoming == None then None else Some([]))
  }

  lemma {:induction false} ChangeStamped(before: nat, now: nat)
    requires Micros(before) == before
    ensures StampedAt(before, now, ChangedAt(before, now))
  {
  }

  /** In every interleaving, an owner's pause, unpause or archival changes that deployment as
      asked, and nothing else. */
  lemma {:induction false} OwnersChangeDeployment(run: seq<Action>, sys: System, a: Action, s': System)
    requires RunAll(EMPTY, run) == Some(sys) && Next(sys, a) == Some(s')
    requires a.UserPause? || a.UserUnpause? || a.UserArchive?
    ensures a.dep in sys.deployments && a.dep in s'.deployments
    ensures s' == sys.(deployments := sys.deployments[a.dep := s'.deployments[a.dep]])
    ensures OwnerMoves(sys.deployments[a.dep], a, s'.deployments[a.dep])
  {
    EmptyInv();
    DeploymentsMoveForward(EMPTY, run, sys);
    assert Kept(sys.deployments[a.dep]);
    ChangeStamped(sys.deployments[a.dep].updatedAt, a.now);
  }

  /** What a patch asks for, over what was read. */
  predicate AsAsked(read: Deployment, patch: Patch, d: Deployment) {
    && d == read.(config := d.config, upcoming := d.upcoming, lastRunAt := d.lastRunAt, updatedAt := d.updatedAt)
    && (match patch.config case Some(config) => d.config == config case None => d.config == read.config)
    && match patch.schedule
       case Some(upcoming) => d.upcoming == upcoming && d.lastRunAt == None
       case None => d.upcoming == read.upcoming && d.lastRunAt == read.lastRunAt
  }

  /** In every interleaving, an owner's update is written exactly when what was read was not
      archived, has not been changed since, and the patch changes it; it then leaves what was
      read as the patch asks, and else the deployment is untouched. */
  lemma {:induction false} UpdatesChangeDeployment(run: seq<Action>, sys: System, o: nat, now: nat, s': System)
    requires RunAll(EMPTY, run) == Some(sys) && Next(sys, CommitUpdate(o, now)) == Some(s')
    ensures o in sys.edits && sys.edits[o].deployment in sys.deployments && sys.edits[o].deployment in s'.deployments
    ensures var dep, read, patch := sys.edits[o].deployment, sys.edits[o].read, sys.edits[o].patch;
      var d, d' := sys.deployments[dep], s'.deployments[dep];
      && s' == sys.(deployments := sys.deployments[dep := d'], edits := sys.edits - {o})
      && if read.archivedAt == None && d.updatedAt == read.updatedAt && !AsAsked(read, patch, read) then
           AsAsked(read, patch, d') && StampedAt(d.updatedAt, now, d'.updatedAt)
         else d' == d
  {
    EmptyInv();
    DeploymentsMoveForward(EMPTY, run, sys);
    assert Kept(sys.deployments[sys.edits[o].deployment]);
    ChangeStamped(sys.deployments[sys.edits[o].deployment].updatedAt, now);
  }
}
