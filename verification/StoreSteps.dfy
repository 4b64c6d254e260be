/**
  Applying a bundle one mirror at a time: each change reads and writes only its own
  mirror's rows, so the order of the changes does not matter.
 */
module StoreSteps {
  import opened Common
  import opened Lifecycle
  import opened Schedule
  import opened StoreModel

  function MirrorsAfterOne(db: Db, bundle: Bundle, m: Name): map<Name, Mirror>
    requires m in db.mirrors || m in bundle
  {
    if m in bundle
    then db.mirrors[m := Mirror(true, bundle[m].document.enabled, bundle[m].owner, NextGeneration(db, m))]
    else db.mirrors[m := db.mirrors[m].(managed := false)]
  }

  function GenerationsAfterOne(db: Db, bundle: Bundle, m: Name): map<GenerationKey, Generation> {
    if m in bundle
    then db.generations[GenerationKey(m, NextGeneration(db, m)) := Generation(bundle[m].owner, bundle[m].document)]
    else db.generations
  }

  function SchedulesAfterOne(db: Db, bundle: Bundle, m: Name, change: ChangeKind, now: int, calendar: Calendar)
    : map<Name, ScheduleRow>
  {
    if m in bundle && ScheduleAfterChange(db, m, bundle[m], change, now, calendar).Some?
    then db.schedules[m := ScheduleAfterChange(db, m, bundle[m], change, now, calendar).value]
    else Without(db.schedules, m)
  }

  function RunsAfterOne(db: Db, bundle: Bundle, m: Name, change: ChangeKind): map<RunId, Run> {
    map id | id in db.runs :: if db.runs[id].mirror == m then RunAfterChange(db, bundle, id, change) else db.runs[id]
  }

  function AttemptsAfterOne(db: Db, bundle: Bundle, m: Name, change: ChangeKind): map<Key, Attempt> {
    map k | k in db.attempts ::
      if k.run in db.runs && db.runs[k.run].mirror == m
      then AttemptAfterChange(db, bundle, k, change) else db.attempts[k]
  }

  /** The tables after the change of the one mirror `m`. */
  function AfterOneChange(db: Db, bundle: Bundle, m: Name, change: ChangeKind, now: int, calendar: Calendar): Db
    requires m in db.mirrors || m in bundle
  {
    Db(db.revision, MirrorsAfterOne(db, bundle, m), GenerationsAfterOne(db, bundle, m),
       SchedulesAfterOne(db, bundle, m, change, now, calendar), RunsAfterOne(db, bundle, m, change),
       AttemptsAfterOne(db, bundle, m, change))
  }

  predicate IsNewGeneration(db: Db, bundle: Bundle, scope: set<Name>, g: GenerationKey) {
    Writes(db, bundle, scope, g.mirror) && g.generation == NextGeneration(db, g.mirror)
  }

  lemma GenerationRow(db: Db, bundle: Bundle, scope: set<Name>, g: GenerationKey)
    ensures g in GenerationsIn(db, bundle, scope) <==> g in db.generations || IsNewGeneration(db, bundle, scope, g)
    ensures IsNewGeneration(db, bundle, scope, g) ==>
      GenerationsIn(db, bundle, scope)[g] == Generation(bundle[g.mirror].owner, bundle[g.mirror].document)
    ensures g in db.generations && !IsNewGeneration(db, bundle, scope, g) ==>
      GenerationsIn(db, bundle, scope)[g] == db.generations[g]
  {
    hide ScopedChange, NextGeneration;
    assert g == GenerationKey(g.mirror, g.generation);
    if IsNewGeneration(db, bundle, scope, g) {
      assert g.mirror in bundle;
    }
  }

  lemma NothingWritten(db: Db, bundle: Bundle, m: Name)
    ensures !Writes(db, bundle, {}, m)
  {
  }

  lemma NoMirrorChangesYet(db: Db, bundle: Bundle, now: int, calendar: Calendar)
    ensures MirrorsIn(db, bundle, {}) == db.mirrors
    ensures SchedulesIn(db, bundle, {}, now, calendar) == db.schedules
  {
    hide PlannedChange, ScheduleAfterChange;
  }

  lemma NoGenerationsYet(db: Db, bundle: Bundle)
    ensures GenerationsIn(db, bundle, {}) == db.generations
  {
    hide GenerationsIn, Writes;
    forall g ensures g in GenerationsIn(db, bundle, {}) <==> g in db.generations {
      GenerationRow(db, bundle, {}, g);
      NothingWritten(db, bundle, g.mirror);
    }
    forall g | g in db.generations ensures GenerationsIn(db, bundle, {})[g] == db.generations[g] {
      GenerationRow(db, bundle, {}, g);
      NothingWritten(db, bundle, g.mirror);
    }
  }

  lemma NoRunChangesYet(db: Db, bundle: Bundle)
    ensures RunsIn(db, bundle, {}) == db.runs
    ensures AttemptsIn(db, bundle, {}) == db.attempts
  {
    hide PlannedChange, RunAfterChange, AttemptAfterChange;
  }

  lemma NoChangesYet(db: Db, bundle: Bundle, now: int, calendar: Calendar)
    ensures ApplyChanges(db, bundle, {}, now, calendar) == db.(revision := db.revision + 1)
  {
    hide MirrorsIn, GenerationsIn, SchedulesIn, RunsIn, AttemptsIn;
    NoMirrorChangesYet(db, bundle, now, calendar);
    NoGenerationsYet(db, bundle);
    NoRunChangesYet(db, bundle);
  }

  ghost predicate RunsUntouched(db: Db, current: Db, m: Name) {
    && current.runs.Keys == db.runs.Keys && current.attempts.Keys == db.attempts.Keys
    && (forall id :: id in db.runs ==> current.runs[id].mirror == db.runs[id].mirror)
    && (forall id :: id in db.runs && db.runs[id].mirror == m ==> current.runs[id] == db.runs[id])
    && (forall k :: k in db.attempts && k.run in db.runs && db.runs[k.run].mirror == m ==>
          current.attempts[k] == db.attempts[k])
  }

  lemma RunsStayUntouched(db: Db, bundle: Bundle, scope: set<Name>, m: Name, now: int, calendar: Calendar)
    requires m !in scope
    ensures RunsUntouched(db, ApplyChanges(db, bundle, scope, now, calendar), m)
  {
    hide PlannedChange, MirrorsIn, GenerationsIn, SchedulesIn, AttemptAfterChange, HasDispatched;
  }

  lemma DispatchesAlike(db: Db, current: Db, id: RunId)
    requires id in db.runs && RunsUntouched(db, current, db.runs[id].mirror)
    ensures HasDispatched(current, id) <==> HasDispatched(db, id)
  {
    if HasDispatched(current, id) {
      var k :| k in current.attempts && k.run == id && current.attempts[k].dispatches > 0;
      assert k in db.attempts && db.attempts[k].dispatches > 0;
    }
    if HasDispatched(db, id) {
      var k :| k in db.attempts && k.run == id && db.attempts[k].dispatches > 0;
      assert k in current.attempts && current.attempts[k].dispatches > 0;
    }
  }

  lemma RunChangesAlike(db: Db, current: Db, bundle: Bundle, id: RunId, change: ChangeKind)
    requires id in db.runs && RunsUntouched(db, current, db.runs[id].mirror)
    ensures id in current.runs
    ensures RunAfterChange(current, bundle, id, change) == RunAfterChange(db, bundle, id, change)
  {
    hide EndsWaitingRuns, HasDispatched;
    DispatchesAlike(db, current, id);
    var latest := Key(id, db.runs[id].attemptCount);
    assert latest in db.attempts ==> current.attempts[latest] == db.attempts[latest];
  }

  lemma NextRuns(db: Db, current: Db, bundle: Bundle, scope: set<Name>, m: Name, change: ChangeKind)
    requires m !in scope && PlannedChange(db, bundle, m) == Some(change)
    requires current.runs == RunsIn(db, bundle, scope) && RunsUntouched(db, current, m)
    ensures RunsAfterOne(current, bundle, m, change) == RunsIn(db, bundle, scope + {m})
  {
    hide PlannedChange, RunAfterChange;
    forall id | id in db.runs
      ensures RunsAfterOne(current, bundle, m, change)[id] == RunIn(db, bundle, scope + {m}, id)
    {
      if db.runs[id].mirror == m {
        RunChangesAlike(db, current, bundle, id, change);
      }
    }
  }

  lemma NextAttempts(db: Db, current: Db, bundle: Bundle, scope: set<Name>, m: Name, change: ChangeKind)
    requires m !in scope && PlannedChange(db, bundle, m) == Some(change)
    requires current.attempts == AttemptsIn(db, bundle, scope) && RunsUntouched(db, current, m)
    ensures AttemptsAfterOne(current, bundle, m, change) == AttemptsIn(db, bundle, scope + {m})
  {
    hide PlannedChange, EndsWaitingRuns, AttemptAfterChange, AttemptIn;
    forall k | k in db.attempts
      ensures k in current.attempts
      ensures (if k.run in current.runs && current.runs[k.run].mirror == m
               then AttemptAfterChange(current, bundle, k, change) else current.attempts[k]) ==
              AttemptIn(db, bundle, scope + {m}, k)
    {
      NextAttempt(db, current, bundle, scope, m, change, k);
    }
  }

  lemma NextAttempt(db: Db, current: Db, bundle: Bundle, scope: set<Name>, m: Name, change: ChangeKind, k: Key)
    requires m !in scope && PlannedChange(db, bundle, m) == Some(change) && k in db.attempts
    requires current.attempts == AttemptsIn(db, bundle, scope) && RunsUntouched(db, current, m)
    ensures (if k.run in current.runs && current.runs[k.run].mirror == m
             then AttemptAfterChange(current, bundle, k, change) else current.attempts[k]) ==
            AttemptIn(db, bundle, scope + {m}, k)
  {
    hide PlannedChange, EndsWaitingRuns;
  }

  ghost predicate MirrorUntouched(db: Db, current: Db, m: Name) {
    && (m in current.mirrors <==> m in db.mirrors)
    && (m in db.mirrors ==> current.mirrors[m] == db.mirrors[m])
    && (m in current.schedules <==> m in db.schedules)
    && (m in db.schedules ==> current.schedules[m] == db.schedules[m])
  }

  lemma MirrorStaysUntouched(db: Db, bundle: Bundle, scope: set<Name>, m: Name, now: int, calendar: Calendar)
    requires m !in scope
    ensures MirrorUntouched(db, ApplyChanges(db, bundle, scope, now, calendar), m)
  {
    hide PlannedChange, ScheduleAfterChange, GenerationsIn, RunsIn, AttemptsIn;
  }

  lemma NextMirrors(db: Db, current: Db, bundle: Bundle, scope: set<Name>, m: Name, change: ChangeKind)
    requires m !in scope && PlannedChange(db, bundle, m) == Some(change) && (m in db.mirrors || m in bundle)
    requires current.mirrors == MirrorsIn(db, bundle, scope) && MirrorUntouched(db, current, m)
    ensures m in current.mirrors || m in bundle
    ensures MirrorsAfterOne(current, bundle, m) == MirrorsIn(db, bundle, scope + {m})
  {
    hide PlannedChange;
  }

  lemma NextGenerations(db: Db, current: Db, bundle: Bundle, scope: set<Name>, m: Name, change: ChangeKind)
    requires m !in scope && PlannedChange(db, bundle, m) == Some(change)
    requires current.generations == GenerationsIn(db, bundle, scope) && MirrorUntouched(db, current, m)
    ensures GenerationsAfterOne(current, bundle, m) == GenerationsIn(db, bundle, scope + {m})
  {
    hide PlannedChange, GenerationsIn;
    assert NextGeneration(current, m) == NextGeneration(db, m);
    var one, more := GenerationsAfterOne(current, bundle, m), GenerationsIn(db, bundle, scope + {m});
    forall g ensures (g in one <==> g in more) && (g in one ==> one[g] == more[g]) {
      GenerationRow(db, bundle, scope, g);
      GenerationRow(db, bundle, scope + {m}, g);
    }
  }

  lemma NextSchedules(
    db: Db, current: Db, bundle: Bundle, scope: set<Name>, m: Name, change: ChangeKind, now: int, calendar: Calendar)
    requires m !in scope && PlannedChange(db, bundle, m) == Some(change)
    requires current.schedules == SchedulesIn(db, bundle, scope, now, calendar) && MirrorUntouched(db, current, m)
    ensures SchedulesAfterOne(current, bundle, m, change, now, calendar) ==
            SchedulesIn(db, bundle, scope + {m}, now, calendar)
  {
    hide PlannedChange, ScheduleAfterChange;
    if m in bundle {
      ScheduleChangesAlike(db, current, m, bundle[m], change, now, calendar);
    }
    var one, more := SchedulesAfterOne(current, bundle, m, change, now, calendar),
                     SchedulesIn(db, bundle, scope + {m}, now, calendar);
    forall x ensures (x in one <==> x in more) && (x in one ==> one[x] == more[x]) {
      assert x != m ==> ScheduleIn(db, bundle, scope, x, now, calendar) ==
                        ScheduleIn(db, bundle, scope + {m}, x, now, calendar);
    }
  }

  lemma ScheduleChangesAlike(
    db: Db, current: Db, m: Name, mirror: BundleMirror, change: ChangeKind, now: int, calendar: Calendar)
    requires MirrorUntouched(db, current, m)
    ensures ScheduleAfterChange(current, m, mirror, change, now, calendar) ==
            ScheduleAfterChange(db, m, mirror, change, now, calendar)
  {
  }

  /** Changing one more mirror extends the simultaneous change by exactly that mirror. */
  lemma OneMoreChange(
    db: Db, bundle: Bundle, scope: set<Name>, m: Name, change: ChangeKind, now: int, calendar: Calendar)
    requires m !in scope && PlannedChange(db, bundle, m) == Some(change) && (m in db.mirrors || m in bundle)
    ensures m in ApplyChanges(db, bundle, scope, now, calendar).mirrors || m in bundle
    ensures AfterOneChange(ApplyChanges(db, bundle, scope, now, calendar), bundle, m, change, now, calendar) ==
            ApplyChanges(db, bundle, scope + {m}, now, calendar)
  {
    hide PlannedChange, MirrorsAfterOne, GenerationsAfterOne, SchedulesAfterOne, RunsAfterOne, AttemptsAfterOne,
         MirrorsIn, GenerationsIn, SchedulesIn, RunsIn, AttemptsIn, MirrorUntouched, RunsUntouched;
    var current := ApplyChanges(db, bundle, scope, now, calendar);
    MirrorStaysUntouched(db, bundle, scope, m, now, calendar);
    RunsStayUntouched(db, bundle, scope, m, now, calendar);
    NextMirrors(db, current, bundle, scope, m, change);
    NextGenerations(db, current, bundle, scope, m, change);
    NextSchedules(db, current, bundle, scope, m, change, now, calendar);
    NextRuns(db, current, bundle, scope, m, change);
    NextAttempts(db, current, bundle, scope, m, change);
  }
}
