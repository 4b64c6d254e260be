/**
  Configuration changes: what a committed bundle leaves behind, that a second
  application would change nothing, and that a refused one changes nothing.
 */
module StoreApply {
  import opened Common
  import opened Lifecycle
  import opened Schedule
  import opened StoreModel
  import opened StoreRuns

  lemma NewMirror(db: Db, bundle: Bundle, m: Name, now: int, calendar: Calendar)
    requires m !in db.mirrors
    ensures m in Reconfigured(db, bundle, now, calendar).mirrors <==> m in bundle
    ensures m in bundle ==>
      Reconfigured(db, bundle, now, calendar).mirrors[m] ==
      Mirror(true, bundle[m].document.enabled, bundle[m].owner, 1)
  {
    hide ScheduleIn, RunAfterChange;
  }

  /** The generation rows added are exactly the next generation of each mirror written. */
  lemma AddedGenerations(db: Db, bundle: Bundle, g: GenerationKey, now: int, calendar: Calendar)
    requires g !in db.generations
    ensures g in Reconfigured(db, bundle, now, calendar).generations <==>
      g.mirror in bundle && PlannedChange(db, bundle, g.mirror).Some? && g.generation == NextGeneration(db, g.mirror)
    ensures g in Reconfigured(db, bundle, now, calendar).generations ==>
      Reconfigured(db, bundle, now, calendar).generations[g] ==
      Generation(bundle[g.mirror].owner, bundle[g.mirror].document)
  {
    hide ScheduleIn, RunAfterChange, PlannedChange;
    var scope := Plan(db, bundle).Keys;
    if g.mirror in bundle && PlannedChange(db, bundle, g.mirror).Some? && g.generation == NextGeneration(db, g.mirror) {
      assert g == GenerationKey(g.mirror, NextGeneration(db, g.mirror));
      assert g.mirror in scope && Writes(db, bundle, scope, g.mirror);
    }
  }

  lemma WrittenGeneration(db: Db, bundle: Bundle, m: Name, now: int, calendar: Calendar)
    requires MirrorsOk(db.mirrors, db.generations)
    requires m in bundle && PlannedChange(db, bundle, m).Some?
    ensures var after := Reconfigured(db, bundle, now, calendar);
            && m in after.mirrors
            && after.mirrors[m] == Mirror(true, bundle[m].document.enabled, bundle[m].owner, NextGeneration(db, m))
            && GenerationKey(m, NextGeneration(db, m)) in after.generations
            && after.generations[GenerationKey(m, NextGeneration(db, m))] ==
               Generation(bundle[m].owner, bundle[m].document)
  {
    hide Reconfigured, PlannedChange;
    var g := GenerationKey(m, NextGeneration(db, m));
    assert g !in db.generations;
    AddedGenerations(db, bundle, g, now, calendar);
    if m in db.mirrors {
      ReconfiguredMirror(db, bundle, m, now, calendar);
    } else {
      NewMirror(db, bundle, m, now, calendar);
    }
  }

  lemma ApplyKeepsOneMirror(db: Db, bundle: Bundle, m: Name, now: int, calendar: Calendar)
    requires MirrorsOk(db.mirrors, db.generations)
    requires m in Reconfigured(db, bundle, now, calendar).mirrors
    ensures MirrorOk(Reconfigured(db, bundle, now, calendar).mirrors,
                     Reconfigured(db, bundle, now, calendar).generations, m)
    ensures forall n :: 1 <= n <= Reconfigured(db, bundle, now, calendar).mirrors[m].generation ==>
                          GenerationKey(m, n) in Reconfigured(db, bundle, now, calendar).generations
  {
    hide Reconfigured, HighImpact, PlannedChange;
    ReconfiguredGenerations(db, bundle, now, calendar);
    if m in db.mirrors {
      ReconfiguredMirror(db, bundle, m, now, calendar);
      assert MirrorOk(db.mirrors, db.generations, m);
    } else {
      NewMirror(db, bundle, m, now, calendar);
      NewMirrorIsPlanned(db, bundle, m);
    }
    if m in bundle && PlannedChange(db, bundle, m).Some? {
      WrittenGeneration(db, bundle, m, now, calendar);
    }
  }

  lemma NewMirrorIsPlanned(db: Db, bundle: Bundle, m: Name)
    requires m !in db.mirrors && m in bundle
    ensures PlannedChange(db, bundle, m) == Some(Create)
  {
  }

  lemma ApplyKeepsMirrors(db: Db, bundle: Bundle, now: int, calendar: Calendar)
    requires MirrorsOk(db.mirrors, db.generations) && ValidBundle(bundle)
    ensures MirrorsOk(Reconfigured(db, bundle, now, calendar).mirrors,
                      Reconfigured(db, bundle, now, calendar).generations)
  {
    hide Reconfigured, PlannedChange, MirrorOk;
    var after := Reconfigured(db, bundle, now, calendar);
    ReconfiguredGenerations(db, bundle, now, calendar);
    forall m | m in after.mirrors
      ensures MirrorOk(after.mirrors, after.generations, m)
      ensures forall n :: 1 <= n <= after.mirrors[m].generation ==> GenerationKey(m, n) in after.generations
    {
      ApplyKeepsOneMirror(db, bundle, m, now, calendar);
    }
    forall g | g in after.generations
      ensures g.mirror in after.mirrors && 1 <= g.generation <= after.mirrors[g.mirror].generation
      ensures after.generations[g].document.Valid()
    {
      if g in db.generations {
        ReconfiguredMirror(db, bundle, g.mirror, now, calendar);
      } else {
        AddedGenerations(db, bundle, g, now, calendar);
        WrittenGeneration(db, bundle, g.mirror, now, calendar);
      }
    }
  }

  /** A committed configuration change keeps the run invariant; a refused one changes nothing. */
  lemma ApplyKeepsRuns(db: Db, bundle: Bundle, base: nat, now: int, calendar: Calendar)
    requires RunsInv(db) && ValidBundle(bundle)
    ensures RunsInv(AfterApply(db, bundle, base, now, calendar))
  {
    hide RunsInv, Reconfigured, Blocked, AfterApply, ValidBundle;
    if ApplyResult(db, bundle, base).ConfigApplied? {
      ApplyIsReconfigured(db, bundle, base, now, calendar);
      ReconfiguredKeepsRuns(db, bundle, now, calendar);
    } else {
      RefusedApplyChangesNothing(db, bundle, base, now, calendar);
    }
  }

  lemma ReconfiguredKeepsRuns(db: Db, bundle: Bundle, now: int, calendar: Calendar)
    requires RunsInv(db) && ValidBundle(bundle) && !Blocked(db, bundle)
    ensures RunsInv(Reconfigured(db, bundle, now, calendar))
  {
    hide RunOk, KeyOk, Reconfigured, MirrorsOk, Blocked, ValidBundle;
    var after := Reconfigured(db, bundle, now, calendar);
    ReconfiguredRunKeys(db, bundle, now, calendar);
    ApplyKeepsMirrors(db, bundle, now, calendar);
    ReconfiguredAttempts(db, bundle, now, calendar);
    forall id | id in db.runs
      ensures RunOk(after, id) && after.runs[id].mirror == db.runs[id].mirror
      ensures after.runs[id].state.IsActive() ==> db.runs[id].state.IsActive()
    {
      ApplyKeepsOneRun(db, bundle, id, now, calendar);
    }
    forall k | k in after.attempts ensures KeyOk(after, k) {
      ReconfiguredKey(db, bundle, k, now, calendar);
    }
  }

  lemma ReconfiguredKey(db: Db, bundle: Bundle, k: Key, now: int, calendar: Calendar)
    requires RunsInv(db) && ValidBundle(bundle) && !Blocked(db, bundle) && k in db.attempts
    ensures k in Reconfigured(db, bundle, now, calendar).attempts && KeyOk(Reconfigured(db, bundle, now, calendar), k)
  {
    hide Reconfigured, MirrorsOk, Blocked, ValidBundle, OneActive, AttemptShape;
    var after := Reconfigured(db, bundle, now, calendar);
    assert KeyOk(db, k);
    ReconfiguredAttempts(db, bundle, now, calendar);
    ApplyKeepsOneRun(db, bundle, k.run, now, calendar);
    if ViewOf(db, k.run).AttemptOut() {
      StillOutAfterApply(db, bundle, k.run, now, calendar);
    }
    ApplyKeepsOneKey(db, after, k);
  }

  /** A run whose attempt is out survives a configuration change as it is. */
  lemma StillOutAfterApply(db: Db, bundle: Bundle, id: RunId, now: int, calendar: Calendar)
    requires RunsInv(db) && id in db.runs && ViewOf(db, id).AttemptOut()
    ensures id in Reconfigured(db, bundle, now, calendar).runs
    ensures Reconfigured(db, bundle, now, calendar).runs[id].state.IsActive()
  {
    hide Reconfigured, MirrorsOk, OneActive, HasDispatched;
    ReconfiguredRun(db, bundle, id, now, calendar);
    WaitingRunHasNoDispatch(db, id);
  }

  lemma ApplyIsReconfigured(db: Db, bundle: Bundle, base: nat, now: int, calendar: Calendar)
    requires ApplyResult(db, bundle, base).ConfigApplied?
    ensures AfterApply(db, bundle, base, now, calendar) == Reconfigured(db, bundle, now, calendar)
  {
    hide ApplyChanges, Plan, Blocked;
  }

  lemma ReconfiguredRunKeys(db: Db, bundle: Bundle, now: int, calendar: Calendar)
    ensures Reconfigured(db, bundle, now, calendar).runs.Keys == db.runs.Keys
  {
    hide ScheduleIn, RunAfterChange, PlannedChange;
  }

  lemma ApplyKeepsOneKey(db: Db, after: Db, k: Key)
    requires k in db.attempts && KeyOk(db, k) && after.attempts == db.attempts
    requires k.run in after.runs && RunOk(after, k.run)
    requires after.runs[k.run].mirror == db.runs[k.run].mirror
    requires after.runs[k.run].attemptCount == db.runs[k.run].attemptCount
    requires RunDocument(after, k.run) == RunDocument(db, k.run)
    requires after.runs[k.run].state.IsActive() ==> db.runs[k.run].state.IsActive()
    requires RunOk(db, k.run)
    requires !after.runs[k.run].state.IsActive() && db.runs[k.run].state.IsActive() ==>
      !ViewOf(db, k.run).AttemptOut()
    ensures KeyOk(after, k)
  {
    assert k.no == db.runs[k.run].attemptCount ==> k == LatestKey(db, k.run);
  }

  /**
    Applying a bundle converges: the managed mirrors are exactly the bundle's, with
    its owners and documents, and planning the same bundle again gives no change. Every
    earlier generation is untouched, and each mirror written has exactly one more.
   */
  lemma ApplyConverges(db: Db, bundle: Bundle, base: nat, now: int, calendar: Calendar)
    requires RunsInv(db) && ApplyResult(db, bundle, base).ConfigApplied?
    ensures var after := AfterApply(db, bundle, base, now, calendar);
            && Plan(after, bundle) == map[]
            && after.revision == base + 1
            && (forall m :: m in after.mirrors && after.mirrors[m].managed <==> m in bundle)
            && (forall m :: m in bundle ==>
                  after.mirrors[m].owner == bundle[m].owner && CurrentDocument(after, m) == Some(bundle[m].document))
            && (forall g :: g in db.generations ==> g in after.generations && after.generations[g] == db.generations[g])
            && (forall g :: g in after.generations && g !in db.generations <==>
                  && g.mirror in bundle && PlannedChange(db, bundle, g.mirror).Some?
                  && g.generation == NextGeneration(db, g.mirror))
  {
    hide Reconfigured, MirrorsOk, AfterApply, RunsInv, ApplyResult, PlannedChange;
    ApplyIsReconfigured(db, bundle, base, now, calendar);
    var after := Reconfigured(db, bundle, now, calendar);
    assert after.revision == base + 1 by {
      ReconfiguredRevision(db, bundle, base, now, calendar);
    }
    forall m
      ensures m in after.mirrors && after.mirrors[m].managed <==> m in bundle
      ensures m in bundle ==>
        after.mirrors[m].owner == bundle[m].owner && CurrentDocument(after, m) == Some(bundle[m].document)
      ensures PlannedChange(after, bundle, m).None?
    {
      MirrorConverges(db, bundle, m, now, calendar);
    }
    GenerationsConverge(db, bundle, now, calendar);
  }

  lemma GenerationsConverge(db: Db, bundle: Bundle, now: int, calendar: Calendar)
    requires RunsInv(db)
    ensures var after := Reconfigured(db, bundle, now, calendar);
            && (forall g :: g in db.generations ==> g in after.generations && after.generations[g] == db.generations[g])
            && (forall g :: g in after.generations && g !in db.generations <==>
                  && g.mirror in bundle && PlannedChange(db, bundle, g.mirror).Some?
                  && g.generation == NextGeneration(db, g.mirror))
  {
    hide Reconfigured, RunOk, KeyOk, PlannedChange;
    var after := Reconfigured(db, bundle, now, calendar);
    ReconfiguredGenerations(db, bundle, now, calendar);
    forall g: GenerationKey
      ensures g in after.generations && g !in db.generations <==>
              g.mirror in bundle && PlannedChange(db, bundle, g.mirror).Some?
                && g.generation == NextGeneration(db, g.mirror)
    {
      if g !in db.generations {
        AddedGenerations(db, bundle, g, now, calendar);
      } else {
        assert g.generation <= db.mirrors[g.mirror].generation;
      }
    }
  }

  lemma ReconfiguredRevision(db: Db, bundle: Bundle, base: nat, now: int, calendar: Calendar)
    requires ApplyResult(db, bundle, base).ConfigApplied?
    ensures Reconfigured(db, bundle, now, calendar).revision == base + 1
  {
    hide Plan, Blocked, ScheduleIn, RunAfterChange, PlannedChange;
  }

  lemma MirrorConverges(db: Db, bundle: Bundle, m: Name, now: int, calendar: Calendar)
    requires RunsInv(db)
    ensures var after := Reconfigured(db, bundle, now, calendar);
            && (m in after.mirrors && after.mirrors[m].managed <==> m in bundle)
            && (m in bundle ==>
                  after.mirrors[m].owner == bundle[m].owner && CurrentDocument(after, m) == Some(bundle[m].document))
            && PlannedChange(after, bundle, m).None?
  {
    hide Reconfigured, RunOk, KeyOk;
    var after := Reconfigured(db, bundle, now, calendar);
    if m in db.mirrors {
      ReconfiguredMirror(db, bundle, m, now, calendar);
      assert MirrorOk(db.mirrors, db.generations, m);
      if m in bundle && PlannedChange(db, bundle, m).None? {
        ReconfiguredGenerations(db, bundle, now, calendar);
      }
    } else {
      NewMirror(db, bundle, m, now, calendar);
    }
    if m in bundle && PlannedChange(db, bundle, m).Some? {
      WrittenGeneration(db, bundle, m, now, calendar);
    }
  }

  lemma AppliedIsNotBlocked(db: Db, bundle: Bundle, base: nat)
    requires ApplyResult(db, bundle, base).ConfigApplied?
    ensures !Blocked(db, bundle)
  {
  }

  /** A stale revision or a busy mirror refuses the whole bundle. */
  lemma RefusedApplyChangesNothing(db: Db, bundle: Bundle, base: nat, now: int, calendar: Calendar)
    ensures (db.revision != base || Blocked(db, bundle)) <==> !ApplyResult(db, bundle, base).ConfigApplied?
    ensures !ApplyResult(db, bundle, base).ConfigApplied? ==> AfterApply(db, bundle, base, now, calendar) == db
    ensures ApplyResult(db, bundle, base).ConfigApplied? ==>
      AfterApply(db, bundle, base, now, calendar).revision != db.revision
  {
    hide Blocked, Plan, ScheduleIn, RunAfterChange, PlannedChange;
  }
}
