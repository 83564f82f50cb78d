/** The executor as code: the loops and error paths of recovery/engine.go over fields that
    they update, each method proved to do what `Engine.Execute` says from where it starts.
    The fates are consumed one per primitive; when none is left, the process is dead. */
module Executor {
  import opened Paths
  import opened RecoveryTypes
  import opened Engine
  import EngineSafety
  import EngineRollback
  import EngineTheorems
  import EngineOutcomes

  /** What the caller of a primitive sees. */
  datatype Io = Fine | Failed(unsynced: bool) | Dead

  datatype Reply = Returned(ok: bool) | Died

  function Report(f: Fate): Io {
    match f
    case Done(_) => Fine
    case Unsynced(_) => Failed(true)
    case _ => Failed(false)
  }

  predicate TakesEffect(f: Fate) {
    f.Done? || f.Unsynced?
  }

  /** `r` is what the caller of `c` sees of `m`. */
  predicate Replies(c: Call, m: Machine, r: Reply) {
    if m.pc.Idle? then r == Returned(Succeeded(c, m)) else r == Died
  }

  /** The saves that end a call, with what they record and whether they report success. */
  predicate LastRecord(pc: Pc, to: Status, success: bool) {
    match pc
    case PrepareReady => to == Ready && success
    case PrepareGiveUp => to == PreparationFailed && !success
    case ApplyInvalid => to == ValidationFailed && !success
    case ApplyGiveUp => to == Unknown && !success
    case CancelRecord | RestoreCommit => to == Recovered && success
    case RestoreFailed => to == RecoveryFailed && !success
    case ReconcileRecord(s) => to == s && success
    case _ => false
  }

  class Process {
    const plan: Plan
    var files: map<Path, File>
    var dirs: map<Path, DirId>
    var status: Status
    var running: string
    var fates: seq<Fate>

    constructor (plan: Plan, w: World, fates: seq<Fate>)
      ensures this.plan == plan && Now() == w && this.fates == fates
    {
      this.plan := plan;
      files, dirs := w.disk.files, w.disk.dirs;
      status, running := w.status, w.running;
      this.fates := fates;
    }

    function Now(): World
      reads this
    {
      World(Disk(files, dirs), status, running)
    }

    function Here(pc: Pc): Machine
      reads this
    {
      Machine(Now(), pc)
    }

    /** The machine continued from `pc` on what is left of the fates. */
    ghost function From(pc: Pc): Machine
      reads this
    {
      Execute(plan, Here(pc), fates)
    }

    // ----------------------------------------------------------- primitives

    /** A read, a health check or a context test. */
    method Observe() returns (io: Io)
      modifies this`fates
      ensures old(fates) == [] ==> io == Dead && fates == []
      ensures old(fates) != [] ==> fates == old(fates)[1..] && io == Report(old(fates)[0])
    {
      if fates == [] { return Dead; }
      io := Report(fates[0]);
      fates := fates[1..];
    }

    method Save(to: Status) returns (io: Io)
      modifies this`status, this`fates
      ensures old(fates) == [] ==> io == Dead && fates == [] && status == old(status)
      ensures old(fates) != [] ==>
                && fates == old(fates)[1..] && io == Report(old(fates)[0])
                && status == if TakesEffect(old(fates)[0]) then to else old(status)
    {
      if fates == [] { return Dead; }
      io := Report(fates[0]);
      if TakesEffect(fates[0]) { status := to; }
      fates := fates[1..];
    }

    /** Creates `path`, which must not exist, in a directory on `device`. */
    method WriteAt(path: Path, device: nat, content: string, fp: Fingerprint) returns (io: Io)
      requires path !in files
      modifies this`files, this`fates
      ensures old(fates) == [] ==> io == Dead && fates == [] && files == old(files)
      ensures old(fates) != [] ==>
                && fates == old(fates)[1..] && io == Report(old(fates)[0])
                && files == if TakesEffect(old(fates)[0])
                            then Put(old(files), path, Written(plan, device, content, fp, StampOf(old(fates)[0]))) else old(files)
    {
      if fates == [] { return Dead; }
      io := Report(fates[0]);
      if TakesEffect(fates[0]) {
        files := files[path := Written(plan, device, content, fp, StampOf(fates[0])).file];
      }
      fates := fates[1..];
    }

    /** Renames `from`, which exists, over `to`. */
    method Rename(from: Path, to: Path) returns (io: Io)
      requires from in files && from != to
      modifies this`files, this`fates
      ensures old(fates) == [] ==> io == Dead && fates == [] && files == old(files)
      ensures old(fates) != [] ==>
                && fates == old(fates)[1..] && io == Report(old(fates)[0])
                && files == if TakesEffect(old(fates)[0])
                            then Put(Put(old(files), to, Read(old(files), from)), from, Missing) else old(files)
    {
      if fates == [] { return Dead; }
      io := Report(fates[0]);
      if TakesEffect(fates[0]) { files := files[to := files[from]] - {from}; }
      fates := fates[1..];
    }

    method Remove(path: Path) returns (io: Io)
      modifies this`files, this`fates
      ensures old(fates) == [] ==> io == Dead && fates == [] && files == old(files)
      ensures old(fates) != [] ==>
                && fates == old(fates)[1..] && io == Report(old(fates)[0])
                && files == if TakesEffect(old(fates)[0]) then Put(old(files), path, Missing) else old(files)
    {
      if fates == [] { return Dead; }
      io := Report(fates[0]);
      if TakesEffect(fates[0]) { files := files - {path}; }
      fates := fates[1..];
    }

    /** Makes the managed service load the installed configuration and checks its health. */
    method Reload() returns (io: Io)
      requires |plan.entries| > 0
      modifies this`running, this`fates
      ensures old(fates) == [] ==> io == Dead && fates == [] && running == old(running)
      ensures old(fates) != [] ==>
                && fates == old(fates)[1..] && io == Report(old(fates)[0])
                && Now() == if TakesEffect(old(fates)[0]) then Loaded(plan, old(Now())) else old(Now())
    {
      if fates == [] { return Dead; }
      io := Report(fates[0]);
      if TakesEffect(fates[0]) {
        var installed := At(plan, Disk(files, dirs), Target, 0);
        if installed.Regular? { running := installed.file.content; }
      }
      fates := fates[1..];
    }

    // ----------------------------------------------------------- reads of several entries

    method MatchAll(after: bool) returns (all: bool)
      ensures all == AllMatch(plan, Now().disk, after)
    {
      var i := 0;
      while i < |plan.entries|
        invariant 0 <= i <= |plan.entries|
        invariant forall j | 0 <= j < i ::
                    ReadMatching(plan, Now().disk, j, if after then plan.entries[j].after else plan.entries[j].before, false)
      {
        var want := if after then plan.entries[i].after else plan.entries[i].before;
        if !ReadMatching(plan, Now().disk, i, want, false) { return false; }
        i := i + 1;
      }
      return true;
    }

    /** The checks before the first mutation: reviewed originals and intact artifacts. */
    method Preflight(assets: bool) returns (ok: bool)
      ensures ok == (Untouched(plan, Now().disk) && (assets ==> forall i | 0 <= i < |plan.entries| :: AssetsOk(plan, Now().disk, i)))
    {
      var i := 0;
      while i < |plan.entries|
        invariant 0 <= i <= |plan.entries|
        invariant forall j | 0 <= j < i :: ReadMatching(plan, Now().disk, j, plan.entries[j].before, true)
        invariant assets ==> forall j | 0 <= j < i :: AssetsOk(plan, Now().disk, j)
      {
        if !ReadMatching(plan, Now().disk, i, plan.entries[i].before, true) { return false; }
        if assets && !AssetsOk(plan, Now().disk, i) { return false; }
        i := i + 1;
      }
      return true;
    }

    // ----------------------------------------------------------- one entry

    /** A read that already shows the step cannot proceed. */
    method Refuse() returns (io: Io)
      modifies this`fates
      ensures old(fates) == [] ==> io == Dead && fates == []
      ensures old(fates) != [] ==> io == Failed(false) && fates == old(fates)[1..]
    {
      io := Observe();
      if !io.Dead? { io := Failed(false); }
    }

    method ApplyOne(i: nat) returns (io: Io, ghost next: Pc)
      requires ValidPlan(plan) && i < |plan.entries|
      modifies this`files, this`fates
      ensures From(next) == old(From(ApplyEntry(i)))
      ensures match io case Fine => next == AfterApplied(plan, i + 1)
                       case Failed(_) => next == OnApplyError(plan)
                       case Dead => fates == [] && !next.Idle?
    {
      hide Locate;
      hide RestoreEntryStep;
      hide RestoreUndoStep;
      hide WriteArtifact;
      hide AllMatch;
      hide Loaded;
      ghost var w, f := Now(), fates;
      var en := plan.entries[i];
      var target := LocationOf(plan, Target, i);
      next := ApplyEntry(i);
      if !ReadMatching(plan, Disk(files, dirs), i, en.before, true) {
        io := Refuse();
      } else if en.action == Delete {
        var kept := LocationOf(plan, Quarantine, i);
        if kept in files {
          io := Refuse();
        } else {
          PlacesDiffer(plan, i, Target, Quarantine);
          io := Rename(target, kept);
        }
      } else {
        var pending, artifact := LocationOf(plan, Pending, i), LocationOf(plan, Candidate, i);
        if pending in files || !ArtifactOk(plan, Read(files, artifact), en.after.file.content) {
          io := Refuse();
        } else {
          io := WriteAt(pending, en.parentId.device, files[artifact].content, en.after);
          if io.Fine? {
            next := ApplyStaged(i);
            Engine.Steps(plan, Machine(w, ApplyEntry(i)), f);
            io, next := InstallStaged(i);
            return;
          }
        }
      }
      if !io.Dead? {
        next := if io.Fine? then AfterApplied(plan, i + 1) else OnApplyError(plan);
        Engine.Steps(plan, Machine(w, ApplyEntry(i)), f);
      }
    }

    method InstallStaged(i: nat) returns (io: Io, ghost next: Pc)
      requires ValidPlan(plan) && i < |plan.entries|
      modifies this`files, this`fates
      ensures From(next) == old(From(ApplyStaged(i)))
      ensures match io case Fine => next == AfterApplied(plan, i + 1)
                       case Failed(_) => next == OnApplyError(plan)
                       case Dead => fates == [] && !next.Idle?
    {
      hide Locate;
      ghost var w, f := Now(), fates;
      var target, pending := LocationOf(plan, Target, i), LocationOf(plan, Pending, i);
      next := ApplyStaged(i);
      // Recheck after staging, immediately before replacing the reviewed path.
      if pending !in files || !Matches(Read(files, target), plan.entries[i].before, true) {
        io := Refuse();
      } else {
        PlacesDiffer(plan, i, Pending, Target);
        io := Rename(pending, target);
      }
      if !io.Dead? {
        next := if io.Fine? then AfterApplied(plan, i + 1) else OnApplyError(plan);
        Engine.Steps(plan, Machine(w, ApplyStaged(i)), f);
      }
    }

    /** The context test and first read at the head of the restore loop. */
    method Enter() returns (io: Io, cancelled: bool)
      modifies this`fates
      ensures old(fates) == [] ==> io == Dead && fates == []
      ensures old(fates) != [] ==> fates == old(fates)[1..] && io == Report(old(fates)[0]) && cancelled == old(fates)[0].Cancelled?
    {
      cancelled := fates != [] && fates[0].Cancelled?;
      io := Observe();
    }

    /** Puts entry `i` back if it holds this operation's output; `stop` ends the loop. */
    method RestoreOne(i: nat, ghost failed: bool) returns (io: Io, stop: bool, ghost next: Pc)
      requires ValidPlan(plan) && i < |plan.entries|
      modifies this`files, this`fates
      ensures From(next) == old(From(RestoreEntry(i + 1, failed)))
      ensures io.Dead? ==> fates == [] && !next.Idle?
      ensures !io.Dead? ==> next == if stop then RestoreFailed else AfterRestored(i, failed || !io.Fine?)
    {
      hide At;
      hide Undo;
      ghost var w, f := Now(), fates;
      next := RestoreEntry(i + 1, failed);
      io, stop := Enter();
      if io.Dead? { return; }
      Engine.Steps(plan, Machine(w, next), f);
      next := Step(plan, Machine(w, next), f[0]).pc;
      if stop || !io.Fine? { return; }
      match Undo(plan, Disk(files, dirs), i)
      case Nothing =>
      case Conflict => io := Failed(false);
      // A prior crash left a complete staging file: it was verified, and is never rewritten.
      case Reuse => io, next := ReinstateStaged(i, failed);
      case _ => io, next := UndoOne(i, failed);
    }

    /** Removes a created target, moves a quarantined original back, or stages the backup. */
    method UndoOne(i: nat, ghost failed: bool) returns (io: Io, ghost next: Pc)
      requires ValidPlan(plan) && i < |plan.entries|
      requires var u := Undo(plan, Disk(files, dirs), i); u.Remove? || u.MoveBack? || u.Stage?
      modifies this`files, this`fates
      ensures From(next) == old(From(RestoreUndo(i + 1, failed)))
      ensures io.Dead? ==> fates == [] && !next.Idle?
      ensures !io.Dead? ==> next == AfterRestored(i, failed || !io.Fine?)
    {
      hide Locate;
      hide ApplyEntryStep;
      hide RestoreEntryStep;
      hide WriteArtifact;
      hide AllMatch;
      hide Loaded;
      ghost var w, f := Now(), fates;
      var en := plan.entries[i];
      var target := LocationOf(plan, Target, i);
      var u := Undo(plan, Disk(files, dirs), i);
      next := RestoreUndo(i + 1, failed);
      if u.Remove? {
        io := Remove(target);
      } else if u.MoveBack? {
        PlacesDiffer(plan, i, Quarantine, Target);
        io := Rename(LocationOf(plan, Quarantine, i), target);
      } else {
        io := WriteAt(LocationOf(plan, Restore, i), en.parentId.device, files[LocationOf(plan, Backup, i)].content, en.before);
        if io.Fine? {
          Engine.Steps(plan, Machine(w, next), f);
          io, next := ReinstateStaged(i, failed);
          return;
        }
      }
      if !io.Dead? {
        Engine.Steps(plan, Machine(w, next), f);
        next := AfterRestored(i, failed || !io.Fine?);
      }
    }

    method ReinstateStaged(i: nat, ghost failed: bool) returns (io: Io, ghost next: Pc)
      requires ValidPlan(plan) && i < |plan.entries|
      modifies this`files, this`fates
      ensures From(next) == old(From(RestoreStaged(i + 1, failed)))
      ensures io.Dead? ==> fates == [] && !next.Idle?
      ensures !io.Dead? ==> next == AfterRestored(i, failed || !io.Fine?)
    {
      hide Locate;
      ghost var w, f := Now(), fates;
      var target, staging := LocationOf(plan, Target, i), LocationOf(plan, Restore, i);
      next := RestoreStaged(i + 1, failed);
      if staging !in files || !Matches(Read(files, target), plan.entries[i].after, false) {
        io := Refuse();
      } else {
        PlacesDiffer(plan, i, Restore, Target);
        io := Rename(staging, target);
      }
      if !io.Dead? {
        Engine.Steps(plan, Machine(w, RestoreStaged(i + 1, failed)), f);
        next := AfterRestored(i, failed || !io.Fine?);
      }
    }

    // ----------------------------------------------------------- whole calls

    /** Records `to` as the last act of a call. */
    method Conclude(to: Status, success: bool, ghost pc: Pc) returns (r: Reply)
      requires LastRecord(pc, to, success)
      modifies this`status, this`fates
      ensures EndsAt(old(From(pc)), r)
    {
      hide At;
      hide Set;
      hide Undo;
      ghost var w, f := Now(), fates;
      var io := Save(to);
      if io.Dead? { return Died; }
      Engine.Steps(plan, Machine(w, pc), f);
      return Returned(io.Fine? && success);
    }

    /** This process has come to `m`, and replies accordingly. */
    ghost predicate EndsAt(m: Machine, r: Reply)
      reads this
    {
      Now() == m.world && (if m.pc.Idle? then r == Returned(m.pc.ok) else r == Died)
    }

    /** The reverse loop over the entries. */
    method RestoreAll() returns (failed: bool, dead: bool, ghost next: Pc)
      requires ValidPlan(plan)
      modifies this`files, this`fates
      ensures From(next) == old(From(AfterRestored(|plan.entries|, false)))
      ensures if dead then fates == [] && !next.Idle? else next == if failed then RestoreFailed else RestoreVerify
    {
      hide Step;
      hide Execute;
      ghost var start := From(AfterRestored(|plan.entries|, false));
      var left, stop, io := |plan.entries|, false, Fine;
      failed := false;
      next := AfterRestored(left, failed);
      while left > 0 && !stop
        invariant 0 <= left <= |plan.entries| && start == From(next)
        invariant next == if stop then RestoreFailed else AfterRestored(left, failed)
      {
        io, stop, next := RestoreOne(left - 1, failed);
        if io.Dead? { return failed, true, next; }
        failed := failed || !io.Fine?;
        left := left - 1;
      }
      return failed || stop, false, next;
    }

    /** The checks after the loop. */
    method FinishRestore() returns (r: Reply)
      requires ValidPlan(plan)
      modifies this`status, this`running, this`fates
      ensures EndsAt(old(From(RestoreVerify)), r)
    {
      hide AllMatch;
      hide Step;
      hide Execute;
      ghost var w, f := Now(), fates;
      var io := Observe();
      if io.Dead? { DeadStays(plan, Machine(w, RestoreVerify)); return Died; }
      Engine.Steps(plan, Machine(w, RestoreVerify), f);
      VerifyStep(plan, w, f[0]);
      var same := MatchAll(false);
      if !io.Fine? || !same {
        r := Conclude(RecoveryFailed, false, RestoreFailed);
      } else if plan.service {
        r := ReloadRestored();
      } else {
        r := Conclude(Recovered, true, RestoreCommit);
      }
    }

    method ReloadRestored() returns (r: Reply)
      requires ValidPlan(plan)
      modifies this`status, this`running, this`fates
      ensures EndsAt(old(From(RestoreReload)), r)
    {
      hide At;
      hide Set;
      hide Undo;
      hide ApplyEntryStep;
      hide RestoreEntryStep;
      hide RestoreUndoStep;
      hide WriteArtifact;
      hide Move;
      hide AllMatch;
      ghost var w, f := Now(), fates;
      var io := Reload();
      if io.Dead? { return Died; }
      Engine.Steps(plan, Machine(w, RestoreReload), f);
      if io.Fine? {
        r := Conclude(Recovered, true, RestoreCommit);
      } else {
        r := Conclude(RecoveryFailed, false, RestoreFailed);
      }
    }

    /** From the durable record that restoration has begun, to its end. */
    method Rollback() returns (r: Reply)
      requires ValidPlan(plan)
      modifies this`files, this`status, this`running, this`fates
      ensures EndsAt(old(From(RollbackRecord)), r)
    {
      hide At;
      hide Set;
      hide Undo;
      ghost var w, f := Now(), fates;
      var io := Save(RollingBack);
      if io.Dead? { return Died; }
      Engine.Steps(plan, Machine(w, RollbackRecord), f);
      if !io.Fine? { return Returned(false); }
      var failed, dead;
      ghost var next;
      failed, dead, next := RestoreAll();
      if dead { return Died; }
      if failed { r := Conclude(RecoveryFailed, false, RestoreFailed); } else { r := FinishRestore(); }
    }

    /** `Recover` and `RecoverService`. */
    method Recover(authorized: bool) returns (r: Reply)
      requires ValidPlan(plan)
      modifies this`files, this`status, this`running, this`fates
      ensures var m := old(Execute(plan, Start(plan, Now(), Call.Recover(authorized)), fates));
              Now() == m.world && Replies(Call.Recover(authorized), m, r)
      ensures authorized && old(EngineTheorems.Begun(status)) && old(status) != ValidationFailed
              && old(EngineSafety.Journal(plan, Now()) && EngineSafety.Serving(plan, Now()))
              && EngineRollback.AllDone(old(fates)) && |old(fates)| >= EngineRollback.Enough(plan) ==>
                && r == Returned(true) && status == Recovered
                && EngineSafety.RestoredFrom(plan, Now().disk, 0) && EngineSafety.RunsBefore(plan, Now())
    {
      if authorized && EngineTheorems.Begun(status) && status != ValidationFailed && EngineSafety.Journal(plan, Now())
         && EngineSafety.Serving(plan, Now()) && EngineRollback.AllDone(fates) && |fates| >= EngineRollback.Enough(plan) {
        EngineTheorems.RecoverFinishes(plan, Now(), fates);
      }
      hide EngineSafety.Journal;
      hide EngineSafety.Serving;
      hide EngineSafety.RestoredFrom;
      hide EngineSafety.RunsBefore;
      hide EngineRollback.AllDone;
      hide Step;
      hide Execute;
      if !authorized || status == Unrecorded { IdleStays(plan, Now(), Call.Recover(authorized), fates); return Returned(false); }
      if status == Recovered { IdleStays(plan, Now(), Call.Recover(authorized), fates); return Returned(true); }
      if status == Ready {
        var same := Preflight(false);
        if !same { IdleStays(plan, Now(), Call.Recover(authorized), fates); return Returned(false); }
        r := Conclude(Recovered, true, CancelRecord);
        return;
      }
      if status in {Preparing, PreparationFailed, ValidationFailed} {
        IdleStays(plan, Now(), Call.Recover(authorized), fates);
        return Returned(false);
      }
      r := Rollback();
    }

    method Reconcile() returns (r: Reply)
      modifies this`status, this`fates
      ensures var m := old(Execute(plan, Start(plan, Now(), Call.Reconcile), fates));
              Now() == m.world && Replies(Call.Reconcile, m, r)
    {
      hide Step;
      hide Execute;
      match status
      case Unrecorded => IdleStays(plan, Now(), Call.Reconcile, fates); return Returned(false);
      case Preparing => r := Conclude(PreparationFailed, true, ReconcileRecord(PreparationFailed));
      case Validating | Applying | Verifying | RollingBack => r := Conclude(Unknown, true, ReconcileRecord(Unknown));
      case _ => IdleStays(plan, Now(), Call.Reconcile, fates); return Returned(true);
    }

    /** The forward loop over the entries. */
    method ApplyAll() returns (io: Io, ghost next: Pc)
      requires ValidPlan(plan)
      modifies this`files, this`fates
      ensures From(next) == old(From(AfterApplied(plan, 0)))
      ensures match io case Fine => next == ApplyVerifying
                       case Failed(_) => next == OnApplyError(plan)
                       case Dead => fates == [] && !next.Idle?
    {
      hide Step;
      hide Execute;
      ghost var start := From(AfterApplied(plan, 0));
      var i := 0;
      next := AfterApplied(plan, 0);
      while i < |plan.entries|
        invariant 0 <= i <= |plan.entries| && start == From(next) && next == AfterApplied(plan, i)
      {
        io, next := ApplyOne(i);
        if !io.Fine? { return; }
        i := i + 1;
      }
      io := Fine;
    }

    /** A service rolls back at once and still reports its failure; a file operation records
        that its outcome is unknown and leaves recovery to an explicit request. */
    method FailApply() returns (r: Reply)
      requires ValidPlan(plan)
      modifies this`files, this`status, this`running, this`fates
      ensures EndsApply(old(From(OnApplyError(plan))), r)
    {
      hide Step;
      hide Execute;
      if plan.service {
        RestoreEnds(plan, Here(RollbackRecord), fates);
        r := Rollback();
        if r.Returned? { r := Returned(false); }
      } else {
        GiveUpFails(plan, Now(), fates);
        r := Conclude(Unknown, false, ApplyGiveUp);
      }
    }

    /** A save that failed in an apply: a lost acknowledgement rules out any later save. */
    method FailSave(io: Io) returns (r: Reply)
      requires ValidPlan(plan) && io.Failed?
      modifies this`files, this`status, this`running, this`fates
      ensures EndsApply(old(From(if plan.service && !io.unsynced then RollbackRecord else Idle(false))), r)
    {
      hide Step;
      if plan.service && !io.unsynced {
        hide Execute;
        RestoreEnds(plan, Here(RollbackRecord), fates);
        r := Rollback();
        if r.Returned? { r := Returned(false); }
      } else {
        return Returned(false);
      }
    }

    /** The same for an apply, which succeeds only by committing. */
    ghost predicate EndsApply(m: Machine, r: Reply)
      reads this
    {
      Now() == m.world && r == if m.pc.Idle? then Returned(m.pc.ok && m.world.status == Committed) else Died
    }

    method CommitApplied() returns (r: Reply)
      requires ValidPlan(plan)
      modifies this`files, this`status, this`running, this`fates
      ensures EndsApply(old(From(ApplyCommit)), r)
    {
      hide At;
      hide Set;
      hide Undo;
      ghost var w, f := Now(), fates;
      var io := Save(Committed);
      if io.Dead? { return Died; }
      Engine.Steps(plan, Machine(w, ApplyCommit), f);
      if io.Fine? { return Returned(true); }
      r := FailSave(io);
    }

    method ReloadApplied() returns (r: Reply)
      requires ValidPlan(plan) && plan.service
      modifies this`files, this`status, this`running, this`fates
      ensures EndsApply(old(From(ApplyReload)), r)
    {
      hide At;
      hide Set;
      hide Undo;
      ghost var w, f := Now(), fates;
      var io := Reload();
      if io.Dead? { return Died; }
      Engine.Steps(plan, Machine(w, ApplyReload), f);
      if io.Fine? { r := CommitApplied(); } else { r := FailApply(); }
    }

    /** From the record that every entry is installed, to the commit. */
    method VerifyApplied() returns (r: Reply)
      requires ValidPlan(plan)
      modifies this`files, this`status, this`running, this`fates
      ensures EndsApply(old(From(ApplyVerify)), r)
    {
      hide AllMatch;
      hide Step;
      hide Execute;
      ghost var w, f := Now(), fates;
      var io := Observe();
      if io.Dead? { DeadStays(plan, Machine(w, ApplyVerify)); return Died; }
      Engine.Steps(plan, Machine(w, ApplyVerify), f);
      VerifyStep(plan, w, f[0]);
      var same := MatchAll(true);
      if !io.Fine? || !same { r := FailApply(); }
      else if plan.service { r := ReloadApplied(); }
      else { r := CommitApplied(); }
    }

    method RecordVerifying() returns (r: Reply)
      requires ValidPlan(plan)
      modifies this`files, this`status, this`running, this`fates
      ensures EndsApply(old(From(ApplyVerifying)), r)
    {
      hide At;
      hide Set;
      hide Undo;
      ghost var w, f := Now(), fates;
      var io := Save(Verifying);
      if io.Dead? { return Died; }
      Engine.Steps(plan, Machine(w, ApplyVerifying), f);
      if io.Fine? { r := VerifyApplied(); } else { r := FailSave(io); }
    }

    /** From the durable record that application has begun. */
    method RecordApplying() returns (r: Reply)
      requires ValidPlan(plan)
      modifies this`files, this`status, this`running, this`fates
      ensures EndsApply(old(From(ApplyRecord)), r)
    {
      hide At;
      hide Set;
      hide Undo;
      ghost var w, f := Now(), fates;
      var io := Save(Applying);
      if io.Dead? { return Died; }
      Engine.Steps(plan, Machine(w, ApplyRecord), f);
      if !io.Fine? { return Returned(false); }
      ghost var next;
      io, next := ApplyAll();
      match io
      case Dead => return Died;
      case Failed(_) => r := FailApply();
      case Fine => r := RecordVerifying();
    }

    /** Baseline health and the syntax of the staged configuration, after a durable record. */
    method ValidateService() returns (r: Reply)
      requires ValidPlan(plan) && plan.service
      modifies this`files, this`status, this`running, this`fates
      ensures EndsApply(old(From(ApplyValidating)), r)
    {
      hide At;
      hide Set;
      hide Undo;
      ghost var w, f := Now(), fates;
      var io := Save(Validating);
      if io.Dead? { return Died; }
      Engine.Steps(plan, Machine(w, ApplyValidating), f);
      if !io.Fine? { return Returned(false); }
      w, f := Now(), fates;
      io := Observe();
      if io.Dead? { return Died; }
      Engine.Steps(plan, Machine(w, ApplyBaseline), f);
      if io.Fine? {
        r := RecordApplying();
      } else {
        w, f := Now(), fates;
        InvalidFails(plan, w, f);
        r := Conclude(ValidationFailed, false, ApplyInvalid);
      }
    }

    /** `Apply` and `ApplyService`. */
    method Apply(authorized: bool, current: bool) returns (r: Reply)
      requires ValidPlan(plan)
      modifies this`files, this`status, this`running, this`fates
      ensures var m := old(Execute(plan, Start(plan, Now(), Call.Apply(authorized, current)), fates));
              Now() == m.world && Replies(Call.Apply(authorized, current), m, r)
      ensures authorized && current && old(status) == Ready && old(EngineSafety.Journal(plan, Now()))
              && EngineRollback.AllDone(old(fates)) && |old(fates)| >= EngineOutcomes.Steps(plan) ==>
                && r == Returned(true) && status == Committed
                && EngineSafety.Installed(plan, Now().disk, |plan.entries|) && EngineSafety.RunsAfter(plan, Now())
    {
      if authorized && current && status == Ready && EngineSafety.Journal(plan, Now()) && EngineRollback.AllDone(fates)
         && |fates| >= EngineOutcomes.Steps(plan) {
        EngineOutcomes.ApplyCommits(plan, Now(), fates);
      }
      hide EngineSafety.Journal;
      hide EngineSafety.Installed;
      hide EngineSafety.RunsAfter;
      hide EngineRollback.AllDone;
      hide Step;
      hide Execute;
      IdleStays(plan, Now(), Call.Apply(authorized, current), fates);
      if !authorized || status == Unrecorded { return Returned(false); }
      if status == Committed { return Returned(true); }
      if status != Ready || !current { return Returned(false); }
      var ok := Preflight(true);
      if !ok { return Returned(false); }
      if plan.service { r := ValidateService(); } else { r := RecordApplying(); }
    }

    // ----------------------------------------------------------- preparation

    method WriteArtifactFile(i: nat, place: Place, content: string) returns (io: Io)
      requires ValidPlan(plan) && i < |plan.entries|
      modifies this`files, this`fates
      ensures old(fates) == [] ==> io == Dead && fates == [] && files == old(files)
      ensures old(fates) != [] ==>
                && fates == old(fates)[1..]
                && forall next :: WriteArtifact(plan, old(Now()), i, place, content, old(fates)[0], next)
                               == Machine(Now(), if io.Fine? then next else PrepareGiveUp) && !io.Dead?
    {
      hide Locate;
      var path := LocationOf(plan, place, i);
      if path in files { io := Refuse(); } else { io := WriteAt(path, 0, content, Missing); }
    }

    /** The backup and the candidate of one entry. */
    method PreserveOne(i: nat) returns (io: Io, ghost next: Pc)
      requires ValidPlan(plan) && i < |plan.entries|
      modifies this`files, this`fates
      ensures From(next) == old(From(PrepareEntry(i)))
      ensures match io case Fine => next == AfterArtifacts(plan, i + 1)
                       case Failed(_) => next == PrepareGiveUp
                       case Dead => fates == [] && !next.Idle?
    {
      hide At;
      hide Set;
      hide Undo;
      hide WriteArtifact;
      ghost var w, f := Now(), fates;
      var en := plan.entries[i];
      next := PrepareEntry(i);
      io := Observe();
      if io.Dead? { return; }
      Engine.Steps(plan, Machine(w, next), f);
      if !io.Fine? { next := PrepareGiveUp; return; }
      if en.before.Regular? {
        w, f, next := Now(), fates, PrepareBackup(i);
        io := WriteArtifactFile(i, Backup, en.before.file.content);
        if io.Dead? { return; }
        Engine.Steps(plan, Machine(w, next), f);
        if !io.Fine? { next := PrepareGiveUp; return; }
      }
      if en.after.Regular? {
        w, f, next := Now(), fates, PrepareCandidate(i);
        io := WriteArtifactFile(i, Candidate, en.after.file.content);
        if io.Dead? { return; }
        Engine.Steps(plan, Machine(w, next), f);
        if !io.Fine? { next := PrepareGiveUp; return; }
      }
      next := AfterArtifacts(plan, i + 1);
    }

    /** The loop that writes every artifact. */
    method PreserveAll() returns (io: Io, ghost next: Pc)
      requires ValidPlan(plan)
      modifies this`files, this`fates
      ensures From(next) == old(From(AfterArtifacts(plan, 0)))
      ensures match io case Fine => next == PrepareReady
                       case Failed(_) => next == PrepareGiveUp
                       case Dead => fates == [] && !next.Idle?
    {
      hide Step;
      hide Execute;
      ghost var start := From(AfterArtifacts(plan, 0));
      var i := 0;
      next := AfterArtifacts(plan, 0);
      while i < |plan.entries|
        invariant 0 <= i <= |plan.entries| && start == From(next) && next == AfterArtifacts(plan, i)
      {
        io, next := PreserveOne(i);
        if !io.Fine? { return; }
        i := i + 1;
      }
      io := Fine;
    }

    method RecordPreparing() returns (r: Reply)
      requires ValidPlan(plan)
      modifies this`files, this`status, this`fates
      ensures EndsAt(old(From(PrepareRecord)), r)
    {
      hide At;
      hide Set;
      hide Undo;
      ghost var w, f := Now(), fates;
      var io := Save(Preparing);
      if io.Dead? { return Died; }
      Engine.Steps(plan, Machine(w, PrepareRecord), f);
      if !io.Fine? { return Returned(false); }
      ghost var next;
      io, next := PreserveAll();
      match io
      case Dead => return Died;
      case Failed(_) => r := Conclude(PreparationFailed, false, PrepareGiveUp);
      case Fine => r := Conclude(Ready, true, PrepareReady);
    }

    /** `Prepare`, once the plan is drawn up. */
    method Prepare() returns (r: Reply)
      requires ValidPlan(plan)
      modifies this`files, this`status, this`fates
      ensures var m := old(Execute(plan, Start(plan, Now(), Call.Prepare), fates));
              Now() == m.world && Replies(Call.Prepare, m, r)
      ensures old(status) == Unrecorded && old(EngineSafety.Journal(plan, Now()) && EngineSafety.Serving(plan, Now()))
              && EngineRollback.AllDone(old(fates)) && |old(fates)| >= 3 * |plan.entries| + 3 ==>
                var free := old(EngineOutcomes.FreeFrom(plan, Now().disk, 0));
                && r == Returned(free) && status == (if free then Ready else PreparationFailed)
                && EngineSafety.Pristine(plan, Now().disk) && (free ==> EngineSafety.Preserved(plan, Now().disk, |plan.entries|))
    {
      if status == Unrecorded && EngineSafety.Journal(plan, Now()) && EngineSafety.Serving(plan, Now()) && EngineRollback.AllDone(fates)
         && |fates| >= 3 * |plan.entries| + 3 {
        EngineOutcomes.PrepareFinishes(plan, Now(), fates);
      }
      hide EngineSafety.Journal;
      hide EngineSafety.Serving;
      hide EngineSafety.Pristine;
      hide EngineSafety.Preserved;
      hide EngineOutcomes.FreeFrom;
      hide EngineRollback.AllDone;
      hide Step;
      hide Execute;
      IdleStays(plan, Now(), Call.Prepare, fates);
      if status != Unrecorded { return Returned(false); }
      r := RecordPreparing();
    }
  }

  lemma PlacesDiffer(p: Plan, i: nat, a: Place, b: Place)
    requires ValidPlan(p) && i < |p.entries| && a != b
    ensures LocationOf(p, a, i) != LocationOf(p, b, i)
  {
    if LocationOf(p, a, i) == LocationOf(p, b, i) {
      PlacesDisjoint(p.stateDir, p.id, p.entries[i].path, i, a, p.id, p.entries[i].path, i, b);
    }
  }

  lemma IdleStays(p: Plan, w: World, c: Call, fates: seq<Fate>)
    ensures Begin(p, w, c).Idle? ==> Execute(p, Start(p, w, c), fates) == Start(p, w, c)
  {
  }

  lemma GiveUpFails(p: Plan, w: World, fates: seq<Fate>)
    ensures var m := Execute(p, Machine(w, ApplyGiveUp), fates); m.pc.Idle? ==> !m.pc.ok
  {
    if fates != [] { Engine.Steps(p, Machine(w, ApplyGiveUp), fates); }
  }

  lemma DeadStays(p: Plan, m: Machine)
    ensures Execute(p, m, []) == m
  {
  }

  lemma VerifyStep(p: Plan, w: World, f: Fate)
    ensures Step(p, Machine(w, RestoreVerify), f)
         == Machine(w, if !f.Done? || !AllMatch(p, w.disk, false) then RestoreFailed else if p.service then RestoreReload else RestoreCommit)
    ensures Step(p, Machine(w, ApplyVerify), f)
         == Machine(w, if !f.Done? || !AllMatch(p, w.disk, true) then OnApplyError(p) else if p.service then ApplyReload else ApplyCommit)
  {
  }

  lemma InvalidFails(p: Plan, w: World, fates: seq<Fate>)
    ensures var m := Execute(p, Machine(w, ApplyInvalid), fates); m.pc.Idle? ==> !m.pc.ok
  {
    if fates != [] { Engine.Steps(p, Machine(w, ApplyInvalid), fates); }
  }

  predicate RestorePhase(m: Machine) {
    match m.pc
    case RollbackRecord | RestoreVerify | RestoreReload | RestoreCommit | RestoreFailed => true
    case RestoreEntry(_, _) => true
    case RestoreUndo(_, _) => true
    case RestoreStaged(_, _) => true
    case Idle(ok) => ok ==> m.world.status == Recovered
    case _ => false
  }

  /** A restoration ends in success only by recording `Recovered`. */
  lemma {:induction false} RestoreEnds(p: Plan, m: Machine, fates: seq<Fate>)
    requires RestorePhase(m)
    ensures RestorePhase(Execute(p, m, fates))
    decreases |fates|
  {
    hide At;
    hide Set;
    hide Move;
    hide Undo;
    if !m.pc.Idle? && fates != [] {
      RestoreEnds(p, Step(p, m, fates[0]), fates[1..]);
    }
  }
}
