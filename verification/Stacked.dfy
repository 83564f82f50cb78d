/** Several operations on one machine, each prepared after the previous one committed,
    undone in reverse order. */
module Stacked {
  import opened Paths
  import opened RecoveryTypes
  import opened Engine
  import opened EngineSafety
  import opened EngineRollback
  import opened EngineTheorems

  /** One of the operation's own files, never a target of any operation. */
  ghost predicate PrivateTo(p: Plan, path: Path) {
    exists i: nat, place | i < |p.entries| && |p.entries[i].path| > 0 && place != Target :: LocationOf(p, place, i) == path
  }

  ghost predicate TargetOf(p: Plan, path: Path) {
    exists i: nat | i < |p.entries| :: p.entries[i].path == path
  }

  /** The operation writes only its targets and its own files. */
  ghost predicate Confined(p: Plan, d: Disk, d': Disk) {
    d'.dirs == d.dirs && forall path | !TargetOf(p, path) && !PrivateTo(p, path) :: Read(d'.files, path) == Read(d.files, path)
  }

  lemma SetConfined(p: Plan, d: Disk, place: Place, i: nat, fp: Fingerprint)
    requires ValidPlan(p) && i < |p.entries|
    ensures Confined(p, d, Set(p, d, place, i, fp))
  {
    hide Locate;
    if place == Target {
      TargetIsPath(p, i);
      assert TargetOf(p, LocationOf(p, place, i));
    } else {
      assert PrivateTo(p, LocationOf(p, place, i));
    }
  }

  lemma TargetIsPath(p: Plan, i: nat)
    requires ValidPlan(p) && i < |p.entries|
    ensures LocationOf(p, Target, i) == p.entries[i].path
  {
  }

  lemma MoveConfined(p: Plan, d: Disk, from: Place, i: nat)
    requires ValidPlan(p) && i < |p.entries|
    ensures Confined(p, d, Move(p, d, from, i))
  {
    SetConfined(p, d, Target, i, At(p, d, from, i));
    SetConfined(p, Set(p, d, Target, i, At(p, d, from, i)), from, i, Missing);
    hide At;
    hide Set;
  }

  lemma SameConfined(p: Plan, d: Disk)
    ensures Confined(p, d, d)
  {
  }

  lemma ConfinedTransitive(p: Plan, a: Disk, b: Disk, c: Disk)
    requires Confined(p, a, b) && Confined(p, b, c)
    ensures Confined(p, a, c)
  {
  }

  lemma WriteConfined(p: Plan, m: Machine, f: Fate)
    requires ValidPlan(p) && WritesFiles(m.pc)
    ensures Confined(p, m.world.disk, Step(p, m, f).world.disk)
  {
    hide At;
    hide Set;
    hide Move;
    hide Written;
    hide Confined;
    var d, n := m.world.disk, |p.entries|;
    SameConfined(p, d);
    match m.pc
    case PrepareBackup(i) =>
      if i < n && p.entries[i].before.Regular? {
        SetConfined(p, d, Backup, i, Written(p, 0, p.entries[i].before.file.content, Missing, StampOf(f)));
      }
    case PrepareCandidate(i) =>
      if i < n && p.entries[i].after.Regular? {
        SetConfined(p, d, Candidate, i, Written(p, 0, p.entries[i].after.file.content, Missing, StampOf(f)));
      }
    case ApplyEntry(i) =>
      if i < n {
        var held := Set(p, d, Quarantine, i, At(p, d, Target, i));
        SetConfined(p, d, Quarantine, i, At(p, d, Target, i));
        SetConfined(p, held, Target, i, Missing);
        ConfinedTransitive(p, d, held, Set(p, held, Target, i, Missing));
        if At(p, d, Candidate, i).Regular? {
          var device, content := p.entries[i].parentId.device, At(p, d, Candidate, i).file.content;
          SetConfined(p, d, Pending, i, Written(p, device, content, p.entries[i].after, StampOf(f)));
        }
      }
    case ApplyStaged(i) => if i < n { MoveConfined(p, d, Pending, i); }
    case RestoreUndo(left, _) => if 0 < left <= n { UndoConfined(p, m, f); }
    case RestoreStaged(left, _) => if 0 < left <= n { MoveConfined(p, d, Restore, left - 1); }
  }

  lemma UndoConfined(p: Plan, m: Machine, f: Fate)
    requires ValidPlan(p) && m.pc.RestoreUndo? && 0 < m.pc.left <= |p.entries|
    ensures Confined(p, m.world.disk, Step(p, m, f).world.disk)
  {
    hide At;
    hide Set;
    hide Move;
    hide Written;
    hide Confined;
    var d, i := m.world.disk, m.pc.left - 1;
    SameConfined(p, d);
    match Undo(p, d, i)
    case Remove => SetConfined(p, d, Target, i, Missing);
    case MoveBack => MoveConfined(p, d, Quarantine, i);
    case Stage =>
      SetConfined(p, d, Restore, i, Written(p, p.entries[i].parentId.device, At(p, d, Backup, i).file.content, p.entries[i].before, StampOf(f)));
    case _ =>
  }

  lemma StepConfined(p: Plan, m: Machine, f: Fate)
    requires ValidPlan(p)
    ensures Confined(p, m.world.disk, Step(p, m, f).world.disk)
  {
    if WritesFiles(m.pc) {
      WriteConfined(p, m, f);
    } else {
      hide At;
      hide Set;
      hide Confined;
      SameConfined(p, m.world.disk);
    }
  }

  lemma {:induction false} ExecuteConfined(p: Plan, m: Machine, fates: seq<Fate>)
    requires ValidPlan(p)
    ensures Confined(p, m.world.disk, Execute(p, m, fates).world.disk)
    decreases |fates|
  {
    hide Step;
    hide Confined;
    SameConfined(p, m.world.disk);
    if !m.pc.Idle? && fates != [] {
      StepConfined(p, m, fates[0]);
      ExecuteConfined(p, Step(p, m, fates[0]), fates[1..]);
      ConfinedTransitive(p, m.world.disk, Step(p, m, fates[0]).world.disk, Execute(p, m, fates).world.disk);
    }
  }

  lemma {:induction false} SessionConfined(p: Plan, w: World, attempts: seq<Attempt>)
    requires ValidPlan(p)
    ensures Confined(p, w.disk, Session(p, w, attempts).disk)
    decreases |attempts|
  {
    hide Execute;
    hide Confined;
    SameConfined(p, w.disk);
    if attempts != [] {
      ExecuteConfined(p, Start(p, w, attempts[0].call), attempts[0].fates);
      SessionConfined(p, Perform(p, w, attempts[0]), attempts[1..]);
      ConfinedTransitive(p, w.disk, Perform(p, w, attempts[0]).disk, Session(p, w, attempts).disk);
    }
  }

  // ------------------------------------------------------------- the stack

  /** A history of operations: where each one starts, what is called on it, until it commits. */
  datatype Level = Level(plan: Plan, running: string, attempts: seq<Attempt>)

  function Opening(l: Level, d: Disk): World {
    World(d, Unrecorded, l.running)
  }

  /** `disks[j + 1]` is what committing `levels[j]` made of `disks[j]`, its plan having been
      drawn up from `disks[j]`. */
  ghost predicate Stack(stateDir: Path, levels: seq<Level>, disks: seq<Disk>) {
    && |disks| == |levels| + 1
    && (forall j | 0 <= j < |levels| ::
          && ValidPlan(levels[j].plan) && levels[j].plan.stateDir == stateDir
          && Journal(levels[j].plan, Opening(levels[j], disks[j])) && Serving(levels[j].plan, Opening(levels[j], disks[j]))
          && Session(levels[j].plan, Opening(levels[j], disks[j]), levels[j].attempts).status == Committed
          && Session(levels[j].plan, Opening(levels[j], disks[j]), levels[j].attempts).disk == disks[j + 1])
    && (forall j, k | 0 <= j < k < |levels| :: levels[j].plan.id != levels[k].plan.id)
  }

  /** Recovers the levels from the last to the first, undisturbed. */
  function Unwind(levels: seq<Level>, d: Disk, fates: seq<Fate>): Disk
    decreases |levels|
  {
    if levels == [] then d
    else
      var top := levels[|levels| - 1];
      Unwind(levels[..|levels| - 1], Perform(top.plan, World(d, Committed, top.running), Attempt(Recover(true), fates)).disk, fates)
  }

  /** No level keeps a file of its own there. */
  ghost predicate Public(levels: seq<Level>, path: Path) {
    forall l <- levels :: !PrivateTo(l.plan, path)
  }

  /** `c` agrees with `d` on the private files of the lowest levels and, in content and
      metadata, on every public path. */
  ghost predicate Like(all: seq<Level>, low: seq<Level>, c: Disk, d: Disk) {
    && c.dirs == d.dirs
    && (forall path, l | l in low && PrivateTo(l.plan, path) :: Read(c.files, path) == Read(d.files, path))
    && (forall path | Public(all, path) :: Matches(Read(c.files, path), Read(d.files, path), false))
  }

  lemma PrivateApart(p: Plan, q: Plan, path: Path)
    requires ValidPlan(p) && ValidPlan(q) && p.stateDir == q.stateDir && PrivateTo(p, path)
    ensures !TargetOf(q, path)
    ensures p.id != q.id ==> !PrivateTo(q, path)
  {
    hide Locate;
    var i: nat, a :| i < |p.entries| && a != Target && LocationOf(p, a, i) == path;
    forall j: nat, b | j < |q.entries| && LocationOf(q, b, j) == path ensures b != Target && p.id == q.id {
      PlacesDisjoint(p.stateDir, p.id, p.entries[i].path, i, a, q.id, q.entries[j].path, j, b);
    }
    if TargetOf(q, path) {
      var j: nat :| j < |q.entries| && q.entries[j].path == path;
      TargetIsPath(q, j);
    }
  }

  lemma OwnedIsTargetOrPrivate(p: Plan, path: Path)
    requires ValidPlan(p) && Owns(p, path)
    ensures TargetOf(p, path) || PrivateTo(p, path)
  {
    var i: nat, place :| i < |p.entries| && |p.entries[i].path| > 0 && place in {Target, Restore, Quarantine} && LocationOf(p, place, i) == path;
    if place == Target { TargetIsPath(p, i); }
    hide Locate;
  }

  /** A disk that is like the committed one can still serve the recovery. */
  lemma LikeIsSafe(all: seq<Level>, low: seq<Level>, top: Level, c: Disk, d: Disk)
    requires ValidPlan(top.plan) && Like(all, low, c, d) && top in low && Safe(top.plan, d)
    requires forall i: nat | i < |top.plan.entries| :: After(top.plan, d, i)
    requires forall i: nat | i < |top.plan.entries| :: Public(all, top.plan.entries[i].path)
    ensures Safe(top.plan, c)
  {
    var p := top.plan;
    hide Locate;
    forall i: nat | i < |p.entries| ensures SafeEntry(p, c, i) {
      forall place | place != Target ensures At(p, c, place, i) == At(p, d, place, i) {
        assert PrivateTo(p, LocationOf(p, place, i));
      }
      TargetIsPath(p, i);
      assert SafeEntry(p, d, i) && After(p, d, i);
      assert Public(all, p.entries[i].path);
      hide At;
    }
  }

  /** Undoing the top level takes a disk like the level's result to one like its origin. */
  lemma Peel(stateDir: Path, all: seq<Level>, levels: seq<Level>, disks: seq<Disk>, c: Disk, fates: seq<Fate>)
    requires Stack(stateDir, levels, disks) && levels != [] && levels <= all
    requires forall l <- all :: ValidPlan(l.plan) && l.plan.stateDir == stateDir
    requires Like(all, levels, c, disks[|levels|])
    requires AllDone(fates) && |fates| >= Enough(levels[|levels| - 1].plan)
    ensures var top := levels[|levels| - 1];
            var c' := Perform(top.plan, World(c, Committed, top.running), Attempt(Recover(true), fates)).disk;
            Like(all, levels[..|levels| - 1], c', disks[|levels| - 1])
  {
    hide At;
    hide Read;
    hide Execute;
    var m := |levels| - 1;
    var top := levels[m];
    var p, n := top.plan, |top.plan.entries|;
    var d, d1 := disks[m], disks[m + 1];
    JournalAgreesWithFiles(p, Opening(top, d), top.attempts);
    SessionConfined(p, Opening(top, d), top.attempts);
    PublicTargets(stateDir, all, p);
    LikeIsSafe(all, levels, top, c, d1);
    var w := World(c, Committed, top.running);
    var c' := Perform(p, w, Attempt(Recover(true), fates)).disk;
    SafeHasNoClash(p, c);
    RecoverOutcome(p, w, fates);
    UndoneRestores(p, c, c');
    forall path, l | l in levels[..m] && PrivateTo(l.plan, path) ensures Read(c'.files, path) == Read(d.files, path) {
      PrivateApart(l.plan, p, path);
      LevelsDiffer(stateDir, levels, disks, l);
      if Owns(p, path) { OwnedIsTargetOrPrivate(p, path); }
      assert l in levels;
    }
    forall path | Public(all, path) ensures Matches(Read(c'.files, path), Read(d.files, path), false) {
      assert top in all;
      if TargetOf(p, path) {
        var i: nat :| i < n && p.entries[i].path == path;
        TargetReads(p, c', i);
        TargetReads(p, d, i);
        assert PristineEntry(p, d, i) && Before(p, c', i);
      } else if Owns(p, path) {
        OwnedIsTargetOrPrivate(p, path);
      }
    }
  }

  lemma TargetReads(p: Plan, d: Disk, i: nat)
    requires ValidPlan(p) && i < |p.entries|
    ensures At(p, d, Target, i) == Read(d.files, p.entries[i].path)
  {
  }

  lemma LevelsDiffer(stateDir: Path, levels: seq<Level>, disks: seq<Disk>, l: Level)
    requires Stack(stateDir, levels, disks) && levels != [] && l in levels[..|levels| - 1]
    ensures l.plan.id != levels[|levels| - 1].plan.id && ValidPlan(l.plan) && l.plan.stateDir == stateDir
  {
    var j :| 0 <= j < |levels| - 1 && levels[j] == l;
  }

  lemma PublicTargets(stateDir: Path, all: seq<Level>, p: Plan)
    requires ValidPlan(p) && p.stateDir == stateDir
    requires forall l <- all :: ValidPlan(l.plan) && l.plan.stateDir == stateDir
    ensures forall i: nat | i < |p.entries| :: Public(all, p.entries[i].path)
  {
    forall i: nat, l | i < |p.entries| && l in all ensures !PrivateTo(l.plan, p.entries[i].path) {
      if PrivateTo(l.plan, p.entries[i].path) {
        PrivateApart(l.plan, p, p.entries[i].path);
        assert TargetOf(p, p.entries[i].path);
      }
    }
  }

  lemma {:induction false} UnwindFrom(stateDir: Path, all: seq<Level>, levels: seq<Level>, disks: seq<Disk>, c: Disk,
          fates: seq<Fate>)
    requires Stack(stateDir, levels, disks) && levels <= all
    requires forall l <- all :: ValidPlan(l.plan) && l.plan.stateDir == stateDir && |fates| >= Enough(l.plan)
    requires AllDone(fates) && Like(all, levels, c, disks[|levels|])
    ensures Like(all, [], Unwind(levels, c, fates), disks[0])
    decreases |levels|
  {
    hide Perform;
    hide Like;
    hide Enough;
    if levels != [] {
      var m := |levels| - 1;
      assert levels[m] in all by { assert levels[m] == all[m]; }
      Peel(stateDir, all, levels, disks, c, fates);
      var top := levels[m];
      Lower(stateDir, levels, disks);
      UnwindFrom(stateDir, all, levels[..m], disks[..m + 1],
                 Perform(top.plan, World(c, Committed, top.running), Attempt(Recover(true), fates)).disk, fates);
    }
  }

  lemma Lower(stateDir: Path, levels: seq<Level>, disks: seq<Disk>)
    requires Stack(stateDir, levels, disks) && levels != []
    ensures Stack(stateDir, levels[..|levels| - 1], disks[..|levels|])
  {
    hide Session;
    hide Journal;
    hide Serving;
    hide ValidPlan;
  }

  /** For any operations, each drawn up and committed on the result of the one before, with any
      overlap between their paths, recovering them in reverse order gives every path that is
      not one of their own files its first content and metadata again. */
  lemma StackedUndo(stateDir: Path, levels: seq<Level>, disks: seq<Disk>, fates: seq<Fate>)
    requires Stack(stateDir, levels, disks)
    requires AllDone(fates) && forall l <- levels :: |fates| >= Enough(l.plan)
    ensures var end := Unwind(levels, disks[|levels|], fates);
            && end.dirs == disks[0].dirs
            && forall path | Public(levels, path) :: Matches(Read(end.files, path), Read(disks[0].files, path), false)
  {
    hide Unwind;
    hide Enough;
    StackPlans(stateDir, levels, disks);
    UndoStart(levels, disks);
    hide Stack;
    UnwindFrom(stateDir, levels, levels, disks, disks[|levels|], fates);
  }

  lemma StackPlans(stateDir: Path, levels: seq<Level>, disks: seq<Disk>)
    requires Stack(stateDir, levels, disks)
    ensures |disks| == |levels| + 1
    ensures forall l <- levels :: ValidPlan(l.plan) && l.plan.stateDir == stateDir
  {
    hide Session;
    hide Journal;
    hide Serving;
    hide ValidPlan;
    forall l <- levels ensures ValidPlan(l.plan) && l.plan.stateDir == stateDir {
      var j :| 0 <= j < |levels| && levels[j] == l;
    }
  }

  lemma UndoStart(levels: seq<Level>, disks: seq<Disk>)
    requires |disks| == |levels| + 1
    ensures Like(levels, levels, disks[|levels|], disks[|levels|])
  {
  }
}
