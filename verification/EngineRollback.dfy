/** What an uninterrupted restoration achieves, from whatever other programs and
    earlier crashes have left behind. */
module EngineRollback {
  import opened Paths
  import opened RecoveryTypes
  import opened Engine
  import opened EngineSafety

  predicate AllDone(fates: seq<Fate>) {
    forall f <- fates :: f.Done?
  }

  /** The target is neither the original nor this operation's output, or its parent was replaced. */
  predicate Clashes(p: Plan, d: Disk, i: nat)
    requires i < |p.entries|
  {
    !ParentOk(d, p.entries[i]) || (!Before(p, d, i) && !After(p, d, i))
  }

  ghost predicate AnyClash(p: Plan, d: Disk, n: nat) {
    exists i: nat | i < |p.entries| && i < n :: Clashes(p, d, i)
  }

  ghost predicate AllIntact(p: Plan, d: Disk) {
    forall i: nat | i < |p.entries| :: Intact(p, d, i)
  }

  /** A path that restoring this operation may write. */
  ghost predicate Owns(p: Plan, path: Path) {
    exists i: nat, place | i < |p.entries| && |p.entries[i].path| > 0 && place in {Target, Restore, Quarantine} ::
      LocationOf(p, place, i) == path
  }

  ghost predicate SameElsewhere(p: Plan, d: Disk, d': Disk) {
    d'.dirs == d.dirs && forall path | !Owns(p, path) :: Read(d'.files, path) == Read(d.files, path)
  }

  lemma SetElsewhere(p: Plan, d: Disk, place: Place, i: nat, fp: Fingerprint)
    requires ValidPlan(p) && i < |p.entries| && place in {Target, Restore, Quarantine}
    ensures SameElsewhere(p, d, Set(p, d, place, i, fp))
  {
    hide Locate;
    assert Owns(p, LocationOf(p, place, i));
  }

  /** What restoring entry `i` may change. */
  ghost predicate OnlyEntry(p: Plan, d: Disk, d': Disk, i: nat) {
    && SameElsewhere(p, d, d')
    && forall pl, j: nat | j < |p.entries| && j != i :: At(p, d', pl, j) == At(p, d, pl, j)
  }

  /** A new file written from the backup. */
  ghost predicate Rewritten(p: Plan, fp: Fingerprint, en: Entry) {
    en.before.Regular? && exists stamp :: fp == Written(p, en.parentId.device, en.before.file.content, en.before, stamp)
  }

  /** A clashing target is left alone; another is put back, and in which way is known. */
  ghost predicate PutBack(p: Plan, d: Disk, d': Disk, i: nat)
    requires i < |p.entries|
  {
    if Clashes(p, d, i) then At(p, d', Target, i) == At(p, d, Target, i)
    else
      && Before(p, d', i)
      && (Undo(p, d, i).MoveBack? ==> At(p, d', Target, i) == At(p, d, Quarantine, i))
      && (Undo(p, d, i).Stage? ==> Rewritten(p, At(p, d', Target, i), p.entries[i]))
  }

  /** `d'` is `d` with entry `i` put back, unless it clashed. */
  ghost predicate EntryRestored(p: Plan, d: Disk, d': Disk, i: nat)
    requires i < |p.entries|
  {
    OnlyEntry(p, d, d', i) && PutBack(p, d, d', i)
  }

  lemma MoveBackEntry(p: Plan, d: Disk, i: nat, from: Place)
    requires ValidPlan(p) && i < |p.entries| && from in {Restore, Quarantine}
    requires !Clashes(p, d, i) && Matches(At(p, d, from, i), p.entries[i].before, false)
    requires Undo(p, d, i).MoveBack? ==> from == Quarantine
    requires !Undo(p, d, i).Stage?
    ensures EntryRestored(p, d, Move(p, d, from, i), i)
  {
    MoveFrame(p, d, from, i);
    SetElsewhere(p, d, Target, i, At(p, d, from, i));
    SetElsewhere(p, Set(p, d, Target, i, At(p, d, from, i)), from, i, Missing);
    hide At;
    hide Set;
  }

  /** With intact artifacts, an entry is refused exactly when its target clashes. */
  lemma UndoMeans(p: Plan, d: Disk, i: nat)
    requires ValidPlan(p) && i < |p.entries| && Intact(p, d, i)
    ensures Undo(p, d, i).Conflict? <==> Clashes(p, d, i)
    ensures Undo(p, d, i).Nothing? <==> !Clashes(p, d, i) && Before(p, d, i)
  {
    hide At;
  }

  lemma StayPut(p: Plan, d: Disk, i: nat)
    requires ValidPlan(p) && i < |p.entries| && (Clashes(p, d, i) || Before(p, d, i))
    requires !Undo(p, d, i).Stage? && !Undo(p, d, i).MoveBack?
    ensures EntryRestored(p, d, d, i)
  {
    hide At;
  }

  lemma RemoveEntry(p: Plan, d: Disk, i: nat)
    requires ValidPlan(p) && i < |p.entries| && !Clashes(p, d, i) && p.entries[i].before.Missing?
    ensures EntryRestored(p, d, Set(p, d, Target, i, Missing), i)
  {
    hide At;
    SetFrame(p, d, Target, i, Missing);
    SetElsewhere(p, d, Target, i, Missing);
    assert At(p, Set(p, d, Target, i, Missing), Target, i) == Missing;
  }

  /** Staging the original, then renaming it onto the target. */
  lemma StageThenRename(p: Plan, w: World, i: nat, failed: bool, f: Fate, g: Fate) returns (d': Disk)
    requires ValidPlan(p) && i < |p.entries| && f.Done? && g.Done?
    requires !Clashes(p, w.disk, i) && Undo(p, w.disk, i).Stage? && Intact(p, w.disk, i)
    ensures EntryRestored(p, w.disk, d', i)
    ensures Step(p, Step(p, Machine(w, RestoreUndo(i + 1, failed)), f), g) == Machine(w.(disk := d'), AfterRestored(i, failed))
  {
    hide At;
    hide Set;
    hide Move;
    var d := w.disk;
    var en := p.entries[i];
    var staged := Written(p, en.parentId.device, At(p, d, Backup, i).file.content, en.before, f.stamp);
    var d1 := Set(p, d, Restore, i, staged);
    SetFrame(p, d, Restore, i, staged);
    SetElsewhere(p, d, Restore, i, staged);
    assert !Clashes(p, d1, i);
    d' := Move(p, d1, Restore, i);
    MoveFrame(p, d1, Restore, i);
    MoveBackEntry(p, d1, i, Restore);
    assert At(p, d', Target, i) == staged;
    assert Rewritten(p, staged, en);
    assert PutBack(p, d, d', i);
  }

  /** The disk after the one rename or removal that undoes entry `i`. */
  function UndoneInOne(p: Plan, d: Disk, i: nat): Disk
    requires i < |p.entries|
  {
    match Undo(p, d, i)
    case Remove => Set(p, d, Target, i, Missing)
    case MoveBack => Move(p, d, Quarantine, i)
    case _ => Move(p, d, Restore, i)
  }

  lemma UndoInOneRestores(p: Plan, d: Disk, i: nat)
    requires ValidPlan(p) && i < |p.entries| && Intact(p, d, i)
    requires var u := Undo(p, d, i); u.Remove? || u.MoveBack? || u.Reuse?
    ensures EntryRestored(p, d, UndoneInOne(p, d, i), i) && !Clashes(p, d, i)
  {
    hide At;
    hide Set;
    hide Move;
    hide EntryRestored;
    match Undo(p, d, i)
    case Remove => RemoveEntry(p, d, i);
    case MoveBack => MoveBackEntry(p, d, i, Quarantine);
    case _ => MoveBackEntry(p, d, i, Restore);
  }

  lemma UndoInOneSteps(p: Plan, w: World, i: nat, failed: bool, f: Fate, g: Fate)
    requires ValidPlan(p) && i < |p.entries| && f.Done? && g.Done? && Intact(p, w.disk, i)
    requires var u := Undo(p, w.disk, i); u.Remove? || u.MoveBack? || u.Reuse?
    ensures Step(p, Step(p, Machine(w, RestoreEntry(i + 1, failed)), f), g)
         == Machine(w.(disk := UndoneInOne(p, w.disk, i)), AfterRestored(i, failed))
  {
    hide At;
    hide Set;
    hide Move;
  }

  lemma TwoSteps(p: Plan, m: Machine, fates: seq<Fate>)
    requires !m.pc.Idle? && |fates| >= 2 && !Step(p, m, fates[0]).pc.Idle?
    ensures Execute(p, m, fates) == Execute(p, Step(p, Step(p, m, fates[0]), fates[1]), fates[2..])
  {
    assert fates[1..][1..] == fates[2..];
  }

  /** One entry of the restore loop, undisturbed. */
  lemma EntryRun(p: Plan, w: World, i: nat, failed: bool, fates: seq<Fate>) returns (d': Disk, used: nat)
    requires ValidPlan(p) && i < |p.entries| && Intact(p, w.disk, i)
    requires |fates| >= 3 && AllDone(fates)
    ensures 1 <= used <= 3
    ensures EntryRestored(p, w.disk, d', i)
    ensures Execute(p, Machine(w, RestoreEntry(i + 1, failed)), fates)
         == Execute(p, Machine(w.(disk := d'), AfterRestored(i, failed || Clashes(p, w.disk, i))), fates[used..])
  {
    hide At;
    hide Intact;
    hide Execute;
    hide EntryRestored;
    var d := w.disk;
    var m := Machine(w, RestoreEntry(i + 1, failed));
    var u := Undo(p, d, i);
    if u.Nothing? || u.Conflict? {
      d', used := d, 1;
      UndoMeans(p, d, i);
      StayPut(p, d, i);
      Steps(p, m, fates);
    } else if u.Stage? {
      d' := StageThenRename(p, w, i, failed, fates[1], fates[2]);
      used := 3;
      Steps(p, m, fates);
      TwoSteps(p, Step(p, m, fates[0]), fates[1..]);
      assert fates[1..][2..] == fates[3..];
    } else {
      d', used := UndoneInOne(p, d, i), 2;
      UndoInOneRestores(p, d, i);
      UndoInOneSteps(p, w, i, failed, fates[0], fates[1]);
      TwoSteps(p, m, fates);
    }
  }

  /** The entries before `left` are put back, except where they clashed. */
  ghost predicate Undone(p: Plan, d: Disk, d': Disk, left: nat) {
    && SameElsewhere(p, d, d')
    && (forall i: nat | i < |p.entries| && i < left ::
          PutBack(p, d, d', i))
    && (forall pl, i: nat | i < |p.entries| && left <= i :: At(p, d', pl, i) == At(p, d, pl, i))
  }

  /** Entry `left - 1` first, then the rest. */
  lemma UndoneCompose(p: Plan, d: Disk, d1: Disk, d': Disk, left: nat)
    requires ValidPlan(p) && 0 < left <= |p.entries|
    requires EntryRestored(p, d, d1, left - 1) && Undone(p, d1, d', left - 1)
    ensures Undone(p, d, d', left)
    ensures AnyClash(p, d, left) == (Clashes(p, d, left - 1) || AnyClash(p, d1, left - 1))
  {
    hide At;
    forall i: nat | i < left - 1
      ensures Clashes(p, d1, i) == Clashes(p, d, i) && At(p, d1, Target, i) == At(p, d, Target, i)
      ensures Undo(p, d1, i) == Undo(p, d, i) && PutBack(p, d, d', i)
    {
      assert PutBack(p, d1, d', i);
    }
    assert PutBack(p, d, d', left - 1);
    if AnyClash(p, d, left) && !Clashes(p, d, left - 1) {
      var i: nat :| i < left && Clashes(p, d, i);
      assert Clashes(p, d1, i);
    }
    if AnyClash(p, d1, left - 1) {
      var i: nat :| i < left - 1 && Clashes(p, d1, i);
      assert Clashes(p, d, i);
    }
  }

  /** The restore loop, undisturbed, over the entries before `left`. */
  lemma {:induction false} LoopRun(p: Plan, w: World, left: nat, failed: bool, fates: seq<Fate>) returns (d': Disk,
          used: nat)
    requires ValidPlan(p) && left <= |p.entries|
    requires forall i: nat | i < left :: Intact(p, w.disk, i)
    requires |fates| >= 3 * left && AllDone(fates)
    ensures used <= 3 * left
    ensures Undone(p, w.disk, d', left)
    ensures Execute(p, Machine(w, AfterRestored(left, failed)), fates)
         == Execute(p, Machine(w.(disk := d'), AfterRestored(0, failed || AnyClash(p, w.disk, left))), fates[used..])
    decreases left
  {
    hide At;
    hide Execute;
    if left == 0 {
      d', used := w.disk, 0;
    } else {
      var d1, n := EntryRun(p, w, left - 1, failed, fates);
      var w1 := w.(disk := d1);
      forall i: nat | i < left - 1 ensures Intact(p, d1, i) { assert Intact(p, w.disk, i); }
      var rest;
      d', rest := LoopRun(p, w1, left - 1, failed || Clashes(p, w.disk, left - 1), fates[n..]);
      used := n + rest;
      UndoneCompose(p, w.disk, d1, d', left);
      assert fates[n..][rest..] == fates[used..];
    }
  }

  /** The statuses from which a recovery restores files. */
  predicate RollsBack(s: Status) {
    s in {Applying, Verifying, Committed, Unknown, RollingBack, RecoveryFailed, Validating}
  }

  function Enough(p: Plan): nat { 3 * |p.entries| + 4 }

  lemma NoClashMatches(p: Plan, d: Disk, d': Disk)
    requires Undone(p, d, d', |p.entries|)
    ensures !AnyClash(p, d, |p.entries|) ==> AllMatch(p, d', false)
  {
    hide At;
    if !AnyClash(p, d, |p.entries|) {
      forall i: nat | i < |p.entries| ensures ReadMatching(p, d', i, p.entries[i].before, false) {
        assert !Clashes(p, d, i);
        assert PutBack(p, d, d', i) && Before(p, d', i);
      }
    }
  }

  /** From the end of the loop to the final status. */
  lemma Finish(p: Plan, w: World, failed: bool, fates: seq<Fate>)
    requires ValidPlan(p) && |fates| >= 3 && AllDone(fates)
    requires !failed ==> AllMatch(p, w.disk, false)
    ensures var m := Execute(p, Machine(w, AfterRestored(0, failed)), fates);
            && m.pc == Idle(!failed) && m.world.disk == w.disk
            && m.world.status == (if failed then RecoveryFailed else Recovered)
            && (!failed ==> (p.service ==> m.world.running == p.entries[0].before.file.content) && (!p.service ==> m.world.running == w.running))
  {
    hide At;
    var m := Machine(w, AfterRestored(0, failed));
    Steps(p, m, fates);
    if !failed {
      Steps(p, Step(p, m, fates[0]), fates[1..]);
      if p.service {
        assert ReadMatching(p, w.disk, 0, p.entries[0].before, false);
        assert fates[1..][1..] == fates[2..];
        Steps(p, Step(p, Step(p, m, fates[0]), fates[1]), fates[2..]);
      }
    }
  }

  /** An undisturbed recovery: every entry that holds the original or the output is put back,
      past any failure; every other target, and every path the operation does not own, is left
      as it was; and the outcome is `Recovered` exactly when nothing clashed. */
  lemma RecoverOutcome(p: Plan, w: World, fates: seq<Fate>)
    requires ValidPlan(p) && AllIntact(p, w.disk) && RollsBack(w.status)
    requires |fates| >= Enough(p) && AllDone(fates)
    ensures var m := Execute(p, Start(p, w, Recover(true)), fates);
            var clash := AnyClash(p, w.disk, |p.entries|);
            && Undone(p, w.disk, m.world.disk, |p.entries|)
            && m.world.status == (if clash then RecoveryFailed else Recovered)
            && Succeeded(Recover(true), m) == !clash
            && (!clash && p.service ==> m.world.running == p.entries[0].before.file.content)
  {
    hide At;
    var n := |p.entries|;
    var m := Start(p, w, Recover(true));
    assert m.pc == RollbackRecord;
    hide Begin;
    Steps(p, m, fates);
    var w1 := w.(status := RollingBack);
    assert Step(p, m, fates[0]) == Machine(w1, AfterRestored(n, false));
    hide Step;
    var d', used := LoopRun(p, w1, n, false, fates[1..]);
    hide Execute;
    NoClashMatches(p, w.disk, d');
    Finish(p, w1.(disk := d'), AnyClash(p, w.disk, n), fates[1..][used..]);
  }
}
