/** The prefix shape: the first entries of an operation installed, the rest at their
    originals. Exactly which steps of the engine lose it, and which give it back. */
module EnginePrefix {
  import opened Paths
  import opened RecoveryTypes
  import opened Engine
  import opened EngineSafety
  import opened EngineRollback
  import opened EngineTheorems

  /** Exactly the first `k` entries are installed. */
  ghost predicate PrefixAt(p: Plan, d: Disk, k: nat) {
    && k <= |p.entries|
    && (forall i: nat | i < k && i < |p.entries| :: After(p, d, i))
    && RestoredFrom(p, d, k)
  }

  ghost predicate Prefix(p: Plan, d: Disk) {
    exists k: nat :: PrefixAt(p, d, k)
  }

  lemma InstalledIsPrefix(p: Plan, d: Disk, k: nat)
    requires ValidPlan(p) && Installed(p, d, k) && k <= |p.entries|
    ensures Prefix(p, d)
  {
    hide At;
    forall i: nat | i < |p.entries| && k <= i ensures Before(p, d, i) { assert Exact(p, d, i); }
    assert PrefixAt(p, d, k);
  }

  lemma PristineIsPrefix(p: Plan, d: Disk)
    requires ValidPlan(p) && Pristine(p, d)
    ensures Prefix(p, d)
  {
    hide At;
    PristineIsUntouched(p, d);
    assert PrefixAt(p, d, 0);
  }

  /** An effect whose report was lost is the same effect. */
  lemma SameEffect(p: Plan, m: Machine, stamp: Stamp)
    requires m.pc.ApplyEntry? || m.pc.ApplyStaged?
    ensures Step(p, m, Unsynced(stamp)).world.disk == Step(p, m, Done(stamp)).world.disk
    ensures var m' := Step(p, m, Done(stamp));
            m'.world.disk == m.world.disk || m'.pc.ApplyEntry? || m'.pc.ApplyStaged? || m'.pc.ApplyVerifying?
  {
    hide At;
    hide Set;
    hide Move;
  }

  /** Where apply stands, the files are a prefix. */
  lemma ApplyingIsPrefix(p: Plan, m: Machine)
    requires Inv(p, m) && (m.pc.ApplyEntry? || m.pc.ApplyStaged? || m.pc.ApplyVerifying?)
    ensures Prefix(p, m.world.disk)
  {
    hide At;
    hide Prefix;
    hide Installed;
    hide Safe;
    hide Step;
    InstalledIsPrefix(p, m.world.disk, if m.pc.ApplyVerifying? then |p.entries| else m.pc.i);
  }

  lemma ApplyKeepsPrefix(p: Plan, m: Machine, f: Fate)
    requires Inv(p, m) && (m.pc.ApplyEntry? || m.pc.ApplyStaged?)
    ensures Prefix(p, Step(p, m, f).world.disk)
  {
    ApplyingIsPrefix(p, m);
    hide At;
    hide Prefix;
    hide Inv;
    if f.Done? || f.Unsynced? {
      hide Step;
      StepKeeps(p, m, Done(f.stamp));
      SameEffect(p, m, f.stamp);
      var m' := Step(p, m, Done(f.stamp));
      if m'.pc.ApplyEntry? || m'.pc.ApplyStaged? || m'.pc.ApplyVerifying? { ApplyingIsPrefix(p, m'); }
    } else {
      RefusedKeeps(p, m, f);
    }
  }

  lemma RefusedKeeps(p: Plan, m: Machine, f: Fate)
    requires (m.pc.ApplyEntry? || m.pc.ApplyStaged?) && !f.Done? && !f.Unsynced?
    ensures Step(p, m, f).world == m.world
  {
    hide At;
    hide Set;
    hide Move;
  }

  // ------------------------------------------------------------- putting one entry back

  /** The outputs of entry `i` and its original really differ. */
  predicate Differs(p: Plan, i: nat)
    requires i < |p.entries|
  {
    !Matches(p.entries[i].before, p.entries[i].after, false)
  }

  /** The next primitive puts an original back in place of the output: a removal, a move back
      from quarantine or the rename of a staged original, and it takes effect. */
  predicate PutsBack(p: Plan, m: Machine, f: Fate) {
    && (f.Done? || f.Unsynced?)
    && (m.pc.RestoreUndo? || m.pc.RestoreStaged?) && 0 < m.pc.left <= |p.entries|
    && var d, i := m.world.disk, m.pc.left - 1;
       if m.pc.RestoreUndo? then Undo(p, d, i) in {Remove, MoveBack}
       else At(p, d, Restore, i).Regular? && After(p, d, i)
  }

  /** A step of restoration touches at most its own target, and only to put it back. */
  lemma RestoreTouchesOne(p: Plan, m: Machine, f: Fate)
    requires Inv(p, m) && (m.pc.RestoreUndo? || m.pc.RestoreStaged?)
    ensures var d, d', i := m.world.disk, Step(p, m, f).world.disk, m.pc.left - 1;
            && (forall j: nat | j < |p.entries| && j != i :: At(p, d', Target, j) == At(p, d, Target, j))
            && if PutsBack(p, m, f) then After(p, d, i) && Before(p, d', i) else At(p, d', Target, i) == At(p, d, Target, i)
  {
    hide At;
    hide Set;
    hide Move;
    hide Journal;
    var d, i := m.world.disk, m.pc.left - 1;
    if m.pc.RestoreStaged? {
      MoveFrame(p, d, Restore, i);
    } else {
      match Undo(p, d, i)
      case Remove => SetFrame(p, d, Target, i, Missing);
      case MoveBack => MoveFrame(p, d, Quarantine, i);
      case Stage =>
        var staged := Written(p, p.entries[i].parentId.device, At(p, d, Backup, i).file.content, p.entries[i].before, StampOf(f));
        SetFrame(p, d, Restore, i, staged);
      case _ =>
    }
  }

  /** The entries below `i` are a prefix among themselves. */
  ghost predicate PrefixBelow(p: Plan, d: Disk, i: nat) {
    exists k: nat :: PrefixBelowAt(p, d, i, k)
  }

  ghost predicate PrefixBelowAt(p: Plan, d: Disk, i: nat, k: nat) {
    && k <= i <= |p.entries|
    && (forall j: nat | j < k :: After(p, d, j))
    && (forall j: nat | k <= j < i :: Before(p, d, j))
  }

  /** Only entry `i` changes, from its output to its original. */
  ghost predicate OnePutBack(p: Plan, d: Disk, d': Disk, i: nat) {
    && i < |p.entries|
    && (forall j: nat | j < |p.entries| && j != i :: At(p, d', Target, j) == At(p, d, Target, j))
    && After(p, d, i) && Before(p, d', i)
  }

  /** What a disk looks like once entry `i` has been put back, whatever it looked like before. */
  lemma PutBackDecides(p: Plan, d: Disk, d': Disk, i: nat)
    requires OnePutBack(p, d, d', i) && Differs(p, i)
    ensures Prefix(p, d') <==> RestoredFrom(p, d, i + 1) && PrefixBelow(p, d, i)
  {
    hide At;
    assert !After(p, d', i);
    if Prefix(p, d') {
      var k: nat :| PrefixAt(p, d', k);
      assert k <= i;
      forall j: nat | j < |p.entries| && i + 1 <= j ensures Before(p, d, j) { assert Before(p, d', j); }
      forall j: nat | j < i ensures if j < k then After(p, d, j) else Before(p, d, j) {
        if j < k { assert After(p, d', j); } else { assert Before(p, d', j); }
      }
      assert PrefixBelowAt(p, d, i, k);
    }
    if RestoredFrom(p, d, i + 1) && PrefixBelow(p, d, i) {
      var k: nat :| PrefixBelowAt(p, d, i, k);
      forall j: nat | j < |p.entries| ensures if j < k then After(p, d', j) else Before(p, d', j) {
        if j < i && j < k { assert After(p, d, j); }
        if k <= j < i { assert Before(p, d, j); }
        if i < j { assert Before(p, d, j); }
      }
      assert PrefixAt(p, d', k);
    }
  }

  /** An entry whose output is its original again makes no difference. */
  lemma SameShape(p: Plan, d: Disk, d': Disk, i: nat)
    requires i < |p.entries|
    requires forall j: nat | j < |p.entries| && j != i :: At(p, d', Target, j) == At(p, d, Target, j)
    requires At(p, d', Target, i) == At(p, d, Target, i) || (After(p, d, i) && Before(p, d', i) && !Differs(p, i))
    ensures Prefix(p, d') <==> Prefix(p, d)
  {
    hide At;
    forall j: nat | j < |p.entries| ensures Before(p, d', j) == Before(p, d, j) && After(p, d', j) == After(p, d, j) {
    }
    forall k: nat ensures PrefixAt(p, d', k) <==> PrefixAt(p, d, k) {
      hide Before;
      hide After;
    }
  }

  /** Every step decides the shape: putting a really different entry back leaves a prefix
      exactly when everything above it is back and everything below it is a prefix; any other
      step leaves the shape as it was. */
  lemma StepDecidesPrefix(p: Plan, m: Machine, f: Fate)
    requires Inv(p, m)
    ensures var d := m.world.disk;
      Prefix(p, Step(p, m, f).world.disk) <==>
        if PutsBack(p, m, f) && Differs(p, m.pc.left - 1)
        then RestoredFrom(p, d, m.pc.left) && PrefixBelow(p, d, m.pc.left - 1)
        else Prefix(p, d)
  {
    hide At;
    hide Set;
    hide Move;
    hide Undo;
    if m.pc.ApplyEntry? || m.pc.ApplyStaged? {
      ApplyingIsPrefix(p, m);
      ApplyKeepsPrefix(p, m, f);
    } else if m.pc.RestoreUndo? || m.pc.RestoreStaged? {
      RestoreDecidesPrefix(p, m, f);
    } else if m.pc.PrepareBackup? || m.pc.PrepareCandidate? {
      StepKeeps(p, m, f);
      PristineIsPrefix(p, m.world.disk);
      PristineIsPrefix(p, Step(p, m, f).world.disk);
    } else {
      hide Prefix;
      hide Journal;
    }
  }

  lemma RestoreDecidesPrefix(p: Plan, m: Machine, f: Fate)
    requires Inv(p, m) && (m.pc.RestoreUndo? || m.pc.RestoreStaged?)
    ensures 0 < m.pc.left <= |p.entries|
    ensures var d, i := m.world.disk, m.pc.left - 1;
      Prefix(p, Step(p, m, f).world.disk) <==>
        if PutsBack(p, m, f) && Differs(p, i) then RestoredFrom(p, d, i + 1) && PrefixBelow(p, d, i) else Prefix(p, d)
  {
    var d, d', i := m.world.disk, Step(p, m, f).world.disk, m.pc.left - 1;
    RestoreTouchesOne(p, m, f);
    hide Step;
    hide Journal;
    hide Undo;
    hide At;
    hide Prefix;
    hide Before;
    hide After;
    if PutsBack(p, m, f) && Differs(p, i) {
      PutBackDecides(p, d, d', i);
    } else {
      SameShape(p, d, d', i);
    }
  }

  // ------------------------------------------------------------- whole sessions

  /** The one kind of step that loses the shape: an undo that takes effect on a really
      different entry while some later entry is not back. */
  ghost predicate Breaks(p: Plan, m: Machine, f: Fate) {
    PutsBack(p, m, f) && Differs(p, m.pc.left - 1) && !RestoredFrom(p, m.world.disk, m.pc.left)
  }

  lemma BelowIsPrefix(p: Plan, d: Disk, i: nat)
    requires Prefix(p, d) && i < |p.entries| && After(p, d, i) && Differs(p, i)
    ensures PrefixBelow(p, d, i)
  {
    hide At;
    var k: nat :| PrefixAt(p, d, k);
    assert !Before(p, d, i);
    assert PrefixBelowAt(p, d, i, i);
  }

  lemma StepKeepsPrefixUnlessBreaks(p: Plan, m: Machine, f: Fate)
    requires Inv(p, m) && Prefix(p, m.world.disk)
    ensures Prefix(p, Step(p, m, f).world.disk) <==> !Breaks(p, m, f)
  {
    StepDecidesPrefix(p, m, f);
    if PutsBack(p, m, f) && Differs(p, m.pc.left - 1) {
      RestoreTouchesOne(p, m, f);
      BelowIsPrefix(p, m.world.disk, m.pc.left - 1);
    }
    hide Step;
    hide Inv;
  }

  /** Every state of this run is a prefix. */
  ghost predicate AlwaysPrefix(p: Plan, m: Machine, fates: seq<Fate>)
    decreases |fates|
  {
    && Prefix(p, m.world.disk)
    && (m.pc.Idle? || fates == [] || AlwaysPrefix(p, Step(p, m, fates[0]), fates[1..]))
  }

  ghost predicate NeverBreaks(p: Plan, m: Machine, fates: seq<Fate>)
    decreases |fates|
  {
    m.pc.Idle? || fates == [] || (!Breaks(p, m, fates[0]) && NeverBreaks(p, Step(p, m, fates[0]), fates[1..]))
  }

  lemma {:induction false} RunIsPrefix(p: Plan, m: Machine, fates: seq<Fate>)
    requires Inv(p, m) && Prefix(p, m.world.disk)
    ensures AlwaysPrefix(p, m, fates) <==> NeverBreaks(p, m, fates)
    ensures AlwaysPrefix(p, m, fates) ==> Prefix(p, Execute(p, m, fates).world.disk)
    decreases |fates|
  {
    hide Inv;
    hide Step;
    hide Prefix;
    hide Breaks;
    if !m.pc.Idle? && fates != [] {
      StepKeeps(p, m, fates[0]);
      StepKeepsPrefixUnlessBreaks(p, m, fates[0]);
      if Prefix(p, Step(p, m, fates[0]).world.disk) {
        RunIsPrefix(p, Step(p, m, fates[0]), fates[1..]);
      }
    }
  }

  ghost predicate SessionIsPrefix(p: Plan, w: World, attempts: seq<Attempt>)
    decreases |attempts|
  {
    && Prefix(p, w.disk)
    && (attempts == []
        || (AlwaysPrefix(p, Start(p, w, attempts[0].call), attempts[0].fates)
            && SessionIsPrefix(p, Perform(p, w, attempts[0]), attempts[1..])))
  }

  ghost predicate SessionNeverBreaks(p: Plan, w: World, attempts: seq<Attempt>)
    decreases |attempts|
  {
    || attempts == []
    || (NeverBreaks(p, Start(p, w, attempts[0].call), attempts[0].fates)
        && SessionNeverBreaks(p, Perform(p, w, attempts[0]), attempts[1..]))
  }

  /** Over any calls cut anywhere, with any failures: every durable state is a prefix of the
      operation if and only if no step undoes a really different entry while some later entry
      is not back. */
  lemma {:induction false} FilesArePrefix(p: Plan, w: World, attempts: seq<Attempt>)
    requires ValidPlan(p) && Journal(p, w) && Serving(p, w) && Prefix(p, w.disk)
    ensures SessionIsPrefix(p, w, attempts) <==> SessionNeverBreaks(p, w, attempts)
    decreases |attempts|
  {
    hide Journal;
    hide Serving;
    hide Prefix;
    hide Control;
    if attempts != [] {
      var m := Start(p, w, attempts[0].call);
      assert m.world.disk == w.disk;
      BeginKeeps(p, w, attempts[0].call);
      ExecuteKeeps(p, m, attempts[0].fates);
      RunIsPrefix(p, m, attempts[0].fates);
      hide Start;
      hide Execute;
      if AlwaysPrefix(p, m, attempts[0].fates) {
        FilesArePrefix(p, Perform(p, w, attempts[0]), attempts[1..]);
      }
    }
  }

  // ------------------------------------------------------------- losing it and regaining it

  /** The shape at the end of a run, from the shape at its start. */
  ghost predicate ShapeAfter(p: Plan, m: Machine, fates: seq<Fate>, shape: bool)
    decreases |fates|
  {
    if m.pc.Idle? || fates == [] then shape
    else
      var d := m.world.disk;
      var next := if PutsBack(p, m, fates[0]) && Differs(p, m.pc.left - 1)
                  then RestoredFrom(p, d, m.pc.left) && PrefixBelow(p, d, m.pc.left - 1)
                  else shape;
      ShapeAfter(p, Step(p, m, fates[0]), fates[1..], next)
  }

  lemma {:induction false} RunShape(p: Plan, m: Machine, fates: seq<Fate>)
    requires Inv(p, m)
    ensures Prefix(p, Execute(p, m, fates).world.disk) <==> ShapeAfter(p, m, fates, Prefix(p, m.world.disk))
    decreases |fates|
  {
    hide Inv;
    hide Step;
    hide Prefix;
    if !m.pc.Idle? && fates != [] {
      StepKeeps(p, m, fates[0]);
      StepDecidesPrefix(p, m, fates[0]);
      hide PutsBack;
      RunShape(p, Step(p, m, fates[0]), fates[1..]);
    }
  }

  ghost predicate SessionShape(p: Plan, w: World, attempts: seq<Attempt>, shape: bool)
    decreases |attempts|
  {
    if attempts == [] then shape
    else
      SessionShape(p, Perform(p, w, attempts[0]), attempts[1..],
                   ShapeAfter(p, Start(p, w, attempts[0].call), attempts[0].fates, shape))
  }

  /** From any disk, prefix or not: a session ends in a prefix exactly when the last undo of a
      really different entry left everything above it back and everything below it a prefix,
      and, without any such undo, exactly when it began in one. */
  lemma {:induction false} SessionDecidesPrefix(p: Plan, w: World, attempts: seq<Attempt>)
    requires ValidPlan(p) && Journal(p, w) && Serving(p, w)
    ensures Prefix(p, Session(p, w, attempts).disk) <==> SessionShape(p, w, attempts, Prefix(p, w.disk))
    decreases |attempts|
  {
    hide Journal;
    hide Serving;
    hide Prefix;
    hide Control;
    if attempts != [] {
      var m := Start(p, w, attempts[0].call);
      assert m.world.disk == w.disk;
      BeginKeeps(p, w, attempts[0].call);
      ExecuteKeeps(p, m, attempts[0].fates);
      RunShape(p, m, attempts[0].fates);
      hide Start;
      hide Execute;
      hide ShapeAfter;
      SessionDecidesPrefix(p, Perform(p, w, attempts[0]), attempts[1..]);
    }
  }

  /** However it was lost, one undisturbed recovery gives the shape back. */
  lemma ShapeIsRegained(p: Plan, w: World, attempts: seq<Attempt>, fates: seq<Fate>)
    requires ValidPlan(p) && w.status == Ready && Journal(p, w) && Serving(p, w)
    requires |fates| >= Enough(p) && AllDone(fates)
    ensures Prefix(p, Perform(p, Session(p, w, attempts), Attempt(Recover(true), fates)).disk)
  {
    CrashAnywhere(p, w, attempts, fates);
    hide Session;
    hide Perform;
    assert PrefixAt(p, Perform(p, Session(p, w, attempts), Attempt(Recover(true), fates)).disk, 0);
  }

  /** The last entry skipped after a failed read, the rest restored. */
  lemma SkipLast(p: Plan, w: World, fates: seq<Fate>) returns (d': Disk)
    requires ValidPlan(p) && |p.entries| >= 2 && w.status == Committed && Safe(p, w.disk)
    requires |fates| >= Enough(p) && AllDone(fates)
    ensures Perform(p, w, Attempt(Recover(true), [fates[0], Refused] + fates)).disk == d'
    ensures Undone(p, w.disk, d', |p.entries| - 1)
  {
    hide At;
    var n := |p.entries|;
    var all := [fates[0], Refused] + fates;
    var w1 := w.(status := RollingBack);
    SafeHasNoClash(p, w.disk);
    assert Step(p, Step(p, Start(p, w, Recover(true)), all[0]), all[1]) == Machine(w1, AfterRestored(n - 1, true));
    TwoSteps(p, Start(p, w, Recover(true)), all);
    assert all[2..] == fates;
    hide Step;
    hide Execute;
    var used;
    d', used := LoopRun(p, w1, n - 1, true, fates);
    Finish(p, w1.(disk := d'), true, fates[used..]);
  }

  /** Such a run exists: one failed read while restoring the last of several entries that really differ leaves it installed above restored ones. */
  lemma PrefixBreaks(p: Plan, w: World, fates: seq<Fate>)
    requires ValidPlan(p) && |p.entries| >= 2 && w.status == Committed && Journal(p, w)
    requires forall i: nat | i < |p.entries| :: !Matches(p.entries[i].before, p.entries[i].after, false)
    requires |fates| >= Enough(p) && AllDone(fates)
    ensures Prefix(p, w.disk)
    ensures !Prefix(p, Perform(p, w, Attempt(Recover(true), [fates[0], Refused] + fates)).disk)
  {
    hide At;
    hide Perform;
    var n := |p.entries|;
    InstalledIsPrefix(p, w.disk, n);
    SafeHasNoClash(p, w.disk);
    var d' := SkipLast(p, w, fates);
    assert !Clashes(p, w.disk, 0) && PutBack(p, w.disk, d', 0);
    assert After(p, w.disk, n - 1);
    NotPrefix(p, d');
  }

  lemma NotPrefix(p: Plan, d: Disk)
    requires |p.entries| >= 2 && Before(p, d, 0) && !After(p, d, 0) && !Before(p, d, |p.entries| - 1)
    ensures !Prefix(p, d)
  {
    hide At;
    forall k: nat ensures !PrefixAt(p, d, k) {
      var i: nat := if k == 0 then |p.entries| - 1 else 0;
    }
  }
}
