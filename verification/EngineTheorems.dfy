/** The main results about one operation: a crash anywhere can be undone, the journal and
    the files agree as a prefix, and what a restoration does and does not preserve. */
module EngineTheorems {
  import opened Paths
  import opened RecoveryTypes
  import opened Engine
  import opened EngineSafety
  import opened EngineRollback

  // ------------------------------------------------------------- crash anywhere

  predicate Begun(s: Status) {
    s !in {Unrecorded, Preparing, PreparationFailed}
  }

  predicate OnlyService(p: Plan, s: Status) {
    p.service || s !in {Validating, ValidationFailed}
  }

  /** A prepared operation never becomes unprepared, and only a service is ever validated. */
  lemma StepStaysBegun(p: Plan, m: Machine, f: Fate)
    requires Inv(p, m) && Begun(m.world.status) && OnlyService(p, m.world.status)
    ensures Begun(Step(p, m, f).world.status) && OnlyService(p, Step(p, m, f).world.status)
  {
    hide At;
    hide Journal;
    hide Set;
    hide Undo;
  }

  lemma {:induction false} ExecuteStaysBegun(p: Plan, m: Machine, fates: seq<Fate>)
    requires Inv(p, m) && Begun(m.world.status) && OnlyService(p, m.world.status)
    ensures Begun(Execute(p, m, fates).world.status) && OnlyService(p, Execute(p, m, fates).world.status)
    decreases |fates|
  {
    if !m.pc.Idle? && fates != [] {
      StepStaysBegun(p, m, fates[0]);
      StepKeeps(p, m, fates[0]);
      ExecuteStaysBegun(p, Step(p, m, fates[0]), fates[1..]);
    }
  }

  lemma {:induction false} SessionStaysBegun(p: Plan, w: World, attempts: seq<Attempt>)
    requires ValidPlan(p) && Journal(p, w) && Serving(p, w)
    requires Begun(w.status) && OnlyService(p, w.status)
    ensures Begun(Session(p, w, attempts).status) && OnlyService(p, Session(p, w, attempts).status)
    decreases |attempts|
  {
    if attempts != [] {
      BeginKeeps(p, w, attempts[0].call);
      ExecuteKeeps(p, Start(p, w, attempts[0].call), attempts[0].fates);
      ExecuteStaysBegun(p, Start(p, w, attempts[0].call), attempts[0].fates);
      SessionStaysBegun(p, Perform(p, w, attempts[0]), attempts[1..]);
    }
  }

  lemma SafeHasNoClash(p: Plan, d: Disk)
    requires ValidPlan(p) && Safe(p, d)
    ensures AllIntact(p, d) && !AnyClash(p, d, |p.entries|)
  {
    hide At;
    forall i: nat | i < |p.entries| ensures Intact(p, d, i) && !Clashes(p, d, i) { assert SafeEntry(p, d, i); }
  }

  lemma UndoneRestores(p: Plan, d: Disk, d': Disk)
    requires ValidPlan(p) && Safe(p, d) && Undone(p, d, d', |p.entries|)
    ensures RestoredFrom(p, d', 0)
  {
    hide At;
    forall i: nat | i < |p.entries| ensures Before(p, d', i) {
      assert SafeEntry(p, d, i);
      assert !Clashes(p, d, i) && PutBack(p, d, d', i);
    }
  }

  lemma PristineIsUntouched(p: Plan, d: Disk)
    requires ValidPlan(p) && Pristine(p, d)
    ensures Untouched(p, d) && RestoredFrom(p, d, 0)
  {
    hide At;
    forall i: nat | i < |p.entries| ensures ReadMatching(p, d, i, p.entries[i].before, true) && Before(p, d, i) {
      assert PristineEntry(p, d, i);
    }
  }

  /** One undisturbed recovery of an operation that has been prepared. */
  lemma RecoverFinishes(p: Plan, w: World, fates: seq<Fate>)
    requires ValidPlan(p) && Journal(p, w) && Serving(p, w) && Begun(w.status)
    requires |fates| >= Enough(p) && AllDone(fates)
    ensures var m := Execute(p, Start(p, w, Recover(true)), fates);
            && RestoredFrom(p, m.world.disk, 0) && RunsBefore(p, m.world)
            && m.world.status == (if w.status == ValidationFailed then ValidationFailed else Recovered)
            && Succeeded(Recover(true), m) == (w.status != ValidationFailed)
  {
    hide At;
    if RollsBack(w.status) {
      if w.status == Validating { PristineIsSafe(p, w.disk); }
      SafeHasNoClash(p, w.disk);
      RecoverOutcome(p, w, fates);
      UndoneRestores(p, w.disk, Execute(p, Start(p, w, Recover(true)), fates).world.disk);
    } else if w.status in {Ready, ValidationFailed} {
      PristineIsUntouched(p, w.disk);
      if w.status == Ready { Steps(p, Start(p, w, Recover(true)), fates); }
    }
  }

  /** From a prepared operation, cut any number of applies, recoveries and reconciliations at
      any primitive, with any failures; one undisturbed recovery then puts every target back.
      A service whose staged configuration was rejected never left its original. */
  lemma CrashAnywhere(p: Plan, w: World, attempts: seq<Attempt>, fates: seq<Fate>)
    requires ValidPlan(p) && w.status == Ready && Journal(p, w) && Serving(p, w)
    requires |fates| >= Enough(p) && AllDone(fates)
    ensures var cut := Session(p, w, attempts);
            var end := Perform(p, cut, Attempt(Recover(true), fates));
            && RestoredFrom(p, end.disk, 0) && RunsBefore(p, end)
            && end.status == (if cut.status == ValidationFailed then ValidationFailed else Recovered)
            && (!p.service ==> end.status == Recovered)
  {
    JournalAgreesWithFiles(p, w, attempts);
    SessionStaysBegun(p, w, attempts);
    RecoverFinishes(p, Session(p, w, attempts), fates);
  }

  /** `Recovered` is absorbing: no later call, whatever its fate, changes anything. */
  lemma {:induction false} RecoveredIsFinal(p: Plan, w: World, attempts: seq<Attempt>)
    requires w.status == Recovered
    ensures Session(p, w, attempts) == w
    decreases |attempts|
  {
    if attempts != [] {
      assert Start(p, w, attempts[0].call).pc.Idle?;
      RecoveredIsFinal(p, w, attempts[1..]);
    }
  }

  // ------------------------------------------------------------- metadata

  /** What an undisturbed recovery gives back of an installed entry. A quarantined original
      returns as the very file that was reviewed. A rewritten one has the reviewed content,
      mode and owner, and its reviewed time exactly when that is a whole number of
      microseconds; a time of zero is not written at all. */
  lemma RestoredMetadata(p: Plan, w: World, i: nat, fates: seq<Fate>)
    requires ValidPlan(p) && RollsBack(w.status) && Safe(p, w.disk) && i < |p.entries|
    requires After(p, w.disk, i) && !Before(p, w.disk, i)
    requires |fates| >= Enough(p) && AllDone(fates)
    ensures var d, en := w.disk, p.entries[i];
            var fp := At(p, Perform(p, w, Attempt(Recover(true), fates)).disk, Target, i);
            && Matches(fp, en.before, false)
            && (en.action == Delete && At(p, d, Quarantine, i).Regular? ==> Matches(fp, en.before, true))
            && (en.action == Replace && At(p, d, Restore, i).Missing? && en.before.file.modified != 0 ==>
                  (fp.file.modified == en.before.file.modified <==> en.before.file.modified % 1000 == 0))
  {
    hide At;
    var d := w.disk;
    SafeHasNoClash(p, d);
    RecoverOutcome(p, w, fates);
    hide Execute;
    var d' := Perform(p, w, Attempt(Recover(true), fates)).disk;
    assert !Clashes(p, d, i) && PutBack(p, d, d', i);
    assert SafeEntry(p, d, i);
  }
}
