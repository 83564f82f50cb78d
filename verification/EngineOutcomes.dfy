/** What calls achieve: an undisturbed prepare, apply, recovery or reconciliation, the same with
    one primitive that fails, and the calls that are refused. */
module EngineOutcomes {
  import opened Paths
  import opened RecoveryTypes
  import opened Engine
  import opened EngineSafety
  import opened EngineRollback
  import opened EngineTheorems

  // ------------------------------------------------------------- an apply on its way

  /** Nothing is staged or quarantined from entry `i` on. */
  ghost predicate Clear(p: Plan, d: Disk, i: nat) {
    forall j: nat | j < |p.entries| && i <= j :: At(p, d, Quarantine, j).Missing? && At(p, d, Pending, j).Missing?
  }

  /** Exactly the entries before `i` are installed, and the next may be. */
  ghost predicate Going(p: Plan, d: Disk, i: nat) {
    i <= |p.entries| && Safe(p, d) && Installed(p, d, i) && Clear(p, d, i)
  }

  /** An apply in which nothing has failed. */
  ghost predicate OnTrack(p: Plan, m: Machine) {
    var w, d := m.world, m.world.disk;
    match m.pc
    case Idle(ok) => ok && w.status == Committed && Safe(p, d) && Installed(p, d, |p.entries|) && RunsAfter(p, w)
    case ApplyValidating => p.service && w.status == Ready && Going(p, d, 0)
    case ApplyBaseline => p.service && w.status == Validating && Going(p, d, 0)
    case ApplyRecord => w.status == (if p.service then Validating else Ready) && Going(p, d, 0)
    case ApplyEntry(i) => i < |p.entries| && w.status == Applying && Going(p, d, i)
    case ApplyStaged(i) =>
      && i < |p.entries| && w.status == Applying && Safe(p, d) && Installed(p, d, i) && Clear(p, d, i + 1)
      && Matches(At(p, d, Pending, i), p.entries[i].after, false) && At(p, d, Pending, i).Regular?
    case ApplyVerifying => w.status == Applying && Going(p, d, |p.entries|)
    case ApplyVerify => w.status == Verifying && Going(p, d, |p.entries|)
    case ApplyReload => p.service && w.status == Verifying && Going(p, d, |p.entries|)
    case ApplyCommit => w.status == Verifying && Going(p, d, |p.entries|) && RunsAfter(p, w)
    case _ => false
  }

  /** How many primitives are left to a commit. */
  function Left(p: Plan, pc: Pc): nat {
    var n := |p.entries|;
    match pc
    case ApplyValidating => 2 * n + 7
    case ApplyBaseline => 2 * n + 6
    case ApplyRecord => 2 * n + 5
    case ApplyEntry(i) => if i < n then 2 * (n - i) + 4 else 0
    case ApplyStaged(i) => if i < n then 2 * (n - i) + 3 else 0
    case ApplyVerifying => 4
    case ApplyVerify => 3
    case ApplyReload => 2
    case ApplyCommit => 1
    case _ => 0
  }

  lemma PristineIsGoing(p: Plan, d: Disk)
    requires ValidPlan(p) && Pristine(p, d) && Preserved(p, d, |p.entries|)
    ensures Going(p, d, 0)
  {
    hide At;
    PristineIsSafe(p, d);
    forall j: nat | j < |p.entries| ensures At(p, d, Quarantine, j).Missing? && At(p, d, Pending, j).Missing? {
      assert PristineEntry(p, d, j);
    }
  }

  lemma InstalledMatches(p: Plan, d: Disk)
    requires ValidPlan(p) && Safe(p, d) && Installed(p, d, |p.entries|)
    ensures AllMatch(p, d, true)
  {
    hide At;
    forall i: nat | i < |p.entries| ensures ReadMatching(p, d, i, p.entries[i].after, false) {
      assert SafeEntry(p, d, i) && After(p, d, i);
    }
  }

  lemma DeletedGoesOn(p: Plan, d: Disk, i: nat)
    requires ValidPlan(p) && i < |p.entries| && Going(p, d, i) && p.entries[i].action == Delete
    ensures ReadMatching(p, d, i, p.entries[i].before, true) && p.entries[i].before.Regular?
    ensures Going(p, Set(p, Set(p, d, Quarantine, i, At(p, d, Target, i)), Target, i, Missing), i + 1)
  {
    hide At;
    hide Set;
    assert SafeEntry(p, d, i) && Exact(p, d, i);
    QuarantineTarget(p, d, i);
  }

  /** What staging entry `i` writes. */
  function Candidates(p: Plan, d: Disk, i: nat, f: Fate): Fingerprint
    requires i < |p.entries| && At(p, d, Candidate, i).Regular?
  {
    Written(p, p.entries[i].parentId.device, At(p, d, Candidate, i).file.content, p.entries[i].after, StampOf(f))
  }

  lemma StagedGoesOn(p: Plan, d: Disk, i: nat, f: Fate)
    requires ValidPlan(p) && i < |p.entries| && Going(p, d, i) && p.entries[i].action != Delete
    ensures ReadMatching(p, d, i, p.entries[i].before, true) && p.entries[i].after.Regular?
    ensures ArtifactOk(p, At(p, d, Candidate, i), p.entries[i].after.file.content)
    ensures var d' := Set(p, d, Pending, i, Candidates(p, d, i, f));
      && Safe(p, d') && Installed(p, d', i) && Clear(p, d', i + 1)
      && Matches(At(p, d', Pending, i), p.entries[i].after, false) && At(p, d', Pending, i).Regular?
  {
    hide At;
    hide Set;
    assert SafeEntry(p, d, i) && Exact(p, d, i);
    StageCandidate(p, d, i, f);
  }

  lemma RenamedGoesOn(p: Plan, d: Disk, i: nat)
    requires ValidPlan(p) && i < |p.entries| && Safe(p, d) && Installed(p, d, i) && Clear(p, d, i + 1)
    requires Matches(At(p, d, Pending, i), p.entries[i].after, false)
    ensures Matches(At(p, d, Target, i), p.entries[i].before, true)
    ensures Going(p, Move(p, d, Pending, i), i + 1)
  {
    hide At;
    hide Move;
    assert Exact(p, d, i);
    InstallCandidate(p, d, i);
  }

  lemma EntryStaysOnTrack(p: Plan, m: Machine, f: Fate)
    requires ValidPlan(p) && OnTrack(p, m) && (m.pc.ApplyEntry? || m.pc.ApplyStaged?) && f.Done?
    ensures OnTrack(p, Step(p, m, f)) && Left(p, Step(p, m, f).pc) < Left(p, m.pc)
  {
    hide At;
    hide Set;
    hide Move;
    hide Safe;
    hide Installed;
    var d, i := m.world.disk, m.pc.i;
    if m.pc.ApplyStaged? {
      RenamedGoesOn(p, d, i);
      hide Clear;
    } else if p.entries[i].action == Delete {
      DeletedGoesOn(p, d, i);
    } else {
      StagedGoesOn(p, d, i, f);
    }
  }

  lemma RecordStaysOnTrack(p: Plan, m: Machine, f: Fate)
    requires ValidPlan(p) && OnTrack(p, m) && f.Done? && !m.pc.Idle? && !m.pc.ApplyEntry? && !m.pc.ApplyStaged?
    ensures OnTrack(p, Step(p, m, f)) && Left(p, Step(p, m, f).pc) < Left(p, m.pc)
  {
    hide At;
    if m.pc.ApplyVerify? { InstalledMatches(p, m.world.disk); }
    if m.pc.ApplyReload? { assert After(p, m.world.disk, 0); }
    hide Safe;
    hide AllMatch;
    hide Clear;
  }

  /** Without a failure, an apply stays on its way and comes one primitive nearer. */
  lemma StaysOnTrack(p: Plan, m: Machine, f: Fate)
    requires ValidPlan(p) && OnTrack(p, m) && f.Done? && !m.pc.Idle?
    ensures OnTrack(p, Step(p, m, f)) && Left(p, Step(p, m, f).pc) < Left(p, m.pc)
  {
    if m.pc.ApplyEntry? || m.pc.ApplyStaged? { EntryStaysOnTrack(p, m, f); } else { RecordStaysOnTrack(p, m, f); }
    hide Step;
  }

  lemma {:induction false} RunStaysOnTrack(p: Plan, m: Machine, fates: seq<Fate>)
    requires ValidPlan(p) && OnTrack(p, m) && AllDone(fates)
    ensures OnTrack(p, Execute(p, m, fates))
    ensures |fates| >= Left(p, m.pc) ==> Execute(p, m, fates).pc.Idle?
    decreases |fates|
  {
    hide Step;
    if !m.pc.Idle? && fates != [] {
      StaysOnTrack(p, m, fates[0]);
      hide OnTrack;
      RunStaysOnTrack(p, Step(p, m, fates[0]), fates[1..]);
    }
  }

  /** How many primitives an apply takes at most. */
  function Steps(p: Plan): nat { 2 * |p.entries| + 7 }

  lemma ReadyIsOnTrack(p: Plan, w: World)
    requires ValidPlan(p) && w.status == Ready && Journal(p, w)
    ensures OnTrack(p, Start(p, w, Apply(true, true))) && !Start(p, w, Apply(true, true)).pc.Idle?
    ensures Left(p, Start(p, w, Apply(true, true)).pc) <= Steps(p)
  {
    hide At;
    PristineIsGoing(p, w.disk);
    PristineIsUntouched(p, w.disk);
    hide Going;
    hide Pristine;
  }

  /** An undisturbed apply of a prepared operation commits: every output is installed, and a
      managed service runs it. */
  lemma ApplyCommits(p: Plan, w: World, fates: seq<Fate>)
    requires ValidPlan(p) && w.status == Ready && Journal(p, w)
    requires |fates| >= Steps(p) && AllDone(fates)
    ensures var m := Execute(p, Start(p, w, Apply(true, true)), fates);
      && Succeeded(Apply(true, true), m) && m.world.status == Committed
      && Installed(p, m.world.disk, |p.entries|) && RunsAfter(p, m.world)
  {
    ReadyIsOnTrack(p, w);
    RunStaysOnTrack(p, Start(p, w, Apply(true, true)), fates);
    hide Execute;
    hide Start;
  }

  // ------------------------------------------------------------- an apply that fails

  lemma {:induction false} ExecuteConcat(p: Plan, m: Machine, a: seq<Fate>, b: seq<Fate>)
    ensures Execute(p, m, a + b) == Execute(p, Execute(p, m, a), b)
    decreases |a|
  {
    hide Step;
    if a == [] {
      assert a + b == b;
    } else if !m.pc.Idle? {
      assert (a + b)[1..] == a[1..] + b;
      ExecuteConcat(p, Step(p, m, a[0]), a[1..], b);
    }
  }

  lemma ExecuteAt(p: Plan, m: Machine, fates: seq<Fate>, k: nat)
    requires k < |fates| && !Execute(p, m, fates[..k]).pc.Idle?
    ensures Execute(p, m, fates) == Execute(p, Step(p, Execute(p, m, fates[..k]), fates[k]), fates[k + 1..])
  {
    hide Execute;
    assert fates == fates[..k] + fates[k..] && fates[k..][1..] == fates[k + 1..];
    ExecuteConcat(p, m, fates[..k], fates[k..]);
    Engine.Steps(p, Execute(p, m, fates[..k]), fates[k..]);
  }

  /** The status that an apply ends in when one primitive fails, by where it stood and by
      whether only the report of the primitive was lost. */
  function StatusAfterFailure(p: Plan, at: Pc, lost: bool): Status {
    match at
    case ApplyValidating => if lost then Validating else Ready
    case ApplyBaseline => ValidationFailed
    case ApplyRecord => if lost then Applying else if p.service then Validating else Ready
    case ApplyVerifying => if lost then Verifying else if p.service then Recovered else Applying
    case ApplyCommit => if lost then Committed else if p.service then Recovered else Verifying
    case _ => if p.service then Recovered else Unknown
  }

  lemma FailureLeadsTo(p: Plan, m: Machine, f: Fate)
    requires ValidPlan(p) && OnTrack(p, m) && !m.pc.Idle? && !f.Done?
    ensures var t := Step(p, m, f);
      if m.pc.ApplyBaseline? then t == Machine(m.world, ApplyInvalid)
      else if m.pc.ApplyValidating? || m.pc.ApplyRecord? || ((m.pc.ApplyVerifying? || m.pc.ApplyCommit?) && (f.Unsynced? || !p.service))
      then t.pc == Idle(false) && t.world.status == StatusAfterFailure(p, m.pc, f.Unsynced?)
      else t.pc == OnApplyError(p) && t.world.status in {Applying, Verifying}
  {
    hide At;
    hide Set;
    hide Move;
    hide Safe;
    hide Installed;
    hide Clear;
    hide AllMatch;
    hide ReadMatching;
  }

  /** A rollback left undisturbed from its first record. */
  lemma RollbackFinishes(p: Plan, m: Machine, fates: seq<Fate>)
    requires Inv(p, m) && m.pc == RollbackRecord
    requires |fates| >= Enough(p) && AllDone(fates)
    ensures var t := Execute(p, m, fates);
      && t.pc.Idle? && t.world.status == Recovered && RestoredFrom(p, t.world.disk, 0) && RunsBefore(p, t.world)
  {
    assert m == Start(p, m.world, Recover(true)) && Begun(m.world.status) && m.world.status != ValidationFailed;
    RecoverFinishes(p, m.world, fates);
  }

  lemma GivesUp(p: Plan, m: Machine, fates: seq<Fate>)
    requires m.pc in {ApplyGiveUp, ApplyInvalid} && |fates| >= 1 && AllDone(fates)
    ensures Execute(p, m, fates) == Machine(m.world.(status := if m.pc.ApplyGiveUp? then Unknown else ValidationFailed), Idle(false))
  {
    assert fates[0] in fates;
    Engine.Steps(p, m, fates);
  }

  /** An apply in which exactly one primitive fails, whichever it is and however: it reports
      failure and ends in this status; a service that had begun is put back and runs its
      original, and files are left for a later recovery. */
  lemma ApplyFails(p: Plan, w: World, fates: seq<Fate>, k: nat)
    requires ValidPlan(p) && w.status == Ready && Journal(p, w) && Serving(p, w)
    requires k < |fates| && AllDone(fates[..k]) && !fates[k].Done? && AllDone(fates[k + 1..]) && |fates| > k + Enough(p)
    requires !Execute(p, Start(p, w, Apply(true, true)), fates[..k]).pc.Idle?
    ensures var at := Execute(p, Start(p, w, Apply(true, true)), fates[..k]).pc;
      var m := Execute(p, Start(p, w, Apply(true, true)), fates);
      && m.pc.Idle? && !Succeeded(Apply(true, true), m)
      && m.world.status == StatusAfterFailure(p, at, fates[k].Unsynced?)
      && Journal(p, m.world) && Serving(p, m.world)
      && (m.world.status == Recovered ==> RestoredFrom(p, m.world.disk, 0) && RunsBefore(p, m.world))
  {
    var m0 := Start(p, w, Apply(true, true));
    var c := Execute(p, m0, fates[..k]);
    var t := Step(p, c, fates[k]);
    ReadyIsOnTrack(p, w);
    BeginKeeps(p, w, Apply(true, true));
    RunStaysOnTrack(p, m0, fates[..k]);
    ExecuteKeeps(p, m0, fates[..k]);
    ExecuteKeeps(p, m0, fates);
    StepKeeps(p, c, fates[k]);
    ExecuteAt(p, m0, fates, k);
    FailureLeadsTo(p, c, fates[k]);
    hide Step;
    hide Journal;
    hide Serving;
    hide Start;
    hide OnTrack;
    var rest := fates[k + 1..];
    if t.pc.Idle? {
      assert Execute(p, t, rest) == t;
    } else if t.pc == RollbackRecord {
      hide Execute;
      RollbackFinishes(p, t, rest);
    } else {
      GivesUp(p, t, rest);
    }
  }

  /** An apply may begin: permitted, prepared, every target still the reviewed file, and every
      artifact as it was preserved. */
  predicate MayApply(p: Plan, w: World, authorized: bool, current: bool) {
    && authorized && current && w.status == Ready
    && (forall i | 0 <= i < |p.entries| ::
          ParentOk(w.disk, p.entries[i]) && Matches(At(p, w.disk, Target, i), p.entries[i].before, true) && AssetsOk(p, w.disk, i))
  }

  /** Every other apply changes nothing, on any disk: one that has committed is confirmed, and
      the rest are refused. */
  lemma ApplyRefused(p: Plan, w: World, authorized: bool, current: bool, fates: seq<Fate>)
    requires !MayApply(p, w, authorized, current)
    ensures Execute(p, Start(p, w, Apply(authorized, current)), fates) == Machine(w, Idle(authorized && w.status == Committed))
  {
    hide At;
    hide AssetsOk;
  }

  // ------------------------------------------------------------- files of others

  /** The target of entry `i` is neither the original nor the output. */
  predicate Strange(p: Plan, d: Disk, i: nat)
    requires i < |p.entries|
  {
    !Before(p, d, i) && !After(p, d, i)
  }

  lemma SetElsewhereKeeps(p: Plan, d: Disk, place: Place, j: nat, fp: Fingerprint, i: nat)
    requires ValidPlan(p) && i < |p.entries| && j < |p.entries| && (place != Target || i != j)
    ensures At(p, Set(p, d, place, j, fp), Target, i) == At(p, d, Target, i)
  {
    hide At;
    hide Set;
    SetFrame(p, d, place, j, fp);
  }

  lemma MoveElsewhereKeeps(p: Plan, d: Disk, from: Place, j: nat, i: nat)
    requires ValidPlan(p) && i < |p.entries| && j < |p.entries| && from != Target && i != j
    ensures At(p, Move(p, d, from, j), Target, i) == At(p, d, Target, i)
  {
    hide At;
    hide Set;
    MoveFrame(p, d, from, j);
  }

  lemma ExactIsNotStrange(p: Plan, d: Disk, i: nat)
    requires i < |p.entries| && Exact(p, d, i)
    ensures !Strange(p, d, i)
  {
    hide At;
  }

  /** What an apply writes at entry `j`, if anything. */
  lemma ApplyWrites(p: Plan, m: Machine, f: Fate)
    requires m.pc.ApplyEntry?
    ensures var t, d, j := Step(p, m, f), m.world.disk, m.pc.i;
      || t.world.disk == d
      || (j < |p.entries| && Exact(p, d, j)
          && t.world.disk == Set(p, Set(p, d, Quarantine, j, At(p, d, Target, j)), Target, j, Missing))
      || (j < |p.entries| && p.entries[j].after.Regular? && At(p, d, Candidate, j).Regular?
          && t.world.disk == Set(p, d, Pending, j, Candidates(p, d, j, f)))
  {
    hide At;
    hide Set;
  }

  lemma ApplyLeaves(p: Plan, m: Machine, f: Fate, i: nat)
    requires ValidPlan(p) && i < |p.entries| && Strange(p, m.world.disk, i) && m.pc.ApplyEntry?
    ensures At(p, Step(p, m, f).world.disk, Target, i) == At(p, m.world.disk, Target, i)
  {
    var d, j := m.world.disk, m.pc.i;
    ApplyWrites(p, m, f);
    hide At;
    hide Set;
    hide Step;
    hide Written;
    if j < |p.entries| {
      if Exact(p, d, j) {
        if j == i { ExactIsNotStrange(p, d, i); }
        else {
          SetElsewhereKeeps(p, d, Quarantine, j, At(p, d, Target, j), i);
          SetElsewhereKeeps(p, Set(p, d, Quarantine, j, At(p, d, Target, j)), Target, j, Missing, i);
        }
      }
      if p.entries[j].after.Regular? && At(p, d, Candidate, j).Regular? {
        SetElsewhereKeeps(p, d, Pending, j, Candidates(p, d, j, f), i);
      }
    }
  }

  lemma StagedLeaves(p: Plan, m: Machine, f: Fate, i: nat)
    requires ValidPlan(p) && i < |p.entries| && Strange(p, m.world.disk, i) && m.pc.ApplyStaged?
    ensures At(p, Step(p, m, f).world.disk, Target, i) == At(p, m.world.disk, Target, i)
  {
    hide At;
    hide Move;
    if m.pc.i < |p.entries| && m.pc.i != i { MoveElsewhereKeeps(p, m.world.disk, Pending, m.pc.i, i); }
  }

  lemma RestoreLeaves(p: Plan, m: Machine, f: Fate, i: nat)
    requires ValidPlan(p) && i < |p.entries| && Strange(p, m.world.disk, i) && (m.pc.RestoreUndo? || m.pc.RestoreStaged?)
    ensures At(p, Step(p, m, f).world.disk, Target, i) == At(p, m.world.disk, Target, i)
  {
    var d := m.world.disk;
    hide At;
    hide Set;
    hide Move;
    if 0 < m.pc.left <= |p.entries| {
      var j := m.pc.left - 1;
      var en := p.entries[j];
      if m.pc.RestoreStaged? {
        if j != i { MoveElsewhereKeeps(p, d, Restore, j, i); }
      } else {
        if j != i {
          SetElsewhereKeeps(p, d, Target, j, Missing, i);
          MoveElsewhereKeeps(p, d, Quarantine, j, i);
        }
        if Undo(p, d, j) == Stage {
          SetElsewhereKeeps(p, d, Restore, j, Written(p, en.parentId.device, At(p, d, Backup, j).file.content, en.before, StampOf(f)), i);
        }
      }
    }
  }

  lemma PrepareLeaves(p: Plan, m: Machine, f: Fate, i: nat)
    requires ValidPlan(p) && i < |p.entries| && (m.pc.PrepareBackup? || m.pc.PrepareCandidate?)
    ensures At(p, Step(p, m, f).world.disk, Target, i) == At(p, m.world.disk, Target, i)
  {
    var d, j := m.world.disk, m.pc.i;
    ArtifactWrites(p, m, f);
    hide At;
    hide Set;
    hide Step;
    if j < |p.entries| {
      var en := p.entries[j];
      if en.before.Regular? { SetElsewhereKeeps(p, d, Backup, j, Written(p, 0, en.before.file.content, Missing, StampOf(f)), i); }
      if en.after.Regular? { SetElsewhereKeeps(p, d, Candidate, j, Written(p, 0, en.after.file.content, Missing, StampOf(f)), i); }
    }
  }

  lemma ArtifactWrites(p: Plan, m: Machine, f: Fate)
    requires m.pc.PrepareBackup? || m.pc.PrepareCandidate?
    ensures var t, j := Step(p, m, f), m.pc.i;
      || t.world == m.world || t.world.disk == m.world.disk
      || (j < |p.entries| && p.entries[j].before.Regular?
            && t.world.disk == Set(p, m.world.disk, Backup, j, Written(p, 0, p.entries[j].before.file.content, Missing, StampOf(f))))
      || (j < |p.entries| && p.entries[j].after.Regular?
            && t.world.disk == Set(p, m.world.disk, Candidate, j, Written(p, 0, p.entries[j].after.file.content, Missing, StampOf(f))))
  {
    hide At;
    hide Set;
  }

  /** On any disk, whatever others have done to it: no primitive touches a target that holds
      neither the original nor the output. */
  lemma StepLeavesStrangers(p: Plan, m: Machine, f: Fate, i: nat)
    requires ValidPlan(p) && i < |p.entries| && Strange(p, m.world.disk, i)
    ensures At(p, Step(p, m, f).world.disk, Target, i) == At(p, m.world.disk, Target, i)
  {
    if WritesFiles(m.pc) {
      hide Strange;
      hide At;
      hide Step;
      if m.pc.ApplyEntry? { ApplyLeaves(p, m, f, i); }
      else if m.pc.ApplyStaged? { StagedLeaves(p, m, f, i); }
      else if m.pc.RestoreUndo? || m.pc.RestoreStaged? { RestoreLeaves(p, m, f, i); }
      else { PrepareLeaves(p, m, f, i); }
    } else {
      OthersWriteNothing(p, m, f);
      hide Step;
    }
  }

  lemma OthersWriteNothing(p: Plan, m: Machine, f: Fate)
    requires !WritesFiles(m.pc)
    ensures Step(p, m, f).world.disk == m.world.disk
  {
    hide At;
    hide Set;
  }

  lemma SameIsStrange(p: Plan, d: Disk, d': Disk, i: nat)
    requires i < |p.entries| && Strange(p, d, i) && At(p, d', Target, i) == At(p, d, Target, i)
    ensures Strange(p, d', i)
  {
    hide At;
  }

  /** No call, however it goes, touches a target that somebody else has changed. */
  lemma {:induction false} StrangersAreLeft(p: Plan, m: Machine, fates: seq<Fate>, i: nat)
    requires ValidPlan(p) && i < |p.entries| && Strange(p, m.world.disk, i)
    ensures At(p, Execute(p, m, fates).world.disk, Target, i) == At(p, m.world.disk, Target, i)
    decreases |fates|
  {
    hide Step;
    hide At;
    hide Strange;
    if !m.pc.Idle? && fates != [] {
      StepLeavesStrangers(p, m, fates[0], i);
      SameIsStrange(p, m.world.disk, Step(p, m, fates[0]).world.disk, i);
      StrangersAreLeft(p, Step(p, m, fates[0]), fates[1..], i);
    }
  }

  // ------------------------------------------------------------- preparation

  /** Whether the artifacts of entry `i` can still be written. */
  predicate Unwritten(p: Plan, d: Disk, i: nat)
    requires i < |p.entries|
  {
    && (p.entries[i].before.Regular? ==> At(p, d, Backup, i).Missing?)
    && (p.entries[i].after.Regular? ==> At(p, d, Candidate, i).Missing?)
  }

  /** Nobody else has written an artifact from entry `i` on. */
  ghost predicate FreeFrom(p: Plan, d: Disk, i: nat) {
    forall j: nat | j < |p.entries| && i <= j :: Unwritten(p, d, j)
  }

  /** A preparation in which nothing has failed; `free` says whether it can succeed. */
  ghost predicate OnWay(p: Plan, m: Machine, free: bool) {
    var d, n := m.world.disk, |p.entries|;
    match m.pc
    case Idle(ok) => ok == free && m.world.status == if free then Ready else PreparationFailed
    case PrepareRecord => free == FreeFrom(p, d, 0)
    case PrepareEntry(i) => i < n && free == FreeFrom(p, d, i)
    case PrepareBackup(i) => i < n && p.entries[i].before.Regular? && free == FreeFrom(p, d, i)
    case PrepareCandidate(i) =>
      && i < n && p.entries[i].after.Regular?
      && free == (At(p, d, Candidate, i).Missing? && FreeFrom(p, d, i + 1))
    case PrepareReady => free
    case PrepareGiveUp => !free
    case _ => false
  }

  function LeftToPrepare(p: Plan, pc: Pc): nat {
    var n := |p.entries|;
    match pc
    case PrepareRecord => 3 * n + 3
    case PrepareEntry(i) => if i < n then 3 * (n - i) + 2 else 0
    case PrepareBackup(i) => if i < n then 3 * (n - i) + 1 else 0
    case PrepareCandidate(i) => if i < n then 3 * (n - i) else 0
    case PrepareReady => 2
    case PrepareGiveUp => 1
    case _ => 0
  }

  lemma FreeSplits(p: Plan, d: Disk, i: nat)
    requires i < |p.entries|
    ensures FreeFrom(p, d, i) <==> Unwritten(p, d, i) && FreeFrom(p, d, i + 1)
    ensures FreeFrom(p, d, |p.entries|)
  {
    hide Unwritten;
  }

  /** Writing an artifact of entry `i` leaves those of later entries alone. */
  lemma WrittenStaysFree(p: Plan, d: Disk, place: Place, i: nat, fp: Fingerprint)
    requires ValidPlan(p) && i < |p.entries| && place in {Backup, Candidate}
    ensures var d' := Set(p, d, place, i, fp);
      && FreeFrom(p, d', i + 1) == FreeFrom(p, d, i + 1)
      && (place == Backup ==> At(p, d', Candidate, i) == At(p, d, Candidate, i))
  {
    hide At;
    hide Set;
    SetFrame(p, d, place, i, fp);
    forall j: nat | j < |p.entries| && i + 1 <= j ensures Unwritten(p, Set(p, d, place, i, fp), j) == Unwritten(p, d, j) {
    }
    hide Unwritten;
  }

  lemma PreparesOn(p: Plan, m: Machine, f: Fate, free: bool)
    requires ValidPlan(p) && OnWay(p, m, free) && f.Done? && !m.pc.Idle?
    ensures OnWay(p, Step(p, m, f), free) && LeftToPrepare(p, Step(p, m, f).pc) < LeftToPrepare(p, m.pc)
  {
    hide At;
    hide Set;
    if m.pc.PrepareEntry? || m.pc.PrepareBackup? || m.pc.PrepareCandidate? {
      var d, i := m.world.disk, m.pc.i;
      FreeSplits(p, d, i);
      if m.pc.PrepareBackup? {
        WrittenStaysFree(p, d, Backup, i, Written(p, 0, p.entries[i].before.file.content, Missing, StampOf(f)));
      } else if m.pc.PrepareCandidate? {
        WrittenStaysFree(p, d, Candidate, i, Written(p, 0, p.entries[i].after.file.content, Missing, StampOf(f)));
      }
    }
    hide FreeFrom;
  }

  lemma {:induction false} RunPreparesOn(p: Plan, m: Machine, fates: seq<Fate>, free: bool)
    requires ValidPlan(p) && OnWay(p, m, free) && AllDone(fates)
    ensures OnWay(p, Execute(p, m, fates), free)
    ensures |fates| >= LeftToPrepare(p, m.pc) ==> Execute(p, m, fates).pc.Idle?
    decreases |fates|
  {
    hide Step;
    if !m.pc.Idle? && fates != [] {
      PreparesOn(p, m, fates[0], free);
      hide OnWay;
      RunPreparesOn(p, Step(p, m, fates[0]), fates[1..], free);
    }
  }

  /** An undisturbed preparation succeeds exactly when no artifact of the operation is there
      yet; then every original and candidate is preserved and no target has been touched. */
  lemma PrepareFinishes(p: Plan, w: World, fates: seq<Fate>)
    requires ValidPlan(p) && w.status == Unrecorded && Journal(p, w) && Serving(p, w)
    requires |fates| >= 3 * |p.entries| + 3 && AllDone(fates)
    ensures var m := Execute(p, Start(p, w, Prepare), fates);
      && Succeeded(Prepare, m) == FreeFrom(p, w.disk, 0)
      && m.world.status == (if FreeFrom(p, w.disk, 0) then Ready else PreparationFailed)
      && m.pc.Idle? && Pristine(p, m.world.disk) && RunsBefore(p, m.world)
      && (FreeFrom(p, w.disk, 0) ==> Preserved(p, m.world.disk, |p.entries|))
  {
    var m := Start(p, w, Prepare);
    RunPreparesOn(p, m, fates, FreeFrom(p, w.disk, 0));
    BeginKeeps(p, w, Prepare);
    ExecuteKeeps(p, m, fates);
    hide Execute;
    hide FreeFrom;
    hide Pristine;
  }

  lemma PrepareRefused(p: Plan, w: World, fates: seq<Fate>)
    requires w.status != Unrecorded
    ensures Execute(p, Start(p, w, Prepare), fates) == Machine(w, Idle(false))
  {
  }

  // ------------------------------------------------------------- recovery

  /** Where a restoration stands. */
  predicate Restoring(pc: Pc) {
    pc.RestoreEntry? || pc.RestoreUndo? || pc.RestoreStaged? || pc.RestoreVerify? || pc.RestoreReload?
  }

  /** The entries that are still restored after a failure at `at`. */
  function StillRestored(at: Pc, f: Fate): nat {
    if (at.RestoreEntry? && !f.Cancelled?) || at.RestoreUndo? || at.RestoreStaged? then
      if at.left > 0 then at.left - 1 else 0
    else 0
  }

  lemma RestoreFailsTo(p: Plan, m: Machine, f: Fate)
    requires Inv(p, m) && Restoring(m.pc) && !f.Done?
    ensures var t := Step(p, m, f);
      t.world.status == RollingBack && t.pc == AfterRestored(StillRestored(m.pc, f), true) && StillRestored(m.pc, f) <= |p.entries|
  {
    hide At;
    hide Set;
    hide Move;
    hide Safe;
    hide RestoredFrom;
    hide AllMatch;
    hide Undo;
  }

  lemma UndoneBelow(p: Plan, d: Disk, d': Disk, left: nat)
    requires ValidPlan(p) && Safe(p, d) && Undone(p, d, d', left) && left <= |p.entries|
    ensures forall i: nat | i < left :: Before(p, d', i)
  {
    hide At;
    forall i: nat | i < left ensures Before(p, d', i) {
      assert SafeEntry(p, d, i);
      assert !Clashes(p, d, i) && PutBack(p, d, d', i);
    }
  }

  /** A restoration in which one primitive fails ends as failed, and, unless it was cancelled,
      has put back every entry below the one that failed. */
  lemma RestoreFails(p: Plan, m: Machine, fates: seq<Fate>)
    requires Inv(p, m) && Restoring(m.pc) && fates != [] && !fates[0].Done?
    requires AllDone(fates[1..]) && |fates| > Enough(p)
    ensures var t := Execute(p, m, fates);
      && t.pc == Idle(false) && t.world.status == RecoveryFailed && Safe(p, t.world.disk)
      && forall i: nat | i < StillRestored(m.pc, fates[0]) && i < |p.entries| :: Before(p, t.world.disk, i)
  {
    var t := Step(p, m, fates[0]);
    var left := StillRestored(m.pc, fates[0]);
    StepKeeps(p, m, fates[0]);
    ExecuteKeeps(p, m, fates);
    RestoreFailsTo(p, m, fates[0]);
    Engine.Steps(p, m, fates);
    hide Step;
    SafeHasNoClash(p, t.world.disk);
    hide Execute;
    var d', used := LoopRun(p, t.world, left, true, fates[1..]);
    UndoneBelow(p, t.world.disk, d', left);
    Finish(p, t.world.(disk := d'), true, fates[1..][used..]);
  }

  /** A recovery that may not act changes nothing; one that has recovered is confirmed. */
  lemma RecoverRefused(p: Plan, w: World, authorized: bool, fates: seq<Fate>)
    requires !authorized || w.status in {Unrecorded, Preparing, PreparationFailed, ValidationFailed, Recovered}
    ensures Execute(p, Start(p, w, Recover(authorized)), fates) == Machine(w, Idle(authorized && w.status == Recovered))
  {
    hide Untouched;
  }

  // ------------------------------------------------------------- reconciliation

  /** What reconciliation makes of each durable status. */
  function Reconciled(s: Status): Status {
    match s
    case Preparing => PreparationFailed
    case Validating | Applying | Verifying | RollingBack => Unknown
    case _ => s
  }

  /** Reconciliation records what a cut call left open, and touches nothing else. */
  lemma ReconcileOutcome(p: Plan, w: World, fates: seq<Fate>)
    requires fates != [] && fates[0].Done?
    ensures Execute(p, Start(p, w, Reconcile), fates) == Machine(w.(status := Reconciled(w.status)), Idle(w.status != Unrecorded))
  {
    hide Step;
    var m := Start(p, w, Reconcile);
    if !m.pc.Idle? {
      Engine.Steps(p, m, fates);
      ReconcileRecords(p, m, fates[0]);
    }
  }

  lemma ReconcileRecords(p: Plan, m: Machine, f: Fate)
    requires m.pc.ReconcileRecord? && f.Done?
    ensures Step(p, m, f) == Machine(m.world.(status := m.pc.to), Idle(true))
  {
  }
}
