/** What every step of the file transaction keeps, whatever fails and wherever the
    process dies, when no other program writes the files concerned. */
module EngineSafety {
  import opened Paths
  import opened RecoveryTypes
  import opened Engine

  /** Writing one place of one entry changes no other place of any entry. */
  lemma SetFrame(p: Plan, d: Disk, place: Place, i: nat, fp: Fingerprint)
    requires ValidPlan(p) && i < |p.entries|
    ensures Set(p, d, place, i, fp).dirs == d.dirs
    ensures forall pl, j: nat | j < |p.entries| ::
              At(p, Set(p, d, place, i, fp), pl, j) == if pl == place && j == i then fp else At(p, d, pl, j)
  {
    forall pl, j: nat | j < |p.entries|
      ensures At(p, Set(p, d, place, i, fp), pl, j) == if pl == place && j == i then fp else At(p, d, pl, j)
    {
      if LocationOf(p, pl, j) == LocationOf(p, place, i) {
        PlacesDisjoint(p.stateDir, p.id, p.entries[j].path, j, pl, p.id, p.entries[i].path, i, place);
      }
    }
  }

  /** Renaming onto the target moves one place there and changes nothing else. */
  lemma MoveFrame(p: Plan, d: Disk, from: Place, i: nat)
    requires ValidPlan(p) && i < |p.entries| && from != Target
    ensures Move(p, d, from, i).dirs == d.dirs
    ensures forall pl, j: nat | j < |p.entries| ::
              At(p, Move(p, d, from, i), pl, j) == if pl == Target && j == i then At(p, d, from, i)
                                                   else if pl == from && j == i then Missing else At(p, d, pl, j)
  {
    SetFrame(p, d, Target, i, At(p, d, from, i));
    SetFrame(p, Set(p, d, Target, i, At(p, d, from, i)), from, i, Missing);
  }

  // ------------------------------------------------------------- per entry

  predicate Before(p: Plan, d: Disk, i: nat)
    requires i < |p.entries|
  {
    Matches(At(p, d, Target, i), p.entries[i].before, false)
  }

  predicate After(p: Plan, d: Disk, i: nat)
    requires i < |p.entries|
  {
    Matches(At(p, d, Target, i), p.entries[i].after, false)
  }

  /** The target is the very file that was reviewed. */
  predicate Exact(p: Plan, d: Disk, i: nat)
    requires i < |p.entries|
  {
    Matches(At(p, d, Target, i), p.entries[i].before, true)
  }

  /** The entry's own artifacts can serve a restoration. */
  predicate Intact(p: Plan, d: Disk, i: nat)
    requires i < |p.entries|
  {
    var en := p.entries[i];
    && AssetsOk(p, d, i)
    && (At(p, d, Restore, i).Missing? || Matches(At(p, d, Restore, i), en.before, false))
    && (At(p, d, Quarantine, i).Missing? || Matches(At(p, d, Quarantine, i), en.before, true))
  }

  /** An entry holds the original or the output, and can be restored. */
  predicate SafeEntry(p: Plan, d: Disk, i: nat)
    requires i < |p.entries|
  {
    ParentOk(d, p.entries[i]) && Intact(p, d, i) && (Before(p, d, i) || After(p, d, i))
  }

  predicate PristineEntry(p: Plan, d: Disk, i: nat)
    requires i < |p.entries|
  {
    && ParentOk(d, p.entries[i]) && Exact(p, d, i)
    && At(p, d, Pending, i).Missing? && At(p, d, Restore, i).Missing? && At(p, d, Quarantine, i).Missing?
  }

  ghost predicate Safe(p: Plan, d: Disk) {
    forall i: nat | i < |p.entries| :: SafeEntry(p, d, i)
  }

  /** Nothing has touched the targets yet. */
  ghost predicate Pristine(p: Plan, d: Disk) {
    forall i: nat | i < |p.entries| :: PristineEntry(p, d, i)
  }

  ghost predicate Preserved(p: Plan, d: Disk, n: nat) {
    forall i: nat | i < |p.entries| && i < n :: AssetsOk(p, d, i)
  }

  /** Apply has installed the entries before `k` and touched no target from `k` on. */
  ghost predicate Installed(p: Plan, d: Disk, k: nat) {
    && (forall i: nat | i < |p.entries| && i < k :: After(p, d, i))
    && (forall i: nat | i < |p.entries| && k <= i :: Exact(p, d, i))
  }

  ghost predicate RestoredFrom(p: Plan, d: Disk, k: nat) {
    forall i: nat | i < |p.entries| && k <= i :: Before(p, d, i)
  }

  // ------------------------------------------------------------- invariant

  /** What the durable status alone says about the files. */
  ghost predicate Journal(p: Plan, w: World) {
    match w.status
    case Unrecorded | Preparing | PreparationFailed => Pristine(p, w.disk)
    case Ready | Validating | ValidationFailed => Pristine(p, w.disk) && Preserved(p, w.disk, |p.entries|)
    case Verifying | Committed => Safe(p, w.disk) && Installed(p, w.disk, |p.entries|)
    case Recovered => Safe(p, w.disk) && RestoredFrom(p, w.disk, 0)
    case _ => Safe(p, w.disk)
  }

  predicate RunsBefore(p: Plan, w: World) {
    p.service && |p.entries| > 0 && p.entries[0].before.Regular? ==> w.running == p.entries[0].before.file.content
  }

  predicate RunsAfter(p: Plan, w: World) {
    p.service && |p.entries| > 0 && p.entries[0].after.Regular? ==> w.running == p.entries[0].after.file.content
  }

  /** What the status says of the configuration a managed service runs. */
  predicate Serving(p: Plan, w: World) {
    && (w.status == Committed ==> RunsAfter(p, w))
    && (w.status in {Unrecorded, Preparing, PreparationFailed, Ready, Validating, ValidationFailed, Recovered} ==> RunsBefore(p, w))
  }

  ghost predicate Ahead(p: Plan, w: World, i: nat) {
    && i < |p.entries| && w.status == Applying && Installed(p, w.disk, i)
    && forall j: nat | j < |p.entries| && i < j :: At(p, w.disk, Quarantine, j).Missing? && At(p, w.disk, Pending, j).Missing?
  }

  ghost predicate Undoing(p: Plan, w: World, left: nat, failed: bool) {
    0 < left <= |p.entries| && w.status == RollingBack && (!failed ==> RestoredFrom(p, w.disk, left))
  }

  /** What control adds: where a live process stands. */
  ghost predicate Control(p: Plan, m: Machine) {
    var w, d := m.world, m.world.disk;
    var n := |p.entries|;
    match m.pc
    case Idle(_) => true
    case PrepareRecord => w.status == Unrecorded
    case PrepareEntry(i) => i < n && w.status == Preparing && Preserved(p, d, i)
    case PrepareBackup(i) => i < n && w.status == Preparing && Preserved(p, d, i)
    case PrepareCandidate(i) =>
      && i < n && w.status == Preparing && Preserved(p, d, i)
      && (p.entries[i].before.Regular? ==> ArtifactOk(p, At(p, d, Backup, i), p.entries[i].before.file.content))
    case PrepareReady => w.status == Preparing && Preserved(p, d, n)
    case PrepareGiveUp => w.status == Preparing
    case ApplyValidating => p.service && w.status == Ready
    case ApplyBaseline | ApplyInvalid => p.service && w.status == Validating
    case ApplyRecord => w.status == if p.service then Validating else Ready
    case ApplyEntry(i) => Ahead(p, w, i)
    case ApplyStaged(i) => Ahead(p, w, i) && Matches(At(p, d, Pending, i), p.entries[i].after, false)
    case ApplyVerifying => w.status == Applying && Installed(p, d, n)
    case ApplyVerify => w.status == Verifying
    case ApplyReload => w.status == Verifying && p.service
    case ApplyCommit => w.status == Verifying && RunsAfter(p, w)
    case ApplyGiveUp => w.status in {Applying, Verifying} && !p.service
    case CancelRecord => w.status == Ready
    case RollbackRecord =>
      w.status !in {Unrecorded, Preparing, PreparationFailed, Ready, Recovered, ValidationFailed}
    case RestoreEntry(left, failed) => Undoing(p, w, left, failed)
    case RestoreUndo(left, failed) => Undoing(p, w, left, failed)
    case RestoreStaged(left, failed) =>
      && Undoing(p, w, left, failed) && p.entries[left - 1].before.Regular?
      && Matches(At(p, d, Restore, left - 1), p.entries[left - 1].before, false)
    case RestoreVerify => w.status == RollingBack && RestoredFrom(p, d, 0)
    case RestoreReload => w.status == RollingBack && RestoredFrom(p, d, 0) && p.service
    case RestoreCommit => w.status == RollingBack && RestoredFrom(p, d, 0) && RunsBefore(p, w)
    case RestoreFailed => w.status == RollingBack
    case ReconcileRecord(to) =>
      || (to == PreparationFailed && w.status == Preparing)
      || (to == Unknown && w.status in {Validating, Applying, Verifying, RollingBack})
  }

  ghost predicate Inv(p: Plan, m: Machine) {
    ValidPlan(p) && Journal(p, m.world) && Serving(p, m.world) && Control(p, m)
  }

  lemma PristineIsSafe(p: Plan, d: Disk)
    requires ValidPlan(p) && Pristine(p, d) && Preserved(p, d, |p.entries|)
    ensures Safe(p, d) && Installed(p, d, 0)
  {
    forall i: nat | i < |p.entries| ensures SafeEntry(p, d, i) && Exact(p, d, i) {
      assert PristineEntry(p, d, i) && AssetsOk(p, d, i);
    }
  }

  lemma BeginKeeps(p: Plan, w: World, c: Call)
    requires ValidPlan(p) && Journal(p, w) && Serving(p, w)
    ensures Inv(p, Start(p, w, c))
  {
  }

  predicate WritesFiles(pc: Pc) {
    pc.PrepareBackup? || pc.PrepareCandidate? || pc.ApplyEntry? || pc.ApplyStaged? || pc.RestoreUndo? || pc.RestoreStaged?
  }

  // ------------------------------------------------------------- one step

  /** Journal saves, reloads and reads. */
  lemma PrepareRecordKeeps(p: Plan, m: Machine, f: Fate)
    requires Inv(p, m)
    requires m.pc.PrepareRecord? || m.pc.PrepareEntry? || m.pc.PrepareReady? || m.pc.PrepareGiveUp?
    ensures Inv(p, Step(p, m, f))
  {
    hide At;
  }

  lemma ApplyRecordKeeps(p: Plan, m: Machine, f: Fate)
    requires Inv(p, m)
    requires m.pc.ApplyValidating? || m.pc.ApplyBaseline? || m.pc.ApplyInvalid? || m.pc.ApplyRecord? || m.pc.ApplyGiveUp?
    ensures Inv(p, Step(p, m, f))
  {
    hide At;
    if m.world.status in {Ready, Validating} { PristineIsSafe(p, m.world.disk); }
    if m.pc.ApplyRecord? {
      forall j: nat | j < |p.entries|
        ensures At(p, m.world.disk, Quarantine, j).Missing? && At(p, m.world.disk, Pending, j).Missing?
      {
        assert PristineEntry(p, m.world.disk, j);
      }
    }
  }

  lemma ApplyVerifyKeeps(p: Plan, m: Machine, f: Fate)
    requires Inv(p, m)
    requires m.pc.ApplyVerifying? || m.pc.ApplyVerify? || m.pc.ApplyCommit?
    ensures Inv(p, Step(p, m, f))
  {
    hide At;
  }

  lemma ReloadKeeps(p: Plan, m: Machine, f: Fate)
    requires Inv(p, m) && (m.pc.ApplyReload? || m.pc.RestoreReload?)
    ensures Inv(p, Step(p, m, f))
  {
    hide At;
    assert SafeEntry(p, m.world.disk, 0);
    if m.pc.ApplyReload? { assert After(p, m.world.disk, 0); } else { assert Before(p, m.world.disk, 0); }
  }

  lemma RestoreRecordKeeps(p: Plan, m: Machine, f: Fate)
    requires Inv(p, m)
    requires m.pc.RestoreVerify? || m.pc.RestoreCommit? || m.pc.RestoreFailed?
    ensures Inv(p, Step(p, m, f))
  {
    hide At;
    hide SafeEntry;
    hide PristineEntry;
    hide AssetsOk;
    hide Exact;
  }

  lemma CancelKeeps(p: Plan, m: Machine, f: Fate)
    requires Inv(p, m) && m.pc.CancelRecord?
    ensures Inv(p, Step(p, m, f))
  {
    hide At;
    PristineIsSafe(p, m.world.disk);
    forall i: nat | i < |p.entries| ensures Before(p, m.world.disk, i) { assert Exact(p, m.world.disk, i); }
  }

  lemma RollbackKeeps(p: Plan, m: Machine, f: Fate)
    requires Inv(p, m) && m.pc.RollbackRecord?
    ensures Inv(p, Step(p, m, f))
  {
    hide At;
    hide SafeEntry;
    hide PristineEntry;
    hide AssetsOk;
    hide After;
    hide Before;
    hide Exact;
    if m.world.status == Validating { PristineIsSafe(p, m.world.disk); }
  }

  lemma ReconcileKeeps(p: Plan, m: Machine, f: Fate)
    requires Inv(p, m) && m.pc.ReconcileRecord?
    ensures Inv(p, Step(p, m, f))
  {
    hide At;
    hide SafeEntry;
    hide PristineEntry;
    hide AssetsOk;
    hide After;
    hide Before;
    hide Exact;
    if m.world.status == Validating { PristineIsSafe(p, m.world.disk); }
  }

  lemma RestoreHeadKeeps(p: Plan, m: Machine, f: Fate)
    requires Inv(p, m) && m.pc.RestoreEntry?
    ensures Inv(p, Step(p, m, f))
  {
    hide At;
    var i := m.pc.left - 1;
    assert SafeEntry(p, m.world.disk, i);
  }

  // ------------------------------------------------------------- file writes

  /** Writing one backup or candidate leaves targets and earlier artifacts alone. */
  lemma ArtifactWritten(p: Plan, d: Disk, place: Place, i: nat, content: string, stamp: Stamp)
    requires ValidPlan(p) && i < |p.entries| && Pristine(p, d) && Preserved(p, d, i) && place in {Backup, Candidate}
    ensures var d' := Set(p, d, place, i, Written(p, 0, content, Missing, stamp));
      && Pristine(p, d') && Preserved(p, d', i) && ArtifactOk(p, At(p, d', place, i), content)
      && forall pl | pl != place :: At(p, d', pl, i) == At(p, d, pl, i)
  {
    hide At;
    var fp := Written(p, 0, content, Missing, stamp);
    var d' := Set(p, d, place, i, fp);
    SetFrame(p, d, place, i, fp);
    hide Set;
    forall j: nat | j < |p.entries| ensures PristineEntry(p, d', j) { assert PristineEntry(p, d, j); }
    forall j: nat | j < |p.entries| && j < i ensures AssetsOk(p, d', j) { assert AssetsOk(p, d, j); }
  }

  lemma OneMorePreserved(p: Plan, d: Disk, i: nat)
    requires i < |p.entries| && Preserved(p, d, i) && AssetsOk(p, d, i)
    ensures Preserved(p, d, i + 1)
  {
    hide AssetsOk;
  }

  /** Where writing one artifact leads. */
  lemma ArtifactStep(p: Plan, m: Machine, f: Fate)
    requires (m.pc.PrepareBackup? || m.pc.PrepareCandidate?) && m.pc.i < |p.entries|
    ensures var i, en := m.pc.i, p.entries[m.pc.i];
      Step(p, m, f) ==
        if m.pc.PrepareBackup? then
          if en.before.Missing? then Machine(m.world, PrepareGiveUp)
          else WriteArtifact(p, m.world, i, Backup, en.before.file.content, f,
                             if en.after.Regular? then PrepareCandidate(i) else AfterArtifacts(p, i + 1))
        else if en.after.Missing? then Machine(m.world, PrepareGiveUp)
        else WriteArtifact(p, m.world, i, Candidate, en.after.file.content, f, AfterArtifacts(p, i + 1))
  {
    hide At;
    hide WriteArtifact;
  }

  lemma ArtifactKeeps(p: Plan, m: Machine, f: Fate)
    requires Inv(p, m) && (m.pc.PrepareBackup? || m.pc.PrepareCandidate?)
    ensures Inv(p, Step(p, m, f))
  {
    hide At;
    hide Set;
    ArtifactStep(p, m, f);
    hide Step;
    var d, i := m.world.disk, m.pc.i;
    var place := if m.pc.PrepareBackup? then Backup else Candidate;
    var want := if m.pc.PrepareBackup? then p.entries[i].before else p.entries[i].after;
    if want.Regular? {
      ArtifactWritten(p, d, place, i, want.file.content, StampOf(f));
      var d' := Set(p, d, place, i, Written(p, 0, want.file.content, Missing, StampOf(f)));
      hide Pristine;
      hide Preserved;
      if AssetsOk(p, d', i) { OneMorePreserved(p, d', i); }
    }
  }

  /** A step of apply at entry `i` keeps every other entry as it was. */
  lemma ApplyFrame(p: Plan, d: Disk, d': Disk, i: nat)
    requires ValidPlan(p) && i < |p.entries| && Safe(p, d) && Installed(p, d, i)
    requires d'.dirs == d.dirs
    requires forall pl, j: nat | j < |p.entries| && j != i :: At(p, d', pl, j) == At(p, d, pl, j)
    requires SafeEntry(p, d', i)
    ensures Safe(p, d')
    ensures Exact(p, d', i) ==> Installed(p, d', i)
    ensures After(p, d', i) ==> Installed(p, d', i + 1)
  {
    hide At;
    forall j: nat | j < |p.entries|
      ensures SafeEntry(p, d', j) && (j < i ==> After(p, d', j)) && (j > i ==> Exact(p, d', j))
    {
      assert SafeEntry(p, d, j);
      if j < i { assert After(p, d, j); }
      if j > i { assert Exact(p, d, j); }
    }
  }

  /** Moving a target into quarantine installs its deletion. */
  lemma QuarantineTarget(p: Plan, d: Disk, i: nat)
    requires ValidPlan(p) && i < |p.entries| && Safe(p, d) && Installed(p, d, i) && p.entries[i].action == Delete
    requires ReadMatching(p, d, i, p.entries[i].before, true)
    ensures var d' := Set(p, Set(p, d, Quarantine, i, At(p, d, Target, i)), Target, i, Missing);
            && Safe(p, d') && Installed(p, d', i + 1)
            && forall j: nat | j < |p.entries| && i < j ::
                 At(p, d', Quarantine, j) == At(p, d, Quarantine, j) && At(p, d', Pending, j) == At(p, d, Pending, j)
  {
    hide At;
    var held := Set(p, d, Quarantine, i, At(p, d, Target, i));
    var d' := Set(p, held, Target, i, Missing);
    SetFrame(p, d, Quarantine, i, At(p, d, Target, i));
    SetFrame(p, held, Target, i, Missing);
    assert SafeEntry(p, d, i) && Exact(p, d, i);
    ApplyFrame(p, d, d', i);
  }

  lemma ApplyDeleteKeeps(p: Plan, m: Machine, f: Fate)
    requires Inv(p, m) && m.pc.ApplyEntry? && p.entries[m.pc.i].action == Delete
    ensures Inv(p, Step(p, m, f))
  {
    hide At;
    hide Set;
    hide SafeEntry;
    if ReadMatching(p, m.world.disk, m.pc.i, p.entries[m.pc.i].before, true) {
      QuarantineTarget(p, m.world.disk, m.pc.i);
    }
  }

  /** Staging a candidate beside its target. */
  lemma StageCandidate(p: Plan, d: Disk, i: nat, f: Fate)
    requires ValidPlan(p) && i < |p.entries| && Safe(p, d) && Installed(p, d, i)
    requires p.entries[i].after.Regular? && At(p, d, Candidate, i).Regular?
    requires At(p, d, Candidate, i).file.content == p.entries[i].after.file.content
    ensures var en := p.entries[i];
            var d' := Set(p, d, Pending, i, Written(p, en.parentId.device, At(p, d, Candidate, i).file.content, en.after, StampOf(f)));
            && Safe(p, d') && Installed(p, d', i)
            && Matches(At(p, d', Pending, i), en.after, false)
            && forall j: nat | j < |p.entries| && i < j ::
                 At(p, d', Quarantine, j) == At(p, d, Quarantine, j) && At(p, d', Pending, j) == At(p, d, Pending, j)
  {
    hide At;
    hide Set;
    var en := p.entries[i];
    assert SafeEntry(p, d, i) && Exact(p, d, i);
    var staged := Written(p, en.parentId.device, At(p, d, Candidate, i).file.content, en.after, StampOf(f));
    SetFrame(p, d, Pending, i, staged);
    ApplyFrame(p, d, Set(p, d, Pending, i, staged), i);
  }

  lemma ApplyStageKeeps(p: Plan, m: Machine, f: Fate)
    requires Inv(p, m) && m.pc.ApplyEntry? && p.entries[m.pc.i].action != Delete
    ensures Inv(p, Step(p, m, f))
  {
    hide At;
    hide Set;
    hide Safe;
    hide Installed;
    var d, i := m.world.disk, m.pc.i;
    var en := p.entries[i];
    if At(p, d, Candidate, i).Regular? && At(p, d, Candidate, i).file.content == en.after.file.content {
      StageCandidate(p, d, i, f);
    }
  }

  /** Renaming a staged candidate onto its target. */
  lemma InstallCandidate(p: Plan, d: Disk, i: nat)
    requires ValidPlan(p) && i < |p.entries| && Safe(p, d) && Installed(p, d, i)
    requires Matches(At(p, d, Pending, i), p.entries[i].after, false)
    ensures var d' := Move(p, d, Pending, i);
            && Safe(p, d') && Installed(p, d', i + 1)
            && forall j: nat | j < |p.entries| && i < j ::
                 At(p, d', Quarantine, j) == At(p, d, Quarantine, j) && At(p, d', Pending, j) == At(p, d, Pending, j)
  {
    hide At;
    hide Move;
    MoveFrame(p, d, Pending, i);
    assert SafeEntry(p, d, i);
    ApplyFrame(p, d, Move(p, d, Pending, i), i);
  }

  lemma ApplyStagedKeeps(p: Plan, m: Machine, f: Fate)
    requires Inv(p, m) && m.pc.ApplyStaged?
    ensures Inv(p, Step(p, m, f))
  {
    hide At;
    hide Move;
    hide Safe;
    hide Installed;
    InstallCandidate(p, m.world.disk, m.pc.i);
  }

  /** The same for a step of restoration. */
  lemma RestoreFrame(p: Plan, d: Disk, d': Disk, i: nat)
    requires ValidPlan(p) && i < |p.entries| && Safe(p, d)
    requires d'.dirs == d.dirs
    requires forall pl, j: nat | j < |p.entries| && j != i :: At(p, d', pl, j) == At(p, d, pl, j)
    requires SafeEntry(p, d', i)
    ensures Safe(p, d')
    ensures RestoredFrom(p, d, i + 1) ==> RestoredFrom(p, d', i + 1)
    ensures RestoredFrom(p, d, i + 1) && Before(p, d', i) ==> RestoredFrom(p, d', i)
  {
    hide At;
    forall j: nat | j < |p.entries| ensures SafeEntry(p, d', j) { assert SafeEntry(p, d, j); }
    forall j: nat | j < |p.entries| && i < j && RestoredFrom(p, d, i + 1) ensures Before(p, d', j) {
      assert Before(p, d, j);
    }
  }

  lemma RestoreRemoveKeeps(p: Plan, m: Machine, f: Fate)
    requires Inv(p, m) && m.pc.RestoreUndo? && Undo(p, m.world.disk, m.pc.left - 1).Remove?
    ensures Inv(p, Step(p, m, f))
  {
    hide At;
    var d, i := m.world.disk, m.pc.left - 1;
    assert SafeEntry(p, d, i);
    SetFrame(p, d, Target, i, Missing);
    RestoreFrame(p, d, Set(p, d, Target, i, Missing), i);
  }

  /** Moving `from` back onto the target of an entry held at its output. */
  lemma MoveBackRestores(p: Plan, d: Disk, i: nat, from: Place)
    requires ValidPlan(p) && i < |p.entries| && Safe(p, d) && from in {Quarantine, Restore}
    requires Matches(At(p, d, from, i), p.entries[i].before, false)
    ensures var d' := Move(p, d, from, i);
            && Safe(p, d') && Before(p, d', i)
            && (RestoredFrom(p, d, i + 1) ==> RestoredFrom(p, d', i))
  {
    hide At;
    hide Move;
    MoveFrame(p, d, from, i);
    assert SafeEntry(p, d, i);
    RestoreFrame(p, d, Move(p, d, from, i), i);
  }

  lemma RestoreMoveKeeps(p: Plan, m: Machine, f: Fate)
    requires Inv(p, m) && m.pc.RestoreUndo? && Undo(p, m.world.disk, m.pc.left - 1).MoveBack?
    ensures Inv(p, Step(p, m, f))
  {
    hide At;
    hide Move;
    hide Safe;
    hide RestoredFrom;
    MoveBackRestores(p, m.world.disk, m.pc.left - 1, Quarantine);
  }

  /** Staging an original beside its target. */
  lemma StageOriginal(p: Plan, d: Disk, i: nat, f: Fate)
    requires ValidPlan(p) && i < |p.entries| && Safe(p, d)
    requires p.entries[i].before.Regular? && At(p, d, Backup, i).Regular?
    requires At(p, d, Backup, i).file.content == p.entries[i].before.file.content
    ensures var en := p.entries[i];
            var d' := Set(p, d, Restore, i, Written(p, en.parentId.device, At(p, d, Backup, i).file.content, en.before, StampOf(f)));
            && Safe(p, d') && (RestoredFrom(p, d, i + 1) ==> RestoredFrom(p, d', i + 1))
            && Matches(At(p, d', Restore, i), en.before, false)
  {
    hide At;
    hide Set;
    var en := p.entries[i];
    assert SafeEntry(p, d, i);
    var staged := Written(p, en.parentId.device, At(p, d, Backup, i).file.content, en.before, StampOf(f));
    SetFrame(p, d, Restore, i, staged);
    RestoreFrame(p, d, Set(p, d, Restore, i, staged), i);
  }

  lemma RestoreStageKeeps(p: Plan, m: Machine, f: Fate)
    requires Inv(p, m) && m.pc.RestoreUndo? && Undo(p, m.world.disk, m.pc.left - 1).Stage?
    ensures Inv(p, Step(p, m, f))
  {
    hide At;
    hide Set;
    hide Safe;
    hide RestoredFrom;
    StageOriginal(p, m.world.disk, m.pc.left - 1, f);
  }

  lemma RestoreUndoKeeps(p: Plan, m: Machine, f: Fate)
    requires Inv(p, m) && m.pc.RestoreUndo?
    ensures Inv(p, Step(p, m, f))
  {
    hide At;
    match Undo(p, m.world.disk, m.pc.left - 1)
    case Remove => RestoreRemoveKeeps(p, m, f);
    case MoveBack => RestoreMoveKeeps(p, m, f);
    case Stage => RestoreStageKeeps(p, m, f);
    case _ =>
  }

  lemma RestoreStagedKeeps(p: Plan, m: Machine, f: Fate)
    requires Inv(p, m) && m.pc.RestoreStaged?
    ensures Inv(p, Step(p, m, f))
  {
    hide At;
    hide Move;
    hide Safe;
    hide RestoredFrom;
    MoveBackRestores(p, m.world.disk, m.pc.left - 1, Restore);
  }

  // ------------------------------------------------------------- all runs

  /** Every step keeps the invariant, whatever its fate. */
  lemma StepKeeps(p: Plan, m: Machine, f: Fate)
    requires Inv(p, m)
    ensures Inv(p, Step(p, m, f))
  {
    match m.pc
    case Idle(_) =>
    case PrepareRecord | PrepareReady | PrepareGiveUp => PrepareRecordKeeps(p, m, f);
    case PrepareEntry(_) => PrepareRecordKeeps(p, m, f);
    case PrepareBackup(_) => ArtifactKeeps(p, m, f);
    case PrepareCandidate(_) => ArtifactKeeps(p, m, f);
    case ApplyValidating | ApplyBaseline | ApplyInvalid | ApplyRecord | ApplyGiveUp => ApplyRecordKeeps(p, m, f);
    case ApplyEntry(i) => if p.entries[i].action == Delete { ApplyDeleteKeeps(p, m, f); } else { ApplyStageKeeps(p, m, f); }
    case ApplyStaged(_) => ApplyStagedKeeps(p, m, f);
    case ApplyVerifying | ApplyVerify | ApplyCommit => ApplyVerifyKeeps(p, m, f);
    case ApplyReload | RestoreReload => ReloadKeeps(p, m, f);
    case CancelRecord => CancelKeeps(p, m, f);
    case RollbackRecord => RollbackKeeps(p, m, f);
    case RestoreEntry(_, _) => RestoreHeadKeeps(p, m, f);
    case RestoreUndo(_, _) => RestoreUndoKeeps(p, m, f);
    case RestoreStaged(_, _) => RestoreStagedKeeps(p, m, f);
    case RestoreVerify | RestoreCommit | RestoreFailed => RestoreRecordKeeps(p, m, f);
    case ReconcileRecord(_) => ReconcileKeeps(p, m, f);
  }

  lemma {:induction false} ExecuteKeeps(p: Plan, m: Machine, fates: seq<Fate>)
    requires Inv(p, m)
    ensures Inv(p, Execute(p, m, fates))
    decreases |fates|
  {
    if !m.pc.Idle? && fates != [] {
      StepKeeps(p, m, fates[0]);
      ExecuteKeeps(p, Step(p, m, fates[0]), fates[1..]);
    }
  }

  /** Journal and files agree in every durable state that any sequence of calls can leave,
      each call failing or dying at any primitive. */
  lemma {:induction false} JournalAgreesWithFiles(p: Plan, w: World, attempts: seq<Attempt>)
    requires ValidPlan(p) && Journal(p, w) && Serving(p, w)
    ensures Journal(p, Session(p, w, attempts)) && Serving(p, Session(p, w, attempts))
    decreases |attempts|
  {
    if attempts != [] {
      BeginKeeps(p, w, attempts[0].call);
      ExecuteKeeps(p, Start(p, w, attempts[0].call), attempts[0].fates);
      JournalAgreesWithFiles(p, Perform(p, w, attempts[0]), attempts[1..]);
    }
  }
}
