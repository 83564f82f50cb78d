/** The journaled file transaction of recovery/engine.go, as a machine that performs one
    primitive per step: a journal save, a staged write, a rename, a move, a removal, a
    service reload, or a read that may fail. Losing power between any two primitives
    loses the program counter and nothing else. */
module Engine {
  import opened Paths
  import opened RecoveryTypes

  const PRIVATE_MODE := 384  // 0600

  /** Everything that survives a crash. `running` is the configuration a managed service
      last loaded. */
  datatype World = World(disk: Disk, status: Status, running: string)

  datatype Disk = Disk(files: map<Path, File>, dirs: map<Path, DirId>)

  /** What the environment makes of one primitive. `Unsynced` takes effect and still reports
      an error (a failed directory sync, a commit whose acknowledgement was lost). */
  datatype Fate = Done(stamp: Stamp) | Refused | Unsynced(stamp: Stamp) | Cancelled

  /** What the kernel picks for a new file. */
  datatype Stamp = Stamp(inode: nat, now: int)

  /** A request to the executor. `authorized` stands for digest, policy, kind and SSH guard
      tests; `current` for age, limits, scope and capacity. */
  datatype Call = Prepare | Apply(authorized: bool, current: bool) | Recover(authorized: bool) | Reconcile

  datatype Pc =
    | Idle(ok: bool)
    | PrepareRecord
    | PrepareEntry(i: nat)
    | PrepareBackup(i: nat)
    | PrepareCandidate(i: nat)
    | PrepareReady
    | PrepareGiveUp
    | ApplyValidating
    | ApplyBaseline
    | ApplyInvalid
    | ApplyRecord
    | ApplyEntry(i: nat)
    | ApplyStaged(i: nat)
    | ApplyVerifying
    | ApplyVerify
    | ApplyReload
    | ApplyCommit
    | ApplyGiveUp
    | CancelRecord
    | RollbackRecord
    | RestoreEntry(left: nat, failed: bool)
    | RestoreUndo(left: nat, failed: bool)
    | RestoreStaged(left: nat, failed: bool)
    | RestoreVerify
    | RestoreReload
    | RestoreCommit
    | RestoreFailed
    | ReconcileRecord(to: Status)

  datatype Machine = Machine(world: World, pc: Pc)

  // ---------------------------------------------------------------- files

  function Read(files: map<Path, File>, path: Path): Fingerprint {
    if path in files then Regular(files[path]) else Missing
  }

  function Put(files: map<Path, File>, path: Path, fp: Fingerprint): map<Path, File> {
    match fp
    case Missing => files - {path}
    case Regular(f) => files[path := f]
  }

  function LocationOf(p: Plan, place: Place, i: nat): Path
    requires i < |p.entries| && |p.entries[i].path| > 0
  {
    Locate(AssetsOf(p.stateDir), p.id, p.entries[i].path, i, place)
  }

  function At(p: Plan, d: Disk, place: Place, i: nat): Fingerprint
    requires i < |p.entries|
  {
    if |p.entries[i].path| == 0 then Missing else Read(d.files, LocationOf(p, place, i))
  }

  function Set(p: Plan, d: Disk, place: Place, i: nat, fp: Fingerprint): Disk
    requires i < |p.entries|
  {
    if |p.entries[i].path| == 0 then d else d.(files := Put(d.files, LocationOf(p, place, i), fp))
  }

  /** A file time survives `writeAt` as whole microseconds. */
  function Micros(ns: int): int {
    if ns >= 0 then ns / 1000 * 1000 else -((-ns) / 1000 * 1000)
  }

  /** The file that `writeAt` leaves behind. */
  function Written(p: Plan, device: nat, content: string, fp: Fingerprint, stamp: Stamp): Fingerprint {
    match fp
    case Missing => Regular(File(content, PRIVATE_MODE, p.account.uid, p.account.gid, device, stamp.inode, stamp.now))
    case Regular(f) =>
      Regular(File(content, f.mode, f.uid, f.gid, device, stamp.inode, if f.modified != 0 then Micros(f.modified) else stamp.now))
  }

  predicate ParentOk(d: Disk, en: Entry) {
    |en.path| > 0 && Parent(en.path) in d.dirs && d.dirs[Parent(en.path)] == en.parentId
  }

  /** The reviewed path, read under its reviewed parent, matches `want`. */
  predicate ReadMatching(p: Plan, d: Disk, i: nat, want: Fingerprint, identity: bool)
    requires i < |p.entries|
  {
    ParentOk(d, p.entries[i]) && Matches(At(p, d, Target, i), want, identity)
  }

  predicate ArtifactOk(p: Plan, fp: Fingerprint, content: string) {
    fp.Regular? && fp.file.content == content && fp.file.mode == PRIVATE_MODE && fp.file.uid == p.account.uid
  }

  predicate AssetsOk(p: Plan, d: Disk, i: nat)
    requires i < |p.entries|
  {
    var en := p.entries[i];
    && (en.before.Regular? ==> ArtifactOk(p, At(p, d, Backup, i), en.before.file.content))
    && (en.after.Regular? ==> ArtifactOk(p, At(p, d, Candidate, i), en.after.file.content))
  }

  /** Every target is still the file that was reviewed. */
  predicate Untouched(p: Plan, d: Disk) {
    forall i | 0 <= i < |p.entries| :: ReadMatching(p, d, i, p.entries[i].before, true)
  }

  predicate AllMatch(p: Plan, d: Disk, after: bool) {
    forall i | 0 <= i < |p.entries| ::
      ReadMatching(p, d, i, if after then p.entries[i].after else p.entries[i].before, false)
  }

  // ---------------------------------------------------------------- control

  /** One primitive: what it changes, and where control goes by what was reported. */
  function Act(f: Fate, w: World, changed: World, ok: Pc, err: Pc): Machine {
    match f
    case Done(_) => Machine(changed, ok)
    case Unsynced(_) => Machine(changed, err)
    case _ => Machine(w, err)
  }

  function Touch(f: Fate, w: World, disk: Disk, ok: Pc, err: Pc): Machine {
    Act(f, w, w.(disk := disk), ok, err)
  }

  function Save(f: Fate, w: World, to: Status, ok: Pc, err: Pc): Machine {
    Act(f, w, w.(status := to), ok, err)
  }

  function StampOf(f: Fate): Stamp {
    if f.Done? || f.Unsynced? then f.stamp else Stamp(0, 0)
  }

  /** Control at the head of the apply loop. */
  function AfterApplied(p: Plan, i: nat): Pc {
    if i < |p.entries| then ApplyEntry(i) else ApplyVerifying
  }

  /** Control at the head of the reverse restore loop. */
  function AfterRestored(left: nat, failed: bool): Pc {
    if left > 0 then RestoreEntry(left, failed) else if failed then RestoreFailed else RestoreVerify
  }

  /** A service rolls back at once; a file operation stops with an unknown outcome. */
  function OnApplyError(p: Plan): Pc {
    if p.service then RollbackRecord else ApplyGiveUp
  }

  function AfterArtifacts(p: Plan, i: nat): Pc {
    if i < |p.entries| then PrepareEntry(i) else PrepareReady
  }

  /** What restoring one entry calls for. */
  datatype UndoAction = Nothing | Conflict | Remove | MoveBack | Stage | Reuse

  function Undo(p: Plan, d: Disk, i: nat): UndoAction
    requires i < |p.entries|
  {
    var en := p.entries[i];
    var actual := At(p, d, Target, i);
    if !ParentOk(d, en) then Conflict
    else if Matches(actual, en.before, false) then Nothing
    else if !Matches(actual, en.after, false) then Conflict
    else if en.before.Missing? then Remove
    else if !ArtifactOk(p, At(p, d, Backup, i), en.before.file.content) then Conflict
    else if en.action == Delete && At(p, d, Quarantine, i).Regular? then
      if Matches(At(p, d, Quarantine, i), en.before, true) then MoveBack else Conflict
    else if At(p, d, Restore, i).Regular? then
      if Matches(At(p, d, Restore, i), en.before, false) then Reuse else Conflict
    else Stage
  }

  /** Where a call starts, decided under the lock from the journal and the files alone. */
  function Begin(p: Plan, w: World, c: Call): Pc {
    match c
    case Prepare => if w.status == Unrecorded then PrepareRecord else Idle(false)
    case Apply(authorized, current) =>
      if !authorized || w.status == Unrecorded then Idle(false)
      else if w.status == Committed then Idle(true)
      else if w.status != Ready || !current then Idle(false)
      else if !Untouched(p, w.disk) || !(forall i | 0 <= i < |p.entries| :: AssetsOk(p, w.disk, i)) then Idle(false)
      else if p.service then ApplyValidating else ApplyRecord
    case Recover(authorized) =>
      if !authorized || w.status == Unrecorded then Idle(false)
      else if w.status == Recovered then Idle(true)
      else if w.status == Ready then if Untouched(p, w.disk) then CancelRecord else Idle(false)
      else if w.status in {Preparing, PreparationFailed, ValidationFailed} then Idle(false)
      else RollbackRecord
    case Reconcile =>
      if w.status == Unrecorded then Idle(false)
      else if w.status == Preparing then ReconcileRecord(PreparationFailed)
      else if w.status in {Validating, Applying, Verifying, RollingBack} then ReconcileRecord(Unknown)
      else Idle(true)
  }

  function Move(p: Plan, d: Disk, from: Place, i: nat): Disk
    requires i < |p.entries|
  {
    Set(p, Set(p, d, Target, i, At(p, d, from, i)), from, i, Missing)
  }

  function ApplyEntryStep(p: Plan, w: World, i: nat, f: Fate): Machine
    requires i < |p.entries|
  {
    var en := p.entries[i];
    if !ReadMatching(p, w.disk, i, en.before, true) then Machine(w, OnApplyError(p))
    else if en.action == Delete then
      if At(p, w.disk, Quarantine, i).Regular? || en.before.Missing? then Machine(w, OnApplyError(p))
      else
        var moved := Set(p, Set(p, w.disk, Quarantine, i, At(p, w.disk, Target, i)), Target, i, Missing);
        Touch(f, w, moved, AfterApplied(p, i + 1), OnApplyError(p))
    else
      if en.after.Missing? || !ArtifactOk(p, At(p, w.disk, Candidate, i), en.after.file.content) || At(p, w.disk, Pending, i).Regular?
      then Machine(w, OnApplyError(p))
      else
        var staged := Written(p, en.parentId.device, At(p, w.disk, Candidate, i).file.content, en.after, StampOf(f));
        Touch(f, w, Set(p, w.disk, Pending, i, staged), ApplyStaged(i), OnApplyError(p))
  }

  function RestoreEntryStep(p: Plan, w: World, i: nat, failed: bool, f: Fate): Machine
    requires i < |p.entries|
  {
    match f
    case Cancelled => Machine(w, RestoreFailed)
    case Done(_) =>
      Machine(w, match Undo(p, w.disk, i)
                 case Nothing => AfterRestored(i, failed)
                 case Conflict => AfterRestored(i, true)
                 case Reuse => RestoreStaged(i + 1, failed)
                 case _ => RestoreUndo(i + 1, failed))
    case _ => Machine(w, AfterRestored(i, true))
  }

  function RestoreUndoStep(p: Plan, w: World, i: nat, failed: bool, f: Fate): Machine
    requires i < |p.entries|
  {
    var en := p.entries[i];
    match Undo(p, w.disk, i)
    case Remove => Touch(f, w, Set(p, w.disk, Target, i, Missing), AfterRestored(i, failed), AfterRestored(i, true))
    case MoveBack => Touch(f, w, Move(p, w.disk, Quarantine, i), AfterRestored(i, failed), AfterRestored(i, true))
    case Stage =>
      var staged := Written(p, en.parentId.device, At(p, w.disk, Backup, i).file.content, en.before, StampOf(f));
      Touch(f, w, Set(p, w.disk, Restore, i, staged), RestoreStaged(i + 1, failed), AfterRestored(i, true))
    case _ => Machine(w, AfterRestored(i, true))
  }

  function WriteArtifact(p: Plan, w: World, i: nat, place: Place, content: string, f: Fate, next: Pc): Machine
    requires i < |p.entries|
  {
    if At(p, w.disk, place, i).Regular? then Machine(w, PrepareGiveUp)
    else Touch(f, w, Set(p, w.disk, place, i, Written(p, 0, content, Missing, StampOf(f))), next, PrepareGiveUp)
  }

  /** The configuration a reload of the managed service makes it run. */
  function Loaded(p: Plan, w: World): World {
    if |p.entries| > 0 && At(p, w.disk, Target, 0).Regular? then w.(running := At(p, w.disk, Target, 0).file.content) else w
  }

  function Step(p: Plan, m: Machine, f: Fate): Machine {
    var w := m.world;
    match m.pc
    case Idle(_) => m

    case PrepareRecord => Save(f, w, Preparing, AfterArtifacts(p, 0), Idle(false))
    case PrepareEntry(i) =>
      if i >= |p.entries| || !f.Done? then Machine(w, PrepareGiveUp)
      else Machine(w, if p.entries[i].before.Regular? then PrepareBackup(i) else PrepareCandidate(i))
    case PrepareBackup(i) =>
      if i >= |p.entries| || p.entries[i].before.Missing? then Machine(w, PrepareGiveUp)
      else WriteArtifact(p, w, i, Backup, p.entries[i].before.file.content, f,
                         if p.entries[i].after.Regular? then PrepareCandidate(i) else AfterArtifacts(p, i + 1))
    case PrepareCandidate(i) =>
      if i >= |p.entries| || p.entries[i].after.Missing? then Machine(w, PrepareGiveUp)
      else WriteArtifact(p, w, i, Candidate, p.entries[i].after.file.content, f, AfterArtifacts(p, i + 1))
    case PrepareReady => Save(f, w, Ready, Idle(true), Idle(false))
    case PrepareGiveUp => Save(f, w, PreparationFailed, Idle(false), Idle(false))

    case ApplyValidating => Save(f, w, Validating, ApplyBaseline, Idle(false))
    case ApplyBaseline => Machine(w, if f.Done? then ApplyRecord else ApplyInvalid)
    case ApplyInvalid => Save(f, w, ValidationFailed, Idle(false), Idle(false))
    case ApplyRecord => Save(f, w, Applying, AfterApplied(p, 0), Idle(false))
    case ApplyEntry(i) => if i < |p.entries| then ApplyEntryStep(p, w, i, f) else Machine(w, OnApplyError(p))
    case ApplyStaged(i) =>
      if i < |p.entries| && At(p, w.disk, Pending, i).Regular? && Matches(At(p, w.disk, Target, i), p.entries[i].before, true)
      then Touch(f, w, Move(p, w.disk, Pending, i), AfterApplied(p, i + 1), OnApplyError(p))
      else Machine(w, OnApplyError(p))
    case ApplyVerifying =>
      // A lost acknowledgement leaves the process with a stale revision, so that no later
      // save of it, and no rollback, can happen.
      Save(f, w, Verifying, ApplyVerify, if p.service && !f.Unsynced? then RollbackRecord else Idle(false))
    case ApplyVerify =>
      Machine(w, if !f.Done? || !AllMatch(p, w.disk, true) then OnApplyError(p) else if p.service then ApplyReload else ApplyCommit)
    case ApplyReload => Act(f, w, Loaded(p, w), ApplyCommit, RollbackRecord)
    case ApplyCommit =>
      Save(f, w, Committed, Idle(true), if p.service && !f.Unsynced? then RollbackRecord else Idle(false))
    case ApplyGiveUp => Save(f, w, Unknown, Idle(false), Idle(false))

    case CancelRecord => Save(f, w, Recovered, Idle(true), Idle(false))
    case RollbackRecord => Save(f, w, RollingBack, AfterRestored(|p.entries|, false), Idle(false))
    case RestoreEntry(left, failed) =>
      if 0 < left <= |p.entries| then RestoreEntryStep(p, w, left - 1, failed, f) else Machine(w, RestoreFailed)
    case RestoreUndo(left, failed) =>
      if 0 < left <= |p.entries| then RestoreUndoStep(p, w, left - 1, failed, f) else Machine(w, RestoreFailed)
    case RestoreStaged(left, failed) =>
      if 0 < left <= |p.entries| && At(p, w.disk, Restore, left - 1).Regular?
         && Matches(At(p, w.disk, Target, left - 1), p.entries[left - 1].after, false)
      then Touch(f, w, Move(p, w.disk, Restore, left - 1), AfterRestored(left - 1, failed), AfterRestored(left - 1, true))
      else if 0 < left then Machine(w, AfterRestored(left - 1, true)) else Machine(w, RestoreFailed)
    case RestoreVerify =>
      Machine(w, if !f.Done? || !AllMatch(p, w.disk, false) then RestoreFailed else if p.service then RestoreReload else RestoreCommit)
    case RestoreReload => Act(f, w, Loaded(p, w), RestoreCommit, RestoreFailed)
    case RestoreCommit => Save(f, w, Recovered, Idle(true), Idle(false))
    case RestoreFailed => Save(f, w, RecoveryFailed, Idle(false), Idle(false))

    case ReconcileRecord(to) => Save(f, w, to, Idle(true), Idle(false))
  }

  /** Runs a process until it returns or, when the fates run out, dies. */
  function Execute(p: Plan, m: Machine, fates: seq<Fate>): Machine
    decreases |fates|
  {
    if m.pc.Idle? || fates == [] then m else Execute(p, Step(p, m, fates[0]), fates[1..])
  }

  lemma Steps(p: Plan, m: Machine, fates: seq<Fate>)
    requires !m.pc.Idle? && fates != []
    ensures Execute(p, m, fates) == Execute(p, Step(p, m, fates[0]), fates[1..])
  {
  }

  function Start(p: Plan, w: World, c: Call): Machine {
    Machine(w, Begin(p, w, c))
  }

  /** Whether the caller sees success: an apply that ended by restoring reports its failure. */
  predicate Succeeded(c: Call, m: Machine) {
    m.pc.Idle? && m.pc.ok && (c.Apply? ==> m.world.status == Committed)
  }

  /** One call under the executor lock, to its end or to the crash that cuts it. */
  datatype Attempt = Attempt(call: Call, fates: seq<Fate>)

  function Perform(p: Plan, w: World, a: Attempt): World {
    Execute(p, Start(p, w, a.call), a.fates).world
  }

  /** Any sequence of calls, each cut anywhere or not at all. */
  function Session(p: Plan, w: World, attempts: seq<Attempt>): World
    decreases |attempts|
  {
    if attempts == [] then w else Session(p, Perform(p, w, attempts[0]), attempts[1..])
  }
}
