/** Operations, entries and fingerprints (recovery/types.go), and the fingerprint
    comparison of recovery/engine.go. A content stands for its hash and length. */
module RecoveryTypes {
  import opened Paths

  datatype Status =
    | Unrecorded
    | Preparing
    | Ready
    | Applying
    | Verifying
    | Committed
    | Unknown
    | RollingBack
    | Recovered
    | RecoveryFailed
    | PreparationFailed
    | Validating
    | ValidationFailed

  datatype File = File(content: string, mode: nat, uid: nat, gid: nat, device: nat, inode: nat, modified: int)

  datatype Fingerprint = Missing | Regular(file: File)

  /** Content-level comparison, or with `identity` also device, inode and time. */
  predicate Matches(actual: Fingerprint, want: Fingerprint, identity: bool) {
    match (actual, want)
    case (Missing, Missing) => true
    case (Regular(a), Regular(w)) =>
      && a.content == w.content && a.mode == w.mode && a.uid == w.uid && a.gid == w.gid
      && (identity ==> a.device == w.device && a.inode == w.inode && a.modified == w.modified)
    case _ => false
  }

  datatype DirId = DirId(device: nat, inode: nat)

  datatype Action = Replace | Create | Delete

  datatype Entry = Entry(action: Action, path: Path, parentId: DirId, before: Fingerprint, after: Fingerprint)

  /** The account the executor runs as. */
  datatype Account = Account(uid: nat, gid: nat)

  datatype Plan = Plan(id: string, entries: seq<Entry>, service: bool, stateDir: Path, account: Account)

  predicate ValidEntry(en: Entry) {
    match en.action
    case Create => en.before.Missing? && en.after.Regular?
    case Replace => en.before.Regular? && en.after.Regular?
    case Delete => en.before.Regular? && en.after.Missing?
  }

  /** What preparation guarantees of a plan. */
  ghost predicate ValidPlan(p: Plan) {
    && |p.id| == 32
    && |p.entries| > 0
    && (forall i | 0 <= i < |p.entries| :: ValidEntry(p.entries[i]) && Placeable(p.stateDir, p.entries[i].path))
    && (forall i, j | 0 <= i < j < |p.entries| :: p.entries[i].path != p.entries[j].path)
    && (p.service ==> |p.entries| == 1 && p.entries[0].action == Replace)
  }
}
