/** Names and places: the naming scheme that keeps an operation's own files apart
    from every path it may be asked to change (recovery/engine.go). */
module Paths {
  import opened Decimals

  /** A clean absolute path, as its components. */
  type Path = seq<string>

  const RESERVED := ".cvkeharness-"

  function Parent(p: Path): Path
    requires |p| > 0
  {
    p[..|p| - 1]
  }

  predicate HasPrefix(s: string, prefix: string) {
    prefix <= s
  }

  /** `path == root` or `path` lies below `root`. */
  predicate Within(path: Path, root: Path) {
    root <= path
  }

  /** What the clean-absolute-path test guarantees of every component. */
  predicate CleanComponent(part: string) {
    && part != "" && part != "." && part != ".."
    && forall c :: c in part ==> c !in {'/', '\0', '\n', '\r'}
  }

  const SECRETS := {".git", ".ssh", ".gnupg", ".aws", ".azure", ".codex", ".cvkeharness", ".kube", ".docker"}
  const IDENTITY_FILES := {["etc", "passwd"], ["etc", "shadow"], ["etc", "group"], ["etc", "gshadow"], ["etc", "sudoers"]}
  const SYSTEM_ROOTS := {["proc"], ["sys"], ["dev"], ["boot"]}

  /** Where one executor keeps its state and what it may touch. */
  datatype Scope = Scope(stateDir: Path, executable: Path, roots: seq<Path>)

  /** The path test: whether `path` may be a target of a change. */
  predicate CheckPath(scope: Scope, path: Path) {
    && (forall part <- path :: CleanComponent(part))
    && path != scope.executable
    && !Within(path, scope.stateDir)
    && (forall root <- SYSTEM_ROOTS :: !Within(path, root))
    && (forall part <- path :: part !in SECRETS && !HasPrefix(part, RESERVED))
    && (forall file <- IDENTITY_FILES :: !Within(path, file))
    && exists root <- scope.roots :: path != root && Within(path, root)
  }

  function Zeros(k: nat): string {
    if k == 0 then "" else ['0'] + Zeros(k - 1)
  }

  /** `%04d`. */
  function Pad4(n: nat): string {
    var d := Text(n);
    if |d| < 4 then Zeros(4 - |d|) + d else d
  }

  lemma {:induction false} LeadingZeros(k: nat, s: string)
    requires Digits(s)
    ensures Digits(Zeros(k) + s) && Number(Zeros(k) + s) == Number(s)
    decreases k
  {
    if k == 0 {
      assert Zeros(k) + s == s;
    } else {
      ZerosEnd(k);
      LeadingZero(s);
      assert Zeros(k) + s == Zeros(k - 1) + (['0'] + s);
      LeadingZeros(k - 1, ['0'] + s);
    }
  }

  lemma {:induction false} LeadingZero(s: string)
    requires Digits(s)
    ensures Digits(['0'] + s) && Number(['0'] + s) == Number(s)
    decreases |s|
  {
    if s == "" {
      assert ['0'] + s == ['0'];
      assert ['0'][..0] == "";
    } else {
      LeadingZero(s[..|s| - 1]);
      assert (['0'] + s)[..|s|] == ['0'] + s[..|s| - 1];
    }
  }

  lemma {:induction false} ZerosEnd(k: nat)
    requires k > 0
    ensures Zeros(k) == Zeros(k - 1) + ['0']
  {
    if k > 1 { ZerosEnd(k - 1); }
  }

  lemma Pad4Injective(i: nat, j: nat)
    requires Pad4(i) == Pad4(j)
    ensures i == j
  {
    if |Text(i)| < 4 { LeadingZeros(4 - |Text(i)|, Text(i)); }
    if |Text(j)| < 4 { LeadingZeros(4 - |Text(j)|, Text(j)); }
  }

  /** The six places an entry of an operation occupies. */
  datatype Place = Target | Pending | Restore | Quarantine | Backup | Candidate

  function Suffix(place: Place): string
    requires place in {Pending, Restore, Quarantine}
  {
    match place case Pending => ".pending" case Restore => ".restore" case Quarantine => ".deleted"
  }

  function StagingName(id: string, i: nat, place: Place): string
    requires place in {Pending, Restore, Quarantine}
  {
    RESERVED + id + "-" + Pad4(i) + Suffix(place)
  }

  function ArtifactName(i: nat, place: Place): string
    requires place in {Backup, Candidate}
  {
    Pad4(i) + (if place == Backup then ".before" else ".after")
  }

  /** Where entry `i` of operation `id`, whose target is `path`, keeps `place`. */
  function Locate(assets: Path, id: string, path: Path, i: nat, place: Place): Path
    requires |path| > 0
  {
    match place
    case Target => path
    case Pending => Parent(path) + [StagingName(id, i, Pending)]
    case Restore => Parent(path) + [StagingName(id, i, Restore)]
    case Quarantine => Parent(path) + [StagingName(id, i, Quarantine), "original"]
    case Backup => assets + [id, ArtifactName(i, Backup)]
    case Candidate => assets + [id, ArtifactName(i, Candidate)]
  }

  /** What the path test leaves of a target: nothing reserved, nothing in the state directory. */
  predicate Placeable(stateDir: Path, path: Path) {
    && |path| > 0
    && !Within(path, stateDir)
    && forall part <- path :: !HasPrefix(part, RESERVED)
  }

  function AssetsOf(stateDir: Path): Path { stateDir + ["recovery"] }

  /** The suffixes have one length, so a staging name splits in one way only. */
  lemma StagingNameParts(id: string, i: nat, place: Place)
    requires place in {Pending, Restore, Quarantine}
    ensures var x := StagingName(id, i, place);
            && |x| == 22 + |id| + |Pad4(i)|
            && x[13..13 + |id|] == id
            && x[14 + |id|..|x| - 8] == Pad4(i)
            && x[|x| - 8..] == Suffix(place)
  {
  }

  lemma StagingNameInjective(id: string, i: nat, a: Place, id': string, j: nat, b: Place)
    requires a in {Pending, Restore, Quarantine} && b in {Pending, Restore, Quarantine}
    requires |id| == |id'| && StagingName(id, i, a) == StagingName(id', j, b)
    ensures a == b && id == id' && i == j
  {
    StagingNameParts(id, i, a);
    StagingNameParts(id', j, b);
    assert Suffix(a)[1] == Suffix(b)[1];
    Pad4Injective(i, j);
  }

  lemma ArtifactNameInjective(i: nat, a: Place, j: nat, b: Place)
    requires a in {Backup, Candidate} && b in {Backup, Candidate}
    requires ArtifactName(i, a) == ArtifactName(j, b)
    ensures a == b && i == j
  {
    var x, y := ArtifactName(i, a), ArtifactName(j, b);
    assert x[|x| - 2] == (if a == Backup then 'r' else 'e') && y[|y| - 2] == (if b == Backup then 'r' else 'e');
    var tail := if a == Backup then 7 else 6;
    assert x[..|x| - tail] == Pad4(i) && y[..|y| - tail] == Pad4(j);
    Pad4Injective(i, j);
  }

  lemma ArtifactNotStaging(n: nat, a: Place)
    requires a in {Backup, Candidate}
    ensures ArtifactName(n, a) != "original" && !HasPrefix(ArtifactName(n, a), RESERVED)
  {
    var x := ArtifactName(n, a);
    assert x[|x| - 1] == (if a == Backup then 'e' else 'r');
    StartsWithDigit(n);
    assert x[0] == Pad4(n)[0];
    assert RESERVED[0] == '.';
  }

  lemma StartsWithDigit(n: nat)
    ensures Digit(Pad4(n)[0])
  {
    assert Text(n)[0] in Text(n);
  }

  /** Two places coincide only when they are the same place of the same entry of the same
      operation, or are both targets: no operation's own file can ever be a target. */
  lemma PlacesDisjoint(stateDir: Path, id: string, path: Path, i: nat, a: Place,
                       id': string, path': Path, j: nat, b: Place)
    requires Placeable(stateDir, path) && Placeable(stateDir, path') && |id| == |id'|
    requires Locate(AssetsOf(stateDir), id, path, i, a) == Locate(AssetsOf(stateDir), id', path', j, b)
    ensures a == b
    ensures a == Target || (id == id' && i == j)
  {
    var x := Locate(AssetsOf(stateDir), id, path, i, a);
    var y := Locate(AssetsOf(stateDir), id', path', j, b);
    PlaceShape(stateDir, id, path, i, a);
    PlaceShape(stateDir, id', path', j, b);
    assert x[|x| - 1] == y[|y| - 1];
    if a in {Backup, Candidate} && b in {Backup, Candidate} {
      assert x[|x| - 2] == id && y[|y| - 2] == id';
      ArtifactNameInjective(i, a, j, b);
    } else if a in {Pending, Restore} && b in {Pending, Restore} {
      StagingNameInjective(id, i, a, id', j, b);
    } else if a == Quarantine && b == Quarantine {
      assert x[|x| - 2] == StagingName(id, i, a) && y[|y| - 2] == StagingName(id', j, b);
      StagingNameInjective(id, i, a, id', j, b);
    }
  }

  /** The last components tell the places apart. */
  lemma PlaceShape(stateDir: Path, id: string, path: Path, i: nat, a: Place)
    requires Placeable(stateDir, path)
    ensures var x := Locate(AssetsOf(stateDir), id, path, i, a);
            && |x| > 0
            && (a == Target ==> !Within(x, stateDir) && (forall part <- x :: !HasPrefix(part, RESERVED)))
            && (a in {Pending, Restore} ==> HasPrefix(x[|x| - 1], RESERVED))
            && (a == Quarantine ==> |x| > 1 && x[|x| - 1] == "original" && HasPrefix(x[|x| - 2], RESERVED))
            && (a in {Backup, Candidate} ==> Within(x, stateDir) && x[|x| - 1] != "original" && !HasPrefix(x[|x| - 1], RESERVED))
  {
    if a in {Backup, Candidate} { ArtifactNotStaging(i, a); }
  }
}
