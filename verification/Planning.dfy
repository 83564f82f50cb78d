/** Drawing up a plan (the first loop of `Prepare`, recovery/engine.go): which requests are
    accepted, and that what is accepted is a valid plan of the files as they are. */
module Planning {
  import opened Paths
  import opened RecoveryTypes
  import opened Engine
  import opened EngineSafety
  import opened EngineRollback
  import opened EngineOutcomes
  import opened Wrappers

  datatype Expectation = Anything | Exactly(content: string)

  datatype Change = Change(action: Action, path: Path, content: string, expected: Expectation, mode: nat)

  /** The operator limits that preparation enforces. */
  datatype Limits = Limits(maxFiles: nat, maxBytes: nat, maxFileBytes: nat)

  datatype NginxService = NginxService(binary: Path, config: Path, pidFile: Path)

  datatype SshService = SshService(
    binary: Path, session: Path, config: Path, pidFile: Path, hostKey: Path, authorizedKeys: Path)

  /** What the operator has configured beside the roots, by name, and the executables that reach
      the fleet. */
  datatype Estate = Estate(services: map<string, NginxService>, ssh: map<string, SshService>, transports: set<Path>)

  /** `service` and `sshService` name the adapter that a request goes through, or are empty;
      `reviewed` is that adapter's own verdict on contents, binary and process. */
  datatype Request = Request(
    id: string, changes: seq<Change>, service: string, sshService: string, reviewed: bool,
    scope: Scope, estate: Estate, account: Account, limits: Limits)

  function Selected(r: Request): string {
    if r.sshService != "" then "ssh:" + r.sshService else r.service
  }

  /** Binaries, process files, keys and transports are never touched; a managed configuration
      only through its own adapter. */
  predicate InScope(e: Estate, path: Path, selected: string) {
    && path !in e.transports
    && (forall name <- e.ssh ::
          && path !in {e.ssh[name].binary, e.ssh[name].session, e.ssh[name].pidFile, e.ssh[name].hostKey, e.ssh[name].authorizedKeys}
          && (path == e.ssh[name].config ==> selected == "ssh:" + name))
    && (forall name <- e.services ::
          && path !in {e.services[name].binary, e.services[name].pidFile}
          && (path == e.services[name].config ==> selected == name))
  }

  /** An adapter takes one replacement of its own configuration. */
  predicate AdapterAccepts(r: Request) {
    && (r.service != "" ==>
          && r.service in r.estate.services && r.reviewed && |r.changes| == 1
          && r.changes[0].action == Replace && r.changes[0].path == r.estate.services[r.service].config
          && CheckPath(r.scope, r.estate.services[r.service].pidFile))
    && (r.sshService != "" ==>
          && r.sshService in r.estate.ssh && r.reviewed && |r.changes| == 1
          && r.changes[0].action == Replace && r.changes[0].path == r.estate.ssh[r.sshService].config)
  }

  function FirstRoot(roots: seq<Path>, path: Path): (r: Option<Path>)
    ensures r.Some? <==> exists root <- roots :: path != root && Within(path, root)
  {
    if roots == [] then None
    else if path != roots[0] && Within(path, roots[0]) then Some(roots[0])
    else FirstRoot(roots[1..], path)
  }

  function BytesOf(fp: Fingerprint): nat {
    match fp case Missing => 0 case Regular(f) => |f.content|
  }

  function Cost(d: Disk, ch: Change): nat {
    BytesOf(Read(d.files, ch.path)) + |ch.content|
  }

  const MAX_MODE := 511  // 0777

  /** One change is acceptable on its own. */
  predicate Acceptable(r: Request, d: Disk, ch: Change) {
    var before := Read(d.files, ch.path);
    && InScope(r.estate, ch.path, Selected(r))
    && CheckPath(r.scope, ch.path)
    && |ch.path| > 0
    && ch.mode <= MAX_MODE && (ch.action != Create ==> ch.mode == 0)
    && (ch.action == Delete ==> ch.content == "")
    && Parent(ch.path) in d.dirs
    && FirstRoot(r.scope.roots, ch.path).Some?
    && FirstRoot(r.scope.roots, ch.path).value in d.dirs
    && d.dirs[FirstRoot(r.scope.roots, ch.path).value].device == d.dirs[Parent(ch.path)].device
    && BytesOf(before) <= r.limits.maxFileBytes
    && (before.Regular? ==> before.file.device == d.dirs[Parent(ch.path)].device)
    && (ch.action == Create <==> before.Missing?)
    && (ch.expected.Exactly? ==> before.Regular? && before.file.content == ch.expected.content)
    && |ch.content| <= r.limits.maxFileBytes
  }

  function TotalCost(d: Disk, changes: seq<Change>): nat {
    if changes == [] then 0 else TotalCost(d, changes[..|changes| - 1]) + Cost(d, changes[|changes| - 1])
  }

  /** The whole request is acceptable: each change is, no path occurs twice, and the originals
      and candidates together stay within the byte budget. */
  predicate AcceptableRequest(r: Request, d: Disk) {
    && (r.service == "" || r.sshService == "")
    && 0 < |r.changes| <= r.limits.maxFiles
    && (forall ch <- r.changes :: Acceptable(r, d, ch))
    && (forall i, j | 0 <= i < j < |r.changes| :: r.changes[i].path != r.changes[j].path)
    && TotalCost(d, r.changes) <= r.limits.maxBytes
    && AdapterAccepts(r)
  }

  function EntryOf(r: Request, d: Disk, ch: Change): Entry
    requires |ch.path| > 0 && Parent(ch.path) in d.dirs
  {
    var before := Read(d.files, ch.path);
    var parent := d.dirs[Parent(ch.path)];
    var after :=
      if ch.action == Delete then Missing
      else match before
           case Regular(f) => Regular(f.(content := ch.content, inode := 0, modified := 0))
           case Missing => Regular(File(ch.content, if ch.mode == 0 then PRIVATE_MODE else ch.mode,
                                        r.account.uid, r.account.gid, parent.device, 0, 0));
    Entry(ch.action, ch.path, parent, before, after)
  }

  /** What a request asks of the file at one path: `now` is what it is to hold, `before` what it
      holds. */
  predicate AsAsked(r: Request, ch: Change, before: Fingerprint, now: Fingerprint) {
    match ch.action
    case Delete => now.Missing?
    case Replace =>
      && before.Regular? && now.Regular? && now.file.content == ch.content
      && now.file.mode == before.file.mode && now.file.uid == before.file.uid && now.file.gid == before.file.gid
    case Create =>
      && now.Regular? && now.file.content == ch.content
      && now.file.mode == (if ch.mode == 0 then PRIVATE_MODE else ch.mode)
      && now.file.uid == r.account.uid && now.file.gid == r.account.gid
  }

  /** An entry carries out a change of the files as they are. */
  predicate CarriesOut(r: Request, d: Disk, ch: Change, en: Entry) {
    && |ch.path| > 0 && en.path == ch.path && en.action == ch.action
    && Parent(ch.path) in d.dirs && en.parentId == d.dirs[Parent(ch.path)]
    && en.before == Read(d.files, ch.path) && AsAsked(r, ch, en.before, en.after)
  }

  lemma EntryCarriesOut(r: Request, d: Disk, ch: Change)
    requires Acceptable(r, d, ch)
    ensures |ch.path| > 0 && Parent(ch.path) in d.dirs && CarriesOut(r, d, ch, EntryOf(r, d, ch))
  {
    hide InScope;
    hide CheckPath;
  }

  lemma {:induction false} CostGrows(d: Disk, changes: seq<Change>, n: nat)
    requires n <= |changes|
    ensures TotalCost(d, changes[..n]) <= TotalCost(d, changes)
    decreases |changes| - n
  {
    if n < |changes| {
      CostGrows(d, changes, n + 1);
      assert changes[..n + 1][..n] == changes[..n];
    } else {
      assert changes[..n] == changes;
    }
  }

  /** The first `n` changes have been accepted, with these running sums. */
  ghost predicate Accepted(r: Request, d: Disk, n: nat, seen: set<Path>, total: nat) {
    && n <= |r.changes|
    && (forall j | 0 <= j < n :: Acceptable(r, d, r.changes[j]) && r.changes[j].path in seen)
    && (forall path <- seen :: exists j :: 0 <= j < n && r.changes[j].path == path)
    && (forall j, k | 0 <= j < k < n :: r.changes[j].path != r.changes[k].path)
    && total == TotalCost(d, r.changes[..n])
  }

  lemma AcceptedNext(r: Request, d: Disk, n: nat, seen: set<Path>, total: nat)
    requires Accepted(r, d, n, seen, total) && n < |r.changes|
    ensures var ch := r.changes[n];
            && total + Cost(d, ch) == TotalCost(d, r.changes[..n + 1])
            && (ch.path !in seen && Acceptable(r, d, ch) ==> Accepted(r, d, n + 1, seen + {ch.path}, total + Cost(d, ch)))
            && (ch.path in seen || !Acceptable(r, d, ch) || total + Cost(d, ch) > r.limits.maxBytes ==> !AcceptableRequest(r, d))
  {
    hide Acceptable;
    hide Cost;
    var ch := r.changes[n];
    assert r.changes[..n + 1][..n] == r.changes[..n];
    CostGrows(d, r.changes, n + 1);
    if ch.path in seen {
      var j :| 0 <= j < n && r.changes[j].path == ch.path;
    }
    if ch.path !in seen && Acceptable(r, d, ch) {
      forall path <- seen + {ch.path} ensures exists j :: 0 <= j < n + 1 && r.changes[j].path == path {
        if path == ch.path { assert r.changes[n].path == path; }
        else { var j :| 0 <= j < n && r.changes[j].path == path; }
      }
    }
  }

  /** Draws up the entries, or refuses: the request is accepted exactly when it is acceptable. */
  method DrawUp(r: Request, d: Disk) returns (plan: Option<seq<Entry>>)
    ensures plan.Some? <==> AcceptableRequest(r, d)
    ensures plan.Some? ==>
              && |plan.value| == |r.changes|
              && forall i | 0 <= i < |r.changes| :: CarriesOut(r, d, r.changes[i], plan.value[i])
  {
    hide CarriesOut;
    hide Acceptable;
    hide EntryOf;
    hide Cost;
    hide TotalCost;
    hide InScope;
    if r.service != "" && r.sshService != "" { return None; }
    if |r.changes| == 0 || |r.changes| > r.limits.maxFiles { return None; }
    var entries: seq<Entry>, seen: set<Path>, total: nat := [], {}, 0;
    var i := 0;
    NothingYet(r, d);
    while i < |r.changes|
      invariant 0 <= i <= |r.changes| && |entries| == i
      invariant Accepted(r, d, i, seen, total) && total <= r.limits.maxBytes
      invariant forall j | 0 <= j < i :: CarriesOut(r, d, r.changes[j], entries[j])
    {
      hide Accepted;
      hide AcceptableRequest;
      var ch := r.changes[i];
      AcceptedNext(r, d, i, seen, total);
      if ch.path in seen || !Acceptable(r, d, ch) { return None; }
      EntryCarriesOut(r, d, ch);
      if Cost(d, ch) > r.limits.maxBytes - total { return None; }
      entries := entries + [EntryOf(r, d, ch)];
      seen := seen + {ch.path};
      total := total + Cost(d, ch);
      i := i + 1;
    }
    assert r.changes[..i] == r.changes;
    if !AdapterAccepts(r) { return None; }
    return Some(entries);
  }

  lemma NothingYet(r: Request, d: Disk)
    ensures Accepted(r, d, 0, {}, 0)
  {
    assert r.changes[..0] == [];
  }

  function PlanOf(r: Request, entries: seq<Entry>): Plan {
    Plan(r.id, entries, r.service != "", r.scope.stateDir, r.account)
  }

  /** A service has a name, without a colon, as its validation has it. */
  predicate PlainNames(e: Estate) {
    && (forall name <- e.services :: name != "" && ':' !in name)
    && (forall name <- e.ssh :: name != "")
  }

  /** An accepted request that names a managed configuration is one replacement of that file
      alone, through the adapter of that service. */
  lemma ManagedIsAlone(r: Request, d: Disk, ch: Change, name: string)
    requires AcceptableRequest(r, d) && ch in r.changes && PlainNames(r.estate)
    ensures name in r.estate.services && ch.path == r.estate.services[name].config ==>
      r.changes == [ch] && ch.action == Replace && r.service == name && r.sshService == ""
    ensures name in r.estate.ssh && ch.path == r.estate.ssh[name].config ==>
      r.changes == [ch] && ch.action == Replace && r.sshService == name && r.service == ""
  {
    assert Acceptable(r, d, ch) && AdapterAccepts(r) && (r.service == "" || r.sshService == "");
    InItsScope(r, d, ch);
    hide Acceptable;
    hide AcceptableRequest;
    assert ("ssh:" + r.sshService)[3] == ':' && ("ssh:" + name)[3] == ':';
    assert ("ssh:" + r.sshService)[4..] == r.sshService && ("ssh:" + name)[4..] == name;
    hide CheckPath;
  }

  lemma InItsScope(r: Request, d: Disk, ch: Change)
    requires Acceptable(r, d, ch)
    ensures InScope(r.estate, ch.path, Selected(r))
  {
    hide InScope;
  }

  /** No file of the operation exists yet, as its random identity promises. */
  ghost predicate FreshId(p: Plan, d: Disk) {
    forall i: nat, place | i < |p.entries| && place != Target :: At(p, d, place, i).Missing?
  }

  lemma AcceptedEntry(r: Request, d: Disk, entries: seq<Entry>, i: nat)
    requires AcceptableRequest(r, d) && |entries| == |r.changes| && i < |entries|
    requires CarriesOut(r, d, r.changes[i], entries[i]) && FreshId(PlanOf(r, entries), d)
    ensures ValidEntry(entries[i]) && Placeable(r.scope.stateDir, entries[i].path) && PristineEntry(PlanOf(r, entries), d, i)
  {
    var p := PlanOf(r, entries);
    assert Acceptable(r, d, r.changes[i]);
    hide InScope;
    hide AdapterAccepts;
    hide TotalCost;
    hide AcceptableRequest;
    assert At(p, d, Pending, i).Missing? && At(p, d, Restore, i).Missing? && At(p, d, Quarantine, i).Missing?;
    hide Locate;
    hide FreshId;
    LocateTarget(p, i);
  }

  lemma AcceptedShape(r: Request, d: Disk)
    requires AcceptableRequest(r, d)
    ensures |r.changes| > 0 && forall i, j | 0 <= i < j < |r.changes| :: r.changes[i].path != r.changes[j].path
    ensures r.service != "" ==> |r.changes| == 1 && r.changes[0].action == Replace
  {
    hide Acceptable;
    hide TotalCost;
    hide CheckPath;
  }

  lemma CarriedPath(r: Request, d: Disk, ch: Change, en: Entry)
    requires CarriesOut(r, d, ch, en)
    ensures |ch.path| > 0 && en.path == ch.path && en.action == ch.action && AsAsked(r, ch, en.before, en.after)
    ensures en.before == Read(d.files, ch.path)
  {
    hide AsAsked;
  }

  lemma PristineJournal(p: Plan, w: World)
    requires w.status == Unrecorded && Pristine(p, w.disk) && RunsBefore(p, w)
    ensures Journal(p, w) && Serving(p, w)
  {
    hide Pristine;
  }

  /** An accepted request is a valid plan of the files as they are, so that every result about
      prepared operations starts from here; a managed service must be running the configuration
      that is in place. */
  lemma AcceptedIsValid(r: Request, d: Disk, entries: seq<Entry>, running: string)
    requires |r.id| == 32 && AcceptableRequest(r, d)
    requires |entries| == |r.changes| && forall i | 0 <= i < |entries| :: CarriesOut(r, d, r.changes[i], entries[i])
    requires FreshId(PlanOf(r, entries), d) && RunsBefore(PlanOf(r, entries), World(d, Unrecorded, running))
    ensures var p := PlanOf(r, entries);
            var w := World(d, Unrecorded, running);
            ValidPlan(p) && Journal(p, w) && Serving(p, w)
  {
    var p := PlanOf(r, entries);
    AcceptedShape(r, d);
    hide AcceptableRequest;
    hide FreshId;
    hide CarriesOut;
    hide ValidEntry;
    hide Placeable;
    hide PristineEntry;
    hide Journal;
    hide Serving;
    hide RunsBefore;
    forall i: nat | i < |entries|
      ensures ValidEntry(entries[i]) && Placeable(p.stateDir, entries[i].path) && PristineEntry(p, d, i)
      ensures entries[i].path == r.changes[i].path && entries[i].action == r.changes[i].action
    {
      AcceptedEntry(r, d, entries, i);
      CarriedPath(r, d, r.changes[i], entries[i]);
    }
    PristineJournal(p, World(d, Unrecorded, running));
  }

  lemma LocateTarget(p: Plan, i: nat)
    requires i < |p.entries| && |p.entries[i].path| > 0
    ensures LocationOf(p, Target, i) == p.entries[i].path
  {
  }

  /** Before anything is preserved, nothing stands in the way of preserving it. */
  lemma FreshIsFree(p: Plan, d: Disk)
    requires FreshId(p, d)
    ensures FreeFrom(p, d, 0)
  {
    hide At;
  }

  lemma InstalledAsAsked(r: Request, d: Disk, now: Disk, entries: seq<Entry>, i: nat)
    requires i < |r.changes| && |entries| == |r.changes| && CarriesOut(r, d, r.changes[i], entries[i])
    requires After(PlanOf(r, entries), now, i)
    ensures AsAsked(r, r.changes[i], Read(d.files, r.changes[i].path), Read(now.files, r.changes[i].path))
  {
    LocateTarget(PlanOf(r, entries), i);
    hide LocationOf;
  }

  /** From the request to the disk: drawn up, prepared and applied without a disturbance, an
      accepted request leaves at every path what it asks for, a replacement with the owner and
      mode of the original, and nothing where a deletion is asked for; a managed service runs
      the requested configuration. */
  lemma RequestIsCarriedOut(r: Request, d: Disk, entries: seq<Entry>, running: string, first: seq<Fate>, second: seq<Fate>)
    requires |r.id| == 32 && AcceptableRequest(r, d)
    requires |entries| == |r.changes| && forall i | 0 <= i < |entries| :: CarriesOut(r, d, r.changes[i], entries[i])
    requires FreshId(PlanOf(r, entries), d) && RunsBefore(PlanOf(r, entries), World(d, Unrecorded, running))
    requires AllDone(first) && |first| >= 3 * |entries| + 3 && AllDone(second) && |second| >= 2 * |entries| + 7
    ensures var p := PlanOf(r, entries);
            var prepared := Execute(p, Start(p, World(d, Unrecorded, running), Prepare), first);
            var applied := Execute(p, Start(p, prepared.world, Apply(true, true)), second);
            && Succeeded(Prepare, prepared) && Succeeded(Apply(true, true), applied)
            && (forall ch <- r.changes :: AsAsked(r, ch, Read(d.files, ch.path), Read(applied.world.disk.files, ch.path)))
            && (r.service != "" ==> applied.world.running == r.changes[0].content)
  {
    var p := PlanOf(r, entries);
    var w := World(d, Unrecorded, running);
    AcceptedShape(r, d);
    AcceptedIsValid(r, d, entries, running);
    FreshIsFree(p, d);
    PrepareFinishes(p, w, first);
    var prepared := Execute(p, Start(p, w, Prepare), first);
    hide AcceptableRequest;
    hide CarriesOut;
    hide AsAsked;
    hide FreshId;
    hide FreeFrom;
    hide Pristine;
    hide Execute;
    hide Start;
    hide AllDone;
    hide Serving;
    ApplyCommits(p, prepared.world, second);
    var applied := Execute(p, Start(p, prepared.world, Apply(true, true)), second);
    hide After;
    hide At;
    forall ch <- r.changes ensures AsAsked(r, ch, Read(d.files, ch.path), Read(applied.world.disk.files, ch.path)) {
      var i: nat :| i < |r.changes| && r.changes[i] == ch;
      assert After(p, applied.world.disk, i);
      InstalledAsAsked(r, d, applied.world.disk, entries, i);
    }
    if r.service != "" { ServesAsAsked(r, d, entries, applied.world); }
  }

  lemma ServesAsAsked(r: Request, d: Disk, entries: seq<Entry>, w: World)
    requires r.service != "" && |entries| == |r.changes| == 1 && r.changes[0].action == Replace
    requires CarriesOut(r, d, r.changes[0], entries[0]) && RunsAfter(PlanOf(r, entries), w)
    ensures w.running == r.changes[0].content
  {
  }

  // ------------------------------------------------------------- what is accepted

  lemma {:induction false} CostIsCounted(d: Disk, changes: seq<Change>, i: nat)
    requires i < |changes|
    ensures Cost(d, changes[i]) <= TotalCost(d, changes)
    decreases |changes|
  {
    if i < |changes| - 1 { CostIsCounted(d, changes[..|changes| - 1], i); }
  }

  /** Of every change of an accepted request: the file is there exactly when it is not created,
      holds what the caller expects, is on the device of its directory and of its root, which
      lies above it; both contents are within the limits, alone and together; a mode is asked
      only of a new file and a deletion has no content. */
  lemma AcceptedChange(r: Request, d: Disk, i: nat)
    requires AcceptableRequest(r, d) && i < |r.changes|
    ensures var ch := r.changes[i];
            var before := Read(d.files, ch.path);
            && (before.Missing? <==> ch.action == Create)
            && (ch.expected.Exactly? ==> before.Regular? && before.file.content == ch.expected.content)
            && BytesOf(before) <= r.limits.maxFileBytes && |ch.content| <= r.limits.maxFileBytes
            && BytesOf(before) + |ch.content| <= r.limits.maxBytes && |r.changes| <= r.limits.maxFiles
            && ch.mode <= 0x1FF && (ch.mode != 0 ==> ch.action == Create)
            && (ch.action == Delete ==> ch.content == "")
            && (exists root <- r.scope.roots :: |root| < |ch.path| && root <= ch.path && root in d.dirs
                  && Parent(ch.path) in d.dirs && d.dirs[root].device == d.dirs[Parent(ch.path)].device)
            && (before.Regular? ==> before.file.device == d.dirs[Parent(ch.path)].device)
            && !(r.scope.stateDir <= ch.path) && ch.path != r.scope.executable && ch.path !in r.estate.transports
  {
    var ch := r.changes[i];
    assert Acceptable(r, d, ch);
    CostIsCounted(d, r.changes, i);
    assert Cost(d, ch) <= r.limits.maxBytes;
    hide AcceptableRequest;
    hide TotalCost;
    hide AdapterAccepts;
    FirstRootLies(r.scope.roots, ch.path);
    assert CheckPath(r.scope, ch.path);
  }

  lemma {:induction false} FirstRootLies(roots: seq<Path>, path: Path)
    requires FirstRoot(roots, path).Some?
    ensures var root := FirstRoot(roots, path).value; root in roots && root <= path && |root| < |path|
  {
    if !(path != roots[0] && Within(path, roots[0])) { FirstRootLies(roots[1..], path); }
  }

  /** The other way round: nothing else is asked of a request that goes through no adapter. Any
      list of distinct changes is accepted if every path is permitted by the path test and is
      nobody's binary, key or managed file, and every change fits the file that is there. */
  lemma PlainIsAccepted(r: Request, d: Disk)
    requires r.service == "" && r.sshService == "" && r.estate == Estate(map[], map[], r.estate.transports)
    requires 0 < |r.changes| <= r.limits.maxFiles && TotalCost(d, r.changes) <= r.limits.maxBytes
    requires forall i, j | 0 <= i < j < |r.changes| :: r.changes[i].path != r.changes[j].path
    requires forall ch <- r.changes ::
               && |ch.path| > 0 && ch.path !in r.estate.transports && CheckPath(r.scope, ch.path)
               && Parent(ch.path) in d.dirs && |ch.content| <= r.limits.maxFileBytes
               && forall root <- r.scope.roots :: root in d.dirs && d.dirs[root].device == d.dirs[Parent(ch.path)].device
    requires forall ch <- r.changes ::
               var before := Read(d.files, ch.path);
               match ch.action
               case Create => before.Missing? && ch.mode <= 0x1FF && ch.expected == Anything
               case _ =>
                 && before.Regular? && ch.mode == 0 && (ch.action == Delete ==> ch.content == "")
                 && before.file.device == d.dirs[Parent(ch.path)].device && |before.file.content| <= r.limits.maxFileBytes
                 && ch.expected in {Anything, Exactly(before.file.content)}
    ensures AcceptableRequest(r, d)
  {
    hide CheckPath;
    forall ch <- r.changes ensures Acceptable(r, d, ch) {
      PermittedHasRoot(r.scope, ch.path);
      FirstRootLies(r.scope.roots, ch.path);
    }
    hide Acceptable;
    hide TotalCost;
  }

  lemma PermittedHasRoot(scope: Scope, path: Path)
    requires CheckPath(scope, path)
    ensures FirstRoot(scope.roots, path).Some?
  {
  }
}
