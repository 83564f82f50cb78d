/** Native checkpoints and restores of a subvolume (recovery/snapshot.go): clone, exchange and
    verify, where power may fail between any two primitives and the run is resumed later. A
    tree stands for its inventory. Nobody else writes to the subvolumes meanwhile. */
module Snapshot {
  import opened Wrappers

  datatype Status = Ready | Applying | Verifying | Unknown | Committed | Recovered

  datatype Subvolume = Subvolume(uuid: nat, parent: nat, readOnly: bool, tree: string)

  datatype Action = Checkpoint | Restore

  /** The reviewed action: which live subvolume, what it must hold before, and what a restore
      must leave. For a restore, `checkpoint` is the retained read-only subvolume. */
  datatype Plan = Plan(
    id: string, action: Action, source: Subvolume, checkpointName: string, checkpoint: Subvolume, desired: string)

  /** What the environment makes of one primitive; `Late` takes effect and reports an error. */
  datatype Fate = Good | Bad | Late

  /** Everything that survives a crash, and how often the tree was cloned and exchanged. */
  datatype Volumes = Volumes(
    live: Subvolume,
    store: map<string, Subvolume>,
    status: Status,
    receipts: seq<nat>,
    nextUuid: nat,
    clones: nat,
    exchanges: nat)

  function ArtifactName(p: Plan): string {
    p.id + if p.action.Checkpoint? then ".checkpoint" else ".displaced"
  }

  /** The status that ends an action. */
  function Final(p: Plan): Status {
    if p.action.Checkpoint? then Committed else Recovered
  }

  // ------------------------------------------------------------- configurations

  /** The artifact is a new clone of `of`, made by this action. */
  predicate IsClone(sv: Subvolume, of: Subvolume, readOnly: bool, tree: string) {
    sv.parent == of.uuid && sv.readOnly == readOnly && sv.tree == tree
  }

  /** Nothing has been made yet. */
  predicate Untouched(p: Plan, v: Volumes) {
    v.live == p.source && ArtifactName(p) !in v.store && v.clones == 0 && v.exchanges == 0
  }

  /** A clone stands beside the source. */
  predicate Staged(p: Plan, v: Volumes) {
    && v.live == p.source && ArtifactName(p) in v.store && v.clones == 1 && v.exchanges == 0
    && IsClone(v.store[ArtifactName(p)], if p.action.Checkpoint? then p.source else p.checkpoint, p.action.Checkpoint?, p.desired)
    && v.store[ArtifactName(p)].uuid != p.source.uuid
  }

  /** The clone is live and the whole old tree is retained. */
  predicate Exchanged(p: Plan, v: Volumes) {
    && p.action.Restore? && ArtifactName(p) in v.store && v.store[ArtifactName(p)] == p.source && v.clones == 1 && v.exchanges == 1
    && IsClone(v.live, p.checkpoint, false, p.desired) && v.live.uuid != p.source.uuid
  }

  predicate ValidPlan(p: Plan) {
    && !p.source.readOnly
    && (p.action.Checkpoint? ==> p.desired == p.source.tree)
    && (p.action.Restore? ==> p.checkpoint.readOnly && p.desired == p.checkpoint.tree && p.checkpointName != ArtifactName(p))
  }

  /** The checkpoint that a restore came from is still there, untouched. */
  predicate CheckpointKept(p: Plan, v: Volumes) {
    p.action.Restore? ==> p.checkpointName in v.store && v.store[p.checkpointName] == p.checkpoint
  }

  /** What holds at every point of every run. */
  predicate Inv(p: Plan, v: Volumes) {
    && ValidPlan(p) && CheckpointKept(p, v)
    && (Untouched(p, v) || Staged(p, v) || Exchanged(p, v))
    && v.nextUuid > p.source.uuid
    && (v.status == Ready ==> Untouched(p, v))
    && (v.status in {Verifying, Recovered} ==> Exchanged(p, v))
    && (v.status == Committed ==> p.action.Checkpoint? && Staged(p, v) && v.receipts == [v.store[ArtifactName(p)].uuid])
    && (v.receipts == [] || (p.action.Checkpoint? && Staged(p, v) && v.receipts == [v.store[ArtifactName(p)].uuid]))
  }

  predicate AllGood(fates: seq<Fate>) {
    forall i | 0 <= i < |fates| :: fates[i].Good?
  }

  const ENOUGH := 24

  class Runner {
    const plan: Plan
    var live: Subvolume
    var store: map<string, Subvolume>
    var status: Status
    var receipts: seq<nat>
    var nextUuid: nat
    var clones: nat
    var exchanges: nat
    /** The outcomes of the primitives to come; none left means that power fails. */
    var fates: seq<Fate>

    constructor (p: Plan, store: map<string, Subvolume>, nextUuid: nat)
      requires ValidPlan(p) && ArtifactName(p) !in store && nextUuid > p.source.uuid
      requires p.action.Restore? ==> p.checkpointName in store && store[p.checkpointName] == p.checkpoint
      ensures plan == p && Inv(p, Now()) && Now() == Volumes(p.source, store, Ready, [], nextUuid, 0, 0)
    {
      plan, live, this.store, status, receipts, this.nextUuid, clones, exchanges, fates :=
        p, p.source, store, Ready, [], nextUuid, 0, 0, [];
    }

    ghost function Now(): Volumes
      reads this
    {
      Volumes(live, store, status, receipts, nextUuid, clones, exchanges)
    }

    /** Luck lasts: no more than `n` primitives have been used, and none failed. */
    twostate predicate Lasting(n: nat)
      reads this
    {
      old(AllGood(fates)) && old(|fates|) >= n ==> AllGood(fates) && |fates| >= old(|fates|) - n
    }

    ghost predicate Lucky(n: nat)
      reads this
    {
      AllGood(fates) && |fates| >= n
    }

    // ----------------------------------------------------------- primitives

    /** The outcome of the next primitive; `None` when power has failed. */
    method Next() returns (f: Option<Fate>)
      modifies this`fates
      ensures fates == if |old(fates)| > 0 then old(fates)[1..] else []
      ensures f == if |old(fates)| > 0 then Some(old(fates)[0]) else None
    {
      if |fates| == 0 {
        return None;
      }
      f := Some(fates[0]);
      fates := fates[1..];
    }

    /** A read or a check of something outside the model. */
    method Check() returns (ok: bool)
      modifies this`fates
      ensures Lasting(1)
      ensures old(Lucky(1)) ==> ok
    {
      var f := Next();
      ok := f == Some(Good);
    }

    method Save(to: Status) returns (ok: bool)
      modifies this`fates, this`status
      ensures status == to || (status == old(status) && !ok)
      ensures Lasting(1)
      ensures old(Lucky(1)) ==> ok
    {
      var f := Next();
      if f.Some? && !f.value.Bad? {
        status := to;
      }
      ok := f == Some(Good);
    }

    /** Creates a subvolume under a name that must be free. */
    method Clone(from: Subvolume, name: string, readOnly: bool) returns (ok: bool)
      modifies this`fates, this`store, this`nextUuid, this`clones
      ensures (store == old(store) && nextUuid == old(nextUuid) && clones == old(clones) && !ok)
              || (name !in old(store) && store == old(store)[name := Subvolume(old(nextUuid), from.uuid, readOnly, from.tree)]
                  && nextUuid == old(nextUuid) + 1 && clones == old(clones) + 1)
      ensures Lasting(1)
      ensures old(Lucky(1)) && name !in old(store) ==> ok
    {
      var f := Next();
      if name in store || f.None? || f.value.Bad? {
        return false;
      }
      store := store[name := Subvolume(nextUuid, from.uuid, readOnly, from.tree)];
      nextUuid, clones := nextUuid + 1, clones + 1;
      ok := f == Some(Good);
    }

    /** Swaps the live path with an artifact, atomically. */
    method Exchange(name: string) returns (ok: bool)
      modifies this`fates, this`live, this`store, this`exchanges
      ensures (live == old(live) && store == old(store) && exchanges == old(exchanges) && !ok)
              || (name in old(store) && live == old(store)[name] && store == old(store)[name := old(live)]
                  && exchanges == old(exchanges) + 1)
      ensures Lasting(1)
      ensures old(Lucky(1)) && name in old(store) ==> ok
    {
      var f := Next();
      if name !in store || f.None? || f.value.Bad? {
        return false;
      }
      live, store, exchanges := store[name], store[name := live], exchanges + 1;
      ok := f == Some(Good);
    }

    method RecordReceipt(uuid: nat) returns (ok: bool)
      modifies this`fates, this`receipts
      ensures receipts == old(receipts) + [uuid] || (receipts == old(receipts) && !ok)
      ensures Lasting(1)
      ensures old(Lucky(1)) ==> ok
    {
      var f := Next();
      if f.Some? && !f.value.Bad? {
        receipts := receipts + [uuid];
      }
      ok := f == Some(Good);
    }

    /** The live path is still the reviewed source with its reviewed tree. */
    method MatchingSource() returns (ok: bool)
      modifies this`fates
      ensures ok ==> IsSource()
      ensures Lasting(1)
      ensures old(Lucky(1)) ==> ok == IsSource()
    {
      var read := Check();
      ok := read && IsSource();
    }

    predicate IsSource()
      reads this
    {
      live.uuid == plan.source.uuid && live.readOnly == plan.source.readOnly && live.tree == plan.source.tree
    }

    // ----------------------------------------------------------- checkpoint

    method CreateCheckpoint() returns (ok: bool)
      requires plan.action.Checkpoint? && Inv(plan, Now()) && status == Applying
      modifies this
      ensures Inv(plan, Now()) && status == Applying
      ensures ok ==> Staged(plan, Now()) && receipts == [store[ArtifactName(plan)].uuid]
      ensures Lasting(7)
      ensures old(Lucky(7)) ==> ok
    {
      var name := ArtifactName(plan);
      var present := Check();
      if !present {
        return false;
      }
      if name !in store {
        var same := MatchingSource();
        if !same {
          return false;
        }
        var cloned := Clone(live, name, true);
        if !cloned {
          return false;
        }
        var reopened := Check();
        if !reopened {
          return false;
        }
      }
      var artifact := store[name];
      if !artifact.readOnly || artifact.parent != plan.source.uuid {
        return false;
      }
      var read := Check();
      if !read || artifact.tree != plan.desired {
        return false;
      }
      if |receipts| > 0 {
        return receipts[|receipts| - 1] == artifact.uuid;
      }
      ok := RecordReceipt(artifact.uuid);
    }

    // ----------------------------------------------------------- restore

    /** The retained checkpoint is the reviewed one. */
    method VerifyCheckpoint() returns (ok: bool)
      requires plan.action.Restore? && Inv(plan, Now())
      modifies this`fates
      ensures ok ==> plan.checkpointName in store
      ensures Lasting(2)
      ensures old(Lucky(2)) ==> ok
    {
      var present := Check();
      if !present || plan.checkpointName !in store {
        return false;
      }
      var checkpoint := store[plan.checkpointName];
      if checkpoint.uuid != plan.checkpoint.uuid || checkpoint.parent != plan.checkpoint.parent || !checkpoint.readOnly {
        return false;
      }
      var verified := Check();
      ok := verified && checkpoint.tree == plan.desired;
    }

    /** Finds the staged or displaced subvolume, or clones the checkpoint. */
    method Stage(name: string) returns (ok: bool)
      requires plan.action.Restore? && Inv(plan, Now()) && name == ArtifactName(plan) && status == Applying
      modifies this
      ensures Inv(plan, Now()) && status == Applying && live == old(live)
      ensures ok ==> name in store
      ensures Lasting(4)
      ensures old(Lucky(4)) ==> ok
    {
      var found := Check();
      if !found {
        return false;
      }
      if name !in store {
        var same := MatchingSource();
        if !same {
          return false;
        }
        var cloned := Clone(store[plan.checkpointName], name, false);
        if !cloned {
          return false;
        }
        var reopened := Check();
        if !reopened {
          return false;
        }
      }
      ok := true;
    }

    /** Exchanges the staged clone with the live source, unless that has happened already;
        `identity` is the live subvolume as the run found it. */
    method ExchangeOnce(name: string, identity: Subvolume) returns (ok: bool)
      requires plan.action.Restore? && Inv(plan, Now()) && name == ArtifactName(plan) && status == Applying
      requires identity == live && name in store
      modifies this
      ensures Inv(plan, Now()) && status == Applying
      ensures ok ==> Exchanged(plan, Now())
      ensures Lasting(3)
      ensures old(Lucky(3)) ==> ok
    {
      var staged := store[name];
      if staged.readOnly {
        return false;
      }
      if identity.uuid == plan.source.uuid {
        if staged.parent != plan.checkpoint.uuid {
          return false;
        }
        var read := Check();
        if !read || staged.tree != plan.desired {
          return false;
        }
        var same := MatchingSource();
        if !same {
          return false;
        }
        ok := Exchange(name);
      } else {
        ok := staged.uuid == plan.source.uuid && identity.parent == plan.checkpoint.uuid;
      }
    }

    method RestoreSnapshot(identity: Subvolume) returns (ok: bool)
      requires plan.action.Restore? && Inv(plan, Now()) && status == Applying && identity == live
      modifies this
      ensures Inv(plan, Now()) && status in {Applying, Verifying}
      ensures ok ==> Exchanged(plan, Now())
      ensures Lasting(14)
      ensures old(Lucky(14)) ==> ok
    {
      var name := ArtifactName(plan);
      ok := VerifyCheckpoint();
      if !ok {
        return false;
      }
      ok := Stage(name);
      if !ok {
        return false;
      }
      ok := ExchangeOnce(name, identity);
      if !ok {
        return false;
      }
      ok := Save(Verifying);
      if !ok {
        return false;
      }
      ok := VerifyExchange(name);
    }

    method VerifyExchange(name: string) returns (ok: bool)
      requires plan.action.Restore? && Exchanged(plan, Now()) && name == ArtifactName(plan)
      modifies this`fates
      ensures Lasting(4)
      ensures old(Lucky(4)) ==> ok
    {
      var current := Check();
      if !current || live.parent != plan.checkpoint.uuid {
        return false;
      }
      var read := Check();
      if !read || live.tree != plan.desired {
        return false;
      }
      var present := Check();
      if !present || name !in store || store[name].uuid != plan.source.uuid {
        return false;
      }
      var retained := Check();
      ok := retained && store[name].tree == plan.source.tree;
    }

    // ----------------------------------------------------------- runs

    /** The action itself, and the status that records how it went. */
    method Perform(identity: Subvolume) returns (ok: bool)
      requires Inv(plan, Now()) && status == Applying && identity == live
      modifies this
      ensures Inv(plan, Now()) && status != Ready
      ensures ok ==> status == Final(plan)
      ensures old(Lucky(15)) ==> ok
    {
      var done;
      if plan.action.Checkpoint? {
        done := CreateCheckpoint();
      } else {
        done := RestoreSnapshot(identity);
      }
      if !done {
        var recorded := Save(Unknown);
        return false;
      }
      ok := Save(if plan.action.Checkpoint? then Committed else Recovered);
    }

    /** One call, first or resumed; power may fail anywhere in it. */
    method RunSnapshot(resume: bool, admitted: bool, outcomes: seq<Fate>) returns (ok: bool)
      requires Inv(plan, Now())
      modifies this
      ensures Inv(plan, Now()) && NothingLost(plan, Now())
      ensures ok ==> status in {Committed, Recovered} && Complete(plan, Now())
      ensures old(status) in {Committed, Recovered} ==> ok && Now() == old(Now())
      ensures old(status) in {Committed, Recovered} || resume == (old(status) == Ready) ==> Now() == old(Now())
      ensures (!resume ==> admitted) && resume == (old(status) != Ready) && AllGood(outcomes) && |outcomes| >= ENOUGH ==>
                ok && status == Final(plan)
    {
      fates := outcomes;
      ok := Call(resume, admitted);
      NothingIsLost(plan, Now());
      FinalStatus(plan, Now());
      if ok {
        CompletionMeans(plan, Now());
      }
    }

    method Call(resume: bool, admitted: bool) returns (ok: bool)
      requires Inv(plan, Now())
      modifies this
      ensures Inv(plan, Now())
      ensures ok ==> status in {Committed, Recovered}
      ensures old(status) in {Committed, Recovered} ==> ok && Now() == old(Now())
      ensures old(status) in {Committed, Recovered} || resume == (old(status) == Ready) ==> Now() == old(Now())
      ensures (!resume ==> admitted) && resume == (old(status) != Ready) && old(Lucky(ENOUGH)) ==> ok && status in {Committed, Recovered}
    {
      if status == Committed || status == Recovered {
        return true;
      }
      if !resume {
        if status != Ready || !admitted {
          return false;
        }
      } else if status == Ready {
        return false;
      }
      var present := Check();
      if !present || live.readOnly {
        return false;
      }
      var identity := live;
      if !resume {
        var same := MatchingSource();
        if !same {
          return false;
        }
      }
      var begun := Save(Applying);
      if !begun {
        return false;
      }
      ok := Perform(identity);
    }

    /** Any number of calls, each cut short anywhere. At most one clone and one exchange ever
        happen, nothing is ever lost, and a last call left to itself completes. */
    method RunAll(attempts: seq<seq<Fate>>, admitted: bool)
      requires Inv(plan, Now())
      modifies this
      ensures Inv(plan, Now()) && clones <= 1 && exchanges <= 1
      ensures NothingLost(plan, Now())
      ensures status in {Committed, Recovered} ==> Complete(plan, Now())
      ensures |attempts| > 0 && admitted && AllGood(attempts[|attempts| - 1]) && |attempts[|attempts| - 1]| >= ENOUGH ==>
                status == Final(plan)
    {
      var i := 0;
      while i < |attempts|
        invariant 0 <= i <= |attempts|
        invariant Inv(plan, Now())
        invariant i > 0 && admitted && AllGood(attempts[i - 1]) && |attempts[i - 1]| >= ENOUGH ==> status == Final(plan)
      {
        var ok := RunSnapshot(status != Ready, admitted, attempts[i]);
        i := i + 1;
      }
      NothingIsLost(plan, Now());
      FinalStatus(plan, Now());
      if status == Final(plan) {
        CompletionMeans(plan, Now());
      }
    }
  }

  /** The desired tree is live, the old one is retained in full, and the checkpoint it came
      from still exists; or one read-only clone of the live tree has its receipt. */
  predicate Complete(p: Plan, v: Volumes) {
    && v.status == Final(p) && ArtifactName(p) in v.store && v.clones == 1
    && (p.action.Restore? ==>
          && v.live.tree == p.checkpoint.tree && v.live.parent == p.checkpoint.uuid && !v.live.readOnly && v.exchanges == 1
          && v.store[ArtifactName(p)] == p.source
          && p.checkpointName in v.store && v.store[p.checkpointName] == p.checkpoint)
    && (p.action.Checkpoint? ==>
          && v.live == p.source && v.exchanges == 0
          && v.store[ArtifactName(p)].readOnly && v.store[ArtifactName(p)].tree == p.source.tree
          && v.receipts == [v.store[ArtifactName(p)].uuid])
  }

  lemma CompletionMeans(p: Plan, v: Volumes)
    requires Inv(p, v) && v.status == Final(p)
    ensures Complete(p, v)
  {
  }

  /** An action ends in its own final status only. */
  lemma FinalStatus(p: Plan, v: Volumes)
    requires Inv(p, v)
    ensures v.status in {Committed, Recovered} ==> v.status == Final(p)
  {
  }

  /** The original tree and the checkpoint both exist. */
  predicate NothingLost(p: Plan, v: Volumes) {
    && (v.live == p.source || (ArtifactName(p) in v.store && v.store[ArtifactName(p)] == p.source))
    && (p.action.Restore? ==> p.checkpointName in v.store && v.store[p.checkpointName] == p.checkpoint)
  }

  lemma NothingIsLost(p: Plan, v: Volumes)
    requires Inv(p, v)
    ensures NothingLost(p, v)
  {
  }

  /** Preparing a restore from a committed checkpoint, while `live` is at the path. */
  function PrepareRestore(p: Plan, v: Volumes, live: Subvolume, id: string): Option<Plan> {
    var name := ArtifactName(p);
    if v.status != Committed || !p.action.Checkpoint? || live.readOnly || name !in v.store then None
    else
      var b := v.store[name];
      if !b.readOnly || b.parent != p.source.uuid then None
      else if v.receipts == [] || v.receipts[|v.receipts| - 1] != b.uuid || b.tree != p.desired then None
      else Some(Plan(id, Restore, live, name, b, b.tree))
  }

  /** Whatever has become of the live tree since, a committed checkpoint can be restored, and
      the restore is bound to bring back the tree that was checkpointed. */
  lemma CheckpointIsRestorable(p: Plan, v: Volumes, live: Subvolume, id: string)
    requires Inv(p, v) && v.status == Committed && !live.readOnly && live.uuid < v.nextUuid
    requires id + ".displaced" !in v.store
    ensures PrepareRestore(p, v, live, id).Some?
    ensures var q := PrepareRestore(p, v, live, id).value;
      && q.desired == p.source.tree && q.source == live
      && Inv(q, Volumes(live, v.store, Ready, [], v.nextUuid, 0, 0))
  {
    var q := PrepareRestore(p, v, live, id).value;
    assert ArtifactName(q) == id + ".displaced";
  }
}
