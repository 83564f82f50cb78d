/** What the migration of model settings keeps, and exactly where it does not. */
module MigrationTheorems {
  import opened Unicode
  import opened ModelBindings
  import opened ModelMigration
  import opened Wrappers

  // ------------------------------------------------------------- connections

  /** A saved credential that takes the place of connection `name`, which holds the same key for
      the same provider but differs in its name, endpoint or login file. */
  ghost predicate Clobbers(s: Settings, name: string) {
    exists id <- s.apiKeys :: Replaces(Materialized(s), s.apiKeys, id, name)
  }

  lemma MaterializedKeeps(s: Settings, name: string)
    requires name in s.connections
    ensures name in Materialized(s) && Materialized(s)[name] == s.connections[name]
  {
  }

  /** The key of `id` replaces what `base` has under `name`. */
  ghost predicate Replaces(base: map<string, Connection>, keys: map<string, string>, id: string, name: string) {
    && id in keys && Supported(id) && Displaced(base, id, keys[id]) && FirstUsable(base, id, keys[id], name)
    && name in base && base[name] != SavedConnection(id, keys[id])
  }

  lemma UnreplacedStays(base: map<string, Connection>, keys: map<string, string>, added: map<string, Connection>,
          name: string)
    requires Adds(base, keys, SupportedKeys(keys), added) && name in base && forall id <- keys :: !Replaces(base, keys, id, name)
    ensures (base + added)[name] == base[name]
  {
    var ids := SupportedKeys(keys);
    if name in added {
      var id :| id in ids && WrittenFor(base, id, keys[id], name);
      assert id in keys && Supported(id) && !Replaces(base, keys, id, name);
      hide Supported;
      hide FirstUsable;
      hide SavedConnection;
      SavedIs(base, keys, ids, added, id, name);
    }
  }

  /** What one name of the base becomes. */
  lemma BaseAfter(s: Settings, t: Settings, name: string)
    requires Migrated(s, t) && name in Materialized(s)
    ensures name in t.connections
    ensures t.connections[name] == Materialized(s)[name] <==> !Clobbers(s, name)
  {
    var base, keys := Materialized(s), s.apiKeys;
    var added :| Adds(base, keys, SupportedKeys(keys), added) && t.connections == base + added;
    hide Materialized;
    hide Migrated;
    hide FirstUsable;
    hide SavedConnection;
    if id :| id in keys && Replaces(base, keys, id, name) {
      assert id in SupportedKeys(keys);
      hide Supported;
      SavedIs(base, keys, SupportedKeys(keys), added, id, name);
    } else {
      UnreplacedStays(base, keys, added, name);
    }
  }

  lemma FirstUsableIsUnique(base: map<string, Connection>, id: string, key: string, a: string, b: string)
    requires FirstUsable(base, id, key, a) && FirstUsable(base, id, key, b)
    ensures a == b
  {
    var i: nat :| i >= 1 && FirstUsableAt(base, id, key, i) && a == Candidate(id, i);
    var j: nat :| j >= 1 && FirstUsableAt(base, id, key, j) && b == Candidate(id, j);
  }

  lemma SavedIs(base: map<string, Connection>, keys: map<string, string>, ids: set<string>, added: map<string,
          Connection>, id: string, name: string)
    requires Adds(base, keys, ids, added) && id in ids && Displaced(base, id, keys[id])
    requires FirstUsable(base, id, keys[id], name)
    ensures name in added && added[name] == SavedConnection(id, keys[id])
  {
    assert HasSaved(base, id, keys[id], added);
    var other :| other in added && FirstUsable(base, id, keys[id], other) && added[other] == SavedConnection(id, keys[id]);
    FirstUsableIsUnique(base, id, keys[id], name, other);
  }

  /** Every connection is still there, and unchanged exactly when no saved credential takes its
      place. */
  lemma ConnectionsAreKept(s: Settings, t: Settings, name: string)
    requires Migrated(s, t) && name in s.connections
    ensures name in t.connections && (t.connections[name] == s.connections[name] <==> !Clobbers(s, name))
  {
    MaterializedKeeps(s, name);
    BaseAfter(s, t, name);
  }

  /** It does happen: a connection with its own endpoint, under the name that migration picks
      first for the same credential, loses that endpoint. */
  lemma EndpointIsLost(s: Settings, t: Settings, id: string)
    requires Migrated(s, t) && Supported(id) && id in s.apiKeys && s.apiKeys[id] != ""
    requires id in s.connections && s.connections[id].apiKey != s.apiKeys[id]
    requires var name := id + "-saved";
      && name in s.connections && s.connections[name].provider == id && s.connections[name].apiKey == s.apiKeys[id]
      && s.connections[name].baseURL != ""
    ensures var name := id + "-saved"; name in t.connections && t.connections[name].baseURL == "" && Clobbers(s, name)
  {
    var base, keys, name := Materialized(s), s.apiKeys, id + "-saved";
    MaterializedKeeps(s, id);
    MaterializedKeeps(s, name);
    hide Materialized;
    assert id in SupportedKeys(keys);
    var added :| Adds(base, keys, SupportedKeys(keys), added) && t.connections == base + added;
    hide Migrated;
    hide Adds;
    hide Supported;
    hide SupportedKeys;
    assert Candidate(id, 1) == name;
    assert FirstUsableAt(base, id, keys[id], 1);
    hide FirstUsableAt;
    assert FirstUsable(base, id, keys[id], name);
    SavedIs(base, keys, SupportedKeys(keys), added, id, name);
    assert Replaces(base, keys, id, name);
  }

  // ------------------------------------------------------------- credentials

  lemma NobodyElseWrites(base: map<string, Connection>, keys: map<string, string>, added: map<string, Connection>,
          id: string)
    requires Adds(base, keys, SupportedKeys(keys), added) && id in base && id in keys && Supported(id)
    requires !Displaced(base, id, keys[id])
    ensures id !in added
  {
    if id in added {
      var d :| d in SupportedKeys(keys) && WrittenFor(base, d, keys[d], id);
      WrittenInFamily(base, d, keys[d], id);
      assert Family(id, id);
      hide Supported;
      if d != id { FamiliesDisjoint(d, id, id); }
    }
  }

  /** Where the key of `id` is held: in a connection of that provider, or in the connection that
      bears the provider's name and held the key already. */
  predicate HeldAt(base: map<string, Connection>, all: map<string, Connection>, id: string, key: string, name: string) {
    && name in all && all[name].apiKey == key
    && (all[name].provider == id || (name == id && id in base && base[id].apiKey == key))
  }

  /** Every nonempty saved key of a supported provider is held by a connection afterwards. */
  lemma KeysAreHeld(s: Settings, t: Settings, id: string) returns (name: string)
    requires Migrated(s, t) && id in s.apiKeys && Supported(id) && s.apiKeys[id] != ""
    ensures HeldAt(Materialized(s), t.connections, id, s.apiKeys[id], name)
  {
    var base, keys, key := Materialized(s), s.apiKeys, s.apiKeys[id];
    var added :| Adds(base, keys, SupportedKeys(keys), added) && t.connections == base + added;
    assert id in SupportedKeys(keys);
    hide Migrated;
    hide Materialized;
    hide Supported;
    hide SupportedKeys;
    hide FirstUsable;
    name := id;
    if id !in base {
      assert id in added && added[id] == Connection("", id, "", key, "");
    } else if Displaced(base, id, key) {
      assert HasSaved(base, id, key, added);
      name :| name in added && FirstUsable(base, id, key, name) && added[name] == SavedConnection(id, key);
    } else {
      NobodyElseWrites(base, keys, added, id);
      hide Adds;
    }
  }

  // ------------------------------------------------------------- meaning

  lemma BindingsAfter(s: Settings, t: Settings, role: Role)
    requires Migrated(s, t) && role in ROLES && RoleBinding(s, role) != ZERO
    ensures RoleBinding(t, role) == RoleBinding(s, role)
  {
  }

  /** A connection that a role selects is materialized as it was. */
  lemma SelectedIsMaterialized(s: Settings, role: Role)
    requires role in ROLES
    requires var id := RoleBinding(s, role).connection; id != "" && ConnectionByID(s, id).Some?
    ensures var id := RoleBinding(s, role).connection; id in Materialized(s) && Materialized(s)[id] == ConnectionByID(s, id).value
  {
    var id := RoleBinding(s, role).connection;
    hide RoleBinding;
    assert id in ConnectionIDs(s);
  }

  lemma BlankEmpty()
    ensures Blank("")
  {
  }

  /** What it takes to resolve a role. */
  lemma Unfold(s: Settings, role: Role, seen: set<Role>)
    requires ResolveRole(s, role, seen).Some?
    ensures var b := RoleBinding(s, role);
      && role in ROLES && role !in seen && b != ZERO
      && if b.inherit.Some? then ResolveRole(s, role, seen) == ResolveRole(s, b.inherit.value, seen + {role})
         else ConnectionByID(s, b.connection).Some? && b.connection != ""
              && ResolveRole(s, role, seen) ==
                   Some(Resolved(b.connection, ConnectionByID(s, b.connection).value, b.model, b.connection !in s.connections))
  {
    BlankEmpty();
  }

  lemma Refold(s: Settings, role: Role, seen: set<Role>, b: Binding)
    requires role in ROLES && role !in seen && RoleBinding(s, role) == b
    ensures b.inherit.Some? && b.connection == "" && b.model == "" ==> ResolveRole(s, role, seen) == ResolveRole(s, b.inherit.value, seen + {role})
    ensures b.inherit.None? && !Blank(b.connection) && !Blank(b.model) && ConnectionByID(s, b.connection).Some? ==>
      ResolveRole(s, role, seen) == Some(Resolved(b.connection, ConnectionByID(s, b.connection).value, b.model, b.connection !in s.connections))
  {
    hide RoleBinding;
    hide ConnectionByID;
    hide Blank;
  }

  lemma ResolvableBinding(s: Settings, role: Role, seen: set<Role>)
    requires ResolveRole(s, role, seen).Some?
    ensures var b := RoleBinding(s, role);
      if b.inherit.Some? then b.connection == "" && b.model == "" else !Blank(b.connection) && !Blank(b.model)
  {
  }

  /** `t` resolves as `s` does, by the connections that migration left. */
  ghost predicate Alike(s: Settings, t: Settings, role: Role, seen: set<Role>) {
    var r, q := ResolveRole(s, role, seen), ResolveRole(t, role, seen);
    && r.Some? && q.Some? && q.value.id == r.value.id && q.value.model == r.value.model
    && r.value.id in Materialized(s) && Materialized(s)[r.value.id] == r.value.connection
    && r.value.id in t.connections && q.value.connection == t.connections[r.value.id] && !q.value.legacy
  }

  lemma {:induction false} RolesResolveAlike(s: Settings, t: Settings, role: Role, seen: set<Role>)
    requires Migrated(s, t) && ResolveRole(s, role, seen).Some?
    ensures Alike(s, t, role, seen)
    decreases |ROLES - seen|
  {
    hide Migrated;
    hide RoleBinding;
    hide ResolveRole;
    hide Materialized;
    hide Blank;
    var b := RoleBinding(s, role);
    Unfold(s, role, seen);
    ResolvableBinding(s, role, seen);
    BindingsAfter(s, t, role);
    Refold(t, role, seen, b);
    if b.inherit.Some? {
      SmallerSet(ROLES - (seen + {role}), ROLES - seen);
      RolesResolveAlike(s, t, b.inherit.value, seen + {role});
    } else {
      SelectedIsMaterialized(s, role);
      BaseAfter(s, t, b.connection);
    }
  }

  /** The migration preserves meaning: a role that resolved before resolves to the same
      connection name and model afterwards, and to the same connection exactly when its place
      was not taken. What was made up from legacy fields is explicit from then on. */
  lemma MeaningIsPreserved(s: Settings, t: Settings, role: Role)
    requires Migrated(s, t) && Resolve(s, role).Some?
    ensures Resolve(t, role).Some?
    ensures Resolve(t, role).value.id == Resolve(s, role).value.id
    ensures Resolve(t, role).value.model == Resolve(s, role).value.model
    ensures Resolve(t, role).value.connection == Resolve(s, role).value.connection <==> !Clobbers(s, Resolve(s, role).value.id)
    ensures !Resolve(t, role).value.legacy
    ensures Resolve(t, role) == Resolve(s, role) <==> !Clobbers(s, Resolve(s, role).value.id) && !Resolve(s, role).value.legacy
  {
    RolesResolveAlike(s, t, role, {});
    BaseAfter(s, t, Resolve(s, role).value.id);
  }

  // ------------------------------------------------------------- running it again

  /** A safety model of nothing but white space, which only a configuration without a provider
      turns into no binding at all. */
  predicate BlankJudge(s: Settings) {
    && ExplicitRole(s, SafetyJudge) == ZERO && ExplicitRole(s, Primary) == ZERO && s.provider == ""
    && s.safetyModel != "" && s.safetyModel != s.defaultModel && s.safetyModel != s.model && Blank(s.safetyModel)
  }

  lemma LegacyIsBound(s: Settings, raw: string)
    ensures Legacy(s, raw) != ZERO
  {
    if !Blank(raw) {
      var r := Trim(raw);
      assert Slash(r) < |r| && Supported(r[..Slash(r)]) ==> r[..Slash(r)] != "";
    }
  }

  /** Only two bindings can be empty: the primary one, and that of a blank judge. */
  lemma EmptyBindings(s: Settings, role: Role)
    requires role in ROLES && RoleBinding(s, role) == ZERO
    ensures role == Primary || (role == SafetyJudge && (s.provider == "" ==> BlankJudge(s)))
    ensures s.provider == ""
  {
    LegacyIsBound(s, s.planningModel);
    LegacyIsBound(s, s.executionModel);
    LegacyIsBound(s, s.curationModel);
    TrimEmpty();
    hide Legacy;
  }

  lemma TrimEmpty()
    ensures Trim("") == ""
  {
  }

  lemma JudgeIsEmpty(s: Settings)
    ensures BlankJudge(s) ==> RoleBinding(s, SafetyJudge) == ZERO
  {
    TrimEmpty();
  }

  lemma NoLegacy(t: Settings, role: Role)
    requires t.provider == "" && t.defaultModel == "" && t.model == "" && t.safetyModel == ""
    requires ExplicitRole(t, role) == ZERO
    ensures role == Primary ==> RoleBinding(t, role) == ZERO
    ensures role == SafetyJudge ==> RoleBinding(t, role) == Inherit(Primary)
  {
    TrimEmpty();
  }

  lemma BindingsAgain(s: Settings, t: Settings, role: Role)
    requires Migrated(s, t) && role in ROLES
    ensures RoleBinding(t, role) == RoleBinding(s, role) <==> !(role == SafetyJudge && BlankJudge(s))
  {
    JudgeIsEmpty(s);
    assert ExplicitRole(t, role) == RoleBinding(s, role);
    if RoleBinding(s, role) != ZERO {
      BindingsAfter(s, t, role);
    } else {
      EmptyBindings(s, role);
      NoLegacy(t, role);
    }
  }

  lemma RoleNamedBefore(s: Settings, t: Settings, role: Role)
    requires Migrated(s, t) && role in ROLES && s.connections == map[] && RoleBinding(t, role).connection != ""
    ensures RoleBinding(t, role).connection in ConnectionIDs(s)
  {
    BindingsAgain(s, t, role);
    if role == SafetyJudge && BlankJudge(s) {
      JudgeIsEmpty(s);
      assert ExplicitRole(t, role) == ZERO;
      NoLegacy(t, role);
    }
    hide RoleBinding;
  }

  lemma ModelNamedBefore(s: Settings, raw: string)
    requires s.connections == map[] && raw in s.approved + s.favorite && Supported(ParseLegacyModel(raw, "").0)
    ensures ParseLegacyModel(raw, "").0 in ConnectionIDs(s)
  {
    assert ParseLegacyModel(raw, s.provider).0 == ParseLegacyModel(raw, "").0;
    hide RoleBinding;
    hide ParseLegacyModel;
  }

  lemma NamedBefore(s: Settings, t: Settings, id: string)
    requires Migrated(s, t) && s.connections == map[] && t.connections == map[]
    requires id in ConnectionIDs(t) && Supported(id)
    ensures id in ConnectionIDs(s)
  {
    hide RoleBinding;
    hide ParseLegacyModel;
    if role :| role in ROLES && RoleBinding(t, role).connection == id {
      hide ConnectionIDs;
      RoleNamedBefore(s, t, role);
    } else {
      assert t.provider == "" && t.baseURL == "" && t.apiKeys == s.apiKeys - SupportedKeys(s.apiKeys);
      var raw :| raw in t.approved + t.favorite && ParseLegacyModel(raw, t.provider).0 == id;
      hide ConnectionIDs;
      ModelNamedBefore(s, raw);
    }
  }

  lemma SupportedIsMaterialized(s: Settings, id: string)
    requires s.connections == map[] && id in ConnectionIDs(s) && Supported(id)
    ensures id in Materialized(s)
  {
    hide ConnectionIDs;
  }

  lemma NothingNamed(s: Settings, t: Settings, id: string)
    requires Migrated(s, t) && s.connections == map[] && t.connections == map[] && Materialized(s) == map[]
    ensures !(id in ConnectionIDs(t) && Supported(id))
  {
    hide ConnectionIDs;
    hide Materialized;
    hide Migrated;
    hide Supported;
    if id in ConnectionIDs(t) && Supported(id) {
      NamedBefore(s, t, id);
      SupportedIsMaterialized(s, id);
    }
  }

  lemma EmptyBefore(s: Settings, t: Settings)
    requires Migrated(s, t) && t.connections == map[]
    ensures Materialized(s) == map[] && s.connections == map[]
  {
    var added :| Adds(Materialized(s), s.apiKeys, SupportedKeys(s.apiKeys), added) && t.connections == Materialized(s) + added;
    forall name ensures name !in Materialized(s) && name !in s.connections {
      assert name in Materialized(s) ==> name in t.connections;
      if name in s.connections { MaterializedKeeps(s, name); }
    }
    hide Materialized;
  }

  lemma ConnectionsAgain(s: Settings, t: Settings)
    requires Migrated(s, t)
    ensures Materialized(t) == t.connections
  {
    assert t.baseURL == "";
    if t.connections == map[] {
      EmptyBefore(s, t);
      forall id ensures !(id in ConnectionIDs(t) && Supported(id)) {
        NothingNamed(s, t, id);
      }
      hide Migrated;
      hide ConnectionIDs;
      hide Supported;
    } else {
      hide Migrated;
      hide RoleBinding;
    }
  }

  lemma NoKeysLeft(s: Settings, t: Settings)
    requires t.apiKeys == s.apiKeys - SupportedKeys(s.apiKeys)
    ensures SupportedKeys(t.apiKeys) == {} && t.apiKeys - SupportedKeys(t.apiKeys) == t.apiKeys
  {
    hide Supported;
  }

  lemma KeysAndConnections(s: Settings, t: Settings)
    requires Migrated(s, t)
    ensures t.apiKeys == s.apiKeys - SupportedKeys(s.apiKeys) && AddsAll(Materialized(s), s.apiKeys, t.connections)
  {
    hide Bindings;
    hide AddsAll;
    hide Materialized;
    hide SupportedKeys;
  }

  lemma AddsNone(base: map<string, Connection>, keys: map<string, string>, all: map<string, Connection>)
    requires AddsAll(base, keys, all) && SupportedKeys(keys) == {}
    ensures all == base
  {
    hide Adds;
    hide SupportedKeys;
    var added :| Adds(base, keys, SupportedKeys(keys), added) && all == base + added;
    AddsEmpty(base, keys, added);
  }

  /** Nothing is left to add. */
  lemma NothingToAdd(s: Settings, t: Settings, u: Settings)
    requires Migrated(s, t) && Migrated(t, u)
    ensures u.connections == t.connections && u.apiKeys == t.apiKeys
  {
    hide *;
    ConnectionsAgain(s, t);
    KeysAndConnections(s, t);
    KeysAndConnections(t, u);
    NoKeysLeft(s, t);
    AddsNone(t.connections, t.apiKeys, u.connections);
  }

  lemma AddsEmpty(base: map<string, Connection>, keys: map<string, string>, added: map<string, Connection>)
    requires Adds(base, keys, {}, added)
    ensures base + added == base
  {
    assert added == map[];
  }

  lemma SameBindings(s: Settings, t: Settings)
    ensures Bindings(s) == Bindings(t) <==> forall role <- ROLES :: RoleBinding(s, role) == RoleBinding(t, role)
  {
    hide RoleBinding;
    if Bindings(s) == Bindings(t) {
      forall role <- ROLES ensures RoleBinding(s, role) == RoleBinding(t, role) {
        assert Bindings(s)[role] == Bindings(t)[role];
      }
    }
  }

  lemma BindsAs(s: Settings, t: Settings)
    requires Migrated(s, t)
    ensures t.models == Bindings(s)
  {
    hide Bindings;
    hide AddsAll;
  }

  lemma BindingsDiffer(s: Settings, t: Settings, u: Settings)
    requires Migrated(s, t) && Migrated(t, u)
    ensures t.models == u.models <==> !BlankJudge(s)
  {
    assert SafetyJudge in ROLES;
    hide *;
    forall role <- ROLES ensures RoleBinding(t, role) == RoleBinding(s, role) <==> !(role == SafetyJudge && BlankJudge(s)) {
      BindingsAgain(s, t, role);
    }
    BindsAs(s, t);
    BindsAs(t, u);
    SameBindings(s, t);
  }

  /** A second run changes nothing, except that it binds a blank judge to the primary model. */
  lemma SecondRun(s: Settings, t: Settings, u: Settings)
    requires Migrated(s, t) && Migrated(t, u)
    ensures u == t.(models := u.models)
    ensures u == t <==> !BlankJudge(s)
  {
    NothingToAdd(s, t, u);
    BindingsDiffer(s, t, u);
    hide BlankJudge;
    hide AddsAll;
    hide Bindings;
    hide Materialized;
  }

  /** A configuration that holds nothing but a safety model of one blank. */
  const BLANK_JUDGE := Settings("", "", "", "", " ", "", "", "", [], [], map[], map[], map[])

  /** There a second run does change something: the first leaves the judge without a binding,
      the second binds it to the primary model. */
  lemma SecondRunBindsTheJudge(t: Settings, u: Settings)
    requires Migrated(BLANK_JUDGE, t) && Migrated(t, u)
    ensures SafetyJudge in t.models && t.models[SafetyJudge] == ZERO
    ensures SafetyJudge in u.models && u.models[SafetyJudge] == Inherit(Primary)
    ensures u != t
  {
    BlankIsBlank();
    JudgeIsEmpty(BLANK_JUDGE);
    assert t.models == Bindings(BLANK_JUDGE) && u.models == Bindings(t);
    assert SafetyJudge in ROLES;
    assert ExplicitRole(t, SafetyJudge) == ZERO;
    NoLegacy(t, SafetyJudge);
  }

  lemma BlankIsBlank()
    ensures BlankJudge(BLANK_JUDGE)
  {
    var blank := " ";
    assert blank[1..] == "";
    assert TrimLeft(blank) == TrimLeft("") == "";
  }
}
