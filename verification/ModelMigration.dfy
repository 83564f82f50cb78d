/** The migration of legacy model settings (EnsureModelBindings in config/models.go), and what
    it keeps: the meaning of every role, every saved credential, and, but for one case, every
    existing connection. */
module ModelMigration {
  import opened Unicode
  import opened ModelBindings
  import opened Decimals
  import opened Wrappers

  // ------------------------------------------------------------- names for saved credentials

  /** The `i`th name tried for a saved credential. */
  function Candidate(id: string, i: nat): string {
    if i <= 1 then id + "-saved" else id + "-saved-" + Text(i)
  }

  /** A name that is free, or that holds the same credential already. */
  predicate Usable(connections: map<string, Connection>, id: string, key: string, name: string) {
    name in connections ==> connections[name].provider == id && connections[name].apiKey == key
  }

  lemma CandidatesDiffer(id: string, i: nat, j: nat)
    requires 1 <= i < j
    ensures Candidate(id, i) != Candidate(id, j)
  {
    var a, b := Candidate(id, i), Candidate(id, j);
    if i == 1 {
      assert |b| > |a|;
    } else {
      var n := |id + "-saved-"|;
      assert a[n..] == Text(i) && b[n..] == Text(j);
    }
  }

  /** The first usable candidate. */
  ghost predicate FirstUsable(connections: map<string, Connection>, id: string, key: string, name: string) {
    exists i: nat :: i >= 1 && FirstUsableAt(connections, id, key, i) && name == Candidate(id, i)
  }

  ghost predicate FirstUsableAt(connections: map<string, Connection>, id: string, key: string, i: nat) {
    && Usable(connections, id, key, Candidate(id, i))
    && forall j: nat | 1 <= j < i :: !Usable(connections, id, key, Candidate(id, j))
  }

  // ------------------------------------------------------------- what migration produces

  function SavedConnection(id: string, key: string): Connection {
    Connection("Previously saved " + id, id, "", key, "")
  }

  /** The binding of every role, explicit or not. */
  function Bindings(s: Settings): map<Role, Binding> {
    map role | role in ROLES :: RoleBinding(s, role)
  }

  /** The connections before saved keys are added. */
  function Materialized(s: Settings): map<string, Connection> {
    var explicit := map id | id in ConnectionIDs(s) && ConnectionByID(s, id).Some? :: ConnectionByID(s, id).value;
    if s.baseURL != "" && "lmstudio" !in explicit
    then explicit["lmstudio" := Connection("", "lmstudio", s.baseURL, "", "")]
    else explicit
  }

  /** Whether the key of `id` needs a connection of its own beside `base`. */
  predicate Displaced(base: map<string, Connection>, id: string, key: string) {
    id in base && base[id].apiKey != key && key != ""
  }

  /** What adding the keys in `ids` to `base` writes, and where. */
  ghost predicate Adds(base: map<string, Connection>, keys: map<string, string>, ids: set<string>, added: map<string,
          Connection>) {
    && ids <= keys.Keys
    && (forall id <- ids | id !in base :: id in added && added[id] == Connection("", id, "", keys[id], ""))
    && (forall id <- ids | Displaced(base, id, keys[id]) :: HasSaved(base, id, keys[id], added))
    && (forall name <- added :: exists id <- ids :: WrittenFor(base, id, keys[id], name))
  }

  ghost predicate HasSaved(base: map<string, Connection>, id: string, key: string, added: map<string, Connection>) {
    exists name <- added :: FirstUsable(base, id, key, name) && added[name] == SavedConnection(id, key)
  }

  /** `name` is where the key of `id` goes. */
  ghost predicate WrittenFor(base: map<string, Connection>, id: string, key: string, name: string) {
    if id !in base then name == id else Displaced(base, id, key) && FirstUsable(base, id, key, name)
  }

  function SupportedKeys(keys: map<string, string>): set<string> {
    set id <- keys | Supported(id)
  }

  /** `all` is `base` with a place for every saved key of a supported provider. */
  ghost predicate AddsAll(base: map<string, Connection>, keys: map<string, string>, all: map<string, Connection>) {
    exists added :: Adds(base, keys, SupportedKeys(keys), added) && all == base + added
  }

  /** `t` is what migrating `s` produces. */
  ghost predicate Migrated(s: Settings, t: Settings) {
    && t.models == Bindings(s)
    && t.provider == t.baseURL == t.defaultModel == t.model == t.safetyModel == ""
    && t.planningModel == t.executionModel == t.curationModel == ""
    && t.approved == s.approved && t.favorite == s.favorite
    && t.apiKeys == s.apiKeys - SupportedKeys(s.apiKeys)
    && AddsAll(Materialized(s), s.apiKeys, t.connections)
  }

  // ------------------------------------------------------------- keys do not get in each other's way

  /** The names that the key of `id` may be stored under. */
  predicate Family(id: string, name: string) {
    StartsWith(name, id)
  }

  lemma CandidateInFamily(id: string, i: nat)
    ensures Family(id, Candidate(id, i)) && Family(id, id)
  {
  }

  /** Two supported providers differ within their common length. */
  lemma ProvidersDiffer(a: string, b: string) returns (k: nat)
    requires Supported(a) && Supported(b) && a != b
    ensures k < |a| && k < |b| && a[k] != b[k]
  {
    k := if a[0] != b[0] then 0 else if a[1] != b[1] then 1 else 4;
    assert a in {"openai", "openrouter"} ==> a[4] == if a == "openai" then 'a' else 'r';
  }

  lemma FamiliesDisjoint(a: string, b: string, name: string)
    requires Supported(a) && Supported(b) && a != b && Family(a, name)
    ensures !Family(b, name)
  {
    var k := ProvidersDiffer(a, b);
    assert name[..|a|][k] == a[k];
    hide Supported;
    OtherLetter(b, name, k);
  }

  lemma OtherLetter(id: string, name: string, k: nat)
    requires k < |id| && k < |name| && name[k] != id[k]
    ensures !Family(id, name)
  {
    if |id| <= |name| { assert name[..|id|][k] == name[k]; }
  }

  lemma WrittenInFamily(base: map<string, Connection>, id: string, key: string, name: string)
    requires WrittenFor(base, id, key, name)
    ensures Family(id, name)
  {
    if id in base {
      var i: nat :| i >= 1 && FirstUsableAt(base, id, key, i) && name == Candidate(id, i);
      CandidateInFamily(id, i);
    }
  }

  /** What other keys have added is invisible to the key of `id`. */
  lemma OthersInvisible(base: map<string, Connection>, keys: map<string, string>, done: set<string>,
          added: map<string, Connection>, id: string)
    requires Adds(base, keys, done, added) && Supported(id) && id !in done && (forall d <- done :: Supported(d))
    ensures forall name | Family(id, name) :: name !in added
  {
    forall name | Family(id, name) ensures name !in added {
      if name in added {
        var d :| d in done && WrittenFor(base, d, keys[d], name);
        WrittenInFamily(base, d, keys[d], name);
        FamiliesDisjoint(id, d, name);
      }
    }
  }

  lemma SameUsable(base: map<string, Connection>, now: map<string, Connection>, id: string, key: string, name: string)
    requires forall n | Family(id, n) :: (n in now <==> n in base) && (n in base ==> now[n] == base[n])
    ensures FirstUsable(now, id, key, name) <==> FirstUsable(base, id, key, name)
  {
    forall i: nat ensures FirstUsableAt(now, id, key, i) <==> FirstUsableAt(base, id, key, i) {
      forall j: nat ensures Usable(now, id, key, Candidate(id, j)) <==> Usable(base, id, key, Candidate(id, j)) {
        CandidateInFamily(id, j);
      }
    }
  }

  /** Adding the key of one more provider. */
  lemma AddsOne(base: map<string, Connection>, keys: map<string, string>, done: set<string>, added: map<string, Connection>,
                id: string, more: map<string, Connection>)
    requires Adds(base, keys, done, added) && Supported(id) && id !in done && id in keys
    requires (forall d <- done :: Supported(d))
    requires if id !in base then more == map[id := Connection("", id, "", keys[id], "")]
             else if Displaced(base, id, keys[id]) then
               exists name :: FirstUsable(base, id, keys[id], name) && more == map[name := SavedConnection(id, keys[id])]
             else more == map[]
    ensures Adds(base, keys, done + {id}, added + more)
  {
    OthersInvisible(base, keys, done, added, id);
    var all := added + more;
    forall name <- more ensures WrittenFor(base, id, keys[id], name) && name !in added {
      WrittenInFamily(base, id, keys[id], name);
    }
    forall d <- done + {id} | d !in base ensures d in all && all[d] == Connection("", d, "", keys[d], "") {
      if d != id { assert d in added; }
    }
    forall d <- done + {id} | Displaced(base, d, keys[d]) ensures HasSaved(base, d, keys[d], all) {
      if d == id {
        var name :| FirstUsable(base, id, keys[id], name) && more == map[name := SavedConnection(id, keys[id])];
        assert name in all && all[name] == SavedConnection(id, keys[id]);
      } else {
        var name :| name in added && FirstUsable(base, d, keys[d], name) && added[name] == SavedConnection(d, keys[d]);
        assert name in all && name !in more;
      }
    }
    forall name <- all ensures exists d <- done + {id} :: WrittenFor(base, d, keys[d], name) {
      if name in more {
        assert WrittenFor(base, id, keys[id], name);
      } else {
        var d :| d in done && WrittenFor(base, d, keys[d], name);
      }
    }
  }

  lemma Overlay(base: map<string, Connection>, added: map<string, Connection>, name: string, c: Connection)
    ensures (base + added)[name := c] == base + added[name := c] && added + map[name := c] == added[name := c]
  {
  }

  lemma AddsNew(base: map<string, Connection>, keys: map<string, string>, done: set<string>, added: map<string,
          Connection>, id: string)
    requires Adds(base, keys, done, added) && Supported(id) && id !in done && id in keys
    requires (forall d <- done :: Supported(d))
    requires id !in base
    ensures var c := Connection("", id, "", keys[id], "");
      Adds(base, keys, done + {id}, added[id := c]) && (base + added)[id := c] == base + added[id := c]
  {
    hide Adds;
    hide Supported;
    hide FirstUsable;
    var c := Connection("", id, "", keys[id], "");
    Overlay(base, added, id, c);
    AddsOne(base, keys, done, added, id, map[id := c]);
  }

  lemma AddsSaved(base: map<string, Connection>, keys: map<string, string>, done: set<string>, added: map<string,
          Connection>,
                  id: string, name: string)
    requires Adds(base, keys, done, added) && Supported(id) && id !in done && id in keys
    requires (forall d <- done :: Supported(d))
    requires Displaced(base, id, keys[id]) && FirstUsable(base, id, keys[id], name)
    ensures var c := SavedConnection(id, keys[id]);
      Adds(base, keys, done + {id}, added[name := c]) && (base + added)[name := c] == base + added[name := c]
  {
    hide Adds;
    hide Supported;
    hide FirstUsable;
    hide SavedConnection;
    var c := SavedConnection(id, keys[id]);
    Overlay(base, added, name, c);
    AddsOne(base, keys, done, added, id, map[name := c]);
  }

  lemma AddsNothing(base: map<string, Connection>, keys: map<string, string>, done: set<string>, added: map<string,
          Connection>, id: string)
    requires Adds(base, keys, done, added) && Supported(id) && id !in done && id in keys
    requires (forall d <- done :: Supported(d))
    requires id in base && !Displaced(base, id, keys[id])
    ensures Adds(base, keys, done + {id}, added)
  {
    AddsOne(base, keys, done, added, id, map[]);
    assert added + map[] == added;
  }

  // ------------------------------------------------------------- the migration, as it runs

  lemma NothingAdded(s: Settings)
    ensures Adds(s.connections, s.apiKeys, {}, map[]) && s.connections + map[] == s.connections
    ensures s.apiKeys - {} == s.apiKeys
    ensures SameRest(s, s)
  {
  }

  lemma RemoveOne(keys: map<string, string>, done: set<string>, id: string)
    ensures keys - done - {id} == keys - (done + {id})
  {
  }

  lemma AllAdded(base: map<string, Connection>, keys: map<string, string>, done: set<string>, added: map<string, Connection>)
    requires Adds(base, keys, done, added) && forall id :: id in done <==> id in keys && Supported(id)
    ensures done == SupportedKeys(keys) && AddsAll(base, keys, base + added)
  {
    hide Supported;
    assert done == SupportedKeys(keys);
    hide Adds;
  }

  /** Nothing but connections and saved keys has changed. */
  predicate SameRest(s: Settings, t: Settings) {
    t == s.(connections := t.connections, apiKeys := t.apiKeys)
  }

  lemma SameRestTrans(s: Settings, t: Settings, u: Settings)
    requires SameRest(s, t) && SameRest(t, u)
    ensures SameRest(s, u)
  {
  }

  /** A configuration, whose settings are changed in place. */
  class Config {
    var settings: Settings

    constructor (s: Settings)
      ensures settings == s
    {
      settings := s;
    }

    /** The search ends, for the candidates differ and there are finitely many connections. */
    method SavedName(id: string, key: string) returns (name: string)
      ensures FirstUsable(settings.connections, id, key, name)
    {
      var connections := settings.connections;
      name := id + "-saved";
      var i: nat := 1;
      ghost var tried: set<string> := {};
      while name in connections && !(connections[name].provider == id && connections[name].apiKey == key)
        invariant i >= 1 && name == Candidate(id, i)
        invariant tried <= connections.Keys
        invariant forall n <- tried :: exists j: nat :: 1 <= j < i && n == Candidate(id, j)
        invariant forall j: nat | 1 <= j < i :: !Usable(connections, id, key, Candidate(id, j))
        decreases connections.Keys - tried
      {
        if name in tried {
          var j: nat :| 1 <= j < i && name == Candidate(id, j);
          CandidatesDiffer(id, j, i);
          assert false;
        }
        tried := tried + {name};
        i := i + 1;
        name := id + "-saved-" + Text(i);
      }
      assert FirstUsableAt(connections, id, key, i);
    }

    /** Materializes what the legacy fields stand for. */
    method MaterializeConnections()
      modifies this
      ensures settings == old(settings).(connections := Materialized(old(settings)))
    {
      hide ConnectionIDs;
      hide ConnectionByID;
      ghost var s := settings;
      var ids := ConnectionIDs(settings);
      var built: map<string, Connection> := map[];
      var left := ids;
      while left != {}
        invariant left <= ids && settings == s
        invariant built == map id | id in ids - left && ConnectionByID(s, id).Some? :: ConnectionByID(s, id).value
        decreases |left|
      {
        var id :| id in left;
        var connection := ConnectionByID(settings, id);
        if connection.Some? {
          built := built[id := connection.value];
        }
        left := left - {id};
      }
      if settings.baseURL != "" {
        if "lmstudio" !in built {
          built := built["lmstudio" := Connection("", "lmstudio", settings.baseURL, "", "")];
        }
      }
      settings := settings.(connections := built);
    }

    /** Gives one saved key a connection, unless it has one. */
    method KeepKey(id: string, ghost base: map<string, Connection>, ghost keys: map<string, string>, ghost done: set<string>,
                   ghost added: map<string, Connection>) returns (ghost more: map<string, Connection>)
      requires Supported(id) && id in settings.apiKeys && id in keys && keys[id] == settings.apiKeys[id]
      requires id !in done && (forall d <- done :: Supported(d))
      requires Adds(base, keys, done, added) && settings.connections == base + added
      modifies this
      ensures SameRest(old(settings), settings)
      ensures settings.connections == base + more && settings.apiKeys == old(settings).apiKeys - {id}
      ensures Adds(base, keys, done + {id}, more)
    {
      var key, connections := settings.apiKeys[id], settings.connections;
      OthersInvisible(base, keys, done, added, id);
      CandidateInFamily(id, 1);
      hide Adds;
      hide Supported;
      hide FirstUsable;
      assert id in base <==> id in connections;
      more := added;
      if id !in connections {
        AddsNew(base, keys, done, added, id);
        more := added[id := Connection("", id, "", key, "")];
        connections := connections[id := Connection("", id, "", key, "")];
      } else if connections[id].apiKey != key && key != "" {
        var name := SavedName(id, key);
        SameUsable(base, connections, id, key, name);
        AddsSaved(base, keys, done, added, id, name);
        more := added[name := SavedConnection(id, key)];
        connections := connections[name := Connection("Previously saved " + id, id, "", key, "")];
      } else {
        AddsNothing(base, keys, done, added, id);
      }
      settings := settings.(connections := connections, apiKeys := settings.apiKeys - {id});
    }

    /** Gives every saved key of a supported provider a connection. */
    method KeepKeys()
      modifies this
      ensures SameRest(old(settings), settings)
      ensures settings.apiKeys == old(settings).apiKeys - SupportedKeys(old(settings).apiKeys)
      ensures AddsAll(old(settings).connections, old(settings).apiKeys, settings.connections)
    {
      ghost var s, base, keys := settings, settings.connections, settings.apiKeys;
      ghost var added: map<string, Connection> := map[];
      var left := settings.apiKeys.Keys;
      ghost var done: set<string> := {};
      hide *;
      NothingAdded(s);
      while left != {}
        invariant left <= keys.Keys
        invariant forall id :: id in done <==> id in keys && id !in left && Supported(id)
        invariant settings.connections == base + added && settings.apiKeys == keys - done
        invariant Adds(base, keys, done, added) && SameRest(s, settings)
        decreases |left|
      {
        var id :| id in left;
        if Supported(id) {
          ghost var before := settings;
          added := KeepKey(id, base, keys, done, added);
          SameRestTrans(s, before, settings);
          RemoveOne(keys, done, id);
          done := done + {id};
        }
        left := left - {id};
      }
      AllAdded(base, keys, done, added);
    }

    method EnsureModelBindings()
      modifies this
      ensures Migrated(old(settings), settings)
    {
      hide *;
      ghost var s := settings;
      var bindings := Bindings(settings);
      MaterializeConnections();
      ghost var m := settings;
      settings := settings.(models := bindings);
      // Bindings win from now on; the old sources are removed.
      settings := settings.(provider := "", baseURL := "", defaultModel := "");
      settings := settings.(model := "", safetyModel := "");
      settings := settings.(planningModel := "", executionModel := "", curationModel := "");
      ghost var i := settings;
      KeepKeys();
      MigratedIs(s, m, i, settings);
    }
  }

  lemma MigratedIs(s: Settings, m: Settings, i: Settings, t: Settings)
    requires m == s.(connections := Materialized(s))
    requires i == m.(models := Bindings(s), provider := "", baseURL := "", defaultModel := "", model := "", safetyModel := "",
                     planningModel := "", executionModel := "", curationModel := "")
    requires SameRest(i, t) && t.apiKeys == i.apiKeys - SupportedKeys(i.apiKeys)
    requires AddsAll(i.connections, i.apiKeys, t.connections)
    ensures Migrated(s, t)
  {
    hide AddsAll;
    hide Materialized;
    hide SupportedKeys;
    hide Bindings;
  }
}
