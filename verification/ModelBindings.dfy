/** Model roles and connections of config/models.go: what a role resolves to, from explicit
    bindings or from legacy settings. */
module ModelBindings {
  import opened Unicode
  import opened Wrappers

  datatype Connection = Connection(name: string, provider: string, baseURL: string, apiKey: string, authFile: string)

  /** The eight known roles, and any other name that a file may hold. */
  datatype Role =
    | Primary
    | SafetyJudge
    | SafetyAdvisor
    | Classifier
    | Verifier
    | Planning
    | Execution
    | Curation
    | Foreign(name: string)

  const ROLES: set<Role> := {Primary, SafetyJudge, SafetyAdvisor, Classifier, Verifier, Planning, Execution, Curation}

  datatype Binding = Binding(connection: string, model: string, inherit: Option<Role>)

  const ZERO := Binding("", "", None)

  function Select(connection: string, model: string): Binding { Binding(connection, model, None) }

  function Inherit(role: Role): Binding { Binding("", "", Some(role)) }

  datatype Settings = Settings(
    provider: string,
    baseURL: string,
    defaultModel: string,
    model: string,
    safetyModel: string,
    planningModel: string,
    executionModel: string,
    curationModel: string,
    approved: seq<string>,
    favorite: seq<string>,
    models: map<Role, Binding>,
    connections: map<string, Connection>,
    apiKeys: map<string, string>)

  predicate Supported(provider: string) {
    provider in {"codex", "openrouter", "openai", "lmstudio"}
  }

  predicate StartsWith(s: string, prefix: string) {
    |prefix| <= |s| && s[..|prefix|] == prefix
  }

  function NormalizeProviderModelID(provider: string, model: string): string {
    var p, m := Trim(provider), Trim(model);
    if p == "" || m == "" || !StartsWith(m, p + "/") then m
    else if p == "openrouter" && m in {"openrouter/auto", "openrouter/free"} then m
    else m[|p| + 1..]
  }

  /** Where the first slash is, or the length of a text without one. */
  function Slash(s: string): (k: nat)
    ensures k <= |s|
  {
    if s == "" || s[0] == '/' then 0 else 1 + Slash(s[1..])
  }

  /** A legacy model name, split into a provider and a model. */
  function ParseLegacyModel(raw: string, fallback: string): (string, string) {
    var r := Trim(raw);
    if r in {"openrouter/auto", "openrouter/free"} then ("openrouter", r)
    else
      var k := Slash(r);
      if k < |r| && Supported(r[..k]) then (r[..k], r[k + 1..]) else (fallback, r)
  }

  function ExplicitRole(s: Settings, role: Role): Binding {
    if role in ROLES && role in s.models then s.models[role] else ZERO
  }

  function Legacy(s: Settings, raw: string): Binding {
    if ExplicitRole(s, Primary) == ZERO && !Blank(raw) then
      var parsed := ParseLegacyModel(raw, s.provider);
      Select(parsed.0, parsed.1)
    else Inherit(Primary)
  }

  /** The explicit binding of a role, or its backwards-compatible default. */
  function RoleBinding(s: Settings, role: Role): Binding {
    if ExplicitRole(s, role) != ZERO then ExplicitRole(s, role)
    else
      match role
      case Primary => Select(s.provider, NormalizeProviderModelID(s.provider, if s.defaultModel == "" then s.model else s.defaultModel))
      case SafetyJudge =>
        if ExplicitRole(s, Primary) == ZERO && s.safetyModel != "" && s.safetyModel != s.defaultModel && s.safetyModel != s.model
        then Select(s.provider, NormalizeProviderModelID(s.provider, s.safetyModel))
        else Inherit(Primary)
      case Classifier => Inherit(SafetyJudge)
      case SafetyAdvisor => Inherit(Primary)
      case Verifier => Inherit(Execution)
      case Planning => Legacy(s, s.planningModel)
      case Execution => Legacy(s, s.executionModel)
      case Curation => Legacy(s, s.curationModel)
      case Foreign(_) => ZERO
  }

  function APIKey(s: Settings, id: string): string {
    if id in s.apiKeys then s.apiKeys[id] else ""
  }

  function ConnectionByID(s: Settings, id: string): Option<Connection> {
    if id in s.connections then Some(s.connections[id])
    else if s.connections != map[] || !Supported(id) then None
    else Some(Connection("", id, if id == "lmstudio" then s.baseURL else "", APIKey(s, id), ""))
  }

  /** Every connection that the settings name, explicitly or by their legacy fields. */
  function ConnectionIDs(s: Settings): set<string> {
    if s.connections != map[] then s.connections.Keys
    else
      (if Supported(s.provider) then {s.provider} else {})
      + (set id <- s.apiKeys | Supported(id))
      + (if s.baseURL != "" then {"lmstudio"} else {})
      + (set raw <- s.approved + s.favorite | Supported(ParseLegacyModel(raw, s.provider).0) :: ParseLegacyModel(raw, s.provider).0)
      + (set role <- ROLES | RoleBinding(s, role).connection != "" :: RoleBinding(s, role).connection)
  }

  /** `legacy` marks a connection made up from the old global fields. */
  datatype Resolved = Resolved(id: string, connection: Connection, model: string, legacy: bool)

  /** What a role selects, following inheritance; `None` when it selects nothing. */
  function ResolveRole(s: Settings, role: Role, seen: set<Role>): Option<Resolved>
    decreases |ROLES - seen|, if role in ROLES then 1 else 0
  {
    if role in seen then None
    else
      var b := RoleBinding(s, role);
      if b.inherit.Some? then
        if b.connection != "" || b.model != "" then None
        else
          assert role in ROLES;
          assert ROLES - (seen + {role}) < ROLES - seen by { assert role in ROLES - seen; }
          SmallerSet(ROLES - (seen + {role}), ROLES - seen);
          ResolveRole(s, b.inherit.value, seen + {role})
      else if Blank(b.connection) || Blank(b.model) then None
      else
        var connection := ConnectionByID(s, b.connection);
        if connection.None? then None else Some(Resolved(b.connection, connection.value, b.model, b.connection !in s.connections))
  }

  lemma SmallerSet<T>(a: set<T>, b: set<T>)
    requires a < b
    ensures |a| < |b|
  {
    assert |b| == |a| + |b - a| by { assert b == a + (b - a); }
    var x :| x in b && x !in a;
    assert x in b - a;
  }

  function Resolve(s: Settings, role: Role): Option<Resolved> {
    ResolveRole(s, role, {})
  }
}
