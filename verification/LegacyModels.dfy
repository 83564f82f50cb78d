/** What settings without any binding or connection have always meant (config/models.go): the
    old global fields, role by role. */
module LegacyModels {
  import opened Unicode
  import opened ModelBindings
  import opened Wrappers

  /** Settings from before there were bindings and connections. */
  predicate Old(s: Settings) {
    s.models == map[] && s.connections == map[] && Supported(s.provider)
  }

  /** The model that the old fields name first. */
  function Main(s: Settings): string {
    if s.defaultModel != "" then s.defaultModel else s.model
  }

  /** The connection that a provider name stands for. */
  function Global(s: Settings, provider: string, model: string): Resolved {
    Resolved(provider,
             Connection("", provider, if provider == "lmstudio" then s.baseURL else "",
                        if provider in s.apiKeys then s.apiKeys[provider] else "", ""),
             model, true)
  }

  predicate Clean(s: string) {
    s != "" && !Space(s[0]) && !Space(s[|s| - 1])
  }

  lemma CleanIsTrimmed(s: string)
    requires Clean(s)
    ensures Trim(s) == s && !Blank(s)
  {
  }

  lemma ProvidersAreClean(p: string)
    requires Supported(p)
    ensures Clean(p) && '/' !in p
  {
    assert p[0] != ' ' && p[|p| - 1] != ' ';
  }

  lemma {:induction false} SlashAfter(p: string, rest: string)
    requires '/' !in p
    ensures Slash(p + "/" + rest) == |p|
  {
    if p == "" {
      assert p + "/" + rest == "/" + rest;
    } else {
      assert (p + "/" + rest)[1..] == p[1..] + "/" + rest;
      SlashAfter(p[1..], rest);
    }
  }

  lemma {:induction false} NoSlash(s: string)
    requires '/' !in s
    ensures Slash(s) == |s|
  {
    if s != "" { NoSlash(s[1..]); }
  }

  /** A provider in front of a model is dropped, once, whatever slashes the model holds; the
      two router aliases keep their name; every other name stays. */
  lemma PrefixIsDropped(p: string, model: string)
    requires Supported(p) && Clean(model)
    ensures NormalizeProviderModelID(p, p + "/" + model) ==
            if p == "openrouter" && model in {"auto", "free"} then p + "/" + model else model
    ensures !(p + "/" <= model) ==> NormalizeProviderModelID(p, model) == model
  {
    var raw := p + "/" + model;
    ProvidersAreClean(p);
    CleanIsTrimmed(p);
    CleanIsTrimmed(model);
    assert raw[0] == p[0] && raw[|raw| - 1] == model[|model| - 1];
    CleanIsTrimmed(raw);
    hide Trim;
    assert raw[..|p| + 1] == p + "/" && raw[|p| + 1..] == model;
    assert p == "openrouter" ==> (raw == "openrouter/auto" <==> model == "auto") && (raw == "openrouter/free" <==> model == "free") by {
      if p == "openrouter" {
        assert "openrouter/auto"[|p| + 1..] == "auto" && "openrouter/free"[|p| + 1..] == "free";
        assert raw == "openrouter/" + model;
      }
    }
  }

  /** A role's old name is read as "provider/model" when a provider stands in front, and as a
      model of the global provider otherwise. */
  lemma OldNameIsRead(raw: string, p: string, model: string, fallback: string)
    requires Clean(raw) && Supported(p)
    ensures raw == p + "/" + model && raw !in {"openrouter/auto", "openrouter/free"} ==> ParseLegacyModel(raw, fallback) == (p, model)
    ensures '/' !in raw ==> ParseLegacyModel(raw, fallback) == (fallback, raw)
    ensures raw in {"openrouter/auto", "openrouter/free"} ==> ParseLegacyModel(raw, fallback) == ("openrouter", raw)
  {
    CleanIsTrimmed(raw);
    ProvidersAreClean(p);
    if raw == p + "/" + model {
      SlashAfter(p, model);
      assert raw[..|p|] == p && raw[|p| + 1..] == model;
    }
    if '/' !in raw {
      NoSlash(raw);
      assert "openrouter/auto"[10] == '/' && "openrouter/free"[10] == '/';
    }
  }

  // ------------------------------------------------------------- each role

  lemma ResolveIs(s: Settings, role: Role, seen: set<Role>)
    requires role !in seen && role in ROLES
    ensures var b := RoleBinding(s, role);
      && (b.inherit == None && !Blank(b.connection) && !Blank(b.model) && s.connections == map[] && Supported(b.connection) ==>
            ResolveRole(s, role, seen) == Some(Global(s, b.connection, b.model)))
      && (b.inherit == None && Blank(b.model) ==> ResolveRole(s, role, seen) == None)
      && (forall other :: b == Inherit(other) ==> ResolveRole(s, role, seen) == ResolveRole(s, other, seen + {role}))
  {
    hide Blank;
    hide Supported;
    hide RoleBinding;
  }

  /** The primary role is the main model of the global provider. */
  lemma OldPrimary(s: Settings, seen: set<Role>)
    requires Old(s) && Primary !in seen
    ensures var model := NormalizeProviderModelID(s.provider, Main(s));
      ResolveRole(s, Primary, seen) == if Blank(model) then None else Some(Global(s, s.provider, model))
  {
    ResolveIs(s, Primary, seen);
    ProvidersAreClean(s.provider);
    CleanIsTrimmed(s.provider);
    hide NormalizeProviderModelID;
    hide Blank;
    assert RoleBinding(s, Primary) == Select(s.provider, NormalizeProviderModelID(s.provider, Main(s)));
  }

  /** The judge, and the classifier with it, has a model of its own only when the old fields
      name one that is not the main model. */
  lemma OldJudge(s: Settings)
    requires Old(s)
    ensures var model := NormalizeProviderModelID(s.provider, s.safetyModel);
      Resolve(s, SafetyJudge) == if s.safetyModel in {"", s.defaultModel, s.model} then Resolve(s, Primary)
                                 else if Blank(model) then None else Some(Global(s, s.provider, model))
    ensures Resolve(s, Classifier) == Resolve(s, SafetyJudge) && Resolve(s, SafetyAdvisor) == Resolve(s, Primary)
  {
    ResolveIs(s, SafetyJudge, {});
    ResolveIs(s, Classifier, {});
    ResolveIs(s, SafetyJudge, {} + {Classifier});
    ResolveIs(s, SafetyAdvisor, {});
    OldPrimary(s, {});
    OldPrimary(s, {} + {SafetyJudge});
    OldPrimary(s, {} + {Classifier} + {SafetyJudge});
    OldPrimary(s, {} + {SafetyAdvisor});
    ProvidersAreClean(s.provider);
    CleanIsTrimmed(s.provider);
    hide NormalizeProviderModelID;
    hide Blank;
    hide ResolveRole;
  }

  /** A role that has an old name of its own. */
  function OldName(s: Settings, role: Role): string {
    match role
    case Planning => s.planningModel
    case Execution => s.executionModel
    case Curation => s.curationModel
    case _ => ""
  }

  /** Planning, execution and curation follow their own old name, if they have one, and the
      primary role otherwise. */
  lemma OldWorkers(s: Settings, role: Role)
    requires Old(s) && role in {Planning, Execution, Curation}
    ensures var raw := OldName(s, role);
      var parsed := ParseLegacyModel(raw, s.provider);
      Resolve(s, role) == if Blank(raw) then Resolve(s, Primary)
                          else if Blank(parsed.1) then None else Some(Global(s, parsed.0, parsed.1))
  {
    WorkerIs(s, role, {});
    hide ResolveRole;
    hide Blank;
    hide ParseLegacyModel;
  }

  /** Verification follows execution. */
  lemma OldVerifier(s: Settings)
    requires Old(s)
    ensures Resolve(s, Verifier) == Resolve(s, Execution)
  {
    assert RoleBinding(s, Verifier) == Inherit(Execution);
    ResolveIs(s, Verifier, {});
    assert {} + {Verifier} == {Verifier};
    WorkerIs(s, Execution, {});
    WorkerIs(s, Execution, {Verifier});
  }

  lemma ParsedIsSupported(raw: string, fallback: string)
    requires Supported(fallback)
    ensures Supported(ParseLegacyModel(raw, fallback).0)
  {
  }

  lemma WorkerIs(s: Settings, role: Role, seen: set<Role>)
    requires Old(s) && role in {Planning, Execution, Curation} && seen in {{}, {Verifier}}
    ensures var raw := OldName(s, role);
      var parsed := ParseLegacyModel(raw, s.provider);
      ResolveRole(s, role, seen) == if Blank(raw) then ResolveRole(s, Primary, {})
                                    else if Blank(parsed.1) then None else Some(Global(s, parsed.0, parsed.1))
  {
    ResolveIs(s, role, seen);
    OldPrimary(s, seen + {role});
    OldPrimary(s, {});
    var parsed := ParseLegacyModel(OldName(s, role), s.provider);
    ParsedIsSupported(OldName(s, role), s.provider);
    ProvidersAreClean(parsed.0);
    CleanIsTrimmed(parsed.0);
    hide ResolveRole;
    hide Blank;
    hide ParseLegacyModel;
  }
}
