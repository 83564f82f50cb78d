/** The reviewed NGINX grammar of recovery/nginx_config.go: which directives are accepted
    where, which of them a change may alter, and the shape that must not change. */
module NginxShape {
  import opened Decimals
  import opened NginxParser
  import opened Unicode
  import opened Wrappers

  /** The operator's service, with its health URL split into host and path. `root` says that
      the executor runs as the superuser. */
  datatype Service = Service(pidFile: string, prefix: string, host: string, path: string, root: bool)

  datatype Location = Main | Events | Http | Server | Place

  const REVIEWED: Token := "<reviewed-value>"

  /** What an accepted simple directive is. */
  datatype Kind = Fixed | Mutable | Pid | Log | Health

  /** One argument, all digits, in range. */
  predicate IntArg(args: seq<Token>, min: nat, max: nat) {
    |args| == 1 && args[0] != "" && Digits(args[0]) && min <= Number(args[0]) <= max
  }

  const TEMP_PATHS: seq<Token> :=
    ["client_body_temp_path", "proxy_temp_path", "fastcgi_temp_path", "uwsgi_temp_path", "scgi_temp_path"]

  predicate Args1(args: seq<Token>, a: Token) { |args| == 1 && args[0] == a }

  predicate OnOff(args: seq<Token>) { Args1(args, "on") || Args1(args, "off") }

  /** How a simple directive is taken, or `None` when it is refused. */
  function KindOf(s: Service, at: Location, health: bool, name: Token, args: seq<Token>): Option<Kind> {
    if at.Main? && name == "pid" && Args1(args, s.pidFile) then Some(Pid)
    else if at.Main? && name == "error_log" && args == ["stderr", "notice"] then Some(Log)
    else if at.Main? && name == "user" && Args1(args, "root") && s.root then Some(Fixed)
    else if at.Main? && name in {"daemon", "master_process"} && Args1(args, "on") then Some(Fixed)
    else if at.Main? && name == "worker_processes" then if IntArg(args, 1, 16) then Some(Mutable) else None
    else if at.Events? && name == "worker_connections" then if IntArg(args, 1, 65536) then Some(Mutable) else None
    else if at.Http? && name == "access_log" && Args1(args, "off") then Some(Fixed)
    else if at.Http? && name == "default_type" && Args1(args, "text/plain") then Some(Fixed)
    else if at.Http? && name in TEMP_PATHS && Args1(args, s.prefix + "/" + name) then Some(Fixed)
    else if at.Http? && name in {"sendfile", "server_tokens"} && OnOff(args) then Some(Mutable)
    else if (at.Http? || at.Server?) && name == "keepalive_timeout" then if IntArg(args, 0, 300) then Some(Mutable) else None
    else if at.Server? && name == "listen" && Args1(args, s.host) then Some(Fixed)
    else if at.Place? && name == "return" && 1 <= |args| <= 2 then
      if IntArg(args[..1], 200, 599) && (|args| == 2 ==> Utf8Length(args[1]) <= 8192 && '$' !in args[1]) then Some(Mutable) else None
    else if at.Place? && health && name == "add_header" && args == ["X-Cvke-Worker", "$pid", "always"] then Some(Health)
    else None
  }

  /** Where the body of a block is, or `None` when the block is refused. */
  function BodyOf(s: Service, at: Location, name: Token, args: seq<Token>): Option<(Location, bool)> {
    if at.Main? && name == "events" && args == [] then Some((Events, false))
    else if at.Main? && name == "http" && args == [] then Some((Http, false))
    else if at.Http? && name == "server" && args == [] then Some((Server, false))
    else if at.Server? && name == "location" && (|args| == 1 || (|args| == 2 && args[0] == "=")) then
      var path := args[|args| - 1];
      if path == "" || path[0] != '/' || '$' in path || '\n' in path || '\r' in path || '\\' in path then None
      else Some((Place, |args| == 2 && path == s.path))
    else None
  }

  predicate Repeatable(name: Token) { name in {"server", "location"} }

  datatype Tally = Tally(pids: nat, logs: nat, headers: nat)

  function Add(a: Tally, b: Tally): Tally {
    Tally(a.pids + b.pids, a.logs + b.logs, a.headers + b.headers)
  }

  function TallyOf(k: Kind): Tally {
    Tally(if k.Pid? then 1 else 0, if k.Log? then 1 else 0, if k.Health? then 1 else 0)
  }

  /** What must have been seen by the end of a list. */
  predicate Complete(at: Location, seen: set<Token>) {
    && (at.Http? ==> "access_log" in seen && forall name <- TEMP_PATHS :: name in seen)
    && (at.Server? ==> "listen" in seen)
  }

  datatype Shape = Shape(directives: seq<Directive>, tally: Tally)

  function ShapeOne(s: Service, d: Directive, at: Location, health: bool): Option<Shape>
    requires |d.words| > 0
    decreases d, 0
  {
    var name, args := d.words[0], d.words[1..];
    if d.block then
      var body := BodyOf(s, at, name, args);
      if body.None? then None
      else
        var inner := ShapeList(s, d.children, body.value.0, body.value.1, {});
        if inner.None? then None else Some(Shape([Directive(d.words, true, inner.value.directives)], inner.value.tally))
    else
      var kind := KindOf(s, at, health, name, args);
      if kind.None? then None
      else Some(Shape([if kind.value.Mutable? then d.(words := [name, REVIEWED]) else d], TallyOf(kind.value)))
  }

  /** The shape of a list, `seen` being the names before it. */
  function ShapeList(s: Service, ds: seq<Directive>, at: Location, health: bool, seen: set<Token>): Option<Shape>
    decreases ds, 1
  {
    if ds == [] then if Complete(at, seen) then Some(Shape([], Tally(0, 0, 0))) else None
    else if |ds[0].words| == 0 || (!Repeatable(ds[0].words[0]) && ds[0].words[0] in seen) then None
    else
      var first := ShapeOne(s, ds[0], at, health);
      var rest := ShapeList(s, ds[1..], at, health, seen + {ds[0].words[0]});
      if first.None? || rest.None? then None
      else Some(Shape(first.value.directives + rest.value.directives, Add(first.value.tally, rest.value.tally)))
  }

  const ATTESTED := Tally(1, 1, 1)

  /** The shape of a configuration, when it is accepted. */
  function ShapeOf(s: Service, ds: seq<Directive>): Option<seq<Directive>> {
    var shape := ShapeList(s, ds, Main, false, {});
    if shape.None? || shape.value.tally != ATTESTED then None else Some(shape.value.directives)
  }

  // ------------------------------------------------------------- the check, as it runs

  /** Counts as it goes, over all levels of the recursion. */
  class Validator {
    const service: Service
    var pidCount: nat
    var logCount: nat
    var healthHeader: nat

    constructor (s: Service)
      ensures service == s && Counts() == Tally(0, 0, 0)
    {
      service, pidCount, logCount, healthHeader := s, 0, 0, 0;
    }

    function Counts(): Tally
      reads this
    {
      Tally(pidCount, logCount, healthHeader)
    }

    method ValidateOne(d: Directive, at: Location, health: bool) returns (r: Option<Directive>)
      requires |d.words| > 0
      modifies this
      ensures var shape := ShapeOne(service, d, at, health);
        if shape.None? then r.None?
        else r.Some? && shape.value.directives == [r.value] && Counts() == Add(old(Counts()), shape.value.tally)
      decreases d, 0
    {
      var name, args := d.words[0], d.words[1..];
      if d.block {
        var body := BodyOf(service, at, name, args);
        if body.None? {
          return None;
        }
        var children := Validate(d.children, body.value.0, body.value.1);
        if children.None? {
          return None;
        }
        return Some(Directive(d.words, true, children.value));
      }
      var kind := KindOf(service, at, health, name, args);
      match kind
      case None => return None;
      case Some(k) =>
        if k.Pid? {
          pidCount := pidCount + 1;
        } else if k.Log? {
          logCount := logCount + 1;
        } else if k.Health? {
          healthHeader := healthHeader + 1;
        }
        r := Some(if k.Mutable? then d.(words := [name, REVIEWED]) else d);
    }

    method Validate(ds: seq<Directive>, at: Location, health: bool) returns (r: Option<seq<Directive>>)
      modifies this
      ensures var shape := ShapeList(service, ds, at, health, {});
        if shape.None? then r.None?
        else r == Some(shape.value.directives) && Counts() == Add(old(Counts()), shape.value.tally)
      decreases ds, 1
    {
      hide ShapeList;
      hide ShapeOne;
      var seen: set<Token> := {};
      var out: seq<Directive> := [];
      ghost var tally := Tally(0, 0, 0);
      var index := 0;
      assert ds[0..] == ds;
      JoinNothing(ShapeList(service, ds, at, health, {}));
      while index < |ds|
        invariant 0 <= index <= |ds|
        invariant Counts() == Add(old(Counts()), tally)
        invariant ShapeList(service, ds, at, health, {}) == Join(Shape(out, tally), ShapeList(service, ds[index..], at, health, seen))
      {
        var d := ds[index];
        assert ds[index..][0] == d && ds[index..][1..] == ds[index + 1..];
        ListHead(service, ds[index..], at, health, seen);
        if |d.words| == 0 || (!Repeatable(d.words[0]) && d.words[0] in seen) {
          return None;
        }
        var one := ValidateOne(d, at, health);
        if one.None? {
          return None;
        }
        ghost var shape := ShapeOne(service, d, at, health).value;
        assert shape.directives == [one.value];
        seen := seen + {d.words[0]};
        JoinTwice(Shape(out, tally), shape, ShapeList(service, ds[index + 1..], at, health, seen));
        out, tally := out + [one.value], Add(tally, shape.tally);
        index := index + 1;
      }
      assert ds[index..] == [] && out + [] == out;
      ListEnd(service, at, health, seen);
      r := if Complete(at, seen) then Some(out) else None;
    }
  }

  function Join(a: Shape, b: Option<Shape>): Option<Shape> {
    if b.None? then None else Some(Shape(a.directives + b.value.directives, Add(a.tally, b.value.tally)))
  }

  lemma ListHead(s: Service, ds: seq<Directive>, at: Location, health: bool, seen: set<Token>)
    requires ds != []
    ensures if |ds[0].words| == 0 || (!Repeatable(ds[0].words[0]) && ds[0].words[0] in seen) || ShapeOne(s, ds[0], at, health).None?
            then ShapeList(s, ds, at, health, seen).None?
            else ShapeList(s, ds, at, health, seen)
                   == Join(ShapeOne(s, ds[0], at, health).value, ShapeList(s, ds[1..], at, health, seen + {ds[0].words[0]}))
  {
  }

  lemma ListEnd(s: Service, at: Location, health: bool, seen: set<Token>)
    ensures ShapeList(s, [], at, health, seen) == if Complete(at, seen) then Some(Shape([], Tally(0, 0, 0))) else None
  {
  }

  lemma JoinNothing(b: Option<Shape>)
    ensures Join(Shape([], Tally(0, 0, 0)), b) == b
  {
    assert b.Some? ==> [] + b.value.directives == b.value.directives;
  }

  lemma JoinTwice(a: Shape, b: Shape, c: Option<Shape>)
    ensures Join(a, Join(b, c)) == Join(Shape(a.directives + b.directives, Add(a.tally, b.tally)), c)
  {
    assert c.Some? ==> a.directives + (b.directives + c.value.directives) == a.directives + b.directives + c.value.directives;
  }

  method ValidateNGINX(s: Service, ds: seq<Directive>) returns (r: Option<seq<Directive>>)
    ensures r == ShapeOf(s, ds)
  {
    var v := new Validator(s);
    r := v.Validate(ds, Main, false);
    if v.pidCount != 1 || v.logCount != 1 || v.healthHeader != 1 {
      r := None;
    }
  }

  // ------------------------------------------------------------- what a change may alter

  /** The directives whose values a reviewed change may alter. */
  predicate Reviewable(at: Location, name: Token) {
    match at
    case Main => name == "worker_processes"
    case Events => name == "worker_connections"
    case Http => name in {"sendfile", "server_tokens", "keepalive_timeout"}
    case Server => name == "keepalive_timeout"
    case Place => name == "return"
  }

  /** The location of a block's body, by its name alone. */
  function Inside(name: Token): Location {
    if name == "events" then Events else if name == "http" then Http else if name == "server" then Server else Place
  }

  /** Equal, but for the arguments of reviewable directives. */
  predicate SameButReviewed(a: seq<Directive>, b: seq<Directive>, at: Location) {
    && |a| == |b|
    && forall i | 0 <= i < |a| :: SameDirective(a[i], b[i], at)
  }

  predicate SameDirective(a: Directive, b: Directive, at: Location) {
    && |a.words| > 0 && |b.words| > 0 && a.words[0] == b.words[0] && a.block == b.block
    && if a.block then a.words == b.words && SameButReviewed(a.children, b.children, Inside(a.words[0]))
       else (a.words == b.words || Reviewable(at, a.words[0])) && a.children == b.children
  }

  /** Which directives are rewritten is decided by place and name, not by their values. */
  lemma MutableIsReviewable(s: Service, at: Location, health: bool, name: Token, args: seq<Token>)
    requires KindOf(s, at, health, name, args).Some?
    ensures KindOf(s, at, health, name, args).value.Mutable? <==> Reviewable(at, name)
  {
  }

  lemma BodyIsInside(s: Service, at: Location, name: Token, args: seq<Token>)
    requires BodyOf(s, at, name, args).Some?
    ensures BodyOf(s, at, name, args).value.0 == Inside(name)
  {
  }

  lemma ShapeIsOne(s: Service, d: Directive, at: Location, health: bool)
    requires |d.words| > 0 && ShapeOne(s, d, at, health).Some?
    ensures |ShapeOne(s, d, at, health).value.directives| == 1
  {
  }

  lemma {:induction false} OneDetermines(s: Service, a: Directive, b: Directive, at: Location, health: bool)
    requires |a.words| > 0 && |b.words| > 0
    requires ShapeOne(s, a, at, health).Some? && ShapeOne(s, b, at, health).Some?
    ensures ShapeOne(s, a, at, health).value.directives == ShapeOne(s, b, at, health).value.directives <==> SameDirective(a, b, at)
    decreases a, 0
  {
    if a.block {
      BodyIsInside(s, at, a.words[0], a.words[1..]);
      if b.block && a.words == b.words {
        var body := BodyOf(s, at, a.words[0], a.words[1..]).value;
        ListDetermines(s, a.children, b.children, body.0, body.1, {}, {});
      }
    } else if !b.block {
      MutableIsReviewable(s, at, health, a.words[0], a.words[1..]);
      MutableIsReviewable(s, at, health, b.words[0], b.words[1..]);
      assert a.words == [a.words[0]] + a.words[1..];
    }
  }

  lemma {:induction false} ListDetermines(s: Service, a: seq<Directive>, b: seq<Directive>, at: Location,
          health: bool, seenA: set<Token>, seenB: set<Token>)
    requires ShapeList(s, a, at, health, seenA).Some? && ShapeList(s, b, at, health, seenB).Some?
    ensures ShapeList(s, a, at, health, seenA).value.directives == ShapeList(s, b, at, health, seenB).value.directives
            <==> SameButReviewed(a, b, at)
    decreases a, 1
  {
    if a != [] && b != [] {
      ShapeIsOne(s, a[0], at, health);
      ShapeIsOne(s, b[0], at, health);
      OneDetermines(s, a[0], b[0], at, health);
      ListDetermines(s, a[1..], b[1..], at, health, seenA + {a[0].words[0]}, seenB + {b[0].words[0]});
      FrontAndRest(a, b, at);
      FrontOfSum(ShapeOne(s, a[0], at, health).value.directives, ShapeOne(s, b[0], at, health).value.directives,
                 ShapeList(s, a[1..], at, health, seenA + {a[0].words[0]}).value.directives,
                 ShapeList(s, b[1..], at, health, seenB + {b[0].words[0]}).value.directives);
    } else if a != [] {
      ShapeIsOne(s, a[0], at, health);
    } else if b != [] {
      ShapeIsOne(s, b[0], at, health);
    }
  }

  lemma FrontAndRest(a: seq<Directive>, b: seq<Directive>, at: Location)
    requires a != [] && b != []
    ensures SameButReviewed(a, b, at) <==> SameDirective(a[0], b[0], at) && SameButReviewed(a[1..], b[1..], at)
  {
    if SameDirective(a[0], b[0], at) && SameButReviewed(a[1..], b[1..], at) {
      forall i | 0 <= i < |a| ensures SameDirective(a[i], b[i], at) {
        if i > 0 { assert SameDirective(a[1..][i - 1], b[1..][i - 1], at); }
      }
    }
    if SameButReviewed(a, b, at) {
      forall i | 0 <= i < |a| - 1 ensures SameDirective(a[1..][i], b[1..][i], at) {
        assert SameDirective(a[i + 1], b[i + 1], at);
      }
    }
  }

  lemma FrontOfSum(x: seq<Directive>, y: seq<Directive>, u: seq<Directive>, v: seq<Directive>)
    requires |x| == |y|
    ensures x + u == y + v <==> x == y && u == v
  {
    if x + u == y + v {
      assert (x + u)[..|x|] == x && (y + v)[..|y|] == y && (x + u)[|x|..] == u && (y + v)[|y|..] == v;
    }
  }

  /** A change is accepted exactly when both configurations are, and they differ in nothing but
      the values of reviewable directives. */
  lemma AcceptedChangeAltersReviewedValues(s: Service, before: seq<Directive>, after: seq<Directive>)
    requires ShapeOf(s, before).Some? && ShapeOf(s, after).Some?
    ensures ShapeOf(s, before) == ShapeOf(s, after) <==> SameButReviewed(before, after, Main)
  {
    ListDetermines(s, before, after, Main, false, {}, {});
  }

  // ------------------------------------------------------------- attestation

  /** How many directives of a tree read `words`, outside blocks of another kind. */
  function Occurrences(ds: seq<Directive>, words: seq<Token>): nat {
    if ds == [] then 0 else OccurrencesIn(ds[0], words) + Occurrences(ds[1..], words)
  }

  function OccurrencesIn(d: Directive, words: seq<Token>): nat {
    if d.block then Occurrences(d.children, words) else if d.words == words then 1 else 0
  }

  function HeaderWords(): seq<Token> { ["add_header", "X-Cvke-Worker", "$pid", "always"] }

  lemma KindIsCounted(s: Service, at: Location, health: bool, words: seq<Token>)
    requires |words| > 0 && KindOf(s, at, health, words[0], words[1..]).Some?
    ensures var tally := TallyOf(KindOf(s, at, health, words[0], words[1..]).value);
      && tally.pids == (if words == ["pid", s.pidFile] then 1 else 0)
      && tally.logs == (if words == ["error_log", "stderr", "notice"] then 1 else 0)
      && tally.headers == (if words == HeaderWords() then 1 else 0)
  {
    assert words == [words[0]] + words[1..];
  }

  lemma {:induction false} OneIsCounted(s: Service, d: Directive, at: Location, health: bool)
    requires |d.words| > 0 && ShapeOne(s, d, at, health).Some?
    ensures var tally := ShapeOne(s, d, at, health).value.tally;
      && tally.pids == OccurrencesIn(d, ["pid", s.pidFile])
      && tally.logs == OccurrencesIn(d, ["error_log", "stderr", "notice"])
      && tally.headers == OccurrencesIn(d, HeaderWords())
    decreases d, 0
  {
    if d.block {
      var body := BodyOf(s, at, d.words[0], d.words[1..]).value;
      ListIsCounted(s, d.children, body.0, body.1, {});
    } else {
      KindIsCounted(s, at, health, d.words);
    }
  }

  lemma {:induction false} ListIsCounted(s: Service, ds: seq<Directive>, at: Location, health: bool, seen: set<Token>)
    requires ShapeList(s, ds, at, health, seen).Some?
    ensures var tally := ShapeList(s, ds, at, health, seen).value.tally;
      && tally.pids == Occurrences(ds, ["pid", s.pidFile])
      && tally.logs == Occurrences(ds, ["error_log", "stderr", "notice"])
      && tally.headers == Occurrences(ds, HeaderWords())
    decreases ds, 1
  {
    if ds != [] {
      OneIsCounted(s, ds[0], at, health);
      ListIsCounted(s, ds[1..], at, health, seen + {ds[0].words[0]});
    }
  }

  /** Every accepted configuration holds exactly one PID file, one notice log and one attested
      health header. */
  lemma AcceptedIsAttested(s: Service, ds: seq<Directive>)
    requires ShapeOf(s, ds).Some?
    ensures Occurrences(ds, ["pid", s.pidFile]) == 1
    ensures Occurrences(ds, ["error_log", "stderr", "notice"]) == 1
    ensures Occurrences(ds, HeaderWords()) == 1
  {
    ListIsCounted(s, ds, Main, false, {});
  }
}
