/** The least configuration that the reviewed NGINX grammar accepts, with any reviewed values. */
module NginxCanonical {
  import opened Decimals
  import opened NginxParser
  import opened NginxShape
  import opened Wrappers

  function Simple(words: seq<Token>): Directive { Directive(words, false, []) }

  function Block(words: seq<Token>, children: seq<Directive>): Directive { Directive(words, true, children) }

  /** The values that a reviewed change may choose here. */
  datatype Values = Values(processes: Token, connections: Token, status: Token)

  /** Numbers in range, of any number of digits. */
  predicate InRange(v: Values) {
    && v.processes != "" && Digits(v.processes) && 1 <= Number(v.processes) <= 16
    && v.connections != "" && Digits(v.connections) && 1 <= Number(v.connections) <= 65536
    && v.status != "" && Digits(v.status) && 200 <= Number(v.status) <= 599
  }

  predicate PlainPath(path: Token) {
    path != "" && path[0] == '/' && '$' !in path && '\n' !in path && '\r' !in path && '\\' !in path
  }

  /** One directive before others. */
  function Before(d: Directive, rest: seq<Directive>): seq<Directive> { [d] + rest }

  function Temp(s: Service, name: Token): seq<Token> { [name, s.prefix + "/" + name] }

  function Health(v: Values): seq<Directive> {
    Before(Simple(["return", v.status]), Before(Simple(["add_header", "X-Cvke-Worker", "$pid", "always"]), []))
  }

  function Servers(s: Service, v: Values): seq<Directive> {
    Before(Simple(["listen", s.host]), Before(Block(["location", "=", s.path], Health(v)), []))
  }

  function Web(s: Service, v: Values): seq<Directive> {
    Before(Simple(["access_log", "off"]),
    Before(Simple(Temp(s, "client_body_temp_path")),
    Before(Simple(Temp(s, "proxy_temp_path")),
    Before(Simple(Temp(s, "fastcgi_temp_path")),
    Before(Simple(Temp(s, "uwsgi_temp_path")),
    Before(Simple(Temp(s, "scgi_temp_path")),
    Before(Block(["server"], Servers(s, v)), [])))))))
  }

  function Canonical(s: Service, v: Values): seq<Directive> {
    Before(Simple(["pid", s.pidFile]),
    Before(Simple(["error_log", "stderr", "notice"]),
    Before(Simple(["worker_processes", v.processes]),
    Before(Block(["events"], Before(Simple(["worker_connections", v.connections]), [])),
    Before(Block(["http"], Web(s, v)), [])))))
  }

  // ------------------------------------------------------------- one directive more

  /** A list is accepted after the names `seen`, and counts as `tally`. */
  ghost predicate Accepts(s: Service, ds: seq<Directive>, at: Location, health: bool, seen: set<Token>, tally: Tally) {
    ShapeList(s, ds, at, health, seen).Some? && ShapeList(s, ds, at, health, seen).value.tally == tally
  }

  /** A simple directive is accepted as `k`. */
  predicate Takes(s: Service, words: seq<Token>, name: Token, at: Location, health: bool, k: Kind) {
    |words| > 0 && words[0] == name && KindOf(s, at, health, name, words[1..]) == Some(k)
  }

  predicate Opens(s: Service, words: seq<Token>, name: Token, at: Location, within: Location, health: bool) {
    |words| > 0 && words[0] == name && BodyOf(s, at, name, words[1..]) == Some((within, health))
  }

  /** The first directive of a list, and the rest. */
  lemma PutFirst(s: Service, d: Directive, rest: seq<Directive>, at: Location, health: bool, seen: set<Token>, one: Tally, tally: Tally)
    requires |d.words| > 0 && d.words[0] !in seen && Accepts(s, rest, at, health, seen + {d.words[0]}, tally)
    requires ShapeOne(s, d, at, health).Some? && ShapeOne(s, d, at, health).value.tally == one
    ensures Accepts(s, [d] + rest, at, health, seen, Add(one, tally))
  {
    hide ShapeOne;
    hide ShapeList;
    var ds := [d] + rest;
    assert ds[0] == d && ds[1..] == rest;
    ListHead(s, ds, at, health, seen);
  }

  lemma SimpleIs(s: Service, words: seq<Token>, at: Location, health: bool, k: Kind)
    requires |words| > 0 && KindOf(s, at, health, words[0], words[1..]) == Some(k)
    ensures ShapeOne(s, Simple(words), at, health).Some? && ShapeOne(s, Simple(words), at, health).value.tally == TallyOf(k)
  {
    hide KindOf;
    hide ShapeList;
  }

  lemma BlockIs(s: Service, words: seq<Token>, children: seq<Directive>, at: Location, within: Location, health: bool, inner: Tally)
    requires |words| > 0 && BodyOf(s, at, words[0], words[1..]) == Some((within, health)) && Accepts(s, children, within, health, {}, inner)
    ensures ShapeOne(s, Block(words, children), at, false).Some? && ShapeOne(s, Block(words, children), at, false).value.tally == inner
  {
    hide BodyOf;
    hide ShapeList;
  }

  lemma AddSimple(s: Service, words: seq<Token>, name: Token, rest: seq<Directive>, at: Location, health: bool, seen: set<Token>, k: Kind,
                  tally: Tally)
    requires name !in seen && Takes(s, words, name, at, health, k) && Accepts(s, rest, at, health, seen + {name}, tally)
    ensures Accepts(s, Before(Simple(words), rest), at, health, seen, Add(TallyOf(k), tally))
  {
    hide KindOf;
    hide Accepts;
    hide TallyOf;
    hide Add;
    hide ShapeOne;
    SimpleIs(s, words, at, health, k);
    PutFirst(s, Simple(words), rest, at, health, seen, TallyOf(k), tally);
  }

  lemma AddBlock(s: Service, words: seq<Token>, name: Token, children: seq<Directive>, rest: seq<Directive>, at: Location, seen: set<Token>,
                 within: Location, health: bool, inner: Tally, tally: Tally)
    requires name !in seen && Opens(s, words, name, at, within, health)
    requires Accepts(s, children, within, health, {}, inner) && Accepts(s, rest, at, false, seen + {name}, tally)
    ensures Accepts(s, Before(Block(words, children), rest), at, false, seen, Add(inner, tally))
  {
    hide BodyOf;
    hide Accepts;
    hide Add;
    hide ShapeOne;
    BlockIs(s, words, children, at, within, health, inner);
    PutFirst(s, Block(words, children), rest, at, false, seen, inner, tally);
  }

  lemma NothingMore(s: Service, at: Location, health: bool, seen: set<Token>)
    requires Complete(at, seen)
    ensures Accepts(s, [], at, health, seen, Tally(0, 0, 0))
  {
  }

  lemma MutableCounts(t: Tally)
    ensures Add(TallyOf(Mutable), t) == t
  {
  }

  lemma FixedCounts(t: Tally)
    ensures Add(TallyOf(Fixed), t) == t
  {
  }

  lemma NothingCounts(t: Tally)
    ensures Add(t, Tally(0, 0, 0)) == t
  {
  }

  lemma NothingIsCounted(t: Tally)
    ensures Add(Tally(0, 0, 0), t) == t
  {
  }

  lemma HealthCounts()
    ensures Add(TallyOf(Kind.Health), Tally(0, 0, 0)) == Tally(0, 0, 1)
  {
  }

  lemma LogCounts()
    ensures Add(TallyOf(Log), Tally(0, 0, 1)) == Tally(0, 1, 1)
  {
  }

  lemma PidCounts()
    ensures Add(TallyOf(Pid), Tally(0, 1, 1)) == Tally(1, 1, 1)
  {
  }

  lemma Unasked(at: Location, seen: set<Token>)
    requires at.Main? || at.Events? || at.Place?
    ensures Complete(at, seen)
  {
  }

  // ------------------------------------------------------------- one list after another

  lemma HealthUnfolds(v: Values)
    ensures Health(v) == Before(Simple(["return", v.status]), Before(Simple(["add_header", "X-Cvke-Worker", "$pid", "always"]), []))
  {
    hide Before;
  }

  lemma ServersUnfold(s: Service, v: Values)
    ensures Servers(s, v) == Before(Simple(["listen", s.host]), Before(Block(["location", "=", s.path], Health(v)), []))
  {
    hide Before;
    hide Health;
  }

  lemma EventsTake(s: Service, v: Values)
    requires InRange(v)
    ensures Takes(s, ["worker_connections", v.connections], "worker_connections", Events, false, Mutable)
  {
    assert ["worker_connections", v.connections][1..] == [v.connections];
  }

  lemma ServerIsComplete()
    ensures Complete(Server, {"listen"} + {"location"})
  {
  }

  lemma NamesDiffer()
    ensures "return" != "add_header" && "listen" != "location"
  {
    assert "return"[0] != "add_header"[0] && "listen"[1] != "location"[1];
  }

  lemma HealthTakes(s: Service, v: Values)
    requires InRange(v)
    ensures Takes(s, ["return", v.status], "return", Place, true, Mutable)
    ensures Takes(s, ["add_header", "X-Cvke-Worker", "$pid", "always"], "add_header", Place, true, Kind.Health)
  {
    assert ["return", v.status][1..] == [v.status] && [v.status][..1] == [v.status];
    assert ["add_header", "X-Cvke-Worker", "$pid", "always"][1..] == ["X-Cvke-Worker", "$pid", "always"];
  }

  /** A list of two simple directives. */
  lemma TwoSimple(s: Service, a: seq<Token>, x: Token, b: seq<Token>, y: Token, at: Location, health: bool, j: Kind, k: Kind)
    requires x != y && Takes(s, a, x, at, health, j) && Takes(s, b, y, at, health, k) && Complete(at, {x} + {y})
    ensures Accepts(s, Before(Simple(a), Before(Simple(b), [])), at, health, {}, Add(TallyOf(j), Add(TallyOf(k), Tally(0, 0, 0))))
  {
    hide *;
    NothingMore(s, at, health, {x} + {y});
    AddSimple(s, b, y, [], at, health, {x}, k, Tally(0, 0, 0));
    assert {} + {x} == {x};
    AddSimple(s, a, x, Before(Simple(b), []), at, health, {}, j, Add(TallyOf(k), Tally(0, 0, 0)));
  }

  lemma HealthIsAccepted(s: Service, v: Values)
    requires InRange(v)
    ensures Accepts(s, Health(v), Place, true, {}, Tally(0, 0, 1))
  {
    hide *;
    HealthTakes(s, v);
    HealthCounts();
    MutableCounts(Tally(0, 0, 1));
    Unasked(Place, {"return"} + {"add_header"});
    NamesDiffer();
    TwoSimple(s, ["return", v.status], "return", ["add_header", "X-Cvke-Worker", "$pid", "always"], "add_header", Place, true, Mutable, Kind.Health);
    HealthUnfolds(v);
  }

  lemma EventsAreAccepted(s: Service, v: Values)
    requires InRange(v)
    ensures Accepts(s, Before(Simple(["worker_connections", v.connections]), []), Events, false, {}, Tally(0, 0, 0))
  {
    hide *;
    EventsTake(s, v);
    Unasked(Events, {} + {"worker_connections"});
    NothingMore(s, Events, false, {} + {"worker_connections"});
    MutableCounts(Tally(0, 0, 0));
    AddSimple(s, ["worker_connections", v.connections], "worker_connections", [], Events, false, {}, Mutable, Tally(0, 0, 0));
  }

  lemma ServersTake(s: Service)
    requires PlainPath(s.path)
    ensures Takes(s, ["listen", s.host], "listen", Server, false, Fixed)
    ensures Opens(s, ["location", "=", s.path], "location", Server, Place, true)
  {
    assert ["listen", s.host][1..] == [s.host] && ["location", "=", s.path][1..] == ["=", s.path];
  }

  lemma SimpleThenBlock(s: Service, a: seq<Token>, x: Token, b: seq<Token>, y: Token, children: seq<Directive>, at: Location, j: Kind,
                        within: Location, health: bool, inner: Tally)
    requires x != y && Takes(s, a, x, at, false, j) && Opens(s, b, y, at, within, health) && Complete(at, {x} + {y})
    requires Accepts(s, children, within, health, {}, inner)
    ensures Accepts(s, Before(Simple(a), Before(Block(b, children), [])), at, false, {}, Add(TallyOf(j), Add(inner, Tally(0, 0, 0))))
  {
    hide *;
    NothingMore(s, at, false, {x} + {y});
    AddBlock(s, b, y, children, [], at, {x}, within, health, inner, Tally(0, 0, 0));
    assert {} + {x} == {x};
    AddSimple(s, a, x, Before(Block(b, children), []), at, false, {}, j, Add(inner, Tally(0, 0, 0)));
  }

  lemma ServersAreAccepted(s: Service, v: Values)
    requires InRange(v) && PlainPath(s.path)
    ensures Accepts(s, Servers(s, v), Server, false, {}, Tally(0, 0, 1))
  {
    hide *;
    HealthIsAccepted(s, v);
    ServersTake(s);
    NamesDiffer();
    ServerIsComplete();
    NothingCounts(Tally(0, 0, 1));
    FixedCounts(Tally(0, 0, 1));
    SimpleThenBlock(s, ["listen", s.host], "listen", ["location", "=", s.path], "location", Health(v), Server, Fixed, Place, true, Tally(0, 0, 1));
    ServersUnfold(s, v);
  }

  lemma TempIsTaken(s: Service, name: Token)
    requires name in TEMP_PATHS
    ensures Takes(s, Temp(s, name), name, Http, false, Fixed)
  {
    assert Temp(s, name)[1..] == [s.prefix + "/" + name];
  }

  /** Five names of which each is new, in front of a block. */
  lemma AddTemps(s: Service, a: Token, b: Token, c: Token, d: Token, e: Token, rest: seq<Directive>, seen: set<Token>, tally: Tally)
    requires a in TEMP_PATHS && b in TEMP_PATHS && c in TEMP_PATHS && d in TEMP_PATHS && e in TEMP_PATHS
    requires a !in seen && b !in seen && c !in seen && d !in seen && e !in seen
    requires a != b && a != c && a != d && a != e && b != c && b != d && b != e && c != d && c != e && d != e
    requires Accepts(s, rest, Http, false, seen + {a} + {b} + {c} + {d} + {e}, tally)
    ensures Accepts(s, Before(Simple(Temp(s, a)), Before(Simple(Temp(s, b)), Before(Simple(Temp(s, c)),
                       Before(Simple(Temp(s, d)), Before(Simple(Temp(s, e)), rest))))), Http, false, seen, tally)
  {
    hide *;
    AddTemp(s, e, rest, seen + {a} + {b} + {c} + {d}, tally);
    var r4 := Before(Simple(Temp(s, e)), rest);
    AddTemp(s, d, r4, seen + {a} + {b} + {c}, tally);
    var r3 := Before(Simple(Temp(s, d)), r4);
    AddTemp(s, c, r3, seen + {a} + {b}, tally);
    var r2 := Before(Simple(Temp(s, c)), r3);
    AddTemp(s, b, r2, seen + {a}, tally);
    AddTemp(s, a, Before(Simple(Temp(s, b)), r2), seen, tally);
  }

  lemma AddTemp(s: Service, name: Token, rest: seq<Directive>, seen: set<Token>, tally: Tally)
    requires name in TEMP_PATHS && name !in seen && Accepts(s, rest, Http, false, seen + {name}, tally)
    ensures Accepts(s, Before(Simple(Temp(s, name)), rest), Http, false, seen, tally)
  {
    TempIsTaken(s, name);
    assert Add(TallyOf(Fixed), tally) == tally;
    hide Takes;
    hide Accepts;
    hide Before;
    hide Temp;
    AddSimple(s, Temp(s, name), name, rest, Http, false, seen, Fixed, tally);
  }

  lemma TempsDiffer()
    ensures "client_body_temp_path" != "proxy_temp_path" && "client_body_temp_path" != "fastcgi_temp_path"
    ensures "client_body_temp_path" != "uwsgi_temp_path" && "client_body_temp_path" != "scgi_temp_path"
    ensures "proxy_temp_path" != "fastcgi_temp_path" && "proxy_temp_path" != "uwsgi_temp_path" && "proxy_temp_path" != "scgi_temp_path"
    ensures "fastcgi_temp_path" != "uwsgi_temp_path" && "fastcgi_temp_path" != "scgi_temp_path" && "uwsgi_temp_path" != "scgi_temp_path"
    ensures forall name <- TEMP_PATHS :: name !in {"access_log"} && name != "server"
  {
    assert "proxy_temp_path"[0] != "uwsgi_temp_path"[0];
  }

  /** The names of the web block, in their order. */
  function WebNames(): set<Token> {
    {"access_log"} + {"client_body_temp_path"} + {"proxy_temp_path"} + {"fastcgi_temp_path"} + {"uwsgi_temp_path"} + {"scgi_temp_path"}
  }

  lemma WebIsComplete()
    ensures Complete(Http, WebNames() + {"server"}) && "server" !in WebNames()
  {
    assert "server" != "access_log" && "server" != "client_body_temp_path" && "server" != "proxy_temp_path";
    assert "server" != "fastcgi_temp_path" && "server" != "uwsgi_temp_path" && "server" != "scgi_temp_path";
  }

  lemma WebTakes(s: Service)
    ensures Takes(s, ["access_log", "off"], "access_log", Http, false, Fixed) && Opens(s, ["server"], "server", Http, Server, false)
  {
    assert ["access_log", "off"][1..] == ["off"] && ["server"][1..] == [];
  }

  lemma WebIsAccepted(s: Service, v: Values)
    requires InRange(v) && PlainPath(s.path)
    ensures Accepts(s, Web(s, v), Http, false, {}, Tally(0, 0, 1))
  {
    var one, none := Tally(0, 0, 1), Tally(0, 0, 0);
    hide *;
    ServersAreAccepted(s, v);
    WebIsComplete();
    WebTakes(s);
    NothingCounts(Tally(0, 0, 1));
    FixedCounts(Tally(0, 0, 1));
    NothingMore(s, Http, false, WebNames() + {"server"});
    AddBlock(s, ["server"], "server", Servers(s, v), [], Http, WebNames(), Server, false, one, none);
    WebTemps(s, Before(Block(["server"], Servers(s, v)), []), one);
    WebFirst(s, v, one);
  }

  lemma WebTemps(s: Service, rest: seq<Directive>, one: Tally)
    requires Accepts(s, rest, Http, false, WebNames(), one)
    ensures Accepts(s, Before(Simple(Temp(s, "client_body_temp_path")), Before(Simple(Temp(s, "proxy_temp_path")),
              Before(Simple(Temp(s, "fastcgi_temp_path")), Before(Simple(Temp(s, "uwsgi_temp_path")), Before(Simple(Temp(s, "scgi_temp_path")),
              rest))))), Http, false, {"access_log"}, one)
  {
    TempsDiffer();
    hide Accepts;
    hide Before;
    hide Temp;
    AddTemps(s, "client_body_temp_path", "proxy_temp_path", "fastcgi_temp_path", "uwsgi_temp_path", "scgi_temp_path", rest, {"access_log"}, one);
  }

  lemma WebFirst(s: Service, v: Values, one: Tally)
    requires Takes(s, ["access_log", "off"], "access_log", Http, false, Fixed) && Add(TallyOf(Fixed), one) == one
    requires Accepts(s, Before(Simple(Temp(s, "client_body_temp_path")), Before(Simple(Temp(s, "proxy_temp_path")),
               Before(Simple(Temp(s, "fastcgi_temp_path")), Before(Simple(Temp(s, "uwsgi_temp_path")), Before(Simple(Temp(s, "scgi_temp_path")),
               Before(Block(["server"], Servers(s, v)), [])))))), Http, false, {"access_log"}, one)
    ensures Accepts(s, Web(s, v), Http, false, {}, one)
  {
    hide Takes;
    hide Accepts;
    hide Before;
    hide Servers;
    hide Temp;
    assert {} + {"access_log"} == {"access_log"};
    var rest := Before(Simple(Temp(s, "client_body_temp_path")), Before(Simple(Temp(s, "proxy_temp_path")),
                  Before(Simple(Temp(s, "fastcgi_temp_path")), Before(Simple(Temp(s, "uwsgi_temp_path")), Before(Simple(Temp(s, "scgi_temp_path")),
                  Before(Block(["server"], Servers(s, v)), []))))));
    AddSimple(s, ["access_log", "off"], "access_log", rest, Http, false, {}, Fixed, one);
  }

  lemma MainTakes(s: Service, v: Values)
    requires InRange(v)
    ensures Takes(s, ["pid", s.pidFile], "pid", Main, false, Pid)
    ensures Takes(s, ["error_log", "stderr", "notice"], "error_log", Main, false, Log)
    ensures Takes(s, ["worker_processes", v.processes], "worker_processes", Main, false, Mutable)
    ensures Opens(s, ["events"], "events", Main, Events, false) && Opens(s, ["http"], "http", Main, Http, false)
  {
    assert ["pid", s.pidFile][1..] == [s.pidFile] && ["error_log", "stderr", "notice"][1..] == ["stderr", "notice"];
    assert ["worker_processes", v.processes][1..] == [v.processes] && ["events"][1..] == [] && ["http"][1..] == [];
  }

  /** Three simple directives and two blocks, with five different names. */
  lemma ThreeAndTwo(s: Service, a: seq<Token>, x: Token, b: seq<Token>, y: Token, c: seq<Token>, z: Token,
                    d: seq<Token>, p: Token, e: seq<Token>, q: Token, events: seq<Directive>, web: seq<Directive>)
    requires x != y && x != z && x != p && x != q && y != z && y != p && y != q && z != p && z != q && p != q
    requires Takes(s, a, x, Main, false, Pid) && Takes(s, b, y, Main, false, Log) && Takes(s, c, z, Main, false, Mutable)
    requires Opens(s, d, p, Main, Events, false) && Opens(s, e, q, Main, Http, false)
    requires Accepts(s, events, Events, false, {}, Tally(0, 0, 0)) && Accepts(s, web, Http, false, {}, Tally(0, 0, 1))
    ensures Accepts(s, Before(Simple(a), Before(Simple(b), Before(Simple(c), Before(Block(d, events), Before(Block(e, web), []))))),
                    Main, false, {}, Tally(1, 1, 1))
  {
    hide *;
    var none, one := Tally(0, 0, 0), Tally(0, 0, 1);
    NothingCounts(one);
    NothingIsCounted(one);
    MutableCounts(one);
    LogCounts();
    PidCounts();
    Unasked(Main, {x} + {y} + {z} + {p} + {q});
    NothingMore(s, Main, false, {x} + {y} + {z} + {p} + {q});
    AddBlock(s, e, q, web, [], Main, {x} + {y} + {z} + {p}, Http, false, one, none);
    var r4 := Before(Block(e, web), []);
    AddBlock(s, d, p, events, r4, Main, {x} + {y} + {z}, Events, false, none, one);
    var r3 := Before(Block(d, events), r4);
    AddSimple(s, c, z, r3, Main, false, {x} + {y}, Mutable, one);
    var r2 := Before(Simple(c), r3);
    AddSimple(s, b, y, r2, Main, false, {x}, Log, one);
    assert {} + {x} == {x};
    AddSimple(s, a, x, Before(Simple(b), r2), Main, false, {}, Pid, Tally(0, 1, 1));
  }

  lemma MainDiffers()
    ensures "pid" != "error_log" && "pid" != "worker_processes" && "pid" != "events" && "pid" != "http" && "error_log" != "worker_processes"
    ensures "error_log" != "events" && "error_log" != "http" && "worker_processes" != "events" && "worker_processes" != "http" && "events" != "http"
  {
  }

  /** Any choice of reviewed values in range makes an accepted configuration. */
  lemma CanonicalIsAccepted(s: Service, v: Values)
    requires InRange(v) && PlainPath(s.path)
    ensures ShapeOf(s, Canonical(s, v)).Some?
  {
    EventsAreAccepted(s, v);
    WebIsAccepted(s, v);
    MainTakes(s, v);
    MainDiffers();
    hide Takes;
    hide Opens;
    hide Accepts;
    hide Before;
    hide Web;
    ThreeAndTwo(s, ["pid", s.pidFile], "pid", ["error_log", "stderr", "notice"], "error_log", ["worker_processes", v.processes], "worker_processes",
                ["events"], "events", ["http"], "http", Before(Simple(["worker_connections", v.connections]), []), Web(s, v));
    AttestedIsAccepted(s, Canonical(s, v));
  }

  lemma AttestedIsAccepted(s: Service, ds: seq<Directive>)
    requires Accepts(s, ds, Main, false, {}, Tally(1, 1, 1))
    ensures ShapeOf(s, ds).Some?
  {
    hide ShapeList;
  }
}
