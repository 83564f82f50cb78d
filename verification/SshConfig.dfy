/** The managed listener configuration of recovery/ssh_config.go, from the text of the file to
    its port. The service itself has been validated. */
module SshConfig {
  import opened Decimals
  import opened Unicode
  import opened Wrappers

  type Line = seq<string>

  datatype Service = Service(hostKeyPath: string, pidFile: string, authorizedKeysPath: string)

  /** The directives that every managed configuration holds, whatever its port. */
  function Required(s: Service): map<string, string> {
    map["listenaddress" := "0.0.0.0", "hostkey" := s.hostKeyPath, "pidfile" := s.pidFile,
        "authorizedkeysfile" := s.authorizedKeysPath, "permitrootlogin" := "prohibit-password",
        "passwordauthentication" := "no", "kbdinteractiveauthentication" := "no",
        "permitemptypasswords" := "no", "allowusers" := "root", "allowtcpforwarding" := "no",
        "x11forwarding" := "no", "permittunnel" := "no", "usedns" := "no", "subsystem" := "sftp internal-sftp"]
  }

  const PORT := "port"

  lemma PortIsNotRequired(s: Service)
    ensures PORT !in Required(s)
  {
  }

  function Joined(words: seq<string>): string {
    if words == [] then "" else if |words| == 1 then words[0] else words[0] + " " + Joined(words[1..])
  }

  predicate Directive(line: Line) { |line| >= 2 }

  /** The letters that are lower case in ASCII, or become so: the Kelvin sign and the dotted
      capital I are the only ones from outside. Whatever else a key holds, no directive has. */
  function Lower(c: char): char {
    if 'A' <= c <= 'Z' then (c as int + 32) as char
    else if c as int == 0x212A then 'k'
    else if c as int == 0x130 then 'i'
    else c
  }

  function Lowered(s: string): string {
    seq(|s|, i requires 0 <= i < |s| => Lower(s[i]))
  }

  function Key(line: Line): string
    requires Directive(line)
  {
    Lowered(line[0])
  }

  function ValueOf(line: Line): string
    requires Directive(line)
  {
    Joined(line[1..])
  }

  predicate PortText(text: string) {
    text != "" && Digits(text) && 1 <= Number(text) <= 65535
  }

  // ------------------------------------------------------------- what a configuration denotes

  predicate OneEach(lines: seq<Line>) {
    && (forall line <- lines :: Directive(line))
    && (forall i, j | 0 <= i < j < |lines| :: Key(lines[i]) != Key(lines[j]))
  }

  /** `table` is the directive map of `lines`. */
  ghost predicate Denotes(lines: seq<Line>, table: map<string, string>) {
    && OneEach(lines)
    && (forall line <- lines :: Key(line) in table && table[Key(line)] == ValueOf(line))
    && (forall key <- table :: exists line <- lines :: Key(line) == key)
  }

  lemma DenotesOne(lines: seq<Line>, a: map<string, string>, b: map<string, string>)
    requires Denotes(lines, a) && Denotes(lines, b)
    ensures a == b
  {
  }

  /** A managed configuration: the required directives and a port, each exactly once. */
  ghost predicate Managed(s: Service, lines: seq<Line>, port: nat) {
    exists text :: PortText(text) && port == Number(text) && Denotes(lines, Required(s)[PORT := text])
  }

  // ------------------------------------------------------------- the parser

  /** No port makes `lines` a managed configuration. */
  ghost predicate Refused(s: Service, lines: seq<Line>) {
    forall n :: !Managed(s, lines, n)
  }

  lemma ForeignIsRefused(s: Service, lines: seq<Line>, line: Line)
    requires line in lines
    requires !Directive(line) || (Key(line) != PORT && (Key(line) !in Required(s) || Required(s)[Key(line)] != ValueOf(line)))
    ensures Refused(s, lines)
  {
    hide Required;
  }

  /** Values that the lines allow so far. */
  ghost predicate Allowed(s: Service, values: map<string, string>) {
    forall key <- values | key != PORT :: key in Required(s) && values[key] == Required(s)[key]
  }

  /** With every line read, a table is managed when nothing is missing and its port is sound. */
  lemma WhenComplete(s: Service, lines: seq<Line>, values: map<string, string>)
    requires Denotes(lines, values) && Allowed(s, values)
    ensures if Required(s).Keys <= values.Keys && PORT in values && PortText(values[PORT]) then Managed(s, lines, Number(values[PORT]))
            else Refused(s, lines)
  {
    PortIsNotRequired(s);
    hide Required;
    if Required(s).Keys <= values.Keys && PORT in values && PortText(values[PORT]) {
      assert values == Required(s)[PORT := values[PORT]];
    } else {
      forall n ensures !Managed(s, lines, n) {
        if Managed(s, lines, n) {
          var text :| PortText(text) && n == Number(text) && Denotes(lines, Required(s)[PORT := text]);
          DenotesOne(lines, values, Required(s)[PORT := text]);
        }
      }
    }
  }

  method ParseLines(s: Service, lines: seq<Line>) returns (port: Option<nat>)
    ensures if port.Some? then Managed(s, lines, port.value) else Refused(s, lines)
  {
    hide *;
    var required := Required(s);
    var values: map<string, string> := map[];
    var i := 0;
    StartEmpty(s, lines);
    while i < |lines|
      invariant 0 <= i <= |lines| && Denotes(lines[..i], values) && Allowed(s, values)
    {
      var line := lines[i];
      if !Directive(line) {
        ForeignIsRefused(s, lines, line);
        return None;
      }
      var key, value := Key(line), ValueOf(line);
      if key in values {
        Repeated(s, lines, i, values);
        return None;
      }
      if key != PORT && (key !in required || required[key] != value) {
        ForeignIsRefused(s, lines, line);
        return None;
      }
      Added(s, lines, i, values);
      values := values[key := value];
      i := i + 1;
    }
    assert lines[..i] == lines;
    WhenComplete(s, lines, values);
    if !(required.Keys <= values.Keys) || PORT !in values || !PortText(values[PORT]) {
      return None;
    }
    PortIsNumber(values[PORT]);
    port := Some(Number(values[PORT]));
  }

  lemma PortIsNumber(text: string)
    requires PortText(text)
    ensures Digits(text)
  {
  }

  lemma StartEmpty(s: Service, lines: seq<Line>)
    ensures Denotes(lines[..0], map[]) && Allowed(s, map[])
  {
  }

  lemma Repeated(s: Service, lines: seq<Line>, i: nat, values: map<string, string>)
    requires i < |lines| && Denotes(lines[..i], values) && Directive(lines[i]) && Key(lines[i]) in values
    ensures Refused(s, lines)
  {
    hide Required;
    var line :| line in lines[..i] && Key(line) == Key(lines[i]);
    var j :| 0 <= j < i && lines[..i][j] == line;
    assert lines[j] == line;
  }

  lemma OneMore(lines: seq<Line>, i: nat, values: map<string, string>)
    requires i < |lines| && Denotes(lines[..i], values) && Directive(lines[i]) && Key(lines[i]) !in values
    ensures OneEach(lines[..i + 1])
  {
    var before, after := lines[..i], lines[..i + 1];
    assert after == before + [lines[i]];
    forall k | 0 <= k < i ensures Key(after[k]) != Key(lines[i]) && after[k] == before[k] {
      assert before[k] in before;
    }
  }

  lemma Added(s: Service, lines: seq<Line>, i: nat, values: map<string, string>)
    requires i < |lines| && Denotes(lines[..i], values) && Directive(lines[i])
    requires Key(lines[i]) !in values && Allowed(s, values)
    requires Key(lines[i]) != PORT ==> Key(lines[i]) in Required(s) && Required(s)[Key(lines[i])] == ValueOf(lines[i])
    ensures Allowed(s, values[Key(lines[i]) := ValueOf(lines[i])])
    ensures Denotes(lines[..i + 1], values[Key(lines[i]) := ValueOf(lines[i])])
  {
    hide ValueOf;
    hide Required;
    OneMore(lines, i, values);
    var before, after := lines[..i], lines[..i + 1];
    assert after == before + [lines[i]];
    assert OneEach(before);
    hide OneEach;
    var more := values[Key(lines[i]) := ValueOf(lines[i])];
    forall key | key in more ensures exists line <- after :: Key(line) == key {
      if key == Key(lines[i]) {
        assert lines[i] in after;
      } else {
        var line :| line in before && Key(line) == key;
        assert line in after;
      }
    }
    assert forall line <- after :: line in before || line == lines[i];
  }

  // ------------------------------------------------------------- from text to lines

  const MAX_BYTES := 65536

  predicate Sized(text: string) {
    Utf8Length(text) <= MAX_BYTES && '\0' !in text
  }

  /** Where the first line ends. */
  function LineEnd(text: string): (k: nat)
    ensures k <= |text| && '\n' !in text[..k] && (k < |text| ==> text[k] == '\n')
    ensures '\n' !in text ==> k == |text|
  {
    if text == "" || text[0] == '\n' then 0 else 1 + LineEnd(text[1..])
  }

  function Lines(text: string): seq<string>
    decreases |text|
  {
    var k := LineEnd(text);
    if k == |text| then [text] else [text[..k]] + Lines(text[k + 1..])
  }

  /** Where the first word ends. */
  function WordEnd(s: string): (k: nat)
    ensures k <= |s| && (forall c <- s[..k] :: !Space(c)) && (s != "" && !Space(s[0]) ==> k > 0)
  {
    if s == "" || Space(s[0]) then 0
    else
      assert s[..1 + WordEnd(s[1..])] == [s[0]] + s[1..][..WordEnd(s[1..])];
      1 + WordEnd(s[1..])
  }

  /** The words of a line, between runs of white space. */
  function Fields(s: string): (words: seq<string>)
    decreases |s|
  {
    var t := TrimLeft(s);
    if t == "" then [] else [t[..WordEnd(t)]] + Fields(t[WordEnd(t)..])
  }

  /** What a line says: nothing when it is blank or a comment. */
  function StatementOf(line: string): seq<Line> {
    var t := Trim(line);
    if t == "" || t[0] == '#' then [] else [Fields(t)]
  }

  function StatementsOf(lines: seq<string>): seq<Line> {
    if lines == [] then [] else StatementOf(lines[0]) + StatementsOf(lines[1..])
  }

  function Statements(text: string): seq<Line> {
    StatementsOf(Lines(text))
  }

  lemma {:induction false} LinesConcat(a: string, b: string)
    ensures Lines(a + "\n" + b) == Lines(a) + Lines(b)
    decreases |a|
  {
    hide *;
    var text := a + "\n" + b;
    EndConcat(a, b);
    LinesIs(a);
    LinesIs(text);
    var k := LineEnd(a);
    CutOff(a, b, k);
    if k < |a| {
      LinesConcat(a[k + 1..], b);
      Associates([a[..k]], Lines(a[k + 1..]), Lines(b));
    }
  }

  lemma CutOff(a: string, b: string, k: nat)
    requires k <= |a|
    ensures var text := a + "\n" + b;
      k < |text| && text[..k] == a[..k] && text[k + 1..] == if k == |a| then b else a[k + 1..] + "\n" + b
    ensures a[..|a|] == a
  {
  }

  lemma LinesIs(text: string)
    ensures var k := LineEnd(text); Lines(text) == if k == |text| then [text] else [text[..k]] + Lines(text[k + 1..])
  {
    hide LineEnd;
  }

  lemma Associates<T>(a: seq<T>, b: seq<T>, c: seq<T>)
    ensures a + b + c == a + (b + c)
  {
  }

  lemma {:induction false} EndConcat(a: string, b: string)
    ensures LineEnd(a + "\n" + b) == LineEnd(a)
    decreases |a|
  {
    var text := a + "\n" + b;
    if a == "" {
      assert text[0] == '\n';
    } else {
      assert text[1..] == a[1..] + "\n" + b && text[0] == a[0];
      EndConcat(a[1..], b);
    }
  }

  lemma {:induction false} StatementsOfConcat(a: seq<string>, b: seq<string>)
    ensures StatementsOf(a + b) == StatementsOf(a) + StatementsOf(b)
    decreases |a|
  {
    hide StatementOf;
    if a == [] {
      assert a + b == b;
    } else {
      assert (a + b)[1..] == a[1..] + b;
      StatementsOfConcat(a[1..], b);
    }
  }

  /** A text says what its parts say, one after the other. */
  lemma StatementsConcat(a: string, b: string)
    ensures Statements(a + "\n" + b) == Statements(a) + Statements(b)
  {
    LinesConcat(a, b);
    StatementsOfConcat(Lines(a), Lines(b));
  }

  // ------------------------------------------------------------- and back

  predicate Word(w: string) {
    w != "" && forall c <- w :: !Space(c)
  }

  /** A line that can be written down. */
  predicate Sayable(line: Line) {
    line != [] && (forall w <- line :: Word(w)) && line[0] != "" && line[0][0] != '#'
  }

  /** One line a statement, one space between words. */
  function Written(lines: seq<Line>): string {
    if lines == [] then "" else Joined(lines[0]) + "\n" + Written(lines[1..])
  }

  lemma {:induction false} WordEndAt(w: string, rest: string)
    requires (forall c <- w :: !Space(c)) && (rest == "" || Space(rest[0]))
    ensures WordEnd(w + rest) == |w|
    decreases |w|
  {
    if w == "" {
      assert w + rest == rest;
    } else {
      assert (w + rest)[1..] == w[1..] + rest && (w + rest)[0] == w[0];
      assert forall c <- w[1..] :: c in w;
      WordEndAt(w[1..], rest);
    }
  }

  lemma TrimLeftNothing(s: string)
    requires s == "" || !Space(s[0])
    ensures TrimLeft(s) == s && TrimLeft(" " + s) == s
  {
    assert (" " + s)[1..] == s;
  }

  lemma JoinedStarts(words: seq<string>)
    requires words != [] && forall w <- words :: Word(w)
    ensures words[0] != "" && Joined(words) != "" && Joined(words)[0] == words[0][0] && !Space(Joined(words)[0])
  {
    assert Word(words[0]) && words[0][0] in words[0];
  }

  lemma {:induction false} JoinedEnds(words: seq<string>)
    requires words != [] && forall w <- words :: Word(w)
    ensures Joined(words) != "" && !Space(Joined(words)[|Joined(words)| - 1])
    decreases |words|
  {
    var first := words[0];
    assert Word(first) && first[|first| - 1] in first;
    if |words| > 1 {
      assert forall w <- words[1..] :: w in words;
      JoinedEnds(words[1..]);
    }
  }

  lemma {:induction false} JoinedHasNoEnd(words: seq<string>)
    requires forall w <- words :: Word(w)
    ensures '\n' !in Joined(words)
    decreases |words|
  {
    assert Space('\n') && !(' ' == '\n');
    if words != [] {
      assert Word(words[0]);
      assert forall w <- words[1..] :: w in words;
      JoinedHasNoEnd(words[1..]);
    }
  }

  lemma {:induction false} FieldsOfJoined(words: seq<string>)
    requires words != [] && forall w <- words :: Word(w)
    ensures Fields(Joined(words)) == words
    decreases |words|
  {
    var w := words[0];
    assert Word(w);
    JoinedStarts(words);
    TrimLeftNothing(Joined(words));
    var rest := if |words| == 1 then "" else " " + Joined(words[1..]);
    assert Joined(words) == w + rest;
    WordEndAt(w, rest);
    assert (w + rest)[..|w|] == w && (w + rest)[|w|..] == rest;
    if |words| > 1 {
      assert forall v <- words[1..] :: v in words;
      JoinedStarts(words[1..]);
      TrimLeftNothing(Joined(words[1..]));
      FieldsOfJoined(words[1..]);
      SameFields(rest, Joined(words[1..]));
      assert words == [w] + words[1..];
    } else {
      assert words == [w];
    }
  }

  lemma SameFields(a: string, b: string)
    requires TrimLeft(a) == TrimLeft(b)
    ensures Fields(a) == Fields(b)
  {
    hide TrimLeft;
    hide WordEnd;
  }

  lemma StatementIsRead(line: Line)
    requires Sayable(line)
    ensures StatementOf(Joined(line)) == [line]
  {
    var t := Joined(line);
    JoinedStarts(line);
    JoinedEnds(line);
    TrimLeftNothing(t);
    assert Trim(t) == t;
    hide Trim;
    FieldsOfJoined(line);
  }

  lemma OneLine(text: string)
    requires '\n' !in text
    ensures Lines(text) == [text]
  {
    hide LineEnd;
  }

  /** Reading inverts writing: every list of lines that can be written down is read back. */
  lemma {:induction false} WrittenIsRead(lines: seq<Line>)
    requires forall line <- lines :: Sayable(line)
    ensures Statements(Written(lines)) == lines
    decreases |lines|
  {
    if lines == [] {
      OneLine("");
      assert Trim("") == "";
    } else {
      var first := lines[0];
      assert Sayable(first);
      assert forall line <- lines[1..] :: line in lines;
      WrittenIsRead(lines[1..]);
      JoinedHasNoEnd(first);
      OneLine(Joined(first));
      StatementIsRead(first);
      StatementsConcat(Joined(first), Written(lines[1..]));
      OnlyStatement(Joined(first));
      assert lines == [first] + lines[1..];
    }
  }

  lemma OnlyStatement(line: string)
    ensures StatementsOf([line]) == StatementOf(line)
  {
    hide StatementOf;
  }

  // ------------------------------------------------------------- changes

  /** Both files denote the same directives, but for a different, unprivileged port. */
  ghost predicate OnlyPortDiffers(before: seq<Line>, after: seq<Line>, oldPort: nat, newPort: nat) {
    exists a, b ::
      && Denotes(before, a) && Denotes(after, b) && a - {PORT} == b - {PORT}
      && PORT in a && PORT in b && PortText(a[PORT]) && PortText(b[PORT])
      && oldPort == Number(a[PORT]) && newPort == Number(b[PORT]) && newPort != oldPort && newPort >= 1024
  }

  /** A text that denotes a managed configuration with this port. */
  ghost predicate ManagedText(s: Service, text: string, port: nat) {
    Sized(text) && Managed(s, Statements(text), port)
  }

  method Parse(s: Service, text: string) returns (port: Option<nat>)
    ensures if port.Some? then ManagedText(s, text, port.value) else forall n :: !ManagedText(s, text, n)
  {
    if !Sized(text) {
      return None;
    }
    port := ParseLines(s, Statements(text));
  }

  method ValidateManagedSSHChange(s: Service, before: string, after: string) returns (r: Option<(nat, nat)>)
    ensures r.Some? ==>
              && OnlyPortDiffers(Statements(before), Statements(after), r.value.0, r.value.1)
              && ManagedText(s, before, r.value.0) && ManagedText(s, after, r.value.1)
    ensures r.None? ==> forall m, n | ManagedText(s, before, m) && ManagedText(s, after, n) :: m == n || n < 1024
  {
    hide Statements;
    hide Sized;
    hide Managed;
    var oldPort := Parse(s, before);
    if oldPort.None? {
      return None;
    }
    var newPort := Parse(s, after);
    if newPort.None? {
      return None;
    }
    forall n | ManagedText(s, before, n) ensures n == oldPort.value { PortIsUnique(s, Statements(before), n, oldPort.value); }
    forall n | ManagedText(s, after, n) ensures n == newPort.value { PortIsUnique(s, Statements(after), n, newPort.value); }
    if newPort.value < 1024 || newPort.value == oldPort.value {
      return None;
    }
    PortsDiffer(s, Statements(before), Statements(after), oldPort.value, newPort.value);
    r := Some((oldPort.value, newPort.value));
  }

  lemma PortIsUnique(s: Service, lines: seq<Line>, m: nat, n: nat)
    requires Managed(s, lines, m) && Managed(s, lines, n)
    ensures m == n
  {
    hide Required;
    var a :| PortText(a) && m == Number(a) && Denotes(lines, Required(s)[PORT := a]);
    var b :| PortText(b) && n == Number(b) && Denotes(lines, Required(s)[PORT := b]);
    DenotesOne(lines, Required(s)[PORT := a], Required(s)[PORT := b]);
    assert Required(s)[PORT := a][PORT] == Required(s)[PORT := b][PORT];
  }

  lemma PortsDiffer(s: Service, before: seq<Line>, after: seq<Line>, m: nat, n: nat)
    requires Managed(s, before, m) && Managed(s, after, n) && m != n && n >= 1024
    ensures OnlyPortDiffers(before, after, m, n)
  {
    PortIsNotRequired(s);
    hide Required;
    hide Denotes;
    var a :| PortText(a) && m == Number(a) && Denotes(before, Required(s)[PORT := a]);
    var b :| PortText(b) && n == Number(b) && Denotes(after, Required(s)[PORT := b]);
    var x, y := Required(s)[PORT := a], Required(s)[PORT := b];
    assert x - {PORT} == y - {PORT} && x[PORT] == a && y[PORT] == b;
  }

  /** The order of the lines is of no account. */
  lemma OrderDoesNotMatter(s: Service, a: seq<Line>, b: seq<Line>, port: nat)
    requires |a| == |b| && (forall line :: line in a <==> line in b) && OneEach(a) && OneEach(b)
    ensures Managed(s, a, port) <==> Managed(s, b, port)
  {
    hide Required;
    forall table ensures Denotes(a, table) <==> Denotes(b, table) {
      SameLines(a, b, table);
      SameLines(b, a, table);
    }
  }

  lemma SameLines(a: seq<Line>, b: seq<Line>, table: map<string, string>)
    requires (forall line :: line in a <==> line in b) && OneEach(b)
    ensures Denotes(a, table) ==> Denotes(b, table)
  {
  }
}
