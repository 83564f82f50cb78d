/** Every way of writing a managed configuration down: blank lines, comments, and statements
    with any white space around and between their words, with keys in any letter case. */
module SshWriting {
  import opened Unicode
  import opened SshConfig
  import opened Wrappers

  /** One line. `gaps[k]` follows word `k`. */
  datatype Row = Empty(space: string) | Remark(space: string, text: string) | Statement(space: string, words: seq<string>, gaps: seq<string>)

  /** White space within a line. */
  predicate Spaces(s: string) {
    forall c <- s :: Space(c) && c != '\n'
  }

  function Glue(words: seq<string>, gaps: seq<string>): string
    requires |words| == |gaps|
  {
    if words == [] then "" else words[0] + gaps[0] + Glue(words[1..], gaps[1..])
  }

  predicate Proper(row: Row) {
    && Spaces(row.space)
    && match row
       case Empty(_) => true
       case Remark(_, text) => '\n' !in text
       case Statement(_, words, gaps) =>
         && |words| == |gaps| > 0 && (forall w <- words :: Word(w)) && (words[0] != "" ==> words[0][0] != '#')
         && (forall gap <- gaps :: Spaces(gap)) && (forall k | 0 <= k < |gaps| - 1 :: gaps[k] != "")
  }

  function RowText(row: Row): string
    requires Proper(row)
  {
    match row
    case Empty(space) => space
    case Remark(space, text) => space + "#" + text
    case Statement(space, words, gaps) => space + Glue(words, gaps)
  }

  function Said(row: Row): seq<Line> {
    match row
    case Statement(_, words, _) => [words]
    case _ => []
  }

  /** The lines, with a line end between one and the next. */
  function TextOf(rows: seq<Row>): string
    requires forall row <- rows :: Proper(row)
  {
    if rows == [] then "" else if |rows| == 1 then RowText(rows[0]) else RowText(rows[0]) + "\n" + TextOf(rows[1..])
  }

  function AllSaid(rows: seq<Row>): seq<Line> {
    if rows == [] then [] else Said(rows[0]) + AllSaid(rows[1..])
  }

  // ------------------------------------------------------------- white space

  lemma {:induction false} TrimLeftSpaces(a: string, b: string)
    requires (forall c <- a :: Space(c)) && (b != "" ==> !Space(b[0]))
    ensures TrimLeft(a + b) == b
  {
    if a == "" {
      assert a + b == b;
    } else {
      assert (a + b)[1..] == a[1..] + b && a[0] in a;
      TrimLeftSpaces(a[1..], b);
    }
  }

  lemma {:induction false} TrimRightSpaces(a: string, b: string)
    requires (forall c <- b :: Space(c)) && (a != "" ==> !Space(a[|a| - 1]))
    ensures TrimRight(a + b) == a
    decreases |b|
  {
    if b == "" {
      assert a + b == a;
    } else {
      assert (a + b)[..|a + b| - 1] == a + b[..|b| - 1] && b[|b| - 1] in b;
      TrimRightSpaces(a, b[..|b| - 1]);
    }
  }

  /** Glued words without what follows the last. */
  function Bared(gaps: seq<string>): seq<string>
    requires gaps != []
  {
    gaps[..|gaps| - 1] + [""]
  }

  lemma {:induction false} GlueEnds(words: seq<string>, gaps: seq<string>)
    requires |words| == |gaps| > 0 && forall w <- words :: Word(w)
    ensures Glue(words, gaps) == Glue(words, Bared(gaps)) + gaps[|gaps| - 1]
    ensures var g := Glue(words, Bared(gaps)); words[0] != "" && g != "" && g[0] == words[0][0] && !Space(g[0]) && !Space(g[|g| - 1])
  {
    assert Word(words[0]) && words[0][0] in words[0] && words[0][|words[0]| - 1] in words[0];
    if |words| > 1 {
      GlueEnds(words[1..], gaps[1..]);
      assert Bared(gaps)[1..] == Bared(gaps[1..]) && Bared(gaps)[0] == gaps[0];
    } else {
      assert Glue(words[1..], gaps[1..]) == "" && Glue(words[1..], Bared(gaps)[1..]) == "";
    }
  }

  /** One word, what follows it, and the rest. */
  lemma FirstField(w: string, gap: string, rest: string)
    requires Word(w) && Spaces(gap) && (rest != "" ==> !Space(rest[0]) && gap != "")
    ensures Fields(w + gap + rest) == [w] + Fields(rest)
  {
    var tail := gap + rest;
    assert w[0] in w && w + gap + rest == w + tail && (w + tail)[0] == w[0];
    assert tail != "" ==> Space(tail[0]) by { if gap != "" { assert gap[0] in gap && tail[0] == gap[0]; } }
    TrimLeftNothing(w + tail);
    WordEndAt(w, tail);
    assert (w + tail)[..|w|] == w && (w + tail)[|w|..] == tail;
    TrimLeftSpaces(gap, rest);
    TrimLeftNothing(rest);
    SameFields(tail, rest);
  }

  /** What separates is dropped, and what it separates is kept. */
  lemma {:induction false} FieldsOfGlue(words: seq<string>, gaps: seq<string>)
    requires |words| == |gaps| && (forall w <- words :: Word(w)) && (forall gap <- gaps :: Spaces(gap))
    requires forall k | 0 <= k < |gaps| - 1 :: gaps[k] != ""
    ensures Fields(Glue(words, gaps)) == words
    decreases |words|
  {
    hide Fields;
    hide Spaces;
    hide Word;
    if words == [] {
      NoFields();
    } else {
      var rest := Glue(words[1..], gaps[1..]);
      assert forall w <- words[1..] :: w in words;
      assert forall gap <- gaps[1..] :: gap in gaps;
      FieldsOfGlue(words[1..], gaps[1..]);
      if |words| > 1 { GlueEnds(words[1..], gaps[1..]); }
      FirstField(words[0], gaps[0], rest);
      assert words == [words[0]] + words[1..];
    }
  }

  lemma NoFields()
    ensures Fields("") == []
  {
  }

  // ------------------------------------------------------------- one line

  lemma RowIsRead(row: Row)
    requires Proper(row)
    ensures StatementOf(RowText(row)) == Said(row)
  {
    match row
    case Empty(space) =>
      TrimLeftSpaces(space, "");
      assert space + "" == space;
    case Remark(space, text) =>
      TrimLeftSpaces(space, "#" + text);
      assert space + ("#" + text) == RowText(row);
      HashStays(text);
    case Statement(space, words, gaps) =>
      var last := gaps[|gaps| - 1];
      GlueEnds(words, gaps);
      var g := Glue(words, Bared(gaps));
      assert Spaces(last) && g + last != "" && (g + last)[0] == g[0];
      TrimLeftSpaces(space, g + last);
      TrimRightSpaces(g, last);
      FieldsOfGlue(words, Bared(gaps));
      assert Word(words[0]);
  }

  lemma HashStays(text: string)
    ensures Trim("#" + text) != "" && Trim("#" + text)[0] == '#'
  {
    TrimLeftNothing("#" + text);
    FirstStays("#" + text);
  }

  lemma {:induction false} FirstStays(s: string)
    requires s != "" && !Space(s[0])
    ensures TrimRight(s) != "" && TrimRight(s)[0] == s[0]
    decreases |s|
  {
    if |s| > 1 && Space(s[|s| - 1]) { FirstStays(s[..|s| - 1]); }
  }

  lemma {:induction false} GlueHasNoEnd(words: seq<string>, gaps: seq<string>)
    requires |words| == |gaps| && (forall w <- words :: Word(w)) && (forall gap <- gaps :: Spaces(gap))
    ensures '\n' !in Glue(words, gaps)
  {
    assert Space('\n');
    if words != [] {
      assert Word(words[0]) && Spaces(gaps[0]);
      GlueHasNoEnd(words[1..], gaps[1..]);
    }
  }

  lemma RowHasNoEnd(row: Row)
    requires Proper(row)
    ensures '\n' !in RowText(row)
  {
    if row.Statement? { GlueHasNoEnd(row.words, row.gaps); }
  }

  /** A text says what its statements say, whatever white space, blank lines and comments lie
      around them. */
  lemma {:induction false} TextIsRead(rows: seq<Row>)
    requires forall row <- rows :: Proper(row)
    ensures Statements(TextOf(rows)) == AllSaid(rows)
    decreases |rows|
  {
    if rows == [] {
      OneLine("");
      assert Trim("") == "";
    } else {
      var first := rows[0];
      RowHasNoEnd(first);
      RowIsRead(first);
      OneLine(RowText(first));
      OnlyStatement(RowText(first));
      TextIsRead(rows[1..]);
      hide RowText;
      hide Proper;
      hide Statements;
      if |rows| > 1 {
        StatementsConcat(RowText(first), TextOf(rows[1..]));
        FirstSays(RowText(first));
      } else {
        FirstSays(RowText(first));
        assert AllSaid(rows[1..]) == [];
      }
    }
  }

  lemma FirstSays(line: string)
    requires Lines(line) == [line] && StatementsOf([line]) == StatementOf(line)
    ensures Statements(line) == StatementOf(line)
  {
  }

  // ------------------------------------------------------------- every text is written so

  lemma {:induction false} CutSpaces(s: string) returns (space: string, rest: string)
    requires '\n' !in s
    ensures s == space + rest && Spaces(space) && (rest != "" ==> !Space(rest[0])) && '\n' !in rest
  {
    if s == "" || !Space(s[0]) {
      space, rest := "", s;
      assert s == "" + s;
    } else {
      space, rest := CutSpaces(s[1..]);
      space := [s[0]] + space;
      assert s == [s[0]] + s[1..];
    }
  }

  lemma {:induction false} CutWords(s: string) returns (words: seq<string>, gaps: seq<string>)
    requires '\n' !in s && s != "" && !Space(s[0])
    ensures |words| == |gaps| > 0 && Glue(words, gaps) == s && (forall w <- words :: Word(w)) && words[0] != "" && words[0][0] == s[0]
    ensures (forall gap <- gaps :: Spaces(gap)) && (forall k | 0 <= k < |gaps| - 1 :: gaps[k] != "")
    decreases |s|
  {
    var n := WordEnd(s);
    var w := s[..n];
    assert s == w + s[n..];
    var gap, rest := CutSpaces(s[n..]);
    if rest == "" {
      words, gaps := [w], [gap];
      assert Glue(words[1..], gaps[1..]) == "" && w + gap + "" == s;
    } else {
      WordEndStops(s);
      var more, others := CutWords(rest);
      words, gaps := [w] + more, [gap] + others;
      assert words[1..] == more && gaps[1..] == others && w + gap + rest == s;
    }
  }

  lemma {:induction false} WordEndStops(s: string)
    ensures WordEnd(s) < |s| ==> Space(s[WordEnd(s)])
  {
    if s != "" && !Space(s[0]) { WordEndStops(s[1..]); }
  }

  lemma LineWritten(line: string) returns (row: Row)
    requires '\n' !in line
    ensures Proper(row) && RowText(row) == line
  {
    var space, rest := CutSpaces(line);
    if rest == "" {
      row := Empty(space);
    } else if rest[0] == '#' {
      row := Remark(space, rest[1..]);
      assert rest == "#" + rest[1..];
    } else {
      var words, gaps := CutWords(rest);
      row := Statement(space, words, gaps);
    }
  }

  /** There is no other text. */
  lemma {:induction false} EveryTextIsWritten(text: string) returns (rows: seq<Row>)
    ensures rows != [] && (forall row <- rows :: Proper(row)) && TextOf(rows) == text
    decreases |text|
  {
    hide LineEnd;
    hide RowText;
    hide Proper;
    var k := LineEnd(text);
    var row := LineWritten(text[..k]);
    if k == |text| {
      assert text[..|text|] == text;
      rows := [row];
    } else {
      var more := EveryTextIsWritten(text[k + 1..]);
      rows := [row] + more;
      OneRowMore(row, more);
      CutAtEnd(text, k);
    }
  }

  lemma OneRowMore(row: Row, more: seq<Row>)
    requires Proper(row) && more != [] && forall r <- more :: Proper(r)
    ensures (forall r <- [row] + more :: Proper(r)) && TextOf([row] + more) == RowText(row) + "\n" + TextOf(more)
  {
    hide RowText;
    hide Proper;
    assert ([row] + more)[1..] == more;
  }

  lemma CutAtEnd(text: string, k: nat)
    requires k < |text| && text[k] == '\n'
    ensures text == text[..k] + "\n" + text[k + 1..]
  {
  }

  // ------------------------------------------------------------- letter case

  /** `a` and `b` differ at most in the case of ASCII letters. */
  predicate SameLetters(a: string, b: string) {
    |a| == |b| && forall i | 0 <= i < |a| ::
      a[i] == b[i] || ('a' <= a[i] <= 'z' && b[i] as int == a[i] as int - 32) || ('a' <= b[i] <= 'z' && a[i] as int == b[i] as int - 32)
  }

  lemma LettersLower(a: string, b: string)
    requires SameLetters(a, b)
    ensures Lowered(a) == Lowered(b)
  {
    assert forall i | 0 <= i < |a| :: Lower(a[i]) == Lower(b[i]);
  }

  /** Keys may be written in any letter case. */
  lemma CaseDoesNotMatter(s: Service, a: seq<Line>, b: seq<Line>, port: nat)
    requires LikeLines(a, b)
    ensures Managed(s, a, port) <==> Managed(s, b, port)
  {
    forall table ensures Denotes(a, table) <==> Denotes(b, table) {
      if Denotes(a, table) { LikeLinesDenote(a, b, table); }
      if Denotes(b, table) { LikeLinesDenote(b, a, table); }
    }
    hide Denotes;
    hide Required;
    hide LikeLines;
  }

  predicate LikeLines(a: seq<Line>, b: seq<Line>) {
    |a| == |b| && forall i | 0 <= i < |a| ::
      |a[i]| == |b[i]| && (|a[i]| > 0 ==> SameLetters(a[i][0], b[i][0]) && a[i][1..] == b[i][1..])
  }

  lemma LikeLinesDenote(a: seq<Line>, b: seq<Line>, table: map<string, string>)
    requires LikeLines(a, b) && Denotes(a, table)
    ensures Denotes(b, table)
  {
    forall i | 0 <= i < |a| ensures Directive(b[i]) && Key(a[i]) == Key(b[i]) && ValueOf(a[i]) == ValueOf(b[i]) {
      assert a[i] in a;
      LettersLower(a[i][0], b[i][0]);
    }
    hide Key;
    hide ValueOf;
    forall line <- b ensures Directive(line) && Key(line) in table && table[Key(line)] == ValueOf(line) {
      var i :| 0 <= i < |b| && b[i] == line;
      assert a[i] in a;
    }
    forall key <- table ensures exists line <- b :: Key(line) == key {
      var line :| line in a && Key(line) == key;
      var i :| 0 <= i < |a| && a[i] == line;
      assert b[i] in b;
    }
  }
}
