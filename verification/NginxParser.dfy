/** The structural parser of recovery/nginx_config.go: tokens to directive trees. */
module NginxParser {
  import opened Wrappers

  type Token = string

  const OPEN: Token := "{"
  const CLOSE: Token := "}"
  const END: Token := ";"

  const MAX_DEPTH := 4

  predicate Delimiter(t: Token) {
    t in {OPEN, CLOSE, END}
  }

  datatype Directive = Directive(words: seq<Token>, block: bool, children: seq<Directive>)

  // ------------------------------------------------------------- the language

  /** The tokens of a directive tree. */
  function Flatten(ds: seq<Directive>): seq<Token> {
    if ds == [] then [] else FlattenOne(ds[0]) + Flatten(ds[1..])
  }

  function FlattenOne(d: Directive): seq<Token> {
    d.words + if d.block then [OPEN] + Flatten(d.children) + [CLOSE] else [END]
  }

  /** Nonempty directives of plain words, blocks nested no deeper than allowed. */
  predicate WellFormed(ds: seq<Directive>, depth: nat) {
    forall d <- ds :: WellFormedOne(d, depth)
  }

  predicate WellFormedOne(d: Directive, depth: nat) {
    && |d.words| > 0 && (forall w <- d.words :: !Delimiter(w))
    && if d.block then depth < MAX_DEPTH && WellFormed(d.children, depth + 1) else d.children == []
  }

  // ------------------------------------------------------------- the parser, as a function

  function WordsOf(ts: seq<Token>): (n: nat)
    ensures n <= |ts| && (forall k | 0 <= k < n :: !Delimiter(ts[k])) && (n < |ts| ==> Delimiter(ts[n]))
  {
    if ts == [] || Delimiter(ts[0]) then 0 else 1 + WordsOf(ts[1..])
  }

  datatype Parsed = Failed | Parsed(directives: seq<Directive>, rest: seq<Token>)

  function Prepend(ds: seq<Directive>, p: Parsed): Parsed {
    if p.Failed? then Failed else Parsed(ds + p.directives, p.rest)
  }

  /** Directives up to the closing brace of a nested list, or up to the end of a top one. */
  function ParseList(ts: seq<Token>, nested: bool, depth: nat): (p: Parsed)
    ensures p.Parsed? ==> |p.rest| <= |ts|
    decreases |ts|
  {
    if depth > MAX_DEPTH then Failed
    else if ts == [] then if nested then Failed else Parsed([], [])
    else if ts[0] == CLOSE then if nested then Parsed([], ts[1..]) else Failed
    else
      var n := WordsOf(ts);
      if n == 0 || n == |ts| || ts[n] == CLOSE then Failed
      else if ts[n] == END then Prepend([Directive(ts[..n], false, [])], ParseList(ts[n + 1..], nested, depth))
      else
        var inner := ParseList(ts[n + 1..], true, depth + 1);
        if inner.Failed? then Failed
        else Prepend([Directive(ts[..n], true, inner.directives)], ParseList(inner.rest, nested, depth))
  }

  // ------------------------------------------------------------- the parser, as it runs

  class Parser {
    const tokens: seq<Token>
    /** Shared by every level of the recursion. */
    var i: nat

    constructor (tokens: seq<Token>)
      ensures this.tokens == tokens && i == 0
    {
      this.tokens, i := tokens, 0;
    }

    method Words() returns (words: seq<Token>)
      requires i <= |tokens|
      modifies this
      ensures old(i) + WordsOf(tokens[old(i)..]) == i <= |tokens|
      ensures words == tokens[old(i)..i]
    {
      words := [];
      while i < |tokens| && tokens[i] != END && tokens[i] != OPEN && tokens[i] != CLOSE
        invariant old(i) <= i <= |tokens|
        invariant words == tokens[old(i)..i]
        invariant old(i) + WordsOf(tokens[old(i)..]) == i + WordsOf(tokens[i..])
      {
        assert tokens[i..][1..] == tokens[i + 1..];
        words := words + [tokens[i]];
        i := i + 1;
      }
    }

    /** One directive: its words, its terminator, and the block that it may open. */
    method ParseDirective(nested: bool, depth: nat) returns (r: Option<Directive>)
      requires i < |tokens| && tokens[i] != CLOSE && depth <= MAX_DEPTH
      modifies this
      ensures old(i) <= i <= |tokens|
      ensures var whole := ParseList(tokens[old(i)..], nested, depth);
        if r.None? then whole.Failed?
        else old(i) < i && whole == Prepend([r.value], ParseList(tokens[i..], nested, depth))
      decreases |tokens| - i, 0
    {
      hide ParseList;
      ghost var rest := tokens[i..];
      var words := Words();
      ReadHead(rest, nested, depth);
      assert i < |tokens| ==> rest[|words|] == tokens[i];
      if |words| == 0 || i == |tokens| || tokens[i] == CLOSE {
        return None;
      }
      var block := tokens[i] == OPEN;
      assert rest[..|words|] == words && rest[|words| + 1..] == tokens[i + 1..];
      i := i + 1;
      if !block {
        return Some(Directive(words, false, []));
      }
      var children := Parse(true, depth + 1);
      if children.None? {
        return None;
      }
      r := Some(Directive(words, true, children.value));
    }

    /** The index only moves forward, and the result is what the function says. */
    method Parse(nested: bool, depth: nat) returns (r: Option<seq<Directive>>)
      requires i <= |tokens|
      modifies this
      ensures old(i) <= i <= |tokens|
      ensures var p := ParseList(tokens[old(i)..], nested, depth);
        if p.Failed? then r.None? else r == Some(p.directives) && tokens[i..] == p.rest
      decreases |tokens| - i, 1
    {
      if depth > MAX_DEPTH {
        return None;
      }
      var out: seq<Directive> := [];
      ghost var whole := ParseList(tokens[i..], nested, depth);
      while i < |tokens|
        invariant old(i) <= i <= |tokens|
        invariant whole == Prepend(out, ParseList(tokens[i..], nested, depth))
      {
        if tokens[i] == CLOSE {
          CloseHere(tokens[i..], nested, depth);
          hide ParseList;
          i := i + 1;
          if !nested {
            return None;
          }
          assert out + [] == out;
          return Some(out);
        }
        var d := ParseDirective(nested, depth);
        if d.None? {
          return None;
        }
        hide ParseList;
        PrependTwice(out, d.value, ParseList(tokens[i..], nested, depth));
        out := out + [d.value];
      }
      assert tokens[i..] == [] && out + [] == out;
      if nested {
        return None;
      }
      r := Some(out);
    }
  }

  /** How the function reads the head of a list. */
  lemma ReadHead(ts: seq<Token>, nested: bool, depth: nat)
    requires ts != [] && ts[0] != CLOSE && depth <= MAX_DEPTH
    ensures var n, whole := WordsOf(ts), ParseList(ts, nested, depth);
      if n == 0 || n == |ts| || ts[n] == CLOSE then whole.Failed?
      else if ts[n] == END then whole == Prepend([Directive(ts[..n], false, [])], ParseList(ts[n + 1..], nested, depth))
      else
        var inner := ParseList(ts[n + 1..], true, depth + 1);
        if inner.Failed? then whole.Failed?
        else whole == Prepend([Directive(ts[..n], true, inner.directives)], ParseList(inner.rest, nested, depth))
  {
  }

  lemma PrependTwice(out: seq<Directive>, d: Directive, p: Parsed)
    ensures Prepend(out, Prepend([d], p)) == Prepend(out + [d], p)
  {
    assert p.Parsed? ==> out + ([d] + p.directives) == out + [d] + p.directives;
  }

  lemma CloseHere(ts: seq<Token>, nested: bool, depth: nat)
    requires ts != [] && ts[0] == CLOSE && depth <= MAX_DEPTH
    ensures ParseList(ts, nested, depth) == if nested then Parsed([], ts[1..]) else Failed
  {
  }

  // ------------------------------------------------------------- inverse

  /** What closes a list. */
  function Closing(nested: bool): seq<Token> {
    if nested then [CLOSE] else []
  }

  lemma FlattenCons(d: Directive, ds: seq<Directive>)
    ensures Flatten([d] + ds) == FlattenOne(d) + Flatten(ds)
  {
    assert ([d] + ds)[1..] == ds;
  }

  /** What reading one simple directive and then the rest gives back. */
  lemma JoinSimple(words: seq<Token>, ds: seq<Directive>, close: seq<Token>, rest: seq<Token>)
    ensures Flatten([Directive(words, false, [])] + ds) + close + rest == words + [END] + (Flatten(ds) + close + rest)
  {
    FlattenCons(Directive(words, false, []), ds);
  }

  lemma JoinBlock(words: seq<Token>, children: seq<Directive>, ds: seq<Directive>, close: seq<Token>, rest: seq<Token>)
    ensures Flatten([Directive(words, true, children)] + ds) + close + rest
         == words + [OPEN] + (Flatten(children) + [CLOSE] + (Flatten(ds) + close + rest))
  {
    var d := Directive(words, true, children);
    FlattenCons(d, ds);
    assert FlattenOne(d) == words + ([OPEN] + Flatten(children) + [CLOSE]);
  }

  /** What a successful parse that does not end at once consists of. */
  lemma Unfold(ts: seq<Token>, nested: bool, depth: nat)
    requires ParseList(ts, nested, depth).Parsed? && ts != [] && ts[0] != CLOSE
    ensures var n := WordsOf(ts);
      && 0 < n < |ts| && ts[n] in {END, OPEN} && ts == ts[..n] + [ts[n]] + ts[n + 1..]
      && (forall w <- ts[..n] :: !Delimiter(w))
      && var tail := if ts[n] == END then ts[n + 1..] else ParseList(ts[n + 1..], true, depth + 1).rest;
      && (ts[n] == OPEN ==> ParseList(ts[n + 1..], true, depth + 1).Parsed?)
      && ParseList(tail, nested, depth).Parsed? && |tail| < |ts|
      && ParseList(ts, nested, depth) ==
           Prepend([Directive(ts[..n], ts[n] == OPEN, if ts[n] == END then [] else ParseList(ts[n + 1..], true, depth + 1).directives)],
                   ParseList(tail, nested, depth))
  {
  }

  lemma Close(ts: seq<Token>, nested: bool, depth: nat)
    requires ParseList(ts, nested, depth).Parsed? && (ts == [] || ts[0] == CLOSE)
    ensures var p := ParseList(ts, nested, depth); p.directives == [] && ts == Closing(nested) + p.rest && (!nested ==> p.rest == [])
  {
  }

  /** Whatever is accepted is well formed, and flattens back to what was read. */
  lemma {:induction false} ParsedIsFlattened(ts: seq<Token>, nested: bool, depth: nat)
    requires ParseList(ts, nested, depth).Parsed?
    ensures var p := ParseList(ts, nested, depth);
      WellFormed(p.directives, depth) && ts == Flatten(p.directives) + Closing(nested) + p.rest && (!nested ==> p.rest == [])
    decreases |ts|
  {
    assert END != OPEN;
    hide *;
    if ts == [] || ts[0] == CLOSE {
      Close(ts, nested, depth);
      NoneWellFormed(depth);
    } else {
      Unfold(ts, nested, depth);
      var n := WordsOf(ts);
      var words, after := ts[..n], ts[n + 1..];
      if ts[n] == END {
        ParsedIsFlattened(after, nested, depth);
        var tail := ParseList(after, nested, depth);
        JoinSimple(words, tail.directives, Closing(nested), tail.rest);
        SimpleWellFormed(words, tail.directives, depth);
        PrependIs([Directive(words, false, [])], tail);
      } else {
        var inner := ParseList(after, true, depth + 1);
        ParsedIsFlattened(after, true, depth + 1);
        ParsedIsFlattened(inner.rest, nested, depth);
        DeepFails(after, depth + 1);
        var tail := ParseList(inner.rest, nested, depth);
        ClosingIs();
        Around(words, Flatten(inner.directives), inner.rest);
        JoinBlock(words, inner.directives, tail.directives, Closing(nested), tail.rest);
        BlockWellFormed(words, inner.directives, tail.directives, depth);
        PrependIs([Directive(words, true, inner.directives)], tail);
      }
    }
  }

  lemma NoneWellFormed(depth: nat)
    ensures WellFormed([], depth) && Flatten([]) == []
  {
  }

  lemma ClosingIs()
    ensures Closing(true) == [CLOSE]
  {
  }

  lemma PrependIs(ds: seq<Directive>, p: Parsed)
    requires p.Parsed?
    ensures Prepend(ds, p) == Parsed(ds + p.directives, p.rest)
  {
  }

  lemma Around(words: seq<Token>, inner: seq<Token>, rest: seq<Token>)
    ensures words + [OPEN] + (inner + [CLOSE] + rest) == words + ([OPEN] + inner + [CLOSE]) + rest
  {
  }

  lemma SimpleWellFormed(words: seq<Token>, ds: seq<Directive>, depth: nat)
    requires |words| > 0 && (forall w <- words :: !Delimiter(w)) && WellFormed(ds, depth)
    ensures WellFormed([Directive(words, false, [])] + ds, depth)
  {
    hide Delimiter;
  }

  lemma BlockWellFormed(words: seq<Token>, children: seq<Directive>, ds: seq<Directive>, depth: nat)
    requires |words| > 0 && (forall w <- words :: !Delimiter(w)) && WellFormed(ds, depth)
    requires depth < MAX_DEPTH && WellFormed(children, depth + 1)
    ensures WellFormed([Directive(words, true, children)] + ds, depth)
  {
    hide Delimiter;
  }

  lemma DeepFails(ts: seq<Token>, depth: nat)
    ensures depth > MAX_DEPTH ==> ParseList(ts, true, depth).Failed?
  {
  }

  lemma WordsStop(words: seq<Token>, rest: seq<Token>)
    requires forall w <- words :: !Delimiter(w)
    requires rest != [] && Delimiter(rest[0])
    ensures WordsOf(words + rest) == |words|
  {
    if words == [] {
      assert words + rest == rest;
    } else {
      assert (words + rest)[1..] == words[1..] + rest;
      WordsStop(words[1..], rest);
    }
  }

  /** One directive, read in front of a list that parses. */
  lemma ReadOne(d: Directive, body: seq<Token>, after: seq<Token>, nested: bool, depth: nat)
    requires depth <= MAX_DEPTH && |d.words| > 0 && (forall w <- d.words :: !Delimiter(w))
    requires d.block ==> ParseList(body, true, depth + 1) == Parsed(d.children, after)
    requires !d.block ==> d.children == [] && body == after
    ensures ParseList(d.words + [if d.block then OPEN else END] + body, nested, depth) == Prepend([d], ParseList(after, nested, depth))
  {
    var mark := [if d.block then OPEN else END];
    var ts := d.words + mark + body;
    assert ts == d.words + (mark + body);
    WordsStop(d.words, mark + body);
    assert ts[0] == d.words[0];
    assert ts[|d.words| + 1..] == body && ts[..|d.words|] == d.words;
  }

  lemma FrontIsParsed(d: Directive, ds: seq<Directive>, nested: bool, depth: nat, rest: seq<Token>)
    requires depth <= MAX_DEPTH && |d.words| > 0 && (forall w <- d.words :: !Delimiter(w))
    requires (!d.block ==> d.children == [])
    requires ParseList(Flatten(ds) + Closing(nested) + rest, nested, depth) == Parsed(ds, rest)
    requires d.block ==>
      var after := Flatten(ds) + Closing(nested) + rest;
      ParseList(Flatten(d.children) + [CLOSE] + after, true, depth + 1) == Parsed(d.children, after)
    ensures ParseList(Flatten([d] + ds) + Closing(nested) + rest, nested, depth) == Parsed([d] + ds, rest)
  {
    hide ParseList;
    hide Flatten;
    var after := Flatten(ds) + Closing(nested) + rest;
    if d.block {
      JoinBlock(d.words, d.children, ds, Closing(nested), rest);
      ReadOne(d, Flatten(d.children) + [CLOSE] + after, after, nested, depth);
    } else {
      JoinSimple(d.words, ds, Closing(nested), rest);
      ReadOne(d, after, after, nested, depth);
    }
  }

  lemma EmptyIsParsed(nested: bool, depth: nat, rest: seq<Token>)
    requires depth <= MAX_DEPTH && (!nested ==> rest == [])
    ensures ParseList(Flatten([]) + Closing(nested) + rest, nested, depth) == Parsed([], rest)
  {
    var ts := Flatten([]) + Closing(nested) + rest;
    if nested { assert ts[0] == CLOSE && ts[1..] == rest; }
  }

  lemma FrontIsWellFormed(ds: seq<Directive>, depth: nat)
    requires WellFormed(ds, depth) && ds != []
    ensures WellFormed(ds[1..], depth) && WellFormedOne(ds[0], depth)
    ensures ds == [ds[0]] + ds[1..]
  {
  }

  /** Every well-formed tree is accepted, and read back as it is. */
  lemma {:induction false} FlattenedIsParsed(ds: seq<Directive>, nested: bool, depth: nat, rest: seq<Token>)
    requires WellFormed(ds, depth) && depth <= MAX_DEPTH && (!nested ==> rest == [])
    ensures ParseList(Flatten(ds) + Closing(nested) + rest, nested, depth) == Parsed(ds, rest)
    decreases ds
  {
    hide ParseList;
    hide Flatten;
    hide WellFormed;
    if ds == [] {
      EmptyIsParsed(nested, depth, rest);
    } else {
      FrontIsWellFormed(ds, depth);
      var d := ds[0];
      FlattenedIsParsed(ds[1..], nested, depth, rest);
      if d.block {
        FlattenedIsParsed(d.children, true, depth + 1, Flatten(ds[1..]) + Closing(nested) + rest);
      }
      FrontIsParsed(d, ds[1..], nested, depth, rest);
    }
  }

  /** Parsing and flattening are inverse: a token list is accepted exactly when it is the
      flattening of a well-formed tree, and the tree is then the one returned. */
  lemma ParserInvertsFlatten(ts: seq<Token>, ds: seq<Directive>)
    ensures ParseList(ts, false, 0) == Parsed(ds, []) <==> WellFormed(ds, 0) && ts == Flatten(ds)
  {
    if ParseList(ts, false, 0) == Parsed(ds, []) {
      ParsedIsFlattened(ts, false, 0);
      assert Flatten(ds) + Closing(false) + [] == Flatten(ds);
    }
    if WellFormed(ds, 0) && ts == Flatten(ds) {
      FlattenedIsParsed(ds, false, 0, []);
      assert Flatten(ds) + Closing(false) + [] == Flatten(ds);
    }
  }
}
