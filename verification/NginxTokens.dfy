/** The tokenizer of recovery/nginx_config.go, as it runs. */
module NginxTokens {
  import opened NginxParser
  import opened NginxScan
  import opened NginxWriting
  import opened Unicode
  import opened Wrappers

  function Join(out: seq<Item>, rest: Option<seq<Item>>): Option<seq<Item>> {
    if rest.None? then None else Some(out + rest.value)
  }

  method SkipComment(runes: string, start: nat) returns (i: nat)
    requires start <= |runes|
    ensures start <= i <= |runes| && runes[i..] == SkipLine(runes[start..])
  {
    i := start;
    while i < |runes| && runes[i] != '\n'
      invariant start <= i <= |runes|
      invariant SkipLine(runes[i..]) == SkipLine(runes[start..])
    {
      assert runes[i..][1..] == runes[i + 1..];
      i := i + 1;
    }
  }

  /** The text of a word, up to its closing quote or to what stops a bare word. */
  method ScanText(runes: string, first: nat, quote: char) returns (b: Option<string>, i: nat, closed: bool)
    requires first <= |runes|
    ensures var n := End(runes[first..], quote);
      if n.None? then b.None? || !closed
      else closed && first + n.value <= |runes| && b == Some(runes[first..first + n.value]) && i == first + n.value + if quote == NUL then 0 else 1
  {
    i, closed := first, quote == NUL;
    while i < |runes|
      invariant first <= i <= |runes| && closed == (quote == NUL)
      invariant var here, all := End(runes[i..], quote), End(runes[first..], quote);
        if here.None? then all.None? else all == Some(here.value + (i - first))
    {
      var ch := runes[i];
      assert runes[i..][1..] == runes[i + 1..];
      if ch == NUL || ch == '\\' {
        return None, i, closed;
      }
      if quote != NUL {
        if ch == quote {
          return Some(runes[first..i]), i + 1, true;
        }
      } else if Stop(ch) {
        return Some(runes[first..i]), i, closed;
      } else if Quote(ch) {
        return None, i, closed;
      }
      i := i + 1;
    }
    b := Some(runes[first..i]);
  }

  /** One word, from its first character. */
  method ScanWord(runes: string, start: nat) returns (word: Option<string>, i: nat)
    requires start < |runes| && !Stop(runes[start])
    ensures var w := ReadWord(runes[start..]);
      if w.Bad? then word.None? else word == Some(w.text) && start < i <= |runes| && runes[i..] == w.rest
  {
    ghost var s := runes[start..];
    var quote, first := NUL, start;
    if Quote(runes[start]) {
      quote, first := runes[start], start + 1;
    }
    assert s[first - start..] == runes[first..];
    assert quote == NUL ==> End(s, NUL) != Some(0);
    var b, next, closed := ScanText(runes, first, quote);
    hide End;
    i := next;
    if b.None? || !closed {
      return None, i;
    }
    ghost var n := |b.value|;
    assert quote == NUL ==> s[n..] == runes[i..] && s[..n] == b.value;
    assert quote != NUL ==> s[n + 2..] == runes[i..] && s[1..n + 1] == b.value;
    if quote != NUL && i < |runes| && !Stop(runes[i]) {
      return None, i;
    }
    word := b;
  }

  /** The tokens of a text are those that it was written with, in whichever of all ways; a text
      that is written in none of them is refused. */
  method Tokenize(runes: string) returns (out: Option<seq<Token>>)
    ensures var items := Scan(runes, 0); if items.None? then out.None? else out == Some(Untag(items.value))
    ensures forall pieces | WellWritten(pieces) && WriteAll(pieces) == runes && Within(Items(pieces), 0) ::
              out == Some(Untag(Items(pieces)))
    ensures out.Some? ==> exists pieces :: WellWritten(pieces) && WriteAll(pieces) == runes && Within(Items(pieces), 0)
  {
    AsWritten(runes);
    var ts: seq<Token> := [];
    ghost var items: seq<Item> := [];
    var i := 0;
    assert runes[0..] == runes;
    JoinNothing(Scan(runes, 0));
    while i < |runes|
      invariant 0 <= i <= |runes| && ts == Untag(items)
      invariant Scan(runes, 0) == Join(items, Scan(runes[i..], |items|))
      decreases |runes| - i, if i < |runes| && runes[i] == '#' then 1 else 0
    {
      var ch := runes[i];
      assert runes[i..][1..] == runes[i + 1..];
      if Space(ch) {
        i := i + 1;
      } else if ch == '#' {
        i := SkipComment(runes, i);
      } else if Punctuation(ch) {
        JoinAfter(items, Mark(ch), Scan(runes[i + 1..], |items| + 1));
        ts, items, i := ts + [[ch]], items + [Mark(ch)], i + 1;
      } else {
        var word, next := ScanWord(runes, i);
        if word.None? || Delimiter(word.value) {
          return None;
        }
        ts := ts + [word.value];
        if |ts| > MAX_TOKENS {
          return None;
        }
        JoinAfter(items, Text(word.value), Scan(runes[next..], |items| + 1));
        items, i := items + [Text(word.value)], next;
      }
    }
    assert items + [] == items;
    out := Some(ts);
  }

  lemma JoinNothing(rest: Option<seq<Item>>)
    ensures Join([], rest) == rest
  {
    assert rest.Some? ==> [] + rest.value == rest.value;
  }

  lemma JoinAfter(out: seq<Item>, item: Item, rest: Option<seq<Item>>)
    ensures Join(out, After(item, rest)) == Join(out + [item], rest)
    ensures Untag(out + [item]) == Untag(out) + [if item.Mark? then [item.c] else item.word]
  {
    assert rest.Some? ==> out + ([item] + rest.value) == out + [item] + rest.value;
  }

  lemma AsWritten(runes: string)
    ensures forall pieces | WellWritten(pieces) && WriteAll(pieces) == runes && Within(Items(pieces), 0) ::
              Scan(runes, 0) == Some(Items(pieces))
    ensures Scan(runes, 0).Some? ==> exists pieces :: WellWritten(pieces) && WriteAll(pieces) == runes && Within(Items(pieces), 0)
  {
    forall pieces | WellWritten(pieces) && WriteAll(pieces) == runes && Within(Items(pieces), 0)
      ensures Scan(runes, 0) == Some(Items(pieces))
    {
      ReadAsWritten(runes, Items(pieces));
    }
    if Scan(runes, 0).Some? { ReadAsWritten(runes, Scan(runes, 0).value); }
  }
}
