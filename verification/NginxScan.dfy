/** The tokens of recovery/nginx_config.go as a function of the text: characters to words and
    punctuation. */
module NginxScan {
  import opened NginxParser
  import opened Unicode
  import opened Wrappers

  const NUL: char := '\0'
  const MAX_TOKENS := 4096

  predicate Punctuation(c: char) {
    c in {';', '{', '}'}
  }

  predicate Quote(c: char) {
    c in {'\'', '"'}
  }

  /** What ends a bare word. */
  predicate Stop(c: char) {
    Space(c) || Punctuation(c) || c == '#'
  }

  /** A token, and how it was written. */
  datatype Item = Mark(c: char) | Text(word: string)

  function Untag(items: seq<Item>): (ts: seq<Token>)
    ensures |ts| == |items|
  {
    seq(|items|, i requires 0 <= i < |items| => if items[i].Mark? then [items[i].c] else items[i].word)
  }

  // ------------------------------------------------------------- the tokenizer, as a function

  /** Drops a comment, up to its line end. */
  function SkipLine(s: string): (rest: string)
    ensures |rest| <= |s|
  {
    if s == [] || s[0] == '\n' then s else SkipLine(s[1..])
  }

  /** Where a word ends: at its closing quote, or before what stops a bare word. */
  function End(s: string, quote: char): (n: Option<nat>)
    ensures n.Some? ==> n.value <= |s| && (quote != NUL ==> n.value < |s|)
  {
    if s == [] then if quote == NUL then Some(0) else None
    else if s[0] == NUL || s[0] == '\\' then None
    else if if quote != NUL then s[0] == quote else Stop(s[0]) then Some(0)
    else if quote == NUL && Quote(s[0]) then None
    else
      var n := End(s[1..], quote);
      if n.None? then None else Some(n.value + 1)
  }

  datatype Word = Bad | Word(text: string, rest: string)

  function ReadWord(s: string): (w: Word)
    requires s != [] && !Stop(s[0])
    ensures w.Word? ==> |w.rest| < |s|
  {
    if Quote(s[0]) then
      var n := End(s[1..], s[0]);
      if n.None? then Bad
      else
        var rest := s[n.value + 2..];
        if rest != [] && !Stop(rest[0]) then Bad else Word(s[1..n.value + 1], rest)
    else
      var n := End(s, NUL);
      if n.None? then Bad else Word(s[..n.value], s[n.value..])
  }

  function After(item: Item, rest: Option<seq<Item>>): Option<seq<Item>> {
    if rest.None? then None else Some([item] + rest.value)
  }

  /** The items of `s`, after `count` of them. */
  function Scan(s: string, count: nat): Option<seq<Item>>
    decreases |s|, if s != [] && s[0] == '#' then 1 else 0
  {
    if s == [] then Some([])
    else if Space(s[0]) then Scan(s[1..], count)
    else if s[0] == '#' then Scan(SkipLine(s), count)
    else if Punctuation(s[0]) then After(Mark(s[0]), Scan(s[1..], count + 1))
    else
      var w := ReadWord(s);
      if w.Bad? || Delimiter(w.text) || count + 1 > MAX_TOKENS then None
      else After(Text(w.text), Scan(w.rest, count + 1))
  }

  // ------------------------------------------------------------- what can be read

  /** A word that some quoting can express. */
  predicate Sayable(w: string) {
    NUL !in w && '\\' !in w && !('\'' in w && '"' in w) && !Delimiter(w)
  }

  predicate ValidItem(item: Item) {
    if item.Mark? then Punctuation(item.c) else Sayable(item.word)
  }

  /** Valid items whose words stay within the limit; punctuation beyond it is not counted. */
  predicate Valid(items: seq<Item>, count: nat) {
    forall i | 0 <= i < |items| :: ValidItem(items[i]) && (items[i].Text? ==> count + i + 1 <= MAX_TOKENS)
  }

  lemma EndMeans(s: string, quote: char)
    requires End(s, quote).Some?
    ensures var n := End(s, quote).value;
      && NUL !in s[..n] && '\\' !in s[..n]
      && (if quote != NUL then quote !in s[..n] else '\'' !in s[..n] && '"' !in s[..n])
  {
    if s != [] && End(s, quote).value > 0 {
      EndMeans(s[1..], quote);
      var n := End(s, quote).value;
      assert s[..n] == [s[0]] + s[1..][..n - 1];
    }
  }

  lemma WordIsSayable(s: string)
    requires s != [] && !Stop(s[0]) && ReadWord(s).Word? && !Delimiter(ReadWord(s).text)
    ensures Sayable(ReadWord(s).text)
  {
    if Quote(s[0]) {
      EndMeans(s[1..], s[0]);
      assert ReadWord(s).text == s[1..][..End(s[1..], s[0]).value];
    } else {
      EndMeans(s, NUL);
    }
  }

  /** Whatever is read is valid; in particular a word never looks like punctuation. */
  lemma {:induction false} ScannedIsValid(s: string, count: nat)
    requires Scan(s, count).Some?
    ensures Valid(Scan(s, count).value, count)
    decreases |s|, if s != [] && s[0] == '#' then 1 else 0
  {
    if s == [] {
    } else if Space(s[0]) {
      ScannedIsValid(s[1..], count);
    } else if s[0] == '#' {
      ScannedIsValid(SkipLine(s), count);
    } else if Punctuation(s[0]) {
      ScannedIsValid(s[1..], count + 1);
    } else {
      WordIsSayable(s);
      ScannedIsValid(ReadWord(s).rest, count + 1);
    }
  }

  /** The tokens alone tell punctuation from words: no quoted delimiter gets through. */
  lemma NoQuotedDelimiter(s: string, i: nat)
    requires Scan(s, 0).Some? && i < |Scan(s, 0).value|
    ensures var items := Scan(s, 0).value; Delimiter(Untag(items)[i]) <==> items[i].Mark?
  {
    ScannedIsValid(s, 0);
    var items := Scan(s, 0).value;
    assert ValidItem(items[i]);
  }

  // ------------------------------------------------------------- everything valid can be said

  function QuoteFor(w: string): char {
    if '"' in w then '\'' else '"'
  }

  function Say(item: Item): string {
    match item
    case Mark(c) => [c]
    case Text(w) => [QuoteFor(w)] + w + [QuoteFor(w)] + " "
  }

  function SayAll(items: seq<Item>): string {
    if items == [] then "" else Say(items[0]) + SayAll(items[1..])
  }

  lemma EndAtQuote(w: string, quote: char, rest: string)
    requires quote != NUL && quote !in w && NUL !in w && '\\' !in w && quote != '\\'
    ensures End(w + [quote] + rest, quote) == Some(|w|)
  {
    var s := w + [quote] + rest;
    if w == [] {
      assert s[0] == quote;
    } else {
      assert s[1..] == w[1..] + [quote] + rest;
      EndAtQuote(w[1..], quote, rest);
    }
  }

  lemma SaidWord(w: string, rest: string)
    requires Sayable(w)
    ensures ReadWord(Say(Text(w)) + rest) == Word(w, " " + rest)
  {
    var q := QuoteFor(w);
    var s := Say(Text(w)) + rest;
    EndAtQuote(w, q, " " + rest);
    hide End;
    hide Sayable;
    assert s[1..] == w + [q] + (" " + rest);
    assert s[|w| + 2..] == " " + rest && s[1..|w| + 1] == w;
  }

  lemma SayFirst(item: Item, items: seq<Item>)
    ensures SayAll([item] + items) == Say(item) + SayAll(items)
  {
    assert ([item] + items)[1..] == items;
  }

  lemma ScanMark(c: char, rest: string, count: nat)
    requires Punctuation(c)
    ensures Scan([c] + rest, count) == After(Mark(c), Scan(rest, count + 1))
  {
    assert ([c] + rest)[1..] == rest;
  }

  lemma ScanSaid(w: string, rest: string, count: nat)
    requires Sayable(w) && count + 1 <= MAX_TOKENS
    ensures Scan(Say(Text(w)) + rest, count) == After(Text(w), Scan(rest, count + 1))
  {
    var s := Say(Text(w)) + rest;
    SaidWord(w, rest);
    hide ReadWord;
    assert (" " + rest)[1..] == rest;
    assert Scan(" " + rest, count + 1) == Scan(rest, count + 1);
    assert s[0] == QuoteFor(w);
  }

  /** Saying a valid list and reading it back gives the same list. */
  lemma {:induction false} SaidIsScanned(items: seq<Item>, count: nat)
    requires Valid(items, count)
    ensures Scan(SayAll(items), count) == Some(items)
    decreases |items|
  {
    if items != [] {
      var item, tail := items[0], items[1..];
      assert ValidItem(item) && items == [item] + tail;
      assert forall i | 0 <= i < |tail| :: tail[i] == items[i + 1];
      SaidIsScanned(tail, count + 1);
      SayFirst(item, tail);
      hide Scan;
      hide SayAll;
      match item
      case Mark(c) => ScanMark(c, SayAll(tail), count);
      case Text(w) => ScanSaid(w, SayAll(tail), count);
    }
  }

  /** Exactly the valid item lists can be written down. */
  lemma ReadableIffValid(items: seq<Item>)
    ensures (exists s :: Scan(s, 0) == Some(items)) <==> Valid(items, 0)
  {
    if Valid(items, 0) {
      SaidIsScanned(items, 0);
    }
    forall s | Scan(s, 0) == Some(items) ensures Valid(items, 0) {
      ScannedIsValid(s, 0);
    }
  }
}
