/** Every way of writing a configuration down: words bare or in quotes, any white space, and
    comments up to a line end. The tokenizer reads exactly these texts, each as it was written. */
module NginxWriting {
  import opened NginxParser
  import opened NginxScan
  import opened Unicode
  import opened Wrappers

  datatype Piece = Blank(c: char) | Comment(text: string) | Sign(c: char) | Bare(word: string) | Quoted(word: string, quote: char)

  predicate IsWord(piece: Piece) {
    piece.Bare? || piece.Quoted?
  }

  function Written(piece: Piece): string {
    match piece
    case Blank(c) => [c]
    case Comment(text) => "#" + text
    case Sign(c) => [c]
    case Bare(w) => w
    case Quoted(w, q) => [q] + w + [q]
  }

  function WriteAll(pieces: seq<Piece>): string {
    if pieces == [] then "" else Written(pieces[0]) + WriteAll(pieces[1..])
  }

  /** What a piece may hold. */
  predicate Proper(piece: Piece) {
    match piece
    case Blank(c) => Space(c)
    case Comment(text) => '\n' !in text
    case Sign(c) => c in {';', '{', '}'}
    case Bare(w) =>
      w != "" && forall c <- w :: !Space(c) && c !in {';', '{', '}', '#', '\'', '"', '\\', '\0'}
    case Quoted(w, q) =>
      q in {'\'', '"'} && w !in {";", "{", "}"} && forall c <- w :: c !in {q, '\\', '\0'}
  }

  /** What may follow: a comment ends at a line end or at the end of the text, and a word needs
      something between it and the next word. */
  predicate MayFollow(piece: Piece, next: Piece) {
    && (piece.Comment? ==> next == Blank('\n'))
    && (IsWord(piece) ==> !IsWord(next))
  }

  /** A text may be written like this. */
  predicate WellWritten(pieces: seq<Piece>) {
    && (forall piece <- pieces :: Proper(piece))
    && (forall i: nat | i + 1 < |pieces| :: MayFollow(pieces[i], pieces[i + 1]))
  }

  /** What it says. */
  function Items(pieces: seq<Piece>): seq<Item> {
    if pieces == [] then []
    else
      var rest := Items(pieces[1..]);
      match pieces[0]
      case Sign(c) => [Mark(c)] + rest
      case Bare(w) => [Text(w)] + rest
      case Quoted(w, _) => [Text(w)] + rest
      case _ => rest
  }

  /** Its words stay within the limit on tokens, counted with the punctuation before them. */
  predicate Within(items: seq<Item>, count: nat) {
    forall i | 0 <= i < |items| :: items[i].Text? ==> count + i + 1 <= 4096
  }

  // ------------------------------------------------------------- what is written is read

  lemma TailIsWellWritten(pieces: seq<Piece>)
    requires WellWritten(pieces) && pieces != []
    ensures WellWritten(pieces[1..]) && Proper(pieces[0])
    ensures |pieces| > 1 ==> MayFollow(pieces[0], pieces[1]) && Proper(pieces[1])
  {
    hide Proper;
    hide MayFollow;
    forall i: nat | i + 1 < |pieces[1..]| ensures MayFollow(pieces[1..][i], pieces[1..][i + 1]) {
      assert MayFollow(pieces[i + 1], pieces[i + 1 + 1]);
    }
    if |pieces| > 1 { assert MayFollow(pieces[0], pieces[0 + 1]); }
  }

  /** After a word comes something that stops a word. */
  lemma StopsAfter(pieces: seq<Piece>)
    requires WellWritten(pieces) && (pieces != [] ==> !IsWord(pieces[0]))
    ensures WriteAll(pieces) != "" ==> Stop(WriteAll(pieces)[0])
  {
    if pieces != [] {
      assert Proper(pieces[0]);
      assert Written(pieces[0])[0] == WriteAll(pieces)[0];
    }
  }

  lemma {:induction false} BareEnds(w: string, rest: string)
    requires forall c <- w :: !Stop(c) && !Quote(c) && c !in {'\\', '\0'}
    requires rest != "" ==> Stop(rest[0]) && rest[0] !in {'\\', '\0'}
    ensures End(w + rest, NUL) == Some(|w|)
  {
    if w == "" {
      assert w + rest == rest;
    } else {
      assert w[0] in w && (w + rest)[0] == w[0];
      assert (w + rest)[1..] == w[1..] + rest;
      assert forall c <- w[1..] :: c in w;
      BareEnds(w[1..], rest);
    }
  }

  lemma StopIsPlain(c: char)
    requires Stop(c)
    ensures c !in {'\\', '\0', '\'', '"'}
  {
  }

  lemma BareIsRead(w: string, rest: string)
    requires Proper(Bare(w)) && (rest != "" ==> Stop(rest[0]))
    ensures w + rest != "" && !Stop((w + rest)[0]) && ReadWord(w + rest) == Word(w, rest)
  {
    var s := w + rest;
    assert w[0] in w && s[0] == w[0];
    if rest != "" { StopIsPlain(rest[0]); }
    BareEnds(w, rest);
    assert s[..|w|] == w && s[|w|..] == rest;
  }

  lemma QuotedIsRead(w: string, q: char, rest: string)
    requires Proper(Quoted(w, q)) && (rest != "" ==> Stop(rest[0]))
    ensures var s := [q] + w + [q] + rest; !Stop(s[0]) && ReadWord(s) == Word(w, rest)
  {
    var s := [q] + w + [q] + rest;
    EndAtQuote(w, q, rest);
    assert s[1..] == w + [q] + rest;
    hide End;
    assert s[|w| + 2..] == rest && s[1..|w| + 1] == w;
    if Stop(q) { StopIsPlain(q); }
  }

  lemma {:induction false} CommentEnds(text: string, rest: string)
    requires '\n' !in text && (rest != "" ==> rest[0] == '\n')
    ensures SkipLine(text + rest) == rest
  {
    if text == "" {
      assert text + rest == rest;
    } else {
      assert (text + rest)[1..] == text[1..] + rest;
      CommentEnds(text[1..], rest);
    }
  }

  lemma ScanWordFirst(s: string, w: string, rest: string, count: nat)
    requires s != "" && !Stop(s[0]) && ReadWord(s) == Word(w, rest) && !Delimiter(w) && count + 1 <= 4096
    ensures Scan(s, count) == After(Text(w), Scan(rest, count + 1))
  {
  }

  lemma ScanBlank(c: char, rest: string, count: nat)
    requires Space(c)
    ensures Scan([c] + rest, count) == Scan(rest, count)
  {
    assert ([c] + rest)[1..] == rest;
  }

  lemma ScanComment(text: string, rest: string, count: nat)
    requires '\n' !in text && (rest != "" ==> rest[0] == '\n')
    ensures Scan("#" + text + rest, count) == Scan(rest, count)
  {
    assert "#" + text + rest == ("#" + text) + rest;
    CommentEnds("#" + text, rest);
  }

  lemma WithinTail(item: Item, items: seq<Item>, count: nat)
    requires Within([item] + items, count)
    ensures Within(items, count + 1) && (item.Text? ==> count + 1 <= 4096)
  {
    forall i | 0 <= i < |items| && items[i].Text? ensures count + 1 + i + 1 <= 4096 {
      assert ([item] + items)[i + 1] == items[i];
    }
    assert ([item] + items)[0] == item;
  }

  /** Whatever is well written, bare or in quotes, with any white space and any comments, is
      read as exactly the items that were written. */
  lemma {:induction false} WrittenIsScanned(pieces: seq<Piece>, count: nat)
    requires WellWritten(pieces) && Within(Items(pieces), count)
    ensures Scan(WriteAll(pieces), count) == Some(Items(pieces))
    decreases |pieces|
  {
    if pieces != [] {
      var rest := pieces[1..];
      var r := WriteAll(rest);
      TailIsWellWritten(pieces);
      if IsWord(pieces[0]) || pieces[0].Sign? {
        WithinTail(Items(pieces)[0], Items(rest), count);
        WrittenIsScanned(rest, count + 1);
      } else {
        WrittenIsScanned(rest, count);
      }
      hide Scan;
      hide Within;
      match pieces[0]
      case Blank(c) => ScanBlank(c, r, count);
      case Comment(text) => ScanComment(text, r, count);
      case Sign(c) => ScanMark(c, r, count);
      case Bare(w) =>
        StopsAfter(rest);
        BareIsRead(w, r);
        assert w !in {";", "{", "}"} by { BareIsPlain(w); }
        ScanWordFirst(w + r, w, r, count);
      case Quoted(w, q) =>
        StopsAfter(rest);
        QuotedIsRead(w, q, r);
        assert [q] + w + [q] + r == Written(pieces[0]) + r;
        ScanWordFirst([q] + w + [q] + r, w, r, count);
    }
  }

  lemma BareIsPlain(w: string)
    requires Proper(Bare(w))
    ensures w !in {";", "{", "}"}
  {
    assert w[0] in w;
  }

  // ------------------------------------------------------------- what is read was written

  /** Where a word ends, and what it does not hold. */
  lemma {:induction false} EndSplits(s: string, quote: char)
    requires End(s, quote).Some?
    ensures var n := End(s, quote).value;
      && (forall c <- s[..n] :: c !in {'\\', '\0'} && (if quote != NUL then c != quote else !Stop(c) && !Quote(c)))
      && (if quote != NUL then s[n] == quote else n < |s| ==> Stop(s[n]))
  {
    var n := End(s, quote).value;
    if n > 0 {
      EndSplits(s[1..], quote);
      assert s[..n] == [s[0]] + s[1..][..n - 1];
    }
  }

  /** The first piece shows in the first character. */
  ghost predicate Begins(pieces: seq<Piece>, s: string) {
    if s == "" then pieces == []
    else pieces != [] && (s[0] == '\n' ==> pieces[0] == Blank('\n')) && (Stop(s[0]) ==> !IsWord(pieces[0]))
  }

  lemma WordWritten(s: string) returns (piece: Piece)
    requires s != "" && !Stop(s[0]) && ReadWord(s).Word? && !Delimiter(ReadWord(s).text)
    ensures var w := ReadWord(s);
      && Proper(piece) && IsWord(piece) && piece.word == w.text && s == Written(piece) + w.rest
      && (w.rest != "" ==> Stop(w.rest[0]))
  {
    var w := ReadWord(s);
    if Quote(s[0]) {
      EndSplits(s[1..], s[0]);
      assert w.text == s[1..][..End(s[1..], s[0]).value];
      hide End;
      assert s == [s[0]] + w.text + [s[0]] + w.rest;
      piece := Quoted(w.text, s[0]);
    } else {
      EndSplits(s, NUL);
      assert s == w.text + w.rest;
      piece := Bare(w.text);
    }
  }

  lemma {:induction false} CommentWritten(s: string) returns (text: string)
    ensures s == text + SkipLine(s) && '\n' !in text && (SkipLine(s) != "" ==> SkipLine(s)[0] == '\n')
  {
    if s == "" || s[0] == '\n' {
      text := "";
    } else {
      var more := CommentWritten(s[1..]);
      text := [s[0]] + more;
      assert s == [s[0]] + s[1..];
    }
  }

  lemma Prepend(piece: Piece, pieces: seq<Piece>)
    requires Proper(piece) && WellWritten(pieces) && (pieces != [] ==> MayFollow(piece, pieces[0]))
    ensures WellWritten([piece] + pieces)
    ensures WriteAll([piece] + pieces) == Written(piece) + WriteAll(pieces)
    ensures Items([piece] + pieces) ==
            (match piece case Sign(c) => [Mark(c)] case Bare(w) => [Text(w)] case Quoted(w, _) => [Text(w)] case _ => []) + Items(pieces)
  {
    var all := [piece] + pieces;
    assert all[1..] == pieces;
    hide MayFollow;
    forall i: nat | i + 1 < |all| ensures MayFollow(all[i], all[i + 1]) {
      if i > 0 { assert MayFollow(pieces[i - 1], pieces[i - 1 + 1]); }
    }
    assert [] + Items(pieces) == Items(pieces);
  }

  lemma WithinHead(item: Item, items: seq<Item>, count: nat)
    requires Within(items, count + 1) && (item.Text? ==> count + 1 <= 4096)
    ensures Within([item] + items, count)
  {
  }

  /** Whatever is read had been written so. */
  lemma {:induction false} ScannedWasWritten(s: string, count: nat) returns (pieces: seq<Piece>)
    requires Scan(s, count).Some?
    ensures WellWritten(pieces) && WriteAll(pieces) == s && Items(pieces) == Scan(s, count).value
    ensures Within(Items(pieces), count) && Begins(pieces, s)
    decreases |s|, if s != [] && s[0] == '#' then 1 else 0
  {
    if s == "" {
      pieces := [];
    } else if Space(s[0]) {
      var rest := ScannedWasWritten(s[1..], count);
      Prepend(Blank(s[0]), rest);
      pieces := [Blank(s[0])] + rest;
    } else if s[0] == '#' {
      var text := CommentWritten(s[1..]);
      assert SkipLine(s) == SkipLine(s[1..]);
      assert s == "#" + text + SkipLine(s);
      var rest := ScannedWasWritten(SkipLine(s), count);
      Prepend(Comment(text), rest);
      pieces := [Comment(text)] + rest;
    } else if Punctuation(s[0]) {
      var rest := ScannedWasWritten(s[1..], count + 1);
      Prepend(Sign(s[0]), rest);
      WithinHead(Mark(s[0]), Items(rest), count);
      pieces := [Sign(s[0])] + rest;
    } else {
      var w := ReadWord(s);
      var piece := WordWritten(s);
      var rest := ScannedWasWritten(w.rest, count + 1);
      Prepend(piece, rest);
      WithinHead(Text(w.text), Items(rest), count);
      pieces := [piece] + rest;
    }
  }

  /** A text that is read as these items, and a way of writing these items down, are the same. */
  lemma ReadAsWritten(s: string, items: seq<Item>)
    ensures Scan(s, 0) == Some(items) <==>
            exists pieces :: WellWritten(pieces) && WriteAll(pieces) == s && Items(pieces) == items && Within(items, 0)
  {
    if Scan(s, 0) == Some(items) {
      var pieces := ScannedWasWritten(s, 0);
    }
    forall pieces | WellWritten(pieces) && WriteAll(pieces) == s && Items(pieces) == items && Within(items, 0)
      ensures Scan(s, 0) == Some(items)
    {
      WrittenIsScanned(pieces, 0);
    }
  }
}
