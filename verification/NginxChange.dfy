/** A reviewed change of an NGINX configuration, from its characters (recovery/nginx_config.go). */
module NginxChange {
  import opened NginxParser
  import opened NginxScan
  import opened NginxTokens
  import opened NginxShape
  import opened Wrappers

  /** The tree that a configuration text denotes. */
  function Config(text: string): Option<seq<Directive>> {
    var items := Scan(text, 0);
    if items.None? then None
    else
      var p := ParseList(Untag(items.value), false, 0);
      if p.Failed? then None else Some(p.directives)
  }

  function ShapeOfText(s: Service, text: string): Option<seq<Directive>> {
    var tree := Config(text);
    if tree.None? then None else ShapeOf(s, tree.value)
  }

  method ReadShape(s: Service, text: string) returns (shape: Option<seq<Directive>>)
    ensures shape == ShapeOfText(s, text)
  {
    var tokens := Tokenize(text);
    if tokens.None? {
      return None;
    }
    var parser := new Parser(tokens.value);
    assert tokens.value[0..] == tokens.value;
    var tree := parser.Parse(false, 0);
    if tree.None? {
      return None;
    }
    shape := ValidateNGINX(s, tree.value);
  }

  method ValidateNGINXChange(s: Service, before: string, after: string) returns (ok: bool)
    ensures ok == (ShapeOfText(s, before).Some? && ShapeOfText(s, before) == ShapeOfText(s, after))
  {
    var a := ReadShape(s, before);
    if a.None? {
      return false;
    }
    var b := ReadShape(s, after);
    ok := b.Some? && a == b;
  }

  predicate Attested(s: Service, ds: seq<Directive>) {
    && Occurrences(ds, ["pid", s.pidFile]) == 1
    && Occurrences(ds, ["error_log", "stderr", "notice"]) == 1
    && Occurrences(ds, HeaderWords()) == 1
  }

  /** An accepted change: both texts denote well-formed trees that differ in reviewed values
      only, and both are attested. */
  lemma ChangeIsReviewed(s: Service, before: string, after: string)
    requires ShapeOfText(s, before).Some? && ShapeOfText(s, after).Some?
    ensures var a, b := Config(before).value, Config(after).value;
      && WellFormed(a, 0) && WellFormed(b, 0)
      && Untag(Scan(before, 0).value) == Flatten(a) && Untag(Scan(after, 0).value) == Flatten(b)
      && Attested(s, a) && Attested(s, b)
      && (ShapeOfText(s, before) == ShapeOfText(s, after) <==> SameButReviewed(a, b, Main))
  {
    var a, b := Config(before).value, Config(after).value;
    Denotes(before);
    Denotes(after);
    hide ParseList;
    hide Scan;
    AcceptedIsAttested(s, a);
    AcceptedIsAttested(s, b);
    AcceptedChangeAltersReviewedValues(s, a, b);
  }

  lemma Denotes(text: string)
    requires Config(text).Some?
    ensures WellFormed(Config(text).value, 0) && Scan(text, 0).Some?
    ensures Untag(Scan(text, 0).value) == Flatten(Config(text).value)
  {
    var ts := Untag(Scan(text, 0).value);
    ParsedIsFlattened(ts, false, 0);
    ParserInvertsFlatten(ts, Config(text).value);
  }
}
