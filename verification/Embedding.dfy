/** What a chunk is embedded as, and why its hash decides that. */
module Embedding {
  import opened Text
  import opened Sections
  import opened Chunker

  const MISSING_TITLE := "none"
  const TITLE_SLOT := "{title}"
  const TEXT_SLOT := "{text}"

  /** A template with `{title}` and `{text}` replaced, in one pass from left to right. */
  function Expand(template: string, title: string, text: string): string
    decreases |template|
  {
    if template == "" then ""
    else if TITLE_SLOT <= template then title + Expand(template[|TITLE_SLOT|..], title, text)
    else if TEXT_SLOT <= template then text + Expand(template[|TEXT_SLOT|..], title, text)
    else [template[0]] + Expand(template[1..], title, text)
  }

  datatype Token = Plain(c: char) | TitleSlot | TextSlot

  function Render(tokens: seq<Token>, title: string, text: string): string {
    if tokens == [] then ""
    else
      (match tokens[0]
       case Plain(c) => [c]
       case TitleSlot => title
       case TextSlot => text) + Render(tokens[1..], title, text)
  }

  /** The template read from left to right: every slot in it is one token. */
  ghost predicate Reads(tokens: seq<Token>, template: string) {
    if tokens == [] then template == ""
    else
      match tokens[0]
      case TitleSlot => TITLE_SLOT <= template && Reads(tokens[1..], template[|TITLE_SLOT|..])
      case TextSlot => TEXT_SLOT <= template && Reads(tokens[1..], template[|TEXT_SLOT|..])
      case Plain(c) =>
        && template != "" && template[0] == c && !(TITLE_SLOT <= template) && !(TEXT_SLOT <= template)
        && Reads(tokens[1..], template[1..])
  }

  /** A template means a fixed list of tokens: what the title or the text holds is never expanded again. */
  lemma {:induction false} ExpansionIsOnePass(template: string) returns (tokens: seq<Token>)
    ensures forall title, text :: Expand(template, title, text) == Render(tokens, title, text)
    ensures Render(tokens, TITLE_SLOT, TEXT_SLOT) == template && Reads(tokens, template)
    decreases |template|
  {
    if template == "" {
      tokens := [];
    } else {
      var head, length :=
        if TITLE_SLOT <= template then TitleSlot else if TEXT_SLOT <= template then TextSlot else Plain(template[0]),
        if TITLE_SLOT <= template then |TITLE_SLOT| else if TEXT_SLOT <= template then |TEXT_SLOT| else 1;
      var rest := ExpansionIsOnePass(template[length..]);
      tokens := [head] + rest;
      assert tokens[1..] == rest;
      assert template == template[..length] + template[length..];
    }
  }

  /** What the embedder is given for a chunk under a model's template. */
  function DocumentInput(rules: Rules, template: string, title: Option<string>, heading: string, body: string): string {
    var shown := if rules.notEmpty(TitleOr(title, "")) then TitleOr(title, "") else MISSING_TITLE;
    Expand(template, shown, DocumentText(rules, heading, body))
  }

  /** The title, or what stands for a missing one, fills the title slots; heading and body, a blank line between
      them, fill the text slots. */
  lemma SlotsHoldTheirTexts(
    rules: Rules, template: string, title: Option<string>, heading: string, body: string) returns (tokens: seq<Token>)
    requires rules.Sound()
    ensures Reads(tokens, template)
    ensures DocumentInput(rules, template, title, heading, body) ==
      Render(tokens,
             if title.Some? && rules.notEmpty(title.value) then title.value else "none",
             if rules.notEmpty(heading) then heading + "\n\n" + body else body)
  {
    tokens := ExpansionIsOnePass(template);
  }

  predicate NulFree(s: string) {
    '\0' !in s
  }

  ghost predicate Injective(digest: string -> string) {
    forall a, b :: digest(a) == digest(b) ==> a == b
  }

  /** One title is the other, a NUL, and more. */
  ghost predicate Extends(longer: string, shorter: string) {
    shorter + "\0" <= longer
  }

  lemma ShorterIsExtended(a: string, x: string, b: string, y: string)
    requires a + "\0" + x == b + "\0" + y && |a| < |b|
    ensures Extends(b, a)
  {
    var s := a + "\0" + x;
    assert s[..|a| + 1] == a + "\0" && s[..|b|] == b;
    assert s[..|b|][..|a| + 1] == s[..|a| + 1];
  }

  lemma TitlesSplitTheText(a: string, x: string, b: string, y: string)
    requires a + "\0" + x == b + "\0" + y && !Extends(a, b) && !Extends(b, a)
    ensures a == b && x == y
  {
    var s, t := a + "\0" + x, b + "\0" + y;
    if |a| < |b| {
      ShorterIsExtended(a, x, b, y);
    } else if |b| < |a| {
      ShorterIsExtended(b, y, a, x);
    } else {
      assert a == s[..|a|] && b == t[..|b|];
      assert x == s[|a| + 1..] && y == t[|b| + 1..];
    }
  }

  lemma NulFreeExtendsNothing(longer: string, shorter: string)
    requires NulFree(longer)
    ensures !Extends(longer, shorter)
  {
    assert (shorter + "\0")[|shorter|] == '\0';
  }

  /** A chunk's hash. */
  function HashOf(
    rules: Rules, digest: string -> string, title: Option<string>, heading: string, body: string): string {
    digest(HashPreimage(rules, title, heading, body))
  }

  /** Equal hashes mean equal inputs, whatever the template, the headings and the bodies. */
  ghost predicate HashesDecide(rules: Rules, digest: string -> string, title: Option<string>, title': Option<string>) {
    forall template, heading, body, heading', body' |
      HashOf(rules, digest, title, heading, body) == HashOf(rules, digest, title', heading', body') ::
      DocumentInput(rules, template, title, heading, body) == DocumentInput(rules, template, title', heading', body')
  }

  lemma EqualHashesUnderTitles(
    rules: Rules, digest: string -> string, template: string,
    title: Option<string>, heading: string, body: string, title': Option<string>, heading': string, body': string)
    requires rules.Sound() && Injective(digest)
    requires var a, b := TitleOr(title, ""), TitleOr(title', ""); a == b || (!Extends(a, b) && !Extends(b, a))
    requires HashOf(rules, digest, title, heading, body) == HashOf(rules, digest, title', heading', body')
    ensures DocumentInput(rules, template, title, heading, body)
      == DocumentInput(rules, template, title', heading', body')
  {
    var a, b := TitleOr(title, ""), TitleOr(title', "");
    var x, y := DocumentText(rules, heading, body), DocumentText(rules, heading', body');
    if a == b {
      assert (a + "\0" + x)[|a| + 1..] == x && (b + "\0" + y)[|b| + 1..] == y;
    } else {
      TitlesSplitTheText(a, x, b, y);
    }
  }

  /** With a title that is the other, a NUL and more, text can move between title and body unseen. */
  lemma ExtendedTitleCollides(rules: Rules, digest: string -> string, title: Option<string>, title': Option<string>)
    requires rules.Sound() && Extends(TitleOr(title', ""), TitleOr(title, ""))
    ensures !HashesDecide(rules, digest, title, title') && !HashesDecide(rules, digest, title', title)
  {
    var a, b := TitleOr(title, ""), TitleOr(title', "");
    var rest := b[|a| + 1..];
    var body, body' := rest + "\0", "";
    assert b == a + "\0" + rest;
    assert a + "\0" + body == b + "\0" + body';
    assert TEXT_SLOT[|TEXT_SLOT|..] == "";
    assert DocumentInput(rules, TEXT_SLOT, title, "", body) == body + "";
    assert DocumentInput(rules, TEXT_SLOT, title', "", body') == body' + "";
  }

  /** Hashes under two titles decide the input exactly when the titles are equal, or neither is the other, a NUL
      and more. */
  lemma HashesDecideIff(rules: Rules, digest: string -> string, title: Option<string>, title': Option<string>)
    requires rules.Sound() && Injective(digest)
    ensures var a, b := TitleOr(title, ""), TitleOr(title', "");
      HashesDecide(rules, digest, title, title') <==> a == b || (!Extends(a, b) && !Extends(b, a))
  {
    var a, b := TitleOr(title, ""), TitleOr(title', "");
    if a == b || (!Extends(a, b) && !Extends(b, a)) {
      forall template, heading, body, heading', body' |
        HashOf(rules, digest, title, heading, body) == HashOf(rules, digest, title', heading', body')
        ensures DocumentInput(rules, template, title, heading, body)
          == DocumentInput(rules, template, title', heading', body')
      {
        EqualHashesUnderTitles(rules, digest, template, title, heading, body, title', heading', body');
      }
    } else if Extends(b, a) {
      ExtendedTitleCollides(rules, digest, title, title');
    } else {
      ExtendedTitleCollides(rules, digest, title', title);
    }
  }

  /** So titles without a NUL are enough. */
  lemma EqualHashesEmbedAlike(
    rules: Rules, digest: string -> string, template: string,
    title: Option<string>, heading: string, body: string, title': Option<string>, heading': string, body': string)
    requires rules.Sound() && Injective(digest)
    requires NulFree(TitleOr(title, "")) && NulFree(TitleOr(title', ""))
    requires HashOf(rules, digest, title, heading, body) == HashOf(rules, digest, title', heading', body')
    ensures DocumentInput(rules, template, title, heading, body)
      == DocumentInput(rules, template, title', heading', body')
  {
    NulFreeExtendsNothing(TitleOr(title, ""), TitleOr(title', ""));
    NulFreeExtendsNothing(TitleOr(title', ""), TitleOr(title, ""));
    EqualHashesUnderTitles(rules, digest, template, title, heading, body, title', heading', body');
  }

  /** One such pair: a NUL in a title moves a character from the body to the title. */
  lemma NulInATitleCollides(rules: Rules, title: string, body: string)
    requires rules.Sound() && rules.notEmpty("a") && rules.notEmpty("a\0b")
    requires title == "a\0b" && body == "c"
    ensures HashPreimage(rules, Some(title), "", body) == HashPreimage(rules, Some("a"), "", "b\0c")
    ensures DocumentInput(rules, TITLE_SLOT, Some(title), "", body)
         != DocumentInput(rules, TITLE_SLOT, Some("a"), "", "b\0c")
  {
    assert "a\0b" + "\0" + "c" == "a" + "\0" + "b\0c";
    assert TITLE_SLOT[|TITLE_SLOT|..] == "";
    assert Expand(TITLE_SLOT, "a\0b", body) == "a\0b" + "";
    assert Expand(TITLE_SLOT, "a", "b\0c") == "a" + "";
  }

  ghost predicate WellHashed(rules: Rules, digest: string -> string, title: Option<string>, chunks: seq<Chunk>) {
    forall i :: 0 <= i < |chunks| ==> chunks[i].hash == HashOf(rules, digest, title, chunks[i].heading, chunks[i].body)
  }

  /** Every chunk the chunker makes carries the hash of its own title, heading and body. */
  lemma ChunksAreWellHashed(maker: Maker, sections: seq<Section>, bodies: seq<seq<string>>)
    requires |bodies| == |sections|
    ensures WellHashed(maker.rules, maker.digest, maker.title, ChunksFrom(maker, sections, bodies, 0, 0))
  {
    var chunks := ChunksFrom(maker, sections, bodies, 0, 0);
    forall k | 0 <= k < |chunks|
      ensures chunks[k].hash == HashOf(maker.rules, maker.digest, maker.title, chunks[k].heading, chunks[k].body)
    {
      var i, b := ChunksAreParts(maker, sections, bodies, 0, 0, k);
    }
  }
}
