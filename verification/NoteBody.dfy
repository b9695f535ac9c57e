/** What a rendered note says, line by line, and that its fields can be read back. */
module NoteBodies {
  import opened Text
  import opened Frontmatters
  import opened Validation
  import opened Notes

  // ---- Lists

  lemma LinesAtBreak(s: string)
    requires BreakLength(s) > 0
    ensures MarkdownLines(s) == [""] + MarkdownLines(s[BreakLength(s)..])
  {
    var n := BreakLength(s);
    var line, rest := s[..n - 1], s[n..];
    assert s == line + "\n" + rest;
    SplitAtBreak(line, rest);
    var raw, more := SplitLines(s), SplitLines(rest);
    assert raw[..|raw| - 1] == [line] + more[..|more| - 1];
    MapAppend(WithoutReturn, [line], more[..|more| - 1]);
    assert [line][1..] == [] && WithoutReturn(line) == "";
    assert Map(WithoutReturn, [line]) == [""];
  }

  lemma LinesAtChar(s: string)
    requires s != "" && BreakLength(s) == 0
    ensures var rest := MarkdownLines(s[1..]); MarkdownLines(s) == [[s[0]] + rest[0]] + rest[1..]
  {
    var raw, more := SplitLines(s), SplitLines(s[1..]);
    assert raw == [[s[0]] + more[0]] + more[1..];
    if |more| > 1 {
      assert raw[..|raw| - 1] == [[s[0]] + more[0]] + more[1..|more| - 1];
      assert more[..|more| - 1] == [more[0]] + more[1..|more| - 1];
      MapAppend(WithoutReturn, [[s[0]] + more[0]], more[1..|more| - 1]);
      MapAppend(WithoutReturn, [more[0]], more[1..|more| - 1]);
      assert [[s[0]] + more[0]][1..] == [] && [more[0]][1..] == [];
      if more[0] == "" {
        assert s[1] == '\n';
      }
      assert WithoutReturn([s[0]] + more[0]) == [s[0]] + WithoutReturn(more[0]);
    }
  }

  /** A list item keeps its lines, each but the first moved in by two. */
  lemma {:induction false} IndentedIsJoined(s: string)
    ensures Indented(s) == Join(MarkdownLines(s), "\n  ")
    decreases |s|
  {
    if s != "" {
      var n := BreakLength(s);
      var rest := MarkdownLines(s[if n > 0 then n else 1..]);
      if n > 0 {
        LinesAtBreak(s);
        IndentedIsJoined(s[n..]);
        assert MarkdownLines(s)[1..] == rest;
      } else {
        LinesAtChar(s);
        IndentedIsJoined(s[1..]);
        assert MarkdownLines(s)[1..] == rest[1..];
      }
    }
  }

  lemma {:induction false} PrefixedSplit(prefix: string, s: string)
    requires '\n' !in prefix
    ensures SplitLines(prefix + s) == [prefix + SplitLines(s)[0]] + SplitLines(s)[1..]
  {
    if prefix == "" {
      assert prefix + s == s && prefix + SplitLines(s)[0] == SplitLines(s)[0];
    } else {
      PrefixedSplit(prefix[1..], s);
      assert prefix[0] in prefix && (prefix + s)[1..] == prefix[1..] + s;
      assert [prefix[0]] + (prefix[1..] + SplitLines(s)[0]) == prefix + SplitLines(s)[0];
    }
  }

  lemma SplitAtFirstBreak(b: string)
    ensures SplitLines("\n" + b) == [""] + SplitLines(b)
  {
    assert ("\n" + b)[1..] == b;
  }

  /** The lines of a text from its first character and the lines of the rest. */
  function LinesFrom(c: char, rest: seq<string>): seq<string>
    requires rest != []
  {
    if c == '\n' then [""] + rest else [[c] + rest[0]] + rest[1..]
  }

  lemma LinesFromAppend(c: char, x: seq<string>, y: seq<string>)
    requires x != []
    ensures LinesFrom(c, x + y) == LinesFrom(c, x) + y
  {
  }

  lemma SplitFromFirst(c: char, rest: string)
    ensures SplitLines([c] + rest) == LinesFrom(c, SplitLines(rest))
  {
    assert ([c] + rest)[1..] == rest;
  }

  lemma {:induction false} SplitAcrossBreak(a: string, b: string)
    ensures SplitLines(a + ("\n" + b)) == SplitLines(a) + SplitLines(b)
  {
    var tail := "\n" + b;
    SplitAtFirstBreak(b);
    if a == "" {
      assert a + tail == tail;
    } else {
      SplitAcrossBreak(a[1..], b);
      assert a == [a[0]] + a[1..] && a + tail == [a[0]] + (a[1..] + tail);
      SplitFromFirst(a[0], a[1..]);
      SplitFromFirst(a[0], a[1..] + tail);
      LinesFromAppend(a[0], SplitLines(a[1..]), SplitLines(b));
    }
  }

  function MovedIn(lines: seq<string>): seq<string> {
    if lines == [] then [] else ["  " + lines[0]] + MovedIn(lines[1..])
  }

  lemma {:induction false} MovedInSplit(lines: seq<string>)
    requires lines != [] && Unbroken(lines)
    ensures SplitLines(Join(lines, "\n  ")) == [lines[0]] + MovedIn(lines[1..])
  {
    if |lines| == 1 {
      SplitWithoutBreak(lines[0]);
    } else {
      var rest := Join(lines[1..], "\n  ");
      MovedInSplit(lines[1..]);
      assert Join(lines, "\n  ") == lines[0] + "\n" + ("  " + rest);
      SplitAtBreak(lines[0], "  " + rest);
      PrefixedSplit("  ", rest);
      assert SplitLines(rest)[1..] == MovedIn(lines[1..][1..]);
    }
  }

  /** An item of a list: its first line behind a dash, the others moved in. */
  function ItemLines(item: string): seq<string> {
    var lines := MarkdownLines(item);
    ["- " + lines[0]] + MovedIn(lines[1..])
  }

  lemma ItemSplit(item: string)
    ensures SplitLines("- " + Indented(item)) == ItemLines(item)
  {
    var lines := MarkdownLines(item);
    IndentedIsJoined(item);
    MovedInSplit(lines);
    PrefixedSplit("- ", Indented(item));
  }

  function ListLines(items: seq<string>): seq<string> {
    if items == [] then [] else ItemLines(items[0]) + ListLines(items[1..])
  }

  lemma {:induction false} ListSplit(items: seq<string>)
    requires items != []
    ensures SplitLines(ListText(items)) == ListLines(items)
  {
    var texts := Map((item: string) => "- " + Indented(item), items);
    ItemSplit(items[0]);
    if |items| == 1 {
      assert texts == ["- " + Indented(items[0])];
      assert ListLines(items[1..]) == [];
    } else {
      ListSplit(items[1..]);
      assert texts[1..] == Map((item: string) => "- " + Indented(item), items[1..]);
      SplitAcrossBreak(texts[0], Join(texts[1..], "\n"));
      Associate(texts[0], "\n", Join(texts[1..], "\n"));
    }
  }

  lemma {:induction false} MovedInLength(lines: seq<string>)
    ensures |MovedIn(lines)| == |lines|
  {
    if lines != [] {
      MovedInLength(lines[1..]);
    }
  }

  lemma {:induction false} MovedInAt(lines: seq<string>, i: nat)
    requires i < |MovedIn(lines)|
    ensures |MovedIn(lines)| == |lines| && MovedIn(lines)[i] == "  " + lines[i]
  {
    if i > 0 {
      MovedInAt(lines[1..], i - 1);
    } else {
      MovedInLength(lines);
    }
  }

  /** Every line of a list starts with a dash or is moved in by two, whatever its items hold. */
  lemma {:induction false} ListLinesAreItems(items: seq<string>, i: nat)
    requires i < |ListLines(items)|
    ensures "- " <= ListLines(items)[i] || "  " <= ListLines(items)[i]
  {
    var own := ItemLines(items[0]);
    if i < |own| {
      if i > 0 {
        MovedInAt(MarkdownLines(items[0])[1..], i - 1);
      }
    } else {
      ListLinesAreItems(items[1..], i - |own|);
    }
  }

  // ---- The body

  /** One section of a note. */
  datatype Block = Block(heading: string, lines: seq<string>)

  function FactHeading(noteType: NoteType): string {
    match noteType
    case Decision => "Decision"
    case Contract => "Fact"
    case Gotcha => "Fact"
    case Note => "Fact"
  }

  function Optional(present: bool, block: Block): seq<Block> {
    if present then [block] else []
  }

  /** The sections a request asks for, each with the lines it is to hold. */
  function Outline(e: Env, r: Request): seq<Block> {
    [Block("Context", SplitLines(Trim(r.context))), Block(FactHeading(r.noteType), SplitLines(Trim(r.decisionOrFact)))]
    + Optional(Alternatives(e, r) != [], Block("Alternatives rejected", ListLines(Alternatives(e, r))))
    + Optional(r.howToApply.Some? && e.notEmpty(r.howToApply.value),
               Block("How to apply", SplitLines(Trim(ValueOr(r.howToApply, "")))))
    + Optional(Links(e, r) != [], Block("Links", ListLines(Links(e, r))))
  }

  function BlockLines(block: Block): seq<string> {
    ["## " + block.heading] + block.lines
  }

  /** The sections' lines, an empty one between two. */
  function OutlineLines(blocks: seq<Block>): seq<string> {
    if blocks == [] then []
    else if |blocks| == 1 then BlockLines(blocks[0])
    else BlockLines(blocks[0]) + [""] + OutlineLines(blocks[1..])
  }

  /** The text reads as the block. */
  ghost predicate Shows(text: string, block: Block) {
    SplitLines(text) == BlockLines(block)
  }

  ghost predicate AllShow(texts: seq<string>, blocks: seq<Block>) {
    |texts| == |blocks| && forall i :: 0 <= i < |texts| ==> Shows(texts[i], blocks[i])
  }

  lemma SectionShows(heading: string, text: string)
    requires '\n' !in heading
    ensures Shows(SectionText(heading, text), Block(heading, SplitLines(Trim(text))))
  {
    assert SectionText(heading, text) == ("## " + heading) + "\n" + Trim(text);
    SplitAtBreak("## " + heading, Trim(text));
  }

  lemma TrimKeepsEnds(s: string)
    requires s != "" && !IsSpace(s[0]) && !IsSpace(s[|s| - 1])
    ensures Trim(s) == s
  {
  }

  ghost predicate Trimmed(item: string) {
    item != "" && !IsSpace(item[|item| - 1])
  }

  lemma {:induction false} DropSpacesKeepsEnd(s: string)
    ensures DropSpaces(s) != "" ==> s != "" && DropSpaces(s)[|DropSpaces(s)| - 1] == s[|s| - 1]
  {
    if s != "" && IsSpace(s[0]) {
      DropSpacesKeepsEnd(s[1..]);
    }
  }

  lemma {:induction false} ItemsAreTrimmed(e: Env, items: seq<string>)
    requires !e.notEmpty("")
    ensures forall i :: 0 <= i < |NotEmptyTrimmed(e, items)| ==> Trimmed(NotEmptyTrimmed(e, items)[i])
  {
    if items != [] {
      ItemsAreTrimmed(e, items[1..]);
      DropSpacesKeepsEnd(TrimEnd(items[0]));
    }
  }

  lemma {:induction false} IndentedKeepsEnd(s: string)
    requires Trimmed(s)
    ensures Indented(s) != "" && !IsSpace(Indented(s)[|Indented(s)| - 1])
    decreases |s|
  {
    var n := BreakLength(s);
    if n > 0 {
      assert n < |s| by {
        assert IsSpace(s[n - 1]);
      }
      assert s[n..][|s[n..]| - 1] == s[|s| - 1];
      IndentedKeepsEnd(s[n..]);
    } else if |s| > 1 {
      IndentedKeepsEnd(s[1..]);
    } else {
      assert s[1..] == "" && Indented(s) == [s[0]] + Indented(s[1..]);
    }
  }

  lemma {:induction false} ListKeepsEnds(items: seq<string>)
    requires items != [] && forall i :: 0 <= i < |items| ==> Trimmed(items[i])
    ensures var text := ListText(items); text != "" && text[0] == '-' && !IsSpace(text[|text| - 1])
  {
    var texts := Map((item: string) => "- " + Indented(item), items);
    IndentedKeepsEnd(items[0]);
    if |items| > 1 {
      ListKeepsEnds(items[1..]);
      assert texts[1..] == Map((item: string) => "- " + Indented(item), items[1..]);
    } else {
      assert texts == ["- " + Indented(items[0])];
    }
  }

  lemma SectionShowsAs(heading: string, text: string, lines: seq<string>)
    requires '\n' !in heading && Trim(text) == text && SplitLines(text) == lines
    ensures Shows(SectionText(heading, text), Block(heading, lines))
  {
    SectionShows(heading, text);
  }

  lemma ListIsTrimmed(items: seq<string>)
    requires items != [] && forall i :: 0 <= i < |items| ==> Trimmed(items[i])
    ensures Trim(ListText(items)) == ListText(items)
  {
    ListKeepsEnds(items);
    TrimKeepsEnds(ListText(items));
  }

  lemma ListShows(heading: string, items: seq<string>)
    requires '\n' !in heading && items != [] && forall i :: 0 <= i < |items| ==> Trimmed(items[i])
    ensures Shows(SectionText(heading, ListText(items)), Block(heading, ListLines(items)))
  {
    ListIsTrimmed(items);
    ListSplit(items);
    SectionShowsAs(heading, ListText(items), ListLines(items));
  }

  lemma {:induction false} JoinShows(texts: seq<string>, blocks: seq<Block>)
    requires texts != [] && AllShow(texts, blocks)
    ensures SplitLines(Join(texts, "\n\n")) == OutlineLines(blocks)
  {
    assert Shows(texts[0], blocks[0]);
    if |texts| > 1 {
      var rest := Join(texts[1..], "\n\n");
      forall i | 0 <= i < |texts[1..]| ensures Shows(texts[1..][i], blocks[1..][i]) {
        assert Shows(texts[i + 1], blocks[i + 1]);
      }
      JoinShows(texts[1..], blocks[1..]);
      assert Join(texts, "\n\n") == texts[0] + ("\n" + ("\n" + rest));
      SplitAcrossBreak(texts[0], "\n" + rest);
      SplitAtFirstBreak(rest);
    }
  }

  lemma AllShowAppend(a: seq<string>, p: seq<Block>, b: seq<string>, q: seq<Block>)
    requires AllShow(a, p) && AllShow(b, q)
    ensures AllShow(a + b, p + q)
  {
  }

  lemma OptionalShows(present: bool, text: string, block: Block)
    requires present ==> Shows(text, block)
    ensures AllShow(if present then [text] else [], Optional(present, block))
  {
  }

  lemma ListsShow(e: Env, heading: string, given: seq<string>)
    requires !e.notEmpty("") && '\n' !in heading
    ensures var items := NotEmptyTrimmed(e, given);
      AllShow(if items != [] then [SectionText(heading, ListText(items))] else [],
              Optional(items != [], Block(heading, ListLines(items))))
  {
    var items := NotEmptyTrimmed(e, given);
    ItemsAreTrimmed(e, given);
    if items != [] {
      ListShows(heading, items);
    }
  }

  lemma FirstTwoShow(e: Env, r: Request)
    ensures AllShow(
      [SectionText("Context", r.context),
       SectionText(if r.noteType.Decision? then "Decision" else "Fact", r.decisionOrFact)],
      [Block("Context", SplitLines(Trim(r.context))),
       Block(FactHeading(r.noteType), SplitLines(Trim(r.decisionOrFact)))])
  {
    SectionShows("Context", r.context);
    SectionShows(FactHeading(r.noteType), r.decisionOrFact);
  }

  lemma HowToShows(e: Env, r: Request)
    ensures var present := r.howToApply.Some? && e.notEmpty(r.howToApply.value);
      AllShow(if present then [SectionText("How to apply", r.howToApply.value)] else [],
              Optional(present, Block("How to apply", SplitLines(Trim(ValueOr(r.howToApply, ""))))))
  {
    SectionShows("How to apply", ValueOr(r.howToApply, ""));
  }

  lemma FourShow(a: seq<string>, p: seq<Block>, b: seq<string>, q: seq<Block>, c: seq<string>, r: seq<Block>,
                 d: seq<string>, s: seq<Block>)
    requires AllShow(a, p) && AllShow(b, q) && AllShow(c, r) && AllShow(d, s)
    ensures AllShow(a + b + c + d, p + q + r + s)
  {
    AllShowAppend(a, p, b, q);
    AllShowAppend(a + b, p + q, c, r);
    AllShowAppend(a + b + c, p + q + r, d, s);
  }

  lemma SectionsShow(e: Env, r: Request)
    requires !e.notEmpty("")
    ensures AllShow(SectionTexts(e, r), Outline(e, r))
  {
    var alternatives, links := Alternatives(e, r), Links(e, r);
    var howTo := r.howToApply.Some? && e.notEmpty(r.howToApply.value);
    FirstTwoShow(e, r);
    ListsShow(e, "Alternatives rejected", ValueOr(r.alternativesRejected, []));
    HowToShows(e, r);
    ListsShow(e, "Links", ValueOr(r.links, []));
    FourShow(
      [SectionText("Context", r.context),
       SectionText(if r.noteType.Decision? then "Decision" else "Fact", r.decisionOrFact)],
      [Block("Context", SplitLines(Trim(r.context))),
       Block(FactHeading(r.noteType), SplitLines(Trim(r.decisionOrFact)))],
      if alternatives != [] then [SectionText("Alternatives rejected", ListText(alternatives))] else [],
      Optional(alternatives != [], Block("Alternatives rejected", ListLines(alternatives))),
      if howTo then [SectionText("How to apply", r.howToApply.value)] else [],
      Optional(howTo, Block("How to apply", SplitLines(Trim(ValueOr(r.howToApply, ""))))),
      if links != [] then [SectionText("Links", ListText(links))] else [],
      Optional(links != [], Block("Links", ListLines(links))));
  }

  lemma Regrouped(title: string, sections: string)
    ensures "\n" + title + "\n\n" + sections + "\n" == "\n" + (title + ("\n" + ("\n" + (sections + "\n"))))
  {
    var last := sections + "\n";
    Associate("\n" + title + "\n\n", sections, "\n");
    Associate("\n" + title, "\n\n", last);
    Associate("\n", "\n", last);
    assert "\n" + "\n" == "\n\n";
    Associate("\n", title, "\n\n" + last);
  }

  lemma FramedSplit(title: string, sections: string)
    ensures SplitLines("\n" + title + "\n\n" + sections + "\n")
         == [""] + SplitLines(title) + [""] + SplitLines(sections) + [""]
  {
    var last := sections + "\n";
    Regrouped(title, sections);
    SplitAcrossBreak(sections, "");
    assert "\n" + "" == "\n" && SplitLines("") == [""];
    SplitAtFirstBreak(last);
    SplitAcrossBreak(title, "\n" + last);
    SplitAtFirstBreak(title + ("\n" + ("\n" + last)));
    var x, y := SplitLines(title), SplitLines(sections);
    assert [""] + (x + ([""] + (y + [""]))) == [""] + x + [""] + y + [""];
  }

  lemma SectionsSplit(title: string, texts: seq<string>, blocks: seq<Block>)
    requires texts != [] && AllShow(texts, blocks)
    ensures SplitLines("\n" + title + "\n\n" + Join(texts, "\n\n") + "\n")
         == [""] + SplitLines(title) + [""] + OutlineLines(blocks) + [""]
  {
    JoinShows(texts, blocks);
    FramedSplit(title, Join(texts, "\n\n"));
  }

  lemma BodyIsFramed(e: Env, r: Request, title: string, sections: string)
    requires title == "# " + Trim(r.title) && sections == Join(SectionTexts(e, r), "\n\n")
    ensures BodyText(e, r) == "\n" + title + "\n\n" + sections + "\n"
  {
    assert "\n# " + Trim(r.title) == "\n" + title;
  }

  /** A note's body, line by line: its title, then the sections asked for and no other, each below its own heading. */
  lemma BodyShowsTheRequest(e: Env, r: Request)
    requires !e.notEmpty("")
    ensures SplitLines(BodyText(e, r)) ==
      [""] + SplitLines("# " + Trim(r.title)) + [""] + OutlineLines(Outline(e, r)) + [""]
  {
    var title := "# " + Trim(r.title);
    SectionsShow(e, r);
    BodyIsFramed(e, r, title, Join(SectionTexts(e, r), "\n\n"));
    SectionsSplit(title, SectionTexts(e, r), Outline(e, r));
  }

  // ---- The fields

  /** What the first line of this name says, if there is one. */
  function Field(lines: seq<string>, name: string): Option<string> {
    if lines == [] then None
    else if name + ": " <= lines[0] then Some(lines[0][|name| + 2..])
    else Field(lines[1..], name)
  }

  lemma FieldHere(name: string, value: string, rest: seq<string>)
    ensures Field([name + ": " + value] + rest, name) == Some(value)
  {
  }

  lemma FieldFurther(line: string, rest: seq<string>, name: string, k: nat)
    requires k < |name| && k < |line| && name[k] != line[k]
    ensures Field([line] + rest, name) == Field(rest, name)
  {
    assert (name + ": ")[k] == name[k];
    assert ([line] + rest)[1..] == rest;
  }

  lemma LastFieldsAreRead(supersedes: Option<string>, author: string)
    ensures var lines := (if supersedes.Some? then ["supersedes: " + supersedes.value] else []) + ["author: " + author];
      Field(lines, "supersedes") == supersedes && Field(lines, "author") == Some(author)
  {
    var tail := ["author: " + author];
    FieldHere("author", author, []);
    assert tail + [] == tail && [] + tail == tail;
    FieldFurther("author: " + author, [], "supersedes", 0);
    if supersedes.Some? {
      FieldHere("supersedes", supersedes.value, tail);
      FieldFurther("supersedes: " + supersedes.value, tail, "author", 0);
    }
  }

  lemma FieldAfterThree(date: string, word: string, repos: string, rest: seq<string>, name: string)
    requires name != "" && name[0] !in {'d', 't', 'r'}
    ensures Field(["date: " + date] + (["type: " + word] + (["repos: [" + repos + "]"] + rest)), name)
      == Field(rest, name)
  {
    var three := ["repos: [" + repos + "]"] + rest;
    var two := ["type: " + word] + three;
    FieldFurther("date: " + date, two, name, 0);
    FieldFurther("type: " + word, three, name, 0);
    FieldFurther("repos: [" + repos + "]", rest, name, 0);
  }

  lemma FirstFieldsAreRead(date: string, word: string, repos: string, rest: seq<string>)
    ensures var lines := ["date: " + date] + (["type: " + word] + (["repos: [" + repos + "]"] + rest));
      && Field(lines, "date") == Some(date) && Field(lines, "type") == Some(word)
      && Field(lines, "repos") == Some("[" + repos + "]")
  {
    var three := ["repos: [" + repos + "]"] + rest;
    var two := ["type: " + word] + three;
    FieldHere("date", date, two);
    FieldHere("type", word, three);
    FieldHere("repos", "[" + repos + "]", rest);
    assert "repos: [" + repos + "]" == "repos: " + ("[" + repos + "]");
    FieldFurther("date: " + date, two, "type", 0);
    FieldFurther("date: " + date, two, "repos", 0);
    FieldFurther("type: " + word, three, "repos", 0);
  }

  /** Every field is read back from the header as it was given. */
  lemma FieldsAreReadBack(date: string, word: string, repos: string, supersedes: Option<string>, author: string)
    ensures var lines := FieldLines(date, word, repos, supersedes, author);
      && Field(lines, "date") == Some(date) && Field(lines, "type") == Some(word)
      && Field(lines, "repos") == Some("[" + repos + "]") && Field(lines, "source") == Some("chat")
      && Field(lines, "supersedes") == supersedes && Field(lines, "author") == Some(author)
  {
    var given := (if supersedes.Some? then ["supersedes: " + supersedes.value] else []) + ["author: " + author];
    var four := ["source: chat"] + given;
    assert FieldLines(date, word, repos, supersedes, author)
        == ["date: " + date] + (["type: " + word] + (["repos: [" + repos + "]"] + four));
    FirstFieldsAreRead(date, word, repos, four);
    LastFieldsAreRead(supersedes, author);
    FieldHere("source", "chat", given);
    FieldAfterThree(date, word, repos, four, "source");
    FieldAfterThree(date, word, repos, four, "supersedes");
    FieldAfterThree(date, word, repos, four, "author");
    FieldFurther("source: chat", given, "supersedes", 1);
    FieldFurther("source: chat", given, "author", 0);
  }

  /** A kind of note is written as its name in lower case. */
  function TypeWord(noteType: NoteType): string {
    match noteType
    case Decision => "decision"
    case Contract => "contract"
    case Gotcha => "gotcha"
    case Note => "note"
  }

  /** The fields of a note's header say what was asked for. */
  lemma HeaderSaysTheRequest(e: Env, r: Request, author: string)
    ensures var lines := HeaderLines(e, r, author);
      && Field(lines, "date") == Some(if r.date.Some? then r.date.value else e.today)
      && Field(lines, "type") == Some(TypeWord(r.noteType))
      && Field(lines, "repos") == Some("[" + Join(if r.repos.Some? then r.repos.value else [], ", ") + "]")
      && Field(lines, "source") == Some("chat") && Field(lines, "supersedes") == r.supersedes
      && Field(lines, "author") == Some(AuthorText(author))
  {
    FieldsAreReadBack(
      DateOf(e, r), TypeName(r.noteType), Join(ValueOr(r.repos, []), ", "), r.supersedes, AuthorText(author));
  }

  // ---- The author

  function HexValue(c: char): Option<nat> {
    if '0' <= c <= '9' then Some(c as int - '0' as int)
    else if 'a' <= c <= 'f' then Some(c as int - 'a' as int + 10)
    else None
  }

  /** One escape of a JSON string, and its length. */
  function EscapeAt(s: string): Option<(char, nat)>
    requires s != "" && s[0] == '\\'
  {
    if |s| < 2 then None
    else
      match s[1]
      case '"' => Some(('"', 2))
      case '\\' => Some(('\\', 2))
      case 'b' => Some(('\U{0008}', 2))
      case 't' => Some(('\t', 2))
      case 'n' => Some(('\n', 2))
      case 'f' => Some(('\U{000C}', 2))
      case 'r' => Some(('\r', 2))
      case 'u' =>
        if |s| >= 6 && s[2] == '0' && s[3] == '0' && HexValue(s[4]).Some? && HexValue(s[5]).Some?
        then Some(((16 * HexValue(s[4]).value + HexValue(s[5]).value) as char, 6))
        else None
      case _ => None
  }

  /** The text inside a JSON string, when it is one. */
  function Unescaped(s: string): Option<string>
    decreases |s|
  {
    if s == "" then Some("")
    else if s[0] == '"' || s[0] < ' ' then None
    else
      var (c, n) := if s[0] != '\\' then (s[0], 1) else if EscapeAt(s).Some? then EscapeAt(s).value else (' ', 0);
      if n == 0 || n > |s| then None
      else
        var rest := Unescaped(s[n..]);
        if rest.None? then None else Some([c] + rest.value)
  }

  lemma HexIsRead(n: nat)
    requires n < 16
    ensures HexValue(Hex(n)) == Some(n)
  {
  }

  lemma EscapeIsRead(c: char, rest: string)
    requires Escaped(c)[0] == '\\'
    ensures EscapeAt(Escaped(c) + rest) == Some((c, |Escaped(c)|))
  {
    var s := Escaped(c) + rest;
    assert forall i :: 0 <= i < |Escaped(c)| ==> s[i] == Escaped(c)[i];
    if Escaped(c)[1] == 'u' {
      HexIsRead(c as int / 16);
      HexIsRead(c as int % 16);
    }
  }

  lemma UnescapedStep(s: string, c: char, n: nat)
    requires 0 < n <= |s| && s[0] != '"' && s[0] >= ' ' && Unescaped(s[n..]).Some?
    requires if s[0] == '\\' then EscapeAt(s) == Some((c, n)) else c == s[0] && n == 1
    ensures Unescaped(s) == Some([c] + Unescaped(s[n..]).value)
  {
  }

  lemma EscapedIsRead(c: char, rest: string)
    requires Unescaped(rest).Some?
    ensures Unescaped(Escaped(c) + rest) == Some([c] + Unescaped(rest).value)
  {
    var s := Escaped(c) + rest;
    assert s[|Escaped(c)|..] == rest && s[0] == Escaped(c)[0];
    if Escaped(c)[0] == '\\' {
      EscapeIsRead(c, rest);
    }
    UnescapedStep(s, c, |Escaped(c)|);
  }

  lemma {:induction false} EscapesAreRead(s: string)
    ensures Unescaped(Escapes(s)) == Some(s)
  {
    if s != "" {
      EscapesAreRead(s[1..]);
      EscapedIsRead(s[0], Escapes(s[1..]));
      assert [s[0]] + s[1..] == s;
    }
  }

  /** Whatever the author is called, the header gives it back: as it is, or as a quoted string that reads as it. */
  lemma AuthorIsReadBack(author: string)
    ensures AuthorText(author) == author ||
      exists inside: string :: AuthorText(author) == "\"" + inside + "\"" && Unescaped(inside) == Some(author)
  {
    if !IsPlainScalar(author) {
      EscapesAreRead(author);
    }
  }

  // ---- Which requests are accepted

  /** Some of the items given is not blank. */
  ghost predicate AnyGiven(e: Env, items: Option<seq<string>>) {
    items.Some? && exists i :: 0 <= i < |items.value| && e.notEmpty(Trim(items.value[i]))
  }

  lemma {:induction false} GivenIff(e: Env, items: seq<string>, item: string)
    ensures item in NotEmptyTrimmed(e, items) <==>
      exists i :: 0 <= i < |items| && item == Trim(items[i]) && e.notEmpty(Trim(items[i]))
  {
    if items != [] {
      GivenIff(e, items[1..], item);
      if i :| 0 <= i < |items[1..]| && item == Trim(items[1..][i]) && e.notEmpty(Trim(items[1..][i])) {
        assert items[i + 1] == items[1..][i];
      }
      if i :| 0 < i < |items| && item == Trim(items[i]) && e.notEmpty(Trim(items[i])) {
        assert items[1..][i - 1] == items[i];
      }
    }
  }

  lemma AnyGivenIff(e: Env, items: Option<seq<string>>)
    ensures NotEmptyTrimmed(e, ValueOr(items, [])) != [] <==> AnyGiven(e, items)
  {
    var given := ValueOr(items, []);
    var kept := NotEmptyTrimmed(e, given);
    if kept != [] {
      GivenIff(e, given, kept[0]);
    }
    if AnyGiven(e, items) {
      var i :| 0 <= i < |given| && e.notEmpty(Trim(given[i]));
      GivenIff(e, given, Trim(given[i]));
    }
  }

  lemma NoProblemsIff(e: Env, r: Request)
    ensures Problems(e, r) == [] <==>
      && !Breaks(e, r, BadDate) && !Breaks(e, r, DecisionNeedsAlternatives)
      && !Breaks(e, r, OnlyDecisionsHaveAlternatives) && !Breaks(e, r, BadRepo) && !Breaks(e, r, BadSupersedes)
      && !Breaks(e, r, LinkOfManyLines) && !Breaks(e, r, UnnameableTitle)
  {
    if Problems(e, r) == [] {
      forall problem ensures !Breaks(e, r, problem) {
        ProblemsAreWhatBreaks(e, r, problem);
      }
    } else {
      ProblemsAreWhatBreaks(e, r, Problems(e, r)[0]);
    }
  }

  /** Every link that is not blank is one line. */
  ghost predicate LinksAreLines(e: Env, links: Option<seq<string>>) {
    links.Some? ==>
      forall i :: 0 <= i < |links.value| && e.notEmpty(Trim(links.value[i])) ==> OneLine(Trim(links.value[i]))
  }

  lemma LinksAreOneLine(e: Env, r: Request)
    ensures AllOneLiners(Links(e, r)) <==> LinksAreLines(e, r.links)
  {
    var given, kept := ValueOr(r.links, []), Links(e, r);
    if AllOneLiners(kept) {
      forall i | 0 <= i < |given| && e.notEmpty(Trim(given[i])) ensures OneLine(Trim(given[i])) {
        GivenIff(e, given, Trim(given[i]));
      }
    } else {
      var k :| 0 <= k < |kept| && !OneLine(kept[k]);
      GivenIff(e, given, kept[k]);
    }
  }

  ghost predicate NamesANote(id: string) {
    exists date, slug :: NamesNote(id, date, slug)
  }

  lemma NamesANoteIff(id: string)
    ensures NamesANote(id) <==> IsNoteId(id)
  {
    NoteIdNames(id);
  }

  ghost predicate ReposCanStand(repos: Option<seq<string>>) {
    repos.Some? ==> forall i :: 0 <= i < |repos.value| ==> IsRepoName(repos.value[i])
  }

  lemma ReposIff(repos: Option<seq<string>>)
    ensures ReposCanStand(repos) <==> AllRepoNames(ValueOr(repos, []))
  {
  }

  /** A note is accepted exactly when its date is real, it is a decision with alternatives or neither, its
      repositories can stand in the header, what it supersedes names a note, its links are one line each, and a file
      can be named after its title. */
  lemma AcceptedIff(e: Env, r: Request)
    ensures Problems(e, r) == [] <==>
      && IsCalendarDate(if r.date.Some? then r.date.value else e.today)
      && (r.noteType.Decision? <==> AnyGiven(e, r.alternativesRejected))
      && ReposCanStand(r.repos) && (r.supersedes.Some? ==> NamesANote(r.supersedes.value))
      && LinksAreLines(e, r.links) && e.notEmpty(SlugOf(e.fold, Trim(r.title)))
  {
    NoProblemsIff(e, r);
    AnyGivenIff(e, r.alternativesRejected);
    LinksAreOneLine(e, r);
    ReposIff(r.repos);
    if r.supersedes.Some? {
      NamesANoteIff(r.supersedes.value);
    }
  }
}
