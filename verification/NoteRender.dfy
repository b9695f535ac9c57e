/** Rendering a note from its fields, for the parser and the validator that must accept it. */
module Notes {
  import opened Text
  import opened Frontmatters
  import opened Validation

  const SLUG_MAX := 60

  // ---- Slugs

  function DropOthers(s: string): (r: string)
    ensures |r| <= |s|
    ensures r != "" ==> IsWordChar(r[0])
  {
    if s != "" && !IsWordChar(s[0]) then DropOthers(s[1..]) else s
  }

  /** Every run of other characters becomes one hyphen. */
  function Hyphenated(s: string): string
    decreases |s|
  {
    if s == "" then ""
    else if IsWordChar(s[0]) then [s[0]] + Hyphenated(s[1..])
    else "-" + Hyphenated(DropOthers(s))
  }

  function StripEnd(s: string): (r: string)
    ensures r <= s
    ensures r != "" ==> r[|r| - 1] != '-'
  {
    if s != "" && s[|s| - 1] == '-' then StripEnd(s[..|s| - 1]) else s
  }

  function TrimHyphens(s: string): string {
    StripEnd(s[Run(s, '-')..])
  }

  function LastIndexOf(s: string, c: char): (i: int)
    ensures -1 <= i < |s|
    ensures i >= 0 ==> s[i] == c
    ensures forall k :: i < k < |s| ==> s[k] != c
  {
    if s == "" then -1 else if s[|s| - 1] == c then |s| - 1 else LastIndexOf(s[..|s| - 1], c)
  }

  /** `fold` stands for the Unicode normalisation: compatibility decomposition, no marks, lower case. */
  function WholeSlug(fold: string -> string, title: string): string {
    TrimHyphens(Hyphenated(fold(title)))
  }

  function CutSlug(slug: string): string {
    if |slug| <= SLUG_MAX then slug
    else
      var boundary := LastIndexOf(slug[..SLUG_MAX + 1], '-');
      StripEnd(if boundary > 0 then slug[..boundary] else slug[..SLUG_MAX])
  }

  function SlugOf(fold: string -> string, title: string): string {
    CutSlug(WholeSlug(fold, title))
  }

  predicate SlugChars(s: string) {
    && (forall i :: 0 <= i < |s| ==> IsWordChar(s[i]) || s[i] == '-')
    && forall i :: 0 < i < |s| && s[i] == '-' ==> s[i - 1] != '-'
  }

  lemma {:induction false} HyphenatedIsClean(s: string)
    ensures SlugChars(Hyphenated(s))
    ensures s != "" && IsWordChar(s[0]) ==> Hyphenated(s) != "" && Hyphenated(s)[0] != '-'
    decreases |s|
  {
    if s != "" && IsWordChar(s[0]) {
      HyphenatedIsClean(s[1..]);
    } else if s != "" {
      var rest := DropOthers(s);
      HyphenatedIsClean(rest);
      assert rest == "" ==> Hyphenated(rest) == "";
    }
  }

  lemma PartIsClean(s: string, i: nat, j: nat)
    requires SlugChars(s) && i <= j <= |s|
    ensures SlugChars(s[i..j])
  {
    var part := s[i..j];
    forall k | 0 < k < |part| && part[k] == '-' ensures part[k - 1] != '-' {
      assert part[k] == s[i + k] && part[k - 1] == s[i + k - 1];
    }
  }

  lemma TrimmedIsKebab(h: string)
    requires SlugChars(h)
    ensures TrimHyphens(h) == "" || IsKebab(TrimHyphens(h))
  {
    var from := Run(h, '-');
    var trimmed := TrimHyphens(h);
    assert trimmed == h[from..from + |trimmed|];
    PartIsClean(h, from, from + |trimmed|);
  }

  lemma WholeSlugIsKebab(fold: string -> string, title: string)
    ensures WholeSlug(fold, title) == "" || IsKebab(WholeSlug(fold, title))
  {
    HyphenatedIsClean(fold(title));
    TrimmedIsKebab(Hyphenated(fold(title)));
  }

  lemma KebabPrefix(slug: string, n: nat)
    requires IsKebab(slug) && 0 < n <= |slug| && slug[n - 1] != '-'
    ensures IsKebab(slug[..n]) && StripEnd(slug[..n]) == slug[..n]
  {
  }

  /** A slug that is too long keeps as many whole words as fit, or the first 60 characters of a longer word. */
  lemma CutIsWholeWords(slug: string)
    requires IsKebab(slug) && |slug| > SLUG_MAX
    ensures var cut := CutSlug(slug);
      && 0 < |cut| <= SLUG_MAX && cut <= slug && IsKebab(cut)
      && if '-' in slug[..SLUG_MAX + 1]
         then slug[|cut|] == '-' && '-' !in slug[|cut| + 1..SLUG_MAX + 1]
         else |cut| == SLUG_MAX
  {
    var head := slug[..SLUG_MAX + 1];
    var boundary := LastIndexOf(head, '-');
    if boundary > 0 {
      assert slug[boundary] == '-';
      KebabPrefix(slug, boundary);
      var rest := slug[boundary + 1..SLUG_MAX + 1];
      assert forall i :: 0 <= i < |rest| ==> rest[i] == head[boundary + 1 + i];
    } else {
      assert head[0] != '-';
      assert head[SLUG_MAX - 1] != '-';
      KebabPrefix(slug, SLUG_MAX);
    }
  }

  /** A slug is kebab-case of at most 60 characters, or empty. */
  lemma SlugIsKebab(fold: string -> string, title: string)
    ensures |SlugOf(fold, title)| <= SLUG_MAX
    ensures SlugOf(fold, title) != "" ==> IsKebab(SlugOf(fold, title))
    ensures SlugOf(fold, title) == "" <==> WholeSlug(fold, title) == ""
  {
    WholeSlugIsKebab(fold, title);
    var slug := WholeSlug(fold, title);
    if |slug| > SLUG_MAX {
      CutIsWholeWords(slug);
    }
  }

  function LetterOf(c: char): string {
    if IsWordChar(c) then [c] else ""
  }

  /** The letters and digits of a text, in order. */
  function Letters(s: string): string {
    if s == "" then "" else LetterOf(s[0]) + Letters(s[1..])
  }

  lemma {:induction false} LettersAppend(a: string, b: string)
    ensures Letters(a + b) == Letters(a) + Letters(b)
  {
    if a == "" {
      assert a + b == b;
    } else {
      var first, rest := LetterOf(a[0]), a[1..];
      LettersAppend(rest, b);
      assert (a + b)[1..] == rest + b && (a + b)[0] == a[0];
      Associate(first, Letters(rest), Letters(b));
    }
  }

  lemma {:induction false} LettersOfOthers(s: string)
    ensures Letters(DropOthers(s)) == Letters(s)
  {
    if s != "" && !IsWordChar(s[0]) {
      LettersOfOthers(s[1..]);
    }
  }

  lemma {:induction false} LettersOfHyphenated(s: string)
    ensures Letters(Hyphenated(s)) == Letters(s)
    decreases |s|
  {
    if s != "" && IsWordChar(s[0]) {
      LettersOfHyphenated(s[1..]);
      assert Hyphenated(s)[1..] == Hyphenated(s[1..]);
    } else if s != "" {
      LettersOfOthers(s);
      LettersOfHyphenated(DropOthers(s));
      assert Hyphenated(s)[1..] == Hyphenated(DropOthers(s));
    }
  }

  lemma {:induction false} LettersOfStripped(s: string)
    ensures Letters(StripEnd(s)) == Letters(s)
  {
    if s != "" && s[|s| - 1] == '-' {
      var rest := s[..|s| - 1];
      LettersOfStripped(rest);
      LettersAppend(rest, "-");
      assert Letters("-") == "" && s == rest + "-";
    }
  }

  lemma {:induction false} NoLettersInRun(s: string)
    requires forall i :: 0 <= i < |s| ==> s[i] == '-'
    ensures Letters(s) == ""
  {
    if s != "" {
      NoLettersInRun(s[1..]);
    }
  }

  /** Before it is cut, a slug has exactly the letters and digits of the folded title, in order. */
  lemma SlugKeepsLetters(fold: string -> string, title: string)
    ensures Letters(WholeSlug(fold, title)) == Letters(fold(title))
    ensures SlugOf(fold, title) == "" <==> Letters(fold(title)) == ""
  {
    var h := Hyphenated(fold(title));
    var from := Run(h, '-');
    LettersOfHyphenated(fold(title));
    LettersAppend(h[..from], h[from..]);
    assert h == h[..from] + h[from..];
    NoLettersInRun(h[..from]);
    LettersOfStripped(h[from..]);
    WholeSlugIsKebab(fold, title);
    SlugIsKebab(fold, title);
  }

  // ---- Requests

  datatype NoteType = Decision | Contract | Gotcha | Note

  datatype Request = Request(
    title: string, noteType: NoteType, context: string, decisionOrFact: string,
    alternativesRejected: Option<seq<string>>,
    howToApply: Option<string>, links: Option<seq<string>>, repos: Option<seq<string>>, date: Option<string>,
    supersedes: Option<string>)

  /** The text helpers and today's date. */
  datatype Env = Env(notEmpty: string -> bool, fold: string -> string, today: string)

  datatype Problem =
    | BadDate | DecisionNeedsAlternatives | OnlyDecisionsHaveAlternatives | BadRepo | BadSupersedes | LinkOfManyLines
    | UnnameableTitle

  datatype RenderedNote = RenderedNote(id: string, title: string, content: string)

  datatype Result = Rendered(note: RenderedNote) | BadRequest(problems: seq<Problem>)

  function Trim(s: string): string {
    DropSpaces(TrimEnd(s))
  }

  function NotEmptyTrimmed(e: Env, items: seq<string>): seq<string> {
    if items == [] then []
    else (if e.notEmpty(Trim(items[0])) then [Trim(items[0])] else []) + NotEmptyTrimmed(e, items[1..])
  }

  function ValueOr<T>(value: Option<T>, missing: T): T {
    if value.Some? then value.value else missing
  }

  predicate IsAsciiLetter(c: char) {
    'a' <= c <= 'z' || 'A' <= c <= 'Z'
  }

  /** A name YAML reads as itself inside `[` and `]`, without quotes. */
  predicate IsRepoName(s: string) {
    && s != "" && (IsAsciiLetter(s[0]) || IsDigit(s[0]))
    && forall i :: 0 <= i < |s| ==> IsAsciiLetter(s[i]) || IsDigit(s[i]) || s[i] in {'.', '_', '-'}
  }

  predicate IsPlainScalar(s: string) {
    && s != "" && (IsAsciiLetter(s[0]) || IsDigit(s[0]))
    && forall i :: 0 <= i < |s| ==> IsAsciiLetter(s[i]) || IsDigit(s[i]) || s[i] in {'_', '.', '@', '+', '-'}
  }

  function Hex(n: nat): char
    requires n < 16
  {
    "0123456789abcdef"[n]
  }

  /** One character of a JSON string. */
  function Escaped(c: char): string {
    if c == '"' then "\\\"" else if c == '\\' then "\\\\"
    else if c == '\U{0008}' then "\\b" else if c == '\t' then "\\t" else if c == '\n' then "\\n"
    else if c == '\U{000C}' then "\\f" else if c == '\r' then "\\r"
    else if c < ' ' then "\\u00" + [Hex(c as int / 16), Hex(c as int % 16)]
    else [c]
  }

  function Escapes(s: string): string {
    if s == "" then "" else Escaped(s[0]) + Escapes(s[1..])
  }

  function Quoted(s: string): string {
    "\"" + Escapes(s) + "\""
  }

  function DateOf(e: Env, r: Request): string {
    ValueOr(r.date, e.today)
  }

  function Alternatives(e: Env, r: Request): seq<string> {
    NotEmptyTrimmed(e, ValueOr(r.alternativesRejected, []))
  }

  function Links(e: Env, r: Request): seq<string> {
    NotEmptyTrimmed(e, ValueOr(r.links, []))
  }

  predicate AllRepoNames(repos: seq<string>) {
    forall i :: 0 <= i < |repos| ==> IsRepoName(repos[i])
  }

  predicate AllOneLiners(links: seq<string>) {
    forall i :: 0 <= i < |links| ==> OneLine(links[i])
  }

  /** What is asked of a request, each rule once. */
  predicate Breaks(e: Env, r: Request, problem: Problem) {
    match problem
    case BadDate => !IsCalendarDate(DateOf(e, r))
    case DecisionNeedsAlternatives => r.noteType.Decision? && Alternatives(e, r) == []
    case OnlyDecisionsHaveAlternatives => !r.noteType.Decision? && Alternatives(e, r) != []
    case BadRepo => !AllRepoNames(ValueOr(r.repos, []))
    case BadSupersedes => r.supersedes.Some? && !IsNoteId(r.supersedes.value)
    case LinkOfManyLines => !AllOneLiners(Links(e, r))
    case UnnameableTitle => !e.notEmpty(SlugOf(e.fold, Trim(r.title)))
  }

  function TypeName(noteType: NoteType): string {
    match noteType
    case Decision => "decision"
    case Contract => "contract"
    case Gotcha => "gotcha"
    case Note => "note"
  }

  function AuthorText(author: string): string {
    if IsPlainScalar(author) then author else Quoted(author)
  }

  function FieldLines(
    date: string, typeName: string, repos: string, supersedes: Option<string>, author: string): seq<string> {
    ["date: " + date, "type: " + typeName, "repos: [" + repos + "]", "source: chat"]
    + (if supersedes.Some? then ["supersedes: " + supersedes.value] else [])
    + ["author: " + author]
  }

  /** The header between the two `---`. */
  function HeaderLines(e: Env, r: Request, author: string): seq<string> {
    FieldLines(DateOf(e, r), TypeName(r.noteType), Join(ValueOr(r.repos, []), ", "), r.supersedes, AuthorText(author))
  }

  function SectionText(heading: string, text: string): string {
    "## " + heading + "\n" + Trim(text)
  }

  function Indented(s: string): string
    decreases |s|
  {
    if s == "" then ""
    else if BreakLength(s) > 0 then "\n  " + Indented(s[BreakLength(s)..])
    else [s[0]] + Indented(s[1..])
  }

  function ListText(items: seq<string>): string {
    Join(Map((item: string) => "- " + Indented(item), items), "\n")
  }

  function SectionTexts(e: Env, r: Request): seq<string> {
    [SectionText("Context", r.context),
     SectionText(if r.noteType.Decision? then "Decision" else "Fact", r.decisionOrFact)]
    + (if Alternatives(e, r) == [] then [] else [SectionText("Alternatives rejected", ListText(Alternatives(e, r)))])
    + (if r.howToApply.Some? && e.notEmpty(r.howToApply.value)
       then [SectionText("How to apply", r.howToApply.value)] else [])
    + (if Links(e, r) == [] then [] else [SectionText("Links", ListText(Links(e, r)))])
  }

  function BodyText(e: Env, r: Request): string {
    "\n# " + Trim(r.title) + "\n\n" + Join(SectionTexts(e, r), "\n\n") + "\n"
  }

  function NoteOf(e: Env, r: Request, author: string): RenderedNote {
    RenderedNote(
      "raw/" + DateOf(e, r) + "-" + SlugOf(e.fold, Trim(r.title)) + ".md",
      Trim(r.title),
      Join(["---"] + HeaderLines(e, r, author) + ["---"], "\n") + "\n" + BodyText(e, r))
  }

  function If(condition: bool, problem: Problem): seq<Problem> {
    if condition then [problem] else []
  }

  /** The rules that are broken, in the order they are looked at. */
  function Listed(broken: Problem -> bool): seq<Problem> {
    If(broken(BadDate), BadDate) + If(broken(DecisionNeedsAlternatives), DecisionNeedsAlternatives)
    + If(broken(OnlyDecisionsHaveAlternatives), OnlyDecisionsHaveAlternatives) + If(broken(BadRepo), BadRepo)
    + If(broken(BadSupersedes), BadSupersedes) + If(broken(LinkOfManyLines), LinkOfManyLines)
    + If(broken(UnnameableTitle), UnnameableTitle)
  }

  lemma InSum<T>(a: seq<T>, b: seq<T>, x: T)
    ensures x in a + b <==> x in a || x in b
  {
  }

  lemma ListedIffBroken(broken: Problem -> bool, problem: Problem)
    ensures problem in Listed(broken) <==> broken(problem)
  {
    var l1 := If(broken(BadDate), BadDate);
    var l2 := l1 + If(broken(DecisionNeedsAlternatives), DecisionNeedsAlternatives);
    var l3 := l2 + If(broken(OnlyDecisionsHaveAlternatives), OnlyDecisionsHaveAlternatives);
    var l4 := l3 + If(broken(BadRepo), BadRepo);
    var l5 := l4 + If(broken(BadSupersedes), BadSupersedes);
    var l6 := l5 + If(broken(LinkOfManyLines), LinkOfManyLines);
    InSum(l1, If(broken(DecisionNeedsAlternatives), DecisionNeedsAlternatives), problem);
    InSum(l2, If(broken(OnlyDecisionsHaveAlternatives), OnlyDecisionsHaveAlternatives), problem);
    InSum(l3, If(broken(BadRepo), BadRepo), problem);
    InSum(l4, If(broken(BadSupersedes), BadSupersedes), problem);
    InSum(l5, If(broken(LinkOfManyLines), LinkOfManyLines), problem);
    InSum(l6, If(broken(UnnameableTitle), UnnameableTitle), problem);
  }

  function Problems(e: Env, r: Request): seq<Problem> {
    Listed(problem => Breaks(e, r, problem))
  }

  /** A request is refused exactly for the rules it breaks. */
  lemma ProblemsAreWhatBreaks(e: Env, r: Request, problem: Problem)
    ensures problem in Problems(e, r) <==> Breaks(e, r, problem)
  {
    ListedIffBroken(p => Breaks(e, r, p), problem);
  }

  function Outcome(e: Env, r: Request, author: string): Result {
    if Problems(e, r) == [] then Rendered(NoteOf(e, r, author)) else BadRequest(Problems(e, r))
  }

  method Check(problems: seq<Problem>, broken: bool, problem: Problem) returns (more: seq<Problem>)
    ensures more == problems + If(broken, problem)
  {
    more := problems;
    if broken {
      more := more + [problem];
    }
  }

  method ListProblems(broken: Problem -> bool) returns (problems: seq<Problem>)
    ensures problems == Listed(broken)
  {
    problems := If(broken(BadDate), BadDate);
    problems := Check(problems, broken(DecisionNeedsAlternatives), DecisionNeedsAlternatives);
    problems := Check(problems, broken(OnlyDecisionsHaveAlternatives), OnlyDecisionsHaveAlternatives);
    problems := Check(problems, broken(BadRepo), BadRepo);
    problems := Check(problems, broken(BadSupersedes), BadSupersedes);
    problems := Check(problems, broken(LinkOfManyLines), LinkOfManyLines);
    problems := Check(problems, broken(UnnameableTitle), UnnameableTitle);
  }

  method Render(e: Env, r: Request, author: string) returns (result: Result)
    ensures result == Outcome(e, r, author)
  {
    var problems := ListProblems(problem => Breaks(e, r, problem));
    if problems != [] {
      return BadRequest(problems);
    }
    var frontmatter := ["---"] + HeaderLines(e, r, author) + ["---"];
    result := Rendered(RenderedNote(
      "raw/" + DateOf(e, r) + "-" + SlugOf(e.fold, Trim(r.title)) + ".md", Trim(r.title),
      Join(frontmatter, "\n") + "\n" + BodyText(e, r)));
  }

  // ---- What an accepted note is

  lemma {:induction false} EscapesAreOneLine(s: string)
    ensures OneLine(Escapes(s))
  {
    if s != "" {
      EscapesAreOneLine(s[1..]);
      assert OneLine(Escaped(s[0]));
    }
  }

  lemma {:induction false} JoinedAreOneLine(parts: seq<string>, separator: string)
    requires AllOneLiners(parts) && OneLine(separator)
    ensures OneLine(Join(parts, separator))
  {
    if |parts| > 1 {
      JoinedAreOneLine(parts[1..], separator);
    }
  }

  lemma RepoNamesAreOneLine(repos: seq<string>)
    requires AllRepoNames(repos)
    ensures OneLine(Join(repos, ", "))
  {
    forall i | 0 <= i < |repos| ensures OneLine(repos[i]) {
      assert IsRepoName(repos[i]);
    }
    JoinedAreOneLine(repos, ", ");
  }

  lemma DateIsOneLine(date: string)
    requires IsCalendarDate(date)
    ensures OneLine(date)
  {
    assert IsDateShape(date);
    forall i | 0 <= i < |date| ensures date[i] == '-' || IsDigit(date[i]) {
      assert if i == 4 || i == 7 then date[i] == '-' else IsDigit(date[i]);
    }
  }

  lemma NoteIdIsOneLine(id: string)
    requires IsNoteId(id)
    ensures OneLine(id)
  {
    DateIsOneLine(id[4..14]);
    var slug := id[15..|id| - 3];
    assert id == id[..4] + id[4..14] + [id[14]] + slug + id[|id| - 3..];
    assert OneLine(slug) by {
      assert forall i :: 0 <= i < |slug| ==> IsWordChar(slug[i]) || slug[i] == '-';
    }
  }

  /** A line that starts with a letter closes no header. */
  ghost predicate IsField(line: string) {
    OneLine(line) && line != "" && IsAsciiLetter(line[0])
  }

  ghost predicate AllFields(lines: seq<string>) {
    lines != [] && forall i :: 0 <= i < |lines| ==> IsField(lines[i])
  }

  lemma FieldsCloseNothing(lines: seq<string>)
    requires AllFields(lines)
    ensures AllOneLine(lines) && NoneCloses(lines)
  {
    forall i | 0 <= i < |lines| ensures OneLine(lines[i]) && !IsClosing(lines[i]) {
      assert IsField(lines[i]);
    }
  }

  lemma AuthorIsOneLine(author: string)
    ensures OneLine(AuthorText(author))
  {
    if IsPlainScalar(author) {
      assert forall i :: 0 <= i < |author| ==> author[i] != '\n' && author[i] != '\r';
    } else {
      EscapesAreOneLine(author);
    }
  }

  lemma Labeled(name: string, value: string)
    requires IsField(name) && OneLine(value)
    ensures IsField(name + value)
  {
  }

  lemma FieldLinesAreFields(date: string, typeName: string, repos: string, supersedes: Option<string>, author: string)
    requires OneLine(date) && OneLine(typeName) && OneLine(repos) && OneLine(author)
    requires supersedes.Some? ==> OneLine(supersedes.value)
    ensures AllFields(FieldLines(date, typeName, repos, supersedes, author))
  {
    Labeled("date: ", date);
    Labeled("type: ", typeName);
    Labeled("repos: [", repos);
    Labeled("repos: [" + repos, "]");
    Labeled("author: ", author);
    if supersedes.Some? {
      Labeled("supersedes: ", supersedes.value);
    }
  }

  /** What the rules on the header's values come to. */
  lemma AcceptedValues(e: Env, r: Request)
    requires Problems(e, r) == []
    ensures IsCalendarDate(DateOf(e, r)) && AllRepoNames(ValueOr(r.repos, []))
    ensures r.supersedes.Some? ==> IsNoteId(r.supersedes.value)
  {
    ProblemsAreWhatBreaks(e, r, BadDate);
    ProblemsAreWhatBreaks(e, r, BadRepo);
    ProblemsAreWhatBreaks(e, r, BadSupersedes);
  }

  lemma ValuesAreOneLine(date: string, repos: seq<string>, supersedes: Option<string>)
    requires IsCalendarDate(date) && AllRepoNames(repos) && (supersedes.Some? ==> IsNoteId(supersedes.value))
    ensures OneLine(date) && OneLine(Join(repos, ", ")) && (supersedes.Some? ==> OneLine(supersedes.value))
  {
    DateIsOneLine(date);
    RepoNamesAreOneLine(repos);
    if supersedes.Some? {
      NoteIdIsOneLine(supersedes.value);
    }
  }

  lemma TypeNameIsOneLine(noteType: NoteType)
    ensures OneLine(TypeName(noteType))
  {
  }

  lemma HeaderLinesAreFields(e: Env, r: Request, author: string)
    requires Problems(e, r) == []
    ensures AllFields(HeaderLines(e, r, author))
  {
    AcceptedValues(e, r);
    ValuesAreOneLine(DateOf(e, r), ValueOr(r.repos, []), r.supersedes);
    AuthorIsOneLine(author);
    TypeNameIsOneLine(r.noteType);
    FieldLinesAreFields(
      DateOf(e, r), TypeName(r.noteType), Join(ValueOr(r.repos, []), ", "), r.supersedes, AuthorText(author));
  }

  lemma {:induction false} JoinBetween(lines: seq<string>)
    requires lines != []
    ensures Join(["---"] + lines + ["---"], "\n") == "---\n" + Join(lines, "\n") + "\n---"
  {
    var open := ["---"] + lines;
    JoinAppend(open, "---", "\n");
    assert open[1..] == lines;
  }

  lemma FencedLinesAreDocument(lines: seq<string>, body: string)
    requires lines != []
    ensures Join(["---"] + lines + ["---"], "\n") + "\n" + body == Document(lines, body)
  {
    JoinBetween(lines);
    var header := Join(lines, "\n");
    assert "---\n" + header + "\n---" + "\n" + body == "---\n" + (header + "\n---\n" + body);
  }

  /** Whatever its free text holds, an accepted note is split at exactly its rendered header, whose lines are
      the fields and nothing else. */
  lemma HeaderIsReadBack(e: Env, r: Request, author: string)
    requires Problems(e, r) == []
    ensures var lines, content := HeaderLines(e, r, author), NoteOf(e, r, author).content;
      && SplitHeader(content) == Some(Cut(Join(lines, "\n"), BodyText(e, r)))
      && SplitLines(Join(lines, "\n")) == lines
  {
    var lines := HeaderLines(e, r, author);
    HeaderLinesAreFields(e, r, author);
    FieldsCloseNothing(lines);
    FencedLinesAreDocument(lines, BodyText(e, r));
    assert NoneCloses(lines[1..]) by {
      assert forall i :: 0 <= i < |lines[1..]| ==> lines[1..][i] == lines[i + 1];
    }
    WrittenHeaderIsReadIff(lines, BodyText(e, r));
    SplitOfJoin(lines);
  }

  /** An accepted note's id is a note id of a kebab-case slug of at most 60 characters; it can be deleted, and
      never rewritten. */
  lemma AcceptedIdIsValid(e: Env, r: Request, author: string)
    requires !e.notEmpty("") && Problems(e, r) == []
    ensures var id, slug := NoteOf(e, r, author).id, SlugOf(e.fold, Trim(r.title));
      && IsKebab(slug) && |slug| <= SLUG_MAX && IsNoteId(id)
      && DeletablePath(id).None? && WritablePath(id) == Some(RawRewriteRefused)
  {
    ProblemsAreWhatBreaks(e, r, BadDate);
    ProblemsAreWhatBreaks(e, r, UnnameableTitle);
    SlugIsKebab(e.fold, Trim(r.title));
    NoteIdIff(DateOf(e, r), SlugOf(e.fold, Trim(r.title)));
    WhatMayBeRewritten(NoteOf(e, r, author).id);
  }
}
