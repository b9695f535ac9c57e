/** Splitting a YAML header off a markdown document. */
module Frontmatters {
  import opened Text

  const BYTE_ORDER_MARK := '\U{FEFF}'

  /** The length of a `\n` or `\r\n` at the start. */
  function BreakLength(s: string): (n: nat)
    ensures n <= |s|
  {
    if |s| >= 2 && s[0] == '\r' && s[1] == '\n' then 2 else if s != "" && s[0] == '\n' then 1 else 0
  }

  /** The length of `---` or `...`, blanks, and a line break or the end of the text. */
  function ClosingLength(s: string): (n: Option<nat>)
    ensures n.Some? ==> 3 <= n.value <= |s|
  {
    if !("---" <= s || "..." <= s) then None else
      var rest := DropBlanks(s[3..]);
      if rest == "" then Some(|s|)
      else if BreakLength(rest) > 0 then Some(|s| - |rest| + BreakLength(rest))
      else None
  }

  /** The length of an opening line: a byte order mark at most, `---`, blanks, a line break. */
  function OpeningLength(content: string): (n: Option<nat>)
    ensures n.Some? ==> n.value <= |content|
  {
    var s := if content != "" && content[0] == BYTE_ORDER_MARK then content[1..] else content;
    if !("---" <= s) then None else
      var rest := DropBlanks(s[3..]);
      if BreakLength(rest) > 0 then Some(|content| - |rest| + BreakLength(rest)) else None
  }

  /** The length of a line break with a closing line after it. */
  function CloseHere(s: string): (n: Option<nat>)
    ensures n.Some? ==> 4 <= n.value <= |s|
  {
    var n := BreakLength(s);
    if n == 0 || ClosingLength(s[n..]).None? then None else Some(n + ClosingLength(s[n..]).value)
  }

  predicate ClosesHere(s: string) {
    CloseHere(s).Some?
  }

  function Further(n: Option<nat>, k: nat): Option<nat> {
    if n.None? then None else Some(k + n.value)
  }

  /** The first place from where on the text is as asked. */
  function FirstWhere(p: string -> bool, s: string): (n: Option<nat>)
    ensures n.Some? ==> n.value <= |s| && p(s[n.value..])
  {
    if p(s) then
      assert s[0..] == s;
      Some(0)
    else if s == "" then None
    else
      var n := FirstWhere(p, s[1..]);
      if n.None? then None
      else
        assert s[1 + n.value..] == s[1..][n.value..];
        Some(1 + n.value)
  }

  lemma {:induction false} FirstWhereSkips(p: string -> bool, s: string, k: nat)
    requires k <= |s| && forall i :: 0 <= i < k ==> !p(s[i..])
    ensures FirstWhere(p, s) == Further(FirstWhere(p, s[k..]), k)
  {
    if k == 0 {
      assert s[0..] == s;
    } else {
      assert !p(s[0..]) && s[0..] == s;
      forall i | 0 <= i < k - 1 ensures !p(s[1..][i..]) {
        assert s[1..][i..] == s[i + 1..];
      }
      FirstWhereSkips(p, s[1..], k - 1);
      assert s[1..][k - 1..] == s[k..];
    }
  }

  lemma {:induction false} FirstWhereIsFirst(p: string -> bool, s: string, k: nat)
    requires k <= |s| && (FirstWhere(p, s).Some? ==> k < FirstWhere(p, s).value)
    ensures !p(s[k..])
  {
    if k == 0 {
      assert s[0..] == s;
    } else {
      FirstWhereIsFirst(p, s[1..], k - 1);
      assert s[1..][k - 1..] == s[k..];
    }
  }

  /** How much text comes before the first line break that a closing line follows. */
  function HeaderLength(s: string): (n: Option<nat>)
    ensures n.Some? ==> n.value <= |s| && ClosesHere(s[n.value..])
  {
    FirstWhere(ClosesHere, s)
  }

  datatype Cut = Cut(header: string, body: string)

  /** A closing line right after the opening one only closes when no later one does. */
  function CutAfterOpening(s: string): Option<Cut> {
    var n := HeaderLength(s);
    if n.Some? then Some(Cut(s[..n.value], s[n.value + CloseHere(s[n.value..]).value..]))
    else if ClosingLength(s).Some? then Some(Cut("", s[ClosingLength(s).value..]))
    else None
  }

  /** The header and what follows it. */
  function SplitHeader(content: string): Option<Cut> {
    var opening := OpeningLength(content);
    if opening.None? then None else CutAfterOpening(content[opening.value..])
  }

  /** What the YAML parser makes of a header. */
  datatype Yaml = Mapping(data: map<string, string>) | Nil | NotAMapping | Broken(message: string)

  datatype Frontmatter = Frontmatter(data: map<string, string>, body: string, error: Option<string>)

  function Parsed(yaml: string -> Yaml, content: string, cut: Option<Cut>): Frontmatter {
    if cut.None? then Frontmatter(map[], content, None)
    else
      match yaml(cut.value.header)
      case Mapping(data) => Frontmatter(data, cut.value.body, None)
      case Nil => Frontmatter(map[], cut.value.body, None)
      case NotAMapping => Frontmatter(map[], cut.value.body, Some("Frontmatter is not a mapping."))
      case Broken(message) => Frontmatter(map[], cut.value.body, Some(message))
  }

  function Parse(yaml: string -> Yaml, content: string): Frontmatter {
    Parsed(yaml, content, SplitHeader(content))
  }

  // ---- A document written as lines

  predicate OneLine(s: string) {
    '\n' !in s && '\r' !in s
  }

  ghost predicate AllOneLine(lines: seq<string>) {
    forall i :: 0 <= i < |lines| ==> OneLine(lines[i])
  }

  predicate IsClosing(line: string) {
    ("---" <= line || "..." <= line) && AllBlank(line[3..])
  }

  /** What comes after the opening line. */
  function AfterOpening(lines: seq<string>, body: string): string {
    Join(lines, "\n") + "\n---\n" + body
  }

  function Document(lines: seq<string>, body: string): string {
    "---\n" + AfterOpening(lines, body)
  }

  lemma {:induction false} BlanksOver(a: string, s: string)
    requires s != "" && !IsBlank(s[0])
    ensures DropBlanks(a + s) == DropBlanks(a) + s
  {
    if a == "" {
      assert a + s == s;
    } else {
      assert (a + s)[1..] == a[1..] + s;
      BlanksOver(a[1..], s);
    }
  }

  lemma {:induction false} BlankOnly(a: string)
    ensures DropBlanks(a) == "" <==> AllBlank(a)
    ensures DropBlanks(a) != "" ==> DropBlanks(a)[0] in a
  {
    if a != "" {
      BlankOnly(a[1..]);
      assert a == [a[0]] + a[1..];
    }
  }

  /** A whole line, as the regular expression sees it. */
  lemma ClosingOfLine(line: string, rest: string)
    requires OneLine(line) && rest != "" && rest[0] == '\n'
    ensures ClosingLength(line + rest).Some? <==> IsClosing(line)
  {
    var s := line + rest;
    if |line| < 3 {
      assert s[|line|] == '\n';
    } else {
      assert s[..3] == line[..3] && s[3..] == line[3..] + rest;
      BlanksOver(line[3..], rest);
      BlankOnly(line[3..]);
      var left := DropBlanks(line[3..]);
      if left != "" {
        assert left[0] in line;
        assert DropBlanks(s[3..])[0] == left[0];
      }
    }
  }

  lemma NothingClosesWithin(line: string, s: string, i: nat)
    requires OneLine(line) && i < |line|
    ensures !ClosesHere((line + s)[i..])
  {
    assert (line + s)[i..][0] == line[i] && line[i] in line;
  }

  lemma SkipText(p: string -> bool, text: string, s: string)
    requires forall i :: 0 <= i < |text| ==> !p((text + s)[i..])
    ensures FirstWhere(p, text + s) == Further(FirstWhere(p, s), |text|)
  {
    var all := text + s;
    assert all[|text|..] == s;
    FirstWhereSkips(p, all, |text|);
  }

  lemma SkipLine(line: string, s: string)
    requires OneLine(line)
    ensures HeaderLength(line + s) == Further(HeaderLength(s), |line|)
  {
    forall i | 0 <= i < |line| ensures !ClosesHere((line + s)[i..]) {
      NothingClosesWithin(line, s, i);
    }
    SkipText(ClosesHere, line, s);
  }

  ghost predicate NoneCloses(lines: seq<string>) {
    forall i :: 0 <= i < |lines| ==> !IsClosing(lines[i])
  }

  lemma CloseOfDocument(body: string)
    ensures CloseHere("\n---\n" + body) == Some(5)
  {
    var s := "\n---\n" + body;
    assert s[1..][..3] == "---" && s[1..][3..] == "\n" + body;
  }

  lemma AcrossBreak(next: string)
    ensures HeaderLength("\n" + next)
         == if ClosingLength(next).Some? then Some(0) else Further(HeaderLength(next), 1)
  {
    var rest := "\n" + next;
    assert rest[1..] == next;
    assert ClosesHere(rest) <==> ClosingLength(next).Some?;
  }

  /** The header read is the lines written, or a proper part of them when a line closes it. */
  ghost predicate ReadsAsWritten(n: Option<nat>, length: nat, whole: bool) {
    n.Some? && n.value <= length && (n.value == length <==> whole)
  }

  lemma SoleLine(line: string, body: string)
    requires OneLine(line)
    ensures HeaderLength(line + ("\n---\n" + body)) == Some(|line|)
  {
    CloseOfDocument(body);
    SkipLine(line, "\n---\n" + body);
  }

  lemma LineBefore(line: string, next: string, length: nat, whole: bool)
    requires OneLine(line) && ReadsAsWritten(HeaderLength(next), length, whole)
    ensures ReadsAsWritten(HeaderLength(line + ("\n" + next)), |line| + 1 + length, whole && ClosingLength(next).None?)
  {
    SkipLine(line, "\n" + next);
    AcrossBreak(next);
  }

  lemma NextLine(lines: seq<string>, body: string)
    requires lines != [] && AllOneLine(lines)
    ensures ClosingLength(AfterOpening(lines, body)).Some? <==> IsClosing(lines[0])
  {
    var after := if |lines| == 1 then "\n---\n" + body else "\n" + AfterOpening(lines[1..], body);
    assert AfterOpening(lines, body) == lines[0] + after;
    ClosingOfLine(lines[0], after);
  }

  lemma OpeningOfDocument(s: string)
    ensures OpeningLength("---\n" + s) == Some(4)
  {
    var content := "---\n" + s;
    assert content[..3] == "---" && content[3..] == "\n" + s;
  }

  ghost predicate LinesAreRead(lines: seq<string>, body: string)
    requires lines != []
  {
    ReadsAsWritten(HeaderLength(AfterOpening(lines, body)), |Join(lines, "\n")|, NoneCloses(lines[1..]))
  }

  lemma JoinOfMore(line: string, rest: seq<string>)
    requires rest != []
    ensures Join([line] + rest, "\n") == line + ("\n" + Join(rest, "\n"))
  {
    assert ([line] + rest)[1..] == rest;
    Associate(line, "\n", Join(rest, "\n"));
  }

  lemma AfterOpeningOfMore(line: string, rest: seq<string>, body: string)
    requires rest != []
    ensures AfterOpening([line] + rest, body) == line + ("\n" + AfterOpening(rest, body))
  {
    JoinOfMore(line, rest);
    var joined := Join(rest, "\n");
    assert (line + ("\n" + joined)) + "\n---\n" + body == line + ("\n" + (joined + "\n---\n" + body));
  }

  lemma NoneOfMore(line: string, rest: seq<string>)
    ensures NoneCloses([line] + rest) <==> !IsClosing(line) && NoneCloses(rest)
  {
    var lines := [line] + rest;
    assert lines[0] == line && forall i :: 0 <= i < |rest| ==> lines[i + 1] == rest[i];
  }

  lemma OneMoreLine(line: string, rest: seq<string>, body: string)
    requires OneLine(line) && rest != [] && AllOneLine(rest) && LinesAreRead(rest, body)
    ensures LinesAreRead([line] + rest, body)
  {
    var next := AfterOpening(rest, body);
    NextLine(rest, body);
    NoneOfMore(rest[0], rest[1..]);
    assert [rest[0]] + rest[1..] == rest;
    LineBefore(line, next, |Join(rest, "\n")|, NoneCloses(rest[1..]));
    AfterOpeningOfMore(line, rest, body);
    JoinOfMore(line, rest);
    assert ([line] + rest)[1..] == rest;
  }

  /** The first line is the header's whatever it says: a closing line needs a line break before it. */
  lemma {:induction false} HeaderOfLines(lines: seq<string>, body: string)
    requires lines != [] && AllOneLine(lines)
    ensures LinesAreRead(lines, body)
    decreases |lines|
  {
    if |lines| == 1 {
      SoleLine(lines[0], body);
      assert lines == [lines[0]];
      assert AfterOpening(lines, body) == lines[0] + ("\n---\n" + body);
    } else {
      HeaderOfLines(lines[1..], body);
      OneMoreLine(lines[0], lines[1..], body);
      assert lines == [lines[0]] + lines[1..];
    }
  }

  /** Parsing splits a written document at exactly its header when, and only when, no header line but the first
      closes it; the body may hold anything. */
  lemma WrittenHeaderIsReadIff(lines: seq<string>, body: string)
    requires lines != [] && AllOneLine(lines)
    ensures SplitHeader(Document(lines, body)) == Some(Cut(Join(lines, "\n"), body)) <==> NoneCloses(lines[1..])
  {
    var s, header, rest := AfterOpening(lines, body), Join(lines, "\n"), "\n---\n" + body;
    OpeningOfDocument(s);
    assert Document(lines, body)[4..] == s;
    HeaderOfLines(lines, body);
    var n := HeaderLength(s).value;
    if n == |header| {
      assert s[n..] == rest && s[..n] == header;
      CloseOfDocument(body);
      assert s[n + 5..] == body;
    } else {
      assert |s[..n]| != |header|;
    }
  }

  lemma RestAfterOpening(s: string)
    requires CutAfterOpening(s).Some?
    ensures var cut := CutAfterOpening(s).value;
      cut.header <= s && |cut.body| <= |s| && cut.body == s[|s| - |cut.body|..]
  {
  }

  /** The header is the start of what follows the opening line; the body runs from some place to the end. */
  lemma BodyIsTheRest(content: string)
    requires SplitHeader(content).Some?
    ensures var cut := SplitHeader(content).value;
      && cut.header <= content[OpeningLength(content).value..]
      && |cut.body| <= |content| && cut.body == content[|content| - |cut.body|..]
  {
    var s := content[OpeningLength(content).value..];
    RestAfterOpening(s);
    var body := CutAfterOpening(s).value.body;
    assert s[|s| - |body|..] == content[|content| - |body|..];
  }

  lemma BodyIgnoresCause(yaml: string -> Yaml, other: string -> Yaml, content: string, cut: Option<Cut>)
    ensures Parsed(yaml, content, cut).body == Parsed(other, content, cut).body
    ensures Parsed(yaml, content, cut).error.Some? ==> Parsed(yaml, content, cut).data == map[] && cut.Some?
  {
  }

  /** A header the YAML parser refuses fails no document, and leaves its body as any other header does. */
  lemma BodyIgnoresYaml(yaml: string -> Yaml, other: string -> Yaml, content: string)
    ensures Parse(yaml, content).body == Parse(other, content).body
    ensures Parse(yaml, content).error.Some? ==>
      Parse(yaml, content).data == map[] && SplitHeader(content).Some?
  {
    BodyIgnoresCause(yaml, other, content, SplitHeader(content));
  }
}
