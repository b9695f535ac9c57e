/** What a YAML header is, told by the text around it: what the scanner for one accepts. */
module HeaderGrammar {
  import opened Text
  import opened Frontmatters

  predicate IsBreak(s: string) {
    s == "\n" || s == "\r\n"
  }

  ghost predicate ClosingAs(closing: string, body: string, mark: string, gap: string, end: string) {
    && closing == mark + (gap + end) && (mark == "---" || mark == "...") && AllBlank(gap)
    && (IsBreak(end) || (end == "" && body == ""))
  }

  /** A closing line, up to and with its break; only the last line of a text may lack that. */
  ghost predicate ClosingLine(closing: string, body: string) {
    exists mark: string, gap: string, end: string :: ClosingAs(closing, body, mark, gap, end)
  }

  ghost predicate OpeningAs(opening: string, bom: string, gap: string, end: string) {
    && opening == bom + ("---" + (gap + end)) && (bom == "" || bom == [BYTE_ORDER_MARK]) && AllBlank(gap)
      && IsBreak(end)
  }

  /** An opening line, behind a byte order mark perhaps. */
  ghost predicate OpeningLine(opening: string) {
    exists bom: string, gap: string, end: string :: OpeningAs(opening, bom, gap, end)
  }

  lemma BreakIsRead(end: string, rest: string)
    requires IsBreak(end)
    ensures BreakLength(end + rest) == |end| && (end + rest)[|end|..] == rest
  {
  }

  lemma BreakSplits(s: string) returns (end: string)
    requires BreakLength(s) > 0
    ensures IsBreak(end) && s == end + s[BreakLength(s)..] && |end| == BreakLength(s)
  {
    end := s[..BreakLength(s)];
  }

  lemma Regrouped(a: string, b: string, c: string, d: string)
    ensures (a + (b + c)) + d == a + (b + (c + d))
  {
    Associate(a, b + c, d);
    Associate(b, c, d);
  }

  lemma ClosingIsRead(closing: string, body: string)
    requires ClosingLine(closing, body)
    ensures ClosingLength(closing + body) == Some(|closing|) && (closing + body)[|closing|..] == body
  {
    var mark, gap, end :| ClosingAs(closing, body, mark, gap, end);
    var s := closing + body;
    Regrouped(mark, gap, end, body);
    assert mark <= s && s[3..] == gap + (end + body);
    BlanksDropped(gap, end + body);
    if end != "" {
      BreakIsRead(end, body);
    }
  }

  lemma ClosingSplits(s: string) returns (closing: string)
    requires ClosingLength(s).Some?
    ensures var body := s[ClosingLength(s).value..]; s == closing + body && ClosingLine(closing, body)
  {
    var mark, rest := s[..3], DropBlanks(s[3..]);
    var gap := DropBlanksSplits(s[3..]);
    var end := "";
    if rest != "" {
      end := BreakSplits(rest);
    }
    var body := rest[|end|..];
    closing := mark + (gap + end);
    assert s == mark + (gap + rest) && rest == end + body;
    Regrouped(mark, gap, end, body);
    assert ClosingAs(closing, body, mark, gap, end);
    ClosingIsRead(closing, body);
  }

  lemma OpeningIsRead(opening: string, rest: string)
    requires OpeningLine(opening)
    ensures OpeningLength(opening + rest) == Some(|opening|) && (opening + rest)[|opening|..] == rest
  {
    var bom, gap, end :| OpeningAs(opening, bom, gap, end);
    var content, line := opening + rest, "---" + (gap + (end + rest));
    Associate(bom, "---" + (gap + end), rest);
    Regrouped("---", gap, end, rest);
    assert content == bom + line && line[0] == '-';
    assert (if content != "" && content[0] == BYTE_ORDER_MARK then content[1..] else content) == line;
    assert "---" <= line && line[3..] == gap + (end + rest);
    BlanksDropped(gap, end + rest);
    BreakIsRead(end, rest);
  }

  lemma OpeningSplits(content: string) returns (opening: string)
    requires OpeningLength(content).Some?
    ensures content == opening + content[OpeningLength(content).value..] && OpeningLine(opening)
  {
    var marked := content != "" && content[0] == BYTE_ORDER_MARK;
    var bom := if marked then [BYTE_ORDER_MARK] else "";
    var line := if marked then content[1..] else content;
    var rest := DropBlanks(line[3..]);
    var gap := DropBlanksSplits(line[3..]);
    var end := BreakSplits(rest);
    var body := rest[|end|..];
    opening := bom + ("---" + (gap + end));
    assert content == bom + line && line == "---" + (gap + rest) && rest == end + body;
    Regrouped("---", gap, end, body);
    Associate(bom, "---" + (gap + end), body);
    assert OpeningAs(opening, bom, gap, end);
    OpeningIsRead(opening, body);
  }

  ghost predicate ClosesAs(s: string, end: string, closing: string, body: string) {
    s == end + (closing + body) && IsBreak(end) && ClosingLine(closing, body)
  }

  /** A line break with a closing line after it stands here. */
  ghost predicate ClosesAt(s: string) {
    exists end: string, closing: string, body: string :: ClosesAs(s, end, closing, body)
  }

  lemma CloseIsRead(s: string, end: string, closing: string, body: string)
    requires ClosesAs(s, end, closing, body)
    ensures ClosesHere(s) && s[CloseHere(s).value..] == body
  {
    BreakIsRead(end, closing + body);
    ClosingIsRead(closing, body);
    assert s[|end| + |closing|..] == (closing + body)[|closing|..];
  }

  lemma CloseSplits(s: string) returns (end: string, closing: string)
    requires ClosesHere(s)
    ensures ClosesAs(s, end, closing, s[CloseHere(s).value..])
  {
    var n := BreakLength(s);
    end := BreakSplits(s);
    closing := ClosingSplits(s[n..]);
    assert s[n..][ClosingLength(s[n..]).value..] == s[CloseHere(s).value..];
  }

  lemma ClosesAtIff(s: string)
    ensures ClosesAt(s) <==> ClosesHere(s)
  {
    if ClosesHere(s) {
      var end, closing := CloseSplits(s);
    }
    if end: string, closing: string, body: string :| ClosesAs(s, end, closing, body) {
      CloseIsRead(s, end, closing, body);
    }
  }

  ghost predicate CutsAs(s: string, header: string, end: string, closing: string, body: string) {
    && s == header + (end + (closing + body)) && ClosesAs(end + (closing + body), end, closing, body)
    && forall k :: 0 <= k < |header| ==> !ClosesAt(s[k..])
  }

  /** The header ends at the first break that a closing line follows. */
  ghost predicate CutsAt(s: string, header: string, body: string) {
    exists end: string, closing: string :: CutsAs(s, header, end, closing, body)
  }

  /** Without one, a closing line right after the opening one closes an empty header. */
  ghost predicate EmptyAt(s: string, header: string, body: string) {
    && header == "" && (forall k :: 0 <= k <= |s| ==> !ClosesAt(s[k..]))
    && exists closing: string :: s == closing + body && ClosingLine(closing, body)
  }

  lemma HeaderEndsHere(s: string, header: string, rest: string)
    requires s == header + rest && ClosesHere(rest) && forall k :: 0 <= k < |header| ==> !ClosesHere(s[k..])
    ensures HeaderLength(s) == Some(|header|) && s[|header|..] == rest && s[..|header|] == header
  {
    assert s[|header|..] == rest;
    FirstWhereSkips(ClosesHere, s, |header|);
  }

  lemma RestOfRest(s: string, header: string, rest: string, n: nat)
    requires s == header + rest && n <= |rest|
    ensures s[|header| + n..] == rest[n..]
  {
  }

  lemma HeaderIsRead(s: string, header: string, end: string, closing: string, body: string)
    requires CutsAs(s, header, end, closing, body)
    ensures CutAfterOpening(s) == Some(Cut(header, body))
  {
    var rest := end + (closing + body);
    CloseIsRead(rest, end, closing, body);
    forall k | 0 <= k < |header| ensures !ClosesHere(s[k..]) {
      ClosesAtIff(s[k..]);
    }
    HeaderEndsHere(s, header, rest);
    RestOfRest(s, header, rest, CloseHere(rest).value);
  }

  lemma EmptyIsRead(s: string, header: string, body: string)
    requires EmptyAt(s, header, body)
    ensures CutAfterOpening(s) == Some(Cut(header, body))
  {
    var closing: string :| s == closing + body && ClosingLine(closing, body);
    ClosingIsRead(closing, body);
    if HeaderLength(s).Some? {
      ClosesAtIff(s[HeaderLength(s).value..]);
    }
  }

  lemma ReadIsCut(s: string, n: nat, header: string, rest: string, body: string)
    requires s == header + rest && n == |header| && ClosesHere(rest) && body == rest[CloseHere(rest).value..]
    requires forall k :: 0 <= k < n ==> !ClosesAt(s[k..])
    ensures CutsAt(s, header, body)
  {
    var end, closing := CloseSplits(rest);
    assert CutsAs(s, header, end, closing, body);
  }

  lemma NothingClosesBefore(s: string, k: nat)
    requires k <= |s| && (HeaderLength(s).Some? ==> k < HeaderLength(s).value)
    ensures !ClosesAt(s[k..])
  {
    FirstWhereIsFirst(ClosesHere, s, k);
    ClosesAtIff(s[k..]);
  }

  lemma ReadIsHeader(s: string)
    requires CutAfterOpening(s).Some?
    ensures var cut := CutAfterOpening(s).value; CutsAt(s, cut.header, cut.body) || EmptyAt(s, cut.header, cut.body)
  {
    var n := HeaderLength(s);
    forall k | 0 <= k <= |s| && (n.Some? ==> k < n.value) ensures !ClosesAt(s[k..]) {
      NothingClosesBefore(s, k);
    }
    if n.Some? {
      var header, rest := s[..n.value], s[n.value..];
      assert s == header + rest;
      RestOfRest(s, header, rest, CloseHere(rest).value);
      ReadIsCut(s, n.value, header, rest, rest[CloseHere(rest).value..]);
    } else {
      var closing := ClosingSplits(s);
    }
  }

  ghost predicate HeaderAs(content: string, opening: string, rest: string, header: string, body: string) {
    && content == opening + rest && OpeningLine(opening)
    && (CutsAt(rest, header, body) || EmptyAt(rest, header, body))
  }

  /** A document has this header and this body exactly when it is so written. */
  lemma SplitHeaderIff(content: string, header: string, body: string)
    ensures SplitHeader(content) == Some(Cut(header, body)) <==>
      exists opening: string, rest: string :: HeaderAs(content, opening, rest, header, body)
  {
    if SplitHeader(content) == Some(Cut(header, body)) {
      var opening := OpeningSplits(content);
      var rest := content[OpeningLength(content).value..];
      ReadIsHeader(rest);
      assert HeaderAs(content, opening, rest, header, body);
    }
    if opening: string, rest: string :| HeaderAs(content, opening, rest, header, body) {
      OpeningIsRead(opening, rest);
      if CutsAt(rest, header, body) {
        var end, closing :| CutsAs(rest, header, end, closing, body);
        HeaderIsRead(rest, header, end, closing, body);
      } else {
        EmptyIsRead(rest, header, body);
      }
    }
  }
}
