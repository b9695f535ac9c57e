/** Strings, lines and joins, as the markdown code handles them. */
module Text {
  datatype Option<+T> = None | Some(value: T)

  /** What JavaScript's `trimEnd` and `\s` take for white space. */
  predicate IsSpace(c: char) {
    || '\t' <= c <= '\r'
    || c in {' ', '\U{00A0}', '\U{1680}', '\U{2028}', '\U{2029}', '\U{202F}', '\U{205F}', '\U{3000}', '\U{FEFF}'}
    || '\U{2000}' <= c <= '\U{200A}'
  }

  predicate IsBlank(c: char) {
    c == ' ' || c == '\t'
  }

  predicate AllSpace(s: string) {
    forall i :: 0 <= i < |s| ==> IsSpace(s[i])
  }

  predicate AllBlank(s: string) {
    forall i :: 0 <= i < |s| ==> IsBlank(s[i])
  }

  /** How many times `c` is repeated at the start of `s`. */
  function Run(s: string, c: char): (n: nat)
    ensures n <= |s|
    ensures forall i :: 0 <= i < n ==> s[i] == c
    ensures n < |s| ==> s[n] != c
  {
    if s == "" || s[0] != c then 0 else 1 + Run(s[1..], c)
  }

  function DropBlanks(s: string): (r: string)
    ensures |r| <= |s|
    ensures r != "" ==> !IsBlank(r[0])
  {
    if s != "" && IsBlank(s[0]) then DropBlanks(s[1..]) else s
  }

  lemma {:induction false} BlanksDropped(gap: string, rest: string)
    requires AllBlank(gap) && (rest != "" ==> !IsBlank(rest[0]))
    ensures DropBlanks(gap + rest) == rest
  {
    if gap == "" {
      assert gap + rest == rest;
    } else {
      assert (gap + rest)[1..] == gap[1..] + rest;
      BlanksDropped(gap[1..], rest);
    }
  }

  lemma {:induction false} DropBlanksSplits(s: string) returns (gap: string)
    ensures s == gap + DropBlanks(s) && AllBlank(gap)
  {
    gap := "";
    if s != "" && IsBlank(s[0]) {
      var rest := DropBlanksSplits(s[1..]);
      gap := [s[0]] + rest;
    }
  }

  function DropSpaces(s: string): (r: string)
    ensures |r| <= |s|
    ensures r != "" ==> !IsSpace(r[0])
  {
    if s != "" && IsSpace(s[0]) then DropSpaces(s[1..]) else s
  }

  function TrimEnd(s: string): (r: string)
    ensures r <= s
    ensures r != "" ==> !IsSpace(r[|r| - 1])
    ensures AllSpace(s[|r|..])
  {
    if s != "" && IsSpace(s[|s| - 1]) then TrimEnd(s[..|s| - 1]) else s
  }

  function Concat<T>(xss: seq<seq<T>>): seq<T> {
    if xss == [] then [] else xss[0] + Concat(xss[1..])
  }

  lemma Associate<T>(a: seq<T>, b: seq<T>, c: seq<T>)
    ensures a + (b + c) == (a + b) + c
  {
  }

  lemma {:induction false} ConcatAppend<T>(xss: seq<seq<T>>, yss: seq<seq<T>>)
    ensures Concat(xss + yss) == Concat(xss) + Concat(yss)
  {
    if xss == [] {
      assert xss + yss == yss;
    } else {
      ConcatAppend(xss[1..], yss);
      assert (xss + yss)[1..] == xss[1..] + yss && (xss + yss)[0] == xss[0];
      assert Concat(xss) == xss[0] + Concat(xss[1..]);
    }
  }

  lemma ConcatOne<T>(xss: seq<seq<T>>, xs: seq<T>)
    ensures Concat(xss + [xs]) == Concat(xss) + xs
  {
    ConcatAppend(xss, [xs]);
    assert Concat([xs]) == xs;
  }

  /** Where an element of a concatenation comes from. */
  lemma {:induction false} ConcatAt<T>(xss: seq<seq<T>>, k: nat) returns (i: nat, j: nat)
    requires k < |Concat(xss)|
    ensures i < |xss| && j < |xss[i]| && xss[i][j] == Concat(xss)[k]
  {
    if k < |xss[0]| {
      i, j := 0, k;
    } else {
      i, j := ConcatAt(xss[1..], k - |xss[0]|);
      i := i + 1;
    }
  }

  lemma {:induction false} ConcatHas<T>(xss: seq<seq<T>>, i: nat, j: nat) returns (k: nat)
    requires i < |xss| && j < |xss[i]|
    ensures k < |Concat(xss)| && Concat(xss)[k] == xss[i][j]
  {
    if i == 0 {
      k := j;
    } else {
      k := ConcatHas(xss[1..], i - 1, j);
      k := |xss[0]| + k;
    }
  }

  function Map<A, B>(f: A -> B, xs: seq<A>): (ys: seq<B>)
    ensures |ys| == |xs|
    ensures forall i :: 0 <= i < |xs| ==> ys[i] == f(xs[i])
  {
    if xs == [] then [] else [f(xs[0])] + Map(f, xs[1..])
  }

  lemma {:induction false} MapAppend<A, B>(f: A -> B, xs: seq<A>, ys: seq<A>)
    ensures Map(f, xs + ys) == Map(f, xs) + Map(f, ys)
  {
  }

  /** `parts.join(separator)`. */
  function Join(parts: seq<string>, separator: string): string {
    if |parts| == 0 then ""
    else if |parts| == 1 then parts[0]
    else parts[0] + separator + Join(parts[1..], separator)
  }

  lemma {:induction false} JoinAppend(parts: seq<string>, last: string, separator: string)
    requires parts != []
    ensures Join(parts + [last], separator) == Join(parts, separator) + separator + last
  {
    var all := parts + [last];
    assert all[1..] == parts[1..] + [last];
    if |parts| == 1 {
      assert all[1..] == [last];
    } else {
      JoinAppend(parts[1..], last, separator);
      assert Join(all, separator) == parts[0] + separator + (Join(parts[1..], separator) + separator + last);
    }
  }

  /** `s.split('\n')`. */
  function SplitLines(s: string): (lines: seq<string>)
    ensures |lines| >= 1
    ensures forall i :: 0 <= i < |lines| ==> '\n' !in lines[i]
  {
    if s == "" then [""]
    else
      var rest := SplitLines(s[1..]);
      if s[0] == '\n' then [""] + rest else [[s[0]] + rest[0]] + rest[1..]
  }

  lemma {:induction false} JoinOfSplit(s: string)
    ensures Join(SplitLines(s), "\n") == s
  {
    if s != "" {
      JoinOfSplit(s[1..]);
      var rest := SplitLines(s[1..]);
      var lines := SplitLines(s);
      if s[0] == '\n' {
        assert lines[1..] == rest;
      } else {
        assert lines[1..] == rest[1..];
      }
    }
  }

  /** Splitting text that goes on after a line break splits at that break. */
  lemma {:induction false} SplitAtBreak(line: string, rest: string)
    requires '\n' !in line
    ensures SplitLines(line + "\n" + rest) == [line] + SplitLines(rest)
  {
    var s := line + "\n" + rest;
    if line == "" {
      assert s[1..] == rest;
    } else {
      assert line[0] in line;
      SplitAtBreak(line[1..], rest);
      assert s[1..] == line[1..] + "\n" + rest;
      assert [line[0]] + line[1..] == line;
    }
  }

  lemma {:induction false} SplitWithoutBreak(line: string)
    requires '\n' !in line
    ensures SplitLines(line) == [line]
  {
    if line != "" {
      assert line[0] in line;
      SplitWithoutBreak(line[1..]);
      assert [line[0]] + line[1..] == line;
    }
  }

  lemma {:induction false} SplitOfJoin(lines: seq<string>)
    requires lines != []
    requires forall i :: 0 <= i < |lines| ==> '\n' !in lines[i]
    ensures SplitLines(Join(lines, "\n")) == lines
  {
    if |lines| == 1 {
      SplitWithoutBreak(lines[0]);
    } else {
      SplitOfJoin(lines[1..]);
      SplitAtBreak(lines[0], Join(lines[1..], "\n"));
    }
  }

  ghost predicate Unbroken(lines: seq<string>) {
    forall k :: 0 <= k < |lines| ==> '\n' !in lines[k]
  }

  ghost predicate AllUnbroken(blocks: seq<seq<string>>) {
    forall i :: 0 <= i < |blocks| ==> Unbroken(blocks[i])
  }

  /** What is left of a text without its white space. */
  function Ink(s: string): string {
    if s == "" then "" else (if IsSpace(s[0]) then "" else [s[0]]) + Ink(s[1..])
  }

  lemma {:induction false} InkAppend(a: string, b: string)
    ensures Ink(a + b) == Ink(a) + Ink(b)
  {
    if a == "" {
      assert a + b == b;
    } else {
      InkAppend(a[1..], b);
      assert (a + b)[1..] == a[1..] + b && (a + b)[0] == a[0];
      Associate(if IsSpace(a[0]) then "" else [a[0]], Ink(a[1..]), Ink(b));
    }
  }

  lemma {:induction false} NoInkInSpace(s: string)
    requires AllSpace(s)
    ensures Ink(s) == ""
  {
    if s != "" {
      NoInkInSpace(s[1..]);
    }
  }

  lemma {:induction false} InkOfJoin(parts: seq<string>)
    ensures Ink(Join(parts, "\n")) == Ink(Concat(parts))
  {
    if |parts| == 1 {
      assert parts[1..] == [] && Concat(parts) == parts[0] + "" == parts[0];
    } else if parts != [] {
      var rest := parts[1..];
      InkOfJoin(rest);
      InkAppend(parts[0], Concat(rest));
      InkAppend(parts[0] + "\n", Join(rest, "\n"));
      InkAppend(parts[0], "\n");
      NoInkInSpace("\n");
    }
  }

  /** A line with the `\r` of a `\r\n` break taken off. */
  function WithoutReturn(line: string): string {
    if line != "" && line[|line| - 1] == '\r' then line[..|line| - 1] else line
  }

  /** `markdown.split(/\r?\n/)`: the last line has no break after it, so it keeps a trailing `\r`. */
  function MarkdownLines(markdown: string): (lines: seq<string>)
    ensures |lines| >= 1
    ensures forall i :: 0 <= i < |lines| ==> '\n' !in lines[i]
  {
    var raw := SplitLines(markdown);
    Map(WithoutReturn, raw[..|raw| - 1]) + [raw[|raw| - 1]]
  }

  /** `[...new Set(xs)]`: the list without repetitions, first occurrences kept. */
  function Deduplicate<T(==)>(xs: seq<T>): seq<T>
    decreases |xs|
  {
    if xs == [] then []
    else
      var n := |xs| - 1;
      var rest := Deduplicate(xs[..n]);
      if xs[n] in rest then rest else rest + [xs[n]]
  }

  lemma {:induction false} DeduplicateKeepsElements<T>(xs: seq<T>)
    ensures forall x :: x in Deduplicate(xs) <==> x in xs
    ensures forall i, j :: 0 <= i < j < |Deduplicate(xs)| ==> Deduplicate(xs)[i] != Deduplicate(xs)[j]
    decreases |xs|
  {
    if xs != [] {
      var n := |xs| - 1;
      DeduplicateKeepsElements(xs[..n]);
      assert xs == xs[..n] + [xs[n]];
    }
  }
}
