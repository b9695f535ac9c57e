/** Heading anchors, made unique across one document. */
module Slugs {
  import opened Text

  function Digit(n: nat): (c: char)
    requires n < 10
    ensures '0' <= c <= '9'
  {
    '0' + (n as char)
  }

  function Decimal(n: nat): (s: string)
    ensures s != ""
    ensures forall i :: 0 <= i < |s| ==> '0' <= s[i] <= '9'
    decreases n
  {
    if n < 10 then [Digit(n)] else Decimal(n / 10) + [Digit(n % 10)]
  }

  lemma {:induction false} DecimalInjective(a: nat, b: nat)
    requires Decimal(a) == Decimal(b)
    ensures a == b
    decreases a
  {
    var s := Decimal(a);
    assert Digit(a % 10) == s[|s| - 1] == Digit(b % 10);
    assert a >= 10 ==> Decimal(a / 10) == s[..|s| - 1];
    assert b >= 10 ==> Decimal(b / 10) == s[..|s| - 1];
    if a >= 10 && b >= 10 {
      DecimalInjective(a / 10, b / 10);
    }
  }

  function Numbered(original: string, n: nat): string {
    original + "-" + Decimal(n)
  }

  lemma NumberedInjective(original: string, a: nat, b: nat)
    requires Numbered(original, a) == Numbered(original, b)
    ensures a == b
  {
    var prefix := original + "-";
    assert Decimal(a) == Numbered(original, a)[|prefix|..];
    assert Decimal(b) == Numbered(original, b)[|prefix|..];
    DecimalInjective(a, b);
  }

  /** The first number from `from` on whose slug is free. Each taken candidate is looked at once. */
  function FirstFree(taken: set<string>, original: string, from: nat): nat
    decreases taken
  {
    var candidate := Numbered(original, from);
    if candidate in taken then FirstFree(taken - {candidate}, original, from + 1) else from
  }

  lemma {:induction false} FirstFreeIsLeast(taken: set<string>, original: string, from: nat)
    ensures from <= FirstFree(taken, original, from)
    ensures Numbered(original, FirstFree(taken, original, from)) !in taken
    ensures forall n :: from <= n < FirstFree(taken, original, from) ==> Numbered(original, n) in taken
    decreases taken
  {
    var candidate := Numbered(original, from);
    if candidate in taken {
      var rest := taken - {candidate};
      FirstFreeIsLeast(rest, original, from + 1);
      var free := FirstFree(rest, original, from + 1);
      if Numbered(original, free) == candidate {
        NumberedInjective(original, free, from);
      }
    }
  }

  /** The number is the only one that is free with everything below it taken. */
  lemma FirstFreeIsUnique(taken: set<string>, original: string, from: nat, n: nat)
    requires from <= n && Numbered(original, n) !in taken
    requires forall i :: from <= i < n ==> Numbered(original, i) in taken
    ensures FirstFree(taken, original, from) == n
  {
    FirstFreeIsLeast(taken, original, from);
    var free := FirstFree(taken, original, from);
    assert Numbered(original, free) !in taken;
  }

  /** The slug by the documented rule alone: the text, else the text with the least free number. */
  function SlugFor(taken: set<string>, original: string): string {
    if original !in taken then original else Numbered(original, FirstFree(taken, original, 1))
  }

  lemma SlugIsFree(taken: set<string>, original: string)
    ensures SlugFor(taken, original) !in taken
  {
    FirstFreeIsLeast(taken, original, 1);
  }

  /** The slugs of a run of headings. */
  function SlugsOf(taken: set<string>, originals: seq<string>): (slugs: seq<string>)
    ensures |slugs| == |originals|
    decreases |originals|
  {
    if originals == [] then [] else
      var slug := SlugFor(taken, originals[0]);
      [slug] + SlugsOf(taken + {slug}, originals[1..])
  }

  ghost predicate NoneIn<T>(xs: seq<T>, taken: set<T>) {
    forall i :: 0 <= i < |xs| ==> xs[i] !in taken
  }

  ghost predicate Distinct<T>(xs: seq<T>) {
    forall i, j :: 0 <= i < j < |xs| ==> xs[i] != xs[j]
  }

  /** No slug repeats, whatever the headings are, colliding with numbered ones included. */
  lemma {:induction false} SlugsAreDistinct(taken: set<string>, originals: seq<string>)
    ensures NoneIn(SlugsOf(taken, originals), taken)
    ensures Distinct(SlugsOf(taken, originals))
    decreases |originals|
  {
    if originals != [] {
      var slug := SlugFor(taken, originals[0]);
      SlugIsFree(taken, originals[0]);
      SlugsAreDistinct(taken + {slug}, originals[1..]);
      var rest := SlugsOf(taken + {slug}, originals[1..]);
      assert NoneIn(rest, taken + {slug});
      assert SlugsOf(taken, originals) == [slug] + rest;
    }
  }

  /** Every number up to a slug's counter is already taken: why the counter may skip them. */
  ghost predicate Counted(occurrences: map<string, nat>) {
    forall slug, n :: slug in occurrences && 1 <= n <= occurrences[slug] ==> Numbered(slug, n) in occurrences
  }

  class GithubSlugger {
    const slugify: string -> string
    var occurrences: map<string, nat>

    constructor (slugify: string -> string)
      ensures this.slugify == slugify
      ensures occurrences == map[] && Counted(occurrences)
    {
      this.slugify := slugify;
      occurrences := map[];
    }

    /** The counters make the search short; they do not change what it finds. */
    method Slug(text: string) returns (result: string)
      requires Counted(occurrences)
      modifies this
      ensures Counted(occurrences)
      ensures result == SlugFor(old(occurrences.Keys), slugify(text))
      ensures occurrences.Keys == old(occurrences.Keys) + {result}
    {
      var original := slugify(text);
      result := original;
      ghost var taken := occurrences.Keys;
      ghost var unseen := taken;
      ghost var n := 0;
      while result in occurrences
        invariant occurrences.Keys == taken
        invariant result == if n == 0 then original else Numbered(original, n)
        invariant n > 0 ==> original in taken && occurrences[original] == n
        invariant forall slug, i :: slug in occurrences && 1 <= i <= occurrences[slug] ==>
          Numbered(slug, i) in occurrences || (slug == original && i == n)
        invariant forall i :: 1 <= i < n ==> Numbered(original, i) in taken
        invariant forall i :: n <= i && i > 0 && Numbered(original, i) in taken ==> Numbered(original, i) in unseen
        decreases n == 0, unseen
      {
        var next := (if original in occurrences then occurrences[original] else 0) + 1;
        if n > 0 {
          forall i | next <= i && Numbered(original, i) in taken
            ensures Numbered(original, i) in unseen - {result}
          {
            if Numbered(original, i) == result {
              NumberedInjective(original, i, n);
            }
          }
          unseen := unseen - {result};
        }
        occurrences := occurrences[original := next];
        result := Numbered(original, next);
        n := next;
      }
      if n > 0 {
        FirstFreeIsUnique(taken, original, 1, n);
      }
      occurrences := occurrences[result := 0];
    }
  }
}
