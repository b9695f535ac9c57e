/** Paths: the shapes of a note's and a work document's, and which may be rewritten or deleted. */
module Validation {
  import opened Text

  predicate IsDigit(c: char) {
    '0' <= c <= '9'
  }

  /** A character of a slug's words. */
  predicate IsWordChar(c: char) {
    'a' <= c <= 'z' || IsDigit(c)
  }

  predicate AllWordChars(s: string) {
    forall i :: 0 <= i < |s| ==> IsWordChar(s[i])
  }

  /** `YYYY-MM-DD`, whatever the numbers. */
  predicate IsDateShape(s: string) {
    |s| == 10 && forall i :: 0 <= i < 10 ==> if i == 4 || i == 7 then s[i] == '-' else IsDigit(s[i])
  }

  function Number(digits: string): nat
    requires forall i :: 0 <= i < |digits| ==> IsDigit(digits[i])
  {
    if digits == "" then 0
    else
      assert IsDigit(digits[|digits| - 1]);
      10 * Number(digits[..|digits| - 1]) + (digits[|digits| - 1] as int - '0' as int)
  }

  predicate IsLeap(year: nat) {
    year % 4 == 0 && (year % 100 != 0 || year % 400 == 0)
  }

  function DaysIn(year: nat, month: nat): nat {
    if month == 2 then (if IsLeap(year) then 29 else 28)
    else if month in {4, 6, 9, 11} then 30
    else 31
  }

  predicate IsCalendarDate(value: string) {
    && IsDateShape(value)
    && var year, month, day := Number(value[..4]), Number(value[5..7]), Number(value[8..]);
       1 <= month <= 12 && 1 <= day <= DaysIn(year, month)
  }

  const COMMON_YEAR := [31, 28, 31, 30, 31, 30, 31, 31, 30, 31, 30, 31]

  /** The days of the months before this one. */
  function DaysBefore(year: nat, month: nat): nat
    requires 1 <= month <= 13
  {
    if month == 1 then 0 else DaysBefore(year, month - 1) + DaysIn(year, month - 1)
  }

  lemma MonthsAreCommon(year: nat, month: nat)
    requires 1 <= month <= 12
    ensures DaysIn(year, month) == COMMON_YEAR[month - 1] + if month == 2 && IsLeap(year) then 1 else 0
  {
  }

  lemma FourTimes(m: nat)
    ensures (4 * m) % 4 == 0
  {
  }

  /** Of the years that end a century every fourth is a leap year, of the others too. */
  lemma LeapIff(year: nat)
    ensures IsLeap(year) <==> if year % 100 == 0 then year % 400 == 0 else year % 4 == 0
  {
    if year % 100 == 0 {
      var m := 25 * (year / 100);
      assert year == 4 * m;
      FourTimes(m);
    } else if year % 400 == 0 {
      var m := 4 * (year / 400);
      assert year == 100 * m;
    }
  }

  /** A year has 365 days, one more in a leap year. */
  lemma YearsAreGregorian(year: nat)
    ensures DaysBefore(year, 13) == 365 + if IsLeap(year) then 1 else 0
  {
    assert DaysBefore(year, 1) == 0 && DaysBefore(year, 2) == 31;
    assert DaysBefore(year, 3) == 59 + DaysIn(year, 2) - 28 && DaysBefore(year, 4) == DaysBefore(year, 3) + 31;
    assert DaysBefore(year, 5) == DaysBefore(year, 4) + 30 && DaysBefore(year, 6) == DaysBefore(year, 5) + 31;
    assert DaysBefore(year, 7) == DaysBefore(year, 6) + 30 && DaysBefore(year, 8) == DaysBefore(year, 7) + 31;
    assert DaysBefore(year, 9) == DaysBefore(year, 8) + 31 && DaysBefore(year, 10) == DaysBefore(year, 9) + 30;
    assert DaysBefore(year, 11) == DaysBefore(year, 10) + 31 && DaysBefore(year, 12) == DaysBefore(year, 11) + 30;
  }

  /** Words of letters and digits with one hyphen between two. */
  predicate IsKebab(s: string) {
    && s != "" && s[0] != '-' && s[|s| - 1] != '-'
    && (forall i :: 0 <= i < |s| ==> IsWordChar(s[i]) || s[i] == '-')
    && forall i :: 0 < i < |s| && s[i] == '-' ==> s[i - 1] != '-'
  }

  /** `raw/YYYY-MM-DD-<kebab-slug>.md`. */
  predicate IsRawId(id: string) {
    && |id| > 18 && id[..4] == "raw/" && IsDateShape(id[4..14]) && id[14] == '-'
    && id[|id| - 3..] == ".md" && IsKebab(id[15..|id| - 3])
  }

  predicate IsNoteId(id: string) {
    IsRawId(id) && IsCalendarDate(id[4..14])
  }

  const WORK_DOCUMENTS := {"spec", "plan"}

  /** `work/YYYY-MM-DD-<kebab-slug>/` and one of the work documents' names, with `.md`. */
  predicate IsWorkId(id: string) {
    && |id| > 24 && id[..5] == "work/" && IsDateShape(id[5..15]) && id[15] == '-'
    && id[|id| - 8] == '/' && id[|id| - 7..|id| - 3] in WORK_DOCUMENTS && id[|id| - 3..] == ".md"
    && IsKebab(id[16..|id| - 8])
  }

  datatype Refusal = MirrorRefused | RawRewriteRefused | NotAWorkDocument | NotDeletable

  function WritablePath(id: string): Option<Refusal> {
    if "mirror/" <= id then Some(MirrorRefused)
    else if "raw/" <= id then Some(RawRewriteRefused)
    else if !IsWorkId(id) || !IsCalendarDate(id[5..15]) then Some(NotAWorkDocument)
    else None
  }

  function DeletablePath(id: string): Option<Refusal> {
    if "mirror/" <= id then Some(MirrorRefused)
    else if !IsNoteId(id) && !IsWorkId(id) then Some(NotDeletable)
    else None
  }

  /** A note's id says exactly its date and its slug. */
  lemma NoteIdIff(date: string, slug: string)
    requires |date| == 10 && slug != ""
    ensures IsNoteId("raw/" + date + "-" + slug + ".md") <==> IsCalendarDate(date) && IsKebab(slug)
  {
    var id := "raw/" + date + "-" + slug + ".md";
    assert id[..4] == "raw/" && id[4..14] == date && id[14] == '-';
    assert id[|id| - 3..] == ".md" && id[15..|id| - 3] == slug;
  }

  ghost predicate NamesNote(id: string, date: string, slug: string) {
    id == "raw/" + date + "-" + slug + ".md" && IsCalendarDate(date) && IsKebab(slug)
  }

  /** `name` is one of the two work documents. */
  ghost predicate NamesWork(id: string, date: string, slug: string, name: string) {
    && id == "work/" + date + "-" + slug + "/" + name + ".md" && (name == "spec" || name == "plan")
    && IsDateShape(date) && IsKebab(slug)
  }

  lemma NoteIdNames(id: string)
    ensures IsNoteId(id) <==> exists date, slug :: NamesNote(id, date, slug)
  {
    if IsNoteId(id) {
      var date, slug := id[4..14], id[15..|id| - 3];
      assert id == id[..4] + date + [id[14]] + slug + id[|id| - 3..];
      assert NamesNote(id, date, slug);
    }
    if date, slug :| NamesNote(id, date, slug) {
      NoteIdIff(date, slug);
    }
  }

  lemma WorkIdNames(id: string)
    ensures IsWorkId(id) <==> exists date, slug, name :: NamesWork(id, date, slug, name)
    ensures forall date, slug, name :: NamesWork(id, date, slug, name) ==> id[5..15] == date
  {
    if IsWorkId(id) {
      var date, slug, name := id[5..15], id[16..|id| - 8], id[|id| - 7..|id| - 3];
      assert id == id[..5] + date + [id[15]] + slug + [id[|id| - 8]] + name + id[|id| - 3..];
      assert NamesWork(id, date, slug, name);
    }
    forall date, slug, name | NamesWork(id, date, slug, name) ensures IsWorkId(id) && id[5..15] == date {
      var n := |id|;
      assert n == 5 + 10 + 1 + |slug| + 1 + 4 + 3;
      assert id[..5] == "work/" && id[5..15] == date && id[15] == '-' && id[16..n - 8] == slug;
      assert id[n - 8] == '/' && id[n - 7..n - 3] == name && id[n - 3..] == ".md";
    }
  }

  /** What may be written is a work document of a real date; what may be deleted is one of any, or a note of a
      real date. */
  lemma PathsIff(id: string)
    ensures WritablePath(id).None? <==>
      exists date, slug, name :: NamesWork(id, date, slug, name) && IsCalendarDate(date)
    ensures DeletablePath(id).None? <==>
      (exists date, slug, name :: NamesWork(id, date, slug, name)) || exists date, slug :: NamesNote(id, date, slug)
    ensures "mirror/" <= id ==> WritablePath(id) == DeletablePath(id) == Some(MirrorRefused)
    ensures "raw/" <= id ==> WritablePath(id) == Some(RawRewriteRefused)
  {
    WorkIdNames(id);
    NoteIdNames(id);
    assert "mirror/"[0] == 'm' && "raw/"[0] == 'r' && "work/"[0] == 'w';
    if IsWorkId(id) {
      assert id[0] == id[..5][0];
      var date, slug, name :| NamesWork(id, date, slug, name);
    } else if IsNoteId(id) {
      assert id[0] == id[..4][0];
    }
  }

  /** Whatever may be rewritten may be deleted; a note may only be deleted. */
  lemma WhatMayBeRewritten(id: string)
    ensures WritablePath(id).None? ==> DeletablePath(id).None?
    ensures IsNoteId(id) ==> DeletablePath(id).None? && WritablePath(id) == Some(RawRewriteRefused)
  {
    if IsNoteId(id) {
      assert id[0] == id[..4][0] && "raw/" <= id;
      assert !("mirror/" <= id) by {
        assert "mirror/"[0] == 'm';
      }
    }
  }

  // ---- Kebab-case as the grammar has it: words, joined

  ghost predicate AreWords(words: seq<string>) {
    forall i :: 0 <= i < |words| ==> words[i] != "" && AllWordChars(words[i])
  }

  lemma {:induction false} JoinedWordsAreKebab(words: seq<string>)
    requires words != [] && AreWords(words)
    ensures IsKebab(Join(words, "-")) && IsWordChar(Join(words, "-")[0])
  {
    if |words| > 1 {
      JoinedWordsAreKebab(words[1..]);
      var rest := Join(words[1..], "-");
      var s := words[0] + "-" + rest;
      assert forall i :: |words[0]| < i < |s| ==> s[i] == rest[i - |words[0]| - 1];
    }
  }

  function WordLength(s: string): (n: nat)
    ensures n <= |s| && AllWordChars(s[..n])
    ensures n < |s| ==> !IsWordChar(s[n])
  {
    if s == "" || !IsWordChar(s[0]) then 0
    else
      assert s[..1 + WordLength(s[1..])] == [s[0]] + s[1..][..WordLength(s[1..])];
      1 + WordLength(s[1..])
  }

  lemma {:induction false} KebabIsJoinedWords(s: string) returns (words: seq<string>)
    requires IsKebab(s)
    ensures words != [] && AreWords(words) && Join(words, "-") == s
    decreases |s|
  {
    var n := WordLength(s);
    if n == |s| {
      assert s[..n] == s;
      words := [s];
    } else {
      assert n > 0 && s[n] == '-';
      var rest := s[n + 1..];
      assert rest != "";
      assert forall i :: 0 <= i < |rest| ==> rest[i] == s[n + 1 + i];
      var more := KebabIsJoinedWords(rest);
      words := [s[..n]] + more;
      assert words[1..] == more;
      assert s == s[..n] + "-" + rest;
    }
  }

  /** The scan for kebab-case accepts exactly what `[a-z0-9]+(-[a-z0-9]+)*` matches. */
  lemma KebabIff(s: string)
    ensures IsKebab(s) <==> exists words :: words != [] && AreWords(words) && Join(words, "-") == s
  {
    if IsKebab(s) {
      var words := KebabIsJoinedWords(s);
    }
    forall words | words != [] && AreWords(words) && Join(words, "-") == s ensures IsKebab(s) {
      JoinedWordsAreKebab(words);
    }
  }
}
