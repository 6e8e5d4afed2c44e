/**
 * clean_filename (telegram_bot.py:13-17): four rewrites of a song title
 * before it becomes a file name, and the join of that name onto the
 * downloads directory (telegram_bot.py:91-92).
 */
module Filenames {
  import opened Lines

  /** The class `[<>:"/\\|?*]` whose runs the first substitution deletes. */
  predicate IsForbidden(c: char) {
    c == '<' || c == '>' || c == ':' || c == '"' || c == '/' || c == '\\' || c == '|' || c == '?' || c == '*'
  }

  /** The class `[ \-+=,./]` that the second substitution turns into spaces. */
  predicate IsSeparator(c: char) {
    c == ' ' || c == '-' || c == '+' || c == '=' || c == ',' || c == '.' || c == '/'
  }

  /**
   * Python's whitespace: what `\s` matches in a str pattern and what
   * str.strip() removes (both use str.isspace).
   */
  predicate IsWhitespace(c: char) {
    || ('\t' <= c <= '\r')
    || ('\U{1C}' <= c <= ' ')
    || c == '\U{85}' || c == '\U{A0}' || c == '\U{1680}'
    || ('\U{2000}' <= c <= '\U{200A}')
    || c == '\U{2028}' || c == '\U{2029}' || c == '\U{202F}' || c == '\U{205F}' || c == '\U{3000}'
  }

  /** A character none of the four rewrites removes or replaces. */
  predicate IsSignificant(c: char) {
    !IsForbidden(c) && !IsSeparator(c) && !IsWhitespace(c)
  }

  /** The significant characters of s, in order. */
  function Significant(s: string): string {
    if s == [] then [] else (if IsSignificant(s[0]) then [s[0]] else []) + Significant(s[1..])
  }

  /** Everything the clean-up promises of its result. */
  predicate IsClean(t: string) {
    && NoForbiddenOrSeparator(t)
    && OnlySpaceWhitespace(t)
    && NoAdjacentWhitespace(t)
    && (t != [] ==> !IsWhitespace(t[0]) && !IsWhitespace(t[|t| - 1]))
  }

  /** None of `<>:"/\|?*-+=,.`: the only separator left is the space. */
  predicate NoForbiddenOrSeparator(t: string) {
    forall i :: 0 <= i < |t| ==> !IsForbidden(t[i]) && (IsSeparator(t[i]) ==> t[i] == ' ')
  }

  /** The only whitespace character is ' '. */
  predicate OnlySpaceWhitespace(t: string) {
    forall i :: 0 <= i < |t| ==> IsWhitespace(t[i]) ==> t[i] == ' '
  }

  predicate NoAdjacentWhitespace(t: string) {
    forall i :: 0 <= i < |t| - 1 ==> !(IsWhitespace(t[i]) && IsWhitespace(t[i + 1]))
  }

  /** re.sub(r'[<>:"/\\|?*]+', '', s): deleting each run is deleting each character. */
  function DeleteForbidden(s: string): string
  {
    if s == [] then []
    else if IsForbidden(s[0]) then DeleteForbidden(s[1..])
    else [s[0]] + DeleteForbidden(s[1..])
  }

  /**
   * The first rewrite leaves no forbidden character, changes nothing when
   * there is none, keeps every significant character, and adds nothing.
   */
  lemma {:induction false} DeleteForbiddenMeaning(s: string)
    ensures var r := DeleteForbidden(s);
      && (forall i :: 0 <= i < |r| ==> !IsForbidden(r[i]))
      && ((forall i :: 0 <= i < |s| ==> !IsForbidden(s[i])) ==> r == s)
      && Significant(r) == Significant(s)
      && (forall i :: 0 <= i < |r| ==> r[i] in s)
  {
    if s != [] {
      DeleteForbiddenMeaning(s[1..]);
      assert s == [s[0]] + s[1..];
    }
  }

  /**
   * The first rewrite works character by character: it distributes over
   * concatenation, so with DeleteForbiddenMeaning on one character it keeps
   * exactly the characters that are not forbidden, in their order.
   */
  lemma {:induction false} DeleteForbiddenAppend(a: string, b: string)
    ensures DeleteForbidden(a + b) == DeleteForbidden(a) + DeleteForbidden(b)
  {
    if a != [] {
      DeleteForbiddenAppend(a[1..], b);
      assert (a + b)[1..] == a[1..] + b;
    } else {
      assert a + b == b;
    }
  }

  /** re.sub(r'[ \-+=,./]', ' ', s) */
  function SeparatorsToSpaces(s: string): string
  {
    if s == [] then []
    else [if IsSeparator(s[0]) then ' ' else s[0]] + SeparatorsToSpaces(s[1..])
  }

  /** The second rewrite turns every separator into one space and moves nothing. */
  lemma {:induction false} SeparatorsToSpacesMeaning(s: string)
    ensures var r := SeparatorsToSpaces(s);
      && |r| == |s|
      && (forall i :: 0 <= i < |s| ==> r[i] == (if IsSeparator(s[i]) then ' ' else s[i]))
      && Significant(r) == Significant(s)
  {
    if s != [] {
      SeparatorsToSpacesMeaning(s[1..]);
      var r := SeparatorsToSpaces(s);
      assert r[1..] == SeparatorsToSpaces(s[1..]);
    }
  }

  /** s.lstrip() */
  function DropLeadingWhitespace(s: string): string
  {
    if s != [] && IsWhitespace(s[0]) then DropLeadingWhitespace(s[1..]) else s
  }

  /** lstrip drops at least one character when there is leading whitespace. */
  lemma {:induction false} DropLeadingWhitespaceShrinks(s: string)
    requires s != [] && IsWhitespace(s[0])
    ensures |DropLeadingWhitespace(s)| < |s|
    decreases |s|
  {
    if |s| > 1 && IsWhitespace(s[1]) {
      DropLeadingWhitespaceShrinks(s[1..]);
    }
  }

  /** lstrip drops the leading whitespace, and only that. */
  lemma {:induction false} DropLeadingWhitespaceMeaning(s: string)
    ensures var r := DropLeadingWhitespace(s);
      && |r| <= |s| && r == s[|s| - |r|..]
      && (r == [] || !IsWhitespace(r[0]))
      && (forall i :: 0 <= i < |s| - |r| ==> IsWhitespace(s[i]))
      && Significant(r) == Significant(s)
  {
    if s != [] && IsWhitespace(s[0]) {
      var t := s[1..];
      DropLeadingWhitespaceMeaning(t);
      var r := DropLeadingWhitespace(t);
      assert DropLeadingWhitespace(s) == r;
      assert t[|t| - |r|..] == s[|s| - |r|..];
      forall i | 0 <= i < |s| - |r| ensures IsWhitespace(s[i]) {
        if i > 0 { assert s[i] == t[i - 1]; }
      }
      assert Significant(s) == Significant(t) by {
        assert !IsSignificant(s[0]);
      }
    }
  }

  /** s.rstrip() */
  function DropTrailingWhitespace(s: string): string
  {
    if s != [] && IsWhitespace(s[|s| - 1]) then DropTrailingWhitespace(s[..|s| - 1]) else s
  }

  /** rstrip drops the trailing whitespace, and only that. */
  lemma {:induction false} DropTrailingWhitespaceMeaning(s: string)
    ensures var r := DropTrailingWhitespace(s);
      && |r| <= |s| && r == s[..|r|]
      && (r == [] || !IsWhitespace(r[|r| - 1]))
      && (forall i :: |r| <= i < |s| ==> IsWhitespace(s[i]))
      && Significant(r) == Significant(s)
  {
    if s != [] && IsWhitespace(s[|s| - 1]) {
      DropTrailingWhitespaceMeaning(s[..|s| - 1]);
      SignificantAppend(s[..|s| - 1], [s[|s| - 1]]);
      assert s[..|s| - 1] + [s[|s| - 1]] == s;
    }
  }

  /** s.strip() */
  function Strip(s: string): string
  {
    DropTrailingWhitespace(DropLeadingWhitespace(s))
  }

  /** re.sub(r'\s+', ' ', s) */
  function CollapseWhitespace(s: string): string
    decreases |s|
  {
    if s == [] then []
    else if IsWhitespace(s[0]) then
      DropLeadingWhitespaceShrinks(s);
      " " + CollapseWhitespace(DropLeadingWhitespace(s))
    else
      [s[0]] + CollapseWhitespace(s[1..])
  }

  /**
   * Shape of the third rewrite: the result is empty only for empty input, the
   * first character keeps its class, and the only whitespace left is lone
   * spaces. CollapseWhitespaceWords says where those spaces are.
   */
  lemma {:induction false} CollapseWhitespaceSpacing(s: string)
    ensures var r := CollapseWhitespace(s);
      && (|r| == 0 <==> |s| == 0)
      && (r != [] ==> r[0] == (if IsWhitespace(s[0]) then ' ' else s[0]))
      && OnlySpaceWhitespace(r)
      && NoAdjacentWhitespace(r)
    decreases |s|
  {
    if s == [] {
    } else if IsWhitespace(s[0]) {
      var rest := DropLeadingWhitespace(s);
      DropLeadingWhitespaceMeaning(s);
      CollapseWhitespaceSpacing(rest);
      var r := CollapseWhitespace(s);
      var c := CollapseWhitespace(rest);
      assert r == " " + c;
      assert r[1..] == c;
      assert c != [] ==> !IsWhitespace(c[0]);
    } else {
      CollapseWhitespaceSpacing(s[1..]);
      var r := CollapseWhitespace(s);
      assert r[1..] == CollapseWhitespace(s[1..]);
    }
  }

  /** Collapsing whitespace keeps every significant character, in order. */
  lemma {:induction false} CollapseWhitespaceKeepsSignificant(s: string)
    ensures Significant(CollapseWhitespace(s)) == Significant(s)
    decreases |s|
  {
    if s == [] {
    } else if IsWhitespace(s[0]) {
      var rest := DropLeadingWhitespace(s);
      DropLeadingWhitespaceMeaning(s);
      CollapseWhitespaceKeepsSignificant(rest);
      var c := CollapseWhitespace(rest);
      assert CollapseWhitespace(s) == " " + c;
      SignificantAppend(" ", c);
    } else {
      CollapseWhitespaceKeepsSignificant(s[1..]);
      assert CollapseWhitespace(s) == [s[0]] + CollapseWhitespace(s[1..]);
      SignificantAppend([s[0]], CollapseWhitespace(s[1..]));
      assert s == [s[0]] + s[1..];
    }
  }

  /** Collapsing whitespace adds no character but ' '. */
  lemma {:induction false} CollapseWhitespaceAddsOnlySpaces(s: string)
    ensures forall x :: x in CollapseWhitespace(s) ==> x == ' ' || x in s
    decreases |s|
  {
    if s == [] {
    } else if IsWhitespace(s[0]) {
      var rest := DropLeadingWhitespace(s);
      DropLeadingWhitespaceMeaning(s);
      CollapseWhitespaceAddsOnlySpaces(rest);
      assert CollapseWhitespace(s) == " " + CollapseWhitespace(rest);
      forall x | x in rest ensures x in s {
        var j :| 0 <= j < |rest| && rest[j] == x;
        assert s[|s| - |rest| + j] == rest[j];
      }
    } else {
      CollapseWhitespaceAddsOnlySpaces(s[1..]);
      assert CollapseWhitespace(s) == [s[0]] + CollapseWhitespace(s[1..]);
      assert s == [s[0]] + s[1..];
    }
  }


  /** clean_filename(filename) */
  function CleanFilename(filename: string): string
  {
    Strip(CollapseWhitespace(SeparatorsToSpaces(DeleteForbidden(filename))))
  }

  /** Significant distributes over concatenation. */
  lemma {:induction false} SignificantAppend(a: string, b: string)
    ensures Significant(a + b) == Significant(a) + Significant(b)
  {
    if a == [] {
      assert a + b == b;
    } else {
      var c, rest := a[0], a[1..];
      assert a == [c] + rest;
      assert a + b == [c] + (rest + b);
      SignificantCons(c, rest);
      SignificantCons(c, rest + b);
      SignificantAppend(rest, b);
    }
  }

  /** Significant looks at one character at a time. */
  lemma SignificantCons(c: char, s: string)
    ensures Significant([c] + s) == (if IsSignificant(c) then [c] else []) + Significant(s)
  {
    assert ([c] + s)[1..] == s;
  }


  /** No forbidden character or separator but ' ' in s means none in a slice of s. */
  lemma NoForbiddenInSlice(s: string, lo: int, hi: int)
    requires 0 <= lo <= hi <= |s|
    requires NoForbiddenOrSeparator(s)
    ensures NoForbiddenOrSeparator(s[lo..hi])
  {
    var t := s[lo..hi];
    assert forall i :: 0 <= i < |t| ==> t[i] == s[lo + i];
  }

  /** Lone spaces as the only whitespace in s means the same in a slice of s. */
  lemma LoneSpacesInSlice(s: string, lo: int, hi: int)
    requires 0 <= lo <= hi <= |s|
    requires OnlySpaceWhitespace(s) && NoAdjacentWhitespace(s)
    ensures OnlySpaceWhitespace(s[lo..hi]) && NoAdjacentWhitespace(s[lo..hi])
  {
    var t := s[lo..hi];
    assert forall i :: 0 <= i < |t| ==> t[i] == s[lo + i];
    forall i | 0 <= i < |t| - 1
      ensures !(IsWhitespace(t[i]) && IsWhitespace(t[i + 1]))
    {
      assert t[i] == s[lo + i] && t[i + 1] == s[lo + i + 1];
    }
  }

  /** Stripping a string whose whitespace is lone spaces makes it clean. */
  lemma StripMakesClean(s: string)
    requires NoForbiddenOrSeparator(s) && OnlySpaceWhitespace(s) && NoAdjacentWhitespace(s)
    ensures IsClean(Strip(s))
  {
    var d := DropLeadingWhitespace(s);
    LeadingStripKeepsLoneSpaces(s);
    TrailingStripKeepsLoneSpaces(d);
    var e := DropTrailingWhitespace(d);
    DropTrailingWhitespaceMeaning(d);
    assert e != [] ==> e[0] == d[0];
  }

  lemma LeadingStripKeepsLoneSpaces(s: string)
    requires NoForbiddenOrSeparator(s) && OnlySpaceWhitespace(s) && NoAdjacentWhitespace(s)
    ensures var d := DropLeadingWhitespace(s);
      NoForbiddenOrSeparator(d) && OnlySpaceWhitespace(d) && NoAdjacentWhitespace(d)
      && (d == [] || !IsWhitespace(d[0]))
  {
    var d := DropLeadingWhitespace(s);
    DropLeadingWhitespaceMeaning(s);
    NoForbiddenInSlice(s, |s| - |d|, |s|);
    LoneSpacesInSlice(s, |s| - |d|, |s|);
  }

  lemma TrailingStripKeepsLoneSpaces(d: string)
    requires NoForbiddenOrSeparator(d) && OnlySpaceWhitespace(d) && NoAdjacentWhitespace(d)
    ensures var e := DropTrailingWhitespace(d);
      NoForbiddenOrSeparator(e) && OnlySpaceWhitespace(e) && NoAdjacentWhitespace(e)
      && (e == [] || !IsWhitespace(e[|e| - 1]))
  {
    var e := DropTrailingWhitespace(d);
    DropTrailingWhitespaceMeaning(d);
    NoForbiddenInSlice(d, 0, |e|);
    LoneSpacesInSlice(d, 0, |e|);
  }

  /** After the first two rewrites no forbidden character and no separator but ' ' is left. */
  lemma RewrittenHasNoForbidden(filename: string)
    ensures NoForbiddenOrSeparator(SeparatorsToSpaces(DeleteForbidden(filename)))
  {
    var a := DeleteForbidden(filename);
    var b := SeparatorsToSpaces(a);
    DeleteForbiddenMeaning(filename);
    SeparatorsToSpacesMeaning(a);
    forall i | 0 <= i < |b| ensures !IsForbidden(b[i]) && (IsSeparator(b[i]) ==> b[i] == ' ') {
      assert !IsForbidden(a[i]);
    }
  }

  /** Collapsing whitespace adds no character but ' '. */
  lemma CollapseKeepsNoForbidden(s: string)
    requires NoForbiddenOrSeparator(s)
    ensures NoForbiddenOrSeparator(CollapseWhitespace(s))
  {
    var c := CollapseWhitespace(s);
    CollapseWhitespaceAddsOnlySpaces(s);
    forall i | 0 <= i < |c| ensures !IsForbidden(c[i]) && (IsSeparator(c[i]) ==> c[i] == ' ') {
      assert c[i] in c;
      if c[i] != ' ' {
        var j :| 0 <= j < |s| && s[j] == c[i];
      }
    }
  }

  /**
   * The result of clean_filename has none of `<>:"/\|?*-+=,.`, no
   * whitespace but ' ', no two whitespace characters in a row, and no
   * whitespace at either end.
   */
  lemma CleanFilenameIsClean(filename: string)
    ensures IsClean(CleanFilename(filename))
  {
    var b := SeparatorsToSpaces(DeleteForbidden(filename));
    RewrittenHasNoForbidden(filename);
    CollapseKeepsNoForbidden(b);
    CollapseWhitespaceSpacing(b);
    StripMakesClean(CollapseWhitespace(b));
  }

  /** Collapsing whitespace changes nothing once the only whitespace is lone spaces. */
  lemma {:induction false} CollapseFixesClean(t: string)
    requires OnlySpaceWhitespace(t) && NoAdjacentWhitespace(t)
    ensures CollapseWhitespace(t) == t
  {
    if t != [] {
      var u := t[1..];
      LoneSpacesInSlice(t, 1, |t|);
      CollapseFixesClean(u);
      assert t == [t[0]] + u;
      if IsWhitespace(t[0]) {
        assert t[0] == ' ';
        assert |t| > 1 ==> !IsWhitespace(t[1]);
        CollapseAfterSpace(t);
        assert CollapseWhitespace(t) == t;
      } else {
        CollapseAfterOther(t);
        assert CollapseWhitespace(t) == t;
      }
    }
  }

  /** A character that is not whitespace is kept as it is. */
  lemma CollapseAfterOther(t: string)
    requires t != [] && !IsWhitespace(t[0])
    ensures CollapseWhitespace(t) == [t[0]] + CollapseWhitespace(t[1..])
  {
  }

  /** A lone leading space is collapsed to itself. */
  lemma CollapseAfterSpace(t: string)
    requires t != [] && IsWhitespace(t[0]) && t[0] == ' '
    requires |t| > 1 ==> !IsWhitespace(t[1])
    ensures CollapseWhitespace(t) == " " + CollapseWhitespace(t[1..])
  {
    var u := t[1..];
    assert u != [] ==> u[0] == t[1];
    assert DropLeadingWhitespace(u) == u;
    assert DropLeadingWhitespace(t) == u;
  }

  /** A clean name passes through clean_filename unchanged. */
  lemma CleanFilenameFixesClean(t: string)
    requires IsClean(t)
    ensures CleanFilename(t) == t
  {
    DeleteForbiddenMeaning(t);
    assert DeleteForbidden(t) == t;
    SeparatorsToSpacesMeaning(t);
    var u := SeparatorsToSpaces(t);
    assert forall i :: 0 <= i < |t| ==> u[i] == t[i];
    assert u == t;
    CollapseFixesClean(t);
    assert DropLeadingWhitespace(t) == t;
    assert DropTrailingWhitespace(t) == t;
  }

  /** The fixed points of clean_filename are exactly the clean names. */
  lemma CleanFilenameFixpoints(t: string)
    ensures CleanFilename(t) == t <==> IsClean(t)
  {
    CleanFilenameIsClean(t);
    if IsClean(t) {
      CleanFilenameFixesClean(t);
    }
  }

  /** clean_filename is idempotent. */
  lemma CleanFilenameIdempotent(filename: string)
    ensures CleanFilename(CleanFilename(filename)) == CleanFilename(filename)
  {
    CleanFilenameIsClean(filename);
    CleanFilenameFixesClean(CleanFilename(filename));
  }

  /** clean_filename keeps every character it does not rewrite, in order. */
  lemma CleanFilenameKeepsSignificant(filename: string)
    ensures Significant(CleanFilename(filename)) == Significant(filename)
  {
    var a := DeleteForbidden(filename);
    var b := SeparatorsToSpaces(a);
    var c := CollapseWhitespace(b);
    DeleteForbiddenMeaning(filename);
    SeparatorsToSpacesMeaning(a);
    CollapseWhitespaceKeepsSignificant(b);
    DropLeadingWhitespaceMeaning(c);
    DropTrailingWhitespaceMeaning(DropLeadingWhitespace(c));
  }

  /** A non-empty run of characters none of which is whitespace. */
  predicate IsWord(w: string) {
    w != [] && forall j :: 0 <= j < |w| ==> !IsWhitespace(w[j])
  }

  /** t.split(): the maximal runs of non-whitespace characters of t, in order. */
  function Words(t: string): seq<string>
  {
    if t == [] then []
    else if IsWhitespace(t[0]) then Words(t[1..])
    else
      var rest := Words(t[1..]);
      if |t| > 1 && !IsWhitespace(t[1]) && rest != [] then [[t[0]] + rest[0]] + rest[1..]
      else [[t[0]]] + rest
  }

  /** Every piece of t.split() is a word. */
  lemma {:induction false} WordsAreWords(t: string)
    ensures forall i :: 0 <= i < |Words(t)| ==> IsWord(Words(t)[i])
  {
    if t != [] {
      WordsAreWords(t[1..]);
      var rest := Words(t[1..]);
      if !IsWhitespace(t[0]) && |t| > 1 && !IsWhitespace(t[1]) && rest != [] {
        var w := [t[0]] + rest[0];
        assert IsWord(rest[0]);
        assert forall j :: 1 <= j < |w| ==> w[j] == rest[0][j - 1];
        assert IsWord(w);
      }
    }
  }

  /** t.split() is empty exactly when t is all whitespace. */
  lemma {:induction false} WordsEmpty(t: string)
    ensures Words(t) == [] <==> forall i :: 0 <= i < |t| ==> IsWhitespace(t[i])
  {
    if t != [] {
      WordsEmpty(t[1..]);
      assert forall i :: 1 <= i < |t| ==> t[i] == t[1..][i - 1];
    }
  }

  /** Leading whitespace does not change t.split(). */
  lemma {:induction false} WordsSkipLeading(t: string)
    ensures Words(DropLeadingWhitespace(t)) == Words(t)
  {
    if t != [] && IsWhitespace(t[0]) {
      WordsSkipLeading(t[1..]);
    }
  }

  /** A word glued to the first of several pieces. */
  lemma JoinPrepend(c: char, ws: seq<string>, sep: char)
    requires ws != []
    ensures Join([[c] + ws[0]] + ws[1..], sep) == [c] + Join(ws, sep)
  {
    var vs := [[c] + ws[0]] + ws[1..];
    if |ws| > 1 {
      assert vs[1..] == ws[1..];
      assert Join(vs, sep) == ([c] + ws[0]) + [sep] + Join(ws[1..], sep);
    }
  }

  /** A one-character word in front of further pieces. */
  lemma JoinSingleFirst(c: char, ws: seq<string>, sep: char)
    requires ws != []
    ensures Join([[c]] + ws, sep) == [c] + [sep] + Join(ws, sep)
  {
    assert ([[c]] + ws)[1..] == ws;
  }

  /** Words joined by ' ' start and end with a character that is not whitespace. */
  lemma {:induction false} JoinWordsEnds(ws: seq<string>)
    requires ws != []
    requires forall i :: 0 <= i < |ws| ==> IsWord(ws[i])
    ensures var j := Join(ws, ' ');
      j != [] && !IsWhitespace(j[0]) && !IsWhitespace(j[|j| - 1])
  {
    var j := Join(ws, ' ');
    assert IsWord(ws[0]);
    if |ws| > 1 {
      JoinWordsEnds(ws[1..]);
      assert IsWord(ws[1..][0]);
      var rest := Join(ws[1..], ' ');
      assert j == ws[0] + [' '] + rest;
      assert j[0] == ws[0][0];
      assert j[|j| - 1] == rest[|rest| - 1];
    } else {
      assert j == ws[0];
    }
  }

  /**
   * The words of s joined by single spaces, with one more space in front
   * when s starts with whitespace and one behind when s ends with whitespace
   * after a word.
   */
  function SpacedWords(s: string): string
  {
    LeadingSpace(s) + Join(Words(s), ' ') + TrailingSpace(s)
  }

  /** One space when s starts with whitespace. */
  function LeadingSpace(s: string): string
  {
    if s != [] && IsWhitespace(s[0]) then " " else ""
  }

  /** One space when s ends with whitespace that follows a word. */
  function TrailingSpace(s: string): string
  {
    if s != [] && Words(s) != [] && IsWhitespace(s[|s| - 1]) then " " else ""
  }

  /** The third rewrite in terms of words: every run of whitespace becomes exactly one ' ', in place. */
  lemma {:induction false} CollapseWhitespaceWords(s: string)
    ensures CollapseWhitespace(s) == SpacedWords(s)
    decreases |s|
  {
    if s == [] {
    } else if IsWhitespace(s[0]) {
      DropLeadingWhitespaceShrinks(s);
      CollapseWhitespaceWords(DropLeadingWhitespace(s));
      SpacedWordsSkipLeading(s);
    } else {
      CollapseWhitespaceWords(s[1..]);
      SpacedWordsCons(s);
    }
  }

  /** lstrip leaves text that starts with a character that is not whitespace and ends where s ends. */
  lemma {:induction false} DropLeadingWhitespaceEnds(s: string)
    ensures var v := DropLeadingWhitespace(s);
      v != [] ==> !IsWhitespace(v[0]) && v[|v| - 1] == s[|s| - 1]
  {
    if s != [] && IsWhitespace(s[0]) {
      DropLeadingWhitespaceEnds(s[1..]);
    }
  }

  /** After lstrip there is no space to put in front, and the same one behind. */
  lemma SpacesSkipLeading(s: string)
    ensures var v := DropLeadingWhitespace(s);
      LeadingSpace(v) == "" && TrailingSpace(v) == TrailingSpace(s)
  {
    DropLeadingWhitespaceEnds(s);
    WordsSkipLeading(s);
  }

  /** Step of CollapseWhitespaceWords at a run of whitespace. */
  lemma SpacedWordsSkipLeading(s: string)
    requires s != [] && IsWhitespace(s[0])
    requires CollapseWhitespace(DropLeadingWhitespace(s)) == SpacedWords(DropLeadingWhitespace(s))
    ensures CollapseWhitespace(s) == SpacedWords(s)
  {
    var v := DropLeadingWhitespace(s);
    SpacesSkipLeading(s);
    WordsSkipLeading(s);
    var j, tail := Join(Words(s), ' '), TrailingSpace(s);
    assert SpacedWords(v) == [] + j + tail;
    assert [] + j + tail == j + tail;
    assert CollapseWhitespace(s) == " " + (j + tail);
    assert SpacedWords(s) == " " + j + tail;
  }

  /** Step of CollapseWhitespaceWords at a character that is not whitespace. */
  lemma SpacedWordsCons(s: string)
    requires s != [] && !IsWhitespace(s[0])
    requires CollapseWhitespace(s[1..]) == SpacedWords(s[1..])
    ensures CollapseWhitespace(s) == SpacedWords(s)
  {
    var u := s[1..];
    var c := s[0];
    assert CollapseWhitespace(s) == [c] + CollapseWhitespace(u);
    if u == [] {
      assert Words(s) == [[c]];
    } else if IsWhitespace(u[0]) {
      SpacedWordsConsSpace(s);
    } else {
      SpacedWordsConsWord(s);
    }
  }

  /** A character that is not whitespace, then whitespace. */
  lemma SpacedWordsConsSpace(s: string)
    requires |s| > 1 && !IsWhitespace(s[0]) && IsWhitespace(s[1])
    ensures SpacedWords(s) == [s[0]] + SpacedWords(s[1..])
  {
    var u := s[1..];
    var c := s[0];
    assert Words(s) == [[c]] + Words(u);
    assert s[|s| - 1] == u[|u| - 1];
    if Words(u) == [] {
      WordsEmpty(u);
      assert Join(Words(s), ' ') == [c];
    } else {
      JoinSingleFirst(c, Words(u), ' ');
    }
  }

  /** Two characters that are not whitespace. */
  lemma SpacedWordsConsWord(s: string)
    requires |s| > 1 && !IsWhitespace(s[0]) && !IsWhitespace(s[1])
    ensures SpacedWords(s) == [s[0]] + SpacedWords(s[1..])
  {
    var u := s[1..];
    var c := s[0];
    WordsEmpty(u);
    assert Words(u) != [];
    assert Words(s) == [[c] + Words(u)[0]] + Words(u)[1..];
    JoinPrepend(c, Words(u), ' ');
    assert s[|s| - 1] == u[|u| - 1];
  }

  /** strip removes a single space on either side of text with no whitespace at its ends. */
  lemma StripPadded(lead: string, j: string, trail: string)
    requires lead == "" || lead == " "
    requires trail == "" || trail == " "
    requires j == [] ==> trail == ""
    requires j != [] ==> !IsWhitespace(j[0]) && !IsWhitespace(j[|j| - 1])
    ensures Strip(lead + j + trail) == j
  {
    var jt := j + trail;
    assert DropLeadingWhitespace(jt) == jt;
    if lead == " " {
      assert (lead + j + trail)[1..] == jt;
    } else {
      assert lead + j + trail == jt;
    }
    assert DropLeadingWhitespace(lead + j + trail) == jt;
    if j != [] {
      assert DropTrailingWhitespace(j) == j;
    }
    if trail == " " {
      assert jt[..|jt| - 1] == j;
      assert DropTrailingWhitespace(jt) == DropTrailingWhitespace(j);
    } else {
      assert jt == j;
    }
  }

  /**
   * clean_filename is `" ".join(t.split())` of the text t left by the first
   * two substitutions: every run of separators and whitespace between two
   * kept characters becomes exactly one space, and none is left at the ends.
   */
  lemma CleanFilenameWords(filename: string)
    ensures var t := SeparatorsToSpaces(DeleteForbidden(filename));
      CleanFilename(filename) == Join(Words(t), ' ')
  {
    var t := SeparatorsToSpaces(DeleteForbidden(filename));
    CollapseWhitespaceWords(t);
    assert CollapseWhitespace(t) == SpacedWords(t);
    WordsAreWords(t);
    var ws := Words(t);
    if ws != [] {
      JoinWordsEnds(ws);
    }
    StripPadded(if t != [] && IsWhitespace(t[0]) then " " else "",
                Join(ws, ' '),
                if t != [] && ws != [] && IsWhitespace(t[|t| - 1]) then " " else "");
  }

  /** A sample title: the separator and the colon between words leave one space. */
  lemma CleanFilenameSample()
    ensures CleanFilename("a: -b") == "a b"
  {
    var s := "a: -b";
    assert DeleteForbidden(s[4..]) == "b";
    assert DeleteForbidden(s[3..]) == "-b";
    assert DeleteForbidden(s[2..]) == " -b";
    assert DeleteForbidden(s) == "a -b";
    var t := "a  b";
    assert SeparatorsToSpaces("a -b") == t;
    assert Words(t[3..]) == ["b"];
    assert Words(t[2..]) == ["b"];
    assert Words(t[1..]) == ["b"];
    assert Words(t) == ["a", "b"];
    CleanFilenameWords(s);
    assert Join(["a", "b"], ' ') == "a b";
  }

  /** os.path.join(directory, name) on a POSIX system. */
  function JoinPath(directory: string, name: string): string
  {
    if name != [] && name[0] == '/' then name
    else if directory == [] || directory[|directory| - 1] == '/' then directory + name
    else directory + "/" + name
  }

  /** The file name of a song: the cleaned title with the extension ".mp3". */
  function AudioFileName(title: string): string
  {
    CleanFilename(title) + ".mp3"
  }

  /** os.path.join(DOWNLOADS_DIR, f"{clean_filename(title)}.mp3") */
  function DownloadPath(directory: string, title: string): string
  {
    JoinPath(directory, AudioFileName(title))
  }

  /**
   * The download path is the directory (with one '/' added when it does not
   * end in one) followed by the file name, and the file name holds no path
   * separator: whatever the title, the file lands directly inside the
   * downloads directory.
   */
  lemma DownloadPathInDirectory(directory: string, title: string)
    ensures var path, name := DownloadPath(directory, title), AudioFileName(title);
      && |path| >= |name|
      && path[|path| - |name|..] == name
      && path[..|path| - |name|] == (if directory == [] || directory[|directory| - 1] == '/' then directory else directory + "/")
      && (forall i :: 0 <= i < |name| ==> name[i] != '/' && name[i] != '\\')
  {
    AudioFileNameHasNoSeparator(title);
    JoinRelativeName(directory, AudioFileName(title));
  }

  /** A cleaned title with ".mp3" appended holds neither '/' nor '\\'. */
  lemma AudioFileNameHasNoSeparator(title: string)
    ensures var name := AudioFileName(title);
      forall i :: 0 <= i < |name| ==> name[i] != '/' && name[i] != '\\'
  {
    CleanFilenameIsClean(title);
    NoSeparatorWithExtension(CleanFilename(title));
  }

  lemma NoSeparatorWithExtension(cleaned: string)
    requires NoForbiddenOrSeparator(cleaned)
    ensures var name := cleaned + ".mp3";
      forall i :: 0 <= i < |name| ==> name[i] != '/' && name[i] != '\\'
  {
    var name := cleaned + ".mp3";
    forall i | 0 <= i < |name| ensures name[i] != '/' && name[i] != '\\' {
      if i < |cleaned| {
        assert name[i] == cleaned[i];
      }
    }
  }

  /** Joining a name that does not start with '/' appends it to the directory. */
  lemma JoinRelativeName(directory: string, name: string)
    requires name == [] || name[0] != '/'
    ensures var path := JoinPath(directory, name);
      && |path| >= |name|
      && path[|path| - |name|..] == name
      && path[..|path| - |name|] == (if directory == [] || directory[|directory| - 1] == '/' then directory else directory + "/")
  {
  }
}
