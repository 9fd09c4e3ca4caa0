/**
 Concept keys (internal/agent/memory_replicator.go, `normalizeConcept`): lower-case,
 replace each run of other characters by one hyphen, trim hyphens, cut to 64.
 */
module Slug {
  import opened Collections

  const MAX_SLUG := 64

  /**
   Simple lower-casing, as far as it can meet [a-z0-9]: besides A-Z, the only runes whose
   lower case is an ASCII letter are U+0130 and U+212A. All others separate words either way.
   */
  function Lower(c: char): char {
    if 'A' <= c <= 'Z' then c - 'A' + 'a'
    else if c == '\U{130}' then 'i'
    else if c == '\U{212A}' then 'k'
    else c
  }

  predicate Letter(c: char) { 'a' <= c <= 'z' || '0' <= c <= '9' }

  /** ToLower and ReplaceAllString of `[^a-z0-9]+`; inRun: the run's hyphen is already written. */
  function Dash(s: string, inRun: bool): string {
    if s == "" then ""
    else if Letter(Lower(s[0])) then [Lower(s[0])] + Dash(s[1..], false)
    else (if inRun then "" else "-") + Dash(s[1..], true)
  }

  function TrimRight(s: string): string {
    if s != "" && s[|s| - 1] == '-' then TrimRight(s[..|s| - 1]) else s
  }

  function TrimLeft(s: string): string {
    if s != "" && s[0] == '-' then TrimLeft(s[1..]) else s
  }

  function Normalize(concept: string): string {
    var s := TrimLeft(TrimRight(Dash(concept, false)));
    if |s| > MAX_SLUG then s[..MAX_SLUG] else s
  }

  // ---------------------------------------------------------------- reference: words joined by hyphens

  /** The lower-cased alphanumeric words of s, the first one continuing `word`. */
  function Words(s: string, word: string): seq<string> {
    if s == "" then (if word == "" then [] else [word])
    else if Letter(Lower(s[0])) then Words(s[1..], word + [Lower(s[0])])
    else (if word == "" then [] else [word]) + Words(s[1..], "")
  }

  function Join(words: seq<string>): string {
    if words == [] then "" else if |words| == 1 then words[0] else words[0] + "-" + Join(words[1..])
  }

  /** What follows a letter: a hyphen is written only once another letter turns up. */
  function Rest(s: string, pending: bool): string {
    if s == "" then ""
    else if Letter(Lower(s[0])) then (if pending then "-" else "") + [Lower(s[0])] + Rest(s[1..], false)
    else Rest(s[1..], true)
  }

  lemma {:induction false} TrimRightAfterLetter(a: string, b: string)
    requires a != "" && a[|a| - 1] != '-'
    ensures TrimRight(a + b) == a + TrimRight(b)
    decreases |b|
  {
    if b != "" && b[|b| - 1] == '-' {
      assert (a + b)[..|a + b| - 1] == a + b[..|b| - 1];
      TrimRightAfterLetter(a, b[..|b| - 1]);
    }
  }

  /** One letter further. */
  lemma AtLetter(s: string, word: string)
    requires s != "" && Letter(Lower(s[0]))
    ensures Dash(s, false) == Dash(s, true) == [Lower(s[0])] + Dash(s[1..], false)
    ensures Rest(s, false) == [Lower(s[0])] + Rest(s[1..], false)
    ensures Rest(s, true) == "-" + ([Lower(s[0])] + Rest(s[1..], false))
    ensures Words(s, word) == Words(s[1..], word + [Lower(s[0])]) && Words(s, "") == Words(s[1..], [Lower(s[0])])
    ensures Lower(s[0]) != '-'
  {
    hide Lower;
    assert "" + [Lower(s[0])] == [Lower(s[0])];
  }

  /** One other character further. */
  lemma AtOther(s: string)
    requires s != "" && !Letter(Lower(s[0]))
    ensures Dash(s, false) == "-" + Dash(s[1..], true) && Dash(s, true) == Dash(s[1..], true)
    ensures Rest(s, false) == Rest(s, true) == Rest(s[1..], true)
  {
    hide Lower, Letter;
    assert "" + Dash(s[1..], true) == Dash(s[1..], true);
  }

  lemma TrimNothing()
    ensures TrimRight(Dash("", false)) == TrimRight("-" + Dash("", true)) == "" == Rest("", false) == Rest("", true)
  {
    assert TrimRight("-") == TrimRight("");
  }

  lemma {:induction false} TrimRightIsRest(s: string)
    ensures TrimRight(Dash(s, false)) == Rest(s, false)
    ensures TrimRight("-" + Dash(s, true)) == Rest(s, true)
  {
    hide Lower, Letter, Dash, Rest, Words, TrimRight;
    if s == "" {
      TrimNothing();
    } else {
      TrimRightIsRest(s[1..]);
      var c, tail := [Lower(s[0])], Dash(s[1..], false);
      if Letter(c[0]) {
        AtLetter(s, "");
        TrimRightAfterLetter(c, tail);
        TrimRightAfterLetter("-" + c, tail);
        Associative("-", c, tail);
        Associative("-", c, Rest(s[1..], false));
      } else {
        AtOther(s);
      }
    }
  }

  lemma {:induction false} RestIsWords(s: string, word: string)
    requires word != ""
    ensures word + Rest(s, false) == Join(Words(s, word))
    ensures Rest(s, true) == if Words(s, "") == [] then "" else "-" + Join(Words(s, ""))
    decreases |s|
  {
    if s == "" {
      assert word + "" == word;
    } else if Letter(Lower(s[0])) {
      RestIsWordsAtLetter(s, word);
    } else {
      RestIsWords(s[1..], word);
      assert [] + Words(s[1..], "") == Words(s[1..], "");
      assert Words(s, word)[1..] == Words(s[1..], "");
      assert Words(s, word)[0] == word;
    }
  }

  lemma {:induction false} RestIsWordsAtLetter(s: string, word: string)
    requires word != "" && s != "" && Letter(Lower(s[0]))
    ensures word + Rest(s, false) == Join(Words(s, word))
    ensures Rest(s, true) == "-" + Join(Words(s, "")) && Words(s, "") != []
    decreases |s|, 0
  {
    hide Letter, Lower, Rest, Words, Join;
    var c := [Lower(s[0])];
    AtLetter(s, word);
    RestIsWords(s[1..], word + c);
    RestIsWords(s[1..], c);
    WordsNonempty(s[1..], c);
    Associative(word, c, Rest(s[1..], false));
  }

  lemma {:induction false} TrimmedRestIsWords(s: string, pending: bool)
    ensures TrimLeft(Rest(s, pending)) == Join(Words(s, ""))
  {
    if s == "" {
    } else if Letter(Lower(s[0])) {
      TrimmedAtLetter(s, pending);
    } else {
      hide Letter, Lower, Join;
      TrimmedRestIsWords(s[1..], true);
      assert [] + Words(s[1..], "") == Words(s[1..], "");
    }
  }

  lemma TrimmedAtLetter(s: string, pending: bool)
    requires s != "" && Letter(Lower(s[0]))
    ensures TrimLeft(Rest(s, pending)) == Join(Words(s, ""))
  {
    hide Rest, Words, Join;
    var c := [Lower(s[0])];
    AtLetter(s, "");
    RestIsWords(s[1..], c);
    var t := c + Rest(s[1..], false);
    assert TrimLeft(t) == t;
    assert TrimLeft("-" + t) == t by {
      assert ("-" + t)[1..] == t;
    }
  }

  lemma {:induction false} WordsNonempty(s: string, word: string)
    requires word != ""
    ensures Words(s, word) != []
    decreases |s|
  {
    if s != "" && Letter(Lower(s[0])) {
      WordsNonempty(s[1..], word + [Lower(s[0])]);
    }
  }

  /** A key is the first 64 characters of the concept's words joined by hyphens, and nothing else matters to it. */
  lemma NormalizeIsJoinedWords(concept: string)
    ensures var joined := Join(Words(concept, ""));
            Normalize(concept) == if |joined| > 64 then joined[..64] else joined
  {
    TrimRightIsRest(concept);
    TrimmedRestIsWords(concept, false);
  }

  // ---------------------------------------------------------------- what a key does not see

  /** A letter's place in the alphabet, in either case; two more runes have an ASCII letter as their lower case. */
  predicate Cased(c: char, n: nat) {
    && n < 26
    && (c as int == 65 + n || c as int == 97 + n || (c as int == 0x130 && n == 8) || (c as int == 0x212A && n == 10))
  }

  ghost predicate Separates(c: char) { !(48 <= c as int <= 57) && forall n: nat :: !Cased(c, n) }

  /** One character, or one letter in two cases, or two characters that only separate words. */
  ghost predicate AlikeChars(c: char, d: char) {
    c == d || (exists n: nat :: Cased(c, n) && Cased(d, n)) || (Separates(c) && Separates(d))
  }

  lemma CasedLower(c: char, n: nat)
    requires Cased(c, n)
    ensures Lower(c) as int == 97 + n && Letter(Lower(c))
  {
  }

  lemma SeparatesIff(c: char)
    ensures Separates(c) <==> !Letter(Lower(c))
  {
    if 'A' <= c <= 'Z' {
      assert Cased(c, c as int - 65);
    } else if 'a' <= c <= 'z' {
      assert Cased(c, c as int - 97);
    } else if c == '\U{130}' {
      assert Cased(c, 8);
    } else if c == '\U{212A}' {
      assert Cased(c, 10);
    }
  }

  /**
   Keys see neither case nor which separator stands between words; and lower-case keys are read
   as they are (RestOfSlug).
   */
  lemma {:induction false} NormalizeSeesOnly(a: string, b: string)
    requires |a| == |b| && forall i | 0 <= i < |a| :: AlikeChars(a[i], b[i])
    ensures Normalize(a) == Normalize(b)
  {
    DashSeesOnly(a, b, false);
  }

  lemma {:induction false} DashSeesOnly(a: string, b: string, inRun: bool)
    requires |a| == |b| && forall i | 0 <= i < |a| :: AlikeChars(a[i], b[i])
    ensures Dash(a, inRun) == Dash(b, inRun)
  {
    if a != "" {
      AlikeIsSeenAlike(a[0], b[0]);
      hide AlikeChars, Lower, Letter;
      DashSeesOnly(a[1..], b[1..], false);
      DashSeesOnly(a[1..], b[1..], true);
    }
  }

  lemma AlikeIsSeenAlike(c: char, d: char)
    requires AlikeChars(c, d)
    ensures Letter(Lower(c)) == Letter(Lower(d)) && (Letter(Lower(c)) ==> Lower(c) == Lower(d))
  {
    SeparatesIff(c);
    SeparatesIff(d);
    hide Lower, Letter, Separates, Cased;
    if n: nat :| Cased(c, n) && Cased(d, n) {
      CasedLower(c, n);
      CasedLower(d, n);
    }
  }

  // ---------------------------------------------------------------- shape and repeated application

  /** Only [a-z0-9-], and no two hyphens side by side. */
  predicate Slugged(s: string) {
    && (forall i | 0 <= i < |s| :: Letter(s[i]) || s[i] == '-')
    && (forall i | 0 <= i < |s| - 1 :: !(s[i] == '-' && s[i + 1] == '-'))
  }

  lemma {:induction false} RestShape(s: string, pending: bool)
    ensures var r := Rest(s, pending);
            Slugged(r) && (r != "" ==> r[|r| - 1] != '-')
  {
    hide Lower, Letter, Slugged;
    if s == "" {
      NothingSlugged();
    } else if Letter(Lower(s[0])) {
      RestShape(s[1..], false);
      SluggedMore(Lower(s[0]), Rest(s[1..], false));
      assert "" + [Lower(s[0])] == [Lower(s[0])];
    } else {
      RestShape(s[1..], true);
    }
  }

  lemma NothingSlugged()
    ensures Slugged("")
  {
  }

  lemma SluggedMore(c: char, r: string)
    requires Letter(c) && Slugged(r) && (r != "" ==> r[|r| - 1] != '-')
    ensures var t := [c] + r; Slugged(t) && t[|t| - 1] != '-'
    ensures var t := "-" + [c] + r; Slugged(t) && t[|t| - 1] != '-'
  {
  }

  lemma TrimmedShape(concept: string)
    ensures var s := TrimLeft(TrimRight(Dash(concept, false)));
            Slugged(s) && (s != "" ==> s[0] != '-' && s[|s| - 1] != '-')
  {
    TrimRightIsRest(concept);
    RestShape(concept, false);
    var r := Rest(concept, false);
    if r != "" && r[0] == '-' {
      assert Slugged(r[1..]);
      assert |r| > 1 && r[1] != '-';
    }
  }

  lemma NormalizeShape(concept: string)
    ensures var s := Normalize(concept);
            && Slugged(s) && |s| <= 64
            && (s != "" ==> s[0] != '-')
            && (s != "" && s[|s| - 1] == '-' ==> |s| == 64)
  {
    TrimmedShape(concept);
  }

  lemma SlugChar(c: char)
    ensures Letter(c) ==> Lower(c) == c && c != '-'
    ensures !Letter(Lower('-'))
  {
  }

  /** What a slug starts with, and that what follows is one. */
  lemma SlugParts(s: string)
    requires Slugged(s) && s != ""
    ensures Slugged(s[1..]) && (!Letter(s[0]) ==> s[0] == '-')
    ensures s[0] == '-' && |s| > 1 ==> Letter(s[1]) && Slugged(s[2..])
  {
  }

  /** A slug, or a slug with one hyphen after it, loses nothing but that hyphen. */
  lemma {:induction false} RestOfSlug(s: string)
    requires Slugged(s)
    ensures Rest(s, false) == if s != "" && s[|s| - 1] == '-' then s[..|s| - 1] else s
  {
    hide Slugged, Letter, Lower;
    if s != "" {
      SlugParts(s);
      SlugChar(s[0]);
      if Letter(s[0]) {
        RestOfSlug(s[1..]);
        AtLetter(s, "");
        assert s == [s[0]] + s[1..];
      } else {
        AtOther(s);
        if |s| > 1 {
          SlugChar(s[1]);
          RestOfSlug(s[2..]);
          AtLetter(s[1..], "");
          assert s[1..][1..] == s[2..] && s[1..][0] == s[1];
          assert s == "-" + ([s[1]] + s[2..]);
        }
      }
    }
  }

  /** The second application only drops the one hyphen the cut may have left; the third changes nothing. */
  lemma NormalizeTwice(concept: string)
    ensures var s := Normalize(concept);
            Normalize(s) == if s != "" && s[|s| - 1] == '-' then s[..|s| - 1] else s
    ensures Normalize(Normalize(Normalize(concept))) == Normalize(Normalize(concept))
  {
    var s := Normalize(concept);
    NormalizeShape(concept);
    RestOfSlug(s);
    TrimRightIsRest(s);
    var t := Normalize(s);
    NormalizeShape(s);
    RestOfSlug(t);
    TrimRightIsRest(t);
  }

  /** Normalize is idempotent exactly where the cut did not fall on a hyphen. */
  lemma IdempotentIff(concept: string)
    ensures Normalize(Normalize(concept)) == Normalize(concept)
      <==> (var joined := Join(Words(concept, "")); |joined| <= 64 || joined[63] != '-')
  {
    NormalizeTwice(concept);
    NormalizeIsJoinedWords(concept);
    NormalizeShape(concept);
    TrimmedShape(concept);
    TrimRightIsRest(concept);
    TrimmedRestIsWords(concept, false);
  }
}
