/** Searching expenses by text: `escapeLike` and the ILIKE it feeds. */
module Search {

  /** What an element of a LIKE pattern matches. */
  datatype Token = AnyRun | AnyOne | Just(c: char)

  datatype Pattern = Pattern(tokens: seq<Token>) | Malformed

  function Before(t: Token, p: Pattern): Pattern {
    if p.Malformed? then p else Pattern([t] + p.tokens)
  }

  /** How section 9.7.1 of the PostgreSQL 16 manual reads a pattern with escape
      character `\`: it takes the special meaning from what follows, percent is any
      run of characters, underscore any one; the pattern must not end in an escape. */
  function Parse(p: string): Pattern {
    if p == "" then Pattern([])
    else if p[0] == '\\' then
      if |p| == 1 then Malformed else Before(Just(p[1]), Parse(p[2..]))
    else if p[0] == '%' then Before(AnyRun, Parse(p[1..]))
    else if p[0] == '_' then Before(AnyOne, Parse(p[1..]))
    else Before(Just(p[0]), Parse(p[1..]))
  }

  /** ILIKE compares characters up to a folding of their case. */
  predicate Matches(fold: char -> char, ts: seq<Token>, text: string)
    decreases |ts|
  {
    if ts == [] then text == ""
    else match ts[0]
      case AnyRun => exists k :: 0 <= k <= |text| && Matches(fold, ts[1..], text[k..])
      case AnyOne => text != "" && Matches(fold, ts[1..], text[1..])
      case Just(c) => text != "" && fold(text[0]) == fold(c) && Matches(fold, ts[1..], text[1..])
  }

  predicate Like(fold: char -> char, text: string, pattern: string) {
    var p := Parse(pattern);
    p.Pattern? && Matches(fold, p.tokens, text)
  }

  // ---------------------------------------------------------------------------
  // escapeLike

  function EscapeChar(c: char): string {
    if c == '\\' || c == '%' || c == '_' then ['\\', c] else [c]
  }

  function EscapeLike(s: string): string {
    if s == "" then "" else EscapeChar(s[0]) + EscapeLike(s[1..])
  }

  /** Each backslash, percent sign and underscore gets a backslash, wherever it
      stands, and nothing else changes. */
  lemma {:induction false} EscapesEach(a: string, c: char, b: string)
    ensures EscapeLike(a + [c] + b) ==
            EscapeLike(a) + (if c in {'\\', '%', '_'} then ['\\', c] else [c]) + EscapeLike(b)
    ensures EscapeLike("") == ""
  {
    var s := a + [c] + b;
    if a == "" {
      assert s[0] == c && s[1..] == b;
    } else {
      assert s[0] == a[0] && s[1..] == a[1..] + [c] + b;
      EscapesEach(a[1..], c, b);
    }
  }

  /** The pattern ListExpenses matches descriptions with. */
  function SearchPattern(s: string): string {
    "%" + EscapeLike(s) + "%"
  }

  function Literally(s: string): (ts: seq<Token>)
    ensures |ts| == |s|
  {
    seq(|s|, i requires 0 <= i < |s| => Just(s[i]))
  }

  function Followed(ts: seq<Token>, p: Pattern): Pattern {
    if p.Malformed? then p else Pattern(ts + p.tokens)
  }

  lemma FollowedBefore(t: Token, ts: seq<Token>, p: Pattern)
    ensures Before(t, Followed(ts, p)) == Followed([t] + ts, p)
  {
    if p.Pattern? {
      assert [t] + (ts + p.tokens) == [t] + ts + p.tokens;
    }
  }

  lemma NothingFollowed(p: Pattern)
    ensures Followed([], p) == p
  {
    if p.Pattern? {
      assert [] + p.tokens == p.tokens;
    }
  }

  /** Whatever comes after it, an escaped text reads as its own characters. */
  lemma {:induction false} EscapedReadsLiterally(s: string, rest: string)
    ensures Parse(EscapeLike(s) + rest) == Followed(Literally(s), Parse(rest))
  {
    if s == "" {
      assert EscapeLike(s) + rest == rest;
      NothingFollowed(Parse(rest));
    } else {
      assert EscapeLike(s) + rest == EscapeChar(s[0]) + (EscapeLike(s[1..]) + rest);
      OneEscaped(s[0], EscapeLike(s[1..]) + rest);
      EscapedReadsLiterally(s[1..], rest);
      FollowedBefore(Just(s[0]), Literally(s[1..]), Parse(rest));
      assert Literally(s) == [Just(s[0])] + Literally(s[1..]);
    }
  }

  lemma OneEscaped(c: char, p: string)
    ensures Parse(EscapeChar(c) + p) == Before(Just(c), Parse(p))
  {
    var e := EscapeChar(c) + p;
    if |EscapeChar(c)| == 2 {
      assert e[0] == '\\' && e[1] == c && e[2..] == p;
    } else {
      assert e[0] == c && e[1..] == p;
    }
  }

  lemma SearchPatternReads(s: string)
    ensures Parse(SearchPattern(s)) == Pattern([AnyRun] + Literally(s) + [AnyRun])
  {
    var p := SearchPattern(s);
    assert p[0] == '%' && p[1..] == EscapeLike(s) + "%";
    EscapedReadsLiterally(s, "%");
    assert Parse("%") == Pattern([AnyRun]) by {
      assert "%"[1..] == "";
      assert Parse("") == Pattern([]);
    }
    assert [AnyRun] + (Literally(s) + [AnyRun]) == [AnyRun] + Literally(s) + [AnyRun];
  }

  /** s stands at position k of the text, up to case. */
  predicate OccursAt(fold: char -> char, s: string, text: string, k: nat) {
    k + |s| <= |text| && forall i :: 0 <= i < |s| ==> fold(text[k+i]) == fold(s[i])
  }

  lemma AnyRunMatches(fold: char -> char, text: string)
    ensures Matches(fold, [AnyRun], text)
  {
    assert [AnyRun][1..] == [];
    assert text[|text|..] == "";
    assert Matches(fold, [AnyRun][1..], text[|text|..]);
  }

  lemma {:induction false} StartsWith(fold: char -> char, s: string, text: string)
    ensures Matches(fold, Literally(s) + [AnyRun], text) <==> OccursAt(fold, s, text, 0)
  {
    if s == "" {
      assert Literally(s) + [AnyRun] == [AnyRun];
      AnyRunMatches(fold, text);
    } else {
      var ts := Literally(s) + [AnyRun];
      assert ts[0] == Just(s[0]) && ts[1..] == Literally(s[1..]) + [AnyRun];
      if text != "" {
        StartsWith(fold, s[1..], text[1..]);
        OccursFirst(fold, s, text);
      }
    }
  }

  lemma OccursFirst(fold: char -> char, s: string, text: string)
    requires s != "" && text != ""
    ensures OccursAt(fold, s, text, 0) <==> fold(text[0]) == fold(s[0]) && OccursAt(fold, s[1..], text[1..], 0)
  {
    if fold(text[0]) == fold(s[0]) && OccursAt(fold, s[1..], text[1..], 0) {
      forall i | 0 <= i < |s|
        ensures fold(text[i]) == fold(s[i])
      {
        assert i > 0 ==> fold(text[1..][0+(i-1)]) == fold(s[1..][i-1]);
      }
    }
    if OccursAt(fold, s, text, 0) {
      forall i | 0 <= i < |s| - 1
        ensures fold(text[1..][0+i]) == fold(s[1..][i])
      {
        assert fold(text[0+(i+1)]) == fold(s[i+1]);
      }
    }
  }

  /** For every search term and every description: the search finds exactly the
      descriptions that contain the term, up to case, whatever wildcards, escapes
      or nothing it consists of. */
  lemma SearchIsLiteral(fold: char -> char, s: string, text: string)
    ensures Like(fold, text, SearchPattern(s)) <==> exists k :: 0 <= k <= |text| && OccursAt(fold, s, text, k)
  {
    SearchPatternReads(s);
    var ts := [AnyRun] + Literally(s) + [AnyRun];
    assert ts[1..] == Literally(s) + [AnyRun];
    forall k | 0 <= k <= |text|
      ensures Matches(fold, ts[1..], text[k..]) <==> OccursAt(fold, s, text, k)
    {
      StartsWith(fold, s, text[k..]);
      Shifted(fold, s, text, k);
    }
  }

  lemma Shifted(fold: char -> char, s: string, text: string, k: nat)
    requires k <= |text|
    ensures OccursAt(fold, s, text[k..], 0) <==> OccursAt(fold, s, text, k)
  {
    if OccursAt(fold, s, text[k..], 0) {
      forall i | 0 <= i < |s|
        ensures fold(text[k+i]) == fold(s[i])
      {
        assert text[k..][0+i] == text[k+i];
      }
    }
    if OccursAt(fold, s, text, k) {
      forall i | 0 <= i < |s|
        ensures fold(text[k..][0+i]) == fold(s[i])
      {
        assert text[k..][i] == text[k+i];
      }
    }
  }

  /** Different terms escape differently: the pattern reads back as the term. */
  lemma EscapeIsInjective(a: string, b: string)
    requires EscapeLike(a) == EscapeLike(b)
    ensures a == b
  {
    EscapedReadsLiterally(a, "");
    EscapedReadsLiterally(b, "");
    assert EscapeLike(a) + "" == EscapeLike(a) && EscapeLike(b) + "" == EscapeLike(b);
    assert Literally(a) + [] == Literally(a) && Literally(b) + [] == Literally(b);
    assert |Literally(a)| == |Literally(b)|;
    forall i | 0 <= i < |a|
      ensures a[i] == b[i]
    {
      assert Literally(a)[i] == Literally(b)[i];
    }
  }
}
