/**
  Translation of key patterns to regular expressions, and what both sides denote.
  Only the regular-expression fragment that the translation can emit is given a meaning:
  an anchored sequence of literals, escaped literals, `.` and starred atoms.
 */
module Glob {
  import opened Prelude

  const SPECIALS: string := ".+^${}()|[]\\"
  const UNSUPPORTED: string := "^$+*?()[]{}|"

  // ---- The translation: three textual replacements and two anchors ----

  function EscapeSpecials(p: string): string
  {
    if p == "" then ""
    else (if p[0] in SPECIALS then ['\\', p[0]] else [p[0]]) + EscapeSpecials(p[1..])
  }

  function ReplaceStar(p: string): string
  {
    if p == "" then "" else (if p[0] == '*' then ".*" else [p[0]]) + ReplaceStar(p[1..])
  }

  function ReplaceQuestion(p: string): string
  {
    if p == "" then "" else (if p[0] == '?' then "." else [p[0]]) + ReplaceQuestion(p[1..])
  }

  function RegexBody(pattern: string): string
  {
    ReplaceQuestion(ReplaceStar(EscapeSpecials(pattern)))
  }

  function GlobToRegex(pattern: string): string
  {
    "^" + RegexBody(pattern) + "$"
  }

  // ---- What an emitted regular expression accepts ----

  datatype Atom = Lit(c: char) | Dot
  datatype Term = Term(atom: Atom, star: bool)

  /** The characters `.` does not match. */
  predicate LineTerminator(c: char)
  {
    c == '\n' || c == '\r' || c == '\U{2028}' || c == '\U{2029}'
  }

  predicate AtomAccepts(a: Atom, c: char)
  {
    match a
    case Lit(x) => x == c
    case Dot => !LineTerminator(c)
  }

  function ParseAtom(body: string): Option<(Atom, string)>
    requires body != ""
  {
    if body[0] == '\\' then
      if |body| >= 2 && body[1] in SPECIALS then Some((Lit(body[1]), body[2..])) else None
    else if body[0] == '.' then Some((Dot, body[1..]))
    else if body[0] in UNSUPPORTED then None
    else Some((Lit(body[0]), body[1..]))
  }

  function ParseTerms(body: string): Option<seq<Term>>
    decreases |body|
  {
    if body == "" then Some([]) else
      match ParseAtom(body)
      case None => None
      case Some((a, rest)) =>
        var star := rest != "" && rest[0] == '*';
        match ParseTerms(if star then rest[1..] else rest)
        case None => None
        case Some(ts) => Some([Term(a, star)] + ts)
  }

  predicate TermsAccept(ts: seq<Term>, s: string)
    decreases |ts| + |s|
  {
    if ts == [] then s == ""
    else if ts[0].star then
      TermsAccept(ts[1..], s) || (s != "" && AtomAccepts(ts[0].atom, s[0]) && TermsAccept(ts, s[1..]))
    else s != "" && AtomAccepts(ts[0].atom, s[0]) && TermsAccept(ts[1..], s[1..])
  }

  /** `new RegExp(regex).test(s)` on the emitted fragment; `None` outside it. */
  function RegexTest(regex: string, s: string): Option<bool>
  {
    if |regex| < 2 || regex[0] != '^' || regex[|regex| - 1] != '$' then None else
      match ParseTerms(regex[1..|regex| - 1])
      case None => None
      case Some(ts) => Some(TermsAccept(ts, s))
  }

  // ---- What a pattern denotes ----

  /** `*` is any run, `?` any one character, everything else (brackets included) itself. */
  predicate GlobAccepts(p: string, s: string)
    decreases |p| + |s|
  {
    if p == "" then s == ""
    else if p[0] == '*' then GlobAccepts(p[1..], s) || (s != "" && GlobAccepts(p, s[1..]))
    else s != "" && (p[0] == '?' || p[0] == s[0]) && GlobAccepts(p[1..], s[1..])
  }

  predicate NoLineTerminator(s: string)
  {
    forall i :: 0 <= i < |s| ==> !LineTerminator(s[i])
  }

  // ---- The translation preserves meaning ----

  function Image(c: char): string
  {
    if c == '*' then ".*" else if c == '?' then "." else if c in SPECIALS then ['\\', c] else [c]
  }

  function TermOf(c: char): Term
  {
    if c == '*' then Term(Dot, true) else if c == '?' then Term(Dot, false) else Term(Lit(c), false)
  }

  function TermsOf(p: string): (ts: seq<Term>)
    ensures |ts| == |p|
  {
    seq(|p|, i requires 0 <= i < |p| => TermOf(p[i]))
  }

  lemma RegexBodyStep(p: string)
    requires p != ""
    ensures RegexBody(p) == Image(p[0]) + RegexBody(p[1..])
  {
    var c, rest := p[0], EscapeSpecials(p[1..]);
    if c in SPECIALS {
      assert EscapeSpecials(p) == ['\\', c] + rest;
      SpecialStep(c, rest);
    } else {
      assert EscapeSpecials(p) == [c] + rest;
      PlainStep(c, rest);
    }
  }

  /** A character that neither replacement touches. */
  lemma KeepsPlain(c: char, rest: string)
    requires c != '*' && c != '?'
    ensures ReplaceStar([c] + rest) == [c] + ReplaceStar(rest)
    ensures ReplaceQuestion([c] + rest) == [c] + ReplaceQuestion(rest)
  {
    assert ([c] + rest)[1..] == rest;
  }

  lemma SpecialStep(c: char, rest: string)
    requires c in SPECIALS
    ensures ReplaceQuestion(ReplaceStar(['\\', c] + rest)) == Image(c) + ReplaceQuestion(ReplaceStar(rest))
  {
    var r := ReplaceStar(rest);
    hide ReplaceStar, ReplaceQuestion;
    KeepsPlain(c, rest);
    KeepsPlain('\\', [c] + rest);
    KeepsPlain(c, r);
    KeepsPlain('\\', [c] + r);
    assert ['\\', c] + rest == ['\\'] + ([c] + rest);
    assert ['\\'] + ([c] + ReplaceQuestion(r)) == Image(c) + ReplaceQuestion(r);
  }

  lemma PlainStep(c: char, rest: string)
    requires c !in SPECIALS
    ensures ReplaceQuestion(ReplaceStar([c] + rest)) == Image(c) + ReplaceQuestion(ReplaceStar(rest))
  {
    var r := ReplaceStar(rest);
    assert ([c] + rest)[1..] == rest;
    if c == '*' {
      assert (".*" + r)[1..] == ['*'] + r && (['*'] + r)[1..] == r;
      assert ReplaceQuestion(['*'] + r) == ['*'] + ReplaceQuestion(r);
    } else {
      assert ([c] + r)[1..] == r;
    }
  }

  lemma RegexBodyHead(p: string)
    ensures RegexBody(p) == "" || RegexBody(p)[0] != '*'
  {
  }

  lemma WildcardParses(c: char, tail: string, ts: seq<Term>)
    requires c == '*' || c == '?'
    requires (tail == "" || tail[0] != '*') && ParseTerms(tail) == Some(ts)
    ensures ParseTerms(Image(c) + tail) == Some([TermOf(c)] + ts)
  {
  }

  lemma LiteralParses(c: char, tail: string, ts: seq<Term>)
    requires c != '*' && c != '?'
    requires (tail == "" || tail[0] != '*') && ParseTerms(tail) == Some(ts)
    ensures ParseTerms(Image(c) + tail) == Some([TermOf(c)] + ts)
  {
  }

  /** The emitted text parses, to one term per pattern character. */
  lemma {:induction false} EmittedRegexParses(p: string)
    ensures ParseTerms(RegexBody(p)) == Some(TermsOf(p))
  {
    if p != "" {
      var c, tail := p[0], RegexBody(p[1..]);
      RegexBodyStep(p);
      RegexBodyHead(p[1..]);
      EmittedRegexParses(p[1..]);
      assert TermsOf(p) == [TermOf(c)] + TermsOf(p[1..]);
      if c == '*' || c == '?' {
        WildcardParses(c, tail, TermsOf(p[1..]));
      } else {
        LiteralParses(c, tail, TermsOf(p[1..]));
      }
    }
  }

  lemma {:induction false} TermsAgreeWithGlob(p: string, s: string)
    requires NoLineTerminator(s)
    ensures TermsAccept(TermsOf(p), s) == GlobAccepts(p, s)
    decreases |p| + |s|
  {
    if p != "" {
      assert TermsOf(p)[1..] == TermsOf(p[1..]);
      TermsAgreeWithGlob(p[1..], s);
      if s != "" {
        assert NoLineTerminator(s[1..]);
        TermsAgreeWithGlob(p, s[1..]);
        TermsAgreeWithGlob(p[1..], s[1..]);
      }
    }
  }

  /** Every pattern compiles, and on keys without line terminators it accepts what it denotes. */
  lemma GlobTranslationPreservesMeaning(p: string, s: string)
    ensures RegexTest(GlobToRegex(p), s).Some?
    ensures NoLineTerminator(s) ==> RegexTest(GlobToRegex(p), s) == Some(GlobAccepts(p, s))
  {
    var regex := GlobToRegex(p);
    assert regex[1..|regex| - 1] == RegexBody(p);
    EmittedRegexParses(p);
    if NoLineTerminator(s) {
      TermsAgreeWithGlob(p, s);
    }
  }

  lemma {:induction false} StarAcceptsAll(s: string)
    ensures GlobAccepts("*", s)
  {
    if s == "" {
      assert GlobAccepts("*"[1..], s);
    } else {
      StarAcceptsAll(s[1..]);
    }
  }

  lemma {:induction false} DotStarStopsAtLineTerminator(s: string)
    requires !NoLineTerminator(s)
    ensures !TermsAccept([Term(Dot, true)], s)
  {
    var ts := [Term(Dot, true)];
    assert ts[1..] == [];
    if !LineTerminator(s[0]) {
      assert !NoLineTerminator(s[1..]) by {
        var i :| 0 <= i < |s| && LineTerminator(s[i]);
        assert s[1..][i - 1] == s[i];
      }
      DotStarStopsAtLineTerminator(s[1..]);
    }
  }

  /**
    The restriction on keys is exact: a key agrees with every pattern iff it has no line terminator, that
    is no line feed, carriage return, line separator or paragraph separator.
   */
  lemma TranslationAgreesExactlyOnSingleLineKeys(s: string)
    ensures (forall i :: 0 <= i < |s| ==> s[i] as int !in [0xA, 0xD, 0x2028, 0x2029]) <==>
            forall p :: RegexTest(GlobToRegex(p), s) == Some(GlobAccepts(p, s))
  {
    TerminatorsByCode(s);
    if NoLineTerminator(s) {
      forall p ensures RegexTest(GlobToRegex(p), s) == Some(GlobAccepts(p, s)) {
        GlobTranslationPreservesMeaning(p, s);
      }
    } else {
      var regex := GlobToRegex("*");
      assert regex[1..|regex| - 1] == RegexBody("*");
      EmittedRegexParses("*");
      assert TermsOf("*") == [Term(Dot, true)];
      DotStarStopsAtLineTerminator(s);
      StarAcceptsAll(s);
      assert RegexTest(regex, s) == Some(false);
    }
  }

  lemma TerminatorsByCode(s: string)
    ensures NoLineTerminator(s) <==>
            forall i :: 0 <= i < |s| ==> s[i] as int !in [0xA, 0xD, 0x2028, 0x2029]
  {
    assert '\n' as int == 0xA && '\r' as int == 0xD && '\U{2028}' as int == 0x2028 && '\U{2029}' as int == 0x2029;
  }

  // ---- Prefix patterns ----

  predicate Literal(p: string)
  {
    '*' !in p && '?' !in p
  }

  /** A literal prefix followed by `*` denotes exactly the strings with that prefix. */
  lemma {:induction false} PrefixPattern(prefix: string, s: string)
    requires Literal(prefix)
    ensures GlobAccepts(prefix + "*", s) <==> prefix <= s
  {
    var p := prefix + "*";
    if prefix == "" {
      assert p == "*";
      StarAcceptsAll(s);
    } else {
      assert prefix[0] in prefix;
      assert p[1..] == prefix[1..] + "*";
      if s != "" && prefix[0] == s[0] {
        PrefixPattern(prefix[1..], s[1..]);
        assert prefix <= s <==> prefix[1..] <= s[1..];
      }
    }
  }

  /** Whatever follows a literal prefix, the pattern accepts only strings with that prefix. */
  lemma {:induction false} LiteralPrefixNeeded(prefix: string, rest: string, s: string)
    requires Literal(prefix)
    ensures GlobAccepts(prefix + rest, s) ==> prefix <= s
  {
    if prefix != "" && s != "" {
      var p := prefix + rest;
      assert prefix[0] in prefix;
      assert p[1..] == prefix[1..] + rest;
      LiteralPrefixNeeded(prefix[1..], rest, s[1..]);
    }
  }

  /** Any pattern accepts the strings that extend its own text, wildcards standing for themselves. */
  lemma {:induction false} PatternAcceptsItsOwnExtensions(prefix: string, rest: string)
    ensures GlobAccepts(prefix + "*", prefix + rest)
  {
    var p, s := prefix + "*", prefix + rest;
    if prefix == "" {
      assert p == "*" && s == rest;
      StarAcceptsAll(s);
    } else {
      assert p[1..] == prefix[1..] + "*" && s[1..] == prefix[1..] + rest;
      PatternAcceptsItsOwnExtensions(prefix[1..], rest);
      if p[0] == '*' {
        assert GlobAccepts(p, s[1..]);  // the star matches no more
      }
    }
  }
}
