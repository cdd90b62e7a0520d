/**
 The glob compiler of internal/proxy/filter.go: a glob is turned into the text of a regular
 expression by quoting it and replacing two substrings, and the text is compiled.
 */
module Glob {
  import opened Prelude
  import opened Strings

  // ---- the compiler's text ----

  /** The characters `regexp.QuoteMeta` escapes. */
  predicate IsMeta(c: char) {
    c in "\\.+*?()|[]{}^$"
  }

  function QuoteChar(c: char): string {
    if IsMeta(c) then ['\\', c] else [c]
  }

  function QuoteMeta(p: string): string {
    if p == [] then [] else QuoteChar(p[0]) + QuoteMeta(p[1..])
  }

  function GlobText(pat: string): string {
    var q := QuoteMeta(pat);
    var q1 := ReplaceAll(q, "\\*", ".*");
    var q2 := ReplaceAll(q1, "\\?", ".");
    "^" + q2 + "$"
  }

  // ---- the same, token by token ----

  function StarToken(c: char): string {
    if c == '*' then ".*" else QuoteChar(c)
  }

  function StarText(p: string): string {
    if p == [] then [] else StarToken(p[0]) + StarText(p[1..])
  }

  function Token(c: char): string {
    if c == '*' then ".*" else if c == '?' then "." else QuoteChar(c)
  }

  function TokenText(p: string): string {
    if p == [] then [] else Token(p[0]) + TokenText(p[1..])
  }

  /** Replacing `\\d` leaves a character quoted for another reason alone, if what follows does not begin with `d`. */
  lemma QuotedStays(c: char, d: char, rest: string, with: string)
    requires c != d && IsMeta(d) && (rest == [] || rest[0] != d)
    ensures ReplaceAll(QuoteChar(c) + rest, ['\\', d], with) == QuoteChar(c) + ReplaceAll(rest, ['\\', d], with)
  {
    assert rest != [] ==> ([c] + rest)[1] == rest[0];
    ReplaceSkips(c, rest, ['\\', d], with);
    if IsMeta(c) {
      assert (['\\'] + ([c] + rest))[1] == c;
      ReplaceSkips('\\', [c] + rest, ['\\', d], with);
      assert QuoteChar(c) + rest == ['\\'] + ([c] + rest);
    }
  }

  lemma {:induction false} StarPass(p: string)
    ensures ReplaceAll(QuoteMeta(p), "\\*", ".*") == StarText(p)
  {
    if p != [] {
      StarPass(p[1..]);
      var rest := QuoteMeta(p[1..]);
      if p[0] == '*' {
        ReplaceTakes(rest, "\\*", ".*");
      } else {
        QuotedStays(p[0], '*', rest, ".*");
      }
    }
  }

  lemma StarStays(rest: string)
    ensures ReplaceAll(".*" + rest, "\\?", ".") == ".*" + ReplaceAll(rest, "\\?", ".")
  {
    assert "\\?"[0] == '\\' && (['*'] + rest)[0] == '*' && (['.'] + (['*'] + rest))[0] == '.';
    ReplaceSkips('*', rest, "\\?", ".");
    ReplaceSkips('.', ['*'] + rest, "\\?", ".");
    assert ".*" + rest == ['.'] + (['*'] + rest);
  }

  lemma {:induction false} QuestionPass(p: string)
    ensures ReplaceAll(StarText(p), "\\?", ".") == TokenText(p)
  {
    if p != [] {
      QuestionPass(p[1..]);
      var rest := StarText(p[1..]);
      if p[0] == '?' {
        ReplaceTakes(rest, "\\?", ".");
      } else if p[0] == '*' {
        StarStays(rest);
        assert StarText(p) == ".*" + rest;
      } else {
        QuotedStays(p[0], '?', rest, ".");
      }
    }
  }

  /** Quoting and then replacing twice is the translation token by token, for every glob. */
  lemma TextIsTokenwise(p: string)
    ensures GlobText(p) == "^" + TokenText(p) + "$"
  {
    StarPass(p);
    QuestionPass(p);
  }

  // ---- regular expressions ----

  /** Single-character expressions, their repetition, and the two text anchors. */
  datatype Node = Lit(c: char) | AnyButNewline | Star(atom: Node) | Begin | End

  datatype Parsed = Regex(nodes: seq<Node>) | Unsupported

  /** One unrepeated expression at the head of `t`, and what follows it. */
  function ParseAtom(t: string): Option<(Node, string)> {
    if t == [] then None
    else if t[0] == '\\' then
      if |t| > 1 && IsMeta(t[1]) then Some((Lit(t[1]), t[2..])) else None
    else if t[0] == '.' then Some((AnyButNewline, t[1..]))
    else if t[0] == '^' then Some((Begin, t[1..]))
    else if t[0] == '$' then Some((End, t[1..]))
    else if IsMeta(t[0]) then None
    else Some((Lit(t[0]), t[1..]))
  }

  predicate IsRepeat(t: string) {
    t != [] && t[0] in "*+?{"
  }

  /** `regexp.Compile` for literals, ".", "*", "^" and "$"; other syntax is Unsupported. */
  function Parse(t: string): Parsed
    decreases |t|
  {
    if t == [] then Regex([])
    else
      var atom := ParseAtom(t);
      if atom.None? then Unsupported
      else
        var (node, rest) := atom.value;
        if |rest| >= |t| then Unsupported
        else if !IsRepeat(rest) then Prepend(node, Parse(rest))
        else if rest[0] == '*' && (node.Lit? || node.AnyButNewline?) && !IsRepeat(rest[1..]) then
          Prepend(Star(node), Parse(rest[1..]))
        else Unsupported
  }

  function Prepend(n: Node, p: Parsed): Parsed {
    if p.Regex? then Regex([n] + p.nodes) else Unsupported
  }

  predicate CharOk(n: Node, c: char) {
    match n
    case Lit(d) => c == d
    case AnyButNewline => c != '\n'
    case _ => false
  }

  predicate RunOk(n: Node, run: string) {
    forall c | c in run :: CharOk(n, c)
  }

  /** Some match of `re` starts at position `i`. */
  predicate MatchFrom(re: seq<Node>, s: string, i: nat)
    requires i <= |s|
    decreases |re|
  {
    if re == [] then true
    else match re[0]
      case Begin => i == 0 && MatchFrom(re[1..], s, i)
      case End => i == |s| && MatchFrom(re[1..], s, i)
      case Star(n) =>
        exists k | i <= k <= |s| :: RunOk(n, s[i..k]) && MatchFrom(re[1..], s, k)
      case n => i < |s| && CharOk(n, s[i]) && MatchFrom(re[1..], s, i + 1)
  }

  /** The unanchored search `MatchString` makes. */
  predicate MatchString(re: seq<Node>, s: string) {
    exists i | 0 <= i <= |s| :: MatchFrom(re, s, i)
  }

  // ---- globs ----

  /** The direct matcher; `newlines` says whether a wildcard may stand for a newline. */
  predicate Matches(p: string, s: string, newlines: bool) {
    if p == [] then s == []
    else if p[0] == '*' then
      exists k | 0 <= k <= |s| :: (newlines || '\n' !in s[..k]) && Matches(p[1..], s[k..], newlines)
    else if p[0] == '?' then s != [] && (newlines || s[0] != '\n') && Matches(p[1..], s[1..], newlines)
    else s != [] && s[0] == p[0] && Matches(p[1..], s[1..], newlines)
  }

  /** As documented: "*" any run of characters, "?" exactly one, everything else itself. */
  predicate GlobMatches(p: string, s: string) {
    Matches(p, s, true)
  }

  predicate LineMatches(p: string, s: string) {
    Matches(p, s, false)
  }

  /** What the glob language means, sign by sign. */
  lemma GlobLaws(p: string, s: string, c: char)
    ensures GlobMatches("", s) <==> s == ""
    ensures GlobMatches("*" + p, s) <==> exists k | 0 <= k <= |s| :: GlobMatches(p, s[k..])
    ensures GlobMatches("?" + p, s) <==> s != "" && GlobMatches(p, s[1..])
    ensures c != '*' && c != '?' ==> (GlobMatches([c] + p, s) <==> s != "" && s[0] == c && GlobMatches(p, s[1..]))
  {
    assert ("*" + p)[1..] == p && ("?" + p)[1..] == p && ([c] + p)[1..] == p;
    if k :| 0 <= k <= |s| && GlobMatches(p, s[k..]) {
      assert Matches(("*" + p)[1..], s[k..], true);
    }
  }

  function NodeOf(c: char): Node {
    if c == '*' then Star(AnyButNewline) else if c == '?' then AnyButNewline else Lit(c)
  }

  function NodesOf(p: string): seq<Node> {
    if p == [] then []
    else [NodeOf(p[0])] + NodesOf(p[1..])
  }

  lemma StartsNoRepeat(p: string)
    ensures !IsRepeat(TokenText(p) + "$")
  {
  }

  lemma ParseStep(tok: string, node: Node, rest: string)
    requires tok != [] && ParseAtom(tok + rest) == Some((node, rest)) && !IsRepeat(rest)
    ensures Parse(tok + rest) == Prepend(node, Parse(rest))
  {
  }

  lemma ParseStar(rest: string)
    requires !IsRepeat(rest)
    ensures Parse(".*" + rest) == Prepend(Star(AnyButNewline), Parse(rest))
  {
    var t := ".*" + rest;
    assert t[1..] == ['*'] + rest && t[1..][1..] == rest;
  }

  lemma ParseToken(c: char, rest: string)
    requires !IsRepeat(rest)
    ensures Parse(Token(c) + rest) == Prepend(NodeOf(c), Parse(rest))
  {
    if c == '*' {
      ParseStar(rest);
    } else {
      var t := Token(c) + rest;
      assert t[|Token(c)|..] == rest;
      ParseStep(Token(c), NodeOf(c), rest);
    }
  }

  lemma {:induction false} ParsesTokens(p: string)
    ensures Parse(TokenText(p) + "$") == Regex(NodesOf(p) + [End])
  {
    if p == [] {
      assert "$"[1..] == "";
      ParseStep("$", End, "");
    } else {
      ParsesTokens(p[1..]);
      var rest := TokenText(p[1..]) + "$";
      StartsNoRepeat(p[1..]);
      ParseToken(p[0], rest);
      assert TokenText(p) + "$" == Token(p[0]) + rest;
      assert NodesOf(p) + [End] == [NodeOf(p[0])] + (NodesOf(p[1..]) + [End]);
    }
  }

  /** The compiled form of a glob; `fits` stands for the size limit of `regexp.Compile`. */
  function CompileGlob(pat: string, fits: string -> bool): Option<seq<Node>> {
    var t := GlobText(pat);
    if fits(t) && Parse(t).Regex? then Some(Parse(t).nodes) else None
  }

  /** Quoting makes every glob compile: only the size limit can refuse one. */
  lemma EveryGlobCompiles(pat: string, fits: string -> bool)
    ensures CompileGlob(pat, fits) == if fits(GlobText(pat)) then Some([Begin] + NodesOf(pat) + [End]) else None
  {
    TextIsTokenwise(pat);
    ParsesTokens(pat);
    StartsNoRepeat(pat);
    var rest := TokenText(pat) + "$";
    assert ("^" + rest)[1..] == rest;
    ParseStep("^", Begin, rest);
    assert GlobText(pat) == "^" + rest;
    assert [Begin] + (NodesOf(pat) + [End]) == [Begin] + NodesOf(pat) + [End];
  }

  lemma {:induction false} NodesMatch(p: string, s: string, i: nat)
    requires i <= |s|
    ensures MatchFrom(NodesOf(p) + [End], s, i) <==> LineMatches(p, s[i..])
  {
    var re := NodesOf(p) + [End];
    if p == [] {
      assert re == [End] && MatchFrom([], s, i);
    } else {
      assert re[1..] == NodesOf(p[1..]) + [End];
      var rest := s[i..];
      if p[0] == '*' {
        if MatchFrom(re, s, i) {
          var k :| i <= k <= |s| && RunOk(AnyButNewline, s[i..k]) && MatchFrom(re[1..], s, k);
          NodesMatch(p[1..], s, k);
          assert rest[..k - i] == s[i..k] && rest[k - i..] == s[k..];
        }
        if LineMatches(p, rest) {
          var n :| 0 <= n <= |rest| && '\n' !in rest[..n] && LineMatches(p[1..], rest[n..]);
          NodesMatch(p[1..], s, i + n);
          assert rest[..n] == s[i..i + n] && rest[n..] == s[i + n..];
        }
      } else if i < |s| {
        NodesMatch(p[1..], s, i + 1);
        assert s[i + 1..] == rest[1..] && rest[0] == s[i];
      }
    }
  }

  /** What the compiled regular expression accepts. */
  predicate Accepts(pat: string, s: string) {
    MatchString([Begin] + NodesOf(pat) + [End], s)
  }

  /** The compiled expression is the direct matcher in which a wildcard stands for anything but a newline. */
  lemma AcceptsLineMatches(pat: string, s: string)
    ensures Accepts(pat, s) <==> LineMatches(pat, s)
  {
    var re := [Begin] + NodesOf(pat) + [End];
    assert re[1..] == NodesOf(pat) + [End] && s[0..] == s;
    NodesMatch(pat, s, 0);
    assert MatchFrom(re, s, 0) <==> LineMatches(pat, s);
    assert forall i | 0 < i <= |s| :: !MatchFrom(re, s, i);
  }

  lemma {:induction false} WildcardsAgree(p: string, s: string)
    requires '\n' !in s
    ensures LineMatches(p, s) <==> GlobMatches(p, s)
  {
    if p != [] {
      forall k | 0 <= k <= |s| ensures LineMatches(p[1..], s[k..]) <==> GlobMatches(p[1..], s[k..]) {
        WildcardsAgree(p[1..], s[k..]);
      }
    }
  }

  /** For every glob and every newline-free name the compiled expression means what the glob says. */
  lemma CompilationPreservesMeaning(pat: string, s: string)
    requires '\n' !in s
    ensures Accepts(pat, s) <==> GlobMatches(pat, s)
  {
    AcceptsLineMatches(pat, s);
    WildcardsAgree(pat, s);
  }

  // ---- names with a newline ----

  /** The documented meaning fails on a name with a newline: `*` does not match it. */
  lemma NewlineEscapesStar()
    ensures GlobMatches("*", "a\nb") && !Accepts("*", "a\nb")
  {
    StarMatchesAll("a\nb");
    StarNeedsOneLine("a\nb");
  }

  lemma StarMatchesAll(s: string)
    ensures GlobMatches("*", s)
  {
    assert s[|s|..] == "" && "*"[1..] == "";
    assert Matches("*"[1..], s[|s|..], true);
  }

  lemma StarNeedsOneLine(s: string)
    ensures Accepts("*", s) ==> '\n' !in s
  {
    AcceptsLineMatches("*", s);
    if LineMatches("*", s) {
      NewlinesAreLiteral("*", s);
      assert "*"[1..] == "" && Newlines("*") == 0;
      NoNewlines(s);
    }
  }

  lemma {:induction false} NoNewlines(s: string)
    ensures Newlines(s) == 0 <==> '\n' !in s
  {
    if s != [] {
      NoNewlines(s[1..]);
    }
  }

  /** A name is treated as documented by every glob exactly when it has no newline. */
  lemma NameIsSafeIff(s: string)
    ensures (forall p :: Accepts(p, s) <==> GlobMatches(p, s)) <==> '\n' !in s
  {
    if '\n' in s {
      StarMatchesAll(s);
      StarNeedsOneLine(s);
    } else {
      forall p ensures Accepts(p, s) <==> GlobMatches(p, s) { CompilationPreservesMeaning(p, s); }
    }
  }

  function Newlines(s: string): nat {
    if s == [] then 0 else (if s[0] == '\n' then 1 else 0) + Newlines(s[1..])
  }

  lemma {:induction false} NewlinesAfterRun(s: string, k: nat)
    requires k <= |s| && '\n' !in s[..k]
    ensures Newlines(s) == Newlines(s[k..])
  {
    if k > 0 {
      assert s[..k][0] == s[0] && s[1..][..k - 1] == s[1..k] && s[1..][k - 1..] == s[k..];
      assert forall c | c in s[1..k] :: c in s[..k];
      NewlinesAfterRun(s[1..], k - 1);
    }
  }

  /** In a name that the compiled expression accepts, every newline is one the glob spells out. */
  lemma {:induction false} NewlinesAreLiteral(p: string, s: string)
    requires LineMatches(p, s)
    ensures Newlines(s) == Newlines(p)
  {
    if p != [] {
      if p[0] == '*' {
        var k :| 0 <= k <= |s| && '\n' !in s[..k] && LineMatches(p[1..], s[k..]);
        NewlinesAfterRun(s, k);
        NewlinesAreLiteral(p[1..], s[k..]);
      } else {
        NewlinesAreLiteral(p[1..], s[1..]);
      }
    }
  }

  /** The name a glob spells when every wildcard stands for a newline. */
  function NewlineForWild(p: string): string {
    if p == [] then [] else [if p[0] == '*' || p[0] == '?' then '\n' else p[0]] + NewlineForWild(p[1..])
  }

  lemma {:induction false} NewlineForWildMatches(p: string)
    ensures GlobMatches(p, NewlineForWild(p))
    ensures Newlines(NewlineForWild(p)) >= Newlines(p)
    ensures '*' in p || '?' in p ==> Newlines(NewlineForWild(p)) > Newlines(p)
  {
    if p != [] {
      NewlineForWildMatches(p[1..]);
      var s := NewlineForWild(p);
      assert s[1..] == NewlineForWild(p[1..]);
      assert p[0] == '*' ==> Matches(p[1..], s[1..], true);
    }
  }

  lemma {:induction false} LiteralGlob(p: string, s: string)
    requires '*' !in p && '?' !in p
    ensures LineMatches(p, s) <==> GlobMatches(p, s)
  {
    if p != [] && s != [] {
      LiteralGlob(p[1..], s[1..]);
    }
  }

  /** A glob treats every name as documented exactly when it has no wildcard. */
  lemma GlobIsSafeIff(p: string)
    ensures (forall s :: Accepts(p, s) <==> GlobMatches(p, s)) <==> '*' !in p && '?' !in p
  {
    if '*' in p || '?' in p {
      var s := NewlineForWild(p);
      NewlineForWildMatches(p);
      AcceptsLineMatches(p, s);
      if LineMatches(p, s) { NewlinesAreLiteral(p, s); }
    } else {
      forall s ensures Accepts(p, s) <==> GlobMatches(p, s) {
        AcceptsLineMatches(p, s);
        LiteralGlob(p, s);
      }
    }
  }
}
