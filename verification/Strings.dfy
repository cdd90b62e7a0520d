/** The functions of Go's `strings` package that the proxy uses, over strings of ASCII characters. */
module Strings {
  function LowerChar(c: char): char {
    if 'A' <= c <= 'Z' then (c as int + 32) as char else c
  }

  function ToLower(s: string): (r: string)
    ensures |r| == |s| && forall i | 0 <= i < |s| :: r[i] == LowerChar(s[i])
  {
    seq(|s|, i requires 0 <= i < |s| => LowerChar(s[i]))
  }

  /** 'a' and 'A', to 'z' and 'Z'. */
  predicate CasesOfOneLetter(small: char, capital: char) {
    'a' <= small <= 'z' && capital as int - 'A' as int == small as int - 'a' as int
  }

  predicate SameUpToCase(a: string, b: string) {
    && |a| == |b|
    && forall i | 0 <= i < |a| :: a[i] == b[i] || CasesOfOneLetter(a[i], b[i]) || CasesOfOneLetter(b[i], a[i])
  }

  predicate IsCapital(c: char) {
    'A' <= c <= 'Z'
  }

  predicate NoCapitals(s: string) {
    forall i | 0 <= i < |s| :: !IsCapital(s[i])
  }

  /** Lower case holds no capital and differs from the text in nothing but case. */
  lemma LowerMeaning(s: string)
    ensures NoCapitals(ToLower(s)) && SameUpToCase(s, ToLower(s))
  {
  }

  /** Two texts are the same up to case exactly when they are the same in lower case. */
  lemma LowerSameIff(a: string, b: string)
    ensures ToLower(a) == ToLower(b) <==> SameUpToCase(a, b)
  {
    if ToLower(a) == ToLower(b) {
      forall i | 0 <= i < |a| ensures LowerChar(a[i]) == LowerChar(b[i]) {
        assert ToLower(a)[i] == ToLower(b)[i];
      }
    }
  }

  /** What is in lower case and the same as a text without capitals is that text. */
  lemma LowerOfLower(s: string, low: string)
    requires NoCapitals(low)
    ensures ToLower(s) == low <==> SameUpToCase(s, low)
  {
    LowerSameIff(s, low);
    assert ToLower(low) == low;
  }

  /** Leftmost, non-overlapping replacement. */
  function ReplaceAll(s: string, sub: string, with: string): string
    requires |sub| > 0
  {
    if s == [] then []
    else if sub <= s then with + ReplaceAll(s[|sub|..], sub, with)
    else [s[0]] + ReplaceAll(s[1..], sub, with)
  }

  lemma ReplaceSkips(c: char, t: string, sub: string, with: string)
    requires |sub| > 0 && !(sub <= [c] + t)
    ensures ReplaceAll([c] + t, sub, with) == [c] + ReplaceAll(t, sub, with)
  {
    assert ([c] + t)[1..] == t;
  }

  lemma ReplaceTakes(t: string, sub: string, with: string)
    requires |sub| > 0
    ensures ReplaceAll(sub + t, sub, with) == with + ReplaceAll(t, sub, with)
  {
    assert (sub + t)[|sub|..] == t;
  }

  // ---- trimming ----

  /** unicode.IsSpace. */
  predicate IsSpace(c: char) {
    || c in "\t\n\U{0B}\U{0C}\r \U{85}\U{A0}\U{1680}\U{2028}\U{2029}\U{202F}\U{205F}\U{3000}"
    || '\U{2000}' <= c <= '\U{200A}'
  }

  /** Of the ASCII characters, tab to carriage return and the blank. */
  lemma AsciiSpaces(c: char)
    requires c < '\U{80}'
    ensures IsSpace(c) <==> c == ' ' || 9 <= c as int <= 13
  {
  }

  function TrimLeft(s: string, drop: char -> bool): string {
    if s != [] && drop(s[0]) then TrimLeft(s[1..], drop) else s
  }

  function TrimRight(s: string, drop: char -> bool): string {
    if s != [] && drop(s[|s| - 1]) then TrimRight(s[..|s| - 1], drop) else s
  }

  function Trim(s: string, drop: char -> bool): string {
    TrimRight(TrimLeft(s, drop), drop)
  }

  function TrimSpace(s: string): string {
    Trim(s, IsSpace)
  }

  function TrimPrefix(s: string, prefix: string): string {
    if prefix <= s then s[|prefix|..] else s
  }

  predicate HasSuffix(s: string, suffix: string) {
    |suffix| <= |s| && s[|s| - |suffix|..] == suffix
  }

  function TrimSuffix(s: string, suffix: string): string {
    if HasSuffix(s, suffix) then s[..|s| - |suffix|] else s
  }

  predicate All(s: string, p: char -> bool) {
    forall i | 0 <= i < |s| :: p(s[i])
  }

  /** Nothing left to drop at either end. */
  predicate IsTrimmed(s: string, drop: char -> bool) {
    s != "" ==> !drop(s[0]) && !drop(s[|s| - 1])
  }

  lemma {:induction false} TrimLeftTakes(a: string, t: string, drop: char -> bool)
    requires All(a, drop) && (t != "" ==> !drop(t[0]))
    ensures TrimLeft(a + t, drop) == t
  {
    if a != "" {
      assert (a + t)[1..] == a[1..] + t;
      TrimLeftTakes(a[1..], t, drop);
    } else {
      assert a + t == t;
    }
  }

  lemma {:induction false} TrimRightTakes(t: string, b: string, drop: char -> bool)
    requires All(b, drop) && (t != "" ==> !drop(t[|t| - 1]))
    ensures TrimRight(t + b, drop) == t
  {
    if b != "" {
      assert (t + b)[..|t + b| - 1] == t + b[..|b| - 1];
      TrimRightTakes(t, b[..|b| - 1], drop);
    } else {
      assert t + b == t;
    }
  }

  lemma {:induction false} TrimLeftCuts(s: string, drop: char -> bool) returns (a: string)
    ensures All(a, drop) && s == a + TrimLeft(s, drop)
    ensures TrimLeft(s, drop) != "" ==> !drop(TrimLeft(s, drop)[0])
  {
    if s != [] && drop(s[0]) {
      var rest := TrimLeftCuts(s[1..], drop);
      a := [s[0]] + rest;
    } else {
      a := "";
    }
  }

  lemma {:induction false} TrimRightCuts(s: string, drop: char -> bool) returns (b: string)
    ensures All(b, drop) && s == TrimRight(s, drop) + b
    ensures TrimRight(s, drop) != "" ==> !drop(TrimRight(s, drop)[|TrimRight(s, drop)| - 1])
  {
    if s != [] && drop(s[|s| - 1]) {
      var rest := TrimRightCuts(s[..|s| - 1], drop);
      b := rest + [s[|s| - 1]];
    } else {
      b := "";
    }
  }

  /** Trimming finds the one way to write a string as a trimmed text between dropped characters. */
  lemma TrimIff(s: string, t: string, drop: char -> bool)
    ensures Trim(s, drop) == t <==> IsTrimmed(t, drop) && exists a, b :: All(a, drop) && All(b, drop) && s == a + t + b
  {
    if IsTrimmed(t, drop) && exists a, b :: All(a, drop) && All(b, drop) && s == a + t + b {
      var a, b :| All(a, drop) && All(b, drop) && s == a + t + b;
      TrimOf(a, t, b, drop);
    }
    if Trim(s, drop) == t {
      var a := TrimLeftCuts(s, drop);
      var b := TrimRightCuts(TrimLeft(s, drop), drop);
      assert s == a + t + b;
      assert t != "" ==> t[0] == TrimLeft(s, drop)[0];
    }
  }

  lemma TrimOf(a: string, t: string, b: string, drop: char -> bool)
    requires All(a, drop) && All(b, drop) && IsTrimmed(t, drop)
    ensures Trim(a + t + b, drop) == t
  {
    if t == "" {
      assert a + t + b == (a + b) + "";
      TrimLeftTakes(a + b, "", drop);
    } else {
      assert a + t + b == a + (t + b);
      TrimLeftTakes(a, t + b, drop);
      TrimRightTakes(t, b, drop);
    }
  }
}
