/** The capability filter of internal/proxy/filter.go: a rule compiled to a predicate on names. */
module Filter {
  import opened Prelude
  import opened Strings
  import opened Glob

  /** One allow- or block-list, as configured; an absent list and an empty one differ when configs are compared. */
  datatype Rule = Rule(mode: string, list: Option<seq<string>>)

  function Globs(r: Rule): seq<string> {
    if r.list.None? then [] else r.list.value
  }

  /** The closure `compileRule` returns. */
  datatype FilterFn = AllowAll | Patterns(pats: seq<seq<Node>>, block: bool)

  predicate IsBlock(r: Rule) {
    ToLower(r.mode) == "block"
  }

  /** The globs of the list that `regexp.Compile` does not refuse for their size. */
  function Usable(list: seq<string>, fits: string -> bool): seq<string> {
    if list == [] then []
    else if fits(GlobText(list[|list| - 1])) then Usable(list[..|list| - 1], fits) + [list[|list| - 1]]
    else Usable(list[..|list| - 1], fits)
  }

  predicate AnyAccepts(globs: seq<string>, s: string) {
    exists i | 0 <= i < |globs| :: Accepts(globs[i], s)
  }

  /** What a rule says about a name: no rule, an empty list, or no usable glob exposes everything. */
  predicate Exposes(rule: Option<Rule>, fits: string -> bool, s: string) {
    rule.None? || Usable(Globs(rule.value), fits) == []
    || (AnyAccepts(Usable(Globs(rule.value), fits), s) != IsBlock(rule.value))
  }

  /** The compiled filter means what the rule says. */
  predicate Compiled(f: FilterFn, rule: Option<Rule>, fits: string -> bool) {
    if rule.None? || Usable(Globs(rule.value), fits) == [] then f == AllowAll
    else
      && f.Patterns? && f.block == IsBlock(rule.value)
      && CompiledList(f.pats, Usable(Globs(rule.value), fits))
  }

  predicate CompiledList(pats: seq<seq<Node>>, globs: seq<string>) {
    |pats| == |globs| && forall i | 0 <= i < |globs| :: pats[i] == [Begin] + NodesOf(globs[i]) + [End]
  }

  method CompileRule(rule: Option<Rule>, fits: string -> bool) returns (f: FilterFn)
    ensures Compiled(f, rule, fits)
  {
    if rule.None? || |Globs(rule.value)| == 0 {
      return AllowAll;
    }
    var list := Globs(rule.value);
    var pats: seq<seq<Node>> := [];
    var i := 0;
    while i < |list|
      invariant 0 <= i <= |list| && CompiledList(pats, Usable(list[..i], fits))
    {
      assert list[..i + 1][..i] == list[..i] && list[..i + 1][i] == list[i];
      EveryGlobCompiles(list[i], fits);
      var re := CompileGlob(list[i], fits);
      if re.Some? {
        pats := pats + [re.value];
      }
      i := i + 1;
    }
    assert list[..i] == list;
    if |pats| == 0 {
      return AllowAll;
    }
    return Patterns(pats, IsBlock(rule.value));
  }

  /** The call of the compiled closure. */
  method Allows(f: FilterFn, s: string, ghost rule: Option<Rule>, ghost fits: string -> bool) returns (ok: bool)
    requires Compiled(f, rule, fits)
    ensures ok == Exposes(rule, fits, s)
  {
    if f.AllowAll? {
      return true;
    }
    ghost var globs := Usable(Globs(rule.value), fits);
    var i := 0;
    while i < |f.pats|
      invariant 0 <= i <= |f.pats| && forall k | 0 <= k < i :: !Accepts(globs[k], s)
    {
      if MatchString(f.pats[i], s) {
        assert Accepts(globs[i], s);
        return !f.block;
      }
      i := i + 1;
    }
    assert !AnyAccepts(globs, s);
    return f.block;
  }

  /** The usable globs of a list, in any position. */
  lemma {:induction false} UsableIff(list: seq<string>, fits: string -> bool, glob: string)
    ensures glob in Usable(list, fits) <==> exists i | 0 <= i < |list| :: list[i] == glob && fits(GlobText(glob))
  {
    if list != [] {
      UsableIff(list[..|list| - 1], fits, glob);
      assert forall i | 0 <= i < |list| - 1 :: list[..|list| - 1][i] == list[i];
    }
  }

  /** Some glob of the rule compiles and matches the name. */
  predicate SomeGlobMatches(r: Rule, fits: string -> bool, s: string) {
    exists i | 0 <= i < |Globs(r)| :: fits(GlobText(Globs(r)[i])) && GlobMatches(Globs(r)[i], s)
  }

  /** No glob of the rule compiles, if it has any. */
  predicate NoGlobFits(r: Rule, fits: string -> bool) {
    forall i | 0 <= i < |Globs(r)| :: !fits(GlobText(Globs(r)[i]))
  }

  /**
   The documented meaning, for newline-free names: an allow rule exposes exactly the names some glob
   of its list matches, a rule whose mode is "block" up to case exactly the others, and a list without
   a glob that compiles exposes all.
  */
  lemma RuleMeaning(r: Rule, fits: string -> bool, s: string)
    requires '\n' !in s
    ensures Exposes(Some(r), fits, s) <==>
            NoGlobFits(r, fits) || (SomeGlobMatches(r, fits, s) != SameUpToCase(r.mode, "block"))
  {
    LowerOfLower(r.mode, "block");
    var globs := Usable(Globs(r), fits);
    forall g ensures g in globs <==> exists i | 0 <= i < |Globs(r)| :: Globs(r)[i] == g && fits(GlobText(g)) {
      UsableIff(Globs(r), fits, g);
    }
    UsableEmptyIff(r, fits, globs);
    UsableAcceptsIff(r, fits, globs, s);
  }

  lemma UsableEmptyIff(r: Rule, fits: string -> bool, globs: seq<string>)
    requires forall g :: g in globs <==> exists i | 0 <= i < |Globs(r)| :: Globs(r)[i] == g && fits(GlobText(g))
    ensures globs == [] <==> NoGlobFits(r, fits)
  {
    if globs != [] { assert globs[0] in globs; }
    forall i | 0 <= i < |Globs(r)| && fits(GlobText(Globs(r)[i])) ensures Globs(r)[i] in globs {
    }
  }

  lemma UsableAcceptsIff(r: Rule, fits: string -> bool, globs: seq<string>, s: string)
    requires '\n' !in s
    requires forall g :: g in globs <==> exists i | 0 <= i < |Globs(r)| :: Globs(r)[i] == g && fits(GlobText(g))
    ensures AnyAccepts(globs, s) <==> SomeGlobMatches(r, fits, s)
  {
    if AnyAccepts(globs, s) {
      var k :| 0 <= k < |globs| && Accepts(globs[k], s);
      CompilationPreservesMeaning(globs[k], s);
      assert globs[k] in globs;
    }
    if i :| 0 <= i < |Globs(r)| && fits(GlobText(Globs(r)[i])) && GlobMatches(Globs(r)[i], s) {
      CompilationPreservesMeaning(Globs(r)[i], s);
      assert Globs(r)[i] in globs;
      var k :| 0 <= k < |globs| && globs[k] == Globs(r)[i];
    }
  }
}
