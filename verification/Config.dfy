/**
 The option inheritance of internal/proxy/config.go and config_deprecated.go, on the heap: option
 and filter blocks are objects, and inheriting a filter shares the proxy's object.
 */
module Config {
  import opened Prelude
  import Filter

  type Rule = Filter.Rule

  /** The options that no pass touches (disabled, callTimeout, mode, idleTimeout, repoWhitelist). */
  datatype Plain = Plain(disabled: bool, callTimeout: string, mode: string, idleTimeout: string,
                         repoWhitelist: Option<seq<string>>)

  const NO_PLAIN := Plain(false, "", "", "", None)

  datatype FilterValue = FilterValue(tools: Option<Rule>, prompts: Option<Rule>, resources: Option<Rule>)

  /** The deep value of an option block, as `reflect.DeepEqual` compares it. */
  datatype Value = Value(
    panicIfInvalid: Option<bool>,
    logEnabled: Option<bool>,
    authTokens: Option<seq<string>>,
    filter: Option<FilterValue>,
    toolFilter: Option<Rule>,
    plain: Plain)

  const NO_OPTIONS := Value(None, None, None, None, None, NO_PLAIN)

  // ---- what the pass means ----

  /** The deprecated rule folded into `filter.tools`, which wins when set. */
  function Folded(v: Value): Value {
    if v.toolFilter.None? then v
    else
      var f := if v.filter.None? then NO_FILTER else v.filter.value;
      v.(toolFilter := None, filter := Some(if f.tools.None? then f.(tools := v.toolFilter) else f))
  }

  function Inherit<T>(own: Option<T>, default: Option<T>): Option<T> {
    if own.None? then default else own
  }

  /** The options an upstream ends up with: a function of its own raw options and the proxy's. */
  function Effective(proxy: Value, own: Value): Value {
    var p, o := Folded(proxy), Folded(own);
    o.(filter := Inherit(o.filter, p.filter),
    authTokens := Inherit(o.authTokens, p.authTokens),
    panicIfInvalid := Inherit(o.panicIfInvalid, p.panicIfInvalid),
    logEnabled := Inherit(o.logEnabled, p.logEnabled))
  }

  /** A second pass changes nothing. */
  lemma PassIsIdempotent(proxy: Value, own: Value)
    ensures Effective(Folded(proxy), Effective(proxy, own)) == Effective(proxy, own)
  {
  }

  const NO_FILTER := FilterValue(None, None, None)

  /** The block with a tool rule, in the deprecated spelling ... */
  function WithToolFilter(own: Value, tools: Rule): Value {
    own.(toolFilter := Some(tools))
  }

  /** ... and in the current one. */
  function WithFilterTools(own: Value, tools: Rule): Value {
    var f := if own.filter.None? then NO_FILTER else own.filter.value;
    own.(toolFilter := None, filter := Some(f.(tools := Some(tools))))
  }

  /** The block has no tool rule in the current spelling; it may have rules for prompts and resources. */
  predicate ToolsUnset(own: Value) {
    own.filter.None? || own.filter.value.tools.None?
  }

  /** A filter block is written, in either spelling; it then keeps the proxy's from being inherited. */
  predicate HasBlock(v: Value) {
    v.filter.Some? || v.toolFilter.Some?
  }

  function ToolRule(v: Value): Option<Rule> {
    if ToolsUnset(v) then v.toolFilter else v.filter.value.tools
  }

  function PromptRule(v: Value): Option<Rule> {
    if v.filter.None? then None else v.filter.value.prompts
  }

  function ResourceRule(v: Value): Option<Rule> {
    if v.filter.None? then None else v.filter.value.resources
  }

  /** Blocks that mean the same: a block of rules in both or in neither, and the same rules and other options. */
  predicate Respelled(a: Value, b: Value) {
    && a.(filter := None, toolFilter := None) == b.(filter := None, toolFilter := None)
    && (HasBlock(a) <==> HasBlock(b))
    && ToolRule(a) == ToolRule(b) && PromptRule(a) == PromptRule(b) && ResourceRule(a) == ResourceRule(b)
  }

  /** Folding keeps the meaning, and gives blocks of the same meaning one form. */
  lemma FoldingIsCanonical(a: Value, b: Value)
    ensures Respelled(a, Folded(a)) && (Respelled(a, b) <==> Folded(a) == Folded(b))
  {
  }

  /** The two spellings mean the same where no tool rule is set; where one is, it wins over the deprecated one. */
  lemma SpellingsLoadEqual(own: Value, tools: Rule)
    ensures ToolsUnset(own) ==> Respelled(WithToolFilter(own, tools), WithFilterTools(own, tools))
    ensures !ToolsUnset(own) ==> Respelled(WithToolFilter(own, tools), own.(toolFilter := None))
  {
  }

  /** Two blocks load deep-equal under every proxy's options exactly when they mean the same. */
  lemma LoadEqualIff(a: Value, b: Value)
    ensures (forall proxy :: Effective(proxy, a) == Effective(proxy, b)) <==> Respelled(a, b)
  {
    FoldingIsCanonical(a, b);
    assert Effective(NO_OPTIONS, a) == Folded(a) && Effective(NO_OPTIONS, b) == Folded(b);
  }

  /** A block of its own, even the deprecated one, keeps an upstream from inheriting any kind of filter. */
  lemma FilterIsInheritedWhole(proxy: Value, own: Value)
    ensures own.filter.None? && own.toolFilter.None? ==> Effective(proxy, own).filter == Folded(proxy).filter
    ensures own.filter.Some? || own.toolFilter.Some? ==> Effective(proxy, own).filter == Folded(own).filter
    ensures Effective(proxy, own).toolFilter.None?
  {
  }

  /** What the pass makes of the raw options, field by field: set fields stay, unset ones come from the proxy. */
  predicate FieldsInherited(r: Value, proxy: Value, own: Value) {
    && r.authTokens == (if own.authTokens.Some? then own.authTokens else proxy.authTokens)
    && r.panicIfInvalid == (if own.panicIfInvalid.Some? then own.panicIfInvalid else proxy.panicIfInvalid)
    && r.logEnabled == (if own.logEnabled.Some? then own.logEnabled else proxy.logEnabled)
    && r.plain == own.plain && r.toolFilter.None?
    && (HasBlock(r) <==> HasBlock(own) || HasBlock(proxy))
    && ToolRule(r) == ToolRule(if HasBlock(own) then own else proxy)
    && PromptRule(r) == PromptRule(if HasBlock(own) then own else proxy)
    && ResourceRule(r) == ResourceRule(if HasBlock(own) then own else proxy)
  }

  /** There is one value that inherits like this. */
  lemma EffectiveIff(r: Value, proxy: Value, own: Value)
    ensures r == Effective(proxy, own) <==> FieldsInherited(r, proxy, own)
  {
  }

  /** A change of one option of the proxy reaches exactly the upstreams that do not set it themselves. */
  lemma ProxyOptionReaches(p: Value, own: Value, tokens: Option<seq<string>>, flag: Option<bool>)
    ensures tokens != p.authTokens ==>
              (Effective(p, own) == Effective(p.(authTokens := tokens), own) <==> own.authTokens.Some?)
    ensures flag != p.panicIfInvalid ==>
              (Effective(p, own) == Effective(p.(panicIfInvalid := flag), own) <==> own.panicIfInvalid.Some?)
    ensures flag != p.logEnabled ==>
              (Effective(p, own) == Effective(p.(logEnabled := flag), own) <==> own.logEnabled.Some?)
  {
    var q, t, u := p.(authTokens := tokens), p.(panicIfInvalid := flag), p.(logEnabled := flag);
    EffectiveIff(Effective(p, own), p, own);
    EffectiveIff(Effective(q, own), q, own);
    EffectiveIff(Effective(t, own), t, own);
    EffectiveIff(Effective(u, own), u, own);
  }

  /** A change of the proxy's filter reaches exactly the upstreams without a block of their own. */
  lemma ProxyFilterReaches(p1: Value, p2: Value, own: Value)
    requires p1.(filter := None, toolFilter := None) == p2.(filter := None, toolFilter := None)
    ensures Effective(p1, own) == Effective(p2, own)
            <==> own.filter.Some? || own.toolFilter.Some? || Folded(p1).filter == Folded(p2).filter
  {
    FilterIsInheritedWhole(p1, own);
    FilterIsInheritedWhole(p2, own);
  }

  // ---- the pass itself ----

  class FilterBlock {
    var tools: Option<Rule>
    var prompts: Option<Rule>
    var resources: Option<Rule>

    constructor ()
      ensures tools == prompts == resources == None
    {
      tools, prompts, resources := None, None, None;
    }
  }

  class Options {
    var panicIfInvalid: Option<bool>
    var logEnabled: Option<bool>
    var authTokens: Option<seq<string>>
    var filter: FilterBlock?
    var toolFilter: Option<Rule>
    var plain: Plain

    constructor ()
      ensures filter == null && Deep() == NO_OPTIONS
      ensures panicIfInvalid == logEnabled == None && authTokens == None && toolFilter == None
      ensures plain == Plain(false, "", "", "", None)
    {
      panicIfInvalid, logEnabled, authTokens := None, None, None;
      filter, toolFilter, plain := null, None, NO_PLAIN;
    }

    function FilterDeep(): Option<FilterValue>
      reads this, filter
    {
      if filter == null then None else Some(FilterValue(filter.tools, filter.prompts, filter.resources))
    }

    function Deep(): Value
      reads this, filter
    {
      Value(panicIfInvalid, logEnabled, authTokens, FilterDeep(), toolFilter, plain)
    }

    /** Folds the deprecated field through the filter pointer, in place. */
    method NormalizeFilter()
      modifies this, if toolFilter.None? then {} else {filter}
      ensures Deep() == Folded(old(Deep()))
      ensures filter == old(filter) || fresh(filter)
    {
      if toolFilter.None? {
        return;
      }
      if filter == null {
        filter := new FilterBlock();
      }
      if filter.tools.None? {
        filter.tools := toolFilter;
      }
      toolFilter := None;
    }

    /** Takes what is unset from the proxy's options; a missing filter becomes the proxy's object. */
    method InheritFrom(p: Options)
      requires p != this && toolFilter.None? && p.toolFilter.None?
      modifies this
      ensures Deep() == Effective(p.Deep(), old(Deep()))
      ensures filter == if old(filter) == null then p.filter else old(filter)
    {
      if filter == null {
        filter := p.filter;
      }
      if authTokens.None? {
        authTokens := p.authTokens;
      }
      if panicIfInvalid.None? {
        panicIfInvalid := p.panicIfInvalid;
      }
      if logEnabled.None? {
        logEnabled := p.logEnabled;
      }
    }
  }

  /** The part of a server entry (or of mcpProxy) that holds an option block, possibly absent. */
  class Entry {
    var options: Options?

    function Raw(): Value
      reads this, options, if options == null then {} else {options.filter}
    {
      if options == null then NO_OPTIONS else options.Deep()
    }
  }

  /** One turn of the loop over the servers: default the block, fold, then inherit. */
  method ResolveEntry(e: Entry, p: Options)
    requires p.toolFilter.None? && e.options != p
    requires e.options != null && e.options.toolFilter.Some? && e.options.filter != null ==>
               e.options.filter != p.filter
    modifies e, e.options
    modifies if e.options != null && e.options.toolFilter.Some? then {e.options.filter} else {}
    ensures e.options != null && (e.options == old(e.options) || fresh(e.options))
    ensures e.options.Deep() == Effective(old(p.Deep()), old(e.Raw()))
    ensures e.options.filter == p.filter || fresh(e.options.filter)
            || (old(e.options) != null && e.options.filter == old(e.options.filter))
  {
    if e.options == null {
      e.options := new Options();
    }
    e.options.NormalizeFilter();
    e.options.InheritFrom(p);
  }

  /** No two entries share an option block. */
  ghost predicate OwnBlocks(proxy: Entry, servers: map<string, Entry>)
    reads proxy, servers.Values
  {
    && (forall n | n in servers :: servers[n] != proxy)
    && (forall n, m | n in servers && m in servers && n != m :: servers[n] != servers[m])
    && (forall n | n in servers && servers[n].options != null :: servers[n].options != proxy.options)
    && (forall n, m | n in servers && m in servers && n != m && servers[n].options != null ::
          servers[n].options != servers[m].options)
  }

  /** The filter of `o` is not the filter of `q`, if there is a deprecated rule to fold into it. */
  predicate FoldsAlone(o: Options?, q: Options?)
    reads o, q
  {
    o != null && q != null && o.toolFilter.Some? && o.filter != null ==> o.filter != q.filter
  }

  /**
   What the pass needs of the object graph: a filter that is about to be written to belongs to one
   block.  It holds of freshly decoded configs, where nothing is shared, and of the pass's result.
  */
  ghost predicate Foldable(proxy: Entry, servers: map<string, Entry>)
    reads proxy, servers.Values, proxy.options, set n | n in servers :: servers[n].options
  {
    && OwnBlocks(proxy, servers)
    && (forall n | n in servers ::
        FoldsAlone(servers[n].options, proxy.options) && FoldsAlone(proxy.options, servers[n].options))
    && (forall n, m | n in servers && m in servers && n != m :: FoldsAlone(servers[n].options, servers[m].options))
  }

  ghost function Blocks(proxy: Entry, servers: map<string, Entry>): set<Options>
    reads proxy, servers.Values
  {
    (set n | n in servers && servers[n].options != null :: servers[n].options)
    + if proxy.options == null then {} else {proxy.options}
  }

  /** A block with nothing to fold joins a graph in which every other block folds alone. */
  lemma FoldableAgain(proxy: Entry, servers: map<string, Entry>, name: string)
    requires OwnBlocks(proxy, servers) && name in servers
    requires proxy.options != null && proxy.options.toolFilter.None?
    requires servers[name].options != null && servers[name].options.toolFilter.None?
    requires forall m | m in servers && m != name ::
               FoldsAlone(servers[m].options, proxy.options) && FoldsAlone(servers[m].options, servers[name].options)
    requires forall m, k | m in servers && k in servers && m != k && m != name && k != name ::
               FoldsAlone(servers[m].options, servers[k].options)
    ensures Foldable(proxy, servers)
  {
  }

  /** One server of the graph: its block is resolved, every other block keeps its value and its pointers. */
  method ResolveServer(proxy: Entry, servers: map<string, Entry>, name: string)
    requires Foldable(proxy, servers) && name in servers
    requires proxy.options != null && proxy.options.toolFilter.None?
    modifies servers[name], servers[name].options
    modifies if servers[name].options != null && servers[name].options.toolFilter.Some?
             then {servers[name].options.filter} else {}
    ensures Foldable(proxy, servers)
    ensures proxy.options == old(proxy.options) && proxy.options.Deep() == old(proxy.options.Deep())
    ensures servers[name].options != null
            && servers[name].options.Deep() == Effective(old(proxy.options.Deep()), old(servers[name].Raw()))
    ensures forall m | m in servers && m != name ::
              && servers[m].options == old(servers[m].options)
              && (servers[m].options != null ==> servers[m].options.filter == old(servers[m].options.filter))
              && servers[m].Raw() == old(servers[m].Raw())
  {
    ResolveEntry(servers[name], proxy.options);
    assert OwnBlocks(proxy, servers);
    FoldableAgain(proxy, servers, name);
  }

  /** The proxy's own block, before the loop: no server's block is touched. */
  method ResolveProxy(proxy: Entry, servers: map<string, Entry>)
    requires Foldable(proxy, servers)
    modifies proxy, proxy.options
    modifies if proxy.options != null && proxy.options.toolFilter.Some? then {proxy.options.filter} else {}
    ensures Foldable(proxy, servers)
    ensures proxy.options != null && proxy.options.Deep() == Folded(old(proxy.Raw()))
    ensures forall m | m in servers ::
              && servers[m].options == old(servers[m].options)
              && (servers[m].options != null ==> servers[m].options.filter == old(servers[m].options.filter))
              && servers[m].Raw() == old(servers[m].Raw())
  {
    if proxy.options == null {
      proxy.options := new Options();
    }
    proxy.options.NormalizeFilter();
  }

  /** The inheritance pass of `load`, visiting the servers in any order. */
  method ResolveOptions(proxy: Entry, servers: map<string, Entry>)
    requires Foldable(proxy, servers)
    modifies proxy, servers.Values, Blocks(proxy, servers)
    modifies set o | o in Blocks(proxy, servers) && o.toolFilter.Some? :: o.filter
    ensures proxy.options != null && proxy.options.Deep() == Folded(old(proxy.Raw()))
    ensures forall n | n in servers ::
              && servers[n].options != null
              && servers[n].options.Deep() == Effective(old(proxy.Raw()), old(servers[n].Raw()))
              && FieldsInherited(servers[n].options.Deep(), old(proxy.Raw()), old(servers[n].Raw()))
    ensures Foldable(proxy, servers)
  {
    ResolveProxy(proxy, servers);
    ghost var p := proxy.options.Deep();
    var todo := servers.Keys;
    while todo != {}
      invariant todo <= servers.Keys
      invariant proxy.options != null && proxy.options.Deep() == p && p.toolFilter.None?
      invariant Foldable(proxy, servers)
      invariant forall n | n in todo ::
                  && servers[n].options == old(servers[n].options)
                  && (servers[n].options != null ==> servers[n].options.filter == old(servers[n].options.filter))
                  && servers[n].Raw() == old(servers[n].Raw())
      invariant forall n | n in servers && n !in todo ::
                  && servers[n].options != null
                  && servers[n].options.Deep() == Effective(p, old(servers[n].Raw()))
      decreases todo
    {
      var n :| n in todo;
      ResolveServer(proxy, servers, n);
      todo := todo - {n};
    }
    forall v ensures Effective(p, v) == Effective(old(proxy.Raw()), v)
                     && FieldsInherited(Effective(p, v), old(proxy.Raw()), v) {
      EffectiveIff(Effective(p, v), old(proxy.Raw()), v);
    }
  }
}
