/** What a reload makes of a config file that only spells the same options differently. */
module Respelling {
  import Config
  import opened ManagerWorld
  import opened Reconcile

  /** One server entry as written. */
  datatype Raw = Raw(options: Config.Value, endpoint: string)

  datatype File = File(proxy: Config.Value, servers: map<string, Raw>)

  /** What loading the file gives: every entry with inheritance applied. */
  function Loaded(f: File): Configs {
    map n | n in f.servers :: Cfg(Config.Effective(f.proxy, f.servers[n].options), f.servers[n].endpoint)
  }

  /** Each server keeps its endpoint and inherits what it does not set. */
  lemma LoadedMeaning(f: File, n: string)
    requires n in f.servers
    ensures Loaded(f).Keys == f.servers.Keys && Loaded(f)[n].endpoint == f.servers[n].endpoint
    ensures Config.FieldsInherited(Loaded(f)[n].options, f.proxy, f.servers[n].options)
  {
    Config.EffectiveIff(Loaded(f)[n].options, f.proxy, f.servers[n].options);
  }

  /** The same servers at the same endpoints, with options that mean the same. */
  predicate SameMeaning(f: File, g: File) {
    && Config.Respelled(f.proxy, g.proxy)
    && f.servers.Keys == g.servers.Keys
    && forall n | n in f.servers ::
         f.servers[n].endpoint == g.servers[n].endpoint && Config.Respelled(f.servers[n].options, g.servers[n].options)
  }

  lemma LoadsEqual(f: File, g: File)
    requires SameMeaning(f, g)
    ensures Loaded(f) == Loaded(g)
  {
    Config.FoldingIsCanonical(f.proxy, g.proxy);
    forall n | n in f.servers ensures n in g.servers && Loaded(f)[n] == Loaded(g)[n] {
      assert n in g.servers.Keys;
      Config.FoldingIsCanonical(f.servers[n].options, g.servers[n].options);
    }
  }

  /** A reload from one spelling to another changes no record, no state and no mounted pattern, and stops nothing. */
  lemma RespellingIsNoOp(env: Env, dial: Dialer, f: File, g: File, w0: World, w: World)
    requires SameMeaning(f, g) && Agreed(env, w0) && Agreed(env, w) && ConfigsOf(w0) == Loaded(f)
    requires forall n :: Done(env, dial, Loaded(g), w0, w, n)
    ensures w.servers == w0.servers && w.states == w0.states && w.routes.Keys == w0.routes.Keys
    ensures forall n | n in w0.servers && w0.servers[n].route != "" :: w0.servers[n].id in w.live
  {
    LoadsEqual(f, g);
    SameConfigIsNoOp(env, dial, w0, w);
    forall n | n in w0.servers && w0.servers[n].route != "" ensures w0.servers[n].id in w.live {
      ReplacedAreStopped(env, dial, Loaded(g), w0, w, n);
      assert n in ConfigsOf(w0);
    }
  }

  function WithOptions(f: File, name: string, options: Config.Value): File
    requires name in f.servers
  {
    f.(servers := f.servers[name := f.servers[name].(options := options)])
  }

  /** In particular when a server or the proxy goes over to the current spelling of its tool filter. */
  lemma ModernizingIsRespelling(f: File, name: string, tools: Config.Rule)
    ensures name in f.servers && Config.ToolsUnset(f.servers[name].options) ==>
              SameMeaning(WithOptions(f, name, Config.WithToolFilter(f.servers[name].options, tools)),
                          WithOptions(f, name, Config.WithFilterTools(f.servers[name].options, tools)))
    ensures Config.ToolsUnset(f.proxy) ==>
              SameMeaning(f.(proxy := Config.WithToolFilter(f.proxy, tools)),
                          f.(proxy := Config.WithFilterTools(f.proxy, tools)))
  {
    if name in f.servers {
      Config.SpellingsLoadEqual(f.servers[name].options, tools);
    }
    Config.SpellingsLoadEqual(f.proxy, tools);
  }
}
