/**
 * The wall model's plugin host: it initializes the configured plugins in
 * order, keeps them in a name-keyed map, holds the dictionary of registered
 * plugin APIs, and tears the plugins down again.
 *
 * Everything the host does that others can observe (calls into plugin hooks
 * and values emitted on its two event streams) is recorded in one trace. What
 * a plugin hook itself does is not part of the model.
 */
module PluginHost {

  /** A configured plugin: its name, a handle standing for the object's
      identity, and whether it defines `onWallPluginDestroy`. */
  datatype Plugin = Plugin(name: string, handle: nat, hasDestroyHook: bool)

  /** A value in the API dictionary; `core2` starts out as `null`. */
  datatype ApiSurface = NullApi | Surface(handle: nat)

  const Core2 := "core2"

  /** Observable effects, in the order they happen. */
  datatype Effect =
    | OnWallInitialize(initialized: Plugin)   // a plugin's initialization hook is called
    | PluginInitializedEvent(name: string)    // emitted on `events$`
    | ApiRegisteredEvent(apiName: string)     // emitted on `apiRegistered$`
    | OnWallPluginDestroy(destroyed: Plugin)  // a plugin's teardown hook is called

  predicate NoDuplicates(s: seq<string>)
  {
    forall i, j :: 0 <= i < j < |s| ==> s[i] != s[j]
  }

  function Names(config: seq<Plugin>): (names: seq<string>)
    ensures |names| == |config|
    ensures forall i :: 0 <= i < |config| ==> names[i] == config[i].name
  {
    if config == [] then [] else Names(config[..|config| - 1]) + [config[|config| - 1].name]
  }

  // ---------------------------------------------------------------------------
  // What initialization produces, as functions of the configuration
  // ---------------------------------------------------------------------------

  /** The plugin map after `set(p.name, p)` for each plugin in order. */
  function Registered(config: seq<Plugin>): map<string, Plugin>
  {
    if config == [] then map[]
    else
      var p := config[|config| - 1];
      Registered(config[..|config| - 1])[p.name := p]
  }

  /** The map's key order: a key keeps the position of its first insertion. */
  function KeyOrder(config: seq<Plugin>): seq<string>
  {
    if config == [] then []
    else
      var order := KeyOrder(config[..|config| - 1]);
      var name := config[|config| - 1].name;
      if name in order then order else order + [name]
  }

  /** Per plugin: its hook is called, then its initialized event is emitted. */
  function InitTrace(config: seq<Plugin>): seq<Effect>
  {
    if config == [] then []
    else
      var p := config[|config| - 1];
      InitTrace(config[..|config| - 1]) + [OnWallInitialize(p), PluginInitializedEvent(p.name)]
  }

  /** The values `events$` carried during a trace. */
  function EventsOf(trace: seq<Effect>): seq<string>
  {
    if trace == [] then []
    else
      var e := trace[|trace| - 1];
      EventsOf(trace[..|trace| - 1]) + if e.PluginInitializedEvent? then [e.name] else []
  }

  lemma {:induction false} EventsOfAppend(a: seq<Effect>, b: seq<Effect>)
    ensures EventsOf(a + b) == EventsOf(a) + EventsOf(b)
    decreases |b|
  {
    if b == [] {
      assert a + b == a;
    } else {
      assert (a + b)[..|a + b| - 1] == a + b[..|b| - 1];
      assert (a + b)[|a + b| - 1] == b[|b| - 1];
      EventsOfAppend(a, b[..|b| - 1]);
    }
  }

  /** Each plugin in configuration order: its hook first, then its event. */
  lemma {:induction false} InitTraceInConfigOrder(config: seq<Plugin>)
    ensures |InitTrace(config)| == 2 * |config|
    ensures forall i :: 0 <= i < |config| ==>
      InitTrace(config)[2 * i] == OnWallInitialize(config[i])
      && InitTrace(config)[2 * i + 1] == PluginInitializedEvent(config[i].name)
  {
    if config != [] {
      InitTraceInConfigOrder(config[..|config| - 1]);
    }
  }

  /** Exactly one initialized event per configured plugin, in configuration order, carrying its name. */
  lemma {:induction false} OneEventPerPlugin(config: seq<Plugin>)
    ensures EventsOf(InitTrace(config)) == Names(config)
  {
    if config != [] {
      var p := config[|config| - 1];
      var prefix := config[..|config| - 1];
      OneEventPerPlugin(prefix);
      EventsOfAppend(InitTrace(prefix), [OnWallInitialize(p), PluginInitializedEvent(p.name)]);
      assert EventsOf([OnWallInitialize(p), PluginInitializedEvent(p.name)]) == [p.name] by {
        assert [OnWallInitialize(p), PluginInitializedEvent(p.name)][..1] == [OnWallInitialize(p)];
        assert [OnWallInitialize(p)][..0] == [];
        assert EventsOf([OnWallInitialize(p)]) == [];
      }
    }
  }

  /** A name is stored iff some configured plugin has it, and it maps to the
      LAST configured plugin of that name. */
  lemma {:induction false} RegisteredKeepsLastPerName(config: seq<Plugin>, name: string)
    ensures name in Registered(config) <==> name in Names(config)
    ensures name in Registered(config) ==>
      exists i :: 0 <= i < |config| && config[i] == Registered(config)[name]
        && config[i].name == name
        && forall j :: i < j < |config| ==> config[j].name != name
  {
    if config != [] {
      var prefix := config[..|config| - 1];
      RegisteredKeepsLastPerName(prefix, name);
      assert Names(config) == Names(prefix) + [config[|config| - 1].name];
    }
  }

  /** The key order lists each stored name exactly once. */
  lemma {:induction false} KeyOrderListsKeysOnce(config: seq<Plugin>)
    ensures NoDuplicates(KeyOrder(config))
    ensures forall n :: n in KeyOrder(config) <==> n in Registered(config)
  {
    if config != [] {
      KeyOrderListsKeysOnce(config[..|config| - 1]);
    }
  }

  /** With distinct names the key order is the configuration order. */
  lemma {:induction false} DistinctNamesKeepConfigOrder(config: seq<Plugin>)
    requires forall i, j :: 0 <= i < j < |config| ==> config[i].name != config[j].name
    ensures KeyOrder(config) == Names(config)
  {
    if config != [] {
      var prefix := config[..|config| - 1];
      DistinctNamesKeepConfigOrder(prefix);
      assert config[|config| - 1].name !in Names(prefix);
    }
  }

  // ---------------------------------------------------------------------------
  // What teardown produces
  // ---------------------------------------------------------------------------

  /** Teardown hooks called while visiting the keys in order; plugins without one are skipped. */
  function DestroyTrace(order: seq<string>, plugins: map<string, Plugin>): seq<Effect>
    requires forall k :: 0 <= k < |order| ==> order[k] in plugins
  {
    if order == [] then []
    else
      var p := plugins[order[|order| - 1]];
      DestroyTrace(order[..|order| - 1], plugins) + if p.hasDestroyHook then [OnWallPluginDestroy(p)] else []
  }

  /** Teardown only calls teardown hooks (no event is emitted), and calls the
      hook of exactly the stored plugins that define one. */
  lemma {:induction false} DestroyCallsExactlyTheHooks(order: seq<string>, plugins: map<string, Plugin>)
    requires forall k :: 0 <= k < |order| ==> order[k] in plugins
    ensures forall e :: e in DestroyTrace(order, plugins) ==> e.OnWallPluginDestroy?
    ensures EventsOf(DestroyTrace(order, plugins)) == []
    ensures forall p :: OnWallPluginDestroy(p) in DestroyTrace(order, plugins) <==>
      p.hasDestroyHook && exists k :: 0 <= k < |order| && plugins[order[k]] == p
  {
    if order != [] {
      var prefix := order[..|order| - 1];
      DestroyCallsExactlyTheHooks(prefix, plugins);
      var p := plugins[order[|order| - 1]];
      var tail := if p.hasDestroyHook then [OnWallPluginDestroy(p)] else [];
      EventsOfAppend(DestroyTrace(prefix, plugins), tail);
      if p.hasDestroyHook {
        assert tail[..0] == [];
      }
      forall q ensures OnWallPluginDestroy(q) in DestroyTrace(order, plugins) <==>
        q.hasDestroyHook && exists k :: 0 <= k < |order| && plugins[order[k]] == q
      {
        if q.hasDestroyHook && exists k :: 0 <= k < |order| && plugins[order[k]] == q {
          var k :| 0 <= k < |order| && plugins[order[k]] == q;
          if k < |order| - 1 {
            assert plugins[prefix[k]] == q;
          }
        }
      }
    }
  }

  // ---------------------------------------------------------------------------
  // The host
  // ---------------------------------------------------------------------------

  class WallModel {
    /** The registered plugin APIs by name. */
    var api: map<string, ApiSurface>
    /** The plugin map: its keys in insertion order, and its entries. */
    var pluginOrder: seq<string>
    var plugins: map<string, Plugin>
    /** Everything observable so far, oldest first. */
    var trace: seq<Effect>

    ghost predicate Valid()
      reads this
    {
      && NoDuplicates(pluginOrder)
      && forall n :: n in pluginOrder <==> n in plugins
    }

    /** Initializes the configured plugins, one after the other. */
    constructor(config: seq<Plugin>)
      ensures Valid()
      ensures api == map[Core2 := NullApi]
      ensures plugins == Registered(config) && pluginOrder == KeyOrder(config)
      ensures trace == InitTrace(config)
    {
      api := map[Core2 := NullApi];
      pluginOrder := [];
      plugins := map[];
      trace := [];
      new;
      var i := 0;
      while i < |config|
        invariant 0 <= i <= |config|
        invariant Valid()
        invariant api == map[Core2 := NullApi]
        invariant plugins == Registered(config[..i]) && pluginOrder == KeyOrder(config[..i])
        invariant trace == InitTrace(config[..i])
      {
        assert config[..i + 1][..i] == config[..i];
        InitializePlugin(config[i]);
        i := i + 1;
      }
      assert config[..i] == config;
    }

    /** Calls the plugin's hook, stores it under its name, announces it. */
    method InitializePlugin(plugin: Plugin)
      requires Valid()
      modifies this`pluginOrder, this`plugins, this`trace
      ensures Valid()
      ensures plugins == old(plugins)[plugin.name := plugin]
      ensures pluginOrder == if plugin.name in old(pluginOrder) then old(pluginOrder) else old(pluginOrder) + [plugin.name]
      ensures trace == old(trace) + [OnWallInitialize(plugin), PluginInitializedEvent(plugin.name)]
    {
      trace := trace + [OnWallInitialize(plugin)];
      if plugin.name !in plugins {
        pluginOrder := pluginOrder + [plugin.name];
      }
      plugins := plugins[plugin.name := plugin];
      trace := trace + [PluginInitializedEvent(plugin.name)];
    }

    /** Publishes an API under a name; every other entry is kept. */
    method RegisterApi(apiName: string, surface: ApiSurface)
      modifies this`api, this`trace
      ensures api == old(api)[apiName := surface]
      ensures forall n :: n in old(api) && n != apiName ==> n in api && api[n] == old(api)[n]
      ensures trace == old(trace) + [ApiRegisteredEvent(apiName)]
    {
      api := api[apiName := surface];
      trace := trace + [ApiRegisteredEvent(apiName)];
    }

    /** Calls each stored plugin's teardown hook, in key order. */
    method Destroy()
      requires Valid()
      modifies this`trace
      ensures trace == old(trace) + DestroyTrace(pluginOrder, plugins)
    {
      var i := 0;
      while i < |pluginOrder|
        invariant 0 <= i <= |pluginOrder|
        invariant trace == old(trace) + DestroyTrace(pluginOrder[..i], plugins)
      {
        assert pluginOrder[..i + 1][..i] == pluginOrder[..i];
        DestroyPlugin(plugins[pluginOrder[i]]);
        i := i + 1;
      }
      assert pluginOrder[..i] == pluginOrder;
    }

    method DestroyPlugin(plugin: Plugin)
      modifies this`trace
      ensures trace == old(trace) + if plugin.hasDestroyHook then [OnWallPluginDestroy(plugin)] else []
    {
      if plugin.hasDestroyHook {
        trace := trace + [OnWallPluginDestroy(plugin)];
      }
    }
  }
}
