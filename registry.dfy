/**
 * The POC registry (src/pocs/mod.rs): a map from plugin name to plugin.
 * `register` inserts a plugin under its own name, replacing any plugin
 * already registered under that name; `get` looks a name up; `list` returns
 * the registered names in the map's iteration order, which is unspecified.
 *
 * The shared lock around the map is not modelled: the calls are sequential.
 */
module Registry {
  import opened Wrappers
  import opened Sequences
  import opened CoreTypes
  import ExamplePlugin
  import RedisPlugin

  /** A registered plugin: one of the two plugins the framework ships. */
  datatype Plugin =
    | Example(example: ExamplePlugin.ExamplePoc)
    | Redis(redis: RedisPlugin.RedisPoc)

  /** `get_name` of the plugin, the key it is registered under. */
  function Name(poc: Plugin): (name: string)
    ensures poc.Example? && poc.example.info == ExamplePlugin.Info ==> name == "Example Vulnerability"
    ensures poc.Redis? && poc.redis.info == RedisPlugin.Info ==> name == "Redis Unauthorized Access Vulnerability"
  {
    match poc
    case Example(e) => ExamplePlugin.GetName(e)
    case Redis(r) => RedisPlugin.GetName(r)
  }

  /** Both shipped plugins, freshly built, register under different names. */
  lemma ShippedPluginsDoNotCollide(timeout: U64)
    ensures Name(Example(ExamplePlugin.New(timeout))) != Name(Redis(RedisPlugin.New()))
  {
    assert Name(Example(ExamplePlugin.New(timeout)))[0] == 'E';
  }

  class PocRegistry {
    var pocs: map<string, Plugin>

    /** `PocRegistry::new`: an empty registry. */
    constructor ()
      ensures pocs == map[]
    {
      pocs := map[];
    }

    /**
     * `register`: the plugin is stored under its name; a plugin already
     * stored under that name is replaced and every other entry is kept.
     */
    method Register(poc: Plugin)
      modifies this
      ensures pocs == old(pocs)[Name(poc) := poc]
      ensures Name(poc) in pocs && pocs[Name(poc)] == poc
      ensures forall n :: n != Name(poc) ==> (n in pocs <==> n in old(pocs))
      ensures forall n :: n != Name(poc) && n in pocs ==> pocs[n] == old(pocs)[n]
    {
      pocs := pocs[Name(poc) := poc];
    }

    /** `get`: the plugin registered under `name`, if there is one. */
    method Get(name: string) returns (found: Option<Plugin>)
      ensures found.None? <==> name !in pocs
      ensures found.Some? ==> found.value == pocs[name]
    {
      if name in pocs {
        found := Some(pocs[name]);
      } else {
        found := None;
      }
    }

    /** `list`: every registered name exactly once, in no particular order. */
    method List() returns (names: seq<string>)
      ensures forall n :: n in names <==> n in pocs
      ensures NoDuplicates(names)
      ensures |names| == |pocs.Keys|
    {
      names := [];
      var remaining := pocs.Keys;
      while remaining != {}
        invariant remaining <= pocs.Keys
        invariant forall n :: n in names <==> n in pocs.Keys && n !in remaining
        invariant NoDuplicates(names)
        invariant |names| + |remaining| == |pocs.Keys|
        decreases |remaining|
      {
        var name :| name in remaining;
        names := names + [name];
        remaining := remaining - {name};
      }
    }
  }

  /** A registry that has just been built lists no names. */
  method ListOfNewRegistry() returns (names: seq<string>)
    ensures names == []
  {
    var registry := new PocRegistry();
    names := registry.List();
  }

  /**
   * Registering and then looking up under the plugin's own name gives the
   * plugin back, whatever was registered before; the lookup changes nothing.
   */
  method RegisterThenGet(registry: PocRegistry, poc: Plugin) returns (found: Option<Plugin>)
    modifies registry
    ensures found == Some(poc)
    ensures registry.pocs == old(registry.pocs)[Name(poc) := poc]
  {
    registry.Register(poc);
    found := registry.Get(Name(poc));
  }

  /** Registering two plugins with the same name keeps only the later one. */
  method RegisterTwice(registry: PocRegistry, first: Plugin, second: Plugin) returns (found: Option<Plugin>)
    requires Name(first) == Name(second)
    modifies registry
    ensures found == Some(second)
    ensures registry.pocs == old(registry.pocs)[Name(second) := second]
  {
    registry.Register(first);
    registry.Register(second);
    found := registry.Get(Name(first));
  }
}
