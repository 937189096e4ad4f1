/**
 * The plugin package: discovery of plugin module files, registration of every plugin
 * class in definition order, one instance per registered class, and the per-plugin
 * settings namespace kept in the settings store ("plugins" for the enabled flags,
 * "plugin_settings" for the namespaces).
 */
module Plugins {
  import opened Wrappers
  import opened Settings

  /** The reserved namespace key that init_plugin_settings never prunes. */
  const SettingsGroupsKey: string := "settings_groups"

  // ---------------------------------------------------------------------------
  // Discovery and registration
  // ---------------------------------------------------------------------------

  predicate StartsWith(s: string, prefix: string) {
    |prefix| <= |s| && s[..|prefix|] == prefix
  }

  predicate EndsWith(s: string, suffix: string) {
    |suffix| <= |s| && s[|s| - |suffix|..] == suffix
  }

  /** Only "real modules" are loaded: not hidden, not dunder, a .py file. */
  predicate IsModuleFile(fname: string) {
    !StartsWith(fname, ".") && !StartsWith(fname, "__") && EndsWith(fname, ".py")
  }

  lemma ModuleFileExamples()
    ensures IsModuleFile("translator.py") && IsModuleFile("_helper.py")
    ensures !IsModuleFile("__init__.py") && !IsModuleFile(".hidden.py")
    ensures !IsModuleFile("notes.txt") && !IsModuleFile("py")
  {
    assert "translator.py"[..1] == "t" && "translator.py"[..2] == "tr";
    assert "_helper.py"[..1] == "_" && "_helper.py"[..2] == "_h";
    assert "translator.py"[10..] == ".py" && "_helper.py"[7..] == ".py";
    assert "__init__.py"[..2] == "__";
    assert ".hidden.py"[..1] == ".";
    assert "notes.txt"[6..] != ".py";
  }

  /**
   * What executing one module file did: the plugin classes whose definitions ran, in
   * definition order, and whether the module then raised. A class statement runs
   * __init_subclass__ as soon as it executes, so a module that raises later still
   * leaves its earlier classes registered.
   */
  datatype LoadOutcome = LoadOutcome(defined: seq<string>, raised: bool)

  /** One entry of the plugin directory listing, with what executing it as a module does. */
  datatype DirEntry = DirEntry(name: string, load: LoadOutcome)

  /** The classes one directory entry adds to the registry. */
  function Contribution(entry: DirEntry): seq<string> {
    if IsModuleFile(entry.name) then entry.load.defined else []
  }

  /**
   * The classes registered by loading the directory entries in listing order. Whether a
   * module raised does not change its contribution: the exception is printed and the
   * classes defined before it stay registered.
   */
  function Registered(entries: seq<DirEntry>): seq<string> {
    if entries == [] then [] else Contribution(entries[0]) + Registered(entries[1..])
  }

  /** Registration proceeds file by file: one more entry appends only its own classes. */
  lemma {:induction false} RegisteredSnoc(entries: seq<DirEntry>, entry: DirEntry)
    ensures Registered(entries + [entry]) == Registered(entries) + Contribution(entry)
  {
    if entries == [] {
      assert [] + [entry] == [entry];
      assert [entry][1..] == [];
    } else {
      assert (entries + [entry])[1..] == entries[1..] + [entry];
      RegisteredSnoc(entries[1..], entry);
    }
  }

  /** The listing's first i + 1 entries register what the first i do, then entry i's classes. */
  lemma RegisteredPrefix(entries: seq<DirEntry>, i: nat)
    requires i < |entries|
    ensures Registered(entries[..i + 1]) == Registered(entries[..i]) + Contribution(entries[i])
  {
    assert entries[..i + 1] == entries[..i] + [entries[i]];
    RegisteredSnoc(entries[..i], entries[i]);
  }

  /** A failing module does not stop discovery: the entries after it are still loaded. */
  lemma {:induction false} RegisteredConcat(before: seq<DirEntry>, after: seq<DirEntry>)
    ensures Registered(before + after) == Registered(before) + Registered(after)
  {
    if before == [] {
      assert [] + after == after;
    } else {
      assert (before + after)[1..] == before[1..] + after;
      RegisteredConcat(before[1..], after);
    }
  }

  /** A class is registered iff some module file that passes the filter defined it. */
  lemma {:induction false} RegisteredIff(entries: seq<DirEntry>, cls: string)
    ensures cls in Registered(entries) <==>
      exists i :: 0 <= i < |entries| && IsModuleFile(entries[i].name) && cls in entries[i].load.defined
  {
    if entries != [] {
      RegisteredIff(entries[1..], cls);
      if cls in Registered(entries) && cls !in Contribution(entries[0]) {
        var i :| 0 <= i < |entries[1..]| && IsModuleFile(entries[1..][i].name) && cls in entries[1..][i].load.defined;
        assert entries[i + 1] == entries[1..][i];
      }
      if exists i :: 0 <= i < |entries| && IsModuleFile(entries[i].name) && cls in entries[i].load.defined {
        var i :| 0 <= i < |entries| && IsModuleFile(entries[i].name) && cls in entries[i].load.defined;
        if i > 0 {
          assert entries[1..][i - 1] == entries[i];
        }
      }
    }
  }

  /** Base.plugins: every subclass of Base, in the order its class statement ran. */
  class Registry {
    var plugins: seq<string>

    constructor ()
      ensures plugins == []
    {
      plugins := [];
    }

    /** __init_subclass__: a new subclass appends itself. */
    method RegisterSubclass(cls: string)
      modifies this
      ensures plugins == old(plugins) + [cls]
    {
      plugins := plugins + [cls];
    }

    /**
     * The discovery loop: every entry that passes the filter is executed; an exception
     * is printed and the loop goes on with the next entry.
     */
    method LoadPlugins(entries: seq<DirEntry>)
      modifies this
      ensures plugins == old(plugins) + Registered(entries)
    {
      for i := 0 to |entries|
        invariant plugins == old(plugins) + Registered(entries[..i])
      {
        var entry := entries[i];
        if IsModuleFile(entry.name) {
          // if the module raised, the traceback is printed and the next entry is loaded
          RegisterAll(entry.load.defined);
        }
        RegisteredPrefix(entries, i);
      }
      assert entries[..|entries|] == entries;
    }

    /** The class statements of one module, each running __init_subclass__ in turn. */
    method RegisterAll(classes: seq<string>)
      modifies this
      ensures plugins == old(plugins) + classes
    {
      for j := 0 to |classes|
        invariant plugins == old(plugins) + classes[..j]
      {
        RegisterSubclass(classes[j]);
        assert classes[..j + 1] == classes[..j] + [classes[j]];
      }
      assert classes[..|classes|] == classes;
    }

    /**
     * The instantiation loop: one instance per registered class, in registration order.
     * `constructs` says whether a class's constructor returns; a constructor that raises
     * aborts the loop and the exception propagates.
     */
    method Instantiate(constructs: string -> bool) returns (r: Result<seq<Plugin>>)
      ensures r.Ok? <==> forall k :: 0 <= k < |plugins| ==> constructs(plugins[k])
      ensures r.Err? ==> exists k :: 0 <= k < |plugins| && !constructs(plugins[k])
                                     && (forall j :: 0 <= j < k ==> constructs(plugins[j]))
                                     && r.error == ConstructorFailed(plugins[k])
      ensures r.Ok? ==> |r.value| == |plugins|
      ensures r.Ok? ==> forall k :: 0 <= k < |plugins| ==>
                          r.value[k].className == plugins[k] && fresh(r.value[k])
      ensures r.Ok? ==> forall k, l :: 0 <= k < l < |plugins| ==> r.value[k] != r.value[l]
    {
      var instances: seq<Plugin> := [];
      for i := 0 to |plugins|
        invariant |instances| == i
        invariant forall k :: 0 <= k < i ==> constructs(plugins[k])
        invariant forall k :: 0 <= k < i ==> instances[k].className == plugins[k] && fresh(instances[k])
        invariant forall k, l :: 0 <= k < l < i ==> instances[k] != instances[l]
      {
        if !constructs(plugins[i]) {
          return Err(ConstructorFailed(plugins[i]));
        }
        var p := new Plugin(plugins[i]);
        instances := instances + [p];
      }
      r := Ok(instances);
    }
  }

  // ---------------------------------------------------------------------------
  // Settings namespaces: specification functions
  // ---------------------------------------------------------------------------

  /** The "plugins" entry after is_enabled(default) for the class `name`. */
  function PluginsAfterIsEnabled(plugins: map<string, bool>, name: string, default: bool): (p: map<string, bool>)
    ensures p.Keys == plugins.Keys + {name}
    ensures forall n :: n in plugins ==> p[n] == plugins[n]
    ensures name !in plugins ==> p[name] == default
  {
    if name in plugins then plugins else plugins[name := default]
  }

  /** The first read of a plugin's enabled flag decides it; later defaults are ignored. */
  lemma IsEnabledFirstReadDecides(plugins: map<string, bool>, name: string, first: bool, later: bool)
    ensures var p := PluginsAfterIsEnabled(plugins, name, first);
      && p[name] == (if name in plugins then plugins[name] else first)
      && PluginsAfterIsEnabled(p, name, later) == p
  {
  }

  /** The namespace of `name` as get_plugin_setting sees it; a missing or null one is empty. */
  function Existing(ps: map<string, Option<Namespace>>, name: string): Namespace {
    if name in ps && ps[name].Some? then ps[name].value else map[]
  }

  /** get_plugin_setting's fast path: the namespace exists, is not null and holds the key. */
  predicate Has(ps: map<string, Option<Namespace>>, name: string, key: string) {
    name in ps && ps[name].Some? && key in ps[name].value
  }

  /** The "plugin_settings" entry after get_plugin_setting(key, default) for the class `name`. */
  function SettingsAfterGet(ps: map<string, Option<Namespace>>, name: string, key: string, default: Value)
    : (q: map<string, Option<Namespace>>)
    ensures q.Keys == ps.Keys + {name}
    ensures Has(q, name, key)
    ensures Has(ps, name, key) ==> q == ps
    ensures !Has(ps, name, key) ==> q[name].value[key] == default
    ensures name !in ps || ps[name].None? ==> q[name] == Some(map[key := default])
    ensures q[name].value.Keys == Existing(ps, name).Keys + {key}
    ensures forall k :: k in Existing(ps, name) ==> q[name].value[k] == Existing(ps, name)[k]
    ensures forall n :: n in ps && n != name ==> q[n] == ps[n]
  {
    if Has(ps, name, key) then ps
    else if name !in ps || ps[name].None? then ps[name := Some(map[key := default])]
    else ps[name := Some(ps[name].value[key := default])]
  }

  /** The store after get_plugin_setting has run for every key in `keys`, in any order. */
  function FillDefaults(ps: map<string, Option<Namespace>>, name: string, init: Namespace, keys: set<string>)
    : (q: map<string, Option<Namespace>>)
    requires keys <= init.Keys
    ensures keys == {} ==> q == ps
    ensures keys != {} ==> q.Keys == ps.Keys + {name} && q[name].Some?
    ensures keys != {} ==> q[name].value.Keys == Existing(ps, name).Keys + keys
    ensures keys != {} ==> forall k :: k in q[name].value ==>
              q[name].value[k] == if k in Existing(ps, name) then Existing(ps, name)[k] else init[k]
    ensures forall n :: n in ps && n != name ==> q[n] == ps[n]
  {
    if keys == {} then ps
    else
      var ns := Existing(ps, name);
      ps[name := Some(map k | k in ns.Keys + keys :: if k in ns then ns[k] else init[k])]
  }

  /** One more get_plugin_setting call extends the filled set by its key. */
  lemma FillDefaultsStep(ps: map<string, Option<Namespace>>, name: string, init: Namespace,
                         keys: set<string>, key: string)
    requires keys <= init.Keys && key in init && key !in keys
    ensures SettingsAfterGet(FillDefaults(ps, name, init, keys), name, key, init[key])
            == FillDefaults(ps, name, init, keys + {key})
  {
    var f := FillDefaults(ps, name, init, keys);
    var g := SettingsAfterGet(f, name, key, init[key]);
    var h := FillDefaults(ps, name, init, keys + {key});
    var ns := Existing(ps, name);
    var ef := Existing(f, name);
    assert ef.Keys == ns.Keys + keys;
    assert forall k :: k in ef ==> ef[k] == if k in ns then ns[k] else init[k];
    assert Has(f, name, key) <==> key in ef;
    var gv, hv := g[name].value, h[name].value;
    assert gv.Keys == hv.Keys;
    forall k | k in gv
      ensures gv[k] == hv[k]
    {
      if k in ef {
        assert gv[k] == ef[k];
      } else {
        assert k == key && gv[k] == init[key];
      }
    }
    assert gv == hv;
    assert g.Keys == h.Keys;
  }

  /** Drop every key that is neither declared nor the reserved settings_groups key. */
  function Prune(ns: Namespace, declared: set<string>): (r: Namespace)
    ensures r.Keys == ns.Keys * (declared + {SettingsGroupsKey})
    ensures forall k :: k in r ==> r[k] == ns[k]
  {
    map k | k in ns && (k in declared || k == SettingsGroupsKey) :: ns[k]
  }

  /**
   * The "plugin_settings" entry after init_plugin_settings(init, groups): fill every
   * declared key, prune every undeclared one but settings_groups, store `groups` there.
   * With no declared keys and a null namespace, iterating the namespace raises.
   */
  function AfterInit(ps: map<string, Option<Namespace>>, name: string, init: Namespace, groups: Value)
    : (r: Result<map<string, Option<Namespace>>>)
    ensures r.Err? <==> init == map[] && name in ps && ps[name].None?
    ensures r.Ok? ==> r.value.Keys == ps.Keys + (if init == map[] then {} else {name})
    ensures r.Ok? && name in r.value ==>
              && r.value[name].Some?
              && r.value[name].value.Keys == init.Keys + {SettingsGroupsKey}
              && r.value[name].value[SettingsGroupsKey] == groups
    ensures r.Ok? ==> forall k :: k in init && k != SettingsGroupsKey ==>
              r.value[name].value[k] == if k in Existing(ps, name) then Existing(ps, name)[k] else init[k]
    ensures r.Ok? ==> forall n :: n in ps && n != name ==> r.value[n] == ps[n]
  {
    var filled := FillDefaults(ps, name, init, init.Keys);
    if name !in filled then Ok(filled)
    else if filled[name].None? then Err(TypeError("'NoneType' object is not iterable"))
    else Ok(filled[name := Some(Prune(filled[name].value, init.Keys)[SettingsGroupsKey := groups])])
  }

  /** Filling a namespace that already holds every declared key changes nothing. */
  lemma FillDefaultsNoop(ps: map<string, Option<Namespace>>, name: string, init: Namespace)
    requires init != map[] && name in ps && ps[name].Some? && init.Keys <= ps[name].value.Keys
    ensures FillDefaults(ps, name, init, init.Keys) == ps
  {
    var e := ps[name].value;
    var filled := FillDefaults(ps, name, init, init.Keys);
    assert Existing(ps, name) == e;
    assert e.Keys + init.Keys == e.Keys;
    var fv := filled[name].value;
    forall k | k in fv
      ensures fv[k] == e[k]
    {
      assert k in e;
    }
    assert fv == e;
  }

  /** Pruning a namespace that holds only declared keys and the stored groups changes nothing. */
  lemma PruneNoop(ns: Namespace, init: Namespace, groups: Value)
    requires ns.Keys == init.Keys + {SettingsGroupsKey} && ns[SettingsGroupsKey] == groups
    ensures Prune(ns, init.Keys)[SettingsGroupsKey := groups] == ns
  {
    var pruned := Prune(ns, init.Keys)[SettingsGroupsKey := groups];
    assert pruned.Keys == ns.Keys;
  }

  /** A second init_plugin_settings with the same arguments changes nothing. */
  lemma InitIdempotent(ps: map<string, Option<Namespace>>, name: string, init: Namespace, groups: Value)
    requires AfterInit(ps, name, init, groups).Ok?
    ensures AfterInit(AfterInit(ps, name, init, groups).value, name, init, groups)
            == AfterInit(ps, name, init, groups)
  {
    var q := AfterInit(ps, name, init, groups).value;
    var filled := FillDefaults(q, name, init, init.Keys);
    if init != map[] {
      FillDefaultsNoop(q, name, init);
    }
    assert filled == q;
    if name in q {
      PruneNoop(q[name].value, init, groups);
      assert q[name := Some(q[name].value)] == q;
    }
  }

  /** With no declared keys and no namespace, init_plugin_settings creates nothing. */
  lemma InitEmptyCreatesNothing(ps: map<string, Option<Namespace>>, name: string, groups: Value)
    requires name !in ps
    ensures AfterInit(ps, name, map[], groups) == Ok(ps)
  {
  }

  /** set_plugin_setting as written: a missing namespace raises KeyError, a null one TypeError. */
  function SettingsAfterSet(ps: map<string, Option<Namespace>>, name: string, key: string, value: Value)
    : (r: Result<map<string, Option<Namespace>>>)
    ensures name !in ps ==> r == Err(KeyError(name))
    ensures name in ps && ps[name].None? ==> r.Err? && r.error.TypeError?
    ensures r.Ok? <==> name in ps && ps[name].Some?
    ensures r.Ok? ==> r.value.Keys == ps.Keys
    ensures r.Ok? ==> r.value[name].Some? && r.value[name].value.Keys == ps[name].value.Keys + {key}
    ensures r.Ok? ==> r.value[name].value[key] == value
    ensures r.Ok? ==> forall k :: k in ps[name].value && k != key ==> r.value[name].value[k] == ps[name].value[k]
    ensures r.Ok? ==> forall n :: n in ps && n != name ==> r.value[n] == ps[n]
  {
    if name !in ps then
      // the copy has no entry for the plugin, so indexing it raises
      Err(KeyError(name))
    else if ps[name].None? then
      Err(TypeError("'NoneType' object does not support item assignment"))
    else
      Ok(ps[name := Some(ps[name].value[key := value])])
  }

  /** After a successful set, get returns the new value and writes nothing. */
  lemma GetAfterSet(ps: map<string, Option<Namespace>>, name: string, key: string, value: Value, default: Value)
    requires SettingsAfterSet(ps, name, key, value).Ok?
    ensures var q := SettingsAfterSet(ps, name, key, value).value;
      && Has(q, name, key) && q[name].value[key] == value
      && SettingsAfterGet(q, name, key, default) == q
  {
  }

  /** On a plugin that has no namespace yet, set_plugin_setting raises and creates none. */
  lemma SetWithoutNamespaceRaises(ps: map<string, Option<Namespace>>, name: string, key: string, value: Value)
    requires name !in ps
    ensures SettingsAfterSet(ps, name, key, value) == Err(KeyError(name))
    ensures SettingsAfterSetCorrected(ps, name, key, value).Ok?
  {
  }

  /** The copy-then-write branch of set_plugin_setting as evidently intended: create the namespace. */
  function SettingsAfterSetCorrected(ps: map<string, Option<Namespace>>, name: string, key: string, value: Value)
    : (r: Result<map<string, Option<Namespace>>>)
    ensures r.Ok? <==> name !in ps || ps[name].Some?
    ensures r.Ok? ==> r.value.Keys == ps.Keys + {name}
    ensures r.Ok? ==> Has(r.value, name, key) && r.value[name].value[key] == value
    ensures r.Ok? ==> forall n :: n in ps && n != name ==> r.value[n] == ps[n]
  {
    if name !in ps then Ok(ps[name := Some(map[key := value])])
    else SettingsAfterSet(ps, name, key, value)
  }

  /** With the correction, a set on a fresh plugin is read back by get. */
  lemma CorrectedSetThenGet(ps: map<string, Option<Namespace>>, name: string, key: string, value: Value, default: Value)
    requires name !in ps
    ensures var r := SettingsAfterSetCorrected(ps, name, key, value);
      r.Ok? && SettingsAfterGet(r.value, name, key, default) == r.value
      && r.value[name] == Some(map[key := value])
  {
  }

  /** The delete-in-loop over a copy of the namespace's keys. */
  method PruneUndeclared(original: Namespace, init: Namespace) returns (ns: Namespace)
    ensures ns == Prune(original, init.Keys)
  {
    ns := original;
    var names := original.Keys;
    while names != {}
      invariant names <= original.Keys
      invariant ns.Keys == original.Keys * (names + init.Keys + {SettingsGroupsKey})
      invariant forall k :: k in ns ==> ns[k] == original[k]
      decreases names
    {
      var k :| k in names;
      if k !in init && k != SettingsGroupsKey {
        ns := ns - {k};
      }
      names := names - {k};
    }
  }

  // ---------------------------------------------------------------------------
  // A plugin instance: its settings operations act on the shared store
  // ---------------------------------------------------------------------------

  class Plugin {
    /** self.__class__.__name__, the key of all its settings. */
    const className: string

    constructor (className: string)
      ensures this.className == className
    {
      this.className := className;
    }

    /** is_enabled: lazily store `default` on first read, then return the stored flag. */
    method IsEnabled(store: Store, default: bool) returns (enabled: bool)
      modifies store`plugins
      ensures store.plugins == PluginsAfterIsEnabled(old(store.plugins), className, default)
      ensures enabled == store.plugins[className]
      ensures className in old(store.plugins) ==> enabled == old(store.plugins)[className]
      ensures className !in old(store.plugins) ==> enabled == default
    {
      if className !in store.plugins {
        var setting := store.plugins;
        setting := setting[className := default];
        store.plugins := setting;
      }
      enabled := store.plugins[className];
    }

    /** get_plugin_setting: the stored value, or `default` after storing it. */
    method GetPluginSetting(store: Store, key: string, default: Value) returns (value: Value)
      modifies store`pluginSettings
      ensures store.pluginSettings == SettingsAfterGet(old(store.pluginSettings), className, key, default)
      ensures Has(old(store.pluginSettings), className, key) ==>
                value == old(store.pluginSettings)[className].value[key]
      ensures !Has(old(store.pluginSettings), className, key) ==> value == default
    {
      if className in store.pluginSettings && store.pluginSettings[className].Some?
         && key in store.pluginSettings[className].value {
        return store.pluginSettings[className].value[key];
      }
      var setting := store.pluginSettings;
      if className !in setting || setting[className].None? {
        setting := setting[className := Some(map[key := default])];
      } else if key !in setting[className].value {
        setting := setting[className := Some(setting[className].value[key := default])];
      }
      store.pluginSettings := setting;
      value := default;
    }

    /** set_plugin_setting, as written (see SettingsAfterSet). */
    method SetPluginSetting(store: Store, key: string, value: Value) returns (outcome: Outcome)
      modifies store`pluginSettings
      ensures var r := SettingsAfterSet(old(store.pluginSettings), className, key, value);
        && (r.Ok? ==> outcome == Done && store.pluginSettings == r.value)
        && (r.Err? ==> outcome == Raised(r.error) && store.pluginSettings == old(store.pluginSettings))
    {
      if className !in store.pluginSettings {
        return Raised(KeyError(className));
      }
      if store.pluginSettings[className].None? {
        return Raised(TypeError("'NoneType' object does not support item assignment"));
      }
      store.pluginSettings := store.pluginSettings[className := Some(store.pluginSettings[className].value[key := value])];
      outcome := Done;
    }

    /** The first loop of init_plugin_settings: get_plugin_setting for every declared key. */
    method SetMissingDefaults(store: Store, init: Namespace)
      modifies store`pluginSettings
      ensures store.pluginSettings == FillDefaults(old(store.pluginSettings), className, init, init.Keys)
    {
      var pending := init.Keys;
      while pending != {}
        invariant pending <= init.Keys
        invariant store.pluginSettings == FillDefaults(old(store.pluginSettings), className, init, init.Keys - pending)
        decreases pending
      {
        var key :| key in pending;
        FillDefaultsStep(old(store.pluginSettings), className, init, init.Keys - pending, key);
        var _ := GetPluginSetting(store, key, init[key]);
        assert init.Keys - (pending - {key}) == (init.Keys - pending) + {key};
        pending := pending - {key};
      }
      assert init.Keys - pending == init.Keys;
    }

    /** init_plugin_settings: fill the declared keys, then prune the undeclared ones. */
    method InitPluginSettings(store: Store, init: Namespace, groups: Value) returns (outcome: Outcome)
      modifies store`pluginSettings
      ensures var r := AfterInit(old(store.pluginSettings), className, init, groups);
        && (r.Ok? ==> outcome == Done && store.pluginSettings == r.value)
        && (r.Err? ==> outcome == Raised(r.error) && store.pluginSettings == old(store.pluginSettings))
    {
      SetMissingDefaults(store, init);
      // delete the settings that were not declared
      var pluginSettings := store.pluginSettings;
      if className in pluginSettings {
        if pluginSettings[className].None? {
          return Raised(TypeError("'NoneType' object is not iterable"));
        }
        var ns := PruneUndeclared(pluginSettings[className].value, init);
        pluginSettings := pluginSettings[className := Some(ns[SettingsGroupsKey := groups])];
      }
      store.pluginSettings := pluginSettings;
      outcome := Done;
    }
  }
}
