/**
 * The process-wide settings store that the plugins and the websocket hub read and write.
 * The settings module itself is not part of this model: GetOption is taken to be a plain
 * dictionary lookup and SetOption a plain dictionary write. The two entries the plugin
 * registry works on, "plugins" and "plugin_settings", are kept as typed fields.
 */
module Settings {
  import opened Wrappers

  /** A decoded JSON value (numbers are kept integral). */
  datatype Value =
    | Null
    | Bool(b: bool)
    | Num(n: int)
    | Str(s: string)
    | Arr(items: seq<Value>)
    | Obj(fields: map<string, Value>)

  /** One plugin's settings namespace. */
  type Namespace = map<string, Value>

  /** A copy of the whole store, as broadcast in a "translate_settings" message. */
  datatype Snapshot = Snapshot(
    options: map<string, Value>,
    plugins: map<string, bool>,
    pluginSettings: map<string, Option<Namespace>>)

  class Store {
    /** Every option other than the two below. */
    var options: map<string, Value>
    /** The "plugins" entry: plugin class name to enabled flag. */
    var plugins: map<string, bool>
    /** The "plugin_settings" entry: plugin class name to its namespace, possibly null. */
    var pluginSettings: map<string, Option<Namespace>>

    constructor (options: map<string, Value>, plugins: map<string, bool>,
                 pluginSettings: map<string, Option<Namespace>>)
      ensures this.options == options
      ensures this.plugins == plugins
      ensures this.pluginSettings == pluginSettings
    {
      this.options := options;
      this.plugins := plugins;
      this.pluginSettings := pluginSettings;
    }

    function Current(): Snapshot
      reads this
    {
      Snapshot(options, plugins, pluginSettings)
    }

    /** settings.GetOption: the stored value, or a KeyError for a missing option. */
    function GetOption(name: string): (r: Result<Value>)
      reads this
      ensures r.Ok? <==> name in options
      ensures r.Ok? ==> r.value == options[name]
      ensures r.Err? ==> r.error == KeyError(name)
    {
      if name in options then Ok(options[name]) else Err(KeyError(name))
    }

    /** settings.SetOption: last write wins. */
    method SetOption(name: string, value: Value)
      modifies this`options
      ensures options == old(options)[name := value]
    {
      options := options[name := value];
    }
  }
}
