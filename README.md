# whispering core, modelled in Dafny

This project models three sequential pieces of the whispering desktop assistant and proves
properties of them.

1. **The plugin package** (`plugins.dfy`, module `Plugins`). It decides which files in the
   plugin directory are loaded. It registers every `Base` subclass in definition order and
   builds one instance per registered class. Each plugin has a settings namespace in the
   process-wide settings store, and the model covers the operations on it:
   `is_enabled`, `get_plugin_setting`, `set_plugin_setting` and `init_plugin_settings`.
2. **The websocket hub** (`websocket.dfy`, module `Websocket`). It keeps the client set
   `WS_CLIENTS` and sends each new client its three-message greeting before the client
   joins the set. `broadcast` sends to the whole set, and `send` swallows a closed
   connection. `websocketMessageHandler` routes one command by its `type`. The OCR reply
   is built with `str.join` and `str.split`. The model proves this equals a
   `str.replace` of the separator by a line break (`ReplaceAll`, a reference
   definition that the source does not call).
3. **The Silero text-to-speech façade** (`silero.dfy`, module `SileroTts`). This covers
   catalogue shaping (`list_languages`, `list_models`, `list_models_indexed`),
   `list_voices`, the voice and speaker choice in `tts`, the guard in `save_voice` and the
   module-level `init()` that fills the global `tts` once.

Shared definitions:
- `wrappers.dfy` holds `Option`, `Result`, `Outcome` and `Error`. `Error` covers the Python
  exceptions that the code lets escape.
- `settings.dfy` holds the settings store (`Settings.Store`). The settings module is not
  part of this model. `GetOption` is taken to be a dictionary lookup that raises KeyError on
  a missing key, and `SetOption` a plain write. The store keeps the `"plugins"` and
  `"plugin_settings"` entries as typed fields. All other options live in one map.

State that the source changes in place is modelled as classes:
- `Plugins.Registry` is `Base.plugins`.
- `Plugins.Plugin` is a plugin instance. Its methods change the shared `Settings.Store`.
- `Websocket.Hub` holds the client set, one outbox per client id (the messages sent to
  that client, in order), the set of connections whose peer has closed, and the OSC calls
  made.
- `SileroTts.Silero`, `SileroTts.VoiceModel` and `SileroTts.TtsModule` are the TTS object,
  the loaded model and the module global.

Each such method's postcondition ties the new state to a specification function. The
properties are proved about those functions. For the hub, `Websocket.Handle` is one call of
`websocketMessageHandler` as a function of the outboxes, the settings and the OSC calls.
`Websocket.Run` folds a step function over the received commands and stops at the first
exception. The message loop computes `Run` with `Handle` as the step.

Behaviour of the code worth knowing:
- **set_plugin_setting without a namespace.** The branch for a plugin that has no entry
  copies the store and then indexes the copy by the plugin's name, which raises KeyError
  (see Findings).
- **Malformed messages.** A message with no `type` key, or a recognised command with a
  missing field, raises out of `websocketMessageHandler`. The exception leaves `handler`,
  so the client is removed and its session ends. A `type` the router does not know is
  ignored. `Websocket.Hub.Session` states both. Its outcome, the number of commands handled
  and the state afterwards equal `Run` of the received commands from the greeted state.
  `Websocket.RunStopsAtMissingType` shows that a command without `type` ends the session
  raised, no later than that command. `Websocket.RunIgnoresUnknown` shows that commands of
  unknown types leave the state unchanged.
- **ocr_req fields.** The code also reads `from_lang` and `to_lang` for `ocr_req`, as well
  as `ocr_lang`.
- **File filter.** The discovery filter also skips names that start with `__`, not only
  hidden ones.
- **Failed module loads.** A module that raises while loading still leaves registered
  every class whose definition ran before the error. This is because `__init_subclass__`
  runs when the class statement executes.

## Model

| member | source | states |
|---|---|---|
| `Plugins.ModuleFileExamples` | Plugins/__init__.py:118-120 | `x.py` and `_x.py` are loaded; `__init__.py`, hidden files and non-`.py` names are not |
| `Plugins.Registry.RegisterSubclass` | Plugins/__init__.py:18-20 | defining a subclass appends exactly that class to `Base.plugins` |
| `Plugins.Registry.LoadPlugins` | Plugins/__init__.py:117-124 | after discovery the registry is the old one followed by `Registered(entries)`: each listed file that passes the filter contributes the classes it defined, in listing order |
| `Plugins.Registry.RegisterAll` | Plugins/__init__.py:122 | loading one module appends the classes it defines to `Base.plugins`, in definition order |
| `Plugins.RegisteredSnoc` | Plugins/__init__.py:117-124 | one more directory entry appends only that entry's own classes |
| `Plugins.RegisteredConcat` | Plugins/__init__.py:121-124 | a file that fails to load does not affect what the files after it register |
| `Plugins.RegisteredIff` | Plugins/__init__.py:117-124 | a class is registered iff some listed file passing the filter defined it |
| `Plugins.Registry.Instantiate` | Plugins/__init__.py:126-129 | if every constructor returns, the result has one fresh, distinct instance per registered class, in registration order; otherwise the error names the first class, in registration order, whose constructor fails |
| `Plugins.PluginsAfterIsEnabled` | Plugins/__init__.py:25-31 | `is_enabled` writes at most its own class's key: all other flags are kept, and a missing flag becomes `default` |
| `Plugins.IsEnabledFirstReadDecides` | Plugins/__init__.py:25-31 | the first read fixes the flag; a later call with any default returns it and writes nothing |
| `Plugins.Plugin.IsEnabled` | Plugins/__init__.py:25-31 | returns the stored flag, which is the old one if present and `default` otherwise; the store changes as `PluginsAfterIsEnabled` says |
| `Plugins.SettingsAfterGet` | Plugins/__init__.py:54-66 | an existing key leaves the store as it was; otherwise a missing or null namespace becomes exactly `{key: default}`, or the key alone is added; other plugins are untouched |
| `Plugins.Plugin.GetPluginSetting` | Plugins/__init__.py:54-66 | returns the stored value when present, else `default`; the store changes as `SettingsAfterGet` says |
| `Plugins.FillDefaults` | Plugins/__init__.py:38-40 | after `get` for every declared key, the namespace holds old values for old keys and defaults for new ones; no declared keys means no change |
| `Plugins.FillDefaultsStep` | Plugins/__init__.py:39-40 | one more `get_plugin_setting` call extends the filled set by its key, whatever the order |
| `Plugins.Prune` | Plugins/__init__.py:45-47 | keeps exactly the declared keys and `settings_groups`, with their values |
| `Plugins.PruneUndeclared` | Plugins/__init__.py:45-47 | the delete-in-loop over a copy of the keys computes `Prune` |
| `Plugins.AfterInit` | Plugins/__init__.py:34-52 | the namespace's keys become exactly the declared keys plus `settings_groups`, which is set to `groups`; stored values are kept; other plugins are untouched; a namespace exists afterwards iff it existed or keys were declared; it raises only for a null namespace with no declared keys |
| `Plugins.InitIdempotent` | Plugins/__init__.py:34-52 | a second call with the same arguments leaves the store unchanged |
| `Plugins.InitEmptyCreatesNothing` | Plugins/__init__.py:43-52 | with no declared keys and no namespace, nothing is created |
| `Plugins.Plugin.SetMissingDefaults` | Plugins/__init__.py:38-40 | calling `get_plugin_setting` for every declared key, in any order, gives `FillDefaults` |
| `Plugins.Plugin.InitPluginSettings` | Plugins/__init__.py:34-52 | the fill loop and the prune loop together give `AfterInit`; on the error path the store is unchanged |
| `Plugins.SettingsAfterSet` | Plugins/__init__.py:68-75 | a missing namespace raises KeyError and a null one TypeError; otherwise the key holds `value`, the namespace's other keys are unchanged and other plugins are untouched |
| `Plugins.GetAfterSet` | Plugins/__init__.py:54-75 | after a successful set, `get_plugin_setting` returns the new value and writes nothing |
| `Plugins.Plugin.SetPluginSetting` | Plugins/__init__.py:68-75 | the store changes as `SettingsAfterSet` says; on error it is unchanged |
| `Plugins.SetWithoutNamespaceRaises` | Plugins/__init__.py:69-72 | as written, a set on a plugin with no namespace raises KeyError and creates nothing; the corrected version succeeds |
| `Plugins.SettingsAfterSetCorrected` | Plugins/__init__.py:69-72 | a set on a missing namespace creates it holding the key; afterwards the key holds `value` |
| `Plugins.CorrectedSetThenGet` | Plugins/__init__.py:69-72 | with the correction, a set on a fresh plugin is read back by `get` and the namespace is exactly `{key: value}` |
| `Websocket.FindFrom` | websocket.py:31 | finds the first occurrence of the separator at or after a position, or reports that there is none |
| `Websocket.JoinSplitIsReplace` | websocket.py:31 | `"\n".join(t.split(" -- "))` equals `t.replace(" -- ", "\n")`, for every non-empty separator and any replacement |
| `Websocket.OcrLinesComeBack` | websocket.py:29-31 | if no OCR line contains `-` and the translator returns its input, the shown translation is the lines joined by line breaks |
| `Websocket.OcrReply` | websocket.py:31 | `original_text` is the lines joined by `"\n"`; the translation has every `" -- "` replaced by `"\n"` |
| `Websocket.Delivered` | websocket.py:86-88 | a broadcast appends the message to every target's outbox and leaves the others unchanged |
| `Websocket.Hub.Send` | websocket.py:79-83 | an open connection gets the message appended; a closed one gets nothing and the error does not escape |
| `Websocket.Hub.Broadcast` | websocket.py:86-88 | every member of `WS_CLIENTS` at call time whose connection is open gets the message once; nothing else changes |
| `Websocket.Hub.Connect` | websocket.py:50-64 | the new connection is sent `installed_languages`, `available_img_languages` and `translate_settings`, in that order, before it joins `WS_CLIENTS`; the invariant keeps every client's outbox starting with the greeting |
| `Websocket.Hub.Disconnect` | websocket.py:74-75 | the client leaves `WS_CLIENTS` |
| `Websocket.Handle` | websocket.py:17-47 | an exception leaves outboxes, settings and OSC calls as they were; outboxes only grow and OSC calls are only appended; the plugin entries of the store are never written; a `type` outside the routing table changes nothing |
| `Websocket.Hub.HandleMessage` | websocket.py:17-47 | the outcome and the new outboxes, settings and OSC calls are exactly `Handle` of the old ones, broadcasting to the open members of `WS_CLIENTS`. The routing table, stated directly: `setting_change` writes, then broadcasts the settings as they are after the write; `translate_req` broadcasts one translation; `ocr_req` broadcasts the `OcrReply`; `flan_req` replies only when the model is ready; `get_windows_list` broadcasts the window list; `send_osc` makes one OSC call unless `osc_ip` is `"0"`; an unknown type does nothing; a missing `type` or field raises with no effect |
| `Websocket.Run` | websocket.py:66-69 | the loop handles at most the commands received; it ends raised iff it handled fewer than it received |
| `Websocket.RunConcat` | websocket.py:66-69 | running two batches in turn is running them joined: the second batch runs from the state the first left, and only when the first handled every command |
| `Websocket.RunIgnoresUnknown` | websocket.py:66-69 | commands whose `type` is not in the routing table are all handled, the loop ends normally, and nothing changes |
| `Websocket.RunStopsAtMissingType` | websocket.py:66-69 | a command without `type` ends the loop raised, having handled no more commands than come before it |
| `Websocket.Hub.Serve` | websocket.py:66-69 | the outcome, the count handled and the new outboxes, settings and OSC calls equal `Run` of the received commands with `Handle` as the step; it also states directly: it ends raised iff fewer commands were handled than received, every handled command has a `type`, and if every command has an unknown type nothing is sent, no setting changes and no OSC call is made |
| `Websocket.Hub.Session` | websocket.py:50-76 | the client's outbox starts with the greeting; it leaves `WS_CLIENTS` however the message loop ends; outboxes only grow; the outcome, the count handled and the new state equal `Run` of the received commands from the state after the greeting, with the new client among the broadcast targets; it ends raised iff fewer commands were handled than received; a command without `type` ends it raised; if every command has an unknown type, the session ends normally, changes no setting, makes no OSC call and sends only the greeting |
| `SileroTts.ListLanguages` | Models/TTS/silero.py:43-44 | one language per catalogue entry, in catalogue order |
| `SileroTts.ModelsOfEntry` | Models/TTS/silero.py:50 | `tts_models.get(lang)` finds that language's model ids |
| `SileroTts.Put` | Models/TTS/silero.py:51 | assigning a new key appends it; assigning an existing key replaces that key's value in place and keeps every other entry and the key order; keys stay distinct |
| `SileroTts.ListModels` | Models/TTS/silero.py:46-52 | the keys are exactly `list_languages()`, in order, and each holds that language's model ids |
| `SileroTts.ListModelsIndexed` | Models/TTS/silero.py:54-56 | one `{language, models}` entry per language, in the same order |
| `SileroTts.SelectVoice` | Models/TTS/silero.py:96-101 | `"last"` never reaches synthesis as a speaker; a voice file is passed iff `tts_voice` is `"last"`, and then it is `last_voice` with the random speaker; otherwise the speaker is `tts_voice` |
| `SileroTts.Silero.constructor` | Models/TTS/silero.py:23-41 | the defaults: `en`, `v3_en`, no model, speaker `random`, the default voice path |
| `SileroTts.Silero.ListVoices` | Models/TTS/silero.py:58-63 | with no model or no speakers it returns `[]`; otherwise it appends `"last"` to the model's own list and returns that list, so each call grows it by one |
| `SileroTts.Silero.SetLanguage` | Models/TTS/silero.py:65-66 | changes only `lang` |
| `SileroTts.Silero.SetModel` | Models/TTS/silero.py:68-69 | changes only `model_id` |
| `SileroTts.Silero.Load` | Models/TTS/silero.py:71-84 | `lang` and `model_id` come from the `tts_model` setting, and the loaded model replaces the old one |
| `SileroTts.Silero.Tts` | Models/TTS/silero.py:95-116 | the speaker is chosen as `SelectVoice` says; synthesis failure gives `(None, None)`, success gives the audio and 48000 |
| `SileroTts.Silero.SaveVoice` | Models/TTS/silero.py:88-93 | `last_voice` changes only when `tts_voice` is `"random"` and a model is loaded; with no model it raises; otherwise nothing changes |
| `SileroTts.TtsModule.Init` | Models/TTS/silero.py:179-188 | creates an instance only when enabled and none exists; once set, `tts` is never replaced; returns whether `tts` is set |

## Left out

- Plugin module loading through importlib, `os.listdir` and `os.makedirs` are not modelled.
  The directory listing is a parameter: a sequence of entries, each carrying the name and
  what executing that file as a module does (the classes it defined and whether it raised).
- The plugin capability hooks (`on_enable`, `on_disable`, `init`, `stt`, `tts`, `timer`)
  are not modelled. The base class gives them empty bodies.
- A subclass that defines its own `plugins` attribute would register itself there and not
  in `Base.plugins`. The model assumes no plugin does this.
- The settings module is not part of this model. Settings are not persisted to disk. The
  unsynchronised cross-thread access to the store is not modelled.
- Websocket.Hub.HandleMessage and Websocket.Handle: a `setting_change` whose `name` is not
  a JSON string raises TypeError in the model, because the store's keys are strings. A `setting_change` naming
  `plugins` or `plugin_settings` writes the generic option map, not the typed entries.
- Websocket.Hub.Broadcast: sends happen one after another in the call. In the source,
  `asyncio.create_task` runs them later. Also not modelled: the running-loop detection in
  `BroadcastMessage`, the websockets server and `SocketServerThread`.
- Websocket.Hub.Connect: the greeting is sent as one step. A peer that closes between the
  three greeting sends is not interleaved.
- JSON encoding and decoding are not modelled. Commands arrive already decoded, and
  numbers are integers.
- The translation, OCR, window-capture, flan and OSC collaborators are uninterpreted
  values and functions. `flanLanguageModel.init()` is given as its boolean result.
- torch, omegaconf, pydub, scipy and pyaudio are not modelled. This covers model download,
  `torch.hub.load` (its result is a parameter of `Load`), `apply_tts` (its result is given
  as a function of the request), device and thread selection, `save_random_voice`'s file
  write, WAV and tensor buffers, and audio playback.
- SileroTts.Silero.ListVoices returns the list by value. The aliasing between the returned
  list and `model.speakers` is not modelled.
- SileroTts.ListModels and SileroTts.ListModelsIndexed take the catalogue as a parameter.
  The `models` field of a `Silero` object is the catalogue that callers pass.

## Findings

| source | as written | input that shows it | evidently intended | confidence | as-written member | corrected member |
|---|---|---|---|---|---|---|
| Plugins/__init__.py:69-72 | when the plugin has no namespace, the branch copies the store and then indexes the copy by the plugin's name, which raises KeyError | `plugin_settings == {}` and any `set_plugin_setting(k, v)` | create the namespace `{k: v}`: the copy-then-write branch has the same shape as `get_plugin_setting`'s creation of a missing namespace at Plugins/__init__.py:60-65, which writes `{name: default}` into the copy | high (not executed) | `Plugins.SetWithoutNamespaceRaises` | `Plugins.SettingsAfterSetCorrected` |
