/**
 * The websocket hub: the set of connected clients (WS_CLIENTS), the greeting a client
 * gets before it joins that set, the broadcast of result messages to every client in
 * the set, and the routing of one decoded command by its "type" field.
 *
 * Each connection is a client id; what the hub has sent to it is its outbox, in send
 * order. A connection whose peer has closed is in `closed`: a send to it raises
 * ConnectionClosed inside `send`, which swallows it, so nothing is appended.
 */
module Websocket {
  import opened Wrappers
  import opened Settings

  type ClientId = nat

  /** A decoded inbound JSON object. */
  type Command = map<string, Value>

  /** The outbound messages, before JSON encoding. */
  datatype Message =
    | InstalledLanguages(languages: Value)
    | AvailableImgLanguages(languages: Value)
    | TranslateSettings(settings: Snapshot)
    | TranslateResult(originalText: Option<string>, translation: string)
    | FlanResult(flan: Value)
    | WindowsList(windows: Value)

  /** One call of the OSC chat sender. */
  datatype OscCall = OscCall(text: Value, address: Value, ip: Value, port: Value)

  /** The collaborators the hub calls, as fixed answers and uninterpreted functions. */
  datatype Services = Services(
    installedLanguages: Value,                 // texttranslate.GetInstalledLanguageNames()
    imgLanguages: Value,                       // imagetranslate.get_installed_language_names()
    translate: (Value, Value, Value) -> string, // texttranslate.TranslateLanguage(text, from, to)
    ocr: (Value, seq<Value>) -> seq<string>,   // imagetranslate.run_image_processing(window, langs)
    flanReady: bool,                           // flanLanguageModel.init()
    flanEncode: Value -> Value,                // flanLanguageModel.flan.encode(text)
    windows: Value)                            // WindowCapture.list_window_names()

  /** The command types the handler acts on; every other type is ignored. */
  const Commands: set<Value> := {Str("setting_change"), Str("translate_req"), Str("ocr_req"),
                                 Str("flan_req"), Str("get_windows_list"), Str("send_osc")}

  /** The marker the OCR lines are joined with for a single translation request. */
  const OcrSeparator: string := " -- "

  // ---------------------------------------------------------------------------
  // String shaping for OCR results: str.join, str.split and str.replace
  // ---------------------------------------------------------------------------

  /** sep.join(parts) */
  function Join(parts: seq<string>, sep: string): string {
    if |parts| == 0 then "" else if |parts| == 1 then parts[0] else parts[0] + sep + Join(parts[1..], sep)
  }

  predicate OccursAt(s: string, sep: string, i: nat) {
    i + |sep| <= |s| && s[i..i + |sep|] == sep
  }

  /** The first occurrence of `sep` in `s` at or after `i`. */
  function FindFrom(s: string, sep: string, i: nat): (r: Option<nat>)
    requires i <= |s|
    ensures r.Some? ==> i <= r.value && OccursAt(s, sep, r.value)
    ensures r.Some? ==> forall j :: i <= j < r.value ==> !OccursAt(s, sep, j)
    ensures r.None? ==> forall j :: i <= j <= |s| ==> !OccursAt(s, sep, j)
    decreases |s| - i
  {
    if OccursAt(s, sep, i) then Some(i)
    else if i == |s| then None
    else FindFrom(s, sep, i + 1)
  }

  /** s.split(sep): cut at each occurrence, scanning left to right. */
  function Split(s: string, sep: string): (parts: seq<string>)
    requires |sep| > 0
    ensures |parts| >= 1
    decreases |s|
  {
    match FindFrom(s, sep, 0)
    case None => [s]
    case Some(i) => [s[..i]] + Split(s[i + |sep|..], sep)
  }

  /** s.replace(sep, repl): the independent reference for split-then-join. */
  function ReplaceAll(s: string, sep: string, repl: string): string
    requires |sep| > 0
    decreases |s|
  {
    if |s| == 0 then ""
    else if OccursAt(s, sep, 0) then repl + ReplaceAll(s[|sep|..], sep, repl)
    else [s[0]] + ReplaceAll(s[1..], sep, repl)
  }

  /** Dropping the first character shifts every occurrence one place to the left. */
  lemma OccursAtTail(s: string, sep: string, j: nat)
    requires |s| > 0
    ensures OccursAt(s[1..], sep, j) <==> OccursAt(s, sep, j + 1)
  {
    if j + |sep| <= |s[1..]| {
      assert s[1..][j..j + |sep|] == s[j + 1..j + 1 + |sep|];
    }
  }

  /** A prefix in which no occurrence starts is copied unchanged by ReplaceAll. */
  lemma {:induction false} ReplaceAllKeepsPrefix(s: string, sep: string, repl: string, i: nat)
    requires |sep| > 0 && i <= |s|
    requires forall j :: 0 <= j < i ==> !OccursAt(s, sep, j)
    ensures ReplaceAll(s, sep, repl) == s[..i] + ReplaceAll(s[i..], sep, repl)
  {
    if i > 0 {
      assert !OccursAt(s, sep, 0);
      assert ReplaceAll(s, sep, repl) == [s[0]] + ReplaceAll(s[1..], sep, repl);
      forall j | 0 <= j < i - 1
        ensures !OccursAt(s[1..], sep, j)
      {
        OccursAtTail(s, sep, j);
      }
      ReplaceAllKeepsPrefix(s[1..], sep, repl, i - 1);
      assert s[1..][i - 1..] == s[i..];
      assert s[..i] == [s[0]] + s[1..][..i - 1];
    }
  }

  /** Joining a first part in front of at least one more part puts one separator between. */
  lemma JoinCons(first: string, tail: seq<string>, sep: string)
    requires |tail| >= 1
    ensures Join([first] + tail, sep) == first + (sep + Join(tail, sep))
  {
    assert ([first] + tail)[1..] == tail;
    assert first + sep + Join(tail, sep) == first + (sep + Join(tail, sep));
  }

  /** ReplaceAll at an occurrence: the replacement, then the rest after the occurrence. */
  lemma ReplaceAllAtOccurrence(s: string, sep: string, repl: string, i: nat)
    requires |sep| > 0 && OccursAt(s, sep, i)
    ensures ReplaceAll(s[i..], sep, repl) == repl + ReplaceAll(s[i + |sep|..], sep, repl)
  {
    assert s[i..][0..|sep|] == s[i..i + |sep|];
    assert s[i..][|sep|..] == s[i + |sep|..];
  }

  /** Where the first occurrence is, the split cuts. */
  lemma SplitAt(s: string, sep: string, i: nat)
    requires |sep| > 0 && i <= |s| && FindFrom(s, sep, 0) == Some(i)
    ensures Split(s, sep) == [s[..i]] + Split(s[i + |sep|..], sep)
  {
  }

  /** One cut of the split: the part before the first occurrence, then the rest. */
  lemma SplitFirstCut(s: string, sep: string, repl: string, i: nat)
    requires |sep| > 0 && i <= |s| && FindFrom(s, sep, 0) == Some(i)
    requires Join(Split(s[i + |sep|..], sep), repl) == ReplaceAll(s[i + |sep|..], sep, repl)
    ensures Join(Split(s, sep), repl) == ReplaceAll(s, sep, repl)
  {
    SplitAt(s, sep, i);
    JoinCons(s[..i], Split(s[i + |sep|..], sep), repl);
    ReplaceAllFirstCut(s, sep, repl, i);
  }

  /** ReplaceAll copies up to the first occurrence, replaces it and goes on after it. */
  lemma ReplaceAllFirstCut(s: string, sep: string, repl: string, i: nat)
    requires |sep| > 0 && i <= |s| && FindFrom(s, sep, 0) == Some(i)
    ensures ReplaceAll(s, sep, repl) == s[..i] + (repl + ReplaceAll(s[i + |sep|..], sep, repl))
  {
    ReplaceAllAtOccurrence(s, sep, repl, i);
    ReplaceAllKeepsPrefix(s, sep, repl, i);
  }

  /** Splitting at `sep` and joining with `repl` replaces every occurrence of `sep` by `repl`. */
  lemma {:induction false} JoinSplitIsReplace(s: string, sep: string, repl: string)
    requires |sep| > 0
    ensures Join(Split(s, sep), repl) == ReplaceAll(s, sep, repl)
    decreases |s|
  {
    var found := FindFrom(s, sep, 0);
    if found.None? {
      assert Split(s, sep) == [s];
      ReplaceAllKeepsPrefix(s, sep, repl, |s|);
      assert s[..|s|] == s && s[|s|..] == "";
    } else {
      var i := found.value;
      JoinSplitIsReplace(s[i + |sep|..], sep, repl);
      SplitFirstCut(s, sep, repl, i);
    }
  }

  /** A line without '-' contains no occurrence of the OCR separator, nor starts one at its end. */
  lemma NoSeparatorBefore(l: string, rest: string, j: nat)
    requires forall k :: 0 <= k < |l| ==> l[k] != '-'
    requires j < |l|
    ensures !OccursAt(l + OcrSeparator + rest, OcrSeparator, j)
  {
    var s := l + OcrSeparator + rest;
    if j + 4 <= |s| {
      if j + 1 < |l| {
        assert s[j + 1] == l[j + 1];
      } else {
        assert s[j + 1] == OcrSeparator[0];
      }
      assert s[j..j + 4][1] == s[j + 1] != OcrSeparator[1];
    }
  }

  /**
   * When no OCR line contains '-', translating with a translator that returns its input
   * shows the original lines: the separators come back as exactly the line breaks.
   */
  lemma {:induction false} OcrLinesComeBack(lines: seq<string>)
    requires forall i, k :: 0 <= i < |lines| && 0 <= k < |lines[i]| ==> lines[i][k] != '-'
    ensures ReplaceAll(Join(lines, OcrSeparator), OcrSeparator, "\n") == Join(lines, "\n")
    decreases |lines|
  {
    if |lines| == 1 {
      var s := lines[0];
      forall j | 0 <= j < |s|
        ensures !OccursAt(s, OcrSeparator, j)
      {
        if j + 4 <= |s| {
          assert s[j..j + 4][1] == s[j + 1] != OcrSeparator[1];
        }
      }
      ReplaceAllKeepsPrefix(s, OcrSeparator, "\n", |s|);
      assert s[..|s|] == s && s[|s|..] == "";
    } else if |lines| > 1 {
      var l := lines[0];
      var rest := Join(lines[1..], OcrSeparator);
      var s := l + OcrSeparator + rest;
      assert Join(lines, OcrSeparator) == s;
      forall j | 0 <= j < |l|
        ensures !OccursAt(s, OcrSeparator, j)
      {
        NoSeparatorBefore(l, rest, j);
      }
      ReplaceAllKeepsPrefix(s, OcrSeparator, "\n", |l|);
      assert s[..|l|] == l;
      var t := s[|l|..];
      assert t == OcrSeparator + rest;
      assert OccursAt(t, OcrSeparator, 0) by {
        assert t[0..4] == OcrSeparator;
      }
      assert t[|OcrSeparator|..] == rest;
      OcrLinesComeBack(lines[1..]);
    }
  }

  /** The reply to an OCR request: the lines, and the translation split back into lines. */
  function OcrReply(lines: seq<string>, translated: string): (m: Message)
    ensures m.TranslateResult? && m.originalText == Some(Join(lines, "\n"))
    ensures m.translation == ReplaceAll(translated, OcrSeparator, "\n")
  {
    JoinSplitIsReplace(translated, OcrSeparator, "\n");
    TranslateResult(Some(Join(lines, "\n")), Join(Split(translated, OcrSeparator), "\n"))
  }

  // ---------------------------------------------------------------------------
  // The hub
  // ---------------------------------------------------------------------------

  /** The three messages a client gets on connect, in this order. */
  function Greeting(services: Services, settings: Snapshot): seq<Message> {
    [InstalledLanguages(services.installedLanguages),
     AvailableImgLanguages(services.imgLanguages),
     TranslateSettings(settings)]
  }

  predicate StartsWithGreeting(sent: seq<Message>) {
    |sent| >= 3 && sent[0].InstalledLanguages? && sent[1].AvailableImgLanguages? && sent[2].TranslateSettings?
  }

  /** The outboxes after `m` is sent to every connection in `targets`. */
  function Delivered(outbox: map<ClientId, seq<Message>>, targets: set<ClientId>, m: Message)
    : (r: map<ClientId, seq<Message>>)
    ensures r.Keys == outbox.Keys
    ensures forall c :: c in outbox && c in targets ==> r[c] == outbox[c] + [m]
    ensures forall c :: c in outbox && c !in targets ==> r[c] == outbox[c]
  {
    map c | c in outbox :: if c in targets then outbox[c] + [m] else outbox[c]
  }

  lemma DeliveredAddOne(outbox: map<ClientId, seq<Message>>, targets: set<ClientId>, c: ClientId, m: Message)
    requires c in outbox && c !in targets
    ensures Delivered(outbox, targets + {c}, m) == Delivered(outbox, targets, m)[c := outbox[c] + [m]]
  {
  }

  /** Every outbox only grew at its end. */
  predicate Extends(before: map<ClientId, seq<Message>>, after: map<ClientId, seq<Message>>) {
    before.Keys == after.Keys && forall c :: c in before ==> before[c] <= after[c]
  }

  /** msg["type"] == t */
  predicate Is(msg: Command, t: string) {
    "type" in msg && msg["type"] == Str(t)
  }

  // ---------------------------------------------------------------------------
  // The handler and the message loop as functions of the state they change
  // ---------------------------------------------------------------------------

  /** What handling commands can change: the outboxes, the settings and the OSC calls made. */
  datatype HubState = HubState(outbox: map<ClientId, seq<Message>>, settings: Snapshot, oscCalls: seq<OscCall>)

  /** settings.GetOption on a snapshot. */
  function Lookup(settings: Snapshot, name: string): (r: Result<Value>)
    ensures r.Ok? <==> name in settings.options
    ensures r.Ok? ==> r.value == settings.options[name]
    ensures r.Err? ==> r.error == KeyError(name)
  {
    if name in settings.options then Ok(settings.options[name]) else Err(KeyError(name))
  }

  /**
   * websocketMessageHandler: route one command by its "type". A broadcast goes to
   * `targets`, the open members of WS_CLIENTS. An exception leaves the state as it was.
   */
  function Handle(msg: Command, st: HubState, targets: set<ClientId>, services: Services): (r: (Outcome, HubState))
    ensures r.0.Raised? ==> r.1 == st
    ensures Extends(st.outbox, r.1.outbox) && st.oscCalls <= r.1.oscCalls
    ensures r.1.settings.plugins == st.settings.plugins && r.1.settings.pluginSettings == st.settings.pluginSettings
    ensures "type" in msg && msg["type"] !in Commands ==> r == (Done, st)
  {
    if "type" !in msg then (Raised(KeyError("type")), st)
    else if Is(msg, "setting_change") then
      if "name" !in msg then (Raised(KeyError("name")), st)
      else if "value" !in msg then (Raised(KeyError("value")), st)
      else if !msg["name"].Str? then (Raised(TypeError("setting name is not a string")), st)
      else
        var settings := st.settings.(options := st.settings.options[msg["name"].s := msg["value"]]);
        (Done, HubState(Delivered(st.outbox, targets, TranslateSettings(settings)), settings, st.oscCalls))
    else if Is(msg, "translate_req") then
      if "text" !in msg then (Raised(KeyError("text")), st)
      else if "from_lang" !in msg then (Raised(KeyError("from_lang")), st)
      else if "to_lang" !in msg then (Raised(KeyError("to_lang")), st)
      else
        var translation := services.translate(msg["text"], msg["from_lang"], msg["to_lang"]);
        (Done, st.(outbox := Delivered(st.outbox, targets, TranslateResult(None, translation))))
    else if Is(msg, "ocr_req") then
      var windowName := Lookup(st.settings, "ocr_window_name");
      if windowName.Err? then (Raised(windowName.error), st)
      else if "ocr_lang" !in msg then (Raised(KeyError("ocr_lang")), st)
      else if "from_lang" !in msg then (Raised(KeyError("from_lang")), st)
      else if "to_lang" !in msg then (Raised(KeyError("to_lang")), st)
      else
        var lines := services.ocr(windowName.value, [Str("en"), msg["ocr_lang"]]);
        var translated := services.translate(Str(Join(lines, OcrSeparator)), msg["from_lang"], msg["to_lang"]);
        (Done, st.(outbox := Delivered(st.outbox, targets, OcrReply(lines, translated))))
    else if Is(msg, "flan_req") then
      if !services.flanReady then (Done, st)
      else if "text" !in msg then (Raised(KeyError("text")), st)
      else (Done, st.(outbox := Delivered(st.outbox, targets, FlanResult(services.flanEncode(msg["text"])))))
    else if Is(msg, "get_windows_list") then
      (Done, st.(outbox := Delivered(st.outbox, targets, WindowsList(services.windows))))
    else if Is(msg, "send_osc") then
      var address := Lookup(st.settings, "osc_address");
      var ip := Lookup(st.settings, "osc_ip");
      var port := Lookup(st.settings, "osc_port");
      if address.Err? then (Raised(address.error), st)
      else if ip.Err? then (Raised(ip.error), st)
      else if port.Err? then (Raised(port.error), st)
      else if ip.value == Str("0") then (Done, st)
      else if "text" !in msg then (Raised(KeyError("text")), st)
      else (Done, st.(oscCalls := st.oscCalls + [OscCall(msg["text"], address.value, ip.value, port.value)]))
    else (Done, st)
  }

  /**
   * The `async for` of `handler`: the commands are handled in order and the first
   * exception ends the loop. The result is the last outcome, the number of commands
   * handled without an exception, and the state afterwards.
   */
  function Run(received: seq<Command>, st: HubState, step: (Command, HubState) -> (Outcome, HubState))
    : (r: (Outcome, nat, HubState))
    ensures r.1 <= |received|
    ensures r.0.Raised? <==> r.1 < |received|
    decreases |received|
  {
    if received == [] then (Done, 0, st)
    else
      var (outcome, next) := step(received[0], st);
      if outcome.Raised? then (outcome, 0, next)
      else
        var (last, handled, final) := Run(received[1..], next, step);
        (last, handled + 1, final)
  }

  /** The step the server's loop takes for each command: `Handle` for the connections it sees. */
  function Handler(targets: set<ClientId>, services: Services): (Command, HubState) -> (Outcome, HubState)
  {
    (msg, st) => Handle(msg, st, targets, services)
  }

  /** The result of running a suffix, seen from the whole sequence: `skipped` commands come first. */
  function Shifted(r: (Outcome, nat, HubState), skipped: nat): (Outcome, nat, HubState)
  {
    (r.0, r.1 + skipped, r.2)
  }

  /**
   * The loop's invariant carried over one command: if the whole run is the run of the
   * suffix from `before`, it is also the run of the next suffix from the state the command
   * left, or the command's own raise.
   */
  lemma RunAdvance(received: seq<Command>, handled: nat, start: HubState, before: HubState,
                   step: (Command, HubState) -> (Outcome, HubState))
    requires handled < |received|
    requires Run(received, start, step) == Shifted(Run(received[handled..], before, step), handled)
    ensures var h := step(received[handled], before);
            Run(received, start, step)
            == if h.0.Raised? then (h.0, handled, h.1)
               else Shifted(Run(received[handled + 1..], h.1, step), handled + 1)
  {
    assert received[handled..][0] == received[handled];
    assert received[handled..][1..] == received[handled + 1..];
  }

  /**
   * Running two batches one after the other is running them joined: the second batch is
   * reached only when the first handled every command.
   */
  lemma {:induction false} RunConcat(first: seq<Command>, rest: seq<Command>, st: HubState,
                                     step: (Command, HubState) -> (Outcome, HubState))
    ensures var a := Run(first, st, step);
            var b := Run(rest, a.2, step);
            Run(first + rest, st, step) == if a.0.Raised? then a else Shifted(b, |first|)
    decreases |first|
  {
    if first == [] {
      assert first + rest == rest;
    } else {
      assert (first + rest)[0] == first[0];
      assert (first + rest)[1..] == first[1..] + rest;
      var h := step(first[0], st);
      if !h.0.Raised? {
        RunConcat(first[1..], rest, h.1, step);
      }
    }
  }

  /** Commands of no known type are ignored: the loop handles them all and changes nothing. */
  lemma {:induction false} RunIgnoresUnknown(received: seq<Command>, st: HubState, targets: set<ClientId>, services: Services)
    requires forall i :: 0 <= i < |received| ==> "type" in received[i] && received[i]["type"] !in Commands
    ensures Run(received, st, Handler(targets, services)) == (Done, |received|, st)
    decreases |received|
  {
    if received != [] {
      assert "type" in received[0] && received[0]["type"] !in Commands;
      assert Handler(targets, services)(received[0], st) == (Done, st);
      forall i | 0 <= i < |received[1..]|
        ensures "type" in received[1..][i] && received[1..][i]["type"] !in Commands
      {
        assert received[1..][i] == received[i + 1];
      }
      RunIgnoresUnknown(received[1..], st, targets, services);
    }
  }

  /** A command without "type" ends the loop with KeyError no later than that command. */
  lemma {:induction false} RunStopsAtMissingType(received: seq<Command>, st: HubState, targets: set<ClientId>,
                                                 services: Services, k: nat)
    requires k < |received| && "type" !in received[k]
    ensures var r := Run(received, st, Handler(targets, services)); r.0.Raised? && r.1 <= k
    decreases |received|
  {
    var h := Handler(targets, services)(received[0], st);
    if k == 0 {
      assert h == Handle(received[0], st, targets, services);
    } else if !h.0.Raised? {
      assert received[1..][k - 1] == received[k];
      RunStopsAtMissingType(received[1..], h.1, targets, services, k - 1);
    }
  }

  class Hub {
    /** WS_CLIENTS */
    var clients: set<ClientId>
    /** Every connection ever accepted, with what has been sent to it, in order. */
    var outbox: map<ClientId, seq<Message>>
    /** Connections whose peer has closed. */
    var closed: set<ClientId>
    /** The OSC chat calls made, in order. */
    var oscCalls: seq<OscCall>

    /** No client is in WS_CLIENTS before it has been sent its greeting. */
    ghost predicate Valid()
      reads this
    {
      && clients <= outbox.Keys
      && closed <= outbox.Keys
      && forall c :: c in clients ==> StartsWithGreeting(outbox[c])
    }

    constructor ()
      ensures Valid()
      ensures clients == {} && outbox == map[] && closed == {} && oscCalls == []
    {
      clients, outbox, closed, oscCalls := {}, map[], {}, [];
    }

    /** send: a closed connection raises ConnectionClosed, which is swallowed. */
    method Send(c: ClientId, m: Message)
      requires Valid() && c in outbox
      modifies this
      ensures Valid()
      ensures c in closed ==> outbox == old(outbox)
      ensures c !in closed ==> outbox == old(outbox)[c := old(outbox)[c] + [m]]
      ensures clients == old(clients) && closed == old(closed) && oscCalls == old(oscCalls)
    {
      if c !in closed {
        outbox := outbox[c := outbox[c] + [m]];
      }
    }

    /** The peer closes its side of the connection. */
    method PeerClose(c: ClientId)
      requires Valid() && c in outbox
      modifies this
      ensures Valid()
      ensures closed == old(closed) + {c}
      ensures clients == old(clients) && outbox == old(outbox) && oscCalls == old(oscCalls)
    {
      closed := closed + {c};
    }

    /** broadcast: one send to every member of WS_CLIENTS at call time. */
    method Broadcast(m: Message)
      requires Valid()
      modifies this
      ensures Valid()
      ensures outbox == Delivered(old(outbox), old(clients) - old(closed), m)
      ensures clients == old(clients) && closed == old(closed) && oscCalls == old(oscCalls)
    {
      var pending := clients;
      ghost var done: set<ClientId> := {};
      while pending != {}
        invariant Valid()
        invariant pending <= clients && done == clients - pending
        invariant clients == old(clients) && closed == old(closed) && oscCalls == old(oscCalls)
        invariant outbox == Delivered(old(outbox), done - closed, m)
        decreases pending
      {
        var c :| c in pending;
        Send(c, m);
        if c !in closed {
          DeliveredAddOne(old(outbox), done - closed, c, m);
          assert (done + {c}) - closed == (done - closed) + {c};
        } else {
          assert (done + {c}) - closed == done - closed;
        }
        pending := pending - {c};
        done := done + {c};
      }
    }

    /** The start of `handler`: three sends to the new connection, then it joins WS_CLIENTS. */
    method Connect(c: ClientId, store: Store, services: Services)
      requires Valid() && c !in outbox
      modifies this
      ensures Valid()
      ensures outbox == old(outbox)[c := Greeting(services, store.Current())]
      ensures clients == old(clients) + {c}
      ensures closed == old(closed) && oscCalls == old(oscCalls)
    {
      var m1, m2, m3 := InstalledLanguages(services.installedLanguages),
        AvailableImgLanguages(services.imgLanguages), TranslateSettings(store.Current());
      ghost var others := old(outbox);
      outbox := outbox[c := []];
      assert c !in closed;
      Send(c, m1);
      Send(c, m2);
      Send(c, m3);
      assert outbox[c] == [m1, m2, m3];
      assert outbox == others[c := [m1, m2, m3]];
      clients := clients + {c};
    }

    /** The `finally` of `handler`: the connection leaves WS_CLIENTS. */
    method Disconnect(c: ClientId)
      requires Valid() && c in clients
      modifies this
      ensures Valid()
      ensures clients == old(clients) - {c}
      ensures outbox == old(outbox) && closed == old(closed) && oscCalls == old(oscCalls)
    {
      clients := clients - {c};
    }

    /** What handling a command can change, as it stands now. */
    function State(store: Store): HubState
      reads this, store
    {
      HubState(outbox, store.Current(), oscCalls)
    }

    /** websocketMessageHandler: route one command by its "type". */
    method HandleMessage(msg: Command, store: Store, services: Services) returns (outcome: Outcome)
      requires Valid()
      modifies this, store`options
      ensures Valid()
      ensures (outcome, State(store)) == Handle(msg, old(State(store)), old(clients) - old(closed), services)
      ensures clients == old(clients) && closed == old(closed)
      ensures Extends(old(outbox), outbox) && old(oscCalls) <= oscCalls
      ensures outcome.Raised? ==>
                outbox == old(outbox) && oscCalls == old(oscCalls) && store.options == old(store.options)
      ensures "type" !in msg ==> outcome == Raised(KeyError("type"))
      ensures "type" in msg && msg["type"] !in Commands ==>
                outcome == Done && outbox == old(outbox) && oscCalls == old(oscCalls)
                && store.options == old(store.options)
      // only setting_change writes a setting, only send_osc calls OSC
      ensures !Is(msg, "setting_change") ==> store.options == old(store.options)
      ensures !Is(msg, "send_osc") ==> oscCalls == old(oscCalls)
      ensures Is(msg, "send_osc") ==> outbox == old(outbox)
      // setting_change: write, then broadcast the settings as they are after the write
      ensures Is(msg, "setting_change") && ("name" !in msg || "value" !in msg) ==> outcome.Raised?
      ensures Is(msg, "setting_change") && "name" in msg && "value" in msg ==>
                (outcome == Done <==> msg["name"].Str?)
      ensures Is(msg, "setting_change") && outcome == Done ==>
                && store.options == old(store.options)[msg["name"].s := msg["value"]]
                && outbox == Delivered(old(outbox), old(clients) - old(closed), TranslateSettings(store.Current()))
      // translate_req: one translate_result with the translation
      ensures Is(msg, "translate_req") ==>
                if "text" in msg && "from_lang" in msg && "to_lang" in msg then
                  && outcome == Done
                  && outbox == Delivered(old(outbox), old(clients) - old(closed),
                       TranslateResult(None, services.translate(msg["text"], msg["from_lang"], msg["to_lang"])))
                else outcome.Raised?
      // ocr_req: translate the lines joined by the separator, reply with both texts
      ensures Is(msg, "ocr_req") ==>
                if "ocr_window_name" in old(store.options) && "ocr_lang" in msg && "from_lang" in msg && "to_lang" in msg then
                  var lines := services.ocr(old(store.options)["ocr_window_name"], [Str("en"), msg["ocr_lang"]]);
                  var translated := services.translate(Str(Join(lines, OcrSeparator)), msg["from_lang"], msg["to_lang"]);
                  && outcome == Done
                  && outbox == Delivered(old(outbox), old(clients) - old(closed), OcrReply(lines, translated))
                else outcome.Raised?
      // flan_req: a reply only when the language model is ready
      ensures Is(msg, "flan_req") && !services.flanReady ==> outcome == Done && outbox == old(outbox)
      ensures Is(msg, "flan_req") && services.flanReady ==>
                if "text" in msg then
                  && outcome == Done
                  && outbox == Delivered(old(outbox), old(clients) - old(closed), FlanResult(services.flanEncode(msg["text"])))
                else outcome.Raised?
      // get_windows_list
      ensures Is(msg, "get_windows_list") ==>
                outcome == Done && outbox == Delivered(old(outbox), old(clients) - old(closed), WindowsList(services.windows))
      // send_osc: exactly one OSC call unless the configured ip is "0"
      ensures Is(msg, "send_osc") ==>
                var o := old(store.options);
                if "osc_address" in o && "osc_ip" in o && "osc_port" in o then
                  if o["osc_ip"] == Str("0") then outcome == Done && oscCalls == old(oscCalls)
                  else if "text" in msg then
                    outcome == Done && oscCalls == old(oscCalls) + [OscCall(msg["text"], o["osc_address"], o["osc_ip"], o["osc_port"])]
                  else outcome.Raised?
                else outcome.Raised?
    {
      if "type" !in msg {
        return Raised(KeyError("type"));
      }
      var kind := msg["type"];
      if kind == Str("setting_change") {
        if "name" !in msg {
          return Raised(KeyError("name"));
        }
        if "value" !in msg {
          return Raised(KeyError("value"));
        }
        if !msg["name"].Str? {
          return Raised(TypeError("setting name is not a string"));
        }
        store.SetOption(msg["name"].s, msg["value"]);
        Broadcast(TranslateSettings(store.Current()));
      } else if kind == Str("translate_req") {
        if "text" !in msg {
          return Raised(KeyError("text"));
        }
        if "from_lang" !in msg {
          return Raised(KeyError("from_lang"));
        }
        if "to_lang" !in msg {
          return Raised(KeyError("to_lang"));
        }
        var translation := services.translate(msg["text"], msg["from_lang"], msg["to_lang"]);
        Broadcast(TranslateResult(None, translation));
      } else if kind == Str("ocr_req") {
        var windowName := store.GetOption("ocr_window_name");
        if windowName.Err? {
          return Raised(windowName.error);
        }
        if "ocr_lang" !in msg {
          return Raised(KeyError("ocr_lang"));
        }
        var lines := services.ocr(windowName.value, [Str("en"), msg["ocr_lang"]]);
        if "from_lang" !in msg {
          return Raised(KeyError("from_lang"));
        }
        if "to_lang" !in msg {
          return Raised(KeyError("to_lang"));
        }
        var translated := services.translate(Str(Join(lines, OcrSeparator)), msg["from_lang"], msg["to_lang"]);
        Broadcast(OcrReply(lines, translated));
      } else if kind == Str("flan_req") {
        if services.flanReady {
          if "text" !in msg {
            return Raised(KeyError("text"));
          }
          Broadcast(FlanResult(services.flanEncode(msg["text"])));
        }
      } else if kind == Str("get_windows_list") {
        Broadcast(WindowsList(services.windows));
      } else if kind == Str("send_osc") {
        var address := store.GetOption("osc_address");
        if address.Err? {
          return Raised(address.error);
        }
        var ip := store.GetOption("osc_ip");
        if ip.Err? {
          return Raised(ip.error);
        }
        var port := store.GetOption("osc_port");
        if port.Err? {
          return Raised(port.error);
        }
        if ip.value != Str("0") {
          if "text" !in msg {
            return Raised(KeyError("text"));
          }
          oscCalls := oscCalls + [OscCall(msg["text"], address.value, ip.value, port.value)];
        }
      }
      outcome := Done;
    }

    /**
     * `handler` for one connection: the greeting, joining WS_CLIENTS, every received
     * command in order until one raises, and leaving WS_CLIENTS however the loop ended.
     * `received` is what arrived before the connection ended, normally or by
     * ConnectionClosedError; both end the loop the same way. `handled` is the number of
     * commands handled without an exception; an exception leaves `handler` and ends the
     * session.
     */
    method Session(c: ClientId, received: seq<Command>, store: Store, services: Services)
      returns (outcome: Outcome, handled: nat)
      requires Valid() && c !in outbox
      modifies this, store`options
      ensures Valid()
      ensures clients == old(clients) && closed == old(closed)
      ensures c in outbox && |outbox[c]| >= 3 && outbox[c][..3] == Greeting(services, old(store.Current()))
      ensures forall d :: d in old(outbox) ==> d in outbox && old(outbox)[d] <= outbox[d]
      ensures handled <= |received|
      ensures outcome.Raised? <==> handled < |received|
      ensures forall i :: 0 <= i < handled ==> "type" in received[i]
      ensures (exists i :: 0 <= i < |received| && "type" !in received[i]) ==> outcome.Raised?
      // commands of no known type are ignored: only the greeting is sent
      ensures (forall i :: 0 <= i < |received| ==> "type" in received[i] && received[i]["type"] !in Commands) ==>
                && outcome == Done
                && store.options == old(store.options) && oscCalls == old(oscCalls)
                && outbox == old(outbox)[c := Greeting(services, old(store.Current()))]
      // after the greeting, the commands run in order for every open connection, this one included
      ensures (outcome, handled, State(store))
              == Run(received,
                     HubState(old(outbox)[c := Greeting(services, old(store.Current()))], old(store.Current()), old(oscCalls)),
                     Handler(old(clients) + {c} - old(closed), services))
    {
      Connect(c, store, services);
      ghost var connected := outbox;
      assert connected == old(outbox)[c := Greeting(services, old(store.Current()))];
      outcome, handled := Serve(c, received, store, services);
      assert connected[c] <= outbox[c];
      Disconnect(c);
    }

    /**
     * The `async for` over the messages of one connection: each command is handled in
     * order, and the first one that raises ends the loop with its exception.
     */
    method Serve(c: ClientId, received: seq<Command>, store: Store, services: Services)
      returns (outcome: Outcome, handled: nat)
      requires Valid() && c in clients
      modifies this, store`options
      ensures Valid()
      ensures clients == old(clients) && closed == old(closed)
      ensures Extends(old(outbox), outbox)
      ensures handled <= |received|
      ensures outcome.Raised? <==> handled < |received|
      ensures forall i :: 0 <= i < handled ==> "type" in received[i]
      ensures (forall i :: 0 <= i < |received| ==> "type" in received[i] && received[i]["type"] !in Commands) ==>
                && outcome == Done
                && outbox == old(outbox) && store.options == old(store.options) && oscCalls == old(oscCalls)
      ensures (outcome, handled, State(store)) == Run(received, old(State(store)), Handler(old(clients) - old(closed), services))
    {
      ghost var start := State(store);
      ghost var step := Handler(clients - closed, services);
      ghost var ignored := forall i :: 0 <= i < |received| ==> "type" in received[i] && received[i]["type"] !in Commands;
      outcome := Done;
      handled := 0;
      while handled < |received|
        invariant handled <= |received| && outcome == Done
        invariant Valid() && c in clients
        invariant clients == old(clients) && closed == old(closed)
        invariant Extends(old(outbox), outbox)
        invariant forall k :: 0 <= k < handled ==> "type" in received[k]
        invariant ignored ==> outbox == old(outbox) && store.options == old(store.options) && oscCalls == old(oscCalls)
        invariant Run(received, start, step) == Shifted(Run(received[handled..], State(store), step), handled)
        decreases |received| - handled
      {
        ghost var before := State(store);
        outcome := HandleMessage(received[handled], store, services);
        RunAdvance(received, handled, start, before, step);
        if outcome.Raised? {
          return;
        }
        handled := handled + 1;
      }
      assert received[handled..] == [];
    }
  }
}
