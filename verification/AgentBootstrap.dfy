/** `ensureTeamClawAgentConfigBootstrap`: completing the dedicated agent's entry in the host configuration. */
module AgentBootstrap {
  import opened Common
  import opened Json
  import opened AgentConfig
  import WorkspaceConfig

  // ---- the exec settings

  /** A blank setting is filled from the root settings, else with the recommendation. */
  function Filled(host: Host, exec: Fields, key: string, root: Fields, recommended: string): Fields {
    if Given(host, Get(exec, key)) then exec
    else Put(exec, key, Str(if Given(host, Get(root, key)) then host.trim(Get(root, key).value.text) else recommended))
  }

  function SettledExec(host: Host, root: Fields, exec: Fields): Fields {
    if Given(host, Get(exec, "mode")) then Without(Without(exec, {"security"}), {"ask"})
    else Filled(host, Filled(host, exec, "security", root, RECOMMENDED_SECURITY), "ask", root, RECOMMENDED_ASK)
  }

  function NextExec(host: Host, root: Fields, exec: Fields): Fields {
    SettledExec(host, root, Spread(root, exec))
  }

  /** A mode excludes the two older settings; without a mode both are there. */
  predicate Unmixed(host: Host, exec: Fields) {
    if Given(host, Get(exec, "mode")) then Get(exec, "security").None? && Get(exec, "ask").None?
    else Given(host, Get(exec, "security")) && Given(host, Get(exec, "ask"))
  }

  lemma FilledGets(host: Host, exec: Fields, key: string, root: Fields, recommended: string, other: string)
    requires Lawful(host) && host.trim(recommended) != ""
    ensures Given(host, Get(Filled(host, exec, key, root, recommended), key))
    ensures other != key ==> Get(Filled(host, exec, key, root, recommended), other) == Get(exec, other)
  {
    if !Given(host, Get(exec, key)) {
      var value := Str(if Given(host, Get(root, key)) then host.trim(Get(root, key).value.text) else recommended);
      GetPut(exec, key, value, key);
      GetPut(exec, key, value, other);
    }
  }

  lemma SettledIsUnmixed(host: Host, root: Fields, exec: Fields)
    requires Lawful(host)
    ensures Unmixed(host, SettledExec(host, root, exec))
  {
    if Given(host, Get(exec, "mode")) {
      forall k ensures Get(SettledExec(host, root, exec), k) == if k == "security" || k == "ask" then None else Get(exec, k) {
        GetWithout(exec, {"security"}, k);
        GetWithout(Without(exec, {"security"}), {"ask"}, k);
      }
    } else {
      var secured := Filled(host, exec, "security", root, RECOMMENDED_SECURITY);
      FilledGets(host, exec, "security", root, RECOMMENDED_SECURITY, "mode");
      FilledGets(host, secured, "ask", root, RECOMMENDED_ASK, "mode");
      FilledGets(host, secured, "ask", root, RECOMMENDED_ASK, "security");
    }
  }

  /** Unmixed settings that already hold all root settings are settled. */
  lemma UnmixedIsSettled(host: Host, root: Fields, exec: Fields)
    requires Unmixed(host, exec)
    ensures SettledExec(host, root, exec) == exec
  {
    if Given(host, Get(exec, "mode")) {
      WithoutAbsent(exec, {"security"});
      WithoutAbsent(exec, {"ask"});
    }
  }

  lemma KeysCons(head: Field, f: Fields)
    ensures Keys([head] + f) == [head.key] + Keys(f)
  {
  }

  lemma {:induction false} PutKeys(f: Fields, key: string, value: Json)
    ensures Keys(Put(f, key, value)) == if key in Keys(f) then Keys(f) else Keys(f) + [key]
  {
    if f == [] {
      assert Keys(Put(f, key, value)) == [key];
    } else {
      assert f == [f[0]] + f[1..];
      KeysCons(f[0], f[1..]);
      if f[0].key == key {
        KeysCons(Field(key, value), f[1..]);
      } else {
        KeysCons(f[0], Put(f[1..], key, value));
        PutKeys(f[1..], key, value);
      }
    }
  }

  lemma RestIsNew<T(!new)>(short: seq<T>, rest: seq<T>)
    requires NoRepeats(short + rest)
    ensures forall k :: k in rest ==> k !in short
  {
    var long := short + rest;
    forall i, j | 0 <= i < |short| && 0 <= j < |rest| ensures short[i] != rest[j] {
      assert long[i] == short[i] && long[|short| + j] == rest[j];
    }
  }

  /** Key orders: what a longer order adds is all that is left of it without the shorter one. */
  lemma MinusPrefix<T(!new)>(short: seq<T>, rest: seq<T>, drop: set<T>)
    requires (forall k :: k in short ==> k in drop) && (forall k :: k in rest ==> k !in drop)
    ensures Minus(short + rest, drop) == rest
  {
    MinusConcat(short, rest, drop);
    MinusAll(short, drop);
    MinusNone(rest, drop);
    assert [] + rest == rest;
  }

  /** Spreading over a record whose keys start with those of the other one changes nothing. */
  lemma SpreadOver(root: Fields, exec: Fields)
    requires NoRepeats(Keys(exec)) && Keys(root) <= Keys(exec)
    ensures Spread(root, exec) == exec
  {
    var rest := Keys(exec)[|Keys(root)|..];
    assert Keys(exec) == Keys(root) + rest;
    KeysSpread(root, exec);
    RestIsNew(Keys(root), rest);
    MinusPrefix(Keys(root), rest, KeySet(root));
    forall k | k in Keys(exec) ensures Get(Spread(root, exec), k) == Get(exec, k) {
      GetSpread(root, exec, k);
    }
    SameFields(Spread(root, exec), exec);
  }

  lemma {:induction false} MinusAll<T(!new)>(keys: seq<T>, drop: set<T>)
    requires forall k :: k in keys ==> k in drop
    ensures Minus(keys, drop) == []
  {
    if keys != [] {
      MinusAll(keys[1..], drop);
    }
  }

  lemma FilledKeys(host: Host, exec: Fields, key: string, root: Fields, recommended: string)
    requires NoRepeats(Keys(exec))
    ensures Keys(exec) <= Keys(Filled(host, exec, key, root, recommended)) && NoRepeats(Keys(Filled(host, exec, key, root, recommended)))
  {
    PutKeys(exec, key, Str(if Given(host, Get(root, key)) then host.trim(Get(root, key).value.text) else recommended));
  }

  /** Settings without a mode: settling keeps the order of what is there. */
  lemma FilledTwice(host: Host, root: Fields, exec: Fields)
    requires Lawful(host) && NoRepeats(Keys(root)) && NoRepeats(Keys(exec)) && !Given(host, Get(Spread(root, exec), "mode"))
    ensures NextExec(host, root, NextExec(host, root, exec)) == NextExec(host, root, exec)
  {
    var spread := Spread(root, exec);
    SpreadNoRepeats(root, exec);
    KeysSpread(root, exec);
    FilledKeys(host, spread, "security", root, RECOMMENDED_SECURITY);
    FilledKeys(host, Filled(host, spread, "security", root, RECOMMENDED_SECURITY), "ask", root, RECOMMENDED_ASK);
    SettledIsUnmixed(host, root, spread);
    SpreadOver(root, NextExec(host, root, exec));
    UnmixedIsSettled(host, root, NextExec(host, root, exec));
  }

  /** Settings with a mode: the two older settings come back from the root, and go again. */
  lemma DroppedTwice(host: Host, root: Fields, exec: Fields)
    requires NoRepeats(Keys(root)) && NoRepeats(Keys(exec)) && Given(host, Get(Spread(root, exec), "mode"))
    ensures NextExec(host, root, NextExec(host, root, exec)) == NextExec(host, root, exec)
  {
    var older := {"security", "ask"};
    var spread := Spread(root, exec);
    var settled := NextExec(host, root, exec);
    SettledDrops(host, root, spread);
    assert settled == Without(spread, older);
    GetWithout(spread, older, "mode");
    GetSpread(root, settled, "mode");
    SettledDrops(host, root, Spread(root, settled));
    SpreadDropped(root, exec, older);
  }

  lemma SettledDrops(host: Host, root: Fields, exec: Fields)
    requires Given(host, Get(exec, "mode"))
    ensures SettledExec(host, root, exec) == Without(exec, {"security", "ask"})
  {
    WithoutTwice(exec, {"security"}, {"ask"});
    assert {"security"} + {"ask"} == {"security", "ask"};
  }

  lemma NoRepeatsWithout(f: Fields, drop: set<string>)
    requires NoRepeats(Keys(f))
    ensures NoRepeats(Keys(Without(f, drop)))
  {
    KeysWithout(f, drop);
    MinusKeepsOrder(Keys(f), drop);
  }

  /** Spreading over what was left, and dropping the same keys again, gives what was left. */
  lemma SpreadDropped(root: Fields, exec: Fields, drop: set<string>)
    requires NoRepeats(Keys(root)) && NoRepeats(Keys(exec))
    ensures Without(Spread(root, Without(Spread(root, exec), drop)), drop) == Without(Spread(root, exec), drop)
  {
    var left := Without(Spread(root, exec), drop);
    var again := Without(Spread(root, left), drop);
    SpreadNoRepeats(root, exec);
    NoRepeatsWithout(Spread(root, exec), drop);
    SpreadDroppedKeys(root, exec, drop);
    forall k | k in Keys(left) ensures Get(left, k) == Get(again, k) {
      GetWithout(Spread(root, exec), drop, k);
      GetWithout(Spread(root, left), drop, k);
      GetSpread(root, left, k);
    }
    SameFields(left, again);
  }

  lemma SpreadDroppedKeys(root: Fields, exec: Fields, drop: set<string>)
    ensures var left := Without(Spread(root, exec), drop);
            Keys(Without(Spread(root, left), drop)) == Keys(left)
  {
    var left := Without(Spread(root, exec), drop);
    var r, e, known := Keys(root), Keys(exec), KeySet(root);
    // the keys that are left
    KeysWithout(Spread(root, exec), drop);
    KeysSpread(root, exec);
    MinusConcat(r, Minus(e, known), drop);
    assert Keys(left) == Minus(r, drop) + Minus(Minus(e, known), drop);
    // and again
    KeysWithout(Spread(root, left), drop);
    KeysSpread(root, left);
    MinusConcat(r, Minus(Keys(left), known), drop);
    MinusConcat(Minus(r, drop), Minus(Minus(e, known), drop), known);
    MinusAll(Minus(r, drop), known);
    MinusNone(Minus(Minus(e, known), drop), known);
    MinusNone(Minus(Minus(e, known), drop), drop);
    assert [] + Minus(Minus(e, known), drop) == Minus(Minus(e, known), drop);
  }

  /** Settling settled settings changes nothing, down to the order of the keys. */
  lemma NextExecTwice(host: Host, root: Fields, exec: Fields)
    requires Lawful(host) && NoRepeats(Keys(root)) && NoRepeats(Keys(exec))
    ensures NextExec(host, root, NextExec(host, root, exec)) == NextExec(host, root, exec)
  {
    if Given(host, Get(Spread(root, exec), "mode")) {
      DroppedTwice(host, root, exec);
    } else {
      FilledTwice(host, root, exec);
    }
  }

  // ---- the entry

  function RootExec(doc: Fields): Fields {
    Rec(Get(Rec(Get(doc, "tools")), "exec"))
  }

  function DefaultModel(doc: Fields): Option<Json> {
    Get(Rec(Get(Agents(doc), "defaults")), "model")
  }

  predicate Absent(j: Option<Json>) {
    j.None? || j.value.Null?
  }

  function EntryExec(entry: Fields): Fields {
    Rec(Get(Rec(Get(entry, "tools")), "exec"))
  }

  function Existing(host: Host, doc: Fields): Fields {
    var keyed := Get(Entries(doc), TEAMCLAW);
    if IsRecord(keyed) then keyed.value.fields
    else
      match First(host, false, Legacy(doc), TEAMCLAW)
      case Some(entry) => entry
      case None => []
  }

  function WithExec(host: Host, root: Fields, entry: Fields): Fields {
    var placed := Put(entry, "agentDir", if Given(host, Get(entry, "agentDir")) then Get(entry, "agentDir").value else Str(host.agentDir));
    Put(placed, "tools", Obj(Put(Rec(Get(entry, "tools")), "exec", Obj(NextExec(host, root, EntryExec(entry))))))
  }

  function WithWorkspace(host: Host, entry: Fields, next: Fields): Fields {
    if Given(host, Get(entry, "workspace")) then Put(next, "workspace", Get(entry, "workspace").value) else next
  }

  function WithModel(next: Fields, model: Option<Json>): Fields {
    if Absent(Get(next, "model")) && !Absent(model) then Put(next, "model", model.value) else next
  }

  function NextEntry(host: Host, root: Fields, model: Option<Json>, keyed: bool, entry: Fields): Fields {
    var placed := WithWorkspace(host, entry, WithExec(host, root, entry));
    WithModel(if keyed then placed else Put(placed, "id", Str(TEAMCLAW)), model)
  }

  /** What is stored: the keyed shape has no ids. */
  function Stored(keyed: bool, entry: Fields): Fields {
    if keyed then Without(entry, {"id"}) else entry
  }

  /** The entry has everything the bootstrap provides. */
  ghost predicate Complete(host: Host, root: Fields, model: Option<Json>, keyed: bool, entry: Fields) {
    && Given(host, Get(entry, "agentDir"))
    && IsRecord(Get(entry, "tools")) && IsRecord(Get(Rec(Get(entry, "tools")), "exec"))
    && NextExec(host, root, EntryExec(entry)) == EntryExec(entry)
    && (!keyed ==> Get(entry, "id") == Some(Str(TEAMCLAW)))
    && (Absent(Get(entry, "model")) ==> Absent(model))
  }

  lemma WithExecGets(host: Host, root: Fields, entry: Fields, key: string)
    ensures var next := WithExec(host, root, entry);
            && Get(next, "agentDir") == Some(if Given(host, Get(entry, "agentDir")) then Get(entry, "agentDir").value else Str(host.agentDir))
            && Get(next, "tools") == Some(Obj(Put(Rec(Get(entry, "tools")), "exec", Obj(NextExec(host, root, EntryExec(entry))))))
            && (key != "agentDir" && key != "tools" ==> Get(next, key) == Get(entry, key))
  {
    var dir := if Given(host, Get(entry, "agentDir")) then Get(entry, "agentDir").value else Str(host.agentDir);
    var placed := Put(entry, "agentDir", dir);
    var tools := Obj(Put(Rec(Get(entry, "tools")), "exec", Obj(NextExec(host, root, EntryExec(entry)))));
    GetPut(entry, "agentDir", dir, "agentDir");
    GetPut(entry, "agentDir", dir, key);
    GetPut(placed, "tools", tools, "agentDir");
    GetPut(placed, "tools", tools, "tools");
    GetPut(placed, "tools", tools, key);
  }

  lemma NextEntryGets(host: Host, root: Fields, model: Option<Json>, keyed: bool, entry: Fields, key: string)
    ensures var next := NextEntry(host, root, model, keyed, entry);
            && (key != "model" && (keyed || key != "id") ==> Get(next, key) == Get(WithExec(host, root, entry), key))
            && (!keyed ==> Get(next, "id") == Some(Str(TEAMCLAW)))
            && (Absent(Get(next, "model")) ==> Absent(model))
  {
    var base := WithExec(host, root, entry);
    WithExecGets(host, root, entry, "workspace");
    if Given(host, Get(entry, "workspace")) {
      PutSame(base, "workspace");
    }
    var placed := WithWorkspace(host, entry, base);
    assert placed == base;
    GetPut(placed, "id", Str(TEAMCLAW), key);
    GetPut(placed, "id", Str(TEAMCLAW), "id");
    var named := if keyed then placed else Put(placed, "id", Str(TEAMCLAW));
    if !Absent(model) {
      GetPut(named, "model", model.value, key);
      GetPut(named, "model", model.value, "id");
      GetPut(named, "model", model.value, "model");
    }
  }

  lemma StoredGets(keyed: bool, entry: Fields, key: string)
    requires keyed ==> key != "id"
    ensures Get(Stored(keyed, entry), key) == Get(entry, key)
  {
    GetWithout(entry, {"id"}, key);
  }

  /** What the entry that is stored holds. */
  lemma StoredEntryGets(host: Host, root: Fields, model: Option<Json>, keyed: bool, entry: Fields)
    requires Lawful(host)
    ensures var stored := Stored(keyed, NextEntry(host, root, model, keyed, entry));
            && Given(host, Get(stored, "agentDir"))
            && Get(stored, "tools") == Some(Obj(Put(Rec(Get(entry, "tools")), "exec", Obj(NextExec(host, root, EntryExec(entry))))))
            && Get(stored, "workspace") == Get(entry, "workspace")
            && (!keyed ==> Get(stored, "id") == Some(Str(TEAMCLAW)))
            && (Absent(Get(stored, "model")) ==> Absent(model))
  {
    var next := NextEntry(host, root, model, keyed, entry);
    WithExecGets(host, root, entry, "workspace");
    NextEntryGets(host, root, model, keyed, entry, "agentDir");
    NextEntryGets(host, root, model, keyed, entry, "tools");
    NextEntryGets(host, root, model, keyed, entry, "workspace");
    StoredGets(keyed, next, "agentDir");
    StoredGets(keyed, next, "tools");
    StoredGets(keyed, next, "workspace");
    StoredGets(keyed, next, "model");
  }

  lemma StoredExec(host: Host, root: Fields, model: Option<Json>, keyed: bool, entry: Fields)
    requires Lawful(host)
    ensures var stored := Stored(keyed, NextEntry(host, root, model, keyed, entry));
            Get(Rec(Get(stored, "tools")), "exec") == Some(Obj(NextExec(host, root, EntryExec(entry))))
  {
    StoredEntryGets(host, root, model, keyed, entry);
    GetPut(Rec(Get(entry, "tools")), "exec", Obj(NextExec(host, root, EntryExec(entry))), "exec");
  }

  lemma CompleteWithExec(host: Host, root: Fields, model: Option<Json>, keyed: bool, entry: Fields, exec: Fields)
    requires Given(host, Get(entry, "agentDir")) && IsRecord(Get(entry, "tools"))
    requires Get(Rec(Get(entry, "tools")), "exec") == Some(Obj(exec)) && NextExec(host, root, exec) == exec
    requires (!keyed ==> Get(entry, "id") == Some(Str(TEAMCLAW))) && (Absent(Get(entry, "model")) ==> Absent(model))
    ensures Complete(host, root, model, keyed, entry)
  {
  }

  lemma StoredIsComplete(host: Host, root: Fields, model: Option<Json>, keyed: bool, entry: Fields)
    requires Lawful(host) && NoRepeats(Keys(root)) && NoRepeats(Keys(EntryExec(entry)))
    ensures Complete(host, root, model, keyed, Stored(keyed, NextEntry(host, root, model, keyed, entry)))
  {
    var stored := Stored(keyed, NextEntry(host, root, model, keyed, entry));
    StoredEntryGets(host, root, model, keyed, entry);
    StoredExec(host, root, model, keyed, entry);
    NextExecTwice(host, root, EntryExec(entry));
    CompleteWithExec(host, root, model, keyed, stored, NextExec(host, root, EntryExec(entry)));
  }

  lemma CompleteIsKept(host: Host, root: Fields, model: Option<Json>, keyed: bool, entry: Fields)
    requires Complete(host, root, model, keyed, entry)
    ensures NextEntry(host, root, model, keyed, entry) == entry
  {
    PutSame(entry, "agentDir");
    PutSame(Rec(Get(entry, "tools")), "exec");
    PutSame(entry, "tools");
    assert WithExec(host, root, entry) == entry;
    if Given(host, Get(entry, "workspace")) {
      PutSame(entry, "workspace");
    }
    if !keyed {
      PutSame(entry, "id");
    }
  }

  // ---- the plugin settings

  function PluginEntries(doc: Fields): Fields {
    Rec(Get(Rec(Get(doc, "plugins")), "entries"))
  }

  function PluginConfig(doc: Fields): Fields {
    Rec(Get(Rec(Get(PluginEntries(doc), TEAMCLAW)), "config"))
  }

  /** A controller with many processes provisions its workers, unless that was switched off on purpose. */
  function NextPluginConfig(config: Fields): Fields {
    if && Get(config, "mode") == Some(Str("controller"))
       && Get(config, "processModel") == Some(Str("multi"))
       && Get(config, "workerProvisioningType") == Some(Str("none"))
       && Get(config, "workerProvisioningDisabled") != Some(Bool(true))
    then Put(config, "workerProvisioningType", Str("process"))
    else config
  }

  function WithPluginConfig(doc: Fields, config: Fields): Fields {
    var entry := Put(Rec(Get(PluginEntries(doc), TEAMCLAW)), "config", Obj(config));
    Put(doc, "plugins", Obj(Put(Rec(Get(doc, "plugins")), "entries", Obj(Put(PluginEntries(doc), TEAMCLAW, Obj(entry))))))
  }

  lemma WithPluginConfigGets(doc: Fields, config: Fields, key: string)
    ensures PluginConfig(WithPluginConfig(doc, config)) == config
    ensures key != "plugins" ==> Get(WithPluginConfig(doc, config), key) == Get(doc, key)
  {
    var plugin := Rec(Get(PluginEntries(doc), TEAMCLAW));
    var entry := Put(plugin, "config", Obj(config));
    var entries := Put(PluginEntries(doc), TEAMCLAW, Obj(entry));
    var plugins := Put(Rec(Get(doc, "plugins")), "entries", Obj(entries));
    GetPut(plugin, "config", Obj(config), "config");
    GetPut(PluginEntries(doc), TEAMCLAW, Obj(entry), TEAMCLAW);
    GetPut(Rec(Get(doc, "plugins")), "entries", Obj(entries), "entries");
    GetPut(doc, "plugins", Obj(plugins), "plugins");
    GetPut(doc, "plugins", Obj(plugins), key);
  }

  lemma NextPluginConfigTwice(config: Fields)
    ensures NextPluginConfig(NextPluginConfig(config)) == NextPluginConfig(config)
  {
    GetPut(config, "workerProvisioningType", Str("process"), "workerProvisioningType");
  }

  // ---- the document

  function ReplacedList(host: Host, list: seq<Fields>, entry: Fields): seq<Fields> {
    if list == [] then [entry]
    else if Name(host, false, list[0]) == TEAMCLAW then [entry] + list[1..]
    else [list[0]] + ReplacedList(host, list[1..], entry)
  }

  function Next(host: Host, doc: Fields): Fields {
    NextEntry(host, RootExec(doc), DefaultModel(doc), Modern(doc), Existing(host, doc))
  }

  function EntriesWith(host: Host, doc: Fields, entry: Fields): Fields {
    Put(Fold(host, false, Entries(doc), Legacy(doc)), TEAMCLAW, Obj(Without(entry, {"id"})))
  }

  function NextEntries(host: Host, doc: Fields): Fields {
    EntriesWith(host, doc, Next(host, doc))
  }

  function AgentsWith(host: Host, doc: Fields, entry: Fields): Fields {
    if Modern(doc) then KeyedAgents(Agents(doc), EntriesWith(host, doc, entry))
    else Put(Agents(doc), "list", AsList(ReplacedList(host, Legacy(doc), entry)))
  }

  function NextAgents(host: Host, doc: Fields): Fields {
    AgentsWith(host, doc, Next(host, doc))
  }

  predicate Changed(host: Host, doc: Fields) {
    || Existing(host, doc) != Next(host, doc)
    || (Modern(doc) && (Legacy(doc) != [] || !IsRecord(Get(Entries(doc), TEAMCLAW))))
  }

  /** The document to write, unless there is nothing to change. */
  function Bootstrapped(host: Host, doc: Fields): Option<Fields> {
    var config := NextPluginConfig(PluginConfig(doc));
    var base := WithAgents(doc, NextAgents(host, doc));
    if !Changed(host, doc) && PluginConfig(doc) == config then None
    else Some(if PluginConfig(doc) == config then base else WithPluginConfig(base, config))
  }

  function After(host: Host, doc: Fields): Fields {
    var written := Bootstrapped(host, doc);
    if written.Some? then written.value else doc
  }

  lemma {:induction false} ReplacedListFirst(host: Host, list: seq<Fields>, entry: Fields, name: string)
    requires Name(host, false, entry) == TEAMCLAW
    ensures ReplacedList(host, list, entry) != []
    ensures First(host, false, ReplacedList(host, list, entry), name) == if name == TEAMCLAW then Some(entry) else First(host, false, list, name)
  {
    if list != [] {
      if Name(host, false, list[0]) == TEAMCLAW {
        assert ReplacedList(host, list, entry)[1..] == list[1..];
      } else {
        ReplacedListFirst(host, list[1..], entry, name);
        assert ReplacedList(host, list, entry)[1..] == ReplacedList(host, list[1..], entry);
      }
    }
  }

  lemma NextIsNamed(host: Host, doc: Fields)
    requires Lawful(host) && !Modern(doc)
    ensures Name(host, false, Next(host, doc)) == TEAMCLAW
  {
    StoredEntryGets(host, RootExec(doc), DefaultModel(doc), false, Existing(host, doc));
  }

  /** The roster in a written document; the plugin settings do not touch it. */
  lemma BootstrapShape(host: Host, doc: Fields, key: string)
    requires Lawful(host) && Bootstrapped(host, doc).Some?
    ensures var out := Bootstrapped(host, doc).value;
            && Agents(out) == NextAgents(host, doc)
            && PluginConfig(out) == NextPluginConfig(PluginConfig(doc))
            && (key != "agents" && key != "plugins" ==> Get(out, key) == Get(doc, key))
  {
    var base := WithAgents(doc, NextAgents(host, doc));
    WithAgentsGets(doc, NextAgents(host, doc), "plugins");
    WithAgentsGets(doc, NextAgents(host, doc), key);
    WithPluginConfigGets(base, NextPluginConfig(PluginConfig(doc)), "agents");
    WithPluginConfigGets(base, NextPluginConfig(PluginConfig(doc)), key);
  }

  /** The same for any document with these agents. */
  lemma RosterShape(host: Host, doc: Fields, out: Fields)
    requires Lawful(host) && Agents(out) == NextAgents(host, doc)
    ensures Modern(out) == Modern(doc) && DefaultModel(out) == DefaultModel(doc)
    ensures Modern(doc) ==> Legacy(out) == [] && Get(Agents(out), "entries") == Some(Obj(NextEntries(host, doc)))
    ensures !Modern(doc) ==> Legacy(out) == ReplacedList(host, Legacy(doc), Next(host, doc)) && Get(Agents(out), "entries") == Get(Agents(doc), "entries")
  {
    if Modern(doc) {
      KeyedAgentsGets(Agents(doc), NextEntries(host, doc), "defaults");
    } else {
      var list := ReplacedList(host, Legacy(doc), Next(host, doc));
      GetPut(Agents(doc), "list", AsList(list), "list");
      GetPut(Agents(doc), "list", AsList(list), "entries");
      GetPut(Agents(doc), "list", AsList(list), "defaults");
      RecordsOfList(list);
      NextIsNamed(host, doc);
      ReplacedListFirst(host, Legacy(doc), Next(host, doc), TEAMCLAW);
    }
  }

  lemma RosterEntry(host: Host, doc: Fields, out: Fields)
    requires Lawful(host) && Agents(out) == NextAgents(host, doc)
    ensures Existing(host, out) == Stored(Modern(doc), Next(host, doc))
    ensures ResolveEntry(host, out, TEAMCLAW) == Some(Existing(host, out))
    ensures Modern(doc) ==> IsRecord(Get(Entries(out), TEAMCLAW))
  {
    RosterShape(host, doc, out);
    if Modern(doc) {
      GetPut(Fold(host, false, Entries(doc), Legacy(doc)), TEAMCLAW, Obj(Without(Next(host, doc), {"id"})), TEAMCLAW);
    } else {
      NextIsNamed(host, doc);
      ReplacedListFirst(host, Legacy(doc), Next(host, doc), TEAMCLAW);
    }
  }

  // ---- what the bootstrap promises

  lemma {:induction false} ParsedFirst(host: Host, items: seq<Json>)
    requires forall i :: 0 <= i < |items| ==> Parsed(items[i])
    ensures var found := First(host, false, OnlyRecords(items), TEAMCLAW);
            found.Some? ==> Parsed(Obj(found.value))
  {
    if items != [] {
      ParsedFirst(host, items[1..]);
      if items[0].Obj? {
        assert OnlyRecords(items)[1..] == OnlyRecords(items[1..]);
      }
    }
  }

  lemma ParsedExisting(host: Host, doc: Fields)
    requires Parsed(Obj(doc))
    ensures Parsed(Obj(Existing(host, doc)))
  {
    ParsedGet(doc, "agents");
    ParsedGet(Agents(doc), "entries");
    ParsedGet(Entries(doc), TEAMCLAW);
    var list := Get(Agents(doc), "list");
    if list.Some? && list.value.List? {
      assert Field("list", list.value) in Agents(doc);
      ParsedFirst(host, list.value.items);
    }
  }

  lemma ParsedExecs(host: Host, doc: Fields)
    requires Parsed(Obj(doc))
    ensures NoRepeats(Keys(RootExec(doc))) && NoRepeats(Keys(EntryExec(Existing(host, doc))))
  {
    ParsedGet(doc, "tools");
    ParsedGet(Rec(Get(doc, "tools")), "exec");
    ParsedExisting(host, doc);
    ParsedGet(Existing(host, doc), "tools");
    ParsedGet(Rec(Get(Existing(host, doc), "tools")), "exec");
  }

  /** Run on its own output, in the keyed shape or the list shape, the bootstrap writes nothing. */
  lemma BootstrapIsFixedPoint(host: Host, doc: Fields)
    requires Lawful(host) && Parsed(Obj(doc))
    ensures Bootstrapped(host, After(host, doc)) == None
  {
    if Bootstrapped(host, doc).Some? {
      var out := After(host, doc);
      BootstrapShape(host, doc, "tools");
      RosterShape(host, doc, out);
      RosterEntry(host, doc, out);
      ParsedExecs(host, doc);
      StoredIsComplete(host, RootExec(doc), DefaultModel(doc), Modern(doc), Existing(host, doc));
      CompleteIsKept(host, RootExec(doc), DefaultModel(doc), Modern(doc), Existing(host, out));
      NextPluginConfigTwice(PluginConfig(doc));
    }
  }

  lemma NextIsNotEmpty(host: Host, root: Fields, model: Option<Json>, keyed: bool, entry: Fields)
    ensures NextEntry(host, root, model, keyed, entry) != []
  {
    NextEntryGets(host, root, model, keyed, entry, "tools");
    WithExecGets(host, root, entry, "");
    assert Get(NextEntry(host, root, model, keyed, entry), "tools").Some?;
  }

  /** Nothing to change: there is an entry, and it is the one that would be written. */
  lemma UnchangedEntry(host: Host, doc: Fields)
    requires Lawful(host) && !Changed(host, doc)
    ensures ResolveEntry(host, doc, TEAMCLAW) == Some(Existing(host, doc)) && Existing(host, doc) == Next(host, doc)
  {
    NextIsNotEmpty(host, RootExec(doc), DefaultModel(doc), Modern(doc), Existing(host, doc));
    assert Existing(host, doc) != [];
  }

  lemma NextExecIsUnmixed(host: Host, root: Fields, exec: Fields)
    requires Lawful(host)
    ensures Unmixed(host, NextExec(host, root, exec))
  {
    SettledIsUnmixed(host, root, Spread(root, exec));
  }

  lemma StoredIsUnmixed(host: Host, root: Fields, model: Option<Json>, keyed: bool, entry: Fields)
    requires Lawful(host)
    ensures Unmixed(host, EntryExec(NextEntry(host, root, model, keyed, entry)))
    ensures Unmixed(host, EntryExec(Stored(keyed, NextEntry(host, root, model, keyed, entry))))
  {
    StoredExec(host, root, model, keyed, entry);
    NextExecIsUnmixed(host, root, EntryExec(entry));
    StoredGets(keyed, NextEntry(host, root, model, keyed, entry), "tools");
  }

  /** Whatever was configured, afterwards the entry exists and its exec settings are unmixed. */
  lemma BootstrapUnmixes(host: Host, doc: Fields)
    requires Lawful(host)
    ensures var entry := ResolveEntry(host, After(host, doc), TEAMCLAW);
            entry.Some? && Unmixed(host, EntryExec(entry.value))
  {
    StoredIsUnmixed(host, RootExec(doc), DefaultModel(doc), Modern(doc), Existing(host, doc));
    if Bootstrapped(host, doc).Some? {
      BootstrapShape(host, doc, "");
      RosterEntry(host, doc, After(host, doc));
    } else {
      UnchangedEntry(host, doc);
    }
  }

  /** No other agent's configuration changes its meaning: this fold files entries where the lookup finds them. */
  lemma BootstrapKeepsOthers(host: Host, doc: Fields, agent: string)
    requires Lawful(host) && host.agentId(agent) != TEAMCLAW
    ensures SameButId(ResolveEntry(host, After(host, doc), agent), ResolveEntry(host, doc, agent))
  {
    if Bootstrapped(host, doc).Some? {
      BootstrapShape(host, doc, "");
      RosterKeepsOthers(host, doc, After(host, doc), agent);
    }
  }

  lemma RosterKeepsOthers(host: Host, doc: Fields, out: Fields, agent: string)
    requires Lawful(host) && host.agentId(agent) != TEAMCLAW && Agents(out) == NextAgents(host, doc)
    ensures SameButId(ResolveEntry(host, out, agent), ResolveEntry(host, doc, agent))
  {
    var name := host.agentId(agent);
    RosterShape(host, doc, out);
    if Modern(doc) {
      EntriesKeepOthers(host, doc, Next(host, doc), name);
    } else {
      NextIsNamed(host, doc);
      ReplacedListFirst(host, Legacy(doc), Next(host, doc), name);
    }
  }

  lemma EntriesKeepOthers(host: Host, doc: Fields, entry: Fields, name: string)
    requires name != "" && name != TEAMCLAW
    ensures var keyed, first := Get(EntriesWith(host, doc, entry), name), First(host, false, Legacy(doc), name);
            if IsRecord(Get(Entries(doc), name)) then keyed == Get(Entries(doc), name)
            else SameButId(if IsRecord(keyed) then Some(keyed.value.fields) else None, first)
  {
    GetPut(Fold(host, false, Entries(doc), Legacy(doc)), TEAMCLAW, Obj(Without(entry, {"id"})), name);
    FoldGet(host, false, Entries(doc), Legacy(doc), name);
    WorkspaceConfig.SameWithoutId(First(host, false, Legacy(doc), name), First(host, false, Legacy(doc), name));
  }

  lemma ModeKept(host: Host, doc: Fields)
    requires Lawful(host) && Bootstrapped(host, doc).Some?
    ensures WorkspaceConfig.MainMode(Bootstrapped(host, doc).value) == WorkspaceConfig.MainMode(doc)
  {
    BootstrapShape(host, doc, "");
    GetPut(PluginConfig(doc), "workerProvisioningType", Str("process"), "agentIsolationMode");
  }

  lemma ExistingWorkspace(host: Host, doc: Fields)
    requires Lawful(host)
    ensures WorkspaceConfig.ConfiguredWorkspace(host, ResolveEntry(host, doc, TEAMCLAW))
            == WorkspaceConfig.ConfiguredWorkspace(host, Some(Existing(host, doc)))
  {
    assert Get([], "workspace") == None;
  }

  lemma SameConfiguredWorkspace(host: Host, a: Fields, b: Fields)
    requires Get(a, "workspace") == Get(b, "workspace")
    ensures WorkspaceConfig.ConfiguredWorkspace(host, Some(a)) == WorkspaceConfig.ConfiguredWorkspace(host, Some(b))
  {
  }

  lemma EntryKeepsWorkspace(host: Host, doc: Fields)
    requires Lawful(host) && Bootstrapped(host, doc).Some?
    ensures WorkspaceConfig.ConfiguredWorkspace(host, ResolveEntry(host, Bootstrapped(host, doc).value, TEAMCLAW))
            == WorkspaceConfig.ConfiguredWorkspace(host, ResolveEntry(host, doc, TEAMCLAW))
  {
    var out := Bootstrapped(host, doc).value;
    BootstrapShape(host, doc, "");
    RosterEntry(host, doc, out);
    StoredEntryGets(host, RootExec(doc), DefaultModel(doc), Modern(doc), Existing(host, doc));
    ExistingWorkspace(host, doc);
    SameConfiguredWorkspace(host, Existing(host, out), Existing(host, doc));
  }

  /** The bootstrap never moves the workspace. */
  lemma BootstrapKeepsWorkspace(host: Host, override: Option<string>, doc: Fields)
    requires Lawful(host)
    ensures WorkspaceConfig.WorkspaceRoot(host, override, After(host, doc)) == WorkspaceConfig.WorkspaceRoot(host, override, doc)
  {
    if Bootstrapped(host, doc).Some? {
      EntryKeepsWorkspace(host, doc);
      ModeKept(host, doc);
    }
  }

  // ---- what is written, field by field

  /** The settings under `tools.exec` of a record. */
  function ToolsExec(f: Fields): Fields {
    Rec(Get(Rec(Get(f, "tools")), "exec"))
  }

  function OwnEntry(host: Host, doc: Fields): Fields {
    match ResolveEntry(host, doc, "teamclaw")
    case Some(entry) => entry
    case None => []
  }

  predicate IsGiven(host: Host, j: Option<Json>) {
    match j
    case Some(Str(text)) => host.trim(text) != ""
    case _ => false
  }

  function Or(j: Option<Json>, other: Option<Json>): Option<Json> {
    if j.Some? then j else other
  }

  /** A setting of the entry, else of the root; a blank one gives way to the root's trimmed text, else to the recommendation. */
  function Completed(host: Host, own: Option<Json>, root: Option<Json>, recommended: string): Option<Json> {
    if IsGiven(host, Or(own, root)) then Or(own, root)
    else
      match root
      case Some(Str(text)) => if host.trim(text) != "" then Some(Str(host.trim(text))) else Some(Str(recommended))
      case _ => Some(Str(recommended))
  }

  lemma OwnEntryIsExisting(host: Host, doc: Fields)
    requires Lawful(host)
    ensures OwnEntry(host, doc) == Existing(host, doc)
  {
  }

  /** After the bootstrap the entry is the one that was completed, whether anything was written or not. */
  lemma EntryAfter(host: Host, doc: Fields)
    requires Lawful(host)
    ensures ResolveEntry(host, After(host, doc), "teamclaw") == Some(if Bootstrapped(host, doc).Some? then Stored(Modern(doc), Next(host, doc)) else Next(host, doc))
  {
    if Bootstrapped(host, doc).Some? {
      BootstrapShape(host, doc, "");
      RosterEntry(host, doc, After(host, doc));
    } else {
      UnchangedEntry(host, doc);
    }
  }

  lemma EntryAfterGets(host: Host, doc: Fields, key: string)
    requires Lawful(host) && key != "id"
    ensures Get(OwnEntry(host, After(host, doc)), key) == Get(Next(host, doc), key)
  {
    EntryAfter(host, doc);
    StoredGets(Modern(doc), Next(host, doc), key);
  }

  lemma NextToolsGets(host: Host, root: Fields, model: Option<Json>, keyed: bool, entry: Fields, key: string)
    ensures var tools := Rec(Get(NextEntry(host, root, model, keyed, entry), "tools"));
            Get(tools, key) == if key == "exec" then Some(Obj(NextExec(host, root, EntryExec(entry)))) else Get(Rec(Get(entry, "tools")), key)
  {
    NextEntryGets(host, root, model, keyed, entry, "tools");
    WithExecGets(host, root, entry, "");
    GetPut(Rec(Get(entry, "tools")), "exec", Obj(NextExec(host, root, EntryExec(entry))), key);
  }

  /** One key of the agent's exec settings: its own, else the root's; a mode excludes the two older settings, which are else completed. */
  predicate ExecKeyIs(host: Host, own: Fields, root: Fields, after: Fields, key: string) {
    Get(after, key) ==
      if key != "security" && key != "ask" then Or(Get(own, key), Get(root, key))
      else if IsGiven(host, Or(Get(own, "mode"), Get(root, "mode"))) then None
      else Completed(host, Get(own, key), Get(root, key), if key == "security" then "full" else "off")
  }

  /** The exec settings of the agent afterwards, from its own entry and from the root settings. */
  lemma BootstrapExec(host: Host, doc: Fields, key: string)
    requires Lawful(host)
    ensures ExecKeyIs(host, ToolsExec(OwnEntry(host, doc)), ToolsExec(doc), ToolsExec(OwnEntry(host, After(host, doc))), key)
  {
    ExecAfter(host, doc);
    NextExecGets(host, ToolsExec(doc), ToolsExec(OwnEntry(host, doc)), key);
  }

  lemma ExecAfter(host: Host, doc: Fields)
    requires Lawful(host)
    ensures ToolsExec(OwnEntry(host, After(host, doc))) == NextExec(host, ToolsExec(doc), ToolsExec(OwnEntry(host, doc)))
  {
    OwnEntryIsExisting(host, doc);
    EntryAfterGets(host, doc, "tools");
    NextToolsGets(host, RootExec(doc), DefaultModel(doc), Modern(doc), Existing(host, doc), "exec");
  }

  lemma NextExecGets(host: Host, root: Fields, own: Fields, key: string)
    requires Lawful(host)
    ensures ExecKeyIs(host, own, root, NextExec(host, root, own), key)
  {
    var spread := Spread(root, own);
    GetSpread(root, own, "mode");
    GetSpread(root, own, key);
    if Given(host, Get(spread, "mode")) {
      SettledDrops(host, root, spread);
      GetWithout(spread, {"security", "ask"}, key);
    } else {
      var secured := Filled(host, spread, "security", root, RECOMMENDED_SECURITY);
      FilledIs(host, spread, "security", root, RECOMMENDED_SECURITY, key);
      FilledIs(host, secured, "ask", root, RECOMMENDED_ASK, key);
    }
  }

  lemma FilledIs(host: Host, exec: Fields, key: string, root: Fields, recommended: string, other: string)
    ensures var after := Filled(host, exec, key, root, recommended);
            Get(after, other) ==
              if other != key || IsGiven(host, Get(exec, key)) then Get(exec, other)
              else if IsGiven(host, Get(root, key)) then Some(Str(host.trim(Get(root, key).value.text)))
              else Some(Str(recommended))
  {
    if !Given(host, Get(exec, key)) {
      GetPut(exec, key, Str(if Given(host, Get(root, key)) then host.trim(Get(root, key).value.text) else recommended), other);
    }
  }

  predicate IsAbsent(j: Option<Json>) {
    j == None || j == Some(Null)
  }

  /** The other fields: a given directory stays, an absent model becomes the default one, the other tools and all the rest stay. */
  lemma BootstrapEntry(host: Host, doc: Fields, key: string)
    requires Lawful(host)
    ensures var own, after := OwnEntry(host, doc), OwnEntry(host, After(host, doc));
            var model := Get(Rec(Get(Rec(Get(doc, "agents")), "defaults")), "model");
            && Get(after, "agentDir") == (if IsGiven(host, Get(own, "agentDir")) then Get(own, "agentDir") else Some(Str(host.agentDir)))
            && Get(after, "model") == (if IsAbsent(Get(own, "model")) && !IsAbsent(model) then model else Get(own, "model"))
            && (key != "exec" ==> Get(Rec(Get(after, "tools")), key) == Get(Rec(Get(own, "tools")), key))
            && (key !in {"agentDir", "model", "tools", "id"} ==> Get(after, key) == Get(own, key))
  {
    OwnEntryIsExisting(host, doc);
    EntryAfterGets(host, doc, "agentDir");
    EntryAfterGets(host, doc, "model");
    EntryAfterGets(host, doc, "tools");
    if key != "id" {
      EntryAfterGets(host, doc, key);
    }
    NextEntryIs(host, RootExec(doc), DefaultModel(doc), Modern(doc), Existing(host, doc), key);
    NextToolsGets(host, RootExec(doc), DefaultModel(doc), Modern(doc), Existing(host, doc), key);
  }

  lemma NextEntryIs(host: Host, root: Fields, model: Option<Json>, keyed: bool, entry: Fields, key: string)
    ensures var next := NextEntry(host, root, model, keyed, entry);
            && Get(next, "agentDir") == (if IsGiven(host, Get(entry, "agentDir")) then Get(entry, "agentDir") else Some(Str(host.agentDir)))
            && Get(next, "model") == (if IsAbsent(Get(entry, "model")) && !IsAbsent(model) then model else Get(entry, "model"))
            && (key !in {"agentDir", "model", "tools", "id"} ==> Get(next, key) == Get(entry, key))
  {
    WithExecGets(host, root, entry, key);
    NextEntryGets(host, root, model, keyed, entry, "agentDir");
    NextEntryGets(host, root, model, keyed, entry, key);
    NextModelIs(host, root, model, keyed, entry);
  }

  lemma NextModelIs(host: Host, root: Fields, model: Option<Json>, keyed: bool, entry: Fields)
    ensures Get(NextEntry(host, root, model, keyed, entry), "model")
            == (if IsAbsent(Get(entry, "model")) && !IsAbsent(model) then model else Get(entry, "model"))
  {
    var base := WithExec(host, root, entry);
    var placed := WithWorkspace(host, entry, base);
    PlacedModel(host, root, entry);
    GetPut(placed, "id", Str(TEAMCLAW), "model");
    WithModelIs(if keyed then placed else Put(placed, "id", Str(TEAMCLAW)), model);
  }

  lemma PlacedModel(host: Host, root: Fields, entry: Fields)
    ensures Get(WithWorkspace(host, entry, WithExec(host, root, entry)), "model") == Get(entry, "model")
  {
    WithExecGets(host, root, entry, "model");
    if Given(host, Get(entry, "workspace")) {
      GetPut(WithExec(host, root, entry), "workspace", Get(entry, "workspace").value, "model");
    }
  }

  lemma WithModelIs(next: Fields, model: Option<Json>)
    ensures Get(WithModel(next, model), "model") == if IsAbsent(Get(next, "model")) && !IsAbsent(model) then model else Get(next, "model")
  {
    if !IsAbsent(model) {
      GetPut(next, "model", model.value, "model");
    }
  }

  function PluginSettings(doc: Fields): Fields {
    Rec(Get(Rec(Get(Rec(Get(Rec(Get(doc, "plugins")), "entries")), "teamclaw")), "config"))
  }

  /** A controller with many processes and no provisioning gets processes, unless it was disabled; other settings stay. */
  lemma BootstrapProvisioning(host: Host, doc: Fields, key: string)
    requires Lawful(host)
    ensures var was, now := PluginSettings(doc), PluginSettings(After(host, doc));
            Get(now, key) ==
              if && key == "workerProvisioningType"
                 && Get(was, "mode") == Some(Str("controller")) && Get(was, "processModel") == Some(Str("multi"))
                 && Get(was, "workerProvisioningType") == Some(Str("none")) && Get(was, "workerProvisioningDisabled") != Some(Bool(true))
              then Some(Str("process")) else Get(was, key)
  {
    AfterPluginConfig(host, doc);
    NextPluginConfigGets(PluginConfig(doc), key);
  }

  lemma AfterPluginConfig(host: Host, doc: Fields)
    requires Lawful(host)
    ensures PluginSettings(After(host, doc)) == NextPluginConfig(PluginConfig(doc)) && PluginSettings(doc) == PluginConfig(doc)
  {
    if Bootstrapped(host, doc).Some? {
      BootstrapShape(host, doc, "");
    }
  }

  lemma NextPluginConfigGets(was: Fields, key: string)
    ensures Get(NextPluginConfig(was), key) ==
              if && key == "workerProvisioningType"
                 && Get(was, "mode") == Some(Str("controller")) && Get(was, "processModel") == Some(Str("multi"))
                 && Get(was, "workerProvisioningType") == Some(Str("none")) && Get(was, "workerProvisioningDisabled") != Some(Bool(true))
              then Some(Str("process")) else Get(was, key)
  {
    GetPut(was, "workerProvisioningType", Str("process"), key);
  }

  /** The rest of the document, and of the agents record, stays. */
  lemma BootstrapKeepsRest(host: Host, doc: Fields, key: string)
    requires Lawful(host)
    ensures key !in {"agents", "plugins"} ==> Get(After(host, doc), key) == Get(doc, key)
    ensures key !in {"entries", "list", "ownership"} ==>
              Get(Rec(Get(After(host, doc), "agents")), key) == Get(Rec(Get(doc, "agents")), key)
  {
    if Bootstrapped(host, doc).Some? {
      BootstrapShape(host, doc, key);
      if Modern(doc) {
        KeyedAgentsGets(Agents(doc), NextEntries(host, doc), key);
      } else {
        GetPut(Agents(doc), "list", AsList(ReplacedList(host, Legacy(doc), Next(host, doc))), key);
      }
    }
  }

  // ---- the bootstrap itself

  /** `doc` is absent when the host configuration cannot be read or is not a record. */
  method EnsureAgentConfig(host: Host, doc: Option<Fields>) returns (written: Option<Fields>)
    ensures written == if doc.Some? then Bootstrapped(host, doc.value) else None
  {
    if doc.None? {
      return None;
    }
    var existing := Existing(host, doc.value);
    var keyed, legacy := Modern(doc.value), Legacy(doc.value);
    var next := CompleteEntry(host, RootExec(doc.value), DefaultModel(doc.value), keyed, existing);
    var config := NextPluginConfig(PluginConfig(doc.value));
    var entryChanged := existing != next || (keyed && (|legacy| > 0 || !IsRecord(Get(Entries(doc.value), TEAMCLAW))));
    var configChanged := PluginConfig(doc.value) != config;
    if !entryChanged && !configChanged {
      return None;
    }
    var agents := StoreEntry(host, doc.value, next);
    var out := Put(doc.value, "agents", Obj(agents));
    if configChanged {
      out := WithPluginConfig(out, config);
    }
    return Some(out);
  }

  /** The entry goes into the keyed map, with the rest of the list, or into the list. */
  method StoreEntry(host: Host, doc: Fields, next: Fields) returns (agents: Fields)
    ensures agents == AgentsWith(host, doc, next)
  {
    agents := Agents(doc);
    if Modern(doc) {
      var entries := FoldList(host, false, Entries(doc), Legacy(doc));
      entries := Put(entries, TEAMCLAW, Obj(Without(next, {"id"})));
      agents := Without(Put(agents, "entries", Obj(entries)), {"list"});
      if |entries| > 1 && Get(agents, "ownership") != Some(Str("explicit")) {
        agents := Put(agents, "ownership", Str("explicit"));
      }
    } else {
      var list := ReplaceInList(host, Legacy(doc), next);
      agents := Put(agents, "list", AsList(list));
    }
  }

  method SettleExec(host: Host, root: Fields, existing: Fields) returns (exec: Fields)
    ensures exec == NextExec(host, root, existing)
  {
    exec := Spread(root, existing);
    if Given(host, Get(exec, "mode")) {
      exec := Without(exec, {"security"});
      exec := Without(exec, {"ask"});
    } else {
      if !Given(host, Get(exec, "security")) {
        exec := Put(exec, "security", Str(if Given(host, Get(root, "security")) then host.trim(Get(root, "security").value.text) else RECOMMENDED_SECURITY));
      }
      if !Given(host, Get(exec, "ask")) {
        exec := Put(exec, "ask", Str(if Given(host, Get(root, "ask")) then host.trim(Get(root, "ask").value.text) else RECOMMENDED_ASK));
      }
    }
  }

  method CompleteEntry(host: Host, root: Fields, model: Option<Json>, keyed: bool, existing: Fields) returns (next: Fields)
    ensures next == NextEntry(host, root, model, keyed, existing)
  {
    var exec := SettleExec(host, root, EntryExec(existing));
    next := Put(existing, "agentDir", if Given(host, Get(existing, "agentDir")) then Get(existing, "agentDir").value else Str(host.agentDir));
    next := Put(next, "tools", Obj(Put(Rec(Get(existing, "tools")), "exec", Obj(exec))));
    assert next == WithExec(host, root, existing);
    if Given(host, Get(existing, "workspace")) {
      next := Put(next, "workspace", Get(existing, "workspace").value);
    }
    if !keyed {
      next := Put(next, "id", Str(TEAMCLAW));
    }
    if Absent(Get(next, "model")) && !Absent(model) {
      next := Put(next, "model", model.value);
    }
  }

  /** The first entry of the name decides. */
  lemma {:induction false} ReplacedListAt(host: Host, list: seq<Fields>, entry: Fields, index: nat)
    requires index <= |list| && forall i :: 0 <= i < index ==> Name(host, false, list[i]) != TEAMCLAW
    ensures index < |list| && Name(host, false, list[index]) == TEAMCLAW ==> ReplacedList(host, list, entry) == list[index := entry]
    ensures index == |list| ==> ReplacedList(host, list, entry) == list + [entry]
  {
    if index > 0 {
      ReplacedListAt(host, list[1..], entry, index - 1);
      assert list == [list[0]] + list[1..];
    } else if list != [] {
      assert list[0 := entry] == [entry] + list[1..];
    }
  }

  method ReplaceInList(host: Host, list: seq<Fields>, entry: Fields) returns (next: seq<Fields>)
    ensures next == ReplacedList(host, list, entry)
  {
    var index := 0;
    while index < |list| && Name(host, false, list[index]) != TEAMCLAW
      invariant 0 <= index <= |list| && forall i :: 0 <= i < index ==> Name(host, false, list[i]) != TEAMCLAW
    {
      index := index + 1;
    }
    ReplacedListAt(host, list, entry, index);
    next := if index < |list| then list[index := entry] else list + [entry];
  }
}
