/** Moving the workspace of the dedicated agent: `updateTeamClawWorkspaceDir` and the resolver that reads it back. */
module WorkspaceConfig {
  import opened Common
  import opened Json
  import opened AgentConfig
  import Paths

  function ExpandUserPath(host: Host, value: string): string {
    var trimmed := host.trim(value);
    if trimmed == "" then ""
    else if trimmed == "~" then host.home
    else if "~/" <= trimmed then host.join(host.home, trimmed[2..])
    else Paths.Resolve(host.cwd, trimmed)
  }

  predicate Acceptable(host: Host, dir: string) {
    host.trim(dir) == "~" || "~/" <= host.trim(dir) || Paths.IsAbsolute(host.trim(dir))
  }

  function PathFor(host: Host, dir: string): string {
    Paths.Resolve(host.cwd, ExpandUserPath(host, host.trim(dir)))
  }

  predicate MainMode(doc: Fields) {
    var config := Rec(Get(Rec(Get(Rec(Get(Rec(Get(doc, "plugins")), "entries")), TEAMCLAW)), "config"));
    Get(config, "agentIsolationMode") == Some(Str("main"))
  }

  function ConfiguredWorkspace(host: Host, entry: Option<Fields>): string {
    if entry.Some? && Given(host, Get(entry.value, "workspace")) then ExpandUserPath(host, Get(entry.value, "workspace").value.text)
    else host.defaultWorkspace
  }

  /** `resolveTeamClawAgentWorkspaceRootDir`, with the override from the environment. */
  function WorkspaceRoot(host: Host, override: Option<string>, doc: Fields): string {
    if override.Some? && host.trim(override.value) != "" && ExpandUserPath(host, override.value) != "" then ExpandUserPath(host, override.value)
    else if MainMode(doc) then host.mainWorkspace
    else ConfiguredWorkspace(host, ResolveEntry(host, doc, TEAMCLAW))
  }

  /** Where a configured path leads; `path` is it without white space around. */
  lemma ExpandSpelled(host: Host, value: string, path: string)
    requires host.trim(value) == path
    ensures path == "" ==> ExpandUserPath(host, value) == ""
    ensures path == "~" ==> ExpandUserPath(host, value) == host.home
    ensures "~/" <= path ==> ExpandUserPath(host, value) == host.join(host.home, path[2..])
    ensures path != "" && path[0] == '/' ==> ExpandUserPath(host, value) == Paths.Absolute(path)
    ensures path != "" && path != "~" && !("~/" <= path) && path[0] != '/' ==> ExpandUserPath(host, value) == Paths.Absolute(host.cwd + "/" + path)
  {
  }

  /** Main mode is what the plugin's own configuration says, word for word. */
  lemma MainModeSpelled(doc: Fields, plugins: Fields, entries: Fields, own: Fields, config: Fields)
    requires Get(doc, "plugins") == Some(Obj(plugins)) && Get(plugins, "entries") == Some(Obj(entries))
    requires Get(entries, "teamclaw") == Some(Obj(own)) && Get(own, "config") == Some(Obj(config))
    ensures MainMode(doc) <==> Get(config, "agentIsolationMode") == Some(Str("main"))
  {
  }

  /** Which workspace is used: the override, the main one in main mode, the one of the agent's entry, the default. */
  lemma WorkspaceRootSpelled(host: Host, override: string, doc: Fields)
    ensures ExpandUserPath(host, override) != "" ==> WorkspaceRoot(host, Some(override), doc) == ExpandUserPath(host, override)
    ensures host.trim(override) == "" ==> WorkspaceRoot(host, Some(override), doc) == WorkspaceRoot(host, None, doc)
    ensures MainMode(doc) ==> WorkspaceRoot(host, None, doc) == host.mainWorkspace
    ensures !MainMode(doc) ==>
              var agent := ResolveEntry(host, doc, "teamclaw");
              var configured := if agent.Some? then Get(agent.value, "workspace") else None;
              WorkspaceRoot(host, None, doc) ==
                if configured.Some? && configured.value.Str? && host.trim(configured.value.text) != ""
                then ExpandUserPath(host, configured.value.text) else host.defaultWorkspace
  {
    assert ResolveEntry(host, doc, "teamclaw") == ResolveEntry(host, doc, TEAMCLAW);
  }

  // ---- the update

  function Moved(entry: Fields, path: string): Fields {
    Put(entry, "workspace", Str(path))
  }

  function MovedEntries(entries: Fields, path: string): Fields {
    Put(entries, TEAMCLAW, Obj(Moved(Rec(Get(entries, TEAMCLAW)), path)))
  }

  /** The list with the first entry of exactly this id replaced, or a new one at the end. */
  function MovedList(list: seq<Fields>, path: string): seq<Fields> {
    if list == [] then [Moved([Field("id", Str(TEAMCLAW))], path)]
    else if ExactId(list[0]) == TEAMCLAW then [Moved(list[0], path)] + list[1..]
    else [list[0]] + MovedList(list[1..], path)
  }

  function UpdatedAgents(host: Host, doc: Fields, path: string): Fields {
    if Modern(doc) then KeyedAgents(Agents(doc), MovedEntries(Fold(host, true, Entries(doc), Legacy(doc)), path))
    else Put(Agents(doc), "list", AsList(MovedList(Legacy(doc), path)))
  }

  function Updated(host: Host, doc: Fields, path: string): Fields {
    WithAgents(doc, UpdatedAgents(host, doc, path))
  }

  /** `updateTeamClawWorkspaceDir`; `doc` is absent when the host configuration cannot be read or is not a record. */
  method UpdateWorkspaceDir(host: Host, dir: string, doc: Option<Fields>) returns (written: Option<Fields>, path: string)
    ensures written.Some? <==> Acceptable(host, dir) && doc.Some?
    ensures written.Some? ==> path == PathFor(host, dir) && written.value == Updated(host, doc.value, path)
  {
    path := "";
    var trimmed := host.trim(dir);
    if trimmed == "" {
      return None, path;
    }
    if trimmed[0] != '/' && !("~/" <= trimmed) && trimmed != "~" {
      return None, path;
    }
    path := Paths.Resolve(host.cwd, ExpandUserPath(host, trimmed));
    if doc.None? {
      return None, path;
    }
    var agents, legacy := Agents(doc.value), Legacy(doc.value);
    if IsRecord(Get(agents, "entries")) || |legacy| == 0 {
      var entries := FoldList(host, true, Rec(Get(agents, "entries")), legacy);
      entries := Put(entries, TEAMCLAW, Obj(Moved(Rec(Get(entries, TEAMCLAW)), path)));
      agents := Without(Put(agents, "entries", Obj(entries)), {"list"});
      if |entries| > 1 && Get(agents, "ownership") != Some(Str("explicit")) {
        agents := Put(agents, "ownership", Str("explicit"));
      }
    } else {
      var list := MoveInList(legacy, path);
      agents := Put(agents, "list", AsList(list));
    }
    written := Some(Put(doc.value, "agents", Obj(agents)));
  }

  /** The first entry with exactly the id decides. */
  lemma {:induction false} MovedListAt(list: seq<Fields>, path: string, index: nat)
    requires index <= |list| && forall i :: 0 <= i < index ==> ExactId(list[i]) != TEAMCLAW
    ensures index < |list| && ExactId(list[index]) == TEAMCLAW ==> MovedList(list, path) == list[index := Moved(list[index], path)]
    ensures index == |list| ==> MovedList(list, path) == list + [Moved([Field("id", Str(TEAMCLAW))], path)]
  {
    if index > 0 {
      MovedListAt(list[1..], path, index - 1);
      assert list == [list[0]] + list[1..];
    } else if list != [] {
      assert list[0 := Moved(list[0], path)] == [Moved(list[0], path)] + list[1..];
    }
  }

  method MoveInList(list: seq<Fields>, path: string) returns (next: seq<Fields>)
    ensures next == MovedList(list, path)
  {
    var index := 0;
    while index < |list| && ExactId(list[index]) != TEAMCLAW
      invariant 0 <= index <= |list| && forall i :: 0 <= i < index ==> ExactId(list[i]) != TEAMCLAW
    {
      index := index + 1;
    }
    MovedListAt(list, path, index);
    next := if index < |list| then list[index := Moved(list[index], path)] else list + [Moved([Field("id", Str(TEAMCLAW))], path)];
  }

  // ---- what the update means

  lemma UpdatedShape(host: Host, doc: Fields, path: string)
    ensures var out := Updated(host, doc, path);
            if Modern(doc) then
              && Get(Agents(out), "entries") == Some(Obj(MovedEntries(Fold(host, true, Entries(doc), Legacy(doc)), path)))
              && Legacy(out) == []
            else
              && Get(Agents(out), "entries") == Get(Agents(doc), "entries") && !IsRecord(Get(Agents(out), "entries"))
              && Legacy(out) == MovedList(Legacy(doc), path)
  {
    WithAgentsGets(doc, UpdatedAgents(host, doc, path), "");
    if Modern(doc) {
      KeyedAgentsGets(Agents(doc), MovedEntries(Fold(host, true, Entries(doc), Legacy(doc)), path), "");
    } else {
      var list := AsList(MovedList(Legacy(doc), path));
      GetPut(Agents(doc), "list", list, "list");
      GetPut(Agents(doc), "list", list, "entries");
      RecordsOfList(MovedList(Legacy(doc), path));
    }
  }

  lemma MovedKeepsId(entry: Fields, path: string)
    ensures ExactId(Moved(entry, path)) == ExactId(entry)
  {
    GetPut(entry, "workspace", Str(path), "id");
  }

  lemma {:induction false} MovedListFirst(host: Host, list: seq<Fields>, path: string, name: string)
    requires Lawful(host) && name != TEAMCLAW
    ensures First(host, false, MovedList(list, path), name) == First(host, false, list, name)
  {
    MovedKeepsId(if list == [] then [Field("id", Str(TEAMCLAW))] else list[0], path);
    if list != [] {
      if ExactId(list[0]) == TEAMCLAW {
        assert MovedList(list, path)[1..] == list[1..];
      } else {
        MovedListFirst(host, list[1..], path, name);
        assert MovedList(list, path)[1..] == MovedList(list[1..], path);
      }
    }
  }

  function WithoutId(entry: Option<Fields>): Option<Fields> {
    if entry.Some? then Some(Without(entry.value, {"id"})) else None
  }

  /** What a lookup finds after the list was folded. */
  lemma FoldedLookup(host: Host, doc: Fields, path: string, agent: string)
    requires Lawful(host) && host.agentId(agent) != TEAMCLAW && Modern(doc)
    ensures var name := host.agentId(agent);
            ResolveEntry(host, Updated(host, doc, path), agent) ==
              if IsRecord(Get(Entries(doc), name)) then ResolveEntry(host, doc, agent)
              else WithoutId(First(host, true, Legacy(doc), name))
  {
    var name := host.agentId(agent);
    UpdatedShape(host, doc, path);
    var entries := Fold(host, true, Entries(doc), Legacy(doc));
    GetPut(entries, TEAMCLAW, Obj(Moved(Rec(Get(entries, TEAMCLAW)), path)), name);
    FoldGet(host, true, Entries(doc), Legacy(doc), name);
  }

  lemma SameWithoutId(a: Option<Fields>, b: Option<Fields>)
    ensures SameButId(WithoutId(a), b) == SameButId(a, b)
  {
    if a.Some? {
      WithoutTwice(a.value, {"id"}, {"id"});
      assert {"id"} + {"id"} == {"id"};
    }
  }

  /**
    * What another agent's lookup returns is unchanged, the id aside, exactly when the list is kept, or a keyed record
    * decides, or the entry the lookup found in the list is the one the fold files under its exact id.
    */
  lemma UpdateKeepsOthersIff(host: Host, doc: Fields, path: string, agent: string)
    requires Lawful(host) && host.agentId(agent) != TEAMCLAW
    ensures var name := host.agentId(agent);
            SameButId(ResolveEntry(host, Updated(host, doc, path), agent), ResolveEntry(host, doc, agent)) <==>
              || !Modern(doc)
              || IsRecord(Get(Entries(doc), name))
              || SameButId(First(host, true, Legacy(doc), name), First(host, false, Legacy(doc), name))
  {
    var name := host.agentId(agent);
    if Modern(doc) {
      FoldedLookup(host, doc, path, agent);
      SameWithoutId(First(host, true, Legacy(doc), name), First(host, false, Legacy(doc), name));
    } else {
      UpdatedShape(host, doc, path);
      MovedListFirst(host, Legacy(doc), path, name);
    }
  }

  predicate Canonical(host: Host, list: seq<Fields>) {
    forall i :: 0 <= i < |list| ==> ExactId(list[i]) != "" && host.agentId(ExactId(list[i])) == ExactId(list[i])
  }

  lemma {:induction false} CanonicalFirst(host: Host, list: seq<Fields>, name: string)
    requires Canonical(host, list)
    ensures First(host, true, list, name) == First(host, false, list, name)
  {
    if list != [] {
      CanonicalFirst(host, list[1..], name);
    }
  }

  /** With canonical ids in the list no other agent's configuration changes its meaning. */
  lemma UpdateKeepsOthers(host: Host, doc: Fields, path: string, agent: string)
    requires Lawful(host) && Canonical(host, Legacy(doc)) && host.agentId(agent) != TEAMCLAW
    ensures SameButId(ResolveEntry(host, Updated(host, doc, path), agent), ResolveEntry(host, doc, agent))
  {
    CanonicalFirst(host, Legacy(doc), host.agentId(agent));
    UpdateKeepsOthersIff(host, doc, path, agent);
  }

  /** An id that is only found after normalizing is out of reach once it is folded under its own spelling. */
  lemma CapitalIdIsLost(host: Host, path: string) returns (doc: Fields)
    requires Lawful(host) && host.agentId("Main") == "main" && host.agentId("main") == "main"
    ensures ResolveEntry(host, doc, "main").Some? && ResolveEntry(host, Updated(host, doc, path), "main").None?
  {
    var entry := [Field("id", Str("Main"))];
    var agents := [Field("entries", Obj([])), Field("list", AsList([entry]))];
    doc := [Field("agents", Obj(agents))];
    assert agents[1..] == [Field("list", AsList([entry]))];
    RecordsOfList([entry]);
    assert Get(doc, "agents") == Some(Obj(agents)) && Get(agents, "list") == Some(AsList([entry]));
    assert ExactId(entry) == "Main" && [entry][1..] == [];
    assert First(host, false, [entry], "main") == Some(entry);
    assert First(host, true, [entry], "main") == First(host, true, [], "main");
    FoldedLookup(host, doc, path, "main");
  }

  // ---- the path that is read back

  lemma {:induction false} MovedListResolves(host: Host, list: seq<Fields>, path: string)
    requires Lawful(host)
    ensures var before, after := First(host, false, list, TEAMCLAW), First(host, false, MovedList(list, path), TEAMCLAW);
            if before.None? || ExactId(before.value) == TEAMCLAW then after.Some? && Get(after.value, "workspace") == Some(Str(path))
            else after == before
  {
    var head := if list == [] then [Field("id", Str(TEAMCLAW))] else list[0];
    MovedKeepsId(head, path);
    GetPut(head, "workspace", Str(path), "workspace");
    if list != [] && ExactId(list[0]) != TEAMCLAW {
      MovedListResolves(host, list[1..], path);
      assert MovedList(list, path)[1..] == MovedList(list[1..], path);
    }
  }

  /** The entry the workspace is written to is the one that is looked up. */
  predicate WritesWhereItReads(host: Host, doc: Fields) {
    Modern(doc) ||
    var entry := First(host, false, Legacy(doc), TEAMCLAW);
    entry.None? || ExactId(entry.value) == TEAMCLAW
  }

  lemma UpdatedEntry(host: Host, doc: Fields, path: string)
    requires Lawful(host)
    ensures var before, after := ResolveEntry(host, doc, TEAMCLAW), ResolveEntry(host, Updated(host, doc, path), TEAMCLAW);
            if WritesWhereItReads(host, doc) then after.Some? && Get(after.value, "workspace") == Some(Str(path)) else after == before
  {
    UpdatedShape(host, doc, path);
    if Modern(doc) {
      var entries := Fold(host, true, Entries(doc), Legacy(doc));
      var entry := Rec(Get(entries, TEAMCLAW));
      GetPut(entries, TEAMCLAW, Obj(Moved(entry, path)), TEAMCLAW);
      GetPut(entry, "workspace", Str(path), "workspace");
    } else {
      MovedListResolves(host, Legacy(doc), path);
    }
  }

  lemma ModeKept(host: Host, doc: Fields, path: string)
    ensures MainMode(Updated(host, doc, path)) == MainMode(doc)
  {
    WithAgentsGets(doc, UpdatedAgents(host, doc, path), "plugins");
  }

  /** The written path reads back as itself exactly if it does not end in white space. */
  lemma ReadsBackIff(host: Host, dir: string)
    requires Lawful(host)
    ensures ExpandUserPath(host, PathFor(host, dir)) == PathFor(host, dir) <==> host.trim(PathFor(host, dir)) == PathFor(host, dir)
  {
    var expanded := ExpandUserPath(host, host.trim(dir));
    var path := PathFor(host, dir);
    Paths.AbsoluteIdempotent(if Paths.IsAbsolute(expanded) then expanded else host.cwd + "/" + expanded);
    assert Paths.Absolute(path) == path;
    Paths.AbsoluteIsNoLonger(host.trim(path));
  }

  lemma ConfiguredPath(host: Host, entry: Fields, path: string)
    requires Lawful(host) && Paths.IsAbsolute(path) && Get(entry, "workspace") == Some(Str(path))
    ensures ConfiguredWorkspace(host, Some(entry)) == ExpandUserPath(host, path)
  {
    assert Paths.IsAbsolute(host.trim(path));
  }

  /**
    * Without an override, in independent mode, the resolver returns the written path exactly if that has no white space
    * at its end, unless a differently spelled id hides the written entry: then it returns what it returned before.
    */
  lemma UpdateIsReadBack(host: Host, doc: Fields, dir: string)
    requires Lawful(host) && !MainMode(doc)
    ensures var path := PathFor(host, dir);
            var after := WorkspaceRoot(host, None, Updated(host, doc, path));
            if WritesWhereItReads(host, doc) then after == path <==> host.trim(path) == path
            else after == WorkspaceRoot(host, None, doc)
  {
    var path := PathFor(host, dir);
    ModeKept(host, doc, path);
    UpdatedEntry(host, doc, path);
    if WritesWhereItReads(host, doc) {
      ConfiguredPath(host, ResolveEntry(host, Updated(host, doc, path), TEAMCLAW).value, path);
      ReadsBackIff(host, dir);
    }
  }

  /** `/name /` and `/name `. */
  function SpacedDir(name: string): string {
    "/" + name + " /"
  }

  function SpacedPath(name: string): string {
    "/" + name + " "
  }

  lemma SpacedDirResolves(name: string)
    requires '/' !in name
    ensures Paths.Absolute(SpacedDir(name)) == SpacedPath(name)
  {
    var spaced := name + " ";
    assert SpacedDir(name) == "" + "/" + (spaced + "/" + "");
    Paths.SplitFirst("", spaced + "/" + "");
    Paths.SplitFirst(spaced, "");
    Paths.SplitWhole("");
    var segments := Paths.Split(SpacedDir(name));
    assert segments == ["", spaced, ""];
    assert segments[1..] == [spaced, ""] && [spaced, ""][1..] == [""] && [""][1..] == [];
    assert |spaced| > 0 && spaced[|spaced| - 1] == ' ';
    assert [] + [spaced] == [spaced];
    assert Paths.Settle(segments, []) == Paths.Settle([spaced, ""], []) == Paths.Settle([""], [spaced]) == Paths.Settle([], [spaced]) == [spaced];
    assert Paths.Join([spaced]) == spaced;
  }

  /** Any directory name that ends in a space is such a path: the separator after it hides the space from the first trim. */
  lemma TrailingSpaceIsLost(host: Host, name: string)
    requires Lawful(host) && '/' !in name
    requires host.trim(SpacedDir(name)) == SpacedDir(name) && host.trim(SpacedPath(name)) != SpacedPath(name)
    ensures PathFor(host, SpacedDir(name)) == SpacedPath(name) && ExpandUserPath(host, SpacedPath(name)) != SpacedPath(name)
  {
    var dir := SpacedDir(name);
    assert dir[0] == '/' && host.trim(host.trim(dir)) == dir;
    assert ExpandUserPath(host, dir) == Paths.Absolute(dir);
    Paths.AbsoluteIdempotent(dir);
    SpacedDirResolves(name);
    ReadsBackIff(host, dir);
  }

  // ---- what else is written

  lemma {:induction false} MovedListKeeps(host: Host, list: seq<Fields>, path: string, key: string)
    requires Lawful(host) && key != "workspace"
    ensures var before, after := First(host, false, list, TEAMCLAW), First(host, false, MovedList(list, path), TEAMCLAW);
            before.Some? ==> after.Some? && Get(after.value, key) == Get(before.value, key)
  {
    if list != [] {
      MovedKeepsId(list[0], path);
      GetPut(list[0], "workspace", Str(path), key);
      if ExactId(list[0]) != TEAMCLAW {
        MovedListKeeps(host, list[1..], path, key);
        assert MovedList(list, path)[1..] == MovedList(list[1..], path);
      }
    }
  }

  /**
    * All other fields of the dedicated agent, its id aside, are those it had; only when the list is folded they are those of
    * the entry that spells the id exactly.
    */
  lemma UpdateKeepsFields(host: Host, doc: Fields, path: string, key: string)
    requires Lawful(host) && key != "workspace" && key != "id"
    ensures var before := if Modern(doc) && !IsRecord(Get(Entries(doc), "teamclaw")) then First(host, true, Legacy(doc), "teamclaw")
                          else ResolveEntry(host, doc, "teamclaw");
            var after := ResolveEntry(host, Updated(host, doc, path), "teamclaw");
            after.Some? && Get(after.value, key) == (if before.Some? then Get(before.value, key) else None)
  {
    UpdatedShape(host, doc, path);
    UpdatedEntryExists(host, doc, path);
    if Modern(doc) {
      var entries := Fold(host, true, Entries(doc), Legacy(doc));
      var entry := Rec(Get(entries, TEAMCLAW));
      GetPut(entries, TEAMCLAW, Obj(Moved(entry, path)), TEAMCLAW);
      GetPut(entry, "workspace", Str(path), key);
      FoldGet(host, true, Entries(doc), Legacy(doc), TEAMCLAW);
      if First(host, true, Legacy(doc), TEAMCLAW).Some? {
        GetWithout(First(host, true, Legacy(doc), TEAMCLAW).value, {"id"}, key);
      }
    } else if First(host, false, Legacy(doc), TEAMCLAW).Some? {
      MovedListKeeps(host, Legacy(doc), path, key);
    } else {
      NewEntryHasOnly(host, Legacy(doc), path, key);
    }
  }

  lemma UpdatedEntryExists(host: Host, doc: Fields, path: string)
    requires Lawful(host)
    ensures ResolveEntry(host, Updated(host, doc, path), "teamclaw").Some?
  {
    UpdatedEntry(host, doc, path);
  }

  lemma {:induction false} NewEntryHasOnly(host: Host, list: seq<Fields>, path: string, key: string)
    requires Lawful(host) && First(host, false, list, TEAMCLAW).None? && key != "workspace" && key != "id"
    ensures var after := First(host, false, MovedList(list, path), TEAMCLAW); after.Some? && Get(after.value, key) == None
  {
    if list == [] {
      var added := [Field("id", Str(TEAMCLAW))];
      MovedKeepsId(added, path);
      GetPut(added, "workspace", Str(path), key);
      assert added[1..] == [];
    } else {
      NewEntryHasOnly(host, list[1..], path, key);
      assert MovedList(list, path)[1..] == MovedList(list[1..], path);
    }
  }

  /** The rest of the document, and of the agents record, stays; several keyed agents are explicitly owned. */
  lemma UpdateKeepsRest(host: Host, doc: Fields, path: string, key: string)
    ensures key != "agents" ==> Get(Updated(host, doc, path), key) == Get(doc, key)
    ensures key !in {"entries", "list", "ownership"} ==>
              Get(Rec(Get(Updated(host, doc, path), "agents")), key) == Get(Rec(Get(doc, "agents")), key)
    ensures var agents := Rec(Get(Updated(host, doc, path), "agents"));
            Modern(doc) && |Rec(Get(agents, "entries"))| > 1 ==> Get(agents, "ownership") == Some(Str("explicit"))
  {
    WithAgentsGets(doc, UpdatedAgents(host, doc, path), key);
    if Modern(doc) {
      KeyedAgentsGets(Agents(doc), MovedEntries(Fold(host, true, Entries(doc), Legacy(doc)), path), key);
    } else {
      GetPut(Agents(doc), "list", AsList(MovedList(Legacy(doc), path)), key);
    }
  }

  // ---- a second update

  lemma {:induction false} MovedListTwice(list: seq<Fields>, path: string)
    ensures MovedList(list, path) != [] && MovedList(MovedList(list, path), path) == MovedList(list, path)
  {
    var head := if list == [] then [Field("id", Str(TEAMCLAW))] else list[0];
    MovedKeepsId(head, path);
    PutTwice(head, "workspace", Str(path));
    if list != [] && ExactId(list[0]) != TEAMCLAW {
      MovedListTwice(list[1..], path);
      assert MovedList(list, path)[1..] == MovedList(list[1..], path);
    }
  }

  lemma MovedEntriesTwice(entries: Fields, path: string)
    ensures MovedEntries(MovedEntries(entries, path), path) == MovedEntries(entries, path)
  {
    var entry := Rec(Get(entries, TEAMCLAW));
    GetPut(entries, TEAMCLAW, Obj(Moved(entry, path)), TEAMCLAW);
    PutTwice(entry, "workspace", Str(path));
    PutTwice(entries, TEAMCLAW, Obj(Moved(entry, path)));
  }

  /** Moving to the same path again writes the same document. */
  lemma UpdateTwice(host: Host, doc: Fields, path: string)
    ensures Updated(host, Updated(host, doc, path), path) == Updated(host, doc, path)
  {
    var agents := UpdatedAgents(host, doc, path);
    var out := Updated(host, doc, path);
    UpdatedShape(host, doc, path);
    WithAgentsGets(doc, agents, "");
    PutTwice(doc, "agents", Obj(agents));
    if Modern(doc) {
      var entries := Fold(host, true, Entries(doc), Legacy(doc));
      MovedEntriesTwice(entries, path);
      KeyedAgentsTwice(Agents(doc), MovedEntries(entries, path));
    } else {
      MovedListTwice(Legacy(doc), path);
      PutTwice(Agents(doc), "list", AsList(MovedList(Legacy(doc), path)));
    }
  }
}
