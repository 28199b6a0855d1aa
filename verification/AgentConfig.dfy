/** The agent roster of the host configuration: reading it, moving the workspace, and the bootstrap of the dedicated agent. */
module AgentConfig {
  import opened Common
  import opened Json
  import Paths

  const TEAMCLAW := "teamclaw"
  const RECOMMENDED_SECURITY := "full"
  const RECOMMENDED_ASK := "off"

  /** String functions, the user's directories, and where the dedicated agent and its workspace go by default. */
  datatype Host = Host(
    trim: string -> string,
    agentId: string -> string,
    join: (string, string) -> string,
    home: string,
    cwd: string,
    agentDir: string,
    defaultWorkspace: string,
    mainWorkspace: string)

  /** What the configuration logic needs of trimming and of normalizing agent ids. */
  ghost predicate Lawful(host: Host) {
    && (forall s :: host.trim(host.trim(s)) == host.trim(s))
    && (forall s :: |host.trim(s)| <= |s|)
    && (forall s :: |host.trim(s)| == |s| ==> host.trim(s) == s)
    && (forall s :: Paths.IsAbsolute(s) ==> Paths.IsAbsolute(host.trim(s)))
    && host.trim(RECOMMENDED_SECURITY) != "" && host.trim(RECOMMENDED_ASK) != "" && host.trim(host.agentDir) != ""
    && (forall s :: host.agentId(s) != "")
    && host.agentId(TEAMCLAW) == TEAMCLAW
  }

  /** A string that is not blank. */
  predicate Given(host: Host, j: Option<Json>) {
    j.Some? && j.value.Str? && host.trim(j.value.text) != ""
  }

  // ---- the roster

  function Agents(doc: Fields): Fields {
    Rec(Get(doc, "agents"))
  }

  function Entries(doc: Fields): Fields {
    Rec(Get(Agents(doc), "entries"))
  }

  function Legacy(doc: Fields): seq<Fields> {
    Records(Get(Agents(doc), "list"))
  }

  /** The keyed shape is in use, or nothing speaks for the list. */
  predicate Modern(doc: Fields) {
    IsRecord(Get(Agents(doc), "entries")) || Legacy(doc) == []
  }

  function Records(j: Option<Json>): seq<Fields> {
    if j.Some? && j.value.List? then OnlyRecords(j.value.items) else []
  }

  function OnlyRecords(items: seq<Json>): seq<Fields> {
    if items == [] then []
    else if items[0].Obj? then [items[0].fields] + OnlyRecords(items[1..])
    else OnlyRecords(items[1..])
  }

  function AsList(list: seq<Fields>): Json {
    List(seq(|list|, i requires 0 <= i < |list| => Obj(list[i])))
  }

  lemma {:induction false} RecordsOfList(list: seq<Fields>)
    ensures Records(Some(AsList(list))) == list
  {
    if list != [] {
      RecordsOfList(list[1..]);
      assert AsList(list).items[1..] == AsList(list[1..]).items;
    }
  }

  function ExactId(entry: Fields): string {
    match Get(entry, "id")
    case Some(Str(s)) => s
    case _ => ""
  }

  /** What an entry of the list is called: its id as it stands, or normalized as every lookup does. */
  function Name(host: Host, exact: bool, entry: Fields): string {
    if exact then ExactId(entry) else host.agentId(ExactId(entry))
  }

  function First(host: Host, exact: bool, list: seq<Fields>, name: string): Option<Fields> {
    if list == [] then None
    else if Name(host, exact, list[0]) == name then Some(list[0])
    else First(host, exact, list[1..], name)
  }

  /** `resolveConfiguredAgentEntry`: the keyed entry, else the first one in the list. */
  function ResolveEntry(host: Host, doc: Fields, agent: string): Option<Fields> {
    var keyed := Get(Entries(doc), host.agentId(agent));
    if IsRecord(keyed) then Some(keyed.value.fields) else First(host, false, Legacy(doc), host.agentId(agent))
  }

  /** An element of the list that is looked up under this normalized id; one without an id as the empty string. */
  predicate Answers(host: Host, item: Json, key: string) {
    && item.Obj?
    && var id := Get(item.fields, "id");
       host.agentId(if id.Some? && id.value.Str? then id.value.text else "") == key
  }

  lemma {:induction false} FirstSpelled(host: Host, items: seq<Json>, key: string, n: nat)
    requires n <= |items| && forall i :: 0 <= i < n ==> !Answers(host, items[i], key)
    ensures n == |items| ==> First(host, false, OnlyRecords(items), key) == None
    ensures n < |items| && Answers(host, items[n], key) ==> First(host, false, OnlyRecords(items), key) == Some(items[n].fields)
  {
    if items != [] {
      assert ExactId(if items[0].Obj? then items[0].fields else []) != "" ==> items[0].Obj?;
      if n > 0 {
        assert !Answers(host, items[0], key);
        FirstSpelled(host, items[1..], key, n - 1);
      }
      assert items[0].Obj? ==> ([items[0].fields] + OnlyRecords(items[1..]))[1..] == OnlyRecords(items[1..]);
    }
  }

  /** A lookup takes `agents.entries.<id>` if that is a record, else the first of `agents.list` that answers to the id. */
  lemma ResolveSpelled(host: Host, doc: Fields, agents: Fields, agent: string, items: seq<Json>, n: nat)
    requires Get(doc, "agents") == Some(Obj(agents))
    requires Get(agents, "list") == Some(List(items)) || (items == [] && Get(agents, "list") == None)
    requires n <= |items| && forall i :: 0 <= i < n ==> !Answers(host, items[i], host.agentId(agent))
    ensures var keyed := match Get(agents, "entries") case Some(Obj(entries)) => Get(entries, host.agentId(agent)) case _ => None;
            && (keyed.Some? && keyed.value.Obj? ==> ResolveEntry(host, doc, agent) == Some(keyed.value.fields))
            && (!(keyed.Some? && keyed.value.Obj?) && n == |items| ==> ResolveEntry(host, doc, agent) == None)
            && (!(keyed.Some? && keyed.value.Obj?) && n < |items| && Answers(host, items[n], host.agentId(agent)) ==>
                  ResolveEntry(host, doc, agent) == Some(items[n].fields))
  {
    FirstSpelled(host, items, host.agentId(agent), n);
  }

  /** The entries say the same apart from the id, which the keyed shape does not have. */
  predicate SameButId(a: Option<Fields>, b: Option<Fields>) {
    (a.Some? <==> b.Some?) && (a.Some? ==> Without(a.value, {"id"}) == Without(b.value, {"id"}))
  }

  // ---- folding the list into the keyed entries

  function FoldOne(host: Host, exact: bool, entries: Fields, entry: Fields): Fields {
    var name := Name(host, exact, entry);
    if name == "" || IsRecord(Get(entries, name)) then entries else Put(entries, name, Obj(Without(entry, {"id"})))
  }

  function Fold(host: Host, exact: bool, entries: Fields, list: seq<Fields>): Fields
    decreases |list|
  {
    if list == [] then entries else Fold(host, exact, FoldOne(host, exact, entries, list[0]), list[1..])
  }

  /** A keyed record wins over the list, and in the list the first entry of a name wins. */
  lemma {:induction false} FoldGet(host: Host, exact: bool, entries: Fields, list: seq<Fields>, name: string)
    requires name != ""
    ensures Get(Fold(host, exact, entries, list), name) ==
            if IsRecord(Get(entries, name)) || First(host, exact, list, name).None? then Get(entries, name)
            else Some(Obj(Without(First(host, exact, list, name).value, {"id"})))
    decreases |list|
  {
    if list != [] {
      var next := FoldOne(host, exact, entries, list[0]);
      GetPut(entries, Name(host, exact, list[0]), Obj(Without(list[0], {"id"})), name);
      FoldGet(host, exact, next, list[1..], name);
    }
  }

  method FoldList(host: Host, exact: bool, entries: Fields, list: seq<Fields>) returns (folded: Fields)
    ensures folded == Fold(host, exact, entries, list)
  {
    folded := entries;
    for n := 0 to |list|
      invariant Fold(host, exact, folded, list[n..]) == Fold(host, exact, entries, list)
    {
      assert list[n..][0] == list[n] && list[n..][1..] == list[n + 1..];
      var name := Name(host, exact, list[n]);
      if name == "" || IsRecord(Get(folded, name)) {
        continue;
      }
      folded := Put(folded, name, Obj(Without(list[n], {"id"})));
    }
  }

  /** The agents record with these entries in the keyed shape. */
  function KeyedAgents(agents: Fields, entries: Fields): Fields {
    var moved := Without(Put(agents, "entries", Obj(entries)), {"list"});
    if |entries| > 1 && Get(moved, "ownership") != Some(Str("explicit")) then Put(moved, "ownership", Str("explicit")) else moved
  }

  lemma KeyedAgentsGets(agents: Fields, entries: Fields, key: string)
    ensures Get(KeyedAgents(agents, entries), "entries") == Some(Obj(entries)) && Get(KeyedAgents(agents, entries), "list") == None
    ensures |entries| > 1 ==> Get(KeyedAgents(agents, entries), "ownership") == Some(Str("explicit"))
    ensures key !in {"entries", "list", "ownership"} ==> Get(KeyedAgents(agents, entries), key) == Get(agents, key)
  {
    var put := Put(agents, "entries", Obj(entries));
    var moved := Without(put, {"list"});
    forall k ensures Get(moved, k) == (if k == "list" then None else if k == "entries" then Some(Obj(entries)) else Get(agents, k)) {
      GetWithout(put, {"list"}, k);
      GetPut(agents, "entries", Obj(entries), k);
    }
    GetPut(moved, "ownership", Str("explicit"), "entries");
    GetPut(moved, "ownership", Str("explicit"), "list");
    GetPut(moved, "ownership", Str("explicit"), "ownership");
    GetPut(moved, "ownership", Str("explicit"), key);
  }

  /** Writing the keyed shape again changes nothing. */
  lemma KeyedAgentsTwice(agents: Fields, entries: Fields)
    ensures KeyedAgents(KeyedAgents(agents, entries), entries) == KeyedAgents(agents, entries)
  {
    var once := KeyedAgents(agents, entries);
    KeyedAgentsGets(agents, entries, "");
    PutSame(once, "entries");
    WithoutAbsent(once, {"list"});
  }

  function WithAgents(doc: Fields, agents: Fields): Fields {
    Put(doc, "agents", Obj(agents))
  }

  lemma WithAgentsGets(doc: Fields, agents: Fields, key: string)
    ensures Agents(WithAgents(doc, agents)) == agents
    ensures key != "agents" ==> Get(WithAgents(doc, agents), key) == Get(doc, key)
  {
    GetPut(doc, "agents", Obj(agents), "agents");
    GetPut(doc, "agents", Obj(agents), key);
  }
}
