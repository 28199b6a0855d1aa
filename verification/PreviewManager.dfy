/** Preview records and processes of completed tasks, reconciled with what the task declares. */
module PreviewManager {
  import opened Common
  import opened Text

  const GENERIC_SERVE_COMMAND := "npx -y serve -l {PORT}"

  datatype Status = Launching | Healthy | Failed | Stopped

  datatype Deliverable = Deliverable(
    previewable: bool,
    isDirectory: bool,
    value: string,
    command: Option<string>,
    cwd: Option<string>,
    readyPath: Option<string>,
    liveUrl: Option<string>)

  /** `deliverables` is absent while the task has no result contract. */
  datatype Task = Task(completed: bool, deliverables: Option<seq<Deliverable>>)

  /** What a deliverable asks for. */
  datatype Spec = Spec(taskId: string, index: nat, value: string, command: string, cwd: string, readyPath: string, liveUrl: string)

  /** The task and deliverable a preview id is built from; `PreviewIdInjective` is what lets it stand for the id. */
  datatype Key = Key(taskId: string, index: nat)

  datatype Preview = Preview(spec: Spec, status: Status)

  /** String and path functions, the URL of a preview, the command guess from the files in a directory, and whether it can be entered. */
  datatype Host = Host(
    trim: string -> string,
    dirname: string -> string,
    liveUrl: Key -> string,
    smartCommand: (string, string) -> string,
    usable: string -> bool)

  function Given(host: Host, text: Option<string>): Option<string> {
    if text.Some? && host.trim(text.value) != "" then Some(host.trim(text.value)) else None
  }

  /** Explicit directory, else the value or the directory it is in; absent when there is nothing to go by. */
  function PreviewCwd(host: Host, d: Deliverable): Option<string> {
    if Given(host, d.cwd).Some? then Given(host, d.cwd)
    else
      match Given(host, Some(d.value))
      case None => None
      case Some(value) => Some(if d.isDirectory then value else host.dirname(value))
  }

  function ReadyPath(host: Host, path: Option<string>): (r: string)
    ensures r != "" && r[0] == '/'
  {
    match Given(host, path)
    case None => "/"
    case Some(p) => if p[0] == '/' then p else "/" + p
  }

  function PreviewId(key: Key): string {
    "preview-" + key.taskId + "-" + Decimal(key.index)
  }

  /** Ids of different tasks or deliverables never collide: the index is what follows the last hyphen. */
  lemma PreviewIdInjective(a: Key, b: Key)
    requires PreviewId(a) == PreviewId(b)
    ensures a == b
  {
    var p, q := "preview-" + a.taskId, "preview-" + b.taskId;
    var x := PreviewId(a);
    LastHyphen(p, a.index);
    LastHyphen(q, b.index);
    assert x == p + "-" + Decimal(a.index) && x == q + "-" + Decimal(b.index);
    assert x[|p|] == '-' && x[|q|] == '-';
    assert !(|p| < |q|) && !(|q| < |p|);
    assert x[|p| + 1..] == Decimal(a.index) && x[|q| + 1..] == Decimal(b.index);
    DecimalInjective(a.index, b.index);
    assert a.taskId == x[8..|p|] && b.taskId == x[8..|q|];
  }

  lemma LastHyphen(p: string, n: nat)
    ensures var x := p + "-" + Decimal(n);
            forall k :: |p| < k < |x| ==> x[k] != '-'
  {
    var x := p + "-" + Decimal(n);
    forall k | |p| < k < |x| ensures x[k] != '-' {
      assert x[k] == Decimal(n)[k - |p| - 1] && x[k] in Decimal(n);
    }
  }

  function SpecOf(host: Host, taskId: string, index: nat, d: Deliverable, cwd: string): Spec {
    var command := if Given(host, d.command).Some? then Given(host, d.command).value else GENERIC_SERVE_COMMAND;
    Spec(taskId, index, d.value, host.smartCommand(cwd, command), cwd, ReadyPath(host, d.readyPath),
         host.liveUrl(Key(taskId, index)))
  }

  /** The preview a deliverable declares, if any. */
  function Declared(host: Host, taskId: string, index: nat, d: Deliverable): Option<Spec> {
    if d.previewable && PreviewCwd(host, d).Some? then Some(SpecOf(host, taskId, index, d, PreviewCwd(host, d).value)) else None
  }

  /** What is declared says which task and deliverable declare it. */
  lemma DeclaredKeeps(host: Host, taskId: string, index: nat, d: Deliverable)
    requires Declared(host, taskId, index, d).Some?
    ensures var spec := Declared(host, taskId, index, d).value;
            spec.taskId == taskId && spec.index == index && spec.liveUrl == host.liveUrl(Key(taskId, index))
  {
  }

  /**
    * What a deliverable is served from and how: a directory of its own, else the directory it is or the one it is in; its
    * command, else a static server; its ready path, from the root. Text that is only white space counts as not given.
    */
  lemma DeclaredSpelled(host: Host, taskId: string, index: nat, d: Deliverable)
    ensures var declared, value := Declared(host, taskId, index, d), host.trim(d.value);
            var own := if d.cwd.Some? then host.trim(d.cwd.value) else "";
            && (declared.Some? <==> d.previewable && (own != "" || value != ""))
            && (declared.Some? ==>
                 var spec := declared.value;
                 var command := if d.command.Some? then host.trim(d.command.value) else "";
                 var path := if d.readyPath.Some? then host.trim(d.readyPath.value) else "";
                 && spec.value == d.value
                 && (own != "" ==> spec.cwd == own)
                 && (own == "" && d.isDirectory ==> spec.cwd == value)
                 && (own == "" && !d.isDirectory ==> spec.cwd == host.dirname(value))
                 && (command != "" ==> spec.command == host.smartCommand(spec.cwd, command))
                 && (command == "" ==> spec.command == host.smartCommand(spec.cwd, "npx -y serve -l {PORT}"))
                 && (path == "" ==> spec.readyPath == "/")
                 && (path != "" && path[0] == '/' ==> spec.readyPath == path)
                 && (path != "" && path[0] != '/' ==> spec.readyPath == "/" + path))
  {
    assert Given(host, Some(d.value)).Some? <==> host.trim(d.value) != "";
  }

  predicate DeclaredIn(host: Host, taskId: string, deliverables: seq<Deliverable>, spec: Spec) {
    spec.index < |deliverables| && Declared(host, taskId, spec.index, deliverables[spec.index]) == Some(spec)
  }

  predicate InOrder(specs: seq<Spec>) {
    forall i, j :: 0 <= i < j < |specs| ==> specs[i].index < specs[j].index
  }

  /** Deliverables that only differ in their live URL declare the same previews. */
  predicate SameDeclarations(a: seq<Deliverable>, b: seq<Deliverable>) {
    |a| == |b| && forall i :: 0 <= i < |a| ==> a[i].(liveUrl := None) == b[i].(liveUrl := None)
  }

  predicate SameTasks(a: map<string, Task>, b: map<string, Task>) {
    && a.Keys == b.Keys
    && forall t :: t in a ==>
         && a[t].completed == b[t].completed
         && (a[t].deliverables.Some? <==> b[t].deliverables.Some?)
         && (a[t].deliverables.Some? ==> SameDeclarations(a[t].deliverables.value, b[t].deliverables.value))
  }

  /** The previews a task declares, by id; none unless it is completed with a result. */
  ghost predicate Declares(host: Host, tasks: map<string, Task>, taskId: string, id: Key, spec: Spec) {
    && Completed(tasks, taskId)
    && spec.taskId == taskId && id == KeyOf(spec)
    && DeclaredIn(host, taskId, tasks[taskId].deliverables.value, spec)
  }

  predicate Completed(tasks: map<string, Task>, taskId: string) {
    taskId in tasks && tasks[taskId].completed && tasks[taskId].deliverables.Some?
  }

  lemma SameTasksDeclareTheSame(host: Host, a: map<string, Task>, b: map<string, Task>)
    requires SameTasks(a, b)
    ensures forall taskId, id, spec :: Declares(host, a, taskId, id, spec) <==> Declares(host, b, taskId, id, spec)
  {
    forall taskId, id, spec ensures Declares(host, a, taskId, id, spec) <==> Declares(host, b, taskId, id, spec) {
      if taskId in a && a[taskId].deliverables.Some? && spec.index < |a[taskId].deliverables.value| {
        assert a[taskId].deliverables.value[spec.index].(liveUrl := None) == b[taskId].deliverables.value[spec.index].(liveUrl := None);
      }
    }
  }

  function KeyOf(spec: Spec): Key {
    Key(spec.taskId, spec.index)
  }

  /** Every record is filed under the id, and carries the live URL, of its task and deliverable. */
  predicate WellKeyed(host: Host, previews: map<Key, Preview>) {
    forall id :: id in previews ==>
      id == KeyOf(previews[id].spec) && previews[id].spec.liveUrl == host.liveUrl(id)
  }

  predicate SameConfiguration(a: Spec, b: Spec) {
    a.command == b.command && a.cwd == b.cwd && a.readyPath == b.readyPath && a.value == b.value
  }

  lemma SameConfigurationSameSpec(host: Host, previews: map<Key, Preview>, spec: Spec)
    requires WellKeyed(host, previews) && spec.liveUrl == host.liveUrl(KeyOf(spec))
    requires KeyOf(spec) in previews
    ensures SameConfiguration(previews[KeyOf(spec)].spec, spec) <==> previews[KeyOf(spec)].spec == spec
  {
    var other := previews[KeyOf(spec)].spec;
  }

  predicate Runs(status: Status) {
    status.Healthy? || status.Launching?
  }

  class Manager {
    const host: Host
    var tasks: map<string, Task>
    var previews: map<Key, Preview>
    /** running child processes by preview id, and the ones this manager stopped */
    var processes: map<Key, nat>
    var stopped: seq<nat>
    var spawned: nat

    constructor (host: Host, tasks: map<string, Task>)
      ensures this.host == host && this.tasks == tasks && previews == map[] && processes == map[]
    {
      this.host, this.tasks := host, tasks;
      previews, processes, stopped, spawned := map[], map[], [], 0;
    }

    /** The records of a task are exactly its declared previews, each one running, or failed because its directory could not be entered. */
    ghost predicate Reconciled(taskId: string)
      reads this
    {
      && (forall id :: id in previews && previews[id].spec.taskId == taskId ==> Declares(host, tasks, taskId, id, previews[id].spec))
      && (forall id, spec :: Declares(host, tasks, taskId, id, spec) ==> Served(id, spec))
    }

    /** The record shows the declared configuration, with a child in a launched state, or failed without one. */
    predicate Served(id: Key, spec: Spec)
      reads this
    {
      && id in previews && previews[id].spec == spec
      && ((Runs(previews[id].status) && id in processes) || (previews[id].status.Failed? && !host.usable(spec.cwd) && id !in processes))
    }

    /** `stopPreviewProcess`: stops the child, if any; then drops the record with its live URL, or marks it. */
    method StopPreviewProcess(id: Key, remove: bool)
      modifies `tasks, `previews, `processes, `stopped
      ensures processes == old(processes) - {id}
      ensures stopped == if id in old(processes) then old(stopped) + [old(processes)[id]] else old(stopped)
      ensures remove ==> previews == old(previews) - {id}
      ensures !remove ==> previews == if id in old(previews) then old(previews)[id := old(previews)[id].(status := Stopped)] else old(previews)
      ensures tasks == if remove && id in old(previews) then Cleared(old(tasks), old(previews)[id].spec) else old(tasks)
    {
      if id in processes {
        stopped, processes := stopped + [processes[id]], processes - {id};
      }
      if id !in previews {
        return;
      }
      var preview := previews[id];
      if remove {
        tasks := Cleared(tasks, preview.spec);
        previews := previews - {id};
      } else {
        previews := previews[id := preview.(status := Stopped)];
      }
    }

    /** `ensurePreview` for one declared preview. */
    method EnsurePreview(id: Key, spec: Spec)
      requires WellKeyed(host, previews)
      requires Declares(host, tasks, spec.taskId, id, spec)
      modifies this
      ensures WellKeyed(host, previews)
      ensures Served(id, spec)
      ensures Elsewhere(previews, old(previews), id) && Elsewhere(processes, old(processes), id)
      ensures old(Served(id, spec)) ==> previews == old(previews) && processes == old(processes) && stopped == old(stopped) && spawned == old(spawned)
      ensures tasks == WithLiveUrl(old(tasks), spec.taskId, spec.index, Some(spec.liveUrl))
    {
      tasks := WithLiveUrl(tasks, spec.taskId, spec.index, Some(spec.liveUrl));
      if id in previews {
        SameConfigurationSameSpec(host, previews, spec);
        if SameConfiguration(previews[id].spec, spec) && id in processes && Runs(previews[id].status) {
          return;
        }
      }
      Relaunch(id, spec);
    }

    /** Whatever is left of an earlier configuration goes, and the new one is launched. */
    method Relaunch(id: Key, spec: Spec)
      requires id == KeyOf(spec) && spec.liveUrl == host.liveUrl(id) && WellKeyed(host, previews)
      modifies `tasks, `previews, `processes, `stopped, `spawned
      ensures WellKeyed(host, previews) && Served(id, spec) && tasks == old(tasks)
      ensures Elsewhere(previews, old(previews), id) && Elsewhere(processes, old(processes), id)
      ensures id !in old(processes) ==> stopped == old(stopped)
      ensures !host.usable(spec.cwd) ==> previews == old(previews)[id := Preview(spec, Failed)] && processes == old(processes) - {id} && spawned == old(spawned)
    {
      if id in previews || id in processes {
        StopPreviewProcess(id, false);
      }
      LaunchPreview(id, spec);
    }

    /** The new record, and `launchPreview`: a child is started when the directory can be entered. */
    method LaunchPreview(id: Key, spec: Spec)
      modifies `previews, `processes, `spawned
      ensures previews == old(previews)[id := Preview(spec, if host.usable(spec.cwd) then Launching else Failed)]
      ensures processes == if host.usable(spec.cwd) then old(processes)[id := old(spawned)] else old(processes)
      ensures spawned == if host.usable(spec.cwd) then old(spawned) + 1 else old(spawned)
    {
      previews := previews[id := Preview(spec, Launching)];
      if !host.usable(spec.cwd) {
        previews := previews[id := previews[id].(status := Failed)];
        return;
      }
      processes, spawned := processes[id := spawned], spawned + 1;
    }

    /** The spec of one deliverable, unless it is skipped. */
    method Describe(taskId: string, index: nat, deliverable: Deliverable) returns (spec: Option<Spec>)
      ensures spec == Declared(host, taskId, index, deliverable)
    {
      if !deliverable.previewable {
        return None;
      }
      var cwd := PreviewCwd(host, deliverable);
      if cwd.None? {
        return None;
      }
      return Some(SpecOf(host, taskId, index, deliverable, cwd.value));
    }

    /**
      * The exit handler, when no stop is under way. It does not look at which child the id has now: every other
      * child stays on record exactly when the id has the exited child, or none.
      */
    method ChildExited(id: Key, child: nat)
      modifies `previews, `processes
      ensures processes == old(processes) - {id}
      ensures previews == if id in old(previews) then old(previews)[id := old(previews)[id].(status := Failed)] else old(previews)
      ensures (forall k :: k in old(processes) && old(processes)[k] != child ==> k in processes)
              <==> (id in old(processes) ==> old(processes)[id] == child)
    {
      processes := processes - {id};
      if id in previews {
        previews := previews[id := previews[id].(status := Failed)];
      }
    }

    /** `collectPreviewSpecs`: the declared previews, each once, in the order of the deliverables. */
    method CollectSpecs(taskId: string, deliverables: seq<Deliverable>) returns (specs: seq<Spec>)
      ensures InOrder(specs) && (forall spec :: spec in specs <==> DeclaredIn(host, taskId, deliverables, spec))
    {
      specs := [];
      for n := 0 to |deliverables|
        invariant InOrder(specs) && (forall spec :: spec in specs ==> spec.index < n)
        invariant forall spec :: spec in specs <==> DeclaredIn(host, taskId, deliverables, spec) && spec.index < n
      {
        var spec := Describe(taskId, n, deliverables[n]);
        if spec.Some? {
          DeclaredKeeps(host, taskId, n, deliverables[n]);
          specs := specs + [spec.value];
        }
      }
    }

    /** Removes records with their live URLs, one after the other. */
    method RemovePreviews(ids: set<Key>)
      modifies `tasks, `previews, `processes, `stopped
      ensures previews == old(previews) - ids && processes == old(processes) - ids
      ensures SameTasks(old(tasks), tasks)
      ensures forall id :: id in ids && id in old(previews) ==> NotShown(tasks, old(previews)[id].spec)
      ensures forall t: string, i: nat :: LiveUrl(tasks, t, i) == LiveUrl(old(tasks), t, i) || LiveUrl(tasks, t, i) == None
      ensures ids == {} ==> stopped == old(stopped) && tasks == old(tasks)
    {
      var rest := ids;
      while rest != {}
        invariant rest <= ids
        invariant previews == old(previews) - (ids - rest) && processes == old(processes) - (ids - rest)
        invariant SameTasks(old(tasks), tasks)
        invariant forall id :: id in ids - rest && id in old(previews) ==> NotShown(tasks, old(previews)[id].spec)
        invariant forall t: string, i: nat :: LiveUrl(tasks, t, i) == LiveUrl(old(tasks), t, i) || LiveUrl(tasks, t, i) == None
        invariant ids == {} ==> stopped == old(stopped) && tasks == old(tasks)
        decreases |rest|
      {
        var id :| id in rest;
        ghost var before := tasks;
        StopPreviewProcess(id, true);
        if id in old(previews) {
          ClearedShows(before, old(previews)[id].spec);
        }
        SameTasksTransitive(old(tasks), before, tasks);
        rest := rest - {id};
      }
    }

    /** `stopTaskPreviews`. */
    method StopTaskPreviews(taskId: string)
      modifies `tasks, `previews, `processes, `stopped
      ensures Emptied(taskId, old(tasks), tasks, old(previews), previews)
      ensures processes == old(processes) - OfTask(old(previews), taskId)
      ensures OfTask(old(previews), taskId) == {} ==> stopped == old(stopped) && tasks == old(tasks)
    {
      RemovePreviews(OfTask(previews, taskId));
    }

    /** The first `k` declared previews are served and shown. */
    ghost predicate Ensured(specs: seq<Spec>, k: nat)
      reads this
    {
      forall j :: 0 <= j < k && j < |specs| ==>
        Served(KeyOf(specs[j]), specs[j]) && LiveUrl(tasks, specs[j].taskId, specs[j].index) == Some(specs[j].liveUrl)
    }

    method EnsureNext(taskId: string, specs: seq<Spec>, k: nat)
      requires k < |specs| && WellKeyed(host, previews) && Collected(host, tasks, taskId, specs) && Ensured(specs, k)
      modifies this
      ensures WellKeyed(host, previews) && SameTasks(old(tasks), tasks) && Ensured(specs, k + 1) && Collected(host, tasks, taskId, specs)
      ensures Elsewhere(previews, old(previews), KeyOf(specs[k])) && Elsewhere(processes, old(processes), KeyOf(specs[k]))
      ensures specs[k].taskId == taskId && OfTask(previews, taskId) <= OfTask(old(previews), taskId) + {KeyOf(specs[k])}
      ensures old(Served(KeyOf(specs[k]), specs[k])) ==>
                previews == old(previews) && processes == old(processes) && stopped == old(stopped) && spawned == old(spawned)
    {
      var spec := specs[k];
      assert Declares(host, tasks, taskId, KeyOf(spec), spec);
      WithLiveUrlShows(tasks, taskId, spec.index, Some(spec.liveUrl));
      ghost var before := tasks;
      EnsurePreview(KeyOf(spec), spec);
      SameTasksCollectTheSame(host, before, tasks, taskId, specs);
      forall j | 0 <= j < k
        ensures Served(KeyOf(specs[j]), specs[j]) && LiveUrl(tasks, specs[j].taskId, specs[j].index) == Some(specs[j].liveUrl)
      {
        assert specs[j].index < spec.index;
        assert old(Served(KeyOf(specs[j]), specs[j]));
      }
    }

    method EnsureAll(taskId: string, specs: seq<Spec>)
      requires WellKeyed(host, previews) && Collected(host, tasks, taskId, specs)
      modifies this
      ensures WellKeyed(host, previews) && SameTasks(old(tasks), tasks) && Ensured(specs, |specs|)
      ensures Collected(host, tasks, taskId, specs)
      ensures KeptOutside(previews, old(previews), taskId) && KeptOutside(processes, old(processes), taskId)
      ensures OfTask(previews, taskId) <= OfTask(old(previews), taskId) + Keys(specs)
      ensures old(ServedAll(specs)) ==>
                previews == old(previews) && processes == old(processes) && stopped == old(stopped) && spawned == old(spawned)
    {
      ghost var quiet := ServedAll(specs);
      for k := 0 to |specs|
        invariant WellKeyed(host, previews) && SameTasks(old(tasks), tasks) && Ensured(specs, k)
        invariant Collected(host, tasks, taskId, specs)
        invariant KeptOutside(previews, old(previews), taskId) && KeptOutside(processes, old(processes), taskId)
        invariant OfTask(previews, taskId) <= OfTask(old(previews), taskId) + Keys(specs)
        invariant quiet ==> previews == old(previews) && processes == old(processes) && stopped == old(stopped) && spawned == old(spawned)
      {
        ghost var before := tasks;
        assert quiet ==> ServedAll(specs);
        EnsureNext(taskId, specs, k);
        SameTasksTransitive(old(tasks), before, tasks);
      }
    }

    ghost predicate ServedAll(specs: seq<Spec>)
      reads this
    {
      forall j :: 0 <= j < |specs| ==> Served(KeyOf(specs[j]), specs[j])
    }

    lemma EnsuredIsReconciled(taskId: string, specs: seq<Spec>)
      requires Collected(host, tasks, taskId, specs) && Ensured(specs, |specs|) && OfTask(previews, taskId) <= Keys(specs)
      ensures Reconciled(taskId) && Shown(host, tasks, taskId)
    {
      forall id | id in previews && previews[id].spec.taskId == taskId ensures Declares(host, tasks, taskId, id, previews[id].spec) {
        assert id in OfTask(previews, taskId) && id in Keys(specs);
        var j :| 0 <= j < |specs| && KeyOf(specs[j]) == id;
        assert Served(KeyOf(specs[j]), specs[j]);
      }
    }

    lemma ReconciledIsServed(taskId: string, specs: seq<Spec>)
      requires Collected(host, tasks, taskId, specs) && Reconciled(taskId)
      ensures OfTask(previews, taskId) <= Keys(specs) && ServedAll(specs)
    {
      forall j | 0 <= j < |specs| ensures Served(KeyOf(specs[j]), specs[j]) {
        assert Declares(host, tasks, taskId, KeyOf(specs[j]), specs[j]);
      }
    }

    /** The records the task no longer declares go, with their children and URLs. */
    method RemoveUndeclared(taskId: string, specs: seq<Spec>)
      requires WellKeyed(host, previews) && Collected(host, tasks, taskId, specs)
      modifies `tasks, `previews, `processes, `stopped
      ensures WellKeyed(host, previews) && SameTasks(old(tasks), tasks) && Collected(host, tasks, taskId, specs)
      ensures OfTask(previews, taskId) <= Keys(specs)
      ensures KeptOutside(previews, old(previews), taskId) && KeptOutside(processes, old(processes), taskId)
      ensures old(Reconciled(taskId)) ==> previews == old(previews) && processes == old(processes) && stopped == old(stopped) && ServedAll(specs)
    {
      if Reconciled(taskId) {
        ReconciledIsServed(taskId, specs);
      }
      ghost var start := tasks;
      RemovePreviews(OfTask(previews, taskId) - Keys(specs));
      SameTasksCollectTheSame(host, start, tasks, taskId, specs);
    }

    method Reconcile(taskId: string, specs: seq<Spec>)
      requires WellKeyed(host, previews) && Collected(host, tasks, taskId, specs)
      modifies this
      ensures WellKeyed(host, previews) && SameTasks(old(tasks), tasks) && Reconciled(taskId) && Shown(host, tasks, taskId)
      ensures KeptOutside(previews, old(previews), taskId) && KeptOutside(processes, old(processes), taskId)
      ensures old(Reconciled(taskId)) ==>
                previews == old(previews) && processes == old(processes) && stopped == old(stopped) && spawned == old(spawned)
    {
      ghost var start := tasks;
      RemoveUndeclared(taskId, specs);
      ghost var cleared := tasks;
      EnsureAll(taskId, specs);
      SameTasksTransitive(start, cleared, tasks);
      EnsuredIsReconciled(taskId, specs);
    }

    /**
      * `syncTaskPreviews`. A completed task ends with exactly its declared previews; any other task ends with none.
      * Other tasks are left alone, and a task that was already reconciled loses, and gets, no process.
      */
    method SyncTaskPreviews(taskId: string)
      requires WellKeyed(host, previews)
      modifies this
      ensures WellKeyed(host, previews) && SameTasks(old(tasks), tasks)
      ensures Reconciled(taskId)
      ensures !Completed(old(tasks), taskId) ==> Emptied(taskId, old(tasks), tasks, old(previews), previews)
      ensures Shown(host, tasks, taskId)
      ensures KeptOutside(previews, old(previews), taskId) && KeptOutside(processes, old(processes), taskId)
      ensures old(Reconciled(taskId)) ==>
                previews == old(previews) && processes == old(processes) && stopped == old(stopped) && spawned == old(spawned)
    {
      if !Completed(tasks, taskId) {
        StopTaskPreviews(taskId);
        return;
      }
      var specs := CollectSpecs(taskId, tasks[taskId].deliverables.value);
      Reconcile(taskId, specs);
    }
  }

  function Keys(specs: seq<Spec>): set<Key> {
    set spec | spec in specs :: KeyOf(spec)
  }

  /** The specs are the declared previews, each once. */
  ghost predicate Collected(host: Host, tasks: map<string, Task>, taskId: string, specs: seq<Spec>) {
    && InOrder(specs)
    && (forall id, spec :: Declares(host, tasks, taskId, id, spec) <==> spec in specs && id == KeyOf(spec))
  }

  lemma SameTasksCollectTheSame(host: Host, a: map<string, Task>, b: map<string, Task>, taskId: string, specs: seq<Spec>)
    requires SameTasks(a, b) && Collected(host, a, taskId, specs)
    ensures Collected(host, b, taskId, specs)
  {
    SameTasksDeclareTheSame(host, a, b);
  }

  lemma SameTasksTransitive(a: map<string, Task>, b: map<string, Task>, c: map<string, Task>)
    requires SameTasks(a, b) && SameTasks(b, c)
    ensures SameTasks(a, c)
  {
    forall t | t in a && a[t].deliverables.Some?
      ensures SameDeclarations(a[t].deliverables.value, c[t].deliverables.value)
    {
      assert SameDeclarations(b[t].deliverables.value, c[t].deliverables.value);
    }
  }

  /** All declared previews show their URL on the deliverable. */
  ghost predicate Shown(host: Host, tasks: map<string, Task>, taskId: string) {
    forall id, spec :: Declares(host, tasks, taskId, id, spec) ==> LiveUrl(tasks, taskId, spec.index) == Some(spec.liveUrl)
  }

  /** No record of the task is left, no other is touched, and no URL of a removed record is shown. */
  ghost predicate Emptied(taskId: string, oldTasks: map<string, Task>, tasks: map<string, Task>, old_: map<Key, Preview>, now: map<Key, Preview>) {
    && now == old_ - OfTask(old_, taskId)
    && SameTasks(oldTasks, tasks)
    && (forall id :: id in OfTask(old_, taskId) ==> NotShown(tasks, old_[id].spec))
  }

  /** Nothing filed under another task's ids changed. */
  ghost predicate KeptOutside<V(!new)>(now: map<Key, V>, was: map<Key, V>, taskId: string) {
    forall id: Key :: id.taskId != taskId ==> (id in now <==> id in was) && (id in now ==> now[id] == was[id])
  }

  /** Taking a URL off leaves every other one, and the deliverable without it. */
  lemma ClearedShows(tasks: map<string, Task>, spec: Spec)
    ensures NotShown(Cleared(tasks, spec), spec)
    // only this deliverable loses its URL, and only if it is this preview's
    ensures forall t: string, i: nat :: LiveUrl(Cleared(tasks, spec), t, i)
              == if t == spec.taskId && i == spec.index && LiveUrl(tasks, t, i) == Some(spec.liveUrl) then None else LiveUrl(tasks, t, i)
  {
  }

  lemma WithLiveUrlShows(tasks: map<string, Task>, t: string, i: nat, url: Option<string>)
    requires t in tasks && tasks[t].deliverables.Some? && i < |tasks[t].deliverables.value|
    ensures forall u: string, j: nat :: LiveUrl(WithLiveUrl(tasks, t, i, url), u, j) == if u == t && j == i then url else LiveUrl(tasks, u, j)
  {
  }

  ghost predicate Elsewhere<V(!new)>(now: map<Key, V>, was: map<Key, V>, id: Key) {
    forall k :: k != id ==> (k in now <==> k in was) && (k in now ==> now[k] == was[k])
  }

  function OfTask(previews: map<Key, Preview>, taskId: string): set<Key> {
    set id | id in previews && previews[id].spec.taskId == taskId
  }

  /** The deliverable does not show the preview's URL. */
  predicate NotShown(tasks: map<string, Task>, spec: Spec) {
    LiveUrl(tasks, spec.taskId, spec.index) != Some(spec.liveUrl)
  }

  /** The tasks with the preview's live URL taken off its deliverable, when that is what it shows. */
  function Cleared(tasks: map<string, Task>, spec: Spec): (r: map<string, Task>)
    ensures SameTasks(tasks, r)
  {
    if LiveUrl(tasks, spec.taskId, spec.index) == Some(spec.liveUrl) then WithLiveUrl(tasks, spec.taskId, spec.index, None) else tasks
  }

  function LiveUrl(tasks: map<string, Task>, t: string, i: nat): Option<string> {
    if t in tasks && tasks[t].deliverables.Some? && i < |tasks[t].deliverables.value| then tasks[t].deliverables.value[i].liveUrl else None
  }

  function WithLiveUrl(tasks: map<string, Task>, t: string, i: nat, url: Option<string>): (r: map<string, Task>)
    ensures SameTasks(tasks, r)
  {
    if t in tasks && tasks[t].deliverables.Some? && i < |tasks[t].deliverables.value| then
      var ds := tasks[t].deliverables.value;
      tasks[t := tasks[t].(deliverables := Some(ds[i := ds[i].(liveUrl := url)]))]
    else tasks
  }
}
