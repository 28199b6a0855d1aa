/** The children of previews over time: launches, stops nobody has to wait for, and exits that come when they come. */
module PreviewRuns {
  import opened Common
  import opened PreviewManager

  /**
    * `processes` and `stoppingIds` are what the manager keeps; `stopping` are the children whose stop is under way, with
    * their previews. `running` are the children that live, by the preview they were launched for; a stop that ran out of
    * time leaves its child `killed`, that is, about to exit.
    */
  datatype State = State(
    processes: map<Key, nat>,
    status: map<Key, Status>,
    stoppingIds: set<Key>,
    stopping: map<nat, Key>,
    running: map<nat, Key>,
    killed: set<nat>,
    spawned: nat)

  datatype Event =
    | Launches(id: Key)
    | Answers(id: Key)
    | StopBegins(id: Key)
    | StopEnds(child: nat, removes: bool)
    /** a stop that finds no child */
    | StopsNothing(id: Key, removes: bool)
    | Exits(child: nat)

  function Marked(s: State, id: Key, status: Status): map<Key, Status> {
    if id in s.status then s.status[id := status] else s.status
  }

  function Ended(s: State, id: Key, removes: bool): map<Key, Status> {
    if removes then s.status - {id} else Marked(s, id, Stopped)
  }

  ghost predicate Next(s: State, e: Event, t: State) {
    match e
    // the new child takes the place of whatever is on record; an unfinished stop is not waited for
    case Launches(id) =>
      t == s.(processes := s.processes[id := s.spawned], status := s.status[id := Launching],
              running := s.running[s.spawned := id], spawned := s.spawned + 1)
    case Answers(id) => id in s.processes && t == s.(status := Marked(s, id, Healthy))
    case StopBegins(id) =>
      && id in s.processes
      && t == s.(processes := s.processes - {id}, stoppingIds := s.stoppingIds + {id}, stopping := s.stopping[s.processes[id] := id])
    // the child exited, or the time is up and it is killed
    case StopEnds(child, removes) =>
      && child in s.stopping
      && var id := s.stopping[child];
         t == s.(stoppingIds := s.stoppingIds - {id}, stopping := s.stopping - {child}, status := Ended(s, id, removes),
                 killed := if child in s.running then s.killed + {child} else s.killed)
    case StopsNothing(id, removes) => id !in s.processes && t == s.(status := Ended(s, id, removes))
    // the exit handler: it knows its preview, and does not ask which child that has now
    case Exits(child) =>
      && child in s.running
      && var id := s.running[child];
         t == s.(running := s.running - {child}, processes := s.processes - {id}, stoppingIds := s.stoppingIds - {id},
                 status := if id in s.stoppingIds then s.status else Marked(s, id, Status.Failed))
  }

  const initial := State(map[], map[], {}, map[], map[], {}, 0)

  ghost predicate Inv(s: State) {
    && (forall c :: c in s.running ==> c < s.spawned)
    && (forall c :: c in s.killed ==> c < s.spawned)
    && (forall c :: c in s.stopping ==> c < s.spawned && (c in s.running ==> s.running[c] == s.stopping[c]))
    && (forall id :: id in s.processes ==> OnRecord(s, id, s.processes[id]))
  }

  /** A child on record runs, for that preview, and nobody has stopped it. */
  predicate OnRecord(s: State, id: Key, c: nat) {
    c in s.running && s.running[c] == id && c !in s.stopping && c !in s.killed
  }

  /** The manager has the child on record, or is stopping it. */
  predicate Held(s: State, c: nat)
    requires c in s.running
  {
    c in s.stopping || (s.running[c] in s.processes && s.processes[s.running[c]] == c)
  }

  /** No child runs that the manager does not know of, other than those about to exit. */
  ghost predicate Tracked(s: State) {
    forall c :: c in s.running && c !in s.killed ==> Held(s, c)
  }

  ghost predicate Run(states: seq<State>, events: seq<Event>) {
    && |states| == |events| + 1
    && states[0] == initial
    && forall i :: 0 <= i < |events| ==> Next(states[i], events[i], states[i + 1])
  }

  lemma StepKeepsInv(s: State, e: Event, t: State)
    requires Inv(s) && Next(s, e, t)
    ensures Inv(t)
  {
    forall id | id in t.processes ensures OnRecord(t, id, t.processes[id]) {
      if id in s.processes {
        assert OnRecord(s, id, s.processes[id]);
      }
    }
  }

  lemma {:induction false} RunKeepsInv(states: seq<State>, events: seq<Event>, n: nat)
    requires Run(states, events) && n < |states|
    ensures Inv(states[n])
  {
    if n > 0 {
      RunKeepsInv(states, events, n - 1);
      StepKeepsInv(states[n - 1], events[n - 1], states[n]);
    }
  }

  /** A child exits while its preview has another one on record, or a launch takes the place of one on record. */
  predicate Loses(s: State, e: Event) {
    match e
    case Exits(child) =>
      child in s.running && s.running[child] in s.processes && s.processes[s.running[child]] != child
    case Launches(id) => id in s.processes
    case _ => false
  }

  /** Exactly these two steps lose a child. */
  lemma LosesChildIff(s: State, e: Event, t: State)
    requires Inv(s) && Tracked(s) && Next(s, e, t)
    ensures Tracked(t) <==> !Loses(s, e)
  {
    if Loses(s, e) {
      var id := if e.Exits? then s.running[e.child] else e.id;
      var c := s.processes[id];
      assert OnRecord(s, id, c);
      assert c in t.running && c !in t.killed && !Held(t, c);
    } else {
      forall c | c in t.running && c !in t.killed ensures Held(t, c) {
        if c in s.running {
          assert Held(s, c);
        }
      }
    }
  }

  /** Over any run without such a step, every running child is on record, being stopped, or about to exit. */
  lemma {:induction false} AllTracked(states: seq<State>, events: seq<Event>, n: nat)
    requires Run(states, events) && n < |states|
    requires forall i :: 0 <= i < n ==> !Loses(states[i], events[i])
    ensures Inv(states[n]) && Tracked(states[n])
  {
    if n > 0 {
      AllTracked(states, events, n - 1);
      StepKeepsInv(states[n - 1], events[n - 1], states[n]);
      LosesChildIff(states[n - 1], events[n - 1], states[n]);
    }
  }

  /** No stop runs out of time, and nothing is launched for a preview with a child on record or an unfinished stop. */
  predicate Orderly(s: State, e: Event) {
    match e
    case StopEnds(child, _) => child !in s.running
    case Launches(id) => id !in s.processes && !Stopping(s, id)
    case _ => true
  }

  predicate Stopping(s: State, id: Key) {
    exists c :: c in s.stopping && s.stopping[c] == id
  }

  ghost predicate InOrder(s: State) {
    s.killed == {} && forall id :: id in s.processes ==> !Stopping(s, id)
  }

  lemma OrderlyStep(s: State, e: Event, t: State)
    requires Inv(s) && Tracked(s) && InOrder(s) && Next(s, e, t) && Orderly(s, e)
    ensures InOrder(t) && !Loses(s, e)
  {
    if e.Exits? {
      assert Held(s, e.child);
    }
    forall id | id in t.processes ensures !Stopping(t, id) {
      if id in s.processes {
        assert !Stopping(s, id);
        assert OnRecord(s, id, s.processes[id]);
      }
    }
  }

  /** Over any orderly run nobody is killed and every running child is known. */
  lemma {:induction false} OrderlyStopsLoseNobody(states: seq<State>, events: seq<Event>, n: nat)
    requires Run(states, events) && n < |states|
    requires forall i :: 0 <= i < n ==> Orderly(states[i], events[i])
    ensures Inv(states[n]) && InOrder(states[n]) && Tracked(states[n])
  {
    if n > 0 {
      OrderlyStopsLoseNobody(states, events, n - 1);
      StepKeepsInv(states[n - 1], events[n - 1], states[n]);
      OrderlyStep(states[n - 1], events[n - 1], states[n]);
      LosesChildIff(states[n - 1], events[n - 1], states[n]);
    }
  }

  /** The child is not on record, not being stopped and not about to exit, or it does not run any more. */
  predicate Lost(s: State, c: nat) {
    c < s.spawned && (c in s.running ==> c !in s.killed && !Held(s, c))
  }

  lemma StaysLost(s: State, e: Event, t: State, c: nat)
    requires Inv(s) && Next(s, e, t) && Lost(s, c)
    ensures Lost(t, c)
  {
  }

  /** A lost child stays lost: as long as it runs, nothing records or stops it. */
  lemma {:induction false} LostForGood(states: seq<State>, events: seq<Event>, i: nat, j: nat, c: nat)
    requires Run(states, events) && i <= j < |states| && Lost(states[i], c)
    ensures Lost(states[j], c)
    decreases j
  {
    if i < j {
      LostForGood(states, events, i, j - 1, c);
      RunKeepsInv(states, events, j - 1);
      StaysLost(states[j - 1], events[j - 1], states[j], c);
    }
  }

  /** It happens: a stop runs out of time, the preview is launched again, and then the first child exits. */
  lemma LateExitLosesChild(id: Key) returns (states: seq<State>, events: seq<Event>)
    ensures Run(states, events) && |events| == 5 && events[4] == Exits(0)
    ensures Loses(states[4], events[4]) && 0 in states[4].killed && states[4].processes == map[id := 1]
    ensures 1 in states[5].running && Lost(states[5], 1) && states[5].status == map[id := Status.Failed]
  {
    events := [Launches(id), StopBegins(id), StopEnds(0, false), Launches(id), Exits(0)];
    var s1 := State(map[id := 0], map[id := Launching], {}, map[], map[0 := id], {}, 1);
    var s2 := State(map[], map[id := Launching], {id}, map[0 := id], map[0 := id], {}, 1);
    var s3 := State(map[], map[id := Stopped], {}, map[], map[0 := id], {0}, 1);
    var s4 := State(map[id := 1], map[id := Launching], {}, map[], map[0 := id, 1 := id], {0}, 2);
    var s5 := State(map[], map[id := Status.Failed], {}, map[], map[1 := id], {0}, 2);
    assert Next(initial, events[0], s1) && Next(s1, events[1], s2) && Next(s2, events[2], s3);
    assert Next(s3, events[3], s4) && Next(s4, events[4], s5);
    states := [initial, s1, s2, s3, s4, s5];
  }

  /** And with every stop in time: the stop of a slow launch is not awaited, and the preview is launched again meanwhile. */
  lemma EarlyRelaunchLosesChild(id: Key) returns (states: seq<State>, events: seq<Event>)
    ensures Run(states, events) && |events| == 4 && events[3] == Exits(0)
    ensures !(exists i :: 0 <= i < |events| && events[i].StopEnds?) && states[4].killed == {}
    ensures Loses(states[3], events[3]) && states[3].processes == map[id := 1] && Stopping(states[3], id)
    ensures 1 in states[4].running && Lost(states[4], 1) && states[4].status == map[id := Launching]
  {
    events := [Launches(id), StopBegins(id), Launches(id), Exits(0)];
    var s1 := State(map[id := 0], map[id := Launching], {}, map[], map[0 := id], {}, 1);
    var s2 := State(map[], map[id := Launching], {id}, map[0 := id], map[0 := id], {}, 1);
    var s3 := State(map[id := 1], map[id := Launching], {id}, map[0 := id], map[0 := id, 1 := id], {}, 2);
    var s4 := State(map[], map[id := Launching], {}, map[0 := id], map[1 := id], {}, 2);
    assert Next(initial, events[0], s1) && Next(s1, events[1], s2) && Next(s2, events[2], s3) && Next(s3, events[3], s4);
    assert s3.stopping[0] == id;
    states := [initial, s1, s2, s3, s4];
  }
}
