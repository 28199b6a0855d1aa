/** The tunnel connector and the handle that describes it: one connector at a time, and a share that outlives restarts. */
module TunnelManager {
  import opened Common
  import opened Text

  const QUICK := "quick"
  const SELF_HOSTED := "self-hosted"

  datatype Handle = Handle(tunnelId: string, hostname: string, gateToken: string, deleteToken: string)

  /** The state file, as far as it can be read back. */
  datatype Saved = Saved(handle: Handle, connectorToken: string)

  /** Writing and removing the state file is best effort: a failure leaves the old content, or nothing readable. */
  datatype Disk = Done | Kept | Damaged

  datatype Operation = Idle | Running | Finished | Failed

  /** What the tunnel server answered; anything but a complete 201 is a refusal. */
  datatype Answer = Refused | Created(tunnelId: string, hostname: string, deleteToken: string, connectorToken: string)

  /**
    * The manager and its state file. `spawned` numbers the connectors; `quick` are those of quick tunnels, `silent` the
    * ones that announced no URL yet and `timed` the ones whose timer runs; `pending` counts the starts that wait for
    * the server; `deletes` are the deletions asked of the server.
    */
  datatype Tunnel = Tunnel(
    child: Option<nat>,
    handle: Option<Handle>,
    startOp: Operation,
    file: Option<Saved>,
    spawned: nat,
    quick: set<nat>,
    silent: set<nat>,
    timed: set<nat>,
    pending: nat,
    deletes: seq<Handle>)

  predicate Managed(h: Handle) {
    h.tunnelId != QUICK && h.tunnelId != SELF_HOSTED
  }

  function Bare(tunnelId: string): Handle {
    Handle(tunnelId, "", "", "")
  }

  /** What a handle keeps through a restart; the gate cookie is computed from the first two. */
  predicate SameShare(a: Handle, b: Handle) {
    a.tunnelId == b.tunnelId && a.gateToken == b.gateToken && a.deleteToken == b.deleteToken
  }

  predicate Readable(file: Option<Saved>) {
    file.Some? && file.value.handle.tunnelId != "" && file.value.connectorToken != ""
  }

  predicate TokenAccepted(token: string) {
    |token| >= 40 && forall c :: c in token ==> 'A' <= c <= 'Z' || 'a' <= c <= 'z' || '0' <= c <= '9' || c == '_' || c == '-' || c == '='
  }

  function OnDisk(disk: Disk, before: Option<Saved>, wanted: Option<Saved>): Option<Saved> {
    match disk
    case Done => wanted
    case Kept => before
    case Damaged => None
  }

  /** A start is in two halves, before and after the server answers; every other event is one step. */
  datatype Event =
    | StartBegins(installed: bool)
    | StartAnswered(answer: Answer, gateToken: string, disk: Disk)
    | SelfHosted(token: string, installed: bool, disk: Disk)
    | QuickStarts(installed: bool)
    | Announces(proc: nat, hostname: string)
    | TimerFires(proc: nat)
    | Exits(proc: nat, disk: Disk)
    | Stops(disk: Disk)
    | Recovers(installed: bool, disk: Disk)
    | Restarts

  /** A connector is stopped for a new one, described by the new handle. */
  function Replaced(s: Tunnel, h: Handle): Tunnel {
    s.(child := Some(s.spawned), spawned := s.spawned + 1, handle := Some(h))
  }

  /** The handle is dropped and the state file removed; a share on the server is asked to be deleted. */
  function Dropped(s: Tunnel, disk: Disk): Tunnel
    requires s.handle.Some?
  {
    s.(child := None, handle := None, file := OnDisk(disk, s.file, None),
       deletes := if Managed(s.handle.value) then s.deletes + [s.handle.value] else s.deletes)
  }

  ghost predicate Next(s: Tunnel, e: Event, t: Tunnel) {
    match e
    case StartBegins(installed) =>
      if s.startOp.Running? then t == s
      else if s.handle.Some? && s.child.Some? then t == s.(startOp := Finished)
      else if !installed then t == s.(startOp := Operation.Failed)
      else t == s.(startOp := Running, pending := s.pending + 1)
    case StartAnswered(answer, gateToken, disk) =>
      s.pending > 0 &&
      var waited := s.(pending := s.pending - 1);
      (match answer
       case Refused => t == waited.(startOp := Operation.Failed)
       case Created(id, hostname, deleteToken, connectorToken) =>
         && Managed(Handle(id, hostname, gateToken, deleteToken)) && id != "" && connectorToken != ""
         && id !in Known(s) && id !in DeletedIds(s)
         && var h := Handle(id, hostname, gateToken, deleteToken);
            t == Replaced(waited, h).(startOp := Finished, file := OnDisk(disk, s.file, Some(Saved(h, connectorToken)))))
    case SelfHosted(token, installed, disk) =>
      if !TokenAccepted(token) || (s.handle.Some? && s.child.Some?) || !installed then t == s
      else t == Replaced(s, Bare(SELF_HOSTED)).(startOp := Finished, file := OnDisk(disk, s.file, Some(Saved(Bare(SELF_HOSTED), token))))
    case QuickStarts(installed) =>
      if (s.handle.Some? && s.child.Some?) || !installed then t == s
      else t == Replaced(s, Bare(QUICK)).(startOp := Running,
        quick := s.quick + {s.spawned}, silent := s.silent + {s.spawned}, timed := s.timed + {s.spawned})
    case Announces(proc, hostname) =>
      && proc in s.silent
      && t == s.(silent := s.silent - {proc}, timed := s.timed - {proc}, startOp := Finished,
                 handle := if s.handle.Some? then Some(s.handle.value.(hostname := hostname)) else None)
    case TimerFires(proc) =>
      && proc in s.timed
      && t == s.(timed := s.timed - {proc}, startOp := if proc in s.silent then Operation.Failed else s.startOp)
    case Exits(proc, disk) =>
      && proc < s.spawned
      && var untimed := s.(timed := s.timed - {proc});
         if s.child != Some(proc) then t == untimed
         else if s.handle.None? then t == untimed.(child := None)
         else t == Dropped(untimed, disk).(startOp := Operation.Failed)
    case Stops(disk) =>
      t == if s.handle.Some? then Dropped(s, disk) else s.(child := None)
    case Recovers(installed, disk) =>
      if s.handle.Some? || !Readable(s.file) || s.file.value.handle.tunnelId == QUICK || !installed then t == s
      else
        var h := if s.file.value.handle.tunnelId == SELF_HOSTED then Bare(SELF_HOSTED) else s.file.value.handle;
        t == Replaced(s, h).(startOp := Finished, file := OnDisk(disk, s.file, s.file))
    case Restarts =>
      t == Tunnel(None, None, Idle, s.file, s.spawned, s.quick, {}, {}, 0, s.deletes)
  }

  /** The shares on the server that the manager or its state file still know. */
  function Known(s: Tunnel): set<string> {
    InHandle(s) + InFile(s)
  }

  function InHandle(s: Tunnel): set<string> {
    if s.handle.Some? && Managed(s.handle.value) then {s.handle.value.tunnelId} else {}
  }

  function InFile(s: Tunnel): set<string> {
    if s.file.Some? && Managed(s.file.value.handle) then {s.file.value.handle.tunnelId} else {}
  }

  function DeletedIds(s: Tunnel): set<string> {
    set i | 0 <= i < |s.deletes| :: s.deletes[i].tunnelId
  }

  const initial := Tunnel(None, None, Idle, None, 0, {}, {}, {}, 0, [])

  ghost predicate Inv(s: Tunnel) {
    // active means that a connector runs
    && (s.handle.Some? <==> s.child.Some?)
    && (s.child.Some? ==> s.child.value < s.spawned)
    && (s.child.Some? ==> (s.child.value in s.quick <==> s.handle.value.tunnelId == QUICK))
    && (forall p :: p in s.quick ==> p < s.spawned)
    && s.silent <= s.quick && s.timed <= s.silent
    && (Readable(s.file) ==> s.file.value.handle.tunnelId != QUICK)
    // a tunnel of the user's own has no tokens of ours
    && (s.handle.Some? && s.handle.value.tunnelId == SELF_HOSTED ==> SameShare(s.handle.value, Bare(SELF_HOSTED)))
    && (Readable(s.file) && s.file.value.handle.tunnelId == SELF_HOSTED ==> s.file.value.handle == Bare(SELF_HOSTED))
  }

  lemma StepKeepsInv(s: Tunnel, e: Event, t: Tunnel)
    requires Inv(s) && Next(s, e, t)
    ensures Inv(t)
  {
  }

  ghost predicate Run(states: seq<Tunnel>, events: seq<Event>) {
    && |states| == |events| + 1
    && states[0] == initial
    && forall i :: 0 <= i < |events| ==> RunsAt(states, events, i)
  }

  /** The event at this point of a run. */
  ghost predicate RunsAt(states: seq<Tunnel>, events: seq<Event>, i: nat)
    requires |states| == |events| + 1 && i < |events|
  {
    Next(states[i], events[i], states[i + 1])
  }

  lemma RunStep(states: seq<Tunnel>, events: seq<Event>, i: nat)
    requires Run(states, events) && i < |events|
    ensures Next(states[i], events[i], states[i + 1])
  {
    assert RunsAt(states, events, i);
  }

  /** In every reachable state the tunnel is active exactly while its connector runs. */
  lemma {:induction false} ActiveMeansRunning(states: seq<Tunnel>, events: seq<Event>, n: nat)
    requires Run(states, events) && n < |states|
    ensures Inv(states[n]) && (states[n].handle.Some? <==> states[n].child.Some?)
  {
    if n > 0 {
      ActiveMeansRunning(states, events, n - 1);
      RunStep(states, events, n - 1);
      StepKeepsInv(states[n - 1], events[n - 1], states[n]);
    }
  }

  /** The exit of a connector ends the share exactly when it is the current one; otherwise only its timer goes. */
  lemma OnlyTheCurrentConnectorEndsTheShare(s: Tunnel, proc: nat, disk: Disk, t: Tunnel)
    requires Inv(s) && Next(s, Exits(proc, disk), t)
    ensures t == s.(timed := t.timed) <==> s.child != Some(proc)
    ensures s.child == Some(proc) ==> t.handle == None && t.startOp == Operation.Failed
  {
  }

  /** The URL of a quick tunnel goes into whatever handle there is: it is right exactly if no other connector took over. */
  lemma AnnouncesOwnShareIff(s: Tunnel, proc: nat, hostname: string, t: Tunnel)
    requires Inv(s) && Next(s, Announces(proc, hostname), t)
    ensures t.handle == s.handle || s.child == Some(proc)
            <==> s.child == None || s.child == Some(proc) || s.handle.value.hostname == hostname
  {
  }

  /** A quick tunnel replaced by a managed one that was already on its way renames it when it announces its URL. */
  lemma LateAnnouncementRenames() returns (states: seq<Tunnel>, events: seq<Event>)
    ensures Run(states, events) && |events| == 4
    ensures states[3].handle == Some(Handle("t", "t.dev", "G", "D")) && states[4].handle == Some(Handle("t", "q.com", "G", "D"))
  {
    var h := Handle("t", "t.dev", "G", "D");
    events := [StartBegins(true), QuickStarts(true), StartAnswered(Created("t", "t.dev", "D", "C"), "G", Done), Announces(0, "q.com")];
    var s1 := initial.(startOp := Running, pending := 1);
    var s2 := Tunnel(Some(0), Some(Bare(QUICK)), Running, None, 1, {0}, {0}, {0}, 1, []);
    var s3 := Tunnel(Some(1), Some(h), Finished, Some(Saved(h, "C")), 2, {0}, {0}, {0}, 0, []);
    var s4 := s3.(handle := Some(h.(hostname := "q.com")), silent := {}, timed := {});
    assert Next(s1, events[1], s2) && Next(s2, events[2], s3) && Next(s3, events[3], s4);
    states := [initial, s1, s2, s3, s4];
    assert RunsAt(states, events, 0) && RunsAt(states, events, 1) && RunsAt(states, events, 2) && RunsAt(states, events, 3);
  }

  /** An operation shown as running has something left that will end it. */
  predicate WillEnd(s: Tunnel) {
    s.startOp.Running? ==> s.pending > 0 || s.timed != {}
  }

  /** Exactly one step breaks that: the exit of a stopped quick connector that announced nothing and is all that is waited for. */
  lemma StrandsIff(s: Tunnel, e: Event, t: Tunnel)
    requires Inv(s) && Next(s, e, t) && WillEnd(s)
    ensures !WillEnd(t) <==>
            e.Exits? && s.child != Some(e.proc) && s.startOp.Running? && s.pending == 0 && s.timed == {e.proc}
  {
    if e.Exits? {
      assert s.timed - {e.proc} == {} <==> s.timed <= {e.proc};
    }
  }

  /** It is reachable: after a quick tunnel is stopped early, no managed tunnel can be started any more. */
  lemma EarlyStopBlocksStarts() returns (states: seq<Tunnel>, events: seq<Event>)
    ensures Run(states, events) && |events| == 3 && !WillEnd(states[3]) && states[3].handle == None
    ensures forall installed, t :: Next(states[3], StartBegins(installed), t) ==> t == states[3]
  {
    events := [QuickStarts(true), Stops(Done), Exits(0, Done)];
    var s1 := Tunnel(Some(0), Some(Bare(QUICK)), Running, None, 1, {0}, {0}, {0}, 0, []);
    var s2 := s1.(child := None, handle := None);
    states := [initial, s1, s2, s2.(timed := {})];
    assert RunsAt(states, events, 0) && RunsAt(states, events, 1) && RunsAt(states, events, 2);
  }

  /** The state file describes the running share, unless that is a quick tunnel. */
  predicate Persisted(s: Tunnel) {
    s.handle.Some? && s.handle.value.tunnelId != QUICK ==> Readable(s.file) && SameShare(s.file.value.handle, s.handle.value)
  }

  predicate DiskWorks(e: Event) {
    match e
    case StartAnswered(_, _, disk) => disk.Done?
    case SelfHosted(_, _, disk) => disk.Done?
    case Exits(_, disk) => disk.Done?
    case Stops(disk) => disk.Done?
    case Recovers(_, disk) => disk.Done?
    case _ => true
  }

  lemma {:induction false} PersistedWhileDiskWorks(states: seq<Tunnel>, events: seq<Event>, n: nat)
    requires Run(states, events) && n < |states|
    requires forall i :: 0 <= i < n ==> DiskWorks(events[i])
    ensures Inv(states[n]) && Persisted(states[n])
  {
    if n > 0 {
      PersistedWhileDiskWorks(states, events, n - 1);
      RunStep(states, events, n - 1);
    }
  }

  /** This event issued the share: the server's answer, word for word, with the gate token made for it. */
  predicate IssuedBy(e: Event, saved: Saved) {
    && e.StartAnswered? && e.answer.Created?
    && saved.connectorToken == e.answer.connectorToken && saved.handle.tunnelId == e.answer.tunnelId
    && saved.handle.hostname == e.answer.hostname && saved.handle.deleteToken == e.answer.deleteToken
    && saved.handle.gateToken == e.gateToken
  }

  /** This event gave a token of the user's own, and it looks like one. */
  predicate GivenBy(e: Event, saved: Saved) {
    && e.SelfHosted? && e.installed && saved.connectorToken == e.token && saved.handle == Handle("self-hosted", "", "", "")
    && |e.token| >= 40
    && forall c :: c in e.token ==> 'A' <= c <= 'Z' || 'a' <= c <= 'z' || '0' <= c <= '9' || c in {'_', '-', '='}
  }

  ghost predicate WasSaved(events: seq<Event>, n: nat, saved: Saved)
    requires n <= |events|
  {
    exists k :: 0 <= k < n && (IssuedBy(events[k], saved) || GivenBy(events[k], saved))
  }

  /** The handle is of a share the server issued. */
  ghost predicate WasIssued(events: seq<Event>, n: nat, h: Handle)
    requires n <= |events|
  {
    exists k :: 0 <= k < n && events[k].StartAnswered? && events[k].answer.Created?
      && h.tunnelId == events[k].answer.tunnelId && h.deleteToken == events[k].answer.deleteToken && h.gateToken == events[k].gateToken
  }

  ghost predicate Honest(events: seq<Event>, n: nat, s: Tunnel)
    requires n <= |events|
  {
    && (s.file.Some? ==> WasSaved(events, n, s.file.value))
    && (s.handle.Some? && s.handle.value.tunnelId !in {"quick", "self-hosted"} ==> WasIssued(events, n, s.handle.value))
    && (forall h :: h in s.deletes ==> h.tunnelId !in {"quick", "self-hosted"} && WasIssued(events, n, h))
  }

  lemma HonestLater(events: seq<Event>, n: nat, s: Tunnel)
    requires n < |events| && Honest(events, n, s)
    ensures Honest(events, n + 1, s)
  {
  }

  lemma StepIsHonest(events: seq<Event>, n: nat, s: Tunnel, t: Tunnel)
    requires n < |events| && Honest(events, n + 1, s) && Next(s, events[n], t)
    ensures Honest(events, n + 1, t)
  {
  }

  /**
    * What the state file holds is a share as the server issued it, tokens and all, or a token of the user's own; what is
    * served under a name of the server's is a share it issued; and only such shares are asked to be deleted.
    */
  lemma {:induction false} SavedIsIssued(states: seq<Tunnel>, events: seq<Event>, n: nat)
    requires Run(states, events) && n < |states|
    ensures Honest(events, n, states[n])
  {
    if n > 0 {
      SavedIsIssued(states, events, n - 1);
      HonestLater(events, n - 1, states[n - 1]);
      RunStep(states, events, n - 1);
      StepIsHonest(events, n - 1, states[n - 1], states[n]);
    }
  }

  /** A recovery serves exactly what is saved, if it has a name, a token and is no quick tunnel. */
  lemma RecoversIff(s: Tunnel, installed: bool, disk: Disk, t: Tunnel)
    requires Inv(s) && s.handle.None? && Next(s, Recovers(installed, disk), t)
    ensures t.handle.Some? <==>
              installed && s.file.Some? && s.file.value.handle.tunnelId !in {"", "quick"} && s.file.value.connectorToken != ""
    ensures t.handle.Some? ==> t.handle.value == s.file.value.handle && t.child == Some(s.spawned) && t.startOp == Finished
  {
  }

  /** What the gate lets in, for any way of computing the cookie. */
  predicate GateAllows(digest: (string, string) -> string, s: Tunnel, cookie: string) {
    s.handle.Some? && cookie == digest(s.handle.value.gateToken, s.handle.value.tunnelId)
  }

  /**
    * Restart and recovery. With the connector installed the same share is back exactly if the state file describes it,
    * and then the cookies of its visitors stay valid; a quick tunnel never comes back.
    */
  lemma RecoveryRestoresIff(s: Tunnel, r: Tunnel, disk: Disk, t: Tunnel)
    requires Inv(s) && s.handle.Some?
    requires Next(s, Restarts, r) && Next(r, Recovers(true, disk), t)
    ensures t.handle.Some? && SameShare(t.handle.value, s.handle.value)
            <==> Readable(s.file) && SameShare(s.file.value.handle, s.handle.value)
    ensures t.handle.Some? ==> t.handle.value.tunnelId != QUICK
  {
  }

  lemma VisitorsStayThroughRestart(digest: (string, string) -> string, states: seq<Tunnel>, events: seq<Event>, n: nat, cookie: string)
    requires Run(states, events) && n + 2 < |states|
    requires forall i :: 0 <= i < n ==> DiskWorks(events[i])
    requires states[n].handle.Some? && Managed(states[n].handle.value)
    requires events[n] == Restarts && events[n + 1].Recovers? && events[n + 1].installed
    ensures GateAllows(digest, states[n + 2], cookie) <==> GateAllows(digest, states[n], cookie)
  {
    PersistedWhileDiskWorks(states, events, n);
    RunStep(states, events, n);
    RunStep(states, events, n + 1);
  }

  /** As long as the disk works, a share that was asked to be deleted is never served, saved or recovered again. */
  lemma {:induction false} DeletedNeverReturns(states: seq<Tunnel>, events: seq<Event>, n: nat)
    requires Run(states, events) && n < |states|
    requires forall i :: 0 <= i < n ==> DiskWorks(events[i])
    ensures Known(states[n]) !! DeletedIds(states[n])
  {
    if n > 0 {
      DeletedNeverReturns(states, events, n - 1);
      PersistedWhileDiskWorks(states, events, n - 1);
      var s, e, t := states[n - 1], events[n - 1], states[n];
      RunStep(states, events, n - 1);
      Deletes(s, e, t);
    }
  }

  /**
    * Without that, exactly one step leaves a deleted share where it can be recovered: the end of a share that is in the
    * state file, when the file cannot be removed.
    */
  lemma DeletedStaysUnknownIff(s: Tunnel, e: Event, t: Tunnel)
    requires Inv(s) && Next(s, e, t) && Known(s) !! DeletedIds(s)
    ensures Known(t) !! DeletedIds(t) <==> !(Ends(s, e) && e.disk.Kept? && InHandle(s) * InFile(s) != {})
  {
    Deletes(s, e, t);
  }

  const share := Handle("t", "t.dev", "G", "D")

  /** The manager after `n` events of the run below. */
  function DeletedRun(n: nat): Tunnel {
    var serving := Tunnel(Some(0), Some(share), Finished, Some(Saved(share, "C")), 1, {}, {}, {}, 0, []);
    match n
    case 0 => initial
    case 1 => initial.(startOp := Running, pending := 1)
    case 2 => serving
    case 3 => serving.(child := None, handle := None, deletes := [share])
    case _ => serving.(child := Some(1), spawned := 2, deletes := [share])
  }

  const deletedEvents := [StartBegins(true), StartAnswered(Created("t", "t.dev", "D", "C"), "G", Done), Stops(Kept), Recovers(true, Done)]

  lemma DeletedStep(n: nat)
    requires n < 4
    ensures Next(DeletedRun(n), deletedEvents[n], DeletedRun(n + 1))
  {
  }

  /** Then a restart is not even needed: the next recovery serves the deleted share. */
  lemma DeletedShareIsRecovered() returns (states: seq<Tunnel>, events: seq<Event>)
    ensures Run(states, events) && |events| == 4 && events[2] == Stops(Kept)
    ensures states[4].deletes == [share] && states[4].handle == Some(share)
  {
    events := deletedEvents;
    states := seq(5, n requires 0 <= n < 5 => DeletedRun(n));
    forall n | 0 <= n < 4 ensures RunsAt(states, events, n) {
      DeletedStep(n);
    }
  }

  /** A step deletes at most the share it drops. */
  lemma Deletes(s: Tunnel, e: Event, t: Tunnel)
    requires Next(s, e, t)
    ensures DeletedIds(s) <= DeletedIds(t) <= DeletedIds(s) + InHandle(s)
    ensures DeletedIds(t) == DeletedIds(s) + (if t.deletes == s.deletes then {} else InHandle(s))
  {
    if t.deletes != s.deletes {
      assert t.deletes == s.deletes + [s.handle.value];
      forall id | id in DeletedIds(s) ensures id in DeletedIds(t) {
        var i :| 0 <= i < |s.deletes| && s.deletes[i].tunnelId == id;
        assert t.deletes[i].tunnelId == id;
      }
      assert t.deletes[|s.deletes|].tunnelId == s.handle.value.tunnelId;
    }
  }

  /** The shares on the server that a step leaves behind: no longer known, and not asked to be deleted. */
  function LeftBehind(s: Tunnel, t: Tunnel): set<string> {
    Known(s) - Known(t) - DeletedIds(t)
  }

  predicate Starts(s: Tunnel, e: Event) {
    || (e.StartAnswered? && e.answer.Created?)
    || (e.SelfHosted? && TokenAccepted(e.token) && s.handle.None? && e.installed)
  }

  predicate Ends(s: Tunnel, e: Event) {
    s.handle.Some? && ((e.Exits? && s.child == Some(e.proc)) || e.Stops?)
  }

  /**
    * A share is left behind on the server exactly when another takes its place in the file or as the running one, when a
    * tunnel other than the saved one ends, or when a running share was never saved and the program restarts.
    */
  lemma LeftBehindIff(s: Tunnel, e: Event, t: Tunnel)
    requires Inv(s) && Next(s, e, t)
    requires Known(s) !! DeletedIds(s)
    ensures LeftBehind(s, t) != {} <==>
            || (Starts(s, e) && (if e.disk.Kept? then InHandle(s) - InFile(s) else Known(s)) != {})
            || (Ends(s, e) && !e.disk.Kept? && InFile(s) - InHandle(s) != {})
            || (e.Restarts? && InHandle(s) - InFile(s) != {})
  {
    Deletes(s, e, t);
  }

  class Manager {
    var child: Option<nat>
    var handle: Option<Handle>
    var startOp: Operation
    var file: Option<Saved>
    var spawned: nat
    var quick: set<nat>
    var silent: set<nat>
    var timed: set<nat>
    var pending: nat
    var deletes: seq<Handle>

    function View(): Tunnel
      reads this
    {
      Tunnel(child, handle, startOp, file, spawned, quick, silent, timed, pending, deletes)
    }

    constructor ()
      ensures View() == initial
    {
      child, handle, startOp, file, spawned := None, None, Idle, None, 0;
      quick, silent, timed, pending, deletes := {}, {}, {}, 0, [];
    }

    /** `launchStart`, and `start` up to the answer of the server. */
    method LaunchStart(installed: bool)
      requires Inv(View())
      modifies this
      ensures Next(old(View()), StartBegins(installed), View()) && Inv(View())
    {
      if startOp.Running? {
        return;
      }
      startOp := Running;
      if handle.Some? && child.Some? {
        startOp := Finished;
        return;
      }
      if !installed {
        startOp := Operation.Failed;
        return;
      }
      pending := pending + 1;
    }

    /** `start` from the answer on. */
    method ResumeStart(answer: Answer, gateToken: string, disk: Disk)
      requires Inv(View()) && pending > 0
      requires answer.Created? ==>
                 && Managed(Handle(answer.tunnelId, answer.hostname, gateToken, answer.deleteToken))
                 && answer.tunnelId != "" && answer.connectorToken != ""
                 && answer.tunnelId !in Known(View()) && answer.tunnelId !in DeletedIds(View())
      modifies this
      ensures Next(old(View()), StartAnswered(answer, gateToken, disk), View()) && Inv(View())
    {
      ghost var before := View();
      pending := pending - 1;
      match answer {
        case Refused => startOp := Operation.Failed;
        case Created(id, hostname, deleteToken, connectorToken) =>
          Serve(Handle(id, hostname, gateToken, deleteToken), connectorToken, disk);
      }
      StepKeepsInv(before, StartAnswered(answer, gateToken, disk), View());
    }

    /** A new connector takes over, with the handle that describes it and the state file. */
    method Serve(h: Handle, connectorToken: string, disk: Disk)
      modifies this
      ensures View() == Replaced(old(View()), h).(startOp := Finished, file := OnDisk(disk, old(file), Some(Saved(h, connectorToken))))
    {
      startOp := Running;
      StopConnector();
      SpawnConnector();
      handle := Some(h);
      file := OnDisk(disk, file, Some(Saved(h, connectorToken)));
      startOp := Finished;
    }

    method StartSelfHosted(rawToken: string, installed: bool, disk: Disk) returns (launched: bool)
      requires Inv(View())
      modifies this
      ensures Next(old(View()), SelfHosted(Trim(rawToken), installed, disk), View()) && Inv(View())
      ensures launched <==>
                && handle.Some? && |Trim(rawToken)| >= 40
                && forall c :: c in Trim(rawToken) ==> 'A' <= c <= 'Z' || 'a' <= c <= 'z' || '0' <= c <= '9' || c in {'_', '-', '='}
    {
      launched := StartWithToken(Trim(rawToken), installed, disk);
    }

    method StartWithToken(token: string, installed: bool, disk: Disk) returns (launched: bool)
      requires Inv(View())
      modifies this
      ensures Next(old(View()), SelfHosted(token, installed, disk), View()) && Inv(View())
      ensures launched <==> TokenAccepted(token) && handle.Some?
    {
      if token == "" || !TokenAccepted(token) {
        return false;
      }
      if handle.Some? && child.Some? {
        return true;
      }
      if !installed {
        return false;
      }
      Serve(Bare(SELF_HOSTED), token, disk);
      return true;
    }

    method StartQuick(installed: bool) returns (launched: bool)
      requires Inv(View())
      modifies this
      ensures Next(old(View()), QuickStarts(installed), View()) && Inv(View())
      ensures launched <==> handle.Some?
    {
      if handle.Some? && child.Some? {
        return true;
      }
      if !installed {
        return false;
      }
      startOp := Running;
      StopConnector();
      var proc := spawned;
      SpawnConnector();
      quick, silent, timed := quick + {proc}, silent + {proc}, timed + {proc};
      handle := Some(Bare(QUICK));
      return true;
    }

    /** The URL on the standard error of a quick connector; only the first one counts. */
    method Announce(proc: nat, hostname: string)
      requires Inv(View()) && proc in silent
      modifies this
      ensures Next(old(View()), Announces(proc, hostname), View()) && Inv(View())
    {
      silent, timed := silent - {proc}, timed - {proc};
      if handle.Some? {
        handle := Some(handle.value.(hostname := hostname));
      }
      startOp := Finished;
    }

    method FireTimer(proc: nat)
      requires Inv(View()) && proc in timed
      modifies this
      ensures Next(old(View()), TimerFires(proc), View()) && Inv(View())
    {
      timed := timed - {proc};
      if proc in silent {
        startOp := Operation.Failed;
      }
    }

    /** The two exit handlers; the one of quick connectors has nothing to delete on the server. */
    method ConnectorExited(proc: nat, disk: Disk)
      requires Inv(View()) && proc < spawned
      modifies this
      ensures Next(old(View()), Exits(proc, disk), View()) && Inv(View())
    {
      timed := timed - {proc};
      if child != Some(proc) {
        return;
      }
      child := None;
      if handle.Some? {
        var gone := handle.value;
        handle := None;
        startOp := Operation.Failed;
        if proc !in quick && gone.tunnelId != SELF_HOSTED && gone.tunnelId != QUICK {
          deletes := deletes + [gone];
        }
        file := OnDisk(disk, file, None);
      }
    }

    method Stop(disk: Disk)
      requires Inv(View())
      modifies this
      ensures Next(old(View()), Stops(disk), View()) && Inv(View())
      ensures child == None && handle == None
    {
      StopConnector();
      if handle.Some? {
        var gone := handle.value;
        handle := None;
        if gone.tunnelId != SELF_HOSTED && gone.tunnelId != QUICK {
          deletes := deletes + [gone];
        }
        file := OnDisk(disk, file, None);
      }
    }

    method Recover(installed: bool, disk: Disk)
      requires Inv(View())
      modifies this
      ensures Next(old(View()), Recovers(installed, disk), View()) && Inv(View())
    {
      if handle.Some? || !Readable(file) || file.value.handle.tunnelId == QUICK {
        return;
      }
      if !installed {
        return;
      }
      var saved := file.value;
      startOp := Running;
      StopConnector();
      SpawnConnector();
      handle := Some(if saved.handle.tunnelId == SELF_HOSTED then Bare(SELF_HOSTED) else saved.handle);
      file := OnDisk(disk, file, Some(saved));
      startOp := Finished;
    }

    method Status() returns (active: bool, connectorRunning: bool, tunnelId: Option<string>)
      requires Inv(View())
      ensures active == connectorRunning && (active <==> tunnelId.Some?)
      ensures handle.Some? ==> tunnelId == Some(handle.value.tunnelId)
    {
      active, connectorRunning := handle.Some?, child.Some?;
      tunnelId := if handle.Some? then Some(handle.value.tunnelId) else None;
    }

    method StopConnector()
      modifies `child
      ensures child == None
    {
      if child.Some? {
        child := None;
      }
    }

    method SpawnConnector()
      modifies `child, `spawned
      ensures child == Some(old(spawned)) && spawned == old(spawned) + 1
    {
      child, spawned := Some(spawned), spawned + 1;
    }
  }
}
