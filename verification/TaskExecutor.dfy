/**
  The waiting loop of the role task executor: it waits for one runtime run and, while the run is
  rate limited, silent or working in the background, probes the session until a real result shows.

  The runtime is a script of moments, one for every await; the concurrent progress poll shows as
  the changes each moment carries. An execution that used up its script is still running.
*/
module TaskExecutor {
  import opened Common
  import opened Text

  const RATE_LIMIT_STALL_PROBE_MS := 300000
  const BACKGROUND_WORK_PROBE_MS := 60000
  const SENTINEL := "TEAMCLAW_STILL_WAITING"

  datatype WaitStatus = Ok | Error(message: string) | Timeout

  /** The last assistant message of the session: its text and tool calls. */
  datatype Message = Message(text: string, toolCalls: seq<string>)

  /**
    What an await brings: the clock, whether the poller by then sees the session rate limited and
    saw new activity, the session's last message, the awaited status, or an exception.
  */
  datatype Moment = Moment(now: int, rateLimited: bool, activity: bool, latest: Option<Message>, status: WaitStatus, throws: bool)

  /**
    Trimming, and trimming a tool name to lower case; the pattern matches on free text; and the inline
    result contract (its text without the block).
  */
  datatype TextRules = TextRules(
    trim: string -> string,
    toolName: string -> string,
    saysRateLimit: string -> bool,
    saysWaiting: string -> bool,
    saysBackground: string -> bool,
    contractText: string -> Option<string>)

  /** Nothing is left to trim of a trimmed text. */
  type Heuristics = h: TextRules | h.trim("") == "" && forall s :: h.trim(h.trim(s)) == h.trim(s)
    ghost witness TextRules(s => s, s => s, _ => false, _ => false, _ => false, _ => None)

  datatype Turn = Turn(text: string, toolCalls: seq<string>, yielded: bool, backgroundPending: bool)

  datatype Outcome = StillRunning | Completed(text: string, turn: Turn) | RunFailed(error: string) | RuntimeThrew

  /** Stops the calling method when the script ended or the runtime threw. */
  datatype Flow<+T> = Go(value: T) | Stop(threw: bool) {
    predicate IsFailure() {
      Stop?
    }
    function PropagateFailure<U>(): Flow<U>
      requires Stop?
    {
      Stop(threw)
    }
    function Extract(): T
      requires Go?
    {
      value
    }
  }

  // ---------------------------------------------------------------- turns

  predicate StillWaiting(h: Heuristics, text: string) {
    var normalized := h.trim(text);
    normalized == "" || normalized == SENTINEL || h.saysWaiting(normalized)
  }

  predicate BackgroundMessage(h: Heuristics, text: string) {
    var normalized := h.trim(text);
    normalized != "" && h.saysBackground(normalized)
  }

  function ToolNames(h: Heuristics, toolCalls: seq<string>): seq<string> {
    if toolCalls == [] then []
    else
      var name := h.toolName(toolCalls[0]);
      (if name != "" then [name] else []) + ToolNames(h, toolCalls[1..])
  }

  function BuildTurn(h: Heuristics, text: string, toolCalls: seq<string>): (r: Turn)
    ensures Genuine(h, r)
  {
    var names := ToolNames(h, toolCalls);
    var yielded := "sessions_yield" in names;
    Turn(h.trim(text), names, yielded, yielded || BackgroundMessage(h, h.trim(text)))
  }

  /** A turn as it is built: trimmed, and pending when it yielded or says that work goes on. */
  predicate Genuine(h: Heuristics, turn: Turn) {
    h.trim(turn.text) == turn.text && (turn.backgroundPending <==> turn.yielded || BackgroundMessage(h, turn.text))
  }

  function LastTurn(h: Heuristics, latest: Option<Message>): (r: Turn)
    ensures Genuine(h, r)
  {
    if latest.None? then BuildTurn(h, "", []) else BuildTurn(h, latest.value.text, latest.value.toolCalls)
  }

  predicate PendingTurn(h: Heuristics, turn: Turn) {
    turn.backgroundPending || StillWaiting(h, turn.text)
  }

  /** A turn a result may be taken from. */
  predicate Final(h: Heuristics, turn: Turn) {
    turn.text != "" && !turn.backgroundPending && !StillWaiting(h, turn.text)
  }

  /** What all three probes accept. */
  predicate ProbeAccepts(h: Heuristics, turn: Turn) {
    Final(h, turn) && !h.saysRateLimit(turn.text)
  }

  // ---------------------------------------------------------------- messages

  /** The session's last message says that work goes on: by a tool call, or by its text. */
  predicate Unfinished(h: Heuristics, m: Message) {
    || (exists k :: 0 <= k < |m.toolCalls| && h.toolName(m.toolCalls[k]) == "sessions_yield")
    || h.trim(m.text) == "" || h.trim(m.text) == "TEAMCLAW_STILL_WAITING"
    || h.saysWaiting(h.trim(m.text)) || h.saysBackground(h.trim(m.text))
  }

  lemma {:induction false} ToolNamesAre(h: Heuristics, toolCalls: seq<string>, name: string)
    requires name != ""
    ensures name in ToolNames(h, toolCalls) <==> exists k :: 0 <= k < |toolCalls| && h.toolName(toolCalls[k]) == name
  {
    if toolCalls != [] {
      ToolNamesAre(h, toolCalls[1..], name);
      if k :| 0 <= k < |toolCalls| && h.toolName(toolCalls[k]) == name {
        assert k > 0 ==> toolCalls[1..][k - 1] == toolCalls[k];
      }
      if name in ToolNames(h, toolCalls[1..]) {
        var k :| 0 <= k < |toolCalls[1..]| && h.toolName(toolCalls[1..][k]) == name;
        assert toolCalls[k + 1] == toolCalls[1..][k];
      }
    }
  }

  /** A turn is final exactly if its message does not say that work goes on; without a message there is none. */
  lemma FinalIff(h: Heuristics, latest: Option<Message>)
    ensures Final(h, LastTurn(h, latest)) <==> latest.Some? && !Unfinished(h, latest.value)
    ensures latest.Some? ==> LastTurn(h, latest).text == h.trim(latest.value.text)
  {
    if latest.Some? {
      ToolNamesAre(h, latest.value.toolCalls, "sessions_yield");
      assert h.trim(h.trim(latest.value.text)) == h.trim(latest.value.text);
    }
  }

  /** At this moment the session's last message was finished, and its text was this. */
  predicate Shows(h: Heuristics, m: Moment, text: string) {
    m.latest.Some? && !Unfinished(h, m.latest.value) && h.trim(m.latest.value.text) == text
  }

  /** A turn is never accepted for its text alone being final: it is one the session really ended with. */
  predicate Accepted(h: Heuristics, turn: Turn) {
    Genuine(h, turn) && ProbeAccepts(h, turn)
  }

  // ---------------------------------------------------------------- idempotency keys

  datatype Kind = RateLimit | Background | Inactivity

  function KindName(kind: Kind): string {
    match kind
    case RateLimit => "rate-limit-probe"
    case Background => "background-work-probe"
    case Inactivity => "inactivity-probe"
  }

  function ProbeKey(base: string, kind: Kind, count: nat): string {
    base + ":" + KindName(kind) + ":" + Decimal(count)
  }

  /** The key of a probe, word for word. */
  lemma ProbeKeySpelled(base: string, count: nat)
    ensures ProbeKey(base, RateLimit, count) == base + ":rate-limit-probe:" + Decimal(count)
    ensures ProbeKey(base, Background, count) == base + ":background-work-probe:" + Decimal(count)
    ensures ProbeKey(base, Inactivity, count) == base + ":inactivity-probe:" + Decimal(count)
  {
    RateLimitInfix();
    BackgroundInfix();
    InactivityInfix();
    KeyParts(base, KindName(RateLimit), Decimal(count));
    KeyParts(base, KindName(Background), Decimal(count));
    KeyParts(base, KindName(Inactivity), Decimal(count));
  }

  function Infix(name: string): string {
    ":" + name + ":"
  }

  lemma RateLimitInfix()
    ensures Infix(KindName(RateLimit)) == ":rate-limit-probe:"
  {
  }

  lemma BackgroundInfix()
    ensures Infix(KindName(Background)) == ":background-work-probe:"
  {
  }

  lemma InactivityInfix()
    ensures Infix(KindName(Inactivity)) == ":inactivity-probe:"
  {
  }

  lemma KeyParts(base: string, name: string, number: string)
    ensures base + ":" + name + ":" + number == base + Infix(name) + number
  {
    assert base + ":" + name + ":" == base + Infix(name);
  }

  lemma ProbeKeyInjective(base: string, kind: Kind, count: nat, kind': Kind, count': nat)
    requires ProbeKey(base, kind, count) == ProbeKey(base, kind', count')
    ensures kind == kind' && count == count'
  {
    var a, b := ProbeKey(base, kind, count), ProbeKey(base, kind', count');
    assert a[|base| + 1] == KindName(kind)[0] && b[|base| + 1] == KindName(kind')[0];
    var n := |base| + 1 + |KindName(kind)| + 1;
    assert a[n..] == Decimal(count) && b[n..] == Decimal(count');
    DecimalInjective(count, count');
  }

  function ProbeKeys(base: string, probes: seq<(Kind, nat)>): seq<string> {
    seq(|probes|, i requires 0 <= i < |probes| => ProbeKey(base, probes[i].0, probes[i].1))
  }

  /** Every key handed to the runtime: the run's own, when there is one, and one per probe. */
  function KeysUsed(own: Option<string>, base: string, probes: seq<(Kind, nat)>): seq<string> {
    (if own.Some? then [own.value] else []) + ProbeKeys(base, probes)
  }

  lemma KeysNeverRepeat(own: Option<string>, base: string, probes: seq<(Kind, nat)>)
    requires NoRepeats(probes) && (own.Some? ==> own.value == base)
    ensures NoRepeats(KeysUsed(own, base, probes))
  {
    ProbeKeysNeverRepeat(base, probes);
    if own.Some? {
      NoRepeatsCons(base, ProbeKeys(base, probes));
    } else {
      assert [] + ProbeKeys(base, probes) == ProbeKeys(base, probes);
    }
  }

  lemma NoRepeatsCons<T>(x: T, xs: seq<T>)
    requires NoRepeats(xs) && x !in xs
    ensures NoRepeats([x] + xs)
  {
  }

  lemma ProbeKeysNeverRepeat(base: string, probes: seq<(Kind, nat)>)
    requires NoRepeats(probes)
    ensures NoRepeats(ProbeKeys(base, probes)) && base !in ProbeKeys(base, probes)
  {
    var keys := ProbeKeys(base, probes);
    forall i, j | 0 <= i < j < |keys| ensures keys[i] != keys[j] {
      ProbesUseOtherKeys(base, probes, i, j);
    }
    forall i | 0 <= i < |keys| ensures keys[i] != base {
      assert |keys[i]| > |base|;
    }
  }

  lemma ProbesUseOtherKeys(base: string, probes: seq<(Kind, nat)>, i: nat, j: nat)
    requires NoRepeats(probes) && i < j < |probes|
    ensures ProbeKey(base, probes[i].0, probes[i].1) != ProbeKey(base, probes[j].0, probes[j].1)
  {
    assert probes[i] != probes[j];
    if ProbeKey(base, probes[i].0, probes[i].1) == ProbeKey(base, probes[j].0, probes[j].1) {
      ProbeKeyInjective(base, probes[i].0, probes[i].1, probes[j].0, probes[j].1);
    }
  }

  function CountOf(kind: Kind, rateLimit: nat, background: nat, inactivity: nat): nat {
    match kind
    case RateLimit => rateLimit
    case Background => background
    case Inactivity => inactivity
  }

  /** No probe repeats, and none has a number its counter has not reached. */
  predicate Fresh(probes: seq<(Kind, nat)>, rateLimit: nat, background: nat, inactivity: nat) {
    && NoRepeats(probes)
    && forall i :: 0 <= i < |probes| ==> probes[i].1 <= CountOf(probes[i].0, rateLimit, background, inactivity)
  }

  lemma OneMoreProbe(probes: seq<(Kind, nat)>, rateLimit: nat, background: nat, inactivity: nat, kind: Kind)
    requires Fresh(probes, rateLimit, background, inactivity)
    ensures var count := CountOf(kind, rateLimit, background, inactivity) + 1;
            Fresh(probes + [(kind, count)],
                  if kind.RateLimit? then count else rateLimit,
                  if kind.Background? then count else background,
                  if kind.Inactivity? then count else inactivity)
  {
  }

  // ---------------------------------------------------------------- one execution

  datatype WaitState = WaitState(active: bool, nextProbeAt: Option<int>, probeCount: nat)

  /** What a probe run ended with, and the turn read after a successful one. */
  datatype Probed = Probed(status: WaitStatus, turn: Option<Turn>)

  /** How the main run ended; `found` is the result text when a probe found it first. */
  datatype Ended = Ended(status: WaitStatus, found: Option<string>)

  class Execution {
    const h: Heuristics
    const script: seq<Moment>
    const taskTimeoutMs: int
    /** the idempotency key of the run, when the caller gave one, and the prefix of the probe keys */
    const ownKey: Option<string>
    const keyBase: string
    /** how much of the script is used up, and the clock of the last moment */
    var at: nat
    var now: int
    var latest: Option<Message>
    var rateLimit: WaitState
    var background: WaitState
    var inactivity: WaitState
    var probes: seq<(Kind, nat)>
    /** the moments of the waits for the main run, and how the last probe run ended */
    ghost var waits: seq<nat>
    ghost var lastProbe: WaitStatus

    constructor (h: Heuristics, script: seq<Moment>, taskTimeoutMs: int, startedAt: int, ownKey: Option<string>, taskId: string)
      ensures this.h == h && this.script == script && this.ownKey == ownKey && at == 0 && probes == [] && waits == [] && Valid()
    {
      this.h, this.script, this.taskTimeoutMs := h, script, taskTimeoutMs;
      this.ownKey, keyBase := ownKey, if ownKey.Some? then ownKey.value else "teamclaw-" + taskId;
      at, now, latest, probes := 0, startedAt, None, [];
      rateLimit := WaitState(false, None, 0);
      background := WaitState(false, None, 0);
      inactivity := WaitState(false, Some(startedAt + taskTimeoutMs), 0);
      waits, lastProbe := [], Timeout;
    }

    ghost predicate Valid()
      reads this
    {
      && (ownKey.Some? ==> ownKey.value == keyBase)
      && at <= |script| && (at > 0 ==> latest == script[at - 1].latest)
      && Fresh(probes, rateLimit.probeCount, background.probeCount, inactivity.probeCount)
    }

    /** The text is what some last message of the session says. */
    ghost predicate Seen(text: string)
      reads this
      requires at <= |script|
    {
      exists i :: 0 <= i < at && Shows(h, script[i], text)
    }

    /** The last wait for the main run brought this status. */
    ghost predicate RunEndedWith(status: WaitStatus)
      reads this
    {
      waits != [] && waits[|waits| - 1] < at <= |script| && script[waits[|waits| - 1]].status == status && !script[waits[|waits| - 1]].throws
    }

    /** The wait brought nothing to end on: a timeout, a rate limit, or nothing at all. */
    predicate WentOn(w: nat) {
      w < |script| ==> script[w].throws || script[w].status.Timeout? || (script[w].status.Error? && h.saysRateLimit(script[w].status.message))
    }

    /** The main run is waited for until it ends: all waits but perhaps the last went on. */
    ghost predicate WaitedOn(all: bool)
      reads this
    {
      forall k :: 0 <= k < |waits| && (all || k < |waits| - 1) ==> WentOn(waits[k])
    }

    /** The last probe run succeeded, and the session's last message is finished and no rate-limit report. */
    predicate Answered(status: WaitStatus)
      reads this
    {
      status.Ok? && latest.Some? && !Unfinished(h, latest.value) && !h.saysRateLimit(h.trim(latest.value.text))
    }

    /** A stop is real: the script is used up, or its last used moment threw. */
    ghost predicate Stopped(threw: bool)
      reads this
    {
      if threw then 0 < at <= |script| && script[at - 1].throws else at == |script|
    }

    // -------------------------------------------------------------- awaiting the runtime

    /** Any await. Meanwhile the poller may have marked or cleared the rate limit and noted activity. */
    method Await() returns (r: Flow<Moment>)
      requires Valid()
      modifies this
      ensures Valid() && unchanged(`probes) && unchanged(`background) && unchanged(`waits) && unchanged(`lastProbe)
      ensures at >= old(at) && (r.Stop? ==> Stopped(r.threw))
      ensures r.Stop? && !r.threw ==> old(at) == |script|
      ensures r.Stop? && r.threw ==> old(at) < |script| && script[old(at)].throws
      ensures r.Go? ==> at == old(at) + 1 && r.value == script[old(at)] && !r.value.throws && latest == r.value.latest
    {
      if at == |script| {
        return Stop(false);
      }
      var m := script[at];
      at, now, latest := at + 1, m.now, m.latest;
      if m.rateLimited {
        MarkRateLimit();
      } else if rateLimit.active {
        ClearRateLimit();
      }
      if m.activity {
        NoteActivity();
      }
      if m.throws {
        return Stop(true);
      }
      return Go(m);
    }

    method MarkRateLimit()
      modifies `rateLimit
      // the first report of a rate limit puts the probe off by five minutes
      ensures rateLimit == if old(rateLimit).active then old(rateLimit) else WaitState(true, Some(now + 300000), old(rateLimit).probeCount)
    {
      if !rateLimit.active {
        rateLimit := rateLimit.(active := true, nextProbeAt := Some(now + RATE_LIMIT_STALL_PROBE_MS));
      }
    }

    method MarkBackgroundWork()
      modifies `background
      // the first sign of background work puts its probe off by one minute
      ensures background == if old(background).active then old(background) else WaitState(true, Some(now + 60000), old(background).probeCount)
    {
      if !background.active {
        background := background.(active := true, nextProbeAt := Some(now + BACKGROUND_WORK_PROBE_MS));
      }
    }

    method ClearRateLimit()
      modifies `rateLimit
      ensures rateLimit == WaitState(false, None, old(rateLimit).probeCount)
    {
      rateLimit := rateLimit.(active := false, nextProbeAt := None);
    }

    method NoteActivity()
      modifies `inactivity
      ensures inactivity == WaitState(false, Some(now + taskTimeoutMs), old(inactivity).probeCount)
    {
      inactivity := inactivity.(active := false, nextProbeAt := Some(now + taskTimeoutMs));
    }

    /** The last assistant turn; an empty one is fetched once more. */
    method ExtractTurn() returns (r: Flow<Turn>)
      requires Valid() && at > 0
      modifies this
      ensures Valid() && unchanged(`probes) && unchanged(`background) && unchanged(`waits) && unchanged(`lastProbe)
      ensures at >= old(at) && (r.Stop? ==> Stopped(r.threw))
      ensures r.Go? ==> r.value == LastTurn(h, latest)
    {
      var turn := LastTurn(h, latest);
      if turn.text == "" && !turn.backgroundPending {
        var m :- Await();
        turn := LastTurn(h, latest);
      }
      return Go(turn);
    }

    // -------------------------------------------------------------- probes

    /** The probe is counted and gets a fresh number; the next one of its kind is put off. */
    method CountProbe(kind: Kind)
      requires Valid()
      modifies `rateLimit, `background, `inactivity, `probes
      ensures Valid() && (!kind.Background? ==> unchanged(`background))
      ensures |probes| == |old(probes)| + 1 && probes[..|old(probes)|] == old(probes) && probes[|old(probes)|].0 == kind
      // after a rate limit in five minutes, in the background after one, in silence after the task's own timeout
      ensures rateLimit == if kind.RateLimit? then WaitState(old(rateLimit).active, Some(now + 300000), old(rateLimit).probeCount + 1) else old(rateLimit)
      ensures background == if kind.Background? then WaitState(old(background).active, Some(now + 60000), old(background).probeCount + 1) else old(background)
      ensures inactivity == if kind.Inactivity? then WaitState(true, Some(now + taskTimeoutMs), old(inactivity).probeCount + 1) else old(inactivity)
      ensures probes[|old(probes)|].1 == CountOf(kind, rateLimit.probeCount, background.probeCount, inactivity.probeCount)
    {
      OneMoreProbe(probes, rateLimit.probeCount, background.probeCount, inactivity.probeCount, kind);
      var count := CountOf(kind, rateLimit.probeCount, background.probeCount, inactivity.probeCount) + 1;
      match kind {
        case RateLimit =>
          rateLimit := WaitState(rateLimit.active, Some(now + RATE_LIMIT_STALL_PROBE_MS), count);
        case Background =>
          background := WaitState(background.active, Some(now + BACKGROUND_WORK_PROBE_MS), count);
        case Inactivity =>
          inactivity := WaitState(true, Some(now + taskTimeoutMs), count);
      }
      probes := probes + [(kind, count)];
    }

    /** The part the probes share: count, send under a fresh key, wait, sync, and read the turn. */
    method SendProbe(kind: Kind) returns (r: Flow<Probed>)
      requires Valid()
      modifies this
      ensures Valid() && (!kind.Background? ==> unchanged(`background))
      ensures |probes| == |old(probes)| + 1 && probes[..|old(probes)|] == old(probes) && probes[|old(probes)|].0 == kind
      ensures unchanged(`waits) && (r.Go? ==> r.value.status == lastProbe)
      ensures at >= old(at) && (r.Stop? ==> Stopped(r.threw))
      ensures r.Go? ==> (r.value.status.Ok? <==> r.value.turn.Some?)
      ensures r.Go? && r.value.turn.Some? ==> r.value.turn.value == LastTurn(h, latest) && Genuine(h, r.value.turn.value)
    {
      CountProbe(kind);
      var sent :- Await();             // subagent.run with the probe key
      var waited :- Await();           // waitForRun
      var synced := Await();           // syncSessionProgress; its own exceptions are swallowed
      if synced.Stop? && !synced.threw {
        return synced.PropagateFailure();
      }
      lastProbe := waited.status;
      if !waited.status.Ok? {
        return Go(Probed(waited.status, None));
      }
      var turn :- ExtractTurn();
      return Go(Probed(waited.status, Some(turn)));
    }

    method ProbeRateLimited() returns (r: Flow<Option<Turn>>)
      requires Valid()
      modifies this
      ensures Valid() && unchanged(`background)
      ensures at >= old(at) && (r.Stop? ==> Stopped(r.threw))
      ensures r.Go? && r.value.Some? ==> Accepted(h, r.value.value) && r.value.value == LastTurn(h, latest)
      // exactly an answer to the probe is accepted, and only one probe is sent
      ensures r.Go? ==> (r.value.Some? <==> Answered(lastProbe))
      ensures |probes| == |old(probes)| + 1 && probes[..|old(probes)|] == old(probes) && probes[|old(probes)|].0 == RateLimit && unchanged(`waits)
    {
      var probe :- SendProbe(RateLimit);
      FinalIff(h, latest);
      if probe.turn.None? || !ProbeAccepts(h, probe.turn.value) {
        return Go(None);
      }
      ClearRateLimit();
      return Go(probe.turn);
    }

    method ProbeBackground() returns (r: Flow<Option<Turn>>)
      requires Valid()
      modifies this
      ensures Valid()
      ensures at >= old(at) && (r.Stop? ==> Stopped(r.threw))
      ensures r.Go? && r.value.Some? ==> Accepted(h, r.value.value) && r.value.value == LastTurn(h, latest)
      // exactly an answer to the probe is accepted, and only one probe is sent
      ensures r.Go? ==> (r.value.Some? <==> Answered(lastProbe))
      ensures |probes| == |old(probes)| + 1 && probes[..|old(probes)|] == old(probes) && probes[|old(probes)|].0 == Background && unchanged(`waits)
    {
      var probe :- SendProbe(Background);
      FinalIff(h, latest);
      if probe.turn.None? {
        if probe.status.Error? && h.saysRateLimit(probe.status.message) {
          MarkRateLimit();
        }
        return Go(None);
      }
      if !ProbeAccepts(h, probe.turn.value) {
        return Go(None);
      }
      background := background.(active := false, nextProbeAt := None);
      return Go(probe.turn);
    }

    method ProbeInactive() returns (r: Flow<Option<Turn>>)
      requires Valid()
      modifies this
      ensures Valid() && unchanged(`background)
      ensures at >= old(at) && (r.Stop? ==> Stopped(r.threw))
      ensures r.Go? && r.value.Some? ==> Accepted(h, r.value.value) && r.value.value == LastTurn(h, latest)
      // exactly an answer to the probe is accepted, and only one probe is sent
      ensures r.Go? ==> (r.value.Some? <==> Answered(lastProbe))
      ensures |probes| == |old(probes)| + 1 && probes[..|old(probes)|] == old(probes) && probes[|old(probes)|].0 == Inactivity && unchanged(`waits)
    {
      var probe :- SendProbe(Inactivity);
      FinalIff(h, latest);
      if probe.turn.None? {
        if probe.status.Error? && h.saysRateLimit(probe.status.message) {
          MarkRateLimit();
        }
        return Go(None);
      }
      if !ProbeAccepts(h, probe.turn.value) {
        inactivity := inactivity.(active := false, nextProbeAt := Some(now + taskTimeoutMs));
        return Go(None);
      }
      if rateLimit.active {
        ClearRateLimit();
      }
      NoteActivity();
      return Go(probe.turn);
    }

    // -------------------------------------------------------------- the two waiting loops

    predicate RateLimitDue()
      reads this
    {
      rateLimit.active && rateLimit.nextProbeAt.Some? && rateLimit.nextProbeAt.value <= now
    }

    predicate InactivityDue()
      reads this
    {
      !rateLimit.active && !background.active && inactivity.nextProbeAt.Some? && inactivity.nextProbeAt.value <= now
    }

    /** The rate-limit probe, or the inactivity probe, when it is due. */
    method ProbeIfDue() returns (r: Flow<Option<Turn>>)
      requires Valid()
      modifies this
      ensures Valid() && unchanged(`background)
      ensures at >= old(at) && (r.Stop? ==> Stopped(r.threw))
      ensures r.Go? && r.value.Some? ==> Accepted(h, r.value.value) && r.value.value == LastTurn(h, latest)
      ensures r.Go? && r.value.Some? ==> Answered(lastProbe)
      // a probe is sent when it is due, and only then
      ensures unchanged(`waits) && old(probes) <= probes
      ensures old(RateLimitDue()) ==> |probes| > |old(probes)| && probes[|old(probes)|].0 == RateLimit
      ensures !old(RateLimitDue()) && old(InactivityDue()) ==> |probes| == |old(probes)| + 1 && probes[|old(probes)|].0 == Inactivity
      ensures !old(RateLimitDue()) && !old(InactivityDue()) ==> r == Go(None) && probes == old(probes) && at == old(at)
    {
      if rateLimit.active && rateLimit.nextProbeAt.Some? && rateLimit.nextProbeAt.value <= now {
        var turn :- ProbeRateLimited();
        if turn.Some? {
          return Go(turn);
        }
      }
      if !rateLimit.active && !background.active && inactivity.nextProbeAt.Some? && inactivity.nextProbeAt.value <= now {
        r := ProbeInactive();
        return;
      }
      return Go(None);
    }

    /** Until the run ends or a probe finds the result: `Ok` with the probe's text, if any, or the run's error. */
    method WaitForRun() returns (r: Flow<Ended>)
      requires Valid() && at > 0 && waits == []
      modifies this
      ensures Valid()
      ensures at >= old(at) && (r.Stop? ==> Stopped(r.threw))
      ensures r.Go? ==> !r.value.status.Timeout?
      ensures r.Go? && r.value.status.Error? ==> !h.saysRateLimit(r.value.status.message) && r.value.found.None?
      // every wait but the last went on; the last one ended it, unless a probe found the result first
      ensures r.Go? && r.value.found.None? ==> RunEndedWith(r.value.status) && WaitedOn(false)
      ensures r.Stop? || r.value.found.Some? ==> WaitedOn(true)
      ensures r.Go? && r.value.found.Some? ==> ProbeText(h, r.value.found.value) && at > 0 && Shows(h, script[at - 1], r.value.found.value)
    {
      while true
        invariant Valid() && at >= old(at) && WaitedOn(true)
        decreases |script| - at
      {
        var turn :- ProbeIfDue();
        if turn.Some? {
          AcceptedText(h, turn.value);
          FinalIff(h, latest);
          return Go(Ended(Ok, Some(turn.value.text)));
        }
        var ended :- WaitOnce();
        if ended.Some? {
          return Go(ended.value);
        }
      }
    }

    /** One wait for the run; nothing comes of it if the run goes on, or when its error is a rate limit. */
    method WaitOnce() returns (r: Flow<Option<Ended>>)
      requires Valid() && WaitedOn(true)
      modifies this
      ensures Valid() && at >= old(at) && (r.Stop? ==> Stopped(r.threw))
      ensures r.Go? ==> at == old(at) + 1
      ensures r.Go? && r.value.Some? ==> r.value.value.found.None? && RunEndedWith(r.value.value.status) && WaitedOn(false)
      ensures r.Go? && r.value.Some? ==>
                var status := r.value.value.status;
                !status.Timeout? && (status.Error? ==> !h.saysRateLimit(status.message))
      ensures r.Stop? || r.value.None? ==> WaitedOn(true)
    {
      waits := waits + [at];
      var m :- Await();
      match m.status {
        case Ok => return Go(Some(Ended(Ok, None)));
        case Error(message) =>
          if !h.saysRateLimit(message) {
            return Go(Some(Ended(m.status, None)));
          }
          MarkRateLimit();
        case Timeout =>
      }
      return Go(None);
    }

    /** A turn that ended with background work still running is probed until a final one shows. */
    method WaitForBackgroundWork(first: Turn) returns (r: Flow<Turn>)
      requires Valid() && at > 0 && Genuine(h, first)
      modifies this
      ensures Valid()
      ensures unchanged(`waits)
      ensures at >= old(at) && (r.Stop? ==> Stopped(r.threw))
      ensures r.Go? ==> Final(h, r.value) && Genuine(h, r.value) && ((r.value == first && at == old(at)) || r.value == LastTurn(h, latest))
      ensures !PendingTurn(h, first) ==> r == Go(first)
    {
      var turn := first;
      while PendingTurn(h, turn)
        invariant unchanged(`waits) && Valid() && at >= old(at) && Genuine(h, turn) && ((turn == first && at == old(at)) || turn == LastTurn(h, latest))
        invariant !PendingTurn(h, first) ==> turn == first
        decreases |script| - at
      {
        MarkBackgroundWork();
        var slept :- Await();
        var probed :- ProbeBackground();
        if probed.Some? {
          return Go(probed.value);
        }
        turn :- ExtractTurn();
      }
      return Go(turn);
    }

    /** After the run: the probe's text or the session's last turn, once it is final. */
    method FinalTurn(found: Option<string>) returns (r: Flow<Turn>)
      requires Valid() && at > 0 && (found.Some? ==> ProbeText(h, found.value))
      modifies this
      ensures Valid()
      ensures unchanged(`waits)
      ensures at >= old(at) && (r.Stop? ==> Stopped(r.threw))
      ensures r.Go? ==> Final(h, r.value) && Genuine(h, r.value) && (found.None? ==> at > 0 && Shows(h, script[at - 1], r.value.text))
      ensures found.Some? ==> r.Go? && r.value.text == found.value
    {
      var turn: Turn;
      if found.Some? {
        turn := BuildTurn(h, found.value, []);
      } else {
        turn :- ExtractTurn();
      }
      turn :- WaitForBackgroundWork(turn);
      FinalIff(h, latest);
      if rateLimit.active {
        ClearRateLimit();
      }
      return Go(turn);
    }

    /** The whole execution. */
    method Run() returns (o: Outcome)
      requires Valid() && at == 0 && probes == [] && waits == []
      modifies this
      ensures Valid()
      // a result is only ever taken from a final turn the session really showed: its text, or the contract in it
      ensures o.Completed? ==> Final(h, o.turn) && Genuine(h, o.turn) && Seen(o.turn.text)
      ensures o.Completed? ==> o.text != "" && o.text == ResultText(h, o.turn.text)
      ensures o.Completed? ==> WaitedOn(true) || (WaitedOn(false) && RunEndedWith(Ok))
      // failure means: the last wait for the main run brought an error that is no rate limit
      ensures o.RunFailed? ==> !h.saysRateLimit(o.error) && RunEndedWith(Error(o.error))
      // otherwise it goes on, as long as the runtime does
      ensures o.StillRunning? ==> at == |script|
      ensures o.RuntimeThrew? ==> 0 < at <= |script| && script[at - 1].throws
      // no two runs were started under one idempotency key
      ensures NoRepeats(KeysUsed(ownKey, keyBase, probes))
    {
      var flow := RunToEnd();
      KeysNeverRepeat(ownKey, keyBase, probes);
      return if flow.Go? then flow.value else if flow.threw then RuntimeThrew else StillRunning;
    }

    method RunToEnd() returns (r: Flow<Outcome>)
      requires Valid() && at == 0 && probes == [] && waits == []
      modifies this
      ensures Valid()
      ensures at >= old(at) && (r.Stop? ==> Stopped(r.threw))
      ensures r.Go? ==> r.value.Completed? || r.value.RunFailed?
      ensures r.Go? && r.value.Completed? ==> Final(h, r.value.turn) && Genuine(h, r.value.turn) && Seen(r.value.turn.text)
      ensures r.Go? && r.value.Completed? ==>
                r.value.text != "" && r.value.text == ResultText(h, r.value.turn.text)
      ensures r.Go? && r.value.Completed? ==> WaitedOn(true) || (WaitedOn(false) && RunEndedWith(Ok))
      ensures r.Go? && r.value.RunFailed? ==> !h.saysRateLimit(r.value.error) && RunEndedWith(Error(r.value.error))
    {
      var started :- Await();
      var run :- WaitForRun();
      var synced := Await();           // final sync; its own exceptions are swallowed
      if synced.Stop? && !synced.threw {
        return synced.PropagateFailure();
      }
      if run.status.Error? {
        return Go(RunFailed(run.status.message));
      }
      var turn :- FinalTurn(run.found);
      var contract := h.contractText(turn.text);
      var text := if contract.Some? && contract.value != "" then contract.value else turn.text;
      return Go(Completed(text, turn));
    }
  }

  /** The text of the result contract in a final text, else that text. */
  function ResultText(h: Heuristics, text: string): string {
    match h.contractText(text)
    case Some(cleaned) => if cleaned != "" then cleaned else text
    case None => text
  }

  /** The text of a probe that was accepted. */
  predicate ProbeText(h: Heuristics, text: string) {
    h.trim(text) == text && Final(h, BuildTurn(h, text, []))
  }

  lemma AcceptedText(h: Heuristics, turn: Turn)
    requires Accepted(h, turn)
    ensures ProbeText(h, turn.text)
  {
    PlainTurn(h, turn.text);
  }

  lemma PlainTurn(h: Heuristics, text: string)
    requires h.trim(text) == text
    ensures BuildTurn(h, text, []) == Turn(text, [], false, BackgroundMessage(h, text))
  {
    assert ToolNames(h, []) == [];
  }
}
