/** `enqueueAtomicWrite`: serialized write-to-temp-and-rename, one queue per file. */
module WriteQueue {
  import opened Common
  import opened PromiseChain

  /** `original` is what a file held before the first write; absent when it did not exist. */
  datatype Files = Files(queue: Chains<string>, disk: map<string, string>, original: map<string, string>)

  /** Land is the rename of the finished temporary file, Fail any error before it. */
  datatype Step =
    | Enqueue(file: string, contents: string)
    | Begin(write: nat)
    | Land(write: nat)
    | Fail(write: nat)
    | Reap(write: nat)

  ghost predicate Next(s: Files, step: Step, t: Files) {
    match step
    case Enqueue(f, c) => t == s.(queue := s.queue.Enter(f, c))
    case Begin(i) => s.queue.CanStart(i) && t == s.(queue := s.queue.Start(i))
    case Land(i) =>
      && s.queue.IsRunning(i)
      && t == s.(queue := s.queue.Settle(i, true),
                 disk := s.disk[s.queue.tickets[i].key := s.queue.tickets[i].payload])
    case Fail(i) => s.queue.IsRunning(i) && t == s.(queue := s.queue.Settle(i, false))
    case Reap(i) => s.queue.Done(i) && t == s.(queue := s.queue.Reap(i))
  }

  class AtomicWriter {
    var files: Files

    constructor (disk: map<string, string>)
      ensures files == Files(Chains([], map[]), disk, disk) && Inv(files)
    {
      files := Files(Chains([], map[]), disk, disk);
    }

    /** `enqueueAtomicWrite` up to its return: chain behind the table's promise and replace it. */
    method EnqueueWrite(file: string, contents: string) returns (write: nat)
      requires Inv(files)
      modifies this
      ensures Inv(files) && Next(old(files), Enqueue(file, contents), files) && write == |old(files).queue.tickets|
    {
      StepKeepsInv(files, Enqueue(file, contents), files.(queue := files.queue.Enter(file, contents)));
      var q := files.queue;
      write := |q.tickets|;
      var previous := if file in q.table then Some(q.table[file]) else None;
      files := files.(queue := Chains(q.tickets + [Ticket(file, previous, contents, Waiting)], q.table[file := write]));
    }

    /** `writeFileAtomically` once its turn came: write the temporary file, rename it; either may fail. */
    method WriteFileAtomically(write: nat) returns (ok: bool)
      requires Inv(files) && files.queue.CanStart(write)
      modifies this
      ensures Inv(files) && files.queue.Done(write) && files.queue.table == old(files).queue.table
      ensures ok ==> OnDisk(files, files.queue.tickets[write].key) == Some(files.queue.tickets[write].payload)
      ensures !ok ==> files.disk == old(files).disk
      ensures forall f :: f != files.queue.tickets[write].key ==> OnDisk(files, f) == OnDisk(old(files), f)
    {
      var started := files.(queue := files.queue.Start(write));
      StepKeepsInv(files, Begin(write), started);
      files := started;
      ok := *;
      var settled := files.(queue := files.queue.Settle(write, ok));
      if ok {
        settled := settled.(disk := files.disk[files.queue.tickets[write].key := files.queue.tickets[write].payload]);
        StepKeepsInv(files, Land(write), settled);
      } else {
        StepKeepsInv(files, Fail(write), settled);
      }
      files := settled;
    }

    /** The finally handler of the returned promise: drop the table entry when it is still this write's. */
    method ForgetWrite(write: nat)
      requires Inv(files) && files.queue.Done(write)
      modifies this
      ensures Inv(files) && Next(old(files), Reap(write), files) && files.disk == old(files).disk
    {
      StepKeepsInv(files, Reap(write), files.(queue := files.queue.Reap(write)));
      var q := files.queue;
      var file := q.tickets[write].key;
      if file in q.table && q.table[file] == write {
        files := files.(queue := Chains(q.tickets, q.table - {file}));
      }
    }
  }

  /** What a file holds by the calls alone: the newest successful write, else what was there before. */
  function Expected(tickets: seq<Ticket<string>>, original: map<string, string>, file: string): Option<string> {
    if tickets == [] then (if file in original then Some(original[file]) else None)
    else
      var last := tickets[|tickets| - 1];
      if last.key == file && last.phase == Settled(true) then Some(last.payload)
      else Expected(tickets[..|tickets| - 1], original, file)
  }

  function OnDisk(s: Files, file: string): Option<string> {
    if file in s.disk then Some(s.disk[file]) else None
  }

  ghost predicate Inv(s: Files) {
    s.queue.Valid() && forall f :: OnDisk(s, f) == Expected(s.queue.tickets, s.original, f)
  }

  /** Only calls that land change what is expected of a file. */
  lemma {:induction false} ExpectedIgnores(ts: seq<Ticket<string>>, us: seq<Ticket<string>>, original: map<string, string>, file: string)
    requires |ts| == |us|
    requires forall i :: 0 <= i < |ts| ==> ts[i].key == us[i].key && ts[i].payload == us[i].payload
    requires forall i :: 0 <= i < |ts| && ts[i].key == file ==> (ts[i].phase == Settled(true) <==> us[i].phase == Settled(true))
    ensures Expected(ts, original, file) == Expected(us, original, file)
  {
    if |ts| > 0 {
      ExpectedIgnores(ts[..|ts| - 1], us[..|us| - 1], original, file);
    }
  }

  /** A call that landed and has no later finished call for its file decides the content. */
  lemma {:induction false} ExpectedNewest(ts: seq<Ticket<string>>, original: map<string, string>, i: nat)
    requires i < |ts| && ts[i].phase == Settled(true)
    requires forall j :: i < j < |ts| && ts[j].key == ts[i].key ==> ts[j].phase != Settled(true)
    ensures Expected(ts, original, ts[i].key) == Some(ts[i].payload)
  {
    if i < |ts| - 1 {
      ExpectedNewest(ts[..|ts| - 1], original, i);
    }
  }

  lemma QueueStaysValid(s: Files, step: Step, t: Files)
    requires s.queue.Valid() && Next(s, step, t)
    ensures t.queue.Valid() && t.original == s.original
  {
    match step
    case Enqueue(f, c) => s.queue.EnterKeepsValid(f, c);
    case Begin(i) => s.queue.StartKeepsValid(i);
    case Land(i) => s.queue.SettleKeepsValid(i, true);
    case Fail(i) => s.queue.SettleKeepsValid(i, false);
    case Reap(i) => s.queue.ReapKeepsValid(i);
  }

  lemma LandedIsExpected(s: Files, i: nat, t: Files, f: string)
    requires s.queue.Valid() && Next(s, Land(i), t)
    requires OnDisk(s, f) == Expected(s.queue.tickets, s.original, f)
    ensures OnDisk(t, f) == Expected(t.queue.tickets, t.original, f)
  {
    var ts, us := s.queue.tickets, t.queue.tickets;
    if f == ts[i].key {
      ExpectedNewest(us, s.original, i);
    } else {
      ExpectedIgnores(ts, us, s.original, f);
    }
  }

  lemma FileStaysExpected(s: Files, step: Step, t: Files, f: string)
    requires s.queue.Valid() && Next(s, step, t)
    requires OnDisk(s, f) == Expected(s.queue.tickets, s.original, f)
    ensures OnDisk(t, f) == Expected(t.queue.tickets, t.original, f)
  {
    var ts, us := s.queue.tickets, t.queue.tickets;
    match step
    case Enqueue(_, _) =>
      assert us[..|us| - 1] == ts;
    case Land(i) => LandedIsExpected(s, i, t, f);
    case Begin(_) => ExpectedIgnores(ts, us, s.original, f);
    case Fail(_) => ExpectedIgnores(ts, us, s.original, f);
    case Reap(_) => assert ts == us;
  }

  lemma StepKeepsInv(s: Files, step: Step, t: Files)
    requires Inv(s) && Next(s, step, t)
    ensures Inv(t)
  {
    QueueStaysValid(s, step, t);
    forall f ensures OnDisk(t, f) == Expected(t.queue.tickets, t.original, f) {
      FileStaysExpected(s, step, t, f);
    }
  }

  ghost predicate Run(states: seq<Files>, steps: seq<Step>) {
    && |states| == |steps| + 1
    && states[0].queue == Chains([], map[]) && states[0].disk == states[0].original
    && forall i :: 0 <= i < |steps| ==> Next(states[i], steps[i], states[i + 1])
  }

  lemma {:induction false} RunKeepsInv(states: seq<Files>, steps: seq<Step>, n: nat)
    requires Run(states, steps) && n < |states|
    ensures Inv(states[n]) && states[n].original == states[0].original
  {
    if n > 0 {
      RunKeepsInv(states, steps, n - 1);
      StepKeepsInv(states[n - 1], steps[n - 1], states[n]);
    }
  }

  /** At every moment a file holds one complete enqueued content, or what it held originally. */
  lemma {:induction false} NeverTorn(ts: seq<Ticket<string>>, original: map<string, string>, file: string)
    ensures var e := Expected(ts, original, file);
            || e == (if file in original then Some(original[file]) else None)
            || exists i :: 0 <= i < |ts| && ts[i].key == file && ts[i].phase == Settled(true) && e == Some(ts[i].payload)
  {
    if ts != [] {
      var us := ts[..|ts| - 1];
      NeverTorn(us, original, file);
      if !(ts[|ts| - 1].key == file && ts[|ts| - 1].phase == Settled(true)) {
        var e := Expected(us, original, file);
        if e != (if file in original then Some(original[file]) else None) {
          var i :| 0 <= i < |us| && us[i].key == file && us[i].phase == Settled(true) && e == Some(us[i].payload);
          assert ts[i] == us[i];
        }
      } else {
        assert ts[|ts| - 1].key == file;
      }
    }
  }

  /**
    The write queue, over all runs: writes of a file never overlap and reach the disk in enqueue
    order, the disk is never torn, and a failed write leaves the next one free to start.
  */
  lemma WritesAreSerialized(states: seq<Files>, steps: seq<Step>, n: nat, i: nat)
    requires Run(states, steps) && n < |steps|
    requires steps[n] == Land(i) || steps[n] == Begin(i)
    ensures i < |states[n].queue.tickets|
    ensures forall j :: 0 <= j < |states[n].queue.tickets| && states[n].queue.tickets[j].key == states[n].queue.tickets[i].key ==>
              (j < i ==> states[n].queue.Done(j)) && (j > i ==> states[n].queue.tickets[j].phase.Waiting?)
  {
    RunKeepsInv(states, steps, n);
    assert Next(states[n], steps[n], states[n + 1]);
    if steps[n] == Begin(i) {
      states[n].queue.StartKeepsValid(i);
    }
  }

  lemma DiskIsNewestSuccess(states: seq<Files>, steps: seq<Step>, n: nat, file: string)
    requires Run(states, steps) && n < |states|
    ensures var s := states[n];
            || OnDisk(s, file) == OnDisk(states[0], file)
            || exists i :: 0 <= i < |s.queue.tickets| && s.queue.tickets[i].key == file
                           && s.queue.tickets[i].phase == Settled(true) && OnDisk(s, file) == Some(s.queue.tickets[i].payload)
    ensures forall i :: 0 <= i < |states[n].queue.tickets| && !states[n].queue.Done(i) ==>
              exists j :: 0 <= j <= i && states[n].queue.tickets[j].key == states[n].queue.tickets[i].key
                          && (states[n].queue.IsRunning(j) || states[n].queue.CanStart(j))
  {
    var s := states[n];
    RunKeepsInv(states, steps, n);
    NeverTorn(s.queue.tickets, s.original, file);
    forall i | 0 <= i < |s.queue.tickets| && !s.queue.Done(i)
      ensures exists j :: 0 <= j <= i && s.queue.tickets[j].key == s.queue.tickets[i].key && (s.queue.IsRunning(j) || s.queue.CanStart(j))
    {
      s.queue.NeverStuck(i);
    }
  }

  /** When the newest call for a file succeeded, the file holds that call's content. */
  lemma LastWriteWins(states: seq<Files>, steps: seq<Step>, n: nat, i: nat)
    requires Run(states, steps) && n < |states|
    requires i < |states[n].queue.tickets| && states[n].queue.Newest(i)
    requires states[n].queue.tickets[i].phase == Settled(true)
    ensures OnDisk(states[n], states[n].queue.tickets[i].key) == Some(states[n].queue.tickets[i].payload)
  {
    RunKeepsInv(states, steps, n);
    ExpectedNewest(states[n].queue.tickets, states[n].original, i);
  }
}
