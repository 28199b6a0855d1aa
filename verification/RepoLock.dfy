/** `withRepoLock`: the per-repository lock of the git operations. */
module RepoLock {
  import opened Common
  import opened PromiseChain

  /** The two awaits split a call in three: queue up, get the lock, finish (by returning or throwing). */
  datatype Step = Call(key: string) | Acquire(caller: nat) | Finish(caller: nat, ok: bool)

  type Locks = Chains<()>

  ghost predicate Next(s: Locks, step: Step, t: Locks) {
    match step
    case Call(k) => t == s.Enter(k, ())
    case Acquire(i) => s.CanStart(i) && t == s.Start(i)
    // release() and the table clean-up run without an await in between
    case Finish(i, ok) => s.IsRunning(i) && t == s.Settle(i, ok).Reap(i)
  }

  /** A key is in the table exactly while some caller holds its lock or waits for it. */
  ghost predicate TableExact(s: Locks) {
    forall k :: k in s.table <==> exists i :: 0 <= i < |s.tickets| && s.tickets[i].key == k && !s.Done(i)
  }

  ghost predicate Inv(s: Locks) {
    s.Valid() && forall k :: k in s.table ==> !s.Done(s.table[k])
  }

  class LockTable {
    var locks: Locks

    constructor ()
      ensures locks == Chains([], map[]) && Inv(locks)
    {
      locks := Chains([], map[]);
    }

    /** Up to the await: take the table's promise as prior and leave one's own there. */
    method Call(key: string) returns (caller: nat)
      requires Inv(locks)
      modifies this
      ensures Inv(locks) && Next(old(locks), Step.Call(key), locks)
      ensures caller == |old(locks).tickets| && caller < |locks.tickets|
    {
      StepKeepsInv(locks, Step.Call(key), locks.Enter(key, ()));
      caller := |locks.tickets|;
      var prior := if key in locks.table then Some(locks.table[key]) else None;
      locks := Chains(locks.tickets + [Ticket(key, prior, (), Waiting)], locks.table[key := caller]);
    }

    /** The awaited promise resolved: the operation starts. */
    method Acquire(caller: nat)
      requires Inv(locks) && locks.CanStart(caller)
      modifies this
      ensures Inv(locks) && Next(old(locks), Step.Acquire(caller), locks)
      ensures forall i :: 0 <= i < |locks.tickets| && locks.IsRunning(i) && locks.tickets[i].key == locks.tickets[caller].key ==> i == caller
    {
      StepKeepsInv(locks, Step.Acquire(caller), locks.Start(caller));
      var ticket := locks.tickets[caller];
      locks := Chains(locks.tickets[caller := ticket.(phase := Running)], locks.table);
    }

    /** The finally block, after the operation returned or threw. */
    method Finish(caller: nat, ok: bool)
      requires Inv(locks) && locks.IsRunning(caller)
      modifies this
      ensures Inv(locks) && Next(old(locks), Step.Finish(caller, ok), locks)
    {
      StepKeepsInv(locks, Step.Finish(caller, ok), locks.Settle(caller, ok).Reap(caller));
      var ticket := locks.tickets[caller];
      locks := Chains(locks.tickets[caller := ticket.(phase := Settled(ok))], locks.table);
      if ticket.key in locks.table && locks.table[ticket.key] == caller {
        locks := Chains(locks.tickets, locks.table - {ticket.key});
      }
    }
  }

  lemma StepKeepsInv(s: Locks, step: Step, t: Locks)
    requires Inv(s) && Next(s, step, t)
    ensures Inv(t)
  {
    match step
    case Call(k) => s.EnterKeepsValid(k, ());
    case Acquire(i) => s.StartKeepsValid(i);
    case Finish(i, ok) => FinishKeepsInv(s, i, ok);
  }

  lemma FinishKeepsInv(s: Locks, i: nat, ok: bool)
    requires Inv(s) && s.IsRunning(i)
    ensures Inv(s.Settle(i, ok).Reap(i))
  {
    var settled := s.Settle(i, ok);
    s.SettleKeepsValid(i, ok);
    settled.ReapKeepsValid(i);
    forall k | k in settled.Reap(i).table ensures !settled.Reap(i).Done(settled.Reap(i).table[k]) {
      assert !s.Done(s.table[k]);
    }
  }

  lemma InvMeansTableExact(s: Locks)
    requires Inv(s)
    ensures TableExact(s)
  {
    forall k ensures k in s.table <==> exists i :: 0 <= i < |s.tickets| && s.tickets[i].key == k && !s.Done(i) {
      if k in s.table {
        assert s.tickets[s.table[k]].key == k && !s.Done(s.table[k]);
      }
    }
  }

  ghost predicate Run(states: seq<Locks>, steps: seq<Step>) {
    && |states| == |steps| + 1
    && states[0] == Chains([], map[])
    && forall i :: 0 <= i < |steps| ==> Next(states[i], steps[i], states[i + 1])
  }

  lemma {:induction false} RunKeepsInv(states: seq<Locks>, steps: seq<Step>, n: nat)
    requires Run(states, steps) && n < |states|
    ensures Inv(states[n])
  {
    if n > 0 {
      RunKeepsInv(states, steps, n - 1);
      StepKeepsInv(states[n - 1], steps[n - 1], states[n]);
    }
  }

  /**
    The lock, under every interleaving of callers: one holder per key, the table holds exactly the
    live keys (so the clean-up never drops a live queue), and somebody can always go on.
  */
  lemma LockIsSafe(states: seq<Locks>, steps: seq<Step>, n: nat)
    requires Run(states, steps) && n < |states|
    ensures TableExact(states[n])
    ensures forall i: nat, j: nat :: states[n].IsRunning(i) && states[n].IsRunning(j) && states[n].tickets[i].key == states[n].tickets[j].key ==> i == j
    ensures forall i :: 0 <= i < |states[n].tickets| && !states[n].Done(i) ==>
              exists j :: 0 <= j <= i && states[n].tickets[j].key == states[n].tickets[i].key && (states[n].IsRunning(j) || states[n].CanStart(j))
  {
    var s := states[n];
    RunKeepsInv(states, steps, n);
    InvMeansTableExact(s);
    forall i: nat, j: nat | s.IsRunning(i) && s.IsRunning(j) && s.tickets[i].key == s.tickets[j].key ensures i == j {
      s.MutualExclusion(i, j);
    }
    forall i | 0 <= i < |s.tickets| && !s.Done(i)
      ensures exists j :: 0 <= j <= i && s.tickets[j].key == s.tickets[i].key && (s.IsRunning(j) || s.CanStart(j))
    {
      s.NeverStuck(i);
    }
  }

  /** Operations of one key run in call order: when one starts, every earlier call has finished. */
  lemma RunsInCallOrder(states: seq<Locks>, steps: seq<Step>, n: nat, i: nat, j: nat)
    requires Run(states, steps) && n < |steps| && steps[n] == Acquire(j)
    requires i < j && j < |states[n].tickets| && states[n].tickets[i].key == states[n].tickets[j].key
    ensures states[n].Done(i)
  {
    RunKeepsInv(states, steps, n);
    assert Next(states[n], steps[n], states[n + 1]);
    states[n].StartKeepsValid(j);
  }
}
