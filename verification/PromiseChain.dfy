/**
  Promise chains kept in a table: every caller of a key queues behind the promise found in the
  table and leaves its own there. The repository lock and the atomic write queue are both built
  from it; they differ in when the table entry is dropped.
*/
module PromiseChain {
  import opened Common

  datatype Phase = Waiting | Running | Settled(ok: bool)

  /** One call: the promise it waits for, and how far it got. */
  datatype Ticket<P> = Ticket(key: string, prior: Option<nat>, payload: P, phase: Phase)

  datatype Chains<P> = Chains(tickets: seq<Ticket<P>>, table: map<string, nat>) {

    /** The promise a ticket put in the table is resolved. */
    predicate Done(i: nat) {
      i < |tickets| && tickets[i].phase.Settled?
    }

    predicate CanStart(i: nat) {
      && i < |tickets|
      && tickets[i].phase.Waiting?
      && (tickets[i].prior.Some? ==> Done(tickets[i].prior.value))
    }

    predicate IsRunning(i: nat) {
      i < |tickets| && tickets[i].phase.Running?
    }

    /** `i` is the newest call for its key. */
    ghost predicate Newest(i: nat)
      requires i < |tickets|
    {
      forall j :: i < j < |tickets| ==> tickets[j].key != tickets[i].key
    }

    ghost predicate Valid() {
      // a call only gets past its await when all earlier calls for the key are done
      && (forall i, j :: 0 <= i < j < |tickets| && tickets[i].key == tickets[j].key && !tickets[j].phase.Waiting? ==> Done(i))
      // the promise waited for belongs to the previous call; without one, all earlier calls are done
      && (forall j :: 0 <= j < |tickets| ==> PriorHolds(j))
      // the table names the newest call, and forgets a key only when nothing is pending for it
      && (forall k :: k in table ==> table[k] < |tickets| && tickets[table[k]].key == k && Newest(table[k]))
      && (forall i :: 0 <= i < |tickets| && tickets[i].key !in table ==> Done(i))
    }

    ghost predicate PriorHolds(j: nat)
      requires j < |tickets|
    {
      match tickets[j].prior
      case Some(p) => p < j && tickets[p].key == tickets[j].key
                      && forall i :: p < i < j ==> tickets[i].key != tickets[j].key
      case None => forall i :: 0 <= i < j && tickets[i].key == tickets[j].key ==> Done(i)
    }

    /** Synchronous part of a call up to its await. */
    function Enter(key: string, payload: P): Chains<P> {
      var prior := if key in table then Some(table[key]) else None;
      Chains(tickets + [Ticket(key, prior, payload, Waiting)], table[key := |tickets|])
    }

    function Start(i: nat): Chains<P>
      requires CanStart(i)
    {
      this.(tickets := tickets[i := tickets[i].(phase := Running)])
    }

    function Settle(i: nat, ok: bool): Chains<P>
      requires IsRunning(i)
    {
      this.(tickets := tickets[i := tickets[i].(phase := Settled(ok))])
    }

    /** Drops the table entry when it is still the caller's own. */
    function Reap(i: nat): Chains<P>
      requires Done(i)
    {
      var k := tickets[i].key;
      if k in table && table[k] == i then this.(table := table - {k}) else this
    }

    lemma EnterKeepsValid(key: string, payload: P)
      requires Valid()
      ensures Enter(key, payload).Valid()
    {
      var t := Enter(key, payload);
      forall j | 0 <= j < |t.tickets| ensures t.PriorHolds(j) {
        if j < |tickets| {
          assert PriorHolds(j);
          assert forall i :: 0 <= i <= j ==> t.tickets[i] == tickets[i];
        }
      }
      forall k | k in t.table ensures t.table[k] < |t.tickets| && t.tickets[t.table[k]].key == k && t.Newest(t.table[k]) {
        if k != key {
          assert Newest(table[k]);
        }
      }
    }

    lemma StartKeepsValid(i: nat)
      requires Valid() && CanStart(i)
      ensures Start(i).Valid()
      ensures forall j :: 0 <= j < i && tickets[j].key == tickets[i].key ==> Done(j)
    {
      var t := Start(i);
      assert PriorHolds(i);
      PhasesOnly(t);
    }

    lemma SettleKeepsValid(i: nat, ok: bool)
      requires Valid() && IsRunning(i)
      ensures Settle(i, ok).Valid()
    {
      PhasesOnly(Settle(i, ok));
    }

    /** The chain structure does not depend on phases other than finished calls staying finished. */
    lemma PhasesOnly(t: Chains<P>)
      requires Valid() && t.table == table && |t.tickets| == |tickets|
      requires forall i :: 0 <= i < |tickets| ==> t.tickets[i].key == tickets[i].key && t.tickets[i].prior == tickets[i].prior
      requires forall i :: 0 <= i < |tickets| && Done(i) ==> t.Done(i)
      ensures forall j :: 0 <= j < |tickets| ==> t.PriorHolds(j)
      ensures forall k :: k in t.table ==> t.table[k] < |t.tickets| && t.tickets[t.table[k]].key == k && t.Newest(t.table[k])
      ensures forall i :: 0 <= i < |tickets| && t.tickets[i].key !in t.table ==> t.Done(i)
    {
      forall j | 0 <= j < |tickets| ensures t.PriorHolds(j) {
        assert PriorHolds(j);
      }
      forall k | k in t.table ensures t.Newest(t.table[k]) {
        assert Newest(table[k]);
      }
    }

    lemma ReapKeepsValid(i: nat)
      requires Valid() && Done(i)
      ensures Reap(i).Valid()
    {
      var t := Reap(i);
      forall j | 0 <= j < |tickets| ensures t.PriorHolds(j) {
        assert PriorHolds(j);
      }
      forall k | k in t.table ensures t.Newest(t.table[k]) {
        assert Newest(table[k]);
      }
      forall j | 0 <= j < |tickets| && tickets[j].key !in t.table ensures t.Done(j) {
        ReapedIsDone(i, j);
      }
    }

    /** The entry dropped was the newest call's, so every call of its key is done. */
    lemma ReapedIsDone(i: nat, j: nat)
      requires Valid() && Done(i) && j < |tickets| && tickets[j].key !in Reap(i).table
      ensures Done(j)
    {
      if tickets[j].key in table {
        assert Newest(i);
      }
    }

    /** No two calls for one key run at the same time. */
    lemma MutualExclusion(i: nat, j: nat)
      requires Valid() && IsRunning(i) && IsRunning(j) && tickets[i].key == tickets[j].key
      ensures i == j
    {
    }

    /** Nothing is lost: the oldest unfinished call of a key is running or may start now. */
    lemma {:induction false} NeverStuck(i: nat)
      requires Valid() && i < |tickets| && !Done(i)
      ensures exists j :: 0 <= j <= i && tickets[j].key == tickets[i].key && (IsRunning(j) || CanStart(j))
    {
      assert PriorHolds(i);
      if tickets[i].prior.Some? && !Done(tickets[i].prior.value) {
        NeverStuck(tickets[i].prior.value);
      } else {
        assert IsRunning(i) || CanStart(i);
      }
    }
  }
}
