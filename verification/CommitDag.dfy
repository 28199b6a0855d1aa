/** The commit graph of a git repository: an append-only sequence of commits. */
module CommitDag {
  import opened Common

  /** Commit `c` is the index of its parent set; a parent is always older than its child. */
  type Dag = d: seq<set<nat>> | Acyclic(d) witness []

  predicate Acyclic(d: seq<set<nat>>) {
    forall c, p :: 0 <= c < |d| && p in d[c] ==> p < c
  }

  /** A branch tip, when there is one, is a commit of the graph. */
  predicate TipIn(d: Dag, tip: Option<nat>) {
    tip.Some? ==> tip.value < |d|
  }

  /** The commits reachable from `c`, itself included. */
  function History(d: Dag, c: nat): set<nat>
    requires c < |d|
    decreases c
  {
    {c} + set p, a | p in d[c] && a in History(d, p) :: a
  }

  /** Everything reachable from a tip that may not exist yet. */
  function Reachable(d: Dag, tip: Option<nat>): set<nat>
    requires TipIn(d, tip)
  {
    if tip.None? then {} else History(d, tip.value)
  }

  /** Adds one commit with the given parents; its id is the old size of the graph. */
  function AddCommit(d: Dag, parents: set<nat>): (r: Dag)
    requires forall p :: p in parents ==> p < |d|
    ensures |r| == |d| + 1 && d <= r
  {
    d + [parents]
  }

  lemma {:induction false} HistoryIsOlder(d: Dag, c: nat, a: nat)
    requires c < |d| && a in History(d, c)
    ensures a <= c
    decreases c
  {
    if a != c {
      var p :| p in d[c] && a in History(d, p);
      HistoryIsOlder(d, p, a);
    }
  }

  /** Reachability is transitive. */
  lemma {:induction false} HistoryTransitive(d: Dag, a: nat, b: nat, c: nat)
    requires c < |d| && b < |d| && b in History(d, c) && a in History(d, b)
    ensures a in History(d, c)
    decreases c
  {
    if b != c {
      var p :| p in d[c] && b in History(d, p);
      HistoryTransitive(d, a, b, p);
    }
  }

  /** The same fact for whole histories. */
  lemma HistoryMonotone(d: Dag, b: nat, c: nat)
    requires c < |d| && b < |d| && b in History(d, c)
    ensures History(d, b) <= History(d, c)
  {
    forall a | a in History(d, b) ensures a in History(d, c) {
      HistoryTransitive(d, a, b, c);
    }
  }

  /** Two commits that reach each other are the same commit. */
  lemma HistoryAntisymmetric(d: Dag, a: nat, b: nat)
    requires a < |d| && b < |d| && a in History(d, b) && b in History(d, a)
    ensures a == b
  {
    HistoryIsOlder(d, b, a);
    HistoryIsOlder(d, a, b);
  }

  /** New commits never change the history of an existing one. */
  lemma {:induction false} HistoryStable(d: Dag, e: Dag, c: nat)
    requires d <= e && c < |d|
    ensures History(e, c) == History(d, c)
    decreases c
  {
    assert e[c] == d[c];
    forall p | p in d[c] ensures History(e, p) == History(d, p) {
      HistoryStable(d, e, p);
    }
    assert forall a :: a in History(e, c) <==> a in History(d, c);
  }

  /** A child reaches everything its parents reach. */
  lemma ParentReachable(d: Dag, c: nat, p: nat)
    requires c < |d| && p in d[c]
    ensures p in History(d, c)
    ensures History(d, p) <= History(d, c)
  {
    assert p in History(d, p);
  }
}
