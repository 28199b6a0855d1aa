/** Which messages of a polled session are new: the longest-overlap diff of the task executor. */
module SessionProgress {
  import opened Common

  datatype Entry = Entry(fingerprint: string, message: string)

  function Fingerprints(entries: seq<Entry>): (r: seq<string>)
    ensures |r| == |entries|
  {
    seq(|entries|, i requires 0 <= i < |entries| => entries[i].fingerprint)
  }

  function Min(a: nat, b: nat): nat {
    if a < b then a else b
  }

  /** The last `size` old fingerprints are the first `size` current ones. */
  predicate IsOverlap(previous: seq<string>, current: seq<string>, size: nat) {
    size <= |previous| && size <= |current| && previous[|previous| - size..] == current[..size]
  }

  /** The longest overlap of at most `size` entries. */
  function LongestOverlap(previous: seq<string>, current: seq<string>, size: nat): (r: nat)
    requires size <= |previous| && size <= |current|
    ensures r <= size && IsOverlap(previous, current, r)
    ensures forall s :: r < s <= size ==> !IsOverlap(previous, current, s)
  {
    if size == 0 || IsOverlap(previous, current, size) then size else LongestOverlap(previous, current, size - 1)
  }

  function NewEntries(entries: seq<Entry>, previous: seq<string>): (r: seq<Entry>)
    ensures |r| <= |entries| && r == entries[|entries| - |r|..]
  {
    entries[LongestOverlap(previous, Fingerprints(entries), Min(|previous|, |entries|))..]
  }

  /** The state one session keeps between polls. */
  class Progress {
    var fingerprints: seq<string>

    constructor ()
      ensures fingerprints == []
    {
      fingerprints := [];
    }

    /** One poll: report what is new and remember the snapshot. */
    method Sync(entries: seq<Entry>) returns (news: seq<Entry>)
      modifies this
      ensures news == NewEntries(entries, old(fingerprints))
      ensures fingerprints == Fingerprints(entries)
    {
      news := GetNewEntries(entries, fingerprints);
      fingerprints := Fingerprints(entries);
    }
  }

  /** One overlap, compared index by index. */
  method OverlapMatches(previous: seq<string>, current: seq<string>, size: nat) returns (matches: bool)
    requires size <= |previous| && size <= |current|
    ensures matches <==> IsOverlap(previous, current, size)
  {
    for index := 0 to size
      invariant forall k :: 0 <= k < index ==> previous[|previous| - size + k] == current[k]
    {
      if previous[|previous| - size + index] != current[index] {
        assert previous[|previous| - size..][index] != current[..size][index];
        return false;
      }
    }
    assert previous[|previous| - size..] == current[..size];
    return true;
  }

  /** `getNewSessionProgressEntries`: tries overlaps from the largest down, comparing index by index. */
  method GetNewEntries(entries: seq<Entry>, previous: seq<string>) returns (news: seq<Entry>)
    ensures news == NewEntries(entries, previous)
  {
    if |entries| == 0 {
      return [];
    }
    if |previous| == 0 {
      return entries;
    }
    var current := Fingerprints(entries);
    var maxOverlap := Min(|previous|, |current|);
    var overlap := 0;
    var size := maxOverlap;
    while size > 0
      invariant 0 <= size <= maxOverlap && overlap == 0
      invariant LongestOverlap(previous, current, maxOverlap) == LongestOverlap(previous, current, size)
    {
      var matches := OverlapMatches(previous, current, size);
      if matches {
        overlap := size;
        break;
      }
      size := size - 1;
    }
    return entries[overlap..];
  }

  // ---------------------------------------------------------------- many polls

  /** Everything reported over a sequence of polls, starting from a remembered snapshot. */
  function Reported(previous: seq<string>, snapshots: seq<seq<Entry>>): seq<Entry>
    decreases |snapshots|
  {
    if snapshots == [] then []
    else NewEntries(snapshots[0], previous) + Reported(Fingerprints(snapshots[0]), snapshots[1..])
  }

  lemma FingerprintsOfSlice(log: seq<Entry>, lo: nat, hi: nat)
    requires lo <= hi <= |log|
    ensures Fingerprints(log[lo..hi]) == Fingerprints(log)[lo..hi]
  {
  }

  /** With snapshots that only grow, one poll reports exactly what was added. */
  lemma GrowingPollIsExact(log: seq<Entry>, n: nat, m: nat)
    requires n <= m <= |log|
    ensures NewEntries(log[..m], Fingerprints(log[..n])) == log[n..m]
  {
    var previous, current := Fingerprints(log[..n]), Fingerprints(log[..m]);
    assert IsOverlap(previous, current, n);
  }

  lemma ReportedFirst(previous: seq<string>, snapshot: seq<Entry>, rest: seq<seq<Entry>>)
    ensures Reported(previous, [snapshot] + rest) == NewEntries(snapshot, previous) + Reported(Fingerprints(snapshot), rest)
  {
    assert ([snapshot] + rest)[1..] == rest;
  }

  /** A log polled after `ends[0]`, then `ends[1]`, ... entries; it only grows. */
  predicate Grows(log: seq<Entry>, from: nat, ends: seq<nat>)
    decreases |ends|
  {
    from <= |log| && (ends == [] || (from <= ends[0] && Grows(log, ends[0], ends[1..])))
  }

  function Last(from: nat, ends: seq<nat>): nat {
    if ends == [] then from else ends[|ends| - 1]
  }

  function Prefixes(log: seq<Entry>, ends: seq<nat>): seq<seq<Entry>> {
    seq(|ends|, i requires 0 <= i < |ends| => if ends[i] <= |log| then log[..ends[i]] else log)
  }

  lemma PrefixesFirst(log: seq<Entry>, ends: seq<nat>)
    requires ends != [] && ends[0] <= |log|
    ensures Prefixes(log, ends) == [log[..ends[0]]] + Prefixes(log, ends[1..])
  {
  }

  lemma FirstPollReported(log: seq<Entry>, from: nat, m: nat, rest: seq<seq<Entry>>, last: nat)
    requires from <= m <= last <= |log| && Reported(Fingerprints(log[..m]), rest) == log[m..last]
    ensures Reported(Fingerprints(log[..from]), [log[..m]] + rest) == log[from..last]
  {
    GrowingPollIsExact(log, from, m);
    ReportedFirst(Fingerprints(log[..from]), log[..m], rest);
    assert log[from..m] + log[m..last] == log[from..last];
  }

  /** ... and over all polls the log comes out exactly once and in order. */
  lemma {:induction false} GrowingLogReportedOnce(log: seq<Entry>, from: nat, ends: seq<nat>)
    requires Grows(log, from, ends)
    ensures from <= Last(from, ends) <= |log|
    ensures Reported(Fingerprints(log[..from]), Prefixes(log, ends)) == log[from..Last(from, ends)]
    decreases |ends|
  {
    if ends != [] {
      var m, rest := ends[0], ends[1..];
      GrowingLogReportedOnce(log, m, rest);
      assert Last(m, rest) == Last(from, ends);
      PrefixesFirst(log, ends);
      FirstPollReported(log, from, m, Prefixes(log, rest), Last(m, rest));
    }
  }

  // ---------------------------------------------------------------- sliding window

  /** Two windows of the log, the second one not behind the first. */
  predicate Slides(log: seq<Entry>, a: nat, b: nat, a': nat, b': nat) {
    a <= b <= b' <= |log| && a <= a' <= b'
  }

  /** The first entry of the new window that the old one did not show. */
  function FirstNew(b: nat, a': nat): nat {
    if a' < b then b else a'
  }

  /** What one poll of a sliding window reports: a suffix of the truly new entries, never a repeat. */
  lemma SlidingPollIsSuffix(log: seq<Entry>, a: nat, b: nat, a': nat, b': nat)
    requires Slides(log, a, b, a', b')
    ensures var r := NewEntries(log[a'..b'], Fingerprints(log[a..b]));
            |r| <= b' - FirstNew(b, a') && r == log[b' - |r|..b']
  {
    var previous, current := Fingerprints(log[a..b]), Fingerprints(log[a'..b']);
    if a' < b {
      TrueOverlap(log, a, b, a', b');
    }
  }

  /** The entries both windows show are an overlap. */
  lemma TrueOverlap(log: seq<Entry>, a: nat, b: nat, a': nat, b': nat)
    requires Slides(log, a, b, a', b') && a' <= b
    ensures IsOverlap(Fingerprints(log[a..b]), Fingerprints(log[a'..b']), b - a')
  {
    var previous, current := Fingerprints(log[a..b]), Fingerprints(log[a'..b']);
    assert previous[|previous| - (b - a')..] == current[..b - a'];
  }

  /** The `s` entries that end the old window look like the `s` entries that begin the new one. */
  predicate LooksShared(log: seq<Entry>, b: nat, a': nat, s: nat) {
    s <= b <= |log| && a' + s <= |log| && Fingerprints(log)[b - s..b] == Fingerprints(log)[a'..a' + s]
  }

  lemma OverlapIsLooksShared(log: seq<Entry>, a: nat, b: nat, a': nat, b': nat, s: nat)
    requires Slides(log, a, b, a', b') && s <= b - a && a' + s <= b'
    ensures IsOverlap(Fingerprints(log[a..b]), Fingerprints(log[a'..b']), s) <==> LooksShared(log, b, a', s)
  {
    var previous, current, all := Fingerprints(log[a..b]), Fingerprints(log[a'..b']), Fingerprints(log);
    FingerprintsOfSlice(log, a, b);
    FingerprintsOfSlice(log, a', b');
    assert previous[|previous| - s..] == all[b - s..b];
    assert current[..s] == all[a'..a' + s];
  }

  /**
    Exactly when a poll misses nothing it could see: no stretch longer than the really shared one
    looks shared.
  */
  lemma SlidingPollIsExactIff(log: seq<Entry>, a: nat, b: nat, a': nat, b': nat)
    requires Slides(log, a, b, a', b')
    ensures NewEntries(log[a'..b'], Fingerprints(log[a..b])) == log[FirstNew(b, a')..b']
            <==> forall s: nat :: FirstNew(b, a') - a' < s <= b - a && s <= b' - a' ==> !LooksShared(log, b, a', s)
  {
    var previous, current := Fingerprints(log[a..b]), Fingerprints(log[a'..b']);
    forall s: nat | s <= b - a && s <= b' - a' ensures IsOverlap(previous, current, s) <==> LooksShared(log, b, a', s) {
      OverlapIsLooksShared(log, a, b, a', b', s);
    }
    SlidingPollIsSuffix(log, a, b, a', b');
    if a' <= b {
      TrueOverlap(log, a, b, a', b');
    }
  }

  /** With distinct fingerprints a sliding window misses nothing it shows. */
  lemma DistinctWindowIsExact(log: seq<Entry>, a: nat, b: nat, a': nat, b': nat)
    requires Slides(log, a, b, a', b')
    requires forall i, j :: 0 <= i < j < |log| ==> log[i].fingerprint != log[j].fingerprint
    ensures NewEntries(log[a'..b'], Fingerprints(log[a..b])) == log[FirstNew(b, a')..b']
  {
    var all := Fingerprints(log);
    forall s: nat | FirstNew(b, a') - a' < s <= b - a && s <= b' - a' ensures !LooksShared(log, b, a', s) {
      assert all[b - s..b][0] == log[b - s].fingerprint && all[a'..a' + s][0] == log[a'].fingerprint;
    }
    SlidingPollIsExactIff(log, a, b, a', b');
  }

  /** Repeated messages can hide a new one: the second of two equal replies is taken for the first. */
  lemma RepeatedMessageIsHidden(reply: Entry)
    ensures var log := [reply, reply];
            Slides(log, 0, 1, 1, 2) && FirstNew(1, 1) == 1 && |NewEntries(log[1..2], Fingerprints(log[0..1]))| == 0
  {
    var log := [reply, reply];
    assert log[1..2] == log[0..1] == [reply];
    assert IsOverlap(Fingerprints([reply]), Fingerprints([reply]), 1);
  }

  /** The snapshots a series of windows shows. */
  function Shown(log: seq<Entry>, windows: seq<(nat, nat)>): seq<seq<Entry>>
    requires forall i :: 0 <= i < |windows| ==> windows[i].0 <= windows[i].1 <= |log|
  {
    seq(|windows|, i requires 0 <= i < |windows| => log[windows[i].0..windows[i].1])
  }

  /** The window only moves forward, from poll to poll. */
  predicate SlidesOn(log: seq<Entry>, a: nat, b: nat, windows: seq<(nat, nat)>)
    decreases |windows|
  {
    windows == [] || (Slides(log, a, b, windows[0].0, windows[0].1) && SlidesOn(log, windows[0].0, windows[0].1, windows[1..]))
  }

  lemma {:induction false} SlidesOnInside(log: seq<Entry>, a: nat, b: nat, windows: seq<(nat, nat)>)
    requires SlidesOn(log, a, b, windows)
    ensures forall i :: 0 <= i < |windows| ==> windows[i].0 <= windows[i].1 <= |log|
    decreases |windows|
  {
    if windows != [] {
      SlidesOnInside(log, windows[0].0, windows[0].1, windows[1..]);
    }
  }

  /** The entries of `r` are entries of the log, at strictly increasing positions from `b` on. */
  ghost predicate InOrder(log: seq<Entry>, b: nat, r: seq<Entry>) {
    exists at: seq<nat> :: Positions(log, b, r, at)
  }

  predicate Positions(log: seq<Entry>, b: nat, r: seq<Entry>, at: seq<nat>) {
    && |at| == |r|
    && (forall i :: 0 <= i < |at| ==> b <= at[i] < |log| && r[i] == log[at[i]])
    && (forall i, j :: 0 <= i < j < |at| ==> at[i] < at[j])
  }

  /** Over all polls of a sliding window the positions reported are strictly increasing: nothing is reported twice. */
  lemma {:induction false} SlidingLogNeverRepeats(log: seq<Entry>, a: nat, b: nat, windows: seq<(nat, nat)>)
    requires a <= b <= |log| && SlidesOn(log, a, b, windows)
    ensures (forall i :: 0 <= i < |windows| ==> windows[i].0 <= windows[i].1 <= |log|)
            && InOrder(log, b, Reported(Fingerprints(log[a..b]), Shown(log, windows)))
    decreases |windows|
  {
    SlidesOnInside(log, a, b, windows);
    if windows == [] {
      assert Positions(log, b, [], []);
    } else {
      var (a', b') := windows[0];
      var rest := windows[1..];
      SlidingPollIsSuffix(log, a, b, a', b');
      SlidingLogNeverRepeats(log, a', b', rest);
      ReportedFirst(Fingerprints(log[a..b]), log[a'..b'], Shown(log, rest));
      assert Shown(log, windows) == [log[a'..b']] + Shown(log, rest);
      var first := NewEntries(log[a'..b'], Fingerprints(log[a..b]));
      SuffixThenLater(log, b, b', |first|, Reported(Fingerprints(log[a'..b']), Shown(log, rest)));
    }
  }

  lemma SuffixThenLater(log: seq<Entry>, b: nat, b': nat, n: nat, later: seq<Entry>)
    requires b <= b' <= |log| && n <= b' - b && InOrder(log, b', later)
    ensures InOrder(log, b, log[b' - n..b'] + later)
  {
    var at :| Positions(log, b', later, at);
    assert Positions(log, b, log[b' - n..b'] + later, seq(n, i requires 0 <= i < n => b' - n + i) + at);
  }
}
