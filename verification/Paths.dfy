/** `path.resolve` on POSIX paths. */
module Paths {

  function Split(p: string): (r: seq<string>)
    ensures |r| > 0 && forall s :: s in r ==> '/' !in s
  {
    if p == "" then [""]
    else
      var r := Split(p[1..]);
      if p[0] == '/' then [""] + r else [[p[0]] + r[0]] + r[1..]
  }

  function Join(segments: seq<string>): string {
    if segments == [] then ""
    else if |segments| == 1 then segments[0]
    else segments[0] + "/" + Join(segments[1..])
  }

  /** Empty and `.` segments go, and `..` takes the one before it along. */
  function Settle(segments: seq<string>, done: seq<string>): seq<string>
    decreases |segments|
  {
    if segments == [] then done
    else
      var s, rest := segments[0], segments[1..];
      if s == "" || s == "." then Settle(rest, done)
      else if s == ".." then Settle(rest, if done == [] then [] else done[..|done| - 1])
      else Settle(rest, done + [s])
  }

  predicate IsAbsolute(p: string) {
    p != "" && p[0] == '/'
  }

  function Absolute(p: string): (r: string)
    ensures IsAbsolute(r)
  {
    "/" + Join(Settle(Split(p), []))
  }

  /** `path.resolve`, from an absolute working directory. */
  function Resolve(cwd: string, p: string): (r: string)
    ensures IsAbsolute(r)
  {
    if IsAbsolute(p) then Absolute(p) else Absolute(cwd + "/" + p)
  }

  predicate ProperName(s: string) {
    s != "" && s != "." && s != ".." && '/' !in s
  }

  predicate Proper(segments: seq<string>) {
    forall i :: 0 <= i < |segments| ==> ProperName(segments[i])
  }

  lemma {:induction false} SettleProper(segments: seq<string>, done: seq<string>)
    requires Proper(done) && forall s :: s in segments ==> '/' !in s
    ensures Proper(Settle(segments, done))
    decreases |segments|
  {
    if segments != [] {
      var s, rest := segments[0], segments[1..];
      if s == "" || s == "." {
        SettleProper(rest, done);
      } else if s == ".." {
        SettleProper(rest, if done == [] then [] else done[..|done| - 1]);
      } else {
        SettleProper(rest, done + [s]);
      }
    }
  }

  lemma {:induction false} SettleFixed(segments: seq<string>, done: seq<string>)
    requires Proper(segments)
    ensures Settle(segments, done) == done + segments
    decreases |segments|
  {
    if segments != [] {
      SettleFixed(segments[1..], done + [segments[0]]);
      assert done + segments == (done + [segments[0]]) + segments[1..];
    } else {
      assert done + segments == done;
    }
  }

  lemma {:induction false} SplitFirst(s: string, rest: string)
    requires '/' !in s
    ensures Split(s + "/" + rest) == [s] + Split(rest)
  {
    var p := s + "/" + rest;
    if s == "" {
      assert p[0] == '/' && p[1..] == rest;
    } else {
      assert p[0] == s[0] && p[1..] == s[1..] + "/" + rest;
      SplitFirst(s[1..], rest);
      assert [s[0]] + s[1..] == s;
    }
  }

  lemma {:induction false} SplitWhole(s: string)
    requires '/' !in s
    ensures Split(s) == [s]
  {
    if s != "" {
      SplitWhole(s[1..]);
      assert [s[0]] + s[1..] == s;
    }
  }

  lemma {:induction false} SplitJoin(segments: seq<string>)
    requires segments != [] && forall s :: s in segments ==> '/' !in s
    ensures Split(Join(segments)) == segments
  {
    if |segments| == 1 {
      SplitWhole(segments[0]);
    } else {
      SplitJoin(segments[1..]);
      SplitFirst(segments[0], Join(segments[1..]));
    }
  }

  /** A resolved path resolves to itself. */
  lemma AbsoluteIdempotent(p: string)
    ensures Absolute(Absolute(p)) == Absolute(p)
  {
    var segments := Settle(Split(p), []);
    SettleProper(Split(p), []);
    var r := Absolute(p);
    assert r == "" + "/" + Join(segments);
    SplitFirst("", Join(segments));
    assert Split(r)[0] == "" && Split(r)[1..] == Split(Join(segments));
    assert Settle(Split(r), []) == Settle(Split(Join(segments)), []);
    if segments != [] {
      assert forall s :: s in segments ==> '/' !in s;
      SplitJoin(segments);
      SettleFixed(segments, []);
      assert [] + segments == segments;
    } else {
      assert Split("") == [""] && [""][1..] == [];
      assert Settle([""], []) == [];
    }
  }

  function Size(segments: seq<string>): nat {
    if segments == [] then 0 else |segments[0]| + 1 + Size(segments[1..])
  }

  lemma {:induction false} SizeConcat(a: seq<string>, b: seq<string>)
    ensures Size(a + b) == Size(a) + Size(b)
  {
    if a == [] {
      assert a + b == b;
    } else {
      SizeConcat(a[1..], b);
      assert (a + b)[1..] == a[1..] + b;
    }
  }

  lemma {:induction false} SplitSize(p: string)
    ensures Size(Split(p)) == |p| + 1
  {
    if p != "" {
      SplitSize(p[1..]);
      var r := Split(p[1..]);
      assert ([""] + r)[1..] == r && ([[p[0]] + r[0]] + r[1..])[1..] == r[1..];
    }
  }

  lemma {:induction false} JoinSize(segments: seq<string>)
    requires segments != []
    ensures |Join(segments)| + 1 == Size(segments)
  {
    if |segments| > 1 {
      JoinSize(segments[1..]);
    }
  }

  lemma {:induction false} SettleSize(segments: seq<string>, done: seq<string>)
    ensures Size(Settle(segments, done)) <= Size(segments) + Size(done)
    decreases |segments|
  {
    if segments != [] {
      var s, rest := segments[0], segments[1..];
      if s == "" || s == "." {
        SettleSize(rest, done);
      } else if s == ".." {
        if done != [] {
          assert done == done[..|done| - 1] + [done[|done| - 1]];
          SizeConcat(done[..|done| - 1], [done[|done| - 1]]);
        }
        SettleSize(rest, if done == [] then [] else done[..|done| - 1]);
      } else {
        SizeConcat(done, [s]);
        SettleSize(rest, done + [s]);
      }
    }
  }

  lemma AbsoluteIsNoLonger(p: string)
    requires IsAbsolute(p)
    ensures |Absolute(p)| <= |p|
  {
    SplitSize(p[1..]);
    SettleSize(Split(p[1..]), []);
    assert Split(p)[1..] == Split(p[1..]);
    var segments := Settle(Split(p), []);
    if segments != [] {
      JoinSize(segments);
    }
  }

  // ---- what resolving does, segment by segment

  /** One more character in front. */
  function Grown(c: char, segments: seq<string>): seq<string>
    requires segments != []
  {
    if c == '/' then [""] + segments else [[c] + segments[0]] + segments[1..]
  }

  lemma GrownMore(c: char, a: seq<string>, b: seq<string>)
    requires a != []
    ensures Grown(c, a + b) == Grown(c, a) + b
  {
    assert (a + b)[1..] == a[1..] + b;
  }

  lemma SplitCons(c: char, rest: string)
    ensures Split([c] + rest) == Grown(c, Split(rest))
  {
    assert ([c] + rest)[1..] == rest;
  }

  lemma {:induction false} SplitMore(p: string, q: string)
    ensures Split(p + "/" + q) == Split(p) + Split(q)
  {
    if p == "" {
      SplitNothing(q);
    } else {
      SplitMore(p[1..], q);
      SplitCons(p[0], p[1..]);
      SplitCons(p[0], p[1..] + "/" + q);
      GrownMore(p[0], Split(p[1..]), Split(q));
      Behead(p, q);
    }
  }

  lemma SplitNothing(q: string)
    ensures Split("" + "/" + q) == Split("") + Split(q)
  {
    SplitFirst("", q);
  }

  lemma Behead(p: string, q: string)
    requires p != ""
    ensures [p[0]] + p[1..] == p && [p[0]] + (p[1..] + "/" + q) == p + "/" + q
  {
  }

  lemma {:induction false} SettleMore(a: seq<string>, b: seq<string>, done: seq<string>)
    ensures Settle(a + b, done) == Settle(b, Settle(a, done))
    decreases |a|
  {
    if a == [] {
      assert a + b == b;
    } else {
      assert (a + b)[1..] == a[1..] + b;
      var s := a[0];
      SettleMore(a[1..], b, if s == "" || s == "." then done else if s == ".." then (if done == [] then [] else done[..|done| - 1]) else done + [s]);
    }
  }

  /** The last segment `s` of a path, on top of what the rest resolves to. */
  lemma Segment(p: string, s: string)
    requires '/' !in s
    ensures Settle(Split(p + "/" + s), []) == Settle([s], Settle(Split(p), []))
  {
    SplitMore(p, s);
    SplitWhole(s);
    SettleMore(Split(p), [s], []);
  }

  lemma {:induction false} JoinMore(segments: seq<string>, s: string)
    ensures Join(segments + [s]) == if segments == [] then s else Join(segments) + "/" + s
  {
    if |segments| == 1 {
      assert (segments + [s])[1..] == [s];
    } else if segments != [] {
      JoinMore(segments[1..], s);
      assert (segments + [s])[1..] == segments[1..] + [s];
    }
  }

  lemma AbsoluteOfRoot()
    ensures Absolute("") == "/" && Absolute("..") == "/"
  {
    SplitWhole("");
    SplitWhole("..");
  }

  lemma NameStep(p: string, name: string)
    requires ProperName(name)
    ensures Settle(Split(p + "/" + name), []) == Settle(Split(p), []) + [name]
    ensures Absolute(p + "/" + name) == (if Absolute(p) == "/" then "/" + name else Absolute(p) + "/" + name)
  {
    var segments := Settle(Split(p), []);
    SettleProper(Split(p), []);
    Segment(p, name);
    JoinMore(segments, name);
    RootIff(segments);
  }

  lemma DotStep(p: string, dot: string)
    requires dot in {"", "."}
    ensures Absolute(p + "/" + dot) == Absolute(p)
  {
    Segment(p, dot);
  }

  lemma UpStep(p: string, name: string)
    requires ProperName(name)
    ensures Absolute(p + "/" + name + "/" + "..") == Absolute(p)
  {
    var segments := Settle(Split(p), []);
    NameStep(p, name);
    Segment(p + "/" + name, "..");
    assert (segments + [name])[..|segments|] == segments;
  }

  /** A name goes one down, `..` one up again but not above the root, and empty segments and `.` nowhere. */
  lemma AbsoluteStep(p: string, name: string)
    requires name !in {"", ".", ".."} && '/' !in name
    ensures Absolute("") == "/" && Absolute("..") == "/"
    ensures Absolute(p + "/") == Absolute(p) && Absolute(p + "/.") == Absolute(p)
    ensures Absolute(p + "/" + name) == (if Absolute(p) == "/" then "/" + name else Absolute(p) + "/" + name)
    ensures Absolute(p + "/" + name + "/..") == Absolute(p)
  {
    AbsoluteOfRoot();
    DotStep(p, "");
    DotStep(p, ".");
    NameStep(p, name);
    UpStep(p, name);
    assert p + "/" + "" == p + "/" && p + "/" + "." == p + "/." && p + "/" + name + "/" + ".." == p + "/" + name + "/..";
  }

  lemma RootIff(segments: seq<string>)
    requires Proper(segments)
    ensures Join(segments) == "" <==> segments == []
  {
    if segments != [] {
      assert ProperName(segments[0]);
    }
  }
}
