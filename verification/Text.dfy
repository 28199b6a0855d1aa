/** The string operations of JavaScript the models need. */
module Text {

  /** White space and line terminators, as `String.prototype.trim` removes them. */
  predicate IsSpace(c: char) {
    || c in {' ', '\t', '\n', '\r', '\U{0B}', '\U{0C}', '\U{A0}', '\U{1680}', '\U{2028}', '\U{2029}', '\U{202F}', '\U{205F}', '\U{3000}', '\U{FEFF}'}
    || '\U{2000}' <= c <= '\U{200A}'
  }

  predicate IsTrimmed(s: string) {
    s == "" || (!IsSpace(s[0]) && !IsSpace(s[|s| - 1]))
  }

  function TrimStart(s: string): (r: string)
    ensures r == "" || !IsSpace(r[0])
    ensures |r| <= |s| && r == s[|s| - |r|..]
  {
    if s != "" && IsSpace(s[0]) then TrimStart(s[1..]) else s
  }

  function TrimEnd(s: string): (r: string)
    ensures r == "" || !IsSpace(r[|r| - 1])
    ensures r <= s
  {
    if s != "" && IsSpace(s[|s| - 1]) then TrimEnd(s[..|s| - 1]) else s
  }

  function Trim(s: string): (r: string)
    ensures IsTrimmed(r)
  {
    TrimEnd(TrimStart(s))
  }

  lemma TrimFixed(s: string)
    requires IsTrimmed(s)
    ensures Trim(s) == s
  {
  }

  lemma TrimIdempotent(s: string)
    ensures Trim(Trim(s)) == Trim(s)
  {
    TrimFixed(Trim(s));
  }

  predicate Spaces(s: string) {
    forall i :: 0 <= i < |s| ==> IsSpace(s[i])
  }

  lemma {:induction false} TrimStartSpaces(s: string)
    ensures forall i :: 0 <= i < |s| - |TrimStart(s)| ==> IsSpace(s[i])
  {
    if s != "" && IsSpace(s[0]) {
      TrimStartSpaces(s[1..]);
      forall i | 0 < i < |s| - |TrimStart(s)| ensures IsSpace(s[i]) {
        assert s[1..][i - 1] == s[i];
      }
    }
  }

  lemma {:induction false} TrimEndSpaces(s: string)
    ensures forall i :: |TrimEnd(s)| <= i < |s| ==> IsSpace(s[i])
  {
    if s != "" && IsSpace(s[|s| - 1]) {
      TrimEndSpaces(s[..|s| - 1]);
      forall i | |TrimEnd(s)| <= i < |s| - 1 ensures IsSpace(s[i]) {
        assert s[..|s| - 1][i] == s[i];
      }
    }
  }

  /** Trimming takes white space off both ends and nothing else. */
  lemma TrimSpelled(s: string) returns (before: string, after: string)
    ensures s == before + Trim(s) + after && Spaces(before) && Spaces(after) && IsTrimmed(Trim(s))
  {
    var started, core := TrimStart(s), Trim(s);
    TrimStartSpaces(s);
    TrimEndSpaces(started);
    before, after := Outside(s, started, core);
    SpacesOutside(s, started, core, before, after);
  }

  lemma SpacesOutside(s: string, started: string, core: string, before: string, after: string)
    requires |before| <= |s| && |core| + |after| == |started|
    requires forall i :: 0 <= i < |before| ==> before[i] == s[i] && IsSpace(s[i])
    requires forall i :: 0 <= i < |after| ==> after[i] == started[|core| + i] && IsSpace(started[|core| + i])
    ensures Spaces(before) && Spaces(after)
  {
  }

  /** What a first cut in front and a second one at the end take away. */
  lemma Outside(s: string, started: string, core: string) returns (before: string, after: string)
    requires |started| <= |s| && started == s[|s| - |started|..] && core <= started
    ensures before == s[..|s| - |started|] && after == started[|core|..] && s == before + core + after
    ensures forall i :: 0 <= i < |before| ==> before[i] == s[i]
    ensures forall i :: 0 <= i < |after| ==> after[i] == started[|core| + i]
  {
    before, after := s[..|s| - |started|], started[|core|..];
  }

  /** Decimal notation of a counter. */
  function Decimal(n: nat): (r: string)
    ensures r != "" && (forall c :: c in r ==> '0' <= c <= '9')
  {
    var digit := ['0', '1', '2', '3', '4', '5', '6', '7', '8', '9'][n % 10];
    if n < 10 then [digit] else Decimal(n / 10) + [digit]
  }

  lemma {:induction false} DecimalInjective(m: nat, n: nat)
    requires Decimal(m) == Decimal(n)
    ensures m == n
  {
    var a, b := Decimal(m), Decimal(n);
    assert a[|a| - 1] == b[|b| - 1];
    assert m % 10 == n % 10;
    if m >= 10 && n >= 10 {
      assert a[..|a| - 1] == Decimal(m / 10) && b[..|b| - 1] == Decimal(n / 10);
      DecimalInjective(m / 10, n / 10);
    }
  }
}
