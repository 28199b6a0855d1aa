/** Agent ids and project keys: what normalizing a name yields, and that it is final. */
module Names {
  import opened Common
  import Text
  import Paths
  import AgentConfig
  import Manifest
  import WorkspaceConfig
  import opened Json

  /** `toLowerCase`, up to letters that stay outside ASCII: those are replaced by hyphens in any case. */
  function LowerOf(c: char): string {
    if 'A' <= c <= 'Z' then [c - 'A' + 'a']
    else if c == '\U{212A}' then "k"
    else if c == '\U{130}' then ['i', '\U{307}']
    else [c]
  }

  function Lower(s: string): string {
    if s == "" then "" else LowerOf(s[0]) + Lower(s[1..])
  }

  predicate Alphanumeric(c: char) {
    'a' <= c <= 'z' || '0' <= c <= '9'
  }

  predicate InAgentId(c: char) {
    Alphanumeric(c) || c == '_' || c == '-'
  }

  /** Underscores and hyphens stay in agent ids. */
  predicate Keeps(inId: bool, c: char) {
    if inId then InAgentId(c) else Alphanumeric(c)
  }

  /** Every maximal run of other characters becomes one hyphen; `inRun` tells whether one was just replaced. */
  function Hyphened(s: string, inId: bool, inRun: bool): string {
    if s == "" then ""
    else if Keeps(inId, s[0]) then [s[0]] + Hyphened(s[1..], inId, false)
    else if inRun then Hyphened(s[1..], inId, true)
    else "-" + Hyphened(s[1..], inId, true)
  }

  function StripStart(s: string): (r: string)
    ensures r == "" || r[0] != '-'
    ensures |r| <= |s| && r == s[|s| - |r|..]
  {
    if s != "" && s[0] == '-' then StripStart(s[1..]) else s
  }

  function StripEnd(s: string): (r: string)
    ensures r == "" || r[|r| - 1] != '-'
    ensures r <= s
  {
    if s != "" && s[|s| - 1] == '-' then StripEnd(s[..|s| - 1]) else s
  }

  function Cut(s: string, n: nat): string {
    if |s| <= n then s else s[..n]
  }

  /** `deriveStableProjectKey`. */
  function ProjectKey(text: string): string {
    StripEnd(Cut(StripEnd(StripStart(Hyphened(Lower(text), false, false))), 50))
  }

  function IdOf(lowered: string): string {
    var id := StripEnd(StripStart(Hyphened(lowered, true, false)));
    if id == "" then "main" else id
  }

  /** `normalizeAgentId`, with the empty string for what is not a string. */
  function AgentId(value: string): string {
    IdOf(Lower(Text.Trim(value)))
  }

  /** Letters, digits and hyphens, and no two hyphens meet. */
  predicate Sparse(k: string) {
    && (forall i :: 0 <= i < |k| ==> Alphanumeric(k[i]) || k[i] == '-')
    && (forall i :: 0 <= i < |k| - 1 ==> k[i] != '-' || k[i + 1] != '-')
  }

  /** Words of letters and digits joined by single hyphens, at most 50 characters; or nothing. */
  predicate IsProjectKey(k: string) {
    |k| <= 50 && Sparse(k) && (k != "" ==> k[0] != '-' && k[|k| - 1] != '-')
  }

  predicate IsAgentId(id: string) {
    && id != "" && IdChars(id)
    && id[0] != '-' && id[|id| - 1] != '-'
  }

  lemma {:induction false} LowerFixed(s: string)
    requires IdChars(s)
    ensures Lower(s) == s
  {
    if s != "" {
      LowerFixed(s[1..]);
    }
  }

  lemma SparseCons(c: char, rest: string)
    requires Sparse(rest) && (Alphanumeric(c) || (c == '-' && (rest == "" || rest[0] != '-')))
    ensures Sparse([c] + rest)
  {
    var r := [c] + rest;
    forall i | 0 <= i < |r| - 1 ensures r[i] != '-' || r[i + 1] != '-' {
      assert r[i + 1] == rest[i];
      if i > 0 {
        assert r[i] == rest[i - 1] && r[i + 1] == rest[(i - 1) + 1];
      }
    }
  }

  /** Hyphens only come from runs, and two of them never meet. */
  lemma {:induction false} HyphenedIsSparse(s: string, inRun: bool)
    ensures Sparse(Hyphened(s, false, inRun))
    ensures inRun && Hyphened(s, false, true) != "" ==> Hyphened(s, false, true)[0] != '-'
  {
    if s != "" {
      HyphenedIsSparse(s[1..], !Alphanumeric(s[0]));
      var rest := Hyphened(s[1..], false, !Alphanumeric(s[0]));
      if Alphanumeric(s[0]) {
        SparseCons(s[0], rest);
      } else if !inRun {
        SparseCons('-', rest);
      }
    }
  }

  lemma {:induction false} HyphenedFixed(s: string)
    requires Sparse(s)
    ensures Hyphened(s, false, false) == s
    ensures s != "" && s[0] != '-' ==> Hyphened(s, false, true) == s
  {
    if s != "" {
      SparsePart(s, 1, |s|);
      HyphenedFixed(s[1..]);
      if s[0] == '-' && |s| > 1 {
        assert s[0 + 1] != '-';
      }
    }
  }

  lemma SparsePart(s: string, from: nat, to: nat)
    requires Sparse(s) && from <= to <= |s|
    ensures Sparse(s[from..to])
  {
    var part := s[from..to];
    forall i | 0 <= i < |part| - 1 ensures part[i] != '-' || part[i + 1] != '-' {
      assert part[i] == s[from + i] && part[i + 1] == s[(from + i) + 1];
    }
  }

  /** No hyphen in front. */
  predicate Started(s: string) {
    s == "" || s[0] != '-'
  }

  predicate Ended(s: string) {
    s == "" || s[|s| - 1] != '-'
  }

  lemma StartStage(s: string)
    requires Sparse(s)
    ensures Sparse(StripStart(s)) && Started(StripStart(s)) && (Started(s) ==> StripStart(s) == s)
  {
    SparsePart(s, |s| - |StripStart(s)|, |s|);
  }

  lemma EndStage(s: string)
    requires Sparse(s) && Started(s)
    ensures Sparse(StripEnd(s)) && Started(StripEnd(s)) && Ended(StripEnd(s)) && |StripEnd(s)| <= |s|
    ensures Ended(s) ==> StripEnd(s) == s
  {
    SparsePart(s, 0, |StripEnd(s)|);
    assert s[0..|StripEnd(s)|] == StripEnd(s);
    if s != "" {
      StripEndKeepsStart(s);
    }
  }

  lemma CutStage(s: string)
    requires Sparse(s) && Started(s)
    ensures Sparse(Cut(s, 50)) && Started(Cut(s, 50)) && |Cut(s, 50)| <= 50
  {
    SparsePart(s, 0, |Cut(s, 50)|);
    assert s[0..|Cut(s, 50)|] == Cut(s, 50);
  }

  lemma {:induction false} StripEndKeepsStart(s: string)
    requires s != "" && s[0] != '-'
    ensures StripEnd(s) != "" && StripEnd(s)[0] == s[0]
  {
    if s[|s| - 1] == '-' {
      StripEndKeepsStart(s[..|s| - 1]);
    }
  }

  lemma ProjectKeyShape(text: string)
    ensures IsProjectKey(ProjectKey(text))
  {
    var h := Hyphened(Lower(text), false, false);
    HyphenedIsSparse(Lower(text), false);
    CutShape(h);
  }

  lemma CutShape(h: string)
    requires Sparse(h)
    ensures IsProjectKey(StripEnd(Cut(StripEnd(StripStart(h)), 50)))
    ensures IsProjectKey(h) ==> StripEnd(Cut(StripEnd(StripStart(h)), 50)) == h
  {
    StartStage(h);
    CutStarted(StripStart(h));
  }

  lemma CutStarted(s: string)
    requires Sparse(s) && Started(s)
    ensures IsProjectKey(StripEnd(Cut(StripEnd(s), 50)))
    ensures IsProjectKey(s) ==> StripEnd(Cut(StripEnd(s), 50)) == s
  {
    EndStage(s);
    CutEnded(StripEnd(s));
  }

  lemma CutEnded(s: string)
    requires Sparse(s) && Started(s)
    ensures IsProjectKey(StripEnd(Cut(s, 50)))
    ensures IsProjectKey(s) ==> StripEnd(Cut(s, 50)) == s
  {
    CutStage(s);
    EndStage(Cut(s, 50));
  }

  /** The project keys are exactly the texts that are their own key. */
  lemma ProjectKeyFixedIff(text: string)
    ensures ProjectKey(text) == text <==> IsProjectKey(text)
  {
    ProjectKeyShape(text);
    if IsProjectKey(text) {
      LowerFixed(text);
      HyphenedFixed(text);
      CutShape(text);
    }
  }

  lemma ProjectKeyIdempotent(text: string)
    ensures ProjectKey(ProjectKey(text)) == ProjectKey(text)
  {
    ProjectKeyShape(text);
    ProjectKeyFixedIff(ProjectKey(text));
  }

  predicate IdChars(s: string) {
    forall i :: 0 <= i < |s| ==> InAgentId(s[i])
  }

  lemma IdCharsCons(c: char, rest: string)
    ensures IdChars([c] + rest) <==> InAgentId(c) && IdChars(rest)
  {
    var r := [c] + rest;
    assert r[0] == c && forall i :: 0 <= i < |rest| ==> r[i + 1] == rest[i];
  }

  lemma {:induction false} HyphenedIds(s: string, inRun: bool)
    ensures IdChars(Hyphened(s, true, inRun))
    ensures IdChars(s) ==> Hyphened(s, true, inRun) == s
  {
    if s != "" {
      var rest := Hyphened(s[1..], true, !InAgentId(s[0]));
      HyphenedIds(s[1..], !InAgentId(s[0]));
      assert s == [s[0]] + s[1..];
      IdCharsCons(s[0], s[1..]);
      IdCharsCons(s[0], rest);
      IdCharsCons('-', rest);
    }
  }

  lemma StripIsId(s: string)
    requires IdChars(s)
    ensures var r := StripEnd(StripStart(s));
            (r != "" ==> IsAgentId(r)) && (IsAgentId(s) ==> r == s)
  {
    StripStartKeeps(s);
    StripEndIsId(StripStart(s));
  }

  lemma {:induction false} StripStartKeeps(s: string)
    requires IdChars(s)
    ensures Started(StripStart(s)) && IdChars(StripStart(s)) && (Started(s) ==> StripStart(s) == s)
  {
    if s != "" {
      assert s == [s[0]] + s[1..];
      IdCharsCons(s[0], s[1..]);
      if s[0] == '-' {
        StripStartKeeps(s[1..]);
      }
    }
  }

  lemma StripEndIsId(s: string)
    requires Started(s) && IdChars(s)
    ensures StripEnd(s) != "" ==> IsAgentId(StripEnd(s))
    ensures IsAgentId(s) ==> StripEnd(s) == s
  {
    if s != "" {
      StripEndKeepsStart(s);
    }
  }

  lemma AgentIdShape(value: string)
    ensures IsAgentId(AgentId(value))
  {
    IdOfIsId(Lower(Text.Trim(value)));
  }

  lemma IdOfIsId(lowered: string)
    ensures IsAgentId(IdOf(lowered))
  {
    HyphenedIds(lowered, false);
    StripIsId(Hyphened(lowered, true, false));
    MainIsId();
  }

  lemma MainIsId()
    ensures IsAgentId("main")
  {
  }

  /** The agent ids are exactly the names that normalize to themselves. */
  lemma AgentIdFixedIff(value: string)
    ensures AgentId(value) == value <==> IsAgentId(value)
  {
    AgentIdShape(value);
    if IsAgentId(value) {
      IdIsTrimmed(value);
      LowerFixed(value);
      HyphenedIds(value, false);
      StripIsId(value);
    }
  }

  lemma IdIsTrimmed(value: string)
    requires IsAgentId(value)
    ensures Text.Trim(value) == value
  {
    assert InAgentId(value[0]) && InAgentId(value[|value| - 1]);
    Text.TrimFixed(value);
  }

  // ---- what becomes of the parts of a name

  /** A word of a name, in lower case `low`: its letters, digits and, in ids, underscores and hyphens. */
  predicate IsWord(word: string, low: string, inId: bool) {
    |word| == |low| > 0 && forall i :: 0 <= i < |word| ==>
      if 'A' <= word[i] <= 'Z' then low[i] == word[i] - 'A' + 'a'
      else low[i] == word[i] && ('a' <= word[i] <= 'z' || '0' <= word[i] <= '9' || (inId && word[i] in {'_', '-'}))
  }

  /** What stands between words; two characters outside ASCII have a letter for their lower case. */
  predicate IsGap(gap: string, inId: bool) {
    forall i :: 0 <= i < |gap| ==>
      && !('A' <= gap[i] <= 'Z' || 'a' <= gap[i] <= 'z' || '0' <= gap[i] <= '9' || gap[i] in {'\U{212A}', '\U{130}'})
      && (inId ==> gap[i] !in {'_', '-'})
  }

  /** A text made of words, each with what follows it. */
  datatype Part = Part(word: string, low: string, gap: string)

  predicate Parts(parts: seq<Part>, inId: bool) {
    && (forall i :: 0 <= i < |parts| ==> IsWord(parts[i].word, parts[i].low, inId) && IsGap(parts[i].gap, inId))
    && (forall i :: 0 <= i < |parts| - 1 ==> parts[i].gap != "")
  }

  function Whole(parts: seq<Part>): string {
    if parts == [] then "" else parts[0].word + parts[0].gap + Whole(parts[1..])
  }

  function Hyphenated(parts: seq<Part>): string {
    if parts == [] then ""
    else if |parts| == 1 then parts[0].low
    else parts[0].low + "-" + Hyphenated(parts[1..])
  }

  lemma LowerCons(c: char, rest: string)
    ensures Lower([c] + rest) == LowerOf(c) + Lower(rest)
  {
    assert ([c] + rest)[1..] == rest;
  }

  lemma HyphenedCons(c: char, rest: string, inId: bool, inRun: bool)
    ensures Hyphened([c] + rest, inId, inRun) ==
              if Keeps(inId, c) then [c] + Hyphened(rest, inId, false) else (if inRun then "" else "-") + Hyphened(rest, inId, true)
  {
    assert ([c] + rest)[1..] == rest;
  }

  lemma HyphenedLetter(c: char, low: char, rest: string, inId: bool, inRun: bool)
    requires IsWord([c], [low], inId)
    ensures Hyphened(Lower([c] + rest), inId, inRun) == [low] + Hyphened(Lower(rest), inId, false)
  {
    assert [c][0] == c && [low][0] == low;
    LowerCons(c, rest);
    HyphenedCons(low, Lower(rest), inId, inRun);
  }

  lemma HyphenedOther(c: char, rest: string, inId: bool, inRun: bool)
    requires IsGap([c], inId)
    ensures Hyphened(Lower([c] + rest), inId, inRun) == (if inRun then "" else "-") + Hyphened(Lower(rest), inId, true)
  {
    assert [c][0] == c;
    LowerCons(c, rest);
    HyphenedCons(c, Lower(rest), inId, inRun);
  }

  lemma WordTail(word: string, low: string, inId: bool)
    requires IsWord(word, low, inId)
    ensures IsWord([word[0]], [low[0]], inId) && (|word| > 1 ==> IsWord(word[1..], low[1..], inId))
  {
  }

  /** `h` is what is left to write at a text, and whether a hyphen was just written. */
  lemma {:induction false} WordBy(h: (string, bool) -> string, word: string, low: string, rest: string, inId: bool, inRun: bool)
    requires IsWord(word, low, inId) && forall c, l, r, b :: WritesLetter(h, c, l, r, b, inId)
    ensures h(word + rest, inRun) == low + h(rest, false)
  {
    WordTail(word, low, inId);
    assert WritesLetter(h, word[0], low[0], word[1..] + rest, inRun, inId);
    assert word + rest == [word[0]] + (word[1..] + rest);
    if |word| == 1 {
      assert word[1..] + rest == rest && low == [low[0]];
    } else {
      WordBy(h, word[1..], low[1..], rest, inId, false);
      assert low + h(rest, false) == [low[0]] + (low[1..] + h(rest, false));
    }
  }

  ghost predicate WritesLetter(h: (string, bool) -> string, c: char, low: char, rest: string, inRun: bool, inId: bool) {
    IsWord([c], [low], inId) ==> h([c] + rest, inRun) == [low] + h(rest, false)
  }

  lemma HyphenedWord(word: string, low: string, rest: string, inId: bool, inRun: bool)
    requires IsWord(word, low, inId)
    ensures Hyphened(Lower(word + rest), inId, inRun) == low + Hyphened(Lower(rest), inId, false)
  {
    var h := (t, b) => Hyphened(Lower(t), inId, b);
    forall c, l, r, b ensures WritesLetter(h, c, l, r, b, inId) {
      if IsWord([c], [l], inId) {
        HyphenedLetter(c, l, r, inId, b);
      }
    }
    WordBy(h, word, low, rest, inId, inRun);
  }

  ghost predicate WritesGap(h: (string, bool) -> string, c: char, rest: string, inRun: bool, inId: bool) {
    IsGap([c], inId) ==> h([c] + rest, inRun) == (if inRun then "" else "-") + h(rest, true)
  }

  lemma {:induction false} GapBy(h: (string, bool) -> string, gap: string, rest: string, inId: bool, inRun: bool)
    requires IsGap(gap, inId) && gap != "" && forall c, r, b :: WritesGap(h, c, r, b, inId)
    ensures h(gap + rest, inRun) == (if inRun then "" else "-") + h(rest, true)
  {
    assert WritesGap(h, gap[0], gap[1..] + rest, inRun, inId);
    assert gap + rest == [gap[0]] + (gap[1..] + rest);
    if |gap| == 1 {
      assert gap[1..] + rest == rest;
    } else {
      GapBy(h, gap[1..], rest, inId, true);
    }
  }

  lemma HyphenedGap(gap: string, rest: string, inId: bool, inRun: bool)
    requires IsGap(gap, inId) && gap != ""
    ensures Hyphened(Lower(gap + rest), inId, inRun) == (if inRun then "" else "-") + Hyphened(Lower(rest), inId, true)
  {
    var h := (t, b) => Hyphened(Lower(t), inId, b);
    forall c, r, b ensures WritesGap(h, c, r, b, inId) {
      if IsGap([c], inId) {
        HyphenedOther(c, r, inId, b);
      }
    }
    GapBy(h, gap, rest, inId, inRun);
  }

  lemma HyphenedPart(p: Part, rest: string, inId: bool, inRun: bool)
    requires IsWord(p.word, p.low, inId) && IsGap(p.gap, inId)
    ensures Hyphened(Lower(p.word + p.gap + rest), inId, inRun) ==
              if p.gap == "" then p.low + Hyphened(Lower(rest), inId, false) else p.low + ("-" + Hyphened(Lower(rest), inId, true))
  {
    assert p.word + p.gap + rest == p.word + (p.gap + rest);
    HyphenedWord(p.word, p.low, p.gap + rest, inId, inRun);
    if p.gap != "" {
      HyphenedGap(p.gap, rest, inId, false);
    } else {
      assert p.gap + rest == rest;
    }
  }

  function Trail(gap: string): string {
    if gap == "" then "" else "-"
  }

  lemma HyphenedNothing(inId: bool, inRun: bool)
    ensures Hyphened(Lower(""), inId, inRun) == ""
  {
  }

  /** Words come out in lower case with one hyphen between them, whatever stood there. */
  lemma {:induction false} HyphenedParts(parts: seq<Part>, inId: bool, inRun: bool)
    requires Parts(parts, inId) && parts != []
    ensures Hyphened(Lower(Whole(parts)), inId, inRun) == Hyphenated(parts) + Trail(parts[|parts| - 1].gap)
  {
    HyphenedPart(parts[0], Whole(parts[1..]), inId, inRun);
    if |parts| > 1 {
      PartsTail(parts, inId);
      HyphenedParts(parts[1..], inId, true);
      HyphensAssoc(parts[0].low, Hyphenated(parts[1..]), Trail(parts[|parts| - 1].gap));
    } else {
      HyphenedNothing(inId, true);
      HyphenedNothing(inId, false);
    }
  }

  lemma PartsTail(parts: seq<Part>, inId: bool)
    requires Parts(parts, inId) && |parts| > 1
    ensures Parts(parts[1..], inId) && parts[0].gap != ""
  {
    var tail := parts[1..];
    forall i | 0 <= i < |tail| - 1 ensures tail[i].gap != "" {
      assert tail[i] == parts[i + 1];
    }
  }

  lemma HyphensAssoc(a: string, b: string, c: string)
    ensures a + ("-" + (b + c)) == a + "-" + b + c
  {
  }

  lemma StripEndMore(s: string)
    ensures StripEnd(s + "-") == StripEnd(s)
  {
    assert (s + "-")[..|s|] == s;
  }

  lemma StripStartMore(s: string)
    ensures StripStart("-" + s) == StripStart(s)
  {
    assert ("-" + s)[1..] == s;
  }

  lemma StripEndTrail(core: string, gap: string)
    requires core != "" && core[|core| - 1] != '-'
    ensures StripEnd(core + Trail(gap)) == core
  {
    if gap == "" {
      assert core + "" == core;
    } else {
      StripEndMore(core);
    }
  }

  lemma StripStartTrail(lead: string, s: string)
    requires s != "" && s[0] != '-'
    ensures StripStart(Trail(lead) + s) == s
  {
    if lead == "" {
      assert "" + s == s;
    } else {
      StripStartMore(s);
    }
  }

  lemma StripHyphens(lead: string, core: string, gap: string)
    requires core != "" && core[0] != '-' && core[|core| - 1] != '-'
    ensures StripEnd(StripStart(Trail(lead) + (core + Trail(gap)))) == core
  {
    assert (core + Trail(gap))[0] == core[0];
    StripStartTrail(lead, core + Trail(gap));
    StripEndTrail(core, gap);
  }

  lemma {:induction false} HyphenatedEnds(parts: seq<Part>, inId: bool)
    requires Parts(parts, inId) && parts != []
    ensures var h := Hyphenated(parts);
            h != "" && h[0] == parts[0].low[0] && h[|h| - 1] == parts[|parts| - 1].low[|parts[|parts| - 1].low| - 1]
  {
    if |parts| > 1 {
      HyphenatedEnds(parts[1..], inId);
    }
  }

  /** A name is cut into words at whatever is no letter or digit; `lead` is what stands before the first of them. */
  lemma HyphenedText(lead: string, parts: seq<Part>, inId: bool)
    requires IsGap(lead, inId) && Parts(parts, inId) && parts != []
    requires parts[0].low[0] != '-' && parts[|parts| - 1].low[|parts[|parts| - 1].low| - 1] != '-'
    ensures StripEnd(StripStart(Hyphened(Lower(lead + Whole(parts)), inId, false))) == Hyphenated(parts)
  {
    HyphenedParts(parts, inId, lead != "");
    HyphenatedEnds(parts, inId);
    StripHyphens(lead, Hyphenated(parts), parts[|parts| - 1].gap);
    LeadSpelled(lead, Whole(parts), inId);
  }

  lemma LeadSpelled(lead: string, rest: string, inId: bool)
    requires IsGap(lead, inId)
    ensures Hyphened(Lower(lead + rest), inId, false) == Trail(lead) + Hyphened(Lower(rest), inId, lead != "")
  {
    if lead != "" {
      HyphenedGap(lead, rest, inId, false);
    } else {
      assert lead + rest == rest;
    }
  }

  /** A project key is the words of the text in lower case, joined by single hyphens, and cut off after 50 characters. */
  lemma ProjectKeySpelled(lead: string, parts: seq<Part>)
    requires IsGap(lead, false) && Parts(parts, false) && parts != []
    ensures var joined, key := Hyphenated(parts), ProjectKey(lead + Whole(parts));
            if |joined| <= 50 then key == joined else key == if joined[49] == '-' then joined[..49] else joined[..50]
  {
    HyphenatedEnds(parts, false);
    HyphenedText(lead, parts, false);
    CutEnds(Hyphenated(parts), Lower(lead + Whole(parts)));
  }

  lemma CutEnds(joined: string, lowered: string)
    requires joined == StripEnd(StripStart(Hyphened(lowered, false, false)))
    ensures StripEnd(Cut(joined, 50)) == if |joined| <= 50 then joined else if joined[49] == '-' then joined[..49] else joined[..50]
  {
    HyphenedIsSparse(lowered, false);
    StartStage(Hyphened(lowered, false, false));
    EndStage(StripStart(Hyphened(lowered, false, false)));
    if |joined| > 50 {
      CutSparse(joined);
    }
  }

  lemma CutSparse(joined: string)
    requires |joined| > 50 && Sparse(joined)
    ensures StripEnd(Cut(joined, 50)) == if joined[49] == '-' then joined[..49] else joined[..50]
  {
    if joined[49] == '-' {
      assert joined[48 + 1] == '-';
      StripEndMore(joined[..49]);
      assert joined[..50] == joined[..49] + "-";
      assert joined[..49][48] == joined[48];
    } else {
      assert joined[..50][49] == joined[49];
    }
  }

  /** A text without any letter or digit has no project key, and one without any that an id may have is `main`. */
  lemma NothingSpelled(gap: string)
    ensures IsGap(gap, false) ==> ProjectKey(gap) == ""
    ensures IsGap(gap, true) ==> AgentId(gap) == "main"
  {
    if IsGap(gap, false) {
      GapIsGone(gap, false);
    }
    if IsGap(gap, true) {
      TrimmedGap(gap);
      GapIsGone(Text.Trim(gap), true);
    }
  }

  lemma TrimmedGap(gap: string)
    requires IsGap(gap, true)
    ensures IsGap(Text.Trim(gap), true)
  {
    var before, after := Text.TrimSpelled(gap);
    var trimmed := Text.Trim(gap);
    forall i | 0 <= i < |trimmed| ensures trimmed[i] == gap[|before| + i] {
    }
  }

  lemma GapIsGone(gap: string, inId: bool)
    requires IsGap(gap, inId)
    ensures StripEnd(StripStart(Hyphened(Lower(gap), inId, false))) == ""
  {
    if gap != "" {
      HyphenedGap(gap, "", inId, false);
      assert gap + "" == gap;
      assert Lower("") == "" && Hyphened("", inId, true) == "";
      assert StripStart("-") == StripStart("-"[1..]) && "-"[1..] == "";
    } else {
      assert Lower("") == "";
    }
  }

  predicate AllHyphens(s: string) {
    forall i :: 0 <= i < |s| ==> s[i] == '-'
  }

  lemma {:induction false} StripStartSpelled(s: string)
    ensures forall i :: 0 <= i < |s| - |StripStart(s)| ==> s[i] == '-'
  {
    if s != "" && s[0] == '-' {
      StripStartSpelled(s[1..]);
      forall i | 0 < i < |s| - |StripStart(s)| ensures s[i] == '-' {
        assert s[1..][i - 1] == s[i];
      }
    }
  }

  lemma {:induction false} StripEndSpelled(s: string)
    ensures forall i :: |StripEnd(s)| <= i < |s| ==> s[i] == '-'
  {
    if s != "" && s[|s| - 1] == '-' {
      StripEndSpelled(s[..|s| - 1]);
      forall i | |StripEnd(s)| <= i < |s| - 1 ensures s[i] == '-' {
        assert s[..|s| - 1][i] == s[i];
      }
    }
  }

  lemma StripSpelled(s: string) returns (before: string, after: string)
    ensures s == before + StripEnd(StripStart(s)) + after && AllHyphens(before) && AllHyphens(after)
  {
    StripStartSpelled(s);
    StripEndSpelled(StripStart(s));
    before, after := Text.Outside(s, StripStart(s), StripEnd(StripStart(s)));
  }

  /**
    * An agent id is the words of the trimmed name in lower case, joined by single hyphens, without the hyphens in front
    * and at the end; `main` if nothing is left. Hyphens and underscores belong to the words here.
    */
  lemma AgentIdSpelled(value: string, lead: string, parts: seq<Part>) returns (before: string, core: string, after: string)
    requires IsGap(lead, true) && Parts(parts, true) && parts != [] && Text.Trim(value) == lead + Whole(parts)
    ensures Trail(lead) + (Hyphenated(parts) + Trail(parts[|parts| - 1].gap)) == before + core + after
    ensures AllHyphens(before) && AllHyphens(after) && (core != "" ==> core[0] != '-' && core[|core| - 1] != '-')
    ensures AgentId(value) == if core == "" then "main" else core
  {
    LeadSpelled(lead, Whole(parts), true);
    HyphenedParts(parts, true, lead != "");
    before, core, after := StripOf(Hyphened(Lower(Text.Trim(value)), true, false));
  }

  lemma StripOf(h: string) returns (before: string, core: string, after: string)
    ensures core == StripEnd(StripStart(h)) && h == before + core + after
    ensures AllHyphens(before) && AllHyphens(after) && (core != "" ==> core[0] != '-' && core[|core| - 1] != '-')
  {
    before, after := StripSpelled(h);
    core := StripEnd(StripStart(h));
    StripIsStripped(StripStart(h));
  }

  lemma StripIsStripped(s: string)
    requires Started(s)
    ensures Started(StripEnd(s)) && Ended(StripEnd(s))
  {
    if s != "" {
      StripEndKeepsStart(s);
    }
  }

  // ---- the real string functions meet what the configuration logic assumes

  lemma {:induction false} TrimEndKeepsStart(s: string)
    requires s != "" && !Text.IsSpace(s[0])
    ensures Text.TrimEnd(s) != "" && Text.TrimEnd(s)[0] == s[0]
  {
    if Text.IsSpace(s[|s| - 1]) {
      TrimEndKeepsStart(s[..|s| - 1]);
    }
  }

  lemma TrimSize(s: string)
    ensures |Text.Trim(s)| <= |s| && (|Text.Trim(s)| == |s| ==> Text.Trim(s) == s)
  {
    var started := Text.TrimStart(s);
    if |started| == |s| {
      assert started == s;
    }
  }

  /** The host uses the string functions modelled here. */
  ghost predicate UsesThese(host: AgentConfig.Host) {
    forall s :: Treats(host, s)
  }

  /** It treats this text as modelled. */
  ghost predicate Treats(host: AgentConfig.Host, s: string) {
    host.trim(s) == Text.Trim(s) && host.agentId(s) == AgentId(s)
  }

  lemma HostTrims(host: AgentConfig.Host, s: string)
    requires UsesThese(host)
    ensures host.trim(s) == Text.Trim(s)
  {
    assert Treats(host, s);
  }

  lemma HostNames(host: AgentConfig.Host, s: string)
    requires UsesThese(host)
    ensures host.agentId(s) == AgentId(s)
  {
    assert Treats(host, s);
  }

  lemma TrimKeepsAbsolute(s: string)
    requires Paths.IsAbsolute(s)
    ensures Paths.IsAbsolute(Text.Trim(s))
  {
    assert Text.TrimStart(s) == s;
    TrimEndKeepsStart(s);
  }

  lemma TrimLaws(host: AgentConfig.Host, s: string)
    requires UsesThese(host)
    ensures host.trim(host.trim(s)) == host.trim(s)
    ensures |host.trim(s)| <= |s| && (|host.trim(s)| == |s| ==> host.trim(s) == s)
    ensures Paths.IsAbsolute(s) ==> Paths.IsAbsolute(host.trim(s))
  {
    HostTrims(host, s);
    HostTrims(host, Text.Trim(s));
    Text.TrimIdempotent(s);
    TrimSize(s);
    if Paths.IsAbsolute(s) {
      TrimKeepsAbsolute(s);
    }
  }

  lemma ConstantsAreIds()
    ensures IsAgentId(AgentConfig.RECOMMENDED_SECURITY) && IsAgentId(AgentConfig.RECOMMENDED_ASK) && IsAgentId(AgentConfig.TEAMCLAW)
  {
  }

  lemma IdIsKept(host: AgentConfig.Host, id: string)
    requires UsesThese(host) && IsAgentId(id)
    ensures host.trim(id) == id && host.agentId(id) == id
  {
    HostTrims(host, id);
    HostNames(host, id);
    IdIsTrimmed(id);
    AgentIdFixedIff(id);
  }

  ghost predicate TrimIsLawful(host: AgentConfig.Host) {
    forall s ::
      && host.trim(host.trim(s)) == host.trim(s) && |host.trim(s)| <= |s|
      && (|host.trim(s)| == |s| ==> host.trim(s) == s)
      && (Paths.IsAbsolute(s) ==> Paths.IsAbsolute(host.trim(s)))
  }

  lemma TrimOfHost(host: AgentConfig.Host)
    requires UsesThese(host)
    ensures TrimIsLawful(host)
  {
    forall s
      ensures host.trim(host.trim(s)) == host.trim(s) && |host.trim(s)| <= |s|
      ensures |host.trim(s)| == |s| ==> host.trim(s) == s
      ensures Paths.IsAbsolute(s) ==> Paths.IsAbsolute(host.trim(s))
    {
      TrimLaws(host, s);
    }
  }

  lemma IdsOfHost(host: AgentConfig.Host)
    requires UsesThese(host)
    ensures forall s :: host.agentId(s) != ""
  {
    forall s ensures host.agentId(s) != "" {
      AgentIdShape(s);
      HostNames(host, s);
    }
  }

  ghost predicate KeepsIds(host: AgentConfig.Host) {
    forall id :: IsAgentId(id) ==> host.trim(id) == id && host.agentId(id) == id
  }

  lemma HostKeepsIds(host: AgentConfig.Host)
    requires UsesThese(host)
    ensures KeepsIds(host)
  {
    forall id | IsAgentId(id) ensures host.trim(id) == id && host.agentId(id) == id {
      IdIsKept(host, id);
    }
  }

  lemma LawsMakeLawful(host: AgentConfig.Host)
    requires TrimIsLawful(host) && KeepsIds(host) && (forall s :: host.agentId(s) != "") && host.trim(host.agentDir) != ""
    ensures AgentConfig.Lawful(host)
  {
    ConstantsAreIds();
  }

  lemma HostIsLawful(host: AgentConfig.Host)
    requires UsesThese(host) && host.trim(host.agentDir) != ""
    ensures AgentConfig.Lawful(host)
  {
    TrimOfHost(host);
    IdsOfHost(host);
    HostKeepsIds(host);
    LawsMakeLawful(host);
  }

  // ---- the two inputs the workspace update does not handle

  lemma CapitalIdBecomes()
    ensures AgentId("Main") == "main" && AgentId("main") == "main"
  {
    Text.TrimFixed("Main");
    var rest := "Main"[1..];
    assert rest == "ain" && Lower("Main") == LowerOf('M') + Lower(rest);
    LowerFixed(rest);
    assert Lower("Main") == "main";
    MainIsId();
    AgentIdFixedIff("main");
    IdIsTrimmed("main");
    LowerFixed("main");
  }

  lemma IdOfHost(host: AgentConfig.Host, name: string, id: string)
    requires UsesThese(host) && AgentId(name) == id
    ensures host.agentId(name) == id
  {
    HostNames(host, name);
  }

  /** With the real normalization, an agent listed as `Main` is found before the update and not after it. */
  lemma CapitalIdIsLost(host: AgentConfig.Host, path: string) returns (doc: Fields)
    requires UsesThese(host) && host.trim(host.agentDir) != ""
    ensures AgentConfig.ResolveEntry(host, doc, "main").Some?
    ensures AgentConfig.ResolveEntry(host, WorkspaceConfig.Updated(host, doc, path), "main").None?
  {
    HostIsLawful(host);
    CapitalIdBecomes();
    IdOfHost(host, "Main", "main");
    IdOfHost(host, "main", "main");
    doc := WorkspaceConfig.CapitalIdIsLost(host, path);
  }

  /** With the real trimming, a directory `/name /` is stored as `/name `, and that is not read back. */
  lemma TrailingSpaceIsLost(host: AgentConfig.Host, name: string)
    requires UsesThese(host) && host.trim(host.agentDir) != ""
    requires '/' !in name
    ensures WorkspaceConfig.PathFor(host, WorkspaceConfig.SpacedDir(name)) == WorkspaceConfig.SpacedPath(name)
    ensures WorkspaceConfig.ExpandUserPath(host, WorkspaceConfig.SpacedPath(name)) != WorkspaceConfig.SpacedPath(name)
  {
    HostIsLawful(host);
    SpacedTrims(name);
    HostTrims(host, WorkspaceConfig.SpacedDir(name));
    HostTrims(host, WorkspaceConfig.SpacedPath(name));
    WorkspaceConfig.TrailingSpaceIsLost(host, name);
  }

  lemma SpacedTrims(name: string)
    ensures Text.Trim(WorkspaceConfig.SpacedDir(name)) == WorkspaceConfig.SpacedDir(name)
    ensures Text.Trim(WorkspaceConfig.SpacedPath(name)) != WorkspaceConfig.SpacedPath(name)
  {
    SpacedEnds(name);
    Text.TrimFixed(WorkspaceConfig.SpacedDir(name));
    SpaceIsTrimmed(WorkspaceConfig.SpacedPath(name));
  }

  lemma SpacedEnds(name: string)
    ensures Text.IsTrimmed(WorkspaceConfig.SpacedDir(name))
    ensures var path := WorkspaceConfig.SpacedPath(name); path != "" && Text.IsSpace(path[|path| - 1])
  {
    var dir, path := WorkspaceConfig.SpacedDir(name), WorkspaceConfig.SpacedPath(name);
    assert dir[0] == '/' && dir[|dir| - 1] == '/' && path[|path| - 1] == ' ';
  }

  lemma SpaceIsTrimmed(text: string)
    requires text != "" && Text.IsSpace(text[|text| - 1])
    ensures Text.Trim(text) != text
  {
    assert Text.IsTrimmed(Text.Trim(text));
  }

  /** And so do the manifest's. */
  ghost predicate ManifestUsesThese(s: Manifest.Strings) {
    forall t :: TreatsText(s, t)
  }

  ghost predicate TreatsText(s: Manifest.Strings, t: string) {
    s.trim(t) == Text.Trim(t) && s.key(t) == ProjectKey(t)
  }

  lemma KeyIsTrimmed(k: string)
    requires IsProjectKey(k)
    ensures Text.Trim(k) == k
  {
    if k != "" {
      assert Alphanumeric(k[0]) && Alphanumeric(k[|k| - 1]);
    }
    Text.TrimFixed(k);
  }

  lemma KeyLaws(s: Manifest.Strings, t: string)
    requires ManifestUsesThese(s)
    ensures s.trim(s.trim(t)) == s.trim(t) && s.key(s.key(t)) == s.key(t) && s.trim(s.key(t)) == s.key(t)
  {
    assert TreatsText(s, t) && TreatsText(s, Text.Trim(t)) && TreatsText(s, ProjectKey(t));
    Text.TrimIdempotent(t);
    ProjectKeyShape(t);
    ProjectKeyIdempotent(t);
    KeyIsTrimmed(ProjectKey(t));
  }

  ghost predicate KeysAreLawful(s: Manifest.Strings) {
    && (forall t :: s.trim(s.trim(t)) == s.trim(t))
    && (forall t :: s.key(s.key(t)) == s.key(t) && s.trim(s.key(t)) == s.key(t))
    && (forall t :: Text.IsTrimmed(t) ==> s.trim(t) == t)
  }

  lemma KeysOfStrings(s: Manifest.Strings)
    requires ManifestUsesThese(s)
    ensures KeysAreLawful(s)
  {
    forall t ensures s.trim(s.trim(t)) == s.trim(t) && s.key(s.key(t)) == s.key(t) && s.trim(s.key(t)) == s.key(t) {
      KeyLaws(s, t);
    }
    forall t | Text.IsTrimmed(t) ensures s.trim(t) == t {
      assert TreatsText(s, t);
      Text.TrimFixed(t);
    }
  }

  lemma LawsMakeManifestLawful(s: Manifest.Strings)
    requires KeysAreLawful(s)
    ensures Manifest.Lawful(s)
  {
    assert Text.IsTrimmed("") && Text.IsTrimmed("1.0");
  }

  lemma ManifestStringsAreLawful(s: Manifest.Strings)
    requires ManifestUsesThese(s)
    ensures Manifest.Lawful(s)
  {
    KeysOfStrings(s);
    LawsMakeManifestLawful(s);
  }
}
