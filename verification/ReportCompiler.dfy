/**
 The compile policy: validate what the model returned, retry once, then normalise.
 Provider replies are oracles; a reply is either not a report at all or a list of sections
 whose severities may lie outside the enum.
 */
module ReportCompiler {
  import opened Basics
  import opened Text
  import opened StableSort
  import opened ReportTree

  datatype RawFinding = RawFinding(text: string, severity: Option<Severity>)
  datatype RawSection = RawSection(title: string, findings: seq<RawFinding>)
  datatype Reply = NotAReport | Report(sections: seq<RawSection>)

  const MAX_TITLE := 200
  const MAX_TEXT := 2000
  const MAX_FINDINGS := 200
  const MAX_SECTIONS := 100

  // ---- schema ----

  predicate ValidFinding(f: RawFinding) {
    0 < |Trim(f.text)| <= MAX_TEXT && f.severity.Some?
  }

  predicate ValidSection(s: RawSection) {
    && 0 < |Trim(s.title)| <= MAX_TITLE
    && |s.findings| <= MAX_FINDINGS
    && forall i | 0 <= i < |s.findings| :: ValidFinding(s.findings[i])
  }

  predicate ValidReply(r: Reply) {
    r.Report? && |r.sections| <= MAX_SECTIONS && forall i | 0 <= i < |r.sections| :: ValidSection(r.sections[i])
  }

  /** What the schema hands on: the same sections with trimmed strings. */
  function Parsed(r: Reply): seq<SectionInput>
    requires ValidReply(r)
  {
    seq(|r.sections|, i requires 0 <= i < |r.sections| =>
      var s := r.sections[i];
      assert ValidSection(s);
      SectionInput(Trim(s.title),
        seq(|s.findings|, j requires 0 <= j < |s.findings| =>
          assert ValidFinding(s.findings[j]);
          FindingInput(Trim(s.findings[j].text), s.findings[j].severity.value))))
  }

  // ---- normalisation ----

  function FindingRank(f: FindingInput): int { Rank(f.severity) }

  /** The findings with something to say, trimmed, in their order. */
  function Present(fs: seq<FindingInput>): (r: seq<FindingInput>)
    ensures |r| <= |fs|
    ensures forall i | 0 <= i < |r| :: r[i].text != "" && Trim(r[i].text) == r[i].text
  {
    if fs == [] then []
    else
      var t := Trim(fs[0].text);
      TrimTwice(fs[0].text);
      (if t != "" then [FindingInput(t, fs[0].severity)] else []) + Present(fs[1..])
  }

  function NormalizeSection(s: SectionInput): SectionInput {
    SectionInput(Trim(s.title), Sort(Present(s.findings), FindingRank))
  }

  predicate Kept(s: SectionInput) {
    s.title != "" && s.findings != []
  }

  function Normalize(sections: seq<SectionInput>): seq<SectionInput> {
    if sections == [] then []
    else
      var n := |sections| - 1;
      var last := NormalizeSection(sections[n]);
      Normalize(sections[..n]) + if Kept(last) then [last] else []
  }

  /** s is what remains of raw: trimmed title, the present findings stably sorted by severity. */
  ghost predicate Renders(raw: SectionInput, s: SectionInput) {
    && s.title == Trim(raw.title) && s.title != "" && s.findings != []
    && multiset(s.findings) == multiset(Present(raw.findings))
    && IsStableSort(Present(raw.findings), s.findings, FindingRank)
  }

  predicate Empty(raw: SectionInput) {
    Trim(raw.title) == "" || Present(raw.findings) == []
  }

  /** positions lists, in ascending order, exactly the sections of raw that are not empty. */
  ghost predicate KeptPositions(raw: seq<SectionInput>, positions: seq<nat>) {
    && (forall k | 0 <= k < |positions| :: positions[k] < |raw|)
    && (forall k, l | 0 <= k < l < |positions| :: positions[k] < positions[l])
    && (forall i | 0 <= i < |raw| :: i in positions <==> !Empty(raw[i]))
  }

  lemma {:induction false} NormalizePositions(raw: seq<SectionInput>) returns (positions: seq<nat>)
    ensures KeptPositions(raw, positions)
    ensures |Normalize(raw)| == |positions|
    ensures forall k | 0 <= k < |positions| :: Normalize(raw)[k] == NormalizeSection(raw[positions[k]])
    decreases |raw|
  {
    if raw == [] {
      positions := [];
    } else {
      var n := |raw| - 1;
      var before := NormalizePositions(raw[..n]);
      positions := before + if Empty(raw[n]) then [] else [n];
      ExtendPositions(raw, before);
      KeptIffNotEmpty(raw[n]);
      forall k | 0 <= k < |before| ensures Normalize(raw)[k] == NormalizeSection(raw[positions[k]]) {
        assert Normalize(raw)[k] == Normalize(raw[..n])[k];
        assert raw[..n][before[k]] == raw[before[k]];
      }
    }
  }

  lemma KeptIffNotEmpty(raw: SectionInput)
    ensures Kept(NormalizeSection(raw)) <==> !Empty(raw)
  {
    assert |NormalizeSection(raw).findings| == |Present(raw.findings)|;
  }

  lemma ExtendPositions(raw: seq<SectionInput>, before: seq<nat>)
    requires raw != [] && KeptPositions(raw[..|raw| - 1], before)
    ensures KeptPositions(raw, before + if Empty(raw[|raw| - 1]) then [] else [|raw| - 1])
  {
    var n := |raw| - 1;
    var positions := before + if Empty(raw[n]) then [] else [n];
    forall i | 0 <= i < |raw| ensures i in positions <==> !Empty(raw[i]) {
      if i < n {
        assert raw[..n][i] == raw[i];
        assert i in before <==> !Empty(raw[i]);
      }
    }
  }

  /**
   Normalisation is faithful: sections keep their order, only empty ones vanish, and every kept
   section holds exactly its own present findings, stably sorted by severity.
   */
  lemma NormalizeFaithful(raw: seq<SectionInput>) returns (positions: seq<nat>)
    ensures KeptPositions(raw, positions)
    ensures |Normalize(raw)| == |positions|
    ensures forall k | 0 <= k < |positions| :: Renders(raw[positions[k]], Normalize(raw)[k])
  {
    positions := NormalizePositions(raw);
    forall k | 0 <= k < |positions| ensures Renders(raw[positions[k]], Normalize(raw)[k]) {
      assert positions[k] in positions;
      KeptSectionRenders(raw[positions[k]]);
    }
  }

  lemma KeptSectionRenders(raw: SectionInput)
    requires !Empty(raw)
    ensures Renders(raw, NormalizeSection(raw))
  {
    SortIsStable(Present(raw.findings), FindingRank);
    assert |NormalizeSection(raw).findings| == |Present(raw.findings)|;
  }

  /** Already normal: trimmed, non-empty at both levels, sorted by severity. */
  ghost predicate Normal(s: SectionInput) {
    && s.title != "" && Trim(s.title) == s.title
    && s.findings != []
    && (forall i | 0 <= i < |s.findings| :: s.findings[i].text != "" && Trim(s.findings[i].text) == s.findings[i].text)
    && Ascending(s.findings, FindingRank)
  }

  lemma {:induction false} PresentFixed(fs: seq<FindingInput>)
    requires forall i | 0 <= i < |fs| :: fs[i].text != "" && Trim(fs[i].text) == fs[i].text
    ensures Present(fs) == fs
    decreases |fs|
  {
    if fs != [] { PresentFixed(fs[1..]); }
  }

  lemma NormalFixed(s: SectionInput)
    requires Normal(s)
    ensures NormalizeSection(s) == s
  {
    PresentFixed(s.findings);
    SortIsStable(s.findings, FindingRank);
    StableSortUnique(Sort(s.findings, FindingRank), s.findings, FindingRank);
  }

  lemma {:induction false} NormalizeStep(front: seq<SectionInput>, last: SectionInput)
    requires NormalizeSection(last) == last && Kept(last) && Normalize(front) == front
    ensures Normalize(front + [last]) == front + [last]
  {
    assert (front + [last])[..|front|] == front;
  }

  lemma FrontAndLast<T>(xs: seq<T>)
    requires xs != []
    ensures xs == xs[..|xs| - 1] + [xs[|xs| - 1]]
  {
  }

  /** Normalisation leaves the section as it is. */
  predicate Fixed(s: SectionInput) {
    NormalizeSection(s) == s && Kept(s)
  }

  lemma {:induction false} NormalizeFixed(xs: seq<SectionInput>)
    requires forall k {:trigger Fixed(xs[k])} | 0 <= k < |xs| :: Fixed(xs[k])
    ensures Normalize(xs) == xs
    decreases |xs|
  {
    if xs != [] {
      var front, last := xs[..|xs| - 1], xs[|xs| - 1];
      assert forall k {:trigger Fixed(front[k])} | 0 <= k < |front| :: front[k] == xs[k] && Fixed(xs[k]);
      assert Fixed(last);
      NormalizeFixed(front);
      NormalizeStep(front, last);
      FrontAndLast(xs);
    }
  }

  lemma SectionBecomesNormal(raw: SectionInput)
    requires Kept(NormalizeSection(raw))
    ensures Normal(NormalizeSection(raw))
  {
    var s := NormalizeSection(raw);
    TrimTwice(raw.title);
    forall i | 0 <= i < |s.findings|
      ensures s.findings[i].text != "" && Trim(s.findings[i].text) == s.findings[i].text
    {
      assert s.findings[i] in multiset(s.findings);
      assert s.findings[i] in multiset(Present(raw.findings));
    }
  }

  lemma {:induction false} NormalizeGivesNormal(raw: seq<SectionInput>)
    ensures forall k | 0 <= k < |Normalize(raw)| :: Normal(Normalize(raw)[k])
    decreases |raw|
  {
    if raw != [] {
      var n := |raw| - 1;
      NormalizeGivesNormal(raw[..n]);
      if Kept(NormalizeSection(raw[n])) { SectionBecomesNormal(raw[n]); }
    }
  }

  /** Normalising a normalised report changes nothing. */
  lemma NormalizeIdempotent(raw: seq<SectionInput>)
    ensures Normalize(Normalize(raw)) == Normalize(raw)
  {
    var xs := Normalize(raw);
    forall k | 0 <= k < |xs| ensures Fixed(xs[k]) {
      NormalizeGivesNormal(raw);
      NormalFixed(xs[k]);
    }
    NormalizeFixed(xs);
  }

  /** Safety findings come first, then repairs, then maintenance, then information. */
  lemma MostSevereFirst(raw: seq<SectionInput>, k: nat, i: nat, j: nat)
    requires k < |Normalize(raw)| && i < j < |Normalize(raw)[k].findings|
    ensures var a, b := Normalize(raw)[k].findings[i].severity, Normalize(raw)[k].findings[j].severity;
      && (b.Safety? ==> a.Safety?) && (b.Repair? ==> a.Safety? || a.Repair?) && (b.Maintenance? ==> !a.Info?)
  {
    NormalizeGivesNormal(raw);
    assert Normal(Normalize(raw)[k]);
    assert FindingRank(Normalize(raw)[k].findings[i]) <= FindingRank(Normalize(raw)[k].findings[j]);
  }

  // ---- the policy ----

  const MALFORMED := "Report compiler returned malformed output after one retry"

  /** compile: `second` is the reply to the repair hint, used only when the first is invalid. */
  function Compile(first: Reply, second: Reply): Result<seq<SectionInput>> {
    if ValidReply(first) then Success(Normalize(Parsed(first)))
    else if ValidReply(second) then Success(Normalize(Parsed(second)))
    else Failure(MALFORMED)
  }

  /** The bounds the server's edit endpoint and the schema put on a report. */
  predicate SectionWithinLimits(s: SectionInput) {
    && 0 < |s.title| <= MAX_TITLE
    && |s.findings| <= MAX_FINDINGS
    && forall i | 0 <= i < |s.findings| :: 0 < |s.findings[i].text| <= MAX_TEXT
  }

  predicate WithinLimits(xs: seq<SectionInput>) {
    |xs| <= MAX_SECTIONS && forall k | 0 <= k < |xs| :: SectionWithinLimits(xs[k])
  }

  /**
   A compile succeeds exactly when one of the two replies is valid, with the first preferred;
   the report is then normal, within the limits, and it passes through compilation unchanged.
   */
  lemma CompileMeetsSchema(first: Reply, second: Reply)
    ensures Compile(first, second).Success? <==> ValidReply(first) || ValidReply(second)
    ensures ValidReply(first) ==> forall other :: Compile(first, other) == Compile(first, second)
    ensures Compile(first, second).Success? ==>
      var xs := Compile(first, second).value;
      WithinLimits(xs) && Normalize(xs) == xs && forall k | 0 <= k < |xs| :: Normal(xs[k])
  {
    if ValidReply(first) || ValidReply(second) {
      var reply := if ValidReply(first) then first else second;
      NormalizeGivesNormal(Parsed(reply));
      NormalizeIdempotent(Parsed(reply));
      NormalizeWithinLimits(reply);
    }
  }

  lemma NormalizeWithinLimits(reply: Reply)
    requires ValidReply(reply)
    ensures WithinLimits(Normalize(Parsed(reply)))
  {
    var raw := Parsed(reply);
    var xs := Normalize(raw);
    var positions := NormalizeFaithful(raw);
    PositionsBounded(positions, |raw|);
    forall k | 0 <= k < |xs| ensures SectionWithinLimits(xs[k]) {
      KeptWithinLimits(reply, positions[k], xs[k]);
    }
  }

  lemma KeptWithinLimits(reply: Reply, p: nat, s: SectionInput)
    requires ValidReply(reply) && p < |reply.sections| && Renders(Parsed(reply)[p], s)
    ensures SectionWithinLimits(s)
  {
    var source := reply.sections[p];
    var raw := Parsed(reply)[p];
    assert ValidSection(source);
    TrimTwice(source.title);
    var present := Present(raw.findings);
    assert |multiset(s.findings)| == |s.findings| && |multiset(present)| == |present|;
    forall i | 0 <= i < |s.findings| ensures 0 < |s.findings[i].text| <= MAX_TEXT {
      assert s.findings[i] in multiset(s.findings);
      PresentSource(raw.findings, s.findings[i]);
      var j :| 0 <= j < |raw.findings| && s.findings[i] == FindingInput(Trim(raw.findings[j].text), raw.findings[j].severity);
      assert ValidFinding(source.findings[j]);
      TrimTwice(source.findings[j].text);
    }
  }

  lemma {:induction false} PresentSource(fs: seq<FindingInput>, f: FindingInput)
    requires f in Present(fs)
    ensures exists j | 0 <= j < |fs| :: f == FindingInput(Trim(fs[j].text), fs[j].severity)
    decreases |fs|
  {
    if f != FindingInput(Trim(fs[0].text), fs[0].severity) {
      PresentSource(fs[1..], f);
      var j :| 0 <= j < |fs[1..]| && f == FindingInput(Trim(fs[1..][j].text), fs[1..][j].severity);
      assert fs[j + 1] == fs[1..][j];
    }
  }

  lemma {:induction false} PositionsBounded(positions: seq<nat>, n: nat)
    requires forall k | 0 <= k < |positions| :: positions[k] < n
    requires forall k, l | 0 <= k < l < |positions| :: positions[k] < positions[l]
    ensures |positions| <= n
    decreases n
  {
    if positions != [] {
      var last := |positions| - 1;
      PositionsBounded(positions[..last], positions[last]);
    }
  }

  /** What the schema accepts: at most 100 sections with titles of 1 to 200 characters, and so on. */
  lemma ValidExactlyWhen(r: Reply)
    ensures ValidReply(r) <==>
      && r.Report? && |r.sections| <= 100
      && forall i | 0 <= i < |r.sections| ::
           && 1 <= |Trim(r.sections[i].title)| <= 200 && |r.sections[i].findings| <= 200
           && forall j | 0 <= j < |r.sections[i].findings| ::
                1 <= |Trim(r.sections[i].findings[j].text)| <= 2000 && r.sections[i].findings[j].severity.Some?
  {
    if ValidReply(r) {
      forall i | 0 <= i < |r.sections| ensures ValidSection(r.sections[i]) {}
      assert forall i, j | 0 <= i < |r.sections| && 0 <= j < |r.sections[i].findings| ::
        ValidSection(r.sections[i]) && ValidFinding(r.sections[i].findings[j]);
    }
  }

  /** The finding as the model wrote it, trimmed. */
  predicate Tells(f: FindingInput, raw: RawFinding) {
    f.text == Trim(raw.text) && raw.severity == Some(f.severity)
  }

  /** x is the section as the model wrote it, trimmed, with all its findings, the most severe first. */
  ghost predicate Reports(raw: RawSection, x: SectionInput) {
    && x.title == Trim(raw.title) && |x.findings| == |raw.findings|
    && exists fs: seq<FindingInput> ::
         && |fs| == |raw.findings| && (forall j | 0 <= j < |fs| :: Tells(fs[j], raw.findings[j]))
         && IsStableSort(fs, x.findings, FindingRank) && multiset(fs) == multiset(x.findings)
  }

  /**
   The report of a successful compile is the valid reply's, the first one's if that is valid: its sections
   with findings, in order, each with all of its findings, trimmed and the most severe first.
   */
  lemma CompileSaysTheReply(first: Reply, second: Reply) returns (positions: seq<nat>)
    requires ValidReply(first) || ValidReply(second)
    ensures var reply := if ValidReply(first) then first else second; var out := Compile(first, second);
      && out.Success? && |out.value| == |positions|
      && (forall k | 0 <= k < |positions| :: positions[k] < |reply.sections| && Reports(reply.sections[positions[k]], out.value[k]))
      && (forall k, l | 0 <= k < l < |positions| :: positions[k] < positions[l])
      && (forall i | 0 <= i < |reply.sections| :: i in positions <==> reply.sections[i].findings != [])
  {
    var reply := if ValidReply(first) then first else second;
    var raw := Parsed(reply);
    positions := NormalizeFaithful(raw);
    forall i | 0 <= i < |reply.sections| ensures i in positions <==> reply.sections[i].findings != [] {
      ParsedIsPresent(reply, i);
    }
    forall k | 0 <= k < |positions| ensures Reports(reply.sections[positions[k]], Normalize(raw)[k]) {
      ParsedIsPresent(reply, positions[k]);
      var fs := Present(raw[positions[k]].findings);
      assert |multiset(fs)| == |fs| && |multiset(Normalize(raw)[k].findings)| == |Normalize(raw)[k].findings|;
      TrimTwice(reply.sections[positions[k]].title);
    }
  }

  /** Nothing of a parsed section is lost or changed by looking for what is present. */
  lemma ParsedIsPresent(reply: Reply, p: nat)
    requires ValidReply(reply) && p < |reply.sections|
    ensures var raw := Parsed(reply)[p];
      && Present(raw.findings) == raw.findings && Trim(raw.title) == raw.title != ""
      && |raw.findings| == |reply.sections[p].findings|
      && forall j | 0 <= j < |raw.findings| :: Tells(raw.findings[j], reply.sections[p].findings[j])
  {
    assert ValidSection(reply.sections[p]);
    var raw := Parsed(reply)[p];
    TrimTwice(reply.sections[p].title);
    forall j | 0 <= j < |raw.findings|
      ensures raw.findings[j].text != "" && Trim(raw.findings[j].text) == raw.findings[j].text
    {
      assert ValidFinding(reply.sections[p].findings[j]);
      TrimTwice(reply.sections[p].findings[j].text);
    }
    PresentFixed(raw.findings);
  }
}
