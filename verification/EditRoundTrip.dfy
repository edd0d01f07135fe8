/**
 An edit of a report, from the form's buffer through the local save, the PATCH, the server's sort and
 renumbering, the read back, and the merge into the cache.
 */
module EditRoundTrip {
  import opened Basics
  import opened Text
  import opened StableSort
  import opened ReportTree
  import opened Reconcile
  import opened JobCache
  import Pipeline
  import Compiler = ReportCompiler
  import Api = JobsApi
  import Endpoints = JobsEndpoints

  datatype EditableFinding = EditableFinding(id: RowId, text: string, severity: Severity)
  datatype EditableSection = EditableSection(id: RowId, title: string, findings: seq<EditableFinding>)

  // ---- the form ----

  /** Texts trimmed, empty findings dropped, sortOrder the position in the buffer: so it may have gaps. */
  function FindingDtos(fs: seq<EditableFinding>): seq<FindingRec> {
    if fs == [] then []
    else
      var i := |fs| - 1;
      FindingDtos(fs[..i]) +
      (if Trim(fs[i].text) == "" then [] else [FindingRec(fs[i].id, Trim(fs[i].text), fs[i].severity, i)])
  }

  function ToDtos(buffer: seq<EditableSection>): seq<SectionRec> {
    if buffer == [] then []
    else
      var i := |buffer| - 1;
      var s := buffer[i];
      ToDtos(buffer[..i]) +
      (if Trim(s.title) == "" || FindingDtos(s.findings) == [] then []
       else [SectionRec(s.id, Trim(s.title), i, FindingDtos(s.findings))])
  }

  /** What the user typed, as text: trimmed, without empty findings and without empty sections. */
  function CleanFindings(fs: seq<EditableFinding>): seq<FindingInput> {
    if fs == [] then []
    else (if NonBlank(fs[0].text) then [FindingInput(Trim(fs[0].text), fs[0].severity)] else []) + CleanFindings(fs[1..])
  }

  function Clean(buffer: seq<EditableSection>): seq<SectionInput> {
    if buffer == [] then []
    else
      var s := buffer[0];
      (if NonBlank(s.title) && CleanFindings(s.findings) != [] then [SectionInput(Trim(s.title), CleanFindings(s.findings))]
       else []) + Clean(buffer[1..])
  }

  ghost predicate DistinctBuffer(buffer: seq<EditableSection>) {
    && (forall i, j | 0 <= i < j < |buffer| :: buffer[i].id != buffer[j].id)
    && (forall k | 0 <= k < |buffer| :: DistinctFindings(buffer[k].findings))
  }

  ghost predicate DistinctFindings(fs: seq<EditableFinding>) {
    forall i, j | 0 <= i < j < |fs| :: fs[i].id != fs[j].id
  }

  // ---- the DTOs say exactly the cleaned buffer ----

  lemma {:induction false} CleanFindingsLast(fs: seq<EditableFinding>)
    requires fs != []
    ensures var last := fs[|fs| - 1];
      CleanFindings(fs) == CleanFindings(fs[..|fs| - 1])
                         + (if NonBlank(last.text) then [FindingInput(Trim(last.text), last.severity)] else [])
    decreases |fs|
  {
    if |fs| > 1 {
      CleanFindingsLast(fs[1..]);
      assert fs[1..][..|fs| - 2] == fs[..|fs| - 1][1..];
    }
  }

  lemma {:induction false} FindingDtosAreClean(fs: seq<EditableFinding>)
    ensures StripFindings(FindingDtos(fs)) == CleanFindings(fs)
    decreases |fs|
  {
    if fs != [] {
      FindingDtosAreClean(fs[..|fs| - 1]);
      CleanFindingsLast(fs);
    }
  }

  lemma {:induction false} CleanLast(buffer: seq<EditableSection>)
    requires buffer != []
    ensures var s := buffer[|buffer| - 1];
      Clean(buffer) == Clean(buffer[..|buffer| - 1])
                     + (if NonBlank(s.title) && CleanFindings(s.findings) != []
                        then [SectionInput(Trim(s.title), CleanFindings(s.findings))] else [])
    decreases |buffer|
  {
    if |buffer| > 1 {
      CleanLast(buffer[1..]);
      assert buffer[1..][..|buffer| - 2] == buffer[..|buffer| - 1][1..];
    }
  }

  lemma {:induction false} DtosAreClean(buffer: seq<EditableSection>)
    ensures Strip(ToDtos(buffer)) == Clean(buffer)
    decreases |buffer|
  {
    if buffer != [] {
      DtosAreClean(buffer[..|buffer| - 1]);
      CleanLast(buffer);
      FindingDtosAreClean(buffer[|buffer| - 1].findings);
    }
  }

  // ---- and are listed in order, with ids of their own ----

  ghost predicate FromFindings(d: FindingRec, fs: seq<EditableFinding>) {
    0 <= d.sortOrder < |fs| && d.id == fs[d.sortOrder].id
  }

  ghost predicate DrawnFrom(ds: seq<FindingRec>, fs: seq<EditableFinding>) {
    StrictlyAscending(ds, FindingOrder) && forall k | 0 <= k < |ds| :: FromFindings(ds[k], fs)
  }

  /** One more finding keeps the list ascending and drawn from the buffer. */
  lemma FindingDtosGrow(fs: seq<EditableFinding>, front: seq<FindingRec>, last: FindingRec)
    requires fs != [] && DrawnFrom(front, fs[..|fs| - 1])
    requires last.sortOrder == |fs| - 1 && last.id == fs[|fs| - 1].id
    ensures DrawnFrom(front, fs) && DrawnFrom(front + [last], fs)
  {
    forall k | 0 <= k < |front| ensures FindingOrder(front[k]) < |fs| - 1 && FromFindings(front[k], fs) {
      assert FromFindings(front[k], fs[..|fs| - 1]);
    }
  }

  lemma {:induction false} FindingDtosInOrder(fs: seq<EditableFinding>)
    ensures DrawnFrom(FindingDtos(fs), fs)
    decreases |fs|
  {
    if fs != [] {
      var i := |fs| - 1;
      FindingDtosInOrder(fs[..i]);
      FindingDtosGrow(fs, FindingDtos(fs[..i]), FindingRec(fs[i].id, Trim(fs[i].text), fs[i].severity, i));
    }
  }

  lemma FindingDtosDistinct(fs: seq<EditableFinding>)
    requires DistinctFindings(fs)
    ensures Distinct(Ids(FindingDtos(fs), FindingId))
  {
    FindingDtosInOrder(fs);
    var ds := FindingDtos(fs);
    forall i, j | 0 <= i < j < |ds| ensures FindingId(ds[i]) != FindingId(ds[j]) {
      assert FindingOrder(ds[i]) < FindingOrder(ds[j]);
    }
  }

  ghost predicate FromBuffer(d: SectionRec, buffer: seq<EditableSection>) {
    && 0 <= d.sortOrder < |buffer| && d.id == buffer[d.sortOrder].id
    && d.findings == FindingDtos(buffer[d.sortOrder].findings)
  }

  ghost predicate DrawnFromBuffer(ds: seq<SectionRec>, buffer: seq<EditableSection>) {
    StrictlyAscending(ds, SectionOrder) && forall k | 0 <= k < |ds| :: FromBuffer(ds[k], buffer)
  }

  /** One more section keeps the list ascending and drawn from the buffer. */
  lemma SectionDtosGrow(buffer: seq<EditableSection>, front: seq<SectionRec>, last: SectionRec)
    requires buffer != [] && DrawnFromBuffer(front, buffer[..|buffer| - 1])
    requires var s := buffer[|buffer| - 1];
      last.sortOrder == |buffer| - 1 && last.id == s.id && last.findings == FindingDtos(s.findings)
    ensures DrawnFromBuffer(front, buffer) && DrawnFromBuffer(front + [last], buffer)
  {
    forall k | 0 <= k < |front| ensures SectionOrder(front[k]) < |buffer| - 1 && FromBuffer(front[k], buffer) {
      assert FromBuffer(front[k], buffer[..|buffer| - 1]);
    }
  }

  lemma {:induction false} SectionDtosInOrder(buffer: seq<EditableSection>)
    ensures DrawnFromBuffer(ToDtos(buffer), buffer)
    decreases |buffer|
  {
    if buffer != [] {
      var i := |buffer| - 1;
      SectionDtosInOrder(buffer[..i]);
      SectionDtosGrow(buffer, ToDtos(buffer[..i]),
                      SectionRec(buffer[i].id, Trim(buffer[i].title), i, FindingDtos(buffer[i].findings)));
    }
  }

  lemma DtosInOrder(buffer: seq<EditableSection>)
    ensures InOrder(ToDtos(buffer))
  {
    SectionDtosInOrder(buffer);
    var ds := ToDtos(buffer);
    forall k | 0 <= k < |ds| ensures StrictlyAscending(ds[k].findings, FindingOrder) {
      FindingDtosInOrder(buffer[ds[k].sortOrder].findings);
    }
  }

  lemma DtosWellFormed(buffer: seq<EditableSection>)
    requires DistinctBuffer(buffer)
    ensures WellFormed(ToDtos(buffer))
  {
    SectionDtosInOrder(buffer);
    var ds := ToDtos(buffer);
    forall i, j | 0 <= i < j < |ds| ensures SectionId(ds[i]) != SectionId(ds[j]) {
      assert SectionOrder(ds[i]) < SectionOrder(ds[j]);
    }
    forall k | 0 <= k < |ds| ensures Distinct(Ids(ds[k].findings, FindingId)) {
      FindingDtosDistinct(buffer[ds[k].sortOrder].findings);
    }
  }

  // ---- push ----

  function PatchFindings(fs: seq<FindingRec>): seq<Endpoints.PatchFinding> {
    seq(|fs|, i requires 0 <= i < |fs| => Endpoints.PatchFinding(fs[i].text, fs[i].severity, fs[i].sortOrder))
  }

  /** pushEdits: the body is built from orderedSections and orderedFindings. */
  function PatchBody(tree: seq<SectionRec>): seq<Endpoints.PatchSection> {
    var ordered := ToDto(tree);
    seq(|ordered|, i requires 0 <= i < |ordered| => PatchOf(ordered[i]))
  }

  function PatchOf(s: SectionRec): Endpoints.PatchSection {
    Endpoints.PatchSection(s.title, s.sortOrder, PatchFindings(s.findings))
  }

  const MAX_LABEL := 200

  predicate FindingAccepted(f: Endpoints.PatchFinding) {
    1 <= |f.text| <= Compiler.MAX_TEXT && f.sortOrder >= 0
  }

  predicate SectionAccepted(s: Endpoints.PatchSection) {
    && 1 <= |s.title| <= Compiler.MAX_TITLE && s.sortOrder >= 0
    && |s.findings| <= Compiler.MAX_FINDINGS
    && forall i | 0 <= i < |s.findings| :: FindingAccepted(s.findings[i])
  }

  /** The validation of UpdateJobDto; a body that fails it is answered 400. */
  predicate BodyAccepted(labelText: string, body: seq<Endpoints.PatchSection>) {
    && 1 <= |labelText| <= MAX_LABEL && |body| <= Compiler.MAX_SECTIONS
    && forall i | 0 <= i < |body| :: SectionAccepted(body[i])
  }

  lemma ListedTreeIsInOrder(tree: seq<SectionRec>, dtos: seq<SectionRec>)
    requires Shuffled(tree, dtos) && InOrder(dtos)
    ensures Endpoints.PatchInOrder(PatchBody(tree)) && Endpoints.Inputs(PatchBody(tree)) == Strip(dtos)
  {
    DtoOfShuffled(tree, dtos);
    var body := PatchBody(tree);
    forall i, j | 0 <= i < j < |body| ensures Endpoints.PatchSectionOrder(body[i]) < Endpoints.PatchSectionOrder(body[j]) {
      assert SectionOrder(dtos[i]) < SectionOrder(dtos[j]);
    }
    forall k | 0 <= k < |body| ensures StrictlyAscending(body[k].findings, Endpoints.PatchFindingOrder) {
      PatchFindingsInOrder(dtos[k].findings);
    }
    forall k | 0 <= k < |body| ensures Endpoints.Inputs(body)[k] == Strip(dtos)[k] {
      assert Endpoints.FindingInputs(PatchFindings(dtos[k].findings)) == StripFindings(dtos[k].findings);
    }
  }

  lemma PatchFindingsInOrder(fs: seq<FindingRec>)
    requires StrictlyAscending(fs, FindingOrder)
    ensures StrictlyAscending(PatchFindings(fs), Endpoints.PatchFindingOrder)
  {
    forall i, j | 0 <= i < j < |fs| ensures fs[i].sortOrder < fs[j].sortOrder {
      assert FindingOrder(fs[i]) < FindingOrder(fs[j]);
    }
  }

  /** After the local save: the cached tree shows the cleaned buffer, and so will the server after the PATCH. */
  lemma LocalSave(prior: seq<SectionRec>, buffer: seq<EditableSection>)
    requires WellFormed(prior) && DistinctBuffer(buffer)
    ensures var tree := SyncedTree(prior, ToDtos(buffer));
      && WellFormed(tree) && ToDto(tree) == ToDtos(buffer)
      && Strip(ToDto(tree)) == Clean(buffer)
      && Endpoints.ToReportInput(PatchBody(tree)) == Clean(buffer)
  {
    var dtos := ToDtos(buffer);
    var tree := SyncedTree(prior, dtos);
    DtosWellFormed(buffer);
    DtosInOrder(buffer);
    DtosAreClean(buffer);
    SyncedIsTheDtoTree(prior, dtos);
    DtoOfShuffled(tree, dtos);
    ListedTreeIsInOrder(tree, dtos);
    Endpoints.InOrderIsTakenAsListed(PatchBody(tree));
  }

  // ---- when the server takes the body ----

  lemma {:induction false} CleanIsNonEmpty(buffer: seq<EditableSection>)
    ensures forall s | s in Clean(buffer) :: s.title != "" && s.findings != [] && forall f | f in s.findings :: f.text != ""
    decreases |buffer|
  {
    if buffer != [] {
      CleanIsNonEmpty(buffer[1..]);
      CleanFindingsNonEmpty(buffer[0].findings);
    }
  }

  lemma {:induction false} CleanFindingsNonEmpty(fs: seq<EditableFinding>)
    ensures forall f | f in CleanFindings(fs) :: f.text != ""
    decreases |fs|
  {
    if fs != [] { CleanFindingsNonEmpty(fs[1..]); }
  }

  lemma FindingsAccepted(dtos: seq<FindingRec>)
    requires forall k | 0 <= k < |dtos| :: dtos[k].text != "" && dtos[k].sortOrder >= 0
    ensures (forall k | 0 <= k < |dtos| :: FindingAccepted(PatchFindings(dtos)[k]))
       <==> forall k | 0 <= k < |dtos| :: |StripFindings(dtos)[k].text| <= Compiler.MAX_TEXT
  {
    if k :| 0 <= k < |dtos| && |StripFindings(dtos)[k].text| > Compiler.MAX_TEXT {
      assert !FindingAccepted(PatchFindings(dtos)[k]);
    }
    if k :| 0 <= k < |dtos| && !FindingAccepted(PatchFindings(dtos)[k]) {
      assert |StripFindings(dtos)[k].text| > Compiler.MAX_TEXT;
    }
  }

  predicate ShortSection(x: SectionInput) {
    && |x.title| <= Compiler.MAX_TITLE && |x.findings| <= Compiler.MAX_FINDINGS
    && forall k | 0 <= k < |x.findings| :: |x.findings[k].text| <= Compiler.MAX_TEXT
  }

  /** The server's upper limits on a report. */
  predicate Short(xs: seq<SectionInput>) {
    |xs| <= Compiler.MAX_SECTIONS && forall i | 0 <= i < |xs| :: ShortSection(xs[i])
  }

  /** A row with nothing empty in it and no negative sortOrder. */
  ghost predicate Filled(d: SectionRec) {
    && d.title != "" && d.sortOrder >= 0
    && forall k | 0 <= k < |d.findings| :: d.findings[k].text != "" && d.findings[k].sortOrder >= 0
  }

  lemma SectionAcceptedWhenShort(d: SectionRec)
    requires Filled(d)
    ensures SectionAccepted(PatchOf(d)) <==> ShortSection(SectionInput(d.title, StripFindings(d.findings)))
  {
    FindingsAccepted(d.findings);
  }

  lemma DtosFilled(buffer: seq<EditableSection>, i: nat)
    requires i < |ToDtos(buffer)|
    ensures Filled(ToDtos(buffer)[i])
  {
    var d := ToDtos(buffer)[i];
    DtosAreClean(buffer);
    CleanIsNonEmpty(buffer);
    SectionDtosInOrder(buffer);
    assert FromBuffer(d, buffer);
    assert Strip(ToDtos(buffer))[i] in Clean(buffer);
    FindingDtosInOrder(buffer[d.sortOrder].findings);
    forall k | 0 <= k < |d.findings| ensures d.findings[k].text != "" && d.findings[k].sortOrder >= 0 {
      assert FromFindings(d.findings[k], buffer[d.sortOrder].findings);
      assert StripFindings(d.findings)[k] in Strip(ToDtos(buffer))[i].findings;
    }
  }

  lemma DtoAcceptedWhenShort(buffer: seq<EditableSection>, i: nat)
    requires i < |ToDtos(buffer)|
    ensures i < |Clean(buffer)| && (SectionAccepted(PatchOf(ToDtos(buffer)[i])) <==> ShortSection(Clean(buffer)[i]))
  {
    DtosAreClean(buffer);
    DtosFilled(buffer, i);
    SectionAcceptedWhenShort(ToDtos(buffer)[i]);
    assert Clean(buffer)[i] == Strip(ToDtos(buffer))[i];
  }

  lemma AcceptedPointwise(labelText: string, body: seq<Endpoints.PatchSection>, clean: seq<SectionInput>)
    requires |body| == |clean|
    requires forall i {:trigger SectionAccepted(body[i])} {:trigger ShortSection(clean[i])} | 0 <= i < |body| ::
               SectionAccepted(body[i]) <==> ShortSection(clean[i])
    ensures BodyAccepted(labelText, body) <==> 1 <= |labelText| <= MAX_LABEL && Short(clean)
  {
  }

  /**
   The PATCH passes validation exactly when the label has 1 to 200 characters and the cleaned buffer keeps
   the upper limits: cleaning makes the lower limits and the sortOrder checks hold by themselves.
   */
  lemma AcceptedExactlyWhen(prior: seq<SectionRec>, buffer: seq<EditableSection>, labelText: string)
    requires WellFormed(prior) && DistinctBuffer(buffer)
    ensures BodyAccepted(labelText, PatchBody(SyncedTree(prior, ToDtos(buffer))))
       <==> 1 <= |labelText| <= 200 && Short(Clean(buffer))
  {
    var body, dtos := PatchBody(SyncedTree(prior, ToDtos(buffer))), ToDtos(buffer);
    assert |body| == |dtos| == |Clean(buffer)| && forall i | 0 <= i < |dtos| :: body[i] == PatchOf(dtos[i]) by {
      LocalSave(prior, buffer);
      DtosAreClean(buffer);
    }
    forall i | 0 <= i < |body| ensures SectionAccepted(body[i]) <==> ShortSection(Clean(buffer)[i]) {
      DtoAcceptedWhenShort(buffer, i);
    }
    AcceptedPointwise(labelText, body, Clean(buffer));
  }

  /** What is wrong with a finding, and with a section itself. */
  predicate BadFinding(f: Endpoints.PatchFinding) {
    |f.text| == 0 || |f.text| > 2000 || f.sortOrder < 0
  }

  predicate BadSection(s: Endpoints.PatchSection) {
    |s.title| == 0 || |s.title| > 200 || s.sortOrder < 0 || |s.findings| > 200
  }

  /** Exactly what the server refuses, of all bodies: the limits written out. */
  lemma RefusedExactlyWhen(labelText: string, body: seq<Endpoints.PatchSection>)
    ensures !BodyAccepted(labelText, body) <==>
      || |labelText| == 0 || |labelText| > 200 || |body| > 100
      || (exists i :: 0 <= i < |body| && BadSection(body[i]))
      || (exists i, j :: 0 <= i < |body| && 0 <= j < |body[i].findings| && BadFinding(body[i].findings[j]))
  {
    if !BodyAccepted(labelText, body) && 1 <= |labelText| <= 200 && |body| <= 100 {
      var i :| 0 <= i < |body| && !SectionAccepted(body[i]);
      if !BadSection(body[i]) {
        var j :| 0 <= j < |body[i].findings| && !FindingAccepted(body[i].findings[j]);
        assert BadFinding(body[i].findings[j]);
      }
    }
    if i :| 0 <= i < |body| && BadSection(body[i]) { assert !SectionAccepted(body[i]); }
    if i, j :| 0 <= i < |body| && 0 <= j < |body[i].findings| && BadFinding(body[i].findings[j]) {
      assert !FindingAccepted(body[i].findings[j]);
      assert !SectionAccepted(body[i]);
    }
  }

  // ---- the answer and the merge ----

  lemma InsertedFindingsDistinct(xs: seq<FindingInput>, next: RowId)
    ensures Distinct(Ids(InsertedFindings(xs, next), FindingId))
  {
    forall i, j | 0 <= i < j < |xs|
      ensures FindingId(InsertedFindings(xs, next)[i]) != FindingId(InsertedFindings(xs, next)[j])
    {
    }
  }

  lemma {:induction false} InsertedAt(xs: seq<SectionInput>, next: RowId, k: nat)
    requires k < |xs|
    ensures |Inserted(xs, next)| == |xs|
    ensures Inserted(xs, next)[k].findings == InsertedFindings(xs[k].findings, NextId(xs[..k], next) + 1)
    decreases |xs|
  {
    var n := |xs| - 1;
    InsertedIsNumbered(xs[..n], next);
    if k < n {
      InsertedAt(xs[..n], next, k);
      assert xs[..n][..k] == xs[..k];
    }
  }

  lemma InsertedWellFormed(xs: seq<SectionInput>, next: RowId)
    ensures WellFormed(Inserted(xs, next))
  {
    var rows := Inserted(xs, next);
    InsertedIdsFresh(xs, next);
    InsertedIsNumbered(xs, next);
    forall k | 0 <= k < |rows| ensures Distinct(Ids(rows[k].findings, FindingId)) {
      InsertedAt(xs, next, k);
      InsertedFindingsDistinct(xs[k].findings, NextId(xs[..k], next) + 1);
    }
    forall i, j | 0 <= i < j < |rows| ensures SectionId(rows[i]) != SectionId(rows[j]) {
    }
  }

  /** The job as the API answers it, its rows read back in any order. */
  function WireDto(s: Pipeline.Store, read: seq<SectionRec>, pdfUrl: Option<string>, createdAt: Option<int>, updatedAt: Option<int>): JobDto {
    JobDto(s.row.id, s.row.labelText, s.row.status, s.row.transcript, s.row.error, pdfUrl, createdAt, updatedAt, ToDto(read))
  }

  function Patched(s: Pipeline.Store, labelText: string, tree: seq<SectionRec>): Pipeline.Store {
    Api.UpdateOp(s, Some(labelText), Some(Endpoints.ToReportInput(PatchBody(tree))))
  }

  lemma ServerTakes(prior: seq<SectionRec>, buffer: seq<EditableSection>, s: Pipeline.Store, labelText: string, read: seq<SectionRec>)
    requires WellFormed(prior) && DistinctBuffer(buffer)
    requires Shuffled(read, Patched(s, labelText, SyncedTree(prior, ToDtos(buffer))).tree)
    ensures Project(read) == Clean(buffer) && WellNumbered(read)
    ensures WellFormed(ToDto(read)) && InOrder(ToDto(read)) && Strip(ToDto(read)) == Clean(buffer)
  {
    LocalSave(prior, buffer);
    var xs := Clean(buffer);
    InsertedIsStored(xs, s.nextId, read);
    PersistThenProject(read, xs);
    InsertedIsNumbered(xs, s.nextId);
    NumberedInOrder(Inserted(xs, s.nextId), xs);
    DtoOfShuffled(read, Inserted(xs, s.nextId));
    InsertedWellFormed(xs, s.nextId);
  }

  /**
   The whole trip. The cache shows exactly the cleaned buffer, in buffer order, right after the local save
   (and so when the PATCH is refused or never arrives); the server's report is the same list whatever order
   its rows are read in; and after the answer is merged the cache still shows it, whichever side wins the
   timestamp test. It stays dirty exactly when the local edit is strictly newer; otherwise it has taken over
   the server's rows.
   */
  lemma EditRoundTrip(job: CachedJob, buffer: seq<EditableSection>, labelText: string, now: int,
                      s: Pipeline.Store, read: seq<SectionRec>, pdfUrl: Option<string>,
                      createdAt: Option<int>, updatedAt: Option<int>)
    requires WellFormed(job.tree) && DistinctBuffer(buffer)
    requires Shuffled(read, Patched(s, labelText, SyncedTree(job.tree, ToDtos(buffer))).tree)
    ensures
      var local := EditOne(job, labelText, ToDtos(buffer), now);
      var s' := Patched(s, labelText, local.tree);
      var final := UpsertOne(Some(local), WireDto(s', read, pdfUrl, createdAt, updatedAt));
      && local.dirty && local.labelText == labelText && Strip(ToDto(local.tree)) == Clean(buffer)
      && s'.row.labelText == labelText && Project(read) == Clean(buffer) && WellNumbered(read)
      && final.labelText == labelText && Strip(ToDto(final.tree)) == Clean(buffer)
      && (final.dirty <==> now > Stamp(updatedAt))
      && (!final.dirty ==> ToDto(final.tree) == ToDto(read))
      && final.upload == job.upload
  {
    LocalSave(job.tree, buffer);
    ServerTakes(job.tree, buffer, s, labelText, read);
    var local := EditOne(job, labelText, ToDtos(buffer), now);
    AnswerMerged(local, WireDto(Patched(s, labelText, local.tree), read, pdfUrl, createdAt, updatedAt));
  }

  lemma AnswerMerged(local: CachedJob, dto: JobDto)
    requires WellFormed(local.tree) && WellFormed(dto.sections) && InOrder(dto.sections) && local.dirty
    ensures var final := UpsertOne(Some(local), dto);
      && final.upload == local.upload && (final.dirty <==> local.updatedAt > Stamp(dto.updatedAt))
      && (final.dirty ==> final.tree == local.tree && final.labelText == local.labelText)
      && (!final.dirty ==> ToDto(final.tree) == dto.sections && final.labelText == dto.labelText)
  {
    SyncedIsTheDtoTree(local.tree, dto.sections);
    DtoOfShuffled(SyncedTree(local.tree, dto.sections), dto.sections);
  }
}
