/**
 The report tree as rows (with ids and sortOrders, in no particular order) and as the ordered
 list of sections the compiler and the edit form hand over. The same row shape is the database
 row, the wire DTO and the device's cached object.
 */
module ReportTree {
  import opened Basics
  import opened StableSort

  datatype FindingRec = FindingRec(id: RowId, text: string, severity: Severity, sortOrder: int)
  datatype SectionRec = SectionRec(id: RowId, title: string, sortOrder: int, findings: seq<FindingRec>)

  datatype FindingInput = FindingInput(text: string, severity: Severity)
  datatype SectionInput = SectionInput(title: string, findings: seq<FindingInput>)

  function FindingOrder(f: FindingRec): int { f.sortOrder }

  function SectionOrder(s: SectionRec): int { s.sortOrder }

  // ---- projections (existingReport on the worker, jobToDto on the API) ----

  function StripFindings(fs: seq<FindingRec>): seq<FindingInput> {
    seq(|fs|, i requires 0 <= i < |fs| => FindingInput(fs[i].text, fs[i].severity))
  }

  function Strip(rows: seq<SectionRec>): seq<SectionInput> {
    seq(|rows|, i requires 0 <= i < |rows| => SectionInput(rows[i].title, StripFindings(rows[i].findings)))
  }

  /** jobToDto: both levels sorted by sortOrder, ids kept. */
  function ToDto(rows: seq<SectionRec>): seq<SectionRec> {
    var sorted := Sort(rows, SectionOrder);
    seq(|sorted|, i requires 0 <= i < |sorted| => sorted[i].(findings := Sort(sorted[i].findings, FindingOrder)))
  }

  /** existingReport: both levels sorted by sortOrder, ids and sortOrders dropped. */
  function Project(rows: seq<SectionRec>): seq<SectionInput> {
    var sorted := Sort(rows, SectionOrder);
    seq(|sorted|, i requires 0 <= i < |sorted| =>
      SectionInput(sorted[i].title, StripFindings(Sort(sorted[i].findings, FindingOrder))))
  }

  lemma ProjectIsStrippedDto(rows: seq<SectionRec>)
    ensures Project(rows) == Strip(ToDto(rows))
    ensures |Project(rows)| == |rows|
  {
  }

  // ---- the same tree with its rows in another order ----

  ghost predicate SameSection(x: SectionRec, y: SectionRec) {
    && x.id == y.id && x.title == y.title && x.sortOrder == y.sortOrder
    && multiset(x.findings) == multiset(y.findings)
  }

  /** a and b hold the same rows, in any order at both levels. */
  ghost predicate Shuffled(a: seq<SectionRec>, b: seq<SectionRec>) {
    exists c: seq<SectionRec> :: ShuffledVia(a, c, b)
  }

  ghost predicate ShuffledVia(a: seq<SectionRec>, c: seq<SectionRec>, b: seq<SectionRec>) {
    && multiset(a) == multiset(c) && |c| == |b|
    && forall k | 0 <= k < |b| :: SameSection(c[k], b[k])
  }

  lemma ShuffledSelf(a: seq<SectionRec>)
    ensures Shuffled(a, a)
  {
    assert ShuffledVia(a, a, a);
  }

  /** Listed by strictly ascending sortOrder at both levels. */
  ghost predicate InOrder(b: seq<SectionRec>) {
    && StrictlyAscending(b, SectionOrder)
    && forall k | 0 <= k < |b| :: StrictlyAscending(b[k].findings, FindingOrder)
  }

  /** Whatever order the rows come back in, the projection returns the one in-order listing. */
  lemma DtoOfShuffled(a: seq<SectionRec>, b: seq<SectionRec>)
    requires Shuffled(a, b) && InOrder(b)
    ensures ToDto(a) == b
    ensures Project(a) == Strip(b)
  {
    var c: seq<SectionRec> :| ShuffledVia(a, c, b);
    forall i, j | 0 <= i < j < |c| ensures SectionOrder(c[i]) < SectionOrder(c[j]) {
      assert SameSection(c[i], b[i]) && SameSection(c[j], b[j]);
      assert SectionOrder(b[i]) < SectionOrder(b[j]);
    }
    SortDistinct(a, c, SectionOrder);
    var dto := ToDto(a);
    forall k | 0 <= k < |b| ensures dto[k] == b[k] {
      assert SameSection(c[k], b[k]);
      SortDistinct(c[k].findings, b[k].findings, FindingOrder);
    }
    ProjectIsStrippedDto(a);
  }

  // ---- what insertSections writes ----

  ghost predicate NumberedFindings(rows: seq<FindingRec>, xs: seq<FindingInput>) {
    && |rows| == |xs|
    && forall i | 0 <= i < |xs| ::
        rows[i].text == xs[i].text && rows[i].severity == xs[i].severity && rows[i].sortOrder == i
  }

  /** rows lists xs with sortOrder equal to the position, 0..n-1, at both levels. */
  ghost predicate Numbered(rows: seq<SectionRec>, xs: seq<SectionInput>) {
    && |rows| == |xs|
    && forall k | 0 <= k < |xs| ::
        rows[k].title == xs[k].title && rows[k].sortOrder == k && NumberedFindings(rows[k].findings, xs[k].findings)
  }

  /** The table content after insertSections(xs), read back in any row order. */
  ghost predicate IsStored(rows: seq<SectionRec>, xs: seq<SectionInput>) {
    exists b: seq<SectionRec> :: Numbered(b, xs) && Shuffled(rows, b)
  }

  /** Every stored tree is numbered 0..n-1 at both levels. */
  ghost predicate WellNumbered(rows: seq<SectionRec>) {
    IsStored(rows, Project(rows))
  }

  lemma NumberedInOrder(b: seq<SectionRec>, xs: seq<SectionInput>)
    requires Numbered(b, xs)
    ensures InOrder(b) && Strip(b) == xs
  {
    assert Strip(b) == xs by {
      forall k | 0 <= k < |xs| ensures Strip(b)[k] == xs[k] {
        assert StripFindings(b[k].findings) == xs[k].findings;
      }
    }
  }

  /** Persisting and projecting are inverse: any row order gives back the list that was inserted. */
  lemma PersistThenProject(rows: seq<SectionRec>, xs: seq<SectionInput>)
    requires IsStored(rows, xs)
    ensures Project(rows) == xs
    ensures Strip(ToDto(rows)) == xs && Numbered(ToDto(rows), xs)
    ensures WellNumbered(rows)
    ensures |rows| == |xs|
  {
    var b: seq<SectionRec> :| Numbered(b, xs) && Shuffled(rows, b);
    NumberedInOrder(b, xs);
    DtoOfShuffled(rows, b);
    ProjectIsStrippedDto(rows);
  }

  lemma EmptyIsStored()
    ensures IsStored([], []) && WellNumbered([])
  {
    ShuffledSelf([]);
    assert Numbered([], []);
    PersistThenProject([], []);
  }

  // ---- insertSections ----

  function InsertedFindings(xs: seq<FindingInput>, next: RowId): seq<FindingRec> {
    seq(|xs|, i requires 0 <= i < |xs| => FindingRec(next + i, xs[i].text, xs[i].severity, i))
  }

  /** The first id not used by the rows of xs: one per section and one per finding. */
  function NextId(xs: seq<SectionInput>, next: RowId): RowId {
    if xs == [] then next
    else NextId(xs[..|xs| - 1], next) + 1 + |xs[|xs| - 1].findings|
  }

  /** The rows insertSections creates, in creation order. */
  function Inserted(xs: seq<SectionInput>, next: RowId): seq<SectionRec> {
    if xs == [] then []
    else
      var n := |xs| - 1;
      var id := NextId(xs[..n], next);
      Inserted(xs[..n], next) + [SectionRec(id, xs[n].title, n, InsertedFindings(xs[n].findings, id + 1))]
  }

  lemma {:induction false} InsertedIsNumbered(xs: seq<SectionInput>, next: RowId)
    ensures Numbered(Inserted(xs, next), xs)
    decreases |xs|
  {
    if xs != [] { InsertedIsNumbered(xs[..|xs| - 1], next); }
  }

  /** What insertSections writes is the report, whatever order the rows come back in. */
  lemma InsertedIsStored(xs: seq<SectionInput>, next: RowId, read: seq<SectionRec>)
    requires Shuffled(read, Inserted(xs, next))
    ensures IsStored(read, xs) && Project(read) == xs && WellNumbered(read)
  {
    InsertedIsNumbered(xs, next);
    PersistThenProject(read, xs);
  }

  lemma {:induction false} InsertedIdsFresh(xs: seq<SectionInput>, next: RowId)
    ensures next <= NextId(xs, next)
    ensures forall i | 0 <= i < |Inserted(xs, next)| :: next <= Inserted(xs, next)[i].id < NextId(xs, next)
    ensures forall i, j | 0 <= i < j < |Inserted(xs, next)| :: Inserted(xs, next)[i].id < Inserted(xs, next)[j].id
    decreases |xs|
  {
    if xs != [] { InsertedIdsFresh(xs[..|xs| - 1], next); }
  }

  /** createMany for one section: sortOrder is the index. */
  method InsertFindings(findings: seq<FindingInput>, nextId: RowId) returns (rows: seq<FindingRec>, next: RowId)
    ensures rows == InsertedFindings(findings, nextId)
    ensures next == nextId + |findings|
  {
    rows, next := [], nextId;
    for i := 0 to |findings|
      invariant rows == InsertedFindings(findings[..i], nextId)
      invariant next == nextId + i
    {
      rows := rows + [FindingRec(next, findings[i].text, findings[i].severity, i)];
      next := next + 1;
    }
    assert findings[..|findings|] == findings;
  }

  /** insertSections: one row per section, then its findings. */
  method InsertSections(sections: seq<SectionInput>, nextId: RowId) returns (rows: seq<SectionRec>, next: RowId)
    ensures rows == Inserted(sections, nextId) && next == NextId(sections, nextId)
  {
    rows, next := [], nextId;
    for s := 0 to |sections|
      invariant rows == Inserted(sections[..s], nextId) && next == NextId(sections[..s], nextId)
    {
      assert sections[..s + 1][..s] == sections[..s];
      var id := next;
      var findings;
      findings, next := InsertFindings(sections[s].findings, id + 1);
      rows := rows + [SectionRec(id, sections[s].title, s, findings)];
    }
    assert sections[..|sections|] == sections;
  }
}
