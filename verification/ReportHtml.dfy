/**
 The printed report: escaping, the severity counts, and the whole document as a function of the view.
 */
module ReportHtml {
  import opened Basics
  import opened ReportTree

  datatype View = View(job: string, labelText: string, generated: string, sections: seq<SectionInput>)

  // ---- escaping ----

  function Entity(c: char): string {
    if c == '&' then "&amp;"
    else if c == '<' then "&lt;"
    else if c == '>' then "&gt;"
    else if c == '\"' then "&quot;"
    else if c == '\'' then "&#39;"
    else [c]
  }

  function Escape(s: string): string {
    if s == "" then "" else Entity(s[0]) + Escape(s[1..])
  }

  predicate StartsWith(s: string, prefix: string) {
    |prefix| <= |s| && s[..|prefix|] == prefix
  }

  /** The first character a reader that knows the five entities sees, and how much of s spells it. */
  function Head(s: string): (char, nat)
    requires s != ""
    ensures 1 <= Head(s).1 <= |s|
  {
    if StartsWith(s, "&amp;") then ('&', 5)
    else if StartsWith(s, "&lt;") then ('<', 4)
    else if StartsWith(s, "&gt;") then ('>', 4)
    else if StartsWith(s, "&quot;") then ('\"', 6)
    else if StartsWith(s, "&#39;") then ('\'', 5)
    else (s[0], 1)
  }

  function Decode(s: string): string {
    if s == "" then "" else [Head(s).0] + Decode(s[Head(s).1..])
  }

  /** The four characters a reader takes as markup. */
  predicate IsMark(c: char) {
    c == '<' || c == '>' || c == '\"' || c == '\''
  }

  function Marks(s: string): string {
    if s == "" then "" else (if IsMark(s[0]) then [s[0]] else "") + Marks(s[1..])
  }

  lemma StartsWithSelf(prefix: string, t: string)
    ensures StartsWith(prefix + t, prefix)
  {
  }

  lemma NotPrefix(s: string, prefix: string, i: nat)
    requires i < |prefix| && i < |s| && s[i] != prefix[i]
    ensures !StartsWith(s, prefix)
  {
    if |prefix| <= |s| { assert s[..|prefix|][i] == s[i]; }
  }

  lemma HeadOfMark(c: char, t: string)
    requires IsMark(c)
    ensures Head(Entity(c) + t) == (c, |Entity(c)|)
  {
    var s := Entity(c) + t;
    StartsWithSelf(Entity(c), t);
    NotPrefix(s, "&amp;", 1);
    if c != '<' { NotPrefix(s, "&lt;", 1); }
    if c != '<' && c != '>' { NotPrefix(s, "&gt;", 1); }
    if c == '\'' { NotPrefix(s, "&quot;", 1); }
  }

  lemma HeadOfEntity(c: char, t: string)
    ensures Head(Entity(c) + t) == (c, |Entity(c)|)
  {
    if IsMark(c) {
      HeadOfMark(c, t);
    } else if c == '&' {
      StartsWithSelf("&amp;", t);
    } else {
      var s := [c] + t;
      NotPrefix(s, "&amp;", 0);
      NotPrefix(s, "&lt;", 0);
      NotPrefix(s, "&gt;", 0);
      NotPrefix(s, "&quot;", 0);
      NotPrefix(s, "&#39;", 0);
    }
  }

  lemma DecodeEntity(c: char, t: string)
    ensures Decode(Entity(c) + t) == [c] + Decode(t)
  {
    HeadOfEntity(c, t);
    assert (Entity(c) + t)[|Entity(c)|..] == t;
  }

  /** Decoding undoes escaping: every text survives the document. */
  lemma {:induction false} DecodeEscape(s: string)
    ensures Decode(Escape(s)) == s
    decreases |s|
  {
    if s != "" {
      DecodeEntity(s[0], Escape(s[1..]));
      DecodeEscape(s[1..]);
    }
  }

  lemma EscapeInjective(a: string, b: string)
    requires Escape(a) == Escape(b)
    ensures a == b
  {
    DecodeEscape(a);
    DecodeEscape(b);
  }

  /** Escaped text carries no markup character. */
  lemma {:induction false} EscapeHasNoMarks(s: string)
    ensures forall c | c in Escape(s) :: !IsMark(c)
    decreases |s|
  {
    if s != "" { EscapeHasNoMarks(s[1..]); }
  }

  lemma {:induction false} MarksPlus(a: string, b: string)
    ensures Marks(a + b) == Marks(a) + Marks(b)
    decreases |a|
  {
    if a == "" {
      assert a + b == b;
    } else {
      var s := a + b;
      assert s[0] == a[0] && s[1..] == a[1..] + b;
      MarksPlus(a[1..], b);
      var m := if IsMark(a[0]) then [a[0]] else "";
      assert Marks(s) == m + (Marks(a[1..]) + Marks(b)) && Marks(a) == m + Marks(a[1..]);
    }
  }

  lemma {:induction false} NoMarks(s: string)
    requires forall c | c in s :: !IsMark(c)
    ensures Marks(s) == ""
    decreases |s|
  {
    if s != "" {
      assert s[0] in s && forall c | c in s[1..] :: c in s;
      NoMarks(s[1..]);
    }
  }

  // ---- counting ----

  datatype Counts = Counts(safety: nat, repair: nat, maintenance: nat, info: nat) {
    function Of(sev: Severity): nat {
      match sev
      case Safety => safety
      case Repair => repair
      case Maintenance => maintenance
      case Info => info
    }

    function Plus1(sev: Severity): Counts {
      match sev
      case Safety => this.(safety := safety + 1)
      case Repair => this.(repair := repair + 1)
      case Maintenance => this.(maintenance := maintenance + 1)
      case Info => this.(info := info + 1)
    }

    function Sum(): nat { safety + repair + maintenance + info }
  }

  const NONE := Counts(0, 0, 0, 0)

  /** How many of the findings have this severity. */
  function HowMany(fs: seq<FindingInput>, sev: Severity): nat {
    if fs == [] then 0 else HowMany(fs[..|fs| - 1], sev) + (if fs[|fs| - 1].severity == sev then 1 else 0)
  }

  function HowManyIn(sections: seq<SectionInput>, sev: Severity): nat {
    if sections == [] then 0
    else HowManyIn(sections[..|sections| - 1], sev) + HowMany(sections[|sections| - 1].findings, sev)
  }

  function TotalFindings(sections: seq<SectionInput>): nat {
    if sections == [] then 0 else TotalFindings(sections[..|sections| - 1]) + |sections[|sections| - 1].findings|
  }

  function CountAll(sections: seq<SectionInput>): Counts {
    Counts(HowManyIn(sections, Safety), HowManyIn(sections, Repair), HowManyIn(sections, Maintenance), HowManyIn(sections, Info))
  }

  method CountSection(start: Counts, findings: seq<FindingInput>) returns (counts: Counts)
    ensures forall sev :: counts.Of(sev) == start.Of(sev) + HowMany(findings, sev)
  {
    counts := start;
    for i := 0 to |findings|
      invariant forall sev :: counts.Of(sev) == start.Of(sev) + HowMany(findings[..i], sev)
    {
      assert findings[..i + 1][..i] == findings[..i];
      counts := counts.Plus1(findings[i].severity);
    }
    assert findings[..|findings|] == findings;
  }

  method CountBySeverity(sections: seq<SectionInput>) returns (counts: Counts)
    ensures counts == CountAll(sections)
  {
    counts := NONE;
    for i := 0 to |sections|
      invariant counts == CountAll(sections[..i])
    {
      assert sections[..i + 1][..i] == sections[..i];
      ghost var was := counts;
      counts := CountSection(counts, sections[i].findings);
      assert forall sev :: counts.Of(sev) == was.Of(sev) + HowMany(sections[i].findings, sev);
      assert counts.Of(Safety) == counts.safety && counts.Of(Repair) == counts.repair;
      assert counts.Of(Maintenance) == counts.maintenance && counts.Of(Info) == counts.info;
    }
    assert sections[..|sections|] == sections;
  }

  lemma {:induction false} EveryFindingCounted(fs: seq<FindingInput>)
    ensures HowMany(fs, Safety) + HowMany(fs, Repair) + HowMany(fs, Maintenance) + HowMany(fs, Info) == |fs|
    decreases |fs|
  {
    if fs != [] { EveryFindingCounted(fs[..|fs| - 1]); }
  }

  /** The chip counts add up to the total in the header. */
  lemma {:induction false} ChipsSumToTotal(sections: seq<SectionInput>)
    ensures CountAll(sections).Sum() == TotalFindings(sections)
    decreases |sections|
  {
    if sections != [] {
      ChipsSumToTotal(sections[..|sections| - 1]);
      EveryFindingCounted(sections[|sections| - 1].findings);
    }
  }

  // ---- the document ----

  function Label(sev: Severity): string {
    match sev
    case Safety => "Safety"
    case Repair => "Repair"
    case Maintenance => "Maintenance"
    case Info => "Info"
  }

  datatype Colours = Colours(fg: string, bg: string, border: string)

  function ColoursOf(sev: Severity): Colours {
    match sev
    case Safety => Colours("#7f1d1d", "#fee2e2", "#fca5a5")
    case Repair => Colours("#7c2d12", "#ffedd5", "#fdba74")
    case Maintenance => Colours("#713f12", "#fef9c3", "#fde047")
    case Info => Colours("#1e3a8a", "#dbeafe", "#93c5fd")
  }

  function Style(sev: Severity): string {
    var c := ColoursOf(sev);
    "color:" + c.fg + ";background:" + c.bg + ";border-color:" + c.border
  }

  /** The fixed texts between the holes, in document order. */
  datatype Template = Template(
    title: string, titleWord: string, style: string, meta: string, total: string, finding: string, plural: string,
    chips: string, noChips: string, chipOpen: string, chipClose: string, sections: string, noSections: string,
    sectionOpen: string, list: string, sectionClose: string,
    itemOpen: string, itemLabel: string, itemText: string, itemClose: string,
    footer: string, report: string, end: string)

  /** The fixed markup away from the holes: no result depends on what it says. */
  datatype Bulk = Bulk(head: string, styleSheetAndBrand: string, meta: string, summary: string, none: string,
                       footer: string, end: string)

  function Fixed(bulk: Bulk): Template {
    Template(
      bulk.head + "<title>",
      " \U{2014} Inspection Report",
      "</title>" + bulk.styleSheetAndBrand + "<h1>",
      "</h1>" + bulk.meta + "<strong>",
      "</strong> &middot; ",
      " finding", "s",
      "</div>" + bulk.summary + "<div class=\"chips\">",
      "<span class=\"chip\" style=\"" + Style(Info) + "\">No findings</span>",
      "<span class=\"chip\" style=\"", "</span>",
      "</div>\n    </div>\n\n    ",
      "<p class=\"empty\">" + bulk.none + "</p>",
      "    <section class=\"report-section\">\n      <h2>",
      "</h2>\n      <ul class=\"findings\">\n",
      "\n      </ul>\n    </section>",
      "      <li class=\"finding\">\n        <span class=\"sev\" style=\"", "\">",
      "</span>\n        <span class=\"finding-text\">",
      "</span>\n      </li>",
      bulk.footer + "<span>",
      "Report ",
      "</span>" + bulk.end)
  }

  function Digits(n: nat): string {
    if n < 10 then [('0' as int + n) as char] else Digits(n / 10) + [('0' as int + n % 10) as char]
  }

  function Chip(t: Template, sev: Severity, n: nat): string {
    if n == 0 then ""
    else t.chipOpen + Style(sev) + t.itemLabel + Label(sev) + ": " + Digits(n) + t.chipClose
  }

  function Chips(t: Template, c: Counts): string {
    Chip(t, Safety, c.safety) + Chip(t, Repair, c.repair) + Chip(t, Maintenance, c.maintenance) + Chip(t, Info, c.info)
  }

  function Item(t: Template, f: FindingInput): string {
    t.itemOpen + Style(f.severity) + t.itemLabel + Label(f.severity) + t.itemText + Escape(f.text) + t.itemClose
  }

  /** The items joined by line breaks. */
  function Items(t: Template, fs: seq<FindingInput>): string {
    if fs == [] then ""
    else if |fs| == 1 then Item(t, fs[0])
    else Items(t, fs[..|fs| - 1]) + "\n" + Item(t, fs[|fs| - 1])
  }

  /** renderSection. */
  function SectionHtml(t: Template, s: SectionInput): string {
    t.sectionOpen + Escape(s.title) + t.list + Items(t, s.findings) + t.sectionClose
  }

  function SectionsHtml(t: Template, sections: seq<SectionInput>): string {
    if sections == [] then t.noSections
    else if |sections| == 1 then SectionHtml(t, sections[0])
    else SectionsHtml(t, sections[..|sections| - 1]) + "\n" + SectionHtml(t, sections[|sections| - 1])
  }

  function TotalHtml(t: Template, total: nat): string {
    Digits(total) + t.finding + (if total == 1 then "" else t.plural)
  }

  function SummaryHtml(t: Template, counts: Counts): string {
    if Chips(t, counts) == "" then t.noChips else Chips(t, counts)
  }

  /** From the total to the last chip: what depends only on the findings' severities. */
  function CountsHtml(t: Template, sections: seq<SectionInput>): string {
    t.total + TotalHtml(t, TotalFindings(sections)) + t.chips + SummaryHtml(t, CountAll(sections))
  }

  /** buildReportHtml. */
  function Build(t: Template, v: View): string {
    t.title + Escape(v.labelText) + t.titleWord + t.style + Escape(v.labelText) + t.meta + Escape(v.generated)
    + CountsHtml(t, v.sections) + t.sections + SectionsHtml(t, v.sections)
    + t.footer + t.report + Escape(v.job) + t.end
  }

  // ---- the markup depends only on the shape ----

  function BlankFindings(fs: seq<FindingInput>): seq<FindingInput> {
    seq(|fs|, i requires 0 <= i < |fs| => fs[i].(text := ""))
  }

  function BlankSections(sections: seq<SectionInput>): seq<SectionInput> {
    seq(|sections|, i requires 0 <= i < |sections| => SectionInput("", BlankFindings(sections[i].findings)))
  }

  /** The view's shape: its sections, findings and severities, with every text emptied. */
  function Blank(v: View): View {
    View("", "", "", BlankSections(v.sections))
  }

  lemma MarksOfHole(a: string, x: string, b: string)
    ensures Marks(a + Escape(x) + b) == Marks(a) + Marks(b)
    ensures Marks(a + Escape("") + b) == Marks(a) + Marks(b)
  {
    EscapeHasNoMarks(x);
    NoMarks(Escape(x));
    MarksPlus(a + Escape(x), b);
    MarksPlus(a, Escape(x));
    assert a + Escape("") == a;
    MarksPlus(a, b);
  }

  lemma MarksSame(a: string, a': string, b: string, b': string)
    requires Marks(a) == Marks(a') && Marks(b) == Marks(b')
    ensures Marks(a + b) == Marks(a' + b')
  {
    MarksPlus(a, b);
    MarksPlus(a', b');
  }

  lemma ItemMarks(t: Template, f: FindingInput)
    ensures Marks(Item(t, f)) == Marks(Item(t, f.(text := "")))
  {
    var open := t.itemOpen + Style(f.severity) + t.itemLabel + Label(f.severity) + t.itemText;
    MarksOfHole(open, f.text, t.itemClose);
  }

  lemma {:induction false} ItemsMarks(t: Template, fs: seq<FindingInput>)
    ensures Marks(Items(t, fs)) == Marks(Items(t, BlankFindings(fs)))
    decreases |fs|
  {
    var b := BlankFindings(fs);
    if |fs| == 1 {
      ItemMarks(t, fs[0]);
    } else if |fs| > 1 {
      var n := |fs| - 1;
      ItemsMarks(t, fs[..n]);
      ItemMarks(t, fs[n]);
      assert b[..n] == BlankFindings(fs[..n]);
      MarksSame(Items(t, fs[..n]), Items(t, b[..n]), "\n", "\n");
      MarksSame(Items(t, fs[..n]) + "\n", Items(t, b[..n]) + "\n", Item(t, fs[n]), Item(t, b[n]));
    }
  }

  lemma SectionMarks(t: Template, s: SectionInput)
    ensures Marks(SectionHtml(t, s)) == Marks(SectionHtml(t, SectionInput("", BlankFindings(s.findings))))
  {
    var b := BlankFindings(s.findings);
    ItemsMarks(t, s.findings);
    MarksOfHole(t.sectionOpen, s.title, t.list);
    MarksSame(t.sectionOpen + Escape(s.title) + t.list, t.sectionOpen + Escape("") + t.list, Items(t, s.findings), Items(t, b));
    MarksSame(t.sectionOpen + Escape(s.title) + t.list + Items(t, s.findings),
              t.sectionOpen + Escape("") + t.list + Items(t, b), t.sectionClose, t.sectionClose);
  }

  lemma {:induction false} SectionsMarks(t: Template, sections: seq<SectionInput>)
    ensures Marks(SectionsHtml(t, sections)) == Marks(SectionsHtml(t, BlankSections(sections)))
    decreases |sections|
  {
    var b := BlankSections(sections);
    if |sections| == 1 {
      SectionMarks(t, sections[0]);
    } else if |sections| > 1 {
      var n := |sections| - 1;
      SectionsMarks(t, sections[..n]);
      SectionMarks(t, sections[n]);
      assert b[..n] == BlankSections(sections[..n]);
      MarksSame(SectionsHtml(t, sections[..n]), SectionsHtml(t, b[..n]), "\n", "\n");
      MarksSame(SectionsHtml(t, sections[..n]) + "\n", SectionsHtml(t, b[..n]) + "\n",
                SectionHtml(t, sections[n]), SectionHtml(t, b[n]));
    }
  }

  lemma {:induction false} BlankHowMany(fs: seq<FindingInput>, sev: Severity)
    ensures HowMany(BlankFindings(fs), sev) == HowMany(fs, sev)
    decreases |fs|
  {
    if fs != [] {
      BlankHowMany(fs[..|fs| - 1], sev);
      assert BlankFindings(fs)[..|fs| - 1] == BlankFindings(fs[..|fs| - 1]);
    }
  }

  lemma {:induction false} BlankHowManyIn(sections: seq<SectionInput>, sev: Severity)
    ensures HowManyIn(BlankSections(sections), sev) == HowManyIn(sections, sev)
    decreases |sections|
  {
    if sections != [] {
      BlankHowManyIn(sections[..|sections| - 1], sev);
      BlankHowMany(sections[|sections| - 1].findings, sev);
      assert BlankSections(sections)[..|sections| - 1] == BlankSections(sections[..|sections| - 1]);
    }
  }

  lemma BlankCounts(t: Template, sections: seq<SectionInput>)
    ensures CountsHtml(t, BlankSections(sections)) == CountsHtml(t, sections)
  {
    BlankHowManyIn(sections, Safety);
    BlankHowManyIn(sections, Repair);
    BlankHowManyIn(sections, Maintenance);
    BlankHowManyIn(sections, Info);
    ChipsSumToTotal(sections);
    ChipsSumToTotal(BlankSections(sections));
  }

  /** The part of the document before the sections, and the part after them. */
  function Front(t: Template, v: View): string {
    t.title + Escape(v.labelText) + t.titleWord + t.style + Escape(v.labelText) + t.meta + Escape(v.generated)
    + CountsHtml(t, v.sections) + t.sections
  }

  function Back(t: Template, v: View): string {
    t.footer + t.report + Escape(v.job) + t.end
  }

  lemma BuildParts(t: Template, v: View)
    ensures Build(t, v) == Front(t, v) + SectionsHtml(t, v.sections) + Back(t, v)
  {
    var a, b, c, d, e := Front(t, v) + SectionsHtml(t, v.sections), t.footer, t.report, Escape(v.job), t.end;
    Regroup(a, b, c, d, e);
  }

  lemma Regroup(a: string, b: string, c: string, d: string, e: string)
    ensures a + b + c + d + e == a + (b + c + d + e)
  {
  }

  lemma FrontMarks(t: Template, v: View)
    ensures Marks(Front(t, v)) == Marks(Front(t, Blank(v)))
  {
    BlankCounts(t, v.sections);
    var rest := CountsHtml(t, v.sections);
    var a, b := t.title + Escape(v.labelText), t.title + Escape("");
    MarksOfHole(t.title, v.labelText, "");
    assert a + "" == a && b + "" == b;
    MarksSame(a, b, t.titleWord, t.titleWord);
    MarksSame(a + t.titleWord, b + t.titleWord, t.style, t.style);
    var c, d := a + t.titleWord + t.style, b + t.titleWord + t.style;
    MarksSame(c, d, Escape(v.labelText), Escape(v.labelText));
    MarksOfHole(d, v.labelText, t.meta);
    MarksSame(c + Escape(v.labelText), d + Escape(v.labelText), t.meta, t.meta);
    var e, g := c + Escape(v.labelText) + t.meta, d + Escape("") + t.meta;
    MarksSame(e, g, Escape(v.generated), Escape(v.generated));
    MarksOfHole(g, v.generated, rest);
    MarksSame(e + Escape(v.generated), g + Escape(v.generated), rest, rest);
    MarksSame(e + Escape(v.generated) + rest, g + Escape("") + rest, t.sections, t.sections);
  }

  lemma BackMarks(t: Template, v: View)
    ensures Marks(Back(t, v)) == Marks(Back(t, Blank(v)))
  {
    MarksOfHole(t.footer + t.report, v.job, t.end);
  }

  /**
   No text can add, remove or move markup: the sequence of < > " ' in the document is that of the blanked
   view, so it depends only on the number of sections, of findings, and their severities.
   */
  lemma MarkupDependsOnShape(t: Template, v: View)
    ensures Marks(Build(t, v)) == Marks(Build(t, Blank(v)))
  {
    BuildParts(t, v);
    BuildParts(t, Blank(v));
    FrontMarks(t, v);
    SectionsMarks(t, v.sections);
    BackMarks(t, v);
    MarksSame(Front(t, v), Front(t, Blank(v)), SectionsHtml(t, v.sections), SectionsHtml(t, Blank(v).sections));
    MarksSame(Front(t, v) + SectionsHtml(t, v.sections), Front(t, Blank(v)) + SectionsHtml(t, Blank(v).sections),
              Back(t, v), Back(t, Blank(v)));
  }

  // ---- the document can be read back ----

  predicate EndsWith(s: string, c: char) {
    s != "" && s[|s| - 1] == c
  }

  function FromEnd(s: string, i: nat): char
    requires i < |s|
  {
    s[|s| - 1 - i]
  }

  lemma PlusEnd(a: string, b: string, i: nat)
    requires i < |b|
    ensures i < |a + b| && FromEnd(a + b, i) == FromEnd(b, i)
  {
  }

  predicate Free(s: string, c: char) {
    c !in s
  }

  lemma SameEnd(a: string, b: string, c: string)
    requires a + c == b + c
    ensures a == b
  {
    assert |a| == |b|;
    assert (a + c)[..|a|] == a && (b + c)[..|b|] == b;
  }

  lemma SameStart(c: string, a: string, b: string)
    requires c + a == c + b
    ensures a == b
  {
    assert (c + a)[|c|..] == a && (c + b)[|c|..] == b;
  }

  /** A text is cut off at the last `>` before it. */
  lemma LastGt(a: string, x: string, b: string, y: string)
    requires EndsWith(a, '>') && EndsWith(b, '>') && Free(x, '>') && Free(y, '>') && a + x == b + y
    ensures a == b && x == y
  {
    if |a| < |b| { GtInText(a, x, b, y); }
    if |b| < |a| { GtInText(b, y, a, x); }
    assert (a + x)[..|a|] == a && (b + y)[..|b|] == b;
    assert (a + x)[|a|..] == x && (b + y)[|b|..] == y;
  }

  lemma GtInText(a: string, x: string, b: string, y: string)
    requires EndsWith(b, '>') && a + x == b + y && |a| < |b|
    ensures !Free(x, '>')
  {
    assert (a + x)[|b| - 1] == x[|b| - 1 - |a|];
    assert (b + y)[|b| - 1] == b[|b| - 1];
  }

  /** A text is cut off at the first `<` after it. */
  lemma FirstLt(x: string, a: string, y: string, b: string)
    requires a != "" && a[0] == '<' && b != "" && b[0] == '<' && Free(x, '<') && Free(y, '<') && x + a == y + b
    ensures x == y && a == b
  {
    if |x| < |y| { LtInText(x, a, y, b); }
    if |y| < |x| { LtInText(y, b, x, a); }
    assert (x + a)[..|x|] == x && (y + b)[..|y|] == y;
    assert (x + a)[|x|..] == a && (y + b)[|y|..] == b;
  }

  lemma LtInText(x: string, a: string, y: string, b: string)
    requires a != "" && a[0] == '<' && x + a == y + b && |x| < |y|
    ensures !Free(y, '<')
  {
    assert (x + a)[|x|] == a[0] && (y + b)[|x|] == y[|x|];
  }

  lemma EscapeIsFree(s: string)
    ensures Free(Escape(s), '<') && Free(Escape(s), '>')
  {
    EscapeHasNoMarks(s);
  }

  lemma LabelsDiffer(a: Severity, b: Severity)
    requires Label(a) == Label(b)
    ensures a == b
  {
    assert Label(a)[0] == Label(b)[0];
  }

  lemma LabelIsFree(sev: Severity)
    ensures Free(Label(sev), '>')
  {
  }

  /** What reading back needs of the fixed texts: where their marks stand. */
  ghost predicate Readable(t: Template) {
    ReadableItems(t) && ReadableSections(t) && ReadableFront(t)
  }

  ghost predicate ReadableItems(t: Template) {
    && EndsWith(t.itemLabel, '>') && EndsWith(t.itemText, '>') && EndsWith(t.itemClose, '>')
    && |t.list| >= 3 && |t.itemClose| >= 2 && FromEnd(t.list, 0) == '\n'
    && FromEnd(t.list, 2) != FromEnd(t.itemClose, 1)
  }

  ghost predicate ReadableSections(t: Template) {
    && EndsWith(t.sectionOpen, '>') && EndsWith(t.footer, '>') && Free(t.report, '>') && EndsWith(t.sections, ' ')
    && |t.noSections| >= 2 && |t.sectionClose| >= 2
    && FromEnd(t.noSections, 1) != FromEnd(t.sectionClose, 1)
  }

  ghost predicate ReadableFront(t: Template) {
    && Free(t.titleWord, '<') && t.style != "" && t.style[0] == '<' && t.total != "" && t.total[0] == '<'
    && t.meta != "" && t.meta[0] == '<'
  }

  lemma EndsWithPlus(a: string, b: string, c: char)
    requires EndsWith(b, c)
    ensures EndsWith(a + b, c)
  {
  }

  lemma FixedItemsReadable(bulk: Bulk)
    ensures ReadableItems(Fixed(bulk))
  {
  }

  lemma FixedSectionsReadable(bulk: Bulk)
    ensures ReadableSections(Fixed(bulk))
  {
    EndsWithPlus(bulk.footer, "<span>", '>');
  }

  lemma FixedFrontReadable(bulk: Bulk)
    ensures ReadableFront(Fixed(bulk))
  {
  }

  lemma FixedIsReadable(bulk: Bulk)
    ensures Readable(Fixed(bulk))
  {
    FixedItemsReadable(bulk);
    FixedSectionsReadable(bulk);
    FixedFrontReadable(bulk);
  }

  /** The last item of a text can be read off, and what is before it. */
  lemma ItemReads(t: Template, a: string, f: FindingInput, b: string, g: FindingInput)
    requires Readable(t) && a + Item(t, f) == b + Item(t, g)
    ensures f == g && a == b
  {
    var fa, fb := a + (t.itemOpen + Style(f.severity) + t.itemLabel), b + (t.itemOpen + Style(g.severity) + t.itemLabel);
    var la, lb := fa + Label(f.severity), fb + Label(g.severity);
    ItemGroups(t, a, f);
    ItemGroups(t, b, g);
    SameEnd(la + t.itemText + Escape(f.text), lb + t.itemText + Escape(g.text), t.itemClose);
    EscapeIsFree(f.text);
    EscapeIsFree(g.text);
    LastGt(la + t.itemText, Escape(f.text), lb + t.itemText, Escape(g.text));
    EscapeInjective(f.text, g.text);
    SameEnd(la, lb, t.itemText);
    LabelIsFree(f.severity);
    LabelIsFree(g.severity);
    LastGt(fa, Label(f.severity), fb, Label(g.severity));
    LabelsDiffer(f.severity, g.severity);
    SameEnd(a, b, t.itemOpen + Style(f.severity) + t.itemLabel);
  }

  lemma ItemGroups(t: Template, a: string, f: FindingInput)
    ensures a + Item(t, f) == a + (t.itemOpen + Style(f.severity) + t.itemLabel) + Label(f.severity) + t.itemText + Escape(f.text) + t.itemClose
  {
    var h := t.itemOpen + Style(f.severity) + t.itemLabel;
    Regroup(a, h, Label(f.severity), t.itemText, Escape(f.text));
    assert a + (h + Label(f.severity) + t.itemText + Escape(f.text)) + t.itemClose
        == a + (h + Label(f.severity) + t.itemText + Escape(f.text) + t.itemClose);
  }

  lemma Regroup3(a: string, b: string, c: string)
    ensures a + (b + c) == a + b + c
  {
  }

  /** What stands before the last of some items. */
  function BeforeLast(t: Template, fs: seq<FindingInput>): string
    requires fs != []
  {
    if |fs| == 1 then "" else Items(t, fs[..|fs| - 1]) + "\n"
  }

  lemma ItemsSplit(t: Template, a: string, fs: seq<FindingInput>)
    requires fs != []
    ensures a + Items(t, fs) == a + BeforeLast(t, fs) + Item(t, fs[|fs| - 1])
  {
    Regroup3(a, BeforeLast(t, fs), Item(t, fs[|fs| - 1]));
    if |fs| == 1 { assert "" + Item(t, fs[0]) == Item(t, fs[0]); }
  }

  lemma ItemEnd(t: Template, f: FindingInput)
    requires ReadableItems(t)
    ensures |Item(t, f)| >= 2 && FromEnd(Item(t, f), 0) == '>' && FromEnd(Item(t, f), 1) == FromEnd(t.itemClose, 1)
  {
    var body := t.itemOpen + Style(f.severity) + t.itemLabel + Label(f.severity) + t.itemText + Escape(f.text);
    PlusEnd(body, t.itemClose, 0);
    PlusEnd(body, t.itemClose, 1);
  }

  lemma ItemsEnd(t: Template, a: string, fs: seq<FindingInput>)
    requires ReadableItems(t) && fs != []
    ensures var z := a + Items(t, fs);
      |z| >= 2 && FromEnd(z, 0) == '>' && FromEnd(z, 1) == FromEnd(t.itemClose, 1)
  {
    var f := fs[|fs| - 1];
    ItemsSplit(t, a, fs);
    ItemEnd(t, f);
    PlusEnd(a + BeforeLast(t, fs), Item(t, f), 0);
    PlusEnd(a + BeforeLast(t, fs), Item(t, f), 1);
  }

  lemma ListIsNotItems(t: Template, a: string, b: string, gs: seq<FindingInput>)
    requires ReadableItems(t) && gs != []
    ensures a + t.list != b + t.list + Items(t, gs)
  {
    ItemsEnd(t, b + t.list, gs);
    PlusEnd(a, t.list, 0);
  }

  /** An opened list does not look like items and a line break. */
  lemma ListIsNotMoreItems(t: Template, a: string, b: string, gs: seq<FindingInput>)
    requires ReadableItems(t) && gs != []
    ensures a + t.list != b + t.list + Items(t, gs) + "\n"
  {
    var z := b + t.list + Items(t, gs);
    ItemsEnd(t, b + t.list, gs);
    assert FromEnd(z + "\n", 2) == FromEnd(z, 1);
    PlusEnd(a, t.list, 2);
  }

  /** An opened list followed by items can be read back: the items and what is before the list. */
  lemma {:induction false} ItemsRead(t: Template, a: string, fs: seq<FindingInput>, b: string, gs: seq<FindingInput>)
    requires Readable(t) && a + t.list + Items(t, fs) == b + t.list + Items(t, gs)
    ensures a == b && fs == gs
    decreases |fs|
  {
    if fs != [] && gs != [] {
      LastItemRead(t, a, fs, b, gs);
      BeforeLastRead(t, a, fs, b, gs);
      if |fs| > 1 {
        ItemsRead(t, a, fs[..|fs| - 1], b, gs[..|gs| - 1]);
      }
      SameList(fs, gs);
    } else {
      EmptyRead(t, a, fs, b, gs);
    }
  }

  lemma SameList<T>(fs: seq<T>, gs: seq<T>)
    requires fs != [] && gs != [] && fs[|fs| - 1] == gs[|gs| - 1] && fs[..|fs| - 1] == gs[..|gs| - 1]
    ensures fs == gs
  {
    assert fs == fs[..|fs| - 1] + [fs[|fs| - 1]] && gs == gs[..|gs| - 1] + [gs[|gs| - 1]];
  }

  lemma LastItemRead(t: Template, a: string, fs: seq<FindingInput>, b: string, gs: seq<FindingInput>)
    requires Readable(t) && fs != [] && gs != [] && a + t.list + Items(t, fs) == b + t.list + Items(t, gs)
    ensures fs[|fs| - 1] == gs[|gs| - 1]
    ensures a + t.list + BeforeLast(t, fs) == b + t.list + BeforeLast(t, gs)
  {
    ItemsSplit(t, a + t.list, fs);
    ItemsSplit(t, b + t.list, gs);
    ItemReads(t, a + t.list + BeforeLast(t, fs), fs[|fs| - 1], b + t.list + BeforeLast(t, gs), gs[|gs| - 1]);
  }

  lemma EmptyRead(t: Template, a: string, fs: seq<FindingInput>, b: string, gs: seq<FindingInput>)
    requires Readable(t) && a + t.list + Items(t, fs) == b + t.list + Items(t, gs) && (fs == [] || gs == [])
    ensures a == b && fs == gs
  {
    assert a + t.list + "" == a + t.list && b + t.list + "" == b + t.list;
    if fs != [] { ListIsNotItems(t, b, a, fs); }
    if gs != [] { ListIsNotItems(t, a, b, gs); }
    SameEnd(a, b, t.list);
  }

  lemma BeforeLastRead(t: Template, a: string, fs: seq<FindingInput>, b: string, gs: seq<FindingInput>)
    requires Readable(t) && fs != [] && gs != []
    requires a + t.list + BeforeLast(t, fs) == b + t.list + BeforeLast(t, gs)
    ensures |fs| == 1 <==> |gs| == 1
    ensures |fs| == 1 ==> a == b
    ensures |fs| > 1 ==> a + t.list + Items(t, fs[..|fs| - 1]) == b + t.list + Items(t, gs[..|gs| - 1])
  {
    var x, y := a + t.list, b + t.list;
    assert x + "" == x && y + "" == y;
    if |fs| > 1 {
      var i := Items(t, fs[..|fs| - 1]);
      Regroup3(x, i, "\n");
      if |gs| > 1 {
        Regroup3(y, Items(t, gs[..|gs| - 1]), "\n");
        SameEnd(x + i, y + Items(t, gs[..|gs| - 1]), "\n");
      } else {
        ListIsNotMoreItems(t, b, a, fs[..|fs| - 1]);
      }
    } else if |gs| > 1 {
      Regroup3(y, Items(t, gs[..|gs| - 1]), "\n");
      ListIsNotMoreItems(t, a, b, gs[..|gs| - 1]);
    } else {
      SameEnd(a, b, t.list);
    }
  }

  // ---- sections ----

  lemma SectionGroups(t: Template, a: string, s: SectionInput)
    ensures a + SectionHtml(t, s) == (a + t.sectionOpen) + Escape(s.title) + t.list + Items(t, s.findings) + t.sectionClose
  {
    var e, i := Escape(s.title), Items(t, s.findings);
    assert a + (t.sectionOpen + e + t.list + i + t.sectionClose) == a + t.sectionOpen + e + t.list + i + t.sectionClose;
  }

  lemma SectionReads(t: Template, a: string, r: SectionInput, b: string, s: SectionInput)
    requires Readable(t) && a + SectionHtml(t, r) == b + SectionHtml(t, s)
    ensures r == s && a == b
  {
    var x, y := (a + t.sectionOpen) + Escape(r.title), (b + t.sectionOpen) + Escape(s.title);
    SectionGroups(t, a, r);
    SectionGroups(t, b, s);
    SameEnd(x + t.list + Items(t, r.findings), y + t.list + Items(t, s.findings), t.sectionClose);
    ItemsRead(t, x, r.findings, y, s.findings);
    EscapeIsFree(r.title);
    EscapeIsFree(s.title);
    EndsWithPlus(a, t.sectionOpen, '>');
    EndsWithPlus(b, t.sectionOpen, '>');
    LastGt(a + t.sectionOpen, Escape(r.title), b + t.sectionOpen, Escape(s.title));
    EscapeInjective(r.title, s.title);
    SameEnd(a, b, t.sectionOpen);
  }

  function BeforeLastSection(t: Template, ss: seq<SectionInput>): string
    requires ss != []
  {
    if |ss| == 1 then "" else SectionsHtml(t, ss[..|ss| - 1]) + "\n"
  }

  lemma SectionsSplit(t: Template, a: string, ss: seq<SectionInput>)
    requires ss != []
    ensures a + SectionsHtml(t, ss) == a + BeforeLastSection(t, ss) + SectionHtml(t, ss[|ss| - 1])
  {
    Regroup3(a, BeforeLastSection(t, ss), SectionHtml(t, ss[|ss| - 1]));
    if |ss| == 1 { assert "" + SectionHtml(t, ss[0]) == SectionHtml(t, ss[0]); }
  }

  lemma NoSectionsAreNotSections(t: Template, a: string, b: string, ss: seq<SectionInput>)
    requires ReadableSections(t) && ss != []
    ensures a + t.noSections != b + SectionsHtml(t, ss)
  {
    var s := ss[|ss| - 1];
    var body := t.sectionOpen + Escape(s.title) + t.list + Items(t, s.findings);
    SectionsSplit(t, b, ss);
    PlusEnd(body, t.sectionClose, 1);
    PlusEnd(b + BeforeLastSection(t, ss), SectionHtml(t, s), 1);
    PlusEnd(a, t.noSections, 1);
  }

  lemma LastSectionRead(t: Template, a: string, rs: seq<SectionInput>, b: string, ss: seq<SectionInput>)
    requires Readable(t) && rs != [] && ss != [] && a + SectionsHtml(t, rs) == b + SectionsHtml(t, ss)
    ensures rs[|rs| - 1] == ss[|ss| - 1] && a + BeforeLastSection(t, rs) == b + BeforeLastSection(t, ss)
  {
    SectionsSplit(t, a, rs);
    SectionsSplit(t, b, ss);
    SectionReads(t, a + BeforeLastSection(t, rs), rs[|rs| - 1], b + BeforeLastSection(t, ss), ss[|ss| - 1]);
  }

  lemma BreakIsNotSpace(x: string, y: string)
    requires EndsWith(y, ' ')
    ensures x + "\n" != y
  {
    PlusEnd(x, "\n", 0);
  }

  lemma BeforeLastSectionRead(t: Template, a: string, rs: seq<SectionInput>, b: string, ss: seq<SectionInput>)
    requires rs != [] && ss != [] && EndsWith(a, ' ') && EndsWith(b, ' ')
    requires a + BeforeLastSection(t, rs) == b + BeforeLastSection(t, ss)
    ensures |rs| == 1 <==> |ss| == 1
    ensures |rs| == 1 ==> a == b
    ensures |rs| > 1 ==> a + SectionsHtml(t, rs[..|rs| - 1]) == b + SectionsHtml(t, ss[..|ss| - 1])
  {
    assert a + "" == a && b + "" == b;
    if |rs| > 1 {
      var x := a + SectionsHtml(t, rs[..|rs| - 1]);
      Regroup3(a, SectionsHtml(t, rs[..|rs| - 1]), "\n");
      if |ss| > 1 {
        Regroup3(b, SectionsHtml(t, ss[..|ss| - 1]), "\n");
        SameEnd(x, b + SectionsHtml(t, ss[..|ss| - 1]), "\n");
      } else {
        BreakIsNotSpace(x, b);
      }
    } else if |ss| > 1 {
      var y := b + SectionsHtml(t, ss[..|ss| - 1]);
      Regroup3(b, SectionsHtml(t, ss[..|ss| - 1]), "\n");
      BreakIsNotSpace(y, a);
    }
  }

  lemma {:induction false} SectionsRead(t: Template, a: string, rs: seq<SectionInput>, b: string, ss: seq<SectionInput>)
    requires Readable(t) && EndsWith(a, ' ') && EndsWith(b, ' ') && a + SectionsHtml(t, rs) == b + SectionsHtml(t, ss)
    ensures a == b && rs == ss
    decreases |rs|
  {
    if rs != [] && ss != [] {
      LastSectionRead(t, a, rs, b, ss);
      BeforeLastSectionRead(t, a, rs, b, ss);
      if |rs| > 1 {
        SectionsRead(t, a, rs[..|rs| - 1], b, ss[..|ss| - 1]);
      }
      SameList(rs, ss);
    } else {
      if rs != [] { NoSectionsAreNotSections(t, b, a, rs); }
      if ss != [] { NoSectionsAreNotSections(t, a, b, ss); }
      SameEnd(a, b, t.noSections);
    }
  }

  // ---- the whole document ----

  lemma BackGroups(a: string, f: string, r: string, j: string, e: string)
    ensures a + (f + r + j + e) == (a + f) + (r + j) + e
  {
    Regroup(a, f, r, j, e);
    Regroup3(a + f, r, j);
  }

  lemma BackReads(t: Template, a: string, v: View, b: string, w: View)
    requires Readable(t) && a + Back(t, v) == b + Back(t, w)
    ensures v.job == w.job && a == b
  {
    var x, y := t.report + Escape(v.job), t.report + Escape(w.job);
    BackGroups(a, t.footer, t.report, Escape(v.job), t.end);
    BackGroups(b, t.footer, t.report, Escape(w.job), t.end);
    SameEnd((a + t.footer) + x, (b + t.footer) + y, t.end);
    EscapeIsFree(v.job);
    EscapeIsFree(w.job);
    EndsWithPlus(a, t.footer, '>');
    EndsWithPlus(b, t.footer, '>');
    LastGt(a + t.footer, x, b + t.footer, y);
    SameStart(t.report, Escape(v.job), Escape(w.job));
    EscapeInjective(v.job, w.job);
    SameEnd(a, b, t.footer);
  }

  /** What follows the title, and what follows the date. */
  function AfterDate(t: Template, v: View): string {
    CountsHtml(t, v.sections) + t.sections
  }

  function AfterTitle(t: Template, v: View): string {
    t.style + (Escape(v.labelText) + (t.meta + (Escape(v.generated) + AfterDate(t, v))))
  }

  lemma FrontGroups(t: Template, v: View)
    ensures Front(t, v) == t.title + ((Escape(v.labelText) + t.titleWord) + AfterTitle(t, v))
  {
    var a, b, c, d, e, f, g := t.title, Escape(v.labelText), t.titleWord, t.style, t.meta, Escape(v.generated), CountsHtml(t, v.sections);
    Nest(a, b, c, d, e, f, g, t.sections);
  }

  lemma Nest(a: string, b: string, c: string, d: string, e: string, f: string, g: string, h: string)
    ensures a + b + c + d + b + e + f + g + h == a + ((b + c) + (d + (b + (e + (f + (g + h))))))
  {
    var p := a + b + c;
    assert p + d + b + e + f + g + h == p + d + b + e + (f + (g + h));
    assert p + d + b + e + (f + (g + h)) == p + (d + (b + (e + (f + (g + h)))));
    Regroup3(a, b + c, d + (b + (e + (f + (g + h)))));
    Regroup3(a, b, c);
  }

  lemma FrontReads(t: Template, v: View, w: View)
    requires Readable(t) && Front(t, v) == Front(t, w)
    ensures v.labelText == w.labelText && v.generated == w.generated
  {
    var x, y := Escape(v.labelText), Escape(w.labelText);
    FrontGroups(t, v);
    FrontGroups(t, w);
    SameStart(t.title, (x + t.titleWord) + AfterTitle(t, v), (y + t.titleWord) + AfterTitle(t, w));
    EscapeIsFree(v.labelText);
    EscapeIsFree(w.labelText);
    FirstLt(x + t.titleWord, AfterTitle(t, v), y + t.titleWord, AfterTitle(t, w));
    SameEnd(x, y, t.titleWord);
    EscapeInjective(v.labelText, w.labelText);
    DateReads(t, v, w);
  }

  lemma DateReads(t: Template, v: View, w: View)
    requires Readable(t) && v.labelText == w.labelText && AfterTitle(t, v) == AfterTitle(t, w)
    ensures v.generated == w.generated
  {
    var l, x, y := Escape(v.labelText), Escape(v.generated), Escape(w.generated);
    SameStart(t.style, l + (t.meta + (x + AfterDate(t, v))), l + (t.meta + (y + AfterDate(t, w))));
    SameStart(l, t.meta + (x + AfterDate(t, v)), t.meta + (y + AfterDate(t, w)));
    SameStart(t.meta, x + AfterDate(t, v), y + AfterDate(t, w));
    EscapeIsFree(v.generated);
    EscapeIsFree(w.generated);
    DateEnds(t, v);
    DateEnds(t, w);
    FirstLt(x, AfterDate(t, v), y, AfterDate(t, w));
    EscapeInjective(v.generated, w.generated);
  }

  lemma DateEnds(t: Template, v: View)
    requires ReadableFront(t)
    ensures AfterDate(t, v) != "" && AfterDate(t, v)[0] == '<'
  {
    var total, summary := TotalHtml(t, TotalFindings(v.sections)), SummaryHtml(t, CountAll(v.sections));
    StartsLt(t.total, total);
    StartsLt(t.total + total, t.chips);
    StartsLt(t.total + total + t.chips, summary);
    StartsLt(CountsHtml(t, v.sections), t.sections);
  }

  lemma StartsLt(a: string, b: string)
    requires a != "" && a[0] == '<'
    ensures a + b != "" && (a + b)[0] == '<'
  {
  }

  /** Printing loses nothing: two views with the same document are the same view. */
  lemma DocumentReadsBack(bulk: Bulk, v: View, w: View)
    requires Build(Fixed(bulk), v) == Build(Fixed(bulk), w)
    ensures v == w
  {
    FixedIsReadable(bulk);
    ReadsBack(Fixed(bulk), v, w);
  }

  lemma ReadsBack(t: Template, v: View, w: View)
    requires Readable(t) && Build(t, v) == Build(t, w)
    ensures v == w
  {
    BuildParts(t, v);
    BuildParts(t, w);
    BackReads(t, Front(t, v) + SectionsHtml(t, v.sections), v, Front(t, w) + SectionsHtml(t, w.sections), w);
    FrontEnds(t, v);
    FrontEnds(t, w);
    SectionsRead(t, Front(t, v), v.sections, Front(t, w), w.sections);
    FrontReads(t, v, w);
  }

  lemma FrontEnds(t: Template, v: View)
    requires ReadableSections(t)
    ensures EndsWith(Front(t, v), ' ')
  {
    var a := t.title + Escape(v.labelText) + t.titleWord + t.style + Escape(v.labelText) + t.meta + Escape(v.generated)
           + CountsHtml(t, v.sections);
    EndsWithPlus(a, t.sections, ' ');
  }

  // ---- the printed summary, as a reader sees it ----

  /** What comes before the first c, and what comes after it. */
  function Until(s: string, c: char): string {
    if s == "" || s[0] == c then "" else [s[0]] + Until(s[1..], c)
  }

  function After(s: string, c: char): (r: string)
    ensures |r| <= |s| && (s != "" ==> |r| < |s|)
  {
    if s == "" then "" else if s[0] == c then s[1..] else After(s[1..], c)
  }

  function Value(digits: string): nat {
    if digits == "" then 0
    else
      var c := digits[|digits| - 1];
      10 * Value(digits[..|digits| - 1]) + (if '0' <= c <= '9' then c as int - '0' as int else 0)
  }

  /** A row of chips read off: past each opening tag the label up to the colon, then the number up to the closing tag. */
  function ReadChips(s: string): seq<(string, nat)>
    decreases |s|
  {
    var body := After(s, '>');
    if body == "" then []
    else [(Until(body, ':'), Value(Until(After(body, ' '), '<')))] + ReadChips(After(body, '>'))
  }

  /** The severities, most severe first, as a reader knows them. */
  const NAMES: seq<(Severity, string)> := [(Safety, "Safety"), (Repair, "Repair"), (Maintenance, "Maintenance"), (Info, "Info")]

  /** One entry for each of these severities that has findings: its name and how many. */
  function Expected(sections: seq<SectionInput>, names: seq<(Severity, string)>): seq<(string, nat)> {
    if names == [] then []
    else Entry(names[0].1, HowManyIn(sections, names[0].0)) + Expected(sections, names[1..])
  }

  function Entry(name: string, n: nat): seq<(string, nat)> { if n > 0 then [(name, n)] else [] }

  lemma {:induction false} CutAt(a: string, c: char, b: string)
    requires Free(a, c)
    ensures Until(a + [c] + b, c) == a && After(a + [c] + b, c) == b
    decreases |a|
  {
    var s := a + [c] + b;
    if a == "" {
      assert s == [c] + b;
    } else {
      assert a[0] in a && (forall x | x in a[1..] :: x in a);
      assert s[0] == a[0] && s[1..] == a[1..] + [c] + b;
      CutAt(a[1..], c, b);
    }
  }

  predicate IsDigits(s: string) {
    forall i | 0 <= i < |s| :: '0' <= s[i] <= '9'
  }

  /** Decimal notation: only digits, with the right value, and no zero in front. */
  lemma {:induction false} DigitsAreDecimal(n: nat)
    ensures IsDigits(Digits(n)) && Digits(n) != "" && Value(Digits(n)) == n
    ensures n > 0 ==> Digits(n)[0] != '0'
    decreases n
  {
    if n < 10 {
      assert Digits(n)[..0] == "";
    } else {
      DigitsAreDecimal(n / 10);
      var last := ('0' as int + n % 10) as char;
      assert Digits(n) == Digits(n / 10) + [last];
      assert Digits(n)[..|Digits(n)| - 1] == Digits(n / 10);
    }
  }

  lemma DigitsAreFree(s: string)
    requires IsDigits(s)
    ensures Free(s, '<') && Free(s, ' ') && Free(s, '>')
  {
  }

  /** What reading needs of the chips' fixed texts. */
  ghost predicate ReadableChips(t: Template) {
    Free(t.chipOpen, '>') && t.itemLabel == "\">" && t.chipClose == "</span>"
  }

  lemma FixedChipsReadable(bulk: Bulk)
    ensures ReadableChips(Fixed(bulk))
  {
  }

  lemma ColoursAreFree(sev: Severity)
    ensures var c := ColoursOf(sev); Free(c.fg, '>') && Free(c.bg, '>') && Free(c.border, '>')
  {
  }

  lemma StyleIsFree(sev: Severity)
    ensures Free(Style(sev), '>')
  {
    var c := ColoursOf(sev);
    ColoursAreFree(sev);
    FreePlus("color:", c.fg, '>');
    FreePlus("color:" + c.fg, ";background:", '>');
    FreePlus("color:" + c.fg + ";background:", c.bg, '>');
    FreePlus("color:" + c.fg + ";background:" + c.bg, ";border-color:", '>');
    FreePlus("color:" + c.fg + ";background:" + c.bg + ";border-color:", c.border, '>');
  }

  lemma LabelIsPlain(sev: Severity)
    ensures Free(Label(sev), ':') && Free(Label(sev), ' ') && Free(Label(sev), '>')
  {
  }

  lemma FreePlus(a: string, b: string, c: char)
    requires Free(a, c) && Free(b, c)
    ensures Free(a + b, c)
  {
  }

  /** What follows the opening tag of a chip. */
  function ChipBody(sev: Severity, n: nat, tail: string): string {
    Label(sev) + ": " + Digits(n) + "</span>" + tail
  }

  lemma ChipOpens(t: Template, sev: Severity, n: nat, tail: string)
    requires ReadableChips(t) && n > 0
    ensures After(Chip(t, sev, n) + tail, '>') == ChipBody(sev, n, tail)
  {
    var a := t.chipOpen + Style(sev) + "\"";
    StyleIsFree(sev);
    FreePlus(t.chipOpen, Style(sev), '>');
    FreePlus(t.chipOpen + Style(sev), "\"", '>');
    assert Chip(t, sev, n) + tail == a + ['>'] + ChipBody(sev, n, tail) by {
      assert t.itemLabel == "\"" + ['>'];
      assert t.chipOpen + Style(sev) + t.itemLabel == a + ['>'];
    }
    CutAt(a, '>', ChipBody(sev, n, tail));
  }

  lemma ChipReads(sev: Severity, n: nat, tail: string)
    ensures var body := ChipBody(sev, n, tail);
      Until(body, ':') == Label(sev) && Until(After(body, ' '), '<') == Digits(n) && After(body, '>') == tail
  {
    LabelIsPlain(sev);
    DigitsAreDecimal(n);
    DigitsAreFree(Digits(n));
    NameReads(sev, n, tail);
    CountReads(sev, n, tail);
    CloseReads(sev, n, tail);
  }

  lemma NameReads(sev: Severity, n: nat, tail: string)
    requires Free(Label(sev), ':')
    ensures Until(ChipBody(sev, n, tail), ':') == Label(sev)
  {
    var rest := " " + Digits(n) + "</span>" + tail;
    assert ChipBody(sev, n, tail) == Label(sev) + [':'] + rest;
    CutAt(Label(sev), ':', rest);
  }

  lemma CountReads(sev: Severity, n: nat, tail: string)
    requires Free(Label(sev), ' ') && Free(Digits(n), '<')
    ensures Until(After(ChipBody(sev, n, tail), ' '), '<') == Digits(n)
  {
    var rest := Digits(n) + "</span>" + tail;
    assert ChipBody(sev, n, tail) == (Label(sev) + ":") + [' '] + rest;
    FreePlus(Label(sev), ":", ' ');
    CutAt(Label(sev) + ":", ' ', rest);
    assert rest == Digits(n) + ['<'] + ("/span>" + tail);
    CutAt(Digits(n), '<', "/span>" + tail);
  }

  lemma CloseReads(sev: Severity, n: nat, tail: string)
    requires Free(Label(sev), '>') && Free(Digits(n), '>')
    ensures After(ChipBody(sev, n, tail), '>') == tail
  {
    var a := Label(sev) + ": ";
    FreePlus(Label(sev), ": ", '>');
    FreePlus(a, Digits(n), '>');
    FreePlus(a + Digits(n), "</span", '>');
    assert ChipBody(sev, n, tail) == (a + Digits(n) + "</span") + ['>'] + tail;
    CutAt(a + Digits(n) + "</span", '>', tail);
  }

  /** The reader takes one chip off the front, or nothing when the severity has no findings. */
  lemma OneChip(t: Template, sev: Severity, n: nat, tail: string)
    requires ReadableChips(t)
    ensures ReadChips(Chip(t, sev, n) + tail) == Entry(Label(sev), n) + ReadChips(tail)
  {
    if n > 0 {
      ChipOpens(t, sev, n, tail);
      ChipReads(sev, n, tail);
      DigitsAreDecimal(n);
      assert ChipBody(sev, n, tail) != "";
    } else {
      assert "" + tail == tail;
      assert [] + ReadChips(tail) == ReadChips(tail);
    }
  }

  lemma Nest4(a: string, b: string, c: string, d: string)
    ensures a + b + c + d == a + (b + (c + d))
  {
  }

  lemma RowReads(t: Template, c: Counts)
    requires ReadableChips(t)
    ensures ReadChips(Chips(t, c))
      == Entry("Safety", c.safety) + (Entry("Repair", c.repair) + (Entry("Maintenance", c.maintenance) + (Entry("Info", c.info) + [])))
  {
    var a, b, d, e := Chip(t, Safety, c.safety), Chip(t, Repair, c.repair), Chip(t, Maintenance, c.maintenance), Chip(t, Info, c.info);
    Nest4(a, b, d, e);
    assert ReadChips(e) == Entry("Info", c.info) + [] by {
      assert e + "" == e && ReadChips("") == [];
      OneChip(t, Info, c.info, "");
    }
    assert ReadChips(d + e) == Entry("Maintenance", c.maintenance) + ReadChips(e) by { OneChip(t, Maintenance, c.maintenance, e); }
    assert ReadChips(b + (d + e)) == Entry("Repair", c.repair) + ReadChips(d + e) by { OneChip(t, Repair, c.repair, d + e); }
    OneChip(t, Safety, c.safety, b + (d + e));
  }

  lemma ExpectedFirst(sections: seq<SectionInput>, sev: Severity, name: string, names: seq<(Severity, string)>)
    ensures Expected(sections, [(sev, name)] + names) == Entry(name, HowManyIn(sections, sev)) + Expected(sections, names)
  {
    assert ([(sev, name)] + names)[1..] == names;
  }

  lemma ExpectedUnfolds(sections: seq<SectionInput>)
    ensures var c := CountAll(sections);
      Expected(sections, NAMES)
      == Entry("Safety", c.safety) + (Entry("Repair", c.repair) + (Entry("Maintenance", c.maintenance) + (Entry("Info", c.info) + [])))
  {
    var n4: seq<(Severity, string)> := [];
    var n3 := [(Info, "Info")] + n4;
    var n2 := [(Maintenance, "Maintenance")] + n3;
    var n1 := [(Repair, "Repair")] + n2;
    assert NAMES == [(Safety, "Safety")] + n1;
    ExpectedFirst(sections, Info, "Info", n4);
    ExpectedFirst(sections, Maintenance, "Maintenance", n3);
    ExpectedFirst(sections, Repair, "Repair", n2);
    ExpectedFirst(sections, Safety, "Safety", n1);
  }

  /**
   The summary printed in every document: after the date the total number of findings, and then, read off
   the text, exactly one chip for each severity that has findings, most severe first, with its name and
   the number of findings of it. Without findings there is no chip but the notice that says so.
   */
  lemma PrintedSummary(bulk: Bulk, v: View) returns (total: string, chips: string)
    ensures var t := Fixed(bulk);
      Build(t, v) == t.title + Escape(v.labelText) + t.titleWord + t.style + Escape(v.labelText) + t.meta + Escape(v.generated)
        + (t.total + total + t.chips + chips) + t.sections + SectionsHtml(t, v.sections) + Back(t, v)
    ensures IsDigits(Until(total, ' ')) && Value(Until(total, ' ')) == TotalFindings(v.sections)
    ensures if TotalFindings(v.sections) == 0 then chips == Fixed(bulk).noChips
      else ReadChips(chips) == Expected(v.sections, NAMES)
  {
    var t, n := Fixed(bulk), TotalFindings(v.sections);
    total, chips := TotalHtml(t, n), SummaryHtml(t, CountAll(v.sections));
    BuildParts(t, v);
    assert Until(total, ' ') == Digits(n) by { TotalReads(n, if n == 1 then "" else t.plural); }
    DigitsAreDecimal(n);
    SummaryReads(bulk, v.sections);
  }

  /** The noun after the total: one finding, and any other number of findings. */
  lemma TotalIsNamed(bulk: Bulk, n: nat)
    ensures TotalHtml(Fixed(bulk), n) == Digits(n) + (if n == 1 then " finding" else " findings")
  {
    var t := Fixed(bulk);
    assert " finding" + "s" == " findings";
    assert Digits(n) + t.finding + "s" == Digits(n) + (" finding" + "s");
    assert Digits(n) + t.finding + "" == Digits(n) + " finding";
  }

  lemma SummaryReads(bulk: Bulk, sections: seq<SectionInput>)
    ensures var t := Fixed(bulk); var chips := SummaryHtml(t, CountAll(sections));
      if TotalFindings(sections) == 0 then chips == t.noChips else ReadChips(chips) == Expected(sections, NAMES)
  {
    var t := Fixed(bulk);
    FixedChipsReadable(bulk);
    ChipsSumToTotal(sections);
    ChipsAppear(t, CountAll(sections));
    RowReads(t, CountAll(sections));
    ExpectedUnfolds(sections);
  }

  lemma TotalReads(n: nat, plural: string)
    ensures Until(Digits(n) + " finding" + plural, ' ') == Digits(n) && IsDigits(Digits(n)) && Value(Digits(n)) == n
  {
    DigitsAreDecimal(n);
    DigitsAreFree(Digits(n));
    assert Digits(n) + " finding" + plural == Digits(n) + [' '] + ("finding" + plural);
    CutAt(Digits(n), ' ', "finding" + plural);
  }

  lemma ChipAppears(t: Template, sev: Severity, n: nat)
    requires ReadableChips(t)
    ensures Chip(t, sev, n) == "" <==> n == 0
  {
    if n > 0 { assert |Chip(t, sev, n)| >= |t.chipClose|; }
  }

  lemma ChipsAppear(t: Template, c: Counts)
    requires ReadableChips(t)
    ensures Chips(t, c) == "" <==> c.Sum() == 0
  {
    ChipAppears(t, Safety, c.safety);
    ChipAppears(t, Repair, c.repair);
    ChipAppears(t, Maintenance, c.maintenance);
    ChipAppears(t, Info, c.info);
    AllEmpty(Chip(t, Safety, c.safety), Chip(t, Repair, c.repair), Chip(t, Maintenance, c.maintenance), Chip(t, Info, c.info));
  }

  lemma AllEmpty(a: string, b: string, c: string, d: string)
    ensures a + b + c + d == "" <==> a == "" && b == "" && c == "" && d == ""
  {
    assert |a + b + c + d| == |a| + |b| + |c| + |d|;
  }

  // ---- the printed report ----

  /** No two severities share a name or a colour. */
  lemma SeveritiesLookDifferent(a: Severity, b: Severity)
    requires a != b
    ensures Label(a) != Label(b) && Style(a) != Style(b)
  {
    StyleStarts(a);
    StyleStarts(b);
    assert Label(a)[0] == Label(b)[0] ==> false;
  }

  /** The two digits of the text colour that tell the severities apart. */
  lemma StyleStarts(sev: Severity)
    ensures |Style(sev)| > 8
    ensures match sev
      case Safety => Style(sev)[7] == '7' && Style(sev)[8] == 'f'
      case Repair => Style(sev)[7] == '7' && Style(sev)[8] == 'c'
      case Maintenance => Style(sev)[7] == '7' && Style(sev)[8] == '1'
      case Info => Style(sev)[7] == '1' && Style(sev)[8] == 'e'
  {
    var c := ColoursOf(sev);
    assert Style(sev) == "color:" + (c.fg + (";background:" + c.bg + ";border-color:" + c.border));
    assert Style(sev)[7] == c.fg[1] && Style(sev)[8] == c.fg[2];
  }

  /** Array.join with line breaks. */
  function Joined(parts: seq<string>): string {
    if parts == [] then ""
    else if |parts| == 1 then parts[0]
    else Joined(parts[..|parts| - 1]) + "\n" + parts[|parts| - 1]
  }

  /** What stands before part i. */
  function Ahead(parts: seq<string>, i: nat): string
    requires i < |parts|
  {
    if i == 0 then "" else Joined(parts[..i]) + "\n"
  }

  lemma Spliced(front: string, before: string, part: string, rest: string, last: string)
    requires front == before + part + rest
    ensures front + "\n" + last == before + part + (rest + ("\n" + last))
  {
  }

  lemma {:induction false} PartIsPlaced(parts: seq<string>, i: nat) returns (after: string)
    requires i < |parts|
    ensures Joined(parts) == Ahead(parts, i) + parts[i] + after && (i == |parts| - 1 ==> after == "")
    decreases |parts|
  {
    var n := |parts| - 1;
    if i == n {
      after := "";
    } else {
      var rest := PartIsPlaced(parts[..n], i);
      assert parts[..n][..i] == parts[..i];
      after := rest + ("\n" + parts[n]);
      Spliced(Joined(parts[..n]), Ahead(parts, i), parts[i], rest, parts[n]);
    }
  }

  function PrintedItems(t: Template, fs: seq<FindingInput>): seq<string> {
    seq(|fs|, i requires 0 <= i < |fs| => Item(t, fs[i]))
  }

  lemma {:induction false} ItemsAreJoined(t: Template, fs: seq<FindingInput>)
    ensures Items(t, fs) == Joined(PrintedItems(t, fs))
    decreases |fs|
  {
    if |fs| > 1 {
      ItemsAreJoined(t, fs[..|fs| - 1]);
      assert PrintedItems(t, fs)[..|fs| - 1] == PrintedItems(t, fs[..|fs| - 1]);
    }
  }

  /** Finding i of a list is printed with its own severity's colour and name and its own text, after those before it. */
  lemma FindingIsPrinted(t: Template, fs: seq<FindingInput>, i: nat) returns (after: string)
    requires i < |fs|
    ensures Items(t, fs) == (if i == 0 then "" else Items(t, fs[..i]) + "\n") + Item(t, fs[i]) + after
    ensures Item(t, fs[i])
         == t.itemOpen + Style(fs[i].severity) + t.itemLabel + Label(fs[i].severity) + t.itemText + Escape(fs[i].text) + t.itemClose
    ensures i == |fs| - 1 ==> after == ""
  {
    ItemsAreJoined(t, fs);
    ItemsAreJoined(t, fs[..i]);
    assert PrintedItems(t, fs)[..i] == PrintedItems(t, fs[..i]);
    after := PartIsPlaced(PrintedItems(t, fs), i);
  }

  function PrintedSections(t: Template, sections: seq<SectionInput>): seq<string> {
    seq(|sections|, k requires 0 <= k < |sections| => SectionHtml(t, sections[k]))
  }

  lemma {:induction false} SectionsAreJoined(t: Template, sections: seq<SectionInput>)
    requires sections != []
    ensures SectionsHtml(t, sections) == Joined(PrintedSections(t, sections))
    decreases |sections|
  {
    if |sections| > 1 {
      SectionsAreJoined(t, sections[..|sections| - 1]);
      assert PrintedSections(t, sections)[..|sections| - 1] == PrintedSections(t, sections[..|sections| - 1]);
    }
  }

  /** Section k is printed with its own title and its own findings, after those before it. */
  lemma SectionIsPrinted(t: Template, sections: seq<SectionInput>, k: nat) returns (after: string)
    requires k < |sections|
    ensures SectionsHtml(t, sections)
         == (if k == 0 then "" else SectionsHtml(t, sections[..k]) + "\n") + SectionHtml(t, sections[k]) + after
    ensures SectionHtml(t, sections[k])
         == t.sectionOpen + Escape(sections[k].title) + t.list + Items(t, sections[k].findings) + t.sectionClose
    ensures k == |sections| - 1 ==> after == ""
  {
    SectionsAreJoined(t, sections);
    if k > 0 { SectionsAreJoined(t, sections[..k]); }
    assert PrintedSections(t, sections)[..k] == PrintedSections(t, sections[..k]);
    after := PartIsPlaced(PrintedSections(t, sections), k);
  }
}
