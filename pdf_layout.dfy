/**
 * The report document route (src/app/api/generate-pdf/route.ts, `POST`):
 * the vertical layout of an A4 page in millimetres, driven by a cursor that
 * sections advance and a page-break rule that opens a new page when the next
 * block would run into the bottom margin, followed by a footer on every page.
 *
 * Drawing calls, fonts and colours leave no trace here. `splitTextToSize` is
 * an input: `lines(text, fontSize)` is how many lines it breaks `text` into
 * at the usable width and that font size.
 */
module PdfLayout {
  import opened Wrappers
  import opened Text
  import opened DeepfakeTypes

  /** The A4 page of jsPDF's default format, 595.28 by 841.89 points, in millimetres. */
  const PageWidth: real := 595.28 * 25.4 / 72.0
  const PageHeight: real := 841.89 * 25.4 / 72.0
  const Margin: real := 20.0
  /** Where the cursor starts on every page. */
  const Top: real := 20.0
  /** The width `splitTextToSize` wraps at: the page less both margins. */
  const MaxWidth: real := PageWidth - 2.0 * Margin
  /** The bottom of the writable area. */
  const Bottom: real := PageHeight - Margin

  /** The font size `addWrappedText` uses when none is given. */
  const WrapFontSize: real := 10.0
  const HashPrefix := "MD5 Hash: "
  const HashLineLimit := 50
  const HighConfidence: real := 0.8

  const NoReportMessage := "No report data provided"
  const GenerateFailedMessage := "Failed to generate PDF"
  const FileNamePrefix := "deepfake-analysis-"
  const FileNameSuffix := ".pdf"

  /**
   * How many lines `splitTextToSize` breaks a text into at a font size, when
   * wrapping at `MaxWidth`. Glyph widths are not modelled, so the count is a
   * parameter of the layout.
   */
  type LineCount = (string, real) -> nat

  /** The cursor and the number of pages. */
  datatype Cursor = Cursor(y: real, pages: nat)

  const Start := Cursor(Top, 1)

  // ---------------------------------------------------------------------------
  // The layout, as a specification

  /** `checkPageBreak(h)`: a new page, cursor back at the top, when `h` no longer fits. */
  function Break(c: Cursor, h: real): Cursor
  {
    if c.y + h > Bottom then Cursor(Top, c.pages + 1) else c
  }

  /** `yPos += d`. */
  function Adv(c: Cursor, d: real): Cursor
  {
    c.(y := c.y + d)
  }

  /** The height `addWrappedText` returns: 0.35 mm per point of font size, per line. */
  function WrappedHeight(lineCount: nat, fontSize: real): (h: real)
    requires fontSize > 0.0
    ensures h >= 0.0
    ensures h == 0.0 <==> lineCount == 0
  {
    lineCount as real * (fontSize * 0.35)
  }

  /** Title and the report id / date line. No break check: they open the first page. */
  function HeaderSection(c: Cursor): Cursor
  {
    Adv(Adv(c, 15.0), 15.0)
  }

  /** Heading, verdict, average confidence. */
  function VerdictSection(c: Cursor): Cursor
  {
    Adv(Break(c, 30.0), 10.0 + 10.0 + 20.0)
  }

  /** Heading and the four frame totals. */
  function SummarySection(c: Cursor): Cursor
  {
    Adv(Break(c, 50.0), 10.0 + 8.0 + 8.0 + 8.0 + 20.0)
  }

  function TemporalText(t: TemporalConsistency): string
  {
    "Interpretation: " + t.interpretation
  }

  function TemporalSection(c: Cursor, t: Option<TemporalConsistency>, lines: LineCount): Cursor
  {
    if t.None? then c
    else
      var h := WrappedHeight(lines(TemporalText(t.value), WrapFontSize), WrapFontSize);
      Adv(Break(c, 40.0), 10.0 + 8.0 + (h + 10.0))
  }

  function SyncText(s: AudioVisualSync): string
  {
    "Observation: " + s.observation
  }

  function SyncSection(c: Cursor, s: Option<AudioVisualSync>, lines: LineCount): Cursor
  {
    if s.None? then c
    else
      var h := WrappedHeight(lines(SyncText(s.value), WrapFontSize), WrapFontSize);
      Adv(Break(c, 40.0), 10.0 + 8.0 + (h + 10.0))
  }

  function DetailSection(c: Cursor, d: Option<DetailedSummary>, lines: LineCount): Cursor
  {
    if d.None? then c
    else
      var h := WrappedHeight(lines(d.value.content, WrapFontSize), WrapFontSize);
      Adv(Break(c, 60.0), 10.0 + 8.0 + 10.0 + (h + 15.0))
  }

  /** Heading and the three case lines. */
  function CaseSection(c: Cursor): Cursor
  {
    Adv(Break(c, 50.0), 10.0 + 8.0 + 8.0 + 20.0)
  }

  /** Heading and the five file lines before the hash. */
  function FileSection(c: Cursor): Cursor
  {
    Adv(Break(c, 60.0), 10.0 + 8.0 + 8.0 + 8.0 + 8.0 + 8.0)
  }

  function HashText(md5: string): string
  {
    HashPrefix + md5
  }

  /** A hash line longer than 50 characters is wrapped at font size 10; a shorter one takes one line. */
  function HashSection(c: Cursor, md5: string, lines: LineCount): Cursor
  {
    var text := HashText(md5);
    if |text| > HashLineLimit then
      Adv(Break(c, 16.0), WrappedHeight(lines(text, WrapFontSize), WrapFontSize) + 10.0)
    else Adv(c, 20.0)
  }

  /** Heading and the four parameter lines. */
  function ParametersSection(c: Cursor): Cursor
  {
    Adv(Break(c, 50.0), 10.0 + 8.0 + 8.0 + 8.0 + 20.0)
  }

  /** Heading and the three frame counts, for a non-empty frame list only. */
  function FramesSection(c: Cursor, frames: seq<FrameClassification>): Cursor
  {
    if |frames| == 0 then c else Adv(Break(c, 30.0), 10.0 + 8.0 + 8.0 + 20.0)
  }

  /** Title, report id, verdict and summary: the part every document opens with. */
  function OpeningSections(c: Cursor): Cursor
  {
    SummarySection(VerdictSection(HeaderSection(c)))
  }

  /** The three sections drawn only when the report carries them. */
  function OptionalSections(c: Cursor, r: DeepfakeAnalysisReport, lines: LineCount): Cursor
  {
    DetailSection(SyncSection(TemporalSection(c, r.temporalConsistency, lines), r.audioVisualSync, lines),
                  r.detailedSummary, lines)
  }

  /** Case overview, file metadata with its hash line, detection parameters, frame summary. */
  function RecordSections(c: Cursor, r: DeepfakeAnalysisReport, lines: LineCount): Cursor
  {
    var m := HashSection(FileSection(CaseSection(c)), r.videoFileMetadata.md5Hash, lines);
    FramesSection(ParametersSection(m), r.frameLevelClassification)
  }

  /** The whole body, section by section, from the top of the first page. */
  function Layout(r: DeepfakeAnalysisReport, lines: LineCount): Cursor
  {
    RecordSections(OptionalSections(OpeningSections(Start), r, lines), r, lines)
  }

  // ---------------------------------------------------------------------------
  // Frame counts

  /** `frames.filter(keep)`. */
  function FilterFrames(frames: seq<FrameClassification>, keep: FrameClassification -> bool)
    : (r: seq<FrameClassification>)
    ensures |r| <= |frames|
    ensures forall i :: 0 <= i < |r| ==> keep(r[i])
    ensures forall x :: multiset(r)[x] == if keep(x) then multiset(frames)[x] else 0
  {
    if frames == [] then []
    else
      var rest := FilterFrames(frames[1..], keep);
      assert frames == [frames[0]] + frames[1..];
      if keep(frames[0]) then [frames[0]] + rest else rest
  }

  /** `f.confidence > 0.8`. */
  predicate IsHighConfidence(f: FrameClassification)
  {
    f.confidence > HighConfidence
  }

  /** `f.label === 'FAKE'`. */
  predicate IsFakeLabelled(f: FrameClassification)
  {
    f.frameLabel == "FAKE"
  }

  datatype FrameSummary = FrameSummary(total: nat, highConfidence: nat, fakeLabelled: nat)

  /** The three numbers the frame section prints, when it is printed. */
  function FrameSummaryOf(frames: seq<FrameClassification>): Option<FrameSummary>
  {
    if |frames| == 0 then None
    else Some(FrameSummary(
      |frames|,
      |FilterFrames(frames, IsHighConfidence)|,
      |FilterFrames(frames, IsFakeLabelled)|))
  }

  // ---------------------------------------------------------------------------
  // Footers and the response

  /** The footer drawn on one page. */
  datatype Footer = Footer(page: nat, credit: string, pageLabel: string)

  function CreditLine(r: DeepfakeAnalysisReport): string
  {
    "Generated by " + r.preparedBy + " \U{2022} " + r.toolModelUsed + " v" + r.detectionEngineVersion
  }

  function PageLabel(i: nat, total: nat): string
  {
    "Page " + NatToString(i) + " of " + NatToString(total)
  }

  /** Pages 1 to `total`, in order, one footer each. */
  function Footers(credit: string, total: nat): (f: seq<Footer>)
    ensures |f| == total
  {
    seq(total, i requires 0 <= i < total => Footer(i + 1, credit, PageLabel(i + 1, total)))
  }

  function ContentDisposition(id: string): string
  {
    "attachment; filename=\"" + FileNamePrefix + id + FileNameSuffix + "\""
  }

  datatype PdfResponse =
    | PdfDocument(disposition: string, pages: nat, footers: seq<Footer>, frameSummary: Option<FrameSummary>)
    | PdfError(status: int, message: string)

  /**
   * The route: `None` is a body that is not JSON (the thrown parse error
   * becomes a 500), `Some(None)` a body without a report.
   */
  function GeneratePdfSpec(body: Option<Option<DeepfakeAnalysisReport>>, lines: LineCount): PdfResponse
  {
    if body.None? then PdfError(500, GenerateFailedMessage)
    else if body.value.None? then PdfError(400, NoReportMessage)
    else
      var r := body.value.value;
      var pages := Layout(r, lines).pages;
      PdfDocument(ContentDisposition(r.reportId), pages, Footers(CreditLine(r), pages),
                  FrameSummaryOf(r.frameLevelClassification))
  }

  // ---------------------------------------------------------------------------
  // Properties of the layout

  /** The break rule: one more page and the cursor at the top exactly when the block does not fit. */
  lemma BreakRule(c: Cursor, h: real)
    ensures c.y + h > Bottom ==> Break(c, h) == Cursor(20.0, c.pages + 1)
    ensures c.y + h <= Bottom ==> Break(c, h) == c
    ensures Break(c, h).pages == c.pages + 1 <==> c.y + h > Bottom
  {
  }

  /** After a check for a block no taller than a page's writable area, the block fits. */
  lemma BreakLeavesRoom(c: Cursor, h: real)
    requires 0.0 <= h <= Bottom - Top
    ensures Break(c, h).y + h <= Bottom
  {
  }

  /** `c2` is not behind `c1`: on a later page, or on the same page no higher up. */
  predicate NotBehind(c1: Cursor, c2: Cursor)
  {
    c2.pages > c1.pages || (c2.pages == c1.pages && c2.y >= c1.y)
  }

  /** What a section may do to the cursor: move it down, or open at most one page. */
  predicate SectionStep(c1: Cursor, c2: Cursor)
  {
    NotBehind(c1, c2) && c1.pages <= c2.pages <= c1.pages + 1 && (c1.y >= Top ==> c2.y >= Top)
  }

  lemma BreakThenAdvance(c: Cursor, h: real, d: real)
    requires d >= 0.0 && c.y >= Top
    ensures SectionStep(c, Adv(Break(c, h), d))
  {
  }

  /**
   * Every section moves the cursor down or onto at most one new page, never
   * above the top margin, and an absent optional section leaves it where it was.
   */
  lemma SectionsStep(c: Cursor, r: DeepfakeAnalysisReport, lines: LineCount)
    requires c.y >= Top
    ensures SectionStep(c, VerdictSection(c)) && SectionStep(c, SummarySection(c))
    ensures SectionStep(c, TemporalSection(c, r.temporalConsistency, lines))
    ensures SectionStep(c, SyncSection(c, r.audioVisualSync, lines))
    ensures SectionStep(c, DetailSection(c, r.detailedSummary, lines))
    ensures SectionStep(c, CaseSection(c)) && SectionStep(c, FileSection(c))
    ensures SectionStep(c, HashSection(c, r.videoFileMetadata.md5Hash, lines))
    ensures SectionStep(c, ParametersSection(c))
    ensures SectionStep(c, FramesSection(c, r.frameLevelClassification))
    ensures r.temporalConsistency.None? ==> TemporalSection(c, r.temporalConsistency, lines) == c
    ensures r.audioVisualSync.None? ==> SyncSection(c, r.audioVisualSync, lines) == c
    ensures r.detailedSummary.None? ==> DetailSection(c, r.detailedSummary, lines) == c
    ensures |r.frameLevelClassification| == 0 ==> FramesSection(c, r.frameLevelClassification) == c
  {
    BreakThenAdvance(c, 30.0, 40.0);
    BreakThenAdvance(c, 50.0, 54.0);
    BreakThenAdvance(c, 50.0, 46.0);
    BreakThenAdvance(c, 60.0, 50.0);
    BreakThenAdvance(c, 30.0, 46.0);
    if r.temporalConsistency.Some? {
      var h := WrappedHeight(lines(TemporalText(r.temporalConsistency.value), WrapFontSize), WrapFontSize);
      BreakThenAdvance(c, 40.0, 10.0 + 8.0 + (h + 10.0));
    }
    if r.audioVisualSync.Some? {
      var h := WrappedHeight(lines(SyncText(r.audioVisualSync.value), WrapFontSize), WrapFontSize);
      BreakThenAdvance(c, 40.0, 10.0 + 8.0 + (h + 10.0));
    }
    if r.detailedSummary.Some? {
      var h := WrappedHeight(lines(r.detailedSummary.value.content, WrapFontSize), WrapFontSize);
      BreakThenAdvance(c, 60.0, 10.0 + 8.0 + 10.0 + (h + 15.0));
    }
    var text := HashText(r.videoFileMetadata.md5Hash);
    if |text| > HashLineLimit {
      BreakThenAdvance(c, 16.0, WrappedHeight(lines(text, WrapFontSize), WrapFontSize) + 10.0);
    }
  }

  /** `NotBehind` composes. */
  lemma NotBehindTransitive(a: Cursor, b: Cursor, c: Cursor)
    requires NotBehind(a, b) && NotBehind(b, c)
    ensures NotBehind(a, c)
  {
  }

  /** The number of break checks the body runs for a report. */
  function BreakChecks(r: DeepfakeAnalysisReport): (n: nat)
    ensures 5 <= n <= 10
  {
    5
    + (if r.temporalConsistency.Some? then 1 else 0)
    + (if r.audioVisualSync.Some? then 1 else 0)
    + (if r.detailedSummary.Some? then 1 else 0)
    + (if |HashText(r.videoFileMetadata.md5Hash)| > HashLineLimit then 1 else 0)
    + (if |r.frameLevelClassification| > 0 then 1 else 0)
  }

  /**
   * The body ends below the top margin, never behind where it started, and on
   * at most one page per break check beyond the first: eleven pages at most.
   */
  lemma LayoutBounds(r: DeepfakeAnalysisReport, lines: LineCount)
    ensures var c := Layout(r, lines);
            && c.y >= Top
            && NotBehind(Start, c)
            && 1 <= c.pages <= 1 + BreakChecks(r) <= 11
  {
    var h := HeaderSection(Start);
    var v := VerdictSection(h);
    SectionsStep(h, r, lines);
    var s := SummarySection(v);
    SectionsStep(v, r, lines);
    var t := TemporalSection(s, r.temporalConsistency, lines);
    SectionsStep(s, r, lines);
    var a := SyncSection(t, r.audioVisualSync, lines);
    SectionsStep(t, r, lines);
    var d := DetailSection(a, r.detailedSummary, lines);
    SectionsStep(a, r, lines);
    var k := CaseSection(d);
    SectionsStep(d, r, lines);
    var f := FileSection(k);
    SectionsStep(k, r, lines);
    var m := HashSection(f, r.videoFileMetadata.md5Hash, lines);
    SectionsStep(f, r, lines);
    var p := ParametersSection(m);
    SectionsStep(m, r, lines);
    var e := FramesSection(p, r.frameLevelClassification);
    SectionsStep(p, r, lines);
    assert s == OpeningSections(Start);
    assert d == OptionalSections(s, r, lines);
    assert e == RecordSections(d, r, lines);
    NotBehindTransitive(Start, h, v);
    NotBehindTransitive(Start, v, s);
    NotBehindTransitive(Start, s, t);
    NotBehindTransitive(Start, t, a);
    NotBehindTransitive(Start, a, d);
    NotBehindTransitive(Start, d, k);
    NotBehindTransitive(Start, k, f);
    NotBehindTransitive(Start, f, m);
    NotBehindTransitive(Start, m, p);
    NotBehindTransitive(Start, p, e);
  }

  /** The hash line is wrapped exactly when the hash is longer than 40 characters. */
  lemma HashWrapsIff(md5: string)
    ensures |HashText(md5)| > HashLineLimit <==> |md5| > 40
  {
  }

  /** A 32-digit MD5 hex digest takes the single-line branch: no break check, the cursor moves 20. */
  lemma Md5DigestOnOneLine(c: Cursor, md5: string, lines: LineCount)
    requires |md5| == 32
    ensures HashSection(c, md5, lines) == Cursor(c.y + 20.0, c.pages)
  {
  }

  /** Two frame counts, each at most the total: the confident frames and the frames labelled FAKE. */
  lemma FrameSummaryCounts(frames: seq<FrameClassification>)
    ensures FrameSummaryOf(frames).Some? <==> |frames| > 0
    ensures FrameSummaryOf(frames).Some? ==>
              var s := FrameSummaryOf(frames).value;
              && s.total == |frames|
              && s.highConfidence <= s.total && s.fakeLabelled <= s.total
  {
  }

  /** Each frame with confidence above 0.8 is counted, as often as it occurs, and no other. */
  lemma HighConfidenceCounted(frames: seq<FrameClassification>, x: FrameClassification)
    ensures var kept := FilterFrames(frames, IsHighConfidence);
            multiset(kept)[x] == if x.confidence > 0.8 then multiset(frames)[x] else 0
  {
  }

  /** Every frame labelled FAKE is counted, as often as it occurs, and no other. */
  lemma FakeLabelledCounted(frames: seq<FrameClassification>, x: FrameClassification)
    ensures var kept := FilterFrames(frames, IsFakeLabelled);
            multiset(kept)[x] == if x.frameLabel == "FAKE" then multiset(frames)[x] else 0
  {
  }

  /** The footers visit the pages 1 to `total` once each, and their page labels are pairwise distinct. */
  lemma FootersCoverPages(credit: string, total: nat)
    ensures forall i :: 0 <= i < total ==> Footers(credit, total)[i].page == i + 1
    ensures forall i, j :: 0 <= i < j < total ==>
              Footers(credit, total)[i].pageLabel != Footers(credit, total)[j].pageLabel
  {
    forall i, j | 0 <= i < j < total
      ensures Footers(credit, total)[i].pageLabel != Footers(credit, total)[j].pageLabel
    {
      if PageLabel(i + 1, total) == PageLabel(j + 1, total) {
        PageLabelsDistinct(i + 1, j + 1, total);
      }
    }
  }

  /** The label of a page names that page. */
  lemma PageLabelsDistinct(i: nat, j: nat, total: nat)
    requires PageLabel(i, total) == PageLabel(j, total)
    ensures i == j
  {
    var a := PageLabel(i, total);
    var b := PageLabel(j, total);
    var tail := " of " + NatToString(total);
    assert a == "Page " + NatToString(i) + tail;
    assert b == "Page " + NatToString(j) + tail;
    assert |NatToString(i)| == |NatToString(j)|;
    assert a[5..5 + |NatToString(i)|] == NatToString(i);
    assert b[5..5 + |NatToString(j)|] == NatToString(j);
    NatToStringInjective(i, j);
  }

  /** The attachment name is `deepfake-analysis-<id>.pdf`, and the id can be read back from it. */
  lemma DispositionNamesReport(id: string)
    ensures var d := ContentDisposition(id);
            && |d| == 22 + 18 + |id| + 5
            && d[22..40] == FileNamePrefix
            && d[40..40 + |id|] == id
            && d[40 + |id|..] == ".pdf\""
  {
    var d := ContentDisposition(id);
    assert d == "attachment; filename=\"" + (FileNamePrefix + id + FileNameSuffix + "\"");
  }

  /** A request without a report gets the 400 and no document; an unreadable body gets the 500. */
  lemma ErrorsBeforeLayout(lines: LineCount)
    ensures GeneratePdfSpec(Some(None), lines) == PdfError(400, NoReportMessage)
    ensures GeneratePdfSpec(None, lines) == PdfError(500, GenerateFailedMessage)
  {
  }

  /** A document has a footer for each of its pages and between one and eleven pages. */
  lemma DocumentFooters(r: DeepfakeAnalysisReport, lines: LineCount)
    ensures var resp := GeneratePdfSpec(Some(Some(r)), lines);
            && resp.PdfDocument?
            && 1 <= resp.pages <= 11
            && |resp.footers| == resp.pages
            && forall i :: 0 <= i < resp.pages ==>
                 resp.footers[i] == Footer(i + 1, CreditLine(r), PageLabel(i + 1, resp.pages))
  {
    LayoutBounds(r, lines);
  }

  // ---------------------------------------------------------------------------
  // The document being built

  /** The jsPDF document and the route's `yPos`. */
  class Renderer {
    var y: real
    var pageCount: nat
    var currentPage: nat
    var footers: seq<Footer>

    ghost predicate Valid()
      reads this
    {
      pageCount >= 1 && 1 <= currentPage <= pageCount && y >= Top
    }

    function At(): Cursor
      reads this
    {
      Cursor(y, pageCount)
    }

    /** `new jsPDF()` and `let yPos = 20`. */
    constructor ()
      ensures Valid() && At() == Start && currentPage == 1 && footers == []
    {
      y := Top;
      pageCount := 1;
      currentPage := 1;
      footers := [];
    }

    /** `checkPageBreak(h)`; `addPage` also makes the new page the current one. */
    method CheckPageBreak(h: real)
      requires Valid()
      modifies this
      ensures Valid()
      ensures At() == Break(old(At()), h)
      ensures currentPage == if pageCount > old(pageCount) then pageCount else old(currentPage)
      ensures footers == old(footers)
    {
      if y + h > Bottom {
        pageCount := pageCount + 1;
        currentPage := pageCount;
        y := Top;
      }
    }

    /** `yPos += d`. */
    method Advance(d: real)
      requires Valid() && d >= 0.0
      modifies this
      ensures Valid()
      ensures At() == Adv(old(At()), d)
      ensures currentPage == old(currentPage) && footers == old(footers)
    {
      y := y + d;
    }

    /** `pdf.setPage(i)`. */
    method SetPage(i: nat)
      requires Valid() && 1 <= i <= pageCount
      modifies this
      ensures Valid() && currentPage == i
      ensures At() == old(At()) && footers == old(footers)
    {
      currentPage := i;
    }

    /** The two footer texts, drawn on the current page. */
    method StampFooter(credit: string, pageLabel: string)
      requires Valid()
      modifies this
      ensures Valid()
      ensures footers == old(footers) + [Footer(currentPage, credit, pageLabel)]
      ensures At() == old(At()) && currentPage == old(currentPage)
    {
      footers := footers + [Footer(currentPage, credit, pageLabel)];
    }
  }

  /** A section whose height is fixed: a break check for `h`, then the cursor moved by `d`. */
  method FixedSection(doc: Renderer, h: real, d: real)
    requires doc.Valid() && d >= 0.0
    modifies doc
    ensures doc.Valid() && doc.At() == Adv(Break(old(doc.At()), h), d)
    ensures doc.footers == old(doc.footers)
  {
    doc.CheckPageBreak(h);
    doc.Advance(d);
  }

  method RenderTemporal(doc: Renderer, t: Option<TemporalConsistency>, lines: LineCount)
    requires doc.Valid()
    modifies doc
    ensures doc.Valid() && doc.At() == TemporalSection(old(doc.At()), t, lines)
    ensures doc.footers == old(doc.footers)
  {
    if t.Some? {
      doc.CheckPageBreak(40.0);
      doc.Advance(10.0);
      doc.Advance(8.0);
      var h := WrappedHeight(lines(TemporalText(t.value), WrapFontSize), WrapFontSize);
      doc.Advance(h + 10.0);
    }
  }

  method RenderSync(doc: Renderer, s: Option<AudioVisualSync>, lines: LineCount)
    requires doc.Valid()
    modifies doc
    ensures doc.Valid() && doc.At() == SyncSection(old(doc.At()), s, lines)
    ensures doc.footers == old(doc.footers)
  {
    if s.Some? {
      doc.CheckPageBreak(40.0);
      doc.Advance(10.0);
      doc.Advance(8.0);
      var h := WrappedHeight(lines(SyncText(s.value), WrapFontSize), WrapFontSize);
      doc.Advance(h + 10.0);
    }
  }

  method RenderDetail(doc: Renderer, d: Option<DetailedSummary>, lines: LineCount)
    requires doc.Valid()
    modifies doc
    ensures doc.Valid() && doc.At() == DetailSection(old(doc.At()), d, lines)
    ensures doc.footers == old(doc.footers)
  {
    if d.Some? {
      doc.CheckPageBreak(60.0);
      doc.Advance(10.0);
      doc.Advance(8.0);
      doc.Advance(10.0);
      var h := WrappedHeight(lines(d.value.content, WrapFontSize), WrapFontSize);
      doc.Advance(h + 15.0);
    }
  }

  method RenderHash(doc: Renderer, md5: string, lines: LineCount)
    requires doc.Valid()
    modifies doc
    ensures doc.Valid() && doc.At() == HashSection(old(doc.At()), md5, lines)
    ensures doc.footers == old(doc.footers)
  {
    var text := HashPrefix + md5;
    if |text| > HashLineLimit {
      doc.CheckPageBreak(16.0);
      var h := WrappedHeight(lines(text, WrapFontSize), WrapFontSize);
      doc.Advance(h + 10.0);
    } else {
      doc.Advance(20.0);
    }
  }

  method RenderOpening(doc: Renderer)
    requires doc.Valid()
    modifies doc
    ensures doc.Valid() && doc.At() == OpeningSections(old(doc.At()))
    ensures doc.footers == old(doc.footers)
  {
    doc.Advance(15.0);
    doc.Advance(15.0);
    FixedSection(doc, 30.0, 10.0 + 10.0 + 20.0);
    FixedSection(doc, 50.0, 10.0 + 8.0 + 8.0 + 8.0 + 20.0);
  }

  method RenderOptional(doc: Renderer, r: DeepfakeAnalysisReport, lines: LineCount)
    requires doc.Valid()
    modifies doc
    ensures doc.Valid() && doc.At() == OptionalSections(old(doc.At()), r, lines)
    ensures doc.footers == old(doc.footers)
  {
    RenderTemporal(doc, r.temporalConsistency, lines);
    RenderSync(doc, r.audioVisualSync, lines);
    RenderDetail(doc, r.detailedSummary, lines);
  }

  /** The record sections; the frame counts are returned when the frame section is drawn. */
  method RenderRecord(doc: Renderer, r: DeepfakeAnalysisReport, lines: LineCount)
    returns (summary: Option<FrameSummary>)
    requires doc.Valid()
    modifies doc
    ensures doc.Valid() && doc.At() == RecordSections(old(doc.At()), r, lines)
    ensures doc.footers == old(doc.footers)
    ensures summary == FrameSummaryOf(r.frameLevelClassification)
  {
    FixedSection(doc, 50.0, 10.0 + 8.0 + 8.0 + 20.0);
    FixedSection(doc, 60.0, 10.0 + 8.0 + 8.0 + 8.0 + 8.0 + 8.0);
    RenderHash(doc, r.videoFileMetadata.md5Hash, lines);
    FixedSection(doc, 50.0, 10.0 + 8.0 + 8.0 + 8.0 + 20.0);
    summary := None;
    if |r.frameLevelClassification| > 0 {
      FixedSection(doc, 30.0, 10.0 + 8.0 + 8.0 + 20.0);
      var high := FilterFrames(r.frameLevelClassification, IsHighConfidence);
      var fake := FilterFrames(r.frameLevelClassification, IsFakeLabelled);
      summary := Some(FrameSummary(|r.frameLevelClassification|, |high|, |fake|));
    }
  }

  /** The footer loop: every page from 1 to the last, in order, gets the credit line and its page label. */
  method StampFooters(doc: Renderer, credit: string)
    requires doc.Valid() && doc.footers == []
    modifies doc
    ensures doc.Valid() && doc.At() == old(doc.At())
    ensures doc.footers == Footers(credit, doc.pageCount)
  {
    var total := doc.pageCount;
    var i := 1;
    while i <= total
      invariant 1 <= i <= total + 1
      invariant doc.Valid() && doc.At() == old(doc.At()) && doc.pageCount == total
      invariant doc.footers == Footers(credit, total)[..i - 1]
    {
      doc.SetPage(i);
      doc.StampFooter(credit, PageLabel(i, total));
      i := i + 1;
    }
  }

  /** `POST /api/generate-pdf`. */
  method GeneratePdf(body: Option<Option<DeepfakeAnalysisReport>>, lines: LineCount)
    returns (resp: PdfResponse)
    ensures resp == GeneratePdfSpec(body, lines)
  {
    if body.None? {
      return PdfError(500, GenerateFailedMessage);
    }
    if body.value.None? {
      return PdfError(400, NoReportMessage);
    }
    var r := body.value.value;
    var doc := new Renderer();
    RenderOpening(doc);
    RenderOptional(doc, r, lines);
    var summary := RenderRecord(doc, r, lines);
    StampFooters(doc, CreditLine(r));
    return PdfDocument(ContentDisposition(r.reportId), doc.pageCount, doc.footers, summary);
  }
}
