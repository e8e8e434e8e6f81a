/** The content of the clinical PDF built by model/report_generator.py: the
    sequence of blocks (the reportlab "story") with their texts, colours and
    conditional parts. Layout, fonts and rendering are outside the model;
    whether an image file exists and the generation time are parameters. */
module ReportGenerator {
  import opened Wrappers
  import opened PyText
  import opened Records
  import opened MedicalInsights

  const Red := "#ef4444"
  const Green := "#10b981"

  /** One element of the story. */
  datatype Block =
    | Title(text: string)
    | Generated(at: int)
    | Spacer(inches: real)
    | Rule
    | InfoTable(patientName: string, reportId: int, age: int, gender: string, date: int)
    | Heading(text: string)
    | Finding(prediction: string, color: string)
    | ConfidenceLine(percent: real)
    | SeverityLine(severity: Option<string>)
    | RiskLine(level: string, background: string)
    | ImageRow(paths: seq<string>)
    | Caption
    | Insight(text: string)
    | Description(text: string)
    | DietHeading
    | DietLine(text: string)
    | Disclaimer

  /** What the report is generated from: the stored report, its patient,
      the advice and risk derived from it. */
  datatype ReportData = ReportData(report: XRayReport, patient: Patient, advice: Advice, risk: Risk)

  // ---------------------------------------------------------------------------
  // The parts of the story
  // ---------------------------------------------------------------------------

  /** The risk line is red for Critical and Severe, green otherwise. */
  function RiskBackground(level: string): (c: string)
    ensures c == Red <==> level in {"Critical", "Severe"}
    ensures c == Green <==> level !in {"Critical", "Severe"}
  {
    if level in {"Critical", "Severe"} then Red else Green
  }

  /** The primary finding is red unless the prediction is exactly NORMAL. */
  function FindingColor(prediction: string): (c: string)
    ensures c == Red <==> prediction != "NORMAL"
    ensures c == Green <==> prediction == "NORMAL"
  {
    if prediction != "NORMAL" then Red else Green
  }

  /** The confidence shown, in percent: the stored fraction scaled by 100,
      the same figure the report's dictionary form carries. */
  function ConfidenceShown(r: XRayReport): (pct: real)
    ensures pct == ReportToDict(r).confidencePct
    ensures 0.0 <= r.confidence <= 1.0 ==> 0.0 <= pct <= 100.0
  {
    r.confidence * 100.0
  }

  /** The figure line 77 of the generator prints before its "%" sign: the
      stored fraction itself, a hundredth of the dictionary's percentage. */
  function ConfidenceShownAsWritten(r: XRayReport): (figure: real)
    ensures figure * 100.0 == ReportToDict(r).confidencePct
  {
    r.confidence
  }

  /** As written, a report stored with confidence 0.93 reads "0.93%" while
      its dictionary form (and the risk computed for it) use 93; with the
      percentage the two agree. */
  lemma ConfidenceShownAsWrittenDiffers(r: XRayReport)
    requires r.confidence == 0.93
    ensures ConfidenceShownAsWritten(r) == 0.93
    ensures ConfidenceShownAsWritten(r) != ReportToDict(r).confidencePct
    ensures ConfidenceShown(r) == 93.0
  {
  }

  /** The heat map path is truthy: set and non-empty. */
  predicate Truthy(s: Option<string>) {
    s.Some? && s.value != ""
  }

  /** The images placed side by side: the X-ray when its file exists, the
      heat map when its path is set and its file exists. */
  function ReportImages(r: XRayReport, imageExists: bool, heatmapExists: bool): (paths: seq<string>)
    ensures |paths| == (if imageExists then 1 else 0) + (if Truthy(r.heatmapPath) && heatmapExists then 1 else 0)
    ensures |paths| > 0 <==> imageExists || (Truthy(r.heatmapPath) && heatmapExists)
    ensures imageExists ==> paths[0] == "static/" + r.imagePath
    ensures Truthy(r.heatmapPath) && heatmapExists ==> paths[|paths| - 1] == "static/" + r.heatmapPath.value
  {
    (if imageExists then ["static/" + r.imagePath] else [])
    + (if Truthy(r.heatmapPath) && heatmapExists then ["static/" + r.heatmapPath.value] else [])
  }

  /** The paragraphs of the diet plan: its lines, stripped, blank ones
      skipped, in order. */
  function DietLines(lines: seq<string>): (r: seq<string>)
    ensures |r| <= |lines|
    ensures forall i :: 0 <= i < |r| ==> r[i] != "" && r[i] == Strip(r[i])
  {
    if lines == [] then []
    else
      var last := Strip(lines[|lines| - 1]);
      if last != "" then
        StripIdempotent(lines[|lines| - 1]);
        DietLines(lines[..|lines| - 1]) + [last]
      else DietLines(lines[..|lines| - 1])
  }

  /** Stripping twice is stripping once. */
  lemma StripIdempotent(s: string)
    ensures Strip(Strip(s)) == Strip(s)
  {
    StripKeeps(Strip(s));
  }

  /** A line of text without blanks at its ends and without a newline is a
      diet paragraph of its own. */
  lemma {:induction false} DietLinesOfJoin(parts: seq<string>)
    requires |parts| >= 1
    requires forall i :: 0 <= i < |parts| ==> '\n' !in parts[i] && parts[i] != [] && Strip(parts[i]) == parts[i]
    ensures DietLines(Split(Join(parts, '\n'), '\n')) == parts
  {
    SplitJoin(parts, '\n');
    DietLinesKeeps(parts);
  }

  lemma {:induction false} DietLinesKeeps(parts: seq<string>)
    requires forall i :: 0 <= i < |parts| ==> parts[i] != [] && Strip(parts[i]) == parts[i]
    ensures DietLines(parts) == parts
  {
    if parts != [] {
      DietLinesKeeps(parts[..|parts| - 1]);
      assert parts[..|parts| - 1] + [parts[|parts| - 1]] == parts;
    }
  }

  /** The diet paragraphs' texts, in story order. */
  function DietTexts(story: seq<Block>): (texts: seq<string>)
    ensures |texts| <= |story|
  {
    if story == [] then []
    else (if story[0].DietLine? then [story[0].text] else []) + DietTexts(story[1..])
  }

  // ---------------------------------------------------------------------------
  // generate_medical_report
  // ---------------------------------------------------------------------------

  const AppTitle := "LungAI Diagnostics"

  /** The closing blocks: a spacer, a rule and the disclaimer. */
  const Footer: seq<Block> := [Spacer(1.0), Rule, Disclaimer]

  /** The severity paragraph, present unless the severity is 'N/A' (a
      missing severity still gets one). */
  function SeverityBlocks(severity: Option<string>): seq<Block> {
    if severity != Some("N/A") then [SeverityLine(severity)] else []
  }

  /** The image row and its caption, present when there is an image. */
  function ImageBlocks(images: seq<string>): seq<Block> {
    if images != [] then [ImageRow(images), Caption] else []
  }

  /** Branding, patient table and the start of the summary. */
  function OpeningBlocks(data: ReportData, now: int): seq<Block> {
    [Title(AppTitle), Generated(now), Spacer(0.2), Rule, Spacer(0.3),
     InfoTable(data.patient.name, data.report.id, data.patient.age, data.patient.gender, data.report.createdAt),
     Spacer(0.4), Heading("AI Diagnostic Summary"), Spacer(0.1),
     Finding(data.report.prediction, FindingColor(data.report.prediction)),
     ConfidenceLine(ConfidenceShownAsWritten(data.report))]
  }

  /** The risk status line and the images heading. */
  function RiskBlocks(data: ReportData): seq<Block> {
    [Spacer(0.1), RiskLine(Upper(data.risk.level), RiskBackground(data.risk.level)), Spacer(0.4),
     Heading("Radiographic Findings")]
  }

  /** The insight, the description and the diet heading. */
  function InsightBlocks(data: ReportData): seq<Block> {
    [Spacer(0.4), Heading("Medical Analysis & Recommendations"),
     Insight(data.advice.aiInsight), Description(data.advice.description), Spacer(0.2), DietHeading]
  }

  /** The story up to the diet heading. */
  function StoryHead(data: ReportData, imageExists: bool, heatmapExists: bool, now: int): seq<Block> {
    OpeningBlocks(data, now) + SeverityBlocks(data.report.severity) + RiskBlocks(data)
    + ImageBlocks(ReportImages(data.report, imageExists, heatmapExists)) + InsightBlocks(data)
  }

  /** The whole story: the head, one paragraph per diet line, the footer. */
  function Story(data: ReportData, imageExists: bool, heatmapExists: bool, now: int): seq<Block> {
    StoryHead(data, imageExists, heatmapExists, now) + DietBlocks(DietLines(Split(data.advice.diet, '\n'))) + Footer
  }

  /** A block that is neither a diet paragraph nor part of the footer is in
      the story exactly when it is in one of the head's parts. */
  lemma InStory(data: ReportData, imageExists: bool, heatmapExists: bool, now: int, b: Block)
    requires !b.DietLine? && b !in Footer
    ensures b in Story(data, imageExists, heatmapExists, now) <==>
              b in OpeningBlocks(data, now) || b in SeverityBlocks(data.report.severity) || b in RiskBlocks(data)
              || b in ImageBlocks(ReportImages(data.report, imageExists, heatmapExists)) || b in InsightBlocks(data)
  {
    DietBlocksOnlyDiet(DietLines(Split(data.advice.diet, '\n')));
  }

  /** The story starts with the title and ends with the disclaimer. */
  lemma StoryBookends(data: ReportData, imageExists: bool, heatmapExists: bool, now: int)
    ensures var story := Story(data, imageExists, heatmapExists, now);
            |story| > 0 && story[0] == Title(AppTitle) && story[|story| - 1] == Disclaimer
  {
  }

  /** The finding is coloured by the prediction, the confidence line shows
      the stored fraction, the risk line is coloured by the risk level, and
      the insight and description are shown. */
  lemma StoryColours(data: ReportData, imageExists: bool, heatmapExists: bool, now: int)
    ensures var story := Story(data, imageExists, heatmapExists, now);
            && Finding(data.report.prediction, FindingColor(data.report.prediction)) in story
            && ConfidenceLine(ConfidenceShownAsWritten(data.report)) in story
            && RiskLine(Upper(data.risk.level), RiskBackground(data.risk.level)) in story
            && Insight(data.advice.aiInsight) in story && Description(data.advice.description) in story
  {
    var f := Finding(data.report.prediction, FindingColor(data.report.prediction));
    var c := ConfidenceLine(ConfidenceShownAsWritten(data.report));
    var r := RiskLine(Upper(data.risk.level), RiskBackground(data.risk.level));
    var i := Insight(data.advice.aiInsight);
    var d := Description(data.advice.description);
    assert f in OpeningBlocks(data, now) && c in OpeningBlocks(data, now);
    assert r in RiskBlocks(data);
    assert i in InsightBlocks(data) && d in InsightBlocks(data);
    InStory(data, imageExists, heatmapExists, now, f);
    InStory(data, imageExists, heatmapExists, now, c);
    InStory(data, imageExists, heatmapExists, now, r);
    InStory(data, imageExists, heatmapExists, now, i);
    InStory(data, imageExists, heatmapExists, now, d);
  }

  /** The severity line is present exactly when the severity is not 'N/A',
      and it shows the stored severity. */
  lemma StorySeverityLine(data: ReportData, imageExists: bool, heatmapExists: bool, now: int)
    ensures var story := Story(data, imageExists, heatmapExists, now);
            && (SeverityLine(data.report.severity) in story <==> data.report.severity != Some("N/A"))
            && forall s :: SeverityLine(s) in story ==> s == data.report.severity
  {
    forall s ensures SeverityLine(s) in Story(data, imageExists, heatmapExists, now) <==>
                     SeverityLine(s) in SeverityBlocks(data.report.severity) {
      InStory(data, imageExists, heatmapExists, now, SeverityLine(s));
    }
  }

  /** The image row and its caption are present exactly when at least one
      image is, and the row holds exactly the included images. */
  lemma StoryImages(data: ReportData, imageExists: bool, heatmapExists: bool, now: int)
    ensures var story := Story(data, imageExists, heatmapExists, now);
            var images := ReportImages(data.report, imageExists, heatmapExists);
            && (Caption in story <==> images != [])
            && (ImageRow(images) in story <==> images != [])
            && forall ps :: ImageRow(ps) in story ==> ps == images
  {
    var images := ReportImages(data.report, imageExists, heatmapExists);
    InStoryImage(data, imageExists, heatmapExists, now, Caption);
    forall ps ensures ImageRow(ps) in Story(data, imageExists, heatmapExists, now) <==> ImageRow(ps) in ImageBlocks(images) {
      InStoryImage(data, imageExists, heatmapExists, now, ImageRow(ps));
    }
  }

  /** An image row or caption is in the story exactly when it is among the
      image blocks. */
  lemma InStoryImage(data: ReportData, imageExists: bool, heatmapExists: bool, now: int, b: Block)
    requires b.Caption? || b.ImageRow?
    ensures b in Story(data, imageExists, heatmapExists, now) <==>
              b in ImageBlocks(ReportImages(data.report, imageExists, heatmapExists))
  {
    InStory(data, imageExists, heatmapExists, now, b);
    ImageBlocksApart(data, now, b);
  }

  /** No other part of the head holds an image row or a caption. */
  lemma ImageBlocksApart(data: ReportData, now: int, b: Block)
    requires b.Caption? || b.ImageRow?
    ensures b !in OpeningBlocks(data, now) && b !in SeverityBlocks(data.report.severity)
    ensures b !in RiskBlocks(data) && b !in InsightBlocks(data)
  {
  }

  /** The diet paragraphs are the diet plan's non-blank lines, stripped, in
      their order. */
  lemma StoryDiet(data: ReportData, imageExists: bool, heatmapExists: bool, now: int)
    ensures DietTexts(Story(data, imageExists, heatmapExists, now)) == DietLines(Split(data.advice.diet, '\n'))
  {
    var head := StoryHead(data, imageExists, heatmapExists, now);
    var lines := DietLines(Split(data.advice.diet, '\n'));
    var diet := DietBlocks(lines);
    HeadHasNoDiet(data, imageExists, heatmapExists, now);
    DietBlocksTexts(lines);
    DietTextsConcat(head, diet);
    DietTextsConcat(head + diet, Footer);
    FooterHasNoDiet();
  }

  /** The closing blocks hold no diet paragraph. */
  lemma FooterHasNoDiet()
    ensures DietTexts(Footer) == []
  {
    NoDietText(Footer);
  }

  /** The blocks before the diet paragraphs hold none of them. */
  lemma HeadHasNoDiet(data: ReportData, imageExists: bool, heatmapExists: bool, now: int)
    ensures DietTexts(StoryHead(data, imageExists, heatmapExists, now)) == []
  {
    var o := OpeningBlocks(data, now);
    var sv := SeverityBlocks(data.report.severity);
    var rk := RiskBlocks(data);
    var im := ImageBlocks(ReportImages(data.report, imageExists, heatmapExists));
    var ins := InsightBlocks(data);
    NoDietText(o);
    NoDietText(sv);
    NoDietText(rk);
    NoDietText(im);
    NoDietText(ins);
    DietTextsConcat(o, sv);
    DietTextsConcat(o + sv, rk);
    DietTextsConcat(o + sv + rk, im);
    DietTextsConcat(o + sv + rk + im, ins);
  }

  /** generate_medical_report: appends the header, the patient table, the
      summary (finding, confidence, severity unless it is 'N/A', risk), the
      images when there are any, the insight and description, one paragraph
      per non-blank diet line, and the disclaimer. */
  method GenerateMedicalReport(data: ReportData, imageExists: bool, heatmapExists: bool, now: int)
    returns (story: seq<Block>)
    ensures story == Story(data, imageExists, heatmapExists, now)
  {
    var report := data.report;
    var patient := data.patient;
    story := [Title(AppTitle), Generated(now), Spacer(0.2), Rule, Spacer(0.3)];
    story := story + [InfoTable(patient.name, report.id, patient.age, patient.gender, report.createdAt), Spacer(0.4)];
    story := story + [Heading("AI Diagnostic Summary"), Spacer(0.1)];
    story := story + [Finding(report.prediction, FindingColor(report.prediction))];
    story := story + [ConfidenceLine(ConfidenceShownAsWritten(report))];
    assert story == OpeningBlocks(data, now);
    if report.severity != Some("N/A") {
      story := story + [SeverityLine(report.severity)];
    }
    ghost var upToSeverity := story;
    assert upToSeverity == OpeningBlocks(data, now) + SeverityBlocks(report.severity);
    story := story + [Spacer(0.1), RiskLine(Upper(data.risk.level), RiskBackground(data.risk.level)), Spacer(0.4)];
    story := story + [Heading("Radiographic Findings")];
    assert story == upToSeverity + RiskBlocks(data);
    ghost var upToRisk := story;
    var images := ReportImages(report, imageExists, heatmapExists);
    if images != [] {
      story := story + [ImageRow(images), Caption];
    }
    assert story == upToRisk + ImageBlocks(images);
    ghost var upToImages := story;
    story := story + [Spacer(0.4), Heading("Medical Analysis & Recommendations")];
    story := story + [Insight(data.advice.aiInsight), Description(data.advice.description)];
    story := story + [Spacer(0.2), DietHeading];
    assert story == upToImages + InsightBlocks(data);
    ghost var head := story;
    var lines := Split(data.advice.diet, '\n');
    story := AppendDietLines(story, lines);
    story := story + [Spacer(1.0), Rule, Disclaimer];
    assert story == head + DietBlocks(DietLines(lines)) + Footer;
  }

  /** The diet loop: one paragraph per non-blank line, stripped. */
  method AppendDietLines(start: seq<Block>, lines: seq<string>) returns (story: seq<Block>)
    ensures story == start + DietBlocks(DietLines(lines))
  {
    story := start;
    var i := 0;
    while i < |lines|
      invariant 0 <= i <= |lines|
      invariant story == start + DietBlocks(DietLines(lines[..i]))
    {
      DietLinesStep(lines, i);
      var text := Strip(lines[i]);
      if text != "" {
        StoryGrows(start, DietLines(lines[..i]), text);
        story := story + [DietLine(text)];
      }
      i := i + 1;
    }
    assert lines[..i] == lines;
  }

  /** One more line of the plan adds its stripped text when it is not blank. */
  lemma DietLinesStep(lines: seq<string>, i: nat)
    requires i < |lines|
    ensures DietLines(lines[..i + 1]) ==
              DietLines(lines[..i]) + (if Strip(lines[i]) != "" then [Strip(lines[i])] else [])
  {
    assert lines[..i + 1][..i] == lines[..i];
    assert lines[..i + 1][i] == lines[i];
  }

  /** One diet paragraph per text. */
  function DietBlocks(texts: seq<string>): (bs: seq<Block>)
    ensures |bs| == |texts|
    ensures forall i :: 0 <= i < |texts| ==> bs[i] == DietLine(texts[i])
  {
    seq(|texts|, i requires 0 <= i < |texts| => DietLine(texts[i]))
  }

  /** Appending a paragraph to the story appends its text to the plan. */
  lemma StoryGrows(start: seq<Block>, texts: seq<string>, t: string)
    ensures start + DietBlocks(texts) + [DietLine(t)] == start + DietBlocks(texts + [t])
  {
    assert DietBlocks(texts + [t]) == DietBlocks(texts) + [DietLine(t)];
  }

  lemma DietBlocksOnlyDiet(texts: seq<string>)
    ensures forall b :: b in DietBlocks(texts) ==> b.DietLine?
  {
  }

  lemma {:induction false} DietBlocksTexts(texts: seq<string>)
    ensures DietTexts(DietBlocks(texts)) == texts
  {
    if texts != [] {
      DietBlocksTexts(texts[1..]);
      assert DietBlocks(texts)[1..] == DietBlocks(texts[1..]);
    }
  }

  lemma {:induction false} DietTextsConcat(a: seq<Block>, b: seq<Block>)
    ensures DietTexts(a + b) == DietTexts(a) + DietTexts(b)
  {
    if a == [] {
      assert a + b == b;
    } else {
      var h := if a[0].DietLine? then [a[0].text] else [];
      assert (a + b)[0] == a[0] && (a + b)[1..] == a[1..] + b;
      assert DietTexts(a + b) == h + DietTexts(a[1..] + b);
      DietTextsConcat(a[1..], b);
    }
  }

  lemma {:induction false} NoDietText(s: seq<Block>)
    requires forall i :: 0 <= i < |s| ==> !s[i].DietLine?
    ensures DietTexts(s) == []
  {
    if s != [] {
      NoDietText(s[1..]);
    }
  }
}
