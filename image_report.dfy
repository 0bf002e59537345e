/**
 * aggregate_image_analysis: the privacy report on one image, assembled from
 * what the Google Vision detectors found, an optional quick summary of the
 * image's text, and the metadata analysis.
 *
 * The detectors, the agent's quick analysis and the metadata analysis of the
 * image bytes are calls into other services; their results are inputs here.
 */
module ImageReport {
  import opened Wrappers
  import opened Text
  import opened Findings
  import opened RiskScore
  import opened PiiAnalysis

  /** The detector outputs, reduced to the strings the report uses. */
  datatype Detections = Detections(
    landmarks: seq<string>,
    logos: seq<string>,
    /** the descriptions of web_data.web_entities, empty ones included */
    webEntities: seq<string>,
    matchingPages: seq<string>,
    similarImages: seq<string>,
    /** the descriptions of the text annotations; the first is the full text */
    textAnnotations: seq<string>)

  datatype Aggregate = Aggregate(
    vulnerabilities: seq<string>,
    sources: set<string>,
    domains: set<string>,
    /** pii_risk_summary; None is the fallback {} */
    piiRiskSummary: Option<RiskAssessment>)

  /** text_annots[0].description if text_annots else "" */
  function ExtractedText(d: Detections): string {
    if d.textAnnotations == [] then "" else d.textAnnotations[0]
  }

  /** The descriptions that are not empty, in order. */
  function NonEmpty(xs: seq<string>): seq<string>
    decreases |xs|
  {
    if xs == [] then []
    else NonEmpty(xs[..|xs| - 1]) + (if xs[|xs| - 1] == "" then [] else [xs[|xs| - 1]])
  }

  /** The filter keeps exactly the non-empty descriptions. */
  lemma {:induction false} NonEmptyShape(xs: seq<string>)
    ensures forall i :: 0 <= i < |NonEmpty(xs)| ==> NonEmpty(xs)[i] != ""
    ensures forall x :: x in NonEmpty(xs) <==> x in xs && x != ""
    decreases |xs|
  {
    if xs != [] {
      var init := xs[..|xs| - 1];
      NonEmptyShape(init);
      assert xs == init + [xs[|xs| - 1]];
    }
  }

  /** The fixed opening of each kind of entry. */
  datatype Label = Landmarks | Logos | WebEntities | TextFound | AiSummaryLine

  function LabelText(l: Label): string {
    match l
    case Landmarks => "Landmarks detected: "
    case Logos => "Logos detected: "
    case WebEntities => "Web entities: "
    case TextFound => "Text found in image: "
    case AiSummaryLine => "AI summary: "
  }

  function Line(l: Label, payload: string): string {
    LabelText(l) + payload
  }

  /** f"Text found in image: {extracted_text[:100]}..." */
  function TextEntry(text: string): string {
    Line(TextFound, Take(text, 100) + "...")
  }

  /** f"PII risk ({finding['risk']}): {finding['type']} - {finding['data']}" */
  function PiiEntry(f: Finding): string {
    "PII risk (" + RiskLabel(f.risk) + "): " + TypeName(f.kind) + " - " + f.data
  }

  /** One line per element, in order. */
  function Lines<X>(line: X -> string, xs: seq<X>): seq<string>
    decreases |xs|
  {
    if xs == [] then [] else Lines(line, xs[..|xs| - 1]) + [line(xs[|xs| - 1])]
  }

  lemma {:induction false} LinesShape<X>(line: X -> string, xs: seq<X>)
    ensures |Lines(line, xs)| == |xs| && forall i :: 0 <= i < |xs| ==> Lines(line, xs)[i] == line(xs[i])
    decreases |xs|
  {
    if xs != [] {
      var init := xs[..|xs| - 1];
      LinesShape(line, init);
      assert forall i :: 0 <= i < |init| ==> init[i] == xs[i];
    }
  }

  function PiiEntries(fs: seq<Finding>): seq<string> {
    Lines(PiiEntry, fs)
  }

  /** One entry per finding, in order. */
  lemma PiiEntriesShape(fs: seq<Finding>)
    ensures |PiiEntries(fs)| == |fs| && forall i :: 0 <= i < |fs| ==> PiiEntries(fs)[i] == PiiEntry(fs[i])
  {
    LinesShape(PiiEntry, fs);
  }

  /** The findings of the metadata analysis; an error result has none. */
  function PiiFindings(pii: Analysis): seq<Finding> {
    if pii.Report? then pii.findings else []
  }

  /** The AI summary: asked for only when an agent is given and the text is not empty. */
  function AiSummary(quickAnalyze: Option<string -> string>, text: string): string {
    if quickAnalyze.Some? && text != "" then quickAnalyze.value(text) else ""
  }

  function When(present: bool, line: string): seq<string> {
    if present then [line] else []
  }

  /** The entries before the PII ones, in their fixed order; each only when its input is not empty. */
  function Groups(d: Detections, aiSummary: string): seq<string> {
    var text := ExtractedText(d);
    When(d.landmarks != [], Line(Landmarks, Join(", ", d.landmarks)))
    + When(d.logos != [], Line(Logos, Join(", ", d.logos)))
    + When(d.webEntities != [], Line(WebEntities, Join(", ", NonEmpty(d.webEntities))))
    + When(text != "", TextEntry(text))
    + When(aiSummary != "", Line(AiSummaryLine, aiSummary))
  }

  function Vulnerabilities(d: Detections, aiSummary: string, pii: Analysis): seq<string> {
    Groups(d, aiSummary) + PiiEntries(PiiFindings(pii))
  }

  function Sources(d: Detections): set<string> {
    (set u | u in d.matchingPages) + (set u | u in d.similarImages)
  }

  /** url.split("/")[2]: for a URL with "://" the index always exists. */
  function Host(url: string): (r: string)
    requires Contains(url, "://")
    ensures '/' !in r
  {
    SchemeSplit(url);
    Split(url, '/')[2]
  }

  function Domains(sources: set<string>): set<string> {
    set u | u in sources && Contains(u, "://") :: Host(u)
  }

  function AggregateSpec(d: Detections, quickAnalyze: Option<string -> string>, pii: Analysis): Aggregate {
    var sources := Sources(d);
    Aggregate(
      Vulnerabilities(d, AiSummary(quickAnalyze, ExtractedText(d)), pii),
      sources,
      Domains(sources),
      if pii.Report? then Some(pii.assessment) else None)
  }

  /** One entry per finding, appended in order. */
  method AppendPiiEntries(entries: seq<string>, fs: seq<Finding>) returns (r: seq<string>)
    ensures r == entries + PiiEntries(fs)
  {
    r := entries;
    for i := 0 to |fs|
      invariant r == entries + PiiEntries(fs[..i])
    {
      assert fs[..i + 1][..i] == fs[..i];
      r := r + [PiiEntry(fs[i])];
    }
    assert fs[..|fs|] == fs;
  }

  /** The entries for the detections, the text and the AI summary, appended in their fixed order. */
  method DetectionEntries(d: Detections, geminiResult: string) returns (vulnerabilities: seq<string>)
    ensures vulnerabilities == Groups(d, geminiResult)
  {
    var extractedText := if d.textAnnotations != [] then d.textAnnotations[0] else "";
    var landmarks, logos := Line(Landmarks, Join(", ", d.landmarks)), Line(Logos, Join(", ", d.logos));
    var entities := Line(WebEntities, Join(", ", NonEmpty(d.webEntities)));
    var text, summary := TextEntry(extractedText), Line(AiSummaryLine, geminiResult);
    vulnerabilities := [];
    if d.landmarks != [] {
      vulnerabilities := vulnerabilities + [landmarks];
    }
    ghost var g := When(d.landmarks != [], landmarks);
    assert vulnerabilities == g;
    if d.logos != [] {
      vulnerabilities := vulnerabilities + [logos];
    }
    g := g + When(d.logos != [], logos);
    assert vulnerabilities == g;
    if d.webEntities != [] {
      vulnerabilities := vulnerabilities + [entities];
    }
    g := g + When(d.webEntities != [], entities);
    assert vulnerabilities == g;
    if extractedText != "" {
      vulnerabilities := vulnerabilities + [text];
    }
    g := g + When(extractedText != "", text);
    assert vulnerabilities == g;
    if geminiResult != "" {
      vulnerabilities := vulnerabilities + [summary];
    }
    g := g + When(geminiResult != "", summary);
    assert vulnerabilities == g;
  }

  /** The matching pages' and similar images' URLs, each list added when not empty. */
  method CollectSources(d: Detections) returns (sources: set<string>)
    ensures sources == Sources(d)
  {
    sources := {};
    if d.matchingPages != [] {
      sources := sources + set u | u in d.matchingPages;
    }
    if d.similarImages != [] {
      sources := sources + set u | u in d.similarImages;
    }
  }

  method AggregateImageAnalysis(d: Detections, quickAnalyze: Option<string -> string>, pii: Analysis)
    returns (r: Aggregate)
    ensures r == AggregateSpec(d, quickAnalyze, pii)
  {
    var extractedText := if d.textAnnotations != [] then d.textAnnotations[0] else "";
    var geminiResult := "";
    if quickAnalyze.Some? && extractedText != "" {
      geminiResult := quickAnalyze.value(extractedText);
    }
    var sources := CollectSources(d);
    var vulnerabilities := DetectionEntries(d, geminiResult);
    vulnerabilities := AppendPiiEntries(vulnerabilities, PiiFindings(pii));
    var summary := if pii.Report? then Some(pii.assessment) else None;
    r := Aggregate(vulnerabilities, sources, Domains(sources), summary);
  }

  // ------------------------------------------------------------------
  // Properties

  /** One PII entry per finding of the metadata analysis, in order, at the end of the list. */
  lemma PiiEntriesLast(d: Detections, aiSummary: string, pii: Analysis)
    ensures
      var v, fs := Vulnerabilities(d, aiSummary, pii), PiiFindings(pii);
      |v| >= |fs| && forall i :: 0 <= i < |fs| ==> v[|v| - |fs| + i] == PiiEntry(fs[i])
  {
    SuffixLines(Vulnerabilities(d, aiSummary, pii), Groups(d, aiSummary), PiiEntry, PiiFindings(pii));
  }

  /** Whatever precedes them, the lines of xs are the last |xs| elements. */
  lemma SuffixLines<X>(v: seq<string>, g: seq<string>, line: X -> string, xs: seq<X>)
    requires v == g + Lines(line, xs)
    ensures |v| >= |xs| && forall i :: 0 <= i < |xs| ==> v[|v| - |xs| + i] == line(xs[i])
  {
    LinesShape(line, xs);
    var p := Lines(line, xs);
    forall i | 0 <= i < |xs| ensures v[|v| - |xs| + i] == line(xs[i]) {
      assert v[|g| + i] == p[i];
    }
  }

  /** The five groups in report order, each with whether its input is not empty. */
  function GroupSlots(d: Detections, aiSummary: string): seq<(bool, string)> {
    var text := ExtractedText(d);
    [(d.landmarks != [], Line(Landmarks, Join(", ", d.landmarks))),
     (d.logos != [], Line(Logos, Join(", ", d.logos))),
     (d.webEntities != [], Line(WebEntities, Join(", ", NonEmpty(d.webEntities)))),
     (text != "", TextEntry(text)),
     (aiSummary != "", Line(AiSummaryLine, aiSummary))]
  }

  /** The lines of the present slots among the first n, in order. */
  function Kept(slots: seq<(bool, string)>, n: nat): seq<string>
    requires n <= |slots|
  {
    if n == 0 then [] else Kept(slots, n - 1) + When(slots[n - 1].0, slots[n - 1].1)
  }

  /** A present slot's line comes right after the lines of the present slots before it. */
  lemma {:induction false} KeptAt(slots: seq<(bool, string)>, g: nat, n: nat)
    requires g < n <= |slots| && slots[g].0
    ensures |Kept(slots, g)| < |Kept(slots, n)| && Kept(slots, n)[|Kept(slots, g)|] == slots[g].1
    decreases n
  {
    if g < n - 1 {
      KeptAt(slots, g, n - 1);
    }
  }

  /** The entries before the PII ones are the lines of the present groups. */
  lemma GroupsKept(d: Detections, aiSummary: string)
    ensures Groups(d, aiSummary) == Kept(GroupSlots(d, aiSummary), 5)
  {
    KeptFive(GroupSlots(d, aiSummary));
  }

  lemma KeptFive(ps: seq<(bool, string)>)
    requires |ps| == 5
    ensures Kept(ps, 5) == When(ps[0].0, ps[0].1) + When(ps[1].0, ps[1].1) + When(ps[2].0, ps[2].1)
                           + When(ps[3].0, ps[3].1) + When(ps[4].0, ps[4].1)
  {
    assert Kept(ps, 1) == When(ps[0].0, ps[0].1);
    assert Kept(ps, 2) == Kept(ps, 1) + When(ps[1].0, ps[1].1);
    assert Kept(ps, 3) == Kept(ps, 2) + When(ps[2].0, ps[2].1);
    assert Kept(ps, 4) == Kept(ps, 3) + When(ps[3].0, ps[3].1);
  }

  /**
   * The groups come first, in the order landmarks, logos, web entities, text,
   * AI summary: group g adds its line exactly when its input is not empty,
   * and that line follows the lines of the groups present before it.
   */
  lemma GroupOrder(d: Detections, aiSummary: string, pii: Analysis)
    ensures var slots, v := GroupSlots(d, aiSummary), Vulnerabilities(d, aiSummary, pii);
      && |Kept(slots, 5)| <= |v| && v[..|Kept(slots, 5)|] == Kept(slots, 5)
      && (forall g :: 0 <= g < 5 ==> |Kept(slots, g + 1)| == |Kept(slots, g)| + (if slots[g].0 then 1 else 0))
      && (forall g :: 0 <= g < 5 && slots[g].0 ==>
            |Kept(slots, g)| < |Kept(slots, 5)| && v[|Kept(slots, g)|] == slots[g].1)
  {
    GroupsKept(d, aiSummary);
    KeptFirst(GroupSlots(d, aiSummary), 5, Vulnerabilities(d, aiSummary, pii), PiiEntries(PiiFindings(pii)));
  }

  /** Whatever follows them, the kept lines come first, each present slot's at its place. */
  lemma KeptFirst(slots: seq<(bool, string)>, n: nat, v: seq<string>, tail: seq<string>)
    requires n <= |slots| && v == Kept(slots, n) + tail
    ensures |Kept(slots, n)| <= |v| && v[..|Kept(slots, n)|] == Kept(slots, n)
    ensures forall g :: 0 <= g < n ==> |Kept(slots, g + 1)| == |Kept(slots, g)| + (if slots[g].0 then 1 else 0)
    ensures forall g :: 0 <= g < n && slots[g].0 ==>
              |Kept(slots, g)| < |Kept(slots, n)| && v[|Kept(slots, g)|] == slots[g].1
  {
    forall g | 0 <= g < n && slots[g].0
      ensures |Kept(slots, g)| < |Kept(slots, n)| && v[|Kept(slots, g)|] == slots[g].1
    {
      KeptAt(slots, g, n);
    }
  }

  /** With every input present, the groups are exactly the five entries. */
  lemma AllGroups(d: Detections, aiSummary: string)
    requires d.landmarks != [] && d.logos != [] && d.webEntities != [] && ExtractedText(d) != "" && aiSummary != ""
    ensures Groups(d, aiSummary) ==
              [Line(Landmarks, Join(", ", d.landmarks)),
               Line(Logos, Join(", ", d.logos)),
               Line(WebEntities, Join(", ", NonEmpty(d.webEntities))),
               TextEntry(ExtractedText(d)),
               Line(AiSummaryLine, aiSummary)]
  {
    var a, b, c := Line(Landmarks, Join(", ", d.landmarks)), Line(Logos, Join(", ", d.logos)),
                   Line(WebEntities, Join(", ", NonEmpty(d.webEntities)));
    var e, f := TextEntry(ExtractedText(d)), Line(AiSummaryLine, aiSummary);
    FiveEntries(a, b, c, e, f);
  }

  lemma FiveEntries(a: string, b: string, c: string, e: string, f: string)
    ensures When(true, a) + When(true, b) + When(true, c) + When(true, e) + When(true, f) == [a, b, c, e, f]
  {
  }

  /** Without detections, text or summary, the list holds only the PII entries. */
  lemma OnlyPii(d: Detections, pii: Analysis)
    requires d.landmarks == [] && d.logos == [] && d.webEntities == [] && d.textAnnotations == []
    ensures Vulnerabilities(d, "", pii) == PiiEntries(PiiFindings(pii))
  {
  }

  /** The text entry always ends with "...", even for a short text. */
  lemma TextEntryShape(text: string)
    ensures IsPrefix(LabelText(TextFound), TextEntry(text))
    ensures TextEntry(text)[|TextEntry(text)| - 3..] == "..."
    ensures |text| <= 100 ==> TextEntry(text) == LabelText(TextFound) + text + "..."
  {
  }

  /** The summary is not asked for without an agent or without text: the report does not depend on the agent then. */
  lemma NoAgentCallWithoutText(d: Detections, a1: Option<string -> string>, a2: Option<string -> string>, pii: Analysis)
    requires ExtractedText(d) == "" || (a1.None? && a2.None?)
    ensures AggregateSpec(d, a1, pii) == AggregateSpec(d, a2, pii)
  {
  }

  /** Every source is a matching page or a similar image, and every such URL is a source. */
  lemma SourcesUnion(d: Detections, u: string)
    ensures u in AggregateSpec(d, None, Failed("")).sources <==> u in d.matchingPages || u in d.similarImages
  {
  }

  /** A domain is the host of a source URL with a scheme, and every such host is a domain. */
  lemma DomainsFromSources(sources: set<string>, host: string)
    ensures host in Domains(sources) <==> exists u :: u in sources && Contains(u, "://") && Host(u) == host
  {
  }

  /** The risk summary falls back to {} when the metadata analysis failed. */
  lemma SummaryFallback(d: Detections, q: Option<string -> string>, e: string)
    ensures AggregateSpec(d, q, Failed(e)).piiRiskSummary == None
    ensures AggregateSpec(d, q, Failed(e)).vulnerabilities == Vulnerabilities(d, AiSummary(q, ExtractedText(d)), Failed(e))
    ensures PiiFindings(Failed(e)) == []
  {
  }
}
