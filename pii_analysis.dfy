/**
 * analyze_comprehensive_pii: runs the five analysers over the extracted
 * metadata in a fixed order, scores the findings and reports them with a
 * summary of the metadata; any failure becomes an error result.
 *
 * Opening the image (extract_all_metadata, which needs PIL) is not modelled:
 * its result, the metadata dictionary or its error, is the input here, and
 * the clock reading for 'analysis_timestamp' is a parameter.
 */
module PiiAnalysis {
  import opened Wrappers
  import opened PyValue
  import opened Findings
  import opened MetadataFindings
  import opened RiskScore

  /** What extract_all_metadata returned. */
  datatype Metadata =
    | Extracted(exif: Entries, info: Option<Entries>, format: Value, size: Value, mode: Value)
    /** {'error': ...}, already worded "Failed to extract metadata: ..." */
    | ExtractionFailed(error: string)

  datatype Analysis =
    | Failed(error: string)
    | Report(
        timestamp: string,
        assessment: RiskAssessment,
        findings: seq<Finding>,
        format: Value,
        size: Value,
        mode: Value,
        totalMetadataFields: nat,
        exif: Entries)

  /** The analysers' findings in the order gps, temporal, device, user content, network. */
  function AllFindings(search: Search, exif: Entries, info: Entries): Result<seq<Finding>, string> {
    match GpsFindings(exif)
    case Failure(e) => Failure(e)
    case Success(gps) =>
      Success(gps + TemporalFindings(exif) + DeviceFindings(exif)
              + UserFindings(search, exif, info, TextFields) + NetworkFindings(exif, info))
  }

  /** The result once the analysers have run: their error, or the scored report. */
  function Finish(all: Result<seq<Finding>, string>, format: Value, size: Value, mode: Value,
                  total: nat, exif: Entries, now: string): Analysis {
    match all
    case Failure(e) => Failed("Analysis failed: " + e)
    case Success(fs) => Report(now, Assessment(fs), fs, format, size, mode, total, exif)
  }

  function ComprehensivePii(search: Search, metadata: Metadata, now: string): Analysis {
    match metadata
    case ExtractionFailed(e) => Failed(e)
    case Extracted(exif, info, format, size, mode) =>
      var additional := info.GetOr([]);
      Finish(AllFindings(search, exif, additional), format, size, mode, |exif| + |additional|, exif, now)
  }

  /** The five analysers in order; a GPS error stops the run. */
  method CollectFindings(search: Search, exif: Entries, additional: Entries) returns (r: Result<seq<Finding>, string>)
    ensures r == AllFindings(search, exif, additional)
  {
    var gps := AnalyzeGpsData(exif);
    if gps.Failure? {
      return Failure(gps.error);
    }
    var allFindings := gps.value;
    var temporal := AnalyzeTemporalData(exif);
    allFindings := allFindings + temporal;
    var device := AnalyzeDeviceInformation(exif);
    allFindings := allFindings + device;
    var user := AnalyzeUserContent(search, exif, additional);
    allFindings := allFindings + user;
    var network := AnalyzeNetworkInformation(exif, additional);
    allFindings := allFindings + network;
    return Success(allFindings);
  }

  method AnalyzeComprehensivePii(search: Search, metadata: Metadata, now: string) returns (result: Analysis)
    ensures result == ComprehensivePii(search, metadata, now)
  {
    match metadata
    case ExtractionFailed(e) =>
      return Failed(e);
    case Extracted(exif, info, format, size, mode) =>
      var additional := info.GetOr([]);
      var allFindings := CollectFindings(search, exif, additional);
      result := FinishReport(allFindings, format, size, mode, |exif| + |additional|, exif, now);
  }

  /** The error of the analysers, or the report with its risk assessment. */
  method FinishReport(all: Result<seq<Finding>, string>, format: Value, size: Value, mode: Value,
                      total: nat, exif: Entries, now: string) returns (result: Analysis)
    ensures result == Finish(all, format, size, mode, total, exif, now)
  {
    if all.Failure? {
      return Failed("Analysis failed: " + all.error);
    }
    var assessment := CalculateOverallRiskScore(all.value);
    return Report(now, assessment, all.value, format, size, mode, total, exif);
  }

  /** An extraction error is passed on unchanged. */
  lemma ExtractionErrorPassedOn(search: Search, e: string, now: string)
    ensures ComprehensivePii(search, ExtractionFailed(e), now) == Failed(e)
  {
  }

  /**
   * A GPS coordinate that is a three-entry dictionary makes the analysis fail
   * with the KeyError's text; no report is produced.
   */
  lemma GpsErrorFailsAnalysis(search: Search, metadata: Metadata, now: string)
    requires metadata.Extracted? && GpsFindings(metadata.exif).Failure?
    ensures ComprehensivePii(search, metadata, now) == Failed("Analysis failed: " + GpsFindings(metadata.exif).error)
  {
  }

  /**
   * A report lists the gps, temporal, device, user-content and network
   * findings in that order, scores exactly those, and counts the EXIF and
   * info fields.
   */
  lemma ReportShape(search: Search, metadata: Metadata, now: string)
    requires ComprehensivePii(search, metadata, now).Report?
    ensures metadata.Extracted? && GpsFindings(metadata.exif).Success?
    ensures
      var r := ComprehensivePii(search, metadata, now);
      var exif, info := metadata.exif, metadata.info.GetOr([]);
      && r.findings == GpsFindings(exif).value + TemporalFindings(exif) + DeviceFindings(exif)
                       + UserFindings(search, exif, info, TextFields) + NetworkFindings(exif, info)
      && r.assessment == Assessment(r.findings)
      && r.totalMetadataFields == |exif| + |info|
      && r.timestamp == now && r.exif == exif
  {
  }

  /** The score of a report is the sum of the scores of the five analysers' findings. */
  lemma ReportScore(search: Search, exif: Entries, info: Entries, gps: seq<Finding>)
    requires GpsFindings(exif) == Success(gps)
    ensures AllFindings(search, exif, info).Success?
    ensures Score(AllFindings(search, exif, info).value)
            == Score(gps) + Score(TemporalFindings(exif)) + Score(DeviceFindings(exif))
               + Score(UserFindings(search, exif, info, TextFields)) + Score(NetworkFindings(exif, info))
  {
    var t, d, u, n := TemporalFindings(exif), DeviceFindings(exif),
                      UserFindings(search, exif, info, TextFields), NetworkFindings(exif, info);
    ScoreAppend(gps, t);
    ScoreAppend(gps + t, d);
    ScoreAppend(gps + t + d, u);
    ScoreAppend(gps + t + d + u, n);
  }

  /** MINIMAL exactly when none of the five analysers found anything. */
  lemma MinimalReport(search: Search, exif: Entries, info: Entries, gps: seq<Finding>)
    requires GpsFindings(exif) == Success(gps)
    ensures AllFindings(search, exif, info).Success?
    ensures Assessment(AllFindings(search, exif, info).value).NoRisks? <==>
              gps == [] && TemporalFindings(exif) == [] && DeviceFindings(exif) == []
              && UserFindings(search, exif, info, TextFields) == [] && NetworkFindings(exif, info) == []
  {
    MinimalIffEmpty(AllFindings(search, exif, info).value);
  }
}
