/**
 * The privacy finding every analyser of ImageMetadataPIIAnalyzer produces.
 *
 * In the source a finding is a dictionary with the keys 'type', 'risk',
 * 'category', 'data', 'concern' and 'recommendation'. Only 'data' and, for
 * user content, part of 'concern' are computed; the other texts are fixed
 * by the finding's type. The model therefore keeps the type and the risk
 * as enumerations, the computed parts as values, and recovers every
 * dictionary text by a function of them.
 */
module Findings {
  import opened Text

  /** The finding's 'type'. */
  datatype Kind =
    | GpsCoordinates
    | GpsAltitude
    | GpsTimestamp
    | TimestampInformation
    | DeviceInformation
    | UserContent
    | NetworkInformation

  /** The finding's 'risk'; the analysers use no other label. */
  datatype Risk = Critical | High | Medium | Low

  /** The computed part of 'concern': fixed text, or the user-content sentence. */
  datatype Concern =
    | Standard
    /** f"{description} may contain personal information", plus ". Detected: ..." when patterns matched */
    | PersonalInformation(description: string, detected: seq<string>)

  datatype Finding = Finding(kind: Kind, risk: Risk, data: string, concern: Concern)

  function TypeName(k: Kind): string {
    match k
    case GpsCoordinates => "GPS Coordinates"
    case GpsAltitude => "GPS Altitude"
    case GpsTimestamp => "GPS Timestamp"
    case TimestampInformation => "Timestamp Information"
    case DeviceInformation => "Device Information"
    case UserContent => "User Content"
    case NetworkInformation => "Network Information"
  }

  function RiskLabel(r: Risk): string {
    match r
    case Critical => "CRITICAL"
    case High => "HIGH"
    case Medium => "MEDIUM"
    case Low => "LOW"
  }

  function CategoryName(k: Kind): string {
    match k
    case GpsCoordinates | GpsAltitude => "Location"
    case GpsTimestamp | TimestampInformation => "Temporal"
    case DeviceInformation => "Device"
    case UserContent => "Personal"
    case NetworkInformation => "Network"
  }

  function RecommendationText(k: Kind): string {
    match k
    case GpsCoordinates => "Remove GPS data before sharing"
    case GpsAltitude => "Consider removing altitude information"
    case GpsTimestamp => "Remove GPS timestamps"
    case TimestampInformation => "Strip timestamp data for privacy"
    case DeviceInformation => "Remove device-specific identifiers"
    case UserContent => "Review and remove personal information from metadata fields"
    case NetworkInformation => "Remove all network-related metadata"
  }

  function StandardConcern(k: Kind): string {
    match k
    case GpsCoordinates => "Exact location can reveal home, workplace, or personal places"
    case GpsAltitude => "Altitude data can help pinpoint exact location"
    case GpsTimestamp => "GPS timestamp reveals when you were at this location"
    case TimestampInformation => "Timestamps can establish patterns and reveal when/where photos were taken"
    case DeviceInformation => "Device info enables fingerprinting and tracking across images"
    // user-content findings carry their own concern (PersonalInformation)
    case UserContent => ""
    case NetworkInformation => "Network information can reveal home/work networks and enable tracking"
  }

  /** The concern is computed exactly for user-content findings. */
  predicate WellFormed(f: Finding) {
    f.concern.PersonalInformation? <==> f.kind == UserContent
  }

  function ConcernText(f: Finding): string {
    match f.concern
    case Standard => StandardConcern(f.kind)
    case PersonalInformation(description, detected) =>
      description + " may contain personal information"
      + (if detected == [] then "" else ". Detected: " + Join(", ", detected))
  }

  /**
   * A user-content concern starts with the field's description and the fixed
   * sentence, and goes on (with ". Detected: " and the names) exactly when
   * some pattern matched.
   */
  lemma PersonalConcernText(f: Finding)
    requires f.concern.PersonalInformation?
    ensures var c, sentence := ConcernText(f), f.concern.description + " may contain personal information";
      && IsPrefix(sentence, c)
      && (|c| == |sentence| <==> f.concern.detected == [])
      && (f.concern.detected != [] ==> c[|sentence|..] == ". Detected: " + Join(", ", f.concern.detected))
  {
    var sentence := f.concern.description + " may contain personal information";
    var c := ConcernText(f);
    assert c[..|sentence|] == sentence;
  }

  /** The list an analyser's loop builds by extending it with each element's findings, in order. */
  function Collect<X>(step: X -> seq<Finding>, xs: seq<X>): seq<Finding>
    decreases |xs|
  {
    if xs == [] then [] else Collect(step, xs[..|xs| - 1]) + step(xs[|xs| - 1])
  }

  /** Nothing is collected exactly when no element yields a finding. */
  lemma {:induction false} CollectEmpty<X>(step: X -> seq<Finding>, xs: seq<X>)
    ensures Collect(step, xs) == [] <==> forall k :: 0 <= k < |xs| ==> step(xs[k]) == []
    decreases |xs|
  {
    if xs != [] {
      var init := xs[..|xs| - 1];
      CollectEmpty(step, init);
      assert forall k :: 0 <= k < |init| ==> init[k] == xs[k];
    }
  }
}
