/**
 * The rule-based analysers of ImageMetadataPIIAnalyzer: each turns the EXIF
 * dictionary (and, for user content and network data, the image info
 * dictionary) into an ordered list of privacy findings.
 *
 * Every analyser builds its list step by step, as the source does, in a
 * method; the function of the same name without the "Analyze" prefix is the
 * reference definition the method is proved to compute, and the lemmas state
 * what the findings mean.
 */
module MetadataFindings {
  import opened Wrappers
  import opened Text
  import opened PyValue
  import opened Findings

  // ------------------------------------------------------------------
  // GPS coordinates

  /** What convert_gps_to_decimal yields for one coordinate. */
  datatype Conversion =
    | Decimal(value: real)
    /** the function's own `return None`, also for the errors it catches */
    | NoValue
    /** an exception it does not catch: the KeyError of indexing a dictionary */
    | Raises(message: string)

  /**
   * len(v) for a dictionary, a list or a string. Every other value gives None: len
   * raises TypeError for numbers, None and booleans, and the length of bytes is not
   * modelled.
   */
  function Length(v: Value): Option<nat> {
    match v
    case Dict(es) => Some(|es|)
    case List(xs, _) => Some(|xs|)
    case Str(s) => Some(|s|)
    case _ => None
  }

  /** degrees + minutes / 60 + seconds / 3600, negated for the references 'S' and 'W'. */
  function Combine(d: Option<real>, m: Option<real>, s: Option<real>, ref: Value): Conversion {
    if d.None? || m.None? || s.None? then NoValue
    else
      var decimal := d.value + m.value / 60.0 + s.value / 3600.0;
      if ref == Str("S") || ref == Str("W") then Decimal(-decimal) else Decimal(decimal)
  }

  /**
   * convert_gps_to_decimal: a falsy coordinate or one whose length is not 3
   * gives None; the three components go through float(). Indexing a
   * three-entry dictionary with 0 raises KeyError(0), which the function does
   * not catch.
   */
  function ConvertGpsToDecimal(coord: Value, ref: Value): Conversion {
    if !Truthy(coord) || Length(coord) != Some(3) then NoValue
    else
      match coord
      case Dict(_) => Raises("0")
      case List(xs, _) => Combine(ToFloat(xs[0]), ToFloat(xs[1]), ToFloat(xs[2]), ref)
      case Str(s) => Combine(ToFloat(Str([s[0]])), ToFloat(Str([s[1]])), ToFloat(Str([s[2]])), ref)
  }

  /** A coordinate converts to a number only when it has exactly three components. */
  lemma ConversionNeedsThree(coord: Value, ref: Value)
    ensures ConvertGpsToDecimal(coord, ref).Decimal? ==> Length(coord) == Some(3) && !coord.Dict?
    ensures Length(coord) != Some(3) ==> ConvertGpsToDecimal(coord, ref) == NoValue
  {
  }

  /** The references 'S' and 'W' negate the value any other reference gives. */
  lemma ConversionSign(coord: Value, ref: Value)
    requires ref == Str("S") || ref == Str("W")
    ensures ConvertGpsToDecimal(coord, ref).Decimal? <==> ConvertGpsToDecimal(coord, Str("N")).Decimal?
    ensures ConvertGpsToDecimal(coord, ref).Decimal? ==>
              ConvertGpsToDecimal(coord, ref).value == -ConvertGpsToDecimal(coord, Str("N")).value
  {
  }

  /** s, padded on the left with c to at least n characters. */
  function PadLeft(s: string, n: nat, c: char): (r: string)
    ensures |r| == if |s| < n then n else |s|
    ensures r[|r| - |s|..] == s
    ensures forall i :: 0 <= i < |r| - |s| ==> r[i] == c
  {
    if |s| < n then seq(n - |s|, _ => c) + s else s
  }

  /** f"{x:.6f}": six decimals, rounded half up. */
  function Fixed6(x: real): string {
    var a := if x < 0.0 then -x else x;
    var scaled := (a * 1000000.0 + 0.5).Floor;
    assert scaled >= 0;
    (if x < 0.0 then "-" else "") + NatToString(scaled / 1000000) + "."
    + PadLeft(NatToString(scaled % 1000000), 6, '0')
  }

  function CoordinateFinding(lat: real, lon: real): Finding {
    Finding(GpsCoordinates, Critical, "Latitude: " + Fixed6(lat) + ", Longitude: " + Fixed6(lon), Standard)
  }

  function AltitudeFinding(altitude: Value): Finding {
    Finding(GpsAltitude, Medium, "Altitude: " + PyStr(altitude), Standard)
  }

  function GpsTimeFinding(stamp: Value): Finding {
    Finding(GpsTimestamp, High, PyStr(stamp), Standard)
  }

  function AltitudeFindings(gps: Entries): seq<Finding> {
    if HasKey(gps, "GPSAltitude") then [AltitudeFinding(Get(gps, "GPSAltitude").value)] else []
  }

  const GpsTimeFields: seq<string> := ["GPSTimeStamp", "GPSDateStamp"]

  /** A converted coordinate is truthy: present and not zero. */
  predicate TruthyDecimal(c: Conversion) {
    c.Decimal? && c.value != 0.0
  }

  function Latitude(gps: Entries): Conversion
    requires HasKey(gps, "GPSLatitude")
  {
    ConvertGpsToDecimal(Get(gps, "GPSLatitude").value, Get(gps, "GPSLatitudeRef").GetOr(Str("N")))
  }

  function Longitude(gps: Entries): Conversion
    requires HasKey(gps, "GPSLongitude")
  {
    ConvertGpsToDecimal(Get(gps, "GPSLongitude").value, Get(gps, "GPSLongitudeRef").GetOr(Str("E")))
  }

  /** `if lat and lon`: both coordinates present and converted to non-zero values. */
  predicate CoordinatesTruthy(gps: Entries) {
    && HasKey(gps, "GPSLatitude") && HasKey(gps, "GPSLongitude")
    && TruthyDecimal(Latitude(gps)) && TruthyDecimal(Longitude(gps))
  }

  /** The coordinate finding, or the KeyError that converting a coordinate raises. */
  function CoordinateFindings(gps: Entries): Result<seq<Finding>, string> {
    if HasKey(gps, "GPSLatitude") && HasKey(gps, "GPSLongitude") then
      var lat := Latitude(gps);
      if lat.Raises? then Failure(lat.message)
      else
        var lon := Longitude(gps);
        if lon.Raises? then Failure(lon.message)
        else if TruthyDecimal(lat) && TruthyDecimal(lon) then Success([CoordinateFinding(lat.value, lon.value)])
        else Success([])
    else Success([])
  }

  /** At most one coordinate finding, present exactly when both coordinates are truthy. */
  lemma CoordinateFindingsShape(gps: Entries)
    requires CoordinateFindings(gps).Success?
    ensures |CoordinateFindings(gps).value| <= 1
    ensures CoordinateFindings(gps).value != [] <==> CoordinatesTruthy(gps)
    ensures CoordinateFindings(gps).value != [] ==>
              CoordinateFindings(gps).value[0].kind == GpsCoordinates
              && CoordinateFindings(gps).value[0].risk == Critical
  {
  }

  function GpsTimeFindings(gps: Entries, fields: seq<string>): seq<Finding>
    decreases |fields|
  {
    if fields == [] then []
    else
      var field := fields[|fields| - 1];
      GpsTimeFindings(gps, fields[..|fields| - 1])
      + (if HasKey(gps, field) then [GpsTimeFinding(Get(gps, field).value)] else [])
  }

  /** The GPS dictionary, when exif has a GPSInfo entry that is a dict. */
  function GpsInfo(exif: Entries): Option<Entries> {
    var g := Get(exif, "GPSInfo");
    if g.Some? && g.value.Dict? then Some(g.value.entries) else None
  }

  /** analyze_gps_data as a value: the findings, or the exception that escapes it. */
  function GpsFindings(exif: Entries): Result<seq<Finding>, string> {
    match GpsInfo(exif)
    case None => Success([])
    case Some(gps) =>
      match CoordinateFindings(gps)
      case Failure(e) => Failure(e)
      case Success(coordinates) =>
        Success(coordinates + AltitudeFindings(gps) + GpsTimeFindings(gps, GpsTimeFields))
  }

  method AnalyzeGpsData(exif: Entries) returns (r: Result<seq<Finding>, string>)
    ensures r == GpsFindings(exif)
  {
    var g := Get(exif, "GPSInfo");
    if !(g.Some? && g.value.Dict?) {
      return Success([]);
    }
    var gps := g.value.entries;
    var coordinates := CoordinateFindings(gps);
    if coordinates.Failure? {
      return Failure(coordinates.error);
    }
    var findings := coordinates.value;
    if HasKey(gps, "GPSAltitude") {
      findings := findings + [AltitudeFinding(Get(gps, "GPSAltitude").value)];
    }
    assert findings == coordinates.value + AltitudeFindings(gps);
    findings := AppendGpsTimeFindings(gps, findings);
    return Success(findings);
  }

  /** The loop over GPSTimeStamp and GPSDateStamp: one finding per key present, appended in order. */
  method AppendGpsTimeFindings(gps: Entries, before: seq<Finding>) returns (findings: seq<Finding>)
    ensures findings == before + GpsTimeFindings(gps, GpsTimeFields)
  {
    findings := before;
    for i := 0 to |GpsTimeFields|
      invariant findings == before + GpsTimeFindings(gps, GpsTimeFields[..i])
    {
      var field := GpsTimeFields[i];
      if HasKey(gps, field) {
        findings := findings + [GpsTimeFinding(Get(gps, field).value)];
      }
      assert GpsTimeFields[..i + 1][..i] == GpsTimeFields[..i];
    }
    assert GpsTimeFields[..|GpsTimeFields|] == GpsTimeFields;
  }

  function CountPresent(gps: Entries, fields: seq<string>): nat
    decreases |fields|
  {
    if fields == [] then 0
    else CountPresent(gps, fields[..|fields| - 1]) + (if HasKey(gps, fields[|fields| - 1]) then 1 else 0)
  }

  lemma {:induction false} GpsTimeFindingsShape(gps: Entries, fields: seq<string>)
    ensures |GpsTimeFindings(gps, fields)| == CountPresent(gps, fields) <= |fields|
    ensures forall k :: 0 <= k < |GpsTimeFindings(gps, fields)| ==>
              GpsTimeFindings(gps, fields)[k].kind == GpsTimestamp && GpsTimeFindings(gps, fields)[k].risk == High
    decreases |fields|
  {
    if fields != [] {
      GpsTimeFindingsShape(gps, fields[..|fields| - 1]);
    }
  }

  /** No GPS dictionary, no GPS findings. */
  lemma GpsNeedsDict(exif: Entries)
    requires Get(exif, "GPSInfo").None? || !Get(exif, "GPSInfo").value.Dict?
    ensures GpsFindings(exif) == Success([])
  {
  }

  /**
   * At most four findings: one CRITICAL coordinate finding exactly when both
   * coordinates are present and convert to non-zero values, one MEDIUM
   * altitude finding, and one HIGH finding for each of GPSTimeStamp and
   * GPSDateStamp present.
   */
  lemma GpsFindingsShape(exif: Entries, gps: Entries, fs: seq<Finding>)
    requires GpsInfo(exif) == Some(gps) && GpsFindings(exif) == Success(fs)
    ensures |fs| == (if CoordinatesTruthy(gps) then 1 else 0)
                    + (if HasKey(gps, "GPSAltitude") then 1 else 0) + CountPresent(gps, GpsTimeFields)
    ensures |fs| <= 4
    ensures CoordinatesTruthy(gps) <==> exists k :: 0 <= k < |fs| && fs[k].kind == GpsCoordinates
    ensures CoordinatesTruthy(gps) ==> fs[0].risk == Critical
  {
    GpsParts(exif, gps);
    GpsTimeFindingsShape(gps, GpsTimeFields);
    CoordinateFindingsShape(gps);
    CoordinatesFirst(fs, CoordinateFindings(gps).value, AltitudeFindings(gps), GpsTimeFindings(gps, GpsTimeFields));
  }

  /** Only the first part of coordinates + altitude + times can hold a coordinate finding. */
  lemma CoordinatesFirst(fs: seq<Finding>, coordinates: seq<Finding>, altitude: seq<Finding>, times: seq<Finding>)
    requires fs == coordinates + altitude + times
    requires forall k :: 0 <= k < |altitude| ==> altitude[k].kind != GpsCoordinates
    requires forall k :: 0 <= k < |times| ==> times[k].kind != GpsCoordinates
    ensures (exists k :: 0 <= k < |fs| && fs[k].kind == GpsCoordinates)
            <==> exists k :: 0 <= k < |coordinates| && coordinates[k].kind == GpsCoordinates
    ensures coordinates != [] ==> fs[0] == coordinates[0]
  {
    forall k | |coordinates| <= k < |fs|
      ensures fs[k].kind != GpsCoordinates
    {
      if k < |coordinates| + |altitude| {
        assert fs[k] == altitude[k - |coordinates|];
      } else {
        assert fs[k] == times[k - |coordinates| - |altitude|];
      }
    }
    if k :| 0 <= k < |fs| && fs[k].kind == GpsCoordinates {
      assert k < |coordinates| && fs[k] == coordinates[k];
    }
    if k :| 0 <= k < |coordinates| && coordinates[k].kind == GpsCoordinates {
      assert fs[k] == coordinates[k];
    }
  }

  lemma GpsParts(exif: Entries, gps: Entries)
    requires GpsInfo(exif) == Some(gps) && GpsFindings(exif).Success?
    ensures CoordinateFindings(gps).Success?
    ensures GpsFindings(exif).value
            == CoordinateFindings(gps).value + AltitudeFindings(gps) + GpsTimeFindings(gps, GpsTimeFields)
  {
  }

  /** A latitude of exactly zero suppresses the coordinate finding, whatever the longitude. */
  lemma ZeroLatitudeHidesCoordinates(lon: real)
    ensures
      var zero := Num(0.0, "0.0");
      var gps := [("GPSLatitude", List([zero, zero, zero], true)),
                  ("GPSLongitude", List([Num(lon, "lon"), zero, zero], true))];
      GpsFindings([("GPSInfo", Dict(gps))]) == Success([])
  {
    var zero := Num(0.0, "0.0");
    var gps := [("GPSLatitude", List([zero, zero, zero], true)),
                ("GPSLongitude", List([Num(lon, "lon"), zero, zero], true))];
    assert Get(gps, "GPSLatitude") == Some(List([zero, zero, zero], true));
    assert Get(gps[1..], "GPSLatitudeRef") == None;
    assert Get(gps, "GPSLatitudeRef") == None;
    assert Latitude(gps) == Decimal(0.0);
    assert !CoordinatesTruthy(gps);
    assert Get(gps[1..], "GPSAltitude") == None;
    assert !HasKey(gps, "GPSAltitude");
    assert Get(gps[1..], "GPSTimeStamp") == None;
    assert Get(gps[1..], "GPSDateStamp") == None;
    assert GpsInfo([("GPSInfo", Dict(gps))]) == Some(gps);
    assert CoordinateFindings(gps) == Success([]);
    assert AltitudeFindings(gps) == [];
    assert GpsTimeFields[..1] == ["GPSTimeStamp"];
    assert GpsTimeFindings(gps, ["GPSTimeStamp"]) == [];
    assert GpsTimeFindings(gps, GpsTimeFields) == [];
  }

  // ------------------------------------------------------------------
  // Timestamps and device information: "description: str(value)" for each
  // field of a fixed list whose value is truthy, in the list's order.

  /** (description, str(value)) for each (field, description) whose field is truthy in exif. */
  function Labelled(exif: Entries, fields: seq<(string, string)>): seq<(string, string)>
    decreases |fields|
  {
    if fields == [] then []
    else
      var f := fields[|fields| - 1];
      Labelled(exif, fields[..|fields| - 1])
      + (if TruthyAt(exif, f.0) then [(f.1, PyStr(Get(exif, f.0).value))] else [])
  }

  /** "; ".join(f"{k}: {v}" for k, v in pairs) */
  function LabelledText(pairs: seq<(string, string)>): string {
    Join("; ", seq(|pairs|, i requires 0 <= i < |pairs| => pairs[i].0 + ": " + pairs[i].1))
  }

  /** Labelled is empty exactly when no field is truthy. */
  lemma {:induction false} LabelledEmpty(exif: Entries, fields: seq<(string, string)>)
    ensures Labelled(exif, fields) == [] <==> forall k :: 0 <= k < |fields| ==> !TruthyAt(exif, fields[k].0)
    decreases |fields|
  {
    if fields != [] {
      var init := fields[..|fields| - 1];
      LabelledEmpty(exif, init);
      assert forall k :: 0 <= k < |init| ==> init[k] == fields[k];
    }
  }

  /** Every pair of `pairs` carries the description of a field truthy in exif. */
  predicate FromTruthyFields(exif: Entries, fields: seq<(string, string)>, pairs: seq<(string, string)>) {
    forall j :: 0 <= j < |pairs| ==> FromTruthyField(exif, fields, pairs[j])
  }

  /** `pair` carries the description of a field truthy in exif. */
  predicate FromTruthyField(exif: Entries, fields: seq<(string, string)>, pair: (string, string)) {
    exists k :: 0 <= k < |fields| && TruthyAt(exif, fields[k].0) && pair.0 == fields[k].1
  }

  /** The description of every field truthy in exif appears in `pairs`. */
  predicate CoversTruthyFields(exif: Entries, fields: seq<(string, string)>, pairs: seq<(string, string)>) {
    forall k :: 0 <= k < |fields| && TruthyAt(exif, fields[k].0) ==>
      exists j :: 0 <= j < |pairs| && pairs[j].0 == fields[k].1
  }

  /** Every pair Labelled yields carries the description of a truthy field. */
  lemma LabelledSound(exif: Entries, fields: seq<(string, string)>)
    ensures FromTruthyFields(exif, fields, Labelled(exif, fields))
  {
    var r := Labelled(exif, fields);
    forall j | 0 <= j < |r|
      ensures FromTruthyField(exif, fields, r[j])
    {
      var k := LabelledSource(exif, fields, j);
    }
  }

  /** The index of the field that pair j of Labelled comes from. */
  lemma {:induction false} LabelledSource(exif: Entries, fields: seq<(string, string)>, j: nat) returns (k: nat)
    requires j < |Labelled(exif, fields)|
    ensures k < |fields| && TruthyAt(exif, fields[k].0) && Labelled(exif, fields)[j].0 == fields[k].1
    decreases |fields|
  {
    var init, last := fields[..|fields| - 1], fields[|fields| - 1];
    var prev, r := Labelled(exif, init), Labelled(exif, fields);
    assert r == prev + (if TruthyAt(exif, last.0) then [(last.1, PyStr(Get(exif, last.0).value))] else []);
    if j < |prev| {
      k := LabelledSource(exif, init, j);
      assert r[j] == prev[j] && fields[k] == init[k];
    } else {
      k := |fields| - 1;
    }
  }

  /** Every truthy field's description appears among the pairs Labelled yields. */
  lemma {:induction false} LabelledComplete(exif: Entries, fields: seq<(string, string)>)
    ensures CoversTruthyFields(exif, fields, Labelled(exif, fields))
    decreases |fields|
  {
    if fields != [] {
      var init, last := fields[..|fields| - 1], fields[|fields| - 1];
      LabelledComplete(exif, init);
      var prev, r := Labelled(exif, init), Labelled(exif, fields);
      assert r == prev + (if TruthyAt(exif, last.0) then [(last.1, PyStr(Get(exif, last.0).value))] else []);
      forall k | 0 <= k < |fields| && TruthyAt(exif, fields[k].0)
        ensures exists j :: 0 <= j < |Labelled(exif, fields)| && Labelled(exif, fields)[j].0 == fields[k].1
      {
        if k == |fields| - 1 {
          assert fields[k] == last && r[|prev|].0 == last.1;
        } else {
          assert fields[k] == init[k];
          var j :| 0 <= j < |prev| && prev[j].0 == init[k].1;
          assert r[j] == prev[j];
        }
      }
    }
  }

  const TimestampFields: seq<(string, string)> := [
    ("DateTime", "Image modification time"),
    ("DateTimeOriginal", "Original photo capture time"),
    ("DateTimeDigitized", "Digital processing time"),
    ("CreateDate", "Creation timestamp"),
    ("ModifyDate", "Last modification time")
  ]

  function TemporalFinding(found: seq<(string, string)>): Finding {
    Finding(TimestampInformation, Medium, LabelledText(found), Standard)
  }

  function TemporalFindings(exif: Entries): seq<Finding> {
    var found := Labelled(exif, TimestampFields);
    if found == [] then [] else [TemporalFinding(found)]
  }

  method AnalyzeTemporalData(exif: Entries) returns (findings: seq<Finding>)
    ensures findings == TemporalFindings(exif)
  {
    findings := [];
    var found: seq<(string, string)> := [];
    for i := 0 to |TimestampFields|
      invariant found == Labelled(exif, TimestampFields[..i])
    {
      var (field, description) := TimestampFields[i];
      if HasKey(exif, field) && Truthy(Get(exif, field).value) {
        found := found + [(description, PyStr(Get(exif, field).value))];
      }
      assert TimestampFields[..i + 1][..i] == TimestampFields[..i];
    }
    assert TimestampFields[..|TimestampFields|] == TimestampFields;
    if found != [] {
      findings := findings + [TemporalFinding(found)];
    }
  }

  /**
   * At most one MEDIUM finding, present exactly when one of the five
   * timestamp fields is truthy; its data lists the truthy ones in field order.
   */
  lemma TemporalShape(exif: Entries)
    ensures |TemporalFindings(exif)| <= 1
    ensures |TemporalFindings(exif)| == 1 <==>
              exists k :: 0 <= k < |TimestampFields| && TruthyAt(exif, TimestampFields[k].0)
    ensures |TemporalFindings(exif)| == 1 ==>
              TemporalFindings(exif)[0].risk == Medium
              && TemporalFindings(exif)[0].data == LabelledText(Labelled(exif, TimestampFields))
  {
    LabelledEmpty(exif, TimestampFields);
  }

  const DeviceFields: seq<(string, string)> := [
    ("Make", "Camera manufacturer"),
    ("Model", "Camera model"),
    ("Software", "Processing software"),
    ("LensModel", "Lens information"),
    ("CameraSerialNumber", "Camera serial number"),
    ("LensSerialNumber", "Lens serial number"),
    ("HostComputer", "Processing computer name")
  ]

  /** 'serial' in k.lower() or 'computer' in k.lower() */
  predicate IdentifyingLabel(k: string) {
    Contains(Lower(k), "serial") || Contains(Lower(k), "computer")
  }

  predicate AnyIdentifying(info: seq<(string, string)>) {
    exists i :: 0 <= i < |info| && IdentifyingLabel(info[i].0)
  }

  function DeviceFinding(info: seq<(string, string)>): Finding {
    Finding(DeviceInformation, if AnyIdentifying(info) then High else Low, LabelledText(info), Standard)
  }

  function DeviceFindings(exif: Entries): seq<Finding> {
    var info := Labelled(exif, DeviceFields);
    if info == [] then [] else [DeviceFinding(info)]
  }

  method AnalyzeDeviceInformation(exif: Entries) returns (findings: seq<Finding>)
    ensures findings == DeviceFindings(exif)
  {
    findings := [];
    var deviceInfo: seq<(string, string)> := [];
    for i := 0 to |DeviceFields|
      invariant deviceInfo == Labelled(exif, DeviceFields[..i])
    {
      var (field, description) := DeviceFields[i];
      if HasKey(exif, field) && Truthy(Get(exif, field).value) {
        deviceInfo := deviceInfo + [(description, PyStr(Get(exif, field).value))];
      }
      assert DeviceFields[..i + 1][..i] == DeviceFields[..i];
    }
    assert DeviceFields[..|DeviceFields|] == DeviceFields;
    if deviceInfo != [] {
      var identifying := false;
      for j := 0 to |deviceInfo|
        invariant identifying <==> exists i :: 0 <= i < j && IdentifyingLabel(deviceInfo[i].0)
      {
        if IdentifyingLabel(deviceInfo[j].0) {
          identifying := true;
        }
      }
      var finding := Finding(DeviceInformation, if identifying then High else Low, LabelledText(deviceInfo), Standard);
      assert finding == DeviceFinding(deviceInfo);
      findings := findings + [finding];
    }
  }

  /** "serial" or "computer" found at index i makes `desc` identifying. */
  lemma IdentifyingAt(desc: string, sub: string, i: nat)
    requires sub == "serial" || sub == "computer"
    requires OccursAt(Lower(desc), sub, i)
    ensures IdentifyingLabel(desc)
  {
    ContainsIff(Lower(desc), sub);
  }

  /** `desc` is not identifying when no adjacent pair of its lower-cased form is "se" or "co". */
  lemma NotIdentifying(desc: string)
    requires forall i | 0 <= i < |desc| - 1 :: !(Lower(desc)[i] == 's' && Lower(desc)[i + 1] == 'e')
    requires forall i | 0 <= i < |desc| - 1 :: !(Lower(desc)[i] == 'c' && Lower(desc)[i + 1] == 'o')
    ensures !IdentifyingLabel(desc)
  {
    NotContainsByPair(Lower(desc), "serial");
    NotContainsByPair(Lower(desc), "computer");
  }

  lemma CameraSerialIdentifies()
    ensures IdentifyingLabel("Camera serial number")
  {
    var l := Lower("Camera serial number");
    assert l[7..13] == "serial";
    IdentifyingAt("Camera serial number", "serial", 7);
  }

  lemma LensSerialIdentifies()
    ensures IdentifyingLabel("Lens serial number")
  {
    var l := Lower("Lens serial number");
    assert l[5..11] == "serial";
    IdentifyingAt("Lens serial number", "serial", 5);
  }

  lemma HostComputerIdentifies()
    ensures IdentifyingLabel("Processing computer name")
  {
    var l := Lower("Processing computer name");
    assert l[11..19] == "computer";
    IdentifyingAt("Processing computer name", "computer", 11);
  }

  /** "Camera manufacturer" names neither a serial number nor a host computer. */
  lemma ManufacturerDoesNotIdentify()
    ensures !IdentifyingLabel("Camera manufacturer")
  {
    NotIdentifying("Camera manufacturer");
  }

  /** "Camera model" names neither a serial number nor a host computer. */
  lemma ModelDoesNotIdentify()
    ensures !IdentifyingLabel("Camera model")
  {
    NotIdentifying("Camera model");
  }

  /** "Processing software" names neither a serial number nor a host computer. */
  lemma SoftwareDoesNotIdentify()
    ensures !IdentifyingLabel("Processing software")
  {
    NotIdentifying("Processing software");
  }

  /** "Lens information" names neither a serial number nor a host computer. */
  lemma LensDoesNotIdentify()
    ensures !IdentifyingLabel("Lens information")
  {
    NotIdentifying("Lens information");
  }

  /** Of the seven descriptions, exactly the two serial numbers and the host computer are identifying. */
  lemma IdentifyingDescription(k: nat)
    requires k < |DeviceFields|
    ensures IdentifyingLabel(DeviceFields[k].1) <==> k >= 4
  {
    var desc := DeviceFields[k].1;
    if k == 0 {
      assert desc == "Camera manufacturer";
      ManufacturerDoesNotIdentify();
    } else if k == 1 {
      assert desc == "Camera model";
      ModelDoesNotIdentify();
    } else if k == 2 {
      assert desc == "Processing software";
      SoftwareDoesNotIdentify();
    } else if k == 3 {
      assert desc == "Lens information";
      LensDoesNotIdentify();
    } else if k == 4 {
      assert desc == "Camera serial number";
      CameraSerialIdentifies();
    } else if k == 5 {
      assert desc == "Lens serial number";
      LensSerialIdentifies();
    } else {
      assert desc == "Processing computer name";
      HostComputerIdentifies();
    }
  }

  /**
   * At most one finding, present exactly when a device field is truthy; it is
   * HIGH exactly when a serial number or the host computer is among them.
   */
  lemma DeviceShape(exif: Entries)
    ensures |DeviceFindings(exif)| <= 1
    ensures |DeviceFindings(exif)| == 1 <==>
              exists k :: 0 <= k < |DeviceFields| && TruthyAt(exif, DeviceFields[k].0)
    ensures |DeviceFindings(exif)| == 1 ==>
              (DeviceFindings(exif)[0].risk == High <==> SerialOrHostPresent(exif))
    ensures |DeviceFindings(exif)| == 1 ==>
              (DeviceFindings(exif)[0].risk == Low <==> !SerialOrHostPresent(exif))
  {
    LabelledEmpty(exif, DeviceFields);
    var info := Labelled(exif, DeviceFields);
    if info != [] {
      DeviceRisk(exif, info);
    }
  }

  predicate SerialOrHostPresent(exif: Entries) {
    TruthyAt(exif, "CameraSerialNumber") || TruthyAt(exif, "LensSerialNumber") || TruthyAt(exif, "HostComputer")
  }

  lemma DeviceRisk(exif: Entries, info: seq<(string, string)>)
    requires info == Labelled(exif, DeviceFields)
    ensures AnyIdentifying(info) <==> SerialOrHostPresent(exif)
  {
    if AnyIdentifying(info) {
      IdentifyingMeansSerialOrHost(exif, info);
    }
    if SerialOrHostPresent(exif) {
      SerialOrHostIsIdentifying(exif, info);
    }
  }

  lemma IdentifyingMeansSerialOrHost(exif: Entries, info: seq<(string, string)>)
    requires info == Labelled(exif, DeviceFields) && AnyIdentifying(info)
    ensures SerialOrHostPresent(exif)
  {
    LabelledSound(exif, DeviceFields);
    var i :| 0 <= i < |info| && IdentifyingLabel(info[i].0);
    var k :| 0 <= k < |DeviceFields| && TruthyAt(exif, DeviceFields[k].0) && info[i].0 == DeviceFields[k].1;
    IdentifyingDescription(k);
    SerialOrHostKey(exif, k);
  }

  /** The last three device fields are the serial numbers and the host computer. */
  lemma SerialOrHostKey(exif: Entries, k: nat)
    requires 4 <= k < |DeviceFields| && TruthyAt(exif, DeviceFields[k].0)
    ensures SerialOrHostPresent(exif)
  {
    var key := DeviceFields[k].0;
    if k == 4 {
      assert key == "CameraSerialNumber";
    } else if k == 5 {
      assert key == "LensSerialNumber";
    } else {
      assert key == "HostComputer";
    }
  }

  lemma SerialOrHostIsIdentifying(exif: Entries, info: seq<(string, string)>)
    requires info == Labelled(exif, DeviceFields) && SerialOrHostPresent(exif)
    ensures AnyIdentifying(info)
  {
    LabelledComplete(exif, DeviceFields);
    var k := if TruthyAt(exif, "CameraSerialNumber") then 4 else if TruthyAt(exif, "LensSerialNumber") then 5 else 6;
    assert TruthyAt(exif, DeviceFields[k].0);
    var j :| 0 <= j < |info| && info[j].0 == DeviceFields[k].1;
    IdentifyingDescription(k);
  }

  // ------------------------------------------------------------------
  // Personal patterns: which of the five regular expressions occur in a text

  datatype Pattern = Email | Phone | SocialSecurity | CreditCard | Address

  /** personal_patterns, in its insertion order. */
  const Patterns: seq<Pattern> := [Email, Phone, SocialSecurity, CreditCard, Address]

  function PatternName(p: Pattern): string {
    match p
    case Email => "email"
    case Phone => "phone"
    case SocialSecurity => "social_security"
    case CreditCard => "credit_card"
    case Address => "address"
  }

  lemma PatternNamesDistinct(p: Pattern, q: Pattern)
    ensures PatternName(p) == PatternName(q) ==> p == q
  {
    if PatternName(p) == PatternName(q) {
      assert PatternName(p)[0] == PatternName(q)[0];
    }
  }

  /**
   * `re.search(pattern, text, re.IGNORECASE)` is supplied as an oracle: the
   * five regular expressions themselves are not modelled.
   */
  type Search = (Pattern, string) -> bool

  /** The names of the patterns of `ps` that occur in `text`, in the order of `ps`. */
  function MatchedNames(search: Search, text: string, ps: seq<Pattern>): seq<string>
    decreases |ps|
  {
    if ps == [] then []
    else
      var p := ps[|ps| - 1];
      MatchedNames(search, text, ps[..|ps| - 1]) + (if search(p, text) then [PatternName(p)] else [])
  }

  method DetectPersonalPatterns(search: Search, text: string) returns (matches: seq<string>)
    ensures matches == MatchedNames(search, text, Patterns)
  {
    matches := [];
    for i := 0 to |Patterns|
      invariant matches == MatchedNames(search, text, Patterns[..i])
    {
      var p := Patterns[i];
      if search(p, text) {
        matches := matches + [PatternName(p)];
      }
      assert Patterns[..i + 1][..i] == Patterns[..i];
    }
    assert Patterns[..|Patterns|] == Patterns;
  }

  /** A pattern's name is reported exactly when the pattern is listed and occurs in the text. */
  lemma {:induction false} MatchedNamesIff(search: Search, text: string, ps: seq<Pattern>, p: Pattern)
    ensures PatternName(p) in MatchedNames(search, text, ps) <==> p in ps && search(p, text)
    decreases |ps|
  {
    if ps != [] {
      var init, last := ps[..|ps| - 1], ps[|ps| - 1];
      MatchedNamesIff(search, text, init, p);
      assert ps == init + [last];
      PatternNamesDistinct(p, last);
    }
  }

  /** No pattern occurs, no name reported, and conversely. */
  lemma MatchedNamesEmpty(search: Search, text: string)
    ensures MatchedNames(search, text, Patterns) == [] <==> forall p: Pattern :: !search(p, text)
  {
    var m := MatchedNames(search, text, Patterns);
    if m != [] {
      MatchedNamesRange(search, text, Patterns);
      assert m[0] in m;
      var p :| p in Patterns && m[0] == PatternName(p);
      MatchedNamesIff(search, text, Patterns, p);
    } else {
      forall p: Pattern
        ensures !search(p, text)
      {
        MatchedNamesIff(search, text, Patterns, p);
        assert p in Patterns;
      }
    }
  }

  /** Every reported name is the name of a listed pattern. */
  lemma {:induction false} MatchedNamesRange(search: Search, text: string, ps: seq<Pattern>)
    ensures forall n :: n in MatchedNames(search, text, ps) ==> exists p :: p in ps && n == PatternName(p)
    decreases |ps|
  {
    if ps != [] {
      var init := ps[..|ps| - 1];
      MatchedNamesRange(search, text, init);
      assert forall p :: p in init ==> p in ps;
    }
  }

  // ------------------------------------------------------------------
  // User content

  const TextFields: seq<(string, string)> := [
    ("UserComment", "User comments"),
    ("ImageDescription", "Image description"),
    ("Artist", "Artist/Creator name"),
    ("Copyright", "Copyright information"),
    ("XPComment", "Windows comment"),
    ("XPAuthor", "Windows author"),
    ("XPKeywords", "Windows keywords"),
    ("XPSubject", "Windows subject"),
    ("Keywords", "Image keywords"),
    ("Subject", "Image subject"),
    ("Creator", "Creator information"),
    ("Rights", "Rights information"),
    ("CameraOwnerName", "Camera owner name")
  ]

  /**
   * str() of the field's EXIF value when that value is truthy, otherwise of its
   * value in the image info when that is truthy, otherwise nothing.
   */
  function FieldContent(exif: Entries, info: Entries, field: string): (r: Option<string>)
    ensures r.None? <==> !TruthyAt(exif, field) && !TruthyAt(info, field)
    ensures TruthyAt(exif, field) ==> r == Some(PyStr(Get(exif, field).value))
    ensures !TruthyAt(exif, field) && TruthyAt(info, field) ==> r == Some(PyStr(Get(info, field).value))
  {
    if TruthyAt(exif, field) then Some(PyStr(Get(exif, field).value))
    else if TruthyAt(info, field) then Some(PyStr(Get(info, field).value))
    else None
  }

  /** any(sensitive in field.lower() for sensitive in ['owner', 'creator', 'artist', 'author']) */
  predicate SensitiveField(field: string) {
    var l := Lower(field);
    Contains(l, "owner") || Contains(l, "creator") || Contains(l, "artist") || Contains(l, "author")
  }

  /** Artist, XPAuthor, Creator and CameraOwnerName are the sensitive text fields. */
  lemma SensitiveTextFields()
    ensures SensitiveField("Artist") && SensitiveField("XPAuthor")
    ensures SensitiveField("Creator") && SensitiveField("CameraOwnerName")
  {
    var artist, author, creator, owner := Lower("Artist"), Lower("XPAuthor"), Lower("Creator"), Lower("CameraOwnerName");
    assert artist[0..6] == "artist";
    ContainsIff(artist, "artist");
    assert OccursAt(artist, "artist", 0);
    assert author[2..8] == "author";
    ContainsIff(author, "author");
    assert OccursAt(author, "author", 2);
    assert creator[0..7] == "creator";
    ContainsIff(creator, "creator");
    assert OccursAt(creator, "creator", 0);
    assert owner[6..11] == "owner";
    ContainsIff(owner, "owner");
    assert OccursAt(owner, "owner", 6);
  }

  /** content[:100] + "..." when content is longer than 100 characters. */
  function Truncate100(content: string): (r: string)
    ensures |r| <= 103
    ensures |content| <= 100 ==> r == content
    ensures |content| > 100 ==> |r| == 103 && r[..100] == content[..100] && r[100..] == "..."
  {
    if |content| > 100 then content[..100] + "..." else content
  }

  function UserFinding(search: Search, field: string, description: string, content: string): Finding {
    var matches := MatchedNames(search, content, Patterns);
    Finding(UserContent, if matches != [] || SensitiveField(field) then High else Medium,
      description + ": " + Truncate100(content), PersonalInformation(description, matches))
  }

  /** `if content and content.strip()` */
  predicate Blank(content: Option<string>) {
    content.None? || StripSpace(content.value) == ""
  }

  /** The finding for one (field, description) pair: none when its content is blank. */
  function UserStep(search: Search, exif: Entries, info: Entries, f: (string, string)): (r: seq<Finding>)
    ensures r == [] <==> Blank(FieldContent(exif, info, f.0))
    ensures |r| <= 1 && forall j :: 0 <= j < |r| ==> r[j].kind == UserContent
  {
    var content := FieldContent(exif, info, f.0);
    if Blank(content) then [] else [UserFinding(search, f.0, f.1, content.value)]
  }

  function UserFindings(search: Search, exif: Entries, info: Entries, fields: seq<(string, string)>): seq<Finding> {
    Collect(f => UserStep(search, exif, info, f), fields)
  }

  /** One pass of the loop over the text fields. */
  method UserContentStep(search: Search, exif: Entries, info: Entries, field: string, description: string)
    returns (r: seq<Finding>)
    ensures r == UserStep(search, exif, info, (field, description))
  {
    r := [];
    var content := FieldContent(exif, info, field);
    if content.Some? && content.value != "" && StripSpace(content.value) != "" {
      var matches := DetectPersonalPatterns(search, content.value);
      var risk := if matches != [] || SensitiveField(field) then High else Medium;
      var concern := PersonalInformation(description, matches);
      r := [Finding(UserContent, risk, description + ": " + Truncate100(content.value), concern)];
    }
  }

  method AnalyzeUserContent(search: Search, exif: Entries, info: Entries) returns (findings: seq<Finding>)
    ensures findings == UserFindings(search, exif, info, TextFields)
  {
    findings := CollectUserContent(search, exif, info, TextFields);
  }

  /** The loop of analyze_user_content over the (field, description) pairs. */
  method CollectUserContent(search: Search, exif: Entries, info: Entries, fields: seq<(string, string)>)
    returns (findings: seq<Finding>)
    ensures findings == UserFindings(search, exif, info, fields)
  {
    findings := [];
    for i := 0 to |fields|
      invariant findings == UserFindings(search, exif, info, fields[..i])
    {
      var (field, description) := fields[i];
      var step := UserContentStep(search, exif, info, field, description);
      assert fields[..i + 1][..i] == fields[..i];
      findings := findings + step;
    }
    assert fields[..|fields|] == fields;
  }

  /**
   * A user-content finding is HIGH exactly when one of the five patterns
   * occurs in the content or the field name is owner-, creator-, artist- or
   * author-like; otherwise MEDIUM.
   */
  lemma UserFindingRisk(search: Search, field: string, description: string, content: string)
    ensures UserFinding(search, field, description, content).risk == High <==>
              (exists p: Pattern :: search(p, content)) || SensitiveField(field)
    ensures UserFinding(search, field, description, content).risk != High ==>
              UserFinding(search, field, description, content).risk == Medium
  {
    MatchedNamesEmpty(search, content);
  }

  /** No finding exactly when every field's content is blank. */
  lemma UserFindingsEmpty(search: Search, exif: Entries, info: Entries, fields: seq<(string, string)>)
    ensures UserFindings(search, exif, info, fields) == [] <==>
              forall k :: 0 <= k < |fields| ==> Blank(FieldContent(exif, info, fields[k].0))
  {
    CollectEmpty(f => UserStep(search, exif, info, f), fields);
  }

  /** At most one finding per field, each about user content. */
  lemma {:induction false} UserFindingsKinds(search: Search, exif: Entries, info: Entries, fields: seq<(string, string)>)
    ensures |UserFindings(search, exif, info, fields)| <= |fields|
    ensures forall j :: 0 <= j < |UserFindings(search, exif, info, fields)| ==>
              UserFindings(search, exif, info, fields)[j].kind == UserContent
    decreases |fields|
  {
    if fields != [] {
      var init := fields[..|fields| - 1];
      UserFindingsKinds(search, exif, info, init);
    }
  }

  /** An image-info value is used only when the EXIF value of the same field is missing or falsy. */
  lemma ExifContentWins(exif: Entries, info: Entries, field: string)
    requires TruthyAt(exif, field) && TruthyAt(info, field)
    ensures FieldContent(exif, info, field) == Some(PyStr(Get(exif, field).value))
  {
  }

  // ------------------------------------------------------------------
  // Network information

  /** f"{prefix}.{key}" if prefix else key */
  function ChildPath(prefix: string, key: string): (r: string)
    ensures IsPrefix(prefix, r)
  {
    if prefix == "" then key else prefix + "." + key
  }

  /** A key's path is the key itself at the top, else the prefix, a dot and the key. */
  lemma ChildPathShape(prefix: string, key: string)
    ensures prefix == [] ==> ChildPath(prefix, key) == key
    ensures prefix != [] ==> var r := ChildPath(prefix, key);
      |r| == |prefix| + 1 + |key| && r[|prefix|] == '.' && r[|prefix| + 1..] == key
  {
  }

  /** f"{prefix}[{i}]" */
  function IndexPath(prefix: string, i: nat): (r: string)
    ensures IsPrefix(prefix, r)
  {
    prefix + "[" + NatToString(i) + "]"
  }

  /** An item's path is the prefix, then the index in decimal between brackets. */
  lemma IndexPathShape(prefix: string, i: nat)
    ensures var r := IndexPath(prefix, i);
      |r| == |prefix| + |NatToString(i)| + 2
      && r[|prefix|] == '[' && r[|r| - 1] == ']' && r[|prefix| + 1..|r| - 1] == NatToString(i)
  {
  }

  /** The string leaves of a metadata tree, in order, without their paths. */
  function Leaves(v: Value): seq<string>
    decreases v, 2
  {
    match v
    case Dict(_) => EntryLeaves(v, 0)
    case List(_, _) => ItemLeaves(v, 0)
    case Str(s) => [s]
    case _ => []
  }

  function EntryLeaves(d: Value, i: nat): seq<string>
    requires d.Dict? && i <= |d.entries|
    decreases d, 1, |d.entries| - i
  {
    if i == |d.entries| then [] else Leaves(d.entries[i].1) + EntryLeaves(d, i + 1)
  }

  function ItemLeaves(l: Value, i: nat): seq<string>
    requires l.List? && i <= |l.items|
    decreases l, 1, |l.items| - i
  {
    if i == |l.items| then [] else Leaves(l.items[i]) + ItemLeaves(l, i + 1)
  }

  function Texts(pairs: seq<(string, string)>): (r: seq<string>)
    ensures |r| == |pairs| && forall j :: 0 <= j < |r| ==> r[j] == pairs[j].1
  {
    seq(|pairs|, j requires 0 <= j < |pairs| => pairs[j].1)
  }

  /** Every path lies under `prefix`. */
  predicate UnderPrefix(prefix: string, pairs: seq<(string, string)>) {
    forall j :: 0 <= j < |pairs| ==> IsPrefix(prefix, pairs[j].0)
  }

  /**
   * extract_strings: every string of the tree with its dotted / indexed path;
   * the strings are exactly the tree's leaves, and every path extends the prefix.
   */
  function ExtractStrings(v: Value, prefix: string): (r: seq<(string, string)>)
    ensures Texts(r) == Leaves(v)
    ensures UnderPrefix(prefix, r)
    decreases v, 2
  {
    match v
    case Dict(_) => ExtractEntries(v, prefix, 0)
    case List(_, _) => ExtractItems(v, prefix, 0)
    case Str(s) => [(prefix, s)]
    case _ => []
  }

  function ExtractEntries(d: Value, prefix: string, i: nat): (r: seq<(string, string)>)
    requires d.Dict? && i <= |d.entries|
    ensures Texts(r) == EntryLeaves(d, i)
    ensures UnderPrefix(prefix, r)
    decreases d, 1, |d.entries| - i
  {
    if i == |d.entries| then []
    else
      var (key, value) := d.entries[i];
      var here, rest := ExtractStrings(value, ChildPath(prefix, key)), ExtractEntries(d, prefix, i + 1);
      assert Texts(here + rest) == Texts(here) + Texts(rest);
      here + rest
  }

  function ExtractItems(l: Value, prefix: string, i: nat): (r: seq<(string, string)>)
    requires l.List? && i <= |l.items|
    ensures Texts(r) == ItemLeaves(l, i)
    ensures UnderPrefix(prefix, r)
    decreases l, 1, |l.items| - i
  {
    if i == |l.items| then []
    else
      var here, rest := ExtractStrings(l.items[i], IndexPath(prefix, i)), ExtractItems(l, prefix, i + 1);
      assert Texts(here + rest) == Texts(here) + Texts(rest);
      here + rest
  }

  /**
   * Following entry and item indices down from v: the value reached and the
   * path extract_strings gives it, or None when an index does not exist.
   */
  function Route(v: Value, prefix: string, route: seq<nat>): Option<(string, Value)>
    decreases |route|
  {
    if route == [] then Some((prefix, v))
    else
      var i := route[0];
      match v
      case Dict(es) => if i < |es| then Route(es[i].1, ChildPath(prefix, es[i].0), route[1..]) else None
      case List(items, _) => if i < |items| then Route(items[i], IndexPath(prefix, i), route[1..]) else None
      case _ => None
  }

  /** A pair is extracted exactly when some route leads to that string under that path. */
  lemma ExtractPaths(v: Value, prefix: string, path: string, s: string)
    ensures (path, s) in ExtractStrings(v, prefix) <==> exists route :: Route(v, prefix, route) == Some((path, Str(s)))
  {
    var r := ExtractStrings(v, prefix);
    if (path, s) in r {
      var j :| 0 <= j < |r| && r[j] == (path, s);
      var route := ExtractSource(v, prefix, j);
    }
    if exists route :: Route(v, prefix, route) == Some((path, Str(s))) {
      var route :| Route(v, prefix, route) == Some((path, Str(s)));
      var j := ExtractReaches(v, prefix, route, path, s);
    }
  }

  /** Every string a route reaches is extracted, under the route's path, at the index returned. */
  lemma {:induction false} ExtractReaches(v: Value, prefix: string, route: seq<nat>, path: string, s: string)
    returns (j: nat)
    requires Route(v, prefix, route) == Some((path, Str(s)))
    ensures j < |ExtractStrings(v, prefix)| && ExtractStrings(v, prefix)[j] == (path, s)
    decreases |route|
  {
    if route == [] {
      assert v == Str(s) && path == prefix;
      j := 0;
    } else if v.Dict? {
      var i := route[0];
      var k := ExtractReaches(v.entries[i].1, ChildPath(prefix, v.entries[i].0), route[1..], path, s);
      j := EntryWithin(v, prefix, 0, i, k);
    } else if v.List? {
      var i := route[0];
      var k := ExtractReaches(v.items[i], IndexPath(prefix, i), route[1..], path, s);
      j := ItemWithin(v, prefix, 0, i, k);
    }
  }

  /** The k-th pair one entry extracts is the m-th its dictionary extracts from entry i on. */
  lemma EntryWithin(d: Value, prefix: string, i: nat, j: nat, k: nat) returns (m: nat)
    requires d.Dict? && i <= j < |d.entries|
    requires k < |ExtractStrings(d.entries[j].1, ChildPath(prefix, d.entries[j].0))|
    ensures m < |ExtractEntries(d, prefix, i)|
    ensures ExtractEntries(d, prefix, i)[m] == ExtractStrings(d.entries[j].1, ChildPath(prefix, d.entries[j].0))[k]
  {
    var whole := (x: nat) => if d.Dict? && x <= |d.entries| then ExtractEntries(d, prefix, x) else [];
    var part := (x: nat) => if d.Dict? && x < |d.entries| then ExtractStrings(d.entries[x].1, ChildPath(prefix, d.entries[x].0)) else [];
    forall x | i <= x <= j
      ensures whole(x) == part(x) + whole(x + 1)
    {
      var _ := EntrySplit(d, prefix, x);
    }
    m := PartsWithin(whole, part, i, j, k);
  }

  /** The k-th pair one item extracts is the m-th its list extracts from item i on. */
  lemma ItemWithin(l: Value, prefix: string, i: nat, j: nat, k: nat) returns (m: nat)
    requires l.List? && i <= j < |l.items|
    requires k < |ExtractStrings(l.items[j], IndexPath(prefix, j))|
    ensures m < |ExtractItems(l, prefix, i)|
    ensures ExtractItems(l, prefix, i)[m] == ExtractStrings(l.items[j], IndexPath(prefix, j))[k]
  {
    var whole := (x: nat) => if l.List? && x <= |l.items| then ExtractItems(l, prefix, x) else [];
    var part := (x: nat) => if l.List? && x < |l.items| then ExtractStrings(l.items[x], IndexPath(prefix, x)) else [];
    forall x | i <= x <= j
      ensures whole(x) == part(x) + whole(x + 1)
    {
      var _ := ItemSplit(l, prefix, x);
    }
    m := PartsWithin(whole, part, i, j, k);
  }

  /** What entry i extracts comes first in what the dictionary extracts from entry i on. */
  lemma EntrySplit(d: Value, prefix: string, i: nat) returns (here: seq<(string, string)>)
    requires d.Dict? && i < |d.entries|
    ensures here == ExtractStrings(d.entries[i].1, ChildPath(prefix, d.entries[i].0))
    ensures ExtractEntries(d, prefix, i) == here + ExtractEntries(d, prefix, i + 1)
  {
    here := ExtractStrings(d.entries[i].1, ChildPath(prefix, d.entries[i].0));
  }

  /** What item i extracts comes first in what the list extracts from item i on. */
  lemma ItemSplit(l: Value, prefix: string, i: nat) returns (here: seq<(string, string)>)
    requires l.List? && i < |l.items|
    ensures here == ExtractStrings(l.items[i], IndexPath(prefix, i))
    ensures ExtractItems(l, prefix, i) == here + ExtractItems(l, prefix, i + 1)
  {
    here := ExtractStrings(l.items[i], IndexPath(prefix, i));
  }

  /**
   * When each whole(x) is part(x) followed by whole(x + 1), the k-th element
   * of part(j) is an element of whole(i), for i <= j.
   */
  lemma {:induction false} PartsWithin<T>(whole: nat -> seq<T>, part: nat -> seq<T>, i: nat, j: nat, k: nat)
    returns (m: nat)
    requires i <= j && k < |part(j)|
    requires forall x :: i <= x <= j ==> whole(x) == part(x) + whole(x + 1)
    ensures m < |whole(i)| && whole(i)[m] == part(j)[k]
    decreases j - i
  {
    if i == j {
      m := Within(whole(i), part(i), whole(i + 1), k, true);
    } else {
      var m' := PartsWithin(whole, part, i + 1, j, k);
      m := Within(whole(i), part(i), whole(i + 1), m', false);
    }
  }

  /** An index into one part of a concatenation, as an index into the whole. */
  lemma Within<T>(all: seq<T>, here: seq<T>, rest: seq<T>, k: nat, first: bool) returns (m: nat)
    requires all == here + rest
    requires if first then k < |here| else k < |rest|
    ensures m < |all| && all[m] == if first then here[k] else rest[k]
  {
    m := if first then k else |here| + k;
  }

  /** The route to the j-th extracted pair. */
  lemma {:induction false} ExtractSource(v: Value, prefix: string, j: nat) returns (route: seq<nat>)
    requires j < |ExtractStrings(v, prefix)|
    ensures Route(v, prefix, route) == Some((ExtractStrings(v, prefix)[j].0, Str(ExtractStrings(v, prefix)[j].1)))
    decreases v, 2
  {
    if v.Dict? {
      route := EntrySource(v, prefix, 0, j);
    } else if v.List? {
      route := ItemSource(v, prefix, 0, j);
    } else {
      route := [];
    }
  }

  lemma {:induction false} EntrySource(d: Value, prefix: string, i: nat, j: nat) returns (route: seq<nat>)
    requires d.Dict? && i <= |d.entries| && j < |ExtractEntries(d, prefix, i)|
    ensures Route(d, prefix, route) == Some((ExtractEntries(d, prefix, i)[j].0, Str(ExtractEntries(d, prefix, i)[j].1)))
    decreases d, 1, |d.entries| - i
  {
    var (key, value) := d.entries[i];
    var here := EntrySplit(d, prefix, i);
    if j < |here| {
      var sub := ExtractSource(value, ChildPath(prefix, key), j);
      route := [i] + sub;
      assert route[1..] == sub;
    } else {
      route := EntrySource(d, prefix, i + 1, j - |here|);
    }
  }

  lemma {:induction false} ItemSource(l: Value, prefix: string, i: nat, j: nat) returns (route: seq<nat>)
    requires l.List? && i <= |l.items| && j < |ExtractItems(l, prefix, i)|
    ensures Route(l, prefix, route) == Some((ExtractItems(l, prefix, i)[j].0, Str(ExtractItems(l, prefix, i)[j].1)))
    decreases l, 1, |l.items| - i
  {
    var here := ItemSplit(l, prefix, i);
    if j < |here| {
      var sub := ExtractSource(l.items[i], IndexPath(prefix, i), j);
      route := [i] + sub;
      assert route[1..] == sub;
    } else {
      route := ItemSource(l, prefix, i + 1, j - |here|);
    }
  }

  const NetworkIndicators: seq<string> :=
    ["wifi", "ssid", "network", "bluetooth", "mac address", "ip address", "router", "access point"]

  /** f"{field_path}: {text[:50]}..." */
  function NetworkEntry(path: string, text: string): string {
    path + ": " + Take(text, 50) + "..."
  }

  /** One entry per indicator of `indicators` found in the lower-cased text. */
  function Hits(path: string, text: string, indicators: seq<string>): seq<string>
    decreases |indicators|
  {
    if indicators == [] then []
    else
      Hits(path, text, indicators[..|indicators| - 1])
      + (if Contains(Lower(text), indicators[|indicators| - 1]) then [NetworkEntry(path, text)] else [])
  }

  /** The hits of every string, in order. */
  function NetworkEntries(strings: seq<(string, string)>, indicators: seq<string>): seq<string>
    decreases |strings|
  {
    if strings == [] then []
    else
      var last := strings[|strings| - 1];
      NetworkEntries(strings[..|strings| - 1], indicators) + Hits(last.0, last.1, indicators)
  }

  /** The strings of the EXIF tree, then those of the image info when it is not empty. */
  function AllStrings(exif: Entries, info: Entries): seq<(string, string)> {
    ExtractStrings(Dict(exif), "") + (if info != [] then ExtractStrings(Dict(info), "") else [])
  }

  function NetworkFindings(exif: Entries, info: Entries): seq<Finding> {
    var entries := NetworkEntries(AllStrings(exif, info), NetworkIndicators);
    if entries == [] then [] else [Finding(NetworkInformation, High, Join("; ", entries), Standard)]
  }

  method AnalyzeNetworkInformation(exif: Entries, info: Entries) returns (findings: seq<Finding>)
    ensures findings == NetworkFindings(exif, info)
  {
    findings := [];
    var allStrings := ExtractStrings(Dict(exif), "");
    if info != [] {
      allStrings := allStrings + ExtractStrings(Dict(info), "");
    }
    assert allStrings == AllStrings(exif, info);
    var networkFindings := CollectNetworkEntries(allStrings, NetworkIndicators);
    if networkFindings != [] {
      findings := findings + [Finding(NetworkInformation, High, Join("; ", networkFindings), Standard)];
    }
  }

  /** The outer loop over (field_path, text) pairs. */
  method CollectNetworkEntries(strings: seq<(string, string)>, indicators: seq<string>) returns (entries: seq<string>)
    ensures entries == NetworkEntries(strings, indicators)
  {
    entries := [];
    for i := 0 to |strings|
      invariant entries == NetworkEntries(strings[..i], indicators)
    {
      var (fieldPath, text) := strings[i];
      entries := AppendHits(entries, fieldPath, text, indicators);
      assert strings[..i + 1][..i] == strings[..i];
    }
    assert strings[..|strings|] == strings;
  }

  /** The inner loop over the indicators, for one string. */
  method AppendHits(acc: seq<string>, fieldPath: string, text: string, indicators: seq<string>) returns (r: seq<string>)
    ensures r == acc + Hits(fieldPath, text, indicators)
  {
    r := acc;
    var textLower := Lower(text);
    for k := 0 to |indicators|
      invariant r == acc + Hits(fieldPath, text, indicators[..k])
    {
      if Contains(textLower, indicators[k]) {
        r := r + [NetworkEntry(fieldPath, text)];
      }
      assert indicators[..k + 1][..k] == indicators[..k];
    }
    assert indicators[..|indicators|] == indicators;
  }

  /** The text holds one of the indicators (after lower-casing). */
  predicate HasIndicator(text: string, indicators: seq<string>) {
    exists k :: 0 <= k < |indicators| && Contains(Lower(text), indicators[k])
  }

  /** Some string of `strings` holds an indicator. */
  predicate AnyIndicator(strings: seq<(string, string)>, indicators: seq<string>) {
    exists i :: 0 <= i < |strings| && HasIndicator(strings[i].1, indicators)
  }

  /** Each hit is one entry, naming the string's path. */
  lemma HitsShape(path: string, text: string, indicators: seq<string>)
    ensures Hits(path, text, indicators) == [] <==> !HasIndicator(text, indicators)
    ensures forall j :: 0 <= j < |Hits(path, text, indicators)| ==>
              Hits(path, text, indicators)[j] == NetworkEntry(path, text)
    ensures |Hits(path, text, indicators)| == |Found(text, indicators)|
  {
    HitsEmpty(path, text, indicators);
    HitsEntries(path, text, indicators);
    HitsCount(path, text, indicators);
  }

  /** The positions of the indicators found in the lower-cased text. */
  function Found(text: string, indicators: seq<string>): set<int> {
    set k | 0 <= k < |indicators| && Contains(Lower(text), indicators[k])
  }

  /** As many entries as indicators found. */
  lemma {:induction false} HitsCount(path: string, text: string, indicators: seq<string>)
    ensures |Hits(path, text, indicators)| == |Found(text, indicators)|
    decreases |indicators|
  {
    if indicators == [] {
      assert Found(text, indicators) == {};
    } else {
      var n := |indicators| - 1;
      var init := indicators[..n];
      HitsCount(path, text, init);
      var last := if Contains(Lower(text), indicators[n]) then {n} else {};
      assert Found(text, indicators) == Found(text, init) + last by {
        forall k | 0 <= k < n ensures init[k] == indicators[k] { }
      }
      assert n !in Found(text, init);
    }
  }

  lemma {:induction false} HitsEmpty(path: string, text: string, indicators: seq<string>)
    ensures Hits(path, text, indicators) == [] <==> !HasIndicator(text, indicators)
    decreases |indicators|
  {
    if indicators != [] {
      var init := indicators[..|indicators| - 1];
      HitsEmpty(path, text, init);
      if HasIndicator(text, indicators) && !Contains(Lower(text), indicators[|indicators| - 1]) {
        var k :| 0 <= k < |indicators| && Contains(Lower(text), indicators[k]);
        assert init[k] == indicators[k];
      }
      if HasIndicator(text, init) {
        var k :| 0 <= k < |init| && Contains(Lower(text), init[k]);
        assert init[k] == indicators[k];
      }
    }
  }

  lemma {:induction false} HitsEntries(path: string, text: string, indicators: seq<string>)
    ensures forall j :: 0 <= j < |Hits(path, text, indicators)| ==>
              Hits(path, text, indicators)[j] == NetworkEntry(path, text)
    decreases |indicators|
  {
    if indicators != [] {
      HitsEntries(path, text, indicators[..|indicators| - 1]);
    }
  }

  /** There are network entries exactly when some string holds an indicator. */
  lemma {:induction false} NetworkEntriesEmpty(strings: seq<(string, string)>, indicators: seq<string>)
    ensures NetworkEntries(strings, indicators) == [] <==> !AnyIndicator(strings, indicators)
    decreases |strings|
  {
    if strings != [] {
      var init, last := strings[..|strings| - 1], strings[|strings| - 1];
      NetworkEntriesEmpty(init, indicators);
      HitsShape(last.0, last.1, indicators);
      if AnyIndicator(strings, indicators) {
        var i :| 0 <= i < |strings| && HasIndicator(strings[i].1, indicators);
        if i < |init| {
          assert init[i] == strings[i];
        }
      } else {
        forall i | 0 <= i < |init| ensures !HasIndicator(init[i].1, indicators) {
          assert init[i] == strings[i];
        }
      }
    }
  }

  /**
   * At most one network finding; it is HIGH and it is present exactly when a
   * string of the EXIF tree or of the image info holds one of the indicators.
   */
  lemma NetworkFindingsShape(exif: Entries, info: Entries)
    ensures |NetworkFindings(exif, info)| <= 1
    ensures NetworkFindings(exif, info) != [] <==> AnyIndicator(AllStrings(exif, info), NetworkIndicators)
    ensures NetworkFindings(exif, info) != [] ==> NetworkFindings(exif, info)[0].risk == High
  {
    NetworkEntriesEmpty(AllStrings(exif, info), NetworkIndicators);
  }
}
