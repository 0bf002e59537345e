# Profile-checker privacy core, modelled in Dafny

profile-checker is a dating-app backend and web client. It checks a user's
profile photo for privacy risks. The server reads the photo's metadata and
reports findings with a risk score. It also assembles a report from image
detectors and can run a ReAct research agent over the text found in the photo.
The server authenticates requests with Supabase JWTs. Two client pages route
users and merge match profiles with their photos.

This project models, as Dafny definitions with proved contracts:

- **The metadata privacy analyser** (`MetadataFindings`, `RiskScore`,
  `PiiAnalysis`, over the ordered Python value tree of `PyValue` and the
  finding record of `Findings`).
  - The GPS, temporal, device, user-content and network analysers.
  - The weighted risk score with its level and count summary.
  - The orchestration that concatenates the analysers' findings.
  - Each analyser is a method with the source's loop. It is proved equal to a
    reference function, and lemmas state what the findings mean.
- **The report aggregator** (`ImageReport`): the ordered vulnerability list,
  the source URL set, the domain extraction and the risk-summary fallback.
- **The ReAct agent's deterministic parts** (`ReactAgent`):
  - the `Action: tool(query)` parser, stated against the regex's leftmost-match
    semantics;
  - the tool dispatch and the two result formatters;
  - the bounded conversation loop, with the language model as an input
    function. The loop's lemmas take the step after a reply and the
    final-answer test (`FinalOf`, the "Final Answer:" check and extraction)
    as function parameters, so they hold for any such test; `Analysis`
    fixes them to the agent's own.
- **The matches page** (`Matches`): its state is a class with the
  `matches`, `loading` and pushed-route fields. `FetchMatches` updates those
  fields from the backend's answers.
- **The profile-creation gate** (`PfpCreate`): the `checking` flag and the
  pushed routes are a class, and `CheckProfile` updates them.
- **The bearer-token service** (`Auth`):
  - the secret check at construction;
  - the mapping of every decode failure to 401;
  - the projection of claims onto the user record;
  - the error funnel of `get_current_user` and of the token refresh.

Shared helpers: `Wrappers` (Option, Result) and `Text` (Python's `strip`,
`lower`, `split`, `join`, `in` on strings, slicing, `str(int)`).

Inputs that stand for code outside the model:
- the regular-expression search of each personal pattern, as a
  `Search` predicate;
- the detectors, the agent's quick analysis and the metadata analysis, as
  values handed to the aggregator;
- the language model, as a function from iteration number and prompt to a
  reply or an exception;
- the web and news searches, as functions from query and count to results;
- the Supabase client's answers, as a `Backend` record;
- PyJWT's two decodes, as a `Decoder` of the token;
- the environment variable and the clock reading, as parameters.

## Model

| member | source | states |
|---|---|---|
| PyValue.Get | server/app/services/metadata_analysis.py:79-84 | `d.get(key)` is None exactly when no entry has the key; otherwise it is the value of an entry with that key |
| PyValue.ToFloat | server/app/services/metadata_analysis.py:42-44 | `float()` of a number is that number; only numbers and strings can convert, a string by the text parser below |
| PyValue.ParseFloatSpaces | server/app/services/metadata_analysis.py:42-44 | white space before or after the text does not change what `float()` gives |
| PyValue.ParseFloatSign | server/app/services/metadata_analysis.py:42-44 | a leading "+" keeps the value of a number text and a leading "-" negates it |
| PyValue.ParseFloatInteger | server/app/services/metadata_analysis.py:42-44 | a digit string converts to its decimal value, and with "-" in front to its negation |
| PyValue.ParseFloatDecimal | server/app/services/metadata_analysis.py:42-44 | digits, a point and digits, such as "12.5", convert to the whole part plus the fraction over 10 to its length; "-" negates |
| PyValue.ParseFloatNatToString | server/app/services/metadata_analysis.py:42-44 | `float(str(n))` is n |
| PyValue.UnsignedExponent | server/app/services/metadata_analysis.py:42-44 | a mantissa, "e" or "E" and an exponent convert to the mantissa times 10 to the exponent |
| PyValue.ExponentDigits | server/app/services/metadata_analysis.py:42-44 | an exponent is its digits' value, negated after "-" |
| PyValue.ParseFloatChars | server/app/services/metadata_analysis.py:42-44 | a text that converts holds, once stripped, only digits, signs, points and exponent marks |
| Text.StripEmptyIff | server/app/services/metadata_analysis.py:193 | `strip()` leaves nothing exactly when every character is dropped |
| Text.StripShape | server/services/gemini_agent.py:53 | what `strip` keeps comes from the input and neither starts nor ends with a dropped character |
| Text.StripKeeps | server/services/gemini_agent.py:53 | every character `strip` keeps is a character of the input |
| Text.StripEnds | server/services/gemini_agent.py:53 | a non-empty stripped text starts and ends with a kept character |
| Text.LStrip | server/services/gemini_agent.py:53 | the left strip removes a prefix of dropped characters and stops at the first kept one |
| Text.RStrip | server/services/gemini_agent.py:53 | the right strip removes a suffix of dropped characters and stops at the last kept one |
| Text.LowerShape | server/app/services/metadata_analysis.py:195 | `lower()` leaves no capital, is idempotent, and changes a text exactly when it holds a capital |
| Text.LowerCharShape | server/app/services/metadata_analysis.py:160 | a lowered character is never a capital; lowering is idempotent, changes exactly the capitals and sends them to small letters |
| Text.ContainsIff | server/app/services/metadata_analysis.py:235 | `sub in s` holds exactly when `sub` occurs at some index of `s` |
| Text.Take | server/app/services/result.py:73 | `s[:n]` has length min(len(s), n) and is a prefix of `s` |
| Text.Split | server/app/services/result.py:85 | `split(sep)` gives at least one part, and no part contains the separator |
| Text.JoinSplit | server/app/services/result.py:85 | joining the parts of `split(sep)` with `sep` gives back the string |
| Text.SplitLength | server/app/services/result.py:85 | `split(sep)` has one part more than there are separators |
| Text.SchemeSplit | server/app/services/result.py:85 | for a URL containing "://", `split("/")[2]` exists |
| Text.JoinSnoc | server/app/services/metadata_analysis.py:139 | joining one more part appends the separator and the part |
| Text.NatToString | server/services/gemini_agent.py:78 | `str(n)` of a natural number is a non-empty string of decimal digits with no leading zero |
| Text.NatToStringRoundTrip | server/services/gemini_agent.py:77-78 | `str(n)` reads back as `n` |
| Text.AfterLastSuffix | server/services/gemini_agent.py:139 | `split(sep)[-1]` is a suffix of the reply without the separator, and the whole reply when the separator is absent |
| Text.AfterLastFollowsSep | server/services/gemini_agent.py:139 | when the separator occurs, `split(sep)[-1]` is exactly the text after its last occurrence |
| Text.AfterLastShape | server/services/gemini_agent.py:139 | when the separator occurs, the reply ends with the separator followed by `split(sep)[-1]`, which holds no separator |
| Findings.PersonalConcernText | server/app/services/metadata_analysis.py:197-199 | a user-content concern is the description and " may contain personal information", followed by ". Detected: " and the names exactly when some pattern matched |
| MetadataFindings.ConvertGpsToDecimal | server/app/services/metadata_analysis.py:38-50 | the reference conversion; ConversionNeedsThree and ConversionSign state what it computes |
| MetadataFindings.ConversionNeedsThree | server/app/services/metadata_analysis.py:38-50 | a coordinate converts to a number only when it has exactly three components (and is not a dictionary); any other length gives None |
| MetadataFindings.ConversionSign | server/app/services/metadata_analysis.py:46-47 | the references 'S' and 'W' negate the value, and convert exactly when 'N' does |
| MetadataFindings.PadLeft | server/app/services/metadata_analysis.py:95 | the padded text has length max(n, len(s)), ends with s, and holds the fill character before it |
| MetadataFindings.CoordinateFindingsShape | server/app/services/metadata_analysis.py:81-98 | at most one coordinate finding; there is one exactly when both coordinates are present and convert to non-zero values; it is CRITICAL "GPS Coordinates" |
| MetadataFindings.GpsFindings | server/app/services/metadata_analysis.py:77-119 | the reference GPS findings; GpsNeedsDict, GpsParts and GpsFindingsShape state what they hold |
| MetadataFindings.AnalyzeGpsData | server/app/services/metadata_analysis.py:77-119 | the method's result is the reference GPS findings, including the KeyError a three-entry dictionary coordinate raises |
| MetadataFindings.AppendGpsTimeFindings | server/app/services/metadata_analysis.py:108-118 | the loop over GPSTimeStamp and GPSDateStamp appends their findings in order |
| MetadataFindings.GpsTimeFindingsShape | server/app/services/metadata_analysis.py:108-118 | one HIGH "GPS Timestamp" finding per time field present, and no others |
| MetadataFindings.GpsNeedsDict | server/app/services/metadata_analysis.py:79 | without a GPSInfo dictionary there are no GPS findings |
| MetadataFindings.CoordinatesFirst | server/app/services/metadata_analysis.py:79-119 | when coordinate findings come before the altitude and time findings, the list holds a coordinate finding exactly when the coordinate part does, and it starts with it |
| MetadataFindings.GpsFindingsShape | server/app/services/metadata_analysis.py:79-119 | the count is coordinates + altitude + time fields present, at most 4; a coordinate finding exists exactly when both coordinates are truthy and then comes first, CRITICAL |
| MetadataFindings.GpsParts | server/app/services/metadata_analysis.py:81-118 | the findings are the coordinate, then the altitude, then the time findings |
| MetadataFindings.ZeroLatitudeHidesCoordinates | server/app/services/metadata_analysis.py:90 | a latitude of zero suppresses the coordinate finding |
| MetadataFindings.LabelledEmpty | server/app/services/metadata_analysis.py:129-134 | nothing is collected exactly when no listed field is truthy |
| MetadataFindings.LabelledSound | server/app/services/metadata_analysis.py:130-133 | every collected entry carries the description of a truthy listed field |
| MetadataFindings.LabelledSource | server/app/services/metadata_analysis.py:130-133 | each collected entry comes from a truthy listed field whose description it carries |
| MetadataFindings.LabelledComplete | server/app/services/metadata_analysis.py:130-133 | every truthy listed field contributes its entry |
| MetadataFindings.TemporalFindings | server/app/services/metadata_analysis.py:120-143 | the reference temporal findings; TemporalShape states what they hold |
| MetadataFindings.AnalyzeTemporalData | server/app/services/metadata_analysis.py:120-143 | the method's result is the reference temporal findings |
| MetadataFindings.TemporalShape | server/app/services/metadata_analysis.py:129-143 | at most one finding; one exactly when some of the five timestamp fields is truthy; it is MEDIUM and its data joins the entries in field order with "; " |
| MetadataFindings.DeviceFindings | server/app/services/metadata_analysis.py:144-169 | the reference device findings; DeviceShape states what they hold |
| MetadataFindings.AnalyzeDeviceInformation | server/app/services/metadata_analysis.py:144-169 | the method's result is the reference device findings; its `any(...)` loop decides the risk |
| MetadataFindings.IdentifyingAt | server/app/services/metadata_analysis.py:160 | a description containing "serial" or "computer", after lowering, raises the risk |
| MetadataFindings.NotIdentifying | server/app/services/metadata_analysis.py:160 | a description without the letter pairs "se" and "co" does not |
| MetadataFindings.CameraSerialIdentifies | server/app/services/metadata_analysis.py:152 | "Camera serial number" raises the risk |
| MetadataFindings.LensSerialIdentifies | server/app/services/metadata_analysis.py:153 | "Lens serial number" raises the risk |
| MetadataFindings.HostComputerIdentifies | server/app/services/metadata_analysis.py:154 | "Processing computer name" raises the risk |
| MetadataFindings.IdentifyingDescription | server/app/services/metadata_analysis.py:147-160 | a device description raises the risk exactly when it belongs to one of the last three fields |
| MetadataFindings.SerialOrHostKey | server/app/services/metadata_analysis.py:152-157 | a truthy serial-number or host-computer field is a present identifying field |
| MetadataFindings.DeviceShape | server/app/services/metadata_analysis.py:156-169 | at most one finding; one exactly when some device field is truthy; it is HIGH exactly when a serial-number or host-computer field is truthy, and LOW otherwise |
| MetadataFindings.DeviceRisk | server/app/services/metadata_analysis.py:160 | some collected description is identifying exactly when a serial or host field is truthy |
| MetadataFindings.IdentifyingMeansSerialOrHost | server/app/services/metadata_analysis.py:160 | an identifying description comes from a serial or host field |
| MetadataFindings.SerialOrHostIsIdentifying | server/app/services/metadata_analysis.py:160 | a truthy serial or host field yields an identifying description |
| MetadataFindings.PatternNamesDistinct | server/app/services/metadata_analysis.py:31-37 | the five pattern names are distinct |
| MetadataFindings.DetectPersonalPatterns | server/app/services/metadata_analysis.py:209-214 | the loop returns the names of the matching patterns in dictionary order |
| MetadataFindings.MatchedNamesIff | server/app/services/metadata_analysis.py:209-214 | a pattern's name is reported exactly when the pattern is listed and matches |
| MetadataFindings.MatchedNamesEmpty | server/app/services/metadata_analysis.py:209-214 | nothing is reported exactly when no pattern matches |
| MetadataFindings.MatchedNamesRange | server/app/services/metadata_analysis.py:209-214 | only names of listed patterns are reported |
| MetadataFindings.FieldContent | server/app/services/metadata_analysis.py:188-192 | there is no content exactly when neither the EXIF nor the info value is truthy; a truthy EXIF value wins (see ExifContentWins) |
| MetadataFindings.ExifContentWins | server/app/services/metadata_analysis.py:189-192 | a truthy EXIF value takes precedence over the info value, even a blank one |
| MetadataFindings.SensitiveTextFields | server/app/services/metadata_analysis.py:195 | Artist, XPAuthor, Creator and CameraOwnerName are sensitive field names |
| MetadataFindings.Truncate100 | server/app/services/metadata_analysis.py:196 | content over 100 characters gives 103: its first 100 and then "..."; shorter content is kept as is |
| MetadataFindings.UserStep | server/app/services/metadata_analysis.py:193-207 | a field yields no finding exactly when its content is missing or blank, else one User Content finding |
| MetadataFindings.UserContentStep | server/app/services/metadata_analysis.py:188-207 | one pass of the loop computes that field's findings |
| MetadataFindings.UserFindings | server/app/services/metadata_analysis.py:187-207 | the reference user-content findings; UserStep, UserFindingRisk, UserFindingsEmpty and UserFindingsKinds state what they hold |
| MetadataFindings.AnalyzeUserContent | server/app/services/metadata_analysis.py:170-208 | the method's result is the reference user-content findings over the thirteen text fields in order |
| MetadataFindings.CollectUserContent | server/app/services/metadata_analysis.py:187-207 | the loop over the text fields builds the reference findings for every field it was given |
| MetadataFindings.UserFindingRisk | server/app/services/metadata_analysis.py:195 | the finding is HIGH exactly when a pattern matches or the field name is sensitive, otherwise MEDIUM |
| MetadataFindings.UserFindingsEmpty | server/app/services/metadata_analysis.py:187-193 | no user-content finding exactly when every field's content is blank |
| MetadataFindings.UserFindingsKinds | server/app/services/metadata_analysis.py:187-207 | at most one finding per field, each of type User Content |
| MetadataFindings.ChildPath | server/app/services/metadata_analysis.py:221 | a key's path extends the prefix |
| MetadataFindings.ChildPathShape | server/app/services/metadata_analysis.py:221 | a key's path is the key under an empty prefix, else the prefix, "." and the key |
| MetadataFindings.IndexPath | server/app/services/metadata_analysis.py:224 | an item's path extends the prefix |
| MetadataFindings.IndexPathShape | server/app/services/metadata_analysis.py:224 | an item's path is the prefix, "[", the index in decimal and "]" |
| MetadataFindings.ExtractStrings | server/app/services/metadata_analysis.py:217-227 | the extracted texts are exactly the string leaves in traversal order, each under the given prefix |
| MetadataFindings.ExtractEntries | server/app/services/metadata_analysis.py:219-221 | the loop over a dictionary's entries extracts their string leaves in entry order |
| MetadataFindings.ExtractItems | server/app/services/metadata_analysis.py:222-224 | the loop over a list's items extracts their string leaves in item order |
| MetadataFindings.ExtractPaths | server/app/services/metadata_analysis.py:217-227 | a (path, text) pair is extracted exactly when some route of entry and item indices leads to that string, with the path built along the route |
| MetadataFindings.ExtractReaches | server/app/services/metadata_analysis.py:217-227 | every string a route reaches is extracted under the route's path |
| MetadataFindings.ExtractSource | server/app/services/metadata_analysis.py:217-227 | every extracted pair has a route to it |
| MetadataFindings.EntryWithin | server/app/services/metadata_analysis.py:219-221 | what one entry extracts is part of what its dictionary extracts |
| MetadataFindings.ItemWithin | server/app/services/metadata_analysis.py:222-224 | what one item extracts is part of what its list extracts |
| MetadataFindings.EntrySplit | server/app/services/metadata_analysis.py:219-221 | what the entries from i on extract is what entry i extracts, then what the later entries extract |
| MetadataFindings.ItemSplit | server/app/services/metadata_analysis.py:222-224 | what the items from i on extract is what item i extracts, then what the later items extract |
| MetadataFindings.AnalyzeNetworkInformation | server/app/services/metadata_analysis.py:215-246 | the method's result is the reference network findings |
| MetadataFindings.CollectNetworkEntries | server/app/services/metadata_analysis.py:231-236 | the loop over the strings builds the reference indicator entries |
| MetadataFindings.AppendHits | server/app/services/metadata_analysis.py:234-236 | the inner loop appends one string's entries after what came before |
| MetadataFindings.HitsShape | server/app/services/metadata_analysis.py:234-236 | a string yields as many entries as indicators it contains, each "path: text[:50]...", and none without an indicator |
| MetadataFindings.HitsEmpty | server/app/services/metadata_analysis.py:234-236 | a string yields no entry exactly when it contains no indicator |
| MetadataFindings.HitsEntries | server/app/services/metadata_analysis.py:234-236 | each entry is "path: text[:50]..." for an indicator the string contains |
| MetadataFindings.HitsCount | server/app/services/metadata_analysis.py:234-236 | the number of entries is the number of indicator positions found in the lowered text |
| MetadataFindings.NetworkEntriesEmpty | server/app/services/metadata_analysis.py:231-236 | no entry exactly when no string contains an indicator |
| MetadataFindings.NetworkFindings | server/app/services/metadata_analysis.py:215-246 | the reference network findings; NetworkEntriesEmpty and NetworkFindingsShape state what they hold |
| MetadataFindings.NetworkFindingsShape | server/app/services/metadata_analysis.py:237-246 | at most one finding; one exactly when some string of the EXIF or info tree contains an indicator; it is HIGH |
| RiskScore.Bump | server/app/services/metadata_analysis.py:262 | counting one finding adds at most one entry |
| RiskScore.BumpKeys | server/app/services/metadata_analysis.py:262 | counting one finding adds its label to the keys and keeps them distinct |
| RiskScore.BumpLookup | server/app/services/metadata_analysis.py:262 | counting one finding adds one to its label's count only |
| RiskScore.BumpTotal | server/app/services/metadata_analysis.py:262 | counting one finding adds one to the total and keeps every count positive |
| RiskScore.RiskCountsCorrect | server/app/services/metadata_analysis.py:260-262 | the counts have distinct keys, exactly the labels that occur, each label's number of findings, all positive, summing to len(findings) |
| RiskScore.RiskCountsKeys | server/app/services/metadata_analysis.py:260-262 | the counted labels are exactly the labels that occur |
| RiskScore.RiskCountsLookup | server/app/services/metadata_analysis.py:260-262 | a label's count is its number of findings |
| RiskScore.RiskCountsTotal | server/app/services/metadata_analysis.py:260-262 | the counts sum to len(findings) |
| RiskScore.CountRisks | server/app/services/metadata_analysis.py:260-262 | the counting loop computes those counts |
| RiskScore.SelectOnly | server/app/services/metadata_analysis.py:264 | selecting a label keeps only entries with that label |
| RiskScore.ByWeightSorted | server/app/services/metadata_analysis.py:264 | the sorted counts have non-increasing weights |
| RiskScore.SelectCount | server/app/services/metadata_analysis.py:264 | selecting a label keeps every occurrence of its entries and no others |
| RiskScore.ByWeightPermutation | server/app/services/metadata_analysis.py:264 | the sorted counts are a permutation of the counts |
| RiskScore.SummaryParts | server/app/services/metadata_analysis.py:263-265 | one summary part per sorted entry, in order |
| RiskScore.SummaryPartsPlural | server/app/services/metadata_analysis.py:264 | each part starts with the count and the lowered level, and ends in "s" exactly when the count is more than one |
| RiskScore.SummaryPartPlural | server/app/services/metadata_analysis.py:264 | the same for one part |
| RiskScore.BuildSummaryParts | server/app/services/metadata_analysis.py:263-265 | the loop builds those parts |
| RiskScore.TotalScore | server/app/services/metadata_analysis.py:251 | the loop sums the findings' weights |
| RiskScore.Assessment | server/app/services/metadata_analysis.py:247-271 | the reference assessment; MinimalIffEmpty, ScoreByCounts, LevelMonotone and SummaryPartsPlural state what it holds |
| RiskScore.CalculateOverallRiskScore | server/app/services/metadata_analysis.py:247-271 | the method returns the reference assessment |
| RiskScore.LevelMonotone | server/app/services/metadata_analysis.py:252-259 | a higher score never gives a lower level |
| RiskScore.ScoreAppend | server/app/services/metadata_analysis.py:251 | the score of concatenated findings is the sum of their scores |
| RiskScore.SingleCritical | server/app/services/metadata_analysis.py:250-259 | a single CRITICAL finding scores 10 and gives level HIGH |
| RiskScore.MinimalIffEmpty | server/app/services/metadata_analysis.py:248-249 | the fixed MINIMAL answer (no total_findings) comes exactly for an empty list |
| RiskScore.ScoreByCounts | server/app/services/metadata_analysis.py:250-251 | the score is 10, 7, 4 and 2 times the numbers of CRITICAL, HIGH, MEDIUM and LOW findings |
| PiiAnalysis.CollectFindings | server/app/services/metadata_analysis.py:279-284 | the five analysers run in order gps, temporal, device, user, network, and a GPS error stops them |
| PiiAnalysis.FinishReport | server/app/services/metadata_analysis.py:285-299 | the error becomes "Analysis failed: ..."; otherwise the report carries the scored findings |
| PiiAnalysis.ComprehensivePii | server/app/services/metadata_analysis.py:272-299 | the reference comprehensive result; ExtractionErrorPassedOn, GpsErrorFailsAnalysis, ReportShape and MinimalReport state what it holds |
| PiiAnalysis.AnalyzeComprehensivePii | server/app/services/metadata_analysis.py:272-299 | the method returns the reference comprehensive result |
| PiiAnalysis.ExtractionErrorPassedOn | server/app/services/metadata_analysis.py:275-276 | an extraction error is returned unchanged |
| PiiAnalysis.GpsErrorFailsAnalysis | server/app/services/metadata_analysis.py:298-299 | a GPS KeyError yields "Analysis failed: " and its text |
| PiiAnalysis.ReportShape | server/app/services/metadata_analysis.py:277-297 | a report lists the gps, temporal, device, user and network findings in order, scores exactly those, and counts len(exif) + len(info) fields |
| PiiAnalysis.ReportScore | server/app/services/metadata_analysis.py:251 | the report's score is the sum of the five analysers' scores |
| PiiAnalysis.MinimalReport | server/app/services/metadata_analysis.py:248-249 | the assessment is MINIMAL exactly when none of the five analysers found anything |
| ImageReport.NonEmptyShape | server/app/services/result.py:65 | the web-entity list keeps exactly the non-empty descriptions |
| ImageReport.PiiEntriesShape | server/app/services/result.py:80-82 | one "PII risk (risk): type - data" entry per finding, in order |
| ImageReport.Host | server/app/services/result.py:85 | the host `split("/")[2]` of a URL with "://" exists and holds no "/" |
| ImageReport.AppendPiiEntries | server/app/services/result.py:80-82 | the loop appends those entries |
| ImageReport.DetectionEntries | server/app/services/result.py:56-77 | the appends before the PII entries build the fixed-order groups |
| ImageReport.CollectSources | server/app/services/result.py:53-69 | the two `update` calls build the source set |
| ImageReport.Vulnerabilities | server/app/services/result.py:56-82 | the reference vulnerability list; GroupOrder and PiiEntriesLast state its order |
| ImageReport.AggregateSpec | server/app/services/result.py:27-92 | the reference report; SourcesUnion, DomainsFromSources, SummaryFallback and NoAgentCallWithoutText state what it holds |
| ImageReport.AggregateImageAnalysis | server/app/services/result.py:27-92 | the method returns the reference report |
| ImageReport.PiiEntriesLast | server/app/services/result.py:79-82 | the PII entries close the list, one per finding, in order |
| ImageReport.GroupOrder | server/app/services/result.py:56-77 | the groups come first, in the order landmarks, logos, web entities, text, AI summary; each adds its line exactly when its input is not empty, right after the lines of the groups present before it |
| ImageReport.AllGroups | server/app/services/result.py:56-77 | with every input present the groups are exactly the five lines, in report order |
| ImageReport.KeptFirst | server/app/services/result.py:56-77 | the lines of the present slots come first, each at the number of present slots before it |
| ImageReport.KeptAt | server/app/services/result.py:56-77 | a present slot's line follows the lines of the present slots before it |
| ImageReport.GroupsKept | server/app/services/result.py:56-77 | the entries before the PII ones are the lines of the present groups in report order |
| ImageReport.OnlyPii | server/app/services/result.py:56-82 | without detections, text or summary the list holds only the PII entries |
| ImageReport.TextEntryShape | server/app/services/result.py:72-73 | the text entry is the label, the first 100 characters and "...", even for a short text |
| ImageReport.NoAgentCallWithoutText | server/app/services/result.py:43-45 | without an agent or without text the report does not depend on the agent |
| ImageReport.SourcesUnion | server/app/services/result.py:66-69 | a URL is a source exactly when it is a matching page or a similar image |
| ImageReport.DomainsFromSources | server/app/services/result.py:85-90 | a domain is exactly the host of some source containing "://" |
| ImageReport.SummaryFallback | server/app/services/result.py:80-91 | a failed metadata analysis gives the `{}` summary and no PII entries |
| ReactAgent.SkipWhile | server/services/gemini_agent.py:48 | a regex run ends at the first character outside its class |
| ReactAgent.ParseAtSound | server/services/gemini_agent.py:48-54 | a successful match attempt is a match of the pattern, with its groups |
| ReactAgent.MatchFromRuns | server/services/gemini_agent.py:48 | the three maximal runs with "(" and ")" between them form a match |
| ReactAgent.CallSome | server/services/gemini_agent.py:48 | a tool-name attempt succeeds only at a "(" after the word run |
| ReactAgent.GroupSome | server/services/gemini_agent.py:48 | a group attempt succeeds only at the first ")" |
| ReactAgent.ParseAtComplete | server/services/gemini_agent.py:48-54 | wherever the pattern matches, the attempt succeeds with those groups |
| ReactAgent.GroupAt | server/services/gemini_agent.py:48 | the lazy group ends at the first ")" |
| ReactAgent.CallAt | server/services/gemini_agent.py:48 | the tool name is the word run up to "(" |
| ReactAgent.SkipWhileUnique | server/services/gemini_agent.py:48 | a run that ends where its class first fails is the one found |
| ReactAgent.MatchIsUnique | server/services/gemini_agent.py:48 | a match at a position fixes its groups |
| ReactAgent.ParseFromLeftmost | server/services/gemini_agent.py:49 | the search from a position finds nothing exactly when no attempt succeeds, else the leftmost match |
| ReactAgent.ParseAction | server/services/gemini_agent.py:46-55 | the reference parser; ParseActionLeftmost, NoMarkerNoAction and ParsedActionShape state what it finds |
| ReactAgent.ParseActionLeftmost | server/services/gemini_agent.py:46-55 | `_parse_action` is None exactly when no match exists, else the leftmost match's tool and stripped query |
| ReactAgent.NoMarkerNoAction | server/services/gemini_agent.py:51-55 | a reply without "Action:" has no action |
| ReactAgent.QueryShape | server/services/gemini_agent.py:53 | the query holds no ")" or newline and has no quote at either end |
| ReactAgent.GroupsShape | server/services/gemini_agent.py:48-53 | a match's tool is a non-empty run of word characters |
| ReactAgent.ParsedActionShape | server/services/gemini_agent.py:46-55 | every parsed action has that shape |
| ReactAgent.FormatSearch | server/services/gemini_agent.py:71-82 | the reference search text; NoSearchResultsIff, SearchSingle, SearchAppend and BlockNumber state its shape |
| ReactAgent.FormatNews | server/services/gemini_agent.py:84-96 | the reference news text; NoNewsResultsIff, NewsSingle and NewsAppend state its shape |
| ReactAgent.FormatSearchResults | server/services/gemini_agent.py:71-82 | the `+=` loop builds the reference search text |
| ReactAgent.AppendSearchBlock | server/services/gemini_agent.py:77-80 | the three `+=` lines append one numbered search block |
| ReactAgent.FormatNewsResults | server/services/gemini_agent.py:84-96 | the `+=` loop builds the reference news text |
| ReactAgent.AppendNewsBlock | server/services/gemini_agent.py:90-94 | the four `+=` lines append one numbered news block |
| ReactAgent.NoSearchResultsIff | server/services/gemini_agent.py:73-74 | "No search results found." comes exactly for an empty list |
| ReactAgent.NoNewsResultsIff | server/services/gemini_agent.py:86-87 | "No news results found." comes exactly for an empty list |
| ReactAgent.SearchAppend | server/services/gemini_agent.py:77-80 | one more result adds one block at the end, numbered with the new count |
| ReactAgent.NewsAppend | server/services/gemini_agent.py:90-94 | one more news result adds one block at the end, numbered with the new count |
| ReactAgent.SearchSingle | server/services/gemini_agent.py:76-80 | a single result is block 1 under "Search Results:" |
| ReactAgent.NewsSingle | server/services/gemini_agent.py:89-94 | a single news result is block 1 under "News Results:" |
| ReactAgent.BlockNumber | server/services/gemini_agent.py:77-78 | each block opens with its 1-based number, which reads back as that position |
| ReactAgent.ExecuteAction | server/services/gemini_agent.py:57-69 | the reference dispatch; SearchUsesThreeResults, NewsUsesThreeResults and UnknownTool state it |
| ReactAgent.Execute | server/services/gemini_agent.py:57-69 | the method returns the reference dispatch |
| ReactAgent.SearchUsesThreeResults | server/services/gemini_agent.py:62-64 | "search" depends only on the three web results for the query |
| ReactAgent.NewsUsesThreeResults | server/services/gemini_agent.py:65-67 | "search_news" depends only on the three news results for the query |
| ReactAgent.UnknownTool | server/services/gemini_agent.py:68-69 | any other tool gives exactly "Unknown tool: <tool>" |
| ReactAgent.AnalyzeText | server/services/gemini_agent.py:98-162 | the `while` loop returns the reference final answer, iteration count and conversation |
| ReactAgent.FinalOfShape | server/services/gemini_agent.py:138-140 | a reply gives an answer exactly when it holds "Final Answer:"; the answer is stripped and drawn from the text after the last marker, which holds no marker |
| ReactAgent.Loop | server/services/gemini_agent.py:120-154 | the reference loop; LoopStep, LoopEnds, LoopKeeps and the Ends lemmas state how it ends |
| ReactAgent.Analysis | server/services/gemini_agent.py:98-162 | the reference analysis; AnalysisEnds, ImmediateAnswer and NeverFinal state what it returns |
| ReactAgent.TraceLength | server/services/gemini_agent.py:112-150 | after n non-final iterations the conversation has 2n+1 entries |
| ReactAgent.TraceExtend | server/services/gemini_agent.py:143-150 | a non-final iteration appends the reply and its observation or the continue prompt |
| ReactAgent.EndsExhausted | server/services/gemini_agent.py:120 | five non-final iterations end the loop with an empty answer |
| ReactAgent.EndsRaised | server/services/gemini_agent.py:152-154 | an exception ends the loop with an empty answer and without recording a reply |
| ReactAgent.EndsFinal | server/services/gemini_agent.py:138-140 | the first reply that gives an answer ends the loop with that answer, the reply recorded |
| ReactAgent.LoopStep | server/services/gemini_agent.py:120-150 | a non-final iteration hands the longer conversation to the next one |
| ReactAgent.LoopEnds | server/services/gemini_agent.py:120-154 | the loop always ends in one of those three ways |
| ReactAgent.LoopKeeps | server/services/gemini_agent.py:131-150 | the loop only appends to the conversation and never lowers the count |
| ReactAgent.AnalysisEnds | server/services/gemini_agent.py:112-161 | `analyze_text` runs 1 to 5 iterations, keeps the initial prompt first, and ends in one of the three ways |
| ReactAgent.ImmediateAnswer | server/services/gemini_agent.py:127-140 | a model that answers at once ends after one iteration with that answer |
| ReactAgent.NeverFinal | server/services/gemini_agent.py:120-150 | a model that never answers nor raises is asked exactly five times, and the answer stays "" |
| Matches.MatchesPage.constructor | client/app/dashboard/matches/page.tsx:14-15 | no matches, loading, nothing pushed |
| Matches.MatchesPage.BuildPhotoMap | client/app/dashboard/matches/page.tsx:59-62 | the forEach builds the reference photo map |
| Matches.MatchesPage.FetchMatches | client/app/dashboard/matches/page.tsx:19-73 | the page's new state is the reference fetch of the old one |
| Matches.Fetch | client/app/dashboard/matches/page.tsx:19-73 | the reference fetch; NoClient, NoUser, NoMatchedIds and LoadingIffRedirected state its outcomes |
| Matches.Merge | client/app/dashboard/matches/page.tsx:64-69 | the reference merge; MergeRows, MergedPhoto and UnmatchedPhotoIgnored state what it holds |
| Matches.NoClient | client/app/dashboard/matches/page.tsx:20-23 | without a client loading ends and the list stays empty |
| Matches.NoUser | client/app/dashboard/matches/page.tsx:29-32 | without a user the page goes to /auth and keeps loading |
| Matches.NoMatchedIds | client/app/dashboard/matches/page.tsx:40-45 | with no matched ids the list is left empty and loading ends |
| Matches.LoadingIffRedirected | client/app/dashboard/matches/page.tsx:19-73 | after the fetch the page is still loading exactly when it was sent to /auth |
| Matches.MatchedIdsColumn | client/app/dashboard/matches/page.tsx:40 | the ids are the matched_user_id column in row order, none for a null answer |
| Matches.PhotoMapKeys | client/app/dashboard/matches/page.tsx:59-62 | the map has an entry exactly for the users some photo row names |
| Matches.PhotoMapLastWins | client/app/dashboard/matches/page.tsx:59-62 | a later row for the same user overwrites an earlier one |
| Matches.MergeRows | client/app/dashboard/matches/page.tsx:64-69 | one entry per profile row in order, with its id and age and the "Unknown" name fallback |
| Matches.MergedPhoto | client/app/dashboard/matches/page.tsx:59-69 | the photo is the user's last URL when truthy, else "/assets/cats/1.png" |
| Matches.UnmatchedPhotoIgnored | client/app/dashboard/matches/page.tsx:59-69 | a photo row whose user has no profile changes nothing |
| PfpCreate.Gate | client/app/pfpcreate/page.tsx:13-37 | a decision that pushes a route never shows the form |
| PfpCreate.IntendedGate | client/app/pfpcreate/page.tsx:26-36 | the corrected gate also never shows the form when it pushes |
| PfpCreate.PfpCreatePage.constructor | client/app/pfpcreate/page.tsx:10 | checking, nothing pushed |
| PfpCreate.PfpCreatePage.CheckProfile | client/app/pfpcreate/page.tsx:13-37 | the page's new state is the old one with the gate's decision applied |
| PfpCreate.GateOutcomes | client/app/pfpcreate/page.tsx:14-48 | without a client the page keeps loading; without a user it goes to /auth; with a profile to /dashboard, still checking; otherwise it shows the form |
| PfpCreate.FormIff | client/app/pfpcreate/page.tsx:32-48 | the form is shown exactly to a signed-in user without a profile row |
| PfpCreate.GateIgnoresEdit | client/app/pfpcreate/page.tsx:12-40 | the decision does not depend on the edit flag |
| PfpCreate.EditVisitBounced | client/app/pfpcreate/page.tsx:26-33 | an `?edit=true` visit by a user with a profile is sent to /dashboard |
| PfpCreate.IntendedGateEdits | client/app/pfpcreate/page.tsx:26-36 | the corrected gate shows the form exactly to a signed-in user who edits or has no profile, and otherwise decides as written |
| Auth.NewAuthService | server/app/util/auth.py:28-34 | construction succeeds exactly with a set, non-empty secret, which it keeps; otherwise ValueError |
| Auth.FailureDetail | server/app/util/auth.py:73-93 | the "Server time is behind" detail goes exactly to the issued-at failure |
| Auth.Decode | server/app/util/auth.py:36-93 | every failure is a 401 with a handler's detail; success needs both decodes and a subtractable iat, and returns the verified claims |
| Auth.DecodeToken | server/app/util/auth.py:36-93 | the method returns the reference decode |
| Auth.MetadataOf | server/app/util/auth.py:97 | a missing metadata claim is `{}`; a present one must be a dictionary, whose entries are then the result |
| Auth.Required | server/app/util/auth.py:99-101 | a required field succeeds exactly for a string claim, which it returns |
| Auth.Optional | server/app/util/auth.py:102-104 | an optional field is None when missing or null, the string when a string, and an error otherwise |
| Auth.CurrentUser | server/app/util/auth.py:109-147 | every failure of get_current_user is 401 "Invalid authentication credentials" |
| Auth.GetCurrentUser | server/app/util/auth.py:109-147 | the method returns the reference result |
| Auth.RefreshAccessToken | server/app/util/auth.py:150-166 | refreshing always ends in 401 "Could not refresh token" |
| Auth.ExtractUserData | server/app/util/auth.py:95-105 | the reference projection; ExtractedFields, MissingMetadata and RequiredClaims state what it holds |
| Auth.ExtractedFields | server/app/util/auth.py:95-105 | id is the sub claim, email the email claim, full_name and avatar_url from user_metadata, provider from app_metadata |
| Auth.MissingMetadata | server/app/util/auth.py:97-104 | a missing user_metadata gives no name or avatar; a missing app_metadata gives no provider |
| Auth.RequiredClaims | server/app/util/auth.py:20-22 | a missing or non-string sub or email fails the projection |
| Auth.IssuedAtFailure | server/app/util/auth.py:73-79 | once the unverified decode passes the iat subtraction, the dedicated detail comes exactly from PyJWT's issued-at error |
| Auth.StringIssuedAt | server/app/util/auth.py:50-52 | a string iat claim fails with the TypeError's "Authentication error" detail |
| Auth.MissingCredentials | server/app/util/auth.py:121-147 | missing credentials give 401 "Invalid authentication credentials" |
| Auth.CurrentUserIff | server/app/util/auth.py:119-147 | get_current_user succeeds exactly when the token decodes and the claims project, and then returns that user |

## Left out

- Opening the image and reading its EXIF and info with PIL (`extract_all_metadata`) is not modelled. The metadata tree it returns, or its error text, is the input.
- The folium map (`create_metadata_map`) is not modelled. It draws a map and computes nothing the report uses.
- The regular expressions are not modelled. The five personal patterns are an input predicate. The action pattern is parsed by hand. Its `\s` is Python's full whitespace set, the one `strip()` uses. Its `\w` is the ASCII word class only.
- Lowering is ASCII-only. Non-ASCII capitals are kept as they are.
- PyValue.ToFloat: `float()` of a string is modelled for optional white space, an optional sign, decimal digits with an optional point and an optional exponent. The model rejects "inf", "nan", "infinity", digits separated by underscores and non-ASCII digits, which Python accepts. It also rejects booleans (`float(True)` is 1.0) and bytes, which Python converts. PIL gives EXIF coordinates as rationals, which the model reads as numbers. A bytes coordinate is not indexed: Python takes the length of three bytes and converts each byte's int, where the model gives no value; only a file storing a coordinate as BYTE or UNDEFINED reaches that case.
- Floating point is not modelled. GPS values are reals, and `:.6f` rounds half up on the exact value instead of the binary double.
- Number rendering is not modelled. `str()` of a number is the text the value carries.
- `datetime.now().isoformat()`, the report's analysis_timestamp, is the parameter `now`. decode_token's `datetime.utcnow()` is not modelled: it only feeds a log line and the `current_time - iat` subtraction, whose TypeError Subtractable models.
- The HTTP and SDK clients are not modelled: Google Vision, Gemini, SerpAPI and Supabase.
  - Their answers are inputs: detections, the model function, the search functions and the `Backend` record. `quick_analyze` is one of these inputs.
  - An exception raised by a search inside `_execute_action` is not modelled. The search functions always answer.
- The risk weight 0 for an unknown label has no case in the model. The analysers only produce the four labels, so that branch cannot be taken.
- Streamlit output (`st.info`, `st.error`, the expanders) is not modelled. Neither is the logging in auth.py. Neither changes a result.
- Async ordering, unmount races and React re-renders are not modelled. Each page effect runs once, sequentially.
- The rendered markup of both pages is not modelled, apart from the loading/form switch.
- The wording of the agent's prompts is a field of `Agent`, and no property depends on it. `NewAgent` fills it in with the source's text.
- PyJWT's signature, expiry and audience checks are an input `Decoder`.
- Auth.Subtractable: every JSON number is taken to subtract from the clock reading. An integer iat too large for a double makes `current_time - iat_time` raise OverflowError in Python, which becomes the generic "Authentication error" detail; the model passes such a token on to the verified decode. The type name in the TypeError covers the JSON types only.
- Pydantic is assumed not to coerce `UserData` fields. Any non-string `sub` or `email` fails the record.
- FastAPI behaviour outside `get_current_user` is not modelled. HTTPBearer answers 403 itself when the header is missing, before `get_current_user` runs. The `/me` route is not part of this model.
- The `localStorage` handling of `dashboard/components/matches.tsx` and the other layout components are not part of this model.

## Findings

| source | as written | input that shows it | evidently intended | confidence | as-written member | corrected member |
|---|---|---|---|---|---|---|
| client/app/pfpcreate/page.tsx:12-40 | checkProfile never reads the `?edit=true` query flag. A user who already has a profile row is always pushed to /dashboard. Yet client/app/dashboard/page.tsx:24 and client/app/dashboard/components/myprofile.tsx:99 link to `/pfpcreate?edit=true` to edit that profile. | a signed-in user with a profile row opens `/pfpcreate?edit=true` | an editing user with a profile stays on the form | not executed | PfpCreate.EditVisitBounced | PfpCreate.IntendedGateEdits |
