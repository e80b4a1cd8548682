/**
 * The diagnosis record (src/lib/diagnosis-types.ts): its three closed
 * enumerations, the record itself, the severity colour mapping and the
 * English scanning messages.
 */
module DiagnosisTypes {
  import opened Wrappers
  import Strings
  import Translations

  /** What the photo shows (`subjectType`). */
  datatype SubjectType = Crop | Livestock | Fruit | Multiple | Unclear

  /** How sure the model is (`confidenceLevel`). */
  datatype ConfidenceLevel = Low | Moderate | High

  /** How bad the condition is (`severity`). */
  datatype Severity = Mild | Moderate | Severe | Critical

  function SubjectTypeName(s: SubjectType): string
  {
    match s
    case Crop => "crop"
    case Livestock => "livestock"
    case Fruit => "fruit"
    case Multiple => "multiple"
    case Unclear => "unclear"
  }

  function ConfidenceName(c: ConfidenceLevel): string
  {
    match c
    case Low => "low"
    case Moderate => "moderate"
    case High => "high"
  }

  function SeverityName(s: Severity): string
  {
    match s
    case Mild => "mild"
    case Moderate => "moderate"
    case Severe => "severe"
    case Critical => "critical"
  }

  /** The variant a raw `subjectType` string names, if it names one. */
  function ParseSubjectType(v: string): (r: Option<SubjectType>)
    ensures r.Some? ==> SubjectTypeName(r.value) == v
    ensures r.None? <==> v !in {"crop", "livestock", "fruit", "multiple", "unclear"}
  {
    if v == "crop" then Some(Crop)
    else if v == "livestock" then Some(Livestock)
    else if v == "fruit" then Some(Fruit)
    else if v == "multiple" then Some(Multiple)
    else if v == "unclear" then Some(Unclear)
    else None
  }

  /** The variant a raw `confidenceLevel` string names, if it names one. */
  function ParseConfidence(v: string): (r: Option<ConfidenceLevel>)
    ensures r.Some? ==> ConfidenceName(r.value) == v
    ensures r.None? <==> v !in {"low", "moderate", "high"}
  {
    if v == "low" then Some(Low)
    else if v == "moderate" then Some(ConfidenceLevel.Moderate)
    else if v == "high" then Some(High)
    else None
  }

  /** The variant a raw `severity` string names, if it names one. */
  function ParseSeverity(v: string): (r: Option<Severity>)
    ensures r.Some? ==> SeverityName(r.value) == v
    ensures r.None? <==> v !in {"mild", "moderate", "severe", "critical"}
  {
    if v == "mild" then Some(Mild)
    else if v == "moderate" then Some(Severity.Moderate)
    else if v == "severe" then Some(Severe)
    else if v == "critical" then Some(Critical)
    else None
  }

  /**
   * The three enumerations are closed sets of 5, 3 and 4 variants: every
   * variant's name parses back to it, and the names are pairwise distinct.
   */
  lemma EnumerationsClosed()
    ensures forall s: SubjectType :: ParseSubjectType(SubjectTypeName(s)) == Some(s)
    ensures forall c: ConfidenceLevel :: ParseConfidence(ConfidenceName(c)) == Some(c)
    ensures forall s: Severity :: ParseSeverity(SeverityName(s)) == Some(s)
    ensures |{"crop", "livestock", "fruit", "multiple", "unclear"}| == 5
    ensures |{"low", "moderate", "high"}| == 3
    ensures |{"mild", "moderate", "severe", "critical"}| == 4
  {
  }

  /**
   * A diagnosis as the client stores and renders it. The enumeration-valued
   * fields hold the raw strings the AI returned, because nothing checks them
   * against their declared variants; `WellFormed` says when they conform.
   */
  datatype DiagnosisResult = DiagnosisResult(
    id: string,
    timestamp: string,
    imageUrl: string,
    subjectType: string,
    species: string,
    symptoms: seq<string>,
    diseaseName: string,
    alternatives: seq<string>,
    confidenceLevel: string,
    confidencePercent: int,
    causes: seq<string>,
    severity: string,
    severityReason: string,
    treatments: seq<string>,
    prevention: seq<string>,
    urgencyAdvice: string,
    needsProfessional: bool,
    farmerSummary: string)

  /** The declared shape: each enumeration field names a variant and the percent is in [0, 100]. */
  predicate WellFormed(r: DiagnosisResult)
  {
    && ParseSubjectType(r.subjectType).Some?
    && ParseConfidence(r.confidenceLevel).Some?
    && ParseSeverity(r.severity).Some?
    && 0 <= r.confidencePercent <= 100
  }

  /**
   * `getSeverityColor`: the colour token of a raw severity string. A declared
   * severity maps to "severity-" followed by its name; anything else falls
   * back to "severity-mild". The result is always one of four tokens.
   */
  function SeverityColor(severity: string): (r: string)
    ensures ParseSeverity(severity).Some? ==> r == "severity-" + severity
    ensures ParseSeverity(severity).None? ==> r == "severity-mild"
    ensures r in {"severity-mild", "severity-moderate", "severity-severe", "severity-critical"}
  {
    match severity
    case "mild" => "severity-mild"
    case "moderate" => "severity-moderate"
    case "severe" => "severity-severe"
    case "critical" => "severity-critical"
    case _ => "severity-mild"
  }

  /** Distinct declared severities get distinct colour tokens. */
  lemma SeverityColorInjective(a: Severity, b: Severity)
    requires a != b
    ensures SeverityColor(SeverityName(a)) != SeverityColor(SeverityName(b))
  {
  }

  /** `SCANNING_MESSAGES`: the English progress messages, in display order. */
  const ScanningMessages: seq<string> := [
    "Analyzing image composition…",
    "Identifying subject type…",
    "Examining leaf texture…",
    "Checking for fungal patterns…",
    "Detecting color abnormalities…",
    "Scanning for pest damage…",
    "Evaluating symptom severity…",
    "Consulting agricultural database…",
    "Generating treatment plan…",
    "Preparing your diagnosis…"
  ]

  /** Message `i` is the text of key "scanning.msg<i+1>" in the scanning section of the English table. */
  lemma ScanningMessagesInSection(i: nat)
    requires i < |ScanningMessages|
    ensures var key := "scanning.msg" + Strings.DecimalString(i + 1);
            key in Translations.EnScanning && Translations.EnScanning[key] == ScanningMessages[i]
  {
    var key := "scanning.msg" + Strings.DecimalString(i + 1);
    if i == 0 {
      assert key == "scanning.msg1";
    } else if i == 1 {
      assert key == "scanning.msg2";
    } else if i == 2 {
      assert key == "scanning.msg3";
    } else if i == 3 {
      assert key == "scanning.msg4";
    } else if i == 4 {
      assert key == "scanning.msg5";
    } else if i == 5 {
      assert key == "scanning.msg6";
    } else if i == 6 {
      assert key == "scanning.msg7";
    } else if i == 7 {
      assert key == "scanning.msg8";
    } else if i == 8 {
      assert key == "scanning.msg9";
    } else {
      assert Strings.DecimalString(10) == "10" by {
        assert Strings.DecimalString(1) == "1";
      }
      assert key == "scanning.msg10";
    }
  }

  /**
   * Message `i` is the English text of key "scanning.msg<i+1>", so the
   * constant list and the translation table agree.
   */
  lemma ScanningMessagesAreEnglish(i: nat)
    requires i < |ScanningMessages|
    ensures var key := "scanning.msg" + Strings.DecimalString(i + 1);
            key in Translations.En && Translations.En[key] == ScanningMessages[i]
  {
    ScanningMessagesInSection(i);
    Translations.EnglishScanningSection("scanning.msg" + Strings.DecimalString(i + 1));
  }
}
