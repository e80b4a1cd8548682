/**
 * The diagnosis view (src/components/DiagnosisResults.tsx): the lookup tables
 * that turn a result's severity and confidence level into a translation key
 * and a style class, and which cards the view shows.
 */
module DiagnosisResults {
  import opened Wrappers
  import opened DiagnosisTypes
  import Translations

  /** Severity name to the translation key of its label. */
  const SeverityKeys: map<string, string> := map[
    "mild" := "diagnosis.severity.mild",
    "moderate" := "diagnosis.severity.moderate",
    "severe" := "diagnosis.severity.severe",
    "critical" := "diagnosis.severity.critical"
  ]

  /** Severity name to the style class of its badge. */
  const SeverityColors: map<string, string> := map[
    "mild" := "bg-severity-mild text-white",
    "moderate" := "bg-severity-moderate text-white",
    "severe" := "bg-severity-severe text-white",
    "critical" := "bg-severity-critical text-white"
  ]

  /** Confidence level name to the translation key of its label. */
  const ConfidenceKeys: map<string, string> := map[
    "low" := "diagnosis.confidence.low",
    "moderate" := "diagnosis.confidence.moderate",
    "high" := "diagnosis.confidence.high"
  ]

  /** Confidence level name to the style class of its label. */
  const ConfidenceColors: map<string, string> := map[
    "low" := "text-severity-severe",
    "moderate" := "text-severity-moderate",
    "high" := "text-severity-mild"
  ]

  /** A table lookup `table[v]`: `undefined` (None) for a value the table lacks. */
  function Lookup(table: map<string, string>, v: string): (r: Option<string>)
    ensures r.Some? <==> v in table
    ensures r.Some? ==> r.value == table[v]
  {
    if v in table then Some(table[v]) else None
  }

  /** Each severity has the label key "diagnosis.severity.<name>". */
  lemma {:induction false} SeverityKeyEntries(s: Severity)
    ensures Lookup(SeverityKeys, SeverityName(s)) == Some("diagnosis.severity." + SeverityName(s))
  {
    match s
    case Mild => assert "diagnosis.severity." + "mild" == "diagnosis.severity.mild";
    case Moderate => assert "diagnosis.severity." + "moderate" == "diagnosis.severity.moderate";
    case Severe => assert "diagnosis.severity." + "severe" == "diagnosis.severity.severe";
    case Critical => assert "diagnosis.severity." + "critical" == "diagnosis.severity.critical";
  }

  /** Each severity's badge class is "bg-severity-<name> text-white". */
  lemma {:induction false} SeverityColorEntries(s: Severity)
    ensures Lookup(SeverityColors, SeverityName(s)) == Some("bg-severity-" + SeverityName(s) + " text-white")
  {
    match s
    case Mild => assert "bg-severity-" + "mild" + " text-white" == "bg-severity-mild text-white";
    case Moderate => assert "bg-severity-" + "moderate" + " text-white" == "bg-severity-moderate text-white";
    case Severe => assert "bg-severity-" + "severe" + " text-white" == "bg-severity-severe text-white";
    case Critical => assert "bg-severity-" + "critical" + " text-white" == "bg-severity-critical text-white";
  }

  /** Each confidence level has the label key "diagnosis.confidence.<name>". */
  lemma {:induction false} ConfidenceEntries(c: ConfidenceLevel)
    ensures Lookup(ConfidenceKeys, ConfidenceName(c)) == Some("diagnosis.confidence." + ConfidenceName(c))
  {
    match c
    case Low => assert "diagnosis.confidence." + "low" == "diagnosis.confidence.low";
    case Moderate => assert "diagnosis.confidence." + "moderate" == "diagnosis.confidence.moderate";
    case High => assert "diagnosis.confidence." + "high" == "diagnosis.confidence.high";
  }

  /**
   * Confidence colours run opposite to severity: low confidence is styled as
   * severe, moderate as moderate, high as mild.
   */
  lemma {:induction false} ConfidenceColorsInverted()
    ensures Lookup(ConfidenceColors, "low") == Some("text-" + SeverityColor("severe"))
    ensures Lookup(ConfidenceColors, "moderate") == Some("text-" + SeverityColor("moderate"))
    ensures Lookup(ConfidenceColors, "high") == Some("text-" + SeverityColor("mild"))
  {
    assert "text-" + "severity-severe" == "text-severity-severe";
    assert "text-" + "severity-moderate" == "text-severity-moderate";
    assert "text-" + "severity-mild" == "text-severity-mild";
  }

  /** The tables are keyed by exactly the declared names: any other value finds nothing in any of them. */
  lemma TablesCoverExactlyTheEnumerations(v: string)
    ensures v in SeverityKeys <==> ParseSeverity(v).Some?
    ensures v in SeverityColors <==> ParseSeverity(v).Some?
    ensures v in ConfidenceKeys <==> ParseConfidence(v).Some?
    ensures v in ConfidenceColors <==> ParseConfidence(v).Some?
  {
  }

  /** Every label key of the two key tables belongs to the diagnosis-view section of the English table. */
  lemma LabelKeysInDiagnosisSection(v: string)
    ensures v in SeverityKeys ==> SeverityKeys[v] in Translations.EnDiagnosis
    ensures v in ConfidenceKeys ==> ConfidenceKeys[v] in Translations.EnDiagnosis
  {
  }

  /** Every label key the view can look up is defined in the English table. */
  lemma {:induction false} SeverityLabelIsEnglish(v: string)
    requires v in SeverityKeys
    ensures SeverityKeys[v] in Translations.En
  {
    LabelKeysInDiagnosisSection(v);
    Translations.EnglishDiagnosisSection(SeverityKeys[v]);
  }

  /** Every confidence label key is defined in the English table. */
  lemma {:induction false} ConfidenceLabelIsEnglish(v: string)
    requires v in ConfidenceKeys
    ensures ConfidenceKeys[v] in Translations.En
  {
    LabelKeysInDiagnosisSection(v);
    Translations.EnglishDiagnosisSection(ConfidenceKeys[v]);
  }

  /** The summary card's badge and confidence label: a class and a key each, absent when the table lacks the value. */
  datatype Summary = Summary(
    severityClass: Option<string>,
    severityKey: Option<string>,
    confidenceClass: Option<string>,
    confidenceKey: Option<string>)

  function SummaryOf(r: DiagnosisResult): Summary
  {
    Summary(
      Lookup(SeverityColors, r.severity),
      Lookup(SeverityKeys, r.severity),
      Lookup(ConfidenceColors, r.confidenceLevel),
      Lookup(ConfidenceKeys, r.confidenceLevel))
  }

  /**
   * The summary shows a severity badge and a confidence label exactly for the
   * declared names, with the keys and classes the tables promise.
   */
  lemma {:induction false} SummaryShowsDeclaredValues(r: DiagnosisResult)
    ensures var s := SummaryOf(r);
      && ((s.severityClass.Some? && s.severityKey.Some?) <==> ParseSeverity(r.severity).Some?)
      && ((s.confidenceClass.Some? && s.confidenceKey.Some?) <==> ParseConfidence(r.confidenceLevel).Some?)
      && (ParseSeverity(r.severity).Some? ==>
            && s.severityKey == Some("diagnosis.severity." + r.severity)
            && s.severityClass == Some("bg-" + SeverityColor(r.severity) + " text-white"))
      && (ParseConfidence(r.confidenceLevel).Some? ==>
            s.confidenceKey == Some("diagnosis.confidence." + r.confidenceLevel))
  {
    TablesCoverExactlyTheEnumerations(r.severity);
    TablesCoverExactlyTheEnumerations(r.confidenceLevel);
    if ParseSeverity(r.severity).Some? {
      SeverityKeyEntries(ParseSeverity(r.severity).value);
      SeverityColorEntries(ParseSeverity(r.severity).value);
      assert "bg-" + SeverityColor(r.severity) == "bg-severity-" + r.severity by {
        assert "bg-" + "severity-" == "bg-severity-";
      }
    }
    if ParseConfidence(r.confidenceLevel).Some? {
      ConfidenceEntries(ParseConfidence(r.confidenceLevel).value);
    }
  }

  /** A result of the declared shape gets a badge class, a badge key, a confidence class and a confidence key. */
  lemma {:induction false} WellFormedSummaryIsComplete(r: DiagnosisResult)
    requires WellFormed(r)
    ensures var s := SummaryOf(r);
      s.severityClass.Some? && s.severityKey.Some? && s.confidenceClass.Some? && s.confidenceKey.Some?
  {
    SummaryShowsDeclaredValues(r);
  }

  /** The cards and sections of the view, top to bottom. */
  datatype Card =
    | SummaryCard(summary: Summary)
    | MeaningCard(farmerSummary: string)
    | ProfessionalCard(urgencyAdvice: string)
    | SymptomsSection(symptoms: seq<string>)
    | CausesSection(causes: seq<string>)
    | TreatmentSection(treatments: seq<string>)
    | PreventionSection(prevention: seq<string>)

  /**
   * The view of a result: the professional-help card, carrying the urgency
   * advice, appears exactly when the result says a professional is needed;
   * every other card is always there.
   */
  function Cards(r: DiagnosisResult): (cards: seq<Card>)
    ensures ProfessionalCard(r.urgencyAdvice) in cards <==> r.needsProfessional
    ensures forall c | c in cards && c.ProfessionalCard? :: c == ProfessionalCard(r.urgencyAdvice)
    ensures |cards| == if r.needsProfessional then 7 else 6
    ensures cards[0] == SummaryCard(SummaryOf(r)) && cards[1] == MeaningCard(r.farmerSummary)
  {
    [SummaryCard(SummaryOf(r)), MeaningCard(r.farmerSummary)]
    + (if r.needsProfessional then [ProfessionalCard(r.urgencyAdvice)] else [])
    + [SymptomsSection(r.symptoms), CausesSection(r.causes),
       TreatmentSection(r.treatments), PreventionSection(r.prevention)]
  }
}
