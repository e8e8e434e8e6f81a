/** Clinical knowledge base and risk scoring of model/medical_insights.py:
    the advice entry for a predicted label (with its severity prefix) and the
    additive clinical-risk score with its three level thresholds (four levels). */
module MedicalInsights {
  import opened Wrappers
  import opened PyText

  // ---------------------------------------------------------------------------
  // Knowledge base (get_medical_advice)
  // ---------------------------------------------------------------------------

  datatype RegimenStep = RegimenStep(phase: string, medicine: string, dose: string, price: string, link: string)

  datatype Medication = Medication(
    name: string,
    dosage: string,
    price: string,
    link: string,
    buyingNote: string,
    lastUpdated: string,
    regimen: seq<RegimenStep>)

  /** One knowledge-base entry; NORMAL has no medication (Python None). */
  datatype Advice = Advice(description: string, diet: string, aiInsight: string, medication: Option<Medication>)

  const Covid19Entry: Advice := Advice(
    description := "Viral respiratory infection caused by SARS-CoV-2. Radiographic evidence shows ground-glass opacities and peripheral lung involvement.",
    diet := "• High-protein diet for tissue repair.\n• Anti-inflammatory foods (garlic, turmeric).\n• Adequate hydration (2-3L/day).\n• Vitamin C and Zinc rich foods.",
    aiInsight := "Model detected characteristic peripheral opacities consistent with viral pneumonia spikes.",
    medication := Some(Medication(
      name := "Paxlovid (Nirmatrelvir/Ritonavir) or Remdesivir",
      dosage := "Antiviral choice depends on risk profile and symptom onset window (doctor prescribed).",
      price := "Varies by antiviral and city pharmacy inventory.",
      link := "https://www.1mg.com/drugs/paxzen-150mg-100mg-tablet-731320",
      buyingNote := "COVID antivirals should be started only after physician review (renal/liver/drug-interaction checks).",
      lastUpdated := "Feb 2026 (India market snapshots)",
      regimen := [
        RegimenStep(
          "Early outpatient (if prescribed)",
          "Paxzen (Nirmatrelvir/Ritonavir)",
          "300/100 mg twice daily for 5 days (start early in eligible high-risk cases).",
          "Approx. ₹5,000 per 30-tablet pack",
          "https://www.1mg.com/drugs/paxzen-150mg-100mg-tablet-731320"),
        RegimenStep(
          "Alternative oral antiviral (if prescribed)",
          "Molnunat 200 mg (Molnupiravir)",
          "800 mg every 12 hours for 5 days (adult protocol).",
          "Approx. ₹42.23/capsule (~₹1,689 per 40 capsules)",
          "https://www.1mg.com/drugs/molnunat-200mg-capsule-707831"),
        RegimenStep(
          "Symptom relief (adjunct)",
          "Paracetamol 650 mg",
          "Common adult use: 1 tablet every 6-8 hours for fever (max 3 g/day unless doctor advises).",
          "Approx. ₹20-40 / strip (brand dependent)",
          "https://www.1mg.com/search/all?name=paracetamol%20650")
      ])))

  const PneumoniaEntry: Advice := Advice(
    description := "Acute inflammation of the lung parenchyma. X-rays show focal or multi-focal air-space consolidation and fluid accumulation.",
    diet := "• Warm fluids (broths, herb teas).\n• Potassium-rich foods for respiratory muscle support.\n• Small, frequent, calorie-dense meals.\n• Avoid heavy dairy if mucus production is high.",
    aiInsight := "Analysis identified dense alveolar consolidation patterns in the lower pulmonary segments.",
    medication := Some(Medication(
      name := "Amoxicillin or Azithromycin",
      dosage := "Antibiotic selection depends on severity, age, comorbidity, and likely organism.",
      price := "Varies by brand and duration (typically 5-10 days).",
      link := "https://www.1mg.com/drugs/NOVAMOX-500-MG-CAPSULE-121841",
      buyingNote := "Do not self-start antibiotics. A clinician should confirm bacterial pneumonia before treatment.",
      lastUpdated := "Feb 2026 (India market snapshots)",
      regimen := [
        RegimenStep(
          "Common first-line oral option",
          "Novamox 500 (Amoxycillin)",
          "Common adult regimen: 500 mg every 8 hours, typically 5-7 days (doctor may adjust).",
          "Approx. ₹110 / strip of 15 capsules",
          "https://www.1mg.com/drugs/NOVAMOX-500-MG-CAPSULE-121841"),
        RegimenStep(
          "Atypical coverage option",
          "Azithral 500 (Azithromycin)",
          "Common adult regimen: 500 mg once daily for 3-5 days (as prescribed).",
          "Approx. ₹114 / strip of 5 tablets",
          "https://www.1mg.com/drugs/azithral-500-tablet-325616"),
        RegimenStep(
          "Alternative (case-dependent)",
          "Doxycycline 100 mg",
          "Common adult regimen: 100 mg twice daily, usually 5-7 days (doctor-selected cases).",
          "Approx. ₹71.44 / strip of 8 capsules",
          "https://pharmeasy.in/online-medicine-order/doxy-1-100-capsule-8-no-s-3732755")
      ])))

  const TuberculosisEntry: Advice := Advice(
    description := "Infectious bacterial disease characterized by the growth of nodules (tubercules) in the tissues, especially the lungs.",
    diet := "• High calorie, high protein intake to prevent weight loss.\n• Iron and Vitamin B complex supplementation.\n• Fresh fruits (oranges, amla) for immune boost.\n• Avoid tobacco and alcohol.",
    aiInsight := "Detection focused on upper-lobe infiltrates and potential cavitary lesions typical of TB.",
    medication := Some(Medication(
      name := "First-line ATT (HRZE -> HR) for drug-susceptible TB",
      dosage := "WHO/NTEP standard: 2 months HRZE + 4 months HR, daily, weight-based.",
      price := "NTEP DOTS is free at government TB centers. Private pharmacy cost varies by brand.",
      link := "https://www.1mg.com/drugs-therapeutic-classes/drug-class-120",
      buyingNote := "Prescription required. Confirm diagnosis (GeneXpert/sputum + DST) before purchase.",
      lastUpdated := "Feb 2026 (India market snapshots)",
      regimen := [
        RegimenStep(
          "Intensive phase (first 2 months)",
          "Forecox Tablet (HRZE FDC: H150 + R225 + Z750 + E400)",
          "Adult dosing is weight-based; clinician decides daily tablet count.",
          "Approx. ₹103.08 / strip of 6 tablets",
          "https://www.1mg.com/drugs/forecox-tablet-125637"),
        RegimenStep(
          "Alternative HRZE option",
          "Akurit 4 Tablet (HRZE FDC)",
          "Use only under TB specialist guidance and weight band protocol.",
          "Approx. ₹86.2 / strip of 10 tablets",
          "https://www.1mg.com/drugs/akurit-4-tablet-147003"),
        RegimenStep(
          "Continuation phase (next 4 months)",
          "R-Cinex 600 Tablet (HR FDC: R600 + H300)",
          "Common adult band: 300 mg INH + 600 mg RIF daily (doctor-adjusted).",
          "Approx. ₹49.78 / strip of 3 tablets",
          "https://www.1mg.com/drugs/r-cinex-600-tablet-274076"),
        RegimenStep(
          "Neuropathy prophylaxis (adjunct)",
          "Vitamin B6 (Pyridoxine, e.g., Benadon 40 mg)",
          "Usually 25-50 mg/day with isoniazid (as prescribed).",
          "Approx. ₹41.6 / strip of 15 tablets",
          "https://www.1mg.com/otc/benadon-40mg-for-immunity-mood-regulation-protein-breakdown-tablet-otc869983")
      ])))

  const NormalEntry: Advice := Advice(
    description := "No significant radiographic abnormalities detected. Lung fields are clear, and cardiac silhouette is within normal limits.",
    diet := "• Maintain a balanced diet (plate method).\n• Regular cardiovascular exercise.\n• Adequate sleep (7-9 hours).\n• Annual health screenings.",
    aiInsight := "Model confirmed clear pulmonary parenchyma and healthy airway distribution.",
    medication := None)
  /** The knowledge base, keyed by upper-case class label. */
  const KnowledgeBase: map<string, Advice> := map[
    "COVID19" := Covid19Entry,
    "PNEUMONIA" := PneumoniaEntry,
    "TUBERCULOSIS" := TuberculosisEntry,
    "NORMAL" := NormalEntry]

  /** `knowledge_base.get(prediction.upper(), knowledge_base['NORMAL'])`. */
  function AdviceEntry(prediction: string): Advice {
    var key := Upper(prediction);
    if key in KnowledgeBase then KnowledgeBase[key] else NormalEntry
  }

  /** Python truthiness of an optional string: present and non-empty. */
  predicate Truthy(s: Option<string>) {
    s.Some? && s.value != ""
  }

  /** The condition under which the description gets a severity prefix; the
      comparison with 'NORMAL' is on the label as given, not upper-cased. */
  predicate TakesSeverityPrefix(prediction: string, severity: Option<string>) {
    Truthy(severity) && severity.value != "N/A" && prediction != "NORMAL"
  }

  /** `"[<severity> CASE] "`. */
  function SeverityPrefix(severity: string): string {
    "[" + severity + " CASE] "
  }

  /** get_medical_advice: the entry for the label, whose description is
      prefixed with the severity when TakesSeverityPrefix holds. Every other
      field is the entry's own. */
  function GetMedicalAdvice(prediction: string, severity: Option<string>): (r: Advice)
    ensures r.(description := AdviceEntry(prediction).description) == AdviceEntry(prediction)
    ensures TakesSeverityPrefix(prediction, severity) ==>
              r.description == SeverityPrefix(severity.value) + AdviceEntry(prediction).description
    ensures !TakesSeverityPrefix(prediction, severity) ==> r == AdviceEntry(prediction)
  {
    var entry := AdviceEntry(prediction);
    if TakesSeverityPrefix(prediction, severity) then
      entry.(description := SeverityPrefix(severity.value) + entry.description)
    else entry
  }

  /** The lookup ignores ASCII case, and any label outside the four keys gets
      the NORMAL entry. */
  lemma AdviceLookup(prediction: string)
    ensures Upper(prediction) in KnowledgeBase ==> AdviceEntry(prediction) == KnowledgeBase[Upper(prediction)]
    ensures Upper(prediction) !in KnowledgeBase ==> AdviceEntry(prediction) == KnowledgeBase["NORMAL"]
    ensures Upper(prediction) in KnowledgeBase <==>
              Upper(prediction) in {"COVID19", "PNEUMONIA", "TUBERCULOSIS", "NORMAL"}
  {
  }

  /** The description is prefixed exactly when TakesSeverityPrefix holds: the
      prefixed description is strictly longer than the entry's. */
  lemma PrefixExactlyWhen(prediction: string, severity: Option<string>)
    ensures |GetMedicalAdvice(prediction, severity).description| > |AdviceEntry(prediction).description|
            <==> TakesSeverityPrefix(prediction, severity)
  {
  }

  /** A lower-case "normal" label reaches the NORMAL entry and yet is
      prefixed, because the prefix test compares the label case-sensitively. */
  lemma LowerCaseNormalIsPrefixed()
    ensures GetMedicalAdvice("normal", Some("Mild")).description == "[Mild CASE] " + NormalEntry.description
  {
    UpperNormal();
  }

  lemma UpperNormal()
    ensures Upper("normal") == "NORMAL"
  {
    var u := Upper("normal");
    assert u[0] == UpperChar('n') == 'N' && u[1] == UpperChar('o') == 'O';
    assert u[2] == UpperChar('r') == 'R' && u[3] == UpperChar('m') == 'M';
    assert u[4] == UpperChar('a') == 'A' && u[5] == UpperChar('l') == 'L';
  }

  /** The NORMAL entry is the only one without medication, and every other
      entry carries a non-empty regimen. */
  lemma MedicationPresence()
    ensures forall k :: k in KnowledgeBase ==> (KnowledgeBase[k].medication.None? <==> k == "NORMAL")
    ensures forall k :: k in KnowledgeBase && k != "NORMAL" ==> |KnowledgeBase[k].medication.value.regimen| > 0
  {
  }

  // ---------------------------------------------------------------------------
  // Clinical risk (compute_clinical_risk)
  // ---------------------------------------------------------------------------

  /** A risk assessment: level, Bootstrap colour and CSS class. */
  datatype Risk = Risk(level: string, color: string, cssClass: string)

  const StableRisk := Risk("Stable", "success", "state-normal")
  const CriticalRisk := Risk("Critical", "danger", "risk-critical")
  const SevereRisk := Risk("Severe", "orange", "risk-severe")
  const ModerateRisk := Risk("Moderate", "warning", "risk-moderate")
  const MildRisk := Risk("Mild", "info", "risk-mild")

  /** The five assessments compute_clinical_risk can return. */
  const RiskTable: set<Risk> := {StableRisk, CriticalRisk, SevereRisk, ModerateRisk, MildRisk}

  /** Base score from the severity label (case-sensitive, None allowed). */
  function SeverityPoints(severity: Option<string>): real {
    if severity == Some("Severe") then 40.0
    else if severity == Some("Moderate") then 20.0
    else 10.0
  }

  /** SpO2 weight; `if spo2:` treats an absent reading and a reading of 0 alike. */
  function SpO2Points(spo2: Option<real>): real {
    if spo2.Some? && spo2.value != 0.0 then
      if spo2.value < 85.0 then 50.0
      else if spo2.value < 92.0 then 30.0
      else 0.0
    else 0.0
  }

  /** The additive score of a non-normal prediction (confidence in percent). */
  function RiskScore(severity: Option<string>, confidence: real, spo2: Option<real>): real {
    SeverityPoints(severity) + confidence * 0.4 + SpO2Points(spo2)
  }

  /** The level of a score: Critical >= 80, Severe >= 50, Moderate >= 30, else Mild. */
  function LevelForScore(score: real): (r: Risk)
    ensures r == CriticalRisk <==> score >= 80.0
    ensures r == SevereRisk <==> 50.0 <= score < 80.0
    ensures r == ModerateRisk <==> 30.0 <= score < 50.0
    ensures r == MildRisk <==> score < 30.0
  {
    if score >= 80.0 then CriticalRisk
    else if score >= 50.0 then SevereRisk
    else if score >= 30.0 then ModerateRisk
    else MildRisk
  }

  /** compute_clinical_risk. `confidence` is in percent, `spo2` optional. */
  function ComputeClinicalRisk(prediction: string, confidence: real, severity: Option<string>, spo2: Option<real>): (r: Risk)
    ensures r in RiskTable
    ensures r == StableRisk <==> Upper(prediction) == "NORMAL"
    ensures r != StableRisk ==> r == LevelForScore(RiskScore(severity, confidence, spo2))
  {
    if Upper(prediction) == "NORMAL" then StableRisk
    else LevelForScore(RiskScore(severity, confidence, spo2))
  }

  /** Order of the levels: Stable < Mild < Moderate < Severe < Critical. */
  function RiskRank(r: Risk): nat {
    if r == CriticalRisk then 4
    else if r == SevereRisk then 3
    else if r == ModerateRisk then 2
    else if r == MildRisk then 1
    else 0
  }

  /** A higher score never gives a lower level. */
  lemma LevelMonotone(s1: real, s2: real)
    requires s1 <= s2
    ensures RiskRank(LevelForScore(s1)) <= RiskRank(LevelForScore(s2))
  {
  }

  /** The base score is 40 for 'Severe', 20 for 'Moderate' and 10 for every
      other severity, None, 'N/A' and 'Mild' included. */
  lemma SeverityPointsCases(severity: Option<string>)
    ensures SeverityPoints(severity) == 40.0 <==> severity == Some("Severe")
    ensures SeverityPoints(severity) == 20.0 <==> severity == Some("Moderate")
    ensures SeverityPoints(severity) == 10.0 <==> severity != Some("Severe") && severity != Some("Moderate")
  {
  }

  /** SpO2 adds 50 below 85, 30 in [85, 92), nothing at 92 or above, and
      nothing when absent or 0. */
  lemma SpO2PointsCases(spo2: Option<real>)
    ensures spo2.None? || spo2 == Some(0.0) ==> SpO2Points(spo2) == 0.0
    ensures spo2.Some? && spo2.value != 0.0 && spo2.value < 85.0 ==> SpO2Points(spo2) == 50.0
    ensures spo2.Some? && 85.0 <= spo2.value < 92.0 ==> SpO2Points(spo2) == 30.0
    ensures spo2.Some? && spo2.value >= 92.0 ==> SpO2Points(spo2) == 0.0
  {
  }

  /** A NORMAL label (in any ASCII case) is Stable whatever the other inputs. */
  lemma NormalIsStable(prediction: string, confidence: real, severity: Option<string>, spo2: Option<real>)
    requires Upper(prediction) == "NORMAL"
    ensures ComputeClinicalRisk(prediction, confidence, severity, spo2) == StableRisk
  {
  }

  /** Raising the confidence, the rest fixed, never lowers the level. */
  lemma RiskMonotoneInConfidence(prediction: string, c1: real, c2: real, severity: Option<string>, spo2: Option<real>)
    requires c1 <= c2
    ensures RiskRank(ComputeClinicalRisk(prediction, c1, severity, spo2))
            <= RiskRank(ComputeClinicalRisk(prediction, c2, severity, spo2))
  {
    if Upper(prediction) != "NORMAL" {
      LevelMonotone(RiskScore(severity, c1, spo2), RiskScore(severity, c2, spo2));
    }
  }

  /** Lowering a (non-zero) SpO2 reading, the rest fixed, never lowers the level. */
  lemma RiskMonotoneInSpO2(prediction: string, confidence: real, severity: Option<string>, s1: real, s2: real)
    requires s1 <= s2 && s1 != 0.0 && s2 != 0.0
    ensures RiskRank(ComputeClinicalRisk(prediction, confidence, severity, Some(s2)))
            <= RiskRank(ComputeClinicalRisk(prediction, confidence, severity, Some(s1)))
  {
    if Upper(prediction) != "NORMAL" {
      LevelMonotone(RiskScore(severity, confidence, Some(s2)), RiskScore(severity, confidence, Some(s1)));
    }
  }

  /** A reading of exactly 0 is scored as if there were none (the `if spo2:`
      test), so the monotonicity above does not extend to 0. */
  lemma ZeroSpO2CountsAsAbsent(prediction: string, confidence: real, severity: Option<string>)
    ensures ComputeClinicalRisk(prediction, confidence, severity, Some(0.0))
            == ComputeClinicalRisk(prediction, confidence, severity, None)
    ensures ComputeClinicalRisk("PNEUMONIA", 90.0, Some("Severe"), Some(84.0)) == CriticalRisk
    ensures ComputeClinicalRisk("PNEUMONIA", 90.0, Some("Severe"), Some(0.0)) == SevereRisk
  {
    assert Upper("PNEUMONIA") == "PNEUMONIA";
  }
}
