/** Prediction post-processing of model/predict.py: severity grading, the
    label chosen from the network's class-probability vector, the assembled
    result, and the search for the last Conv2D layer used by Grad-CAM. The
    network itself is outside the model: its output is a parameter. */
module Predict {
  import opened Wrappers
  import opened PyText
  import opened MedicalInsights

  /** The class labels, in the network's output order. */
  const ClassNames: seq<string> := ["COVID19", "NORMAL", "PNEUMONIA", "TUBERCULOSIS"]

  // ---------------------------------------------------------------------------
  // get_severity
  // ---------------------------------------------------------------------------

  /** get_severity: 'N/A' for NORMAL, otherwise graded on confidence x 100.
      Every non-NORMAL class is graded, although the module's doc comment
      says the grading is for pneumonia only. */
  function GetSeverity(prediction: string, confidence: real): (r: string)
    ensures r == "N/A" <==> prediction == "NORMAL"
    ensures r in {"N/A", "Severe", "Moderate", "Mild"}
  {
    if prediction == "NORMAL" then "N/A"
    else
      var pct := confidence * 100.0;
      if pct >= 85.0 then "Severe"
      else if pct >= 65.0 then "Moderate"
      else "Mild"
  }

  /** Order of the grades: N/A < Mild < Moderate < Severe. */
  function SeverityRank(s: string): nat {
    if s == "Severe" then 3 else if s == "Moderate" then 2 else if s == "Mild" then 1 else 0
  }

  /** For a non-NORMAL prediction the grade is Severe iff confidence x 100 >= 85,
      Moderate iff it is in [65, 85) and Mild iff it is below 65. */
  lemma SeverityGrades(prediction: string, confidence: real)
    requires prediction != "NORMAL"
    ensures GetSeverity(prediction, confidence) == "Severe" <==> confidence * 100.0 >= 85.0
    ensures GetSeverity(prediction, confidence) == "Moderate" <==> 65.0 <= confidence * 100.0 < 85.0
    ensures GetSeverity(prediction, confidence) == "Mild" <==> confidence * 100.0 < 65.0
  {
  }

  /** A higher confidence never gives a lower grade. */
  lemma SeverityMonotone(prediction: string, c1: real, c2: real)
    requires c1 <= c2
    ensures SeverityRank(GetSeverity(prediction, c1)) <= SeverityRank(GetSeverity(prediction, c2))
  {
  }

  // ---------------------------------------------------------------------------
  // Label selection and result assembly (predict_xray, real inference)
  // ---------------------------------------------------------------------------

  /** numpy's argmax: the first index of a maximal element. */
  function ArgMax(p: seq<real>): (k: nat)
    requires |p| > 0
    ensures k < |p|
    ensures forall j :: 0 <= j < |p| ==> p[j] <= p[k]
    ensures forall j :: 0 <= j < k ==> p[j] < p[k]
  {
    ArgMaxBelow(p, |p|)
  }

  /** The first index of a maximal element among the first n. */
  function ArgMaxBelow(p: seq<real>, n: nat): (k: nat)
    requires 0 < n <= |p|
    ensures k < n
    ensures forall j :: 0 <= j < n ==> p[j] <= p[k]
    ensures forall j :: 0 <= j < k ==> p[j] < p[k]
  {
    if n == 1 then 0
    else
      var k := ArgMaxBelow(p, n - 1);
      if p[n - 1] > p[k] then n - 1 else k
  }

  /** The dictionary predict_xray returns after real inference. */
  datatype Prediction = Prediction(
    prediction: string,
    confidence: real,
    confidencePct: real,
    severity: string,
    probabilities: map<string, real>,
    advice: Advice,
    risk: Risk,
    demoMode: bool)

  /** `{CLASS_NAMES[i]: predictions[i] for i in range(4)}`. */
  function ProbabilityMap(probs: seq<real>): map<string, real>
    requires |probs| == |ClassNames|
  {
    map[ClassNames[0] := probs[0], ClassNames[1] := probs[1],
        ClassNames[2] := probs[2], ClassNames[3] := probs[3]]
  }

  /** predict_xray after `model.predict`: the prediction at the first maximal
      probability; severity, advice and risk derived from that probability;
      the confidence returned rounded to 4 places and the percentage to 2;
      and the full probability map. */
  function AssemblePrediction(probs: seq<real>): (r: Prediction)
    requires |probs| == |ClassNames|
    ensures r.prediction in ClassNames
    ensures exists k :: 0 <= k < |probs| && r.prediction == ClassNames[k]
                        && (forall j :: 0 <= j < k ==> probs[j] < probs[k])
                        && (forall j :: 0 <= j < |probs| ==> probs[j] <= probs[k])
    ensures r.prediction == ClassNames[ArgMax(probs)]
    ensures r.probabilities.Keys == {"COVID19", "NORMAL", "PNEUMONIA", "TUBERCULOSIS"}
    ensures forall i :: 0 <= i < |probs| ==> r.probabilities[ClassNames[i]] == probs[i]
    ensures r.confidence == Round(probs[ArgMax(probs)], 4)
    ensures r.confidencePct == Round(probs[ArgMax(probs)] * 100.0, 2)
    ensures r.severity == GetSeverity(r.prediction, probs[ArgMax(probs)])
    ensures r.risk == ComputeClinicalRisk(r.prediction, probs[ArgMax(probs)] * 100.0, Some(r.severity), None)
    ensures r.advice == GetMedicalAdvice(r.prediction, Some(r.severity))
    ensures !r.demoMode
  {
    var k := ArgMax(probs);
    var prediction := ClassNames[k];
    var confidence := probs[k];
    var severity := GetSeverity(prediction, confidence);
    Prediction(
      prediction, Round(confidence, 4), Round(confidence * 100.0, 2), severity, ProbabilityMap(probs),
      GetMedicalAdvice(prediction, Some(severity)),
      ComputeClinicalRisk(prediction, confidence * 100.0, Some(severity), None),
      false)
  }

  /** The prediction with its risk computed from the confidence it returns
      (rounded to 4 places) rather than from the raw probability, so that a
      report stored from it re-derives the same risk. */
  function AssemblePredictionConsistent(probs: seq<real>): (r: Prediction)
    requires |probs| == |ClassNames|
    ensures r.(risk := AssemblePrediction(probs).risk) == AssemblePrediction(probs)
    ensures r.risk == ComputeClinicalRisk(r.prediction, r.confidence * 100.0, Some(r.severity), None)
  {
    var p := AssemblePrediction(probs);
    p.(risk := ComputeClinicalRisk(p.prediction, p.confidence * 100.0, Some(p.severity), None))
  }

  // ---------------------------------------------------------------------------
  // Last Conv2D layer search (generate_gradcam)
  // ---------------------------------------------------------------------------

  /** A Keras layer as the search sees it: its name, whether it is a Conv2D,
      and its own `layers` when it has that attribute (a nested model). */
  datatype Layer = Layer(name: string, isConv2D: bool, sublayers: Option<seq<Layer>>)

  /** The inner scan: the last Conv2D of a layer list, if any. */
  function LastConvIn(layers: seq<Layer>): (r: Option<string>)
    ensures r.None? <==> forall i :: 0 <= i < |layers| ==> !layers[i].isConv2D
    ensures r.Some? ==> exists i :: 0 <= i < |layers| && layers[i].isConv2D && layers[i].name == r.value
                                    && forall j :: i < j < |layers| ==> !layers[j].isConv2D
  {
    if |layers| == 0 then None
    else if layers[|layers| - 1].isConv2D then Some(layers[|layers| - 1].name)
    else LastConvIn(layers[..|layers| - 1])
  }

  /** The outer scan over `layers`, from the end, carrying `last_conv_layer`:
      a top-level Conv2D ends the scan; a nested model's last Conv2D is
      recorded and ends the scan unless its name is empty (falsy). */
  function ScanFrom(layers: seq<Layer>, last: Option<string>): Option<string> {
    if |layers| == 0 then last
    else
      var l := layers[|layers| - 1];
      if l.isConv2D then Some(l.name)
      else if l.sublayers.Some? && LastConvIn(l.sublayers.value).Some? then
        var found := LastConvIn(l.sublayers.value);
        if found.value != "" then found else ScanFrom(layers[..|layers| - 1], found)
      else ScanFrom(layers[..|layers| - 1], last)
  }

  /** The name the layer search ends with, None when it finds nothing. */
  function FindLastConv(layers: seq<Layer>): Option<string> {
    ScanFrom(layers, None)
  }

  /** A top-level layer is a Conv2D, or a nested model holding one. */
  predicate HoldsConv(l: Layer) {
    l.isConv2D || (l.sublayers.Some? && LastConvIn(l.sublayers.value).Some?)
  }

  /** The name a layer contributes when the scan reaches it. */
  function HitName(l: Layer): string
    requires HoldsConv(l)
  {
    if l.isConv2D then l.name else LastConvIn(l.sublayers.value).value
  }

  /** The search finds nothing exactly when no top-level layer is a Conv2D
      and no nested model holds one. */
  lemma {:induction false} ScanNoneIff(layers: seq<Layer>, last: Option<string>)
    ensures ScanFrom(layers, last).None? <==> last.None? && forall i :: 0 <= i < |layers| ==> !HoldsConv(layers[i])
  {
    if |layers| > 0 {
      var l := layers[|layers| - 1];
      var pre := layers[..|layers| - 1];
      if l.isConv2D {
      } else if l.sublayers.Some? && LastConvIn(l.sublayers.value).Some? {
        ScanNoneIff(pre, LastConvIn(l.sublayers.value));
      } else {
        ScanNoneIff(pre, last);
        assert forall i :: 0 <= i < |pre| ==> pre[i] == layers[i];
      }
    }
  }

  /** With non-empty layer names, the search returns the name contributed by
      the last top-level layer that holds a Conv2D: the first one met. */
  lemma {:induction false} ScanFindsFirstMet(layers: seq<Layer>)
    requires forall i :: 0 <= i < |layers| && HoldsConv(layers[i]) ==> HitName(layers[i]) != ""
    requires exists i :: 0 <= i < |layers| && HoldsConv(layers[i])
    ensures exists i :: FirstMetAt(layers, i) && FindLastConv(layers) == Some(HitName(layers[i]))
  {
    var k := |layers| - 1;
    var pre := layers[..k];
    if HoldsConv(layers[k]) {
      ScanHitsLast(layers);
      assert FirstMetAt(layers, k);
    } else {
      var i :| 0 <= i < |layers| && HoldsConv(layers[i]);
      assert pre[i] == layers[i];
      forall j | 0 <= j < |pre| && HoldsConv(pre[j]) ensures HitName(pre[j]) != "" {
        assert pre[j] == layers[j];
      }
      ScanFindsFirstMet(pre);
      ScanSkipsLast(layers);
      var m :| FirstMetAt(pre, m) && FindLastConv(pre) == Some(HitName(pre[m]));
      FirstMetExtends(layers, m);
    }
  }

  /** A last layer holding a Conv2D under a non-empty name ends the search. */
  lemma ScanHitsLast(layers: seq<Layer>)
    requires |layers| > 0 && HoldsConv(layers[|layers| - 1]) && HitName(layers[|layers| - 1]) != ""
    ensures FindLastConv(layers) == Some(HitName(layers[|layers| - 1]))
  {
  }

  /** A last layer holding no Conv2D is passed over. */
  lemma ScanSkipsLast(layers: seq<Layer>)
    requires |layers| > 0 && !HoldsConv(layers[|layers| - 1])
    ensures FindLastConv(layers) == FindLastConv(layers[..|layers| - 1])
  {
  }

  /** The first layer met in a prefix stays the first met when the layer
      appended after it holds no Conv2D. */
  lemma FirstMetExtends(layers: seq<Layer>, m: int)
    requires |layers| > 0 && !HoldsConv(layers[|layers| - 1])
    requires FirstMetAt(layers[..|layers| - 1], m)
    ensures FirstMetAt(layers, m) && HitName(layers[m]) == HitName(layers[..|layers| - 1][m])
  {
    var pre := layers[..|layers| - 1];
    assert pre[m] == layers[m];
    forall j | m < j < |layers| ensures !HoldsConv(layers[j]) {
      if j < |pre| {
        assert pre[j] == layers[j];
      }
    }
  }

  /** Layer `i` holds a Conv2D and no later top-level layer does: the scan
      from the end meets it first. */
  predicate FirstMetAt(layers: seq<Layer>, i: int) {
    0 <= i < |layers| && HoldsConv(layers[i]) && forall j :: i < j < |layers| ==> !HoldsConv(layers[j])
  }

  /** The search, as generate_gradcam performs it: a loop over the layers
      in reverse, leaving by `break`. */
  method FindLastConvLayer(layers: seq<Layer>) returns (last: Option<string>)
    ensures last == FindLastConv(layers)
  {
    last := None;
    var i := |layers|;
    assert layers[..i] == layers;
    while i > 0
      invariant 0 <= i <= |layers|
      invariant ScanFrom(layers[..i], last) == FindLastConv(layers)
      invariant last.None? || last.value == ""
    {
      var layer := layers[i - 1];
      assert layers[..i][..i - 1] == layers[..i - 1];
      if layer.isConv2D {
        last := Some(layer.name);
        break;
      }
      if layer.sublayers.Some? {
        var found := LastConvLayerIn(layer.sublayers.value);
        if found.Some? {
          last := found;
        }
        if last.Some? && last.value != "" {
          break;
        }
      }
      i := i - 1;
    }
  }

  /** The inner loop over a nested model's layers in reverse: the first
      Conv2D met, leaving by `break`. */
  method LastConvLayerIn(subs: seq<Layer>) returns (found: Option<string>)
    ensures found == LastConvIn(subs)
  {
    found := None;
    var j := |subs|;
    assert subs[..j] == subs;
    while j > 0
      invariant 0 <= j <= |subs|
      invariant LastConvIn(subs) == LastConvIn(subs[..j])
    {
      assert subs[..j][..j - 1] == subs[..j - 1];
      if subs[j - 1].isConv2D {
        found := Some(subs[j - 1].name);
        return;
      }
      j := j - 1;
    }
  }

  /** `base_model.get_layer(name)` on `model.layers[0]` succeeds: the first
      layer is a nested model holding a layer of that name. */
  predicate BaseHasLayer(layers: seq<Layer>, name: string) {
    |layers| > 0 && layers[0].sublayers.Some?
    && exists s :: s in layers[0].sublayers.value && s.name == name
  }

  /** generate_gradcam: None without a loaded model, None when no Conv2D is
      found or the first layer cannot give it, otherwise `save_path` when the
      tensor work succeeds (`camSucceeded`) and None on any exception. */
  method GenerateGradcam(modelLoaded: bool, layers: seq<Layer>, camSucceeded: bool, savePath: string)
    returns (r: Option<string>)
    ensures r.Some? ==> r.value == savePath
    ensures r.Some? <==> modelLoaded && camSucceeded && FindLastConv(layers).Some?
                         && BaseHasLayer(layers, FindLastConv(layers).value)
    ensures r.Some? ==> exists i :: 0 <= i < |layers| && HoldsConv(layers[i])
  {
    if !modelLoaded {
      return None;
    }
    var target := FindLastConvLayer(layers);
    if target.None? {
      return None;
    }
    ScanNoneIff(layers, None);
    if !BaseHasLayer(layers, target.value) {
      return None;
    }
    r := if camSucceeded then Some(savePath) else None;
  }
}
