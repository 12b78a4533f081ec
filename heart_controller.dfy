/** The prediction action: the risk tier of the logistic probability and the
    label of the forest's classification. */
module HeartController {
  import opened Wrappers

  datatype RiskTier = Low | Medium | High

  /** The tier of a percentage: at least 70 is high, at least 40 medium,
      anything lower low. */
  function Tier(riskProbability: real): (r: RiskTier)
    ensures r == High <==> riskProbability >= 70.0
    ensures r == Medium <==> 40.0 <= riskProbability < 70.0
    ensures r == Low <==> riskProbability < 40.0
  {
    if riskProbability >= 70.0 then High
    else if riskProbability >= 40.0 then Medium
    else Low
  }

  function TierRank(t: RiskTier): nat {
    match t
    case Low => 0
    case Medium => 1
    case High => 2
  }

  /** A higher probability never gives a lower tier. */
  lemma TierMonotone(p: real, q: real)
    requires p <= q
    ensures TierRank(Tier(p)) <= TierRank(Tier(q))
  {
  }

  function RiskLevel(t: RiskTier): string {
    match t
    case High => "Yüksek Risk"
    case Medium => "Orta Risk"
    case Low => "Düşük Risk"
  }

  function RiskColor(t: RiskTier): string {
    match t
    case High => "danger"
    case Medium => "warning"
    case Low => "success"
  }

  function RiskMessage(t: RiskTier): string {
    match t
    case High => "Kalp hastalığı riski yüksek. Lütfen bir kardiyolog ile görüşün."
    case Medium => "Kalp hastalığı riski orta seviyede. Düzenli kontrol önerilir."
    case Low => "Kalp hastalığı riski düşük. Sağlıklı yaşam tarzınızı sürdürün."
  }

  datatype HeartResultViewModel = HeartResultViewModel(
    hasHeartDisease: bool, riskProbability: real,
    riskLevel: string, riskColor: string, message: string, classificationResult: string)

  /** What the action renders: the input form again (with an error message
      when prediction threw) or the result page. */
  datatype ActionResult = IndexView(error: Option<string>) | ResultView(result: HeartResultViewModel)

  const PredictionErrorPrefix: string := "Tahmin sırasında hata oluştu: "

  /** `prediction` is the two models' answers for the input: the forest's
      class and the logistic probability in [0, 1], or the message of what
      either threw. */
  function Predict(modelStateValid: bool, prediction: Attempt<(bool, real)>): (r: ActionResult)
    ensures !modelStateValid ==> r == IndexView(None)
    ensures modelStateValid && prediction.Threw? ==>
      r == IndexView(Some(PredictionErrorPrefix + prediction.message))
    ensures modelStateValid && prediction.Done? ==>
      r.ResultView? &&
      r.result.hasHeartDisease == prediction.value.0 &&
      r.result.riskProbability == prediction.value.1 * 100.0 &&
      r.result.classificationResult == (if prediction.value.0 then "Risk Var" else "Risk Yok") &&
      r.result.riskLevel == RiskLevel(Tier(prediction.value.1 * 100.0)) &&
      r.result.riskColor == RiskColor(Tier(prediction.value.1 * 100.0)) &&
      r.result.message == RiskMessage(Tier(prediction.value.1 * 100.0))
  {
    if !modelStateValid then IndexView(None)
    else
      match prediction
      case Threw(message) => IndexView(Some(PredictionErrorPrefix + message))
      case Done((hasHeartDisease, riskProbability)) =>
        var percentage := riskProbability * 100.0;
        var tier := Tier(percentage);
        ResultView(HeartResultViewModel(
          hasHeartDisease, percentage, RiskLevel(tier), RiskColor(tier), RiskMessage(tier),
          if hasHeartDisease then "Risk Var" else "Risk Yok"))
  }

  /** A probability in [0, 1] gives a percentage in [0, 100], and its tier is
      read off the percentage thresholds 0.4 and 0.7 of the probability. */
  lemma PercentageTiers(probability: real)
    requires 0.0 <= probability <= 1.0
    ensures 0.0 <= probability * 100.0 <= 100.0
    ensures Tier(probability * 100.0) == High <==> probability >= 0.7
    ensures Tier(probability * 100.0) == Low <==> probability < 0.4
  {
  }
}
