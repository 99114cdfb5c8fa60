/** The strategy guardrail of the AI copilot: four ordered checks over a recommendation, and
    the parse-then-validate order of strategy generation. The model call and the JSON parser
    are inputs. */
module Copilot {
  import opened Wrappers

  const PositionTooLargeMessage: string := "Position size too large (max 80%)"
  const InvalidStopLossMessage: string := "Invalid stop-loss value"
  const InvalidProfitTargetMessage: string := "Invalid profit target"
  const ChecklistRequiredMessage: string := "Validation checklist is required"
  const NoResponseMessage: string := "No response from AI"
  /** What reading a field of a missing `riskControls` object throws. */
  const MissingRiskControlsMessage: string := "Cannot read properties of undefined (reading 'maxPositionSize')"

  const MaxPositionSize: real := 80.0

  /** A missing number is `None`. */
  datatype RiskControls = RiskControls(maxPositionSize: Option<real>, stopLoss: Option<real>, profitTarget: Option<real>)

  /** The free-form `parameters` object is not modelled. */
  datatype StrategyRecommendation = StrategyRecommendation(
    strategy: string, riskControls: Option<RiskControls>, rationale: string, checklist: Option<seq<string>>)

  /** JavaScript truthiness of an optional number: present and non-zero. */
  predicate Truthy(x: Option<real>)
  {
    x.Some? && x.value != 0.0
  }

  /** The conditions a recommendation must meet. */
  predicate Acceptable(rec: StrategyRecommendation)
  {
    rec.riskControls.Some?
    && (rec.riskControls.value.maxPositionSize.Some? ==> rec.riskControls.value.maxPositionSize.value <= MaxPositionSize)
    && rec.riskControls.value.stopLoss.Some? && rec.riskControls.value.stopLoss.value < 0.0
    && rec.riskControls.value.profitTarget.Some? && 0.0 < rec.riskControls.value.profitTarget.value
    && rec.checklist.Some? && |rec.checklist.value| > 0
  }

  /** `validateStrategy`: the checks in order, failing with the first one violated. A missing
      position size passes, since `undefined > 80` is false. */
  function ValidateStrategy(rec: StrategyRecommendation): (r: Outcome)
    ensures r.Pass? <==> Acceptable(rec)
    ensures rec.riskControls.None? ==> r == Fail(MissingRiskControlsMessage)
    ensures (rec.riskControls.Some? && rec.riskControls.value.maxPositionSize.Some?
             && rec.riskControls.value.maxPositionSize.value > MaxPositionSize)
            ==> r == Fail(PositionTooLargeMessage)
    ensures r == Fail(InvalidStopLossMessage) <==>
      rec.riskControls.Some?
      && !(rec.riskControls.value.maxPositionSize.Some? && rec.riskControls.value.maxPositionSize.value > MaxPositionSize)
      && (rec.riskControls.value.stopLoss.None? || rec.riskControls.value.stopLoss.value >= 0.0)
    ensures r == Fail(InvalidProfitTargetMessage) <==>
      rec.riskControls.Some? && rec.riskControls.value.stopLoss.Some? && rec.riskControls.value.stopLoss.value < 0.0
      && !(rec.riskControls.value.maxPositionSize.Some? && rec.riskControls.value.maxPositionSize.value > MaxPositionSize)
      && (rec.riskControls.value.profitTarget.None? || rec.riskControls.value.profitTarget.value <= 0.0)
    ensures r == Fail(ChecklistRequiredMessage) <==>
      rec.riskControls.Some? && rec.riskControls.value.stopLoss.Some? && rec.riskControls.value.stopLoss.value < 0.0
      && !(rec.riskControls.value.maxPositionSize.Some? && rec.riskControls.value.maxPositionSize.value > MaxPositionSize)
      && rec.riskControls.value.profitTarget.Some? && 0.0 < rec.riskControls.value.profitTarget.value
      && (rec.checklist.None? || rec.checklist.value == [])
  {
    match rec.riskControls
    case None => Fail(MissingRiskControlsMessage)
    case Some(controls) =>
      if controls.maxPositionSize.Some? && controls.maxPositionSize.value > MaxPositionSize then Fail(PositionTooLargeMessage)
      else if !Truthy(controls.stopLoss) || controls.stopLoss.value >= 0.0 then Fail(InvalidStopLossMessage)
      else if !Truthy(controls.profitTarget) || controls.profitTarget.value <= 0.0 then Fail(InvalidProfitTargetMessage)
      else if rec.checklist.None? || |rec.checklist.value| == 0 then Fail(ChecklistRequiredMessage)
      else Pass
  }

  /** The verdict depends only on the risk controls and the checklist: the strategy's name and
      rationale never change it. */
  lemma ValidationIgnoresText(rec: StrategyRecommendation, strategy: string, rationale: string)
    ensures ValidateStrategy(rec.(strategy := strategy, rationale := rationale)) == ValidateStrategy(rec)
  {
  }

  /** `generateStrategy`: the model's reply (or the error its call threw), then parse, then
      validate; the parsed recommendation is returned only when it passes. */
  function GenerateStrategy(completion: Result<Option<string>>, parse: string -> Result<StrategyRecommendation>): (r: Result<StrategyRecommendation>)
    ensures completion.Err? ==> r == Err(completion.message)
    ensures (completion.Ok? && (completion.value.None? || completion.value.value == "")) ==> r == Err(NoResponseMessage)
    ensures r.Ok? ==> ValidateStrategy(r.value).Pass?
    ensures r.Ok? <==> completion.Ok? && completion.value.Some? && completion.value.value != ""
                       && parse(completion.value.value).Ok? && ValidateStrategy(parse(completion.value.value).value).Pass?
    ensures r.Ok? ==> r.value == parse(completion.value.value).value
  {
    var reply :- completion;
    if reply.None? || reply.value == "" then Err(NoResponseMessage)
    else
      var recommendation :- parse(reply.value);
      match ValidateStrategy(recommendation)
      case Fail(message) => Err(message)
      case Pass => Ok(recommendation)
  }
}
