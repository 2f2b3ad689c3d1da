/** The signal broadcast form (src/components/admin/broadcast-form.tsx): the
    `broadcastSchema` validator, which also upper-cases the asset symbol, and
    the form's default values. Numbers arrive already coerced. */
module BroadcastForm {
  import opened Basics
  import opened TradingSignals

  /** The raw form values: the two selects start out unset. */
  datatype BroadcastInput = BroadcastInput(
    strategyId: Option<string>,
    asset: string,
    direction: Option<string>,
    entryPrice: real,
    stopLoss: real,
    targetPrice: real,
    additionalNotes: Option<string>)

  /** `BroadcastFormData`: the values once the schema accepts them. */
  datatype BroadcastFormData = BroadcastFormData(
    strategyId: string,
    asset: string,
    direction: Direction,
    entryPrice: real,
    stopLoss: real,
    targetPrice: real,
    additionalNotes: Option<string>)

  /** The schema library's message for a missing required value. */
  const RequiredMessage: string := "Required"
  const StrategyMessage: string := "Please select a strategy."
  const AssetMessage: string := "Asset symbol is required."
  const DirectionRequiredMessage: string := "Signal direction is required."
  const EntryMessage: string := "Entry price must be positive."
  const StopMessage: string := "Stop loss must be positive."
  const TargetMessage: string := "Target price must be positive."
  const DirectionNames: seq<string> := ["Buy", "Sell"]

  function ParseDirection(s: string): (r: Option<Direction>)
    ensures r.Some? <==> s in DirectionNames
  {
    if s == "Buy" then Some(Buy) else if s == "Sell" then Some(Sell) else None
  }

  function DirectionName(d: Direction): (r: string)
    ensures ParseDirection(r) == Some(d)
  {
    match d
    case Buy => "Buy"
    case Sell => "Sell"
  }

  function StrategyIssues(strategyId: Option<string>): seq<Issue> {
    if strategyId.None? then [Issue("strategyId", RequiredMessage)]
    else if strategyId.value == "" then [Issue("strategyId", StrategyMessage)]
    else []
  }

  function DirectionIssues(direction: Option<string>): seq<Issue> {
    if direction.None? then [Issue("direction", DirectionRequiredMessage)]
    else if ParseDirection(direction.value).None? then
      [Issue("direction", InvalidEnumMessage(DirectionNames, direction.value))]
    else []
  }

  /** Every issue the schema reports, in the order of its keys. */
  function BroadcastIssues(input: BroadcastInput): seq<Issue> {
    StrategyIssues(input.strategyId)
    + (if input.asset == "" then [Issue("asset", AssetMessage)] else [])
    + DirectionIssues(input.direction)
    + (if input.entryPrice <= 0.0 then [Issue("entryPrice", EntryMessage)] else [])
    + (if input.stopLoss <= 0.0 then [Issue("stopLoss", StopMessage)] else [])
    + (if input.targetPrice <= 0.0 then [Issue("targetPrice", TargetMessage)] else [])
  }

  /** The acceptance condition: a chosen strategy, a non-empty asset, a known
      direction and three positive prices, each on its own. */
  predicate Acceptable(input: BroadcastInput) {
    && input.strategyId.Some? && input.strategyId.value != ""
    && input.asset != ""
    && input.direction.Some? && input.direction.value in DirectionNames
    && input.entryPrice > 0.0 && input.stopLoss > 0.0 && input.targetPrice > 0.0
  }

  /** An input is free of issues exactly when it is acceptable. */
  lemma BroadcastIssuesEmpty(input: BroadcastInput)
    ensures BroadcastIssues(input) == [] <==> Acceptable(input)
  {
    DirectionIssuesSpec(input.direction);
  }

  /** Which message appears for which failing field: the selects and the asset. */
  lemma BroadcastIssuesText(input: BroadcastInput)
    ensures Issue("strategyId", RequiredMessage) in BroadcastIssues(input) <==> input.strategyId.None?
    ensures Issue("strategyId", StrategyMessage) in BroadcastIssues(input) <==> input.strategyId == Some("")
    ensures Issue("asset", AssetMessage) in BroadcastIssues(input) <==> input.asset == ""
    ensures Issue("direction", DirectionRequiredMessage) in BroadcastIssues(input) <==> input.direction.None?
  {
    DirectionIssuesSpec(input.direction);
  }

  /** Which message appears for which failing field: the three prices. */
  lemma BroadcastIssuesPrices(input: BroadcastInput)
    ensures Issue("entryPrice", EntryMessage) in BroadcastIssues(input) <==> input.entryPrice <= 0.0
    ensures Issue("stopLoss", StopMessage) in BroadcastIssues(input) <==> input.stopLoss <= 0.0
    ensures Issue("targetPrice", TargetMessage) in BroadcastIssues(input) <==> input.targetPrice <= 0.0
  {
    DirectionIssuesSpec(input.direction);
  }

  /** The direction field reports under its own path, and says "required"
      only when no direction is chosen. */
  lemma DirectionIssuesSpec(direction: Option<string>)
    ensures forall x :: x in DirectionIssues(direction) ==> x.path == "direction"
    ensures Issue("direction", DirectionRequiredMessage) in DirectionIssues(direction) <==> direction.None?
    ensures DirectionIssues(direction) == [] <==> direction.Some? && direction.value in DirectionNames
  {
    if direction.Some? && ParseDirection(direction.value).None? {
      var m := InvalidEnumMessage(DirectionNames, direction.value);
      assert m[0] == 'I';
      assert DirectionRequiredMessage[0] == 'S';
    }
  }

  /** `broadcastSchema.parse`: accepted exactly when the input is acceptable;
      the asset then comes out upper-cased and everything else unchanged.
      A rejected input reports each failing field's own message. */
  function ValidateBroadcast(input: BroadcastInput): (r: Result<BroadcastFormData, seq<Issue>>)
    ensures r.Ok? <==> Acceptable(input)
    ensures r.Ok? ==>
      && r.value.strategyId == input.strategyId.value
      && r.value.asset == Upper(input.asset)
      && DirectionName(r.value.direction) == input.direction.value
      && r.value.entryPrice == input.entryPrice && r.value.stopLoss == input.stopLoss
      && r.value.targetPrice == input.targetPrice && r.value.additionalNotes == input.additionalNotes
    ensures r.Err? ==>
      && r.error != []
      && (Issue("strategyId", RequiredMessage) in r.error <==> input.strategyId.None?)
      && (Issue("strategyId", StrategyMessage) in r.error <==> input.strategyId == Some(""))
      && (Issue("asset", AssetMessage) in r.error <==> input.asset == "")
      && (Issue("direction", DirectionRequiredMessage) in r.error <==> input.direction.None?)
      && (Issue("entryPrice", EntryMessage) in r.error <==> input.entryPrice <= 0.0)
      && (Issue("stopLoss", StopMessage) in r.error <==> input.stopLoss <= 0.0)
      && (Issue("targetPrice", TargetMessage) in r.error <==> input.targetPrice <= 0.0)
  {
    var issues := BroadcastIssues(input);
    BroadcastIssuesEmpty(input);
    BroadcastIssuesText(input);
    BroadcastIssuesPrices(input);
    if issues == [] then
      var d := ParseDirection(input.direction.value).value;
      assert DirectionName(d) == input.direction.value;
      Ok(BroadcastFormData(input.strategyId.value, Upper(input.asset), d,
                           input.entryPrice, input.stopLoss, input.targetPrice, input.additionalNotes))
    else
      Err(issues)
  }

  /** The values as they would sit in the form again. */
  function AsInput(d: BroadcastFormData): BroadcastInput {
    BroadcastInput(Some(d.strategyId), d.asset, Some(DirectionName(d.direction)),
                   d.entryPrice, d.stopLoss, d.targetPrice, d.additionalNotes)
  }

  /** Normalising twice equals normalising once: parsed values parse to themselves. */
  lemma ValidateIdempotent(input: BroadcastInput)
    requires ValidateBroadcast(input).Ok?
    ensures ValidateBroadcast(AsInput(ValidateBroadcast(input).value)) == ValidateBroadcast(input)
  {
    var d := ValidateBroadcast(input).value;
    UpperIdempotent(input.asset);
    assert Upper(input.asset) != "" by {
      assert |Upper(input.asset)| == |input.asset|;
    }
    assert Acceptable(AsInput(d));
  }

  /** `defaultValues`: direction Buy and empty notes; the strategy select is
      unset, the text box empty, and an empty number box reads as 0. */
  const BroadcastDefaults: BroadcastInput :=
    BroadcastInput(None, "", Some("Buy"), 0.0, 0.0, 0.0, Some(""))

  /** The default direction is a valid one, so an untouched form is rejected
      only for the fields the admin has to fill in. */
  lemma BroadcastDefaultsRejected()
    ensures DirectionIssues(BroadcastDefaults.direction) == []
    ensures ValidateBroadcast(BroadcastDefaults) == Err([
      Issue("strategyId", RequiredMessage), Issue("asset", AssetMessage),
      Issue("entryPrice", EntryMessage), Issue("stopLoss", StopMessage), Issue("targetPrice", TargetMessage)])
  {
    assert DirectionIssues(BroadcastDefaults.direction) == [];
    assert StrategyIssues(BroadcastDefaults.strategyId) == [Issue("strategyId", RequiredMessage)];
    assert BroadcastIssues(BroadcastDefaults) == [
      Issue("strategyId", RequiredMessage), Issue("asset", AssetMessage),
      Issue("entryPrice", EntryMessage), Issue("stopLoss", StopMessage), Issue("targetPrice", TargetMessage)];
  }

  /** No ordering between the prices is required: a Buy whose stop loss lies
      above its entry is accepted. */
  lemma BuyWithStopAboveEntryAccepted()
    ensures var input := BroadcastInput(Some("RSI_Momentum"), "aapl", Some("Buy"), 100.0, 150.0, 90.0, None);
      input.stopLoss > input.entryPrice && ValidateBroadcast(input).Ok?
  {
    var input := BroadcastInput(Some("RSI_Momentum"), "aapl", Some("Buy"), 100.0, 150.0, 90.0, None);
    assert Acceptable(input);
  }
}
