/** The admin strategy form (src/components/admin/strategy-form.tsx): the
    `strategySchema` validator with its messages, the default values for a new
    and for an existing strategy, and the guard in front of the delete handler.
    Numbers arrive already parsed. */
module StrategyForm {
  import opened Basics
  import opened Strategies

  /** `StrategyFormData`: what the form submits. Keys the schema does not
      declare (such as `backtestStats`) are stripped by the parse. */
  datatype StrategyFormData = StrategyFormData(
    id: Option<string>,
    name: string,
    description: string,
    category: Option<string>,
    performance: StrategyPerformance,
    indicatorsUsed: Option<string>)

  const NameMessage: string := "Strategy name must be at least 3 characters."
  const DescriptionMessage: string := "Description must be at least 10 characters."
  /** The schema library's default messages for `.min(0)` and `.max(100)`. */
  const AtLeastZeroMessage: string := "Number must be greater than or equal to 0"
  const AtMostHundredMessage: string := "Number must be less than or equal to 100"

  /** The constraints of the schema, field by field. */
  predicate NameOk(d: StrategyFormData) { |d.name| >= 3 }
  predicate DescriptionOk(d: StrategyFormData) { |d.description| >= 10 }
  predicate WinRateOk(d: StrategyFormData) { 0.0 <= d.performance.winRate <= 100.0 }
  predicate ProfitFactorOk(d: StrategyFormData) { d.performance.profitFactor >= 0.0 }

  function WinRateIssues(winRate: real): seq<Issue> {
    if winRate < 0.0 then [Issue("performance.winRate", AtLeastZeroMessage)]
    else if winRate > 100.0 then [Issue("performance.winRate", AtMostHundredMessage)]
    else []
  }

  /** Every issue the schema reports, in the order of its keys. */
  function StrategyIssues(d: StrategyFormData): seq<Issue> {
    (if |d.name| < 3 then [Issue("name", NameMessage)] else [])
    + (if |d.description| < 10 then [Issue("description", DescriptionMessage)] else [])
    + WinRateIssues(d.performance.winRate)
    + (if d.performance.profitFactor < 0.0 then [Issue("performance.profitFactor", AtLeastZeroMessage)] else [])
  }

  /** `strategySchema.parse`: accepted, unchanged, exactly when all four
      constraints hold; otherwise each failing field reports its message. */
  function ValidateStrategy(d: StrategyFormData): (r: Result<StrategyFormData, seq<Issue>>)
    ensures r.Ok? <==> NameOk(d) && DescriptionOk(d) && WinRateOk(d) && ProfitFactorOk(d)
    ensures r.Ok? ==> r.value == d
    ensures r.Err? ==>
      && r.error != []
      && (Issue("name", NameMessage) in r.error <==> !NameOk(d))
      && (Issue("description", DescriptionMessage) in r.error <==> !DescriptionOk(d))
      && (Issue("performance.winRate", AtLeastZeroMessage) in r.error <==> d.performance.winRate < 0.0)
      && (Issue("performance.winRate", AtMostHundredMessage) in r.error <==> d.performance.winRate > 100.0)
      && (Issue("performance.profitFactor", AtLeastZeroMessage) in r.error <==> !ProfitFactorOk(d))
  {
    var issues := StrategyIssues(d);
    if issues == [] then Ok(d) else Err(issues)
  }

  /** The optional fields (id, category, indicators, Sharpe ratio, maximum
      drawdown) never decide the verdict: changing them changes no issue. */
  lemma OptionalFieldsIrrelevant(d: StrategyFormData, id: Option<string>, category: Option<string>,
                                 indicatorsUsed: Option<string>, sharpeRatio: Option<real>, maxDrawdown: Option<real>)
    ensures var d' := d.(id := id, category := category, indicatorsUsed := indicatorsUsed,
                         performance := d.performance.(sharpeRatio := sharpeRatio, maxDrawdown := maxDrawdown));
      StrategyIssues(d') == StrategyIssues(d) && ValidateStrategy(d').Ok? == ValidateStrategy(d).Ok?
  {
  }

  /** The values of the add form. The Sharpe-ratio and drawdown boxes have no
      default but are registered, so they submit an empty box, read as 0. */
  const NewDefaults: StrategyFormData :=
    StrategyFormData(None, "", "", Some(""), StrategyPerformance(0.0, 0.0, Some(0.0), Some(0.0)), Some(""))

  /** Submitting the untouched add form is rejected with exactly the name and
      description messages. */
  lemma NewDefaultsRejected()
    ensures ValidateStrategy(NewDefaults)
         == Err([Issue("name", NameMessage), Issue("description", DescriptionMessage)])
  {
    assert StrategyIssues(NewDefaults) == [Issue("name", NameMessage), Issue("description", DescriptionMessage)];
  }

  /** The values the edit form submits when left unchanged: the strategy's
      own fields. Every optional field has a registered box, so one the
      strategy lacks submits an empty box: "" for a text box, 0 for a number
      box. */
  function EditDefaults(s: TradingStrategy): StrategyFormData {
    StrategyFormData(
      Some(s.id), s.name, s.description, Some(s.category.GetOr("")),
      s.performance.(sharpeRatio := Some(s.performance.sharpeRatio.GetOr(0.0)),
                     maxDrawdown := Some(s.performance.maxDrawdown.GetOr(0.0))),
      Some(s.indicatorsUsed.GetOr("")))
  }

  /** A strategy that has a value for each optional field of the form. */
  predicate Complete(s: TradingStrategy) {
    && s.category.Some? && s.indicatorsUsed.Some?
    && s.performance.sharpeRatio.Some? && s.performance.maxDrawdown.Some?
  }

  /** A strategy that meets the constraints re-validates unchanged when its
      edit form is submitted as prefilled. */
  lemma EditDefaultsValidate(s: TradingStrategy)
    requires |s.name| >= 3 && |s.description| >= 10
    requires 0.0 <= s.performance.winRate <= 100.0 && s.performance.profitFactor >= 0.0
    ensures ValidateStrategy(EditDefaults(s)) == Ok(EditDefaults(s))
    ensures ValidateStrategy(EditDefaults(s)).value.id == Some(s.id)
    ensures var d := ValidateStrategy(EditDefaults(s)).value;
      && d.category.Some? && d.indicatorsUsed.Some?
      && d.performance.sharpeRatio.Some? && d.performance.maxDrawdown.Some?
  {
  }

  /** `handleDeleteClick`: the id handed to `onDelete`, if it is called at all.
      It is called only for a strategy with a non-empty id, when a handler is
      given and the user confirms. */
  function DeleteTarget(strategy: Option<TradingStrategy>, hasOnDelete: bool, confirmed: bool): (r: Option<string>)
    ensures r.Some? <==> strategy.Some? && strategy.value.id != "" && hasOnDelete && confirmed
    ensures r.Some? ==> r.value == strategy.value.id
  {
    if strategy.Some? && strategy.value.id != "" && hasOnDelete then
      (if confirmed then Some(strategy.value.id) else None)
    else None
  }
}
