/** `Validator`: lambda-based validation rules and their factory. */
module Validators {
  import opened Wrappers
  import opened Runtime
  import opened Diagnostics
  import opened Args
  import opened Rules
  import RES = RuleErrorStrategies

  /** `Rule<I>`: the configuration and the rule function. */
  datatype ValidationRule = ValidationRule(base: Rule, ruleFunction: Option<ValidationRuleArgs -> Option<ValidationResult>>)
  {
    /** What the constructor establishes. */
    predicate Valid() {
      && RES.FromCode(base.errorStrategy).Some?
      && base.defaultInputTypeValue == DefaultOf(base.inputType)
      && base.isRuleFunctionAvailable == ruleFunction.Some?
    }

    /** Both guards of `Validate` at once. */
    predicate Accepts(value: Value) {
      base.isRuleFunctionAvailable && CastsTo(value, base.inputType)
    }

    /** `GetErrorValue(null)`. */
    function Fallback(): Option<ValidationResult>
      requires Valid()
    {
      base.GetErrorValue(None).value
    }

    /**
     * `ValidationRule.Validate`: the rule's own result when the function is
     * there and the value casts (no warning), otherwise the error value and
     * exactly one warning. A missing function is reported before any cast.
     */
    function Validate(value: Value, culture: Option<CultureInfo>): (r: Traced<Option<ValidationResult>>)
      requires Valid()
      ensures WarningCount(r.events) == if Accepts(value) then 0 else 1
      ensures r.result == if Accepts(value) then ruleFunction.value(ValidationRuleArgs(value, culture)) else Fallback()
      ensures Accepts(value) ==> r.events == []
      ensures !base.isRuleFunctionAvailable ==> r.events == [MissingRuleFunction]
      ensures base.isRuleFunctionAvailable && !CastsTo(value, base.inputType) ==> r.events == [UnableToCastToRuleInputType]
    {
      if !base.isRuleFunctionAvailable then
        Traced(base.GetErrorValue(None).value, [MissingRuleFunction])
      else
        ValidateInternal(value, culture)
    }

    /** The cast of the value, then the rule function. */
    function ValidateInternal(value: Value, culture: Option<CultureInfo>): (r: Traced<Option<ValidationResult>>)
      requires Valid() && ruleFunction.Some?
      ensures r.events == if CastsTo(value, base.inputType) then [] else [UnableToCastToRuleInputType]
      ensures r.result == if CastsTo(value, base.inputType) then ruleFunction.value(ValidationRuleArgs(value, culture)) else Fallback()
    {
      if !CastsTo(value, base.inputType) then
        Traced(base.GetErrorValue(None).value, [UnableToCastToRuleInputType])
      else
        Traced(ruleFunction.value(ValidationRuleArgs(value, culture)), [])
    }
  }

  /** `Validator.Create<I>`: rejects an undefined error strategy, otherwise builds the rule. */
  function Create(
    inputType: Ty,
    ruleFunction: Option<ValidationRuleArgs -> Option<ValidationResult>> := None,
    errorStrategy: int := RES.Code(RES.ReturnDefaultValue)): (r: Result<ValidationRule, Exception>)
    ensures r.Failure? <==> RES.FromCode(errorStrategy).None?
    ensures r.Failure? ==> r.error == ArgumentOutOfRange("errorStrategy")
    ensures r.Success? ==> r.value.Valid()
    ensures r.Success? ==> r.value.base.errorStrategy == errorStrategy && r.value.base.inputType == inputType
    ensures r.Success? ==> r.value.ruleFunction == ruleFunction
  {
    if RES.FromCode(errorStrategy).None? then
      Failure(ArgumentOutOfRange("errorStrategy"))
    else
      Success(ValidationRule(Rule(errorStrategy, DefaultOf(inputType), inputType, ruleFunction.Some?), ruleFunction))
  }

  /** Called without a rule function or strategy, the factory builds a rule without a function that returns null. */
  lemma DefaultArgumentsAreAccepted(inputType: Ty)
    ensures Create(inputType).Success?
    ensures Create(inputType).value.base.errorStrategy == RES.Code(RES.ReturnDefaultValue)
    ensures Create(inputType).value.ruleFunction.None?
  {
  }

  /** Rules built by the factory never reach the `NotSupportedException` branch. */
  lemma CreatedRulesNeverThrow(inputType: Ty, ruleFunction: Option<ValidationRuleArgs -> Option<ValidationResult>>, errorStrategy: int, d: Option<ValidationResult>)
    requires Create(inputType, ruleFunction, errorStrategy).Success?
    ensures Create(inputType, ruleFunction, errorStrategy).value.base.GetErrorValue(d).Success?
  {
  }
}
