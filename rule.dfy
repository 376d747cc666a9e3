/** The configuration of a lambda-based validation rule and its error values. */
module Rules {
  import opened Wrappers
  import opened Runtime
  import opened RuleErrorStrategies

  /** A `ValidationResult`: validity and the error content (Null for none). */
  datatype ValidationResult = ValidationResult(isValid: bool, errorContent: Value)

  /**
   * A rule's configuration, fixed by its constructor: the raw error strategy,
   * `default(I)`, `typeof(I)` and whether the rule function was supplied.
   */
  datatype Rule = Rule(
    errorStrategy: int,
    defaultInputTypeValue: Value,
    inputType: Ty,
    isRuleFunctionAvailable: bool)
  {
    /** The result to return instead of the rule's verdict (None is a null result). */
    function GetErrorValue(defaultValue: Option<ValidationResult>): (r: Result<Option<ValidationResult>, Exception>)
      ensures r.Failure? <==> FromCode(errorStrategy).None?
      ensures r.Failure? ==> r.error == NotSupported
      ensures errorStrategy == Code(ReturnDefaultValue) ==> r == Success(defaultValue)
      ensures errorStrategy == Code(ReturnInvalid) ==> r == Success(Some(ValidationResult(false, Null)))
      ensures errorStrategy == Code(ReturnValid) ==> r == Success(Some(ValidationResult(true, Null)))
    {
      match FromCode(errorStrategy)
      case Some(ReturnDefaultValue) => Success(defaultValue)
      case Some(ReturnInvalid) => Success(Some(ValidationResult(false, Null)))
      case Some(ReturnValid) => Success(Some(ValidationResult(true, Null)))
      case None => Failure(NotSupported)
    }
  }

  /** A non-default strategy yields a non-null result without error content, whatever the default. */
  lemma NonDefaultFallbackCarriesNoErrorContent(rule: Rule, d: Option<ValidationResult>)
    requires FromCode(rule.errorStrategy).Some? && rule.errorStrategy != Code(ReturnDefaultValue)
    ensures rule.GetErrorValue(d).Success? && rule.GetErrorValue(d).value.Some?
    ensures rule.GetErrorValue(d).value.value.errorContent == Null
    ensures rule.GetErrorValue(d).value.value.isValid <==> rule.errorStrategy == Code(ReturnValid)
  {
  }
}
