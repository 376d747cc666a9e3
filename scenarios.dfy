/** Concrete cases of the adapters on a few familiar CLR types, taken from the repository's unit tests. */
module Scenarios {
  import opened Wrappers
  import opened Runtime
  import opened Diagnostics
  import opened Args
  import ValueConverters
  import Validators
  import Rules
  import MultiValueConverters
  import RES = RuleErrorStrategies
  import Selectors
  import TemplateSelectors
  import CES = ConverterErrorStrategies
  import SES = SelectorErrorStrategies

  const IntType: Ty := Ty("Int32", true, {"ValueType", "Object"})
  const BoolType: Ty := Ty("Boolean", true, {"ValueType", "Object"})
  const StringType: Ty := Ty("String", false, {"Object"})

  const One: Value := Obj(IntType, 1)
  const True: Value := Obj(BoolType, 1)
  /** The string "1"; strings are told apart by `data` only. */
  const OneText: Value := Obj(StringType, 1)

  /** `e => e.Value.ToString()` on the inputs used here. */
  function ToText(e: ValueConverterArgs): Value {
    if e.value == One then OneText else Null
  }

  /** `int.MaxValue` is no converter error strategy. */
  lemma OutOfRangeStrategyIsRejected()
    ensures ValueConverters.Create(IntType, StringType, None, None, 0x7FFF_FFFF) == Failure(ArgumentOutOfRange("errorStrategy"))
    ensures Validators.Create(IntType, None, 0x7FFF_FFFF) == Failure(ArgumentOutOfRange("errorStrategy"))
    ensures TemplateSelectors.Create(IntType, None, 0x7FFF_FFFF) == Failure(ArgumentOutOfRange("errorStrategy"))
  {
  }

  /** Without functions, the converter answers `default(O)` (or `default(I)` backwards), or a sentinel. */
  lemma NoFunctionsGiveErrorValues()
    ensures ValueConverters.Create(IntType, StringType).Success?
    ensures ValueConverters.Create(IntType, StringType).value.Convert(One, None, Null, None).result == Null
    ensures ValueConverters.Create(IntType, IntType).value.Convert(One, None, Null, None).result == Obj(IntType, 0)
    ensures ValueConverters.Create(BoolType, IntType).value.ConvertBack(One, None, Null, None).result == Obj(BoolType, 0)
    ensures ValueConverters.Create(IntType, StringType, None, None, CES.Code(CES.UseFallbackOrDefaultValue)).value.Convert(One, None, Null, None).result == UnsetValue
    ensures ValueConverters.Create(StringType, IntType, None, None, CES.Code(CES.DoNothing)).value.ConvertBack(One, None, Null, None).result == BindingDoNothing
  {
  }

  /** With a convert function: a wrong target type, a parameter or a wrong value give null; a good value is converted. */
  lemma ConvertFunctionGuards()
    ensures var c := ValueConverters.Create(IntType, StringType, Some(ToText), None, 0).value;
            && c.Convert(One, Some(BoolType), Null, None).result == Null
            && c.Convert(One, Some(StringType), OneText, None).result == Null
            && c.Convert(True, Some(StringType), Null, None).result == Null
            && c.Convert(Null, Some(StringType), Null, None).result == Null
            && c.Convert(One, Some(StringType), Null, None) == Traced(OneText, [])
            && c.Convert(One, None, Null, None) == Traced(OneText, [NonRequestedTargetType])
  {
  }

  /** An empty template selector returns null, or a new template without content. */
  method SelectWithoutFunction() returns (byDefault: Traced<Selectors.DataTemplate?>, byNew: Traced<Selectors.DataTemplate?>)
    ensures byDefault == Traced(null, [MissingSelectTemplateFunction])
    ensures byNew.result != null && !byNew.result.hasContent
  {
    TemplateSelectors.DefaultArgumentsAreAccepted(IntType);
    var s0 := TemplateSelectors.Create(IntType).value;
    byDefault := s0.SelectTemplate(One, null);
    var s1 := TemplateSelectors.Create(IntType, None, SES.Code(SES.ReturnNewEmptyDataTemplate)).value;
    byNew := s1.SelectTemplate(One, null);
  }

  /** A multi-value converter without functions answers one `default(I)` per requested target type. */
  method MultiValueConvertBackWithoutFunction() returns (r: array?<Value>)
    ensures r != null && r[..] == [Obj(IntType, 0), Obj(IntType, 0)]
  {
    MultiValueConverters.DefaultArgumentsAreAccepted(IntType, IntType, IntType);
    var c := MultiValueConverters.Create(IntType, IntType).value;
    var targetTypes := new Option<Ty>[2];
    targetTypes[0], targetTypes[1] := Some(IntType), Some(StringType);
    var traced := c.ConvertBack(One, targetTypes, Null, None);
    r := traced.result;
    assert r[..] == [r[0], r[1]];
  }

  /** A rule without a function answers null, an invalid result or a valid one, by strategy. */
  lemma RuleWithoutFunction()
    ensures Validators.Create(IntType).Success?
    ensures Validators.Create(IntType).value.Validate(One, None).result == None
    ensures Validators.Create(IntType, None, RES.Code(RES.ReturnInvalid)).value.Validate(One, None).result
            == Some(Rules.ValidationResult(false, Null))
    ensures Validators.Create(IntType, None, RES.Code(RES.ReturnValid)).value.Validate(One, None).result
            == Some(Rules.ValidationResult(true, Null))
  {
  }

  /** `e => new ValidationResult(true, "1")`. */
  function ValidWithText(e: ValidationRuleArgs): Option<Rules.ValidationResult> {
    Some(Rules.ValidationResult(true, OneText))
  }

  /** A rule function is not called on a `bool` or a null, and its own result is returned for an `int`. */
  lemma RuleFunctionGuards()
    ensures Validators.Create(IntType, Some(ValidWithText)).Success?
    ensures var rule := Validators.Create(IntType, Some(ValidWithText)).value;
            && rule.Validate(True, None).result == None
            && rule.Validate(Null, None).result == None
            && rule.Validate(One, None) == Traced(Some(Rules.ValidationResult(true, OneText)), [])
  {
  }
}
