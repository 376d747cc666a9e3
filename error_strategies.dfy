/**
 * The three error-strategy enumerations. C# enums are integers underneath and
 * a caller can pass any integer (`(ConverterErrorStrategy)int.MaxValue`), so
 * each enumeration comes with its member codes and the decoding of a raw code.
 */
module ConverterErrorStrategies {
  import opened Wrappers

  datatype ConverterErrorStrategy =
    | ReturnDefaultValue        // the default value of the output (or input) type
    | UseFallbackOrDefaultValue // DependencyProperty.UnsetValue
    | DoNothing                 // Binding.DoNothing

  /** The member's underlying value, in declaration order. */
  function Code(s: ConverterErrorStrategy): (c: int)
    ensures 0 <= c < 3
  {
    match s
    case ReturnDefaultValue => 0
    case UseFallbackOrDefaultValue => 1
    case DoNothing => 2
  }

  /** The member whose underlying value is `c`, if there is one. */
  function FromCode(c: int): (r: Option<ConverterErrorStrategy>)
    ensures r.Some? <==> 0 <= c < 3
    ensures r.Some? ==> Code(r.value) == c
  {
    if c == 0 then Some(ReturnDefaultValue)
    else if c == 1 then Some(UseFallbackOrDefaultValue)
    else if c == 2 then Some(DoNothing)
    else None
  }

  lemma CodeRoundTrip(s: ConverterErrorStrategy)
    ensures FromCode(Code(s)) == Some(s)
  {
  }
}

module RuleErrorStrategies {
  import opened Wrappers

  /** Member 0 is declared `ReturnNull`; the rule code calls it `ReturnDefaultValue`. */
  datatype RuleErrorStrategy =
    | ReturnDefaultValue  // null
    | ReturnInvalid       // new ValidationResult(false, null)
    | ReturnValid         // new ValidationResult(true, null)

  function Code(s: RuleErrorStrategy): (c: int)
    ensures 0 <= c < 3
  {
    match s
    case ReturnDefaultValue => 0
    case ReturnInvalid => 1
    case ReturnValid => 2
  }

  function FromCode(c: int): (r: Option<RuleErrorStrategy>)
    ensures r.Some? <==> 0 <= c < 3
    ensures r.Some? ==> Code(r.value) == c
  {
    if c == 0 then Some(ReturnDefaultValue)
    else if c == 1 then Some(ReturnInvalid)
    else if c == 2 then Some(ReturnValid)
    else None
  }

  lemma CodeRoundTrip(s: RuleErrorStrategy)
    ensures FromCode(Code(s)) == Some(s)
  {
  }
}

module SelectorErrorStrategies {
  import opened Wrappers

  /** Member 0 is declared `ReturnNull`; the selector code calls it `ReturnDefaultValue`. */
  datatype SelectorErrorStrategy =
    | ReturnDefaultValue          // null
    | ReturnNewEmptyDataTemplate  // new DataTemplate()

  function Code(s: SelectorErrorStrategy): (c: int)
    ensures 0 <= c < 2
  {
    match s
    case ReturnDefaultValue => 0
    case ReturnNewEmptyDataTemplate => 1
  }

  function FromCode(c: int): (r: Option<SelectorErrorStrategy>)
    ensures r.Some? <==> 0 <= c < 2
    ensures r.Some? ==> Code(r.value) == c
  {
    if c == 0 then Some(ReturnDefaultValue)
    else if c == 1 then Some(ReturnNewEmptyDataTemplate)
    else None
  }

  lemma CodeRoundTrip(s: SelectorErrorStrategy)
    ensures FromCode(Code(s)) == Some(s)
  {
  }
}
