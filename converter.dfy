/** The configuration shared by single- and multi-value converters. */
module Converters {
  import opened Wrappers
  import opened Runtime
  import opened ConverterErrorStrategies
  import opened Diagnostics

  /**
   * A converter's configuration, fixed by its constructor: the raw error
   * strategy, `default(I)` and `default(O)`, `typeof(I)` and `typeof(O)`, and
   * whether each callback was supplied.
   */
  datatype Converter = Converter(
    errorStrategy: int,
    defaultInputTypeValue: Value,
    defaultOutputTypeValue: Value,
    inputType: Ty,
    outputType: Ty,
    isConvertFunctionAvailable: bool,
    isConvertBackFunctionAvailable: bool)
  {
    /**
     * The value to return instead of a conversion result. Only an error
     * strategy outside the enumeration throws.
     */
    function GetErrorValue(defaultValue: Value): (r: Result<Value, Exception>)
      ensures r.Failure? <==> FromCode(errorStrategy).None?
      ensures r.Failure? ==> r.error == NotSupported
      ensures errorStrategy == Code(ReturnDefaultValue) ==> r == Success(defaultValue)
      ensures errorStrategy == Code(UseFallbackOrDefaultValue) ==> r == Success(UnsetValue)
      ensures errorStrategy == Code(DoNothing) ==> r == Success(BindingDoNothing)
    {
      match FromCode(errorStrategy)
      case Some(ReturnDefaultValue) => Success(defaultValue)
      case Some(UseFallbackOrDefaultValue) => Success(UnsetValue)
      case Some(DoNothing) => Success(BindingDoNothing)
      case None => Failure(NotSupported)
    }
  }

  /** A requested target type must be assignable from the type produced; not requesting one is no error. */
  predicate TargetTypeAccepted(targetType: Option<Ty>, produced: Ty) {
    targetType.Some? ==> IsAssignableFrom(targetType.value, produced)
  }

  /** The informational note logged when no target type is requested. */
  function NotRequestedNote(targetType: Option<Ty>): seq<Event> {
    if targetType.None? then [NonRequestedTargetType] else []
  }

  /** Only `ReturnDefaultValue` lets the supplied default through. */
  lemma FallbackIgnoresDefaultUnlessReturnDefaultValue(c: Converter, d1: Value, d2: Value)
    requires c.errorStrategy != Code(ReturnDefaultValue)
    ensures c.GetErrorValue(d1) == c.GetErrorValue(d2)
  {
  }

  /** For a defined strategy the fallback is the supplied default or one of the two binding sentinels. */
  lemma FallbackIsDefaultOrSentinel(c: Converter, d: Value)
    requires FromCode(c.errorStrategy).Some?
    ensures c.GetErrorValue(d).Success?
    ensures c.GetErrorValue(d).value in {d, UnsetValue, BindingDoNothing}
  {
  }
}
