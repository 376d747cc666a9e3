/**
 * `ValueConverter`: lambda-based single-value converters, with and without a
 * typed converter parameter, and their factories.
 */
module ValueConverters {
  import opened Wrappers
  import opened Runtime
  import opened Diagnostics
  import opened Args
  import opened Converters
  import CES = ConverterErrorStrategies

  /**
   * `Converter<I, O>` (Unparameterized) and `Converter<I, O, P>` (Parameterized):
   * the shared configuration, `typeof(P)` for the second, and the callbacks.
   */
  datatype ValueConverter =
    | Unparameterized(
        base: Converter,
        convertFunction: Option<ValueConverterArgs -> Value>,
        convertBackFunction: Option<ValueConverterArgs -> Value>)
    | Parameterized(
        base: Converter,
        parameterType: Ty,
        parameterizedConvertFunction: Option<ValueConverterArgsWithParameter -> Value>,
        parameterizedConvertBackFunction: Option<ValueConverterArgsWithParameter -> Value>)
  {
    predicate HasConvertFunction() {
      if Unparameterized? then convertFunction.Some? else parameterizedConvertFunction.Some?
    }

    predicate HasConvertBackFunction() {
      if Unparameterized? then convertBackFunction.Some? else parameterizedConvertBackFunction.Some?
    }

    /** What the constructor establishes: a defined strategy, the defaults of the types, honest flags. */
    predicate Valid() {
      && CES.FromCode(base.errorStrategy).Some?
      && base.defaultInputTypeValue == DefaultOf(base.inputType)
      && base.defaultOutputTypeValue == DefaultOf(base.outputType)
      && base.isConvertFunctionAvailable == HasConvertFunction()
      && base.isConvertBackFunctionAvailable == HasConvertBackFunction()
    }

    /** The parameter check: none at all without `P`, a successful `(P)parameter` with it. */
    predicate ParameterAccepted(parameter: Value) {
      match this
      case Unparameterized(_, _, _) => parameter == Null
      case Parameterized(_, p, _, _) => CastsTo(parameter, p)
    }

    /** All guards of `Convert` at once; their order only decides which event is logged. */
    predicate ConvertAccepts(value: Value, targetType: Option<Ty>, parameter: Value) {
      && base.isConvertFunctionAvailable
      && TargetTypeAccepted(targetType, base.outputType)
      && ParameterAccepted(parameter)
      && CastsTo(value, base.inputType)
    }

    /** All guards of `ConvertBack` at once. */
    predicate ConvertBackAccepts(value: Value, targetType: Option<Ty>, parameter: Value) {
      && base.isConvertBackFunctionAvailable
      && TargetTypeAccepted(targetType, base.inputType)
      && ParameterAccepted(parameter)
      && CastsTo(value, base.outputType)
    }

    /** `GetErrorValue(default(O))`. */
    function ConvertFallback(): Value
      requires Valid()
    {
      base.GetErrorValue(DefaultOf(base.outputType)).value
    }

    /** `GetErrorValue(default(I))`. */
    function ConvertBackFallback(): Value
      requires Valid()
    {
      base.GetErrorValue(DefaultOf(base.inputType)).value
    }

    /** The convert callback applied to the argument holder built from the cast value. */
    function InvokeConvert(value: Value, parameter: Value, culture: Option<CultureInfo>): Value
      requires HasConvertFunction()
    {
      match this
      case Unparameterized(_, f, _) => f.value(ValueConverterArgs(value, culture))
      case Parameterized(_, _, f, _) => f.value(ValueConverterArgsWithParameter(value, parameter, culture))
    }

    /** The convert-back callback applied to the argument holder built from the cast value. */
    function InvokeConvertBack(value: Value, parameter: Value, culture: Option<CultureInfo>): Value
      requires HasConvertBackFunction()
    {
      match this
      case Unparameterized(_, _, f) => f.value(ValueConverterArgs(value, culture))
      case Parameterized(_, _, _, f) => f.value(ValueConverterArgsWithParameter(value, parameter, culture))
    }

    /** The warning logged when the parameter check of `Convert` fails. */
    function ConvertParameterRejected(): Event {
      if Unparameterized? then ParameterInParameterlessConverter else UnableToCastToParameterType
    }

    /** The warning logged when the parameter check of `ConvertBack` fails. */
    function ConvertBackParameterRejected(): Event {
      if Unparameterized? then ParameterInParameterlessConverterForBackConversion else UnableToCastToParameterTypeForBackConversion
    }

    /**
     * `IValueConverter.Convert`: the callback's result when every guard passes
     * (and then no warning), otherwise the error value and exactly one warning,
     * logged last.
     */
    function Convert(value: Value, targetType: Option<Ty>, parameter: Value, culture: Option<CultureInfo>): (r: Traced<Value>)
      requires Valid()
      ensures WarningCount(r.events) == if ConvertAccepts(value, targetType, parameter) then 0 else 1
      ensures r.result == if ConvertAccepts(value, targetType, parameter) then InvokeConvert(value, parameter, culture) else ConvertFallback()
      ensures WarningCount(r.events) == 1 ==> LevelOf(r.events[|r.events| - 1]) == Warning
      ensures !base.isConvertFunctionAvailable ==> r.events == [MissingConvertFunction]
      ensures base.isConvertFunctionAvailable && targetType.None? ==> r.events != [] && r.events[0] == NonRequestedTargetType
      ensures base.isConvertFunctionAvailable && !TargetTypeAccepted(targetType, base.outputType) ==> r.events == [NonAssignableTargetType]
      ensures base.isConvertFunctionAvailable && TargetTypeAccepted(targetType, base.outputType) && !ParameterAccepted(parameter) ==>
                r.events == NotRequestedNote(targetType) + [ConvertParameterRejected()]
      ensures base.isConvertFunctionAvailable && TargetTypeAccepted(targetType, base.outputType) && ParameterAccepted(parameter)
              && !CastsTo(value, base.inputType) ==>
                r.events == NotRequestedNote(targetType) + [UnableToCastToInputType]
      ensures ConvertAccepts(value, targetType, parameter) ==> r.events == NotRequestedNote(targetType)
    {
      if !base.isConvertFunctionAvailable then
        Traced(base.GetErrorValue(base.defaultOutputTypeValue).value, [MissingConvertFunction])
      else if targetType.Some? && !IsAssignableFrom(targetType.value, base.outputType) then
        Traced(base.GetErrorValue(base.defaultOutputTypeValue).value, [NonAssignableTargetType])
      else
        var note := NotRequestedNote(targetType);
        var inner := ConvertInternal(value, parameter, culture);
        WarningCountAppend(note, inner.events);
        Traced(inner.result, note + inner.events)
    }

    /** The parameter and value casts of `Convert`, then the callback. */
    function ConvertInternal(value: Value, parameter: Value, culture: Option<CultureInfo>): (r: Traced<Value>)
      requires Valid() && HasConvertFunction()
      ensures !ParameterAccepted(parameter) ==> r.events == [ConvertParameterRejected()]
      ensures ParameterAccepted(parameter) && !CastsTo(value, base.inputType) ==> r.events == [UnableToCastToInputType]
      ensures ParameterAccepted(parameter) && CastsTo(value, base.inputType) ==> r.events == []
      ensures r.result == if ParameterAccepted(parameter) && CastsTo(value, base.inputType) then InvokeConvert(value, parameter, culture) else ConvertFallback()
    {
      match this
      case Unparameterized(_, f, _) =>
        if parameter != Null then
          Traced(base.GetErrorValue(DefaultOf(base.outputType)).value, [ParameterInParameterlessConverter])
        else if !CastsTo(value, base.inputType) then
          Traced(base.GetErrorValue(DefaultOf(base.outputType)).value, [UnableToCastToInputType])
        else
          Traced(f.value(ValueConverterArgs(value, culture)), [])
      case Parameterized(_, p, f, _) =>
        if !CastsTo(parameter, p) then
          Traced(base.GetErrorValue(DefaultOf(base.outputType)).value, [UnableToCastToParameterType])
        else if !CastsTo(value, base.inputType) then
          Traced(base.GetErrorValue(DefaultOf(base.outputType)).value, [UnableToCastToInputType])
        else
          Traced(f.value(ValueConverterArgsWithParameter(value, parameter, culture)), [])
    }

    /** `IValueConverter.ConvertBack`: `Convert` with the roles of `I` and `O` exchanged. */
    function ConvertBack(value: Value, targetType: Option<Ty>, parameter: Value, culture: Option<CultureInfo>): (r: Traced<Value>)
      requires Valid()
      ensures WarningCount(r.events) == if ConvertBackAccepts(value, targetType, parameter) then 0 else 1
      ensures r.result == if ConvertBackAccepts(value, targetType, parameter) then InvokeConvertBack(value, parameter, culture) else ConvertBackFallback()
      ensures WarningCount(r.events) == 1 ==> LevelOf(r.events[|r.events| - 1]) == Warning
      ensures !base.isConvertBackFunctionAvailable ==> r.events == [MissingConvertBackFunction]
      ensures base.isConvertBackFunctionAvailable && targetType.None? ==> r.events != [] && r.events[0] == NonRequestedTargetType
      ensures base.isConvertBackFunctionAvailable && !TargetTypeAccepted(targetType, base.inputType) ==>
                r.events == [NonAssignableTargetTypeForBackConversion]
      ensures base.isConvertBackFunctionAvailable && TargetTypeAccepted(targetType, base.inputType) && !ParameterAccepted(parameter) ==>
                r.events == NotRequestedNote(targetType) + [ConvertBackParameterRejected()]
      ensures base.isConvertBackFunctionAvailable && TargetTypeAccepted(targetType, base.inputType) && ParameterAccepted(parameter)
              && !CastsTo(value, base.outputType) ==>
                r.events == NotRequestedNote(targetType) + [UnableToCastToOutputType]
      ensures ConvertBackAccepts(value, targetType, parameter) ==> r.events == NotRequestedNote(targetType)
    {
      if !base.isConvertBackFunctionAvailable then
        Traced(base.GetErrorValue(base.defaultInputTypeValue).value, [MissingConvertBackFunction])
      else if targetType.Some? && !IsAssignableFrom(targetType.value, base.inputType) then
        Traced(base.GetErrorValue(base.defaultInputTypeValue).value, [NonAssignableTargetTypeForBackConversion])
      else
        var note := NotRequestedNote(targetType);
        var inner := ConvertBackInternal(value, parameter, culture);
        WarningCountAppend(note, inner.events);
        Traced(inner.result, note + inner.events)
    }

    /** The parameter and value casts of `ConvertBack`, then the callback. */
    function ConvertBackInternal(value: Value, parameter: Value, culture: Option<CultureInfo>): (r: Traced<Value>)
      requires Valid() && HasConvertBackFunction()
      ensures !ParameterAccepted(parameter) ==> r.events == [ConvertBackParameterRejected()]
      ensures ParameterAccepted(parameter) && !CastsTo(value, base.outputType) ==> r.events == [UnableToCastToOutputType]
      ensures ParameterAccepted(parameter) && CastsTo(value, base.outputType) ==> r.events == []
      ensures r.result == if ParameterAccepted(parameter) && CastsTo(value, base.outputType) then InvokeConvertBack(value, parameter, culture) else ConvertBackFallback()
    {
      match this
      case Unparameterized(_, _, f) =>
        if parameter != Null then
          Traced(base.GetErrorValue(DefaultOf(base.inputType)).value, [ParameterInParameterlessConverterForBackConversion])
        else if !CastsTo(value, base.outputType) then
          Traced(base.GetErrorValue(DefaultOf(base.inputType)).value, [UnableToCastToOutputType])
        else
          Traced(f.value(ValueConverterArgs(value, culture)), [])
      case Parameterized(_, p, _, f) =>
        if !CastsTo(parameter, p) then
          Traced(base.GetErrorValue(DefaultOf(base.inputType)).value, [UnableToCastToParameterTypeForBackConversion])
        else if !CastsTo(value, base.outputType) then
          Traced(base.GetErrorValue(DefaultOf(base.inputType)).value, [UnableToCastToOutputType])
        else
          Traced(f.value(ValueConverterArgsWithParameter(value, parameter, culture)), [])
    }
  }

  /** `ValueConverter.Create<I, O>`: rejects an undefined error strategy, otherwise builds the converter. */
  function Create(
    inputType: Ty, outputType: Ty,
    convertFunction: Option<ValueConverterArgs -> Value> := None,
    convertBackFunction: Option<ValueConverterArgs -> Value> := None,
    errorStrategy: int := CES.Code(CES.ReturnDefaultValue)): (r: Result<ValueConverter, Exception>)
    ensures r.Failure? <==> CES.FromCode(errorStrategy).None?
    ensures r.Failure? ==> r.error == ArgumentOutOfRange("errorStrategy")
    ensures r.Success? ==> r.value.Valid() && r.value.Unparameterized?
    ensures r.Success? ==> r.value.base.errorStrategy == errorStrategy
    ensures r.Success? ==> r.value.base.inputType == inputType && r.value.base.outputType == outputType
    ensures r.Success? ==> r.value.convertFunction == convertFunction && r.value.convertBackFunction == convertBackFunction
  {
    if CES.FromCode(errorStrategy).None? then
      Failure(ArgumentOutOfRange("errorStrategy"))
    else
      Success(Unparameterized(
        Converter(errorStrategy, DefaultOf(inputType), DefaultOf(outputType), inputType, outputType,
                  convertFunction.Some?, convertBackFunction.Some?),
        convertFunction, convertBackFunction))
  }

  /** `ValueConverter.Create<I, O, P>`. */
  function CreateWithParameter(
    inputType: Ty, outputType: Ty, parameterType: Ty,
    convertFunction: Option<ValueConverterArgsWithParameter -> Value> := None,
    convertBackFunction: Option<ValueConverterArgsWithParameter -> Value> := None,
    errorStrategy: int := CES.Code(CES.ReturnDefaultValue)): (r: Result<ValueConverter, Exception>)
    ensures r.Failure? <==> CES.FromCode(errorStrategy).None?
    ensures r.Failure? ==> r.error == ArgumentOutOfRange("errorStrategy")
    ensures r.Success? ==> r.value.Valid() && r.value.Parameterized? && r.value.parameterType == parameterType
    ensures r.Success? ==> r.value.base.errorStrategy == errorStrategy
    ensures r.Success? ==> r.value.base.inputType == inputType && r.value.base.outputType == outputType
    ensures r.Success? ==> r.value.parameterizedConvertFunction == convertFunction
    ensures r.Success? ==> r.value.parameterizedConvertBackFunction == convertBackFunction
  {
    if CES.FromCode(errorStrategy).None? then
      Failure(ArgumentOutOfRange("errorStrategy"))
    else
      Success(Parameterized(
        Converter(errorStrategy, DefaultOf(inputType), DefaultOf(outputType), inputType, outputType,
                  convertFunction.Some?, convertBackFunction.Some?),
        parameterType, convertFunction, convertBackFunction))
  }

  /** Called without callbacks or strategy, both factories build converters without callbacks that return the default value. */
  lemma DefaultArgumentsAreAccepted(inputType: Ty, outputType: Ty, parameterType: Ty)
    ensures Create(inputType, outputType).Success?
    ensures Create(inputType, outputType).value.base.errorStrategy == CES.Code(CES.ReturnDefaultValue)
    ensures !Create(inputType, outputType).value.HasConvertFunction()
    ensures !Create(inputType, outputType).value.HasConvertBackFunction()
    ensures CreateWithParameter(inputType, outputType, parameterType).Success?
    ensures CreateWithParameter(inputType, outputType, parameterType).value.base.errorStrategy == CES.Code(CES.ReturnDefaultValue)
    ensures !CreateWithParameter(inputType, outputType, parameterType).value.HasConvertFunction()
    ensures !CreateWithParameter(inputType, outputType, parameterType).value.HasConvertBackFunction()
  {
  }

  /** Not requesting a target type gives the same result as requesting exactly `O`. */
  lemma UnrequestedTargetTypeActsAsOutputType(c: ValueConverter, value: Value, parameter: Value, culture: Option<CultureInfo>)
    requires c.Valid()
    ensures c.Convert(value, None, parameter, culture).result == c.Convert(value, Some(c.base.outputType), parameter, culture).result
    ensures c.ConvertBack(value, None, parameter, culture).result == c.ConvertBack(value, Some(c.base.inputType), parameter, culture).result
  {
  }

  /** Without a convert function the inputs do not matter. */
  lemma MissingConvertFunctionIgnoresInputs(
    c: ValueConverter,
    v1: Value, t1: Option<Ty>, p1: Value, c1: Option<CultureInfo>,
    v2: Value, t2: Option<Ty>, p2: Value, c2: Option<CultureInfo>)
    requires c.Valid() && !c.HasConvertFunction()
    ensures c.Convert(v1, t1, p1, c1) == c.Convert(v2, t2, p2, c2) == Traced(c.ConvertFallback(), [MissingConvertFunction])
  {
  }

  /** The factories only build converters whose fallback never throws `NotSupportedException`. */
  lemma CreatedConvertersNeverThrow(c: ValueConverter, defaultValue: Value)
    requires c.Valid()
    ensures c.base.GetErrorValue(defaultValue).Success?
  {
  }
}
