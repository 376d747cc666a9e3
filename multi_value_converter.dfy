/**
 * `MultiValueConverter`: lambda-based multi-value converters. `Convert` casts
 * every element of the bound values; `ConvertBack` checks every requested
 * target type and spreads the callback's sequence over a fresh array.
 */
module MultiValueConverters {
  import opened Wrappers
  import opened Runtime
  import opened Diagnostics
  import opened Args
  import opened Converters
  import CES = ConverterErrorStrategies

  /** The contents of an array the framework may pass as null. */
  function Snapshot<T>(a: array?<T>): (s: Option<seq<T>>)
    reads a
    ensures s.Some? <==> a != null
    ensures a != null ==> s.value == a[..]
  {
    if a == null then None else Some(a[..])
  }

  /** Every element casts to `t`. */
  predicate AllCast(values: seq<Value>, t: Ty) {
    forall j :: 0 <= j < |values| ==> CastsTo(values[j], t)
  }

  /** The position of the first element that does not cast to `t`, or `|values|` if there is none. */
  function FirstUncastable(values: seq<Value>, t: Ty): (k: nat)
    ensures k <= |values|
    ensures forall j :: 0 <= j < k ==> CastsTo(values[j], t)
    ensures k < |values| ==> !CastsTo(values[k], t)
  {
    if values == [] || !CastsTo(values[0], t) then 0
    else 1 + FirstUncastable(values[1..], t)
  }

  /** Every requested (non-null) target type is assignable from `source`. */
  predicate AllAssignable(targetTypes: seq<Option<Ty>>, source: Ty) {
    forall j :: 0 <= j < |targetTypes| && targetTypes[j].Some? ==> IsAssignableFrom(targetTypes[j].value, source)
  }

  /** The position of the first requested target type not assignable from `source`, or `|targetTypes|`. */
  function FirstNonAssignable(targetTypes: seq<Option<Ty>>, source: Ty): (k: nat)
    ensures k <= |targetTypes|
    ensures AllAssignable(targetTypes[..k], source)
    ensures k < |targetTypes| ==> targetTypes[k].Some? && !IsAssignableFrom(targetTypes[k].value, source)
  {
    if targetTypes == [] then 0
    else if targetTypes[0].Some? && !IsAssignableFrom(targetTypes[0].value, source) then 0
    else
      var k := FirstNonAssignable(targetTypes[1..], source);
      assert targetTypes[..k + 1] == [targetTypes[0]] + targetTypes[1..][..k];
      1 + k
  }

  /** The informational "not requested" events for the null positions of `targetTypes`, in order. */
  function PositionNotes(targetTypes: seq<Option<Ty>>): seq<Event> {
    if targetTypes == [] then []
    else
      var n := |targetTypes| - 1;
      PositionNotes(targetTypes[..n]) + (if targetTypes[n].None? then [NonRequestedTargetTypeAtPosition(n)] else [])
  }

  lemma {:induction false} PositionNotesAreNotWarnings(targetTypes: seq<Option<Ty>>)
    ensures WarningCount(PositionNotes(targetTypes)) == 0
  {
    if targetTypes != [] {
      var n := |targetTypes| - 1;
      PositionNotesAreNotWarnings(targetTypes[..n]);
      WarningCountAppend(PositionNotes(targetTypes[..n]),
        if targetTypes[n].None? then [NonRequestedTargetTypeAtPosition(n)] else []);
    }
  }

  /** The informational notes `ConvertBack` logs for its target types when they all pass. */
  function TargetTypeNotes(targetTypes: Option<seq<Option<Ty>>>): seq<Event> {
    if targetTypes.None? then [NonRequestedTargetTypes] else PositionNotes(targetTypes.value)
  }

  /**
   * The target-type loop of `ConvertBack`: walks the requested target types in
   * order, noting each null position, and stops at the first one not
   * assignable from `source` (or at the end).
   */
  method ScanTargetTypes(targetTypes: array<Option<Ty>>, source: Ty) returns (k: nat, notes: seq<Event>)
    ensures k == FirstNonAssignable(targetTypes[..], source)
    ensures notes == PositionNotes(targetTypes[..k])
  {
    notes := [];
    k := 0;
    while k < targetTypes.Length
      invariant k <= targetTypes.Length
      invariant AllAssignable(targetTypes[..k], source)
      invariant notes == PositionNotes(targetTypes[..k])
    {
      assert targetTypes[..k + 1][..k] == targetTypes[..k];
      var targetType := targetTypes[k];
      if targetType.Some? {
        if !IsAssignableFrom(targetType.value, source) {
          return;
        }
      } else {
        notes := notes + [NonRequestedTargetTypeAtPosition(k)];
      }
      k := k + 1;
    }
    assert targetTypes[..k] == targetTypes[..];
  }

  /**
   * `Converter<I, O>` (Unparameterized) and `Converter<I, O, P>` (Parameterized).
   * The convert-back callbacks return a sequence, or null (None).
   */
  datatype MultiValueConverter =
    | Unparameterized(
        base: Converter,
        convertFunction: Option<MultiValueConverterArgs -> Value>,
        convertBackFunction: Option<ValueConverterArgs -> Option<seq<Value>>>)
    | Parameterized(
        base: Converter,
        parameterType: Ty,
        parameterizedConvertFunction: Option<MultiValueConverterArgsWithParameter -> Value>,
        parameterizedConvertBackFunction: Option<ValueConverterArgsWithParameter -> Option<seq<Value>>>)
  {
    predicate HasConvertFunction() {
      if Unparameterized? then convertFunction.Some? else parameterizedConvertFunction.Some?
    }

    predicate HasConvertBackFunction() {
      if Unparameterized? then convertBackFunction.Some? else parameterizedConvertBackFunction.Some?
    }

    /** What the constructor establishes: a defined strategy, the defaults of the types, honest flags. */
    predicate Valid() {
      && CES.FromCode(base.errorStrategy).Some?
      && base.defaultInputTypeValue == DefaultOf(base.inputType)
      && base.defaultOutputTypeValue == DefaultOf(base.outputType)
      && base.isConvertFunctionAvailable == HasConvertFunction()
      && base.isConvertBackFunctionAvailable == HasConvertBackFunction()
    }

    predicate ParameterAccepted(parameter: Value) {
      match this
      case Unparameterized(_, _, _) => parameter == Null
      case Parameterized(_, p, _, _) => CastsTo(parameter, p)
    }

    /** All guards of `Convert` at once. */
    predicate ConvertAccepts(values: Option<seq<Value>>, targetType: Option<Ty>, parameter: Value) {
      && base.isConvertFunctionAvailable
      && TargetTypeAccepted(targetType, base.outputType)
      && values.Some?
      && ParameterAccepted(parameter)
      && AllCast(values.value, base.inputType)
    }

    /** Every requested target type is assignable from `I`; no target types at all is no error. */
    predicate TargetTypesAccepted(targetTypes: Option<seq<Option<Ty>>>) {
      targetTypes.Some? ==> AllAssignable(targetTypes.value, base.inputType)
    }

    /** All guards of `ConvertBack` at once; null target types, and null positions, are not checked. */
    predicate ConvertBackAccepts(value: Value, targetTypes: Option<seq<Option<Ty>>>, parameter: Value) {
      && base.isConvertBackFunctionAvailable
      && TargetTypesAccepted(targetTypes)
      && ParameterAccepted(parameter)
      && CastsTo(value, base.outputType)
    }

    /** `GetErrorValue(default(O))`. */
    function ConvertFallback(): Value
      requires Valid()
    {
      base.GetErrorValue(DefaultOf(base.outputType)).value
    }

    /** `GetErrorValue(default(I))`, the element of every back-conversion error array. */
    function ConvertBackFallback(): Value
      requires Valid()
    {
      base.GetErrorValue(DefaultOf(base.inputType)).value
    }

    function InvokeConvert(values: seq<Value>, parameter: Value, culture: Option<CultureInfo>): Value
      requires HasConvertFunction()
    {
      match this
      case Unparameterized(_, f, _) => f.value(MultiValueConverterArgs(values, culture))
      case Parameterized(_, _, f, _) => f.value(MultiValueConverterArgsWithParameter(values, parameter, culture))
    }

    function InvokeConvertBack(value: Value, parameter: Value, culture: Option<CultureInfo>): Option<seq<Value>>
      requires HasConvertBackFunction()
    {
      match this
      case Unparameterized(_, _, f) => f.value(ValueConverterArgs(value, culture))
      case Parameterized(_, _, _, f) => f.value(ValueConverterArgsWithParameter(value, parameter, culture))
    }

    /** The warning logged when the parameter check of `Convert` fails. */
    function ConvertParameterRejected(): Event {
      if Unparameterized? then ParameterInParameterlessConverter else UnableToCastToParameterType
    }

    /** The warning logged when the parameter check of `ConvertBack` fails. */
    function ConvertBackParameterRejected(): Event {
      if Unparameterized? then ParameterInParameterlessConverterForBackConversion else UnableToCastToParameterTypeForBackConversion
    }

    /**
     * The trace `Convert` emits, guard by guard: the missing function, a
     * requested target type not assignable from `O`, then (after the note for
     * an unrequested target type) a null array, the parameter check, and the
     * first element that does not cast to `I`.
     */
    function ConvertEvents(values: Option<seq<Value>>, targetType: Option<Ty>, parameter: Value): seq<Event> {
      if !base.isConvertFunctionAvailable then [MissingConvertFunction]
      else if !TargetTypeAccepted(targetType, base.outputType) then [NonAssignableTargetType]
      else if values.None? then NotRequestedNote(targetType) + [NullValues]
      else if !ParameterAccepted(parameter) then NotRequestedNote(targetType) + [ConvertParameterRejected()]
      else if !AllCast(values.value, base.inputType) then
        NotRequestedNote(targetType) + [UnableToCastAtPositionToInputType(FirstUncastable(values.value, base.inputType))]
      else NotRequestedNote(targetType)
    }

    /**
     * The trace `ConvertBack` emits, guard by guard: the missing function, the
     * first requested target type not assignable from `I` (after the notes for
     * the null positions before it), then (after the notes for all target
     * types) the parameter check and the cast to `O`.
     */
    function ConvertBackEvents(value: Value, targetTypes: Option<seq<Option<Ty>>>, parameter: Value): seq<Event> {
      if !base.isConvertBackFunctionAvailable then [MissingConvertBackFunction]
      else if !TargetTypesAccepted(targetTypes) then
        var k := FirstNonAssignable(targetTypes.value, base.inputType);
        PositionNotes(targetTypes.value[..k]) + [NonAssignableTargetTypeAtPositionForBackConversion(k)]
      else if !ParameterAccepted(parameter) then TargetTypeNotes(targetTypes) + [ConvertBackParameterRejected()]
      else if !CastsTo(value, base.outputType) then TargetTypeNotes(targetTypes) + [UnableToCastToOutputType]
      else TargetTypeNotes(targetTypes)
    }

    /** One error value per requested target type; null when no target types are given. */
    method GetErrorValues(defaultValue: Value, targetTypes: array?<Option<Ty>>) returns (r: array?<Value>)
      requires Valid()
      ensures r == null <==> targetTypes == null
      ensures r != null ==> fresh(r) && r.Length == targetTypes.Length
      ensures r != null ==> forall i :: 0 <= i < r.Length ==> r[i] == base.GetErrorValue(defaultValue).value
    {
      if targetTypes == null {
        return null;
      }
      var value := base.GetErrorValue(defaultValue).value;
      r := new Value[targetTypes.Length];
      for i := 0 to r.Length
        invariant forall j :: 0 <= j < i ==> r[j] == value
      {
        r[i] := value;
      }
    }

    /**
     * `IMultiValueConverter.Convert`: the callback's result, on the values in
     * input order, when every guard passes (no warning); otherwise the single
     * error value and exactly one warning, logged last, naming the first bad
     * position when an element does not cast.
     */
    method Convert(values: array?<Value>, targetType: Option<Ty>, parameter: Value, culture: Option<CultureInfo>)
      returns (r: Traced<Value>)
      requires Valid()
      ensures r.result == if ConvertAccepts(Snapshot(values), targetType, parameter)
                          then InvokeConvert(values[..], parameter, culture) else ConvertFallback()
      ensures r.events == ConvertEvents(Snapshot(values), targetType, parameter)
    {
      if !base.isConvertFunctionAvailable {
        return Traced(base.GetErrorValue(base.defaultOutputTypeValue).value, [MissingConvertFunction]);
      }
      if targetType.Some? && !IsAssignableFrom(targetType.value, base.outputType) {
        return Traced(base.GetErrorValue(base.defaultOutputTypeValue).value, [NonAssignableTargetType]);
      }
      var note := NotRequestedNote(targetType);
      if values == null {
        return Traced(base.GetErrorValue(base.defaultOutputTypeValue).value, note + [NullValues]);
      }
      var inner := ConvertInternal(values, parameter, culture);
      r := Traced(inner.result, note + inner.events);
    }

    /** The parameter check, then the per-position cast loop filling the input array, then the callback. */
    method ConvertInternal(values: array<Value>, parameter: Value, culture: Option<CultureInfo>) returns (r: Traced<Value>)
      requires Valid() && HasConvertFunction()
      ensures r.result == if ParameterAccepted(parameter) && AllCast(values[..], base.inputType)
                          then InvokeConvert(values[..], parameter, culture) else ConvertFallback()
      ensures !ParameterAccepted(parameter) ==> r.events == [ConvertParameterRejected()]
      ensures ParameterAccepted(parameter) && !AllCast(values[..], base.inputType)
              ==> r.events == [UnableToCastAtPositionToInputType(FirstUncastable(values[..], base.inputType))]
      ensures ParameterAccepted(parameter) && AllCast(values[..], base.inputType) ==> r.events == []
    {
      if Unparameterized? && parameter != Null {
        return Traced(base.GetErrorValue(DefaultOf(base.outputType)).value, [ParameterInParameterlessConverter]);
      }
      if Parameterized? && !CastsTo(parameter, parameterType) {
        return Traced(base.GetErrorValue(DefaultOf(base.outputType)).value, [UnableToCastToParameterType]);
      }
      var inputValues := new Value[values.Length];
      var i := 0;
      while i < values.Length
        invariant 0 <= i <= values.Length
        invariant forall j :: 0 <= j < i ==> CastsTo(values[j], base.inputType)
        invariant inputValues[..i] == values[..i]
      {
        if !CastsTo(values[i], base.inputType) {
          return Traced(base.GetErrorValue(DefaultOf(base.outputType)).value, [UnableToCastAtPositionToInputType(i)]);
        }
        inputValues[i] := values[i];
        i := i + 1;
      }
      assert inputValues[..] == values[..];
      r := Traced(InvokeConvert(inputValues[..], parameter, culture), []);
    }

    /**
     * `IMultiValueConverter.ConvertBack`: when every guard passes, a fresh
     * array holding the callback's elements in order (null for a null
     * sequence); otherwise the error-value array sized to the target types
     * (null for null target types) and exactly one warning, logged last.
     */
    method ConvertBack(value: Value, targetTypes: array?<Option<Ty>>, parameter: Value, culture: Option<CultureInfo>)
      returns (r: Traced<array?<Value>>)
      requires Valid()
      ensures ConvertBackAccepts(value, Snapshot(targetTypes), parameter) ==>
                && (r.result == null <==> InvokeConvertBack(value, parameter, culture).None?)
                && (r.result != null ==> fresh(r.result) && r.result[..] == InvokeConvertBack(value, parameter, culture).value)
      ensures !ConvertBackAccepts(value, Snapshot(targetTypes), parameter) ==>
                && (r.result == null <==> targetTypes == null)
                && (r.result != null ==> fresh(r.result) && r.result.Length == targetTypes.Length)
                && (r.result != null ==> forall i :: 0 <= i < r.result.Length ==> r.result[i] == ConvertBackFallback())
      ensures r.events == ConvertBackEvents(value, Snapshot(targetTypes), parameter)
    {
      if !base.isConvertBackFunctionAvailable {
        var fallback := GetErrorValues(base.defaultInputTypeValue, targetTypes);
        return Traced(fallback, [MissingConvertBackFunction]);
      }
      ghost var requested := Snapshot(targetTypes);
      var notes: seq<Event>;
      if targetTypes != null {
        var k;
        k, notes := ScanTargetTypes(targetTypes, base.inputType);
        if k < targetTypes.Length {
          assert targetTypes[..][k] == targetTypes[k];
          var fallback := GetErrorValues(base.defaultInputTypeValue, targetTypes);
          return Traced(fallback, notes + [NonAssignableTargetTypeAtPositionForBackConversion(k)]);
        }
        assert targetTypes[..k] == targetTypes[..];
      } else {
        notes := [NonRequestedTargetTypes];
      }
      assert notes == TargetTypeNotes(requested) && TargetTypesAccepted(requested);
      var inner := ConvertBackInternal(value, targetTypes, parameter, culture);
      r := Traced(inner.result, notes + inner.events);
      assert Snapshot(targetTypes) == requested;
    }

    /** The parameter and value casts of `ConvertBack`, then the callback and the flattening of its sequence. */
    method ConvertBackInternal(value: Value, targetTypes: array?<Option<Ty>>, parameter: Value, culture: Option<CultureInfo>)
      returns (r: Traced<array?<Value>>)
      requires Valid() && HasConvertBackFunction()
      ensures !ParameterAccepted(parameter) ==> r.events == [ConvertBackParameterRejected()]
      ensures ParameterAccepted(parameter) && !CastsTo(value, base.outputType) ==> r.events == [UnableToCastToOutputType]
      ensures ParameterAccepted(parameter) && CastsTo(value, base.outputType) ==> r.events == []
      ensures ParameterAccepted(parameter) && CastsTo(value, base.outputType) ==>
                && (r.result == null <==> InvokeConvertBack(value, parameter, culture).None?)
                && (r.result != null ==> fresh(r.result) && r.result[..] == InvokeConvertBack(value, parameter, culture).value)
      ensures !(ParameterAccepted(parameter) && CastsTo(value, base.outputType)) ==>
                && (r.result == null <==> targetTypes == null)
                && (r.result != null ==> fresh(r.result) && r.result.Length == targetTypes.Length)
                && (r.result != null ==> forall i :: 0 <= i < r.result.Length ==> r.result[i] == ConvertBackFallback())
    {
      if Unparameterized? && parameter != Null {
        var fallback := GetErrorValues(DefaultOf(base.inputType), targetTypes);
        return Traced(fallback, [ParameterInParameterlessConverterForBackConversion]);
      }
      if Parameterized? && !CastsTo(parameter, parameterType) {
        var fallback := GetErrorValues(DefaultOf(base.inputType), targetTypes);
        return Traced(fallback, [UnableToCastToParameterTypeForBackConversion]);
      }
      if !CastsTo(value, base.outputType) {
        var fallback := GetErrorValues(DefaultOf(base.inputType), targetTypes);
        return Traced(fallback, [UnableToCastToOutputType]);
      }
      var result := InvokeConvertBack(value, parameter, culture);
      if result.None? {
        return Traced(null, []);
      }
      var items := result.value;
      var flattened := new Value[|items|](i requires 0 <= i < |items| => items[i]);
      r := Traced(flattened, []);
    }
  }

  /**
   * `Convert` warns exactly when it falls back, and then exactly once, as its
   * last event; the only other event is the note for an unrequested target type.
   */
  lemma {:induction false} ConvertWarnsOnceOnFallback(
    c: MultiValueConverter, values: Option<seq<Value>>, targetType: Option<Ty>, parameter: Value)
    ensures var events := c.ConvertEvents(values, targetType, parameter);
            && WarningCount(events) == (if c.ConvertAccepts(values, targetType, parameter) then 0 else 1)
            && (WarningCount(events) == 1 ==> LevelOf(events[|events| - 1]) == Warning)
  {
    if c.base.isConvertFunctionAvailable && TargetTypeAccepted(targetType, c.base.outputType) {
      var note := NotRequestedNote(targetType);
      var last: seq<Event> :=
        if values.None? then [NullValues]
        else if !c.ParameterAccepted(parameter) then [c.ConvertParameterRejected()]
        else if !AllCast(values.value, c.base.inputType) then
          [UnableToCastAtPositionToInputType(FirstUncastable(values.value, c.base.inputType))]
        else [];
      assert c.ConvertEvents(values, targetType, parameter) == note + last;
      WarningCountAppend(note, last);
    }
  }

  /**
   * `ConvertBack` warns exactly when it falls back, and then exactly once, as
   * its last event; every other event is an informational target-type note.
   */
  lemma {:induction false} ConvertBackWarnsOnceOnFallback(
    c: MultiValueConverter, value: Value, targetTypes: Option<seq<Option<Ty>>>, parameter: Value)
    ensures var events := c.ConvertBackEvents(value, targetTypes, parameter);
            && WarningCount(events) == (if c.ConvertBackAccepts(value, targetTypes, parameter) then 0 else 1)
            && (WarningCount(events) == 1 ==> LevelOf(events[|events| - 1]) == Warning)
  {
    var events := c.ConvertBackEvents(value, targetTypes, parameter);
    if !c.base.isConvertBackFunctionAvailable {
    } else if !c.TargetTypesAccepted(targetTypes) {
      var k := FirstNonAssignable(targetTypes.value, c.base.inputType);
      PositionNotesAreNotWarnings(targetTypes.value[..k]);
      WarningCountAppend(PositionNotes(targetTypes.value[..k]), [NonAssignableTargetTypeAtPositionForBackConversion(k)]);
    } else {
      var notes := TargetTypeNotes(targetTypes);
      if targetTypes.Some? {
        PositionNotesAreNotWarnings(targetTypes.value);
      }
      var last: seq<Event> :=
        if !c.ParameterAccepted(parameter) then [c.ConvertBackParameterRejected()]
        else if !CastsTo(value, c.base.outputType) then [UnableToCastToOutputType]
        else [];
      assert events == notes + last;
      WarningCountAppend(notes, last);
    }
  }

  /** `MultiValueConverter.Create<I, O>`. */
  function Create(
    inputType: Ty, outputType: Ty,
    convertFunction: Option<MultiValueConverterArgs -> Value> := None,
    convertBackFunction: Option<ValueConverterArgs -> Option<seq<Value>>> := None,
    errorStrategy: int := CES.Code(CES.ReturnDefaultValue)): (r: Result<MultiValueConverter, Exception>)
    ensures r.Failure? <==> CES.FromCode(errorStrategy).None?
    ensures r.Failure? ==> r.error == ArgumentOutOfRange("errorStrategy")
    ensures r.Success? ==> r.value.Valid() && r.value.Unparameterized?
    ensures r.Success? ==> r.value.base.errorStrategy == errorStrategy
    ensures r.Success? ==> r.value.base.inputType == inputType && r.value.base.outputType == outputType
    ensures r.Success? ==> r.value.convertFunction == convertFunction && r.value.convertBackFunction == convertBackFunction
  {
    if CES.FromCode(errorStrategy).None? then
      Failure(ArgumentOutOfRange("errorStrategy"))
    else
      Success(Unparameterized(
        Converter(errorStrategy, DefaultOf(inputType), DefaultOf(outputType), inputType, outputType,
                  convertFunction.Some?, convertBackFunction.Some?),
        convertFunction, convertBackFunction))
  }

  /** `MultiValueConverter.Create<I, O, P>`. */
  function CreateWithParameter(
    inputType: Ty, outputType: Ty, parameterType: Ty,
    convertFunction: Option<MultiValueConverterArgsWithParameter -> Value> := None,
    convertBackFunction: Option<ValueConverterArgsWithParameter -> Option<seq<Value>>> := None,
    errorStrategy: int := CES.Code(CES.ReturnDefaultValue)): (r: Result<MultiValueConverter, Exception>)
    ensures r.Failure? <==> CES.FromCode(errorStrategy).None?
    ensures r.Failure? ==> r.error == ArgumentOutOfRange("errorStrategy")
    ensures r.Success? ==> r.value.Valid() && r.value.Parameterized? && r.value.parameterType == parameterType
    ensures r.Success? ==> r.value.base.errorStrategy == errorStrategy
    ensures r.Success? ==> r.value.base.inputType == inputType && r.value.base.outputType == outputType
    ensures r.Success? ==> r.value.parameterizedConvertFunction == convertFunction
    ensures r.Success? ==> r.value.parameterizedConvertBackFunction == convertBackFunction
  {
    if CES.FromCode(errorStrategy).None? then
      Failure(ArgumentOutOfRange("errorStrategy"))
    else
      Success(Parameterized(
        Converter(errorStrategy, DefaultOf(inputType), DefaultOf(outputType), inputType, outputType,
                  convertFunction.Some?, convertBackFunction.Some?),
        parameterType, convertFunction, convertBackFunction))
  }

  /** Called without callbacks or strategy, both factories build converters without callbacks that return the default value. */
  lemma DefaultArgumentsAreAccepted(inputType: Ty, outputType: Ty, parameterType: Ty)
    ensures Create(inputType, outputType).Success?
    ensures Create(inputType, outputType).value.base.errorStrategy == CES.Code(CES.ReturnDefaultValue)
    ensures !Create(inputType, outputType).value.HasConvertFunction()
    ensures !Create(inputType, outputType).value.HasConvertBackFunction()
    ensures CreateWithParameter(inputType, outputType, parameterType).Success?
    ensures CreateWithParameter(inputType, outputType, parameterType).value.base.errorStrategy == CES.Code(CES.ReturnDefaultValue)
    ensures !CreateWithParameter(inputType, outputType, parameterType).value.HasConvertFunction()
    ensures !CreateWithParameter(inputType, outputType, parameterType).value.HasConvertBackFunction()
  {
  }
}
