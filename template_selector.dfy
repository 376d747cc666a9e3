/** `TemplateSelector`: lambda-based data template selectors and their factory. */
module TemplateSelectors {
  import opened Wrappers
  import opened Runtime
  import opened Diagnostics
  import opened Args
  import opened Selectors
  import SES = SelectorErrorStrategies

  /** `Selector<I>`: the configuration and the select function. */
  datatype TemplateSelector = TemplateSelector(base: Selector, selectFunction: Option<TemplateSelectorArgs -> DataTemplate?>)
  {
    /** What the constructor establishes. */
    predicate Valid() {
      && SES.FromCode(base.errorStrategy).Some?
      && base.defaultInputTypeValue == DefaultOf(base.inputType)
      && base.isSelectFunctionAvailable == selectFunction.Some?
    }

    /** Both guards of `SelectTemplate` at once. */
    predicate Accepts(item: Value) {
      base.isSelectFunctionAvailable && CastsTo(item, base.inputType)
    }

    /**
     * `DataTemplateSelector.SelectTemplate`: the very template the select
     * function returns (null included) when the function is there and the item
     * casts (no warning); otherwise null or a fresh empty template, as the
     * strategy says, and exactly one warning.
     */
    method SelectTemplate(item: Value, container: DependencyObject?) returns (r: Traced<DataTemplate?>)
      requires Valid()
      ensures WarningCount(r.events) == if Accepts(item) then 0 else 1
      ensures Accepts(item) ==> r.result == selectFunction.value(TemplateSelectorArgs(item, container)) && r.events == []
      ensures !Accepts(item) && base.errorStrategy == SES.Code(SES.ReturnDefaultValue) ==> r.result == null
      ensures !Accepts(item) && base.errorStrategy == SES.Code(SES.ReturnNewEmptyDataTemplate) ==>
                r.result != null && fresh(r.result) && !r.result.hasContent
      ensures !base.isSelectFunctionAvailable ==> r.events == [MissingSelectTemplateFunction]
      ensures base.isSelectFunctionAvailable && !CastsTo(item, base.inputType) ==> r.events == [UnableToCastToInputType]
    {
      if !base.isSelectFunctionAvailable {
        var fallback := base.GetErrorValue(null);
        return Traced(fallback.value, [MissingSelectTemplateFunction]);
      }
      r := SelectTemplateInternal(item, container);
    }

    /** The cast of the item, then the select function. The cast failure is logged with the converters' event. */
    method SelectTemplateInternal(item: Value, container: DependencyObject?) returns (r: Traced<DataTemplate?>)
      requires Valid() && selectFunction.Some?
      ensures r.events == if CastsTo(item, base.inputType) then [] else [UnableToCastToInputType]
      ensures CastsTo(item, base.inputType) ==> r.result == selectFunction.value(TemplateSelectorArgs(item, container))
      ensures !CastsTo(item, base.inputType) && base.errorStrategy == SES.Code(SES.ReturnDefaultValue) ==> r.result == null
      ensures !CastsTo(item, base.inputType) && base.errorStrategy == SES.Code(SES.ReturnNewEmptyDataTemplate) ==>
                r.result != null && fresh(r.result) && !r.result.hasContent
    {
      if !CastsTo(item, base.inputType) {
        var fallback := base.GetErrorValue(null);
        return Traced(fallback.value, [UnableToCastToInputType]);
      }
      r := Traced(selectFunction.value(TemplateSelectorArgs(item, container)), []);
    }
  }

  /** `TemplateSelector.Create<I>`: rejects an undefined error strategy, otherwise builds the selector. */
  function Create(
    inputType: Ty,
    selectFunction: Option<TemplateSelectorArgs -> DataTemplate?> := None,
    errorStrategy: int := SES.Code(SES.ReturnDefaultValue)): (r: Result<TemplateSelector, Exception>)
    ensures r.Failure? <==> SES.FromCode(errorStrategy).None?
    ensures r.Failure? ==> r.error == ArgumentOutOfRange("errorStrategy")
    ensures r.Success? ==> r.value.Valid()
    ensures r.Success? ==> r.value.base.errorStrategy == errorStrategy && r.value.base.inputType == inputType
    ensures r.Success? ==> r.value.selectFunction == selectFunction
  {
    if SES.FromCode(errorStrategy).None? then
      Failure(ArgumentOutOfRange("errorStrategy"))
    else
      Success(TemplateSelector(Selector(errorStrategy, DefaultOf(inputType), inputType, selectFunction.Some?), selectFunction))
  }

  /** Called without a select function or strategy, the factory builds a selector without a function that returns null. */
  lemma DefaultArgumentsAreAccepted(inputType: Ty)
    ensures Create(inputType).Success?
    ensures Create(inputType).value.base.errorStrategy == SES.Code(SES.ReturnDefaultValue)
    ensures Create(inputType).value.selectFunction.None?
  {
  }

  /**
   * With `ReturnNewEmptyDataTemplate`, two fallbacks are never the same
   * template: each call allocates its own.
   */
  method SelectTwice(s: TemplateSelector, item: Value, container: DependencyObject?)
    returns (first: DataTemplate?, second: DataTemplate?)
    requires s.Valid() && !s.Accepts(item)
    requires s.base.errorStrategy == SES.Code(SES.ReturnNewEmptyDataTemplate)
    ensures first != null && second != null && first != second
    ensures !first.hasContent && !second.hasContent
  {
    var r1 := s.SelectTemplate(item, container);
    var r2 := s.SelectTemplate(item, container);
    first, second := r1.result, r2.result;
  }
}
