/** The configuration of a lambda-based template selector and its error values. */
module Selectors {
  import opened Wrappers
  import opened Runtime
  import opened SelectorErrorStrategies

  /** A `DataTemplate`; only whether it has content matters here. */
  class DataTemplate {
    const hasContent: bool

    /** `new DataTemplate()`: an empty template. */
    constructor ()
      ensures !hasContent
    {
      hasContent := false;
    }
  }

  /**
   * A selector's configuration, fixed by its constructor: the raw error
   * strategy, `default(I)`, `typeof(I)` and whether the select function was supplied.
   */
  datatype Selector = Selector(
    errorStrategy: int,
    defaultInputTypeValue: Value,
    inputType: Ty,
    isSelectFunctionAvailable: bool)
  {
    /** The template to return instead of the selected one; may allocate a new, empty template. */
    method GetErrorValue(defaultValue: DataTemplate?) returns (r: Result<DataTemplate?, Exception>)
      ensures r.Failure? <==> FromCode(errorStrategy).None?
      ensures r.Failure? ==> r.error == NotSupported
      ensures errorStrategy == Code(ReturnDefaultValue) ==> r == Success(defaultValue)
      ensures errorStrategy == Code(ReturnNewEmptyDataTemplate) ==>
                r.Success? && r.value != null && fresh(r.value) && !r.value.hasContent
    {
      match FromCode(errorStrategy)
      case Some(ReturnDefaultValue) =>
        r := Success(defaultValue);
      case Some(ReturnNewEmptyDataTemplate) =>
        var template := new DataTemplate();
        r := Success(template);
      case None =>
        r := Failure(NotSupported);
    }
  }
}
