/** The immutable argument holders handed to the user callbacks. */
module Args {
  import opened Wrappers
  import opened Runtime

  /** `ValueConverterArgs<T>`: the cast value and the culture. */
  datatype ValueConverterArgs = ValueConverterArgs(value: Value, culture: Option<CultureInfo>)

  /** `ValueConverterArgs<T, P>`: the cast value, the cast parameter and the culture. */
  datatype ValueConverterArgsWithParameter =
    ValueConverterArgsWithParameter(value: Value, parameter: Value, culture: Option<CultureInfo>)

  /** `MultiValueConverterArgs<T>`: the cast values, in input order, and the culture. */
  datatype MultiValueConverterArgs = MultiValueConverterArgs(values: seq<Value>, culture: Option<CultureInfo>)

  /** `MultiValueConverterArgs<T, P>`. */
  datatype MultiValueConverterArgsWithParameter =
    MultiValueConverterArgsWithParameter(values: seq<Value>, parameter: Value, culture: Option<CultureInfo>)

  /** `ValidationRuleArgs<T>`. */
  datatype ValidationRuleArgs = ValidationRuleArgs(value: Value, culture: Option<CultureInfo>)

  /** A UI element a template is selected for; only ever passed through. */
  class DependencyObject {
  }

  /** `TemplateSelectorArgs<T>`: the cast item and the (possibly null) container. */
  datatype TemplateSelectorArgs = TemplateSelectorArgs(item: Value, container: DependencyObject?)
}
