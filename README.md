# lambda-converters, modelled in Dafny

LambdaConverters builds WPF value converters, multi-value converters,
validation rules and data template selectors from lambdas. Every adapter is a
guard cascade. It checks, in a fixed order, that its callback was supplied,
that the requested target type fits, that the converter parameter is
acceptable, and that the incoming value casts to the callback's input type. If
a guard fails, it logs a trace event and returns the value its error strategy
prescribes. Otherwise it calls the callback once and returns the callback's
result unchanged. The factories (`Create`) reject error-strategy codes outside
their enumeration.

The model has these modules:

- `Runtime`: a small universe of runtime types with `IsAssignableFrom`, boxed values with the two framework sentinels `DependencyProperty.UnsetValue` and `Binding.DoNothing`, the `(T)value` cast (null casts only to reference types), and `default(T)`.
- `ConverterErrorStrategies`, `RuleErrorStrategies`, `SelectorErrorStrategies`: the three enumerations, with the decoding of a raw integer code. C# callers can pass any integer, as in `(ConverterErrorStrategy)int.MaxValue`.
- `Diagnostics`: the trace events as an output list next to each result (`Traced`), with their levels.
- `Converters`, `ValueConverters`, `MultiValueConverters`: the converter configuration, its fallback, and both adapters in their two-type and three-type (parameterised) forms. The multi-value loops (error-array fill, per-position cast, per-position target-type check) are methods over arrays with loop invariants. The flattening of the callback's sequence into a fresh array is an array initialiser.
- `Rules`, `Validators`: validation rules.
- `Selectors`, `TemplateSelectors`: template selectors. The fallback may allocate a fresh, empty `DataTemplate`, so these are methods with `fresh` postconditions.
- `Scenarios`: concrete cases on `Int32`, `Boolean` and `String`, taken from the unit tests of all four adapters.

The factories keep the source's default arguments: no callbacks and the `ReturnDefaultValue` strategy.

The generic type parameters `I`, `O` and `P` are explicit `Ty` fields of each adapter. A configuration built by a factory satisfies `Valid()`:

- its error-strategy code is defined;
- its defaults are `default(I)` and `default(O)`;
- its availability flags match the supplied callbacks.

The adapter operations require `Valid()`. That is the invariant the only constructors, the factories, establish. Each operation's contract has two parts:

- A declarative acceptance predicate (`ConvertAccepts`, `ConvertBackAccepts`, `Accepts`), the conjunction of all guards. It decides between "the callback's result" and "the fallback".
- The event list. It names the guard that fired first (its warning event), after any informational "not requested" notes. It holds exactly one warning, logged last, on every fallback path, and none when the callback runs. For the multi-value converter the list is given by a trace function (`ConvertEvents`, `ConvertBackEvents`), one case per guard. Separate lemmas prove its warning properties.

## Model

| member | source | states |
|---|---|---|
| ConverterErrorStrategies.FromCode | Sources/LambdaConverters.Wpf/ConverterErrorStrategy.cs:8-26 | a raw code decodes to a member exactly when it is 0, 1 or 2, and the member's code is that raw code |
| ConverterErrorStrategies.CodeRoundTrip | Sources/LambdaConverters.Wpf/ConverterErrorStrategy.cs:8-26 | decoding a member's code gives the member back |
| RuleErrorStrategies.FromCode | Sources/LambdaConverters.Wpf/RuleErrorStrategy.cs:6-22 | a raw code decodes exactly when it is 0, 1 or 2, inversely to `Code` |
| RuleErrorStrategies.CodeRoundTrip | Sources/LambdaConverters.Wpf/RuleErrorStrategy.cs:6-22 | decoding a member's code gives the member back |
| SelectorErrorStrategies.FromCode | Sources/LambdaConverters.Wpf/SelectorErrorStrategy.cs:6-17 | a raw code decodes exactly when it is 0 or 1, inversely to `Code` |
| SelectorErrorStrategies.CodeRoundTrip | Sources/LambdaConverters.Wpf/SelectorErrorStrategy.cs:6-17 | decoding a member's code gives the member back |
| Runtime.DefaultOf | Sources/LambdaConverters.Wpf/ValueConverter.cs:127 | `default(T)` is null exactly for reference types, and it always casts back to `T` |
| Converters.Converter.GetErrorValue | Sources/LambdaConverters.Wpf/Converter.cs:44-61 | ReturnDefaultValue gives the supplied default, UseFallbackOrDefaultValue gives `UnsetValue`, DoNothing gives `Binding.DoNothing`; it throws NotSupported exactly when the code is outside the enumeration |
| Converters.FallbackIgnoresDefaultUnlessReturnDefaultValue | Sources/LambdaConverters.Wpf/Converter.cs:52-59 | under every strategy other than ReturnDefaultValue, the supplied default has no influence on the outcome |
| Converters.FallbackIsDefaultOrSentinel | Sources/LambdaConverters.Wpf/Converter.cs:47-57 | for a defined strategy the fallback succeeds and is the default, `UnsetValue` or `Binding.DoNothing` |
| ValueConverters.ValueConverter.Convert | Sources/LambdaConverters.Wpf/ValueConverter.cs:37-75 | the result is the callback applied to the value, parameter and culture iff all guards pass, else `GetErrorValue(default(O))`; zero warnings iff all guards pass, else exactly one, last; each guard's own event: missing function, non-assignable target type, rejected parameter, uncastable value, after the note for an unrequested target type |
| ValueConverters.ValueConverter.ConvertInternal | Sources/LambdaConverters.Wpf/ValueConverter.cs:133-172 | the parameter check (null without `P`, cast to `P` with it; lines 231-276) and the cast to `I` decide between the callback result and the fallback; a rejected parameter logs its event, an uncastable value `UnableToCastToInputType`, success nothing |
| ValueConverters.ValueConverter.ConvertBack | Sources/LambdaConverters.Wpf/ValueConverter.cs:77-115 | as `Convert` with `I` and `O` exchanged: a target type must be assignable from `I`, the value must cast to `O`, the fallback is `GetErrorValue(default(I))`; the same per-guard events, in their back-conversion forms |
| ValueConverters.ValueConverter.ConvertBackInternal | Sources/LambdaConverters.Wpf/ValueConverter.cs:174-213 | the parameter check (also lines 278-323) and the cast to `O` decide between the convert-back result and the fallback; a rejected parameter logs its event, an uncastable value `UnableToCastToOutputType`, success nothing |
| ValueConverters.Create | Sources/LambdaConverters.Wpf/ValueConverter.cs:340-357 | fails with ArgumentOutOfRange("errorStrategy") iff the code is undefined; otherwise a valid two-type converter keeping the strategy, types and callbacks |
| ValueConverters.CreateWithParameter | Sources/LambdaConverters.Wpf/ValueConverter.cs:374-391 | the same for the three-type converter, which also keeps `P` |
| ValueConverters.UnrequestedTargetTypeActsAsOutputType | Sources/LambdaConverters.Wpf/ValueConverter.cs:52-72 | not requesting a target type gives the same result as requesting exactly `O` (or `I` backwards) |
| ValueConverters.MissingConvertFunctionIgnoresInputs | Sources/LambdaConverters.Wpf/ValueConverter.cs:39-50 | without a convert function every value, target type, parameter and culture gives `GetErrorValue(default(O))` with the one warning |
| ValueConverters.DefaultArgumentsAreAccepted | Sources/LambdaConverters.Wpf/ValueConverter.cs:341-343 | called with the default arguments, both factories succeed with no callbacks and the ReturnDefaultValue strategy (also lines 375-377) |
| ValueConverters.CreatedConvertersNeverThrow | Sources/LambdaConverters.Wpf/Converter.cs:58-59 | a valid converter's `GetErrorValue` never reaches the NotSupported branch |
| MultiValueConverters.FirstUncastable | Sources/LambdaConverters.Wpf/MultiValueConverter.cs:199-220 | the first position whose element does not cast: every earlier element casts, and the element there does not |
| MultiValueConverters.FirstNonAssignable | Sources/LambdaConverters.Wpf/MultiValueConverter.cs:128-147 | the first non-null target type not assignable from `I`: every earlier requested type is assignable |
| MultiValueConverters.PositionNotesAreNotWarnings | Sources/LambdaConverters.Wpf/MultiValueConverter.cs:148-155 | the per-position "not requested" notes are never warnings |
| MultiValueConverters.ScanTargetTypes | Sources/LambdaConverters.Wpf/MultiValueConverter.cs:126-157 | the loop stops exactly at the first non-assignable requested target type, having noted each null position before it in order |
| MultiValueConverters.MultiValueConverter.GetErrorValues | Sources/LambdaConverters.Wpf/MultiValueConverter.cs:38-53 | null iff the target types are null; otherwise a fresh array of the same length whose every element is `GetErrorValue(default)` |
| MultiValueConverters.MultiValueConverter.Convert | Sources/LambdaConverters.Wpf/MultiValueConverter.cs:59-109 | the callback on the values in input order iff all guards pass (including a non-null array whose every element casts), else the single fallback; the events are `ConvertEvents`: missing function, non-assignable target type, null array, rejected parameter, or the first uncastable position, after the note for an unrequested target type |
| MultiValueConverters.MultiValueConverter.ConvertInternal | Sources/LambdaConverters.Wpf/MultiValueConverter.cs:182-224 | after the parameter check (also lines 284-332, logging its event on failure), the cast loop hands the callback a copy equal to the input, or stops at the first uncastable position with that position's event |
| MultiValueConverters.MultiValueConverter.ConvertBack | Sources/LambdaConverters.Wpf/MultiValueConverter.cs:111-164 | when all guards pass (every requested type assignable, null positions skipped), a fresh array with the callback's elements in order, or null for a null result; otherwise the fallback array sized to the target types; the events are `ConvertBackEvents`: missing function, the first non-assignable position after the notes of the null positions before it, or, after all target-type notes, a rejected parameter or an uncastable value |
| MultiValueConverters.MultiValueConverter.ConvertBackInternal | Sources/LambdaConverters.Wpf/MultiValueConverter.cs:226-266 | the parameter check (also lines 334-380) and the cast to `O` decide between the flattened callback result and the fallback array, each failure with its own event |
| MultiValueConverters.ConvertWarnsOnceOnFallback | Sources/LambdaConverters.Wpf/MultiValueConverter.cs:59-109 | the `Convert` trace has no warning iff all guards pass, otherwise exactly one, last |
| MultiValueConverters.ConvertBackWarnsOnceOnFallback | Sources/LambdaConverters.Wpf/MultiValueConverter.cs:111-164 | the `ConvertBack` trace has no warning iff all guards pass, otherwise exactly one, last; the target-type notes are informational |
| MultiValueConverters.Create | Sources/LambdaConverters.Wpf/MultiValueConverter.cs:397-414 | fails with ArgumentOutOfRange("errorStrategy") iff the code is undefined; otherwise a valid two-type converter keeping its arguments |
| MultiValueConverters.CreateWithParameter | Sources/LambdaConverters.Wpf/MultiValueConverter.cs:431-448 | the same for the three-type converter |
| MultiValueConverters.DefaultArgumentsAreAccepted | Sources/LambdaConverters.Wpf/MultiValueConverter.cs:398-400 | called with the default arguments, both factories succeed with no callbacks and the ReturnDefaultValue strategy (also lines 432-434) |
| Rules.Rule.GetErrorValue | Sources/LambdaConverters.Wpf/Rule.cs:31-47 | member 0 gives the supplied default, ReturnInvalid gives an invalid result, ReturnValid a valid one, both without error content; throws NotSupported exactly for undefined codes |
| Rules.NonDefaultFallbackCarriesNoErrorContent | Sources/LambdaConverters.Wpf/Rule.cs:38-42 | a non-default strategy always yields a non-null result without error content, valid iff the strategy is ReturnValid |
| Validators.ValidationRule.Validate | Sources/LambdaConverters.Wpf/Validator.cs:45-55 | the rule's own result, given the value and culture, iff the function exists and the value casts; else `GetErrorValue(null)` with exactly one warning; a missing function is reported before any cast |
| Validators.ValidationRule.ValidateInternal | Sources/LambdaConverters.Wpf/Validator.cs:26-43 | the cast to `I` decides between the rule's result and `GetErrorValue(null)` with the cast event |
| Validators.Create | Sources/LambdaConverters.Wpf/Validator.cs:70-86 | fails with ArgumentOutOfRange("errorStrategy") iff the code is undefined; otherwise a valid rule keeping its arguments |
| Validators.DefaultArgumentsAreAccepted | Sources/LambdaConverters.Wpf/Validator.cs:71-72 | called with the default arguments, the factory succeeds with no rule function and the ReturnDefaultValue strategy |
| Validators.CreatedRulesNeverThrow | Sources/LambdaConverters.Wpf/Rule.cs:44-45 | a rule built by the factory never reaches the NotSupported branch |
| Selectors.DataTemplate.constructor | Sources/LambdaConverters.Wpf/Selector.cs:39 | a new template has no content |
| Selectors.Selector.GetErrorValue | Sources/LambdaConverters.Wpf/Selector.cs:31-44 | member 0 gives the supplied default; ReturnNewEmptyDataTemplate gives a fresh non-null template without content; throws NotSupported exactly for undefined codes |
| TemplateSelectors.TemplateSelector.SelectTemplate | Sources/LambdaConverters.Wpf/TemplateSelector.cs:29-39 | the very template the function returns, given the item and container, iff the function exists and the item casts; else null or a fresh empty template by strategy, with exactly one warning |
| TemplateSelectors.TemplateSelector.SelectTemplateInternal | Sources/LambdaConverters.Wpf/TemplateSelector.cs:54-71 | the cast to `I` decides between the function's template and the fallback; the cast failure logs the converters' cast event |
| TemplateSelectors.Create | Sources/LambdaConverters.Wpf/TemplateSelector.cs:86-101 | fails with ArgumentOutOfRange("errorStrategy") iff the code is undefined; otherwise a valid selector keeping its arguments |
| TemplateSelectors.DefaultArgumentsAreAccepted | Sources/LambdaConverters.Wpf/TemplateSelector.cs:87-88 | called with the default arguments, the factory succeeds with no select function and the ReturnDefaultValue strategy |
| TemplateSelectors.SelectTwice | Sources/LambdaConverters.Wpf/Selector.cs:38-39 | two fallback templates produced under ReturnNewEmptyDataTemplate are distinct, non-null and empty |
| Scenarios.OutOfRangeStrategyIsRejected | Sources/Tests.LambdaConverters.Wpf/ValueConverterTests.cs:21-23 | `int.MaxValue` as a strategy makes all three factories fail naming `errorStrategy` |
| Scenarios.NoFunctionsGiveErrorValues | Sources/Tests.LambdaConverters.Wpf/ValueConverterTests.cs:25-47 | without functions: null for a string output, 0 and false for value types, and the two sentinels under the other strategies |
| Scenarios.ConvertFunctionGuards | Sources/Tests.LambdaConverters.Wpf/ValueConverterTests.cs:53-75 | a wrong target type, a parameter, a `bool` or a null input give null; `1` converts to "1" |
| Scenarios.SelectWithoutFunction | Sources/Tests.LambdaConverters.Wpf/TemplateSelectorTests.cs:23-29 | a selector without a function gives null, or a new template without content |
| Scenarios.MultiValueConvertBackWithoutFunction | Sources/Tests.LambdaConverters.Wpf/MultiValueConverterTests.cs:48-50 | a multi-value converter of `int` without functions converts `1` back, for the target types `int` and `string`, to `[0, 0]` |
| Scenarios.RuleWithoutFunction | Sources/Tests.LambdaConverters.Wpf/ValidationRuleTests.cs:24-39 | a rule without a function gives null, an invalid result or a valid one, both without error content |
| Scenarios.RuleFunctionGuards | Sources/Tests.LambdaConverters.Wpf/ValidationRuleTests.cs:45-52 | a `bool` or a null value gives null without calling the rule; `1` gives the rule's own result |

## Left out

- Trace output: the message texts and arguments of `Diagnostics.TraceSource` and the ETW `EventSource` (`Sources/LambdaConverters.Wpf/EventSource.cs`, `Diagnostics.cs`) are I/O. The model keeps only which event fires, in order, and whether it is a warning or informational.
- Callbacks are total functions: exceptions they throw, their side effects and `Debug.Assert` are not modelled. `TemplateSelectors.TemplateSelector.SelectTemplate` assumes the select function returns an already existing template, or null.
- CLR casts and `Type.IsAssignableFrom` are abstracted to a finite supertype set per type. Generics, boxing details, nullable types, enums and user-defined conversions are out.
- WPF objects are opaque: `UnsetValue`, `Binding.DoNothing`, `CultureInfo`, `ValidationResult` (a record, with null as `None`), `DependencyObject` and `DataTemplate` (a class with only `hasContent`).
- The `*Args` structs are plain datatypes with structural equality. Their equality and hash operators, and the empty `Values` of a default-constructed struct, are not modelled. The callback's `ReadOnlyCollection` is modelled as the sequence of the cast values.
- Every adapter operation requires `Valid()`, the invariant the factories establish. Hand-built configurations with an undefined code, which the source's constructors would also accept, are outside the model.
- Enumeration naming: `RuleErrorStrategy.cs:11` and `SelectorErrorStrategy.cs:11` declare member 0 as `ReturnNull`, while `Rule.cs:35`, `Selector.cs:35`, `Validator.cs:76` and `TemplateSelector.cs:92` call it `ReturnDefaultValue`. The model follows the code and names it `ReturnDefaultValue`. Its supplied default is always null.
- `TemplateSelectors.TemplateSelector.SelectTemplateInternal`: the cast failure at `TemplateSelector.cs:63` logs the converters' `UnableToCastToInputType` event, not a selector-specific one. It is modelled as written.
- The deployment program (`Sources/LambdaConverters.Deployment/Program.cs`) and the test support code (`Sources/Tests.Shared`) are not part of this model. The tests serve only as the source of the `Scenarios` lemmas.
