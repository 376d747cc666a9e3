/**
 * The trace events the adapters emit on their fallback paths (and the
 * informational "not requested" notes), modelled as an output list.
 */
module Diagnostics {

  datatype Level = Informational | Warning

  /** One emitted trace event; positions are array indices. */
  datatype Event =
    | MissingConvertFunction
    | MissingConvertBackFunction
    | NonAssignableTargetType
    | NonAssignableTargetTypeForBackConversion
    | NonAssignableTargetTypeAtPositionForBackConversion(position: nat)
    | NonRequestedTargetType
    | NonRequestedTargetTypes
    | NonRequestedTargetTypeAtPosition(position: nat)
    | NullValues
    | ParameterInParameterlessConverter
    | ParameterInParameterlessConverterForBackConversion
    | UnableToCastToInputType
    | UnableToCastAtPositionToInputType(position: nat)
    | UnableToCastToOutputType
    | UnableToCastToParameterType
    | UnableToCastToParameterTypeForBackConversion
    | MissingSelectTemplateFunction
    | MissingRuleFunction
    | UnableToCastToRuleInputType

  function LevelOf(e: Event): Level {
    match e
    case NonRequestedTargetType => Informational
    case NonRequestedTargetTypes => Informational
    case NonRequestedTargetTypeAtPosition(_) => Informational
    case _ => Warning
  }

  /** A result together with the trace events emitted while computing it, in order. */
  datatype Traced<+T> = Traced(result: T, events: seq<Event>)

  /** How many of `events` are warnings. */
  function WarningCount(events: seq<Event>): nat {
    if events == [] then 0
    else (if LevelOf(events[0]) == Warning then 1 else 0) + WarningCount(events[1..])
  }

  lemma {:induction false} WarningCountAppend(a: seq<Event>, b: seq<Event>)
    ensures WarningCount(a + b) == WarningCount(a) + WarningCount(b)
  {
    if a != [] {
      assert (a + b)[1..] == a[1..] + b;
      WarningCountAppend(a[1..], b);
    } else {
      assert a + b == b;
    }
  }
}
