/**
 * The few zod string, enum and number checks the two forms use, with zod's own default
 * messages. Each function gives the message of the failing check, or None when the value passes.
 */
module Zod {
  import opened Wrappers
  import opened Text

  function TooLongMessage(max: nat): string {
    "String must contain at most " + NatToString(max) + " character(s)"
  }

  /** `z.string().min(min, minMessage).max(max)`. */
  function LengthProblem(s: string, min: nat, minMessage: string, max: nat): (p: Option<string>)
    requires min <= max
    ensures p.None? <==> min <= |s| <= max
    ensures |s| < min ==> p == Some(minMessage)
    ensures |s| > max ==> p == Some(TooLongMessage(max))
  {
    if |s| < min then Some(minMessage)
    else if |s| > max then Some(TooLongMessage(max))
    else None
  }

  /** `z.string().max(max)`. */
  function MaxLengthProblem(s: string, max: nat): (p: Option<string>)
    ensures p.None? <==> |s| <= max
    ensures p.Some? ==> p.value == TooLongMessage(max)
  {
    if |s| > max then Some(TooLongMessage(max)) else None
  }

  /** The options of an enum as zod lists them: quoted and separated by " | ". */
  function JoinValues(values: seq<string>): string
    decreases |values|
  {
    if values == [] then ""
    else if |values| == 1 then "'" + values[0] + "'"
    else "'" + values[0] + "' | " + JoinValues(values[1..])
  }

  function InvalidEnumMessage(values: seq<string>, received: string): string {
    "Invalid enum value. Expected " + JoinValues(values) + ", received '" + received + "'"
  }

  /** `z.enum(values)`. */
  function EnumProblem(s: string, values: seq<string>): (p: Option<string>)
    ensures p.None? <==> s in values
    ensures p.Some? ==> p.value == InvalidEnumMessage(values, s)
  {
    if s in values then None else Some(InvalidEnumMessage(values, s))
  }

  function TooSmallMessage(min: nat): string {
    "Number must be greater than or equal to " + NatToString(min)
  }

  function TooBigMessage(max: nat): string {
    "Number must be less than or equal to " + NatToString(max)
  }

  const NotANumberMessage: string := "Expected number, received nan"

  /** `z.number().min(min).max(max)` applied to a number (NaN is handled by the caller). */
  function RangeProblem(x: real, min: nat, max: nat): (p: Option<string>)
    requires min <= max
    ensures p.None? <==> min as real <= x <= max as real
    ensures x < min as real ==> p == Some(TooSmallMessage(min))
    ensures x > max as real ==> p == Some(TooBigMessage(max))
  {
    if x < min as real then Some(TooSmallMessage(min))
    else if x > max as real then Some(TooBigMessage(max))
    else None
  }
}
