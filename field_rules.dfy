/**
 * The field rules the two form schemas are built from, with the schema
 * library's semantics: each failed rule reports one issue for its field, and
 * every rule of every field is checked, so all issues are collected.
 */
module FieldRules {
  import Text

  /** A validation issue: the field it concerns and the message shown under it. */
  datatype Issue = Issue(path: string, message: string)

  /** zod 3's default message for `.int()`; the schemas give no message of their own there. */
  const NotAnInteger := "Expected integer, received float"

  /** No issue is listed twice. */
  predicate NoRepeats(issues: seq<Issue>)
  {
    forall i, j :: 0 <= i < j < |issues| ==> issues[i] != issues[j]
  }

  /** Joining issue lists of different fields repeats nothing that neither list repeats. */
  lemma NoRepeatsJoin(a: seq<Issue>, b: seq<Issue>)
    requires NoRepeats(a) && NoRepeats(b)
    requires forall i, j :: 0 <= i < |a| && 0 <= j < |b| ==> a[i].path != b[j].path
    ensures NoRepeats(a + b)
  {
  }

  /** A number with no fractional part. */
  predicate IsInteger(x: real)
  {
    x == x.Floor as real
  }

  /**
   * `z.string().min(n, message)`: a string shorter than `n` UTF-16 code units
   * reports exactly one issue with `message`; a long enough one reports none.
   */
  function MinLength(path: string, s: string, n: nat, message: string): (issues: seq<Issue>)
    ensures issues == [] <==> Text.Utf16Length(s) >= n
    ensures issues != [] ==> issues == [Issue(path, message)]
    ensures |issues| <= 1
  {
    if Text.Utf16Length(s) < n then [Issue(path, message)] else []
  }

  /**
   * `z.number().int().min(min, message)`: a number with a fractional part
   * reports the library's integer issue; a number below `min` reports
   * `message`; both are reported when both fail, the integer issue first.
   */
  function IntegerAtLeast(path: string, x: real, min: int, message: string): (issues: seq<Issue>)
    ensures issues == [] <==> IsInteger(x) && x >= min as real
    ensures Issue(path, NotAnInteger) in issues <==> !IsInteger(x) || (NotAnInteger == message && x < min as real)
    ensures Issue(path, message) in issues <==> x < min as real || (NotAnInteger == message && !IsInteger(x))
    ensures forall i :: 0 <= i < |issues| ==> issues[i].path == path
    ensures |issues| <= 2
    ensures message != NotAnInteger ==> NoRepeats(issues)
  {
    (if IsInteger(x) then [] else [Issue(path, NotAnInteger)])
    + (if x < min as real then [Issue(path, message)] else [])
  }

  /** `.refine(check, { message })`: one issue exactly when the check fails. */
  function Refine(path: string, holds: bool, message: string): (issues: seq<Issue>)
    ensures issues == [] <==> holds
    ensures issues != [] ==> issues == [Issue(path, message)]
    ensures |issues| <= 1
  {
    if holds then [] else [Issue(path, message)]
  }
}
