/**
 * The game-module form's schema (src/schemas/game-module.schema.ts). The
 * order is the already coerced number. Whether a string parses as JSON is a
 * predicate supplied by the caller: `JSON.parse` throwing is that predicate's
 * `false`, which the rule's `catch` turns into a failed rule.
 */
module GameModuleSchema {
  import Text
  import opened FieldRules

  /** The game-module form's values. */
  datatype GameModuleValues = GameModuleValues(moduleType: string, order: real, config: string)

  const TypeRequired := "Le type est requis"
  const OrderRequired := "L'ordre est requis"
  const ConfigInvalid := "Config doit être un JSON valide"

  /**
   * Lines 3-17: all issues of the three fields. The value is accepted exactly
   * when the type has at least two UTF-16 code units, the order is an integer
   * of at least 1 and the config parses as JSON; each message appears exactly
   * when its own rule fails, and no other issue, nor a repeated one, is
   * listed. The config rule (lines 6-15) is a plain failed rule when the
   * config does not parse: validation always returns its issues.
   */
  function Validate(v: GameModuleValues, parsesAsJson: string -> bool): (issues: seq<Issue>)
    ensures issues == [] <==>
      Text.Utf16Length(v.moduleType) >= 2 && IsInteger(v.order) && v.order >= 1.0 && parsesAsJson(v.config)
    ensures Issue("type", TypeRequired) in issues <==> Text.Utf16Length(v.moduleType) < 2
    ensures Issue("order", OrderRequired) in issues <==> v.order < 1.0
    ensures Issue("order", NotAnInteger) in issues <==> !IsInteger(v.order)
    ensures Issue("config", ConfigInvalid) in issues <==> !parsesAsJson(v.config)
    ensures forall x :: x in issues ==>
      x in {Issue("type", TypeRequired), Issue("order", NotAnInteger), Issue("order", OrderRequired),
            Issue("config", ConfigInvalid)}
    ensures NoRepeats(issues)
  {
    var t := MinLength("type", v.moduleType, 2, TypeRequired);
    var o := IntegerAtLeast("order", v.order, 1, OrderRequired);
    var c := Refine("config", parsesAsJson(v.config), ConfigInvalid);
    assert OrderRequired != NotAnInteger by { assert |OrderRequired| != |NotAnInteger|; }
    NoRepeatsJoin(t, o);
    NoRepeatsJoin(t + o, c);
    forall x | x in t + o + c
      ensures x in {Issue("type", TypeRequired), Issue("order", NotAnInteger), Issue("order", OrderRequired),
                    Issue("config", ConfigInvalid)}
    {
      assert x in t || x in o || x in c;
    }
    t + o + c
  }

  /** The config rule is independent of the other fields: a bad config alone is one issue. */
  lemma BadConfigAlone(v: GameModuleValues, parsesAsJson: string -> bool)
    requires Text.Utf16Length(v.moduleType) >= 2 && IsInteger(v.order) && v.order >= 1.0
    requires !parsesAsJson(v.config)
    ensures Validate(v, parsesAsJson) == [Issue("config", ConfigInvalid)]
  {
  }
}
