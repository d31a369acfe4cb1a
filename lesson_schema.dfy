/**
 * The lesson form's schema (src/schemas/lesson.schema.ts). The order is taken
 * as the number the input was already coerced to.
 */
module LessonSchema {
  import Text
  import Json
  import opened FieldRules

  /** The lesson form's values. */
  datatype LessonValues = LessonValues(title: string, description: string, order: real)

  const TitleRequired := "Le titre est requis"
  const DescriptionRequired := "La description est requise"
  const OrderRequired := "L'ordre est requis"

  /**
   * Lines 3-7: all issues of the three fields. The value is accepted exactly
   * when the title and the description have at least two UTF-16 code units
   * and the order is an integer of at least 1; each message appears exactly
   * when its own rule fails, and no other issue, nor a repeated one, is
   * listed.
   */
  function Validate(v: LessonValues): (issues: seq<Issue>)
    ensures issues == [] <==>
      Text.Utf16Length(v.title) >= 2 && Text.Utf16Length(v.description) >= 2 && IsInteger(v.order) && v.order >= 1.0
    ensures Issue("title", TitleRequired) in issues <==> Text.Utf16Length(v.title) < 2
    ensures Issue("description", DescriptionRequired) in issues <==> Text.Utf16Length(v.description) < 2
    ensures Issue("order", OrderRequired) in issues <==> v.order < 1.0
    ensures Issue("order", NotAnInteger) in issues <==> !IsInteger(v.order)
    ensures forall x :: x in issues ==>
      x in {Issue("title", TitleRequired), Issue("description", DescriptionRequired),
            Issue("order", NotAnInteger), Issue("order", OrderRequired)}
    ensures NoRepeats(issues)
  {
    var t := MinLength("title", v.title, 2, TitleRequired);
    var d := MinLength("description", v.description, 2, DescriptionRequired);
    var o := IntegerAtLeast("order", v.order, 1, OrderRequired);
    assert OrderRequired != NotAnInteger by { assert |OrderRequired| != |NotAnInteger|; }
    NoRepeatsJoin(t, d);
    NoRepeatsJoin(t + d, o);
    forall x | x in t + d + o
      ensures x in {Issue("title", TitleRequired), Issue("description", DescriptionRequired),
                    Issue("order", NotAnInteger), Issue("order", OrderRequired)}
    {
      assert x in t || x in d || x in o;
    }
    t + d + o
  }

  /** A title of one character outside the Basic Multilingual Plane is two code units long, so it is long enough. */
  lemma {:induction false} AstralTitleIsLongEnough(c: char, v: LessonValues)
    requires c as int > 0xFFFF && v.title == [c]
    ensures Issue("title", TitleRequired) !in Validate(v)
  {
    assert Text.Utf16Length(v.title) == 2 + Text.Utf16Length([]);
  }

  /** An order of one half fails both order rules, and both issues are reported. */
  lemma HalfOrderFailsTwice(v: LessonValues)
    requires v.order == 0.5
    ensures Issue("order", NotAnInteger) in Validate(v) && Issue("order", OrderRequired) in Validate(v)
  {
  }

  /** The accepted values as the JSON object the create call spreads. */
  function Fields(v: LessonValues): (m: map<string, Json.Value>)
    ensures m.Keys == {"title", "description", "order"}
    ensures m["title"] == Json.Str(v.title) && m["description"] == Json.Str(v.description)
    ensures m["order"] == Json.Num(v.order)
  {
    map["title" := Json.Str(v.title), "description" := Json.Str(v.description), "order" := Json.Num(v.order)]
  }
}
