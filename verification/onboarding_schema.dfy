/** The customer onboarding schema (`onboardingSchema`): eleven required
    fields, checked field by field; a failed parse reports, per field, the
    messages of that field's failed checks (`error.flatten().fieldErrors`). */
module OnboardingSchema {
  import opened JsValues
  import opened Zod

  /** The schema's fields, in declaration order. */
  const Fields: seq<string> :=
    ["fullName", "address", "gender", "age", "height", "weight",
     "measurementUnit", "chest", "waist", "hips", "inseam"]

  const NumericFields: set<string> := {"age", "height", "weight", "chest", "waist", "hips", "inseam"}

  const Genders: seq<string> := ["Male", "Female", "Other"]
  const Units: seq<string> := ["cm", "in"]

  /** The message a numeric field carries when its number is below 1. */
  function NumberMessage(k: string): string
  {
    if k == "age" then "Age is required."
    else if k == "height" then "Height is required."
    else if k == "weight" then "Weight is required."
    else if k == "chest" then "Chest measurement is required."
    else if k == "waist" then "Waist measurement is required."
    else if k == "hips" then "Hips measurement is required."
    else "Inseam measurement is required."
  }

  /** The check the schema applies to field `k`. */
  function CheckField(d: Doc, k: string): Check
    requires k in Fields
  {
    var v := Field(d, k);
    if k == "fullName" then StringMin(v, 3, "Full name must be at least 3 characters.")
    else if k == "address" then StringMin(v, 5, "Address must be at least 5 characters.")
    else if k == "gender" then EnumOf(v, Genders)
    else if k == "measurementUnit" then EnumOf(v, Units)
    else CoercedNumberMin(v, 1.0, NumberMessage(k))
  }

  /** `error.flatten().fieldErrors`: each failing field with its messages. */
  function FieldErrors(d: Doc): map<string, seq<string>>
  {
    map k | k in Fields && CheckField(d, k).Issue? :: CheckField(d, k).msgs
  }

  datatype Parsed = Valid(data: Doc) | Invalid(errors: map<string, seq<string>>)

  /** `onboardingSchema.safeParse(d)`: the parsed record holds exactly the
      schema's fields (unknown keys are dropped, numbers are coerced). */
  function SafeParse(d: Doc): (r: Parsed)
    ensures r.Valid? <==> forall k :: k in Fields ==> CheckField(d, k).Pass?
    ensures r.Valid? ==> r.data.Keys == set k | k in Fields
    ensures r.Valid? ==> forall k :: k in Fields ==> r.data[k] == CheckField(d, k).out.value
    ensures r.Invalid? ==> r.errors == FieldErrors(d) && r.errors != map[]
  {
    if forall k :: k in Fields ==> CheckField(d, k).Pass? then
      Valid(map k | k in Fields :: CheckField(d, k).out.value)
    else
      var k :| k in Fields && CheckField(d, k).Issue?;
      ErrorsAt(d, k);
      Invalid(FieldErrors(d))
  }

  /** A field of the schema has an entry in the error map iff its check
      fails, and the entry is that check's messages. */
  lemma ErrorsAt(d: Doc, k: string)
    requires k in Fields
    ensures k in FieldErrors(d) <==> CheckField(d, k).Issue?
    ensures k in FieldErrors(d) ==> FieldErrors(d)[k] == CheckField(d, k).msgs
  {
  }

  // ---------------------------------------------------------------------------
  // The field rules.

  /** `fullName` is accepted iff it is a string of at least 3 characters. */
  lemma FullNameRule(d: Doc)
    ensures "fullName" !in FieldErrors(d) <==>
      "fullName" in d && d["fullName"].Str? && |d["fullName"].s| >= 3
    ensures "fullName" in d && d["fullName"].Str? && |d["fullName"].s| < 3 ==>
      FieldErrors(d)["fullName"] == ["Full name must be at least 3 characters."]
  {
  }

  /** `address` is accepted iff it is a string of at least 5 characters. */
  lemma AddressRule(d: Doc)
    ensures "address" !in FieldErrors(d) <==>
      "address" in d && d["address"].Str? && |d["address"].s| >= 5
    ensures "address" in d && d["address"].Str? && |d["address"].s| < 5 ==>
      FieldErrors(d)["address"] == ["Address must be at least 5 characters."]
  {
  }

  /** `gender` is exactly `Male`, `Female` or `Other`; case matters. */
  lemma GenderRule(d: Doc)
    ensures "gender" !in FieldErrors(d) <==>
      "gender" in d && d["gender"] in {Str("Male"), Str("Female"), Str("Other")}
    ensures d == map["gender" := Str("male")] ==> "gender" in FieldErrors(d)
  {
  }

  /** `measurementUnit` is exactly `cm` or `in`; `inch` is rejected. */
  lemma UnitRule(d: Doc)
    ensures "measurementUnit" !in FieldErrors(d) <==>
      "measurementUnit" in d && d["measurementUnit"] in {Str("cm"), Str("in")}
    ensures d == map["measurementUnit" := Str("inch")] ==> "measurementUnit" in FieldErrors(d)
  {
    ErrorsAt(d, "measurementUnit");
    assert CheckField(d, "measurementUnit") == EnumOf(Field(d, "measurementUnit"), Units);
    assert forall s: string :: s in Units <==> s == "cm" || s == "in";
  }

  /** The text "0" is coerced to 0. */
  lemma ZeroTextIsZero()
    ensures ParseNumber("0") == Some(0.0)
  {
    assert TrimStart("0") == "0";
    assert TrimEnd("0") == "0";
    assert FirstIndex("0", '.') == 1;
    assert DigitsValue("0") == 0 by { assert "0"[..0] == []; }
  }

  lemma NumericCheck(d: Doc, k: string)
    requires k in NumericFields
    ensures k in Fields
    ensures CheckField(d, k) == CoercedNumberMin(Field(d, k), 1.0, NumberMessage(k))
  {
    assert k != "fullName" && k != "address" && k != "gender" && k != "measurementUnit";
  }

  /** A numeric field is accepted iff its coerced number is at least 1; 0, the
      empty string and the text "0" are rejected with the field's own message. */
  lemma NumericRule(d: Doc, k: string)
    requires k in NumericFields
    ensures k !in FieldErrors(d) <==> ToNumber(Field(d, k)).Some? && ToNumber(Field(d, k)).value >= 1.0
    ensures k in d && d[k] in {Num(0.0), Str(""), Str("0")} ==> FieldErrors(d)[k] == [NumberMessage(k)]
  {
    NumericCheck(d, k);
    ErrorsAt(d, k);
    if k in d && d[k] in {Num(0.0), Str(""), Str("0")} {
      if d[k] == Str("0") {
        ZeroTextIsZero();
      } else if d[k] == Str("") {
        EmptyTextIsZero();
      }
      assert ToNumber(Field(d, k)) == Some(0.0);
    }
  }

  /** A record is valid iff no field has an error. */
  lemma ValidIffNoFieldErrors(d: Doc)
    ensures SafeParse(d).Valid? <==> FieldErrors(d) == map[]
  {
    if FieldErrors(d) == map[] {
      forall k | k in Fields ensures CheckField(d, k).Pass? {
        assert k !in FieldErrors(d);
      }
    }
  }
}
