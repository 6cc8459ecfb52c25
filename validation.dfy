/**
 * generateValidationRules (assets/js/controller-generator.js): one
 * `'name' => 'a|b|c',` line per field that is not a system field. The
 * segments come from a switch on the field type, `required` is put in front
 * of them unless the field is nullable, and empty segments are dropped
 * before the join.
 */
module Validation {
  import opened Text
  import opened Seqs
  import opened Fields

  const DefaultMimes := "jpg,jpeg,png,webp,gif,svg"
  const DefaultMaxFileSizeMb: nat := 5

  predicate NonEmpty(s: string) { s != "" }

  /** `(field.maxFileSize || 5) * 1024`, in kilobytes. */
  function MaxKilobytes(f: Field): nat
  {
    (match f.maxFileSize case Some(n) => n case None => DefaultMaxFileSizeMb) * 1024
  }

  /** The values of an `in:` rule: the comma-separated pieces, trimmed, with
      the empty ones dropped. */
  function InValues(enumValues: string): seq<string>
  {
    Filter(NonEmpty, Map(Trim, Split(enumValues, ',')))
  }

  /** What the switch on the field type pushes, before `required` is added
      and before empty segments are dropped. Types without a case push
      nothing. */
  function TypeValidations(f: Field): seq<string>
  {
    match f.kind
    case StringType => ["string", if f.length != "" then "max:" + f.length else ""]
    case TextType => ["string"]
    case IntegerType => ["integer"]
    case BooleanType => ["boolean"]
    case DateType => ["date"]
    case DateTimeType => ["date"]
    case FileType =>
      ["file", "mimes:" + OrElse(f.allowedTypes, DefaultMimes), "max:" + NatToString(MaxKilobytes(f))]
    case EnumType =>
      if f.enumValues != "" then ["in:" + Join(InValues(f.enumValues), ",")] else []
    case RelationType =>
      if f.relationshipType == BelongsTo then ["exists:" + RelatedTable(f) + ",id"] else []
    case _ => []
  }

  function RequiredPrefix(f: Field): seq<string>
  {
    if f.nullable then [] else ["required"]
  }

  /** The segments joined into a rule. */
  function RuleSegments(f: Field): seq<string>
  {
    Filter(NonEmpty, RequiredPrefix(f) + TypeValidations(f))
  }

  function RuleText(f: Field): string
  {
    Join(RuleSegments(f), "|")
  }

  /** One line of the `validate([...])` array. */
  function RuleLine(f: Field): string
  {
    "'" + f.name + "' => '" + RuleText(f) + "',"
  }

  /** One field's line: the pushed segments, `required` put in front with
      `unshift` unless the field is nullable, empties dropped, `|`-joined. */
  method FieldRule(field: Field) returns (line: string)
    ensures line == RuleLine(field)
  {
    var validations := TypeValidations(field);
    if !field.nullable {
      validations := ["required"] + validations;
    }
    assert validations == RequiredPrefix(field) + TypeValidations(field);
    var rule := "'" + field.name + "' => '";
    rule := rule + Join(Filter(NonEmpty, validations), "|") + "'";
    line := rule + ",";
  }

  /** The rule lines of `fields`, in the order the forEach visits them. */
  function RuleLines(fields: seq<Field>): seq<string>
  {
    if fields == [] then []
    else RuleLines(DropLast(fields)) + (if IsUserField(Last(fields)) then [RuleLine(Last(fields))] else [])
  }

  /** The rule lines are exactly the lines of the non-system fields, one
      each, in input order. */
  lemma {:induction false} RuleLinesOnePerUserField(fields: seq<Field>)
    ensures RuleLines(fields) == Map(RuleLine, Filter(IsUserField, fields))
  {
    if fields != [] {
      RuleLinesOnePerUserField(DropLast(fields));
      MapFilterSnoc(RuleLine, IsUserField, fields);
    }
  }

  /** The rules of two lists one after the other are the rules of each. */
  lemma {:induction false} RuleLinesAppend(a: seq<Field>, b: seq<Field>)
    ensures RuleLines(a + b) == RuleLines(a) + RuleLines(b)
    decreases |b|
  {
    if b != [] {
      RuleLinesAppend(a, DropLast(b));
      assert DropLast(a + b) == a + DropLast(b) && Last(a + b) == Last(b);
    } else {
      assert a + b == a;
    }
  }

  /** The rules, built field by field as the source's forEach does: system
      fields are skipped, every other field contributes its line in input
      order. */
  method GenerateValidationRules(fields: seq<Field>) returns (rules: seq<string>)
    ensures rules == RuleLines(fields)
    ensures rules == Map(RuleLine, Filter(IsUserField, fields))
  {
    rules := [];
    var i := 0;
    while i < |fields|
      invariant 0 <= i <= |fields|
      invariant rules == RuleLines(fields[..i])
    {
      var field := fields[i];
      assert DropLast(fields[..i + 1]) == fields[..i];
      if !IsSystemName(field.name) {
        var line := FieldRule(field);
        rules := rules + [line];
      }
      i := i + 1;
    }
    assert fields[..i] == fields;
    RuleLinesOnePerUserField(fields);
  }

  /** Every non-system field has its rule line, and every rule line belongs
      to a non-system field. */
  lemma RuleLinesCoverUserFields(fields: seq<Field>)
    ensures forall f :: f in fields && !IsSystemName(f.name) ==>
              RuleLine(f) in Map(RuleLine, Filter(IsUserField, fields))
    ensures forall line :: line in Map(RuleLine, Filter(IsUserField, fields)) ==>
              exists f :: f in fields && !IsSystemName(f.name) && line == RuleLine(f)
  {
    var users := Filter(IsUserField, fields);
    forall f | f in fields && !IsSystemName(f.name)
      ensures RuleLine(f) in Map(RuleLine, users)
    {
      MapMember(RuleLine, users, f);
    }
    forall line | line in Map(RuleLine, users)
      ensures exists f :: f in fields && !IsSystemName(f.name) && line == RuleLine(f)
    {
      MapOrigin(RuleLine, users, line);
    }
  }

  /** The type switch never pushes `required` itself. */
  lemma NoRequiredFromType(f: Field)
    ensures "required" !in TypeValidations(f)
  {
    var tv := TypeValidations(f);
    forall s | s in tv ensures s != "required" {
      if |s| > 0 && |s| == 8 {
        assert s[0] in {'m', 'i', 'e'};
      }
    }
  }

  /** `required` is the first segment exactly when the field is not
      nullable, and it never appears anywhere else. */
  lemma RequiredFirstIffNotNullable(f: Field)
    ensures (|RuleSegments(f)| > 0 && RuleSegments(f)[0] == "required") <==> !f.nullable
    ensures forall i :: 0 < i < |RuleSegments(f)| ==> RuleSegments(f)[i] != "required"
  {
    NoRequiredFromType(f);
    var rest := Filter(NonEmpty, TypeValidations(f));
    FilterAppend(NonEmpty, RequiredPrefix(f), TypeValidations(f));
    assert "required" !in rest;
    if !f.nullable {
      assert Filter(NonEmpty, ["required"]) == ["required"];
      assert RuleSegments(f) == ["required"] + rest;
    } else {
      assert RuleSegments(f) == rest;
    }
  }

  /** No segment is empty, and when there is at least one segment and none
      holds a `|`, splitting the rule at `|` gives the segments back: the
      join leaves no empty segment and no dangling separator. */
  lemma RuleSplitsIntoSegments(f: Field)
    ensures forall s :: s in RuleSegments(f) ==> s != ""
    ensures RuleSegments(f) != [] && (forall s :: s in RuleSegments(f) ==> '|' !in s) ==>
              Split(RuleText(f), '|') == RuleSegments(f)
  {
    if RuleSegments(f) != [] && forall s :: s in RuleSegments(f) ==> '|' !in s {
      SplitJoin(RuleSegments(f), '|');
    }
  }

  /** The values of an `in:` rule are non-empty, trimmed and free of
      commas. */
  lemma InValuesClean(enumValues: string)
    ensures forall v :: v in InValues(enumValues) ==>
              v != "" && ',' !in v && !IsSpace(v[0]) && !IsSpace(v[|v| - 1])
  {
    var pieces := Split(enumValues, ',');
    forall v | v in InValues(enumValues)
      ensures v != "" && ',' !in v && !IsSpace(v[0]) && !IsSpace(v[|v| - 1])
    {
      MapOrigin(Trim, pieces, v);
    }
  }

  /** So the comma-joined list of an `in:` rule splits back into exactly
      those values. */
  lemma InValuesRoundTrip(enumValues: string)
    requires InValues(enumValues) != []
    ensures Split(Join(InValues(enumValues), ","), ',') == InValues(enumValues)
  {
    InValuesClean(enumValues);
    SplitJoin(InValues(enumValues), ',');
  }

  /** A `string` field gets `string`, and `max:<length>` only when it has a
      length: the empty segment pushed without a length is dropped. */
  lemma StringSegments(f: Field)
    requires f.kind == StringType
    ensures RuleSegments(f) ==
              RequiredPrefix(f) + ["string"] + (if f.length != "" then ["max:" + f.length] else [])
  {
    var head := RequiredPrefix(f) + ["string"];
    var x := if f.length != "" then "max:" + f.length else "";
    assert RequiredPrefix(f) + TypeValidations(f) == head + [x];
    FilterAppend(NonEmpty, head, [x]);
    FilterKeepsAll(NonEmpty, head);
    assert DropLast([x]) == [];
    assert Filter(NonEmpty, [x]) == if x != "" then [x] else [];
  }

  /** Every other type pushes only non-empty segments, so its rule is
      `required` (unless nullable) followed by exactly what its case pushes:
      `file|mimes:<types>|max:<kb>`, `in:<values>` for an enum with values,
      `exists:<table>,id` for a belongsTo relation, and nothing more for an
      enum without values, another relation, or a type without a case. */
  lemma SegmentsByType(f: Field)
    requires f.kind != StringType
    ensures RuleSegments(f) == RequiredPrefix(f) + TypeValidations(f)
  {
    TypeValidationsNonEmpty(f);
    FilterKeepsAll(NonEmpty, RequiredPrefix(f) + TypeValidations(f));
  }

  /** The file defaults: without `allowedTypes` the common image types,
      without `maxFileSize` 5 megabytes, that is 5120 kilobytes. */
  lemma FileDefaults(f: Field)
    requires f.kind == FileType
    ensures f.allowedTypes == "" ==> TypeValidations(f)[1] == "mimes:jpg,jpeg,png,webp,gif,svg"
    ensures f.maxFileSize == None ==> MaxKilobytes(f) == 5120
    ensures f.maxFileSize.Some? ==> MaxKilobytes(f) == f.maxFileSize.value * 1024
  {
  }

  lemma TypeValidationsNonEmpty(f: Field)
    requires f.kind != StringType
    ensures forall s :: s in RequiredPrefix(f) + TypeValidations(f) ==> s != ""
  {
    var tv := TypeValidations(f);
    match f.kind {
      case FileType =>
        assert tv[0] != "" && tv[1] != "" && tv[2] != "";
      case EnumType =>
        assert |tv| == 1 ==> tv[0] != "";
      case RelationType =>
        assert |tv| == 1 ==> tv[0] != "";
      case _ =>
    }
  }

  /** The enum edge cases: without values, a nullable enum gets the empty
      rule and a non-nullable one gets `required` alone. */
  lemma EnumWithoutValues(f: Field)
    requires f.kind == EnumType && f.enumValues == ""
    ensures f.nullable ==> RuleText(f) == ""
    ensures !f.nullable ==> RuleText(f) == "required"
  {
    SegmentsByType(f);
    assert RuleSegments(f) == RequiredPrefix(f);
  }
}
