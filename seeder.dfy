/**
 * generateSeederCode (assets/js/seeder-generator.js): a database seeder that
 * creates ten records filled with Faker values. The Faker call of a field is
 * chosen by its type and, for strings and integers, by keywords in its name;
 * every related model is imported, and its ids collected, once.
 *
 * The seeder is a filter/map/join pipeline with a switch inside the map, so
 * it is modelled with functions only. The text is a sequence of lines with
 * the indentation removed, blank lines and the doc comment left out.
 */
module SeederGenerator {
  import opened Text
  import opened Seqs
  import opened Fields

  /** Not `id`/`created_at`/`updated_at`, and `fillable !== false`. */
  predicate IsSeeded(f: Field)
  {
    !IsSystemName(f.name) && f.fillable
  }

  /** `relatedModel || 'RelatedModel'`. */
  function RelatedModelOf(f: Field): string
  {
    OrElse(f.relatedModel, "RelatedModel")
  }

  // ---------------------------------------------------------------------
  // The Faker method, chosen by keyword

  /** The search down a keyword table: the method of the first entry whose
      keyword occurs in `name`, or `fallback`. */
  function FirstMatch(name: string, table: seq<(string, string)>, fallback: string): string
  {
    if table == [] then fallback
    else if Contains(name, table[0].0) then table[0].1
    else FirstMatch(name, table[1..], fallback)
  }

  /** The search gives the method of the earliest keyword that occurs in the
      name, and the fallback exactly when no keyword occurs. */
  lemma {:induction false} FirstMatchFirstWins(name: string, table: seq<(string, string)>, fallback: string)
    ensures (forall i :: 0 <= i < |table| ==> !Contains(name, table[i].0)) ==>
              FirstMatch(name, table, fallback) == fallback
    ensures forall i :: (0 <= i < |table| && Contains(name, table[i].0) &&
                        (forall j :: 0 <= j < i ==> !Contains(name, table[j].0))) ==>
              FirstMatch(name, table, fallback) == table[i].1
  {
    if table != [] {
      var rest := table[1..];
      FirstMatchFirstWins(name, rest, fallback);
      if forall i :: 0 <= i < |table| ==> !Contains(name, table[i].0) {
        assert !Contains(name, table[0].0);
        forall k | 0 <= k < |rest| ensures !Contains(name, rest[k].0) {
          assert rest[k] == table[k + 1];
        }
      }
      forall i | 0 <= i < |table| && Contains(name, table[i].0) &&
                 (forall j :: 0 <= j < i ==> !Contains(name, table[j].0))
        ensures FirstMatch(name, table, fallback) == table[i].1
      {
        if i > 0 {
          assert !Contains(name, table[0].0);
          assert rest[i - 1] == table[i];
          forall k | 0 <= k < i - 1 ensures !Contains(name, rest[k].0) {
            assert rest[k] == table[k + 1];
          }
        }
      }
    }
  }

  /** The keywords a string field's name is tested for, in the order of the
      tests, with the method each selects. */
  const StringKeywords: seq<(string, string)> :=
    [("name", "name"), ("email", "unique()->safeEmail"), ("phone", "phoneNumber"),
     ("address", "address"), ("city", "city"), ("country", "country"),
     ("title", "sentence"), ("subject", "sentence")]

  /** The if/else chain of the `string` case. */
  function StringFaker(name: string): string
  {
    if Contains(name, "name") then "name"
    else if Contains(name, "email") then "unique()->safeEmail"
    else if Contains(name, "phone") then "phoneNumber"
    else if Contains(name, "address") then "address"
    else if Contains(name, "city") then "city"
    else if Contains(name, "country") then "country"
    else if Contains(name, "title") || Contains(name, "subject") then "sentence"
    else "word"
  }

  /** One step of the search: the first entry, or the search of the rest. */
  lemma FirstMatchStep(name: string, table: seq<(string, string)>, fallback: string)
    requires table != []
    ensures FirstMatch(name, table, fallback) ==
              if Contains(name, table[0].0) then table[0].1 else FirstMatch(name, table[1..], fallback)
  {
  }

  /** The chain picks the method of the first keyword of the table that
      occurs in the name, and `word` when none does. */
  lemma StringFakerByKeyword(name: string)
    ensures StringFaker(name) == FirstMatch(name, StringKeywords, "word")
  {
    var t0 := StringKeywords;
    FirstMatchStep(name, t0, "word");
    var t1 := t0[1..];
    FirstMatchStep(name, t1, "word");
    var t2 := t1[1..];
    FirstMatchStep(name, t2, "word");
    var t3 := t2[1..];
    FirstMatchStep(name, t3, "word");
    var t4 := t3[1..];
    FirstMatchStep(name, t4, "word");
    var t5 := t4[1..];
    FirstMatchStep(name, t5, "word");
    var t6 := t5[1..];
    FirstMatchStep(name, t6, "word");
    var t7 := t6[1..];
    FirstMatchStep(name, t7, "word");
    assert t7[1..] == [];
  }

  const IntegerKeywords: seq<(string, string)> :=
    [("age", "numberBetween(18, 65)"), ("quantity", "numberBetween(1, 100)"), ("count", "numberBetween(1, 100)")]

  /** The if/else chain of the `integer` and `bigInteger` cases. */
  function IntegerFaker(name: string): string
  {
    if Contains(name, "age") then "numberBetween(18, 65)"
    else if Contains(name, "quantity") || Contains(name, "count") then "numberBetween(1, 100)"
    else "randomNumber()"
  }

  lemma IntegerFakerByKeyword(name: string)
    ensures IntegerFaker(name) == FirstMatch(name, IntegerKeywords, "randomNumber()")
  {
    var t0 := IntegerKeywords;
    FirstMatchStep(name, t0, "randomNumber()");
    var t1 := t0[1..];
    FirstMatchStep(name, t1, "randomNumber()");
    var t2 := t1[1..];
    FirstMatchStep(name, t2, "randomNumber()");
    assert t2[1..] == [];
  }

  /** The method the switch on the field type selects when the field is
      neither a relation nor an enum with values. */
  function FakerMethod(f: Field): string
  {
    match f.kind
    case StringType => StringFaker(f.name)
    case TextType => "paragraph"
    case IntegerType => IntegerFaker(f.name)
    case BigIntegerType => IntegerFaker(f.name)
    case BooleanType => "boolean"
    case DateType => "date()"
    case DateTimeType => "dateTime()"
    case DecimalType => "randomFloat(2, 1, 1000)"
    case FloatType => "randomFloat(2, 1, 1000)"
    case _ => "word"
  }

  /** Only `string`, `integer` and `bigInteger` look at the name: for every
      other type two fields of that type get the same method, and it is the
      type's fixed method. */
  lemma FakerMethodByType(f: Field, g: Field)
    requires f.kind == g.kind
    requires f.kind !in {StringType, IntegerType, BigIntegerType}
    ensures FakerMethod(f) == FakerMethod(g)
    ensures f.kind == TextType ==> FakerMethod(f) == "paragraph"
    ensures f.kind == BooleanType ==> FakerMethod(f) == "boolean"
    ensures f.kind == DateType ==> FakerMethod(f) == "date()"
    ensures f.kind == DateTimeType ==> FakerMethod(f) == "dateTime()"
    ensures f.kind in {DecimalType, FloatType} ==> FakerMethod(f) == "randomFloat(2, 1, 1000)"
    ensures f.kind in {EnumType, FileType, RelationType} ==> FakerMethod(f) == "word"
  {
  }

  // ---------------------------------------------------------------------
  // One line per seeded field

  /** `$<lower>Ids`, the variable that holds a related model's ids. */
  function IdsVariable(model: string): string
  {
    "$" + ToLower(model) + "Ids"
  }

  /** `'<name>' => $faker->`, the start of every line. */
  function FieldKey(name: string): string
  {
    "'" + name + "' => $faker->"
  }

  /** What follows the key: `randomElement(<argument>)` for a relation,
      `randomElement([<values>])` for an enum with values, the chosen method
      otherwise; then the comma. */
  function FakerCall(f: Field, relationArgument: string): (r: string)
    ensures r != [] && r[|r| - 1] == ','
  {
    (if f.kind == RelationType then "randomElement(" + relationArgument + ")"
     else if f.kind == EnumType && f.enumValues != "" then
       "randomElement([" + Join(QuotedEnumValues(f.enumValues), ", ") + "])"
     else FakerMethod(f)) + ","
  }

  /** A seeded field's line, with the argument a relation field passes to
      `randomElement`. */
  function FakerLineWith(f: Field, relationArgument: string): string
  {
    FieldKey(f.name) + FakerCall(f, relationArgument)
  }

  /** The relation argument as the source writes it: the ids variable's name
      without its `$`. */
  function RelationArgumentAsWritten(f: Field): string
  {
    ToLower(RelatedModelOf(f)) + "Ids"
  }

  function FakerLineAsWritten(f: Field): string
  {
    FakerLineWith(f, RelationArgumentAsWritten(f))
  }

  /** The line with the relation argument the ids variable it evidently
      means. */
  function FakerLine(f: Field): string
  {
    FakerLineWith(f, IdsVariable(RelatedModelOf(f)))
  }

  /** The lines of the `create([...])` call. */
  function FakerLines(fields: seq<Field>): seq<string>
  {
    Map(FakerLine, Filter(IsSeeded, fields))
  }

  /** Every line starts with the field's quoted name and `$faker->` and ends
      with a comma. */
  lemma FakerLineShape(f: Field)
    ensures StartsWith(FakerLine(f), "'" + f.name + "' => $faker->")
    ensures EndsWith(FakerLine(f), ",")
  {
    var key := FieldKey(f.name);
    var call := FakerCall(f, IdsVariable(RelatedModelOf(f)));
    var line := key + call;
    assert line[..|key|] == key;
    assert line[|line| - 1..] == [call[|call| - 1]];
  }

  /** An enum with values draws from its values: one quoted, trimmed value
      per comma-separated piece, empty pieces kept. An enum without values
      gets `word`. */
  lemma EnumFaker(f: Field)
    requires f.kind == EnumType
    ensures f.enumValues != "" ==>
              FakerLine(f) == FieldKey(f.name) + "randomElement([" + Join(QuotedEnumValues(f.enumValues), ", ") + "])" + ","
    ensures f.enumValues != "" ==> |QuotedEnumValues(f.enumValues)| == CountChar(f.enumValues, ',') + 1
    ensures f.enumValues != "" ==> forall i :: 0 <= i < |QuotedEnumValues(f.enumValues)| ==>
              QuotedEnumValues(f.enumValues)[i] == "'" + Trim(Split(f.enumValues, ',')[i]) + "'"
    ensures f.enumValues == "" ==> FakerLine(f) == FieldKey(f.name) + "word" + ","
  {
    EnumFakerLine(f);
    QuotedEnumValuesCount(f.enumValues);
  }

  /** The line of an enum field, as EnumFaker states it. */
  lemma EnumFakerLine(f: Field)
    requires f.kind == EnumType
    ensures f.enumValues != "" ==>
              FakerLine(f) == FieldKey(f.name) + "randomElement([" + Join(QuotedEnumValues(f.enumValues), ", ") + "])" + ","
    ensures f.enumValues == "" ==> FakerLine(f) == FieldKey(f.name) + "word" + ","
  {
  }

  /** Exactly the seeded fields have a line: every fillable field that is
      not a system field, relations included, and no other. */
  lemma FakerLinesCoverSeededFields(fields: seq<Field>)
    ensures |FakerLines(fields)| == |Filter(IsSeeded, fields)|
    ensures forall f :: f in fields && !IsSystemName(f.name) && f.fillable ==> FakerLine(f) in FakerLines(fields)
    ensures forall line :: line in FakerLines(fields) ==>
              exists f :: f in fields && !IsSystemName(f.name) && f.fillable && line == FakerLine(f)
  {
    var seeded := Filter(IsSeeded, fields);
    forall f | f in fields && !IsSystemName(f.name) && f.fillable
      ensures FakerLine(f) in FakerLines(fields)
    {
      MapMember(FakerLine, seeded, f);
    }
    forall line | line in FakerLines(fields)
      ensures exists f :: f in fields && !IsSystemName(f.name) && f.fillable && line == FakerLine(f)
    {
      MapOrigin(FakerLine, seeded, line);
    }
  }

  // ---------------------------------------------------------------------
  // Related models

  /** `[...new Set(...)]` of the related models of the relation fields. */
  function RelatedModels(fields: seq<Field>): seq<string>
  {
    Dedup(Map(RelatedModelOf, Filter(IsRelation, fields)))
  }

  const ModelsNamespace := "App\\Models\\"

  function ImportLine(model: string): string
  {
    "use " + ModelsNamespace + model + ";"
  }

  /** `$<lower>Ids = <Model>::pluck('id')->toArray();` */
  function IdsLine(model: string): string
  {
    IdsVariable(model) + " = " + model + "::pluck('id')->toArray();"
  }

  /** The related models are those of the relation fields, each once, in
      the order they first occur. */
  lemma RelatedModelsDistinct(fields: seq<Field>)
    ensures forall m :: m in RelatedModels(fields) <==>
              exists f :: f in fields && f.kind == RelationType && RelatedModelOf(f) == m
    ensures forall i, j :: 0 <= i < j < |RelatedModels(fields)| ==> RelatedModels(fields)[i] != RelatedModels(fields)[j]
    ensures var ms := Map(RelatedModelOf, Filter(IsRelation, fields));
            forall i, j :: 0 <= i < j < |RelatedModels(fields)| ==>
              IndexOf(ms, RelatedModels(fields)[i]) < IndexOf(ms, RelatedModels(fields)[j])
  {
    var rels := Filter(IsRelation, fields);
    var ms := Map(RelatedModelOf, rels);
    DedupFirstOccurrenceOrder(ms);
    forall m ensures m in ms <==> exists f :: f in fields && f.kind == RelationType && RelatedModelOf(f) == m {
      if m in ms {
        MapOrigin(RelatedModelOf, rels, m);
      }
      if exists f :: f in fields && f.kind == RelationType && RelatedModelOf(f) == m {
        var f :| f in fields && f.kind == RelationType && RelatedModelOf(f) == m;
        MapMember(RelatedModelOf, rels, f);
      }
    }
  }

  lemma ImportLineInjective()
    ensures forall a, b :: ImportLine(a) == ImportLine(b) ==> a == b
  {
    forall a, b | ImportLine(a) == ImportLine(b) ensures a == b {
      var pre := "use " + ModelsNamespace;
      assert ImportLine(a) == pre + a + ";" && ImportLine(b) == pre + b + ";";
      assert |a| == |b|;
      assert a == ImportLine(a)[|pre|..|pre| + |a|];
      assert b == ImportLine(b)[|pre|..|pre| + |b|];
    }
  }

  lemma IdsLineInjective()
    ensures forall a, b :: IdsLine(a) == IdsLine(b) ==> a == b
  {
    forall a, b | IdsLine(a) == IdsLine(b) ensures a == b {
      var post := "::pluck('id')->toArray();";
      var p := 1 + |a| + 6;
      assert IdsLine(a) == "$" + ToLower(a) + "Ids = " + a + post;
      assert IdsLine(b) == "$" + ToLower(b) + "Ids = " + b + post;
      assert |a| == |b|;
      assert a == IdsLine(a)[p..p + |a|];
      assert b == IdsLine(b)[p..p + |b|];
    }
  }

  /** One import line and one ids line per distinct related model, and none
      for any other model. */
  lemma OneImportAndIdsPerModel(fields: seq<Field>, m: string)
    ensures var present := exists f :: f in fields && f.kind == RelationType && RelatedModelOf(f) == m;
            && Count(Map(ImportLine, RelatedModels(fields)), ImportLine(m)) == (if present then 1 else 0)
            && Count(Map(IdsLine, RelatedModels(fields)), IdsLine(m)) == (if present then 1 else 0)
  {
    RelatedModelsDistinct(fields);
    ImportLineInjective();
    IdsLineInjective();
    CountMapInjective(ImportLine, RelatedModels(fields), m);
    CountMapInjective(IdsLine, RelatedModels(fields), m);
  }

  // ---------------------------------------------------------------------
  // The seeder class

  function ClassLine(modelName: string): string
  {
    "class " + (modelName + "Seeder") + " extends Seeder"
  }

  const LoopLine := "foreach (range(1, 10) as $index) {"

  function CreateLine(modelName: string): string
  {
    modelName + "::create(["
  }

  function SeederHead(modelName: string): seq<string>
  {
    ["<?php", "namespace Database\\Seeders;", ImportLine(modelName)]
  }

  /** From the Faker import to `Faker::create()`. */
  function SeederRun(modelName: string): seq<string>
  {
    ["use Faker\\Factory as Faker;", "use Illuminate\\Database\\Seeder;", ClassLine(modelName), "{",
     "public function run(): void", "{", "$faker = Faker::create();"]
  }

  const SeederTail: seq<string> := ["]);", "}", "}", "}"]

  /** The seeder around given import, ids and field lines. */
  function Seeder(modelName: string, imports: seq<string>, ids: seq<string>, lines: seq<string>): seq<string>
  {
    SeederHead(modelName) + imports + SeederRun(modelName) + ids + [LoopLine, CreateLine(modelName)] + lines + SeederTail
  }

  function SeederLines(modelName: string, fields: seq<Field>): seq<string>
  {
    var related := RelatedModels(fields);
    Seeder(modelName, Map(ImportLine, related), Map(IdsLine, related), FakerLines(fields))
  }

  /** Where everything goes: the imports after the model's own import, the
      class `<Model>Seeder`, the ids after `Faker::create()`, the loop over
      `range(1, 10)` and the field lines inside `<Model>::create([...])`. */
  lemma SeederLayout(modelName: string, imports: seq<string>, ids: seq<string>, lines: seq<string>)
    requires |imports| == |ids|
    ensures var s := Seeder(modelName, imports, ids, lines);
            var k := |imports|;
            && |s| == 16 + 2 * k + |lines|
            && s[2] == ImportLine(modelName)
            && s[3..3 + k] == imports
            && s[5 + k] == ClassLine(modelName)
            && s[10 + k..10 + 2 * k] == ids
            && s[10 + 2 * k] == LoopLine
            && s[11 + 2 * k] == CreateLine(modelName)
            && s[12 + 2 * k..12 + 2 * k + |lines|] == lines
  {
    var k := |imports|;
    var a := SeederHead(modelName) + imports;
    var b := a + SeederRun(modelName) + ids;
    var c := b + [LoopLine, CreateLine(modelName)];
    assert a[3..3 + k] == imports;
    assert (a + SeederRun(modelName))[5 + k] == ClassLine(modelName);
    assert b[10 + k..10 + 2 * k] == ids;
    assert (c + lines)[12 + 2 * k..12 + 2 * k + |lines|] == lines;
  }

  /** The ids line of a model declares that model's ids variable. */
  lemma IdsLineDeclares(m: string)
    ensures StartsWith(IdsLine(m), IdsVariable(m) + " = ")
  {
    var decl := IdsVariable(m) + " = ";
    assert IdsLine(m) == decl + (m + "::pluck('id')->toArray();");
    assert IdsLine(m)[..|decl|] == decl;
  }

  /** The ids line of every related model is in the seeder. */
  lemma IdsLinesInSeeder(modelName: string, fields: seq<Field>, m: string)
    requires m in RelatedModels(fields)
    ensures IdsLine(m) in SeederLines(modelName, fields)
  {
    var related := RelatedModels(fields);
    MapMember(IdsLine, related, m);
    IdsInSeeder(modelName, Map(ImportLine, related), Map(IdsLine, related), FakerLines(fields), IdsLine(m));
  }

  lemma IdsInSeeder(modelName: string, imports: seq<string>, ids: seq<string>, lines: seq<string>, x: string)
    requires x in ids
    ensures x in Seeder(modelName, imports, ids, lines)
  {
    var pre := SeederHead(modelName) + imports + SeederRun(modelName);
    var post := [LoopLine, CreateLine(modelName)] + lines + SeederTail;
    assert Seeder(modelName, imports, ids, lines) == pre + ids + post;
  }

  /** Every relation line draws from an ids variable the seeder declares:
      the line names `$<lower>Ids`, and the ids line of that model is in the
      seeder. */
  lemma RelationLinesUseDeclaredIds(modelName: string, fields: seq<Field>, f: Field)
    requires f in fields && f.kind == RelationType
    ensures Contains(FakerLine(f), IdsVariable(RelatedModelOf(f)))
    ensures IdsLine(RelatedModelOf(f)) in SeederLines(modelName, fields)
  {
    var m := RelatedModelOf(f);
    var v := IdsVariable(m);
    assert FakerLine(f) == FieldKey(f.name) + "randomElement(" + v + ")" + ",";
    ContainsAt(FakerLine(f), FieldKey(f.name) + "randomElement(", v, ")" + ",");
    RelatedModelsDistinct(fields);
    IdsLinesInSeeder(modelName, fields, m);
  }

  /** As written, the relation argument lacks the `$`: it is a bare name,
      not the ids variable the seeder declares, for every related model
      whose name does not itself start with `$` (in PHP a bare name is read
      as a constant). For `category_id` related to `Category` the line
      passes `categoryIds` while the seeder declares `$categoryIds`. */
  lemma RelationArgumentMissesVariable(f: Field)
    requires f.kind == RelationType
    requires f.relatedModel == "" || f.relatedModel[0] != '$'
    ensures forall m :: RelationArgumentAsWritten(f) != IdsVariable(m)
    ensures FakerLineAsWritten(f) != FakerLine(f)
  {
    var lower := ToLower(RelatedModelOf(f));
    assert lower[0] != '$';
    forall m ensures RelationArgumentAsWritten(f) != IdsVariable(m) {
      assert RelationArgumentAsWritten(f)[0] == lower[0];
      assert IdsVariable(m)[0] == '$';
    }
    var key := FieldKey(f.name);
    assert FakerLineAsWritten(f) == key + ("randomElement(" + RelationArgumentAsWritten(f) + ")" + ",");
    assert FakerLine(f) == key + ("randomElement(" + IdsVariable(RelatedModelOf(f)) + ")" + ",");
    assert |FakerLineAsWritten(f)| != |FakerLine(f)|;
  }

  /** Off relation fields the line as written and the corrected line are
      the same: the relation argument is the only difference. */
  lemma AsWrittenAgreesOffRelations(f: Field)
    ensures f.kind != RelationType <==> FakerLineAsWritten(f) == FakerLine(f)
  {
    if f.kind == RelationType {
      var key := FieldKey(f.name);
      assert FakerLineAsWritten(f) == key + ("randomElement(" + RelationArgumentAsWritten(f) + ")" + ",");
      assert FakerLine(f) == key + ("randomElement(" + IdsVariable(RelatedModelOf(f)) + ")" + ",");
      assert |FakerLineAsWritten(f)| + 1 == |FakerLine(f)|;
    }
  }
}
