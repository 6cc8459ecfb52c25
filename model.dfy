/**
 * generateModelCode (assets/js/model-generator.js): the Eloquent model
 * class, as a sequence of lines with the indentation removed and blank
 * lines left out.
 *
 * The fillable list and the casts block are filter/map/join pipelines and
 * are functions here. The file-path constants, the relationship accessors
 * (with the set of foreign keys already used) and the URL accessors are
 * built by loops that append to the text, and are methods proved against
 * the functions that say what they append.
 */
module ModelGenerator {
  import opened Text
  import opened Seqs
  import opened Fields

  // ---------------------------------------------------------------------
  // Fillable list and casts

  /** `fillable !== false && type !== 'relation'`. */
  predicate IsFillable(f: Field)
  {
    f.fillable && f.kind != RelationType
  }

  function FillableEntry(f: Field): string
  {
    "'" + f.name + "'"
  }

  /** The quoted names of the fillable fields, in input order. */
  function FillableEntries(fields: seq<Field>): seq<string>
  {
    Map(FillableEntry, Filter(IsFillable, fields))
  }

  /** The fillable list names exactly the fillable non-relation fields:
      one quoted entry each, in input order, and no other. */
  lemma FillableExactly(fields: seq<Field>)
    ensures forall f :: f in fields && f.fillable && f.kind != RelationType ==>
              FillableEntry(f) in FillableEntries(fields)
    ensures forall e :: e in FillableEntries(fields) ==>
              exists f :: f in fields && f.fillable && f.kind != RelationType && e == "'" + f.name + "'"
    ensures |FillableEntries(fields)| == |Filter(IsFillable, fields)|
    ensures forall i :: 0 <= i < |FillableEntries(fields)| ==>
              FillableEntries(fields)[i] == "'" + Filter(IsFillable, fields)[i].name + "'"
  {
    var kept := Filter(IsFillable, fields);
    forall f | f in fields && f.fillable && f.kind != RelationType
      ensures FillableEntry(f) in FillableEntries(fields)
    {
      MapMember(FillableEntry, kept, f);
    }
    forall e | e in FillableEntries(fields)
      ensures exists f :: f in fields && f.fillable && f.kind != RelationType && e == "'" + f.name + "'"
    {
      MapOrigin(FillableEntry, kept, e);
    }
  }

  predicate HasCast(f: Field) { f.cast }

  function CastEntry(f: Field): string
  {
    "'" + f.name + "' => '" + f.castType + "'"
  }

  /** `protected $casts = [...]` over the fields with `cast`, or nothing
      when there is none. */
  function CastsBlock(fields: seq<Field>): seq<string>
  {
    var castFields := Filter(HasCast, fields);
    if castFields == [] then []
    else ["protected $casts = ["] + CommaSeparated(Map(CastEntry, castFields)) + ["];"]
  }

  /** The casts block is there exactly when some field has `cast`. */
  lemma CastsBlockIffSomeCast(fields: seq<Field>)
    ensures CastsBlock(fields) != [] <==> exists f :: f in fields && f.cast
  {
    var castFields := Filter(HasCast, fields);
    if exists f :: f in fields && f.cast {
      var f :| f in fields && f.cast;
      assert f in castFields;
    }
    if castFields != [] {
      assert castFields[0] in castFields;
    }
  }

  /** It then maps each such field's name to its cast type, in input
      order, a comma after every entry but the last. */
  lemma CastsBlockEntries(fields: seq<Field>)
    requires Filter(HasCast, fields) != []
    ensures var castFields := Filter(HasCast, fields);
            var block := CastsBlock(fields);
            && |block| == |castFields| + 2
            && block[0] == "protected $casts = ["
            && block[|block| - 1] == "];"
            && (forall i :: 0 <= i < |castFields| - 1 ==> block[1 + i] == CastEntry(castFields[i]) + ",")
            && block[|castFields|] == CastEntry(Last(castFields))
  {
    var castFields := Filter(HasCast, fields);
    var entries := Map(CastEntry, castFields);
    Bracketed("protected $casts = [", CommaSeparated(entries), "];");
  }

  // ---------------------------------------------------------------------
  // File-path constants

  const DefaultUploadPath := "public/uploads"

  /** The value of a path constant: the configured path with a `/` added
      when it lacks one, or `public/uploads` (no slash) when none is set. */
  function PathValue(filePath: string): string
  {
    OrElse(filePath, DefaultUploadPath) + (if filePath != "" && !EndsWith(filePath, "/") then "/" else "")
  }

  /** The three cases of the path value, and so a configured path always
      ends in `/`; adding the slash a second time changes nothing. */
  lemma PathValueCases(filePath: string)
    ensures filePath == "" ==> PathValue(filePath) == "public/uploads"
    ensures filePath != "" && EndsWith(filePath, "/") ==> PathValue(filePath) == filePath
    ensures filePath != "" && !EndsWith(filePath, "/") ==> PathValue(filePath) == filePath + "/"
    ensures filePath != "" ==> EndsWith(PathValue(filePath), "/")
    ensures filePath != "" ==> PathValue(PathValue(filePath)) == PathValue(filePath)
  {
    if filePath != "" && !EndsWith(filePath, "/") {
      var v := filePath + "/";
      assert v[|v| - 1..] == "/";
    }
  }

  function ConstLine(f: Field): string
  {
    "public const " + PathConst(f.name) + " = '" + PathValue(f.filePath) + "';"
  }

  function ConstLines(files: seq<Field>): (r: seq<string>)
    ensures |r| == |files|
  {
    if files == [] then [] else ConstLines(DropLast(files)) + [ConstLine(Last(files))]
  }

  function FilePathsBlock(files: seq<Field>): seq<string>
  {
    if files == [] then [] else ["// File paths"] + ConstLines(files)
  }

  /** The constants, one per file field in field order, appended in a loop
      after the `// File paths` comment. */
  method GenerateFilePaths(fileFields: seq<Field>) returns (filePaths: seq<string>)
    ensures filePaths == FilePathsBlock(fileFields)
  {
    filePaths := [];
    if |fileFields| > 0 {
      filePaths := ["// File paths"];
      var i := 0;
      while i < |fileFields|
        invariant 0 <= i <= |fileFields|
        invariant filePaths == ["// File paths"] + ConstLines(fileFields[..i])
      {
        var field := fileFields[i];
        assert DropLast(fileFields[..i + 1]) == fileFields[..i];
        AppendAssoc(["// File paths"], ConstLines(fileFields[..i]), [ConstLine(field)]);
        filePaths := filePaths + [ConstLine(field)];
        i := i + 1;
      }
      assert fileFields[..i] == fileFields;
    }
  }

  /** One constant per file field, in field order, each named after the
      field. */
  lemma {:induction false} ConstLinesInOrder(files: seq<Field>)
    ensures ConstLines(files) == Map(ConstLine, files)
  {
    if files != [] {
      ConstLinesInOrder(DropLast(files));
      MapSnoc(ConstLine, files);
    }
  }

  // ---------------------------------------------------------------------
  // Relationship accessors

  /** One relationship accessor: its method name and what it returns. */
  datatype Relation =
    | HasManyRel(accessor: string, related: string)
    | HasOneRel(accessor: string, related: string)
    | BelongsToManyRel(accessor: string, related: string, pivot: string)
    | MorphToRel(accessor: string)
    | MorphManyRel(accessor: string, related: string, morphType: string)
    | BelongsToRel(accessor: string, related: string, key: string)

  /** `[a, b].sort().join('_')`. */
  function Pivot(a: string, b: string): string
  {
    if LexLessEq(a, b) then a + "_" + b else b + "_" + a
  }

  /** The branch taken by `belongsTo` and by every unrecognised type. */
  predicate IsDefaultBranch(f: Field)
  {
    f.relationshipType.BelongsTo? || f.relationshipType.OtherKind?
  }

  /** The accessor the switch builds for a relation field. */
  function RelationOf(modelName: string, f: Field): Relation
  {
    var lower := ToLower(f.relatedModel);
    match f.relationshipType
    case HasMany => HasManyRel(OrElse(f.name, lower) + "s", f.relatedModel)
    case HasOne => HasOneRel(OrElse(f.name, lower), f.relatedModel)
    case BelongsToMany =>
      BelongsToManyRel(OrElse(f.name, lower) + "s", f.relatedModel, Pivot(ToLower(modelName), lower))
    case MorphTo => MorphToRel(f.name)
    case MorphMany => MorphManyRel(f.name, f.relatedModel, f.name + "_type")
    case _ => BelongsToRel(StripIdSuffix(lower), f.relatedModel, ForeignKey(f))
  }

  /** The foreign keys the default branch has seen. */
  function UsedKeys(fs: seq<Field>): set<string>
  {
    SeenKeys(IsDefaultBranch, ForeignKey, fs)
  }

  /** The accessor of a field, as a function of the field. */
  function AccessorOf(modelName: string): Field -> Relation
  {
    f => RelationOf(modelName, f)
  }

  /** The accessors of `fs` in order: every field gets its accessor except
      a default-branch field whose key an earlier one already used. */
  function Relations(modelName: string, fs: seq<Field>): seq<Relation>
  {
    Map(AccessorOf(modelName), KeepFirstByKey(IsDefaultBranch, ForeignKey, fs))
  }

  /** The `return` line of an accessor. */
  function CallLine(r: Relation): string
  {
    match r
    case HasManyRel(_, m) => "return $this->hasMany(" + m + "::class);"
    case HasOneRel(_, m) => "return $this->hasOne(" + m + "::class);"
    case BelongsToManyRel(_, m, p) => "return $this->belongsToMany(" + m + "::class, '" + p + "');"
    case MorphToRel(_) => "return $this->morphTo();"
    case MorphManyRel(_, m, t) => "return $this->morphMany(" + m + "::class, '" + t + "');"
    case BelongsToRel(_, m, k) => "return $this->belongsTo(" + m + "::class, '" + k + "');"
  }

  function RenderRelation(r: Relation): seq<string>
  {
    ["public function " + r.accessor + "()", "{", CallLine(r), "}"]
  }

  function RelationsText(rs: seq<Relation>): seq<string>
  {
    if rs == [] then [] else RelationsText(DropLast(rs)) + RenderRelation(Last(rs))
  }

  function RelationsBlock(modelName: string, relationFields: seq<Field>): seq<string>
  {
    if relationFields == [] then [] else ["// Relationships"] + RelationsText(Relations(modelName, relationFields))
  }

  /** The switch on the relationship type for one field: the accessor it
      builds, whether it emits it, and the used keys afterwards. Only the
      default branch looks at and adds to the used keys. */
  method AccessorFor(modelName: string, field: Field, usedForeignKeys: set<string>)
    returns (rel: Relation, emit: bool, used: set<string>)
    ensures rel == RelationOf(modelName, field)
    ensures emit <==> !(IsDefaultBranch(field) && ForeignKey(field) in usedForeignKeys)
    ensures used == usedForeignKeys + (if IsDefaultBranch(field) then {ForeignKey(field)} else {})
  {
    var relatedModelLower := ToLower(field.relatedModel);
    var foreignKey := OrElse(field.foreignKey, relatedModelLower + "_id");
    emit := true;
    used := usedForeignKeys;
    match field.relationshipType {
      case HasMany =>
        rel := HasManyRel(OrElse(field.name, relatedModelLower) + "s", field.relatedModel);
      case HasOne =>
        rel := HasOneRel(OrElse(field.name, relatedModelLower), field.relatedModel);
      case BelongsToMany =>
        var pivotTable := Pivot(ToLower(modelName), relatedModelLower);
        rel := BelongsToManyRel(OrElse(field.name, relatedModelLower) + "s", field.relatedModel, pivotTable);
      case MorphTo =>
        rel := MorphToRel(field.name);
      case MorphMany =>
        rel := MorphManyRel(field.name, field.relatedModel, field.name + "_type");
      case _ =>
        rel := BelongsToRel(StripIdSuffix(relatedModelLower), field.relatedModel, foreignKey);
        if foreignKey in used {
          emit := false;
        } else {
          used := used + {foreignKey};
        }
    }
  }

  /** One more field adds its accessor unless it is skipped, and its key
      when it takes the default branch. */
  lemma RelationsStep(modelName: string, fs: seq<Field>, i: nat)
    requires i < |fs|
    ensures var skip := IsDefaultBranch(fs[i]) && ForeignKey(fs[i]) in UsedKeys(fs[..i]);
            && Relations(modelName, fs[..i + 1]) ==
                 Relations(modelName, fs[..i]) + (if skip then [] else [RelationOf(modelName, fs[i])])
            && UsedKeys(fs[..i + 1]) ==
                 UsedKeys(fs[..i]) + (if IsDefaultBranch(fs[i]) then {ForeignKey(fs[i])} else {})
  {
    var pre := fs[..i];
    assert DropLast(fs[..i + 1]) == pre && Last(fs[..i + 1]) == fs[i];
    var skip := IsDefaultBranch(fs[i]) && ForeignKey(fs[i]) in UsedKeys(pre);
    var kept := KeepFirstByKey(IsDefaultBranch, ForeignKey, pre);
    MapAppend(AccessorOf(modelName), kept, if skip then [] else [fs[i]]);
  }

  lemma RelationsTextSnoc(rs: seq<Relation>, r: Relation)
    ensures RelationsText(rs + [r]) == RelationsText(rs) + RenderRelation(r)
  {
    assert DropLast(rs + [r]) == rs;
  }

  /** The accessors, built as the source builds them: a forEach over the
      relation fields, a switch on the relationship type, and a set of the
      foreign keys the default branch has used. */
  method GenerateRelations(modelName: string, relationFields: seq<Field>) returns (relations: seq<string>)
    ensures relations == RelationsBlock(modelName, relationFields)
  {
    relations := [];
    if |relationFields| > 0 {
      relations := AppendRelations(["// Relationships"], modelName, relationFields);
    }
  }

  /** The forEach of `GenerateRelations`, appending to `code`. */
  method AppendRelations(code: seq<string>, modelName: string, relationFields: seq<Field>)
    returns (out: seq<string>)
    ensures out == code + RelationsText(Relations(modelName, relationFields))
  {
    out := code;
    var usedForeignKeys: set<string> := {};
    var i := 0;
    while i < |relationFields|
      invariant 0 <= i <= |relationFields|
      invariant out == code + RelationsText(Relations(modelName, relationFields[..i]))
      invariant usedForeignKeys == UsedKeys(relationFields[..i])
    {
      RelationsStep(modelName, relationFields, i);
      var rel, emit;
      rel, emit, usedForeignKeys := AccessorFor(modelName, relationFields[i], usedForeignKeys);
      ghost var prev := Relations(modelName, relationFields[..i]);
      if emit {
        RelationsTextSnoc(prev, rel);
        AppendAssoc(code, RelationsText(prev), RenderRelation(rel));
        out := out + RenderRelation(rel);
      } else {
        assert prev + [] == prev;
      }
      i := i + 1;
    }
    assert relationFields[..i] == relationFields;
  }

  // ---------------------------------------------------------------------
  // What the accessors promise

  predicate IsBelongsToRel(r: Relation) { r.BelongsToRel? }

  predicate IsOtherRel(r: Relation) { !r.BelongsToRel? }

  predicate IsOtherBranch(f: Field) { !IsDefaultBranch(f) }

  function KeyOf(r: Relation): string
  {
    if r.BelongsToRel? then r.key else ""
  }

  /** The default-branch keys of a list, in order. */
  function DefaultKeys(fs: seq<Field>): seq<string>
  {
    Map(ForeignKey, Filter(IsDefaultBranch, fs))
  }

  /** Exactly the default-branch fields produce belongsTo accessors. */
  lemma RelationKinds(modelName: string)
    ensures forall f :: IsBelongsToRel(AccessorOf(modelName)(f)) == IsDefaultBranch(f)
    ensures forall f :: IsOtherRel(AccessorOf(modelName)(f)) == IsOtherBranch(f)
    ensures forall f :: IsDefaultBranch(f) ==> KeyOf(AccessorOf(modelName)(f)) == ForeignKey(f)
  {
  }

  /** The used keys are the default-branch keys seen so far. */
  lemma UsedKeysAreDefaultKeys(fs: seq<Field>)
    ensures forall k :: k in UsedKeys(fs) <==> k in DefaultKeys(fs)
  {
    SeenKeysAreKeys(IsDefaultBranch, ForeignKey, fs);
  }

  /** The belongsTo accessors carry the default-branch keys de-duplicated
      in first-occurrence order: one accessor per distinct key, none for a
      key already used. */
  lemma BelongsToKeysDedup(modelName: string, fs: seq<Field>)
    ensures Map(KeyOf, Filter(IsBelongsToRel, Relations(modelName, fs))) == Dedup(DefaultKeys(fs))
  {
    var kept := KeepFirstByKey(IsDefaultBranch, ForeignKey, fs);
    RelationKinds(modelName);
    FilterMap(IsBelongsToRel, AccessorOf(modelName), IsDefaultBranch, kept);
    MapCompose(KeyOf, AccessorOf(modelName), ForeignKey, Filter(IsDefaultBranch, kept));
    KeepFirstByKeyDedup(IsDefaultBranch, ForeignKey, fs);
  }

  /** Every other relation type gets exactly one accessor per field, in
      field order. */
  lemma OtherRelationsOnePerField(modelName: string, fs: seq<Field>)
    ensures Filter(IsOtherRel, Relations(modelName, fs)) == Map(AccessorOf(modelName), Filter(IsOtherBranch, fs))
  {
    var kept := KeepFirstByKey(IsDefaultBranch, ForeignKey, fs);
    RelationKinds(modelName);
    FilterMap(IsOtherRel, AccessorOf(modelName), IsOtherBranch, kept);
    KeepFirstByKeyUnkeyed(IsDefaultBranch, IsOtherBranch, ForeignKey, fs);
  }

  /** The first default-branch field with a given key gets its accessor. */
  lemma FirstWins(modelName: string, fs: seq<Field>, i: nat)
    requires i < |fs| && IsDefaultBranch(fs[i])
    requires forall j :: 0 <= j < i && IsDefaultBranch(fs[j]) ==> ForeignKey(fs[j]) != ForeignKey(fs[i])
    ensures RelationOf(modelName, fs[i]) in Relations(modelName, fs)
  {
    KeepFirstByKeyFirstWins(IsDefaultBranch, ForeignKey, fs, i);
    MapMember(AccessorOf(modelName), KeepFirstByKey(IsDefaultBranch, ForeignKey, fs), fs[i]);
  }

  /** The pivot table of a belongsToMany is the same whichever of the two
      models declares it: the two lower-cased names, smaller first. */
  lemma PivotSymmetric(a: string, b: string)
    ensures Pivot(a, b) == Pivot(b, a)
    ensures LexLessEq(a, b) ==> Pivot(a, b) == a + "_" + b
    ensures LexLessEq(b, a) ==> Pivot(a, b) == b + "_" + a
  {
    LexTotal(a, b);
    if LexLessEq(a, b) && LexLessEq(b, a) {
      LexAntisymmetric(a, b);
    }
  }

  /** The names: hasMany and belongsToMany add an `s` to the name hasOne
      uses (the field name, or the lower-cased related model); morphTo and
      morphMany use the field name, morphMany keyed by `<name>_type`; the
      default branch uses the lower-cased related model without a trailing
      `_id`. */
  lemma AccessorNames(modelName: string, f: Field)
    ensures var lower := ToLower(f.relatedModel);
            var hasOne := RelationOf(modelName, f.(relationshipType := HasOne));
            && hasOne.accessor == OrElse(f.name, lower)
            && RelationOf(modelName, f.(relationshipType := HasMany)).accessor == hasOne.accessor + "s"
            && RelationOf(modelName, f.(relationshipType := BelongsToMany)).accessor == hasOne.accessor + "s"
            && RelationOf(modelName, f.(relationshipType := MorphTo)).accessor == f.name
            && RelationOf(modelName, f.(relationshipType := MorphMany)) == MorphManyRel(f.name, f.relatedModel, f.name + "_type")
            && var b := RelationOf(modelName, f.(relationshipType := BelongsTo));
               (EndsWith(lower, "_id") ==> b.accessor + "_id" == lower) && (!EndsWith(lower, "_id") ==> b.accessor == lower)
  {
  }

  // ---------------------------------------------------------------------
  // URL accessors

  /** `get<Name>UrlAttribute`: `_x` turned into `X` in the field name, and
      its first letter upper-cased. */
  function UrlAccessorName(name: string): string
  {
    "get" + Capitalize(SnakeToCamel(name)) + "UrlAttribute"
  }

  /** The accessor's body: the asset URL under the field's path constant,
      or null when the attribute is empty. */
  function UrlReturnLine(f: Field): string
  {
    "return $this->" + f.name + " ? asset(self::" + PathConst(f.name) + " . $this->" + f.name + ") : null;"
  }

  function UrlAccessor(f: Field): seq<string>
  {
    ["public function " + UrlAccessorName(f.name) + "()", "{", UrlReturnLine(f), "}"]
  }

  function UrlAccessors(files: seq<Field>): (r: seq<string>)
    ensures |r| == 4 * |files|
  {
    if files == [] then [] else UrlAccessors(DropLast(files)) + UrlAccessor(Last(files))
  }

  /** One accessor per file field, in field order: the accessor of field `j`
      fills lines `4 * j` to `4 * j + 3`. */
  lemma {:induction false} UrlAccessorsInOrder(files: seq<Field>)
    ensures |UrlAccessors(files)| == 4 * |files|
    ensures forall j :: 0 <= j < |files| ==> BlockAt(UrlAccessors(files), 4 * j, UrlAccessor(files[j]))
  {
    if files != [] {
      var init := DropLast(files);
      UrlAccessorsInOrder(init);
      var a := UrlAccessors(init);
      var b := UrlAccessor(Last(files));
      forall j | 0 <= j < |files|
        ensures BlockAt(a + b, 4 * j, UrlAccessor(files[j]))
      {
        if j < |init| {
          BlockAppend(a, b, 4 * j, UrlAccessor(init[j]));
        } else {
          BlockInMiddle(a, b, []);
          assert a + b + [] == a + b;
        }
      }
    }
  }

  /** At an underscore of the field name, `_x` with `x` a lower-case letter
      turns into `X` in the accessor name; any other underscore stays, and
      the two sides are rewritten on their own. */
  lemma UrlAccessorNameAtUnderscore(a: string, t: string)
    ensures UrlAccessorName(a + "_" + t) ==
              "get" +
              Capitalize(SnakeToCamel(a) +
                         (if t != [] && IsLower(t[0]) then [UpperChar(t[0])] + SnakeToCamel(t[1..])
                          else "_" + SnakeToCamel(t))) +
              "UrlAttribute"
  {
    SnakeToCamelAtUnderscore(a, t);
  }

  /** The accessor name is camel case: no `_` is left in front of a
      lower-case letter, and the part after `get` starts with no lower-case
      letter. A name without such a joint is only capitalised. */
  lemma UrlAccessorNameCamel(name: string)
    ensures var m := Capitalize(SnakeToCamel(name));
            && UrlAccessorName(name) == "get" + m + "UrlAttribute"
            && NoSnakeJoint(m)
            && (m != [] ==> !IsLower(m[0]))
            && (NoSnakeJoint(name) ==> m == Capitalize(name))
  {
    var c := SnakeToCamel(name);
    var m := Capitalize(c);
    if |m| > 1 {
      forall i | 0 <= i < |m| - 1 ensures NoJointAt(m, i) {
        assert NoJointAt(c, i);
        if i == 0 {
          assert m[1] == c[1];
          assert c[0] == '_' ==> m[0] == '_';
        } else {
          assert m[i] == c[i] && m[i + 1] == c[i + 1];
        }
      }
    }
    if NoSnakeJoint(name) {
      SnakeToCamelIdentity(name);
    }
  }

  /** An accessor reads the path constant of its field, and the constant
      line of that field declares it; with UrlAccessorsInOrder and
      ConstLinesInOrder, the `j`-th accessor reads the constant the `j`-th
      constant line declares. */
  lemma AccessorUsesConstant(f: Field)
    ensures UrlAccessor(f)[2] == UrlReturnLine(f)
    ensures Contains(UrlReturnLine(f), "self::" + PathConst(f.name))
    ensures StartsWith(ConstLine(f), "public const " + PathConst(f.name) + " = ")
  {
    ContainsAt(UrlReturnLine(f), "return $this->" + f.name + " ? asset(", "self::" + PathConst(f.name),
               " . $this->" + f.name + ") : null;");
    var decl := "public const " + PathConst(f.name) + " = ";
    assert ConstLine(f) == decl + ("'" + PathValue(f.filePath) + "';");
    assert ConstLine(f)[..|decl|] == decl;
  }

  // ---------------------------------------------------------------------
  // The model class

  const Eloquent := "Illuminate\\Database\\Eloquent\\"
  const ModelImport := "use " + Eloquent + "Model;"
  const SoftDeletesImport := "use " + Eloquent + "SoftDeletes;"
  const SoftDeletesTrait := "use SoftDeletes;"

  function SoftImport(soft: bool): seq<string> { if soft then [SoftDeletesImport] else [] }

  function SoftTrait(soft: bool): seq<string> { if soft then [SoftDeletesTrait] else [] }

  /** `$table`: the lower-cased model name with an `s`. */
  function TableLine(modelName: string): string
  {
    "protected $table = '" + ToLower(modelName) + "s';"
  }

  /** From `<?php` to the `$table` line. */
  function ModelHeader(modelName: string, modelNamespace: string, soft: bool): seq<string>
  {
    ["<?php", "namespace " + modelNamespace + ";", ModelImport] + SoftImport(soft)
    + ["class " + modelName + " extends Model", "{"] + SoftTrait(soft)
    + [TableLine(modelName)]
  }

  function FillableBlock(fields: seq<Field>): seq<string>
  {
    ["protected $fillable = ["] + CommaSeparated(FillableEntries(fields)) + ["];"]
  }

  /** Everything between the `$table` line and the closing brace. */
  function ModelBody(modelName: string, fields: seq<Field>): seq<string>
  {
    FillableBlock(fields) + CastsBlock(fields) + FilePathsBlock(Filter(IsFile, fields))
    + RelationsBlock(modelName, Filter(IsRelation, fields)) + UrlAccessors(Filter(IsFile, fields))
  }

  function ModelLines(modelName: string, modelNamespace: string, fields: seq<Field>, soft: bool): seq<string>
  {
    ModelHeader(modelName, modelNamespace, soft) + FillableBlock(fields) + CastsBlock(fields)
    + FilePathsBlock(Filter(IsFile, fields)) + RelationsBlock(modelName, Filter(IsRelation, fields))
    + UrlAccessors(Filter(IsFile, fields)) + ["}"]
  }

  /** The head of the class, the soft-delete import and trait put in only
      with the flag. */
  method ModelHead(modelName: string, modelNamespace: string, includeSoftDeletes: bool) returns (head: seq<string>)
    ensures head == ModelHeader(modelName, modelNamespace, includeSoftDeletes)
  {
    var softDeletesImport: seq<string> := [];
    var softDeletesTrait: seq<string> := [];
    if includeSoftDeletes {
      softDeletesImport := [SoftDeletesImport];
      softDeletesTrait := [SoftDeletesTrait];
    }
    head := ["<?php", "namespace " + modelNamespace + ";", ModelImport] + softDeletesImport
      + ["class " + modelName + " extends Model", "{"] + softDeletesTrait
      + [TableLine(modelName)];
  }

  /** The loop that appends one URL accessor per file field. */
  method AppendUrlAccessors(code: seq<string>, fileFields: seq<Field>) returns (out: seq<string>)
    ensures out == code + UrlAccessors(fileFields)
  {
    out := code;
    var i := 0;
    while i < |fileFields|
      invariant 0 <= i <= |fileFields|
      invariant out == code + UrlAccessors(fileFields[..i])
    {
      var field := fileFields[i];
      assert DropLast(fileFields[..i + 1]) == fileFields[..i];
      AppendAssoc(code, UrlAccessors(fileFields[..i]), UrlAccessor(field));
      out := out + UrlAccessor(field);
      i := i + 1;
    }
    assert fileFields[..i] == fileFields;
  }

  /** The model text: the parts built above, then one URL accessor per file
      field appended in a loop, then the closing brace. */
  method GenerateModelCode(modelName: string, modelNamespace: string, fields: seq<Field>, includeSoftDeletes: bool)
    returns (code: seq<string>)
    ensures code == ModelLines(modelName, modelNamespace, fields, includeSoftDeletes)
  {
    var head := ModelHead(modelName, modelNamespace, includeSoftDeletes);
    var casts := CastsBlock(fields);
    var fileFields := Filter(IsFile, fields);
    var filePaths := GenerateFilePaths(fileFields);
    var relations := GenerateRelations(modelName, Filter(IsRelation, fields));
    code := head + FillableBlock(fields) + casts + filePaths + relations;
    code := AppendUrlAccessors(code, fileFields);
    code := code + ["}"];
  }

  // ---------------------------------------------------------------------
  // What the model text promises

  /** A line that is not a `use` line: it starts with another letter. */
  predicate NotUse(line: string)
  {
    line != [] && line[0] != 'u'
  }

  /** Where the soft-delete lines go: the import after the `Model` import,
      the trait first in the class, and neither anywhere else, so each is
      there exactly once with the flag and never without it. */
  lemma SoftDeletesLayout(modelName: string, modelNamespace: string, soft: bool, body: seq<string>)
    requires forall line :: line in body ==> NotUse(line)
    ensures var lines := ModelHeader(modelName, modelNamespace, soft) + body + ["}"];
            && Count(lines, SoftDeletesImport) == (if soft then 1 else 0)
            && Count(lines, SoftDeletesTrait) == (if soft then 1 else 0)
            && (soft ==> lines[3] == SoftDeletesImport && lines[6] == SoftDeletesTrait && lines[7] == TableLine(modelName))
            && (!soft ==> lines[5] == TableLine(modelName))
  {
    var a := ["<?php", "namespace " + modelNamespace + ";", ModelImport];
    var b := ["class " + modelName + " extends Model", "{"];
    var c := [TableLine(modelName)] + body + ["}"];
    var si := SoftImport(soft);
    var st := SoftTrait(soft);
    assert ModelHeader(modelName, modelNamespace, soft) + body + ["}"] == a + si + b + st + c;
    assert |ModelImport| != |SoftDeletesImport| && |SoftDeletesTrait| != |SoftDeletesImport|;
    assert |ModelImport| != |SoftDeletesTrait|;
    assert ("namespace " + modelNamespace + ";")[0] == 'n';
    assert ("class " + modelName + " extends Model")[0] == 'c';
    assert TableLine(modelName)[0] == 'p';
    assert SoftDeletesImport[0] == 'u' && SoftDeletesTrait[0] == 'u';
    assert SoftDeletesImport !in body && SoftDeletesTrait !in body;
    UseLineCount(a, si, b, st, c, SoftDeletesImport, soft);
    UseLineCount(a, si, b, st, c, SoftDeletesTrait, soft);
  }

  lemma UseLineCount(a: seq<string>, si: seq<string>, b: seq<string>, st: seq<string>, c: seq<string>,
                     x: string, soft: bool)
    requires x !in a && x !in b && x !in c
    requires si == (if soft then [SoftDeletesImport] else []) && st == (if soft then [SoftDeletesTrait] else [])
    requires x == SoftDeletesImport || x == SoftDeletesTrait
    ensures Count(a + si + b + st + c, x) == (if soft then 1 else 0)
  {
    assert |SoftDeletesImport| != |SoftDeletesTrait|;
    CountAbsent(a, x);
    CountAbsent(b, x);
    CountAbsent(c, x);
    if soft {
      assert DropLast(si) == [] && DropLast(st) == [];
      assert Count(si, x) + Count(st, x) == 1;
    } else {
      assert Count(si, x) + Count(st, x) == 0;
    }
    CountAppend(a, si, x);
    CountAppend(a + si, b, x);
    CountAppend(a + si + b, st, x);
    CountAppend(a + si + b + st, c, x);
  }

  /** The soft-delete import and trait are in the model exactly when the
      flag is set, once each, and the `$table` line follows them. */
  lemma SoftDeletesIffFlag(modelName: string, modelNamespace: string, fields: seq<Field>, soft: bool)
    ensures var lines := ModelLines(modelName, modelNamespace, fields, soft);
            && Count(lines, SoftDeletesImport) == (if soft then 1 else 0)
            && Count(lines, SoftDeletesTrait) == (if soft then 1 else 0)
            && lines[if soft then 7 else 5] == TableLine(modelName)
  {
    var files := Filter(IsFile, fields);
    var fill := FillableBlock(fields);
    var casts := CastsBlock(fields);
    var paths := FilePathsBlock(files);
    var rels := RelationsBlock(modelName, Filter(IsRelation, fields));
    var urls := UrlAccessors(files);
    FillableNotUse(fields);
    CastsNotUse(fields);
    FilePathsNotUse(files);
    RelationsNotUse(modelName, Filter(IsRelation, fields));
    UrlAccessorsNotUse(files);
    var head := ModelHeader(modelName, modelNamespace, soft);
    BodyParts(head, fill, casts, paths, rels, urls);
    SoftDeletesLayout(modelName, modelNamespace, soft, fill + casts + paths + rels + urls);
  }

  /** The five parts of the body, regrouped after the head. */
  lemma BodyParts(head: seq<string>, fill: seq<string>, casts: seq<string>, paths: seq<string>,
                  rels: seq<string>, urls: seq<string>)
    requires forall line :: line in fill ==> NotUse(line)
    requires forall line :: line in casts ==> NotUse(line)
    requires forall line :: line in paths ==> NotUse(line)
    requires forall line :: line in rels ==> NotUse(line)
    requires forall line :: line in urls ==> NotUse(line)
    ensures head + fill + casts + paths + rels + urls + ["}"] == head + (fill + casts + paths + rels + urls) + ["}"]
    ensures forall line :: line in fill + casts + paths + rels + urls ==> NotUse(line)
  {
  }

  /** A comma-separated list of quoted entries has no `use` line. */
  lemma QuotedListNotUse(items: seq<string>)
    requires forall i :: 0 <= i < |items| ==> items[i] != [] && items[i][0] == '\''
    ensures forall line :: line in CommaSeparated(items) ==> NotUse(line)
  {
    var r := CommaSeparated(items);
    forall line | line in r ensures NotUse(line) {
      var i :| 0 <= i < |r| && r[i] == line;
      assert line[0] == items[i][0];
    }
  }

  lemma FillableNotUse(fields: seq<Field>)
    ensures forall line :: line in FillableBlock(fields) ==> NotUse(line)
  {
    QuotedListNotUse(FillableEntries(fields));
  }

  lemma CastsNotUse(fields: seq<Field>)
    ensures forall line :: line in CastsBlock(fields) ==> NotUse(line)
  {
    QuotedListNotUse(Map(CastEntry, Filter(HasCast, fields)));
  }

  lemma {:induction false} ConstLinesNotUse(files: seq<Field>)
    ensures forall line :: line in ConstLines(files) ==> NotUse(line)
  {
    if files != [] {
      ConstLinesNotUse(DropLast(files));
      assert ConstLine(Last(files))[0] == 'p';
    }
  }

  lemma FilePathsNotUse(files: seq<Field>)
    ensures forall line :: line in FilePathsBlock(files) ==> NotUse(line)
  {
    ConstLinesNotUse(files);
  }

  lemma {:induction false} RelationsTextNotUse(rs: seq<Relation>)
    ensures forall line :: line in RelationsText(rs) ==> NotUse(line)
  {
    if rs != [] {
      RelationsTextNotUse(DropLast(rs));
      var r := Last(rs);
      assert CallLine(r)[0] == 'r';
      assert RenderRelation(r)[0][0] == 'p';
    }
  }

  lemma RelationsNotUse(modelName: string, relationFields: seq<Field>)
    ensures forall line :: line in RelationsBlock(modelName, relationFields) ==> NotUse(line)
  {
    RelationsTextNotUse(Relations(modelName, relationFields));
  }

  lemma {:induction false} UrlAccessorsNotUse(files: seq<Field>)
    ensures forall line :: line in UrlAccessors(files) ==> NotUse(line)
  {
    if files != [] {
      UrlAccessorsNotUse(DropLast(files));
      var f := Last(files);
      assert UrlAccessor(f)[0][0] == 'p' && UrlReturnLine(f)[0] == 'r';
    }
  }
}
