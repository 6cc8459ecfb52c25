/**
 * The field records the generators consume, and the naming rules the
 * generators each recompute from them: the system-field names, the foreign
 * key and related-table fallbacks, the file-path constant name and the
 * quoted enum value list.
 *
 * A record holds every property any record shape can carry. Properties the
 * generators only test for truthiness (`field.length`, `field.foreignKey`,
 * ...) are strings where "" stands for both the empty string and a missing
 * property. `defaultValue` is an Option because the migration tests it
 * with `!== undefined`, and `maxFileSize` is an Option because any present
 * value, "0" included, is truthy.
 */
module Fields {
  import opened Text

  datatype Option<T> = None | Some(value: T)

  /** The `type` select of a field row. */
  datatype FieldType =
    | StringType | TextType | IntegerType | BigIntegerType | BooleanType
    | DateType | DateTimeType | DecimalType | FloatType | EnumType
    | FileType | RelationType

  /** The `relationshipType` of a relation row. `OtherKind` stands for any
      label other than the six the generators name; a record read through
      `RelKindOf` never has `OtherKind` with one of those six. */
  datatype RelKind =
    | BelongsTo | HasMany | HasOne | BelongsToMany | MorphTo | MorphMany
    | OtherKind(kindName: string)

  /** The labels the generators test `relationshipType` against. */
  const KindNames: set<string> :=
    {"belongsTo", "hasMany", "hasOne", "belongsToMany", "morphTo", "morphMany"}

  /** The label a kind stands for. */
  function KindLabel(k: RelKind): string
  {
    match k
    case BelongsTo => "belongsTo"
    case HasMany => "hasMany"
    case HasOne => "hasOne"
    case BelongsToMany => "belongsToMany"
    case MorphTo => "morphTo"
    case MorphMany => "morphMany"
    case OtherKind(n) => n
  }

  /** The comparisons of `relationshipType` against the named labels: each
      of the six gets its own kind, and exactly the other labels fall to
      `OtherKind`, which keeps the label. */
  function RelKindOf(text: string): (r: RelKind)
    ensures r.OtherKind? <==> text !in KindNames
    ensures KindLabel(r) == text
  {
    if text == "belongsTo" then BelongsTo
    else if text == "hasMany" then HasMany
    else if text == "hasOne" then HasOne
    else if text == "belongsToMany" then BelongsToMany
    else if text == "morphTo" then MorphTo
    else if text == "morphMany" then MorphMany
    else OtherKind(text)
  }

  /** Reading back the text of a kind gives the kind again, as long as an
      `OtherKind` does not carry one of the six names. */
  lemma RelKindRoundTrip(k: RelKind)
    requires k.OtherKind? ==> k.kindName !in KindNames
    ensures RelKindOf(KindLabel(k)) == k
  {
  }

  datatype Field = Field(
    name: string,
    kind: FieldType,
    nullable: bool,
    unique: bool,
    index: bool,
    hasDefault: bool,
    defaultValue: Option<string>,
    length: string,
    precision: string,
    enumValues: string,
    allowedTypes: string,
    filePath: string,
    maxFileSize: Option<nat>,
    fillable: bool,        // a missing `fillable` passes `!== false`, so it is true here
    cast: bool,
    castType: string,
    relationshipType: RelKind,
    relatedModel: string,
    relatedTable: string,
    foreignKey: string,
    onDeleteNull: bool,
    onDeleteCascade: bool)

  /** The type name the migration writes after `$table->`. */
  function TypeName(t: FieldType): string
  {
    match t
    case StringType => "string"
    case TextType => "text"
    case IntegerType => "integer"
    case BigIntegerType => "bigInteger"
    case BooleanType => "boolean"
    case DateType => "date"
    case DateTimeType => "datetime"
    case DecimalType => "decimal"
    case FloatType => "float"
    case EnumType => "enum"
    case FileType => "file"
    case RelationType => "relation"
  }

  /** `a || b` on two strings. */
  function OrElse(a: string, b: string): string
  {
    if a != "" then a else b
  }

  /** `['id', 'created_at', 'updated_at'].includes(name)`. */
  predicate IsSystemName(name: string)
  {
    name == "id" || name == "created_at" || name == "updated_at"
  }

  predicate IsUserField(f: Field) { !IsSystemName(f.name) }

  predicate IsRelation(f: Field) { f.kind == RelationType }

  predicate IsNotRelation(f: Field) { f.kind != RelationType }

  predicate IsFile(f: Field) { f.kind == FileType }

  predicate IsBelongsTo(f: Field) { f.kind == RelationType && f.relationshipType == BelongsTo }

  /** What becomes a table column: every non-relation field and every
      belongsTo relation. */
  predicate IsPersisted(f: Field)
  {
    f.kind != RelationType || f.relationshipType == BelongsTo
  }

  /** `field.foreignKey || field.relatedModel.toLowerCase() + '_id'`. */
  function ForeignKey(f: Field): string
  {
    OrElse(f.foreignKey, ToLower(f.relatedModel) + "_id")
  }

  /** `field.relatedTable || field.relatedModel.toLowerCase()`: the singular,
      lower-cased model name. */
  function RelatedTable(f: Field): string
  {
    OrElse(f.relatedTable, ToLower(f.relatedModel))
  }

  /** `field.name.toUpperCase() + '_PATH'`. */
  function PathConst(name: string): string
  {
    ToUpper(name) + "_PATH"
  }

  /** `enumValues.split(',').map(v => `'${v.trim()}'`)`: every piece, empty
      ones included. */
  function QuotedEnumValues(enumValues: string): seq<string>
  {
    var pieces := Split(enumValues, ',');
    seq(|pieces|, i requires 0 <= i < |pieces| => "'" + Trim(pieces[i]) + "'")
  }

  /** The quoted value list has one entry per comma-separated piece, empty
      pieces included, each the trimmed piece in single quotes. */
  lemma QuotedEnumValuesCount(enumValues: string)
    ensures |QuotedEnumValues(enumValues)| == CountChar(enumValues, ',') + 1
    ensures forall i :: 0 <= i < |QuotedEnumValues(enumValues)| ==>
              QuotedEnumValues(enumValues)[i] == "'" + Trim(Split(enumValues, ',')[i]) + "'"
  {
    SplitCount(enumValues, ',');
  }
}
