/**
 * generateMigrationCode (assets/js/migration-generator.js): the create-table
 * migration, as a sequence of lines with the indentation removed and the
 * PHP doc comments and blank lines left out.
 *
 * Every non-relation field and every belongsTo relation becomes one
 * `$table->...;` line. ColumnOf says which column a field becomes (the head
 * call and the modifier calls after it); ColumnLine builds the text of that
 * line with the same `line +=` steps as the source.
 */
module MigrationGenerator {
  import opened Text
  import opened Seqs
  import opened Fields

  /** The first call of a column line. */
  datatype Head =
    | ColumnHead(typeName: string, column: string, size: seq<string>)  // `string('title')(100)`
    | EnumHead(column: string, values: seq<string>)                   // `enum('status', ['a', 'b'])`
    | ForeignIdHead(key: string)                                       // `foreignId('user_id')`

  /** The calls chained after the head. */
  datatype Modifier =
    | Nullable | Unique | Index | Default(literal: string) | Constrained(table: string)
    | NullOnDelete | CascadeOnDelete

  datatype Column = Column(head: Head, modifiers: seq<Modifier>)

  // ---------------------------------------------------------------------
  // Which column a field becomes

  /** The column type: a file is stored as its file name, in a `string`
      column; every other type keeps its own name. */
  function ColumnKind(f: Field): FieldType
  {
    if f.kind == FileType then StringType else f.kind
  }

  function ColumnType(f: Field): string
  {
    TypeName(ColumnKind(f))
  }

  /** The size arguments: only a string or decimal column with a length
      gets them, a decimal with a precision gets both numbers. */
  function SizeArgs(f: Field): seq<string>
  {
    var t := ColumnKind(f);
    if (t == StringType || t == DecimalType) && f.length != "" then
      if t == DecimalType && f.precision != "" then [f.length, f.precision] else [f.length]
    else []
  }

  /** `field.hasDefault && field.defaultValue !== undefined`. */
  predicate HasDefault(f: Field)
  {
    f.hasDefault && f.defaultValue.Some?
  }

  function Quote(s: string): string
  {
    "'" + s + "'"
  }

  /** The PHP literal of a default value: booleans become `true` or
      `false`, numbers are written as given, everything else is quoted. */
  function DefaultLiteral(t: FieldType, v: string): string
  {
    if t == BooleanType then (if ToLower(v) == "true" then "true" else "false")
    else if t == IntegerType || t == FloatType || t == DecimalType then v
    else Quote(v)
  }

  /** `[m]` when the flag is set, nothing otherwise. */
  function Opt(b: bool, m: Modifier): seq<Modifier>
  {
    if b then [m] else []
  }

  /** `[default(lit)]` when there is a literal, nothing otherwise. */
  function DefaultOpt(literal: Option<string>): seq<Modifier>
  {
    match literal
    case None => []
    case Some(lit) => [Default(lit)]
  }

  /** The default of a relation column is always quoted. */
  function RelationLiteral(f: Field): Option<string>
  {
    if HasDefault(f) then Some(Quote(f.defaultValue.value)) else None
  }

  function PlainLiteral(f: Field): Option<string>
  {
    if HasDefault(f) then Some(DefaultLiteral(ColumnKind(f), f.defaultValue.value)) else None
  }

  /** The on-delete clause of a relation: `nullOnDelete` wins over
      `cascadeOnDelete`. */
  function OnDelete(onDeleteNull: bool, onDeleteCascade: bool): seq<Modifier>
  {
    if onDeleteNull then [NullOnDelete] else if onDeleteCascade then [CascadeOnDelete] else []
  }

  /** The calls after `foreignId`. */
  function RelationModifiers(nullable: bool, literal: Option<string>, table: string,
                             onDeleteNull: bool, onDeleteCascade: bool): seq<Modifier>
  {
    Opt(nullable, Nullable) + DefaultOpt(literal) + [Constrained(table)] + OnDelete(onDeleteNull, onDeleteCascade)
  }

  /** The calls after any other head. */
  function PlainModifiers(nullable: bool, unique: bool, index: bool, literal: Option<string>): seq<Modifier>
  {
    Opt(nullable, Nullable) + Opt(unique, Unique) + Opt(index, Index) + DefaultOpt(literal)
  }

  /** An enum with values replaces the typed column. */
  function PlainHead(f: Field): Head
  {
    if f.kind == EnumType && f.enumValues != "" then EnumHead(f.name, QuotedEnumValues(f.enumValues))
    else ColumnHead(ColumnType(f), f.name, SizeArgs(f))
  }

  function ColumnOf(f: Field): Column
  {
    if f.kind == RelationType then
      Column(ForeignIdHead(ForeignKey(f)),
             RelationModifiers(f.nullable, RelationLiteral(f), RelatedTable(f), f.onDeleteNull, f.onDeleteCascade))
    else
      Column(PlainHead(f), PlainModifiers(f.nullable, f.unique, f.index, PlainLiteral(f)))
  }

  // ---------------------------------------------------------------------
  // The text of a column line

  /** `$table->` and the head call. */
  function RenderHead(h: Head): string
  {
    match h
    case ColumnHead(t, n, size) => "$table->" + t + "('" + n + "')" + SizeText(size)
    case EnumHead(n, values) => "$table->enum('" + n + "', [" + Join(values, ", ") + "])"
    case ForeignIdHead(k) => "$table->foreignId('" + k + "')"
  }

  function SizeText(size: seq<string>): string
  {
    if size == [] then "" else "(" + Join(size, ", ") + ")"
  }

  /** One chained call, arrow included. */
  function RenderModifier(m: Modifier): string
  {
    match m
    case Nullable => "->nullable()"
    case Unique => "->unique()"
    case Index => "->index()"
    case Default(lit) => "->default(" + lit + ")"
    case Constrained(t) => "->constrained('" + t + "')"
    case NullOnDelete => "->nullOnDelete()"
    case CascadeOnDelete => "->cascadeOnDelete()"
  }

  function RenderModifiers(ms: seq<Modifier>): string
  {
    if ms == [] then "" else RenderModifiers(DropLast(ms)) + RenderModifier(Last(ms))
  }

  function RenderColumn(c: Column): string
  {
    RenderHead(c.head) + RenderModifiers(c.modifiers) + ";"
  }

  /** Appending a call to a line adds it to the line's modifiers. */
  lemma AppendModifier(line: string, head: Head, mods: seq<Modifier>, m: Modifier)
    requires line == RenderHead(head) + RenderModifiers(mods)
    ensures line + RenderModifier(m) == RenderHead(head) + RenderModifiers(mods + [m])
  {
    assert DropLast(mods + [m]) == mods;
    AppendAssoc(RenderHead(head), RenderModifiers(mods), RenderModifier(m));
  }

  /** Appending a call when its flag is set. */
  lemma AppendOpt(line: string, head: Head, mods: seq<Modifier>, b: bool, m: Modifier)
    requires line == RenderHead(head) + RenderModifiers(mods)
    ensures (if b then line + RenderModifier(m) else line) == RenderHead(head) + RenderModifiers(mods + Opt(b, m))
  {
    if b {
      AppendModifier(line, head, mods, m);
    } else {
      assert mods + Opt(b, m) == mods;
    }
  }

  /** The first optional call after the head. */
  lemma FirstOpt(line: string, head: Head, b: bool, m: Modifier)
    requires line == RenderHead(head)
    ensures (if b then line + RenderModifier(m) else line) == RenderHead(head) + RenderModifiers(Opt(b, m))
  {
    if b {
      assert DropLast([m]) == [];
      assert RenderModifiers([m]) == "" + RenderModifier(m) == RenderModifier(m);
    } else {
      assert line + "" == line;
    }
  }

  /** The two size suffixes. */
  lemma SizeTextCases(length: string, precision: string)
    ensures SizeText([length]) == "(" + length + ")"
    ensures SizeText([length, precision]) == "(" + length + ", " + precision + ")"
  {
    assert [length, precision][1..] == [precision];
    assert Join([length, precision], ", ") == length + ", " + precision;
  }

  /** The line of one field, built as the source builds it: the head, then
      one `->call()` appended per set flag, then the semicolon. */
  method ColumnLine(field: Field) returns (line: string)
    ensures line == RenderColumn(ColumnOf(field))
  {
    if field.kind == RelationType {
      line := ForeignIdLine(field);
    } else {
      line := PlainColumnLine(field);
    }
  }

  /** The relation branch: `foreignId`, then `nullable`, `default` and
      `constrained`, then at most one on-delete clause. */
  method ForeignIdLine(field: Field) returns (line: string)
    requires field.kind == RelationType
    ensures line == RenderColumn(ColumnOf(field))
  {
    var head := ForeignIdHead(ForeignKey(field));
    line := RenderHead(head);
    FirstOpt(line, head, field.nullable, Nullable);
    if field.nullable {
      line := line + RenderModifier(Nullable);
    }
    ghost var mods := Opt(field.nullable, Nullable);
    if field.hasDefault && field.defaultValue.Some? {
      AppendModifier(line, head, mods, Default(Quote(field.defaultValue.value)));
      line := line + RenderModifier(Default(Quote(field.defaultValue.value)));
    } else {
      assert mods + DefaultOpt(RelationLiteral(field)) == mods;
    }
    mods := mods + DefaultOpt(RelationLiteral(field));
    AppendModifier(line, head, mods, Constrained(RelatedTable(field)));
    line := line + RenderModifier(Constrained(RelatedTable(field)));
    mods := mods + [Constrained(RelatedTable(field))];
    AppendOpt(line, head, mods, field.onDeleteNull, NullOnDelete);
    AppendOpt(line, head, mods, field.onDeleteCascade, CascadeOnDelete);
    if field.onDeleteNull {
      line := line + RenderModifier(NullOnDelete);
      assert OnDelete(true, field.onDeleteCascade) == Opt(true, NullOnDelete);
    } else if field.onDeleteCascade {
      line := line + RenderModifier(CascadeOnDelete);
      assert OnDelete(false, true) == Opt(true, CascadeOnDelete);
    } else {
      assert OnDelete(false, false) == Opt(false, NullOnDelete);
    }
    mods := mods + OnDelete(field.onDeleteNull, field.onDeleteCascade);
    RelationColumnOf(field);
    line := line + ";";
  }

  /** The size suffix is appended to the typed head. */
  lemma HeadWithSize(t: string, n: string, size: seq<string>)
    ensures RenderHead(ColumnHead(t, n, [])) + SizeText(size) == RenderHead(ColumnHead(t, n, size))
  {
    var h := "$table->" + t + "('" + n + "')";
    assert RenderHead(ColumnHead(t, n, [])) == h + "";
    assert h + "" == h;
  }

  /** The head of every other field: the typed column with its size, or
      the enum column in its place. */
  method PlainHeadText(field: Field) returns (line: string, head: Head)
    requires field.kind != RelationType
    ensures head == PlainHead(field) && line == RenderHead(head)
  {
    var fieldType := if field.kind == FileType then StringType else field.kind;
    line := RenderHead(ColumnHead(TypeName(fieldType), field.name, []));
    HeadWithSize(TypeName(fieldType), field.name, SizeArgs(field));
    if (fieldType == StringType || fieldType == DecimalType) && field.length != "" {
      if fieldType == DecimalType && field.precision != "" {
        line := line + SizeText([field.length, field.precision]);
      } else {
        line := line + SizeText([field.length]);
      }
    } else {
      assert SizeArgs(field) == [];
    }
    head := ColumnHead(TypeName(fieldType), field.name, SizeArgs(field));
    if fieldType == EnumType && field.enumValues != "" {
      head := EnumHead(field.name, QuotedEnumValues(field.enumValues));
      line := RenderHead(head);
    }
  }

  /** The branch of every other field: the head, then `nullable`,
      `unique`, `index` and `default`. */
  method PlainColumnLine(field: Field) returns (line: string)
    requires field.kind != RelationType
    ensures line == RenderColumn(ColumnOf(field))
  {
    var head;
    line, head := PlainHeadText(field);
    FirstOpt(line, head, field.nullable, Nullable);
    if field.nullable {
      line := line + RenderModifier(Nullable);
    }
    ghost var mods := Opt(field.nullable, Nullable);
    AppendOpt(line, head, mods, field.unique, Unique);
    if field.unique {
      line := line + RenderModifier(Unique);
    }
    mods := mods + Opt(field.unique, Unique);
    AppendOpt(line, head, mods, field.index, Index);
    if field.index {
      line := line + RenderModifier(Index);
    }
    mods := mods + Opt(field.index, Index);
    if field.hasDefault && field.defaultValue.Some? {
      var fieldType := if field.kind == FileType then StringType else field.kind;
      var defaultValue := DefaultText(fieldType, field.defaultValue.value);
      AppendModifier(line, head, mods, Default(defaultValue));
      line := line + RenderModifier(Default(defaultValue));
    } else {
      assert mods + DefaultOpt(PlainLiteral(field)) == mods;
    }
    mods := mods + DefaultOpt(PlainLiteral(field));
    PlainColumnOf(field);
    line := line + ";";
  }

  /** The default literal, as the source computes it from the column type. */
  method DefaultText(fieldType: FieldType, value: string) returns (literal: string)
    ensures literal == DefaultLiteral(fieldType, value)
  {
    literal := value;
    if fieldType == BooleanType {
      literal := if ToLower(literal) == "true" then "true" else "false";
    } else if fieldType == IntegerType || fieldType == FloatType || fieldType == DecimalType {
    } else {
      literal := Quote(literal);
    }
  }

  lemma RelationColumnOf(f: Field)
    requires f.kind == RelationType
    ensures ColumnOf(f) == Column(ForeignIdHead(ForeignKey(f)),
              RelationModifiers(f.nullable, RelationLiteral(f), RelatedTable(f), f.onDeleteNull, f.onDeleteCascade))
  {
  }

  lemma PlainColumnOf(f: Field)
    requires f.kind != RelationType
    ensures ColumnOf(f) == Column(PlainHead(f), PlainModifiers(f.nullable, f.unique, f.index, PlainLiteral(f)))
  {
  }

  // ---------------------------------------------------------------------
  // The migration file

  /** The text of one column line. */
  function ColumnText(f: Field): string
  {
    RenderColumn(ColumnOf(f))
  }

  /** The column lines of `fields`, in order. */
  function ColumnLines(fields: seq<Field>): seq<string>
  {
    if fields == [] then [] else ColumnLines(DropLast(fields)) + [ColumnText(Last(fields))]
  }

  /** Everything up to and including `$table->id();`. */
  function MigrationHeader(tableName: string): seq<string>
  {
    ["<?php",
     "use Illuminate\\Database\\Migrations\\Migration;",
     "use Illuminate\\Database\\Schema\\Blueprint;",
     "use Illuminate\\Support\\Facades\\Schema;",
     "return new class extends Migration",
     "{",
     "public function up(): void",
     "{",
     CreateLine(tableName),
     IdLine]
  }

  function CreateLine(tableName: string): string
  {
    "Schema::create('" + tableName + "', function (Blueprint $table) {"
  }

  function DropLine(tableName: string): string
  {
    "Schema::dropIfExists('" + tableName + "');"
  }

  const IdLine := "$table->id();"
  const SoftDeletesLine := "$table->softDeletes();"
  const TimestampsLine := "$table->timestamps();"

  /** `timestamps()`, the end of `up()`, and `down()`. */
  function MigrationFooter(tableName: string): seq<string>
  {
    [TimestampsLine,
     "});",
     "}",
     "public function down(): void",
     "{",
     DropLine(tableName),
     "}",
     "};"]
  }

  function SoftDeletesPart(includeSoftDeletes: bool): seq<string>
  {
    if includeSoftDeletes then [SoftDeletesLine] else []
  }

  /** The lines of the migration: the header, one column line per
      non-relation field and belongsTo relation, `softDeletes()` when asked
      for, and the footer. */
  function MigrationLines(tableName: string, fields: seq<Field>, includeSoftDeletes: bool): seq<string>
  {
    Migration(tableName, ColumnLines(Filter(IsPersisted, fields)), includeSoftDeletes)
  }

  /** The migration around the given column lines. */
  function Migration(tableName: string, columns: seq<string>, includeSoftDeletes: bool): seq<string>
  {
    MigrationHeader(tableName) + columns + SoftDeletesPart(includeSoftDeletes) + MigrationFooter(tableName)
  }

  /** `migrationFields.forEach(field => code += line)`: one column line per
      field, appended in order. */
  method AppendColumnLines(code: seq<string>, migrationFields: seq<Field>) returns (out: seq<string>)
    ensures out == code + ColumnLines(migrationFields)
  {
    out := code;
    var i := 0;
    while i < |migrationFields|
      invariant 0 <= i <= |migrationFields|
      invariant out == code + ColumnLines(migrationFields[..i])
    {
      var line := ColumnLine(migrationFields[i]);
      assert DropLast(migrationFields[..i + 1]) == migrationFields[..i];
      AppendAssoc(code, ColumnLines(migrationFields[..i]), [line]);
      out := out + [line];
      i := i + 1;
    }
    assert migrationFields[..i] == migrationFields;
  }

  /** The migration, built as the source builds it: the header, a line per
      selected field appended in a loop, the optional `softDeletes()` and
      the footer. The model name is not used by the source. */
  method GenerateMigrationCode(modelName: string, tableName: string, fields: seq<Field>, includeSoftDeletes: bool)
    returns (code: seq<string>)
    ensures code == MigrationLines(tableName, fields, includeSoftDeletes)
  {
    var migrationFields := Filter(IsPersisted, fields);
    code := MigrationHeader(tableName);
    code := AppendColumnLines(code, migrationFields);
    code := code + SoftDeletesPart(includeSoftDeletes);
    code := code + MigrationFooter(tableName);
  }

  // ---------------------------------------------------------------------
  // What the migration promises

  /** The column lines are one line per selected field, in input order. */
  lemma {:induction false} ColumnLinesInOrder(fields: seq<Field>)
    ensures ColumnLines(fields) == Map(ColumnText, fields)
  {
    if fields != [] {
      ColumnLinesInOrder(DropLast(fields));
      MapSnoc(ColumnText, fields);
    }
  }

  /** Where each part sits in the file. */
  lemma MigrationLayout(tableName: string, columns: seq<string>, includeSoftDeletes: bool)
    ensures var lines := Migration(tableName, columns, includeSoftDeletes);
            var n := |columns|;
            var k := if includeSoftDeletes then 1 else 0;
            && |lines| == 18 + n + k
            && lines[8] == CreateLine(tableName)
            && lines[9] == IdLine
            && lines[10..10 + n] == columns
            && (includeSoftDeletes ==> lines[10 + n] == SoftDeletesLine)
            && lines[10 + n + k] == TimestampsLine
            && lines[15 + n + k] == DropLine(tableName)
  {
    var lines := Migration(tableName, columns, includeSoftDeletes);
    assert lines[10..10 + |columns|] == columns;
  }

  /** `up()` creates the table with `id()` first, then one line per
      non-relation field and belongsTo relation in input order, then
      `softDeletes()` when asked for, then `timestamps()`; `down()` drops
      the same table. */
  lemma MigrationShape(tableName: string, fields: seq<Field>, includeSoftDeletes: bool)
    ensures var lines := MigrationLines(tableName, fields, includeSoftDeletes);
            var cols := Filter(IsPersisted, fields);
            var n := |cols|;
            var k := if includeSoftDeletes then 1 else 0;
            && |lines| == 18 + n + k
            && lines[8] == CreateLine(tableName)
            && lines[9] == IdLine
            && lines[10..10 + n] == Map(ColumnText, cols)
            && (includeSoftDeletes ==> lines[10 + n] == SoftDeletesLine)
            && lines[10 + n + k] == TimestampsLine
            && lines[15 + n + k] == DropLine(tableName)
  {
    var cols := Filter(IsPersisted, fields);
    ColumnLinesInOrder(cols);
    MigrationLayout(tableName, ColumnLines(cols), includeSoftDeletes);
  }

  /** Every head names its column or key in quotes. */
  lemma HeadHasQuote(h: Head)
    ensures '\'' in RenderHead(h)
  {
    match h {
      case ColumnHead(t, n, size) =>
        var pre := "$table->" + t + "('";
        assert RenderHead(h) == pre + (n + "')" + SizeText(size));
        assert pre[|pre| - 1] == '\'';
      case EnumHead(n, values) =>
        var pre := "$table->enum('";
        assert RenderHead(h) == pre + (n + "', [" + Join(values, ", ") + "])");
        assert pre[|pre| - 1] == '\'';
      case ForeignIdHead(k) =>
        var pre := "$table->foreignId('";
        assert RenderHead(h) == pre + (k + "')");
        assert pre[|pre| - 1] == '\'';
    }
  }

  /** So every column line holds a quote, and none of them is a bare
      `softDeletes()` call. */
  lemma ColumnTextHasQuote(f: Field)
    ensures '\'' in ColumnText(f)
  {
    var c := ColumnOf(f);
    HeadHasQuote(c.head);
    assert ColumnText(f) == RenderHead(c.head) + (RenderModifiers(c.modifiers) + ";");
  }

  /** Only the flag puts a `softDeletes()` line into the file around the
      given columns. */
  lemma SoftDeletesLayout(tableName: string, columns: seq<string>, includeSoftDeletes: bool)
    requires SoftDeletesLine !in columns
    ensures Count(Migration(tableName, columns, includeSoftDeletes), SoftDeletesLine) ==
              if includeSoftDeletes then 1 else 0
  {
    var header := MigrationHeader(tableName);
    var footer := MigrationFooter(tableName);
    var soft := SoftDeletesPart(includeSoftDeletes);
    assert '\'' !in SoftDeletesLine;
    assert CreateLine(tableName)[15] == '\'';
    assert DropLine(tableName)[21] == '\'';
    CountAbsent(header, SoftDeletesLine);
    CountAbsent(columns, SoftDeletesLine);
    CountAbsent(footer, SoftDeletesLine);
    if includeSoftDeletes {
      assert DropLast(soft) == [];
    }
    CountAppend(header, columns, SoftDeletesLine);
    CountAppend(header + columns, soft, SoftDeletesLine);
    CountAppend(header + columns + soft, footer, SoftDeletesLine);
  }

  /** `softDeletes()` appears once when the flag is set and never
      otherwise. */
  lemma SoftDeletesIffFlag(tableName: string, fields: seq<Field>, includeSoftDeletes: bool)
    ensures Count(MigrationLines(tableName, fields, includeSoftDeletes), SoftDeletesLine) ==
              if includeSoftDeletes then 1 else 0
  {
    var cols := Filter(IsPersisted, fields);
    ColumnLinesHaveQuotes(cols);
    assert '\'' !in SoftDeletesLine;
    SoftDeletesLayout(tableName, ColumnLines(cols), includeSoftDeletes);
  }

  lemma {:induction false} ColumnLinesHaveQuotes(fields: seq<Field>)
    ensures forall line :: line in ColumnLines(fields) ==> '\'' in line
  {
    if fields != [] {
      ColumnLinesHaveQuotes(DropLast(fields));
      ColumnTextHasQuote(Last(fields));
    }
  }

  // ---------------------------------------------------------------------
  // What a column line promises

  /** The place of each call in the chain. */
  function Rank(m: Modifier): nat
  {
    match m
    case Nullable => 0
    case Unique => 1
    case Index => 2
    case Default(_) => 3
    case Constrained(_) => 4
    case NullOnDelete => 5
    case CascadeOnDelete => 5
  }

  /** No two calls share a place in the chain, and they come in chain
      order. */
  predicate InChainOrder(ms: seq<Modifier>)
  {
    forall i, j :: 0 <= i < j < |ms| ==> Rank(ms[i]) < Rank(ms[j])
  }

  lemma ChainAppend(a: seq<Modifier>, b: seq<Modifier>, r: nat)
    requires InChainOrder(a) && InChainOrder(b)
    requires forall m :: m in a ==> Rank(m) < r
    requires forall m :: m in b ==> r <= Rank(m)
    ensures InChainOrder(a + b)
  {
    forall i, j | 0 <= i < j < |a + b|
      ensures Rank((a + b)[i]) < Rank((a + b)[j])
    {
      if j < |a| {
      } else if i < |a| {
        assert a[i] in a && b[j - |a|] in b;
      }
    }
  }

  /** After any other head the calls come in the order nullable, unique,
      index, default. */
  lemma PlainChainOrder(nullable: bool, unique: bool, index: bool, literal: Option<string>)
    ensures InChainOrder(PlainModifiers(nullable, unique, index, literal))
  {
    var a := Opt(nullable, Nullable);
    var b := a + Opt(unique, Unique);
    var c := b + Opt(index, Index);
    ChainAppend(a, Opt(unique, Unique), 1);
    ChainAppend(b, Opt(index, Index), 2);
    ChainAppend(c, DefaultOpt(literal), 3);
  }

  /** ... and each of them is there exactly when asked for. */
  lemma PlainModifiersPresence(nullable: bool, unique: bool, index: bool, literal: Option<string>)
    ensures forall m :: m in PlainModifiers(nullable, unique, index, literal) <==>
              || (m == Nullable && nullable)
              || (m == Unique && unique)
              || (m == Index && index)
              || (m.Default? && literal == Some(m.literal))
  {
  }

  /** After `foreignId` the calls come in the order nullable, default,
      constrained, on-delete. */
  lemma RelationChainOrder(nullable: bool, literal: Option<string>, table: string,
                           onDeleteNull: bool, onDeleteCascade: bool)
    ensures InChainOrder(RelationModifiers(nullable, literal, table, onDeleteNull, onDeleteCascade))
  {
    var a := Opt(nullable, Nullable);
    var b := a + DefaultOpt(literal);
    var c := b + [Constrained(table)];
    ChainAppend(a, DefaultOpt(literal), 1);
    ChainAppend(b, [Constrained(table)], 4);
    ChainAppend(c, OnDelete(onDeleteNull, onDeleteCascade), 5);
  }

  /** ... with `constrained` always, `nullOnDelete` exactly when its flag
      is set and `cascadeOnDelete` exactly when only that flag is set. */
  lemma RelationModifiersPresence(nullable: bool, literal: Option<string>, table: string,
                                  onDeleteNull: bool, onDeleteCascade: bool)
    ensures forall m :: m in RelationModifiers(nullable, literal, table, onDeleteNull, onDeleteCascade) <==>
              || (m == Nullable && nullable)
              || (m.Default? && literal == Some(m.literal))
              || m == Constrained(table)
              || (m == NullOnDelete && onDeleteNull)
              || (m == CascadeOnDelete && !onDeleteNull && onDeleteCascade)
  {
  }

  /** For a field: the calls of its line never share a place in the chain,
      so there is at most one default and at most one on-delete clause. */
  lemma ModifierOrder(f: Field)
    ensures InChainOrder(ColumnOf(f).modifiers)
  {
    if f.kind == RelationType {
      RelationColumnOf(f);
      RelationChainOrder(f.nullable, RelationLiteral(f), RelatedTable(f), f.onDeleteNull, f.onDeleteCascade);
    } else {
      PlainColumnOf(f);
      PlainChainOrder(f.nullable, f.unique, f.index, PlainLiteral(f));
    }
  }

  /** Each call is present exactly when the field asks for it: `unique`
      and `index` only on a plain column, `constrained` on the related table
      only on a relation, the on-delete clauses only on a relation. */
  lemma ModifierPresence(f: Field)
    ensures var ms := ColumnOf(f).modifiers;
            && (Nullable in ms <==> f.nullable)
            && (Unique in ms <==> f.unique && f.kind != RelationType)
            && (Index in ms <==> f.index && f.kind != RelationType)
            && (Constrained(RelatedTable(f)) in ms <==> f.kind == RelationType)
            && (NullOnDelete in ms <==> f.kind == RelationType && f.onDeleteNull)
            && (CascadeOnDelete in ms <==> f.kind == RelationType && !f.onDeleteNull && f.onDeleteCascade)
  {
    if f.kind == RelationType {
      RelationColumnOf(f);
      RelationModifiersPresence(f.nullable, RelationLiteral(f), RelatedTable(f), f.onDeleteNull, f.onDeleteCascade);
    } else {
      PlainColumnOf(f);
      PlainModifiersPresence(f.nullable, f.unique, f.index, PlainLiteral(f));
    }
  }

  /** The default call is present exactly when the field has a default, and
      its literal is: the quoted value on a relation; `true` exactly when
      the lower-cased value is `true`, `false` otherwise, on a boolean; the
      value as given on an integer, float or decimal; the quoted value on
      every other type. */
  lemma DefaultFormatting(f: Field)
    ensures var ms := ColumnOf(f).modifiers;
            var v := if f.defaultValue.Some? then f.defaultValue.value else "";
            && ((exists lit :: Default(lit) in ms) <==> HasDefault(f))
            && (HasDefault(f) && f.kind == RelationType ==> Default(Quote(v)) in ms)
            && (HasDefault(f) && f.kind == BooleanType ==>
                  (Default("true") in ms <==> ToLower(v) == "true") &&
                  (Default("false") in ms <==> ToLower(v) != "true"))
            && (HasDefault(f) && f.kind in {IntegerType, FloatType, DecimalType} ==> Default(v) in ms)
            && (HasDefault(f) && f.kind in {StringType, TextType, BigIntegerType, DateType, DateTimeType, EnumType, FileType} ==>
                  Default(Quote(v)) in ms)
  {
    DefaultCallIs(f);
    if HasDefault(f) {
      assert Default(DefaultOf(f).value) in ColumnOf(f).modifiers;
    }
  }

  /** The literal of a field's `default(...)` call, if it has one. */
  function DefaultOf(f: Field): Option<string>
  {
    if f.kind == RelationType then RelationLiteral(f) else PlainLiteral(f)
  }

  /** A column has a `default(lit)` call exactly for its own literal. */
  lemma DefaultCallIs(f: Field)
    ensures forall lit :: Default(lit) in ColumnOf(f).modifiers <==> DefaultOf(f) == Some(lit)
  {
    if f.kind == RelationType {
      RelationColumnOf(f);
      RelationModifiersPresence(f.nullable, RelationLiteral(f), RelatedTable(f), f.onDeleteNull, f.onDeleteCascade);
    } else {
      PlainColumnOf(f);
      PlainModifiersPresence(f.nullable, f.unique, f.index, PlainLiteral(f));
    }
  }

  /** A file field is a `string` column, and a typed head carries `(length)`
      only on a string or decimal column with a length, `(length,
      precision)` on a decimal with both. */
  lemma TypedHead(f: Field)
    requires f.kind != RelationType && !(f.kind == EnumType && f.enumValues != "")
    ensures f.kind == FileType ==> ColumnType(f) == "string"
    ensures var t := ColumnKind(f);
            RenderHead(PlainHead(f)) == "$table->" + TypeName(t) + "('" + f.name + "')" +
              (if (t == StringType || t == DecimalType) && f.length != "" then
                 if t == DecimalType && f.precision != "" then "(" + f.length + ", " + f.precision + ")"
                 else "(" + f.length + ")"
               else "")
  {
    SizeTextCases(f.length, f.precision);
  }

  /** An enum with values becomes an `enum` column listing one quoted,
      trimmed value per comma-separated piece, empty pieces included. */
  lemma EnumHeadValues(f: Field)
    requires f.kind == EnumType && f.enumValues != ""
    ensures PlainHead(f) == EnumHead(f.name, QuotedEnumValues(f.enumValues))
    ensures |QuotedEnumValues(f.enumValues)| == CountChar(f.enumValues, ',') + 1
    ensures forall i :: 0 <= i < |QuotedEnumValues(f.enumValues)| ==>
              QuotedEnumValues(f.enumValues)[i] == "'" + Trim(Split(f.enumValues, ',')[i]) + "'"
  {
    QuotedEnumValuesCount(f.enumValues);
  }
}
