# Laravel code generator, modelled in Dafny

The Ababil Laravel Code Generator turns a model description into PHP/Laravel
source text. The description is a model name, a few options and a list of
field records. The generators are plain functions from the record list to
one artifact each:

- the controller, with its validation rules and its fill helper;
- the Eloquent model;
- the migration;
- the seeder;
- the API resource;
- the resource route;
- the artisan commands.

This project models those generators in Dafny and proves what their output
contains.

Every artifact is modelled as a sequence of lines. Indentation is removed,
and blank lines and PHP doc comments are left out. A comma-joined list (the
fillable names, the casts) becomes one line per entry, with `,` on all but
the last line.

The generators that build their text with `+=` inside loops are modelled as
methods with loops, proved equal to a specification function. This covers
the controller, the validation rules, the fill helper, the migration, and
the file constants, relations and URL accessors of the model. The others are
functions, with lemmas about them.

Modules, one per file:

- `Text` (text.dfy): the JavaScript string operations the generators use, in ASCII. It has `toLowerCase`, `toUpperCase`, `includes`, `endsWith`, `trim` and `split(',')`. It also has the `_x` → `X` rewrite of the URL accessor names, the `_id` suffix strip and number printing.
- `Seqs` (seqs.dfy): `filter`, `map`, first-occurrence de-duplication (`[...new Set(xs)]`), occurrence counts, and the "first one per key wins" selection of the model's `usedForeignKeys` set.
- `Fields` (fields.dfy): the field record and the predicates the generators filter by.
- `Validation` (validation.dfy): `generateValidationRules`.
- `ControllerGenerator` (controller.dfy): `generateControllerCode` and `generateFillableFieldsCode`.
- `ModelGenerator` (model.dfy): `generateModelCode`.
- `MigrationGenerator` (migration.dfy): `generateMigrationCode`.
- `SeederGenerator` (seeder.dfy): `generateSeederCode`.
- `ResourceGenerator` (resource.dfy): `generateResourceCode`.
- `RoutesGenerator` (routes.dfy): `generateRoutesCode`.
- `CommandsGenerator` (commands.dfy): `generateCommandsCode`.
- `Consistency` (consistency.dfy): how the generated files name one another. This covers route names against redirects, class names against artisan commands, and file-path constants in the model against their uses in the controller.

How field records are represented:

- An optional string that the code tests only for truthiness is a `string`, and `""` means absent. This applies to `length`, `precision`, `enumValues`, `allowedTypes`, `filePath`, `foreignKey`, `relatedTable` and `relatedModel`.
- `defaultValue` is an `Option<string>`, because the code tests it with `!== undefined`.
- `maxFileSize` is an `Option<nat>`.
- `fillable` is a `bool`. Relation records carry no `fillable` key, and `undefined !== false` holds, so they count as fillable.
- A `relationshipType` label becomes a kind through `RelKindOf`. A label other than the six the generators test becomes `OtherKind`, which the model generator sends down its `default` (belongsTo) branch.

Behaviours of the code that the model keeps as written:

- A non-nullable enum without values gets the rule `required`. The empty segments are filtered out before the join, so there is no dangling `|` (assets/js/controller-generator.js:180-193).
- A file field without a `filePath` gets the path `public/uploads`, with no trailing slash. A given path gets a `/` appended unless it already ends with one (assets/js/model-generator.js:26).
- Without a `relatedTable`, `exists:` and `constrained(...)` name the singular lower-cased related model, for example `category` (assets/js/controller-generator.js:187, assets/js/migration-generator.js:22).
- A non-nullable field gets `required` even when it has a default (assets/js/controller-generator.js:192).
- The migration creates and drops the table named by its `tableName` argument (assets/js/migration-generator.js:8, 85). The model's `$table` is always the lower-cased model name plus `s` (assets/js/model-generator.js:90).

The one place where the model departs from the code is the seeder's relation argument, which is listed under "## Findings".

## Model

| member | source | states |
|---|---|---|
| Validation.FieldRule | assets/js/controller-generator.js:164-194 | The push/unshift/filter/join sequence of the loop body builds exactly the rule line that the lemmas below characterise. |
| Validation.GenerateValidationRules | assets/js/controller-generator.js:159-197 | The forEach gives one rule line per field not named id/created_at/updated_at, in input order, and nothing else. |
| Validation.RuleLinesOnePerUserField | assets/js/controller-generator.js:161-195 | The rule lines are the map of the line function over the non-system fields, in order. |
| Validation.RuleLinesCoverUserFields | assets/js/controller-generator.js:162 | Every non-system field has its line, and every line comes from a non-system field of the input. |
| Validation.NoRequiredFromType | assets/js/controller-generator.js:167-190 | No case of the type switch pushes `required`. |
| Validation.RequiredFirstIffNotNullable | assets/js/controller-generator.js:192 | `required` is the first segment if and only if the field is not nullable, and it never appears at a later position. |
| Validation.RuleSplitsIntoSegments | assets/js/controller-generator.js:193 | No kept segment is empty. When at least one segment is kept and no segment holds a `\|` of its own, splitting the joined rule at `\|` gives the segments back, so there is no dangling separator. A `\|` typed into a length, allowed-types, enum-values or related-table entry does break the rule apart. |
| Validation.StringSegments | assets/js/controller-generator.js:168-170 | A string field yields `string`, plus `max:<length>` only when a length is given. |
| Validation.SegmentsByType | assets/js/controller-generator.js:171-190 | For every non-string type, the segments are the optional `required` followed by what its case pushes: file, enum with values, belongsTo `exists:`. Other relations, enums without values and types with no case push nothing. |
| Validation.TypeValidationsNonEmpty | assets/js/controller-generator.js:171-190 | Outside the string case, no pushed segment is empty. |
| Validation.FileDefaults | assets/js/controller-generator.js:176-178 | Without `allowedTypes` a file field allows `jpg,jpeg,png,webp,gif,svg`. Its size limit is `maxFileSize * 1024`, or 5120 without one. |
| Validation.InValuesClean | assets/js/controller-generator.js:182 | The values of `in:` are trimmed, non-empty and comma-free. |
| Validation.InValuesRoundTrip | assets/js/controller-generator.js:182 | When the enum values leave at least one non-empty piece, splitting the comma-joined `in:` list gives exactly the cleaned values back. |
| Validation.EnumWithoutValues | assets/js/controller-generator.js:180-193 | An enum without values yields the empty rule when nullable and `required` alone otherwise. |
| ControllerGenerator.GenerateFillableFieldsCode | assets/js/controller-generator.js:199-207 | The loop appends one `$<lower>-><name> = $request-><name>;` per non-system field, in order. |
| ControllerGenerator.FillLinesOnePerUserField | assets/js/controller-generator.js:201-205 | The fill lines are the map of the fill line over the non-system fields. |
| ControllerGenerator.FillCoversRegularFields | assets/js/controller-generator.js:3-9 | fillRequestData assigns every non-relation, non-system field whatever its `fillable` flag, and nothing else. |
| ControllerGenerator.RulesCoverColumns | assets/js/controller-generator.js:3-7 | The rule input is the non-relation fields followed by the belongsTo relations. Its members are exactly the fields a migration column is made for. |
| ControllerGenerator.HandleCallsInOrder | assets/js/controller-generator.js:49-51 | One `handle<Name>` call per file field, the j-th for the j-th file field. |
| ControllerGenerator.DeleteCallsInOrder | assets/js/controller-generator.js:109-111 | One `delete<Name>` call per file field, the j-th for the j-th file field. |
| ControllerGenerator.AppendHandleCalls | assets/js/controller-generator.js:49-51 | The forEach appends exactly the handle calls of the file fields to the text so far. |
| ControllerGenerator.AppendDeleteCalls | assets/js/controller-generator.js:109-111 | The forEach appends exactly the delete calls of the file fields. |
| ControllerGenerator.FileMethodPair | assets/js/controller-generator.js:133-152 | The handle and delete methods of one file field take 18 lines. |
| ControllerGenerator.FileMethodPairs | assets/js/controller-generator.js:129-153 | The method pairs take 18 lines per file field. |
| ControllerGenerator.FileMethodPairsInOrder | assets/js/controller-generator.js:129-153 | The pair of the j-th file field occupies lines 18j to 18j+17. |
| ControllerGenerator.AppendFileMethodPairs | assets/js/controller-generator.js:129-153 | The forEach appends exactly the method pairs, in file-field order. |
| ControllerGenerator.PairUsesPathConstant | assets/js/controller-generator.js:134-152 | The handle method calls `delete<Name>` before it moves the upload. The move and the delete method both use `<Model>::<NAME>_PATH`. |
| ControllerGenerator.GenerateControllerCode | assets/js/controller-generator.js:1-157 | The appends build the controller text the placement lemmas describe. The output depends on neither `tableName` nor `includeAuthMiddleware`. |
| ControllerGenerator.StoreHookPlacement | assets/js/controller-generator.js:47-53 | In store, the fill call, the handle calls and `->save()` are consecutive lines. |
| ControllerGenerator.UpdateHookPlacement | assets/js/controller-generator.js:89-95 | In update, the fill call, the handle calls and `->update()` are consecutive lines. |
| ControllerGenerator.DestroyHookPlacement | assets/js/controller-generator.js:105-113 | In destroy, the delete calls come between `try {` and `->delete()`. |
| ControllerGenerator.HooksOnePerFileField | assets/js/controller-generator.js:2 | Every file field, and only file fields, get a handle and a delete call, in field order. |
| ModelGenerator.FillableExactly | assets/js/model-generator.js:3-8 | The fillable entries are the quoted names of exactly the fillable non-relation fields, in order. |
| ModelGenerator.CastsBlockIffSomeCast | assets/js/model-generator.js:11-17 | The casts block is present if and only if some field has `cast`. |
| ModelGenerator.CastsBlockEntries | assets/js/model-generator.js:13-17 | The casts block maps each cast field's name to its castType, in order, with commas on all but the last entry. |
| ModelGenerator.PathValueCases | assets/js/model-generator.js:26 | An empty path gives `public/uploads`. A path ending in `/` is kept, and any other path gets `/` appended. A configured path always ends in `/`, and normalising it twice changes nothing. |
| ModelGenerator.ConstLines | assets/js/model-generator.js:24-27 | One constant line per file field. |
| ModelGenerator.ConstLinesInOrder | assets/js/model-generator.js:24-27 | The j-th constant line is the constant of the j-th file field. |
| ModelGenerator.GenerateFilePaths | assets/js/model-generator.js:20-28 | Nothing without file fields; otherwise the comment followed by one constant per file field. |
| ModelGenerator.AccessorFor | assets/js/model-generator.js:45-86 | One iteration: the accessor is emitted unless it is a belongsTo/default one whose foreign key was already used, and only those keys are added to the used set. |
| ModelGenerator.RelationsStep | assets/js/model-generator.js:45-87 | Processing one more field extends the relations and the used keys exactly as one iteration of the forEach does. |
| ModelGenerator.GenerateRelations | assets/js/model-generator.js:39-44 | Emits the `// Relationships` header only when there are relation fields, followed by the accessors of the first-per-key selection. |
| ModelGenerator.AppendRelations | assets/js/model-generator.js:45-88 | The forEach with its `usedForeignKeys` set appends, in field order, the accessor of every field except a default-branch field whose foreign key an earlier field already used. |
| ModelGenerator.UsedKeysAreDefaultKeys | assets/js/model-generator.js:41-84 | The used-key set holds exactly the foreign keys of the belongsTo/default fields seen. |
| ModelGenerator.BelongsToKeysDedup | assets/js/model-generator.js:78-85 | The foreign keys of the emitted belongsTo accessors are the distinct keys, in first-occurrence order, so each key is emitted at most once. |
| ModelGenerator.FirstWins | assets/js/model-generator.js:80-85 | The first field with a given foreign key always gets its accessor. |
| ModelGenerator.OtherRelationsOnePerField | assets/js/model-generator.js:50-76 | hasMany, hasOne, belongsToMany, morphTo and morphMany fields each get their accessor, in order, with no de-duplication. |
| ModelGenerator.AccessorNames | assets/js/model-generator.js:51-82 | hasOne is named `name` or lower(related); hasMany and belongsToMany add `s`; morphTo is `name`; morphMany is keyed by `<name>_type`; belongsTo is lower(related) with a trailing `_id` stripped. |
| ModelGenerator.PivotSymmetric | assets/js/model-generator.js:66 | The pivot name is the sorted pair joined with `_`, so it is the same whichever model is first. |
| ModelGenerator.UrlAccessors | assets/js/model-generator.js:93-100 | Four lines per file field. |
| ModelGenerator.UrlAccessorsInOrder | assets/js/model-generator.js:93-100 | The j-th URL accessor occupies lines 4j to 4j+3 and belongs to the j-th file field. |
| ModelGenerator.UrlAccessorNameCamel | assets/js/model-generator.js:95-98 | The accessor is `get<Name>UrlAttribute`, where `<Name>` has no `_x` joint left and starts with a non-lowercase letter. A name without joints is only capitalised. |
| ModelGenerator.UrlAccessorNameAtUnderscore | assets/js/model-generator.js:95-98 | In the accessor name, an `_x` joint of the field name becomes `X`, any other underscore stays, and the rest of the name is carried over. |
| ModelGenerator.AccessorUsesConstant | assets/js/model-generator.js:96-98 | The accessor reads `self::<NAME>_PATH`, the constant that the field's constant line declares. |
| ModelGenerator.AppendUrlAccessors | assets/js/model-generator.js:93-100 | The forEach appends exactly the URL accessors, in file-field order. |
| ModelGenerator.ModelHead | assets/js/model-generator.js:90 | The header lines: namespace, imports, class and table. |
| ModelGenerator.GenerateModelCode | assets/js/model-generator.js:1-105 | The model text is assembled from the parts the lemmas above describe, closed by `}`. |
| ModelGenerator.SoftDeletesLayout | assets/js/model-generator.js:31-36 | The SoftDeletes import and the trait line each occur exactly once with the flag and never without it. `$table` follows them. |
| ModelGenerator.SoftDeletesIffFlag | assets/js/model-generator.js:31-36 | The same for the whole model text: import and trait once each if and only if includeSoftDeletes. `$table` is at line 7 with the flag and at line 5 without it. |
| MigrationGenerator.ColumnLine | assets/js/migration-generator.js:11-77 | One column line is built as the loop body builds it, equal to the rendered column of the field. |
| MigrationGenerator.ForeignIdLine | assets/js/migration-generator.js:11-31 | The relation branch: `foreignId`, then the optional calls, `constrained`, and at most one on-delete call. |
| MigrationGenerator.PlainHeadText | assets/js/migration-generator.js:33-48 | The head of a non-relation column is the typed column with its size suffix, or the enum column in its place. |
| MigrationGenerator.PlainColumnLine | assets/js/migration-generator.js:33-77 | The non-relation branch: the head, then `nullable`, `unique`, `index` and `default` for the flags set. |
| MigrationGenerator.DefaultText | assets/js/migration-generator.js:62-73 | The default literal, computed by the reassignments of `defaultValue`. |
| MigrationGenerator.SizeTextCases | assets/js/migration-generator.js:36-43 | The size suffix is `(length)` or `(length, precision)`. |
| MigrationGenerator.TypedHead | assets/js/migration-generator.js:33-43 | A file field is a `string` column. `(length)` is added only on string or decimal with a length, and `(length, precision)` on a decimal with both. |
| MigrationGenerator.EnumHeadValues | assets/js/migration-generator.js:45-48 | An enum with values becomes `enum('name', [...])` with one quoted, trimmed value per comma piece, empty pieces kept. |
| MigrationGenerator.PlainChainOrder | assets/js/migration-generator.js:50-74 | The calls of a plain column come in the order nullable, unique, index, default. |
| MigrationGenerator.PlainModifiersPresence | assets/js/migration-generator.js:50-74 | Each plain call is present exactly when its flag is set. |
| MigrationGenerator.RelationChainOrder | assets/js/migration-generator.js:14-28 | The calls after `foreignId` come in the order nullable, default, constrained, on-delete. |
| MigrationGenerator.RelationModifiersPresence | assets/js/migration-generator.js:14-28 | `constrained` is always present. `nullOnDelete` appears exactly when its flag is set, and `cascadeOnDelete` exactly when only the cascade flag is. |
| MigrationGenerator.ModifierOrder | assets/js/migration-generator.js:14-74 | For every field, the calls of its line are in chain order, so there is at most one default and one on-delete. |
| MigrationGenerator.ModifierPresence | assets/js/migration-generator.js:14-74 | Per field, each call is present if and only if the field asks for it. `unique` and `index` appear only on plain columns, and `constrained` and the on-delete calls only on relations. |
| MigrationGenerator.DefaultFormatting | assets/js/migration-generator.js:62-73 | A default is present iff hasDefault and a value are given. A boolean default is `true` iff lower(value) is `true`, else `false`. integer, float and decimal values are verbatim. Everything else, relations included, is quoted. |
| MigrationGenerator.AppendColumnLines | assets/js/migration-generator.js:10-79 | The forEach appends one column line per selected field, in order, to the text so far. |
| MigrationGenerator.GenerateMigrationCode | assets/js/migration-generator.js:1-88 | The loop and the appends build the migration described by the layout lemmas. |
| MigrationGenerator.ColumnLinesInOrder | assets/js/migration-generator.js:10-79 | One column line per selected field, in input order. |
| MigrationGenerator.MigrationLayout | assets/js/migration-generator.js:8-85 | Positions of create, `id()`, the columns, `softDeletes()`, `timestamps()` and the drop of the same table. |
| MigrationGenerator.MigrationShape | assets/js/migration-generator.js:3-85 | up() has `id()`, then one line per non-relation field and belongsTo relation in order, then `softDeletes()` when asked for, then `timestamps()`. down() drops the same tableName. |
| MigrationGenerator.SoftDeletesLayout | assets/js/migration-generator.js:81-83 | Around columns without it, the flag puts `softDeletes()` in once and its absence leaves it out. |
| MigrationGenerator.SoftDeletesIffFlag | assets/js/migration-generator.js:81-83 | `softDeletes()` occurs once if and only if includeSoftDeletes, and never otherwise. |
| SeederGenerator.FirstMatchFirstWins | assets/js/seeder-generator.js:19-28 | A keyword table picks the method of the first keyword the name contains, and the fallback when it contains none. |
| SeederGenerator.StringFakerByKeyword | assets/js/seeder-generator.js:19-28 | The string if-chain is the keyword table name, email, phone, address, city, country, title, subject, falling back to `word`. |
| SeederGenerator.IntegerFakerByKeyword | assets/js/seeder-generator.js:30-35 | The integer if-chain is the table age, quantity, count, falling back to `randomNumber()`. |
| SeederGenerator.FakerMethodByType | assets/js/seeder-generator.js:29-50 | Outside string and integer types the method depends only on the type: text paragraph, boolean boolean, date `date()`, datetime `dateTime()`, decimal/float `randomFloat(2, 1, 1000)`, otherwise `word`. |
| SeederGenerator.FakerCall | assets/js/seeder-generator.js:53 | Every faker call ends in `,`. |
| SeederGenerator.FakerLineShape | assets/js/seeder-generator.js:53 | Every line is `'<name>' => $faker->...,`. |
| SeederGenerator.EnumFaker | assets/js/seeder-generator.js:43-49 | An enum with values yields `randomElement([...])` of one quoted trimmed value per comma piece. Without values it yields `word`. |
| SeederGenerator.FakerLinesCoverSeededFields | assets/js/seeder-generator.js:3-6 | One line per non-system field with `fillable` set, and no other line. |
| SeederGenerator.RelatedModelsDistinct | assets/js/seeder-generator.js:57-60 | The related models are exactly those of the relation fields (`RelatedModel` when unset), distinct, in first-occurrence order. |
| SeederGenerator.ImportLineInjective | assets/js/seeder-generator.js:62-64 | Different models get different import lines. |
| SeederGenerator.IdsLineInjective | assets/js/seeder-generator.js:66-68 | Different models get different ids lines. |
| SeederGenerator.OneImportAndIdsPerModel | assets/js/seeder-generator.js:57-68 | Exactly one import line and one `Ids = ...pluck` line per related model, none for any other model. |
| SeederGenerator.SeederLayout | assets/js/seeder-generator.js:70-93 | Positions of the own import, the related imports, the class `<Model>Seeder`, the ids lines, the `range(1, 10)` loop, `<Model>::create([` and the field lines. |
| SeederGenerator.IdsLineDeclares | assets/js/seeder-generator.js:67 | The ids line declares `$<lower>Ids`. |
| SeederGenerator.IdsLinesInSeeder | assets/js/seeder-generator.js:66-68 | The ids line of every related model is in the seeder. |
| SeederGenerator.RelationLinesUseDeclaredIds | assets/js/seeder-generator.js:12-15 | In the corrected model, every relation line reads the `$<lower>Ids` variable that a line of the same seeder declares. |
| SeederGenerator.RelationArgumentMissesVariable | assets/js/seeder-generator.js:14 | As written, the relation argument `<lower>Ids` is no `$<m>Ids` variable of any model, so the line differs from the corrected one. |
| SeederGenerator.AsWrittenAgreesOffRelations | assets/js/seeder-generator.js:12-15 | The line as written and the corrected line are equal exactly on non-relation fields, so the missing `$` is the only difference between them. |
| ResourceGenerator.EntryRoundTrip | assets/js/resource-generator.js:4 | Reading an entry back gives the field name both as its key and as the `$this->` property. |
| ResourceGenerator.EntryInjective | assets/js/resource-generator.js:4 | Two entries are equal if and only if the names are. |
| ResourceGenerator.EntryKeysInOrder | assets/js/resource-generator.js:2-5 | The entry keys are the names of the non-system fields, in input order. |
| ResourceGenerator.EntryIffNotSystem | assets/js/resource-generator.js:3 | A field has its entry if and only if its name is not id/created_at/updated_at, so relation and non-fillable fields are included. |
| ResourceGenerator.ResourceLayout | assets/js/resource-generator.js:7-27 | The class is `<Model>Resource` and the entries sit between `return [` and `];`. |
| RoutesGenerator.MiddlewareIffFlag | assets/js/routes-generator.js:2-6 | The route ends in `->middleware('auth');` if and only if includeAuthMiddleware, and the flag changes nothing else. |
| RoutesGenerator.ControllerImportedAndReferenced | assets/js/routes-generator.js:4-6 | The import and the route both name `<Model>Controller`. The route segment is `'<lower>s'`. |
| CommandsGenerator.CommandOrComment | assets/js/commands-generator.js:2-16 | Every `php artisan` line is a command, and no `#` comment line is. |
| CommandsGenerator.CommandsInOrder | assets/js/commands-generator.js:1-16 | With the comments dropped, the commands are migration, model, controller, seeder, resource, then `migrate:fresh --seed`. |
| Consistency.RouteNamesMatch | assets/js/routes-generator.js:6 | The route name prefix `<lower>s` is the one the controller's `route('<lower>s.index')` redirects use, and the model's `$table` is the same plural. |
| Consistency.CommandsCreateDeclaredClasses | assets/js/commands-generator.js:7-13 | The commands create `<Model>Controller`, `<Model>Seeder` and `<Model>Resource`, the classes the controller, seeder and resource declare. |
| Consistency.ModelDeclaresAndReadsConstant | assets/js/model-generator.js:21-98 | The model's j-th constant line declares `<NAME>_PATH` of the j-th file field, and its j-th URL accessor reads that constant. |
| Consistency.ControllerUsesConstant | assets/js/controller-generator.js:129-147 | The controller's j-th method pair uses `<Model>::<NAME>_PATH` of the j-th file field in both methods. |
| Consistency.FilePathConstantsAgree | assets/js/model-generator.js:21-26 | Controller and model filter the same file fields, so the j-th constant the model declares is the one the j-th controller pair uses. |
| Text.SnakeToCamel | assets/js/model-generator.js:95 | The rewrite leaves no `_` followed by a lowercase letter. |
| Text.SnakeToCamelAtUnderscore | assets/js/model-generator.js:95 | At an underscore, `_x` with `x` a lowercase letter becomes `X`, any other underscore is kept, and the text on either side is rewritten independently. |
| Text.SnakeToCamelIdentity | assets/js/model-generator.js:95 | A name without such a joint is unchanged. |
| Text.StripIdSuffix | assets/js/model-generator.js:82 | A trailing `_id` is removed and nothing else changes. |
| Text.Trim | assets/js/controller-generator.js:182 | The result neither starts nor ends with whitespace and holds only characters of the input. |
| Text.TrimIsSlice | assets/js/controller-generator.js:182 | The result is the slice of the input between a run of leading and a run of trailing whitespace, so exactly the whitespace at both ends is dropped. |
| Text.SplitJoin | assets/js/controller-generator.js:182 | Joining pieces free of the separator and splitting again gives the pieces back. |
| Text.SplitCount | assets/js/migration-generator.js:46 | `split(',')` gives one piece more than there are commas. |
| Text.NatToStringValue | assets/js/controller-generator.js:178 | The printed number reads back as the number. |
| Text.LexAntisymmetric | assets/js/model-generator.js:66 | The string order used by `sort()` is antisymmetric, so the sorted pair is unique. |
| Seqs.DedupFirstOccurrenceOrder | assets/js/seeder-generator.js:57-60 | `[...new Set(xs)]` keeps first occurrences in their original order. |
| Seqs.KeepFirstByKeyDedup | assets/js/model-generator.js:78-85 | Keeping the first element per key yields each key once, in first-occurrence order. |
| Seqs.KeepFirstByKeyFirstWins | assets/js/model-generator.js:78-85 | The first element with a key is always kept. |
| Fields.QuotedEnumValuesCount | assets/js/migration-generator.js:46 | One quoted, trimmed value per comma piece, in order. |
| Fields.RelKindOf | assets/js/model-generator.js:50-76 | Each of the six labels the generators test gets its own kind. Exactly the other labels fall to `OtherKind`, and the label can always be read back. |
| Fields.RelKindRoundTrip | assets/js/model-generator.js:50-76 | Reading a kind's label back gives the same kind, so `OtherKind` never stands for one of the six named labels. |

## Left out

- assets/js/main.js is not part of this model. It covers DOM wiring, form reads, alerts, the clipboard, downloads, zip packaging and timestamps. The split of its form into `fields` and relation records is taken as given input.
- Whitespace, indentation, blank lines and PHP doc comments of the templates: the artifacts are compared line by line with those stripped.
- JavaScript's string-to-number coercion in `(maxFileSize || 5) * 1024`: `maxFileSize` is an optional natural number.
- Unicode case mapping and JavaScript's full whitespace set in `trim`: the model is ASCII-only.
- What the generated PHP does when it runs (file moves, `unlink`, database writes, exceptions). Only its text is modelled.
- `hasRelations` in generateSeederCode is computed and never used, so it has no counterpart.
- The `field.length || 255` fallback of the migration sits inside a branch that already requires a length, so it can never apply. The model gives `(length)` directly.
- ControllerGenerator.FileMethodPair: its own contract states only the 18-line length. The content that matters (the delete-before-move order and the path constant) is stated by PairUsesPathConstant.
- ModelGenerator.UrlAccessors: its own contract states only the length. Order and content are stated by UrlAccessorsInOrder and AccessorUsesConstant.
- ControllerGenerator.FileMethodPairs: its own contract states only the 18 lines per file field. Which pair fills which lines is stated by FileMethodPairsInOrder.
- ModelGenerator.ConstLines: its own contract states only one line per file field. That the j-th line is the j-th file field's constant is stated by ConstLinesInOrder.
- SeederGenerator.FakerCall: its own contract states only the trailing comma. The call chosen for each type is stated by FakerMethodByType, StringFakerByKeyword, IntegerFakerByKeyword, EnumFaker and RelationLinesUseDeclaredIds.
- SeederGenerator.FakerLines: the seeder text (FakerLines, SeederLines, and the lemmas about them such as FakerLinesCoverSeededFields and IdsLinesInSeeder) uses the corrected relation argument `$<lower>Ids`. The code writes `<lower>Ids` without the `$`; FakerLineAsWritten models that line, and AsWrittenAgreesOffRelations shows the two differ exactly on relation fields.
- ModelGenerator.UrlAccessorNameCamel: its own contract states only the shape of the name. The rewrite of each `_x` joint is stated by UrlAccessorNameAtUnderscore.
- Text.Trim: its own contract states only that no whitespace is left at either end. That the result is the input with exactly its leading and trailing whitespace dropped is stated by TrimIsSlice.
- Text.SnakeToCamel: its own contract states only that no `_x` joint is left. What the rewrite produces is stated by SnakeToCamelIdentity and SnakeToCamelAtUnderscore.

## Findings

| source | as written | input that shows it | evidently intended | confidence | as-written member | corrected member |
|---|---|---|---|---|---|---|
| assets/js/seeder-generator.js:14 | A relation field's line passes `<lower>Ids` to `randomElement`, without `$`. Line 67 declares the variable as `$<lower>Ids`, so the generated PHP reads an undefined constant. | A belongsTo field with relatedModel `Category` yields `randomElement(categoryIds)`, while the seeder declares `$categoryIds`. | `randomElement($<lower>Ids)`, reading the declared variable. | not executed | SeederGenerator.RelationArgumentMissesVariable | SeederGenerator.RelationLinesUseDeclaredIds |
