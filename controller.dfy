/**
 * generateControllerCode and generateFillableFieldsCode
 * (assets/js/controller-generator.js): the resource controller of one model,
 * as a sequence of lines with the indentation removed and the PHP doc
 * comments and blank lines left out.
 *
 * The source builds the text by appending to one string: a fixed opening,
 * then one `handle<Name>` call per file field in `store`, the same again in
 * `update`, one `delete<Name>` call per file field in `destroy`, the
 * validation and fill helpers, and finally one handle/delete method pair per
 * file field. GenerateControllerCode does the same appends, and
 * ControllerLines is the text it must produce.
 */
module ControllerGenerator {
  import opened Text
  import opened Seqs
  import opened Fields
  import opened Validation

  // ---------------------------------------------------------------------
  // generateFillableFieldsCode

  /** The assignment fillRequestData makes for one field. */
  function FillLine(lower: string, f: Field): string
  {
    "$" + lower + "->" + f.name + " = $request->" + f.name + ";"
  }

  /** The assignments for `fields`, system fields skipped, in field order. */
  function FillLines(lower: string, fields: seq<Field>): seq<string>
  {
    if fields == [] then []
    else FillLines(lower, DropLast(fields)) + (if IsUserField(Last(fields)) then [FillLine(lower, Last(fields))] else [])
  }

  /** The assignments are exactly one per non-system field, in field order. */
  lemma {:induction false} FillLinesOnePerUserField(lower: string, fields: seq<Field>)
    ensures FillLines(lower, fields) == Map(f => FillLine(lower, f), Filter(IsUserField, fields))
  {
    if fields != [] {
      FillLinesOnePerUserField(lower, DropLast(fields));
      MapFilterSnoc(f => FillLine(lower, f), IsUserField, fields);
    }
  }

  /** Appends one assignment per non-system field. */
  method GenerateFillableFieldsCode(fields: seq<Field>, modelName: string) returns (code: seq<string>)
    ensures code == FillLines(ToLower(modelName), fields)
    ensures code == Map(f => FillLine(ToLower(modelName), f), Filter(IsUserField, fields))
  {
    var lower := ToLower(modelName);
    code := [];
    var i := 0;
    while i < |fields|
      invariant 0 <= i <= |fields|
      invariant code == FillLines(lower, fields[..i])
    {
      assert DropLast(fields[..i + 1]) == fields[..i];
      if !IsSystemName(fields[i].name) {
        code := code + [FillLine(lower, fields[i])];
      }
      i := i + 1;
    }
    assert fields[..i] == fields;
    FillLinesOnePerUserField(lower, fields);
  }

  // ---------------------------------------------------------------------
  // The per-file-field lines

  /** `$this->handle<Name>($request, $<lower>);` */
  function HandleCall(lower: string, f: Field): string
  {
    "$this->handle" + Capitalize(f.name) + "($request, $" + lower + ");"
  }

  /** `$this->delete<Name>($<lower>);` */
  function DeleteCall(lower: string, f: Field): string
  {
    "$this->delete" + Capitalize(f.name) + "($" + lower + ");"
  }

  function HandleCalls(lower: string, files: seq<Field>): seq<string>
  {
    if files == [] then [] else HandleCalls(lower, DropLast(files)) + [HandleCall(lower, Last(files))]
  }

  function DeleteCalls(lower: string, files: seq<Field>): seq<string>
  {
    if files == [] then [] else DeleteCalls(lower, DropLast(files)) + [DeleteCall(lower, Last(files))]
  }

  /** One handle call per file field, in field order. */
  lemma {:induction false} HandleCallsInOrder(lower: string, files: seq<Field>)
    ensures |HandleCalls(lower, files)| == |files|
    ensures forall j :: 0 <= j < |files| ==> HandleCalls(lower, files)[j] == HandleCall(lower, files[j])
  {
    if files != [] {
      var init := DropLast(files);
      HandleCallsInOrder(lower, init);
      SnocPointwise(f => HandleCall(lower, f), files, HandleCalls(lower, init));
    }
  }

  /** One delete call per file field, in field order. */
  lemma {:induction false} DeleteCallsInOrder(lower: string, files: seq<Field>)
    ensures |DeleteCalls(lower, files)| == |files|
    ensures forall j :: 0 <= j < |files| ==> DeleteCalls(lower, files)[j] == DeleteCall(lower, files[j])
  {
    if files != [] {
      var init := DropLast(files);
      DeleteCallsInOrder(lower, init);
      SnocPointwise(f => DeleteCall(lower, f), files, DeleteCalls(lower, init));
    }
  }

  /** `move(<Model>::<NAME>_PATH, $fileName)` in the handle method. */
  function MoveLine(modelName: string, f: Field): string
  {
    "$request->file('" + f.name + "')->move(" + modelName + "::" + PathConst(f.name) + ", $fileName);"
  }

  /** `$filePath = <Model>::<NAME>_PATH.$<lower>-><name>;` in the delete
      method. */
  function FilePathLine(modelName: string, lower: string, f: Field): string
  {
    "$filePath = " + modelName + "::" + PathConst(f.name) + ".$" + lower + "->" + f.name + ";"
  }

  const PairLength: nat := 18

  /** The `handle<Name>` and `delete<Name>` methods of one file field. */
  function FileMethodPair(modelName: string, lower: string, f: Field): (r: seq<string>)
    ensures |r| == PairLength
  {
    var n := Capitalize(f.name);
    ["private function handle" + n + "(Request $request, $" + lower + ")",
     "{",
     "if ($request->hasFile('" + f.name + "')) {",
     DeleteCall(lower, f),
     "$fileName = time().'_'.uniqid().'.'.$request->file('" + f.name + "')->extension();",
     MoveLine(modelName, f),
     "$" + lower + "->" + f.name + " = $fileName;",
     "}",
     "}",
     "private function delete" + n + "($" + lower + ")",
     "{",
     "if ($" + lower + "->" + f.name + ") {",
     FilePathLine(modelName, lower, f),
     "if (file_exists($filePath)) {",
     "unlink($filePath);",
     "}",
     "}",
     "}"]
  }

  function FileMethodPairs(modelName: string, lower: string, files: seq<Field>): (r: seq<string>)
    ensures |r| == PairLength * |files|
  {
    if files == [] then []
    else FileMethodPairs(modelName, lower, DropLast(files)) + FileMethodPair(modelName, lower, Last(files))
  }

  /** One method pair per file field, in field order: the pair of field `j`
      fills lines `18 * j` to `18 * j + 17`. */
  lemma {:induction false} FileMethodPairsInOrder(modelName: string, lower: string, files: seq<Field>)
    ensures |FileMethodPairs(modelName, lower, files)| == PairLength * |files|
    ensures forall j :: 0 <= j < |files| ==>
              BlockAt(FileMethodPairs(modelName, lower, files), PairLength * j, FileMethodPair(modelName, lower, files[j]))
  {
    if files != [] {
      var init := DropLast(files);
      FileMethodPairsInOrder(modelName, lower, init);
      var a := FileMethodPairs(modelName, lower, init);
      var b := FileMethodPair(modelName, lower, Last(files));
      forall j | 0 <= j < |files|
        ensures BlockAt(a + b, PairLength * j, FileMethodPair(modelName, lower, files[j]))
      {
        if j < |init| {
          BlockAppend(a, b, PairLength * j, FileMethodPair(modelName, lower, init[j]));
        } else {
          BlockInMiddle(a, b, []);
          assert a + b + [] == a + b;
        }
      }
    }
  }

  /** Inside a pair, the handle method deletes the old file before it moves
      the upload, and both methods use the model's path constant of that
      field. */
  lemma PairUsesPathConstant(modelName: string, lower: string, f: Field)
    ensures var pair := FileMethodPair(modelName, lower, f);
      pair[3] == DeleteCall(lower, f) && pair[5] == MoveLine(modelName, f) &&
      pair[12] == FilePathLine(modelName, lower, f)
    ensures Contains(MoveLine(modelName, f), modelName + "::" + PathConst(f.name))
    ensures Contains(FilePathLine(modelName, lower, f), modelName + "::" + PathConst(f.name))
  {
    var key := modelName + "::" + PathConst(f.name);
    var pre := "$request->file('" + f.name + "')->move(";
    ContainsAt(MoveLine(modelName, f), pre, key, ", $fileName);");
    ContainsAt(FilePathLine(modelName, lower, f), "$filePath = ", key, ".$" + lower + "->" + f.name + ";");
  }

  // ---------------------------------------------------------------------
  // The controller text

  /** `$this->fillRequestData($request, $<lower>);` */
  function FillCall(lower: string): string
  {
    "$this->fillRequestData($request, $" + lower + ");"
  }

  function SaveLine(lower: string): string { "$" + lower + "->save();" }

  function UpdateLine(lower: string): string { "$" + lower + "->update();" }

  function DeleteLine(lower: string): string { "$" + lower + "->delete();" }

  function IndexRoute(lower: string): string
  {
    "return redirect()->route('" + lower + "s.index')"
  }

  function ClassLine(modelName: string, baseController: string): string
  {
    "class " + (modelName + "Controller") + " extends " + baseController
  }

  /** From `<?php` to the new model of `store`. */
  function OpeningHead(modelName: string, lower: string, modelNamespace: string, controllerNamespace: string,
                       baseController: string): seq<string>
  {
    ["<?php",
     "namespace " + controllerNamespace + ";",
     "use " + modelNamespace + "\\" + modelName + ";",
     "use Illuminate\\Http\\Request;",
     "use Illuminate\\Support\\Facades\\File;",
     ClassLine(modelName, baseController),
     "{",
     "public function index()",
     "{",
     "$" + lower + "s = " + modelName + "::all();",
     "return view('" + lower + ".index', compact('" + lower + "s'));",
     "}",
     "public function create()",
     "{",
     "return view('" + lower + ".create');",
     "}",
     "public function store(Request $request)",
     "{",
     "$this->validateRequest($request);",
     "try {",
     "$" + lower + " = new " + modelName + "();"]
  }

  /** In `store`: the fill call, the handle calls, the save. */
  function StoreHooks(lower: string, files: seq<Field>): seq<string>
  {
    [FillCall(lower)] + HandleCalls(lower, files) + [SaveLine(lower)]
  }

  /** From the redirect of `store` to the `try {` of `update`. */
  function StoreToUpdate(modelName: string, lower: string): seq<string>
  {
    [IndexRoute(lower) + "->with('success', '" + modelName + " created successfully.');",
     "} catch (\\Exception $e) {",
     "return back()->with('error', $e->getMessage())->withInput();",
     "}",
     "}",
     "public function show(" + modelName + " $" + lower + ")",
     "{",
     "return view('" + lower + ".show', compact('" + lower + "'));",
     "}",
     "public function edit(" + modelName + " $" + lower + ")",
     "{",
     "return view('" + lower + ".edit', compact('" + lower + "'));",
     "}",
     "public function update(Request $request, string $id)",
     "{",
     "$" + lower + " = " + modelName + "::find($id);",
     "if (!$" + lower + ") {",
     "return back()->with('error', '" + modelName + " not found');",
     "}",
     "$this->validateRequest($request);",
     "try {"]
  }

  /** In `update`: the fill call, the handle calls, the `->update()`. */
  function UpdateHooks(lower: string, files: seq<Field>): seq<string>
  {
    [FillCall(lower)] + HandleCalls(lower, files) + [UpdateLine(lower)]
  }

  /** From the redirect of `update` to the end of the method. */
  function UpdateToDestroy(modelName: string, lower: string): seq<string>
  {
    [IndexRoute(lower) + "->with('success', '" + modelName + " updated successfully.');",
     "} catch (\\Exception $e) {",
     "return back()->with('error', $e->getMessage())->withInput();",
     "}",
     "}"]
  }

  function DestroyHead(modelName: string, lower: string): seq<string>
  {
    ["public function destroy(" + modelName + " $" + lower + ")",
     "{",
     "try {"]
  }

  /** `destroy` up to its `->delete()`: the delete calls come first. */
  function DestroyHooks(modelName: string, lower: string, files: seq<Field>): seq<string>
  {
    DestroyHead(modelName, lower) + DeleteCalls(lower, files) + [DeleteLine(lower)]
  }

  /** From the redirect of `destroy` to the end of fillRequestData. */
  function Helpers(modelName: string, lower: string, rules: seq<string>, fills: seq<string>): seq<string>
  {
    [IndexRoute(lower) + "->with('success', '" + modelName + " deleted successfully.');",
     "} catch (\\Exception $e) {",
     "return back()->with('error', $e->getMessage());",
     "}",
     "}",
     "private function validateRequest(Request $request)",
     "{",
     "$request->validate(["] + rules + ["]);", "}",
     "private function fillRequestData(Request $request, $" + lower + ")",
     "{"] + fills + ["}"]
  }

  /** What the validation covers: the non-relation fields followed by the
      belongsTo relations. */
  function RuleInput(fields: seq<Field>): seq<Field>
  {
    Filter(IsNotRelation, fields) + Filter(IsBelongsTo, fields)
  }

  /** The controller text the source produces. `tableName` and
      `includeAuthMiddleware` are parameters of the source function that it
      never reads, so they are not parameters here. */
  function ControllerLines(modelName: string, modelNamespace: string, controllerNamespace: string,
                           baseController: string, fields: seq<Field>): seq<string>
  {
    var lower := ToLower(modelName);
    var files := Filter(IsFile, fields);
    OpeningHead(modelName, lower, modelNamespace, controllerNamespace, baseController)
    + StoreHooks(lower, files)
    + StoreToUpdate(modelName, lower)
    + UpdateHooks(lower, files)
    + UpdateToDestroy(modelName, lower)
    + DestroyHooks(modelName, lower, files)
    + ControllerTail(modelName, fields)
  }

  /** `fileFields.forEach(field => code += handle call)`. */
  method AppendHandleCalls(code: seq<string>, lower: string, files: seq<Field>) returns (r: seq<string>)
    ensures r == code + HandleCalls(lower, files)
  {
    r := code;
    var i := 0;
    while i < |files|
      invariant 0 <= i <= |files|
      invariant r == code + HandleCalls(lower, files[..i])
    {
      assert DropLast(files[..i + 1]) == files[..i];
      r := r + [HandleCall(lower, files[i])];
      i := i + 1;
    }
    assert files[..i] == files;
  }

  /** `fileFields.forEach(field => code += delete call)`. */
  method AppendDeleteCalls(code: seq<string>, lower: string, files: seq<Field>) returns (r: seq<string>)
    ensures r == code + DeleteCalls(lower, files)
  {
    r := code;
    var i := 0;
    while i < |files|
      invariant 0 <= i <= |files|
      invariant r == code + DeleteCalls(lower, files[..i])
    {
      assert DropLast(files[..i + 1]) == files[..i];
      r := r + [DeleteCall(lower, files[i])];
      i := i + 1;
    }
    assert files[..i] == files;
  }

  lemma FileMethodPairsStep(modelName: string, lower: string, files: seq<Field>, i: nat)
    requires i < |files|
    ensures FileMethodPairs(modelName, lower, files[..i + 1]) ==
            FileMethodPairs(modelName, lower, files[..i]) + FileMethodPair(modelName, lower, files[i])
  {
    assert DropLast(files[..i + 1]) == files[..i];
  }

  /** `fileFields.forEach(field => code += handle and delete methods)`. */
  method AppendFileMethodPairs(code: seq<string>, modelName: string, lower: string, files: seq<Field>)
    returns (r: seq<string>)
    ensures r == code + FileMethodPairs(modelName, lower, files)
  {
    r := code;
    var i := 0;
    while i < |files|
      invariant 0 <= i <= |files|
      invariant r == code + FileMethodPairs(modelName, lower, files[..i])
    {
      FileMethodPairsStep(modelName, lower, files, i);
      AppendAssoc(code, FileMethodPairs(modelName, lower, files[..i]), FileMethodPair(modelName, lower, files[i]));
      r := r + FileMethodPair(modelName, lower, files[i]);
      i := i + 1;
    }
    assert files[..i] == files;
  }

  /** Builds the controller by appending, as the source does; the output
      does not depend on `tableName` or `includeAuthMiddleware`. */
  method GenerateControllerCode(modelName: string, tableName: string, modelNamespace: string,
                                controllerNamespace: string, baseController: string,
                                fields: seq<Field>, includeAuthMiddleware: bool)
    returns (code: seq<string>)
    ensures code == ControllerLines(modelName, modelNamespace, controllerNamespace, baseController, fields)
  {
    var fileFields := Filter(IsFile, fields);
    var regularFields := Filter(IsNotRelation, fields);
    var validationRules := GenerateValidationRules(regularFields + Filter(IsBelongsTo, fields));
    var fillableFieldsCode := GenerateFillableFieldsCode(regularFields, modelName);
    var lower := ToLower(modelName);

    code := OpeningHead(modelName, lower, modelNamespace, controllerNamespace, baseController) + [FillCall(lower)];
    code := AppendHandleCalls(code, lower, fileFields);
    code := code + [SaveLine(lower)] + StoreToUpdate(modelName, lower) + [FillCall(lower)];
    code := AppendHandleCalls(code, lower, fileFields);
    code := code + [UpdateLine(lower)] + UpdateToDestroy(modelName, lower) + DestroyHead(modelName, lower);
    code := AppendDeleteCalls(code, lower, fileFields);
    code := code + [DeleteLine(lower)] + Helpers(modelName, lower, validationRules, fillableFieldsCode);
    code := AppendFileMethodPairs(code, modelName, lower, fileFields);
    code := code + ["}"];
    Regroup(OpeningHead(modelName, lower, modelNamespace, controllerNamespace, baseController), [FillCall(lower)],
            HandleCalls(lower, fileFields), [SaveLine(lower)], StoreToUpdate(modelName, lower), [UpdateLine(lower)],
            UpdateToDestroy(modelName, lower), DestroyHead(modelName, lower), DeleteCalls(lower, fileFields),
            [DeleteLine(lower)], Helpers(modelName, lower, validationRules, fillableFieldsCode),
            FileMethodPairs(modelName, lower, fileFields), ["}"]);
  }

  /** The appends of GenerateControllerCode, grouped into the sections of
      ControllerLines. */
  lemma Regroup<T>(oh: seq<T>, fc: seq<T>, hc: seq<T>, sv: seq<T>, su: seq<T>, ul: seq<T>, ud: seq<T>,
                   dh: seq<T>, dc: seq<T>, dl: seq<T>, h: seq<T>, p: seq<T>, close: seq<T>)
    ensures oh + fc + hc + sv + su + fc + hc + ul + ud + dh + dc + dl + h + p + close
         == oh + (fc + hc + sv) + su + (fc + hc + ul) + ud + (dh + dc + dl) + (h + p + close)
  {
  }

  // ---------------------------------------------------------------------
  // What the controller text promises

  /** The rest of the controller after the `destroy` hooks. */
  function ControllerTail(modelName: string, fields: seq<Field>): seq<string>
  {
    var lower := ToLower(modelName);
    Helpers(modelName, lower, RuleLines(RuleInput(fields)), FillLines(lower, Filter(IsNotRelation, fields)))
    + FileMethodPairs(modelName, lower, Filter(IsFile, fields)) + ["}"]
  }

  /** In `store`, the handle calls come right after the fill call and right
      before the save. */
  lemma StoreHookPlacement(modelName: string, modelNamespace: string, controllerNamespace: string,
                           baseController: string, fields: seq<Field>)
    ensures var lower := ToLower(modelName);
      Occurs(ControllerLines(modelName, modelNamespace, controllerNamespace, baseController, fields),
             [FillCall(lower)] + HandleCalls(lower, Filter(IsFile, fields)) + [SaveLine(lower)])
  {
    var lower := ToLower(modelName);
    var files := Filter(IsFile, fields);
    ConcatSeven(ControllerLines(modelName, modelNamespace, controllerNamespace, baseController, fields),
                OpeningHead(modelName, lower, modelNamespace, controllerNamespace, baseController),
                StoreHooks(lower, files), StoreToUpdate(modelName, lower), UpdateHooks(lower, files),
                UpdateToDestroy(modelName, lower), DestroyHooks(modelName, lower, files),
                ControllerTail(modelName, fields));
    OccursInMiddle(OpeningHead(modelName, lower, modelNamespace, controllerNamespace, baseController),
                   StoreHooks(lower, files),
                   StoreToUpdate(modelName, lower) + UpdateHooks(lower, files) + UpdateToDestroy(modelName, lower)
                   + DestroyHooks(modelName, lower, files) + ControllerTail(modelName, fields));
  }

  /** In `update`, the handle calls come right after the fill call and right
      before `->update()`. */
  lemma UpdateHookPlacement(modelName: string, modelNamespace: string, controllerNamespace: string,
                            baseController: string, fields: seq<Field>)
    ensures var lower := ToLower(modelName);
      Occurs(ControllerLines(modelName, modelNamespace, controllerNamespace, baseController, fields),
             [FillCall(lower)] + HandleCalls(lower, Filter(IsFile, fields)) + [UpdateLine(lower)])
  {
    var lower := ToLower(modelName);
    var files := Filter(IsFile, fields);
    ConcatSeven(ControllerLines(modelName, modelNamespace, controllerNamespace, baseController, fields),
                OpeningHead(modelName, lower, modelNamespace, controllerNamespace, baseController),
                StoreHooks(lower, files), StoreToUpdate(modelName, lower), UpdateHooks(lower, files),
                UpdateToDestroy(modelName, lower), DestroyHooks(modelName, lower, files),
                ControllerTail(modelName, fields));
    OccursInMiddle(OpeningHead(modelName, lower, modelNamespace, controllerNamespace, baseController)
                   + StoreHooks(lower, files) + StoreToUpdate(modelName, lower),
                   UpdateHooks(lower, files),
                   UpdateToDestroy(modelName, lower) + DestroyHooks(modelName, lower, files) + ControllerTail(modelName, fields));
  }

  /** In `destroy`, the delete calls come right after the `try {` and right
      before `->delete()`. */
  lemma DestroyHookPlacement(modelName: string, modelNamespace: string, controllerNamespace: string,
                             baseController: string, fields: seq<Field>)
    ensures var lower := ToLower(modelName);
      Occurs(ControllerLines(modelName, modelNamespace, controllerNamespace, baseController, fields),
             DestroyHead(modelName, lower) + DeleteCalls(lower, Filter(IsFile, fields)) + [DeleteLine(lower)])
  {
    var lower := ToLower(modelName);
    var files := Filter(IsFile, fields);
    ConcatSeven(ControllerLines(modelName, modelNamespace, controllerNamespace, baseController, fields),
                OpeningHead(modelName, lower, modelNamespace, controllerNamespace, baseController),
                StoreHooks(lower, files), StoreToUpdate(modelName, lower), UpdateHooks(lower, files),
                UpdateToDestroy(modelName, lower), DestroyHooks(modelName, lower, files),
                ControllerTail(modelName, fields));
    OccursInMiddle(OpeningHead(modelName, lower, modelNamespace, controllerNamespace, baseController)
                   + StoreHooks(lower, files) + StoreToUpdate(modelName, lower) + UpdateHooks(lower, files)
                   + UpdateToDestroy(modelName, lower),
                   DestroyHooks(modelName, lower, files),
                   ControllerTail(modelName, fields));
  }

  /** Regrouping a concatenation around each of its middle parts. */
  lemma ConcatSeven<T>(code: seq<T>, a: seq<T>, b: seq<T>, c: seq<T>, d: seq<T>,
                       e: seq<T>, f: seq<T>, g: seq<T>)
    requires code == a + b + c + d + e + f + g
    ensures code == a + b + (c + d + e + f + g)
    ensures code == (a + b + c) + d + (e + f + g)
    ensures code == (a + b + c + d + e) + f + g
  {
  }

  /** Every file field, and only a file field, gets a handle call in
      `store` and `update` and a delete call in `destroy`, in field order. */
  lemma HooksOnePerFileField(lower: string, fields: seq<Field>)
    ensures |HandleCalls(lower, Filter(IsFile, fields))| == |Filter(IsFile, fields)|
    ensures |DeleteCalls(lower, Filter(IsFile, fields))| == |Filter(IsFile, fields)|
    ensures forall f :: f in fields && IsFile(f) ==>
              HandleCall(lower, f) in HandleCalls(lower, Filter(IsFile, fields)) &&
              DeleteCall(lower, f) in DeleteCalls(lower, Filter(IsFile, fields))
    ensures forall j :: 0 <= j < |Filter(IsFile, fields)| ==>
              Filter(IsFile, fields)[j].kind == FileType &&
              HandleCalls(lower, Filter(IsFile, fields))[j] == HandleCall(lower, Filter(IsFile, fields)[j]) &&
              DeleteCalls(lower, Filter(IsFile, fields))[j] == DeleteCall(lower, Filter(IsFile, fields)[j])
  {
    var files := Filter(IsFile, fields);
    HandleCallsInOrder(lower, files);
    DeleteCallsInOrder(lower, files);
    forall f | f in fields && IsFile(f)
      ensures HandleCall(lower, f) in HandleCalls(lower, files) && DeleteCall(lower, f) in DeleteCalls(lower, files)
    {
      var j :| 0 <= j < |files| && files[j] == f;
      assert HandleCalls(lower, files)[j] == HandleCall(lower, f);
      assert DeleteCalls(lower, files)[j] == DeleteCall(lower, f);
    }
    forall j | 0 <= j < |files| ensures files[j].kind == FileType {
      assert files[j] in files;
    }
  }

  /** The validation rules cover the non-relation fields first and then the
      belongsTo relations, each group in field order; other relations get no
      rule. */
  lemma RulesCoverColumns(fields: seq<Field>)
    ensures RuleLines(RuleInput(fields)) ==
              RuleLines(Filter(IsNotRelation, fields)) + RuleLines(Filter(IsBelongsTo, fields))
    ensures forall f :: f in RuleInput(fields) <==> f in fields && IsPersisted(f)
  {
    RuleLinesAppend(Filter(IsNotRelation, fields), Filter(IsBelongsTo, fields));
  }

  /** fillRequestData assigns every non-relation, non-system field, whether
      or not the field is marked fillable, and nothing else. */
  lemma FillCoversRegularFields(lower: string, fields: seq<Field>)
    ensures forall f :: f in fields && IsNotRelation(f) && IsUserField(f) ==>
              FillLine(lower, f) in FillLines(lower, Filter(IsNotRelation, fields))
    ensures forall line :: line in FillLines(lower, Filter(IsNotRelation, fields)) ==>
              exists f :: f in fields && IsNotRelation(f) && IsUserField(f) && line == FillLine(lower, f)
  {
    var regular := Filter(IsNotRelation, fields);
    var g := f => FillLine(lower, f);
    FillLinesOnePerUserField(lower, regular);
    forall f | f in fields && IsNotRelation(f) && IsUserField(f)
      ensures FillLine(lower, f) in FillLines(lower, regular)
    {
      MapMember(g, Filter(IsUserField, regular), f);
    }
    forall line | line in FillLines(lower, regular)
      ensures exists f :: f in fields && IsNotRelation(f) && IsUserField(f) && line == FillLine(lower, f)
    {
      MapOrigin(g, Filter(IsUserField, regular), line);
    }
  }
}
