/**
 * How the generated files refer to one another. Each generator builds its
 * names from the model name on its own; these lemmas check that the names
 * one file uses are the names another file declares.
 */
module Consistency {
  import opened Text
  import opened Seqs
  import opened Fields
  import ControllerGenerator
  import ModelGenerator
  import SeederGenerator
  import ResourceGenerator
  import RoutesGenerator
  import CommandsGenerator

  /** The route name prefix `<lower>s` of the resource route is the one the
      controller's `redirect()->route('<lower>s.index')` calls name, and the
      model's `$table` is the same plural. */
  lemma RouteNamesMatch(modelName: string, includeAuthMiddleware: bool)
    ensures var name := RoutesGenerator.ResourceName(modelName);
            && ControllerGenerator.IndexRoute(ToLower(modelName)) == "return redirect()->route('" + name + ".index')"
            && Contains(RoutesGenerator.RouteLine(modelName, includeAuthMiddleware), RoutesGenerator.Quoted(name))
            && ModelGenerator.TableLine(modelName) == "protected $table = " + RoutesGenerator.Quoted(name) + ";"
  {
    var lower := ToLower(modelName);
    var name := RoutesGenerator.ResourceName(modelName);
    assert "return redirect()->route('" + lower + "s.index')" == "return redirect()->route('" + (lower + "s") + ".index')";
    assert "protected $table = '" + lower + "s';" == "protected $table = " + ("'" + (lower + "s") + "'") + ";";
    RoutesGenerator.ControllerImportedAndReferenced(modelName, includeAuthMiddleware);
  }

  /** The artisan commands create the classes the other generators declare:
      `<Model>Controller` (the controller class and the class the route
      points at), `<Model>Seeder` and `<Model>Resource`. */
  lemma CommandsCreateDeclaredClasses(modelName: string, baseController: string)
    ensures var c := RoutesGenerator.ControllerClass(modelName);
            && CommandsGenerator.ControllerCommand(modelName) == CommandsGenerator.Command("make:controller " + c + " --resource")
            && ControllerGenerator.ClassLine(modelName, baseController) == "class " + c + " extends " + baseController
    ensures var c := modelName + "Seeder";
            && CommandsGenerator.SeederCommand(modelName) == CommandsGenerator.Command("make:seeder " + c)
            && SeederGenerator.ClassLine(modelName) == "class " + c + " extends Seeder"
    ensures var c := modelName + "Resource";
            && CommandsGenerator.ResourceCommand(modelName) == CommandsGenerator.Command("make:resource " + c)
            && ResourceGenerator.ClassLine(modelName) == "class " + c + " extends JsonResource"
  {
  }

  /** For the `j`-th file field, the model declares `<NAME>_PATH` on its
      `j`-th constant line and reads it as `self::<NAME>_PATH` in its `j`-th
      URL accessor. */
  lemma ModelDeclaresAndReadsConstant(files: seq<Field>, j: nat)
    requires j < |files|
    ensures StartsWith(ModelGenerator.ConstLines(files)[j], "public const " + PathConst(files[j].name) + " = ")
    ensures Contains(ModelGenerator.UrlAccessors(files)[4 * j + 2], "self::" + PathConst(files[j].name))
  {
    var f := files[j];
    ModelGenerator.ConstLinesInOrder(files);
    ModelGenerator.AccessorUsesConstant(f);
    ModelGenerator.UrlAccessorsInOrder(files);
    BlockElement(ModelGenerator.UrlAccessors(files), 4 * j, ModelGenerator.UrlAccessor(f), 2);
  }

  /** The controller's `j`-th handle/delete pair uses `<Model>::<NAME>_PATH`
      of the `j`-th file field in both of its methods. */
  lemma ControllerUsesConstant(modelName: string, lower: string, files: seq<Field>, j: nat)
    requires j < |files|
    ensures var pairs := ControllerGenerator.FileMethodPairs(modelName, lower, files);
            && Contains(pairs[ControllerGenerator.PairLength * j + 5], modelName + "::" + PathConst(files[j].name))
            && Contains(pairs[ControllerGenerator.PairLength * j + 12], modelName + "::" + PathConst(files[j].name))
  {
    var f := files[j];
    ControllerGenerator.FileMethodPairsInOrder(modelName, lower, files);
    var pairs := ControllerGenerator.FileMethodPairs(modelName, lower, files);
    var pair := ControllerGenerator.FileMethodPair(modelName, lower, f);
    ControllerGenerator.PairUsesPathConstant(modelName, lower, f);
    BlockElement(pairs, ControllerGenerator.PairLength * j, pair, 5);
    BlockElement(pairs, ControllerGenerator.PairLength * j, pair, 12);
  }

  /** Both generators take the file fields with the same filter, so the
      `j`-th constant the model declares is the one the controller's `j`-th
      method pair uses. */
  lemma FilePathConstantsAgree(modelName: string, fields: seq<Field>, j: nat)
    requires j < |Filter(IsFile, fields)|
    ensures var files := Filter(IsFile, fields);
            var key := PathConst(files[j].name);
            var pairs := ControllerGenerator.FileMethodPairs(modelName, ToLower(modelName), files);
            && StartsWith(ModelGenerator.ConstLines(files)[j], "public const " + key + " = ")
            && Contains(pairs[ControllerGenerator.PairLength * j + 5], modelName + "::" + key)
            && Contains(pairs[ControllerGenerator.PairLength * j + 12], modelName + "::" + key)
  {
    var files := Filter(IsFile, fields);
    ModelDeclaresAndReadsConstant(files, j);
    ControllerUsesConstant(modelName, ToLower(modelName), files, j);
  }
}
