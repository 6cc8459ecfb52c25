/**
 * generateCommandsCode (assets/js/commands-generator.js): the artisan
 * commands that create the generated files, each group under a `#`
 * comment. Blank lines are left out.
 */
module CommandsGenerator {
  import opened Text
  import opened Seqs

  const Artisan := "php artisan "

  /** `php artisan <args>` */
  function Command(args: string): string { Artisan + args }

  /** `# <title>` */
  function Comment(title: string): string { "# " + title }

  function MigrationCommand(modelName: string): string
  {
    Command("make:migration create_" + ToLower(modelName) + "_table")
  }

  function ModelCommand(modelName: string): string { Command("make:model " + modelName) }

  function ControllerCommand(modelName: string): string
  {
    Command("make:controller " + (modelName + "Controller") + " --resource")
  }

  function SeederCommand(modelName: string): string { Command("make:seeder " + (modelName + "Seeder")) }

  function ResourceCommand(modelName: string): string { Command("make:resource " + (modelName + "Resource")) }

  const MigrateCommand := Command("migrate:fresh --seed")

  function CommandLines(modelName: string): seq<string>
  {
    [Comment("Migration and Model"), MigrationCommand(modelName), ModelCommand(modelName),
     Comment("Controller"), ControllerCommand(modelName),
     Comment("Seeder"), SeederCommand(modelName),
     Comment("API Resource"), ResourceCommand(modelName),
     Comment("Run migrations with seed"), MigrateCommand]
  }

  /** The six commands, in the order they are listed. */
  function Commands(modelName: string): seq<string>
  {
    [MigrationCommand(modelName), ModelCommand(modelName), ControllerCommand(modelName),
     SeederCommand(modelName), ResourceCommand(modelName), MigrateCommand]
  }

  predicate IsCommand(line: string)
  {
    StartsWith(line, Artisan)
  }

  /** Every command line is a command and no comment line is. */
  lemma CommandOrComment(args: string, title: string)
    ensures IsCommand(Command(args))
    ensures !IsCommand(Comment(title))
  {
    StartsWithConcat(Artisan, args);
    assert Comment(title)[0] == '#';
  }

  /** The commands, comments dropped, in the fixed order: migration, model,
      controller, seeder, resource, then `migrate:fresh --seed`. */
  lemma CommandsInOrder(modelName: string)
    ensures Filter(IsCommand, CommandLines(modelName)) == Commands(modelName)
  {
    var m := modelName;
    var c := Commands(m);
    var g1 := [Comment("Migration and Model"), c[0]];
    var g2 := [c[1]];
    var g3 := [Comment("Controller"), c[2]];
    var g4 := [Comment("Seeder"), c[3]];
    var g5 := [Comment("API Resource"), c[4]];
    var g6 := [Comment("Run migrations with seed"), c[5]];
    assert CommandLines(m) == g1 + g2 + g3 + g4 + g5 + g6;
    CommandOrComment("make:migration create_" + ToLower(m) + "_table", "Migration and Model");
    CommandOrComment("make:model " + m, "Controller");
    CommandOrComment("make:controller " + (m + "Controller") + " --resource", "Seeder");
    CommandOrComment("make:seeder " + (m + "Seeder"), "API Resource");
    CommandOrComment("make:resource " + (m + "Resource"), "Run migrations with seed");
    CommandOrComment("migrate:fresh --seed", "");
    CommentThenCommand(g1);
    assert DropLast(g2) == [];
    CommentThenCommand(g3);
    CommentThenCommand(g4);
    CommentThenCommand(g5);
    CommentThenCommand(g6);
    FilterGroups(IsCommand, g1, g2, g3, g4, g5, g6);
    Singletons(Filter(IsCommand, g1), Filter(IsCommand, g2), Filter(IsCommand, g3),
               Filter(IsCommand, g4), Filter(IsCommand, g5), Filter(IsCommand, g6),
               c[0], c[1], c[2], c[3], c[4], c[5]);
  }

  /** Filtering a concatenation of six groups filters each group. */
  lemma FilterGroups<T(!new)>(p: T -> bool, g1: seq<T>, g2: seq<T>, g3: seq<T>, g4: seq<T>, g5: seq<T>, g6: seq<T>)
    ensures Filter(p, g1 + g2 + g3 + g4 + g5 + g6) ==
              Filter(p, g1) + Filter(p, g2) + Filter(p, g3) + Filter(p, g4) + Filter(p, g5) + Filter(p, g6)
  {
    FilterAppend(p, g1, g2);
    FilterAppend(p, g1 + g2, g3);
    FilterAppend(p, g1 + g2 + g3, g4);
    FilterAppend(p, g1 + g2 + g3 + g4, g5);
    FilterAppend(p, g1 + g2 + g3 + g4 + g5, g6);
  }

  lemma Singletons<T>(r1: seq<T>, r2: seq<T>, r3: seq<T>, r4: seq<T>, r5: seq<T>, r6: seq<T>,
                      c1: T, c2: T, c3: T, c4: T, c5: T, c6: T)
    requires r1 == [c1] && r2 == [c2] && r3 == [c3] && r4 == [c4] && r5 == [c5] && r6 == [c6]
    ensures r1 + r2 + r3 + r4 + r5 + r6 == [c1, c2, c3, c4, c5, c6]
  {
  }

  /** A group of a comment and one command keeps only the command. */
  lemma CommentThenCommand(g: seq<string>)
    requires |g| == 2 && !IsCommand(g[0]) && IsCommand(g[1])
    ensures Filter(IsCommand, g) == [g[1]]
  {
    assert DropLast(g) == [g[0]];
    assert DropLast([g[0]]) == [];
  }
}
