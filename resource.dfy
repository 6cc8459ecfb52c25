/**
 * generateResourceCode (assets/js/resource-generator.js): an API resource
 * whose `toArray` returns one `'<name>' => $this-><name>,` entry per field
 * that is not a system field, in field order. The text is a sequence of
 * lines with the indentation removed, blank lines and the doc comment left
 * out.
 */
module ResourceGenerator {
  import opened Text
  import opened Seqs
  import opened Fields

  /** `'<name>' => $this-><name>,` */
  function ResourceEntry(f: Field): string
  {
    "'" + f.name + "' => $this->" + f.name + ","
  }

  /** The entries: the fields without `id`/`created_at`/`updated_at`, nothing
      else filtered out. */
  function ResourceEntries(fields: seq<Field>): seq<string>
  {
    Map(ResourceEntry, Filter(IsUserField, fields))
  }

  function ClassLine(modelName: string): string
  {
    "class " + (modelName + "Resource") + " extends JsonResource"
  }

  function ResourceLines(modelName: string, fields: seq<Field>): seq<string>
  {
    ["<?php", "namespace App\\Http\\Resources;", "use Illuminate\\Http\\Resources\\Json\\JsonResource;",
     ClassLine(modelName), "{", "public function toArray($request)", "{", "return ["]
    + ResourceEntries(fields) + ["];", "}", "}"]
  }

  /** The length of an entry without its name, twice over: `'`, then
      `' => $this->`, then `,`. */
  const EntryOverhead: nat := 14

  /** The key of an entry line: the text between the first quote and the
      closing quote, found from the line's length. */
  function EntryKey(line: string): string
  {
    if |line| >= EntryOverhead then line[1..1 + (|line| - EntryOverhead) / 2] else ""
  }

  /** The property an entry line reads: what follows `$this->`. */
  function EntryProperty(line: string): string
  {
    if |line| >= EntryOverhead then
      var n := (|line| - EntryOverhead) / 2;
      line[n + 13..2 * n + 13]
    else ""
  }

  /** Reading an entry back gives the field name both as the key and as the
      property: each entry maps a name to the same-named attribute. */
  lemma EntryRoundTrip(f: Field)
    ensures EntryKey(ResourceEntry(f)) == f.name
    ensures EntryProperty(ResourceEntry(f)) == f.name
  {
    var n := f.name;
    var line := ResourceEntry(f);
    assert line == "'" + n + "' => $this->" + n + ",";
    assert |line| == 2 * |n| + EntryOverhead;
    assert (|line| - EntryOverhead) / 2 == |n|;
    assert line[1..1 + |n|] == n;
    assert line[|n| + 13..2 * |n| + 13] == n;
  }

  /** Different names give different entries. */
  lemma EntryInjective(f: Field, g: Field)
    ensures ResourceEntry(f) == ResourceEntry(g) <==> f.name == g.name
  {
    if ResourceEntry(f) == ResourceEntry(g) {
      EntryRoundTrip(f);
      EntryRoundTrip(g);
    }
  }

  /** The entry keys, in order, are the names of the non-system fields in
      input order: one entry per such field, relations and non-fillable
      fields included. */
  lemma EntryKeysInOrder(fields: seq<Field>)
    ensures Map(EntryKey, ResourceEntries(fields)) == Map(FieldName, Filter(IsUserField, fields))
  {
    var users := Filter(IsUserField, fields);
    forall f | f in users ensures EntryKey(ResourceEntry(f)) == FieldName(f) {
      EntryRoundTrip(f);
    }
    MapCompose(EntryKey, ResourceEntry, FieldName, users);
  }

  function FieldName(f: Field): string { f.name }

  /** A field of the input has its entry exactly when its name is not a
      system name. */
  lemma EntryIffNotSystem(fields: seq<Field>, f: Field)
    requires f in fields
    ensures ResourceEntry(f) in ResourceEntries(fields) <==> !IsSystemName(f.name)
  {
    var users := Filter(IsUserField, fields);
    if !IsSystemName(f.name) {
      MapMember(ResourceEntry, users, f);
    }
    if ResourceEntry(f) in ResourceEntries(fields) {
      MapOrigin(ResourceEntry, users, ResourceEntry(f));
      var g :| g in users && ResourceEntry(f) == ResourceEntry(g);
      EntryInjective(f, g);
    }
  }

  /** The class is `<Model>Resource`, and the entries sit inside
      `return [ ... ];`. */
  lemma ResourceLayout(modelName: string, fields: seq<Field>)
    ensures var lines := ResourceLines(modelName, fields);
            var n := |ResourceEntries(fields)|;
            && |lines| == 11 + n
            && lines[3] == ClassLine(modelName)
            && lines[7] == "return ["
            && lines[8..8 + n] == ResourceEntries(fields)
            && lines[8 + n] == "];"
  {
  }
}
