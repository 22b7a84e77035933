// The bundler of scripts/openapi_contract.py: it rewrites a graph of files linked
// by "$ref" into one document whose references all point at its own components.
module OpenApiBundle {
  import opened Wrappers
  import opened JsonPointer

  // What the constructor leaves behind: the documents, the root file, and the
  // component pointer each exported target is known under.
  datatype Contract = Contract(docs: map<File, Json>, root: File, exports: map<Target, string>)

  function Dir(c: Contract): File {
    Parent(c.root)
  }

  function Place(ref: string, file: File, c: Contract): Result<Target, Fault> {
    Canonical(ref, file, Dir(c))
  }

  // ------------------------------------------------------------------
  // The finite set of targets that bounds the recursion
  // ------------------------------------------------------------------

  ghost function AllRefs(docs: map<File, Json>): set<string> {
    set f, r | f in docs && r in RefStrings(docs[f]) :: r
  }

  ghost function AllTargets(c: Contract): set<Target> {
    set f, r | f in c.docs && r in AllRefs(c.docs) && Place(r, f, c).Ok? :: Place(r, f, c).value
  }

  ghost function Open(c: Contract, stack: seq<Target>): set<Target> {
    AllTargets(c) - (set t | t in stack)
  }

  // A value found inside the documents, read relative to one of the files.
  ghost predicate Inside(c: Contract, v: Json, file: File) {
    file in c.docs && RefStrings(v) <= AllRefs(c.docs)
  }

  lemma {:induction false} ResolvedRefs(document: Json, tokens: seq<string>)
    requires Resolve(document, tokens).Ok?
    ensures RefStrings(Resolve(document, tokens).value) <= RefStrings(document)
  {
    if tokens != [] {
      ResolvedRefs(Child(document, tokens[0]).value, tokens[1..]);
    }
  }

  lemma {:induction false} ResolvedInside(c: Contract, t: Target)
    requires t.file in c.docs && Resolve(c.docs[t.file], t.tokens).Ok?
    ensures Inside(c, Resolve(c.docs[t.file], t.tokens).value, t.file)
  {
    ResolvedRefs(c.docs[t.file], t.tokens);
  }

  lemma {:induction false} StackGrows(c: Contract, stack: seq<Target>, ref: string, file: File)
    requires file in c.docs && ref in AllRefs(c.docs)
    requires Place(ref, file, c).Ok? && Place(ref, file, c).value !in stack
    ensures |Open(c, stack + [Place(ref, file, c).value])| < |Open(c, stack)|
  {
    var t := Place(ref, file, c).value;
    assert t in Open(c, stack);
    assert Open(c, stack + [t]) == Open(c, stack) - {t};
  }

  // ------------------------------------------------------------------
  // _walk
  // ------------------------------------------------------------------

  function IndexOf(stack: seq<Target>, t: Target): (i: nat)
    requires t in stack
    ensures i < |stack| && stack[i] == t
  {
    if stack[0] == t then 0 else 1 + IndexOf(stack[1..], t)
  }

  // Err carries every fault the walk can stop at: which one is raised depends on
  // the key order of the mapping, which a map does not have.
  function Walk(c: Contract, v: Json, file: File, stack: seq<Target>): Result<Json, set<Fault>>
    requires Inside(c, v, file)
    decreases |Open(c, stack)|, v, 1
  {
    match v
    case List(items) => WalkItems(c, v, file, stack)
    case Object(fields) =>
      if IsRef(v) then WalkRef(c, v, file, stack)
      else
        (match WalkFields(c, v, fields.Keys, file, stack)
         case Err(e) => Err(e)
         case Ok(walked) => RewriteDiscriminator(c, walked, file))
    case _ => Ok(v)
  }

  // A reference: redirected when its target is exported, inlined otherwise.
  function WalkRef(c: Contract, v: Json, file: File, stack: seq<Target>): Result<Json, set<Fault>>
    requires IsRef(v) && Inside(c, v, file)
    decreases |Open(c, stack)|, v, 0, 1
  {
    var ref := v.fields["$ref"].text;
    match Place(ref, file, c)
    case Err(e) => Err({e})
    case Ok(t) =>
      match WalkFields(c, v, v.fields.Keys - {"$ref"}, file, stack)
      case Err(e) => Err(e)
      case Ok(siblings) =>
        if t in c.exports then Ok(Redirect(c.exports[t], siblings))
        else if t in stack then Err({Circular(stack[IndexOf(stack, t)..] + [t])})
        else if t.file !in c.docs then Err({MissingFile(t.file)})
        else match Resolve(c.docs[t.file], t.tokens)
          case Err(e) => Err({e})
          case Ok(target) =>
            ResolvedInside(c, t);
            StackGrows(c, stack, ref, file);
            match Walk(c, target, t.file, stack + [t])
            case Err(e) => Err(e)
            case Ok(m) => Merge(m, siblings, ref)
  }

  function WalkItems(c: Contract, v: Json, file: File, stack: seq<Target>): Result<Json, set<Fault>>
    requires v.List? && Inside(c, v, file)
    decreases |Open(c, stack)|, v, 0
  {
    var faults := set i, e | 0 <= i < |v.items| && Walk(c, v.items[i], file, stack).Err?
                             && e in Walk(c, v.items[i], file, stack).error :: e;
    if forall i | 0 <= i < |v.items| :: Walk(c, v.items[i], file, stack).Ok?
    then Ok(List(seq(|v.items|, i requires 0 <= i < |v.items| && Walk(c, v.items[i], file, stack).Ok? =>
                     Walk(c, v.items[i], file, stack).value)))
    else Err(faults)
  }

  function WalkFields(c: Contract, v: Json, keys: set<string>, file: File, stack: seq<Target>): Result<map<string, Json>, set<Fault>>
    requires v.Object? && keys <= v.fields.Keys && Inside(c, v, file)
    decreases |Open(c, stack)|, v, 0, 0
  {
    var faults := set k, e | k in keys && Walk(c, v.fields[k], file, stack).Err?
                             && e in Walk(c, v.fields[k], file, stack).error :: e;
    if forall k | k in keys :: Walk(c, v.fields[k], file, stack).Ok?
    then Ok(map k | k in keys :: Walk(c, v.fields[k], file, stack).value)
    else Err(faults)
  }

  // A reference to a component, with the siblings the original reference carried.
  function Redirect(pointer: string, siblings: map<string, Json>): Json {
    Object(map["$ref" := Text(pointer)] + siblings)
  }

  // dict.update on an inlined target; only a mapping can take siblings.
  function Merge(m: Json, siblings: map<string, Json>, ref: string): Result<Json, set<Fault>> {
    if siblings == map[] then Ok(m)
    else if m.Object? then Ok(Object(m.fields + siblings))
    else Err({ScalarSiblings(ref)})
  }

  function RewriteTag(c: Contract, target: Json, file: File): Result<Json, Fault> {
    if !target.Text? then Err(MalformedDiscriminator)
    else match Place(target.text, file, c)
      case Err(e) => Err(e)
      case Ok(t) =>
        if t !in c.exports then Err(UnexportedDiscriminator(t))
        else if t.file !in c.docs then Err(MissingFile(t.file))
        else match Resolve(c.docs[t.file], t.tokens)
          case Err(e) => Err(e)
          case Ok(_) => Ok(Text(c.exports[t]))
  }

  function RewriteDiscriminator(c: Contract, walked: map<string, Json>, file: File): Result<Json, set<Fault>> {
    if "discriminator" in walked && walked["discriminator"].Object?
       && "mapping" in walked["discriminator"].fields && walked["discriminator"].fields["mapping"].Object?
    then
      var tags := walked["discriminator"].fields["mapping"].fields;
      if forall k | k in tags :: RewriteTag(c, tags[k], file).Ok?
      then
        var mapping := Object(map k | k in tags :: RewriteTag(c, tags[k], file).value);
        Ok(Object(walked["discriminator" := Object(walked["discriminator"].fields["mapping" := mapping])]))
      else Err(set k | k in tags && RewriteTag(c, tags[k], file).Err? :: RewriteTag(c, tags[k], file).error)
    else Ok(Object(walked))
  }

  // ------------------------------------------------------------------
  // __init__: the export table
  // ------------------------------------------------------------------

  // The root document's "components" value; an empty mapping when it has none.
  function Components(docs: map<File, Json>, root: File): Json
    requires root in docs && docs[root].Object?
  {
    if "components" in docs[root].fields then docs[root].fields["components"] else Object(map[])
  }

  predicate Shaped(components: Json) {
    components.Object? && forall s | s in components.fields :: components.fields[s].Object?
  }

  // A component entry is named by its section and its name.
  type Entry = (string, string)

  // The reference string of an entry that is a reference.
  function RefOf(components: Json, at: Entry): Option<string> {
    if components.Object? && at.0 in components.fields && components.fields[at.0].Object?
       && at.1 in components.fields[at.0].fields && IsRef(components.fields[at.0].fields[at.1])
    then Some(components.fields[at.0].fields[at.1].fields["$ref"].text)
    else None
  }

  function PointerTo(at: Entry): string {
    ComponentPointer(at.0, at.1)
  }

  // Entry `at` points at t and is known under `pointer`.
  predicate Claims(components: Json, root: File, at: Entry, t: Target, pointer: string) {
    RefOf(components, at).Some?
    && Canonical(RefOf(components, at).value, root, Parent(root)) == Ok(t)
    && PointerTo(at) == pointer
  }

  // The table holds exactly the targets of the reference entries, each under that entry's pointer.
  ghost predicate IsExportTable(docs: map<File, Json>, root: File, table: map<Target, string>) {
    root in docs && docs[root].Object? && Shaped(Components(docs, root))
    && TableOf(Components(docs, root), root, AllEntries(Components(docs, root)), table)
  }

  ghost function AllEntries(components: Json): iset<Entry> {
    iset at: Entry | RefOf(components, at).Some?
  }

  ghost predicate TableOf(components: Json, root: File, entries: iset<Entry>, table: map<Target, string>) {
    (forall at | at in entries :: exists t :: t in table && Claims(components, root, at, t, table[t]))
    && (forall t | t in table :: exists at :: at in entries && Claims(components, root, at, t, table[t]))
  }

  lemma {:induction false} TableGrows(components: Json, root: File, entries: iset<Entry>, table: map<Target, string>, at: Entry, t: Target)
    requires TableOf(components, root, entries, table)
    requires Claims(components, root, at, t, PointerTo(at))
    requires t in table ==> table[t] == PointerTo(at)
    ensures TableOf(components, root, entries + iset{at}, table[t := PointerTo(at)])
  {
    hide Canonical, PointerTo, RefOf;
    var table' := table[t := PointerTo(at)];
    forall b | b in entries + iset{at} ensures exists u :: u in table' && Claims(components, root, b, u, table'[u]) {
      if b == at {
        assert Claims(components, root, b, t, table'[t]);
      } else {
        var u :| u in table && Claims(components, root, b, u, table[u]);
        assert Claims(components, root, b, u, table'[u]);
      }
    }
    forall u | u in table' ensures exists b :: b in entries + iset{at} && Claims(components, root, b, u, table'[u]) {
      if u == t {
        assert Claims(components, root, at, u, table'[u]);
      } else {
        var b :| b in entries && Claims(components, root, b, u, table[u]);
        assert b in entries + iset{at};
      }
    }
  }

  // Every reference entry is in the table, under its own pointer.
  lemma {:induction false} TableNames(docs: map<File, Json>, root: File, at: Entry, table: map<Target, string>) returns (t: Target)
    requires IsExportTable(docs, root, table) && RefOf(Components(docs, root), at).Some?
    ensures t in table && Claims(Components(docs, root), root, at, t, table[t])
  {
    hide Canonical, PointerTo, RefOf;
    assert at in AllEntries(Components(docs, root));
    t :| t in table && Claims(Components(docs, root), root, at, t, table[t]);
  }

  // Two entries that lead to one target under different pointers leave no table at all.
  lemma {:induction false} NoTableForTwo(docs: map<File, Json>, root: File, a: Entry, b: Entry, t: Target)
    requires root in docs && docs[root].Object?
    requires Claims(Components(docs, root), root, a, t, PointerTo(a)) && Claims(Components(docs, root), root, b, t, PointerTo(b))
    requires PointerTo(a) != PointerTo(b)
    ensures forall table :: !IsExportTable(docs, root, table)
  {
    hide Canonical, PointerTo, RefOf;
    forall table ensures !IsExportTable(docs, root, table) {
      if IsExportTable(docs, root, table) {
        var u := TableNames(docs, root, a, table);
        var w := TableNames(docs, root, b, table);
        assert false;
      }
    }
  }

  lemma {:induction false} NoTableWithoutPlace(docs: map<File, Json>, root: File, at: Entry)
    requires root in docs && docs[root].Object? && RefOf(Components(docs, root), at).Some?
    requires Canonical(RefOf(Components(docs, root), at).value, root, Parent(root)).Err?
    ensures forall table :: !IsExportTable(docs, root, table)
  {
    hide Canonical, PointerTo, RefOf;
    forall table ensures !IsExportTable(docs, root, table) {
      if IsExportTable(docs, root, table) {
        var u := TableNames(docs, root, at, table);
        assert false;
      }
    }
  }

  // setdefault for one entry, then the complaint when another entry already claimed its target.
  method ExportEntry(docs: map<File, Json>, root: File, at: Entry, ghost done: iset<Entry>, table: map<Target, string>)
    returns (r: Result<map<Target, string>, Fault>)
    requires root in docs && docs[root].Object? && RefOf(Components(docs, root), at).Some?
    requires TableOf(Components(docs, root), root, done, table)
    ensures r.Ok? ==> TableOf(Components(docs, root), root, done + iset{at}, r.value)
    ensures r.Err? ==> forall t :: !IsExportTable(docs, root, t)
  {
    var place := Canonical(RefOf(Components(docs, root), at).value, root, Parent(root));
    match place
    case Err(e) =>
      NoTableWithoutPlace(docs, root, at);
      return Err(e);
    case Ok(t) =>
      if t in table && table[t] != PointerTo(at) {
        ghost var other :| other in done && Claims(Components(docs, root), root, other, t, table[t]);
        NoTableForTwo(docs, root, at, other, t);
        return Err(ExportedTwice(t));
      }
      TableGrows(Components(docs, root), root, done, table, at, t);
      return Ok(table[t := PointerTo(at)]);
  }

  ghost function EntriesIn(components: Json, section: string, names: set<string>): iset<Entry> {
    iset n | n in names && RefOf(components, (section, n)).Some? :: (section, n)
  }

  // The inner loop, over the entries of one section.
  method ExportSection(docs: map<File, Json>, root: File, section: string, ghost seen: iset<Entry>, table: map<Target, string>)
    returns (r: Result<map<Target, string>, Fault>)
    requires root in docs && docs[root].Object? && Components(docs, root).Object?
    requires section in Components(docs, root).fields && Components(docs, root).fields[section].Object?
    requires TableOf(Components(docs, root), root, seen, table)
    ensures r.Ok? ==> TableOf(Components(docs, root), root,
                              seen + EntriesIn(Components(docs, root), section, Components(docs, root).fields[section].fields.Keys), r.value)
    ensures r.Err? ==> forall t :: !IsExportTable(docs, root, t)
  {
    hide Canonical, PointerTo, RefOf, IsExportTable, TableOf;
    var components := Components(docs, root);
    var all := components.fields[section].fields.Keys;
    var exports, names := table, all;
    assert seen + EntriesIn(components, section, all - names) == seen;
    while names != {}
      invariant names <= all
      invariant TableOf(components, root, seen + EntriesIn(components, section, all - names), exports)
      decreases names
    {
      var name :| name in names;
      ghost var done := seen + EntriesIn(components, section, all - names);
      names := names - {name};
      if RefOf(components, (section, name)).Some? {
        var next := ExportEntry(docs, root, (section, name), done, exports);
        if next.Err? {
          return Err(next.error);
        }
        exports := next.value;
        assert done + iset{(section, name)} == seen + EntriesIn(components, section, all - names);
      } else {
        assert done == seen + EntriesIn(components, section, all - names);
      }
    }
    assert all - names == all;
    return Ok(exports);
  }

  ghost function EntriesOf(components: Json, sections: set<string>): iset<Entry> {
    iset at: Entry | at.0 in sections && RefOf(components, at).Some?
  }

  // The constructor: a table exists exactly when every section is a mapping, every reference stays in
  // the contract directory with a readable fragment, and no target is exported under two pointers.
  method CollectExports(docs: map<File, Json>, root: File) returns (r: Result<map<Target, string>, Fault>)
    requires root in docs && docs[root].Object?
    ensures r.Ok? ==> IsExportTable(docs, root, r.value)
    ensures r.Err? ==> forall table :: !IsExportTable(docs, root, table)
  {
    var components := Components(docs, root);
    if !components.Object? {
      return Err(MalformedComponents);
    }
    var all := components.fields.Keys;
    var exports: map<Target, string>, sections := map[], all;
    assert EntriesOf(components, all - sections) == iset{};
    while sections != {}
      invariant sections <= all
      invariant forall s | s in all - sections :: components.fields[s].Object?
      invariant TableOf(components, root, EntriesOf(components, all - sections), exports)
      decreases sections
    {
      var section :| section in sections;
      if !components.fields[section].Object? {
        return Err(MalformedComponents);
      }
      ghost var seen := EntriesOf(components, all - sections);
      sections := sections - {section};
      var next := ExportSection(docs, root, section, seen, exports);
      if next.Err? {
        return Err(next.error);
      }
      exports := next.value;
      assert seen + EntriesIn(components, section, components.fields[section].fields.Keys) == EntriesOf(components, all - sections);
    }
    assert EntriesOf(components, all - sections) == AllEntries(components);
    return Ok(exports);
  }
}
