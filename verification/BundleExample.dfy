// Two files: the root exports a schema of a file in a subdirectory, and that schema refers to itself by
// a path that leaves the subdirectory and enters it again.
module BundleExample {
  import opened Wrappers
  import opened JsonPointer
  import opened ReferencePlaces
  import opened OpenApiBundle
  import opened BundleDocument
  import opened BundleClosed
  import opened BundleMeaning

  const ROOT: File := ["r"]
  const OTHER: File := ["d", "f"]
  const NODE: Target := Target(OTHER, ["N"])
  const AT: Entry := ("s", "N")
  const DOWN := "d/f#/N"
  const BACK := "../d/f#/N"

  function ToNode(ref: string): Json {
    Object(map["$ref" := Text(ref)])
  }

  function Schema(): Json {
    Object(map["next" := ToNode(BACK)])
  }

  function Schemas(): Json {
    Object(map["N" := Schema()])
  }

  function Entries(): Json {
    Object(map["N" := ToNode(DOWN)])
  }

  function Sections(): Json {
    Object(map["s" := Entries()])
  }

  function Root(): Json {
    Object(map["components" := Sections()])
  }

  function Cyclic(): Contract {
    Contract(map[ROOT := Root(), OTHER := Schemas()], ROOT, map[NODE := PointerTo(AT)])
  }

  lemma {:induction false} NodePointer()
    ensures Pointer(["N"]) == "/N" && QuotedAs("/N", "/N")
  {
    EncodePlain("N");
    assert ["N"][1..] == [];
    PlainQuoted("/N");
  }

  lemma {:induction false} DownPlace()
    ensures Canonical(DOWN, ROOT, []) == Ok(NODE)
  {
    hide Canonical, PathText, Ups, QuotedAs, Pointer;
    NodePointer();
    PlacesRelatively([], [], [], "r", OTHER, "/N", ["N"]);
    PathOf();
    assert Ups(0) + OTHER == OTHER && [] + [] + ["r"] == ROOT && [] + OTHER == OTHER;
    assert "d/f" + "#" + "/N" == DOWN;
  }

  lemma {:induction false} BackPlace()
    ensures Canonical(BACK, OTHER, []) == Ok(NODE)
  {
    hide Canonical, Pointer;
    NodePointer();
    PlacesAcross([], "d", "f", "d", "f", ["N"]);
    assert [] + ["d", "f"] == OTHER;
    assert "../" + "d" + "/" + "f" + "#" + "/N" == BACK;
  }

  lemma {:induction false} PathOf()
    ensures PathText(OTHER) == "d/f"
  {
    assert OTHER[1..] == ["f"];
  }

  // Both references lead to the schema, each from its own file.
  lemma {:induction false} NodePlaced()
    ensures Place(DOWN, ROOT, Cyclic()) == Ok(NODE) && Place(BACK, OTHER, Cyclic()) == Ok(NODE)
  {
    hide Canonical;
    DownPlace();
    BackPlace();
    assert Parent(ROOT) == [];
  }

  lemma {:induction false} OneEntry(at: Entry)
    ensures RefOf(Sections(), at) == if at == AT then Some(DOWN) else None
    ensures Components(Cyclic().docs, ROOT) == Sections()
  {
  }

  lemma {:induction false} CyclicConstructed()
    ensures Constructed(Cyclic())
  {
    hide Canonical, PointerTo, RefOf;
    var c := Cyclic();
    NodePlaced();
    OneEntry(AT);
    assert NODE in c.exports && c.exports[NODE] == PointerTo(AT);
    assert Claims(Sections(), ROOT, AT, NODE, c.exports[NODE]);
    forall at | at in AllEntries(Sections()) ensures at == AT {
      OneEntry(at);
    }
    assert AT in AllEntries(Sections());
    assert Shaped(Sections());
    assert TableOf(Sections(), ROOT, AllEntries(Sections()), c.exports);
  }

  lemma {:induction false} CyclicPlain()
    ensures DocsPlain(Cyclic())
  {
    assert RefPlain(ToNode(DOWN)) && RefPlain(ToNode(BACK));
    assert RefPlain(Schema()) && RefPlain(Schemas()) && RefPlain(Entries()) && RefPlain(Sections()) && RefPlain(Root());
  }

  lemma {:induction false} NodeRefs(ref: string)
    ensures RefStrings(ToNode(ref)) == {ref}
  {
    assert ToNode(ref).fields["$ref"].text == ref;
  }

  lemma {:induction false} MoreRefs()
    ensures RefStrings(Schema()) == {BACK} && RefStrings(Schemas()) == {BACK} && RefStrings(Entries()) == {DOWN}
  {
    hide ToNode;
    NodeRefs(DOWN);
    NodeRefs(BACK);
    assert Schema().fields["next"] == ToNode(BACK);
    assert Schemas().fields["N"] == Schema() && Entries().fields["N"] == ToNode(DOWN);
  }

  lemma {:induction false} RootRefs()
    ensures RefStrings(Root()) == {DOWN}
  {
    hide Entries;
    MoreRefs();
    assert Sections().fields["s"] == Entries();
    assert RefStrings(Sections()) == {DOWN};
    assert Root().fields["components"] == Sections();
  }

  lemma {:induction false} CyclicInside()
    ensures Inside(Cyclic(), Schema(), OTHER) && Inside(Cyclic(), ToNode(BACK), OTHER) && Inside(Cyclic(), ToNode(DOWN), ROOT)
            && Inside(Cyclic(), Entries(), ROOT)
    ensures Resolve(Schemas(), ["N"]) == Ok(Schema())
  {
    hide RefStrings, ToNode, Schema, Entries, Root;
    NodeRefs(DOWN);
    NodeRefs(BACK);
    MoreRefs();
    RootRefs();
    assert Cyclic().docs[OTHER] == Schemas() && Cyclic().docs[ROOT] == Root();
    assert BACK in AllRefs(Cyclic().docs) && DOWN in AllRefs(Cyclic().docs);
    assert ["N"][1..] == [];
  }

  lemma {:induction false} NodeWalks(stack: seq<Target>)
    ensures Inside(Cyclic(), ToNode(BACK), OTHER) && Walk(Cyclic(), ToNode(BACK), OTHER, stack).Ok?
  {
    hide Canonical, PointerTo, Place, Resolve, Inside;
    CyclicInside();
    NodePlaced();
    assert ToNode(BACK).fields.Keys - {"$ref"} == {};
    assert WalkFields(Cyclic(), ToNode(BACK), {}, OTHER, stack).Ok?;
    assert WalkRef(Cyclic(), ToNode(BACK), OTHER, stack).Ok?;
  }

  // The schema's reference to itself is redirected, so the walk comes to an end.
  lemma {:induction false} SchemaWalks()
    ensures Inside(Cyclic(), Schema(), OTHER) && Walk(Cyclic(), Schema(), OTHER, [NODE]).Ok?
  {
    hide Inside, ToNode, WalkRef, Cyclic;
    CyclicInside();
    NodeWalks([NODE]);
    assert Schema().fields.Keys == {"next"} && Schema().fields["next"] == ToNode(BACK);
    assert WalkFields(Cyclic(), Schema(), {"next"}, OTHER, [NODE]).Ok?;
  }

  lemma {:induction false} EntryBundles()
    ensures Inside(Cyclic(), Schema(), OTHER) && Walk(Cyclic(), Schema(), OTHER, [NODE]).Ok?
    ensures Inside(Cyclic(), ToNode(DOWN), ROOT) && BundleEntry(Cyclic(), ToNode(DOWN)) == Walk(Cyclic(), Schema(), OTHER, [NODE])
  {
    hide Canonical, PointerTo, Place, Walk;
    CyclicInside();
    NodePlaced();
    SchemaWalks();
    assert ToNode(DOWN).fields.Keys - {"$ref"} == {};
    assert WalkFields(Cyclic(), ToNode(DOWN), {}, ROOT, []).Ok?;
    assert WalkFields(Cyclic(), ToNode(DOWN), {}, ROOT, []).value.Keys == {};
  }

  ghost function Bundle(): Json
    requires Inside(Cyclic(), Schema(), OTHER) && Walk(Cyclic(), Schema(), OTHER, [NODE]).Ok?
  {
    Object(map["components" := Object(map["s" := Object(map["N" := Walk(Cyclic(), Schema(), OTHER, [NODE]).value])]), GENERATED := NOTICE])
  }

  lemma {:induction false} CyclicBundles()
    ensures Inside(Cyclic(), Schema(), OTHER) && Walk(Cyclic(), Schema(), OTHER, [NODE]).Ok?
    ensures IsBundle(Cyclic(), Bundle())
  {
    hide Canonical, PointerTo, Place, Walk, BundleEntry, Inside, ToNode, Schema, RefStrings;
    EntryBundles();
    CyclicInside();
    assert SectionBundled(Cyclic(), Entries(), Bundle().fields["components"].fields["s"]);
  }

  lemma {:induction false} CyclicSafe()
    ensures PointerSafe(Cyclic())
  {
    hide Canonical, PointerTo, NameSafe, DocsPlain, IsExportTable;
    CyclicConstructed();
    CyclicPlain();
    OneEntry(AT);
    SafeNames();
  }

  // A contract with a cycle through two files, and its bundle, keep to all conditions of the preservation theorem.
  lemma {:induction false} FaithfulExists() returns (b: Json)
    ensures Faithful(Cyclic(), b)
  {
    hide IsBundle, PointerSafe, EntriesBare, Walk, Inside;
    CyclicConstructed();
    CyclicBundles();
    CyclicSafe();
    CyclicBare();
    b := Bundle();
  }

  lemma {:induction false} CyclicBare()
    requires Constructed(Cyclic())
    ensures EntriesBare(Cyclic())
  {
    hide Canonical, PointerTo, Constructed;
    forall at: Entry | RefOf(Sections(), at).Some? ensures Sections().fields[at.0].fields[at.1].fields.Keys == {"$ref"} {
      OneEntry(at);
    }
    OneEntry(AT);
  }

  lemma {:induction false} SafeNames()
    ensures NameSafe("s") && NameSafe("N")
  {
  }
}
