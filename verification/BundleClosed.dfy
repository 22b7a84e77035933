// A built bundle is closed: every reference in it is an exported component
// pointer, and resolves inside the bundle.
module BundleClosed {
  import opened Wrappers
  import opened JsonPointer
  import opened OpenApiBundle
  import opened BundleDocument

  // "$ref" may also be an ordinary key, with any value but another reference: inlining
  // that reference could leave a string where a reader would see a reference.
  ghost predicate RefPlain(v: Json) {
    match v
    case List(items) => forall i | 0 <= i < |items| :: RefPlain(items[i])
    case Object(fields) =>
      ("$ref" in fields ==> !IsRef(fields["$ref"])) && forall k | k in fields :: RefPlain(fields[k])
    case _ => true
  }

  ghost predicate DocsPlain(c: Contract) {
    forall f | f in c.docs :: RefPlain(c.docs[f])
  }

  lemma {:induction false} ResolvedPlain(document: Json, tokens: seq<string>)
    requires RefPlain(document) && Resolve(document, tokens).Ok?
    ensures RefPlain(Resolve(document, tokens).value)
  {
    if tokens != [] {
      ResolvedPlain(Child(document, tokens[0]).value, tokens[1..]);
    }
  }

  // A value that is not a reference keeps its shape.
  lemma {:induction false} WalkKeepsShape(c: Contract, v: Json, file: File, stack: seq<Target>)
    requires Inside(c, v, file) && !IsRef(v) && Walk(c, v, file, stack).Ok?
    ensures var b := Walk(c, v, file, stack).value;
            match v
            case Object(fields) => b.Object? && b.fields.Keys == fields.Keys
            case List(items) => b.List? && |b.items| == |items|
            case _ => b == v
  {
  }

  ghost predicate Exported(c: Contract, b: Json) {
    RefStrings(b) <= c.exports.Values
  }

  // Every reference the walk leaves in its result is an exported pointer.
  lemma {:induction false} WalkClosed(c: Contract, v: Json, file: File, stack: seq<Target>)
    requires DocsPlain(c) && RefPlain(v) && Inside(c, v, file) && Walk(c, v, file, stack).Ok?
    ensures Exported(c, Walk(c, v, file, stack).value)
    decreases |Open(c, stack)|, v
  {
    hide Canonical, RewriteDiscriminator, WalkRef;
    var b := Walk(c, v, file, stack).value;
    match v
    case List(items) =>
      forall i | 0 <= i < |items| ensures Exported(c, b.items[i]) {
        WalkClosed(c, items[i], file, stack);
      }
    case Object(fields) =>
      if IsRef(v) {
        RefClosed(c, v, file, stack);
      } else {
        FieldsClosed(c, v, fields.Keys, file, stack);
        if "$ref" in fields {
          FieldInside(c, v, file, "$ref");
          WalkKeepsShape(c, fields["$ref"], file, stack);
        }
        RewriteClosed(c, WalkFields(c, v, fields.Keys, file, stack).value, file);
      }
    case _ =>
  }

  lemma {:induction false} RefClosed(c: Contract, v: Json, file: File, stack: seq<Target>)
    requires DocsPlain(c) && RefPlain(v) && Inside(c, v, file) && IsRef(v) && WalkRef(c, v, file, stack).Ok?
    ensures Exported(c, WalkRef(c, v, file, stack).value)
    decreases |Open(c, stack)|, v, 1
  {
    hide Canonical, RewriteDiscriminator, Place, Merge, Redirect, Resolve, Walk;
    FieldsClosed(c, v, v.fields.Keys - {"$ref"}, file, stack);
    var siblings := WalkFields(c, v, v.fields.Keys - {"$ref"}, file, stack).value;
    var ref := v.fields["$ref"].text;
    var t := Place(ref, file, c).value;
    if t in c.exports {
      RedirectClosed(c, c.exports[t], siblings);
    } else {
      ResolvedInside(c, t);
      StackGrows(c, stack, ref, file);
      ResolvedPlain(c.docs[t.file], t.tokens);
      WalkClosed(c, Resolve(c.docs[t.file], t.tokens).value, t.file, stack + [t]);
      MergeClosed(c, Walk(c, Resolve(c.docs[t.file], t.tokens).value, t.file, stack + [t]).value, siblings, ref);
    }
  }

  lemma {:induction false} FieldsClosed(c: Contract, v: Json, keys: set<string>, file: File, stack: seq<Target>)
    requires DocsPlain(c) && RefPlain(v) && v.Object? && keys <= v.fields.Keys && Inside(c, v, file)
    requires WalkFields(c, v, keys, file, stack).Ok?
    ensures forall k | k in keys :: Exported(c, WalkFields(c, v, keys, file, stack).value[k])
    decreases |Open(c, stack)|, v, 0
  {
    forall k | k in keys ensures Exported(c, WalkFields(c, v, keys, file, stack).value[k]) {
      WalkClosed(c, v.fields[k], file, stack);
    }
  }

  lemma {:induction false} RedirectClosed(c: Contract, pointer: string, siblings: map<string, Json>)
    requires pointer in c.exports.Values
    requires "$ref" !in siblings && forall k | k in siblings :: Exported(c, siblings[k])
    ensures Exported(c, Redirect(pointer, siblings))
  {
    var b := Redirect(pointer, siblings);
    assert b.fields["$ref"] == Text(pointer);
    forall k | k in b.fields ensures Exported(c, b.fields[k]) {
    }
  }

  lemma {:induction false} MergeClosed(c: Contract, m: Json, siblings: map<string, Json>, ref: string)
    requires Exported(c, m) && Merge(m, siblings, ref).Ok?
    requires "$ref" !in siblings && forall k | k in siblings :: Exported(c, siblings[k])
    ensures Exported(c, Merge(m, siblings, ref).value)
  {
    if siblings != map[] {
      var b := Object(m.fields + siblings);
      assert IsRef(b) <==> IsRef(m);
      forall k | k in b.fields ensures Exported(c, b.fields[k]) {
      }
    }
  }

  lemma {:induction false} FieldReplaced(c: Contract, x: map<string, Json>, k: string, y: Json)
    requires k in x && k != "$ref" && Exported(c, Object(x)) && Exported(c, y)
    ensures Exported(c, Object(x[k := y]))
  {
    assert IsRef(Object(x[k := y])) <==> IsRef(Object(x));
    var z := x[k := y];
    forall j | j in z ensures Exported(c, z[j]) {
    }
  }

  lemma {:induction false} MappingClosed(c: Contract, tags: map<string, Json>, file: File)
    requires forall k | k in tags :: RewriteTag(c, tags[k], file).Ok?
    ensures Exported(c, Object(map k | k in tags :: RewriteTag(c, tags[k], file).value))
  {
    hide Canonical, Place, Resolve;
    var mapping := map k | k in tags :: RewriteTag(c, tags[k], file).value;
    forall k | k in mapping ensures mapping[k].Text? && mapping[k].text in c.exports.Values {
      assert RewriteTag(c, tags[k], file).Ok?;
    }
    var m := Object(mapping);
    assert forall k | k in m.fields :: RefStrings(m.fields[k]) == {};
  }

  lemma {:induction false} RewriteClosed(c: Contract, walked: map<string, Json>, file: File)
    requires forall k | k in walked :: Exported(c, walked[k])
    requires !IsRef(Object(walked))
    requires RewriteDiscriminator(c, walked, file).Ok?
    ensures Exported(c, RewriteDiscriminator(c, walked, file).value)
  {
    hide RewriteTag;
    assert Exported(c, Object(walked));
    var b := RewriteDiscriminator(c, walked, file).value;
    if b != Object(walked) {
      var d := walked["discriminator"];
      MappingClosed(c, d.fields["mapping"].fields, file);
      var mapping := b.fields["discriminator"].fields["mapping"];
      FieldReplaced(c, d.fields, "mapping", mapping);
      FieldReplaced(c, walked, "discriminator", Object(d.fields["mapping" := mapping]));
    }
  }

  // Why RefPlain: a reference under the key "$ref" may be inlined to a string, and the mapping around it
  // has become a reference to whatever that string says.
  lemma {:induction false} NestedRefLeaks(c: Contract, v: Json, file: File, stack: seq<Target>, t: Target, s: string)
    requires Inside(c, v, file) && v.Object? && v.fields.Keys == {"$ref"}
    requires IsRef(v.fields["$ref"]) && v.fields["$ref"].fields.Keys == {"$ref"}
    requires Place(v.fields["$ref"].fields["$ref"].text, file, c) == Ok(t) && t !in c.exports && t.file in c.docs
    requires Resolve(c.docs[t.file], t.tokens) == Ok(Text(s))
    requires Walk(c, v, file, stack).Ok?
    ensures s in RefStrings(Walk(c, v, file, stack).value)
  {
    hide Canonical, Place, Resolve, WalkRef, Walk;
    var inner := v.fields["$ref"];
    FieldInside(c, v, file, "$ref");
    PlainObjectWalks(c, v, file, stack);
    BareRefWalks(c, inner, file, stack, t);
    TextWalks(c, s, t.file, stack + [t]);
  }

  lemma {:induction false} TextWalks(c: Contract, s: string, file: File, stack: seq<Target>)
    requires Inside(c, Text(s), file)
    ensures Walk(c, Text(s), file, stack) == Ok(Text(s))
  {
  }

  // A mapping without a discriminator is walked field by field.
  lemma {:induction false} PlainObjectWalks(c: Contract, v: Json, file: File, stack: seq<Target>)
    requires Inside(c, v, file) && v.Object? && !IsRef(v) && "discriminator" !in v.fields && Walk(c, v, file, stack).Ok?
    ensures WalkFields(c, v, v.fields.Keys, file, stack).Ok?
    ensures Walk(c, v, file, stack).value == Object(WalkFields(c, v, v.fields.Keys, file, stack).value)
    ensures forall k | k in v.fields ::
              Inside(c, v.fields[k], file) && Walk(c, v.fields[k], file, stack) == Ok(WalkFields(c, v, v.fields.Keys, file, stack).value[k])
  {
    hide Canonical, Place, Resolve, WalkRef;
  }

  // A bare reference is walked as its target.
  lemma {:induction false} BareRefWalks(c: Contract, v: Json, file: File, stack: seq<Target>, t: Target)
    requires Inside(c, v, file) && IsRef(v) && v.fields.Keys == {"$ref"} && Place(v.fields["$ref"].text, file, c) == Ok(t)
    requires t !in c.exports && t.file in c.docs && Resolve(c.docs[t.file], t.tokens).Ok? && Walk(c, v, file, stack).Ok?
    ensures Inside(c, Resolve(c.docs[t.file], t.tokens).value, t.file)
    ensures Walk(c, v, file, stack) == Walk(c, Resolve(c.docs[t.file], t.tokens).value, t.file, stack + [t])
  {
    hide Canonical, Place, Resolve;
    assert v.fields.Keys - {"$ref"} == {};
    assert WalkRef(c, v, file, stack).Ok?;
    ResolvedInside(c, t);
    assert WalkFields(c, v, {}, file, stack).Ok? && WalkFields(c, v, {}, file, stack).value.Keys == {};
  }

  // ------------------------------------------------------------------
  // The whole bundle
  // ------------------------------------------------------------------

  // What the source must keep to for its bundle to be self-contained: component sections
  // and names in the pointer-safe alphabet, no reference standing for the whole root.
  ghost predicate PointerSafe(c: Contract) {
    Constructed(c) && DocsPlain(c)
    && "$ref" !in c.docs[c.root].fields
    && forall s | s in Components(c.docs, c.root).fields ::
         NameSafe(s) && forall n | n in Components(c.docs, c.root).fields[s].fields :: NameSafe(n)
  }

  lemma {:induction false} EntryClosed(c: Contract, entry: Json)
    requires DocsPlain(c) && RefPlain(entry) && Inside(c, entry, c.root) && BundleEntry(c, entry).Ok?
    ensures Exported(c, BundleEntry(c, entry).value)
  {
    hide Canonical, Merge, Resolve, Walk;
    if IsRef(entry) {
      var t := Place(entry.fields["$ref"].text, c.root, c).value;
      ResolvedInside(c, t);
      ResolvedPlain(c.docs[t.file], t.tokens);
      WalkClosed(c, Resolve(c.docs[t.file], t.tokens).value, t.file, [t]);
      FieldsClosed(c, entry, entry.fields.Keys - {"$ref"}, c.root, []);
      MergeClosed(c, Walk(c, Resolve(c.docs[t.file], t.tokens).value, t.file, [t]).value,
        WalkFields(c, entry, entry.fields.Keys - {"$ref"}, c.root, []).value, entry.fields["$ref"].text);
    } else {
      WalkClosed(c, entry, c.root, []);
    }
  }

  lemma {:induction false} NotSafe()
    ensures !NameSafe("$ref")
  {
    assert '$' in "$ref";
  }

  lemma {:induction false} BundleExported(c: Contract, b: Json)
    requires PointerSafe(c) && IsBundle(c, b)
    ensures Exported(c, b)
  {
    hide NameSafe, Canonical, PointerTo;
    NotSafe();
    var root := c.docs[c.root];
    assert RefPlain(root);
    forall k | k in b.fields ensures Exported(c, b.fields[k]) {
      if k == GENERATED {
      } else if k != "components" {
        FieldInside(c, root, c.root, k);
        WalkClosed(c, root.fields[k], c.root, []);
      } else {
        var components := root.fields[k];
        forall s | s in components.fields ensures Exported(c, b.fields[k].fields[s]) {
          var entries := components.fields[s];
          assert RefPlain(components) && RefPlain(entries);
          assert SectionBundled(c, entries, b.fields[k].fields[s]);
          forall n | n in entries.fields ensures Exported(c, b.fields[k].fields[s].fields[n]) {
            FieldInside(c, entries, c.root, n);
            EntryClosed(c, entries.fields[n]);
          }
          assert !IsRef(b.fields[k].fields[s]);
        }
        assert !IsRef(b.fields[k]);
      }
    }
    assert !IsRef(b);
  }

  // The component entry that exports t.
  lemma {:induction false} ExportingEntry(c: Contract, t: Target) returns (at: Entry)
    requires Constructed(c) && t in c.exports
    ensures Claims(Components(c.docs, c.root), c.root, at, t, c.exports[t])
  {
    assert TableOf(Components(c.docs, c.root), c.root, AllEntries(Components(c.docs, c.root)), c.exports);
    at :| at in AllEntries(Components(c.docs, c.root)) && Claims(Components(c.docs, c.root), c.root, at, t, c.exports[t]);
  }

  // Where an exported pointer leads: to the bundled form of the entry that owns it.
  lemma {:induction false} PointerLandsAt(c: Contract, b: Json, at: Entry)
    requires PointerSafe(c) && IsBundle(c, b) && RefOf(Components(c.docs, c.root), at).Some?
    ensures |PointerTo(at)| >= 2 && PointerTo(at)[..2] == "#/" && PointerTokens(PointerTo(at)[1..]) == Ok(ComponentTokens(at.0, at.1))
    ensures Place(PointerTo(at), c.root, c) == Ok(Target(c.root, ComponentTokens(at.0, at.1)))
    ensures var entries := Components(c.docs, c.root).fields[at.0];
            Inside(c, entries.fields[at.1], c.root)
            && Resolve(b, ComponentTokens(at.0, at.1)).Ok?
            && BundleEntry(c, entries.fields[at.1]) == Ok(Resolve(b, ComponentTokens(at.0, at.1)).value)
  {
    hide NameSafe, Canonical, BundleEntry, Inside, Resolve, DocsPlain;
    ComponentPointerResolves(at.0, at.1, c.root, Dir(c));
    EntryBundled(c, b, at);
    EntryResolves(b, at);
  }

  lemma {:induction false} EntryBundled(c: Contract, b: Json, at: Entry)
    requires Constructed(c) && IsBundle(c, b) && RefOf(Components(c.docs, c.root), at).Some?
    ensures "components" in b.fields && b.fields["components"].Object? && at.0 in b.fields["components"].fields
            && b.fields["components"].fields[at.0].Object? && at.1 in b.fields["components"].fields[at.0].fields
    ensures var entry := Components(c.docs, c.root).fields[at.0].fields[at.1];
            Inside(c, entry, c.root) && BundleEntry(c, entry) == Ok(b.fields["components"].fields[at.0].fields[at.1])
  {
    hide NameSafe, Canonical, BundleEntry, Resolve, Walk;
    assert SectionBundled(c, Components(c.docs, c.root).fields[at.0], b.fields["components"].fields[at.0]);
    FieldInside(c, Components(c.docs, c.root).fields[at.0], c.root, at.1);
  }

  lemma {:induction false} EntryResolves(b: Json, at: Entry)
    requires b.Object? && "components" in b.fields && b.fields["components"].Object? && at.0 in b.fields["components"].fields
             && b.fields["components"].fields[at.0].Object? && at.1 in b.fields["components"].fields[at.0].fields
    ensures Resolve(b, ComponentTokens(at.0, at.1)) == Ok(b.fields["components"].fields[at.0].fields[at.1])
  {
    var tokens := ComponentTokens(at.0, at.1);
    var components := b.fields["components"];
    assert tokens[1..] == [at.0, at.1] && tokens[1..][1..] == [at.1] && tokens[1..][1..][1..] == [];
    assert Child(b, tokens[0]) == Ok(components);
    assert Resolve(components.fields[at.0].fields[at.1], []) == Ok(components.fields[at.0].fields[at.1]);
    assert Resolve(components.fields[at.0], [at.1]) == Ok(components.fields[at.0].fields[at.1]);
    assert Resolve(components, [at.0, at.1]) == Ok(components.fields[at.0].fields[at.1]);
  }

  // The bundle is self-contained: each reference is one of the exported component pointers, it
  // resolves inside the bundle, and so the closing validation never rejects it.
  lemma {:induction false} BundleIsClosed(c: Contract, b: Json)
    requires PointerSafe(c) && IsBundle(c, b)
    ensures forall ref | ref in RefStrings(b) :: exists at: Entry ::
              RefOf(Components(c.docs, c.root), at).Some? && ref == PointerTo(at)
    ensures InternalRefsHold(b)
  {
    hide NameSafe, Canonical, PointerTo, IsBundle;
    BundleExported(c, b);
    forall ref | ref in RefStrings(b)
      ensures exists at: Entry :: RefOf(Components(c.docs, c.root), at).Some? && ref == PointerTo(at)
      ensures |ref| >= 2 && ref[..2] == "#/" && PointerTokens(ref[1..]).Ok? && Resolve(b, PointerTokens(ref[1..]).value).Ok?
    {
      assert ref in c.exports.Values;
      var t :| t in c.exports && c.exports[t] == ref;
      var at := ExportingEntry(c, t);
      PointerLandsAt(c, b, at);
    }
  }
}
