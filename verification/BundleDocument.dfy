// ContractBundler.build and what holds of the document it returns
// (scripts/openapi_contract.py): it is self-contained.
module BundleDocument {
  import opened Wrappers
  import opened JsonPointer
  import opened OpenApiBundle

  const GENERATED := "x-generated-by"
  const NOTICE := Text("scripts/openapi_contract.py; do not edit directly")

  // A contract as the constructor leaves it.
  ghost predicate Constructed(c: Contract) {
    IsExportTable(c.docs, c.root, c.exports) && c.root != []
  }

  // ------------------------------------------------------------------
  // build
  // ------------------------------------------------------------------

  // One component entry: a reference is replaced by what it points at, with itself on the stack.
  function BundleEntry(c: Contract, entry: Json): Result<Json, set<Fault>>
    requires Inside(c, entry, c.root)
  {
    if !IsRef(entry) then Walk(c, entry, c.root, [])
    else match Place(entry.fields["$ref"].text, c.root, c)
      case Err(e) => Err({e})
      case Ok(t) =>
        if t.file !in c.docs then Err({MissingFile(t.file)})
        else match Resolve(c.docs[t.file], t.tokens)
          case Err(e) => Err({e})
          case Ok(target) =>
            ResolvedInside(c, t);
            match Walk(c, target, t.file, [t])
            case Err(e) => Err(e)
            case Ok(m) =>
              match WalkFields(c, entry, entry.fields.Keys - {"$ref"}, c.root, [])
              case Err(e) => Err(e)
              case Ok(siblings) => Merge(m, siblings, entry.fields["$ref"].text)
  }

  lemma {:induction false} FieldInside(c: Contract, v: Json, file: File, k: string)
    requires Inside(c, v, file) && v.Object? && k in v.fields
    ensures Inside(c, v.fields[k], file)
  {
  }

  ghost predicate SectionBundled(c: Contract, entries: Json, b: Json) {
    entries.Object? && b.Object? && Inside(c, entries, c.root) && b.fields.Keys == entries.fields.Keys
    && forall n | n in entries.fields :: FieldInside(c, entries, c.root, n); BundleEntry(c, entries.fields[n]) == Ok(b.fields[n])
  }

  ghost predicate ComponentsBundled(c: Contract, components: Json, b: Json) {
    components.Object? && b.Object? && b.fields.Keys == components.fields.Keys
    && forall s | s in components.fields :: SectionBundled(c, components.fields[s], b.fields[s])
  }

  // b is what build returns, before its closing validation.
  ghost predicate IsBundle(c: Contract, b: Json) {
    c.root in c.docs && c.docs[c.root].Object? && b.Object?
    && var source := c.docs[c.root].fields;
       && b.fields.Keys == source.Keys + {GENERATED}
       && b.fields[GENERATED] == NOTICE
       && (forall k | k in source && k != "components" ::
             Inside(c, source[k], c.root) && Walk(c, source[k], c.root, []).Ok?
             && (k != GENERATED ==> Walk(c, source[k], c.root, []) == Ok(b.fields[k])))
       && ("components" in source ==> ComponentsBundled(c, source["components"], b.fields["components"]))
  }

  // What validate_internal_refs finds wrong with one reference.
  function RefFault(document: Json, ref: string): Option<Fault> {
    if |ref| < 2 || ref[..2] != "#/" then Some(NotInternal(ref))
    else match PointerTokens(ref[1..])
      case Err(e) => Some(e)
      case Ok(tokens) =>
        match Resolve(document, tokens)
        case Err(e) => Some(e)
        case Ok(_) => None
  }

  function RefFaults(document: Json): (faults: set<Fault>)
    ensures forall e :: e in faults <==> exists ref :: ref in RefStrings(document) && RefFault(document, ref) == Some(e)
  {
    set ref | ref in RefStrings(document) && RefFault(document, ref).Some? :: RefFault(document, ref).value
  }

  predicate InternalRefsHold(document: Json) {
    forall ref | ref in RefStrings(document) ::
      |ref| >= 2 && ref[..2] == "#/" && PointerTokens(ref[1..]).Ok? && Resolve(document, PointerTokens(ref[1..]).value).Ok?
  }

  method BundleSection(c: Contract, entries: Json) returns (r: Result<Json, set<Fault>>)
    requires entries.Object? && Inside(c, entries, c.root)
    ensures r.Ok? ==> SectionBundled(c, entries, r.value)
    ensures r.Err? ==> forall b :: !SectionBundled(c, entries, b)
  {
    var bundled: map<string, Json>, names := map[], entries.fields.Keys;
    while names != {}
      invariant names <= entries.fields.Keys && bundled.Keys == entries.fields.Keys - names
      invariant forall n | n in bundled :: Inside(c, entries.fields[n], c.root) && BundleEntry(c, entries.fields[n]) == Ok(bundled[n])
      decreases names
    {
      var name :| name in names;
      FieldInside(c, entries, c.root, name);
      match BundleEntry(c, entries.fields[name]) {
        case Err(e) => return Err(e);
        case Ok(v) => bundled := bundled[name := v];
      }
      names := names - {name};
    }
    return Ok(Object(bundled));
  }

  method BundleComponents(c: Contract, components: Json) returns (r: Result<Json, set<Fault>>)
    requires Shaped(components) && Inside(c, components, c.root)
    ensures r.Ok? ==> ComponentsBundled(c, components, r.value)
    ensures r.Err? ==> forall b :: !ComponentsBundled(c, components, b)
  {
    var bundled: map<string, Json>, sections := map[], components.fields.Keys;
    while sections != {}
      invariant sections <= components.fields.Keys && bundled.Keys == components.fields.Keys - sections
      invariant forall s | s in bundled :: SectionBundled(c, components.fields[s], bundled[s])
      decreases sections
    {
      var section :| section in sections;
      FieldInside(c, components, c.root, section);
      var one := BundleSection(c, components.fields[section]);
      if one.Err? {
        return Err(one.error);
      }
      bundled := bundled[section := one.value];
      sections := sections - {section};
    }
    return Ok(Object(bundled));
  }

  method Build(c: Contract) returns (r: Result<Json, set<Fault>>)
    requires Constructed(c)
    ensures r.Ok? ==> IsBundle(c, r.value) && InternalRefsHold(r.value)
    ensures r.Err? ==> forall b | IsBundle(c, b) :: !InternalRefsHold(b) && r.error == RefFaults(b) != {}
  {
    var root := c.docs[c.root];
    assert Inside(c, root, c.root);
    var bundle: map<string, Json>, keys := map[], root.fields.Keys;
    while keys != {}
      invariant keys <= root.fields.Keys && bundle.Keys == root.fields.Keys - keys
      invariant forall k | k in bundle && k != "components" ::
          Inside(c, root.fields[k], c.root) && Walk(c, root.fields[k], c.root, []) == Ok(bundle[k])
      invariant "components" in bundle ==> ComponentsBundled(c, root.fields["components"], bundle["components"])
      decreases keys
    {
      var key :| key in keys;
      FieldInside(c, root, c.root, key);
      if key != "components" {
        match Walk(c, root.fields[key], c.root, []) {
          case Err(e) => return Err(e);
          case Ok(v) => bundle := bundle[key := v];
        }
      } else {
        var components := BundleComponents(c, root.fields[key]);
        if components.Err? {
          return Err(components.error);
        }
        bundle := bundle[key := components.value];
      }
      keys := keys - {key};
    }
    var document := Object(bundle[GENERATED := NOTICE]);
    assert IsBundle(c, document);
    if !InternalRefsHold(document) {
      BundleUnique(c, document);
      var ref :| ref in RefStrings(document) && RefFault(document, ref).Some?;
      assert RefFault(document, ref).value in RefFaults(document);
      return Err(RefFaults(document));
    }
    return Ok(document);
  }

  lemma {:induction false} BundleUnique(c: Contract, b: Json)
    requires IsBundle(c, b)
    ensures forall b' | IsBundle(c, b') :: b' == b
  {
    var source := c.docs[c.root].fields;
    forall b' | IsBundle(c, b') ensures b' == b {
      if "components" in source {
        var x, y := b.fields["components"], b'.fields["components"];
        forall s | s in x.fields ensures x.fields[s] == y.fields[s] {
          assert x.fields[s].fields == y.fields[s].fields;
        }
        assert x.fields == y.fields;
      }
      forall k | k in b.fields ensures b.fields[k] == b'.fields[k] {
      }
      assert b.fields == b'.fields;
    }
  }
}
