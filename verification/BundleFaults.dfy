// When the bundler refuses: every fault it raises is at a place in the documents, and
// a contract without such places is bundled.
module BundleFaults {
  import opened Wrappers
  import opened JsonPointer
  import opened OpenApiBundle
  import opened BundleDocument

  ghost predicate Resolves(c: Contract, t: Target) {
    t.file in c.docs && Resolve(c.docs[t.file], t.tokens).Ok?
  }

  // The value at a mentions a reference to b.
  ghost predicate Leads(c: Contract, a: Target, b: Target) {
    Resolves(c, a) && exists r :: r in RefStrings(Resolve(c.docs[a.file], a.tokens).value) && Place(r, a.file, c) == Ok(b)
  }

  // A cycle of references none of which is exported.
  ghost predicate Loop(c: Contract, loop: seq<Target>) {
    |loop| >= 2 && loop[0] == loop[|loop| - 1]
    && (forall i | 0 <= i < |loop| :: loop[i] !in c.exports)
    && forall i | 0 <= i < |loop| - 1 :: Leads(c, loop[i], loop[i + 1])
  }

  // A value and everything inside it.
  function Parts(v: Json): set<Json> {
    match v
    case List(items) => {v} + set i, p | 0 <= i < |items| && p in Parts(items[i]) :: p
    case Object(fields) => {v} + set k, p | k in fields && p in Parts(fields[k]) :: p
    case _ => {v}
  }

  ghost predicate WrittenIn(c: Contract, v: Json, file: File) {
    file in c.docs && v in Parts(c.docs[file])
  }

  // A reference written in `from` that has no place.
  ghost predicate Misplaced(c: Contract, from: File, o: Json, f: Fault) {
    WrittenIn(c, o, from) && IsRef(o) && Place(o.fields["$ref"].text, from, c) == Err(f)
  }

  // A reference written in `from` to a place where nothing is.
  ghost predicate Dangling(c: Contract, from: File, o: Json, f: Fault) {
    WrittenIn(c, o, from) && IsRef(o) && Place(o.fields["$ref"].text, from, c).Ok?
    && var t := Place(o.fields["$ref"].text, from, c).value;
       if t.file !in c.docs then f == MissingFile(t.file) else Resolve(c.docs[t.file], t.tokens) == Err(f)
  }

  // A reference with siblings whose target comes out of the walk as no mapping.
  ghost predicate OnScalar(c: Contract, from: File, o: Json, stack: seq<Target>, f: Fault) {
    WrittenIn(c, o, from) && IsRef(o) && o.fields.Keys != {"$ref"} && f == ScalarSiblings(o.fields["$ref"].text)
    && Place(o.fields["$ref"].text, from, c).Ok?
    && var t := Place(o.fields["$ref"].text, from, c).value;
       Resolves(c, t) && Inside(c, Resolve(c.docs[t.file], t.tokens).value, t.file)
       && Walk(c, Resolve(c.docs[t.file], t.tokens).value, t.file, stack).Ok?
       && !Walk(c, Resolve(c.docs[t.file], t.tokens).value, t.file, stack).value.Object?
  }

  // The discriminator mapping of a walked mapping.
  function Tags(walked: map<string, Json>): map<string, Json> {
    if "discriminator" in walked && walked["discriminator"].Object?
       && "mapping" in walked["discriminator"].fields && walked["discriminator"].fields["mapping"].Object?
    then walked["discriminator"].fields["mapping"].fields else map[]
  }

  // A mapping written in `from` whose discriminator, once walked, has a tag that cannot be rewritten.
  ghost predicate BadTag(c: Contract, from: File, o: Json, stack: seq<Target>, k: string, f: Fault) {
    WrittenIn(c, o, from) && o.Object? && !IsRef(o) && Inside(c, o, from)
    && WalkFields(c, o, o.fields.Keys, from, stack).Ok?
    && var tags := Tags(WalkFields(c, o, o.fields.Keys, from, stack).value);
       k in tags && RewriteTag(c, tags[k], from) == Err(f)
  }

  ghost predicate Genuine(c: Contract, f: Fault) {
    (exists loop :: f == Circular(loop) && Loop(c, loop))
    || (exists from, o :: Misplaced(c, from, o, f))
    || (exists from, o :: Dangling(c, from, o, f))
    || (exists from, o, stack :: OnScalar(c, from, o, stack, f))
    || (exists from, o, stack, k :: BadTag(c, from, o, stack, k, f))
  }

  // The value lies at, or inside, the last target of a path of references; only the first may be exported.
  ghost predicate Path(c: Contract, v: Json, file: File, stack: seq<Target>) {
    (forall i | 0 <= i < |stack| :: Resolves(c, stack[i]) && (i > 0 ==> stack[i] !in c.exports))
    && (forall i | 0 <= i < |stack| - 1 :: Leads(c, stack[i], stack[i + 1]))
    && (stack != [] ==> var last := stack[|stack| - 1];
                        file == last.file && RefStrings(v) <= RefStrings(Resolve(c.docs[last.file], last.tokens).value))
  }

  ghost predicate AllGenuine(c: Contract, faults: set<Fault>) {
    faults != {} && forall f | f in faults :: Genuine(c, f)
  }

  // Inside a document: everything in it is Inside, and Path narrows with it.
  ghost predicate Spot(c: Contract, v: Json, file: File, stack: seq<Target>) {
    WrittenIn(c, v, file) && Path(c, v, file, stack)
  }

  lemma {:induction false} SpotWritten(c: Contract, v: Json, file: File, stack: seq<Target>)
    requires Spot(c, v, file, stack)
    ensures WrittenIn(c, v, file)
  {
  }

  lemma {:induction false} PartsNest(v: Json, p: Json)
    requires p in Parts(v)
    ensures Parts(p) <= Parts(v) && RefStrings(p) <= RefStrings(v)
    decreases v
  {
    match v
    case List(items) =>
      if p != v {
        var i :| 0 <= i < |items| && p in Parts(items[i]);
        PartsNest(items[i], p);
      }
    case Object(fields) =>
      if p != v {
        var k :| k in fields && p in Parts(fields[k]);
        PartsNest(fields[k], p);
      }
    case _ =>
  }

  lemma {:induction false} SelfPart(v: Json)
    ensures v in Parts(v)
  {
  }

  lemma {:induction false} WrittenInside(c: Contract, v: Json, file: File)
    requires WrittenIn(c, v, file)
    ensures Inside(c, v, file)
  {
    PartsNest(c.docs[file], v);
  }

  lemma {:induction false} ResolvedPart(v: Json, tokens: seq<string>)
    requires Resolve(v, tokens).Ok?
    ensures Resolve(v, tokens).value in Parts(v)
  {
    SelfPart(v);
    if tokens != [] {
      var child := Child(v, tokens[0]).value;
      ResolvedPart(child, tokens[1..]);
    }
  }

  // One step into a list or a mapping.
  lemma {:induction false} SpotInto(c: Contract, v: Json, w: Json, file: File, stack: seq<Target>)
    requires Spot(c, v, file, stack) && w in Parts(v)
    ensures Spot(c, w, file, stack) && Inside(c, w, file)
  {
    hide Parts, RefStrings, Canonical, Place, Resolve;
    PartsNest(v, w);
    PartsNest(c.docs[file], v);
    PathInto(c, v, w, file, stack);
    WrittenInside(c, w, file);
  }

  lemma {:induction false} ChildParts(v: Json)
    ensures v.List? ==> forall i | 0 <= i < |v.items| :: v.items[i] in Parts(v)
    ensures v.Object? ==> forall k | k in v.fields :: v.fields[k] in Parts(v)
  {
    if v.List? {
      forall i | 0 <= i < |v.items| ensures v.items[i] in Parts(v) {
        SelfPart(v.items[i]);
      }
    } else if v.Object? {
      forall k | k in v.fields ensures v.fields[k] in Parts(v) {
        SelfPart(v.fields[k]);
      }
    }
  }

  lemma {:induction false} LoopOf(c: Contract, v: Json, file: File, stack: seq<Target>, ref: string, t: Target)
    requires Path(c, v, file, stack) && ref in RefStrings(v) && Place(ref, file, c) == Ok(t)
    requires t in stack && t !in c.exports
    ensures Loop(c, stack[IndexOf(stack, t)..] + [t])
  {
    hide Canonical, Place, Resolve, RefStrings;
    var i := IndexOf(stack, t);
    var loop := stack[i..] + [t];
    var last := stack[|stack| - 1];
    assert Leads(c, last, t);
    forall k | 0 <= k < |loop| - 1 ensures Leads(c, loop[k], loop[k + 1]) {
      assert loop[k] == stack[i + k];
      if k < |loop| - 2 {
        assert loop[k + 1] == stack[i + k + 1];
      }
    }
  }

  lemma {:induction false} PathGrows(c: Contract, v: Json, file: File, stack: seq<Target>, ref: string, t: Target)
    requires Path(c, v, file, stack) && ref in RefStrings(v) && Place(ref, file, c) == Ok(t)
    requires t !in c.exports && Resolves(c, t)
    ensures Path(c, Resolve(c.docs[t.file], t.tokens).value, t.file, stack + [t])
  {
    hide Canonical, Place, Resolve, RefStrings;
    var grown := stack + [t];
    forall i | 0 <= i < |grown| - 1 ensures Leads(c, grown[i], grown[i + 1]) {
      if i == |stack| - 1 {
        assert Leads(c, stack[i], t);
      }
    }
  }

  lemma {:induction false} PathInto(c: Contract, v: Json, w: Json, file: File, stack: seq<Target>)
    requires Path(c, v, file, stack) && RefStrings(w) <= RefStrings(v)
    ensures Path(c, w, file, stack)
  {
    hide Canonical, Place, Resolve, RefStrings;
  }

  // ------------------------------------------------------------------
  // Following the walk
  // ------------------------------------------------------------------

  lemma {:induction false} WalkFaults(c: Contract, v: Json, file: File, stack: seq<Target>)
    requires Inside(c, v, file) && Spot(c, v, file, stack) && Walk(c, v, file, stack).Err?
    ensures AllGenuine(c, Walk(c, v, file, stack).error)
    decreases |Open(c, stack)|, v
  {
    hide Canonical, Place, RewriteDiscriminator, WalkRef, Genuine, Spot, Parts;
    match v
    case List(items) =>
      ChildParts(v);
      forall i | 0 <= i < |items| && Walk(c, items[i], file, stack).Err?
        ensures AllGenuine(c, Walk(c, items[i], file, stack).error)
      {
        SpotInto(c, v, items[i], file, stack);
        WalkFaults(c, items[i], file, stack);
      }
      ItemFaults(c, v, file, stack);
    case Object(fields) =>
      if IsRef(v) {
        RefFaults(c, v, file, stack);
      } else if WalkFields(c, v, fields.Keys, file, stack).Err? {
        FieldFaults(c, v, fields.Keys, file, stack);
      } else {
        assert WrittenIn(c, v, file) by { SpotWritten(c, v, file, stack); }
        TagFaults(c, v, file, stack);
      }
    case _ =>
  }

  lemma {:induction false} ItemFaults(c: Contract, v: Json, file: File, stack: seq<Target>)
    requires v.List? && Inside(c, v, file) && WalkItems(c, v, file, stack).Err?
    requires forall i | 0 <= i < |v.items| && Walk(c, v.items[i], file, stack).Err? :: AllGenuine(c, Walk(c, v.items[i], file, stack).error)
    ensures AllGenuine(c, WalkItems(c, v, file, stack).error)
  {
    hide Canonical, Place, Walk, Genuine;
    var faults := WalkItems(c, v, file, stack).error;
    var i :| 0 <= i < |v.items| && Walk(c, v.items[i], file, stack).Err?;
    var f :| f in Walk(c, v.items[i], file, stack).error;
    assert f in faults;
  }

  lemma {:induction false} FieldFaults(c: Contract, v: Json, keys: set<string>, file: File, stack: seq<Target>)
    requires v.Object? && keys <= v.fields.Keys && Inside(c, v, file) && Spot(c, v, file, stack) && WalkFields(c, v, keys, file, stack).Err?
    ensures AllGenuine(c, WalkFields(c, v, keys, file, stack).error)
    decreases |Open(c, stack)|, v, 0
  {
    hide Canonical, Place, Walk, Genuine, Spot, Parts;
    ChildParts(v);
    forall k | k in keys && Walk(c, v.fields[k], file, stack).Err?
      ensures AllGenuine(c, Walk(c, v.fields[k], file, stack).error)
    {
      SpotInto(c, v, v.fields[k], file, stack);
      WalkFaults(c, v.fields[k], file, stack);
    }
    var k :| k in keys && Walk(c, v.fields[k], file, stack).Err?;
    var f :| f in Walk(c, v.fields[k], file, stack).error;
    assert f in WalkFields(c, v, keys, file, stack).error;
  }

  lemma {:induction false} RefFaults(c: Contract, v: Json, file: File, stack: seq<Target>)
    requires IsRef(v) && Inside(c, v, file) && Spot(c, v, file, stack) && WalkRef(c, v, file, stack).Err?
    ensures AllGenuine(c, WalkRef(c, v, file, stack).error)
    decreases |Open(c, stack)|, v, 1
  {
    hide Canonical, Place, Walk, WalkFields, Genuine, Path, Loop, Parts, Resolve, Merge;
    var ref := v.fields["$ref"].text;
    if Place(ref, file, c).Err? {
      Misplaces(c, file, v);
      return;
    }
    var t := Place(ref, file, c).value;
    var rest := v.fields.Keys - {"$ref"};
    if WalkFields(c, v, rest, file, stack).Err? {
      FieldFaults(c, v, rest, file, stack);
    } else if t in stack {
      LoopOf(c, v, file, stack, ref, t);
      LoopFault(c, stack[IndexOf(stack, t)..] + [t]);
    } else if t !in c.exports {
      Dangles(c, file, v);
      if Resolves(c, t) {
        TargetFaults(c, v, file, stack, t);
      }
    }
  }

  lemma {:induction false} TargetFaults(c: Contract, v: Json, file: File, stack: seq<Target>, t: Target)
    requires IsRef(v) && Inside(c, v, file) && Spot(c, v, file, stack) && WalkRef(c, v, file, stack).Err?
    requires Place(v.fields["$ref"].text, file, c) == Ok(t) && t !in c.exports && t !in stack && Resolves(c, t)
    requires WalkFields(c, v, v.fields.Keys - {"$ref"}, file, stack).Ok?
    ensures AllGenuine(c, WalkRef(c, v, file, stack).error)
    decreases |Open(c, stack)|, v, 0
  {
    hide Canonical, Place, Walk, Genuine, Path, Loop, Parts, Resolve, Merge;
    var ref := v.fields["$ref"].text;
    var target := Resolve(c.docs[t.file], t.tokens).value;
    var siblings := WalkFields(c, v, v.fields.Keys - {"$ref"}, file, stack).value;
    ResolvedInside(c, t);
    StackGrows(c, stack, ref, file);
    PathGrows(c, v, file, stack, ref, t);
    ResolvedPart(c.docs[t.file], t.tokens);
    assert siblings.Keys == v.fields.Keys - {"$ref"};
    if Walk(c, target, t.file, stack + [t]).Err? {
      WalkFaults(c, target, t.file, stack + [t]);
    } else {
      SiblingFault(c, file, v, stack + [t], siblings);
    }
  }

  lemma {:induction false} LoopFault(c: Contract, loop: seq<Target>)
    requires Loop(c, loop)
    ensures Genuine(c, Circular(loop))
  {
    hide Loop;
  }

  lemma {:induction false} Misplaces(c: Contract, from: File, o: Json)
    requires WrittenIn(c, o, from) && IsRef(o) && Place(o.fields["$ref"].text, from, c).Err?
    ensures Genuine(c, Place(o.fields["$ref"].text, from, c).error)
  {
    hide Canonical, Place, Parts;
    assert Misplaced(c, from, o, Place(o.fields["$ref"].text, from, c).error);
  }

  lemma {:induction false} Dangles(c: Contract, from: File, o: Json)
    requires WrittenIn(c, o, from) && IsRef(o) && Place(o.fields["$ref"].text, from, c).Ok?
    ensures var t := Place(o.fields["$ref"].text, from, c).value;
            if t.file !in c.docs then Genuine(c, MissingFile(t.file))
            else Resolve(c.docs[t.file], t.tokens).Err? ==> Genuine(c, Resolve(c.docs[t.file], t.tokens).error)
  {
    hide Canonical, Place, Parts, Resolve;
    var t := Place(o.fields["$ref"].text, from, c).value;
    if t.file !in c.docs {
      assert Dangling(c, from, o, MissingFile(t.file));
    } else if Resolve(c.docs[t.file], t.tokens).Err? {
      assert Dangling(c, from, o, Resolve(c.docs[t.file], t.tokens).error);
    }
  }

  // A merge fails only with siblings on a target that walked to no mapping.
  lemma {:induction false} SiblingFault(c: Contract, from: File, o: Json, stack: seq<Target>, siblings: map<string, Json>)
    requires WrittenIn(c, o, from) && IsRef(o) && Place(o.fields["$ref"].text, from, c).Ok? && siblings.Keys == o.fields.Keys - {"$ref"}
    requires var t := Place(o.fields["$ref"].text, from, c).value;
             Resolves(c, t) && Inside(c, Resolve(c.docs[t.file], t.tokens).value, t.file)
             && Walk(c, Resolve(c.docs[t.file], t.tokens).value, t.file, stack).Ok?
    requires var t := Place(o.fields["$ref"].text, from, c).value;
             Merge(Walk(c, Resolve(c.docs[t.file], t.tokens).value, t.file, stack).value, siblings, o.fields["$ref"].text).Err?
    ensures var t := Place(o.fields["$ref"].text, from, c).value;
            AllGenuine(c, Merge(Walk(c, Resolve(c.docs[t.file], t.tokens).value, t.file, stack).value, siblings, o.fields["$ref"].text).error)
  {
    hide Canonical, Place, Walk, Resolve, Parts;
    assert OnScalar(c, from, o, stack, ScalarSiblings(o.fields["$ref"].text));
  }

  lemma {:induction false} TagFaults(c: Contract, v: Json, file: File, stack: seq<Target>)
    requires WrittenIn(c, v, file) && v.Object? && !IsRef(v) && Inside(c, v, file) && WalkFields(c, v, v.fields.Keys, file, stack).Ok?
    requires RewriteDiscriminator(c, WalkFields(c, v, v.fields.Keys, file, stack).value, file).Err?
    ensures AllGenuine(c, RewriteDiscriminator(c, WalkFields(c, v, v.fields.Keys, file, stack).value, file).error)
  {
    hide Canonical, Place, RewriteTag, WalkFields, Parts;
    var walked := WalkFields(c, v, v.fields.Keys, file, stack).value;
    var tags := Tags(walked);
    var k :| k in tags && RewriteTag(c, tags[k], file).Err?;
    assert RewriteTag(c, tags[k], file).error in RewriteDiscriminator(c, walked, file).error;
    forall f | f in RewriteDiscriminator(c, walked, file).error ensures Genuine(c, f) {
      var k :| k in tags && RewriteTag(c, tags[k], file) == Err(f);
      assert BadTag(c, file, v, stack, k, f);
    }
  }

  // ------------------------------------------------------------------
  // A contract without faults
  // ------------------------------------------------------------------

  ghost predicate Faultless(c: Contract) {
    forall f :: !Genuine(c, f)
  }

  lemma {:induction false} NoneGenuine(c: Contract, faults: set<Fault>)
    requires Faultless(c)
    ensures !AllGenuine(c, faults)
  {
    hide Genuine;
  }

  lemma {:induction false} FaultlessPlace(c: Contract, o: Json)
    requires Faultless(c) && WrittenIn(c, o, c.root) && IsRef(o)
    ensures Place(o.fields["$ref"].text, c.root, c).Ok? && Resolves(c, Place(o.fields["$ref"].text, c.root, c).value)
  {
    hide Canonical, Place, Genuine, Parts, Resolve;
    if Place(o.fields["$ref"].text, c.root, c).Err? {
      Misplaces(c, c.root, o);
    } else {
      Dangles(c, c.root, o);
    }
  }

  lemma {:induction false} FaultlessWalks(c: Contract, v: Json, file: File, stack: seq<Target>)
    requires Faultless(c) && Inside(c, v, file) && Spot(c, v, file, stack)
    ensures Walk(c, v, file, stack).Ok?
  {
    hide Walk, Genuine, Spot;
    if Walk(c, v, file, stack).Err? {
      NoneGenuine(c, Walk(c, v, file, stack).error);
      WalkFaults(c, v, file, stack);
    }
  }

  lemma {:induction false} FaultlessFields(c: Contract, v: Json, keys: set<string>, file: File)
    requires Faultless(c) && v.Object? && keys <= v.fields.Keys && Inside(c, v, file) && WrittenIn(c, v, file)
    ensures WalkFields(c, v, keys, file, []).Ok?
  {
    hide Walk, Genuine;
    if WalkFields(c, v, keys, file, []).Err? {
      NoneGenuine(c, WalkFields(c, v, keys, file, []).error);
      FieldFaults(c, v, keys, file, []);
    }
  }

  lemma {:induction false} FaultlessEntry(c: Contract, entry: Json)
    requires Faultless(c) && Inside(c, entry, c.root) && WrittenIn(c, entry, c.root)
    ensures BundleEntry(c, entry).Ok?
  {
    hide Canonical, Place, Walk, WalkFields, Genuine, Parts, Resolve;
    if !IsRef(entry) {
      FaultlessWalks(c, entry, c.root, []);
      return;
    }
    var ref := entry.fields["$ref"].text;
    FaultlessPlace(c, entry);
    var t := Place(ref, c.root, c).value;
    var target := Resolve(c.docs[t.file], t.tokens).value;
    ResolvedInside(c, t);
    ResolvedPart(c.docs[t.file], t.tokens);
    FaultlessWalks(c, target, t.file, [t]);
    FaultlessFields(c, entry, entry.fields.Keys - {"$ref"}, c.root);
    FaultlessMerge(c, entry, t);
  }

  lemma {:induction false} FaultlessMerge(c: Contract, entry: Json, t: Target)
    requires Faultless(c) && WrittenIn(c, entry, c.root) && IsRef(entry) && Inside(c, entry, c.root)
    requires Place(entry.fields["$ref"].text, c.root, c) == Ok(t) && Resolves(c, t)
    requires Inside(c, Resolve(c.docs[t.file], t.tokens).value, t.file)
    requires Walk(c, Resolve(c.docs[t.file], t.tokens).value, t.file, [t]).Ok?
    requires WalkFields(c, entry, entry.fields.Keys - {"$ref"}, c.root, []).Ok?
    ensures Merge(Walk(c, Resolve(c.docs[t.file], t.tokens).value, t.file, [t]).value,
                  WalkFields(c, entry, entry.fields.Keys - {"$ref"}, c.root, []).value, entry.fields["$ref"].text).Ok?
  {
    hide Canonical, Place, Walk, Genuine, Parts, Resolve;
    var siblings := WalkFields(c, entry, entry.fields.Keys - {"$ref"}, c.root, []).value;
    var m := Merge(Walk(c, Resolve(c.docs[t.file], t.tokens).value, t.file, [t]).value, siblings, entry.fields["$ref"].text);
    if m.Err? {
      NoneGenuine(c, m.error);
      SiblingFault(c, c.root, entry, [t], siblings);
    }
  }

  ghost predicate EntriesOk(c: Contract, entries: Json) {
    entries.Object? && Inside(c, entries, c.root)
    && forall n | n in entries.fields :: Inside(c, entries.fields[n], c.root) && BundleEntry(c, entries.fields[n]).Ok?
  }

  ghost function SectionOf(c: Contract, entries: Json): (b: Json)
    requires EntriesOk(c, entries)
    ensures SectionBundled(c, entries, b)
  {
    Object(map n | n in entries.fields :: BundleEntry(c, entries.fields[n]).value)
  }

  ghost function ComponentsOf(c: Contract, components: Json): (b: Json)
    requires components.Object? && forall s | s in components.fields :: EntriesOk(c, components.fields[s])
    ensures ComponentsBundled(c, components, b)
  {
    Object(map s | s in components.fields :: SectionOf(c, components.fields[s]))
  }

  lemma {:induction false} RootWritten(c: Contract, k: string)
    requires Constructed(c) && k in c.docs[c.root].fields
    ensures WrittenIn(c, c.docs[c.root].fields[k], c.root) && Inside(c, c.docs[c.root].fields[k], c.root)
  {
    SelfPart(c.docs[c.root]);
    ChildParts(c.docs[c.root]);
    WrittenInside(c, c.docs[c.root].fields[k], c.root);
  }

  lemma {:induction false} EntriesWritten(c: Contract, s: string)
    requires Constructed(c) && Faultless(c) && s in Components(c.docs, c.root).fields
    ensures EntriesOk(c, Components(c.docs, c.root).fields[s])
  {
    hide BundleEntry, Parts, Genuine;
    var components := Components(c.docs, c.root);
    var entries := components.fields[s];
    RootWritten(c, "components");
    ChildParts(components);
    PartsNest(c.docs[c.root], components);
    WrittenInside(c, entries, c.root);
    PartsNest(c.docs[c.root], entries);
    ChildParts(entries);
    forall n | n in entries.fields ensures Inside(c, entries.fields[n], c.root) && BundleEntry(c, entries.fields[n]).Ok? {
      WrittenInside(c, entries.fields[n], c.root);
      FaultlessEntry(c, entries.fields[n]);
    }
  }

  // No reference that escapes, dangles or runs in an unexported circle, no siblings on a scalar and no
  // tag that leads outside the exports: then there is a bundle.
  lemma {:induction false} FaultlessBundles(c: Contract)
    requires Constructed(c) && Faultless(c)
    ensures exists b :: IsBundle(c, b)
  {
    hide Walk, Genuine, BundleEntry, Parts, Faultless, EntriesOk;
    var source := c.docs[c.root].fields;
    forall k | k in source ensures Inside(c, source[k], c.root) && Walk(c, source[k], c.root, []).Ok? {
      RootWritten(c, k);
      FaultlessWalks(c, source[k], c.root, []);
    }
    forall s | s in Components(c.docs, c.root).fields ensures EntriesOk(c, Components(c.docs, c.root).fields[s]) {
      EntriesWritten(c, s);
    }
    var fields := map k | k in source :: if k == "components" then ComponentsOf(c, source[k]) else Walk(c, source[k], c.root, []).value;
    assert IsBundle(c, Object(fields[GENERATED := NOTICE]));
  }

  // ------------------------------------------------------------------
  // And no circle is missed
  // ------------------------------------------------------------------

  // Every unexported reference inside a walked value was followed, to a target not on the stack.
  lemma {:induction false} Followed(c: Contract, v: Json, file: File, stack: seq<Target>, r: string, t: Target)
    requires Inside(c, v, file) && Walk(c, v, file, stack).Ok? && r in RefStrings(v) && Place(r, file, c) == Ok(t) && t !in c.exports
    ensures t !in stack && Resolves(c, t)
    ensures var target := Resolve(c.docs[t.file], t.tokens).value;
            Inside(c, target, t.file) && Walk(c, target, t.file, stack + [t]).Ok?
    decreases v
  {
    hide Canonical, Place, RewriteDiscriminator, WalkRef, WalkFields;
    match v
    case List(items) =>
      var i :| 0 <= i < |items| && r in RefStrings(items[i]);
      Followed(c, items[i], file, stack, r, t);
    case Object(fields) =>
      if IsRef(v) {
        RefFollowed(c, v, file, stack);
        if r == fields["$ref"].text {
          return;
        }
      } else {
        FieldsWalked(c, v, file, stack);
      }
      var k :| k in fields && r in RefStrings(fields[k]);
      Followed(c, fields[k], file, stack, r, t);
    case _ =>
  }

  lemma {:induction false} FieldsWalked(c: Contract, v: Json, file: File, stack: seq<Target>)
    requires v.Object? && !IsRef(v) && Inside(c, v, file) && Walk(c, v, file, stack).Ok?
    ensures forall k | k in v.fields :: Inside(c, v.fields[k], file) && Walk(c, v.fields[k], file, stack).Ok?
  {
    hide Canonical, Place, RewriteDiscriminator;
    assert WalkFields(c, v, v.fields.Keys, file, stack).Ok?;
  }

  lemma {:induction false} RefFollowed(c: Contract, v: Json, file: File, stack: seq<Target>)
    requires IsRef(v) && Inside(c, v, file) && Walk(c, v, file, stack).Ok?
    ensures forall k | k in v.fields && k != "$ref" :: Inside(c, v.fields[k], file) && Walk(c, v.fields[k], file, stack).Ok?
    ensures var place := Place(v.fields["$ref"].text, file, c);
            place.Ok? && (place.value !in c.exports ==>
              place.value !in stack && Resolves(c, place.value)
              && var t := place.value; var target := Resolve(c.docs[t.file], t.tokens).value;
                 Inside(c, target, t.file) && Walk(c, target, t.file, stack + [t]).Ok?)
  {
    hide Canonical, Resolve;
    assert WalkRef(c, v, file, stack).Ok?;
    assert WalkFields(c, v, v.fields.Keys - {"$ref"}, file, stack).Ok?;
    var t := Place(v.fields["$ref"].text, file, c).value;
    if t !in c.exports {
      ResolvedInside(c, t);
    }
  }

  // Inside a circle of unexported references the walk never succeeds.
  lemma {:induction false} CircleNeverWalks(c: Contract, loop: seq<Target>, i: nat, stack: seq<Target>)
    requires Loop(c, loop) && i < |loop| - 1 && loop[0] in stack && Resolves(c, loop[i])
    requires Inside(c, Resolve(c.docs[loop[i].file], loop[i].tokens).value, loop[i].file)
    ensures Walk(c, Resolve(c.docs[loop[i].file], loop[i].tokens).value, loop[i].file, stack).Err?
    decreases |loop| - i
  {
    hide Walk, Place, Resolve, RefStrings, Inside;
    var v := Resolve(c.docs[loop[i].file], loop[i].tokens).value;
    assert Leads(c, loop[i], loop[i + 1]);
    if Walk(c, v, loop[i].file, stack).Ok? {
      var r :| r in RefStrings(v) && Place(r, loop[i].file, c) == Ok(loop[i + 1]);
      Followed(c, v, loop[i].file, stack, r, loop[i + 1]);
      if i + 1 < |loop| - 1 {
        CircleNeverWalks(c, loop, i + 1, stack + [loop[i + 1]]);
      }
    }
  }
}
