// Bundling preserves meaning: whatever a reader finds along a path of keys and
// indices in the linked files, it finds along the same path in the bundle.
module BundleMeaning {
  import opened Wrappers
  import opened JsonPointer
  import opened OpenApiBundle
  import opened BundleDocument
  import opened BundleClosed

  // ------------------------------------------------------------------
  // What a document means: references followed, siblings overriding their target
  // ------------------------------------------------------------------

  // A value together with the file its references are relative to.
  datatype Node = Node(file: File, value: Json)

  // The value at a node once no reference is left to follow.
  datatype View = Leaf(value: Json) | Items(items: seq<Node>) | Fields(fields: map<string, Node>) | Broken

  datatype Documents = Documents(docs: map<File, Json>, dir: File)

  function Nodes(fields: map<string, Json>, file: File): map<string, Node> {
    map k | k in fields :: Node(file, fields[k])
  }

  function Plain(n: Node): View {
    match n.value
    case List(items) => Items(seq(|items|, i requires 0 <= i < |items| => Node(n.file, items[i])))
    case Object(fields) => Fields(Nodes(fields, n.file))
    case _ => Leaf(n.value)
  }

  function Overlay(w: View, siblings: map<string, Node>): View {
    if siblings == map[] then w else if w.Fields? then Fields(w.fields + siblings) else Broken
  }

  function Aim(d: Documents, n: Node): Option<Node>
    requires IsRef(n.value)
  {
    match Canonical(n.value.fields["$ref"].text, n.file, d.dir)
    case Err(_) => None
    case Ok(t) =>
      if t.file in d.docs && Resolve(d.docs[t.file], t.tokens).Ok?
      then Some(Node(t.file, Resolve(d.docs[t.file], t.tokens).value)) else None
  }

  function SiblingNodes(n: Node): map<string, Node>
    requires n.value.Object?
  {
    Nodes(n.value.fields - {"$ref"}, n.file)
  }

  // Follow at most `fuel` references; None when that was not enough.
  function Look(d: Documents, n: Node, fuel: nat): Option<View>
    decreases fuel
  {
    if !IsRef(n.value) then Some(Plain(n))
    else if fuel == 0 then None
    else match Aim(d, n)
      case None => Some(Broken)
      case Some(target) =>
        match Look(d, target, fuel - 1)
        case None => None
        case Some(w) => Some(Overlay(w, SiblingNodes(n)))
  }

  datatype Step = Key(key: string) | Index(index: nat)

  datatype Answer = Absent | Scalar(value: Json) | ListOf(length: nat) | ObjectOf(keys: set<string>) | Unreadable

  function Shape(w: View): Answer {
    match w
    case Leaf(v) => Scalar(v)
    case Items(items) => ListOf(|items|)
    case Fields(fields) => ObjectOf(fields.Keys)
    case Broken => Unreadable
  }

  function Down(w: View, step: Step): Option<Node> {
    match step
    case Key(k) => if w.Fields? && k in w.fields then Some(w.fields[k]) else None
    case Index(i) => if w.Items? && i < |w.items| then Some(w.items[i]) else None
  }

  // What a reader finds at the end of a path, following up to `fuel` references at each step.
  function Ask(d: Documents, n: Node, path: seq<Step>, fuel: nat): Option<Answer>
    decreases path
  {
    match Look(d, n, fuel)
    case None => None
    case Some(w) =>
      if path == [] then Some(Shape(w))
      else match Down(w, path[0])
        case None => Some(Absent)
        case Some(child) => Ask(d, child, path[1..], fuel)
  }

  ghost predicate Finds(d: Documents, n: Node, path: seq<Step>, a: Answer) {
    exists fuel: nat :: Ask(d, n, path, fuel) == Some(a)
  }

  lemma {:induction false} LookMore(d: Documents, n: Node, fuel: nat, more: nat)
    requires fuel <= more && Look(d, n, fuel).Some?
    ensures Look(d, n, more) == Look(d, n, fuel)
    decreases fuel
  {
    hide Aim, Overlay, Plain, SiblingNodes, IsRef;
    if IsRef(n.value) && Aim(d, n).Some? {
      LookMore(d, Aim(d, n).value, fuel - 1, more - 1);
    }
  }

  lemma {:induction false} AskMore(d: Documents, n: Node, path: seq<Step>, fuel: nat, more: nat)
    requires fuel <= more && Ask(d, n, path, fuel).Some?
    ensures Ask(d, n, path, more) == Ask(d, n, path, fuel)
    decreases path
  {
    LookMore(d, n, fuel, more);
    var w := Look(d, n, fuel).value;
    if path != [] && Down(w, path[0]).Some? {
      AskMore(d, Down(w, path[0]).value, path[1..], fuel, more);
    }
  }

  // A path finds at most one thing.
  lemma {:induction false} FindsOne(d: Documents, n: Node, path: seq<Step>, a: Answer, b: Answer)
    requires Finds(d, n, path, a) && Finds(d, n, path, b)
    ensures a == b
  {
    var f: nat :| Ask(d, n, path, f) == Some(a);
    var g: nat :| Ask(d, n, path, g) == Some(b);
    AskMore(d, n, path, f, f + g);
    AskMore(d, n, path, g, f + g);
  }

  // ------------------------------------------------------------------
  // The two worlds and the relation between their nodes
  // ------------------------------------------------------------------

  function Source(c: Contract): Documents {
    Documents(c.docs, Dir(c))
  }

  function Bundled(c: Contract, b: Json): Documents {
    Documents(map[c.root := b], Dir(c))
  }

  // An exported component entry is nothing but its reference. Every reference to its target
  // is redirected to the entry, so siblings there would show up at all of them.
  ghost predicate EntriesBare(c: Contract)
    requires Constructed(c)
  {
    forall at: Entry | RefOf(Components(c.docs, c.root), at).Some? ::
      Components(c.docs, c.root).fields[at.0].fields[at.1].fields.Keys == {"$ref"}
  }

  ghost predicate Faithful(c: Contract, b: Json) {
    PointerSafe(c) && IsBundle(c, b) && EntriesBare(c)
  }

  ghost predicate Readable(c: Contract, n: Node) {
    Inside(c, n.value, n.file) && RefPlain(n.value)
  }

  // n' is the bundle's copy of n.
  ghost predicate Copy(c: Contract, n: Node, n': Node) {
    Readable(c, n) && n'.file == c.root && exists stack :: Walk(c, n.value, n.file, stack) == Ok(n'.value)
  }

  // Equal but for what "mapping" holds.
  ghost predicate SameButMapping(x: Json, y: Json) {
    x == y
    || (x.Object? && y.Object? && x.fields.Keys == y.fields.Keys && "mapping" in x.fields
        && !x.fields["mapping"].Text? && !y.fields["mapping"].Text?
        && forall k | k in x.fields && k != "mapping" :: x.fields[k] == y.fields[k])
  }

  // A copy whose discriminator mapping may have been rewritten.
  ghost predicate Retagged(c: Contract, n: Node, n': Node) {
    exists m: Json :: Copy(c, n, Node(c.root, m)) && n'.file == c.root && SameButMapping(m, n'.value)
  }

  ghost predicate Alike(c: Contract, w: View, w': View) {
    match w
    case Leaf(v) => w' == w
    case Items(items) => w'.Items? && |w'.items| == |items| && forall i | 0 <= i < |items| :: Copy(c, items[i], w'.items[i])
    case Fields(fields) =>
      w'.Fields? && w'.fields.Keys == fields.Keys
      && forall k | k in fields :: FieldAlike(c, k, fields[k], w'.fields[k])
    case Broken => w'.Broken?
  }

  ghost predicate FieldAlike(c: Contract, k: string, n: Node, n': Node) {
    if k == "discriminator" then Retagged(c, n, n') else Copy(c, n, n')
  }

  lemma {:induction false} CopyAlike(c: Contract, k: string, n: Node, n': Node)
    requires Copy(c, n, n')
    ensures FieldAlike(c, k, n, n')
  {
    assert SameButMapping(n'.value, n'.value);
    assert n' == Node(c.root, n'.value);
  }

  lemma {:induction false} OverlayAlike(c: Contract, w: View, w': View, s: map<string, Node>, s': map<string, Node>)
    requires Alike(c, w, w') && s.Keys == s'.Keys && forall k | k in s :: Copy(c, s[k], s'[k])
    ensures Alike(c, Overlay(w, s), Overlay(w', s'))
  {
    assert s == map[] <==> s' == map[];
    if s != map[] && w.Fields? {
      var f, f' := w.fields + s, w'.fields + s';
      forall k | k in f ensures FieldAlike(c, k, f[k], f'[k]) {
        if k in s {
          CopyAlike(c, k, s[k], s'[k]);
        }
      }
    }
  }

  // ------------------------------------------------------------------
  // The walk, seen through Look
  // ------------------------------------------------------------------

  // A value that is not a reference is copied field by field.
  lemma {:induction false} PlainAlike(c: Contract, n: Node, stack: seq<Target>)
    requires DocsPlain(c) && Readable(c, n) && !IsRef(n.value) && Walk(c, n.value, n.file, stack).Ok?
    ensures var b := Walk(c, n.value, n.file, stack).value;
            !IsRef(b) && Alike(c, Plain(n), Plain(Node(c.root, b)))
  {
    hide Canonical, RewriteDiscriminator;
    var v, b := n.value, Walk(c, n.value, n.file, stack).value;
    match v
    case List(items) =>
      forall i | 0 <= i < |items| ensures Copy(c, Node(n.file, items[i]), Node(c.root, b.items[i])) {
        assert Walk(c, items[i], n.file, stack) == Ok(b.items[i]);
      }
    case Object(fields) =>
      var walked := WalkFields(c, v, fields.Keys, n.file, stack).value;
      if "$ref" in fields {
        FieldInside(c, v, n.file, "$ref");
        WalkKeepsShape(c, fields["$ref"], n.file, stack);
      }
      RewriteTouchesMapping(c, walked, n.file);
      forall k | k in fields ensures FieldAlike(c, k, Node(n.file, fields[k]), Node(c.root, b.fields[k])) {
        FieldInside(c, v, n.file, k);
        assert Walk(c, fields[k], n.file, stack) == Ok(walked[k]);
        assert Copy(c, Node(n.file, fields[k]), Node(c.root, walked[k]));
        CopyAlike(c, k, Node(n.file, fields[k]), Node(c.root, walked[k]));
      }
    case _ =>
  }

  lemma {:induction false} RewriteTouchesMapping(c: Contract, walked: map<string, Json>, file: File)
    requires RewriteDiscriminator(c, walked, file).Ok?
    ensures var b := RewriteDiscriminator(c, walked, file).value;
            b.Object? && b.fields.Keys == walked.Keys
            && (forall k | k in walked && k != "discriminator" :: b.fields[k] == walked[k])
            && ("discriminator" in walked ==> SameButMapping(walked["discriminator"], b.fields["discriminator"]))
  {
    hide RewriteTag;
  }

  lemma {:induction false} OverlayTwice(w: View, s: map<string, Node>, over: map<string, Node>)
    requires over != map[]
    ensures Overlay(Overlay(w, s), over) == Overlay(w, s + over)
  {
    assert s + over != map[] by {
      var k :| k in over;
      assert k in s + over;
    }
    if s == map[] {
      assert s + over == over;
    } else if w.Fields? {
      assert w.fields + (s + over) == (w.fields + s) + over;
    }
  }

  // dict.update on an inlined target is Overlay on what the target shows.
  lemma {:induction false} LookMerged(d: Documents, root: File, m: Json, siblings: map<string, Json>, fuel: nat)
    requires "$ref" !in siblings && siblings != map[] && m.Object?
    ensures var merged := Node(root, Object(m.fields + siblings));
            match Look(d, Node(root, m), fuel)
            case None => Look(d, merged, fuel).None?
            case Some(w) => Look(d, merged, fuel) == Some(Overlay(w, Nodes(siblings, root)))
  {
    hide Canonical, Resolve;
    var merged := Object(m.fields + siblings);
    var over := Nodes(siblings, root);
    assert exists k :: k in siblings;
    assert over != map[];
    assert IsRef(merged) <==> IsRef(m);
    if IsRef(m) {
      var s, s' := SiblingNodes(Node(root, m)), SiblingNodes(Node(root, merged));
      assert s' == s + over;
      assert s' != map[];
      assert merged.fields["$ref"] == m.fields["$ref"];
      assert Aim(d, Node(root, merged)) == Aim(d, Node(root, m));
      if fuel > 0 && Aim(d, Node(root, m)).Some? && Look(d, Aim(d, Node(root, m)).value, fuel - 1).Some? {
        var w := Look(d, Aim(d, Node(root, m)).value, fuel - 1).value;
        OverlayTwice(w, s, over);
      }
    } else {
      assert Nodes(merged.fields, root) == Nodes(m.fields, root) + over;
    }
  }

  // A redirected reference leads to the bundled form of the entry that exports its target.
  lemma {:induction false} RedirectAims(c: Contract, b: Json, t: Target, at: Entry, siblings: map<string, Json>)
    requires PointerSafe(c) && IsBundle(c, b) && t in c.exports && "$ref" !in siblings
    requires Claims(Components(c.docs, c.root), c.root, at, t, c.exports[t])
    ensures var entry := Components(c.docs, c.root).fields[at.0].fields[at.1];
            Inside(c, entry, c.root) && BundleEntry(c, entry).Ok?
            && IsRef(Redirect(c.exports[t], siblings))
            && Aim(Bundled(c, b), Node(c.root, Redirect(c.exports[t], siblings))) == Some(Node(c.root, BundleEntry(c, entry).value))
  {
    hide Canonical, NameSafe, PointerTo, PointerSafe, IsBundle, BundleEntry, Inside, Resolve;
    PointerLandsAt(c, b, at);
    assert Redirect(c.exports[t], siblings).fields["$ref"] == Text(PointerTo(at));
  }

  // A bare entry is bundled as its target is walked.
  lemma {:induction false} BareEntry(c: Contract, t: Target, at: Entry)
    requires Constructed(c) && DocsPlain(c) && Claims(Components(c.docs, c.root), c.root, at, t, PointerTo(at))
    requires var entry := Components(c.docs, c.root).fields[at.0].fields[at.1];
             Inside(c, entry, c.root) && BundleEntry(c, entry).Ok? && entry.fields.Keys == {"$ref"}
    ensures t.file in c.docs && Resolve(c.docs[t.file], t.tokens).Ok?
    ensures var target := Resolve(c.docs[t.file], t.tokens).value;
            Readable(c, Node(t.file, target)) && Walk(c, target, t.file, [t])
            == BundleEntry(c, Components(c.docs, c.root).fields[at.0].fields[at.1])
  {
    hide Canonical, Walk, PointerTo;
    var entry := Components(c.docs, c.root).fields[at.0].fields[at.1];
    assert entry.fields.Keys - {"$ref"} == {};
    ResolvedInside(c, t);
    ResolvedPlain(c.docs[t.file], t.tokens);
  }

  // So it lands, in the bundle, on the walk of its own target.
  lemma {:induction false} RedirectLands(c: Contract, b: Json, t: Target, siblings: map<string, Json>)
    requires Faithful(c, b) && t in c.exports && "$ref" !in siblings
    ensures t.file in c.docs && Resolve(c.docs[t.file], t.tokens).Ok?
    ensures var target := Resolve(c.docs[t.file], t.tokens).value;
            Readable(c, Node(t.file, target)) && Walk(c, target, t.file, [t]).Ok?
            && IsRef(Redirect(c.exports[t], siblings))
            && Aim(Bundled(c, b), Node(c.root, Redirect(c.exports[t], siblings)))
               == Some(Node(c.root, Walk(c, target, t.file, [t]).value))
            && SiblingNodes(Node(c.root, Redirect(c.exports[t], siblings))) == Nodes(siblings, c.root)
  {
    hide Canonical, Walk, NameSafe, PointerTo, IsBundle, BundleEntry, Readable, Resolve, Aim;
    var at := ExportingEntry(c, t);
    RedirectAims(c, b, t, at, siblings);
    BareEntry(c, t, at);
    var r := Redirect(c.exports[t], siblings);
    assert r.fields - {"$ref"} == siblings;
  }

  // The siblings a reference carries, walked: copies of the originals.
  lemma {:induction false} SiblingsCopied(c: Contract, n: Node, stack: seq<Target>)
    requires Readable(c, n) && IsRef(n.value) && WalkFields(c, n.value, n.value.fields.Keys - {"$ref"}, n.file, stack).Ok?
    ensures var s, s' := SiblingNodes(n), Nodes(WalkFields(c, n.value, n.value.fields.Keys - {"$ref"}, n.file, stack).value, c.root);
            s.Keys == s'.Keys && forall k | k in s :: Copy(c, s[k], s'[k])
  {
    hide Walk;
    var walked := WalkFields(c, n.value, n.value.fields.Keys - {"$ref"}, n.file, stack).value;
    forall k | k in walked ensures Copy(c, Node(n.file, n.value.fields[k]), Node(c.root, walked[k])) {
      FieldInside(c, n.value, n.file, k);
      assert Walk(c, n.value.fields[k], n.file, stack) == Ok(walked[k]);
    }
  }

  lemma {:induction false} RefWalks(c: Contract, n: Node, stack: seq<Target>)
    requires Readable(c, n) && IsRef(n.value) && Walk(c, n.value, n.file, stack).Ok?
    ensures Place(n.value.fields["$ref"].text, n.file, c).Ok?
    ensures WalkFields(c, n.value, n.value.fields.Keys - {"$ref"}, n.file, stack).Ok?
  {
    hide Canonical, WalkFields, Merge, Resolve;
    assert WalkRef(c, n.value, n.file, stack) == Walk(c, n.value, n.file, stack);
  }

  // The pieces of an inlined reference.
  lemma {:induction false} Inlined(c: Contract, n: Node, stack: seq<Target>) returns (t: Target, target: Node, m: Json, siblings: map<string, Json>)
    requires DocsPlain(c) && Readable(c, n) && IsRef(n.value) && Walk(c, n.value, n.file, stack).Ok?
    requires Place(n.value.fields["$ref"].text, n.file, c).Ok? && Place(n.value.fields["$ref"].text, n.file, c).value !in c.exports
    ensures Aim(Source(c), n) == Some(target) && Readable(c, target)
    ensures Walk(c, target.value, target.file, stack + [t]) == Ok(m)
    ensures |Open(c, stack + [t])| < |Open(c, stack)|
    ensures WalkFields(c, n.value, n.value.fields.Keys - {"$ref"}, n.file, stack) == Ok(siblings)
    ensures "$ref" !in siblings
    ensures var b := Walk(c, n.value, n.file, stack).value;
            if siblings == map[] then b == m else m.Object? && b == Object(m.fields + siblings)
  {
    hide Canonical;
    var ref := n.value.fields["$ref"].text;
    t := Place(ref, n.file, c).value;
    siblings := WalkFields(c, n.value, n.value.fields.Keys - {"$ref"}, n.file, stack).value;
    assert WalkRef(c, n.value, n.file, stack).Ok?;
    ResolvedInside(c, t);
    ResolvedPlain(c.docs[t.file], t.tokens);
    StackGrows(c, stack, ref, n.file);
    target := Node(t.file, Resolve(c.docs[t.file], t.tokens).value);
    m := Walk(c, target.value, t.file, stack + [t]).value;
  }

  // The pieces of a redirected reference.
  lemma {:induction false} Redirected(c: Contract, b: Json, n: Node, stack: seq<Target>) returns (t: Target, target: Node, siblings: map<string, Json>)
    requires Faithful(c, b) && Readable(c, n) && IsRef(n.value) && Walk(c, n.value, n.file, stack).Ok?
    requires Place(n.value.fields["$ref"].text, n.file, c).Ok? && Place(n.value.fields["$ref"].text, n.file, c).value in c.exports
    ensures Aim(Source(c), n) == Some(target) && Readable(c, target) && Walk(c, target.value, target.file, [t]).Ok?
    ensures WalkFields(c, n.value, n.value.fields.Keys - {"$ref"}, n.file, stack) == Ok(siblings)
    ensures var n' := Node(c.root, Walk(c, n.value, n.file, stack).value);
            IsRef(n'.value) && SiblingNodes(n') == Nodes(siblings, c.root)
            && Aim(Bundled(c, b), n') == Some(Node(c.root, Walk(c, target.value, target.file, [t]).value))
  {
    hide Canonical, Faithful, RewriteDiscriminator, NameSafe, Merge, Redirect;
    t := Place(n.value.fields["$ref"].text, n.file, c).value;
    assert WalkRef(c, n.value, n.file, stack) == Walk(c, n.value, n.file, stack);
    siblings := WalkFields(c, n.value, n.value.fields.Keys - {"$ref"}, n.file, stack).value;
    RedirectLands(c, b, t, siblings);
    target := Node(t.file, Resolve(c.docs[t.file], t.tokens).value);
  }

  lemma {:induction false} LookPlain(d: Documents, n: Node, fuel: nat)
    requires !IsRef(n.value)
    ensures Look(d, n, fuel) == Some(Plain(n))
  {
  }

  lemma {:induction false} LookHop(d: Documents, n: Node, target: Node, fuel: nat)
    requires IsRef(n.value) && Aim(d, n) == Some(target)
    ensures Look(d, n, fuel) == if fuel == 0 || Look(d, target, fuel - 1).None? then None
                                else Some(Overlay(Look(d, target, fuel - 1).value, SiblingNodes(n)))
  {
  }

  // An inlined value with siblings shows what the value shows, overlaid.
  lemma {:induction false} LookInlined(d: Documents, root: File, m: Json, siblings: map<string, Json>, b: Json, fuel: nat)
    requires "$ref" !in siblings
    requires if siblings == map[] then b == m else m.Object? && b == Object(m.fields + siblings)
    ensures Look(d, Node(root, b), fuel) == if Look(d, Node(root, m), fuel).None? then None
                                            else Some(Overlay(Look(d, Node(root, m), fuel).value, Nodes(siblings, root)))
  {
    hide Look;
    if siblings != map[] {
      LookMerged(d, root, m, siblings, fuel);
    }
  }

  lemma {:induction false} FaithfulDocs(c: Contract, b: Json)
    requires Faithful(c, b)
    ensures DocsPlain(c)
  {
  }

  // Whatever the source shows at a node, the bundle shows at its copy.
  lemma {:induction false} LookForward(c: Contract, b: Json, n: Node, stack: seq<Target>, fuel: nat) returns (fuel': nat)
    requires Faithful(c, b) && Readable(c, n) && Walk(c, n.value, n.file, stack).Ok?
    requires Look(Source(c), n, fuel).Some?
    ensures var n' := Node(c.root, Walk(c, n.value, n.file, stack).value);
            Look(Bundled(c, b), n', fuel').Some?
            && Alike(c, Look(Source(c), n, fuel).value, Look(Bundled(c, b), n', fuel').value)
    decreases fuel
  {
    hide Canonical, Faithful, Alike, Walk, WalkFields, Place, Inside, RefPlain,
      Look, Aim, Overlay, Nodes, SiblingNodes, Plain, Open, Source, Bundled;
    var d, d' := Source(c), Bundled(c, b);
    var n' := Node(c.root, Walk(c, n.value, n.file, stack).value);
    FaithfulDocs(c, b);
    if !IsRef(n.value) {
      PlainAlike(c, n, stack);
      LookPlain(d, n, fuel);
      LookPlain(d', n', 0);
      return 0;
    }
    RefWalks(c, n, stack);
    SiblingsCopied(c, n, stack);
    if Place(n.value.fields["$ref"].text, n.file, c).value in c.exports {
      var t, target, siblings := Redirected(c, b, n, stack);
      LookHop(d, n, target, fuel);
      var f := LookForward(c, b, target, [t], fuel - 1);
      var landed := Node(c.root, Walk(c, target.value, target.file, [t]).value);
      LookHop(d', n', landed, f + 1);
      OverlayAlike(c, Look(d, target, fuel - 1).value, Look(d', landed, f).value, SiblingNodes(n), Nodes(siblings, c.root));
      fuel' := f + 1;
    } else {
      var t, target, m, siblings := Inlined(c, n, stack);
      LookHop(d, n, target, fuel);
      fuel' := LookForward(c, b, target, stack + [t], fuel - 1);
      LookInlined(d', c.root, m, siblings, n'.value, fuel');
      OverlayAlike(c, Look(d, target, fuel - 1).value, Look(d', Node(c.root, m), fuel').value, SiblingNodes(n), Nodes(siblings, c.root));
    }
  }

  // And the bundle shows nothing at a copy that the source does not show in finitely many steps.
  lemma {:induction false} LookBackward(c: Contract, b: Json, n: Node, stack: seq<Target>, fuel: nat) returns (fuel': nat)
    requires Faithful(c, b) && Readable(c, n) && Walk(c, n.value, n.file, stack).Ok?
    requires Look(Bundled(c, b), Node(c.root, Walk(c, n.value, n.file, stack).value), fuel).Some?
    ensures Look(Source(c), n, fuel').Some?
    decreases fuel, |Open(c, stack)|
  {
    hide Canonical, Faithful, Walk, WalkFields, Place, Inside, RefPlain,
      Look, Aim, Overlay, Nodes, SiblingNodes, Plain, Open, Source, Bundled;
    var d, d' := Source(c), Bundled(c, b);
    var n' := Node(c.root, Walk(c, n.value, n.file, stack).value);
    FaithfulDocs(c, b);
    if !IsRef(n.value) {
      LookPlain(d, n, 0);
      return 0;
    }
    RefWalks(c, n, stack);
    if Place(n.value.fields["$ref"].text, n.file, c).value in c.exports {
      var t, target, siblings := Redirected(c, b, n, stack);
      var landed := Node(c.root, Walk(c, target.value, target.file, [t]).value);
      LookHop(d', n', landed, fuel);
      var f := LookBackward(c, b, target, [t], fuel - 1);
      LookHop(d, n, target, f + 1);
      fuel' := f + 1;
    } else {
      var t, target, m, siblings := Inlined(c, n, stack);
      LookInlined(d', c.root, m, siblings, n'.value, fuel);
      var f := LookBackward(c, b, target, stack + [t], fuel);
      LookHop(d, n, target, f + 1);
      fuel' := f + 1;
    }
  }

  // ------------------------------------------------------------------
  // Paths
  // ------------------------------------------------------------------

  // Discriminator mappings hold reference strings that are rewritten, not followed.
  predicate Clear(path: seq<Step>) {
    forall i | 0 <= i < |path| - 1 :: !(path[i] == Key("discriminator") && path[i + 1] == Key("mapping"))
  }

  lemma {:induction false} AskUnfold(d: Documents, n: Node, path: seq<Step>, fuel: nat)
    requires Look(d, n, fuel).Some?
    ensures var w := Look(d, n, fuel).value;
            Ask(d, n, path, fuel) == if path == [] then Some(Shape(w))
                                     else if Down(w, path[0]).None? then Some(Absent)
                                     else Ask(d, Down(w, path[0]).value, path[1..], fuel)
  {
  }

  lemma {:induction false} AskNeedsLook(d: Documents, n: Node, path: seq<Step>, fuel: nat)
    requires Ask(d, n, path, fuel).Some?
    ensures Look(d, n, fuel).Some?
  {
  }

  // Looking away from "mapping", a retagged value answers like the value it came from.
  lemma {:induction false} AskRetagged(d: Documents, root: File, x: Json, y: Json, path: seq<Step>, fuel: nat)
    requires SameButMapping(x, y) && (path == [] || path[0] != Key("mapping"))
    ensures Ask(d, Node(root, x), path, fuel) == Ask(d, Node(root, y), path, fuel)
  {
    hide Canonical, Resolve;
    if x != y {
      assert IsRef(x) <==> IsRef(y);
      if IsRef(x) {
        assert x.fields["$ref"] == y.fields["$ref"];
        assert Aim(d, Node(root, x)) == Aim(d, Node(root, y));
        assert "mapping" in SiblingNodes(Node(root, x)) && "mapping" in SiblingNodes(Node(root, y));
      }
    }
  }

  lemma {:induction false} AlikeShapes(c: Contract, w: View, w': View, step: Step)
    requires Alike(c, w, w')
    ensures Shape(w) == Shape(w')
    ensures Down(w, step).Some? == Down(w', step).Some?
    ensures Down(w, step).Some? ==>
              if step == Key("discriminator") then Retagged(c, Down(w, step).value, Down(w', step).value)
              else Copy(c, Down(w, step).value, Down(w', step).value)
  {
  }

  // One more step down on both sides, with enough fuel for both.
  lemma {:induction false} AskDeeper(d: Documents, n: Node, path: seq<Step>, f: nat, g: nat)
    requires Look(d, n, f).Some? && path != [] && Down(Look(d, n, f).value, path[0]).Some?
    requires Ask(d, Down(Look(d, n, f).value, path[0]).value, path[1..], g).Some?
    ensures Ask(d, n, path, f + g) == Ask(d, Down(Look(d, n, f).value, path[0]).value, path[1..], g)
  {
    hide Look, Ask, Down;
    LookMore(d, n, f, f + g);
    AskMore(d, Down(Look(d, n, f).value, path[0]).value, path[1..], g, f + g);
    AskUnfold(d, n, path, f + g);
  }

  lemma {:induction false} AskForward(c: Contract, b: Json, n: Node, n': Node, path: seq<Step>, fuel: nat) returns (fuel': nat)
    requires Faithful(c, b) && Copy(c, n, n') && Clear(path) && Ask(Source(c), n, path, fuel).Some?
    ensures Ask(Bundled(c, b), n', path, fuel') == Ask(Source(c), n, path, fuel)
    decreases path
  {
    hide Canonical, Faithful, Walk, Look, Ask, Alike, Shape, Down, SameButMapping, Inside, RefPlain, Source, Bundled;
    var d, d' := Source(c), Bundled(c, b);
    var stack :| Walk(c, n.value, n.file, stack) == Ok(n'.value);
    AskNeedsLook(d, n, path, fuel);
    var f := LookForward(c, b, n, stack, fuel);
    var w, w' := Look(d, n, fuel).value, Look(d', n', f).value;
    AskUnfold(d, n, path, fuel);
    AskUnfold(d', n', path, f);
    if path == [] {
      AlikeShapes(c, w, w', Index(0));
      return f;
    }
    AlikeShapes(c, w, w', path[0]);
    if Down(w, path[0]).None? {
      return f;
    }
    var child, child' := Down(w, path[0]).value, Down(w', path[0]).value;
    var g: nat;
    if path[0] == Key("discriminator") {
      var m :| Copy(c, child, Node(c.root, m)) && child'.file == c.root && SameButMapping(m, child'.value);
      g := AskForward(c, b, child, Node(c.root, m), path[1..], fuel);
      AskRetagged(d', c.root, m, child'.value, path[1..], g);
    } else {
      g := AskForward(c, b, child, child', path[1..], fuel);
    }
    AskDeeper(d', n', path, f, g);
    fuel' := f + g;
  }

  lemma {:induction false} AskBackward(c: Contract, b: Json, n: Node, n': Node, path: seq<Step>, fuel: nat) returns (fuel': nat)
    requires Faithful(c, b) && Copy(c, n, n') && Clear(path) && Ask(Bundled(c, b), n', path, fuel).Some?
    ensures Ask(Source(c), n, path, fuel') == Ask(Bundled(c, b), n', path, fuel)
    decreases path
  {
    hide Canonical, Faithful, Walk, Look, Ask, Alike, Shape, Down, SameButMapping, Inside, RefPlain, Source, Bundled;
    var d, d' := Source(c), Bundled(c, b);
    var stack :| Walk(c, n.value, n.file, stack) == Ok(n'.value);
    AskNeedsLook(d', n', path, fuel);
    var f := LookBackward(c, b, n, stack, fuel);
    var back := LookForward(c, b, n, stack, f);
    LookMore(d', n', fuel, fuel + back);
    LookMore(d', n', back, fuel + back);
    var w, w' := Look(d, n, f).value, Look(d', n', fuel).value;
    AskUnfold(d, n, path, f);
    AskUnfold(d', n', path, fuel);
    if path == [] {
      AlikeShapes(c, w, w', Index(0));
      return f;
    }
    AlikeShapes(c, w, w', path[0]);
    if Down(w, path[0]).None? {
      return f;
    }
    var child, child' := Down(w, path[0]).value, Down(w', path[0]).value;
    var g: nat;
    if path[0] == Key("discriminator") {
      var m :| Copy(c, child, Node(c.root, m)) && child'.file == c.root && SameButMapping(m, child'.value);
      AskRetagged(d', c.root, m, child'.value, path[1..], fuel);
      g := AskBackward(c, b, child, Node(c.root, m), path[1..], fuel);
    } else {
      g := AskBackward(c, b, child, child', path[1..], fuel);
    }
    AskDeeper(d, n, path, f, g);
    fuel' := f + g;
  }

  // ------------------------------------------------------------------
  // The main theorem
  // ------------------------------------------------------------------

  lemma {:induction false} CopyFinds(c: Contract, b: Json, n: Node, n': Node, path: seq<Step>, a: Answer)
    requires Faithful(c, b) && Copy(c, n, n') && Clear(path)
    ensures Finds(Source(c), n, path, a) <==> Finds(Bundled(c, b), n', path, a)
  {
    hide Canonical, Faithful, Copy, Ask;
    if Finds(Source(c), n, path, a) {
      var f: nat :| Ask(Source(c), n, path, f) == Some(a);
      var g := AskForward(c, b, n, n', path, f);
    }
    if Finds(Bundled(c, b), n', path, a) {
      var f: nat :| Ask(Bundled(c, b), n', path, f) == Some(a);
      var g := AskBackward(c, b, n, n', path, f);
    }
  }

  // Below a node that is no reference, a path finds what it finds below the child it names.
  lemma {:induction false} FindsBelow(d: Documents, n: Node, path: seq<Step>, a: Answer)
    requires !IsRef(n.value) && path != []
    ensures Finds(d, n, path, a) <==> match Down(Plain(n), path[0])
                                      case None => a == Absent
                                      case Some(child) => Finds(d, child, path[1..], a)
  {
    hide Canonical;
    match Down(Plain(n), path[0])
    case None =>
      assert Ask(d, n, path, 0) == Some(Absent);
    case Some(child) =>
      if Finds(d, n, path, a) {
        var f: nat :| Ask(d, n, path, f) == Some(a);
        assert Ask(d, child, path[1..], f) == Some(a);
      }
      if Finds(d, child, path[1..], a) {
        var f: nat :| Ask(d, child, path[1..], f) == Some(a);
        assert Ask(d, n, path, f) == Some(a);
      }
  }

  lemma {:induction false} FindsHere(d: Documents, n: Node, a: Answer)
    requires !IsRef(n.value)
    ensures Finds(d, n, [], a) <==> a == Shape(Plain(n))
  {
    assert Ask(d, n, [], 0) == Some(Shape(Plain(n)));
  }

  lemma {:induction false} BareSiblings(n: Node)
    requires IsRef(n.value) && n.value.fields.Keys == {"$ref"}
    ensures SiblingNodes(n) == map[]
  {
    var rest := n.value.fields - {"$ref"};
    forall k ensures k !in SiblingNodes(n) {
      assert k in SiblingNodes(n) <==> k in rest;
    }
  }

  lemma {:induction false} LookThrough(d: Documents, n: Node, target: Node, fuel: nat)
    requires IsRef(n.value) && n.value.fields.Keys == {"$ref"} && Aim(d, n) == Some(target)
    ensures Look(d, n, 0).None?
    ensures Look(d, n, fuel + 1) == Look(d, target, fuel)
  {
    hide Aim, SiblingNodes, Canonical;
    BareSiblings(n);
  }

  // A bare reference finds what its target finds.
  lemma {:induction false} FindsThrough(d: Documents, n: Node, target: Node, path: seq<Step>, a: Answer)
    requires IsRef(n.value) && n.value.fields.Keys == {"$ref"} && Aim(d, n) == Some(target)
    ensures Finds(d, n, path, a) <==> Finds(d, target, path, a)
  {
    hide Aim, SiblingNodes, Look, Canonical;
    if Finds(d, n, path, a) {
      var f: nat :| Ask(d, n, path, f) == Some(a);
      LookThrough(d, n, target, if f == 0 then 0 else f - 1);
      LookMore(d, target, f - 1, f);
      assert Ask(d, target, path, f) == Some(a);
    }
    if Finds(d, target, path, a) {
      var f: nat :| Ask(d, target, path, f) == Some(a);
      AskMore(d, target, path, f, f + 1);
      LookMore(d, target, f, f + 1);
      LookThrough(d, n, target, f);
      assert Ask(d, n, path, f + 1) == Some(a);
    }
  }

  lemma {:induction false} EntryFinds(c: Contract, b: Json, at: Entry, path: seq<Step>, a: Answer)
    requires Faithful(c, b) && Clear(path)
    requires at.0 in Components(c.docs, c.root).fields && at.1 in Components(c.docs, c.root).fields[at.0].fields
    ensures SectionBundled(c, Components(c.docs, c.root).fields[at.0], b.fields["components"].fields[at.0])
    ensures Finds(Source(c), Node(c.root, Components(c.docs, c.root).fields[at.0].fields[at.1]), path, a)
            <==> Finds(Bundled(c, b), Node(c.root, b.fields["components"].fields[at.0].fields[at.1]), path, a)
  {
    hide Canonical, NameSafe, Walk, Finds, PointerTo, Merge;
    var entries := Components(c.docs, c.root).fields[at.0];
    assert SectionBundled(c, entries, b.fields["components"].fields[at.0]);
    var entry := entries.fields[at.1];
    var copy := b.fields["components"].fields[at.0].fields[at.1];
    FieldInside(c, entries, c.root, at.1);
    assert RefPlain(c.docs[c.root]) && RefPlain(Components(c.docs, c.root)) && RefPlain(entries) && RefPlain(entry);
    assert BundleEntry(c, entry) == Ok(copy);
    if IsRef(entry) {
      assert RefOf(Components(c.docs, c.root), at).Some?;
      var t := Place(entry.fields["$ref"].text, c.root, c).value;
      var target := Node(t.file, Resolve(c.docs[t.file], t.tokens).value);
      ResolvedInside(c, t);
      ResolvedPlain(c.docs[t.file], t.tokens);
      BareMerge(c, entry, target, t, copy);
      FindsThrough(Source(c), Node(c.root, entry), target, path, a);
      CopyFinds(c, b, target, Node(c.root, copy), path, a);
    } else {
      CopyFinds(c, b, Node(c.root, entry), Node(c.root, copy), path, a);
    }
  }

  lemma {:induction false} BareMerge(c: Contract, entry: Json, target: Node, t: Target, copy: Json)
    requires Inside(c, entry, c.root) && IsRef(entry) && entry.fields.Keys == {"$ref"} && BundleEntry(c, entry) == Ok(copy)
    requires Place(entry.fields["$ref"].text, c.root, c) == Ok(t)
    requires t.file in c.docs && Resolve(c.docs[t.file], t.tokens) == Ok(target.value) && target.file == t.file
    requires Readable(c, target)
    ensures Copy(c, target, Node(c.root, copy))
  {
    hide Canonical, Walk;
    assert entry.fields.Keys - {"$ref"} == {};
    assert WalkFields(c, entry, {}, c.root, []) == Ok(map[]);
    assert Walk(c, target.value, target.file, [t]) == Ok(copy);
  }

  // For every path into the contract, and whatever references, cycles and sibling merges lie along
  // it: the bundle gives the same answer as the linked files, or neither gives any.
  lemma {:induction false} MeaningPreserved(c: Contract, b: Json, path: seq<Step>, a: Answer)
    requires Faithful(c, b) && Clear(path) && path != [] && path[0] != Key(GENERATED)
    ensures Finds(Source(c), Node(c.root, c.docs[c.root]), path, a) <==> Finds(Bundled(c, b), Node(c.root, b), path, a)
  {
    hide Canonical, NameSafe, Walk, Finds, PointerTo;
    NotSafe();
    var root, d, d' := c.docs[c.root], Source(c), Bundled(c, b);
    FindsBelow(d, Node(c.root, root), path, a);
    FindsBelow(d', Node(c.root, b), path, a);
    if Down(Plain(Node(c.root, root)), path[0]).Some? {
      var k := path[0].key;
      FieldInside(c, root, c.root, k);
      assert RefPlain(root);
      if k != "components" {
        CopyFinds(c, b, Node(c.root, root.fields[k]), Node(c.root, b.fields[k]), path[1..], a);
      } else {
        ComponentsFind(c, b, path[1..], a);
      }
    }
  }

  lemma {:induction false} ComponentsFind(c: Contract, b: Json, path: seq<Step>, a: Answer)
    requires Faithful(c, b) && Clear(path) && "components" in c.docs[c.root].fields
    ensures Finds(Source(c), Node(c.root, Components(c.docs, c.root)), path, a)
            <==> Finds(Bundled(c, b), Node(c.root, b.fields["components"]), path, a)
  {
    hide Canonical, NameSafe, Walk, Finds, PointerTo;
    NotSafe();
    var d, d' := Source(c), Bundled(c, b);
    var x, y := Components(c.docs, c.root), b.fields["components"];
    if path == [] {
      FindsHere(d, Node(c.root, x), a);
      FindsHere(d', Node(c.root, y), a);
      return;
    }
    FindsBelow(d, Node(c.root, x), path, a);
    FindsBelow(d', Node(c.root, y), path, a);
    if Down(Plain(Node(c.root, x)), path[0]).Some? {
      SectionFinds(c, b, path[0].key, path[1..], a);
    }
  }

  lemma {:induction false} SectionFinds(c: Contract, b: Json, section: string, path: seq<Step>, a: Answer)
    requires Faithful(c, b) && Clear(path) && section in Components(c.docs, c.root).fields
    ensures ComponentsBundled(c, Components(c.docs, c.root), b.fields["components"])
    ensures Finds(Source(c), Node(c.root, Components(c.docs, c.root).fields[section]), path, a)
            <==> Finds(Bundled(c, b), Node(c.root, b.fields["components"].fields[section]), path, a)
  {
    hide Canonical, NameSafe, Walk, Finds, PointerTo, BundleEntry, DocsPlain, IsExportTable, Inside;
    NotSafe();
    var d, d' := Source(c), Bundled(c, b);
    var x, y := Components(c.docs, c.root).fields[section], b.fields["components"].fields[section];
    assert SectionBundled(c, x, y);
    if path == [] {
      FindsHere(d, Node(c.root, x), a);
      FindsHere(d', Node(c.root, y), a);
      return;
    }
    FindsBelow(d, Node(c.root, x), path, a);
    FindsBelow(d', Node(c.root, y), path, a);
    if Down(Plain(Node(c.root, x)), path[0]).Some? {
      EntryFinds(c, b, (section, path[0].key), path[1..], a);
    }
  }

  // A rewritten discriminator tag: following it in the bundle answers like following the
  // original tag in the linked files.
  lemma {:induction false} TagMeansTarget(c: Contract, b: Json, tag: string, file: File, path: seq<Step>, a: Answer)
    requires Faithful(c, b) && Clear(path) && RewriteTag(c, Text(tag), file).Ok?
    ensures RewriteTag(c, Text(tag), file).value.Text?
    ensures var t := Place(tag, file, c).value;
            t.file in c.docs && Resolve(c.docs[t.file], t.tokens).Ok?
            && (Finds(Source(c), Node(t.file, Resolve(c.docs[t.file], t.tokens).value), path, a)
                <==> Finds(Bundled(c, b), Node(c.root, Object(map["$ref" := RewriteTag(c, Text(tag), file).value])), path, a))
  {
    hide Canonical, NameSafe, Walk, Finds, PointerTo, Faithful, Clear, Aim, Resolve, Nodes, SiblingNodes;
    var t := Place(tag, file, c).value;
    RedirectLands(c, b, t, map[]);
    var target := Node(t.file, Resolve(c.docs[t.file], t.tokens).value);
    var landed := Node(c.root, Walk(c, target.value, t.file, [t]).value);
    var n := Node(c.root, Redirect(c.exports[t], map[]));
    assert n.value.fields == map["$ref" := Text(c.exports[t])];
    FindsThrough(Bundled(c, b), n, landed, path, a);
    CopyFinds(c, b, target, landed, path, a);
  }

  // Which file a tag is read against: the one whose mapping is being walked. For a discriminator written
  // there, with its mapping, that is the file it is written in.
  lemma {:induction false} WrittenTags(c: Contract, v: Json, file: File, stack: seq<Target>, k: string)
    requires Inside(c, v, file) && v.Object? && !IsRef(v) && "discriminator" in v.fields && Walk(c, v, file, stack).Ok?
    requires var d := v.fields["discriminator"];
             d.Object? && "$ref" !in d.fields && "discriminator" !in d.fields && "mapping" in d.fields
    requires var mapping := v.fields["discriminator"].fields["mapping"];
             mapping.Object? && "$ref" !in mapping.fields && "discriminator" !in mapping.fields && k in mapping.fields && mapping.fields[k].Text?
    ensures Tag(Walk(c, v, file, stack).value, k) == OkOrNone(RewriteTag(c, v.fields["discriminator"].fields["mapping"].fields[k], file))
  {
    hide Canonical, Place, Resolve, WalkRef, RewriteTag, Walk;
    var d := v.fields["discriminator"];
    FieldInside(c, v, file, "discriminator");
    WalkedDiscriminator(c, v, file, stack);
    MappingWalked(c, d, file, stack, k);
  }

  // For a discriminator that is itself a reference into another file, it is not: its tags are copied as
  // they stand and read against the file that refers to it.
  lemma {:induction false} InlinedTags(c: Contract, v: Json, file: File, stack: seq<Target>, t: Target, k: string)
    requires Inside(c, v, file) && v.Object? && !IsRef(v) && "discriminator" in v.fields && Walk(c, v, file, stack).Ok?
    requires var d := v.fields["discriminator"];
             IsRef(d) && d.fields.Keys == {"$ref"} && Place(d.fields["$ref"].text, file, c) == Ok(t) && t !in c.exports && t.file in c.docs
    requires Resolve(c.docs[t.file], t.tokens).Ok?
    requires var o := Resolve(c.docs[t.file], t.tokens).value;
             o.Object? && "$ref" !in o.fields && "discriminator" !in o.fields && "mapping" in o.fields && o.fields["mapping"].Object?
             && "$ref" !in o.fields["mapping"].fields && "discriminator" !in o.fields["mapping"].fields
             && k in o.fields["mapping"].fields && o.fields["mapping"].fields[k].Text?
    ensures Tag(Walk(c, v, file, stack).value, k)
            == OkOrNone(RewriteTag(c, Resolve(c.docs[t.file], t.tokens).value.fields["mapping"].fields[k], file))
    ensures RewriteTag(c, Resolve(c.docs[t.file], t.tokens).value.fields["mapping"].fields[k], file).Ok?
  {
    hide Canonical, Place, Resolve, WalkRef, RewriteTag, Walk;
    var d, o := v.fields["discriminator"], Resolve(c.docs[t.file], t.tokens).value;
    FieldInside(c, v, file, "discriminator");
    WalkedDiscriminator(c, v, file, stack);
    ResolvedInside(c, t);
    BareRefWalks(c, d, file, stack, t);
    MappingWalked(c, o, t.file, stack + [t], k);
  }

  // Different targets are exported under different pointers.
  lemma {:induction false} ExportsDiffer(c: Contract, t: Target, u: Target)
    requires PointerSafe(c) && t in c.exports && u in c.exports && c.exports[t] == c.exports[u]
    ensures t == u
  {
    hide Canonical, NameSafe, Walk, DocsPlain, IsExportTable;
    var x := ExportingEntry(c, t);
    var y := ExportingEntry(c, u);
    ComponentPointerResolves(x.0, x.1, c.root, Dir(c));
    ComponentPointerResolves(y.0, y.1, c.root, Dir(c));
    assert ComponentTokens(x.0, x.1)[1..] == ComponentTokens(y.0, y.1)[1..];
    assert x == y;
  }

  lemma {:induction false} TagsAgree(c: Contract, tag: Json, file: File, other: File)
    requires PointerSafe(c) && RewriteTag(c, tag, file).Ok?
    ensures RewriteTag(c, tag, other) == RewriteTag(c, tag, file) <==> Place(tag.text, file, c) == Place(tag.text, other, c)
  {
    hide Place, Resolve, PointerSafe;
    if RewriteTag(c, tag, other) == RewriteTag(c, tag, file) {
      ExportsDiffer(c, Place(tag.text, file, c).value, Place(tag.text, other, c).value);
    }
  }

  // Such a tag keeps its meaning exactly when both files read it as the same place: only then is it
  // rewritten as it would be in its own file.
  lemma {:induction false} InlinedTagKept(c: Contract, v: Json, file: File, stack: seq<Target>, t: Target, k: string)
    requires PointerSafe(c)
    requires Inside(c, v, file) && v.Object? && !IsRef(v) && "discriminator" in v.fields && Walk(c, v, file, stack).Ok?
    requires var d := v.fields["discriminator"];
             IsRef(d) && d.fields.Keys == {"$ref"} && Place(d.fields["$ref"].text, file, c) == Ok(t) && t !in c.exports && t.file in c.docs
    requires Resolve(c.docs[t.file], t.tokens).Ok?
    requires var o := Resolve(c.docs[t.file], t.tokens).value;
             o.Object? && "$ref" !in o.fields && "discriminator" !in o.fields && "mapping" in o.fields && o.fields["mapping"].Object?
             && "$ref" !in o.fields["mapping"].fields && "discriminator" !in o.fields["mapping"].fields
             && k in o.fields["mapping"].fields && o.fields["mapping"].fields[k].Text?
    ensures var tag := Resolve(c.docs[t.file], t.tokens).value.fields["mapping"].fields[k];
            Tag(Walk(c, v, file, stack).value, k) == OkOrNone(RewriteTag(c, tag, t.file))
            <==> Place(tag.text, file, c) == Place(tag.text, t.file, c)
  {
    var tag := Resolve(c.docs[t.file], t.tokens).value.fields["mapping"].fields[k];
    hide Canonical, Place, Resolve, WalkRef, Walk, RewriteTag, PointerSafe;
    InlinedTags(c, v, file, stack, t, k);
    TagsAgree(c, tag, file, t.file);
  }

  // A tag local to its own file therefore never keeps it.
  lemma {:induction false} LocalTagMoves(c: Contract, tag: string, file: File, other: File)
    requires Find(tag, '#') == 0 && file != other && Place(tag, file, c).Ok? && Place(tag, other, c).Ok?
    ensures Place(tag, file, c) != Place(tag, other, c)
    ensures Place(tag, file, c).value.file == file && Place(tag, other, c).value.file == other
  {
    hide PointerTokens, Unquote;
  }

  function OkOrNone(r: Result<Json, Fault>): Option<Json> {
    if r.Ok? then Some(r.value) else None
  }

  // The tag k of a bundled mapping's discriminator.
  function Tag(b: Json, k: string): Option<Json> {
    if b.Object? && "discriminator" in b.fields && b.fields["discriminator"].Object?
       && "mapping" in b.fields["discriminator"].fields && b.fields["discriminator"].fields["mapping"].Object?
       && k in b.fields["discriminator"].fields["mapping"].fields
    then Some(b.fields["discriminator"].fields["mapping"].fields[k]) else None
  }

  // The walked discriminator of a mapping is rewritten against the mapping's file.
  lemma {:induction false} WalkedDiscriminator(c: Contract, v: Json, file: File, stack: seq<Target>)
    requires Inside(c, v, file) && v.Object? && !IsRef(v) && "discriminator" in v.fields && Walk(c, v, file, stack).Ok?
    ensures Inside(c, v.fields["discriminator"], file) && Walk(c, v.fields["discriminator"], file, stack).Ok?
    ensures var d := Walk(c, v.fields["discriminator"], file, stack).value;
            forall k | d.Object? && "mapping" in d.fields && d.fields["mapping"].Object? && k in d.fields["mapping"].fields ::
              RewriteTag(c, d.fields["mapping"].fields[k], file).Ok?
              && Tag(Walk(c, v, file, stack).value, k) == Some(RewriteTag(c, d.fields["mapping"].fields[k], file).value)
  {
    hide Canonical, Place, Resolve, WalkRef, RewriteTag;
    FieldInside(c, v, file, "discriminator");
    assert WalkFields(c, v, v.fields.Keys, file, stack).value["discriminator"] == Walk(c, v.fields["discriminator"], file, stack).value;
  }

  // Strings in a mapping are walked to themselves.
  lemma {:induction false} MappingWalked(c: Contract, d: Json, file: File, stack: seq<Target>, k: string)
    requires Inside(c, d, file) && d.Object? && "$ref" !in d.fields && "discriminator" !in d.fields && "mapping" in d.fields
    requires var mapping := d.fields["mapping"];
             mapping.Object? && "$ref" !in mapping.fields && "discriminator" !in mapping.fields && k in mapping.fields && mapping.fields[k].Text?
    requires Walk(c, d, file, stack).Ok?
    ensures var b := Walk(c, d, file, stack).value;
            b.Object? && "mapping" in b.fields && b.fields["mapping"].Object? && k in b.fields["mapping"].fields
            && b.fields["mapping"].fields[k] == d.fields["mapping"].fields[k]
  {
    hide Canonical, Place, Resolve, WalkRef;
    PlainObjectWalks(c, d, file, stack);
    PlainObjectWalks(c, d.fields["mapping"], file, stack);
  }

  // ------------------------------------------------------------------
  // Why exported entries must be bare
  // ------------------------------------------------------------------

  lemma {:induction false} EntryMerged(c: Contract, entry: Json, t: Target)
    requires Inside(c, entry, c.root) && IsRef(entry) && BundleEntry(c, entry).Ok? && Place(entry.fields["$ref"].text, c.root, c) == Ok(t)
    requires t.file in c.docs && Resolve(c.docs[t.file], t.tokens).Ok?
    requires var target := Resolve(c.docs[t.file], t.tokens).value; target.Object? && "$ref" !in target.fields
    ensures var e, target := BundleEntry(c, entry).value, Resolve(c.docs[t.file], t.tokens).value;
            e.Object? && e.fields.Keys == target.fields.Keys + (entry.fields.Keys - {"$ref"})
  {
    hide Canonical, Walk, Resolve, Place;
    var target := Resolve(c.docs[t.file], t.tokens).value;
    ResolvedInside(c, t);
    WalkKeepsShape(c, target, t.file, [t]);
    var m := Walk(c, target, t.file, [t]).value;
    var siblings := WalkFields(c, entry, entry.fields.Keys - {"$ref"}, c.root, []).value;
    assert siblings.Keys == entry.fields.Keys - {"$ref"};
    assert siblings == map[] ==> entry.fields.Keys - {"$ref"} == {};
  }

  // An exported entry with a sibling its target does not have: the target has no such field in the
  // linked files, but every reference redirected to the entry finds one in the bundle.
  lemma {:induction false} SiblingLeaks(c: Contract, b: Json, t: Target, at: Entry, k: string)
    requires PointerSafe(c) && IsBundle(c, b) && t in c.exports && Claims(Components(c.docs, c.root), c.root, at, t, c.exports[t])
    requires k != "$ref" && k in Components(c.docs, c.root).fields[at.0].fields[at.1].fields
    requires t.file in c.docs && Resolve(c.docs[t.file], t.tokens).Ok?
    requires var target := Resolve(c.docs[t.file], t.tokens).value; target.Object? && "$ref" !in target.fields && k !in target.fields
    ensures Finds(Source(c), Node(t.file, Resolve(c.docs[t.file], t.tokens).value), [Key(k)], Absent)
    ensures !Finds(Bundled(c, b), Node(c.root, Redirect(c.exports[t], map[])), [Key(k)], Absent)
  {
    hide Canonical, NameSafe, PointerTo, IsBundle, BundleEntry, SiblingNodes, Inside, Aim, Finds, DocsPlain;
    var entry := Components(c.docs, c.root).fields[at.0].fields[at.1];
    var target := Node(t.file, Resolve(c.docs[t.file], t.tokens).value);
    FindsBelow(Source(c), target, [Key(k)], Absent);
    RedirectAims(c, b, t, at, map[]);
    EntryMerged(c, entry, t);
    var n := Node(c.root, Redirect(c.exports[t], map[]));
    assert n.value.fields.Keys == {"$ref"};
    RedirectLooks(Bundled(c, b), n, Node(c.root, BundleEntry(c, entry).value), k);
  }

  lemma {:induction false} RedirectLooks(d: Documents, n: Node, landed: Node, k: string)
    requires IsRef(n.value) && n.value.fields.Keys == {"$ref"} && Aim(d, n) == Some(landed)
    requires landed.value.Object? && !IsRef(landed.value) && k in landed.value.fields
    ensures !Finds(d, n, [Key(k)], Absent)
  {
    hide Aim, Canonical, SiblingNodes;
    if Finds(d, n, [Key(k)], Absent) {
      var f: nat :| Ask(d, n, [Key(k)], f) == Some(Absent);
      LookThrough(d, n, landed, if f == 0 then 0 else f - 1);
      AskUnfold(d, n, [Key(k)], f);
    }
  }
}
