// Merging the candidates of one batch into the retained preferences.
module RetainedItems {
  import opened Wrappers

  datatype Scope = Persistent | Conversation

  datatype Directive = Directive(kind: string, action: string, condition: string, polarity: string,
                                 tag: Option<string>, literal: Option<string>)

  datatype Reference = Reference(source: nat, hash: string, startUtf8: nat, endUtf8: nat)

  // scope_start_message_id: absent, null, or a message.
  datatype Begin = Missing | Null | From(message: nat)

  datatype Status = Active | Ended

  // What a legacy item leaves behind when a native one replaces it.
  datatype Projection = Replaced(key: string, reference: Reference)

  datatype Item = Item(directive: Directive, scope: Scope, reference: Reference, generation: nat, status: Status,
                       begin: Begin, end: Option<Reference>, legacy: bool, projection: Option<Projection>)

  datatype Candidate =
    | Set(directive: Directive, scope: Scope, reference: Reference, supersedes: Option<string>)
    | End(ends: string, reference: Reference, clauseStart: Option<nat>)

  datatype Rejection = NothingToEnd | EndsBeforeItStarts | WrongScope

  type Items = map<string, Item>

  // What a directive is about: its literal text if it has one, else its tag.
  function Target(d: Directive): string {
    if d.literal.Some? && d.literal.value != "" then d.literal.value else if d.tag.Some? then d.tag.value else ""
  }

  function KeyOf(scope: Scope, d: Directive): string {
    (if scope.Conversation? then "conversation" else "persistent")
    + ":" + d.kind + ":" + d.action + ":" + d.condition + ":" + Target(d)
  }

  function NewItem(c: Candidate, generation: nat): Item
    requires c.Set?
  {
    Item(c.directive, c.scope, c.reference, generation, Active,
         if c.scope.Conversation? then From(c.reference.source) else Null, None, false, None)
  }

  function Start(i: Item): Option<nat> {
    match i.begin
    case Missing => Some(i.reference.source)
    case Null => None
    case From(m) => Some(m)
  }

  function Retire(was: Item, c: Candidate): Item
    requires c.Set?
  {
    was.(status := Ended, projection := Some(Replaced(KeyOf(c.scope, c.directive), c.reference)))
  }

  // ------------------------------------------------------------------
  // One candidate
  // ------------------------------------------------------------------

  // An end names an active conversation preference that began no later.
  function EndItem(items: Items, c: Candidate): Result<Items, Rejection>
    requires c.End?
  {
    if c.ends !in items || !items[c.ends].scope.Conversation? || items[c.ends].status != Active then Err(NothingToEnd)
    else
      var was := items[c.ends];
      if Start(was).None? || c.reference.source < Start(was).value then Err(EndsBeforeItStarts)
      else if c.reference.source == Start(was).value
              && (c.clauseStart.None? || c.clauseStart.value < was.reference.endUtf8) then Ok(items)
      else Ok(items[c.ends := was.(begin := From(Start(was).value), status := Ended, end := Some(c.reference))])
  }

  function Supersede(items: Items, c: Candidate): Result<Items, Rejection>
    requires c.Set?
  {
    match c.supersedes
    case None => Ok(items)
    case Some(k) =>
      if k !in items || items[k].scope != c.scope || items[k].directive.kind != c.directive.kind then Err(WrongScope)
      else if items[k].legacy then Ok(items[k := Retire(items[k], c)])
      else Ok(items - {k})
  }

  predicate Repeats(i: Item, c: Candidate)
    requires c.Set?
  {
    i.legacy && i.status == Active && i.directive == c.directive
  }

  // Every active legacy item that says the same retires.
  function RetireRepeats(items: Items, c: Candidate): Items
    requires c.Set?
  {
    map k | k in items :: if Repeats(items[k], c) then Retire(items[k], c) else items[k]
  }

  function Step(items: Items, c: Candidate, generation: nat): Result<Items, Rejection> {
    match c
    case End(_, _, _) => EndItem(items, c)
    case Set(_, _, _, _) =>
      match Supersede(items, c)
      case Err(e) => Err(e)
      case Ok(rest) => Ok(RetireRepeats(rest, c)[KeyOf(c.scope, c.directive) := NewItem(c, generation)])
  }

  function Fold(items: Items, cs: seq<Candidate>, generation: nat): Result<Items, Rejection>
    decreases |cs|
  {
    if cs == [] then Ok(items)
    else match Step(items, cs[0], generation)
      case Err(e) => Err(e)
      case Ok(next) => Fold(next, cs[1..], generation)
  }

  // ------------------------------------------------------------------
  // Documents: lists of keyed items, sorted by key
  // ------------------------------------------------------------------

  type Document = seq<(string, Item)>

  predicate Precedes(a: string, b: string) {
    b != [] && (a == [] || a[0] < b[0] || (a[0] == b[0] && Precedes(a[1..], b[1..])))
  }

  lemma {:induction false} PrecedesTotal(a: string, b: string)
    ensures Precedes(a, b) || a == b || Precedes(b, a)
    ensures !(Precedes(a, b) && Precedes(b, a)) && !Precedes(a, a)
  {
    if a != [] {
      PrecedesTotal(a[1..], a[1..]);
    }
    if a != [] && b != [] {
      PrecedesTotal(a[1..], b[1..]);
      assert a[0] == b[0] && a[1..] == b[1..] ==> a == b;
    }
  }

  lemma {:induction false} PrecedesTransitive(a: string, b: string, c: string)
    requires Precedes(a, b) && Precedes(b, c)
    ensures Precedes(a, c)
  {
    if a != [] && a[0] == b[0] == c[0] {
      PrecedesTransitive(a[1..], b[1..], c[1..]);
    }
  }

  predicate Least(k: string, keys: set<string>) {
    k in keys && forall j | j in keys && j != k :: Precedes(k, j)
  }

  lemma {:induction false} LeastExists(keys: set<string>)
    requires keys != {}
    ensures exists k :: Least(k, keys)
    ensures forall j, k | Least(j, keys) && Least(k, keys) :: j == k
  {
    var k :| k in keys;
    assert forall j | j in keys :: j == k || j in keys - {k};
    if keys - {k} == {} {
      assert Least(k, keys);
    } else {
      LeastExists(keys - {k});
      var j :| Least(j, keys - {k});
      PrecedesTotal(j, k);
      if Precedes(k, j) {
        forall i | i in keys && i != k ensures Precedes(k, i) {
          if i != j {
            PrecedesTransitive(k, j, i);
          }
        }
        assert Least(k, keys);
      } else {
        assert Least(j, keys);
      }
    }
    forall j, k | Least(j, keys) && Least(k, keys) ensures j == k {
      PrecedesTotal(j, k);
    }
  }

  function SortedKeys(keys: set<string>): seq<string> {
    if keys == {} then []
    else
      LeastExists(keys);
      var k :| Least(k, keys);
      [k] + SortedKeys(keys - {k})
  }

  predicate Ascending(keys: seq<string>) {
    forall i, j | 0 <= i < j < |keys| :: Precedes(keys[i], keys[j])
  }

  lemma {:induction false} SortedKeysSort(keys: set<string>)
    ensures Ascending(SortedKeys(keys)) && |SortedKeys(keys)| == |keys|
    ensures forall k :: k in SortedKeys(keys) <==> k in keys
  {
    if keys != {} {
      LeastExists(keys);
      var k :| Least(k, keys);
      SortedKeysSort(keys - {k});
      assert SortedKeys(keys) == [k] + SortedKeys(keys - {k});
    }
  }

  function Keyed(d: Document): Items {
    if d == [] then map[] else Keyed(d[..|d| - 1])[d[|d| - 1].0 := d[|d| - 1].1]
  }

  function Listed(items: Items): (d: Document)
    ensures |d| == |SortedKeys(items.Keys)| && forall i | 0 <= i < |d| :: d[i].0 == SortedKeys(items.Keys)[i]
  {
    SortedKeysSort(items.Keys);
    var keys := SortedKeys(items.Keys);
    seq(|keys|, i requires 0 <= i < |keys| => (assert keys[i] in keys; (keys[i], items[keys[i]])))
  }

  function Merge(previous: Document, cs: seq<Candidate>, generation: nat): Result<Document, Rejection> {
    match Fold(Keyed(previous), cs, generation)
    case Err(e) => Err(e)
    case Ok(items) => Ok(Listed(items))
  }

  predicate Distinct(d: Document) {
    forall i, j | 0 <= i < j < |d| :: d[i].0 != d[j].0
  }

  lemma {:induction false} KeyedAt(d: Document, i: nat)
    requires Distinct(d) && i < |d|
    ensures d[i].0 in Keyed(d) && Keyed(d)[d[i].0] == d[i].1
  {
    if i < |d| - 1 {
      KeyedAt(d[..|d| - 1], i);
      assert d[..|d| - 1][i] == d[i];
    }
  }

  lemma {:induction false} KeyedFrom(d: Document, k: string)
    requires k in Keyed(d)
    ensures exists i :: 0 <= i < |d| && d[i].0 == k
  {
    if d[|d| - 1].0 != k {
      KeyedFrom(d[..|d| - 1], k);
      var i :| 0 <= i < |d| - 1 && d[..|d| - 1][i].0 == k;
      assert d[i].0 == k;
    }
  }

  function Keys(d: Document): (keys: seq<string>)
    ensures |keys| == |d| && forall i | 0 <= i < |d| :: keys[i] == d[i].0
  {
    seq(|d|, i requires 0 <= i < |d| => d[i].0)
  }

  // Listing loses nothing: the document gives the items back.
  lemma {:induction false} KeyedListed(items: Items)
    ensures Ascending(Keys(Listed(items))) && Keyed(Listed(items)) == items
  {
    hide Precedes, SortedKeys, Keyed;
    SortedKeysSort(items.Keys);
    var d, keys := Listed(items), SortedKeys(items.Keys);
    assert Keys(d) == keys;
    forall i, j | 0 <= i < j < |d| ensures d[i].0 != d[j].0 {
      assert Precedes(keys[i], keys[j]);
      PrecedesTotal(keys[i], keys[j]);
    }
    forall k | k in items ensures k in Keyed(d) && Keyed(d)[k] == items[k] {
      assert k in keys;
      var i :| 0 <= i < |keys| && keys[i] == k;
      KeyedAt(d, i);
    }
    forall k | k in Keyed(d) ensures k in items {
      KeyedFrom(d, k);
      var i :| 0 <= i < |d| && d[i].0 == k;
      assert keys[i] in keys;
    }
  }

  // ------------------------------------------------------------------
  // The loop
  // ------------------------------------------------------------------

  method MergeRetained(previous: Document, candidates: seq<Candidate>, generation: nat) returns (r: Result<Document, Rejection>)
    ensures r == Merge(previous, candidates, generation)
  {
    var items: Items := map[];
    for i := 0 to |previous|
      invariant items == Keyed(previous[..i])
    {
      assert previous[..i + 1][..i] == previous[..i];
      items := items[previous[i].0 := previous[i].1];
    }
    assert previous[..|previous|] == previous;
    for i := 0 to |candidates|
      invariant Fold(items, candidates[i..], generation) == Fold(Keyed(previous), candidates, generation)
    {
      var c := candidates[i];
      assert candidates[i..][0] == c && candidates[i..][1..] == candidates[i + 1..];
      if c.End? {
        var ended := EndItem(items, c);
        if ended.Err? {
          return Err(ended.error);
        }
        items := ended.value;
        continue;
      }
      var rest := Supersede(items, c);
      if rest.Err? {
        return Err(rest.error);
      }
      items := rest.value;
      ghost var before := items;
      var todo := items.Keys;
      while todo != {}
        invariant todo <= before.Keys == items.Keys
        invariant forall k | k in before :: items[k] == if k in todo then before[k] else RetireRepeats(before, c)[k]
      {
        var k :| k in todo;
        if Repeats(items[k], c) {
          items := items[k := Retire(items[k], c)];
        }
        todo := todo - {k};
      }
      assert items == RetireRepeats(before, c);
      items := items[KeyOf(c.scope, c.directive) := NewItem(c, generation)];
    }
    return Ok(Listed(items));
  }

  // ------------------------------------------------------------------
  // Properties
  // ------------------------------------------------------------------

  lemma {:induction false} FoldAppend(items: Items, a: seq<Candidate>, b: seq<Candidate>, generation: nat)
    ensures Fold(items, a + b, generation)
            == match Fold(items, a, generation) case Err(e) => Err(e) case Ok(mid) => Fold(mid, b, generation)
    decreases |a|
  {
    if a == [] {
      assert a + b == b;
    } else {
      assert (a + b)[1..] == a[1..] + b;
      if Step(items, a[0], generation).Ok? {
        FoldAppend(Step(items, a[0], generation).value, a[1..], b, generation);
      }
    }
  }

  // Where the batches were cut does not matter: merging them one after the other gives
  // the document, or the refusal, of merging them at once.
  lemma {:induction false} BatchesIndependent(previous: Document, a: seq<Candidate>, b: seq<Candidate>, generation: nat)
    ensures Merge(previous, a + b, generation)
            == match Merge(previous, a, generation) case Err(e) => Err(e) case Ok(mid) => Merge(mid, b, generation)
  {
    FoldAppend(Keyed(previous), a, b, generation);
    match Fold(Keyed(previous), a, generation)
    case Err(_) =>
    case Ok(mid) => KeyedListed(mid);
  }

  // A merged document is sorted by key, without repetition.
  lemma {:induction false} MergeSorted(previous: Document, cs: seq<Candidate>, generation: nat)
    requires Merge(previous, cs, generation).Ok?
    ensures Ascending(Keys(Merge(previous, cs, generation).value))
  {
    KeyedListed(Fold(Keyed(previous), cs, generation).value);
  }

  // The candidate may change the item under this key.
  predicate Aims(c: Candidate, k: string, i: Item) {
    match c
    case End(ends, _, _) => ends == k
    case Set(d, s, _, supersedes) => KeyOf(s, d) == k || supersedes == Some(k) || (i.legacy && i.status == Active && i.directive == d)
  }

  // What no candidate names stays, word for word.
  lemma {:induction false} Untouched(items: Items, cs: seq<Candidate>, generation: nat, k: string)
    requires k in items && Fold(items, cs, generation).Ok? && forall c | c in cs :: !Aims(c, k, items[k])
    ensures k in Fold(items, cs, generation).value && Fold(items, cs, generation).value[k] == items[k]
    decreases |cs|
  {
    if cs != [] {
      assert cs[0] in cs;
      var next := Step(items, cs[0], generation).value;
      assert k in next && next[k] == items[k];
      Untouched(next, cs[1..], generation, k);
    }
  }

  // No key appears but the keys candidates set.
  lemma {:induction false} OnlySetsAdd(items: Items, cs: seq<Candidate>, generation: nat, k: string)
    requires Fold(items, cs, generation).Ok? && k in Fold(items, cs, generation).value && k !in items
    ensures exists c :: c in cs && c.Set? && KeyOf(c.scope, c.directive) == k
    decreases |cs|
  {
    if cs != [] {
      var next := Step(items, cs[0], generation).value;
      if k in next {
        assert cs[0] in cs;
      } else {
        OnlySetsAdd(next, cs[1..], generation, k);
        var c :| c in cs[1..] && c.Set? && KeyOf(c.scope, c.directive) == k;
        assert c in cs;
      }
    }
  }

  // An end never lies before the start it closes.
  predicate EndsFollow(i: Item) {
    i.end.Some? ==> i.status == Ended && i.scope.Conversation? && i.begin.From? && i.begin.message <= i.end.value.source
  }

  ghost predicate AllEndsFollow(items: Items) {
    forall k | k in items :: EndsFollow(items[k])
  }

  lemma {:induction false} EndsStayBehind(items: Items, cs: seq<Candidate>, generation: nat)
    requires AllEndsFollow(items) && Fold(items, cs, generation).Ok?
    ensures AllEndsFollow(Fold(items, cs, generation).value)
    decreases |cs|
  {
    if cs != [] {
      EndsStayBehind(Step(items, cs[0], generation).value, cs[1..], generation);
    }
  }

  // The end comes behind the beginning: in a later message, or in a later clause of the same one.
  predicate Later(i: Item, c: Candidate)
    requires c.End? && Start(i).Some?
  {
    c.reference.source > Start(i).value
    || (c.reference.source == Start(i).value && c.clauseStart.Some? && c.clauseStart.value >= i.reference.endUtf8)
  }

  // An accepted end closes its preference exactly when it comes behind the beginning, and records where it
  // was said; in every other accepted case it changes nothing.
  lemma {:induction false} EndCloses(items: Items, c: Candidate, generation: nat)
    requires c.End? && Step(items, c, generation).Ok?
    ensures var after := Step(items, c, generation).value;
            after.Keys == items.Keys && c.ends in items && Start(items[c.ends]).Some?
            && (forall k | k in items && k != c.ends :: after[k] == items[k])
            && (after[c.ends].status == Ended <==> Later(items[c.ends], c))
            && (after[c.ends].status == Ended ==>
                  after[c.ends].end == Some(c.reference) && Start(after[c.ends]) == Start(items[c.ends])
                  && items[c.ends] == after[c.ends].(status := Active, begin := items[c.ends].begin, end := items[c.ends].end))
            && (after[c.ends].status == Active ==> after == items)
  {
  }

  // A preference that has ended is brought back only by setting it again.
  lemma {:induction false} EndedStaysEnded(items: Items, cs: seq<Candidate>, generation: nat, k: string)
    requires k in items && items[k].status == Ended && Fold(items, cs, generation).Ok?
    requires forall c | c in cs && c.Set? :: KeyOf(c.scope, c.directive) != k
    ensures var after := Fold(items, cs, generation).value;
            k in after ==> after[k].status == Ended && after[k].end == items[k].end
    decreases |cs|
  {
    if cs != [] {
      assert cs[0] in cs;
      var next := Step(items, cs[0], generation).value;
      if k in next {
        assert next[k].status == Ended && next[k].end == items[k].end;
        EndedStaysEnded(next, cs[1..], generation, k);
      } else {
        GoneStaysGone(next, cs[1..], generation, k);
      }
    }
  }

  lemma {:induction false} GoneStaysGone(items: Items, cs: seq<Candidate>, generation: nat, k: string)
    requires k !in items && Fold(items, cs, generation).Ok?
    requires forall c | c in cs && c.Set? :: KeyOf(c.scope, c.directive) != k
    ensures k !in Fold(items, cs, generation).value
    decreases |cs|
  {
    if cs != [] {
      assert cs[0] in cs;
      GoneStaysGone(Step(items, cs[0], generation).value, cs[1..], generation, k);
    }
  }
}
