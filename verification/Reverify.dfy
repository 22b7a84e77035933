// Re-verification of a checkpoint: its sources are read again page by page, and only
// when the last page is accepted are all pages checked once more and committed.
module Reverify {
  import opened Wrappers
  import opened CheckpointChain

  const PAGE: nat := 120

  type Messages = map<nat, nat>

  function Window(messages: Messages, after: nat, through: nat): Messages {
    map m | m in messages && after < m <= through :: messages[m]
  }

  // The page's range and fingerprint; equal fingerprints mean equal messages.
  datatype Manifest = Manifest(after: nat, through: nat, page: Messages)

  datatype Item = Item(text: nat, active: bool)

  type Items = map<nat, Item>

  datatype Draft = Draft(after: nat, manifests: seq<Manifest>, items: Items)

  // ORDER BY id LIMIT 120, up to its last row.
  ghost predicate IsPage(messages: Messages, after: nat, through: nat, boundary: nat) {
    boundary in messages && after < boundary <= through
    && |Window(messages, after, boundary)| <= PAGE
    && (|Window(messages, after, boundary)| == PAGE || Window(messages, after, boundary) == Window(messages, after, through))
  }

  // ------------------------------------------------------------------
  // What a page may change
  // ------------------------------------------------------------------

  // A recovered item may return unless its last published state closed it.
  predicate Returns(historical: Items, id: nat) {
    id !in historical || historical[id].active
  }

  // The items are those under review, as they are, and the answered ones that return, as answered.
  ghost predicate Reviewed(initial: Items, x: Input, items: Items) {
    forall id ::
      (id in items <==> id in initial || (id in x.answer && (id !in x.historical || x.historical[id].active)))
      && (id in items ==> items[id] == if id in initial then initial[id] else x.answer[id])
  }

  // Whatever the model made of the page, the items under review stay as they are.
  function Recovered(initial: Items, answer: Items, historical: Items): Items {
    (map id | id in answer && id !in initial && Returns(historical, id) :: answer[id]) + initial
  }

  method Recover(initial: Items, answer: Items, historical: Items) returns (items: Items)
    ensures items == Recovered(initial, answer, historical)
    ensures forall id :: id in items <==> id in initial || (id in answer && (id !in historical || historical[id].active))
    ensures forall id | id in items :: items[id] == if id in initial then initial[id] else answer[id]
  {
    items := initial;
    var todo := answer.Keys;
    while todo != {}
      invariant todo <= answer.Keys
      invariant forall id :: id in items <==> id in initial || (id in answer && id !in todo && Returns(historical, id))
      invariant forall id | id in items :: items[id] == if id in initial then initial[id] else answer[id]
    {
      var id :| id in todo;
      if id !in initial && Returns(historical, id) {
        items := items[id := answer[id]];
      }
      todo := todo - {id};
    }
  }

  method Recheck(messages: Messages, checks: seq<Manifest>) returns (ok: bool)
    ensures ok <==> AllCurrent(messages, checks)
  {
    for i := 0 to |checks|
      invariant AllCurrent(messages, checks[..i])
    {
      if Window(messages, checks[i].after, checks[i].through) != checks[i].page {
        return false;
      }
      assert checks[..i + 1] == checks[..i] + [checks[i]];
    }
    assert checks[..|checks|] == checks;
    return true;
  }

  predicate AllCurrent(messages: Messages, checks: seq<Manifest>) {
    forall i | 0 <= i < |checks| :: Window(messages, checks[i].after, checks[i].through) == checks[i].page
  }

  // ------------------------------------------------------------------
  // One page job
  // ------------------------------------------------------------------

  // read: the messages when the page was read; now: when its result is applied. answer is None
  // while the page's own chunks go on in another job, and the items if the page has nothing to summarise.
  datatype Input = Input(read: Messages, now: Messages, boundary: nat, answer: Items, historical: Items, more: bool, quiet: bool)

  datatype Outcome = Stale | Pending(draft: Draft) | Complete(manifests: seq<Manifest>, items: Items)

  function AfterPage(initial: Items, d: Draft, x: Input): Items {
    if x.quiet then d.items else Recovered(initial, x.answer, x.historical)
  }

  function Page(initial: Items, d: Draft, through: nat, x: Input): Outcome {
    var page := Manifest(d.after, x.boundary, Window(x.read, d.after, x.boundary));
    var manifests := d.manifests + [page];
    var completed := x.boundary == through || |page.page| < PAGE;
    if !AllCurrent(x.now, if completed then manifests else [page]) then Stale
    else if x.more then Pending(d)
    else if !completed then Pending(Draft(x.boundary, manifests, AfterPage(initial, d, x)))
    else Complete(manifests, AfterPage(initial, d, x))
  }

  function Pages(initial: Items, d: Draft, through: nat, xs: seq<Input>): Outcome
    decreases |xs|
  {
    if xs == [] then Pending(d)
    else match Page(initial, d, through, xs[0])
      case Pending(next) => Pages(initial, next, through, xs[1..])
      case other => other
  }

  // Every page was a page of what was there when it was read.
  ghost predicate AllPages(initial: Items, d: Draft, through: nat, xs: seq<Input>)
    decreases |xs|
  {
    xs == []
    || (IsPage(xs[0].read, d.after, through, xs[0].boundary)
        && match Page(initial, d, through, xs[0])
           case Pending(next) => AllPages(initial, next, through, xs[1..])
           case _ => true)
  }

  // ------------------------------------------------------------------
  // Properties
  // ------------------------------------------------------------------

  // The manifests lead from one bound to another without gap or overlap.
  ghost predicate Contiguous(after: nat, manifests: seq<Manifest>, through: nat)
    decreases |manifests|
  {
    if manifests == [] then after == through
    else manifests[|manifests| - 1].through == through && manifests[|manifests| - 1].after < through
         && Contiguous(after, manifests[..|manifests| - 1], manifests[|manifests| - 1].after)
  }

  lemma {:induction false} ContiguousGrows(after: nat, manifests: seq<Manifest>, through: nat)
    requires Contiguous(after, manifests, through)
    ensures after <= through
    decreases |manifests|
  {
    if manifests != [] {
      ContiguousGrows(after, manifests[..|manifests| - 1], manifests[|manifests| - 1].after);
    }
  }

  lemma {:induction false} ContiguousSnoc(after: nat, manifests: seq<Manifest>, page: Manifest)
    requires Contiguous(after, manifests, page.after) && page.after < page.through
    ensures Contiguous(after, manifests + [page], page.through)
  {
    assert (manifests + [page])[..|manifests|] == manifests;
  }

  lemma {:induction false} RecoveredProtects(initial: Items, x: Input, xs: set<Input>)
    requires x in xs
    ensures Protects(initial, Recovered(initial, x.answer, x.historical))
    ensures Sourced(initial, Recovered(initial, x.answer, x.historical), xs)
  {
  }

  ghost predicate Protects(initial: Items, items: Items) {
    forall id | id in initial :: id in items && items[id] == initial[id]
  }

  // Whatever was added came out of the review of some page, and its history had not closed it.
  ghost predicate Sourced(initial: Items, items: Items, xs: set<Input>) {
    forall id | id in items && id !in initial ::
      exists x :: x in xs && id in x.answer && items[id] == x.answer[id] && Returns(x.historical, id)
  }

  ghost predicate DraftSound(start: nat, initial: Items, d: Draft, xs: set<Input>) {
    Contiguous(start, d.manifests, d.after) && Protects(initial, d.items) && Sourced(initial, d.items, xs)
  }

  // Together, current pages are all current messages of the range.
  function AllPagesOf(manifests: seq<Manifest>): Messages {
    if manifests == [] then map[] else AllPagesOf(manifests[..|manifests| - 1]) + manifests[|manifests| - 1].page
  }

  lemma {:induction false} PagesCover(messages: Messages, after: nat, manifests: seq<Manifest>, through: nat)
    requires Contiguous(after, manifests, through) && AllCurrent(messages, manifests)
    ensures AllPagesOf(manifests) == Window(messages, after, through)
    decreases |manifests|
  {
    if manifests != [] {
      var n := |manifests| - 1;
      var last := manifests[n];
      assert AllCurrent(messages, manifests[..n]) by {
        assert forall i | 0 <= i < n :: manifests[..n][i] == manifests[i];
      }
      PagesCover(messages, after, manifests[..n], last.after);
      ContiguousGrows(after, manifests[..n], last.after);
      assert Window(messages, after, through) == Window(messages, after, last.after) + last.page;
    }
  }

  lemma {:induction false} EmptyWindow(messages: Messages, bound: nat)
    ensures Window(messages, bound, bound) == map[]
  {
  }

  lemma {:induction false} NothingBeyond(messages: Messages, after: nat, boundary: nat, through: nat)
    requires after < boundary && Window(messages, after, boundary) == Window(messages, after, through)
    ensures Window(messages, boundary, through) == map[]
  {
    var w := Window(messages, after, through);
    assert forall m | m in Window(messages, boundary, through) :: m in w && m !in Window(messages, after, boundary);
  }

  lemma {:induction false} PageKeeps(start: nat, initial: Items, d: Draft, through: nat, x: Input, xs: set<Input>)
    requires DraftSound(start, initial, d, xs) && x in xs && IsPage(x.read, d.after, through, x.boundary)
    ensures var o := Page(initial, d, through, x);
            match o
            case Stale => true
            case Pending(next) => DraftSound(start, initial, next, xs)
            case Complete(manifests, items) =>
              Contiguous(start, manifests, x.boundary) && Protects(initial, items) && Sourced(initial, items, xs) && AllCurrent(x.now, manifests)
              && manifests[|manifests| - 1] == Manifest(d.after, x.boundary, Window(x.read, d.after, x.boundary))
              && Window(x.read, x.boundary, through) == map[]
  {
    hide Window, AllCurrent, Contiguous, Recovered, Protects, Sourced;
    var page := Manifest(d.after, x.boundary, Window(x.read, d.after, x.boundary));
    ContiguousSnoc(start, d.manifests, page);
    RecoveredProtects(initial, x, xs);
    EmptyWindow(x.read, x.boundary);
    assert Protects(initial, Recovered(initial, x.answer, x.historical));
    if x.boundary < through && |page.page| < PAGE {
      NothingBeyond(x.read, d.after, x.boundary, through);
    }
  }

  // The last page whose review was finished, if any page had something to summarise.
  function LastReview(xs: seq<Input>): Option<Input>
    decreases |xs|
  {
    if xs == [] then None
    else if LastReview(xs[1..]).Some? then LastReview(xs[1..])
    else if !xs[0].quiet && !xs[0].more then Some(xs[0]) else None
  }

  ghost predicate ItemsOf(initial: Items, d: Draft, xs: seq<Input>, items: Items) {
    match LastReview(xs)
    case None => items == d.items
    case Some(x) => Reviewed(initial, x, items)
  }

  lemma {:induction false} RecoveredReviewed(initial: Items, x: Input)
    ensures Reviewed(initial, x, Recovered(initial, x.answer, x.historical))
  {
  }

  // How many page jobs it took.
  function Jobs(initial: Items, d: Draft, through: nat, xs: seq<Input>): (n: nat)
    ensures n <= |xs| && (xs != [] ==> n > 0)
    decreases |xs|
  {
    if xs == [] then 0
    else match Page(initial, d, through, xs[0])
      case Pending(next) => 1 + Jobs(initial, next, through, xs[1..])
      case _ => 1
  }

  lemma {:induction false} PageItems(initial: Items, d: Draft, through: nat, x: Input, rest: seq<Input>, items: Items)
    requires match Page(initial, d, through, x)
             case Stale => false
             case Pending(next) => ItemsOf(initial, next, rest, items)
             case Complete(_, done) => rest == [] && items == done && !x.more
    ensures ItemsOf(initial, d, [x] + rest, items)
  {
    hide Window, AllCurrent, Reviewed, Recovered;
    RecoveredReviewed(initial, x);
    var xs := [x] + rest;
    assert xs[1..] == rest && xs[0] == x;
    assert LastReview(xs) == if LastReview(rest).Some? then LastReview(rest) else if !x.quiet && !x.more then Some(x) else None;
  }

  lemma {:induction false} CompletedItems(initial: Items, d: Draft, through: nat, xs: seq<Input>)
    requires Pages(initial, d, through, xs).Complete?
    ensures ItemsOf(initial, d, xs[..Jobs(initial, d, through, xs)], Pages(initial, d, through, xs).items)
    decreases |xs|
  {
    hide ItemsOf, Page;
    var n := Jobs(initial, d, through, xs);
    PageMore(initial, d, through, xs[0]);
    assert xs[..n] == [xs[0]] + xs[1..][..n - 1];
    match Page(initial, d, through, xs[0]) {
      case Pending(next) => CompletedItems(initial, next, through, xs[1..]);
      case _ =>
    }
    PageItems(initial, d, through, xs[0], xs[1..][..n - 1], Pages(initial, d, through, xs).items);
  }

  lemma {:induction false} PageMore(initial: Items, d: Draft, through: nat, x: Input)
    ensures Page(initial, d, through, x).Complete? ==> !x.more
  {
  }

  // However the pages went and whatever changed meanwhile, a completed re-verification rests on pages
  // that are, when it commits, all the messages from the start bound to the last page's end, with the
  // contents that were reviewed; beyond that end there was nothing left to read; and its items are those
  // of the reviewed checkpoint, unchanged, and exactly those the last finished review answered that
  // history had not closed by then.
  lemma {:induction false} CompletedIsCurrent(start: nat, initial: Items, d: Draft, through: nat, xs: seq<Input>, all: set<Input>)
    requires DraftSound(start, initial, d, all) && AllPages(initial, d, through, xs)
    requires Pages(initial, d, through, xs).Complete? && forall x | x in xs :: x in all
    ensures var done, n := Pages(initial, d, through, xs), Jobs(initial, d, through, xs); var last := xs[n - 1];
            Contiguous(start, done.manifests, last.boundary)
            && AllPagesOf(done.manifests) == Window(last.now, start, last.boundary)
            && Window(last.read, last.boundary, through) == map[]
            && Protects(initial, done.items) && Sourced(initial, done.items, all)
            && ItemsOf(initial, d, xs[..n], done.items)
    decreases |xs|
  {
    hide Sourced, Protects, Contiguous, ItemsOf;
    assert xs[0] in xs;
    CompletedItems(initial, d, through, xs);
    PageKeeps(start, initial, d, through, xs[0], all);
    match Page(initial, d, through, xs[0])
    case Pending(next) =>
      assert forall x | x in xs[1..] :: x in xs;
      CompletedIsCurrent(start, initial, next, through, xs[1..], all);
    case Complete(manifests, items) =>
      PagesCover(xs[0].now, start, manifests, xs[0].boundary);
    case Stale =>
      assert false;
  }

  // When nothing changes meanwhile, it does complete, with a job for every page.
  lemma {:induction false} CompletesUndisturbed(initial: Items, d: Draft, through: nat, xs: seq<Input>, messages: Messages)
    requires AllPages(initial, d, through, xs) && AllCurrent(messages, d.manifests)
    requires forall x | x in xs :: x.read == messages && x.now == messages && !x.more
    requires |Window(messages, d.after, through)| < PAGE * |xs|
    ensures Pages(initial, d, through, xs).Complete?
    decreases |xs|
  {
    hide Window, Recovered;
    var x := xs[0];
    assert x in xs;
    WindowParts(messages, d.after, x.boundary, through);
    var manifests := d.manifests + [Manifest(d.after, x.boundary, Window(messages, d.after, x.boundary))];
    assert AllCurrent(messages, manifests);
    match Page(initial, d, through, x)
    case Pending(next) =>
      assert forall y | y in xs[1..] :: y in xs;
      CompletesUndisturbed(initial, next, through, xs[1..], messages);
    case Complete(_, _) =>
    case Stale => assert false;
  }

  lemma {:induction false} WindowParts(messages: Messages, after: nat, boundary: nat, through: nat)
    requires after <= boundary <= through
    ensures |Window(messages, after, through)| == |Window(messages, after, boundary)| + |Window(messages, boundary, through)|
  {
    var a, b, w := Window(messages, after, boundary), Window(messages, boundary, through), Window(messages, after, through);
    assert w.Keys == a.Keys + b.Keys && a.Keys !! b.Keys;
    assert |w| == |w.Keys| && |a| == |a.Keys| && |b| == |b.Keys|;
  }

  // The draft a re-verification starts from.
  lemma {:induction false} FirstDraft(start: nat, initial: Items, all: set<Input>)
    ensures DraftSound(start, initial, Draft(start, [], initial), all)
  {
  }

  // ------------------------------------------------------------------
  // The commit
  // ------------------------------------------------------------------

  // What a completed re-verification of the head asks the insert for: the head as parent, and its end.
  function Committing(s: State, head: Row, done: Outcome, ids: seq<nat>, contents: seq<(nat, nat)>): Request
    requires done.Complete?
  {
    Request(s.generation, s.baseline, ids, head.through, Some(head.id), Fingerprint(Some(head.id), contents))
  }

  // Among published checkpoints nothing comes of it: over every run of the chain, and however the pages
  // went, the insert of a completed re-verification leaves the chain as it is, because the index on
  // published ends already holds the head's. Only the rows of a building preparation, which are not
  // published, are outside that index and this chain.
  lemma {:induction false} PublicReverifyNeverCommits(s: State, initial: Items, d: Draft, xs: seq<Input>,
                                                      ids: seq<nat>, contents: seq<(nat, nat)>)
    requires Reachable(s) && s.rows != []
    requires Pages(initial, d, Latest(s.rows).value.through, xs).Complete?
    ensures var head := Latest(s.rows).value; var done := Pages(initial, d, head.through, xs);
            Insert(s, Committing(s, head, done, ids, contents)) == s
  {
    hide Reachable, Pages, Insert;
    ReachableInv(s);
    var head := Latest(s.rows).value;
    HeadEndNeverGetsIn(s, Committing(s, head, Pages(initial, d, head.through, xs), ids, contents));
  }
}
