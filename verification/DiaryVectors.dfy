// Moving diary vectors between the members' own rows and one shared row per public
// text. Prune and restore never change the vector a reader sees; link changes it only
// where a document without a vector of its own waited for a shared row it completes.
module DiaryVectors {
  import opened Wrappers

  type Vector = nat

  // Equal exactly for equal (source_hash, embedding_model, index_version).
  type Key = nat

  datatype Action = Link | Prune | Restore

  datatype Mode = PrivateMode | Dual | SharedMode

  // visible: published, not withdrawn, hash and text in step. due: its time has come.
  datatype Doc = Doc(key: Key, text: string, own: Option<Vector>, link: Option<nat>, updated: nat,
                     visible: bool, due: bool, current: bool, approved: bool)

  // A row of diary_template_embeddings; pending while it has no vector.
  datatype Template = Template(id: nat, text: string, vector: Option<Vector>)

  // Documents in the order of (user_id, diary_id), from 1.
  type Docs = map<nat, Doc>

  type Templates = map<Key, Template>

  // A reviewed entry of the plan; digests stand for the values themselves.
  datatype Entry = Entry(key: Key, text: string, vector: Vector)

  // ------------------------------------------------------------------
  // What a reader sees
  // ------------------------------------------------------------------

  // The linked template, if it is this text's and ready.
  function Joined(d: Doc, templates: Templates): Option<Vector> {
    if d.link.Some? && d.key in templates && templates[d.key].id == d.link.value && templates[d.key].text == d.text
    then templates[d.key].vector else None
  }

  function Effective(d: Doc, templates: Templates): Option<Vector> {
    if d.own.Some? then d.own else Joined(d, templates)
  }

  predicate SharedOnly(d: Doc) {
    d.link.Some? && d.own.None?
  }

  ghost predicate SameView(docs: Docs, templates: Templates, docs': Docs, templates': Templates) {
    docs'.Keys == docs.Keys && forall id | id in docs :: Effective(docs'[id], templates') == Effective(docs[id], templates)
  }

  ghost predicate ReadyKept(templates: Templates, templates': Templates) {
    forall k | k in templates && templates[k].vector.Some? :: k in templates' && templates'[k] == templates[k]
  }

  // ------------------------------------------------------------------
  // One document
  // ------------------------------------------------------------------

  predicate Eligible(a: Action, d: Doc) {
    d.visible && (a.Restore? || (d.due && d.current && d.approved))
  }

  predicate Wants(a: Action, d: Doc, templates: Templates) {
    match a
    case Link => d.own.Some? && d.link.None?
    case Prune => d.own.Some? && Joined(d, templates) == d.own
    case Restore => d.own.None? && Joined(d, templates).Some?
  }

  predicate Candidate(a: Action, e: Entry, d: Doc, templates: Templates, cutoff: nat) {
    Eligible(a, d) && Wants(a, d, templates) && d.key == e.key && d.text == e.text
    && Effective(d, templates) == Some(e.vector) && d.updated <= cutoff
  }

  // The template holds exactly the reviewed vector for exactly the reviewed text.
  predicate Canonical(e: Entry, templates: Templates) {
    e.key in templates && templates[e.key].text == e.text && templates[e.key].vector == Some(e.vector)
  }

  // The guarded UPDATE of mutate_one.
  function Mutated(a: Action, e: Entry, d: Doc, templates: Templates, now: nat): Option<Doc> {
    if !(Eligible(a, d) && d.key == e.key && d.text == e.text && Canonical(e, templates)) then None
    else
      var t := templates[e.key];
      match a
      case Link => if d.link.None? && d.own == t.vector then Some(d.(link := Some(t.id), updated := now)) else None
      case Prune => if d.link == Some(t.id) && d.own == t.vector then Some(d.(own := None, updated := now)) else None
      case Restore => if d.link == Some(t.id) && d.own.None? then Some(d.(own := t.vector, updated := now)) else None
  }

  // The reader sees the same vector, and the document is no candidate any more.
  lemma {:induction false} MutatedKeepsView(a: Action, e: Entry, d: Doc, templates: Templates, now: nat)
    requires Mutated(a, e, d, templates, now).Some?
    ensures var d' := Mutated(a, e, d, templates, now).value;
            Effective(d', templates) == Effective(d, templates) && !Wants(a, d', templates)
            && (SharedOnly(d') ==> Joined(d', templates).Some?)
  {
  }

  // What the reviewed plan selects, the locked step carries out.
  lemma {:induction false} CandidateSucceeds(a: Action, e: Entry, d: Doc, templates: Templates, cutoff: nat, now: nat)
    requires Candidate(a, e, d, templates, cutoff) && (a.Link? ==> Canonical(e, templates))
    ensures Mutated(a, e, d, templates, now).Some?
  {
  }

  // ------------------------------------------------------------------
  // The canonical template
  // ------------------------------------------------------------------

  // A missing template is inserted, a pending one of the same text completed, a ready one left alone.
  function Seeded(e: Entry, templates: Templates, nextId: nat): Templates {
    if e.key !in templates then templates[e.key := Template(nextId, e.text, Some(e.vector))]
    else if templates[e.key].text == e.text && templates[e.key].vector.None?
    then templates[e.key := templates[e.key].(vector := Some(e.vector))]
    else templates
  }

  ghost predicate Known(docs: Docs, templates: Templates, nextId: nat) {
    (forall id | id in docs :: id > 0 && (docs[id].link.Some? ==> docs[id].link.value < nextId))
    && forall k | k in templates :: templates[k].id < nextId
  }

  // Linked to its template without a vector of its own, and the template still pending: what the
  // service makes of a new document in dual and shared mode.
  predicate Waiting(d: Doc, templates: Templates) {
    d.own.None? && d.link.Some? && d.key in templates && templates[d.key].id == d.link.value
    && templates[d.key].text == d.text && templates[d.key].vector.None?
  }

  lemma {:induction false} SeedKeepsReady(e: Entry, templates: Templates, nextId: nat)
    ensures ReadyKept(templates, Seeded(e, templates, nextId))
  {
  }

  // Seeding changes what a reader sees exactly when some document waits for the template it completes.
  lemma {:induction false} SeedView(docs: Docs, e: Entry, templates: Templates, nextId: nat)
    requires Known(docs, templates, nextId)
    ensures SameView(docs, templates, docs, Seeded(e, templates, nextId))
            <==> forall id | id in docs :: !(Waiting(docs[id], templates) && docs[id].key == e.key && docs[id].text == e.text)
  {
    var templates' := Seeded(e, templates, nextId);
    forall id | id in docs
      ensures Effective(docs[id], templates') == Effective(docs[id], templates)
              <==> !(Waiting(docs[id], templates) && docs[id].key == e.key && docs[id].text == e.text)
    {
    }
  }

  // With such a document a reader's answer appears out of nothing.
  lemma {:induction false} SeedMayComplete()
    ensures var docs: Docs := map[1 := Doc(5, "t", None, Some(0), 0, true, true, true, true)];
            var templates: Templates := map[5 := Template(0, "t", None)];
            var e := Entry(5, "t", 9);
            Known(docs, templates, 1) && Effective(docs[1], templates) == None
            && Effective(docs[1], Seeded(e, templates, 1)) == Some(9)
  {
  }

  // ------------------------------------------------------------------
  // A page of candidates
  // ------------------------------------------------------------------

  function Candidates(a: Action, e: Entry, docs: Docs, templates: Templates, cutoff: nat): set<nat> {
    set id | id in docs && Candidate(a, e, docs[id], templates, cutoff)
  }

  // ORDER BY .. LIMIT: the first ids behind the cursor.
  ghost predicate IsPage(ids: set<nat>, cursor: nat, limit: nat, rows: seq<nat>) {
    |rows| <= limit
    && (forall i, j | 0 <= i < j < |rows| :: rows[i] < rows[j])
    && (forall i | 0 <= i < |rows| :: rows[i] in ids && rows[i] > cursor)
    && forall id | id in ids && id > cursor && id !in rows :: |rows| == limit && forall i | 0 <= i < |rows| :: rows[i] < id
  }

  lemma {:induction false} LeastExists(ids: set<nat>, id: nat)
    requires id in ids
    ensures exists least :: least in ids && forall j | j in ids :: least <= j
    decreases id
  {
    if smaller :| smaller in ids && smaller < id {
      LeastExists(ids, smaller);
    }
  }

  method Least(ids: set<nat>) returns (least: nat)
    requires ids != {}
    ensures least in ids && forall j | j in ids :: least <= j
  {
    ghost var id :| id in ids;
    LeastExists(ids, id);
    least :| least in ids && forall j | j in ids :: least <= j;
  }

  method Page(ids: set<nat>, cursor: nat, limit: nat) returns (rows: seq<nat>)
    ensures IsPage(ids, cursor, limit, rows)
  {
    rows := [];
    var left := set id | id in ids && id > cursor;
    while left != {} && |rows| < limit
      invariant |rows| <= limit
      invariant forall i, j | 0 <= i < j < |rows| :: rows[i] < rows[j]
      invariant forall i | 0 <= i < |rows| :: rows[i] in ids && rows[i] > cursor
      invariant forall i, id | 0 <= i < |rows| && id in left :: rows[i] < id
      invariant forall id | id in left :: id in ids && id > cursor
      invariant forall id | id in ids && id > cursor :: id in left || id in rows
      decreases left
    {
      var id := Least(left);
      rows, left := rows + [id], left - {id};
    }
  }

  // ------------------------------------------------------------------
  // The tool
  // ------------------------------------------------------------------

  predicate Allows(a: Action, m: Mode) {
    match a
    case Prune => m.SharedMode?
    case _ => !m.SharedMode?
  }

  // A document seed_canonical may take the vector from.
  predicate Offers(e: Entry, d: Doc, templates: Templates, cutoff: nat) {
    Eligible(Link, d) && d.key == e.key && d.text == e.text && Effective(d, templates) == Some(e.vector) && d.updated <= cutoff
  }

  datatype Counts = Counts(changed: nat, skipped: nat, batches: nat, more: bool, sharedOnly: nat, rollbackReady: bool)

  // What any number of steps for these entries make of one document: a waiting one waits on, untouched,
  // or sees the vector of the entry that completed its template; any other sees what it saw.
  ghost predicate DocKept(d: Doc, templates: Templates, d': Doc, templates': Templates, entries: set<Entry>) {
    if !Waiting(d, templates) then !Waiting(d', templates') && Effective(d', templates') == Effective(d, templates)
    else
      d.key in templates'
      && if templates'[d.key].vector.None? then d' == d && Waiting(d', templates')
         else !Waiting(d', templates') && Effective(d', templates') == templates'[d.key].vector
              && exists e :: e in entries && e.key == d.key && e.text == d.text && Some(e.vector) == templates'[d.key].vector
  }

  ghost predicate Kept(docs: Docs, templates: Templates, docs': Docs, templates': Templates, entries: set<Entry>) {
    docs'.Keys == docs.Keys && ReadyKept(templates, templates')
    && forall id | id in docs :: DocKept(docs[id], templates, docs'[id], templates', entries)
  }

  lemma {:induction false} DocKeptTwice(a: Doc, ta: Templates, b: Doc, tb: Templates, c: Doc, tc: Templates, entries: set<Entry>)
    requires DocKept(a, ta, b, tb, entries) && DocKept(b, tb, c, tc, entries) && ReadyKept(tb, tc)
    ensures DocKept(a, ta, c, tc, entries)
  {
  }

  lemma {:induction false} KeptTwice(a: Docs, ta: Templates, b: Docs, tb: Templates, c: Docs, tc: Templates, entries: set<Entry>)
    requires Kept(a, ta, b, tb, entries) && Kept(b, tb, c, tc, entries)
    ensures Kept(a, ta, c, tc, entries)
  {
    hide DocKept;
    forall k | k in ta && ta[k].vector.Some? ensures k in tc && tc[k] == ta[k] {
      assert tb[k] == ta[k];
    }
    forall id | id in a ensures DocKept(a[id], ta, c[id], tc, entries) {
      DocKeptTwice(a[id], ta, b[id], tb, c[id], tc, entries);
    }
  }

  lemma {:induction false} NothingKept(docs: Docs, templates: Templates, entries: set<Entry>)
    ensures Kept(docs, templates, docs, templates, entries)
  {
  }

  lemma {:induction false} SeedKept(docs: Docs, e: Entry, templates: Templates, nextId: nat, entries: set<Entry>)
    requires Known(docs, templates, nextId) && e in entries
    ensures Kept(docs, templates, docs, Seeded(e, templates, nextId), entries) && Known(docs, Seeded(e, templates, nextId), nextId + 1)
  {
    var templates' := Seeded(e, templates, nextId);
    forall id | id in docs ensures DocKept(docs[id], templates, docs[id], templates', entries) {
    }
  }

  lemma {:induction false} MutatedKept(a: Action, e: Entry, docs: Docs, templates: Templates, nextId: nat, id: nat, now: nat, entries: set<Entry>)
    requires Known(docs, templates, nextId) && id in docs && Mutated(a, e, docs[id], templates, now).Some?
    ensures var docs' := docs[id := Mutated(a, e, docs[id], templates, now).value];
            Kept(docs, templates, docs', templates, entries) && Known(docs', templates, nextId)
  {
    MutatedKeepsView(a, e, docs[id], templates, now);
  }

  lemma {:induction false} CandidateGone(a: Action, e: Entry, docs: Docs, templates: Templates, id: nat, now: nat, x: Entry, cutoff: nat)
    requires id in docs && Mutated(a, e, docs[id], templates, now).Some?
    ensures var docs' := docs[id := Mutated(a, e, docs[id], templates, now).value];
            Candidates(a, x, docs', templates, cutoff) == Candidates(a, x, docs, templates, cutoff) - {id}
  {
    hide Mutated, Joined;
    MutatedKeepsView(a, e, docs[id], templates, now);
  }

  // What a reader sees afterwards: another vector exactly where the document waited for a template that
  // is complete now, and then the vector of an entry for its text.
  ghost predicate MovesExactly(docs: Docs, templates: Templates, docs': Docs, templates': Templates, entries: set<Entry>) {
    docs'.Keys == docs.Keys
    && forall id | id in docs ::
         (Effective(docs'[id], templates') != Effective(docs[id], templates)
          <==> Waiting(docs[id], templates) && docs[id].key in templates' && templates'[docs[id].key].vector.Some?)
         && (Effective(docs'[id], templates') != Effective(docs[id], templates) ==>
               exists e :: e in entries && e.key == docs[id].key && e.text == docs[id].text
                           && Effective(docs'[id], templates') == Some(e.vector))
  }

  lemma {:induction false} ViewMoves(docs: Docs, templates: Templates, docs': Docs, templates': Templates, entries: set<Entry>)
    requires Kept(docs, templates, docs', templates', entries)
    ensures MovesExactly(docs, templates, docs', templates', entries)
  {
    forall id | id in docs
      ensures Effective(docs'[id], templates') != Effective(docs[id], templates)
              <==> Waiting(docs[id], templates) && docs[id].key in templates' && templates'[docs[id].key].vector.Some?
      ensures Effective(docs'[id], templates') != Effective(docs[id], templates) ==>
                exists e :: e in entries && e.key == docs[id].key && e.text == docs[id].text
                            && Effective(docs'[id], templates') == Some(e.vector)
    {
      assert DocKept(docs[id], templates, docs'[id], templates', entries);
    }
  }

  // With the templates as they were, nothing moves.
  lemma {:induction false} ViewStays(docs: Docs, templates: Templates, docs': Docs, entries: set<Entry>)
    requires Kept(docs, templates, docs', templates, entries)
    ensures SameView(docs, templates, docs', templates)
  {
    forall id | id in docs ensures Effective(docs'[id], templates) == Effective(docs[id], templates) {
      assert DocKept(docs[id], templates, docs'[id], templates, entries);
    }
  }

  // ------------------------------------------------------------------
  // What the tool does to one document
  // ------------------------------------------------------------------

  // Link joins a document to a template that holds its own vector, prune takes away a vector the joined
  // template holds, restore brings that vector back; or nothing is done to it.
  ghost predicate Moved(a: Action, d: Doc, d': Doc, templates: Templates) {
    d' == d
    || (d' == d.(own := d'.own, link := d'.link, updated := d'.updated)
        && match a
           case Link => d.own.Some? && d.link.None? && d'.own == d.own && Joined(d', templates) == d.own
           case Prune => d.own.Some? && d'.own.None? && d'.link == d.link && Joined(d', templates) == d.own
           case Restore => d.own.None? && d'.own.Some? && d'.link == d.link && Joined(d', templates) == d'.own)
  }

  ghost predicate AllMoved(a: Action, docs: Docs, docs': Docs, templates: Templates) {
    docs'.Keys == docs.Keys && forall id | id in docs :: Moved(a, docs[id], docs'[id], templates)
  }

  ghost function Changed(docs: Docs, docs': Docs): set<nat> {
    set id | id in docs && id in docs' && docs'[id] != docs[id]
  }

  lemma {:induction false} NothingMoved(a: Action, docs: Docs, templates: Templates)
    ensures AllMoved(a, docs, docs, templates) && Changed(docs, docs) == {}
  {
  }

  // No document is changed twice.
  lemma {:induction false} MovedOnce(a: Action, e: Entry, docs: Docs, docs': Docs, templates: Templates, id: nat, now: nat)
    requires AllMoved(a, docs, docs', templates) && id in docs' && Mutated(a, e, docs'[id], templates, now).Some?
    ensures var docs'' := docs'[id := Mutated(a, e, docs'[id], templates, now).value];
            AllMoved(a, docs, docs'', templates) && |Changed(docs, docs'')| == |Changed(docs, docs')| + 1
  {
    var docs'' := docs'[id := Mutated(a, e, docs'[id], templates, now).value];
    assert Moved(a, docs[id], docs'[id], templates) && docs'[id] == docs[id];
    assert Moved(a, docs[id], docs''[id], templates) && docs''[id] != docs[id];
    assert Changed(docs, docs'') == Changed(docs, docs') + {id};
  }

  lemma {:induction false} MovedStays(a: Action, docs: Docs, docs': Docs, templates: Templates, templates': Templates)
    requires AllMoved(a, docs, docs', templates) && ReadyKept(templates, templates')
    ensures AllMoved(a, docs, docs', templates')
  {
    forall id | id in docs ensures Moved(a, docs[id], docs'[id], templates') {
      assert Moved(a, docs[id], docs'[id], templates);
    }
  }

  // ------------------------------------------------------------------
  // What a plan achieves
  // ------------------------------------------------------------------

  // The entry's template is there, and complete if it is for the entry's text.
  predicate Served(e: Entry, templates: Templates) {
    e.key in templates && (templates[e.key].text == e.text ==> templates[e.key].vector.Some?)
  }

  ghost predicate Offered(e: Entry, docs: Docs, templates: Templates, cutoff: nat) {
    exists id :: id in docs && Offers(e, docs[id], templates, cutoff)
  }

  lemma {:induction false} ServedStays(x: Entry, e: Entry, templates: Templates, nextId: nat)
    ensures Served(x, templates) ==> Served(x, Seeded(e, templates, nextId))
    ensures Served(e, Seeded(e, templates, nextId))
  {
  }

  // An entry that a document offered at the start is offered still, or served by now.
  lemma {:induction false} OfferedStill(e: Entry, docs: Docs, templates: Templates, docs': Docs, templates': Templates, cutoff: nat)
    requires Offered(e, docs, templates, cutoff) && AllMoved(Link, docs, docs', templates') && ReadyKept(templates, templates')
    ensures Offered(e, docs', templates', cutoff) || Served(e, templates')
  {
    var id :| id in docs && Offers(e, docs[id], templates, cutoff);
    assert Moved(Link, docs[id], docs'[id], templates');
    if docs'[id] == docs[id] {
      assert Offers(e, docs'[id], templates', cutoff);
    }
  }

  // Every candidate of the plan, where its template holds the vector, has been changed.
  ghost predicate Covered(a: Action, e: Entry, docs: Docs, templates: Templates, docs': Docs, templates': Templates, cutoff: nat) {
    (a.Link? ==> Canonical(e, templates'))
    ==> forall id | id in Candidates(a, e, docs, templates, cutoff) :: id in docs' && docs'[id] != docs[id]
  }

  lemma {:induction false} NoneLeftCovers(a: Action, e: Entry, docs: Docs, templates: Templates, docs': Docs, templates': Templates, cutoff: nat)
    requires docs'.Keys == docs.Keys && (a.Link? || templates' == templates) && Candidates(a, e, docs', templates', cutoff) == {}
    ensures Covered(a, e, docs, templates, docs', templates', cutoff)
  {
    forall id | id in Candidates(a, e, docs, templates, cutoff) ensures id in docs' && docs'[id] != docs[id] {
      assert Candidate(a, e, docs[id], templates', cutoff);
      assert docs'[id] == docs[id] ==> id in Candidates(a, e, docs', templates', cutoff);
    }
  }

  lemma {:induction false} HandledCovers(a: Action, e: Entry, docs: Docs, templates: Templates, docs': Docs, templates': Templates, cutoff: nat)
    requires AllMoved(a, docs, docs', templates') && (a.Link? || templates' == templates) && Handled(a, e, docs', templates', cutoff)
    ensures Covered(a, e, docs, templates, docs', templates', cutoff)
  {
    hide Candidates, Moved;
    if a.Link? ==> Canonical(e, templates') {
      NoneLeftCovers(a, e, docs, templates, docs', templates', cutoff);
    }
  }

  lemma {:induction false} NoneLeftHandled(a: Action, e: Entry, docs: Docs, templates: Templates, cutoff: nat)
    requires Candidates(a, e, docs, templates, cutoff) == {}
    ensures Handled(a, e, docs, templates, cutoff)
  {
  }

  lemma {:induction false} ReadyStays(templates: Templates)
    ensures ReadyKept(templates, templates)
  {
  }

  // Candidates for linking do not depend on the templates.
  lemma {:induction false} LinkCandidates(e: Entry, docs: Docs, templates: Templates, templates': Templates, cutoff: nat)
    ensures Candidates(Link, e, docs, templates, cutoff) == Candidates(Link, e, docs, templates', cutoff)
  {
  }

  // Seeding makes only this entry canonical.
  lemma {:induction false} SeedsOnly(x: Entry, e: Entry, templates: Templates, nextId: nat)
    ensures Canonical(x, Seeded(e, templates, nextId)) ==> Canonical(x, templates) || x == e
  {
  }

  // What has been done for the entries handled so far: those offered have been served, and where the
  // template holds the vector no candidate is left.
  ghost predicate Handled(a: Action, e: Entry, docs: Docs, templates: Templates, cutoff: nat) {
    (a.Link? ==> Canonical(e, templates)) ==> Candidates(a, e, docs, templates, cutoff) == {}
  }

  lemma {:induction false} SeedStep(e: Entry, docs: Docs, docs': Docs, templates: Templates, templates': Templates, templates'': Templates,
                                    nextId: nat, cutoff: nat, x: Entry)
    requires AllMoved(Link, docs, docs', templates') && ReadyKept(templates, templates')
    requires templates'' == if Offered(e, docs', templates', cutoff) then Seeded(e, templates', nextId) else templates'
    ensures AllMoved(Link, docs, docs', templates'') && ReadyKept(templates, templates'')
    ensures Offered(e, docs, templates, cutoff) ==> Served(e, templates'')
    ensures Served(x, templates') ==> Served(x, templates'')
    ensures x != e && Handled(Link, x, docs', templates', cutoff) ==> Handled(Link, x, docs', templates'', cutoff)
  {
    hide Moved, Candidates, Offers;
    SeedKeepsReady(e, templates', nextId);
    MovedStays(Link, docs, docs', templates', templates'');
    if Offered(e, docs, templates, cutoff) {
      OfferedStill(e, docs, templates, docs', templates', cutoff);
    }
    ServedStays(x, e, templates', nextId);
    ServedStays(e, e, templates', nextId);
    SeedsOnly(x, e, templates', nextId);
    LinkCandidates(x, docs', templates', templates'', cutoff);
  }

  lemma {:induction false} NarrowsHandled(a: Action, x: Entry, docs: Docs, docs': Docs, templates: Templates, cutoff: nat)
    requires Narrows(a, docs, docs', templates) && Handled(a, x, docs, templates, cutoff)
    ensures Handled(a, x, docs', templates, cutoff)
  {
    assert Candidates(a, x, docs', templates, cutoff) <= Candidates(a, x, docs, templates, cutoff);
  }

  lemma {:induction false} CandidatesOffer(e: Entry, docs: Docs, templates: Templates, cutoff: nat)
    requires !Offered(e, docs, templates, cutoff)
    ensures Candidates(Link, e, docs, templates, cutoff) == {}
  {
    forall id | id in docs ensures !Candidate(Link, e, docs[id], templates, cutoff) {
      assert !Offers(e, docs[id], templates, cutoff);
    }
  }

  class Store {
    var docs: Docs
    var templates: Templates
    var nextId: nat
    var now: nat
    var mode: Mode

    ghost predicate Valid()
      reads this
    {
      Known(docs, templates, nextId)
    }

    method SeedCanonical(e: Entry, cutoff: nat) returns (ok: bool)
      requires Valid()
      modifies this`templates, this`nextId
      ensures Valid() && Kept(docs, old(templates), docs, templates, {e})
      ensures templates == if Offered(e, docs, old(templates), cutoff) then Seeded(e, old(templates), old(nextId)) else old(templates)
      ensures ok ==> Canonical(e, templates)
      ensures !ok ==> Handled(Link, e, docs, templates, cutoff)
    {
      hide Candidates;
      if exists id :: id in docs && Offers(e, docs[id], templates, cutoff) {
        SeedKept(docs, e, templates, nextId, {e});
        templates := Seeded(e, templates, nextId);
        nextId := nextId + 1;
        ok := Canonical(e, templates);
      } else {
        NothingKept(docs, templates, {e});
        CandidatesOffer(e, docs, templates, cutoff);
        ok := false;
      }
    }

    method MutateOne(a: Action, e: Entry, id: nat) returns (changed: bool)
      requires Valid() && id in docs
      modifies this`docs
      ensures Valid() && Kept(old(docs), templates, docs, templates, {}) && SameView(old(docs), templates, docs, templates)
      ensures changed == Mutated(a, e, old(docs)[id], templates, now).Some?
      ensures docs == if changed then old(docs)[id := Mutated(a, e, old(docs)[id], templates, now).value] else old(docs)
    {
      NothingKept(docs, templates, {});
      var m := Mutated(a, e, docs[id], templates, now);
      changed := m.Some?;
      if changed {
        MutatedKept(a, e, docs, templates, nextId, id, now, {});
        docs := docs[id := m.value];
      }
      ViewStays(old(docs), templates, docs, {});
    }

    // The candidates of one page.
    method MutatePage(a: Action, e: Entry, cutoff: nat, rows: seq<nat>, ghost origin: Docs) returns (changed: nat, skipped: nat)
      requires AllMoved(a, origin, docs, templates)
      requires Valid() && (a.Link? ==> Canonical(e, templates))
      requires forall i | 0 <= i < |rows| :: rows[i] in Candidates(a, e, docs, templates, cutoff)
      requires forall i, j | 0 <= i < j < |rows| :: rows[i] < rows[j]
      modifies this`docs
      ensures Valid() && Kept(old(docs), templates, docs, templates, {})
      ensures skipped == 0 && changed == |rows|
      ensures AllMoved(a, origin, docs, templates) && |Changed(origin, docs)| == |Changed(origin, old(docs))| + changed
      ensures Narrows(a, old(docs), docs, templates)
      ensures forall i | 0 <= i < |rows| :: rows[i] !in Candidates(a, e, docs, templates, cutoff)
    {
      hide Kept, Known, Candidates, Mutated, SameView, AllMoved, Changed;
      NothingKept(docs, templates, {});
      changed, skipped := 0, 0;
      for i := 0 to |rows|
        invariant Valid() && Kept(old(docs), templates, docs, templates, {})
        invariant skipped == 0 && changed == i
        invariant AllMoved(a, origin, docs, templates) && |Changed(origin, docs)| == |Changed(origin, old(docs))| + i
        invariant Narrows(a, old(docs), docs, templates)
        invariant forall k | i <= k < |rows| :: rows[k] in Candidates(a, e, docs, templates, cutoff)
        invariant forall k | 0 <= k < i :: rows[k] !in Candidates(a, e, docs, templates, cutoff)
      {
        ghost var before := docs;
        CandidateIs(a, e, docs, templates, rows[i], cutoff);
        CandidateSucceeds(a, e, docs[rows[i]], templates, cutoff, now);
        MovedOnce(a, e, origin, docs, templates, rows[i], now);
        var one := MutateOne(a, e, rows[i]);
        KeptTwice(old(docs), templates, before, templates, docs, templates, {});
        forall x: Entry, c ensures Candidates(a, x, docs, templates, c) == Candidates(a, x, before, templates, c) - {rows[i]} {
          CandidateGone(a, e, before, templates, rows[i], now, x, c);
        }
        changed, skipped := changed + (if one then 1 else 0), skipped + (if one then 0 else 1);
      }
    }

    // All pages of one entry, as far as the batches go.
    method ApplyEntry(a: Action, e: Entry, cutoff: nat, batch: nat, maxBatches: nat, used: nat, ghost origin: Docs)
      returns (changed: nat, skipped: nat, batches: nat, more: bool)
      requires Valid() && (a.Link? ==> Canonical(e, templates)) && batch > 0 && used <= maxBatches
      requires AllMoved(a, origin, docs, templates)
      modifies this`docs
      ensures Valid() && Kept(old(docs), templates, docs, templates, {}) && SameView(old(docs), templates, docs, templates)
      ensures skipped == 0 && used <= batches <= maxBatches
      ensures AllMoved(a, origin, docs, templates) && |Changed(origin, docs)| == |Changed(origin, old(docs))| + changed
      ensures Narrows(a, old(docs), docs, templates)
      ensures !more ==> Candidates(a, e, docs, templates, cutoff) == {}
      ensures more ==> batches == maxBatches
    {
      hide Kept, Known, SameView, AllMoved, Changed;
      NothingKept(docs, templates, {});
      CandidatesPositive(a, e, docs, templates, cutoff, nextId);
      var cursor: nat := 0;
      changed, skipped, batches, more := 0, 0, used, true;
      while batches < maxBatches
        invariant Valid() && Kept(old(docs), templates, docs, templates, {})
        invariant skipped == 0 && used <= batches <= maxBatches && more
        invariant AllMoved(a, origin, docs, templates) && |Changed(origin, docs)| == |Changed(origin, old(docs))| + changed
        invariant Narrows(a, old(docs), docs, templates)
        invariant forall id | id in Candidates(a, e, docs, templates, cutoff) :: id > cursor
        decreases maxBatches - batches
      {
        ghost var before := docs;
        var rows := Page(Candidates(a, e, docs, templates, cutoff), cursor, batch);
        var c, k := MutatePage(a, e, cutoff, rows, origin);
        KeptTwice(old(docs), templates, before, templates, docs, templates, {});
        changed, skipped := changed + c, skipped + k;
        if rows != [] {
          cursor := rows[|rows| - 1];
          batches := batches + 1;
        }
        if |rows| < batch {
          more := false;
          break;
        }
      }
      ViewStays(old(docs), templates, docs, {});
    }

    // One entry of the plan: its template if it is to be linked, and then its documents.
    method ApplyOne(a: Action, e: Entry, cutoff: nat, batch: nat, maxBatches: nat, n: Counts, ghost origin: Docs, ghost seeded: Templates,
                    ghost named: set<Entry>)
      returns (n': Counts)
      requires Valid() && batch > 0 && n.batches <= maxBatches && n.skipped == 0 && !n.more && e in named
      requires Kept(origin, seeded, docs, templates, named) && ReadyKept(seeded, templates)
      requires AllMoved(a, origin, docs, templates) && n.changed == |Changed(origin, docs)|
      requires a.Link? || templates == seeded
      modifies this`docs, this`templates, this`nextId
      ensures Valid() && Kept(origin, seeded, docs, templates, named) && ReadyKept(seeded, templates)
      ensures AllMoved(a, origin, docs, templates) && n'.changed == |Changed(origin, docs)|
      ensures a.Link? || templates == seeded
      ensures n'.skipped == 0 && n.batches <= n'.batches <= maxBatches
      ensures a.Link? && Offered(e, origin, seeded, cutoff) ==> Served(e, templates)
      ensures a.Link? ==> forall x :: Served(x, old(templates)) ==> Served(x, templates)
      ensures !n'.more ==> Handled(a, e, docs, templates, cutoff)
      ensures !n'.more ==> forall x :: Handled(a, x, old(docs), old(templates), cutoff) ==> Handled(a, x, docs, templates, cutoff)
    {
      hide Kept, Known, SameView, Candidates, ReadyKept, AllMoved, Changed, Handled, Served, Offered, Canonical, Narrows;
      n' := n;
      if a.Link? {
        ghost var before, id := templates, nextId;
        var ok := SeedCanonical(e, cutoff);
        KeptWider(docs, before, docs, templates, {e}, named);
        KeptTwice(origin, seeded, docs, before, docs, templates, named);
        SeedStep(e, origin, docs, seeded, before, templates, id, cutoff, e);
        forall x
          ensures Served(x, before) ==> Served(x, templates)
          ensures x != e && Handled(Link, x, docs, before, cutoff) ==> Handled(Link, x, docs, templates, cutoff)
        {
          SeedStep(e, origin, docs, seeded, before, templates, id, cutoff, x);
        }
        if !ok {
          return;
        }
      }
      ghost var before := docs;
      var changed, skipped, batches, more := ApplyEntry(a, e, cutoff, batch, maxBatches, n.batches, origin);
      KeptWider(before, templates, docs, templates, {}, named);
      KeptTwice(origin, seeded, before, templates, docs, templates, named);
      n' := n.(changed := n.changed + changed, skipped := n.skipped + skipped, batches := batches, more := more);
      if !more {
        NoneLeftHandled(a, e, docs, templates, cutoff);
      }
      forall x ensures Handled(a, x, before, templates, cutoff) ==> Handled(a, x, docs, templates, cutoff) {
        if Handled(a, x, before, templates, cutoff) {
          NarrowsHandled(a, x, before, docs, templates, cutoff);
        }
      }
    }

    method ApplyPlan(a: Action, entries: seq<Entry>, cutoff: nat, batch: nat, maxBatches: nat) returns (r: Option<Counts>)
      requires Valid() && batch > 0
      modifies this`docs, this`templates, this`nextId
      ensures Valid() && ReadyKept(old(templates), templates)
      ensures MovesExactly(old(docs), old(templates), docs, templates, Named(entries))
      ensures AllMoved(a, old(docs), docs, templates)
      ensures !a.Link? ==> templates == old(templates) && SameView(old(docs), templates, docs, templates)
      ensures entries != [] && maxBatches > 0 ==> (r.Some? <==> Allows(a, mode))
      ensures r.Some? ==> r.value.skipped == 0 && r.value.batches <= maxBatches && r.value.changed == |Changed(old(docs), docs)|
      ensures r.Some? ==> (r.value.rollbackReady <==> forall id | id in docs :: !SharedOnly(docs[id]))
      ensures r.Some? && a.Link? && !r.value.more ==>
                forall e | e in entries && Offered(e, old(docs), old(templates), cutoff) :: Served(e, templates)
      ensures r.Some? && !r.value.more ==>
                forall e | e in entries :: Covered(a, e, old(docs), old(templates), docs, templates, cutoff)
    {
      hide Kept, Known, SameView, Candidates, Named, MovesExactly, ReadyKept, AllMoved, Changed, Handled, Served, Offered, Covered, Canonical;
      ghost var named := Named(entries);
      NothingKept(docs, templates, named);
      NothingMoved(a, docs, templates);
      ReadyStays(templates);
      var n := Counts(0, 0, 0, false, 0, false);
      var i := 0;
      while i < |entries| && !n.more
        invariant 0 <= i <= |entries| && (n.more ==> i > 0)
        invariant Valid() && Kept(old(docs), old(templates), docs, templates, named) && ReadyKept(old(templates), templates)
        invariant AllMoved(a, old(docs), docs, templates) && n.changed == |Changed(old(docs), docs)|
        invariant n.skipped == 0 && n.batches <= maxBatches
        invariant a.Link? || templates == old(templates)
        invariant i == 0 ==> n.batches == 0
        invariant i > 0 && maxBatches > 0 ==> Allows(a, mode)
        invariant a.Link? ==> forall k | 0 <= k < i :: Offered(entries[k], old(docs), old(templates), cutoff) ==> Served(entries[k], templates)
        invariant !n.more ==> forall k | 0 <= k < i :: Handled(a, entries[k], docs, templates, cutoff)
      {
        var e := entries[i];
        i := i + 1;
        if (a.Link? || n.batches < maxBatches) && !Allows(a, mode) {
          PlanView(a, old(docs), old(templates), docs, templates, named);
          return None;
        }
        NamedEntry(entries, i - 1);
        n := ApplyOne(a, e, cutoff, batch, maxBatches, n, old(docs), old(templates), named);
      }
      PlanView(a, old(docs), old(templates), docs, templates, named);
      if !n.more {
        forall e | e in entries ensures Covered(a, e, old(docs), old(templates), docs, templates, cutoff) {
          HandledCovers(a, e, old(docs), old(templates), docs, templates, cutoff);
        }
      }
      var missing := Missing();
      r := Some(n.(sharedOnly := |missing|, rollbackReady := |missing| == 0));
    }

    function Missing(): (missing: set<nat>)
      reads this
      ensures |missing| == 0 <==> forall id | id in docs :: !SharedOnly(docs[id])
    {
      var missing := set id | id in docs && SharedOnly(docs[id]);
      assert forall id | id in docs :: SharedOnly(docs[id]) <==> id in missing;
      assert |missing| == 0 <==> missing == {};
      missing
    }
  }

  ghost function Named(entries: seq<Entry>): set<Entry> {
    set e | e in entries
  }

  lemma {:induction false} NamedEntry(entries: seq<Entry>, i: nat)
    requires i < |entries|
    ensures {entries[i]} <= Named(entries) && entries[i] in Named(entries)
  {
  }

  lemma {:induction false} KeptWider(a: Docs, ta: Templates, b: Docs, tb: Templates, few: set<Entry>, many: set<Entry>)
    requires Kept(a, ta, b, tb, few) && few <= many
    ensures Kept(a, ta, b, tb, many)
  {
  }

  lemma {:induction false} PlanView(a: Action, docs: Docs, templates: Templates, docs': Docs, templates': Templates, entries: set<Entry>)
    requires Kept(docs, templates, docs', templates', entries) && (a.Link? || templates' == templates)
    ensures !a.Link? ==> SameView(docs, templates, docs', templates')
    ensures MovesExactly(docs, templates, docs', templates', entries) && ReadyKept(templates, templates')
  {
    ViewMoves(docs, templates, docs', templates', entries);
    if !a.Link? {
      ViewStays(docs, templates, docs', entries);
    }
  }

  // No document became a candidate.
  ghost predicate Narrows(a: Action, docs: Docs, docs': Docs, templates: Templates) {
    forall x: Entry, c: nat :: Candidates(a, x, docs', templates, c) <= Candidates(a, x, docs, templates, c)
  }

  lemma {:induction false} CandidateIs(a: Action, e: Entry, docs: Docs, templates: Templates, id: nat, cutoff: nat)
    requires id in Candidates(a, e, docs, templates, cutoff)
    ensures id in docs && Candidate(a, e, docs[id], templates, cutoff)
  {
  }

  lemma {:induction false} CandidatesPositive(a: Action, e: Entry, docs: Docs, templates: Templates, cutoff: nat, nextId: nat)
    requires Known(docs, templates, nextId)
    ensures forall id | id in Candidates(a, e, docs, templates, cutoff) :: id > 0
  {
  }
}
