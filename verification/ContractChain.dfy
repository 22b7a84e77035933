// The chain of contract compile jobs: each reads the messages behind the user's
// cursor, reads them again before it commits, and hands the rest to a follow-up.
// Any number of jobs run interleaved with changes to the messages themselves.
module ContractChain {
  import opened Wrappers
  import opened Utf8
  import opened BatchPlanner

  // At most so many messages are read at once.
  const MAX_SOURCE: nat := 200

  // Documents and texts are compared by fingerprint; equal fingerprints mean equal contents.
  type Document = nat

  // A message read up to an offset, and what has been read of it so far.
  datatype Partial = Partial(id: nat, offset: nat, text: Text, document: Document, items: Document, read: seq<Slice>)

  datatype Payload = Payload(generation: nat, target: nat, partial: Option<Partial>, noModel: bool, fallback: bool, redo: string)

  // A job is known by its deduplication key.
  datatype Key =
    | First(number: nat)
    | After(generation: nat, boundary: nat, target: nat, redo: string, skip: bool)
    | Within(generation: nat, cursor: nat, target: nat, id: nat, text: Text, document: Document, offset: nat, redo: string)
    | Again(generation: nat, cursor: nat, target: nat, job: Key)
    | OnceSmaller(job: Key)

  // The row of chat_contexts a job works against.
  datatype Context = Context(memory: nat, generation: nat, stored: nat)

  datatype Snapshot = Snapshot(base: Context, floor: nat, rows: seq<Source>, document: Document, batch: Batch)

  datatype Phase = Ready | Running(snap: Snapshot) | Finished

  datatype Job = Job(payload: Payload, phase: Phase)

  // One cursor advance, with every slice that was read for it.
  datatype Advance = Advance(generation: nat, after: nat, through: nat, rows: seq<Source>, slices: seq<Slice>)

  datatype State = State(rows: seq<Source>, context: Context, floor: nat, document: Document,
                         jobs: map<Key, Job>, log: seq<Advance>)

  function Max(a: nat, b: nat): nat { if a < b then b else a }

  // 0 in a generation not begun, and never below the compatibility baseline.
  function Cursor(c: Context, generation: nat, floor: nat): nat {
    Max(if c.generation == generation then c.stored else 0, floor)
  }

  ghost predicate Ascending(rows: seq<Source>) {
    forall i, j | 0 <= i < j < |rows| :: rows[i].id < rows[j].id
  }

  // The normal messages with after < id <= through.
  function Between(rows: seq<Source>, after: nat, through: nat): seq<Source> {
    if rows == [] then []
    else if after < rows[0].id <= through then [rows[0]] + Between(rows[1..], after, through)
    else Between(rows[1..], after, through)
  }

  function Read(rows: seq<Source>, after: nat, through: nat): seq<Source> {
    var all := Between(rows, after, through);
    if |all| <= MAX_SOURCE then all else all[..MAX_SOURCE]
  }

  // ------------------------------------------------------------------
  // Starting a job
  // ------------------------------------------------------------------

  // A job goes on with a split message only if that message and the document are unchanged.
  predicate Resumes(p: Payload, rows: seq<Source>, document: Document) {
    p.partial.None?
    || (rows != [] && rows[0].id == p.partial.value.id && rows[0].text == p.partial.value.text
        && p.partial.value.document == document)
  }

  function StartOffset(p: Payload): nat {
    if p.partial.Some? then p.partial.value.offset else 0
  }

  ghost predicate BatchOf(p: Payload, rows: seq<Source>, b: Batch) {
    if rows == [] then b == Batch([], 0, 0)
    else if p.noModel then b == Batch(Wholes(rows), |rows|, 0)
    else Tiles(rows, 0, StartOffset(p), b)
  }

  // ------------------------------------------------------------------
  // Committing a job
  // ------------------------------------------------------------------

  function NewCursor(snap: Snapshot, cursor: nat, target: nat): nat {
    if snap.batch.nextOffset > 0 then cursor
    else if snap.batch.nextIndex == |snap.rows| && |snap.rows| < MAX_SOURCE then target
    else if 0 < snap.batch.nextIndex <= |snap.rows| then snap.rows[snap.batch.nextIndex - 1].id
    else cursor
  }

  // ON CONFLICT DO NOTHING
  function Enqueue(jobs: map<Key, Job>, key: Key, p: Payload): map<Key, Job> {
    if key in jobs then jobs else jobs[key := Job(p, Ready)]
  }

  function Finish(s: State, k: Key): State
    requires k in s.jobs
  {
    s.(jobs := s.jobs[k := s.jobs[k].(phase := Finished)])
  }

  function SlicesSoFar(p: Payload, b: Batch): seq<Slice> {
    (if p.partial.Some? then p.partial.value.read else []) + b.slices
  }

  function Commit(s: State, k: Key, merged: Document, truncated: bool): State
    requires k in s.jobs && s.jobs[k].phase.Running?
  {
    var p, snap := s.jobs[k].payload, s.jobs[k].phase.snap;
    var done := Finish(s, k);
    var cursor := Cursor(snap.base, p.generation, snap.floor);
    var now := Cursor(s.context, p.generation, s.floor);
    var restarted := done.(jobs := Enqueue(done.jobs, Again(p.generation, now, p.target, k), p.(partial := None)));
    if s.floor != snap.floor || s.context.memory != p.generation then done
    else if s.context != snap.base then if now < p.target then restarted else done
    else if Read(s.rows, cursor, p.target) != snap.rows then restarted
    else if s.document != snap.document then restarted
    else if truncated then done.(jobs := Enqueue(done.jobs, OnceSmaller(k), p.(fallback := true)))
    else if snap.batch.nextOffset > 0 then
      if snap.rows == [] then done
      else
        var m := snap.rows[0];
        var next := Partial(m.id, snap.batch.nextOffset, m.text, snap.document, merged, SlicesSoFar(p, snap.batch));
        done.(jobs := Enqueue(done.jobs, Within(p.generation, cursor, p.target, m.id, m.text, snap.document, snap.batch.nextOffset, p.redo),
                              p.(partial := Some(next))))
    else
      var boundary := NewCursor(snap, cursor, p.target);
      var advanced := done.(context := Context(s.context.memory, p.generation, boundary), document := merged,
                            log := s.log + [Advance(p.generation, cursor, boundary, Between(s.rows, cursor, boundary),
                                                    SlicesSoFar(p, snap.batch))]);
      if boundary < p.target
      then advanced.(jobs := Enqueue(done.jobs, After(p.generation, boundary, p.target, p.redo, p.noModel), p.(partial := None)))
      else advanced
  }

  // ------------------------------------------------------------------
  // Steps
  // ------------------------------------------------------------------

  datatype Action =
    | Request(number: nat, payload: Payload)       // another part of the program asks for a target
    | Edit(rows: seq<Source>, document: Document)  // messages come, change or leave; the document is replaced
    | Regenerate(memory: nat, floor: nat)          // memory resets, which only count up, or another compatibility baseline
    | Begin(k: Key, batch: Batch)                  // also after a lease was lost: the new run starts over
    | Fail(k: Key)                                 // back to ready, or dead
    | Drop(k: Key)                                 // cancelled or already processed
    | Complete(k: Key, merged: Document, truncated: bool)

  ghost predicate Enabled(s: State, a: Action) {
    match a
    case Request(number, p) => First(number) !in s.jobs && p.partial.None?
    case Edit(rows, _) => Ascending(rows)
    case Regenerate(memory, _) => s.context.memory <= memory
    case Begin(k, batch) =>
      k in s.jobs && !s.jobs[k].phase.Finished?
      && var p := s.jobs[k].payload;
         var cursor := Cursor(s.context, p.generation, s.floor);
         s.context.memory == p.generation && cursor < p.target
         && !(p.noModel && (p.fallback || p.partial.Some?))
         && Resumes(p, Read(s.rows, cursor, p.target), s.document)
         && BatchOf(p, Read(s.rows, cursor, p.target), batch)
    case Fail(k) => k in s.jobs && s.jobs[k].phase.Running?
    case Drop(k) => k in s.jobs
    case Complete(k, _, truncated) =>
      k in s.jobs && s.jobs[k].phase.Running? && (truncated ==> !s.jobs[k].payload.noModel && !s.jobs[k].payload.fallback)
  }

  ghost function Next(s: State, a: Action): State
    requires Enabled(s, a)
  {
    match a
    case Request(number, p) => s.(jobs := s.jobs[First(number) := Job(p, Ready)])
    case Edit(rows, document) => s.(rows := rows, document := document)
    case Regenerate(memory, floor) => s.(context := s.context.(memory := memory), floor := floor)
    case Begin(k, batch) =>
      var p := s.jobs[k].payload;
      var rows := Read(s.rows, Cursor(s.context, p.generation, s.floor), p.target);
      s.(jobs := s.jobs[k := Job(p, Running(Snapshot(s.context, s.floor, rows, s.document, batch)))])
    case Fail(k) => s.(jobs := s.jobs[k := s.jobs[k].(phase := Ready)])
    case Drop(k) => Finish(s, k)
    case Complete(k, merged, truncated) => Commit(s, k, merged, truncated)
  }

  // ------------------------------------------------------------------
  // The invariant
  // ------------------------------------------------------------------

  ghost predicate PartialSound(p: Partial) {
    0 < p.offset < |Encode(p.text)| && Boundary(p.text, p.offset)
    && Covered(p.read) == Placed(p.id, 0, Encode(p.text)[..p.offset])
  }

  ghost predicate PayloadSound(p: Payload) {
    p.partial.Some? ==> PartialSound(p.partial.value)
  }

  ghost predicate SnapSound(p: Payload, snap: Snapshot) {
    Cursor(snap.base, p.generation, snap.floor) < p.target
    && !(p.noModel && p.partial.Some?)
    && Resumes(p, snap.rows, snap.document) && BatchOf(p, snap.rows, snap.batch)
  }

  ghost predicate JobSound(j: Job) {
    PayloadSound(j.payload) && (j.phase.Running? ==> SnapSound(j.payload, j.phase.snap))
  }

  ghost predicate AdvanceSound(a: Advance) {
    a.after < a.through && Covered(a.slices) == Unread(a.rows, 0, 0)
    && forall m | m in a.rows :: a.after < m.id <= a.through
  }

  ghost predicate Inv(s: State) {
    Ascending(s.rows) && (forall k | k in s.jobs :: JobSound(s.jobs[k])) && (forall i | 0 <= i < |s.log| :: AdvanceSound(s.log[i]))
  }

  // ------------------------------------------------------------------
  // Reading between two ids
  // ------------------------------------------------------------------

  lemma {:induction false} BetweenIds(rows: seq<Source>, after: nat, through: nat)
    ensures forall m | m in Between(rows, after, through) :: m in rows && after < m.id <= through
    ensures Ascending(rows) ==> Ascending(Between(rows, after, through))
  {
    if rows != [] {
      BetweenIds(rows[1..], after, through);
    }
  }

  // Nothing between the cursor and the last message taken was left out.
  lemma {:induction false} BetweenPrefix(rows: seq<Source>, after: nat, through: nat, n: nat)
    requires Ascending(rows) && 0 < n <= |Between(rows, after, through)|
    ensures Between(rows, after, Between(rows, after, through)[n - 1].id) == Between(rows, after, through)[..n]
  {
    var all, rest := Between(rows, after, through), Between(rows[1..], after, through);
    BetweenIds(rows[1..], after, through);
    if after < rows[0].id <= through {
      assert all == [rows[0]] + rest;
      if n == 1 {
        NoneBetween(rows[1..], after, rows[0].id);
      } else {
        BetweenPrefix(rows[1..], after, through, n - 1);
        assert all[n - 1] == rest[n - 2] && rest[n - 2] in rest;
        assert all[..n] == [rows[0]] + rest[..n - 1];
      }
    } else {
      assert all == rest && rest[n - 1] in rest;
      BetweenPrefix(rows[1..], after, through, n);
    }
  }

  lemma {:induction false} NoneBetween(rows: seq<Source>, after: nat, through: nat)
    requires forall m | m in rows :: m.id > through
    ensures Between(rows, after, through) == []
  {
    if rows != [] {
      assert rows[0] in rows;
      NoneBetween(rows[1..], after, through);
    }
  }

  lemma {:induction false} UnreadStep(rows: seq<Source>, i: nat)
    requires i < |rows|
    ensures Unread(rows, i, 0) == Placed(rows[i].id, 0, Encode(rows[i].text)) + Unread(rows, i + 1, 0)
  {
    assert Encode(rows[i].text)[0..] == Encode(rows[i].text);
  }

  lemma {:induction false} UnreadSplit(rows: seq<Source>, i: nat, n: nat)
    requires i <= n <= |rows|
    ensures Unread(rows, i, 0) == Unread(rows[..n], i, 0) + Unread(rows, n, 0)
    decreases n - i
  {
    if i < n {
      hide Unread, Placed, Encode;
      UnreadSplit(rows, i + 1, n);
      UnreadStep(rows, i);
      UnreadStep(rows[..n], i);
    }
  }

  // A message read up to an offset, and the rest of the history, make the whole history.
  lemma {:induction false} PartialCompletes(p: Partial, rows: seq<Source>)
    requires PartialSound(p) && rows != [] && rows[0].id == p.id && rows[0].text == p.text
    ensures At(rows, 0, p.offset) && Covered(p.read) + Unread(rows, 0, p.offset) == Unread(rows, 0, 0)
  {
    var body := Encode(p.text);
    PlacedAppend(p.id, 0, body[..p.offset], body[p.offset..]);
    assert body[..p.offset] + body[p.offset..] == body == body[0..];
  }

  // ------------------------------------------------------------------
  // One commit
  // ------------------------------------------------------------------

  lemma {:induction false} BatchCovers(p: Payload, rows: seq<Source>, b: Batch)
    requires BatchOf(p, rows, b) && At(rows, 0, StartOffset(p)) && !(p.noModel && p.partial.Some?)
    ensures b.nextIndex <= |rows| && At(rows, b.nextIndex, b.nextOffset)
    ensures Covered(b.slices) + Unread(rows, b.nextIndex, b.nextOffset) == Unread(rows, 0, StartOffset(p))
  {
    if rows != [] && p.noModel {
      WholesTile(rows, 0, |rows|);
      assert rows[0..|rows|] == rows;
    }
  }

  lemma {:induction false} SlicesCover(p: Payload, snap: Snapshot)
    requires PayloadSound(p) && SnapSound(p, snap)
    ensures snap.batch.nextIndex <= |snap.rows| && At(snap.rows, snap.batch.nextIndex, snap.batch.nextOffset)
    ensures Covered(SlicesSoFar(p, snap.batch)) + Unread(snap.rows, snap.batch.nextIndex, snap.batch.nextOffset) == Unread(snap.rows, 0, 0)
  {
    hide Covered, Unread, BatchOf, Encode, PartialSound;
    var before := if p.partial.Some? then p.partial.value.read else [];
    CoveredAppend(before, snap.batch.slices);
    if p.partial.Some? {
      PartialCompletes(p.partial.value, snap.rows);
    } else {
      CoveredNone();
    }
    BatchCovers(p, snap.rows, snap.batch);
    var rest := Unread(snap.rows, snap.batch.nextIndex, snap.batch.nextOffset);
    assert Covered(SlicesSoFar(p, snap.batch)) + rest == Covered(before) + (Covered(snap.batch.slices) + rest);
  }

  // What the commit advances past is exactly what was read.
  lemma {:induction false} AdvanceCovers(rows: seq<Source>, p: Payload, snap: Snapshot)
    requires Ascending(rows) && PayloadSound(p) && SnapSound(p, snap) && snap.batch.nextOffset == 0
    requires var cursor := Cursor(snap.base, p.generation, snap.floor); Read(rows, cursor, p.target) == snap.rows
    ensures var cursor := Cursor(snap.base, p.generation, snap.floor); var boundary := NewCursor(snap, cursor, p.target);
            cursor < boundary <= p.target
            && AdvanceSound(Advance(p.generation, cursor, boundary, Between(rows, cursor, boundary), SlicesSoFar(p, snap.batch)))
  {
    hide Covered, Unread, Boundary, Encode, BatchOf, PartialSound, Resumes, Between;
    var cursor := Cursor(snap.base, p.generation, snap.floor);
    var boundary, n := NewCursor(snap, cursor, p.target), snap.batch.nextIndex;
    SlicesCover(p, snap);
    BatchMoves(p, snap);
    ReadUpTo(rows, cursor, p.target, snap, n);
    UnreadSplit(snap.rows, 0, n);
    UnreadNone(snap.rows);
    BetweenIds(rows, cursor, boundary);
    assert Covered(SlicesSoFar(p, snap.batch)) + Unread(snap.rows, n, 0) == Unread(snap.rows[..n], 0, 0) + Unread(snap.rows, n, 0);
    SameFront(Covered(SlicesSoFar(p, snap.batch)), Unread(snap.rows[..n], 0, 0), Unread(snap.rows, n, 0));
  }

  lemma {:induction false} BatchMoves(p: Payload, snap: Snapshot)
    requires SnapSound(p, snap) && snap.batch.nextOffset == 0
    ensures snap.batch.nextIndex <= |snap.rows| && (snap.rows != [] ==> snap.batch.nextIndex > 0)
  {
  }

  // The messages up to the new cursor are the ones the batch took.
  lemma {:induction false} ReadUpTo(rows: seq<Source>, cursor: nat, target: nat, snap: Snapshot, n: nat)
    requires Ascending(rows) && cursor < target && Read(rows, cursor, target) == snap.rows
    requires snap.batch.nextOffset == 0 && snap.batch.nextIndex == n <= |snap.rows| && (snap.rows != [] ==> n > 0)
    ensures var boundary := NewCursor(snap, cursor, target);
            cursor < boundary <= target && Between(rows, cursor, boundary) == snap.rows[..n]
  {
    hide Between;
    var all := Between(rows, cursor, target);
    BetweenIds(rows, cursor, target);
    if n == |snap.rows| && |snap.rows| < MAX_SOURCE {
      assert snap.rows == all == snap.rows[..n];
    } else {
      assert snap.rows[n - 1] == all[n - 1] && all[n - 1] in all;
      BetweenPrefix(rows, cursor, target, n);
      assert all[..n] == snap.rows[..n];
    }
  }

  lemma {:induction false} UnreadNone(rows: seq<Source>)
    ensures Unread(rows, |rows|, 0) == []
  {
  }

  lemma {:induction false} SameFront<T>(a: seq<T>, b: seq<T>, tail: seq<T>)
    requires a + tail == b + tail
    ensures a == b
  {
    assert |a + tail| == |b + tail|;
    assert a == (a + tail)[..|a|];
    assert b == (b + tail)[..|b|];
  }

  // A split message's next offset: the slices so far cover exactly its first bytes.
  lemma {:induction false} SplitSound(p: Payload, snap: Snapshot, merged: Document)
    requires PayloadSound(p) && SnapSound(p, snap) && snap.batch.nextOffset > 0
    ensures snap.rows != []
    ensures var m := snap.rows[0];
            PartialSound(Partial(m.id, snap.batch.nextOffset, m.text, snap.document, merged, SlicesSoFar(p, snap.batch)))
  {
    hide Covered, Boundary;
    SlicesCover(p, snap);
    var m, o := snap.rows[0], snap.batch.nextOffset;
    var body := Encode(m.text);
    PlacedAppend(m.id, 0, body[..o], body[o..]);
    assert body[..o] + body[o..] == body == body[0..];
    var tail := Unread(snap.rows, 1, 0);
    SameFront(Covered(SlicesSoFar(p, snap.batch)), Placed(m.id, 0, body[..o]), Placed(m.id, o, body[o..]) + tail);
  }

  lemma {:induction false} CommitKeeps(s: State, k: Key, merged: Document, truncated: bool)
    requires Inv(s) && Enabled(s, Complete(k, merged, truncated))
    ensures Inv(Commit(s, k, merged, truncated))
  {
    hide PartialSound, AdvanceSound, SnapSound, Read, Between;
    var p, snap := s.jobs[k].payload, s.jobs[k].phase.snap;
    assert JobSound(s.jobs[k]);
    SnapRows(p, snap);
    if snap.batch.nextOffset > 0 {
      SplitSound(p, snap, merged);
    } else if Read(s.rows, Cursor(snap.base, p.generation, snap.floor), p.target) == snap.rows {
      AdvanceCovers(s.rows, p, snap);
    }
  }

  lemma {:induction false} SnapRows(p: Payload, snap: Snapshot)
    requires SnapSound(p, snap)
    ensures snap.rows == [] ==> snap.batch.nextOffset == 0
  {
  }

  lemma {:induction false} InvKept(s: State, a: Action)
    requires Inv(s) && Enabled(s, a)
    ensures Inv(Next(s, a))
  {
    if a.Complete? {
      CommitKeeps(s, a.k, a.merged, a.truncated);
    }
  }

  // ------------------------------------------------------------------
  // What every step does to the cursor
  // ------------------------------------------------------------------

  // The job still works for this generation and baseline.
  predicate Current(s: State, k: Key)
    requires k in s.jobs && s.jobs[k].phase.Running?
  {
    s.floor == s.jobs[k].phase.snap.floor && s.context.memory == s.jobs[k].payload.generation
  }

  // And context, messages and document are what it read.
  predicate Undisturbed(s: State, k: Key)
    requires k in s.jobs && s.jobs[k].phase.Running?
  {
    var p, snap := s.jobs[k].payload, s.jobs[k].phase.snap;
    Current(s, k) && s.context == snap.base && s.document == snap.document
    && Read(s.rows, Cursor(s.context, p.generation, s.floor), p.target) == snap.rows
  }

  // The step commits an undisturbed job, whose answer was complete, at the end of a message.
  ghost predicate Progresses(s: State, a: Action)
    requires Enabled(s, a)
  {
    a.Complete? && !a.truncated && Undisturbed(s, a.k) && s.jobs[a.k].phase.snap.batch.nextOffset == 0
  }

  // The cursor of the current generation moves exactly when an undisturbed job commits at the end of a
  // message, by a logged advance that tiles every normal message it moves past and stays within the target.
  lemma {:induction false} StepAdvances(s: State, a: Action)
    requires Inv(s) && Enabled(s, a) && !a.Regenerate?
    ensures var s' := Next(s, a); var g := s.context.memory;
            s'.context.memory == g && s'.floor == s.floor
            && ((!Progresses(s, a) && s'.log == s.log && Cursor(s'.context, g, s.floor) == Cursor(s.context, g, s.floor))
                || (Progresses(s, a) && |s'.log| == |s.log| + 1 && s.log == s'.log[..|s.log|]
                    && var e := s'.log[|s.log|];
                       e.generation == g && e.after == Cursor(s.context, g, s.floor) && e.through == Cursor(s'.context, g, s.floor)
                       && e.after < e.through <= s.jobs[a.k].payload.target
                       && e.rows == Between(s.rows, e.after, e.through) && Covered(e.slices) == Unread(e.rows, 0, 0)))
  {
    hide PartialSound, SnapSound, Read, Between, Covered, Unread, BatchOf;
    if a.Complete? {
      var p, snap := s.jobs[a.k].payload, s.jobs[a.k].phase.snap;
      assert JobSound(s.jobs[a.k]);
      if snap.batch.nextOffset == 0 && Read(s.rows, Cursor(snap.base, p.generation, snap.floor), p.target) == snap.rows {
        AdvanceCovers(s.rows, p, snap);
      }
    }
  }

  ghost predicate Runs(s: State, run: seq<Action>, s': State)
    decreases |run|
  {
    if run == [] then s' == s else Enabled(s, run[0]) && Runs(Next(s, run[0]), run[1..], s')
  }

  // The advances lead from one cursor to another without gap or overlap.
  ghost predicate Leads(log: seq<Advance>, after: nat, through: nat)
    decreases |log|
  {
    if log == [] then after == through
    else log[0].after == after && AdvanceSound(log[0]) && Leads(log[1..], log[0].through, through)
  }

  ghost function ProgressesIn(s: State, run: seq<Action>): nat
    decreases |run|
  {
    if run == [] || !Enabled(s, run[0]) then 0
    else (if Progresses(s, run[0]) then 1 else 0) + ProgressesIn(Next(s, run[0]), run[1..])
  }

  // Over any run of compile jobs, message edits, failures and restarts within a generation:
  // the cursor never goes back, and the advances made, one for every undisturbed commit at the end of a
  // message, lead from where it was to where it is.
  lemma {:induction false} RunCovers(s: State, run: seq<Action>, s': State)
    requires Inv(s) && Runs(s, run, s') && forall a | a in run :: !a.Regenerate?
    ensures s.log <= s'.log && s'.context.memory == s.context.memory && s'.floor == s.floor
    ensures |s'.log| == |s.log| + ProgressesIn(s, run)
    ensures var g := s.context.memory;
            Leads(s'.log[|s.log|..], Cursor(s.context, g, s.floor), Cursor(s'.context, g, s'.floor))
            && Cursor(s.context, g, s.floor) <= Cursor(s'.context, g, s'.floor)
    decreases |run|
  {
    hide Next, Enabled, AdvanceSound, Progresses;
    if run != [] {
      var m := Next(s, run[0]);
      assert run[0] in run;
      InvKept(s, run[0]);
      StepAdvances(s, run[0]);
      RunCovers(m, run[1..], s');
      if m.log == s.log {
      } else {
        assert s'.log[|s.log|..][0] == m.log[|s.log|];
        assert s'.log[|s.log|..][1..] == s'.log[|m.log|..];
        assert AdvanceSound(m.log[|s.log|]);
      }
    }
  }
}
