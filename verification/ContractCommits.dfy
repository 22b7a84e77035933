// What the commit of a compile job brings about: what it publishes, how far the cursor gets, and which job
// is left to go on.
module ContractCommits {
  import opened Wrappers
  import opened Utf8
  import opened BatchPlanner
  import opened ContractChain
  import ContractLiveness

  // ------------------------------------------------------------------
  // Keys of jobs
  // ------------------------------------------------------------------

  ghost predicate KeySound(s: State, k: Key)
    requires k in s.jobs
  {
    match k
    case First(_) => true
    // a follow-up was made by the advance to its boundary
    case After(g, b, _, _, _) => g <= s.context.generation && (g == s.context.generation ==> b <= s.context.stored)
    case Within(g, _, target, id, text, document, offset, _) =>
      var p := s.jobs[k].payload;
      p.generation == g && p.target == target && p.partial.Some? && p.partial.value.id == id && p.partial.value.text == text
      && p.partial.value.document == document && p.partial.value.offset == offset
    // and a restart, or a smaller attempt, by the commit that finished its job
    case Again(_, _, _, j) => j in s.jobs && s.jobs[j].phase.Finished?
    case OnceSmaller(j) => j in s.jobs && s.jobs[j].phase.Finished?
  }

  ghost predicate KeysSound(s: State) {
    s.context.generation <= s.context.memory && forall k | k in s.jobs :: KeySound(s, k)
  }

  lemma {:induction false} NoJobsSound(s: State)
    requires s.jobs == map[] && s.context.generation <= s.context.memory
    ensures KeysSound(s)
  {
  }

  // What was the case before the commit still is, as far as the keys in use go.
  lemma {:induction false} KeyStays(s: State, s': State, k: Key)
    requires k in s.jobs && KeySound(s, k)
    requires forall j | j in s.jobs :: j in s'.jobs && s'.jobs[j].payload == s.jobs[j].payload
                                       && (s.jobs[j].phase.Finished? ==> s'.jobs[j].phase.Finished?)
    requires s.context.generation <= s'.context.generation
    requires s.context.generation == s'.context.generation ==> s.context.stored <= s'.context.stored
    ensures KeySound(s', k)
  {
  }

  lemma {:induction false} KeysKept(s: State, a: Action)
    requires Inv(s) && KeysSound(s) && Enabled(s, a)
    ensures KeysSound(Next(s, a))
  {
    hide JobSound, AdvanceSound, Covered, Unread, Read, Between, BatchOf, Resumes, KeySound;
    if a.Complete? {
      CommitKeys(s, a.k, a.merged, a.truncated);
    } else {
      NewJobs(s, a);
      forall k | k in Next(s, a).jobs ensures KeySound(Next(s, a), k) {
        if k in s.jobs {
          KeyStays(s, Next(s, a), k);
        } else {
          assert KeySound(Next(s, a), k) by { FirstSound(Next(s, a), k); }
        }
      }
    }
  }

  lemma {:induction false} FirstSound(s: State, k: Key)
    requires k.First? && k in s.jobs
    ensures KeySound(s, k)
  {
  }

  lemma {:induction false} NewJobs(s: State, a: Action)
    requires Enabled(s, a) && !a.Complete?
    ensures forall k | k in Next(s, a).jobs && k !in s.jobs :: k.First?
    ensures forall j | j in s.jobs :: j in Next(s, a).jobs && Next(s, a).jobs[j].payload == s.jobs[j].payload
                                      && (s.jobs[j].phase.Finished? ==> Next(s, a).jobs[j].phase.Finished?)
    ensures Next(s, a).context.generation == s.context.generation && Next(s, a).context.stored == s.context.stored
    ensures s.context.generation <= s.context.memory ==> s.context.generation <= Next(s, a).context.memory
  {
    hide Read, Between, BatchOf, Resumes;
  }

  lemma {:induction false} CommitKeys(s: State, k: Key, merged: Document, truncated: bool)
    requires Inv(s) && KeysSound(s) && Enabled(s, Complete(k, merged, truncated))
    ensures KeysSound(Commit(s, k, merged, truncated))
  {
    var s' := Commit(s, k, merged, truncated);
    CommitJobs(s, k, merged, truncated);
    CommitMoves(s, k, merged, truncated);
    hide Inv, KeySound, Commit;
    forall j | j in s'.jobs ensures KeySound(s', j) {
      if j in s.jobs {
        KeyStays(s, s', j);
      } else {
        CommitMakes(s, k, merged, truncated, j);
        MadeSound(s', j);
      }
    }
  }

  lemma {:induction false} CommitJobs(s: State, k: Key, merged: Document, truncated: bool)
    requires Enabled(s, Complete(k, merged, truncated))
    ensures forall j | j in s.jobs ::
              j in Commit(s, k, merged, truncated).jobs && Commit(s, k, merged, truncated).jobs[j].payload == s.jobs[j].payload
              && (s.jobs[j].phase.Finished? ==> Commit(s, k, merged, truncated).jobs[j].phase.Finished?)
  {
    hide Read, NewCursor, Between;
  }

  // The cursor a commit starts from is not behind what is stored.
  lemma {:induction false} CommitMoves(s: State, k: Key, merged: Document, truncated: bool)
    requires Inv(s) && KeysSound(s) && Enabled(s, Complete(k, merged, truncated))
    ensures var s' := Commit(s, k, merged, truncated);
            s.context.generation <= s'.context.generation <= s'.context.memory
            && (s.context.generation == s'.context.generation ==> s.context.stored <= s'.context.stored)
  {
    hide Inv, SlicesSoFar, Enqueue, Between, Read, NewCursor, KeySound, BatchOf, Resumes;
    AheadOfCursor(s, k);
  }

  lemma {:induction false} AheadOfCursor(s: State, k: Key)
    requires Inv(s) && k in s.jobs && s.jobs[k].phase.Running?
    ensures var p, snap := s.jobs[k].payload, s.jobs[k].phase.snap; var cursor := Cursor(snap.base, p.generation, snap.floor);
            snap.batch.nextOffset == 0 && Read(s.rows, cursor, p.target) == snap.rows ==> cursor < NewCursor(snap, cursor, p.target)
  {
    hide Between, Read, NewCursor, SnapSound, PayloadSound, AdvanceSound;
    var p, snap := s.jobs[k].payload, s.jobs[k].phase.snap;
    assert JobSound(s.jobs[k]);
    if snap.batch.nextOffset == 0 && Read(s.rows, Cursor(snap.base, p.generation, snap.floor), p.target) == snap.rows {
      AdvanceCovers(s.rows, p, snap);
    }
  }

  lemma {:induction false} CommitMakes(s: State, k: Key, merged: Document, truncated: bool, j: Key)
    requires Enabled(s, Complete(k, merged, truncated)) && j in Commit(s, k, merged, truncated).jobs && j !in s.jobs
    ensures Made(Commit(s, k, merged, truncated), j)
  {
    hide Read, NewCursor, Between;
  }

  ghost predicate Made(s: State, k: Key)
    requires k in s.jobs
  {
    match k
    case First(_) => true
    case After(g, b, _, _, _) => g == s.context.generation && b == s.context.stored
    case Within(g, _, target, id, text, document, offset, _) =>
      var p := s.jobs[k].payload;
      p.generation == g && p.target == target && p.partial.Some? && p.partial.value.id == id && p.partial.value.text == text
      && p.partial.value.document == document && p.partial.value.offset == offset
    case Again(_, _, _, j) => j in s.jobs && s.jobs[j].phase.Finished?
    case OnceSmaller(j) => j in s.jobs && s.jobs[j].phase.Finished?
  }

  lemma {:induction false} MadeSound(s: State, k: Key)
    requires k in s.jobs && Made(s, k)
    ensures KeySound(s, k)
  {
  }

  lemma {:induction false} RunKeys(s: State, run: seq<Action>, s': State)
    requires Inv(s) && KeysSound(s) && Runs(s, run, s')
    ensures Inv(s') && KeysSound(s')
    decreases |run|
  {
    hide Inv, KeysSound, Enabled, Next;
    if run != [] {
      InvKept(s, run[0]);
      KeysKept(s, run[0]);
      RunKeys(Next(s, run[0]), run[1..], s');
    }
  }

  // ------------------------------------------------------------------
  // The commit of an undisturbed job
  // ------------------------------------------------------------------

  // The next job of the chain: it was not there before and waits with this payload.
  ghost predicate Added(s: State, s': State, p: Payload) {
    exists j :: j in s'.jobs && j !in s.jobs && s'.jobs[j] == Job(p, Ready)
  }

  // Every other job is as it was, and this one is finished.
  ghost predicate Done(s: State, s': State, k: Key)
    requires k in s.jobs
  {
    forall j | j in s.jobs :: j in s'.jobs && s'.jobs[j] == if j == k then s.jobs[k].(phase := Finished) else s.jobs[j]
  }

  // A batch that ends with a message: the merged document is published, the cursor stands behind the messages
  // taken, what was left to read is the rest, and below the target a new job goes on with it.
  lemma {:induction false} CommitAdvances(s: State, k: Key, merged: Document)
    requires Inv(s) && KeysSound(s) && Enabled(s, Complete(k, merged, false)) && Undisturbed(s, k)
    requires s.jobs[k].phase.snap.batch.nextOffset == 0
    ensures var s', p, snap := Commit(s, k, merged, false), s.jobs[k].payload, s.jobs[k].phase.snap;
            var was, now := Cursor(s.context, p.generation, s.floor), Cursor(s'.context, p.generation, s'.floor);
            var left, n := Between(s.rows, was, p.target), snap.batch.nextIndex;
            |s'.log| == |s.log| + 1 && s'.document == merged && s'.rows == s.rows && Done(s, s', k)
            && n <= |left| && Between(s.rows, was, now) == left[..n] && Between(s'.rows, now, p.target) == left[n..]
            && was < now <= p.target && (now == p.target || (n > 0 && now == left[n - 1].id))
            && (n == |left| < MAX_SOURCE ==> now == p.target)
            && (if now < p.target then Added(s, s', p.(partial := None)) else s'.jobs.Keys == s.jobs.Keys)
  {
    hide PartialSound, AdvanceSound, Covered, Unread, BatchOf, Resumes, Between;
    var s', p, snap := Commit(s, k, merged, false), s.jobs[k].payload, s.jobs[k].phase.snap;
    assert JobSound(s.jobs[k]);
    var was := Cursor(s.context, p.generation, s.floor);
    var n, now := snap.batch.nextIndex, NewCursor(snap, was, p.target);
    AdvanceCovers(s.rows, p, snap);
    BatchMoves(p, snap);
    ReadUpTo(s.rows, was, p.target, snap, n);
    BetweenSplits(s.rows, was, now, p.target);
    var left := Between(s.rows, was, p.target);
    assert left[..n] == snap.rows[..n];
    assert left == left[..n] + Between(s.rows, now, p.target);
    if now < p.target {
      var key := After(p.generation, now, p.target, p.redo, p.noModel);
      assert key !in s.jobs by { assert key in s.jobs ==> KeySound(s, key); }
      assert s'.jobs[key] == Job(p.(partial := None), Ready);
    }
  }

  lemma {:induction false} BetweenStep(rows: seq<Source>, after: nat, through: nat)
    requires rows != []
    ensures Between(rows, after, through)
            == (if after < rows[0].id <= through then [rows[0]] else []) + Between(rows[1..], after, through)
  {
  }

  // What lies between two ids, cut at one in between.
  lemma {:induction false} BetweenSplits(rows: seq<Source>, after: nat, middle: nat, through: nat)
    requires Ascending(rows) && after <= middle <= through
    ensures Between(rows, after, through) == Between(rows, after, middle) + Between(rows, middle, through)
  {
    if rows != [] {
      hide Between, Ascending;
      TailAscends(rows);
      BetweenSplits(rows[1..], after, middle, through);
      BetweenStep(rows, after, through);
      BetweenStep(rows, after, middle);
      BetweenStep(rows, middle, through);
      var front, back := Between(rows[1..], after, middle), Between(rows[1..], middle, through);
      if after < rows[0].id <= middle {
        InFront([rows[0]], front, back);
      } else if middle < rows[0].id {
        NoneBetween(rows[1..], after, middle);
        assert front + back == back && [] + front == front && front + ([rows[0]] + back) == [rows[0]] + back;
      } else {
        assert [] + front == front && [] + back == back && [] + (front + back) == front + back;
      }
    }
  }

  lemma {:induction false} TailAscends(rows: seq<Source>)
    requires Ascending(rows) && rows != []
    ensures Ascending(rows[1..]) && forall m | m in rows[1..] :: m.id > rows[0].id
  {
  }

  lemma {:induction false} InFront<T>(x: seq<T>, a: seq<T>, b: seq<T>)
    ensures x + (a + b) == x + a + ([] + b)
  {
  }

  // A batch that ends inside a message: nothing is published, and a job carries the offset, with what has
  // been read of the message so far. It is one that can still run exactly when the key is new or its job has
  // not finished.
  lemma {:induction false} CommitSplits(s: State, k: Key, merged: Document)
    requires Inv(s) && KeysSound(s) && Enabled(s, Complete(k, merged, false)) && Undisturbed(s, k)
    requires s.jobs[k].phase.snap.batch.nextOffset > 0
    ensures var s', p, snap := Commit(s, k, merged, false), s.jobs[k].payload, s.jobs[k].phase.snap;
            snap.rows != []
            && var m, offset := snap.rows[0], snap.batch.nextOffset;
               var key := Within(p.generation, Cursor(s.context, p.generation, s.floor), p.target, m.id, m.text, s.document, offset, p.redo);
               s'.log == s.log && s'.document == s.document && s'.context == s.context && s'.rows == s.rows
               && key in s'.jobs && s'.jobs.Keys == s.jobs.Keys + {key}
               && s'.jobs[key].payload.generation == p.generation && s'.jobs[key].payload.target == p.target
               && s'.jobs[key].payload.partial.Some? && s'.jobs[key].payload.partial.value.id == m.id
               && s'.jobs[key].payload.partial.value.text == m.text && s'.jobs[key].payload.partial.value.offset == offset
               && PartialSound(s'.jobs[key].payload.partial.value)
               && (key !in s.jobs ==> s'.jobs[key].phase.Ready? && s'.jobs[key].payload.partial.value.items == merged)
               && Done(s, s', k) && (s'.jobs[key].phase.Finished? <==> key in s.jobs && s.jobs[key].phase.Finished?)
  {
    hide PartialSound, AdvanceSound, Covered, Unread, BatchOf, Between, Read;
    var p, snap := s.jobs[k].payload, s.jobs[k].phase.snap;
    assert JobSound(s.jobs[k]);
    SplitSound(p, snap, merged);
    var m := snap.rows[0];
    var key := Within(p.generation, Cursor(s.context, p.generation, s.floor), p.target, m.id, m.text, s.document, snap.batch.nextOffset, p.redo);
    SplitsOn(p, snap);
    if key in s.jobs {
      assert KeySound(s, key) && JobSound(s.jobs[key]);
    }
  }

  lemma {:induction false} SplitsOn(p: Payload, snap: Snapshot)
    requires SnapSound(p, snap) && snap.batch.nextOffset > 0
    ensures StartOffset(p) < snap.batch.nextOffset
  {
    hide Covered, Unread, Encode, Boundary;
  }

  // Truncated output: nothing is published, and a new job tries the same with the fallback planner.
  lemma {:induction false} CommitShrinks(s: State, k: Key, merged: Document)
    requires Inv(s) && KeysSound(s) && Enabled(s, Complete(k, merged, true)) && Undisturbed(s, k)
    ensures var s', p := Commit(s, k, merged, true), s.jobs[k].payload;
            s'.log == s.log && s'.document == s.document && s'.context == s.context && s'.rows == s.rows
            && Done(s, s', k) && Added(s, s', p.(fallback := true))
  {
    hide Inv, Read, Between;
    var p := s.jobs[k].payload;
    assert OnceSmaller(k) !in s.jobs by { assert OnceSmaller(k) in s.jobs ==> KeySound(s, OnceSmaller(k)); }
    assert Commit(s, k, merged, true).jobs[OnceSmaller(k)] == Job(p.(fallback := true), Ready);
  }

  // A disturbed one publishes nothing either, and a new job starts over from the current cursor exactly
  // when the cursor is below the target.
  lemma {:induction false} CommitRestarts(s: State, k: Key, merged: Document, truncated: bool)
    requires Inv(s) && KeysSound(s) && Enabled(s, Complete(k, merged, truncated)) && Current(s, k) && !Undisturbed(s, k)
    ensures var s', p := Commit(s, k, merged, truncated), s.jobs[k].payload;
            var now := Cursor(s.context, p.generation, s.floor);
            s'.log == s.log && s'.document == s.document && s'.context == s.context && s'.rows == s.rows && Done(s, s', k)
            && (now < p.target <==> Added(s, s', p.(partial := None)))
            && (now >= p.target ==> s'.jobs.Keys == s.jobs.Keys)
  {
    hide PartialSound, AdvanceSound, Covered, Unread, BatchOf, Between, Read;
    var s', p := Commit(s, k, merged, truncated), s.jobs[k].payload;
    assert JobSound(s.jobs[k]);
    var now := Cursor(s.context, p.generation, s.floor);
    if now < p.target {
      var key := Again(p.generation, now, p.target, k);
      assert key !in s.jobs by { assert key in s.jobs ==> KeySound(s, key); }
      assert s'.jobs[key] == Job(p.(partial := None), Ready);
    }
  }

  // After a reset, or under another baseline, the job ends and nothing else happens.
  lemma {:induction false} CommitEnds(s: State, k: Key, merged: Document, truncated: bool)
    requires Enabled(s, Complete(k, merged, truncated)) && !Current(s, k)
    ensures var s' := Commit(s, k, merged, truncated);
            s'.log == s.log && s'.document == s.document && s'.context == s.context && s'.jobs.Keys == s.jobs.Keys && Done(s, s', k)
  {
  }

  // ------------------------------------------------------------------
  // A message whose rest is never read
  // ------------------------------------------------------------------

  lemma {:induction false} NoStep(s: State)
    ensures Runs(s, [], s)
  {
  }

  lemma {:induction false} OneMore(s: State, run: seq<Action>, m: State, a: Action)
    requires Runs(s, run, m) && Enabled(m, a)
    ensures Runs(s, run + [a], Next(m, a))
    decreases |run|
  {
    hide Enabled, Next;
    if run == [] {
      NoStep(Next(m, a));
      assert ([] + [a])[1..] == [];
    } else {
      assert (run + [a])[1..] == run[1..] + [a];
      OneMore(Next(s, run[0]), run[1..], m, a);
    }
  }

  // A message of two letters, and one behind it that is taken away later.
  const Split := Source(1, [97, 98])
  const Behind := Source(2, [97])
  const Asked := Payload(0, 2, None, false, false, "")
  const Rest := Within(0, 0, 2, 1, [97, 98], 5, 1, "")
  const Restart := Again(0, 0, 2, Rest)
  const Head := Batch([Part(Split, 0, [97])], 0, 1)
  const Tail := Batch([Part(Split, 1, [98])], 1, 0)
  const Carried := Asked.(partial := Some(Partial(1, 1, [97, 98], 5, 9, Head.slices)))

  function Scene(rows: seq<Source>, jobs: map<Key, Job>): State {
    State(rows, Context(0, 0, 0), 0, 5, jobs, [])
  }

  function Taken(rows: seq<Source>, b: Batch): Phase {
    Running(Snapshot(Context(0, 0, 0), 0, rows, 5, b))
  }

  lemma {:induction false} TwoLetters()
    ensures |Encode([97])| == 1 && |Encode([97, 98])| == 2
    ensures Decode(Encode([97, 98])[0..]) == Some([97, 98]) && Decode(Encode([97, 98])[1..]) == Some([98])
  {
    assert [97, 98][1..] == [98] && [97][1..] == [] && [98][1..] == [];
    assert Encode([97, 98]) == EncodeChar(97) + Encode([98]);
    DecodeEncode([97, 98]);
    DecodeEncode([98]);
    assert Encode([97, 98])[0..] == Encode([97, 98]) && Encode([97, 98])[1..] == Encode([98]);
  }

  lemma {:induction false} Batches(rows: seq<Source>)
    requires rows != [] && rows[0] == Split
    ensures Tiles(rows, 0, 0, Head) && Tiles(rows, 0, 1, Tail)
  {
    hide Tiles, Encode, Decode;
    TwoLetters();
    SplitTiles(rows, 0, 0, [97, 98], 1);
    SplitTiles(rows, 0, 1, [98], 1);
    assert [97, 98][..1] == [97] && [98][..1] == [98];
    OneByte();
  }

  lemma {:induction false} OneByte()
    ensures |Encode([98])| == 1
  {
    assert [98][1..] == [];
  }

  lemma {:induction false} Rows()
    ensures Read([Split, Behind], 0, 2) == [Split, Behind] && Read([Split], 0, 2) == [Split]
  {
    assert [Split, Behind][1..] == [Behind] && [Behind][1..] == [] && [Split][1..] == [];
    assert Between([], 0, 2) == [] && Between([Behind], 0, 2) == [Behind] && Between([Split], 0, 2) == [Split];
  }

  lemma {:induction false} Begins(s: State, k: Key, b: Batch)
    requires s == Scene(s.rows, s.jobs) && s.rows in [[Split, Behind], [Split]]
    requires k in s.jobs && !s.jobs[k].phase.Finished?
    requires (s.jobs[k].payload == Asked && b == Head) || (s.jobs[k].payload == Carried && b == Tail)
    ensures Enabled(s, Begin(k, b))
    ensures Next(s, Begin(k, b)) == s.(jobs := s.jobs[k := Job(s.jobs[k].payload, Taken(s.rows, b))])
  {
    hide Tiles, Read, Between;
    Rows();
    Batches(s.rows);
  }

  // The first part is read, the message behind it disappears while the rest is being read, and a restart
  // takes the first part again.
  lemma {:induction false} RestartsHead() returns (run: seq<Action>, s: State)
    ensures Runs(Scene([Split, Behind], map[]), run, s)
    ensures s == Scene([Split], map[First(0) := Job(Asked, Finished), Rest := Job(Carried, Finished), Restart := Job(Asked, Taken([Split], Head))])
  {
    hide Runs, Enabled, Next;
    var two, start := [Split, Behind], Scene([Split, Behind], map[]);
    NoStep(start);
    run, s := ReadsHead();
    Begins(s, Rest, Tail);
    OneMore(start, run, s, Begin(Rest, Tail));
    run, s := run + [Begin(Rest, Tail)], Next(s, Begin(Rest, Tail));
    assert s == Scene(two, map[First(0) := Job(Asked, Finished), Rest := Job(Carried, Taken(two, Tail))]);
    Disturbed(s);
    OneMore(start, run, s, Edit([Split], 5));
    run, s := run + [Edit([Split], 5)], Next(s, Edit([Split], 5));
    OneMore(start, run, s, Complete(Rest, 9, false));
    run, s := run + [Complete(Rest, 9, false)], Next(s, Complete(Rest, 9, false));
    Begins(s, Restart, Head);
    OneMore(start, run, s, Begin(Restart, Head));
    run, s := run + [Begin(Restart, Head)], Next(s, Begin(Restart, Head));
  }

  lemma {:induction false} ReadsHead() returns (run: seq<Action>, s: State)
    ensures Runs(Scene([Split, Behind], map[]), run, s)
    ensures s == Scene([Split, Behind], map[First(0) := Job(Asked, Finished), Rest := Job(Carried, Ready)])
  {
    hide Runs;
    var two, start := [Split, Behind], Scene([Split, Behind], map[]);
    NoStep(start);
    run, s := [], start;
    OneMore(start, run, s, Request(0, Asked));
    run, s := run + [Request(0, Asked)], Next(s, Request(0, Asked));
    hide Enabled, Next;
    Begins(s, First(0), Head);
    OneMore(start, run, s, Begin(First(0), Head));
    run, s := run + [Begin(First(0), Head)], Next(s, Begin(First(0), Head));
    HeadCommits(s);
    OneMore(start, run, s, Complete(First(0), 9, false));
    run, s := run + [Complete(First(0), 9, false)], Next(s, Complete(First(0), 9, false));
  }

  lemma {:induction false} HeadCommits(s: State)
    requires s == Scene([Split, Behind], map[First(0) := Job(Asked, Taken([Split, Behind], Head))])
    ensures Enabled(s, Complete(First(0), 9, false))
    ensures Next(s, Complete(First(0), 9, false)) == Scene([Split, Behind], map[First(0) := Job(Asked, Finished), Rest := Job(Carried, Ready)])
  {
    hide Read;
    Rows();
    assert [] + Head.slices == Head.slices;
  }

  lemma {:induction false} Disturbed(s: State)
    requires s == Scene([Split, Behind], map[First(0) := Job(Asked, Finished), Rest := Job(Carried, Taken([Split, Behind], Tail))])
    ensures Enabled(s, Edit([Split], 5)) && Enabled(Next(s, Edit([Split], 5)), Complete(Rest, 9, false))
    ensures Next(Next(s, Edit([Split], 5)), Complete(Rest, 9, false))
            == Scene([Split], map[First(0) := Job(Asked, Finished), Rest := Job(Carried, Finished), Restart := Job(Asked, Ready)])
  {
    hide Read;
    Rows();
  }

  // Then its commit is undisturbed, but the key of the job for the rest is used up: the cursor is below the
  // target, and no job is left that could go on.
  lemma {:induction false} RestIsLost() returns (run: seq<Action>, s: State, k: Key)
    ensures Runs(Scene([Split, Behind], map[]), run, s) && KeysSound(s) && Inv(s)
    ensures Enabled(s, Complete(k, 9, false)) && Undisturbed(s, k)
    ensures var s' := Next(s, Complete(k, 9, false));
            Cursor(s'.context, 0, s'.floor) < Asked.target && s'.jobs[k].payload.target == Asked.target
            && forall j | j in s'.jobs :: s'.jobs[j].phase.Finished?
  {
    hide Runs;
    run, s := RestartsHead();
    k := Restart;
    LastCommit(s);
    StartSound();
    RunKeys(Scene([Split, Behind], map[]), run, s);
  }

  lemma {:induction false} LastCommit(s: State)
    requires s == Scene([Split], map[First(0) := Job(Asked, Finished), Rest := Job(Carried, Finished), Restart := Job(Asked, Taken([Split], Head))])
    ensures Enabled(s, Complete(Restart, 9, false)) && Undisturbed(s, Restart)
    ensures Next(s, Complete(Restart, 9, false))
            == Scene([Split], map[First(0) := Job(Asked, Finished), Rest := Job(Carried, Finished), Restart := Job(Asked, Finished)])
  {
    hide Read;
    Rows();
  }

  lemma {:induction false} StartSound()
    ensures Inv(Scene([Split, Behind], map[])) && KeysSound(Scene([Split, Behind], map[]))
  {
  }

  // ------------------------------------------------------------------
  // The commit and the lineage
  // ------------------------------------------------------------------

  // A lineage stands at the cursor: its unread messages are those behind it.
  predicate StandsAt(s: State, p: Payload, messages: seq<Source>, index: nat, offset: nat) {
    index <= |messages| && messages[index..] == Between(s.rows, Cursor(s.context, p.generation, s.floor), p.target)
    && offset == StartOffset(p)
  }

  // The undisturbed commit of an answered batch moves the cursor, or the offset, as the lineage advances.
  lemma {:induction false} CommitFollowsLineage(s: State, k: Key, merged: Document, messages: seq<Source>, l: ContractLiveness.Lineage)
    requires Inv(s) && KeysSound(s) && Enabled(s, Complete(k, merged, false)) && Undisturbed(s, k)
    requires StandsAt(s, s.jobs[k].payload, messages, l.index, l.offset)
    ensures var s', p, b := Commit(s, k, merged, false), s.jobs[k].payload, s.jobs[k].phase.snap.batch;
            var next := ContractLiveness.Advance(messages, l, b);
            next.status.Lost?
            || (next.status.Arrived? && Between(s'.rows, Cursor(s'.context, p.generation, s'.floor), p.target) == [])
            || (b.nextOffset == 0 && StandsAt(s', p.(partial := None), messages, next.index, next.offset))
            || exists j :: j in s'.jobs && StandsAt(s', s'.jobs[j].payload, messages, next.index, next.offset)
                           && s'.jobs[j].payload.partial.Some?
  {
    hide Between, Read, PartialSound, AdvanceSound, Covered, Unread;
    var p, snap := s.jobs[k].payload, s.jobs[k].phase.snap;
    var b, now := snap.batch, Cursor(s.context, p.generation, s.floor);
    if b.nextOffset == 0 {
      CommitAdvances(s, k, merged);
      assert messages[l.index..][b.nextIndex..] == messages[l.index + b.nextIndex..];
    } else {
      CommitSplits(s, k, merged);
      assert JobSound(s.jobs[k]);
      StaysInMessage(p, snap);
    }
  }

  lemma {:induction false} StaysInMessage(p: Payload, snap: Snapshot)
    requires SnapSound(p, snap) && snap.batch.nextOffset > 0
    ensures snap.batch.nextIndex == 0
  {
    hide Covered, Unread, Encode, Boundary;
  }
}
