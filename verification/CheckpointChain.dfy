// The published summaries of one user: a chain of checkpoints over contiguous
// message ranges. Publishers check and insert in separate statements, so any
// number of them, new messages, edits and memory resets run interleaved.
module CheckpointChain {
  import opened Wrappers

  // What a plan was made from: its parent and the messages with their contents.
  datatype Fingerprint = Fingerprint(parent: Option<nat>, contents: seq<(nat, nat)>)

  datatype Request = Request(generation: nat, binding: Option<nat>, ids: seq<nat>, through: nat, previous: Option<nat>, hash: Fingerprint)

  datatype Row = Row(id: nat, through: nat, previous: Option<nat>, binding: Option<nat>, ids: set<nat>)

  // rows: the published checkpoints of the current generation. leftovers: ends that
  // checkpoints of forgotten generations still occupy in the unique index.
  datatype State = State(messages: map<nat, nat>, generation: nat, baseline: Option<nat>, rows: seq<Row>, leftovers: set<nat>,
                         checked: map<nat, Request>, nextId: nat)

  // ------------------------------------------------------------------
  // What a publisher checks
  // ------------------------------------------------------------------

  // ORDER BY through_message_id DESC LIMIT 1, a later row first among equals.
  function Latest(rows: seq<Row>): Option<Row> {
    if rows == [] then None
    else
      var last, rest := rows[|rows| - 1], Latest(rows[..|rows| - 1]);
      if rest.None? || rest.value.through <= last.through then Some(last) else rest
  }

  function IdOf(r: Option<Row>): Option<nat> {
    if r.Some? then Some(r.value.id) else None
  }

  function Range(messages: map<nat, nat>, after: nat, through: nat): set<nat> {
    set m | m in messages && after < m <= through
  }

  function Elements(ids: seq<nat>): set<nat> {
    set i | i in ids
  }

  // Requests are made by the planner from a run of messages: ids ascend and end at the boundary.
  predicate Planned(r: Request) {
    r.ids != [] && (forall i, j | 0 <= i < j < |r.ids| :: r.ids[i] < r.ids[j]) && r.ids[0] > 0
    && r.ids[|r.ids| - 1] == r.through
    && (r.binding.Some? ==> forall i | i in r.ids :: i > r.binding.value)
  }

  // The open lower bound of the range that is read again.
  function After(r: Request, latest: Option<Row>): nat
    requires r.ids != []
  {
    if r.binding.Some? then (if latest.Some? then latest.value.through else r.binding.value)
    else if r.ids[0] > 0 then r.ids[0] - 1 else 0
  }

  predicate SourcesMatch(s: State, r: Request, latest: Option<Row>)
    requires r.ids != []
  {
    r.ids[0] > After(r, latest)
    && (latest.Some? ==> r.ids[0] > latest.value.through)
    && Range(s.messages, After(r, latest), r.through) == Elements(r.ids)
    && r.hash == Fingerprint(IdOf(latest), seq(|r.ids|, i requires 0 <= i < |r.ids| =>
                                                        (r.ids[i], if r.ids[i] in s.messages then s.messages[r.ids[i]] else 0)))
  }

  // A head written under another baseline cannot be read.
  predicate Applicable(s: State, r: Request) {
    var latest := Latest(s.rows);
    s.generation == r.generation && s.baseline == r.binding
    && (latest.Some? ==> latest.value.binding == s.baseline && latest.value.through < r.through)
    && IdOf(latest) == r.previous
    && r.ids != [] && SourcesMatch(s, r, latest)
  }

  // ------------------------------------------------------------------
  // The insert statement, which checks once more
  // ------------------------------------------------------------------

  // The unique index on the end of a published window.
  predicate EndFree(s: State, through: nat) {
    through !in s.leftovers && forall i | 0 <= i < |s.rows| :: s.rows[i].through != through
  }

  predicate Insertable(s: State, generation: nat, binding: Option<nat>, previous: Option<nat>, through: nat) {
    s.generation == generation && s.baseline == binding && IdOf(Latest(s.rows)) == previous && EndFree(s, through)
  }

  function Published(s: State, r: Request): State {
    s.(rows := s.rows + [Row(s.nextId, r.through, r.previous, r.binding, Elements(r.ids))], nextId := s.nextId + 1)
  }

  function Insert(s: State, r: Request): State {
    if !Insertable(s, r.generation, r.binding, r.previous, r.through) then s else Published(s, r)
  }

  // ------------------------------------------------------------------
  // Steps
  // ------------------------------------------------------------------

  datatype Action =
    | Append(id: nat, content: nat)                  // the user's next message
    | Edit(id: nat, content: nat)
    | Forget(kept: set<nat>, leftovers: set<nat>, baseline: Option<nat>) // a new generation; summaries deleted
    | Rebase(baseline: Option<nat>)
    | Check(job: nat, r: Request)                    // a publisher's reads
    | Write(job: nat)                                // and its insert

  predicate Enabled(s: State, a: Action) {
    match a
    case Append(id, _) => id > 0 && forall m | m in s.messages :: m < id
    case Edit(id, _) => id in s.messages
    case Forget(_, _, _) => true
    case Rebase(_) => true
    case Check(job, r) => Planned(r) && Applicable(s, r)
    case Write(job) => job in s.checked
  }

  function Next(s: State, a: Action): State
    requires Enabled(s, a)
  {
    match a
    case Append(id, content) => s.(messages := s.messages[id := content])
    case Edit(id, content) => s.(messages := s.messages[id := content])
    case Forget(kept, leftovers, baseline) =>
      s.(messages := map m | m in s.messages && m in kept :: s.messages[m], generation := s.generation + 1,
         baseline := baseline, rows := [], leftovers := leftovers)
    case Rebase(baseline) => s.(baseline := baseline)
    case Check(job, r) => s.(checked := s.checked[job := r])
    case Write(job) => Insert(s, s.checked[job]).(checked := s.checked - {job})
  }

  // ------------------------------------------------------------------
  // The invariant
  // ------------------------------------------------------------------

  // Where the range of row i begins.
  function Start(rows: seq<Row>, i: nat): nat
    requires i < |rows|
  {
    if rows[i].binding.None? then 0 else if i == 0 then rows[0].binding.value else rows[i - 1].through
  }

  ghost predicate Linked(rows: seq<Row>, i: nat)
    requires i < |rows|
  {
    rows[i].binding == rows[0].binding
    && rows[i].previous == (if i == 0 then None else Some(rows[i - 1].id))
    && (i > 0 ==> rows[i - 1].through < rows[i].through && rows[i - 1].id < rows[i].id)
    && rows[i].through in rows[i].ids
  }

  // With a baseline the row covers everything since its parent; without one, everything since its first message.
  ghost predicate Exact(messages: map<nat, nat>, rows: seq<Row>, i: nat)
    requires i < |rows|
  {
    exists after: nat :: rows[i].ids == Range(messages, after, rows[i].through) && (i > 0 ==> after >= rows[i - 1].through)
                    && (rows[i].binding.Some? ==> after == Start(rows, i))
  }

  // A checked request still describes the messages, whatever else happened, as long as its parent is the head.
  ghost predicate CheckSound(s: State, r: Request) {
    Planned(r) && r.generation <= s.generation
    && (r.generation == s.generation && IdOf(Latest(s.rows)) == r.previous ==>
          var latest := Latest(s.rows);
          After(r, latest) < r.ids[0] && (latest.Some? ==> latest.value.through < r.ids[0])
          && Range(s.messages, After(r, latest), r.through) == Elements(r.ids)
          && (latest.Some? ==> latest.value.binding == r.binding))
    && (r.previous.Some? ==> r.previous.value < s.nextId)
    && (r.generation == s.generation ==> r.through in s.messages)
  }

  ghost predicate Inv(s: State) {
    (forall i | 0 <= i < |s.rows| :: Linked(s.rows, i) && Exact(s.messages, s.rows, i) && s.rows[i].id < s.nextId)
    && (forall j | j in s.checked :: CheckSound(s, s.checked[j]))
  }

  const Begin := State(map[], 0, None, [], {}, map[], 0)

  lemma {:induction false} BeginInv()
    ensures Inv(Begin)
  {
  }

  // ------------------------------------------------------------------
  // Every step keeps it
  // ------------------------------------------------------------------

  lemma {:induction false} LatestIsLast(rows: seq<Row>)
    requires forall i | 0 <= i < |rows| :: Linked(rows, i)
    ensures Latest(rows) == if rows == [] then None else Some(rows[|rows| - 1])
  {
    if |rows| > 1 {
      var front := rows[..|rows| - 1];
      forall i | 0 <= i < |front| ensures Linked(front, i) {
        assert Linked(rows, i);
      }
      LatestIsLast(front);
      assert Linked(rows, |rows| - 1);
    }
  }

  // New messages come after everything a summary or a checked request refers to.
  lemma {:induction false} AppendKeeps(s: State, id: nat, content: nat)
    requires Inv(s) && Enabled(s, Append(id, content))
    ensures Inv(Next(s, Append(id, content)))
  {
    var s' := Next(s, Append(id, content));
    forall i | 0 <= i < |s.rows| ensures Exact(s'.messages, s'.rows, i) {
      assert Linked(s.rows, i) && Exact(s.messages, s.rows, i);
      var after: nat :| s.rows[i].ids == Range(s.messages, after, s.rows[i].through) && (i > 0 ==> after >= s.rows[i - 1].through)
                        && (s.rows[i].binding.Some? ==> after == Start(s.rows, i));
      assert s.rows[i].through in s.messages;
      assert Range(s'.messages, after, s.rows[i].through) == Range(s.messages, after, s.rows[i].through);
    }
    forall j | j in s'.checked ensures CheckSound(s', s'.checked[j]) {
      var r := s.checked[j];
      assert CheckSound(s, r);
      if r.generation == s.generation && IdOf(Latest(s.rows)) == r.previous {
        var after := After(r, Latest(s.rows));
        assert Range(s'.messages, after, r.through) == Range(s.messages, after, r.through);
      }
    }
  }

  lemma {:induction false} EditKeeps(s: State, id: nat, content: nat)
    requires Inv(s) && Enabled(s, Edit(id, content))
    ensures Inv(Next(s, Edit(id, content)))
  {
    var s' := Next(s, Edit(id, content));
    assert forall after, through :: Range(s'.messages, after, through) == Range(s.messages, after, through);
    forall i | 0 <= i < |s.rows| ensures Exact(s'.messages, s'.rows, i) {
      assert Exact(s.messages, s.rows, i);
      var after: nat :| s.rows[i].ids == Range(s.messages, after, s.rows[i].through) && (i > 0 ==> after >= s.rows[i - 1].through)
                        && (s.rows[i].binding.Some? ==> after == Start(s.rows, i));
      assert s'.rows[i].ids == Range(s'.messages, after, s'.rows[i].through);
    }
    forall j | j in s'.checked ensures CheckSound(s', s'.checked[j]) {
      assert CheckSound(s, s.checked[j]);
    }
  }

  lemma {:induction false} CheckKeeps(s: State, job: nat, r: Request)
    requires Inv(s) && Enabled(s, Check(job, r))
    ensures Inv(Next(s, Check(job, r)))
  {
    var s' := Next(s, Check(job, r));
    LatestIsLast(s.rows);
    assert r.ids[|r.ids| - 1] in Elements(r.ids);
    assert r.through in s.messages;
    assert CheckSound(s', r);
    forall j | j in s'.checked ensures CheckSound(s', s'.checked[j]) {
      if j != job {
        assert CheckSound(s, s.checked[j]);
      }
    }
  }

  lemma {:induction false} RowStays(messages: map<nat, nat>, rows: seq<Row>, row: Row, i: nat)
    requires i < |rows| && Linked(rows, i) && Exact(messages, rows, i)
    ensures Linked(rows + [row], i) && Exact(messages, rows + [row], i)
  {
    var after: nat :| rows[i].ids == Range(messages, after, rows[i].through) && (i > 0 ==> after >= rows[i - 1].through)
                      && (rows[i].binding.Some? ==> after == Start(rows, i));
    assert (rows + [row])[i].ids == Range(messages, after, (rows + [row])[i].through) && Start(rows + [row], i) == Start(rows, i);
  }

  lemma {:induction false} RowJoins(messages: map<nat, nat>, rows: seq<Row>, row: Row, after: nat)
    requires rows != [] ==> Linked(rows, |rows| - 1) && row.binding == rows[|rows| - 1].binding
                            && rows[|rows| - 1].through < row.through && rows[|rows| - 1].id < row.id && after >= rows[|rows| - 1].through
    requires row.previous == if rows == [] then None else Some(rows[|rows| - 1].id)
    requires row.ids == Range(messages, after, row.through) && row.through in row.ids
    requires row.binding.Some? ==> after == if rows == [] then row.binding.value else rows[|rows| - 1].through
    ensures Linked(rows + [row], |rows|) && Exact(messages, rows + [row], |rows|)
  {
    assert after >= 0 && (rows + [row])[|rows|].ids == Range(messages, after, row.through);
  }

  // The new head has an id no checked request names as its parent.
  lemma {:induction false} ChecksSurvive(s: State, s': State, r: Request)
    requires CheckSound(s, r) && s'.messages == s.messages && s'.generation == s.generation && s'.nextId == s.nextId + 1
    requires Latest(s'.rows).Some? && Latest(s'.rows).value.id == s.nextId
    ensures CheckSound(s', r)
  {
    hide Range, Latest, Elements, After, Planned;
  }

  lemma {:induction false} RowsInserted(s: State, r: Request)
    requires Inv(s) && CheckSound(s, r) && r.generation == s.generation && r.previous == IdOf(Latest(s.rows))
    ensures var s' := Published(s, r);
            (forall i | 0 <= i < |s'.rows| :: Linked(s'.rows, i) && Exact(s'.messages, s'.rows, i) && s'.rows[i].id < s'.nextId)
            && Latest(s'.rows).Some? && Latest(s'.rows).value.id == s.nextId
  {
    hide Linked, Exact, Range, Latest;
    var s', n := Published(s, r), |s.rows|;
    var row := s'.rows[n];
    LatestIsLast(s.rows);
    assert r.ids[|r.ids| - 1] in Elements(r.ids) && r.ids[0] <= r.through;
    if n > 0 {
      assert Linked(s.rows, n - 1);
    }
    RowJoins(s.messages, s.rows, row, After(r, Latest(s.rows)));
    forall i | 0 <= i < n ensures Linked(s'.rows, i) && Exact(s'.messages, s'.rows, i) {
      RowStays(s.messages, s.rows, row, i);
    }
    LatestIsLast(s'.rows);
  }

  lemma {:induction false} InsertKeeps(s: State, job: nat)
    requires Inv(s) && job in s.checked
    ensures Inv(Next(s, Write(job)))
  {
    hide Linked, Exact, Range, Latest, CheckSound;
    var r, s' := s.checked[job], Next(s, Write(job));
    assert CheckSound(s, r);
    if Insertable(s, r.generation, r.binding, r.previous, r.through) {
      RowsInserted(s, r);
      forall j | j in s'.checked ensures CheckSound(s', s'.checked[j]) {
        ChecksSurvive(s, s', s.checked[j]);
      }
    } else {
      forall j | j in s'.checked ensures CheckSound(s', s'.checked[j]) {
        ChecksSame(s, s', s.checked[j]);
      }
    }
  }

  lemma {:induction false} ChecksSame(s: State, s': State, r: Request)
    requires CheckSound(s, r) && s' == s.(checked := s'.checked)
    ensures CheckSound(s', r)
  {
  }

  lemma {:induction false} InvKept(s: State, a: Action)
    requires Inv(s) && Enabled(s, a)
    ensures Inv(Next(s, a))
  {
    match a
    case Append(id, content) => AppendKeeps(s, id, content);
    case Edit(id, content) => EditKeeps(s, id, content);
    case Forget(_, _, _) =>
      forall j | j in s.checked ensures CheckSound(Next(s, a), s.checked[j]) {
        assert CheckSound(s, s.checked[j]);
      }
    case Rebase(_) =>
      forall j | j in s.checked ensures CheckSound(Next(s, a), s.checked[j]) {
        assert CheckSound(s, s.checked[j]);
      }
    case Check(job, r) => CheckKeeps(s, job, r);
    case Write(job) => InsertKeeps(s, job);
  }

  ghost predicate Runs(s: State, run: seq<Action>, s': State)
    decreases |run|
  {
    if run == [] then s' == s else Enabled(s, run[0]) && Runs(Next(s, run[0]), run[1..], s')
  }

  lemma {:induction false} RunInv(s: State, run: seq<Action>, s': State)
    requires Inv(s) && Runs(s, run, s')
    ensures Inv(s')
    decreases |run|
  {
    if run != [] {
      InvKept(s, run[0]);
      RunInv(Next(s, run[0]), run[1..], s');
    }
  }

  ghost predicate Reachable(s: State) {
    exists run :: Runs(Begin, run, s)
  }

  lemma {:induction false} ReachableInv(s: State)
    requires Reachable(s)
    ensures Inv(s)
  {
    hide Runs, Inv;
    var run :| Runs(Begin, run, s);
    BeginInv();
    RunInv(Begin, run, s);
  }

  // ------------------------------------------------------------------
  // What the invariant means
  // ------------------------------------------------------------------

  function Covered(rows: seq<Row>): set<nat> {
    if rows == [] then {} else Covered(rows[..|rows| - 1]) + rows[|rows| - 1].ids
  }

  lemma {:induction false} CoveredExactly(messages: map<nat, nat>, rows: seq<Row>, n: nat)
    requires 0 < n <= |rows| && (forall i | 0 <= i < |rows| :: Linked(rows, i) && Exact(messages, rows, i)) && rows[0].binding.Some?
    ensures Covered(rows[..n]) == Range(messages, rows[0].binding.value, rows[n - 1].through)
    ensures rows[0].binding.value < rows[n - 1].through
    decreases n
  {
    assert Linked(rows, n - 1) && Exact(messages, rows, n - 1);
    var after: nat :| rows[n - 1].ids == Range(messages, after, rows[n - 1].through) && after == Start(rows, n - 1);
    assert rows[..n][..n - 1] == rows[..n - 1];
    if n > 1 {
      CoveredExactly(messages, rows, n - 1);
    } else {
      assert Covered(rows[..0]) == {};
    }
  }

  // In every reachable state the checkpoints bound to a baseline cover together exactly the messages
  // behind the baseline up to the last end.
  lemma {:induction false} ChainCovers(s: State)
    requires Reachable(s) && s.rows != [] && s.rows[0].binding.Some?
    ensures Covered(s.rows) == Range(s.messages, s.rows[0].binding.value, s.rows[|s.rows| - 1].through)
  {
    hide Reachable, Linked, Exact, Covered, Range;
    ReachableInv(s);
    CoveredExactly(s.messages, s.rows, |s.rows|);
    assert s.rows[..|s.rows|] == s.rows;
  }

  // They form one chain: each names its predecessor and ends strictly later, and no two share a message.
  // Without a baseline this holds too; only messages before the first source of a link may be skipped.
  lemma {:induction false} ChainLinear(s: State, i: nat, j: nat)
    requires Reachable(s) && i < j < |s.rows|
    ensures s.rows[0].previous.None? && s.rows[j].previous == Some(s.rows[j - 1].id)
    ensures s.rows[i].through < s.rows[j].through && s.rows[i].ids !! s.rows[j].ids
  {
    hide Reachable, Exact, Range, CheckSound, Linked;
    ReachableInv(s);
    assert Linked(s.rows, 0) && Linked(s.rows, j) && Exact(s.messages, s.rows, i) && Exact(s.messages, s.rows, j);
    LinksTo(s.rows, 0);
    LinksTo(s.rows, j);
    EndsIncrease(s.rows, i, j);
    EndsIncrease(s.rows, i, j - 1);
    RowsApart(s.messages, s.rows, i, j);
  }

  lemma {:induction false} LinksTo(rows: seq<Row>, i: nat)
    requires i < |rows| && Linked(rows, i)
    ensures rows[i].previous == if i == 0 then None else Some(rows[i - 1].id)
  {
  }

  lemma {:induction false} RowsApart(messages: map<nat, nat>, rows: seq<Row>, i: nat, j: nat)
    requires i < j < |rows| && Exact(messages, rows, i) && Exact(messages, rows, j) && rows[i].through <= rows[j - 1].through
    ensures rows[i].ids !! rows[j].ids
  {
    var after: nat :| rows[j].ids == Range(messages, after, rows[j].through) && after >= rows[j - 1].through;
    var before: nat :| rows[i].ids == Range(messages, before, rows[i].through);
  }

  lemma {:induction false} EndsIncrease(rows: seq<Row>, i: nat, j: nat)
    requires i <= j < |rows| && forall k | 0 <= k < |rows| :: Linked(rows, k)
    ensures rows[i].through <= rows[j].through && (i < j ==> rows[i].through < rows[j].through)
    decreases j
  {
    if i < j {
      EndsIncrease(rows, i, j - 1);
      assert Linked(rows, j);
    }
  }

  // ------------------------------------------------------------------
  // What gets in
  // ------------------------------------------------------------------

  // A request that names the head as its parent is inserted exactly when its end is later than the
  // head's and no checkpoint of a forgotten generation occupies it.
  lemma {:induction false} LaterEndsGetIn(s: State, r: Request)
    requires Inv(s) && s.rows != [] && r.generation == s.generation && r.binding == s.baseline && r.previous == IdOf(Latest(s.rows))
    requires r.through >= Latest(s.rows).value.through
    ensures Insert(s, r) != s <==> r.through > Latest(s.rows).value.through && r.through !in s.leftovers
  {
    hide Linked, Exact, Range, CheckSound, Elements, Latest;
    LatestIsLast(s.rows);
    forall i | 0 <= i < |s.rows| ensures s.rows[i].through <= s.rows[|s.rows| - 1].through {
      EndsIncrease(s.rows, i, |s.rows| - 1);
    }
    assert |(s.rows + [Row(s.nextId, r.through, r.previous, r.binding, Elements(r.ids))])| != |s.rows|;
  }

  // A request checked just before is inserted exactly when no checkpoint of a forgotten generation occupies
  // its end: the first of the chain, and every later one.
  lemma {:induction false} CheckedGetsIn(s: State, r: Request)
    requires Inv(s) && Planned(r) && Applicable(s, r)
    ensures r.through !in s.leftovers ==>
              var s' := Insert(s, r);
              |s'.rows| == |s.rows| + 1 && s'.rows[..|s.rows|] == s.rows && s'.rows[|s.rows|].through == r.through
              && s'.rows[|s.rows|].ids == Elements(r.ids) && s'.rows[|s.rows|].previous == IdOf(Latest(s.rows))
              && s'.rows[|s.rows|].binding == s.baseline && s'.leftovers == s.leftovers
    ensures r.through in s.leftovers ==> Insert(s, r) == s
  {
    hide Linked, Exact, Range, CheckSound, Elements, SourcesMatch, Latest;
    LatestIsLast(s.rows);
    forall i | 0 <= i < |s.rows| ensures s.rows[i].through < r.through {
      EndsIncrease(s.rows, i, |s.rows| - 1);
    }
  }

  // The head's own end never gets in again, whoever asks.
  lemma {:induction false} HeadEndNeverGetsIn(s: State, r: Request)
    requires Inv(s) && s.rows != [] && r.through == Latest(s.rows).value.through
    ensures Insert(s, r) == s
  {
    LatestIsLast(s.rows);
  }
}
