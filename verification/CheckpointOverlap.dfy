// Publishers of one user whose transactions overlap: the insert statement reads the head, and its row
// shows to the others only once it has committed.
module CheckpointOverlap {
  import opened Wrappers
  import opened CheckpointChain

  // staged: jobs whose insert statement has gone through and whose transaction is still open.
  datatype Overlap = Overlap(s: State, staged: set<nat>)

  datatype Step =
    | Other(a: Action)       // anything but an insert
    | Stage(job: nat)        // the insert statement, with the head it sees
    | Land(job: nat)         // the commit; the unique index on the end is the only thing checked again

  predicate MayStep(o: Overlap, t: Step) {
    match t
    case Other(a) => Enabled(o.s, a) && !a.Write? && (a.Check? ==> a.job !in o.staged)
    case Stage(job) =>
      job in o.s.checked && job !in o.staged
      && var r := o.s.checked[job]; Insertable(o.s, r.generation, r.binding, r.previous, r.through)
    case Land(job) => job in o.staged && job in o.s.checked
  }

  // A row of a generation forgotten meanwhile only keeps its end occupied.
  function Landed(s: State, r: Request): State {
    if !EndFree(s, r.through) then s
    else if s.generation != r.generation then s.(leftovers := s.leftovers + {r.through})
    else Published(s, r)
  }

  function Stepped(o: Overlap, t: Step): Overlap
    requires MayStep(o, t)
  {
    match t
    case Other(a) => o.(s := CheckpointChain.Next(o.s, a))
    case Stage(job) => o.(staged := o.staged + {job})
    case Land(job) => Overlap(Landed(o.s, o.s.checked[job]).(checked := o.s.checked - {job}), o.staged - {job})
  }

  ghost predicate Linear(rows: seq<Row>) {
    forall i | 0 <= i < |rows| :: Linked(rows, i)
  }

  // The commit publishes nothing, or the head is still the parent the insert statement saw.
  predicate Quiet(o: Overlap, t: Step) {
    t.Land? && t.job in o.s.checked ==>
      var r := o.s.checked[t.job];
      EndFree(o.s, r.through) && r.generation == o.s.generation ==> r.previous == IdOf(Latest(o.s.rows))
  }

  lemma {:induction false} QuietKeeps(o: Overlap, t: Step)
    requires Inv(o.s) && MayStep(o, t) && Quiet(o, t)
    ensures Inv(Stepped(o, t).s)
  {
    match t
    case Other(a) => InvKept(o.s, a);
    case Stage(_) =>
    case Land(job) => QuietLands(o, job);
  }

  lemma {:induction false} QuietLands(o: Overlap, job: nat)
    requires Inv(o.s) && MayStep(o, Land(job)) && Quiet(o, Land(job))
    ensures Inv(Stepped(o, Land(job)).s)
  {
    hide Linked, Exact, Range, Latest, CheckSound;
    var r, s' := o.s.checked[job], Stepped(o, Land(job)).s;
    assert CheckSound(o.s, r);
    if EndFree(o.s, r.through) && r.generation == o.s.generation {
      RowsInserted(o.s, r);
      forall j | j in s'.checked ensures CheckSound(s', s'.checked[j]) {
        ChecksSurvive(o.s, s', s'.checked[j]);
      }
    } else {
      forall j | j in s'.checked ensures CheckSound(s', s'.checked[j]) {
        EndsIgnored(o.s, s', s'.checked[j]);
      }
    }
  }

  lemma {:induction false} EndsIgnored(s: State, s': State, r: Request)
    requires CheckSound(s, r) && s' == s.(checked := s'.checked, leftovers := s'.leftovers)
    ensures CheckSound(s', r)
  {
  }

  lemma {:induction false} DisturbedForks(o: Overlap, t: Step)
    requires Inv(o.s) && MayStep(o, t) && !Quiet(o, t)
    ensures !Linear(Stepped(o, t).s.rows)
  {
    hide Exact, Range, CheckSound;
    LatestIsLast(o.s.rows);
    var rows := Stepped(o, t).s.rows;
    assert rows[|o.s.rows|].previous == o.s.checked[t.job].previous;
    assert !Linked(rows, |o.s.rows|);
  }

  // ------------------------------------------------------------------
  // Runs
  // ------------------------------------------------------------------

  ghost predicate Runs(o: Overlap, run: seq<Step>, o': Overlap)
    decreases |run|
  {
    if run == [] then o' == o else MayStep(o, run[0]) && Runs(Stepped(o, run[0]), run[1..], o')
  }

  ghost predicate LinearThroughout(o: Overlap, run: seq<Step>)
    decreases |run|
  {
    Linear(o.s.rows) && (run != [] && MayStep(o, run[0]) ==> LinearThroughout(Stepped(o, run[0]), run[1..]))
  }

  ghost predicate QuietThroughout(o: Overlap, run: seq<Step>)
    decreases |run|
  {
    run != [] && MayStep(o, run[0]) ==> Quiet(o, run[0]) && QuietThroughout(Stepped(o, run[0]), run[1..])
  }

  // Over every run of overlapping publishers the checkpoints are one chain all the way exactly when
  // every commit that publishes still finds the head its insert statement saw. Then the last state
  // keeps everything proved of publishers that insert and commit at once.
  lemma {:induction false} LinearExactly(o: Overlap, run: seq<Step>, o': Overlap)
    requires Inv(o.s) && Runs(o, run, o')
    ensures LinearThroughout(o, run) <==> QuietThroughout(o, run)
    ensures QuietThroughout(o, run) ==> Inv(o'.s)
    decreases |run|
  {
    hide MayStep, Stepped, Quiet, Linked, Exact, CheckSound;
    if run != [] {
      if Quiet(o, run[0]) {
        QuietKeeps(o, run[0]);
        LinearExactly(Stepped(o, run[0]), run[1..], o');
      } else {
        DisturbedForks(o, run[0]);
      }
    }
  }

  // Each insert statement runs when no other transaction is open.
  ghost predicate AloneThroughout(o: Overlap, run: seq<Step>)
    decreases |run|
  {
    run != [] && MayStep(o, run[0]) ==>
      (run[0].Stage? ==> o.staged == {}) && AloneThroughout(Stepped(o, run[0]), run[1..])
  }

  ghost predicate HeadsHold(o: Overlap) {
    forall j | j in o.staged ::
      o.staged == {j} && j in o.s.checked
      && (o.s.checked[j].generation == o.s.generation ==> o.s.checked[j].previous == IdOf(Latest(o.s.rows)))
  }

  lemma {:induction false} HeadsStay(o: Overlap, t: Step)
    requires Inv(o.s) && HeadsHold(o) && MayStep(o, t) && (t.Stage? ==> o.staged == {})
    ensures Quiet(o, t) && HeadsHold(Stepped(o, t))
  {
    hide Linked, Exact, Latest, Planned, EndFree, SourcesMatch, After, Range;
    forall j | j in o.s.checked ensures o.s.checked[j].generation <= o.s.generation {
      assert CheckSound(o.s, o.s.checked[j]);
    }
    hide CheckSound;
  }

  // One open transaction at a time is enough.
  lemma {:induction false} AloneIsQuiet(o: Overlap, run: seq<Step>, o': Overlap)
    requires Inv(o.s) && HeadsHold(o) && Runs(o, run, o') && AloneThroughout(o, run)
    ensures QuietThroughout(o, run)
    decreases |run|
  {
    hide MayStep, Stepped, Quiet, Inv, HeadsHold;
    if run != [] {
      HeadsStay(o, run[0]);
      QuietKeeps(o, run[0]);
      AloneIsQuiet(Stepped(o, run[0]), run[1..], o');
    }
  }

  // ------------------------------------------------------------------
  // A fork
  // ------------------------------------------------------------------

  lemma {:induction false} NoStep(o: Overlap)
    ensures Runs(o, [], o)
  {
  }

  lemma {:induction false} OneMore(o: Overlap, run: seq<Step>, m: Overlap, t: Step)
    requires Runs(o, run, m) && MayStep(m, t)
    ensures Runs(o, run + [t], Stepped(m, t))
    decreases |run|
  {
    hide MayStep, Stepped;
    if run == [] {
      NoStep(Stepped(m, t));
      assert ([] + [t])[1..] == [];
    } else {
      assert (run + [t])[1..] == run[1..] + [t];
      OneMore(Stepped(o, run[0]), run[1..], m, t);
    }
  }

  // The request for a first checkpoint over messages 1 to n, all empty.
  function First(n: nat): Request
    requires n in {1, 2}
  {
    var ids := if n == 1 then [1] else [1, 2];
    Request(0, None, ids, n, None, Fingerprint(None, if n == 1 then [(1, 0)] else [(1, 0), (2, 0)]))
  }

  const Two: State := Begin.(messages := map[1 := 0, 2 := 0])

  lemma {:induction false} FirstChecks(checked: map<nat, Request>, n: nat)
    requires n in {1, 2}
    ensures Enabled(Two.(checked := checked), Check(n, First(n)))
  {
    var s, r := Two.(checked := checked), First(n);
    assert After(r, None) == 0;
    assert Range(s.messages, 0, 1) == {1} == Elements([1]);
    assert Range(s.messages, 0, 2) == {1, 2} == Elements([1, 2]);
    assert r.hash.contents == seq(|r.ids|, i requires 0 <= i < |r.ids| => (r.ids[i], if r.ids[i] in s.messages then s.messages[r.ids[i]] else 0));
  }

  // Two publishers insert under the same parent, here none, and both commit: no link joins their
  // checkpoints, and message 1 is in both.
  lemma {:induction false} Forks() returns (run: seq<Step>, o: Overlap)
    ensures Runs(Overlap(Begin, {}), run, o) && |o.s.rows| == 2 && !Linear(o.s.rows)
    ensures o.s.rows[0].previous.None? && o.s.rows[1].previous.None? && 1 in o.s.rows[0].ids * o.s.rows[1].ids
  {
    hide Runs, Planned, Applicable, SourcesMatch, Range;
    var start, both := Overlap(Begin, {}), map[1 := First(1), 2 := First(2)];
    NoStep(start);
    run, o := [], start;
    OneMore(start, run, o, Other(Append(1, 0)));
    run, o := run + [Other(Append(1, 0))], Stepped(o, Other(Append(1, 0)));
    OneMore(start, run, o, Other(Append(2, 0)));
    run, o := run + [Other(Append(2, 0))], Stepped(o, Other(Append(2, 0)));
    assert o.s == Two;
    FirstChecks(map[], 1);
    OneMore(start, run, o, Other(Check(1, First(1))));
    run, o := run + [Other(Check(1, First(1)))], Stepped(o, Other(Check(1, First(1))));
    FirstChecks(o.s.checked, 2);
    OneMore(start, run, o, Other(Check(2, First(2))));
    run, o := run + [Other(Check(2, First(2)))], Stepped(o, Other(Check(2, First(2))));
    assert o == Overlap(Two.(checked := both), {});
    OneMore(start, run, o, Stage(1));
    run, o := run + [Stage(1)], Stepped(o, Stage(1));
    OneMore(start, run, o, Stage(2));
    run, o := run + [Stage(2)], Stepped(o, Stage(2));
    OneMore(start, run, o, Land(1));
    run, o := run + [Land(1)], Stepped(o, Land(1));
    OneMore(start, run, o, Land(2));
    run, o := run + [Land(2)], Stepped(o, Land(2));
    assert !Linked(o.s.rows, 1);
  }
}
