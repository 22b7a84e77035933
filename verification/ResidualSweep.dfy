// Clearing what late writers leave behind a deleted account. A deletion is closed only
// after two empty sweeps in a row, and how many there were is counted from the ledger.
module ResidualSweep {
  import opened Wrappers

  type User = nat
  type Operation = nat

  const MAX_SUBJECTS: nat := 200
  const DELETE_BATCH: nat := 200
  const REQUIRED_EMPTY_SWEEPS: nat := 2

  datatype Kind = Promoted | Empty | Deleted | Closed

  datatype Event = Event(operation: Operation, user: User, kind: Kind)

  datatype Status = Active | Deleting | Gone

  datatype Barrier = Barrier(status: Status, operation: Operation, epoch: nat)

  datatype Outcome = Swept | FoundEmpty | ClosedNow | Skipped

  // One sweep that committed, and whether it found nothing.
  datatype Sweep = Sweep(user: User, operation: Operation, empty: bool)

  // ------------------------------------------------------------------
  // Counting from the ledger
  // ------------------------------------------------------------------

  // max(id) of the deletions, or 0; ids start at 1.
  function LastDeleted(ledger: seq<Event>, u: User, op: Operation): (id: nat)
    ensures id <= |ledger|
  {
    if ledger == [] then 0
    else if ledger[|ledger| - 1] == Event(op, u, Deleted) then |ledger|
    else LastDeleted(ledger[..|ledger| - 1], u, op)
  }

  // count(*) of the empty sweeps with id > after.
  function EmptyAfter(ledger: seq<Event>, u: User, op: Operation, after: nat): nat {
    if ledger == [] then 0
    else EmptyAfter(ledger[..|ledger| - 1], u, op, after)
         + if |ledger| > after && ledger[|ledger| - 1] == Event(op, u, Empty) then 1 else 0
  }

  function EmptySweeps(ledger: seq<Event>, u: User, op: Operation): nat {
    EmptyAfter(ledger, u, op, LastDeleted(ledger, u, op))
  }

  lemma {:induction false} NoneAfterEnd(ledger: seq<Event>, u: User, op: Operation, after: nat)
    requires |ledger| <= after
    ensures EmptyAfter(ledger, u, op, after) == 0
  {
    if ledger != [] {
      NoneAfterEnd(ledger[..|ledger| - 1], u, op, after);
    }
  }

  // The count goes up with an empty sweep, back to nothing with a deletion, and ignores everything else.
  lemma {:induction false} CountSteps(ledger: seq<Event>, e: Event, u: User, op: Operation)
    ensures EmptySweeps(ledger + [e], u, op)
            == if e == Event(op, u, Empty) then EmptySweeps(ledger, u, op) + 1
               else if e == Event(op, u, Deleted) then 0
               else EmptySweeps(ledger, u, op)
  {
    assert (ledger + [e])[..|ledger|] == ledger;
    NoneAfterEnd(ledger + [e], u, op, |ledger| + 1);
  }

  // How many of the latest sweeps of this deletion found nothing.
  function Trailing(trace: seq<Sweep>, u: User, op: Operation): nat {
    if trace == [] then 0
    else
      var last, rest := trace[|trace| - 1], trace[..|trace| - 1];
      if last.user != u || last.operation != op then Trailing(rest, u, op)
      else if last.empty then Trailing(rest, u, op) + 1
      else 0
  }

  // ------------------------------------------------------------------
  // One sweep of one account
  // ------------------------------------------------------------------

  datatype State = State(vectors: map<User, nat>, barriers: map<User, Barrier>, ledger: seq<Event>, nextOp: Operation,
                         trace: seq<Sweep>)

  function Stored(s: State, u: User): nat {
    if u in s.vectors then s.vectors[u] else 0
  }

  // The sweep with the count the handler read for it.
  function SweepOne(s: State, u: User, op: Operation, counted: nat): (State, Outcome) {
    var found := Stored(s, u);
    var left := if found > DELETE_BATCH then found - DELETE_BATCH else 0;
    var swept := s.(vectors := s.vectors[u := left], trace := s.trace + [Sweep(u, op, found == 0)]);
    if found > 0 then (swept.(ledger := s.ledger + [Event(op, u, Deleted)]), Swept)
    else if counted + 1 < REQUIRED_EMPTY_SWEEPS then (swept.(ledger := s.ledger + [Event(op, u, Empty)]), FoundEmpty)
    else if u in s.barriers && s.barriers[u].status == Deleting && s.barriers[u].operation == op
    then (swept.(barriers := s.barriers[u := s.barriers[u].(status := Gone)], ledger := s.ledger + [Event(op, u, Closed)]), ClosedNow)
    else (swept, Skipped)
  }

  // Another deletion of the account starts: by its owner, or because the account is gone.
  function Start(s: State, u: User, kind: Option<Kind>): State {
    var epoch := if u in s.barriers then s.barriers[u].epoch + 1 else 1;
    s.(barriers := s.barriers[u := Barrier(Deleting, s.nextOp, epoch)], nextOp := s.nextOp + 1,
       ledger := if kind.Some? then s.ledger + [Event(s.nextOp, u, kind.value)] else s.ledger)
  }

  // ------------------------------------------------------------------
  // The invariant: ledger and trace agree
  // ------------------------------------------------------------------

  ghost predicate Agrees(s: State, u: User)
    requires u in s.barriers
  {
    var b := s.barriers[u];
    b.operation < s.nextOp
    && (b.status == Deleting ==> EmptySweeps(s.ledger, u, b.operation) == Trailing(s.trace, u, b.operation))
  }

  ghost predicate Consistent(s: State) {
    (forall u | u in s.barriers :: Agrees(s, u))
    && (forall e | e in s.ledger :: e.operation < s.nextOp)
    && (forall w | w in s.trace :: w.operation < s.nextOp)
  }

  // Handlers that run one after another close a deletion with its second empty sweep in a row.
  ghost predicate Settled(s: State, u: User)
    requires u in s.barriers
  {
    var b := s.barriers[u];
    (b.status == Deleting ==> Trailing(s.trace, u, b.operation) < REQUIRED_EMPTY_SWEEPS)
    && (b.status == Gone ==> Trailing(s.trace, u, b.operation) >= REQUIRED_EMPTY_SWEEPS)
  }

  ghost predicate Valid(s: State) {
    Consistent(s) && forall u | u in s.barriers :: Settled(s, u)
  }

  lemma {:induction false} TrailingSteps(trace: seq<Sweep>, w: Sweep, u: User, op: Operation)
    ensures Trailing(trace + [w], u, op)
            == if w.user != u || w.operation != op then Trailing(trace, u, op)
               else if w.empty then Trailing(trace, u, op) + 1 else 0
  {
    assert (trace + [w])[..|trace|] == trace;
  }

  // A sweep keeps ledger and trace in agreement whatever count it acts on, and whatever operation. If it
  // closes, that is right exactly when the ledger, counted once more, would have let it close.
  lemma {:induction false} SweepAgrees(s: State, u: User, op: Operation, counted: nat)
    requires Consistent(s) && op < s.nextOp
    ensures var (s', outcome) := SweepOne(s, u, op, counted);
            Consistent(s')
            && (outcome == ClosedNow ==>
                  (Trailing(s'.trace, u, op) >= REQUIRED_EMPTY_SWEEPS
                   <==> EmptySweeps(s.ledger, u, op) + 1 >= REQUIRED_EMPTY_SWEEPS))
  {
    hide EmptySweeps, Trailing;
    var (s', outcome) := SweepOne(s, u, op, counted);
    forall v | v in s'.barriers ensures Agrees(s', v) {
      assert Agrees(s, v);
      TrailingSteps(s.trace, Sweep(u, op, Stored(s, u) == 0), v, s.barriers[v].operation);
      if s'.ledger != s.ledger {
        CountSteps(s.ledger, s'.ledger[|s'.ledger| - 1], v, s.barriers[v].operation);
      }
    }
    if outcome == ClosedNow {
      assert Agrees(s, u);
      TrailingSteps(s.trace, Sweep(u, op, true), u, op);
    }
  }

  // A sweep with a count as fresh as the ledger.
  lemma {:induction false} SweepKeeps(s: State, u: User)
    requires Valid(s) && u in s.barriers && s.barriers[u].status == Deleting
    ensures var op := s.barriers[u].operation; var (s', outcome) := SweepOne(s, u, op, EmptySweeps(s.ledger, u, op));
            Valid(s') && (outcome == ClosedNow <==> Trailing(s'.trace, u, op) == REQUIRED_EMPTY_SWEEPS)
            && (outcome == Swept <==> Stored(s, u) > 0) && outcome != Skipped
  {
    hide EmptySweeps, Trailing;
    var op := s.barriers[u].operation;
    assert Agrees(s, u) && Settled(s, u);
    SweepAgrees(s, u, op, EmptySweeps(s.ledger, u, op));
    hide Consistent;
    var (s', _) := SweepOne(s, u, op, EmptySweeps(s.ledger, u, op));
    forall v | v in s'.barriers ensures Settled(s', v) {
      assert Settled(s, v);
      TrailingSteps(s.trace, Sweep(u, op, Stored(s, u) == 0), v, s.barriers[v].operation);
    }
    TrailingSteps(s.trace, Sweep(u, op, Stored(s, u) == 0), u, op);
  }

  lemma {:induction false} NewOperation(ledger: seq<Event>, trace: seq<Sweep>, u: User, op: Operation)
    requires (forall e | e in ledger :: e.operation < op) && forall w | w in trace :: w.operation < op
    ensures EmptySweeps(ledger, u, op) == 0 && Trailing(trace, u, op) == 0
    decreases |ledger| + |trace|
  {
    if ledger != [] {
      assert ledger[|ledger| - 1] in ledger;
      NewOperation(ledger[..|ledger| - 1], trace, u, op);
      assert ledger[..|ledger| - 1] + [ledger[|ledger| - 1]] == ledger;
      CountSteps(ledger[..|ledger| - 1], ledger[|ledger| - 1], u, op);
    }
    if trace != [] {
      assert trace[|trace| - 1] in trace;
      NewOperation(ledger, trace[..|trace| - 1], u, op);
    }
  }

  lemma {:induction false} StartKeeps(s: State, u: User, kind: Option<Kind>)
    requires Consistent(s) && kind in {None, Some(Promoted)}
    ensures Consistent(Start(s, u, kind)) && (Valid(s) ==> Valid(Start(s, u, kind)))
  {
    hide EmptySweeps, Trailing;
    var s' := Start(s, u, kind);
    NewOperation(s.ledger, s.trace, u, s.nextOp);
    forall v | v in s'.barriers ensures Agrees(s', v) && (Valid(s) ==> Settled(s', v)) {
      CountSteps(s.ledger, Event(s.nextOp, u, Promoted), v, s'.barriers[v].operation);
      if v != u {
        assert Agrees(s, v) && (Valid(s) ==> Settled(s, v));
      }
    }
  }

  // ------------------------------------------------------------------
  // Runs
  // ------------------------------------------------------------------

  datatype Action =
    | Arrive(u: User, n: nat)   // a late writer stores vectors
    | Begin(u: User)
    | Promote(u: User)
    | SweepOf(u: User)          // read the count, sweep

  predicate Enabled(s: State, a: Action) {
    match a
    case Arrive(_, _) => true
    case Begin(u) => true
    case Promote(u) => u in s.barriers && s.barriers[u].status == Active
    case SweepOf(u) => u in s.barriers && s.barriers[u].status == Deleting
  }

  function Next(s: State, a: Action): State
    requires Enabled(s, a)
  {
    match a
    case Arrive(u, n) => s.(vectors := s.vectors[u := Stored(s, u) + n])
    case Begin(u) => Start(s, u, None)
    case Promote(u) => Start(s, u, Some(Promoted))
    case SweepOf(u) => SweepOne(s, u, s.barriers[u].operation, EmptySweeps(s.ledger, u, s.barriers[u].operation)).0
  }

  lemma {:induction false} NextKeeps(s: State, a: Action)
    requires Valid(s) && Enabled(s, a)
    ensures Valid(Next(s, a))
  {
    match a
    case Arrive(u, n) =>
      forall v | v in s.barriers ensures Agrees(Next(s, a), v) && Settled(Next(s, a), v) {
        assert Agrees(s, v) && Settled(s, v);
      }
    case Begin(u) => StartKeeps(s, u, None);
    case Promote(u) => StartKeeps(s, u, Some(Promoted));
    case SweepOf(u) => SweepKeeps(s, u);
  }

  ghost predicate Runs(s: State, run: seq<Action>, s': State)
    decreases |run|
  {
    if run == [] then s' == s else Enabled(s, run[0]) && Runs(Next(s, run[0]), run[1..], s')
  }

  lemma {:induction false} RunKeeps(s: State, run: seq<Action>, s': State)
    requires Valid(s) && Runs(s, run, s')
    ensures Valid(s')
    decreases |run|
  {
    if run != [] {
      NextKeeps(s, run[0]);
      RunKeeps(Next(s, run[0]), run[1..], s');
    }
  }

  // Over every sequential run, whatever arrives in between: an account counts as deleted only when the
  // last two sweeps of its current deletion both found nothing.
  lemma {:induction false} ClosedAfterTwo(s: State, run: seq<Action>, s': State, u: User)
    requires Valid(s) && Runs(s, run, s') && u in s'.barriers && s'.barriers[u].status == Gone
    ensures Trailing(s'.trace, u, s'.barriers[u].operation) >= REQUIRED_EMPTY_SWEEPS
  {
    RunKeeps(s, run, s');
    assert Settled(s', u);
  }

  // ------------------------------------------------------------------
  // A deletion comes to its end
  // ------------------------------------------------------------------

  // So many sweeps of one account, nothing else in between.
  ghost function SweptTimes(s: State, u: User, n: nat): State
    requires u in s.barriers
    decreases n
  {
    if n == 0 || !Enabled(s, SweepOf(u)) then s else SweptTimes(Next(s, SweepOf(u)), u, n - 1)
  }

  // A sweep takes away a whole batch, or all there is, and nothing of anyone else.
  lemma {:induction false} SweepTakes(s: State, u: User, op: Operation, counted: nat)
    ensures var s' := SweepOne(s, u, op, counted).0;
            (Stored(s, u) > DELETE_BATCH ==> Stored(s', u) + DELETE_BATCH == Stored(s, u))
            && (Stored(s, u) <= DELETE_BATCH ==> Stored(s', u) == 0)
            && forall v | v != u :: Stored(s', v) == Stored(s, v)
  {
  }

  // As many sweeps as there are batches empty the account, and the second empty one after them closes it.
  lemma {:induction false} SweptClean(s: State, u: User, batches: nat)
    requires Valid(s) && u in s.barriers && s.barriers[u].status == Deleting
    requires Stored(s, u) <= batches * DELETE_BATCH && (batches > 0 ==> Stored(s, u) > (batches - 1) * DELETE_BATCH)
    ensures batches > 0 || EmptySweeps(s.ledger, u, s.barriers[u].operation) == 0 ==>
              var close := SweptTimes(s, u, batches + REQUIRED_EMPTY_SWEEPS); var before := SweptTimes(s, u, batches + 1);
              u in close.barriers && close.barriers[u].status == Gone && Stored(close, u) == 0
              && u in before.barriers && before.barriers[u].status == Deleting
    decreases batches
  {
    hide EmptySweeps, Trailing, Valid;
    var op := s.barriers[u].operation;
    var counted := EmptySweeps(s.ledger, u, op);
    SweepKeeps(s, u);
    SweepTakes(s, u, op, counted);
    var s1 := Next(s, SweepOf(u));
    CountSteps(s.ledger, Event(op, u, Deleted), u, op);
    CountSteps(s.ledger, Event(op, u, Empty), u, op);
    if batches > 0 {
      SweptClean(s1, u, batches - 1);
    } else if counted == 0 {
      assert Stored(s, u) == 0;
      var s2 := Next(s1, SweepOf(u));
      assert SweptTimes(s1, u, 1) == SweptTimes(s2, u, 0) == s2;
      assert SweptTimes(s, u, 2) == SweptTimes(s1, u, 1) && SweptTimes(s, u, 1) == SweptTimes(s1, u, 0) == s1;
    }
  }

  // ------------------------------------------------------------------
  // Overlapping handlers
  // ------------------------------------------------------------------

  type Handler = nat

  datatype Subject = Subject(user: User, operation: Operation, counted: nat)

  // pending: what each handler read and has still to sweep.
  datatype Overlap = Overlap(base: State, pending: map<Handler, seq<Subject>>)

  datatype Step =
    | Other(a: Action)                 // anything but a sweep
    | Read(h: Handler, us: seq<User>)  // one query for all accounts; a retried handler reads again
    | SweepHead(h: Handler)            // the next account, in a transaction of its own

  function ReadNow(s: State, us: seq<User>): (subjects: seq<Subject>)
    requires forall u | u in us :: u in s.barriers
    ensures |subjects| == |us|
  {
    seq(|us|, i requires 0 <= i < |us| =>
      Subject(us[i], s.barriers[us[i]].operation, EmptySweeps(s.ledger, us[i], s.barriers[us[i]].operation)))
  }

  predicate MayStep(o: Overlap, t: Step) {
    match t
    case Other(a) => Enabled(o.base, a) && !a.SweepOf?
    case Read(_, us) => forall u | u in us :: u in o.base.barriers && o.base.barriers[u].status == Deleting
    case SweepHead(h) => h in o.pending && o.pending[h] != []
  }

  // The sweep a handler is about to do.
  function HeadSweep(o: Overlap, h: Handler): (State, Outcome)
    requires MayStep(o, SweepHead(h))
  {
    var x := o.pending[h][0];
    SweepOne(o.base, x.user, x.operation, x.counted)
  }

  function Stepped(o: Overlap, t: Step): Overlap
    requires MayStep(o, t)
  {
    match t
    case Other(a) => o.(base := Next(o.base, a))
    case Read(h, us) => o.(pending := o.pending[h := ReadNow(o.base, us)])
    case SweepHead(h) => Overlap(HeadSweep(o, h).0, o.pending[h := o.pending[h][1..]])
  }

  ghost predicate Overlapping(o: Overlap, run: seq<Step>, o': Overlap)
    decreases |run|
  {
    if run == [] then o' == o else MayStep(o, run[0]) && Overlapping(Stepped(o, run[0]), run[1..], o')
  }

  ghost predicate OverlapInv(o: Overlap) {
    Consistent(o.base) && forall h, i | h in o.pending && 0 <= i < |o.pending[h]| :: o.pending[h][i].operation < o.base.nextOp
  }

  lemma {:induction false} SteppedKeeps(o: Overlap, t: Step)
    requires OverlapInv(o) && MayStep(o, t)
    ensures OverlapInv(Stepped(o, t))
  {
    match t
    case Other(a) =>
      match a {
        case Arrive(_, _) =>
          forall v | v in o.base.barriers ensures Agrees(Next(o.base, a), v) {
            assert Agrees(o.base, v);
          }
        case Begin(u) => StartKeeps(o.base, u, None);
        case Promote(u) => StartKeeps(o.base, u, Some(Promoted));
        case SweepOf(_) =>
      }
    case Read(h, us) =>
      forall u | u in us ensures Agrees(o.base, u) {
      }
    case SweepHead(h) =>
      var x := o.pending[h][0];
      SweepAgrees(o.base, x.user, x.operation, x.counted);
  }

  lemma {:induction false} OverlappingKeeps(o: Overlap, run: seq<Step>, o': Overlap)
    requires OverlapInv(o) && Overlapping(o, run, o')
    ensures OverlapInv(o')
    decreases |run|
  {
    hide OverlapInv;
    if run != [] {
      SteppedKeeps(o, run[0]);
      OverlappingKeeps(Stepped(o, run[0]), run[1..], o');
    }
  }

  // Nobody has been swept yet, and no deletion is in progress.
  ghost predicate Fresh(o: Overlap) {
    o.pending == map[] && o.base.ledger == [] && o.base.trace == []
    && forall u | u in o.base.barriers :: o.base.barriers[u].status == Active && o.base.barriers[u].operation < o.base.nextOp
  }

  // After every run of overlapping handlers, however old the count a handler acts on: if it closes, the
  // last two sweeps of this deletion both found nothing exactly when the ledger, counted at the close,
  // shows enough empty sweeps.
  lemma {:induction false} OverlapClosesRightly(start: Overlap, run: seq<Step>, o: Overlap, h: Handler)
    requires Fresh(start) && Overlapping(start, run, o) && MayStep(o, SweepHead(h)) && HeadSweep(o, h).1 == ClosedNow
    ensures var x := o.pending[h][0];
            Trailing(HeadSweep(o, h).0.trace, x.user, x.operation) >= REQUIRED_EMPTY_SWEEPS
            <==> EmptySweeps(o.base.ledger, x.user, x.operation) + 1 >= REQUIRED_EMPTY_SWEEPS
  {
    OverlappingKeeps(start, run, o);
    var x := o.pending[h][0];
    SweepAgrees(o.base, x.user, x.operation, x.counted);
  }

  function Blank(): (o: Overlap)
    ensures Fresh(o)
  {
    Overlap(State(map[], map[], [], 0, []), map[])
  }

  lemma {:induction false} NoStep(o: Overlap)
    ensures Overlapping(o, [], o)
  {
  }

  lemma {:induction false} ReadOne(s: State, u: User)
    requires u in s.barriers
    ensures ReadNow(s, [u]) == [Subject(u, s.barriers[u].operation, EmptySweeps(s.ledger, u, s.barriers[u].operation))]
  {
  }

  lemma {:induction false} OneStep(o: Overlap, run: seq<Step>, m: Overlap, t: Step)
    requires Overlapping(o, run, m) && MayStep(m, t)
    ensures Overlapping(o, run + [t], Stepped(m, t))
    decreases |run|
  {
    hide MayStep, Stepped;
    if run == [] {
      NoStep(Stepped(m, t));
      assert ([] + [t])[1..] == [];
    } else {
      assert (run + [t])[1..] == run[1..] + [t];
      OneStep(Stepped(o, run[0]), run[1..], m, t);
    }
  }

  // A deletion of account 1 with nothing or one vector left, and what two handlers have still to do.
  function Scene(left: map<User, nat>, ledger: seq<Event>, trace: seq<Sweep>, pending: map<Handler, seq<Subject>>): Overlap {
    Overlap(State(left, map[1 := Barrier(Deleting, 0, 1)], ledger, 1, trace), pending)
  }

  // One handler has swept and found nothing.
  lemma {:induction false} SweptOnce() returns (run: seq<Step>, o: Overlap)
    ensures Overlapping(Blank(), run, o) && o == Scene(map[1 := 0], [Event(0, 1, Empty)], [Sweep(1, 0, true)], map[1 := []])
  {
    hide Overlapping, EmptySweeps, Fresh;
    NewOperation([], [], 1, 0);
    NoStep(Blank());
    run, o := [], Blank();
    OneStep(Blank(), run, o, Other(Begin(1)));
    run, o := run + [Other(Begin(1))], Stepped(o, Other(Begin(1)));
    OneStep(Blank(), run, o, Read(1, [1]));
    ReadOne(o.base, 1);
    run, o := run + [Read(1, [1])], Stepped(o, Read(1, [1]));
    assert o == Scene(map[], [], [], map[1 := [Subject(1, 0, 0)]]);
    OneStep(Blank(), run, o, SweepHead(1));
    run, o := run + [SweepHead(1)], Stepped(o, SweepHead(1));
  }

  // A second and a third have counted that sweep, and a vector came late between their counts.
  lemma {:induction false} TwoCountsRead() returns (run: seq<Step>, o: Overlap)
    ensures Overlapping(Blank(), run, o)
    ensures o == Scene(map[1 := 1], [Event(0, 1, Empty)], [Sweep(1, 0, true)],
                       map[1 := [], 2 := [Subject(1, 0, 1)], 3 := [Subject(1, 0, 1)]])
  {
    hide Overlapping, EmptySweeps, Fresh;
    run, o := SweptOnce();
    NewOperation([], [], 1, 0);
    CountSteps([], Event(0, 1, Empty), 1, 0);
    assert [] + [Event(0, 1, Empty)] == o.base.ledger;
    OneStep(Blank(), run, o, Read(2, [1]));
    ReadOne(o.base, 1);
    run, o := run + [Read(2, [1])], Stepped(o, Read(2, [1]));
    OneStep(Blank(), run, o, Other(Arrive(1, 1)));
    run, o := run + [Other(Arrive(1, 1))], Stepped(o, Other(Arrive(1, 1)));
    OneStep(Blank(), run, o, Read(3, [1]));
    ReadOne(o.base, 1);
    run, o := run + [Read(3, [1])], Stepped(o, Read(3, [1]));
    assert o.pending == map[1 := [], 2 := [Subject(1, 0, 1)], 3 := [Subject(1, 0, 1)]];
  }

  // The other half of the condition is reached: the third handler deletes the late vector, and the
  // second then closes on its old count, after a single empty sweep.
  lemma {:induction false} OverlapClosesEarly() returns (run: seq<Step>, o: Overlap)
    ensures Overlapping(Blank(), run, o) && MayStep(o, SweepHead(2)) && HeadSweep(o, 2).1 == ClosedNow
    ensures o.pending[2][0].user == 1 && Trailing(HeadSweep(o, 2).0.trace, 1, 0) == 1
  {
    hide Overlapping, EmptySweeps;
    run, o := TwoCountsRead();
    var trace := o.base.trace;
    OneStep(Blank(), run, o, SweepHead(3));
    run, o := run + [SweepHead(3)], Stepped(o, SweepHead(3));
    TrailingSteps(trace, Sweep(1, 0, false), 1, 0);
    TrailingSteps(o.base.trace, Sweep(1, 0, true), 1, 0);
  }

  // ------------------------------------------------------------------
  // The handler
  // ------------------------------------------------------------------

  datatype Report = Report(promoted: nat, subjects: nat, vectors: nat, swept: nat, empty: nat, closed: nat, skipped: nat)

  ghost predicate Current(s: State, x: Subject) {
    x.user in s.barriers && s.barriers[x.user].status == Deleting && s.barriers[x.user].operation == x.operation
    && x.counted == EmptySweeps(s.ledger, x.user, x.operation)
  }

  // Sweeping one account leaves the others' counts alone.
  lemma {:induction false} OthersCurrent(s: State, u: User, op: Operation, counted: nat, x: Subject)
    requires Current(s, x) && x.user != u
    ensures Current(SweepOne(s, u, op, counted).0, x)
  {
    hide EmptySweeps;
    CountSteps(s.ledger, Event(op, u, Deleted), x.user, x.operation);
    CountSteps(s.ledger, Event(op, u, Empty), x.user, x.operation);
    CountSteps(s.ledger, Event(op, u, Closed), x.user, x.operation);
  }

  // The barriers of accounts that are gone were active and are now being deleted under a new
  // epoch, all but those left; no other barrier changed.
  ghost predicate Lifted(was: map<User, Barrier>, now: map<User, Barrier>, gone: set<User>, left: set<User>) {
    now.Keys == was.Keys
    && left <= was.Keys
    && forall u | u in was ::
         if u in gone && was[u].status == Active && u !in left then now[u].status == Deleting && now[u].epoch == was[u].epoch + 1
         else now[u] == was[u]
  }

  class Sweeper {
    var vectors: map<User, nat>
    var barriers: map<User, Barrier>
    var ledger: seq<Event>
    var nextOp: Operation
    ghost var trace: seq<Sweep>

    ghost function Now(): State
      reads this
    {
      State(vectors, barriers, ledger, nextOp, trace)
    }

    method SweepSubject(u: User, op: Operation, counted: nat) returns (deleted: nat, outcome: Outcome)
      modifies this
      ensures (Now(), outcome) == SweepOne(old(Now()), u, op, counted)
      ensures deleted + Stored(Now(), u) == Stored(old(Now()), u)
    {
      var found := if u in vectors then vectors[u] else 0;
      deleted := if found > DELETE_BATCH then DELETE_BATCH else found;
      vectors := vectors[u := found - deleted];
      trace := trace + [Sweep(u, op, found == 0)];
      if deleted > 0 || found - deleted > 0 {
        ledger, outcome := ledger + [Event(op, u, Deleted)], Swept;
      } else if counted + 1 < REQUIRED_EMPTY_SWEEPS {
        ledger, outcome := ledger + [Event(op, u, Empty)], FoundEmpty;
      } else if u in barriers && barriers[u].status == Deleting && barriers[u].operation == op {
        barriers := barriers[u := barriers[u].(status := Gone)];
        ledger, outcome := ledger + [Event(op, u, Closed)], ClosedNow;
      } else {
        outcome := Skipped;
      }
    }

    method PromoteOne(u: User)
      requires Valid(Now()) && u in barriers
      modifies this
      ensures Valid(Now()) && Now() == Start(old(Now()), u, Some(Promoted))
    {
      StartKeeps(Now(), u, Some(Promoted));
      ledger := ledger + [Event(nextOp, u, Promoted)];
      barriers, nextOp := barriers[u := Barrier(Deleting, nextOp, barriers[u].epoch + 1)], nextOp + 1;
    }

    // Barriers still active although the account is gone.
    method PromoteOrphans(gone: set<User>) returns (promoted: nat)
      requires Valid(Now())
      modifies this
      ensures Valid(Now()) && promoted <= MAX_SUBJECTS && vectors == old(vectors) && trace == old(trace)
      ensures exists left :: Lifted(old(barriers), barriers, gone, left) && (promoted < MAX_SUBJECTS ==> left == {})
    {
      hide Valid;
      promoted := 0;
      var orphans := set u | u in barriers && u in gone && barriers[u].status == Active;
      while orphans != {} && promoted < MAX_SUBJECTS
        invariant Valid(Now()) && promoted <= MAX_SUBJECTS && vectors == old(vectors) && trace == old(trace)
        invariant Lifted(old(barriers), barriers, gone, orphans)
        decreases orphans
      {
        var u :| u in orphans;
        PromoteOne(u);
        orphans, promoted := orphans - {u}, promoted + 1;
      }
    }

    // The deletions in progress of accounts that are gone, each with its count.
    method Subjects(gone: set<User>) returns (subjects: seq<Subject>)
      ensures |subjects| <= MAX_SUBJECTS
      ensures forall i | 0 <= i < |subjects| :: Current(Now(), subjects[i]) && subjects[i].user in gone
      ensures forall i, j | 0 <= i < j < |subjects| :: subjects[i].user != subjects[j].user
      ensures |subjects| < MAX_SUBJECTS ==>
                forall u | u in barriers && u in gone && barriers[u].status == Deleting :: exists i :: 0 <= i < |subjects| && subjects[i].user == u
    {
      subjects := [];
      var left := set u | u in barriers && u in gone && barriers[u].status == Deleting;
      while left != {} && |subjects| < MAX_SUBJECTS
        invariant |subjects| <= MAX_SUBJECTS
        invariant forall u | u in left :: u in barriers && u in gone && barriers[u].status == Deleting
        invariant forall i | 0 <= i < |subjects| :: Current(Now(), subjects[i]) && subjects[i].user in gone && subjects[i].user !in left
        invariant forall i, j | 0 <= i < j < |subjects| :: subjects[i].user != subjects[j].user
        invariant forall u | u in barriers && u in gone && barriers[u].status == Deleting && u !in left ::
                    exists i :: 0 <= i < |subjects| && subjects[i].user == u
        decreases left
      {
        var u :| u in left;
        ghost var before := subjects;
        subjects := subjects + [Subject(u, barriers[u].operation, EmptySweeps(ledger, u, barriers[u].operation))];
        left := left - {u};
        assert subjects[|before|].user == u;
        assert forall i | 0 <= i < |before| :: subjects[i] == before[i];
      }
    }

    // One run, alone: every count is still fresh when it is used, so nothing is skipped and the
    // ledger keeps agreeing with what was swept.
    method Handle(gone: set<User>) returns (r: Report)
      requires Valid(Now())
      modifies this
      ensures Valid(Now())
      ensures r.skipped == 0 && r.subjects == r.swept + r.empty + r.closed
      ensures |trace| == |old(trace)| + r.subjects
    {
      var promoted := PromoteOrphans(gone);
      var subjects := Subjects(gone);
      r := Report(promoted, |subjects|, 0, 0, 0, 0, 0);
      for i := 0 to |subjects|
        invariant Valid(Now())
        invariant r.skipped == 0 && i == r.swept + r.empty + r.closed && r.subjects == |subjects|
        invariant |trace| == |old(trace)| + i
        invariant forall k | i <= k < |subjects| :: Current(Now(), subjects[k])
      {
        var x := subjects[i];
        ghost var before := Now();
        SweepKeeps(before, x.user);
        var deleted, outcome := SweepSubject(x.user, x.operation, x.counted);
        forall k | i < k < |subjects| ensures Current(Now(), subjects[k]) {
          OthersCurrent(before, x.user, x.operation, x.counted, subjects[k]);
        }
        r := r.(vectors := r.vectors + deleted,
                swept := r.swept + (if outcome.Swept? then 1 else 0), empty := r.empty + (if outcome.FoundEmpty? then 1 else 0),
                closed := r.closed + (if outcome.ClosedNow? then 1 else 0), skipped := r.skipped + (if outcome.Skipped? then 1 else 0));
      }
    }
  }
}
