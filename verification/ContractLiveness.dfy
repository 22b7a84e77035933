// One lineage of compile jobs against a model that may answer anything. Calls return,
// nothing else writes and the validated document renders. Room for one character is
// enough until the output fallback; from then on each small message must fit whole.
module ContractLiveness {
  import opened Wrappers
  import opened Utf8
  import opened BatchPlanner
  import ContractChain

  // How an answer fails; merging may also fail without a call.
  datatype Answer = Length | Incomplete | Schema | Evidence | Merge | Good

  // What one execution meets: the input budget under the current document, what the planner makes
  // of it, whether the user speaks in the batch, and the answer.
  datatype Input = Input(fits: Fits, plan: Result<Batch, Rejection>, userSpeaks: bool, answer: Answer)

  datatype Key = At(index: nat, offset: nat) | Smaller(index: nat, offset: nat)

  datatype Status = Working | Arrived | Dead | Fatal | Lost

  // The lineage's current job. `remaining` is adaptive_output_attempts_remaining, once in fallback mode.
  datatype Lineage = Lineage(index: nat, offset: nat, remaining: Option<nat>, attempt: nat, maxAttempts: nat,
                             keys: set<Key>, status: Status)

  const RETRIES: nat := 3

  function Window(messages: seq<Source>, index: nat): seq<Source>
    requires index <= |messages|
  {
    if |messages| - index <= ContractChain.MAX_SOURCE then messages[index..] else messages[index..index + ContractChain.MAX_SOURCE]
  }

  // ------------------------------------------------------------------
  // One execution of the handler
  // ------------------------------------------------------------------

  // INSERT .. ON CONFLICT DO NOTHING: a key used before ends the lineage silently.
  function Hand(l: Lineage, key: Key, next: Lineage): Lineage {
    if key in l.keys then l.(status := Lost) else next.(keys := l.keys + {key})
  }

  // The job commits its batch and enqueues the rest.
  function Advance(messages: seq<Source>, l: Lineage, b: Batch): Lineage {
    var index, offset := l.index + b.nextIndex, b.nextOffset;
    if offset == 0 && index >= |messages| then l.(index := |messages|, offset := 0, status := Arrived)
    else Hand(l, At(index, offset),
              Lineage(index, offset, l.remaining, 0, if l.remaining.Some? then l.remaining.value else RETRIES, l.keys, Working))
  }

  function Retry(l: Lineage): Lineage {
    if l.attempt >= l.maxAttempts then l.(status := Dead) else l
  }

  function Execute(messages: seq<Source>, was: Lineage, x: Input): Lineage {
    var l := was.(attempt := was.attempt + 1);
    if l.remaining == Some(0) then l.(status := Fatal)
    else if x.plan.Err? then Retry(l) // contract_background_budget, before any call is reserved
    else
      var last := l.attempt >= l.maxAttempts || (l.remaining.Some? && l.remaining.value <= 1);
      // the reservation a failed call leaves behind
      var spent := if l.remaining.Some? && x.userSpeaks then l.(remaining := Some(l.remaining.value - 1)) else l;
      if x.userSpeaks && x.answer.Length? && l.remaining.None? && ByteCount(x.plan.value.slices) > SEGMENT && l.attempt < l.maxAttempts then
        var left := l.maxAttempts - l.attempt;
        Hand(l, Smaller(l.index, l.offset), Lineage(l.index, l.offset, Some(left), 0, left, l.keys, Working))
      else if (if x.userSpeaks then x.answer != Good else x.answer == Merge) && !last then Retry(spent)
      else Advance(messages, l, x.plan.value)
  }

  // The plan is what the planner of the current mode answers (BatchPlanner.PlanBatch, PlanSegments).
  ghost predicate PlanGiven(messages: seq<Source>, l: Lineage, x: Input) {
    l.index < |messages|
    && if l.remaining.None? then PlanOf(Window(messages, l.index), 0, l.offset, x.fits, x.plan)
       else SegmentPlanOf(Window(messages, l.index), 0, l.offset, x.fits, x.plan)
  }

  // Room for the fallback planner at every cursor it may meet.
  ghost predicate SegmentRoomy(fits: Fits) {
    forall m: Source, offset: nat | Cut(m.text, offset) :: !NoSegmentRoom(m, offset, fits)
  }

  // The room the current mode needs.
  ghost predicate HasRoom(l: Lineage, x: Input) {
    if l.remaining.None? then Roomy(x.fits) else SegmentRoomy(x.fits)
  }

  // ------------------------------------------------------------------
  // Progress
  // ------------------------------------------------------------------

  predicate Before(i: nat, o: nat, i': nat, o': nat) {
    i < i' || (i == i' && o < o')
  }

  ghost predicate Healthy(messages: seq<Source>, l: Lineage) {
    Resumable(messages, l.index, l.offset) && l.index < |messages| && l.status.Working?
    && l.attempt < l.maxAttempts
    && (l.remaining.Some? ==> l.remaining.value >= l.maxAttempts - l.attempt)
    && (forall k: Key | k in l.keys && k.At? :: !Before(l.index, l.offset, k.index, k.offset))
    && (l.remaining.None? ==> forall k: Key | k in l.keys :: k.At?)
  }

  // The most attempts a job of the lineage ever gets.
  predicate Capped(l: Lineage, cap: nat) {
    l.maxAttempts <= cap && RETRIES <= cap && (l.remaining.Some? ==> l.remaining.value <= cap)
  }

  // Messages and bytes unread first, then the unused fallback, then attempts.
  ghost function Left(messages: seq<Source>, l: Lineage): nat
    requires BatchPlanner.At(messages, l.index, l.offset)
  {
    |messages| - l.index + |Unread(messages, l.index, l.offset)|
  }

  ghost function Measure(messages: seq<Source>, l: Lineage, cap: nat): nat
    requires BatchPlanner.At(messages, l.index, l.offset)
  {
    Left(messages, l) * (2 * cap + 2) + (if l.remaining.None? then cap + 1 else 0)
    + if l.attempt < l.maxAttempts then l.maxAttempts - l.attempt else 0
  }

  lemma {:induction false} UnreadFrom(messages: seq<Source>, a: nat, b: nat, i: nat, o: nat)
    requires a <= a + i <= b <= |messages| && BatchPlanner.At(messages[a..b], i, o)
    ensures a + i < b || o == 0 ==> BatchPlanner.At(messages, a + i, if a + i < b then o else 0)
    ensures BatchPlanner.At(messages, a + i, o)
            && Unread(messages, a + i, o) == Unread(messages[a..b], i, o) + Unread(messages, b, 0)
    decreases b - a - i
  {
    hide Encode, Placed;
    if a + i < b {
      assert messages[a..b][i] == messages[a + i];
      UnreadFrom(messages, a, b, i + 1, 0);
    }
  }

  // A batch of the window moves the lineage forward in the whole history.
  lemma {:induction false} WindowTiles(messages: seq<Source>, index: nat, offset: nat, b: Batch)
    requires index < |messages| && Tiles(Window(messages, index), 0, offset, b)
    ensures index + b.nextIndex <= |messages| && Resumable(messages, index + b.nextIndex, b.nextOffset)
    ensures Before(index, offset, index + b.nextIndex, b.nextOffset)
    ensures BatchPlanner.At(messages, index, offset)
    ensures |messages| - (index + b.nextIndex) + |Unread(messages, index + b.nextIndex, b.nextOffset)|
            < |messages| - index + |Unread(messages, index, offset)|
  {
    hide Covered, Unread, Encode, Boundary;
    var w := Window(messages, index);
    var end := index + |w|;
    assert w == messages[index..end];
    Shrinks(w, 0, offset, b);
    UnreadFrom(messages, index, end, 0, offset);
    UnreadFrom(messages, index, end, b.nextIndex, b.nextOffset);
    if b.nextIndex < |w| {
      assert w[b.nextIndex] == messages[index + b.nextIndex];
    }
  }

  // With room the planner of either mode has a batch.
  lemma {:induction false} RoomPlans(messages: seq<Source>, l: Lineage, x: Input)
    requires Healthy(messages, l) && PlanGiven(messages, l, x) && HasRoom(l, x)
    ensures x.plan.Ok? && Tiles(Window(messages, l.index), 0, l.offset, x.plan.value)
  {
    hide Encode, Boundary, Tiles, Roomy, NoRoom, NoSegmentRoom, Full, Monotone;
    var m := Window(messages, l.index)[0];
    assert m == messages[l.index];
    CutAt(messages, l.index, l.offset);
    if l.remaining.None? {
      RoomEverywhere(m, l.offset, x.fits);
    }
  }

  lemma {:induction false} CutAt(messages: seq<Source>, index: nat, offset: nat)
    requires Resumable(messages, index, offset) && index < |messages|
    ensures Cut(messages[index].text, offset) && offset <= |Encode(messages[index].text)|
  {
    FromStart(messages[index].text);
  }

  // One execution: the lineage arrives, or is still healthy and strictly closer.
  lemma {:induction false} ExecutionProgresses(messages: seq<Source>, l: Lineage, x: Input, cap: nat)
    requires Healthy(messages, l) && Capped(l, cap) && PlanGiven(messages, l, x) && HasRoom(l, x)
    ensures var next := Execute(messages, l, x);
            next.status.Arrived? || (Healthy(messages, next) && Capped(next, cap)
                                     && Measure(messages, next, cap) < Measure(messages, l, cap))
  {
    hide Unread, Covered, Boundary, Tiles, Encode, PlanGiven, HasRoom;
    RoomPlans(messages, l, x);
    WindowTiles(messages, l.index, l.offset, x.plan.value);
    var next := Execute(messages, l, x);
    if !next.status.Arrived? {
      if next.index == l.index && next.offset == l.offset {
        assert Left(messages, next) == Left(messages, l);
      } else {
        assert Left(messages, next) < Left(messages, l);
        Dominates(Left(messages, next), Left(messages, l), 2 * cap + 2);
      }
    }
  }

  // The model answered, or merged, nothing that can be published.
  predicate Fails(x: Input) {
    if x.userSpeaks then x.answer != Good else x.answer == Merge
  }

  // Output that was cut off is tried with smaller inputs, while another attempt is left.
  predicate CutOff(l: Lineage, x: Input)
    requires x.plan.Ok?
  {
    x.userSpeaks && x.answer.Length? && l.remaining.None? && ByteCount(x.plan.value.slices) > SEGMENT && l.attempt + 1 < l.maxAttempts
  }

  // Nothing is left behind this execution: no attempt, or in fallback mode no call.
  predicate LastAttempt(l: Lineage) {
    l.attempt + 1 >= l.maxAttempts || (l.remaining.Some? && l.remaining.value <= 1)
  }

  // A failed answer is waited out until the last attempt: before it the job tries the same cursor again, with
  // an attempt less; the last one gives up the answer and goes on, as a good answer does at once. Output cut
  // off leads to the fallback, at the same cursor, with as many attempts as are left.
  lemma {:induction false} FailuresWait(messages: seq<Source>, l: Lineage, x: Input)
    requires Healthy(messages, l) && PlanGiven(messages, l, x) && x.plan.Ok?
    ensures var next := Execute(messages, l, x);
            (next.index == l.index && next.offset == l.offset <==> CutOff(l, x) || (Fails(x) && !LastAttempt(l)))
            && (Fails(x) && !CutOff(l, x) && !LastAttempt(l) ==>
                  next.status.Working? && next.attempt == l.attempt + 1 && next.maxAttempts == l.maxAttempts && next.keys == l.keys
                  && (next.remaining.Some? <==> l.remaining.Some?))
            && (CutOff(l, x) ==>
                  next.status.Working? && next.attempt == 0 && next.maxAttempts == l.maxAttempts - l.attempt - 1
                  && next.remaining == Some(next.maxAttempts))
            && (!CutOff(l, x) && (Fails(x) ==> LastAttempt(l)) ==>
                  next.status.Arrived? || (next.status.Working? && Before(l.index, l.offset, next.index, next.offset)))
  {
    hide Encode, Boundary, Tiles, Full, NoRoom, Monotone, ByteCount, Covered, Unread, SegmentFull, NoSegmentRoom, Resumable;
    PlanTiled(messages, l, x);
    WindowTiles(messages, l.index, l.offset, x.plan.value);
  }

  lemma {:induction false} PlanTiled(messages: seq<Source>, l: Lineage, x: Input)
    requires PlanGiven(messages, l, x) && x.plan.Ok?
    ensures Tiles(Window(messages, l.index), 0, l.offset, x.plan.value)
  {
  }

  lemma {:induction false} Dominates(a: nat, b: nat, n: nat)
    requires a < b
    ensures a * n + n <= b * n
  {
    assert (a + 1) * n <= b * n;
  }

  // ------------------------------------------------------------------
  // Whole lineages
  // ------------------------------------------------------------------

  ghost function Run(messages: seq<Source>, l: Lineage, xs: seq<Input>): Lineage
    decreases |xs|
  {
    if xs == [] || !l.status.Working? then l else Run(messages, Execute(messages, l, xs[0]), xs[1..])
  }

  ghost predicate AllGiven(messages: seq<Source>, l: Lineage, xs: seq<Input>)
    decreases |xs|
  {
    xs == [] || !l.status.Working? || (PlanGiven(messages, l, xs[0]) && AllGiven(messages, Execute(messages, l, xs[0]), xs[1..]))
  }

  // Whatever the model answers, a lineage with room in either mode neither dies nor is lost, and
  // within a number of executions fixed in advance it has reached its target.
  lemma {:induction false} LineageArrives(messages: seq<Source>, l: Lineage, xs: seq<Input>, cap: nat)
    requires Healthy(messages, l) && Capped(l, cap) && AllGiven(messages, l, xs)
    requires forall x | x in xs :: SegmentRoomy(x.fits) && (l.remaining.None? ==> Roomy(x.fits))
    ensures Run(messages, l, xs).status.Arrived? || (Run(messages, l, xs).status.Working? && |xs| < Measure(messages, l, cap))
    decreases |xs|
  {
    hide Healthy, Capped, PlanGiven, Measure, SegmentRoomy, Roomy;
    HealthyWorks(messages, l);
    if xs != [] {
      assert xs[0] in xs;
      ExecutionProgresses(messages, l, xs[0], cap);
      var next := Execute(messages, l, xs[0]);
      if !next.status.Arrived? {
        assert forall x | x in xs[1..] :: x in xs;
        LineageArrives(messages, next, xs[1..], cap);
      }
    } else {
      MeasurePositive(messages, l, cap);
    }
  }

  // No call's input holds more source bytes than a segment.
  ghost predicate Tight(fits: Fits) {
    forall slices | fits(slices) :: ByteCount(slices) <= SEGMENT
  }

  // Under such budgets the fallback is never entered, and room for one character is enough.
  lemma {:induction false} TightArrives(messages: seq<Source>, l: Lineage, xs: seq<Input>, cap: nat)
    requires Healthy(messages, l) && l.remaining.None? && Capped(l, cap) && AllGiven(messages, l, xs)
    requires forall x | x in xs :: Roomy(x.fits) && Tight(x.fits)
    ensures Run(messages, l, xs).status.Arrived? || (Run(messages, l, xs).status.Working? && |xs| < Measure(messages, l, cap))
    decreases |xs|
  {
    hide Healthy, Capped, Measure, Roomy;
    HealthyWorks(messages, l);
    if xs != [] {
      assert xs[0] in xs;
      ExecutionProgresses(messages, l, xs[0], cap);
      hide PlanOf;
      StaysNormal(messages, l, xs[0]);
      var next := Execute(messages, l, xs[0]);
      if !next.status.Arrived? {
        assert forall x | x in xs[1..] :: x in xs;
        TightArrives(messages, next, xs[1..], cap);
      }
    } else {
      MeasurePositive(messages, l, cap);
    }
  }

  lemma {:induction false} StaysNormal(messages: seq<Source>, l: Lineage, x: Input)
    requires PlanGiven(messages, l, x) && Healthy(messages, l) && l.remaining.None? && Tight(x.fits)
    ensures Execute(messages, l, x).remaining.None?
  {
    hide Encode, Boundary, Tiles, Full, NoRoom, Monotone, ByteCount, Covered, Unread;
  }

  lemma {:induction false} HealthyWorks(messages: seq<Source>, l: Lineage)
    requires Healthy(messages, l)
    ensures l.status.Working? && BatchPlanner.At(messages, l.index, l.offset)
  {
  }

  lemma {:induction false} MeasurePositive(messages: seq<Source>, l: Lineage, cap: nat)
    requires Healthy(messages, l)
    ensures Measure(messages, l, cap) > 0
  {
  }

  // A fresh lineage starts healthy.
  lemma {:induction false} FreshHealthy(messages: seq<Source>, maxAttempts: nat)
    requires messages != [] && maxAttempts > 0
    ensures Healthy(messages, Lineage(0, 0, None, 0, maxAttempts, {At(0, 0)}, Working))
  {
  }

  // ------------------------------------------------------------------
  // When the fallback arrives
  // ------------------------------------------------------------------

  ghost predicate Under(xs: seq<Input>, fits: Fits) {
    forall x | x in xs :: x.fits == fits
  }

  // Under this budget no lineage in fallback mode ever dies, whatever the history and the answers.
  ghost predicate FallbackSafe(fits: Fits) {
    forall messages, l, xs ::
      Healthy(messages, l) && l.remaining.Some? && AllGiven(messages, l, xs) && Under(xs, fits)
      ==> Run(messages, l, xs).status.Arrived? || Run(messages, l, xs).status.Working?
  }

  // A refused cursor: the job ends in its last attempt.
  lemma {:induction false} RefusedDies(m: Source, offset: nat, fits: Fits)
    requires Cut(m.text, offset) && NoSegmentRoom(m, offset, fits)
    ensures var l := Lineage(0, offset, Some(1), 0, 1, {}, Working); var x := Input(fits, Err(OverBudget), true, Good);
            Healthy([m], l) && AllGiven([m], l, [x]) && Run([m], l, [x]).status.Dead?
  {
    hide Encode, NoSegmentRoom;
    var l, x := Lineage(0, offset, Some(1), 0, 1, {}, Working), Input(fits, Err(OverBudget), true, Good);
    assert Window([m], 0) == [m];
    assert PlanGiven([m], l, x);
    assert AllGiven([m], Execute([m], l, x), [x][1..]);
    assert Run([m], Execute([m], l, x), [x][1..]) == Execute([m], l, x);
  }

  // The fallback is safe exactly when every message of at most SEGMENT bytes fits whole and some segment
  // of every longer one, or of what is left of a split one, fits.
  lemma {:induction false} FallbackArrivesIff(fits: Fits)
    ensures FallbackSafe(fits) <==> SegmentRoomy(fits)
  {
    hide Healthy, AllGiven, Run, NoSegmentRoom, Cut;
    if SegmentRoomy(fits) {
      forall messages, l, xs | Healthy(messages, l) && l.remaining.Some? && AllGiven(messages, l, xs) && Under(xs, fits)
        ensures Run(messages, l, xs).status.Arrived? || Run(messages, l, xs).status.Working?
      {
        var cap := l.maxAttempts + RETRIES + l.remaining.value;
        LineageArrives(messages, l, xs, cap);
      }
    } else {
      var m: Source, offset: nat :| Cut(m.text, offset) && NoSegmentRoom(m, offset, fits);
      RefusedDies(m, offset, fits);
      var l, x := Lineage(0, offset, Some(1), 0, 1, {}, Working), Input(fits, Err(OverBudget), true, Good);
      assert Healthy([m], l) && AllGiven([m], l, [x]) && Run([m], l, [x]).status.Dead?;
      assert Under([x], fits);
    }
  }

  // If larger inputs never fit better, that is: small messages fit whole, and of a text to be split the
  // first segment of four bytes fits.
  lemma {:induction false} SegmentRoomyIs(fits: Fits)
    requires Monotone(fits)
    ensures SegmentRoomy(fits) <==>
              (forall m: Source | |Encode(m.text)| <= SEGMENT :: fits([Whole(m)]))
              && forall m: Source, offset: nat, rest: Text
                   | Cut(m.text, offset) && (offset > 0 || |Encode(m.text)| > SEGMENT) && Decode(Encode(m.text)[offset..]) == Some(rest) ::
                   fits([Part(m, offset, rest[..Segment(rest, 4)])])
  {
    hide Encode, Decode, Segment, Boundary, NoSegmentFits, Monotone;
    if SegmentRoomy(fits) {
      forall m: Source | |Encode(m.text)| <= SEGMENT ensures fits([Whole(m)]) {
        FromStart(m.text);
        assert !NoSegmentRoom(m, 0, fits);
      }
      forall m: Source, offset: nat, rest: Text
        | Cut(m.text, offset) && (offset > 0 || |Encode(m.text)| > SEGMENT) && Decode(Encode(m.text)[offset..]) == Some(rest)
        ensures fits([Part(m, offset, rest[..Segment(rest, 4)])])
      {
        assert !NoSegmentRoom(m, offset, fits);
        SmallestSegmentDecides(m, offset, rest, fits);
      }
    }
    forall m: Source, offset: nat | Cut(m.text, offset) && NoSegmentRoom(m, offset, fits)
      ensures !((forall m: Source | |Encode(m.text)| <= SEGMENT :: fits([Whole(m)]))
                && forall m: Source, offset: nat, rest: Text
                     | Cut(m.text, offset) && (offset > 0 || |Encode(m.text)| > SEGMENT) && Decode(Encode(m.text)[offset..]) == Some(rest) ::
                     fits([Part(m, offset, rest[..Segment(rest, 4)])]))
    {
      if offset > 0 || |Encode(m.text)| > SEGMENT {
        CutInside(m.text, offset);
        SuffixDecodes(m.text, offset);
        var rest := Decode(Encode(m.text)[offset..]).value;
        SmallestSegmentDecides(m, offset, rest, fits);
        assert !fits([Part(m, offset, rest[..Segment(rest, 4)])]);
      } else {
        assert !fits([Whole(m)]);
      }
    }
  }

  lemma {:induction false} CutInside(t: Text, offset: nat)
    requires Cut(t, offset)
    ensures offset <= |Encode(t)|
  {
  }
}
