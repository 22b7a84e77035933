// Model calls of one packed summary lineage. A call is reserved in the job's payload
// before it is made, and only a committed page gives its reservation back.
module CallBudget {
  import opened Wrappers

  datatype Phase =
    | Ready
    | Claimed
    | Called(available: nat)  // reserved, the call may be under way; what was available before it
    | Ended

  // The lineage's current job row, and the calls made for it so far that committed no page.
  datatype Lineage = Lineage(attempt: nat, maxAttempts: nat, remaining: Option<nat>, phase: Phase, wasted: nat, pages: nat, calls: nat)

  function Min(a: nat, b: nat): nat { if a < b then a else b }

  // max(0, max_attempts - attempt + 1), and never more than the payload still allows.
  function Available(l: Lineage): nat {
    var physical := if l.attempt <= l.maxAttempts then l.maxAttempts - l.attempt + 1 else 0;
    if l.remaining.Some? then Min(l.remaining.value, physical) else physical
  }

  datatype Action =
    | Claim
    | Reserve      // before_call
    | Fail         // JobRetry, or the lease of a dead worker reaped
    | Defer        // JobDeferred, before the call or inside apply
    | Page         // a continuation page commits and enqueues the next job
    | Shorten      // packed output too long: cap one, through a fallback job
    | Stop         // finished, cancelled, stale or fatal

  predicate Enabled(l: Lineage, a: Action) {
    match a
    case Claim => l.phase.Ready? && l.attempt < l.maxAttempts
    case Reserve => l.phase.Claimed?
    case Fail => l.phase.Claimed? || l.phase.Called?
    case Defer => l.phase.Claimed? || l.phase.Called?
    case Page => l.phase.Called?
    case Shorten => l.phase.Called?
    case Stop => !l.phase.Ended?
  }

  function Next(l: Lineage, a: Action): Lineage
    requires Enabled(l, a)
  {
    match a
    case Claim => l.(attempt := l.attempt + 1, phase := Claimed)
    case Reserve =>
      if Available(l) == 0 then l.(phase := Ended)
      else l.(remaining := Some(Available(l) - 1), phase := Called(Available(l)), wasted := l.wasted + 1, calls := l.calls + 1)
    case Fail => l.(phase := if l.attempt < l.maxAttempts then Ready else Ended)
    case Defer => l.(maxAttempts := l.maxAttempts + 1, phase := Ready)
    case Page => Lineage(0, l.phase.available, Some(l.phase.available), Ready, l.wasted - (if l.wasted > 0 then 1 else 0), l.pages + 1, l.calls)
    case Shorten =>
      if l.remaining.None? || l.remaining.value == 0 then l.(phase := Ended)
      else l.(attempt := 0, maxAttempts := l.remaining.value, phase := Ready)
    case Stop => l.(phase := Ended)
  }

  function First(maxAttempts: nat): Lineage {
    Lineage(0, maxAttempts, None, Ready, 0, 0, 0)
  }

  // ------------------------------------------------------------------
  // The budget
  // ------------------------------------------------------------------

  // Calls the lineage may still reserve.
  function Left(l: Lineage): nat {
    match l.phase
    case Ended => 0
    case Claimed => Available(l)
    case _ =>
      var physical := if l.attempt <= l.maxAttempts then l.maxAttempts - l.attempt else 0;
      if l.remaining.Some? then Min(l.remaining.value, physical) else physical
  }

  predicate Within(l: Lineage, budget: nat) {
    l.wasted + Left(l) <= budget && l.attempt <= l.maxAttempts && l.calls == l.wasted + l.pages
    && (l.phase.Claimed? ==> l.attempt > 0)
    && (l.phase.Called? ==> l.attempt > 0 && l.wasted > 0 && 0 < l.phase.available <= budget - (l.wasted - 1)
                            && l.remaining == Some(l.phase.available - 1) && l.phase.available <= l.maxAttempts - l.attempt + 1)
  }

  lemma {:induction false} StepWithin(l: Lineage, a: Action, budget: nat)
    requires Within(l, budget) && Enabled(l, a)
    ensures Within(Next(l, a), budget)
  {
  }

  function Run(l: Lineage, run: seq<Action>): Lineage
    decreases |run|
  {
    if run == [] then l else if Enabled(l, run[0]) then Run(Next(l, run[0]), run[1..]) else Run(l, run[1..])
  }

  lemma {:induction false} RunWithin(l: Lineage, run: seq<Action>, budget: nat)
    requires Within(l, budget)
    ensures Within(Run(l, run), budget)
    decreases |run|
  {
    if run != [] {
      if Enabled(l, run[0]) {
        StepWithin(l, run[0], budget);
        RunWithin(Next(l, run[0]), run[1..], budget);
      } else {
        RunWithin(l, run[1..], budget);
      }
    }
  }

  // Over every run of claims, crashes, retries, deferrals, pages and fallbacks, the calls that
  // brought no page stay within the attempts of the first job.
  lemma {:induction false} WastedCallsBounded(maxAttempts: nat, run: seq<Action>)
    ensures var l := Run(First(maxAttempts), run); l.wasted <= maxAttempts && l.calls <= l.pages + maxAttempts
  {
    RunWithin(First(maxAttempts), run, maxAttempts);
  }

  // The bound is tight: a model that always fails is called exactly that often.
  function Failing(n: nat): seq<Action> {
    if n == 0 then [] else [Claim, Reserve, Fail] + Failing(n - 1)
  }

  lemma {:induction false} FailingRun(l: Lineage, n: nat)
    requires l.phase.Ready? && l.attempt + n == l.maxAttempts && n > 0 && (l.remaining.Some? ==> l.remaining.value == n)
    ensures var e := Run(l, Failing(n)); e.calls == l.calls + n && e.wasted == l.wasted + n && e.phase.Ended?
    decreases n
  {
    var run := Failing(n);
    var a := Next(l, Claim);
    var b := Next(a, Reserve);
    var c := Next(b, Fail);
    assert run[0] == Claim && run[1..][0] == Reserve && run[1..][1..][0] == Fail && run[1..][1..][1..] == Failing(n - 1);
    assert Run(l, run) == Run(a, run[1..]) == Run(b, run[1..][1..]) == Run(c, Failing(n - 1));
    if n > 1 {
      FailingRun(c, n - 1);
    }
  }

  lemma {:induction false} WastedCallsReached(maxAttempts: nat)
    requires maxAttempts > 0
    ensures var l := Run(First(maxAttempts), Failing(maxAttempts)); l.wasted == maxAttempts && l.calls == maxAttempts && l.phase.Ended?
  {
    FailingRun(First(maxAttempts), maxAttempts);
  }

  // The fallback goes on with the reservations that are left, and a deferral takes none away.
  lemma {:induction false} FallbackGoesOn(l: Lineage, budget: nat)
    requires Within(l, budget) && l.phase.Called?
    ensures var short, later := Next(l, Shorten), Next(l, Defer);
            (if l.phase.available > 1 then Enabled(short, Claim) && Left(short) == l.phase.available - 1 else short.phase.Ended?)
            && Enabled(later, Claim) && Left(later) == l.phase.available - 1
  {
  }

  // A call that brings its page costs nothing: what could be reserved before it can be reserved after.
  lemma {:induction false} PageRestores(l: Lineage)
    requires Enabled(l, Reserve) && Available(l) > 0
    ensures var called := Next(l, Reserve);
            Enabled(called, Page)
            && var next := Next(called, Page);
               next.phase.Ready? && Left(next) == Left(l) && next.calls == l.calls + 1 && next.pages == l.pages + 1 && next.wasted == l.wasted
               && (Enabled(next, Claim) && Available(Next(next, Claim)) == Available(l))
  {
  }

  function Paging(n: nat): seq<Action> {
    if n == 0 then [] else [Claim, Reserve, Page] + Paging(n - 1)
  }

  lemma {:induction false} PagingRun(l: Lineage, n: nat)
    requires l.phase.Ready? && Left(l) > 0
    ensures var e := Run(l, Paging(n));
            e.pages == l.pages + n && e.calls == l.calls + n && e.wasted == l.wasted && Left(e) == Left(l) && e.phase.Ready?
    decreases n
  {
    if n > 0 {
      var run := Paging(n);
      var a := Next(l, Claim);
      var b := Next(a, Reserve);
      var c := Next(b, Page);
      assert Left(a) == Left(l);
      PageRestores(a);
      assert run[0] == Claim && run[1..][0] == Reserve && run[1..][1..][0] == Page && run[1..][1..][1..] == Paging(n - 1);
      assert Run(l, run) == Run(a, run[1..]) == Run(b, run[1..][1..]) == Run(c, Paging(n - 1));
      PagingRun(c, n - 1);
    }
  }

  // So a summary of any number of pages goes through, however few attempts its jobs have, when every call
  // brings its page.
  lemma {:induction false} PagesGoOn(maxAttempts: nat, n: nat)
    requires maxAttempts > 0
    ensures var l := Run(First(maxAttempts), Paging(n)); l.pages == n && l.calls == n && l.wasted == 0 && Left(l) == maxAttempts
  {
    PagingRun(First(maxAttempts), n);
  }

  // ------------------------------------------------------------------
  // The handler's own variables
  // ------------------------------------------------------------------

  datatype Refusal = MultipleCalls | AttemptsExhausted | NoCall

  // One execution: the claimed row's counters and the two variables before_call assigns.
  class Execution {
    const attempt: nat
    const maxAttempts: nat
    var remaining: Option<nat>   // control_payload's model_attempts_remaining, as stored
    var available: Option<nat>   // available_before_call
    var chunkCap: Option<nat>

    constructor (attempt: nat, maxAttempts: nat, remaining: Option<nat>)
      ensures this.attempt == attempt && this.maxAttempts == maxAttempts && this.remaining == remaining
      ensures available.None? && chunkCap.None?
    {
      this.attempt, this.maxAttempts, this.remaining := attempt, maxAttempts, remaining;
      available, chunkCap := None, None;
    }

    // The lineage this execution is a step of.
    ghost function At(wasted: nat, pages: nat, calls: nat): Lineage
      reads this
    {
      Lineage(attempt, maxAttempts, remaining, if available.Some? then Called(available.value) else Claimed, wasted, pages, calls)
    }

    // At most one call is ever reserved, and reserving is the Reserve step.
    method BeforeCall() returns (r: Result<nat, Refusal>)
      modifies this
      ensures chunkCap == old(chunkCap)
      ensures old(available).Some? ==> r == Err(MultipleCalls) && remaining == old(remaining) && available == old(available)
      ensures old(available).None? && Available(old(At(0, 0, 0))) == 0 ==>
                r == Err(AttemptsExhausted) && remaining == old(remaining) && available.None?
      ensures old(available).None? && Available(old(At(0, 0, 0))) > 0 ==>
                r == Ok(Available(old(At(0, 0, 0))))
                && forall w: nat, p: nat, c: nat :: At(w + 1, p, c + 1) == Next(old(At(w, p, c)), Reserve)
    {
      if available.Some? {
        return Err(MultipleCalls);
      }
      var physical: nat := if maxAttempts + 1 > attempt then maxAttempts - attempt + 1 else 0;
      var before := Min(if remaining.Some? then remaining.value else physical, physical);
      if before == 0 {
        return Err(AttemptsExhausted);
      }
      remaining, available := Some(before - 1), Some(before);
      r := Ok(before);
    }

    // ExpandedProgressLength: keep the reservation, and go on with single chunks in a job of the attempts left.
    method Shrink() returns (r: Result<nat, Refusal>)
      modifies this
      ensures remaining == old(remaining) && available == old(available)
      ensures old(available).None? ==> r == Err(NoCall) && chunkCap == old(chunkCap)
      ensures old(available).Some? ==> chunkCap == Some(1)
      ensures old(available).Some? && remaining.Some? ==>
                forall w: nat, p: nat, c: nat :: var next := Next(old(At(w, p, c)), Shorten);
                  if r.Ok? then next.phase.Ready? && next.maxAttempts == r.value && next.remaining == Some(r.value) else next.phase.Ended?
    {
      if available.None? {
        return Err(NoCall);
      }
      chunkCap := Some(1);
      if remaining.None? || remaining.value == 0 {
        return Err(AttemptsExhausted);
      }
      r := Ok(remaining.value);
    }

    // A page commits: the next job gets back what was available before the call.
    method NextPage() returns (r: Result<(nat, nat), Refusal>)
      ensures available.None? ==> r == Err(NoCall)
      ensures available.Some? ==>
                r == Ok((available.value, available.value)) && forall w: nat, p: nat, c: nat | w > 0 :: var next := Next(At(w, p, c), Page);
                           next.maxAttempts == r.value.0 && next.remaining == Some(r.value.1) && next.attempt == 0 && next.wasted == w - 1
    {
      if available.None? {
        return Err(NoCall);
      }
      r := Ok((available.value, available.value));
    }
  }
}
