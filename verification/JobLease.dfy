// One row of async_jobs under any number of consumers, heartbeats and reapers. Every
// action is one statement or one commit; confirming a success is three of them: the
// fenced update, the domain effects in the same transaction, and the commit.
module JobLease {
  import opened Wrappers

  datatype Status = Ready | Running | Succeeded | Dead | Cancelled

  datatype Lease = Lease(owner: nat, token: nat, until: nat)

  // chunk: what the handler froze into the payload; None before, and again once it is redacted.
  datatype Row = Row(status: Status, attempt: nat, maxAttempts: nat, lease: Option<Lease>, chunk: Option<nat>)

  // What a consumer holds after a claim, and where it stands. Confirming keeps the row as it
  // was before its uncommitted update; effects counts the domain writes made so far.
  datatype Stage = Handling | Confirming(before: Row, effects: nat) | Deferring | Gone

  datatype Holder = Holder(owner: nat, stage: Stage)

  // domain: the tokens whose effects are committed, in commit order. locked: the token whose
  // transaction holds the row lock.
  datatype State = State(row: Row, now: nat, nextToken: nat, holders: map<nat, Holder>, locked: Option<nat>,
                         domain: seq<nat>, blocked: bool)

  // Fixed facts of the row.
  datatype Job = Job(expires: Option<nat>, deferrable: bool)

  predicate Expired(j: Job, now: nat) {
    j.expires.Some? && j.expires.value <= now
  }

  // id, running, owner and token; the lease may have run out.
  predicate Fence(s: State, t: nat) {
    t in s.holders && s.row.status == Running && s.row.lease.Some?
    && s.row.lease.value.owner == s.holders[t].owner && s.row.lease.value.token == t
  }

  datatype Action =
    | Tick(time: nat)
    | Barrier(blocked: bool)                       // the subject's privacy barrier closes or opens
    | Claim(owner: nat, lease: nat)
    | Heartbeat(t: nat, lease: nat)
    | Success(t: nat)                              // the fenced UPDATE of finalize_success
    | Effect(t: nat)                               // apply_domain writes
    | Commit(t: nat)
    | Postpone(t: nat)                             // apply_domain raises JobDeferred: rollback
    | Abandon(t: nat)                              // any other failure, or the process dies
    | Defer(t: nat)
    | Retry(t: nat)
    | Terminal(t: nat, status: Status)
    | Freeze(t: nat, chunk: nat)                   // freeze_job_payload, by id alone
    | Reap
    | Redact                                       // the payload of a finished row expires

  predicate Finished(row: Row) {
    row.status == Succeeded || row.status == Dead || row.status == Cancelled
  }

  predicate Enabled(j: Job, s: State, a: Action) {
    match a
    case Tick(time) => s.now <= time
    case Barrier(_) => true
    case Claim(_, _) => s.locked.None? && s.row.status == Ready && s.row.attempt < s.row.maxAttempts && !Expired(j, s.now)
    case Heartbeat(t, _) => s.locked.None? && t in s.holders && s.holders[t].stage.Handling?
    case Success(t) => s.locked.None? && t in s.holders && s.holders[t].stage.Handling?
    case Effect(t) => t in s.holders && s.holders[t].stage.Confirming?
    case Commit(t) => t in s.holders && s.holders[t].stage.Confirming?
    case Postpone(t) => t in s.holders && s.holders[t].stage.Confirming?
    case Abandon(t) => t in s.holders
    case Defer(t) => s.locked.None? && t in s.holders && (s.holders[t].stage.Handling? || s.holders[t].stage.Deferring?)
    case Retry(t) => s.locked.None? && t in s.holders && s.holders[t].stage.Handling?
    case Terminal(t, status) => s.locked.None? && t in s.holders && s.holders[t].stage.Handling? && (status == Dead || status == Cancelled)
    case Freeze(t, _) => s.locked.None? && t in s.holders && s.holders[t].stage.Handling?
    case Redact => s.locked.None? && Finished(s.row)
    case Reap => s.locked.None? && (s.row.status == Running || s.row.status == Ready)
  }

  function To(s: State, t: nat, stage: Stage): State
    requires t in s.holders
  {
    s.(holders := s.holders[t := s.holders[t].(stage := stage)])
  }

  function Reaped(j: Job, row: Row, now: nat): Row {
    var over := Expired(j, now) || row.attempt >= row.maxAttempts;
    var end := if Expired(j, now) then Cancelled else Dead;
    if row.status == Running && row.lease.Some? && row.lease.value.until < now then
      row.(status := if over then end else Ready, lease := None)
    else if row.status == Ready && over then row.(status := end)
    else row
  }

  function Next(j: Job, s: State, a: Action): State
    requires Enabled(j, s, a)
  {
    match a
    case Tick(time) => s.(now := time)
    case Barrier(blocked) => s.(blocked := blocked)
    case Claim(owner, lease) =>
      s.(row := s.row.(status := Running, attempt := s.row.attempt + 1, lease := Some(Lease(owner, s.nextToken, s.now + lease))),
         holders := s.holders[s.nextToken := Holder(owner, Handling)], nextToken := s.nextToken + 1)
    case Heartbeat(t, lease) =>
      if Fence(s, t) then s.(row := s.row.(lease := Some(s.row.lease.value.(until := s.now + lease)))) else To(s, t, Gone)
    case Success(t) =>
      if Fence(s, t) && !s.blocked
      then To(s, t, Confirming(s.row, 0)).(row := s.row.(status := Succeeded, lease := None), locked := Some(t))
      else To(s, t, Gone)
    case Effect(t) => To(s, t, s.holders[t].stage.(effects := s.holders[t].stage.effects + 1))
    case Commit(t) => To(s, t, Gone).(locked := None, domain := s.domain + [t])
    case Postpone(t) => To(s, t, Deferring).(locked := None, row := s.holders[t].stage.before)
    case Abandon(t) =>
      if s.holders[t].stage.Confirming? then To(s, t, Gone).(locked := None, row := s.holders[t].stage.before) else To(s, t, Gone)
    case Defer(t) =>
      if j.deferrable && Fence(s, t) && s.row.lease.value.until > s.now
      then To(s, t, Gone).(row := s.row.(status := Ready, maxAttempts := s.row.maxAttempts + 1, lease := None))
      else To(s, t, Gone)
    case Retry(t) =>
      if Fence(s, t) then To(s, t, Gone).(row := s.row.(status := if s.row.attempt >= s.row.maxAttempts then Dead else Ready, lease := None))
      else To(s, t, Gone)
    case Terminal(t, status) =>
      if Fence(s, t) then To(s, t, Gone).(row := s.row.(status := status, lease := None)) else To(s, t, Gone)
    case Freeze(t, chunk) => s.(row := s.row.(chunk := Some(chunk)))
    case Redact => s.(row := s.row.(chunk := None))
    case Reap => s.(row := Reaped(j, s.row, s.now))
  }

  // ------------------------------------------------------------------
  // The invariant
  // ------------------------------------------------------------------

  ghost predicate RowSound(s: State, row: Row) {
    row.attempt <= row.maxAttempts
    && (row.status == Running <==> row.lease.Some?)
    && (row.lease.Some? ==> row.lease.value.token < s.nextToken)
  }

  ghost predicate Inv(s: State) {
    RowSound(s, s.row)
    && (forall t | t in s.holders :: t < s.nextToken
          && (s.holders[t].stage.Confirming? <==> s.locked == Some(t)))
    && (s.locked.Some? ==> s.locked.value in s.holders)
    && |s.domain| <= 1
    && match s.locked
       case None => s.domain != [] <==> s.row.status == Succeeded
       case Some(t) =>
         s.domain == [] && s.row.status == Succeeded && s.holders[t].stage.Confirming?
         && var before := s.holders[t].stage.before;
            RowSound(s, before) && before.status == Running && before.lease.value.token == t
            && before.lease.value.owner == s.holders[t].owner && s.row == before.(status := Succeeded, lease := None)
  }

  lemma {:induction false} InvKept(j: Job, s: State, a: Action)
    requires Inv(s) && Enabled(j, s, a)
    ensures Inv(Next(j, s, a))
  {
  }

  function Start(maxAttempts: nat): State {
    State(Row(Ready, 0, maxAttempts, None, None), 0, 0, map[], None, [], false)
  }

  ghost predicate Runs(j: Job, s: State, run: seq<Action>, s': State)
    decreases |run|
  {
    if run == [] then s' == s else Enabled(j, s, run[0]) && Runs(j, Next(j, s, run[0]), run[1..], s')
  }

  lemma {:induction false} RunInv(j: Job, s: State, run: seq<Action>, s': State)
    requires Inv(s) && Runs(j, s, run, s')
    ensures Inv(s')
    decreases |run|
  {
    hide Enabled, Next, Inv;
    if run != [] {
      InvKept(j, s, run[0]);
      RunInv(j, Next(j, s, run[0]), run[1..], s');
    }
  }

  // ------------------------------------------------------------------
  // What it means
  // ------------------------------------------------------------------

  // Over every interleaving the domain effects of a row are committed at most once, exactly when the
  // row has succeeded, and no row gets more executions than its attempts.
  lemma {:induction false} AppliedOnce(j: Job, maxAttempts: nat, run: seq<Action>, s: State)
    requires Runs(j, Start(maxAttempts), run, s)
    ensures |s.domain| <= 1 && s.row.attempt <= s.row.maxAttempts
    ensures s.locked.None? ==> (|s.domain| == 1 <==> s.row.status == Succeeded)
  {
    hide Runs;
    RunInv(j, Start(maxAttempts), run, s);
  }

  // The actions of one consumer.
  predicate By(a: Action, t: nat) {
    match a
    case Tick(_) => false
    case Barrier(_) => false
    case Claim(_, _) => false
    case Reap => false
    case Redact => false
    case _ => a.t == t
  }

  // A consumer whose lease went to someone else, or whose row was confirmed or reaped, changes the row
  // exactly when it freezes another chunk, and then nothing but the chunk: all else is fenced.
  lemma {:induction false} StaleChangesOnlyTheChunk(j: Job, s: State, a: Action, t: nat)
    requires Inv(s) && Enabled(j, s, a) && By(a, t) && !Fence(s, t) && s.locked != Some(t)
    ensures Next(j, s, a).row == s.row.(chunk := Next(j, s, a).row.chunk)
    ensures Next(j, s, a).row != s.row <==> a.Freeze? && s.row.chunk != Some(a.chunk)
    ensures Next(j, s, a).domain == s.domain && Next(j, s, a).locked == s.locked
  {
  }

  // And once lost, a lease is lost: no later action brings the fence back.
  lemma {:induction false} LostStaysLost(j: Job, s: State, a: Action, t: nat)
    requires Inv(s) && Enabled(j, s, a) && t in s.holders && !Fence(s, t) && s.locked != Some(t)
    ensures !Fence(Next(j, s, a), t) && Next(j, s, a).locked != Some(t)
  {
  }

  // A JobDeferred raised inside apply_domain leaves no effect; the row is the running row of before, and
  // deferring it returns the same job with its failure budget intact, unless the lease has run out meanwhile.
  lemma {:induction false} PostponedLeavesNothing(j: Job, s: State, effects: nat, t: nat, time: nat)
    requires Inv(s) && Enabled(j, s, Success(t)) && Fence(s, t) && !s.blocked && s.now <= time
    ensures var confirming := To(Next(j, s, Success(t)), t, Confirming(s.row, effects));
            Enabled(j, confirming, Postpone(t))
            && var back := Next(j, confirming, Postpone(t));
               back.row == s.row && back.domain == s.domain && back.locked.None?
               && var later := Next(j, back, Tick(time));
                  Enabled(j, later, Defer(t))
                  && var deferred := Next(j, later, Defer(t));
                     deferred.domain == s.domain
                     && if j.deferrable && time < s.row.lease.value.until then
                          deferred.row == s.row.(status := Ready, maxAttempts := s.row.maxAttempts + 1, lease := None)
                        else deferred.row == s.row
  {
  }

  // A finished row keeps everything but its chunk, which a late freeze or the redaction still changes.
  lemma {:induction false} FinishedKeepsAllButTheChunk(j: Job, s: State, a: Action)
    requires Inv(s) && Enabled(j, s, a) && s.locked.None? && Finished(s.row)
    ensures Next(j, s, a).row == s.row.(chunk := Next(j, s, a).row.chunk) && Next(j, s, a).domain == s.domain
    ensures Next(j, s, a).row != s.row <==> (a.Freeze? && s.row.chunk != Some(a.chunk)) || (a.Redact? && s.row.chunk.Some?)
  {
  }

  lemma {:induction false} NoStep(j: Job, s: State)
    ensures Runs(j, s, [], s)
  {
  }

  lemma {:induction false} OneMore(j: Job, s: State, run: seq<Action>, m: State, a: Action)
    requires Runs(j, s, run, m) && Enabled(j, m, a)
    ensures Runs(j, s, run + [a], Next(j, m, a))
    decreases |run|
  {
    hide Enabled, Next;
    if run == [] {
      NoStep(j, Next(j, m, a));
      assert ([] + [a])[1..] == [];
    } else {
      assert (run + [a])[1..] == run[1..] + [a];
      OneMore(j, Next(j, s, run[0]), run[1..], m, a);
    }
  }

  // A claim, its lease run out, and what follows.
  lemma {:induction false} Late(j: Job, maxAttempts: nat) returns (run: seq<Action>, s: State)
    requires j.expires.None? && maxAttempts > 0
    ensures Runs(j, Start(maxAttempts), run, s)
    ensures s == State(Row(Running, 1, maxAttempts, Some(Lease(7, 0, 5)), None), 6, 1, map[0 := Holder(7, Handling)], None, [], false)
  {
    hide Runs;
    NoStep(j, Start(maxAttempts));
    OneMore(j, Start(maxAttempts), [], Start(maxAttempts), Claim(7, 5));
    s := Next(j, Start(maxAttempts), Claim(7, 5));
    OneMore(j, Start(maxAttempts), [] + [Claim(7, 5)], s, Tick(6));
    run, s := [] + [Claim(7, 5)] + [Tick(6)], Next(j, s, Tick(6));
  }

  // It happens: a consumer is reaped while its model call runs, the next one freezes its own chunk,
  // and the first, not knowing, puts its chunk back.
  lemma {:induction false} StaleFreeze(j: Job, mine: nat, theirs: nat) returns (run: seq<Action>, before: State)
    requires j.expires.None?
    ensures Runs(j, Start(2), run, before) && before.row.chunk == Some(theirs) && !Fence(before, 0) && Fence(before, 1)
    ensures Enabled(j, before, Freeze(0, mine)) && Next(j, before, Freeze(0, mine)).row.chunk == Some(mine)
  {
    hide Runs;
    run, before := Late(j, 2);
    OneMore(j, Start(2), run, before, Reap);
    run, before := run + [Reap], Next(j, before, Reap);
    OneMore(j, Start(2), run, before, Claim(8, 5));
    run, before := run + [Claim(8, 5)], Next(j, before, Claim(8, 5));
    OneMore(j, Start(2), run, before, Freeze(1, theirs));
    run, before := run + [Freeze(1, theirs)], Next(j, before, Freeze(1, theirs));
  }

  // ------------------------------------------------------------------
  // Failed and lost executions
  // ------------------------------------------------------------------

  // A failed execution gives the row back to the next claim while an attempt is left, and is the last otherwise.
  lemma {:induction false} RetryGivesBack(j: Job, s: State, t: nat, owner: nat, lease: nat)
    requires Inv(s) && Enabled(j, s, Retry(t)) && Fence(s, t)
    ensures var s' := Next(j, s, Retry(t));
            (Enabled(j, s', Claim(owner, lease)) <==> s.row.attempt < s.row.maxAttempts && !Expired(j, s.now))
            && (s'.row.status == Dead <==> s.row.attempt >= s.row.maxAttempts)
            && s'.row.attempt == s.row.attempt && s'.row.maxAttempts == s.row.maxAttempts && s'.row.chunk == s.row.chunk
            && s'.domain == s.domain && !Fence(s', t)
  {
  }

  // The reaper takes a running row exactly when its lease has run out, and then gives it to the next claim if
  // an attempt is left in time; a row that may not be claimed any more it ends, as cancelled if its time is
  // over, and as dead if its attempts are.
  lemma {:induction false} ReapGivesBack(j: Job, s: State, owner: nat, lease: nat)
    requires Inv(s) && Enabled(j, s, Reap)
    ensures var s' := Next(j, s, Reap); var spent := s.row.attempt >= s.row.maxAttempts;
            (s'.row == s.row <==> if s.row.status == Running then s.row.lease.value.until >= s.now
                                  else !Expired(j, s.now) && !spent)
            && (s'.row != s.row ==>
                  (Enabled(j, s', Claim(owner, lease)) <==> !Expired(j, s.now) && !spent)
                  && (s'.row.status == Cancelled <==> Expired(j, s.now))
                  && (s'.row.status == Dead <==> !Expired(j, s.now) && spent))
            && s'.row.attempt == s.row.attempt && s'.row.maxAttempts == s.row.maxAttempts && s'.row.chunk == s.row.chunk
            && s'.domain == s.domain
  {
  }

  // A claim or a heartbeat keeps the reaper away for as long as the lease it takes, and no longer.
  lemma {:induction false} LeaseProtects(j: Job, s: State, a: Action, time: nat)
    requires Inv(s) && Enabled(j, s, a) && s.now <= time && s.locked.None?
    requires a.Claim? || (a.Heartbeat? && Fence(s, a.t))
    ensures var held := Next(j, Next(j, s, a), Tick(time));
            Enabled(j, held, Reap) && held.row.status == Running && held.row.attempt == s.row.attempt + (if a.Claim? then 1 else 0)
            && (Next(j, held, Reap).row == held.row <==> time <= s.now + a.lease)
  {
  }

  // A cancelled or fatal execution ends the row so, and nobody claims it again.
  lemma {:induction false} TerminalEnds(j: Job, s: State, t: nat, status: Status, owner: nat, lease: nat)
    requires Inv(s) && Enabled(j, s, Terminal(t, status)) && Fence(s, t)
    ensures var s' := Next(j, s, Terminal(t, status));
            s'.row.status == status && Finished(s'.row) && !Enabled(j, s', Claim(owner, lease)) && s'.domain == s.domain
  {
  }

  // A row whose executions all fail is claimed exactly as often as it has attempts.
  lemma {:induction false} FailsToTheEnd(j: Job, maxAttempts: nat, n: nat) returns (run: seq<Action>, s: State)
    requires j.expires.None? && 0 < n <= maxAttempts
    ensures Runs(j, Start(maxAttempts), run, s) && Inv(s)
    ensures s.row.attempt == n && s.row.maxAttempts == maxAttempts && s.locked.None? && s.domain == []
    ensures s.row.status == if n < maxAttempts then Ready else Dead
    decreases n
  {
    hide Runs, Inv;
    if n > 1 {
      run, s := FailsToTheEnd(j, maxAttempts, n - 1);
    } else {
      NoStep(j, Start(maxAttempts));
      run, s := [], Start(maxAttempts);
      StartInv(maxAttempts);
    }
    InvKept(j, s, Claim(7, 5));
    OneMore(j, Start(maxAttempts), run, s, Claim(7, 5));
    var t := s.nextToken;
    run, s := run + [Claim(7, 5)], Next(j, s, Claim(7, 5));
    InvKept(j, s, Retry(t));
    OneMore(j, Start(maxAttempts), run, s, Retry(t));
    run, s := run + [Retry(t)], Next(j, s, Retry(t));
  }

  lemma {:induction false} StartInv(maxAttempts: nat)
    ensures Inv(Start(maxAttempts))
  {
  }

  // ------------------------------------------------------------------
  // Who may confirm
  // ------------------------------------------------------------------

  // Until its confirmation the consumer only beats and freezes.
  predicate Waiting(a: Action, t: nat) {
    By(a, t) ==> a.Heartbeat? || a.Freeze?
  }

  // Somewhere in the run the reaper finds the token's lease run out.
  ghost predicate Reaps(j: Job, s: State, run: seq<Action>, t: nat)
    decreases |run|
  {
    run != [] && Enabled(j, s, run[0])
    && ((run[0].Reap? && Fence(s, t) && s.row.lease.value.until < s.now) || Reaps(j, Next(j, s, run[0]), run[1..], t))
  }

  lemma {:induction false} StepHolds(j: Job, s: State, a: Action, t: nat)
    requires Inv(s) && Enabled(j, s, a) && Fence(s, t) && Waiting(a, t)
    ensures var s' := Next(j, s, a);
            s'.locked != Some(t) && t in s'.holders
            && (Fence(s', t) <==> !(a.Reap? && s.row.lease.value.until < s.now))
  {
  }

  lemma {:induction false} StepStaysLost(j: Job, s: State, a: Action, t: nat)
    requires Inv(s) && Enabled(j, s, a) && t in s.holders && !Fence(s, t) && s.locked != Some(t)
    ensures t in Next(j, s, a).holders && !Fence(Next(j, s, a), t) && Next(j, s, a).locked != Some(t)
  {
    LostStaysLost(j, s, a, t);
  }

  lemma {:induction false} FenceLostByReaper(j: Job, s: State, run: seq<Action>, s': State, t: nat)
    requires Inv(s) && Runs(j, s, run, s') && t in s.holders && s.locked != Some(t) && forall a | a in run :: Waiting(a, t)
    ensures t in s'.holders && s'.locked != Some(t) && Inv(s')
    ensures Fence(s', t) <==> Fence(s, t) && !Reaps(j, s, run, t)
    decreases |run|
  {
    hide Enabled, Next, Inv, Fence, Waiting;
    if run != [] {
      var m := Next(j, s, run[0]);
      assert run[0] in run;
      InvKept(j, s, run[0]);
      if Fence(s, t) {
        StepHolds(j, s, run[0], t);
      } else {
        StepStaysLost(j, s, run[0], t);
      }
      assert forall a | a in run[1..] :: a in run;
      FenceLostByReaper(j, m, run[1..], s', t);
    }
  }

  // From its claim to its confirmation, whatever the others do and however late it is: a consumer's
  // effects are committed exactly when no reaper found its lease run out and its subject is open.
  // Otherwise it changes nothing.
  lemma {:induction false} ConfirmsUnlessReaped(j: Job, s: State, owner: nat, lease: nat, run: seq<Action>, s': State)
    requires Inv(s) && Enabled(j, s, Claim(owner, lease))
    requires var t := s.nextToken; Runs(j, Next(j, s, Claim(owner, lease)), run, s') && forall a | a in run :: Waiting(a, t)
    requires Enabled(j, s', Success(s.nextToken))
    ensures var t := s.nextToken; var after := Next(j, s', Success(t));
            if !Reaps(j, Next(j, s, Claim(owner, lease)), run, t) && !s'.blocked
            then Enabled(j, after, Commit(t)) && Next(j, after, Commit(t)).domain == [t]
            else after.row == s'.row && after.domain == s'.domain && !Enabled(j, after, Commit(t))
  {
    hide Reaps, Runs;
    var t, s1 := s.nextToken, Next(j, s, Claim(owner, lease));
    InvKept(j, s, Claim(owner, lease));
    assert Fence(s1, t) && s1.locked.None?;
    FenceLostByReaper(j, s1, run, s', t);
  }

  // So a holder past its lease may still confirm, as long as no reaper came by.
  lemma {:induction false} LateSuccess(j: Job) returns (run: seq<Action>, s: State)
    requires j.expires.None?
    ensures Runs(j, Start(1), run, s) && s.now > 5 && s.domain == [0] && s.row.status == Succeeded
  {
    hide Runs;
    run, s := Late(j, 1);
    OneMore(j, Start(1), run, s, Success(0));
    run, s := run + [Success(0)], Next(j, s, Success(0));
    OneMore(j, Start(1), run, s, Commit(0));
    run, s := run + [Commit(0)], Next(j, s, Commit(0));
  }
}
