// The claim loop of one queue: slots, idle back-off and the wake-up event that local
// jobs set once their follow-ups are committed. Time is in milliseconds.
module QueueLoop {
  import opened Wrappers

  datatype Config = Config(concurrency: nat, batch: nat, idle: nat, idleMax: nat, contextQueue: bool)

  function Min(a: nat, b: nat): nat { if a < b then a else b }

  function Max(a: nat, b: nat): nat { if a < b then b else a }

  // max(job_idle_sleep_max_s, idle)
  function Ceiling(c: Config): nat {
    Max(c.idleMax, c.idle)
  }

  const POLL: nat := 1000

  // ------------------------------------------------------------------
  // The in-flight tasks
  // ------------------------------------------------------------------

  class Slots {
    var tasks: set<nat>

    constructor ()
      ensures tasks == {}
    {
      tasks := {};
    }

    method Spawn(task: nat)
      requires task !in tasks
      modifies this
      ensures tasks == old(tasks) + {task} && |tasks| == |old(tasks)| + 1
    {
      tasks := tasks + {task};
    }

    // The done callback.
    method Discard(task: nat)
      modifies this
      ensures tasks == old(tasks) - {task}
      ensures |tasks| == if task in old(tasks) then |old(tasks)| - 1 else |old(tasks)|
    {
      if task in tasks {
        tasks := tasks - {task};
      } else {
        assert tasks - {task} == tasks;
      }
    }

    function Free(concurrency: nat): (free: int)
      reads this
      ensures free + |tasks| == concurrency
    {
      concurrency - |tasks|
    }

    // Everything a claim returned goes into a slot of its own.
    method SpawnAll(claimed: seq<nat>, concurrency: nat)
      requires |claimed| <= Free(concurrency)
      requires forall i, j | 0 <= i < j < |claimed| :: claimed[i] != claimed[j]
      requires forall i | 0 <= i < |claimed| :: claimed[i] !in tasks
      modifies this
      ensures |tasks| == |old(tasks)| + |claimed| && |tasks| <= concurrency
      ensures old(tasks) <= tasks && forall i | 0 <= i < |claimed| :: claimed[i] in tasks
    {
      for i := 0 to |claimed|
        invariant |tasks| == |old(tasks)| + i
        invariant old(tasks) <= tasks && forall k | 0 <= k < i :: claimed[k] in tasks
        invariant forall k | i <= k < |claimed| :: claimed[k] !in tasks
      {
        Spawn(claimed[i]);
      }
    }
  }

  // ------------------------------------------------------------------
  // The loop and everything that runs beside it
  // ------------------------------------------------------------------

  datatype Reason = Full | Failed | Empty

  datatype Pc =
    | Top
    | Cleared                                   // wake.clear() is done
    | Snapshot(found: nat)                      // the claim has committed with so many jobs
    | Asleep(reason: Reason, until: nat)
    | Stopped

  // wake: the event. running: tasks in their slots. leaving: those of them that have set the event and
  // returned, whose done callback is still to run. committing: local jobs of any queue that have
  // committed but not yet set the event. unseen: follow-ups local jobs committed since the last claim
  // snapshot. ready: claimable rows.
  datatype State = State(pc: Pc, delay: nat, wake: bool, running: nat, leaving: nat, ready: nat, now: nat,
                         committing: nat, unseen: nat)

  datatype Action =
    | Clear
    | Check                       // no free slot: sleep `idle`, or until woken
    | Claim                       // up to min(batch, free)
    | ClaimFails                  // sleep `idle`
    | Nothing                     // an empty claim: sleep the back-off, or until woken
    | SpawnFound
    | Woken
    | TimedOut
    | Tick(time: nat)
    | Produce                     // another process enqueues; it cannot set this event
    | FollowUp(jobs: nat)         // a local job commits its follow-ups
    | Signal                      // a task of this queue sets the event and returns
    | SignalElsewhere             // a task of another queue sets it
    | Discard                     // the done callback frees the slot, in a later turn of the event loop
    | Stop

  function Free(c: Config, s: State): nat {
    if s.running < c.concurrency then c.concurrency - s.running else 0
  }

  function EmptyDelay(c: Config, s: State): nat {
    if c.contextQueue then Min(s.delay, POLL) else s.delay
  }

  predicate Enabled(c: Config, s: State, a: Action) {
    match a
    case Clear => s.pc.Top?
    case Check => s.pc.Cleared? && Free(c, s) == 0
    case Claim => s.pc.Cleared? && Free(c, s) > 0
    case ClaimFails => s.pc.Cleared? && Free(c, s) > 0
    case Nothing => s.pc.Snapshot? && s.pc.found == 0
    case SpawnFound => s.pc.Snapshot? && s.pc.found > 0
    case Woken => s.pc.Asleep? && !s.pc.reason.Failed? && s.wake
    case TimedOut => s.pc.Asleep? && s.now >= s.pc.until
    case Tick(time) => s.now <= time
    case Produce => true
    case FollowUp(_) => true
    case Signal => s.committing > 0 && s.leaving < s.running
    case SignalElsewhere => s.committing > 0
    case Discard => s.leaving > 0 && s.running > 0
    case Stop => s.pc.Top?
  }

  function Next(c: Config, s: State, a: Action): State
    requires Enabled(c, s, a)
  {
    match a
    case Clear => s.(pc := Cleared, wake := false)
    case Check => s.(pc := Asleep(Full, s.now + c.idle))
    case Claim =>
      var found := Min(Min(c.batch, Free(c, s)), s.ready);
      s.(pc := Snapshot(found), ready := s.ready - found, unseen := 0)
    case ClaimFails => s.(pc := Asleep(Failed, s.now + c.idle))
    case Nothing => s.(pc := Asleep(Empty, s.now + EmptyDelay(c, s)))
    case SpawnFound => s.(pc := Top, delay := c.idle, running := s.running + s.pc.found)
    case Woken => s.(pc := Top, delay := if s.pc.reason.Empty? then c.idle else s.delay)
    case TimedOut => s.(pc := Top, delay := if s.pc.reason.Empty? then Min(s.delay * 2, Ceiling(c)) else s.delay)
    case Tick(time) => s.(now := time)
    case Produce => s.(ready := s.ready + 1)
    case FollowUp(jobs) => s.(ready := s.ready + jobs, unseen := s.unseen + jobs, committing := s.committing + 1)
    case Signal => s.(wake := true, committing := s.committing - 1, leaving := s.leaving + 1)
    case SignalElsewhere => s.(wake := true, committing := s.committing - 1)
    case Discard => s.(running := s.running - 1, leaving := s.leaving - 1)
    case Stop => s.(pc := Stopped)
  }

  function Start(c: Config): State {
    State(Top, c.idle, false, 0, 0, 0, 0, 0, 0)
  }

  ghost predicate Inv(c: Config, s: State) {
    s.leaving <= s.running <= c.concurrency
    && (s.pc.Snapshot? ==> s.running + s.pc.found <= c.concurrency)
    && c.idle <= s.delay <= Ceiling(c)
    && match s.pc
       // a follow-up the snapshot missed: the event is set, or its job has yet to set it
       case Snapshot(_) => s.unseen > 0 ==> s.committing > 0 || s.wake
       case Asleep(Empty, until) => (s.unseen > 0 ==> s.committing > 0 || s.wake) && until <= s.now + EmptyDelay(c, s)
       case Asleep(Full, until) => until <= s.now + c.idle
       case Asleep(Failed, until) => until <= s.now + c.idle
       case _ => true
  }

  lemma {:induction false} InvKept(c: Config, s: State, a: Action)
    requires Inv(c, s) && Enabled(c, s, a)
    ensures Inv(c, Next(c, s, a))
  {
  }

  ghost predicate Runs(c: Config, s: State, run: seq<Action>, s': State)
    decreases |run|
  {
    if run == [] then s' == s else Enabled(c, s, run[0]) && Runs(c, Next(c, s, run[0]), run[1..], s')
  }

  lemma {:induction false} RunInv(c: Config, s: State, run: seq<Action>, s': State)
    requires Inv(c, s) && Runs(c, s, run, s')
    ensures Inv(c, s')
    decreases |run|
  {
    if run != [] {
      InvKept(c, s, run[0]);
      RunInv(c, Next(c, s, run[0]), run[1..], s');
    }
  }

  // In every reachable state the tasks in flight fit their slots and the back-off its bounds.
  lemma {:induction false} SlotsAndDelay(c: Config, run: seq<Action>, s: State)
    requires Runs(c, Start(c), run, s)
    ensures s.running <= c.concurrency && c.idle <= s.delay <= Max(c.idleMax, c.idle)
  {
    RunInv(c, Start(c), run, s);
  }

  // Some job has set the event since the loop last cleared it.
  ghost predicate SignalledSinceClear(run: seq<Action>)
    decreases |run|
  {
    run != []
    && var last := run[|run| - 1];
       last.Signal? || last.SignalElsewhere? || (!last.Clear? && SignalledSinceClear(run[..|run| - 1]))
  }

  lemma {:induction false} RunSplit(c: Config, s: State, run: seq<Action>, s': State) returns (m: State)
    requires Runs(c, s, run, s') && run != []
    ensures Runs(c, s, run[..|run| - 1], m) && Enabled(c, m, run[|run| - 1]) && s' == Next(c, m, run[|run| - 1])
    decreases |run|
  {
    hide Enabled, Next;
    if |run| == 1 {
      m := s;
      assert run[1..] == [];
    } else {
      m := RunSplit(c, Next(c, s, run[0]), run[1..], s');
      assert run[..|run| - 1][1..] == run[1..][..|run| - 2];
      assert run[1..][|run| - 2] == run[|run| - 1];
    }
  }

  // The event says just that.
  lemma {:induction false} WakeIsSignalled(c: Config, run: seq<Action>, s: State)
    requires Runs(c, Start(c), run, s)
    ensures s.wake <==> SignalledSinceClear(run)
    decreases |run|
  {
    if run != [] {
      var m := RunSplit(c, Start(c), run, s);
      WakeIsSignalled(c, run[..|run| - 1], m);
    }
  }

  // On an empty queue no wake-up is lost: when every local job that committed a follow-up behind the
  // loop's back has set the event, the loop can wake at once and polls at its fastest again.
  lemma {:induction false} NoLostWake(c: Config, run: seq<Action>, s: State)
    requires Runs(c, Start(c), run, s) && s.pc.Asleep? && s.pc.reason.Empty? && s.unseen > 0 && s.committing == 0
    ensures Enabled(c, s, Woken) && Next(c, s, Woken).delay == c.idle
    ensures SignalledSinceClear(run)
  {
    RunInv(c, Start(c), run, s);
    WakeIsSignalled(c, run, s);
  }

  // On full slots one can be: a loop asleep there with a slot free by now can wake exactly when some job
  // set the event after the loop's last clear.
  lemma {:induction false} FullWakesExactly(c: Config, run: seq<Action>, s: State)
    requires Runs(c, Start(c), run, s) && s.pc.Asleep? && s.pc.reason.Full? && s.running < c.concurrency
    ensures Enabled(c, s, Woken) <==> SignalledSinceClear(run)
  {
    WakeIsSignalled(c, run, s);
  }

  // However it fell asleep, the loop claims again after its current delay at the latest.
  lemma {:induction false} SleepBounded(c: Config, run: seq<Action>, s: State)
    requires Runs(c, Start(c), run, s) && s.pc.Asleep?
    ensures s.pc.until <= s.now + (if s.pc.reason.Empty? then EmptyDelay(c, s) else c.idle)
    ensures s.pc.until <= s.now + Max(c.idleMax, c.idle)
  {
    RunInv(c, Start(c), run, s);
  }

  // In every reachable state with a follow-up the loop has not seen, every local job having set the
  // event: asleep, the loop can wake at once exactly when it fell asleep on an empty queue, or on full
  // slots with the event set after its last clear. After a failed claim it cannot.
  lemma {:induction false} WakesExactly(c: Config, run: seq<Action>, s: State)
    requires Runs(c, Start(c), run, s) && s.pc.Asleep? && s.unseen > 0 && s.committing == 0
    ensures Enabled(c, s, Woken) <==> s.pc.reason.Empty? || (s.pc.reason.Full? && SignalledSinceClear(run))
  {
    RunInv(c, Start(c), run, s);
    WakeIsSignalled(c, run, s);
  }

  lemma {:induction false} NoStep(c: Config, s: State)
    ensures Runs(c, s, [], s)
  {
  }

  lemma {:induction false} OneMore(c: Config, s: State, run: seq<Action>, m: State, a: Action)
    requires Runs(c, s, run, m) && Enabled(c, m, a)
    ensures Runs(c, s, run + [a], Next(c, m, a))
    decreases |run|
  {
    hide Enabled, Next;
    if run == [] {
      NoStep(c, Next(c, m, a));
      assert ([] + [a])[1..] == [];
    } else {
      assert (run + [a])[1..] == run[1..] + [a];
      OneMore(c, Next(c, s, run[0]), run[1..], m, a);
    }
  }

  // A claim takes as many rows as the batch, the free slots and the queue allow, and leaves the others.
  lemma {:induction false} ClaimTakes(c: Config, s: State)
    requires Inv(c, s) && Enabled(c, s, Claim)
    ensures var s' := Next(c, s, Claim); var found := s.ready - s'.ready;
            s'.pc == Snapshot(found) && 0 <= found <= c.batch && s.running + found <= c.concurrency
            && (found == c.batch || s.running + found == c.concurrency || s'.ready == 0)
  {
  }

  // The loop falls asleep for the idle delay on full slots and after a failed claim, for the back-off on an
  // empty queue, and sleeps until then unless it is woken.
  lemma {:induction false} SleepsOut(c: Config, s: State, a: Action, run: seq<Action>, s': State)
    requires Enabled(c, s, a) && (a.Check? || a.ClaimFails? || a.Nothing?)
    requires Runs(c, Next(c, s, a), run, s') && forall b | b in run :: !b.Woken?
    requires s'.now < s.now + if a.Nothing? then EmptyDelay(c, s) else c.idle
    ensures s'.pc.Asleep? && s'.pc.reason == (if a.Check? then Full else if a.ClaimFails? then Failed else Empty)
  {
    hide Runs;
    StaysAsleep(c, Next(c, s, a), run, s');
  }

  lemma {:induction false} StaysAsleep(c: Config, s: State, run: seq<Action>, s': State)
    requires Runs(c, s, run, s') && s.pc.Asleep? && s'.now < s.pc.until && forall a | a in run :: !a.Woken?
    ensures s'.pc == s.pc
    decreases |run|
  {
    if run != [] {
      TimePasses(c, Next(c, s, run[0]), run[1..], s');
      assert run[0] in run;
      assert s.now <= Next(c, s, run[0]).now <= s'.now;
      assert forall a | a in run[1..] :: a in run;
      StaysAsleep(c, Next(c, s, run[0]), run[1..], s');
    }
  }

  lemma {:induction false} TimePasses(c: Config, s: State, run: seq<Action>, s': State)
    requires Runs(c, s, run, s')
    ensures s.now <= s'.now
    decreases |run|
  {
    if run != [] {
      TimePasses(c, Next(c, s, run[0]), run[1..], s');
    }
  }

  function Power(n: nat): nat {
    if n == 0 then 1 else 2 * Power(n - 1)
  }

  // How many empty polls were slept out since the loop last claimed something or was woken on an empty queue.
  function SleptOut(s: State, a: Action, k: nat): nat {
    if a.SpawnFound? || (a.Woken? && s.pc.Asleep? && s.pc.reason.Empty?) then 0
    else if a.TimedOut? && s.pc.Asleep? && s.pc.reason.Empty? then k + 1
    else k
  }

  ghost function SleptOutBy(c: Config, s: State, run: seq<Action>, k: nat): nat
    decreases |run|
  {
    if run == [] || !Enabled(c, s, run[0]) then k
    else SleptOutBy(c, Next(c, s, run[0]), run[1..], SleptOut(s, run[0], k))
  }

  lemma {:induction false} DelaySteps(c: Config, s: State, a: Action, k: nat)
    requires Enabled(c, s, a) && s.delay == Min(c.idle * Power(k), Ceiling(c))
    ensures Next(c, s, a).delay == Min(c.idle * Power(SleptOut(s, a, k)), Ceiling(c))
  {
    assert c.idle * Power(k + 1) == 2 * (c.idle * Power(k));
    assert c.idle * Power(0) == c.idle;
  }

  lemma {:induction false} DelayBy(c: Config, s: State, run: seq<Action>, s': State, k: nat)
    requires Runs(c, s, run, s') && s.delay == Min(c.idle * Power(k), Ceiling(c))
    ensures s'.delay == Min(c.idle * Power(SleptOutBy(c, s, run, k)), Ceiling(c))
    decreases |run|
  {
    hide Enabled, Next, SleptOut, Power;
    if run != [] {
      DelaySteps(c, s, run[0], k);
      DelayBy(c, Next(c, s, run[0]), run[1..], s', SleptOut(s, run[0], k));
    }
  }

  // Over every run the back-off is the base delay, doubled for every empty poll slept out since the loop
  // last claimed something or was woken, up to its ceiling.
  lemma {:induction false} BacksOff(c: Config, run: seq<Action>, s: State)
    requires Runs(c, Start(c), run, s)
    ensures s.delay == Min(c.idle * Power(SleptOutBy(c, Start(c), run, 0)), Max(c.idleMax, c.idle))
  {
    assert c.idle * Power(0) == c.idle;
    DelayBy(c, Start(c), run, s, 0);
  }

  // The loop with k slots taken, about to start over.
  function Taken(c: Config, k: nat): State {
    State(Top, c.idle, false, k, 0, 0, 0, 0, 0)
  }

  lemma {:induction false} Takes(c: Config, k: nat) returns (run: seq<Action>)
    requires k <= c.concurrency && c.batch > 0
    ensures Runs(c, Start(c), run, Taken(c, k))
    decreases k, 0
  {
    hide Runs;
    if k == 0 {
      run := [];
      NoStep(c, Start(c));
    } else {
      var s: State;
      run, s := Claims(c, k - 1);
      OneMore(c, Start(c), run, s, SpawnFound);
      run := run + [SpawnFound];
    }
  }

  // One more job comes and is claimed; the loop has not spawned it yet.
  lemma {:induction false} Claims(c: Config, k: nat) returns (run: seq<Action>, s: State)
    requires k < c.concurrency && c.batch > 0
    ensures Runs(c, Start(c), run, s) && s == Taken(c, k).(pc := Snapshot(1))
    decreases k, 1
  {
    hide Runs;
    run := Takes(c, k);
    s := Taken(c, k);
    OneMore(c, Start(c), run, s, Produce);
    run, s := run + [Produce], Next(c, s, Produce);
    OneMore(c, Start(c), run, s, Clear);
    run, s := run + [Clear], Next(c, s, Clear);
    OneMore(c, Start(c), run, s, Claim);
    run, s := run + [Claim], Next(c, s, Claim);
  }

  // The lost wake-up is reached: while the claim's reply comes in, a task commits a follow-up, sets the
  // event and returns; the loop spawns what it claimed, clears the event, still counts the task, finds
  // no slot free and sleeps; then the done callback frees the slot. A claimable job waits beside it.
  lemma {:induction false} LostWakeReached(c: Config) returns (run: seq<Action>, s: State)
    requires c.concurrency >= 2 && c.batch > 0 && c.idle > 0
    ensures Runs(c, Start(c), run, s) && s.pc.Asleep? && s.pc.reason.Full? && s.now < s.pc.until
    ensures s.running < c.concurrency && s.ready > 0 && s.unseen > 0 && s.committing == 0 && !Enabled(c, s, Woken)
  {
    hide Runs;
    run, s := Claims(c, c.concurrency - 1);
    OneMore(c, Start(c), run, s, FollowUp(1));
    run, s := run + [FollowUp(1)], Next(c, s, FollowUp(1));
    OneMore(c, Start(c), run, s, Signal);
    run, s := run + [Signal], Next(c, s, Signal);
    OneMore(c, Start(c), run, s, SpawnFound);
    run, s := run + [SpawnFound], Next(c, s, SpawnFound);
    OneMore(c, Start(c), run, s, Clear);
    run, s := run + [Clear], Next(c, s, Clear);
    OneMore(c, Start(c), run, s, Check);
    run, s := run + [Check], Next(c, s, Check);
    OneMore(c, Start(c), run, s, Discard);
    run, s := run + [Discard], Next(c, s, Discard);
  }

  // The other way to sleep on: a claim fails, a local job commits a follow-up and sets the event, and
  // the loop does not watch it.
  lemma {:induction false} FailedClaimReached(c: Config) returns (run: seq<Action>, s: State)
    requires c.concurrency > 0 && c.idle > 0
    ensures Runs(c, Start(c), run, s) && s.pc.Asleep? && s.wake && s.unseen > 0 && s.now < s.pc.until && !Enabled(c, s, Woken)
  {
    hide Runs;
    NoStep(c, Start(c));
    run, s := [], Start(c);
    OneMore(c, Start(c), run, s, Clear);
    run, s := run + [Clear], Next(c, s, Clear);
    OneMore(c, Start(c), run, s, ClaimFails);
    run, s := run + [ClaimFails], Next(c, s, ClaimFails);
    OneMore(c, Start(c), run, s, FollowUp(1));
    run, s := run + [FollowUp(1)], Next(c, s, FollowUp(1));
    OneMore(c, Start(c), run, s, SignalElsewhere);
    run, s := run + [SignalElsewhere], Next(c, s, SignalElsewhere);
  }
}
