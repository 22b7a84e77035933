// Every interleaving of source writers and release operators keeps the revision
// exact, so a promotion that finds the audited revisions finds the audited sources.
module FenceSafety {
  import opened Wrappers
  import opened RetentionFence

  // ------------------------------------------------------------------
  // The invariant
  // ------------------------------------------------------------------

  function CountOf(changes: seq<Change>, sub: Subject, through: nat): nat {
    if changes == [] then 0
    else CountOf(changes[..|changes| - 1], sub, through) + if Counts(changes[|changes| - 1], sub, through) then 1 else 0
  }

  lemma {:induction false} CountAppend(a: seq<Change>, b: seq<Change>, sub: Subject, through: nat)
    ensures CountOf(a + b, sub, through) == CountOf(a, sub, through) + CountOf(b, sub, through)
  {
    if b == [] {
      assert a + b == a;
    } else {
      assert (a + b)[..|a + b| - 1] == a + b[..|b| - 1];
      CountAppend(a, b[..|b| - 1], sub, through);
    }
  }

  lemma {:induction false} CountZero(changes: seq<Change>, sub: Subject, through: nat)
    ensures CountOf(changes, sub, through) == 0 <==> forall i | 0 <= i < |changes| :: !Counts(changes[i], sub, through)
  {
    if changes != [] {
      CountZero(changes[..|changes| - 1], sub, through);
    }
  }

  predicate InTrigger(pc: Pc) {
    pc.Looping? || pc.Joining? || pc.Ticking? || pc.Falling?
  }

  // The trigger of the current change is done with this subject.
  predicate Ticked(pc: Pc, sub: Subject) {
    match pc
    case Looping(ch, owners) => sub.1 !in owners
    case Joining(ch, u, _, owners) => sub.1 != u && sub.1 !in owners
    case Ticking(ch, u, ticks, owners) => sub.1 !in owners && !(sub.1 == u && sub.0 in ticks)
    case Falling(ch, u, p, ticks, owners) => sub.1 !in owners && !(sub.1 == u && (sub.0 == p || sub.0 in ticks))
    case _ => false
  }

  // What a writer owes the effective revision of a subject.
  function Pending(w: Work, sub: Subject, through: nat): nat
    requires w.Writer?
  {
    CountOf(w.done, sub, through)
    + if InTrigger(w.pc) && Ticked(w.pc, sub) && Counts(w.pc.ch, sub, through) then 1 else 0
  }

  ghost predicate TickSound(s: State, ch: Change, u: User, p: Prep) {
    (p, u) in s.clocks && Reaches(ch, p, u)
  }

  ghost predicate PcSound(s: State, pc: Pc) {
    match pc
    case Looping(ch, owners) => owners <= Owners(ch)
    case Joining(ch, u, _, owners) => u in Owners(ch) && u !in owners && owners <= Owners(ch)
    case Ticking(ch, u, ticks, owners) =>
      u in Owners(ch) && u !in owners && owners <= Owners(ch)
      && forall p | p in ticks :: TickSound(s, ch, u, p) && ticks[p] == s.clocks[(p, u)].through
    case Falling(ch, u, q, ticks, owners) =>
      u in Owners(ch) && u !in owners && owners <= Owners(ch) && TickSound(s, ch, u, q) && q !in ticks
      && forall p | p in ticks :: TickSound(s, ch, u, p) && ticks[p] == s.clocks[(p, u)].through
    case _ => true
  }

  // The only rows a writer of sources locks exclusively are clocks.
  predicate Modest(w: Work) {
    forall l | l in w.locks :: !l.resource.Activation? && (l.mode == Exclusive ==> l.resource.Clock?)
  }

  predicate Fenced(w: Work) {
    Lock(Fence, Share) in w.locks
  }

  ghost predicate Backed(w: Work, sub: Subject)
    requires w.Writer?
  {
    (w.bumps[sub] > 0 ==> Lock(Clock(sub), Exclusive) in w.locks)
    && (w.events[sub] > 0 ==> Lock(Registry(sub.0), KeyShare) in w.locks)
  }

  ghost predicate Owing(s: State, w: Work, sub: Subject)
    requires w.Writer?
  {
    if sub !in s.clocks then w.bumps[sub] + w.events[sub] == 0
    else IsOpen(s, sub.0) ==> w.bumps[sub] + w.events[sub] == Pending(w, sub, s.clocks[sub].through)
  }

  ghost predicate Idle(w: Work)
    requires w.Writer?
  {
    w.done == [] && w.bumps == multiset{} && w.events == multiset{} && !InTrigger(w.pc)
  }

  ghost predicate Sound(s: State, w: Work) {
    match w
    case Writer(_, _, _, _, pc) =>
      (Fenced(w) || Idle(w)) && Modest(w) && PcSound(s, pc) && forall sub: Subject :: Backed(w, sub) && Owing(s, w, sub)
    case Operator(locks, plan, asking, verified) =>
      (forall l | l in locks :: l.mode == Exclusive)
      && (asking ==> locks == {} && !verified)
      && (verified ==> Permitted(s, plan) && forall r | r in Needs(s, plan) :: Holds(w, r))
  }

  ghost predicate Compatible(s: State) {
    forall a, b | a in s.txs && b in s.txs && a != b ::
      forall l, k | l in s.txs[a].locks && k in s.txs[b].locks :: !Clash(l, k)
  }

  ghost predicate Inv(s: State) {
    Compatible(s)
    && (forall t | t in s.txs :: Sound(s, s.txs[t]))
    && (forall sub: Subject | s.events[sub] > 0 :: sub in s.clocks)
    && (forall sub: Subject | sub in s.clocks :: sub.0 in s.preps)
  }

  const Start := State(map[], map[], multiset{}, map[], [])

  lemma {:induction false} StartInv()
    ensures Inv(Start)
  {
  }

  // ------------------------------------------------------------------
  // Steps that touch one transaction only
  // ------------------------------------------------------------------

  lemma {:induction false} PutKeeps(s: State, t: Tx, w: Work)
    requires Inv(s) && Sound(s, w)
    requires forall l | l in w.locks :: Free(s, t, l)
    ensures Inv(Put(s, t, w))
  {
    var s' := Put(s, t, w);
    forall o | o in s'.txs ensures Sound(s', s'.txs[o]) {
      SoundSame(s, s', s'.txs[o]);
    }
  }

  // The boundary and the registered subjects are all that a writer's debt depends on.
  lemma {:induction false} SoundWriterMoves(s: State, s': State, w: Work)
    requires Sound(s, w) && w.Writer? && s'.clocks.Keys == s.clocks.Keys
    requires forall sub | sub in s.clocks :: s'.clocks[sub].through == s.clocks[sub].through
    requires forall p | IsOpen(s', p) :: IsOpen(s, p)
    ensures Sound(s', w)
  {
    hide Counts, CountOf, Reaches, Owners, Ignored, Mutating;
    forall sub: Subject ensures Backed(w, sub) && Owing(s', w, sub) {
      assert Backed(w, sub) && Owing(s, w, sub);
    }
  }

  // Soundness looks at the committed rows only.
  lemma {:induction false} SoundSame(s: State, s': State, w: Work)
    requires Sound(s, w) && s'.preps == s.preps && s'.clocks == s.clocks && s'.events == s.events
    ensures Sound(s', w)
  {
    hide Counts, CountOf, Reaches, Owners, Ignored, Mutating, PcSound, Owing, Backed;
    if w.Writer? {
      SoundWriterMoves(s, s', w);
    } else if w.verified {
      PlanSame(s, s', w.plan);
    }
  }

  lemma {:induction false} PlanSame(s: State, s': State, plan: Plan)
    requires s'.preps == s.preps && s'.clocks == s.clocks && s'.events == s.events
    ensures Permitted(s', plan) == Permitted(s, plan) && Needs(s', plan) == Needs(s, plan)
  {
    hide Audit;
    if plan.Promote? && plan.p in s.preps {
      AuditSame(s, s', plan.p);
    }
  }

  lemma {:induction false} AuditSame(s: State, s': State, p: Prep)
    requires s'.preps == s.preps && s'.clocks == s.clocks && s'.events == s.events && p in s.preps
    ensures Audit(s', p) == Audit(s, p)
  {
    assert Audit(s', p).revisions == Audit(s, p).revisions;
  }

  lemma {:induction false} HeldFree(s: State, t: Tx)
    requires Inv(s) && t in s.txs
    ensures forall l | l in s.txs[t].locks :: Free(s, t, l)
  {
  }

  lemma {:induction false} TickKnown(s: State, pc: Pc, p: Prep)
    requires pc.Ticking? && PcSound(s, pc) && p in pc.ticks
    ensures TickSound(s, pc.ch, pc.u, p) && pc.ticks[p] == s.clocks[(p, pc.u)].through && pc.u in Owners(pc.ch) && pc.u !in pc.owners
  {
  }

  lemma {:induction false} TickPc(s: State, t: Tx, p: Prep)
    requires Inv(s) && Enabled(s, TryClock(t, p))
    ensures PcSound(s, s.txs[t].pc) && PcSound(s, Tick(s, t, p).pc)
  {
    hide Compatible, Ignored, Mutating, Reaches, Owners, Free, Owing, Backed;
    assert Sound(s, s.txs[t]);
  }

  lemma {:induction false} TickOwes(s: State, t: Tx, p: Prep, sub: Subject)
    requires AtPc(s, t) && s.txs[t].pc.Ticking? && p in s.txs[t].pc.ticks && PcSound(s, s.txs[t].pc)
    requires Backed(s.txs[t], sub) && Owing(s, s.txs[t], sub)
    ensures Backed(Tick(s, t, p), sub) && Owing(s, Tick(s, t, p), sub)
  {
    hide PcSound, Ignored, Mutating, Reaches, Owners, CountOf, Free;
    var w := s.txs[t];
    TickKnown(s, w.pc, p);
    assert Counts(w.pc.ch, (p, w.pc.u), w.pc.ticks[p]) <==> Mutating(w.pc.ch, w.pc.u, w.pc.ticks[p]);
  }

  lemma {:induction false} TickLocks(s: State, t: Tx, p: Prep)
    requires Inv(s) && Enabled(s, TryClock(t, p))
    ensures Tick(s, t, p).Writer? && Modest(Tick(s, t, p)) && (Fenced(s.txs[t]) ==> Fenced(Tick(s, t, p)))
    ensures forall l | l in Tick(s, t, p).locks :: Free(s, t, l)
  {
    hide Compatible, PcSound, Ignored, Mutating, Reaches, Owners, CountOf, Free, Owing, Backed;
    HeldFree(s, t);
    assert Sound(s, s.txs[t]);
  }

  lemma {:induction false} TickKeeps(s: State, t: Tx, p: Prep)
    requires Inv(s) && Enabled(s, TryClock(t, p))
    ensures Sound(s, Tick(s, t, p))
    ensures forall l | l in Tick(s, t, p).locks :: Free(s, t, l)
  {
    hide Compatible, PcSound, Free, Owing, Backed, Tick, Modest, Fenced;
    var w, w' := s.txs[t], Tick(s, t, p);
    assert Sound(s, w);
    TickPc(s, t, p);
    TickLocks(s, t, p);
    forall sub: Subject ensures Backed(w', sub) && Owing(s, w', sub) {
      TickOwes(s, t, p, sub);
    }
    assert Fenced(w);
  }

  lemma {:induction false} FallOwes(s: State, w: Work, sub: Subject)
    requires w.Writer? && w.pc.Falling? && PcSound(s, w.pc) && Backed(w, sub) && Owing(s, w, sub)
    ensures Backed(Fall(s, w), sub) && Owing(s, Fall(s, w), sub) && PcSound(s, Fall(s, w).pc)
  {
    hide Ignored, Mutating, Reaches, Owners, CountOf;
    assert TickSound(s, w.pc.ch, w.pc.u, w.pc.p);
  }

  lemma {:induction false} FallKeeps(s: State, t: Tx)
    requires Inv(s) && Enabled(s, FallBack(t))
    ensures Sound(s, Fall(s, s.txs[t]))
    ensures forall l | l in Fall(s, s.txs[t]).locks :: Free(s, t, l)
  {
    hide Compatible, PcSound, Mutating, Free, Owing, Backed;
    var w := s.txs[t];
    HeldFree(s, t);
    assert Sound(s, w);
    forall sub: Subject ensures Backed(Fall(s, w), sub) && Owing(s, Fall(s, w), sub) && PcSound(s, Fall(s, w).pc) {
      FallOwes(s, w, sub);
    }
    FallOwes(s, w, (0, 0));
  }

  predicate Private(a: Action) {
    !a.CommitWriter? && !a.CommitOperator? && !a.Rollback?
  }

  // The writer's steps that neither bump, record nor finish a change.
  lemma {:induction false} WriterMoves(s: State, t: Tx, w: Work, w': Work)
    requires Inv(s) && t in s.txs && w == s.txs[t] && w.Writer? && w'.Writer?
    requires w'.bumps == w.bumps && w'.events == w.events && w.locks <= w'.locks && PcSound(s, w'.pc)
    requires (Fenced(w') || Idle(w')) && Modest(w')
    requires forall sub | sub in s.clocks && IsOpen(s, sub.0) ::
               Pending(w', sub, s.clocks[sub].through) == Pending(w, sub, s.clocks[sub].through)
    ensures Sound(s, w')
  {
    hide Compatible, Pending, PcSound, Idle;
    forall sub: Subject ensures Backed(w', sub) && Owing(s, w', sub) {
      assert Backed(w, sub) && Owing(s, w, sub);
    }
  }

  lemma {:induction false} GetFenceMoves(s: State, a: Action)
    requires Inv(s) && Enabled(s, a) && a.GetFence?
    ensures Sound(s, Next(s, a).txs[a.t])
  {
    hide Compatible, Ignored, Mutating, Reaches, Owners, Free, Owing, Backed;
    assert Sound(s, s.txs[a.t]) by { assert a.t in s.txs; }
    WriterMoves(s, a.t, s.txs[a.t], Next(s, a).txs[a.t]);
  }

  lemma {:induction false} NextOwnerMoves(s: State, a: Action)
    requires Inv(s) && Enabled(s, a) && a.NextOwner?
    ensures Sound(s, Next(s, a).txs[a.t])
  {
    hide Compatible, Ignored, Mutating, Reaches, Owners, Free, Owing, Backed;
    assert Sound(s, s.txs[a.t]) by { assert a.t in s.txs; }
    WriterMoves(s, a.t, s.txs[a.t], Next(s, a).txs[a.t]);
  }

  lemma {:induction false} JoinMoves(s: State, a: Action)
    requires Inv(s) && Enabled(s, a) && a.Join?
    ensures Sound(s, Next(s, a).txs[a.t])
  {
    hide Compatible, Ignored, Mutating, Reaches, Owners, Free, Owing, Backed;
    assert Sound(s, s.txs[a.t]) by { assert a.t in s.txs; }
    WriterMoves(s, a.t, s.txs[a.t], Next(s, a).txs[a.t]);
  }

  lemma {:induction false} ScanMoves(s: State, a: Action)
    requires Inv(s) && Enabled(s, a) && a.Scan?
    ensures Sound(s, Next(s, a).txs[a.t])
  {
    hide Compatible, Ignored, Mutating, Reaches, Owners, Free, Owing, Backed;
    assert Sound(s, s.txs[a.t]) by { assert a.t in s.txs; }
    WriterMoves(s, a.t, s.txs[a.t], Next(s, a).txs[a.t]);
  }

  lemma {:induction false} EndOwnerMoves(s: State, a: Action)
    requires Inv(s) && Enabled(s, a) && a.EndOwner?
    ensures Sound(s, Next(s, a).txs[a.t])
  {
    hide Compatible, Ignored, Mutating, Reaches, Owners, Free, Owing, Backed;
    assert Sound(s, s.txs[a.t]) by { assert a.t in s.txs; }
    WriterMoves(s, a.t, s.txs[a.t], Next(s, a).txs[a.t]);
  }

  lemma {:induction false} EndTriggerMoves(s: State, a: Action)
    requires Inv(s) && Enabled(s, a) && a.EndTrigger?
    ensures Sound(s, Next(s, a).txs[a.t])
  {
    hide Compatible, Ignored, Mutating, Reaches, Owners, Free, Owing, Backed;
    assert Sound(s, s.txs[a.t]) by { assert a.t in s.txs; }
    WriterMoves(s, a.t, s.txs[a.t], Next(s, a).txs[a.t]);
  }

  lemma {:induction false} NewWriterSound(s: State)
    ensures Sound(s, Writer({}, [], multiset{}, multiset{}, Between))
  {
  }

  lemma {:induction false} OperatorMoves(s: State, a: Action)
    requires Inv(s) && Enabled(s, a) && (a.BeginOperator? || a.GetActivation? || a.Grab? || a.Verify?)
    ensures Sound(s, Next(s, a).txs[a.t])
  {
    hide Compatible, Free, Permitted, Needs;
    if a.t in s.txs {
      assert Sound(s, s.txs[a.t]);
    }
  }

  lemma {:induction false} LocksFree(s: State, a: Action)
    requires Inv(s) && Enabled(s, a) && Private(a) && !a.TryClock? && !a.FallBack?
    ensures forall l | l in Next(s, a).txs[a.t].locks :: Free(s, a.t, l)
  {
    hide Sound, Compatible, Free, Permitted, Needs, Ignored, Reaches, Owners;
    if a.t in s.txs {
      HeldFree(s, a.t);
    }
  }

  lemma {:induction false} PrivateStep(s: State, a: Action)
    requires Inv(s) && Enabled(s, a) && Private(a)
    ensures Next(s, a) == Put(s, a.t, Next(s, a).txs[a.t])
    ensures var w' := Next(s, a).txs[a.t]; Sound(s, w') && forall l | l in w'.locks :: Free(s, a.t, l)
  {
    hide Inv, Sound, Compatible, Ignored, Mutating, Reaches, Owners, Free, Tick, Fall, Permitted, Needs;
    if a.TryClock? {
      TickKeeps(s, a.t, a.p);
    } else if a.FallBack? {
      FallKeeps(s, a.t);
    } else {
      LocksFree(s, a);
      if a.GetFence? {
        GetFenceMoves(s, a);
      } else if a.NextOwner? {
        NextOwnerMoves(s, a);
      } else if a.Join? {
        JoinMoves(s, a);
      } else if a.Scan? {
        ScanMoves(s, a);
      } else if a.EndOwner? {
        EndOwnerMoves(s, a);
      } else if a.EndTrigger? {
        EndTriggerMoves(s, a);
      } else if a.BeginWriter? {
        NewWriterSound(s);
      } else if a.AskShare? {
        AskShareMoves(s, a);
      } else if a.GetShare? {
        GetShareMoves(s, a);
      } else if a.Write? {
        WriteMoves(s, a);
      } else {
        OperatorMoves(s, a);
      }
    }
  }

  lemma {:induction false} AskShareMoves(s: State, a: Action)
    requires Inv(s) && Enabled(s, a) && a.AskShare?
    ensures Sound(s, Next(s, a).txs[a.t])
  {
    hide Compatible, Ignored, Mutating, Reaches, Owners, CountOf, Free, Owing, Backed;
    assert Sound(s, s.txs[a.t]) by { assert a.t in s.txs; }
    WriterMoves(s, a.t, s.txs[a.t], Next(s, a).txs[a.t]);
  }

  lemma {:induction false} GetShareMoves(s: State, a: Action)
    requires Inv(s) && Enabled(s, a) && a.GetShare?
    ensures Sound(s, Next(s, a).txs[a.t])
  {
    hide Compatible, Ignored, Mutating, Reaches, Owners, CountOf, Free, Owing, Backed;
    assert Sound(s, s.txs[a.t]) by { assert a.t in s.txs; }
    WriterMoves(s, a.t, s.txs[a.t], Next(s, a).txs[a.t]);
  }

  lemma {:induction false} WriteMoves(s: State, a: Action)
    requires Inv(s) && Enabled(s, a) && a.Write?
    ensures Sound(s, Next(s, a).txs[a.t])
  {
    hide Compatible, Ignored, Mutating, Reaches, Owners, CountOf, Free, Owing, Backed;
    assert Sound(s, s.txs[a.t]) by { assert a.t in s.txs; }
    WriterMoves(s, a.t, s.txs[a.t], Next(s, a).txs[a.t]);
  }

  // ------------------------------------------------------------------
  // Commits
  // ------------------------------------------------------------------

  // Nobody commits a bump or an event for a preparation under a promoter that has checked it.
  lemma {:induction false} NothingPending(s: State, t: Tx, o: Tx, sub: Subject)
    requires Inv(s) && t in s.txs && o in s.txs && t != o && s.txs[t].Writer?
    requires s.txs[o].Operator? && s.txs[o].verified && s.txs[o].plan.Promote? && sub.0 == s.txs[o].plan.p && sub in s.clocks
    ensures s.txs[t].bumps[sub] == 0 && s.txs[t].events[sub] == 0
  {
    hide Owing, PcSound, Permitted, Idle, Modest;
    var w, v := s.txs[t], s.txs[o];
    assert Backed(w, sub);
    assert Registry(sub.0) in Needs(s, v.plan) && Clock(sub) in Needs(s, v.plan);
    assert Holds(v, Registry(sub.0)) && Holds(v, Clock(sub));
  }

  lemma {:induction false} VerifiedSurvivesWriter(s: State, t: Tx, o: Tx)
    requires Inv(s) && Enabled(s, CommitWriter(t)) && o in s.txs && o != t && s.txs[o].Operator?
    ensures Sound(Next(s, CommitWriter(t)), s.txs[o])
  {
    hide Compatible, Ignored, Mutating, Reaches, Owners, Free, Owing, Backed, PcSound, Idle, Modest, Fenced;
    var s', w, v := Next(s, CommitWriter(t)), s.txs[t], s.txs[o];
    assert Sound(s, v);
    if v.verified {
      assert s'.clocks.Keys == s.clocks.Keys;
      assert Needs(s', v.plan) == Needs(s, v.plan);
      if v.plan.Promote? {
        forall sub | sub in s.clocks && sub.0 == v.plan.p
          ensures s'.clocks[sub].through == s.clocks[sub].through && Effective(s', sub) == Effective(s, sub)
        {
          NothingPending(s, t, o, sub);
        }
        assert Audit(s', v.plan.p).revisions == Audit(s, v.plan.p).revisions;
      }
    }
  }

  lemma {:induction false} CommitWriterKeeps(s: State, t: Tx)
    requires Inv(s) && Enabled(s, CommitWriter(t))
    ensures Inv(Next(s, CommitWriter(t)))
  {
    var s', w := Next(s, CommitWriter(t)), s.txs[t];
    forall o | o in s'.txs ensures Sound(s', s'.txs[o]) {
      if s.txs[o].Writer? {
        SoundWriterMoves(s, s', s.txs[o]);
      } else {
        VerifiedSurvivesWriter(s, t, o);
      }
    }
    forall sub: Subject | s'.events[sub] > 0 ensures sub in s'.clocks {
      assert Owing(s, w, sub);
    }
  }

  // While an operator holds the fence no writer is past it.
  lemma {:induction false} FencedOut(s: State, t: Tx, o: Tx)
    requires Inv(s) && t in s.txs && o in s.txs && t != o && s.txs[o].Writer? && Holds(s.txs[t], Fence)
    ensures Idle(s.txs[o]) && Modest(s.txs[o])
  {
  }

  lemma {:induction false} IdleSound(s: State, w: Work)
    requires w.Writer? && Idle(w) && Modest(w)
    ensures Sound(s, w)
  {
  }

  lemma {:induction false} WriterSurvivesOperator(s: State, t: Tx, o: Tx)
    requires Inv(s) && Enabled(s, CommitOperator(t)) && o in s.txs && o != t && s.txs[o].Writer?
    ensures Sound(Next(s, CommitOperator(t)), s.txs[o])
  {
    hide Sound, Compatible, Permitted, Audit;
    var s', plan := Next(s, CommitOperator(t)), s.txs[t].plan;
    assert Sound(s, s.txs[t]) && Sound(s, s.txs[o]);
    if plan.Create? || plan.Extend? {
      VerifiedHolds(s, t, Fence);
      FencedOut(s, t, o);
      IdleSound(s', s.txs[o]);
    } else {
      SoundWriterMoves(s, s', s.txs[o]);
    }
  }

  lemma {:induction false} VerifiedHolds(s: State, t: Tx, r: Resource)
    requires Inv(s) && t in s.txs && s.txs[t].Operator? && s.txs[t].verified && r in Needs(s, s.txs[t].plan)
    ensures Holds(s.txs[t], r)
  {
    assert Sound(s, s.txs[t]);
  }

  // Two operators never both stand ready on the same preparation, nor two of them on the activation lock.
  lemma {:induction false} OneAtATime(s: State, t: Tx, o: Tx)
    requires Inv(s) && t in s.txs && o in s.txs && o != t
    requires s.txs[t].Operator? && s.txs[t].verified && s.txs[o].Operator? && s.txs[o].verified
    ensures Needs(s, s.txs[t].plan) !! Needs(s, s.txs[o].plan)
  {
    if !(Needs(s, s.txs[t].plan) !! Needs(s, s.txs[o].plan)) {
      var r :| r in Needs(s, s.txs[t].plan) && r in Needs(s, s.txs[o].plan);
      VerifiedHolds(s, t, r);
      VerifiedHolds(s, o, r);
      assert Clash(Lock(r, Exclusive), Lock(r, Exclusive));
      assert false;
    }
  }

  lemma {:induction false} EnrolledElsewhere(clocks: map<Subject, ClockRow>, p: Prep, targets: map<User, nat>, sub: Subject)
    ensures sub in clocks ==> sub in Enrolled(clocks, p, targets)
    ensures sub in Enrolled(clocks, p, targets) && sub.0 != p ==> sub in clocks && Enrolled(clocks, p, targets)[sub] == clocks[sub]
    ensures sub in Enrolled(clocks, p, targets) ==> sub in clocks || sub.0 == p
  {
  }

  // Enrolling subjects of one preparation leaves the plans for another alone.
  lemma {:induction false} PlanElsewhere(s: State, s': State, p: Prep, plan: Plan)
    requires plan.p != p && p in s.preps && p in s'.preps && Permitted(s, plan)
    requires forall q | q != p :: (q in s.preps <==> q in s'.preps) && (q in s.preps ==> s'.preps[q] == s.preps[q])
    requires forall sub: Subject | sub.0 != p :: (sub in s.clocks <==> sub in s'.clocks) && (sub in s.clocks ==> s'.clocks[sub] == s.clocks[sub])
    requires s'.events == s.events
    requires !plan.Create? && (plan.Extend? || s'.preps[p].stage == Building)
    ensures Permitted(s', plan) && Needs(s', plan) == Needs(s, plan)
  {
    if plan.Promote? {
      assert forall sub | sub in s.clocks && sub.0 == plan.p :: Effective(s', sub) == Effective(s, sub);
      assert Audit(s', plan.p).revisions == Audit(s, plan.p).revisions;
    }
  }

  lemma {:induction false} OperatorSurvivesOperator(s: State, t: Tx, o: Tx)
    requires Inv(s) && Enabled(s, CommitOperator(t)) && o in s.txs && o != t && s.txs[o].Operator?
    ensures Sound(Next(s, CommitOperator(t)), s.txs[o])
  {
    hide Compatible, Permitted, Audit, Needs, Enrolled;
    assert Sound(s, s.txs[t]) && Sound(s, s.txs[o]);
    if s.txs[o].verified {
      OneAtATime(s, t, o);
      PlansApart(s, s.txs[t].plan, s.txs[o].plan);
      PlanSame(Executed(s, s.txs[t].plan), Executed(s, s.txs[t].plan).(txs := s.txs - {t}), s.txs[o].plan);
    }
  }

  lemma {:induction false} PlansApart(s: State, mine: Plan, yours: Plan)
    requires Needs(s, mine) !! Needs(s, yours) && Permitted(s, mine) && Permitted(s, yours)
    ensures Permitted(Executed(s, mine), yours) && Needs(Executed(s, mine), yours) == Needs(s, yours)
  {
    hide Audit, Enrolled;
    assert Fence in Needs(s, mine) || Activation in Needs(s, mine);
    var s' := Executed(s, mine);
    if mine.Extend? {
      assert Registry(mine.p) in Needs(s, mine) && Fence in Needs(s, mine);
      assert !yours.Extend? && !yours.Create?;
      forall sub: Subject {
        EnrolledElsewhere(s.clocks, mine.p, mine.targets, sub);
      }
      PlanElsewhere(s, s', mine.p, yours);
    } else {
      assert Activation in Needs(s, mine);
      assert yours.Extend? && Registry(yours.p) in Needs(s, yours);
      assert !mine.Create?;
      PlanElsewhere(s, s', mine.p, yours);
    }
  }

  lemma {:induction false} CommitOperatorKeeps(s: State, t: Tx)
    requires Inv(s) && Enabled(s, CommitOperator(t))
    ensures Inv(Next(s, CommitOperator(t)))
  {
    hide Sound;
    var s' := Next(s, CommitOperator(t));
    forall o | o in s'.txs ensures Sound(s', s'.txs[o]) {
      if s.txs[o].Writer? {
        WriterSurvivesOperator(s, t, o);
      } else {
        OperatorSurvivesOperator(s, t, o);
      }
    }
  }

  lemma {:induction false} RollbackKeeps(s: State, t: Tx)
    requires Inv(s) && t in s.txs
    ensures Inv(Next(s, Rollback(t)))
  {
    hide Sound;
    var s' := Next(s, Rollback(t));
    forall o | o in s'.txs ensures Sound(s', s'.txs[o]) {
      SoundSame(s, s', s'.txs[o]);
    }
  }

  // Every action of every interleaving keeps the invariant.
  lemma {:induction false} InvKept(s: State, a: Action)
    requires Inv(s) && Enabled(s, a)
    ensures Inv(Next(s, a))
  {
    hide Inv, Next, Enabled;
    if a.CommitWriter? {
      CommitWriterKeeps(s, a.t);
    } else if a.CommitOperator? {
      CommitOperatorKeeps(s, a.t);
    } else if a.Rollback? {
      assert a.t in s.txs by { RollbackNeeds(s, a); }
      RollbackKeeps(s, a.t);
    } else {
      PrivateStep(s, a);
      PutKeeps(s, a.t, Next(s, a).txs[a.t]);
    }
  }

  lemma {:induction false} RollbackNeeds(s: State, a: Action)
    requires Enabled(s, a) && a.Rollback?
    ensures a.t in s.txs
  {
  }

  // ------------------------------------------------------------------
  // The revision counts exactly the committed changes
  // ------------------------------------------------------------------

  // What one action does to a registered subject of a preparation that is open before it.
  ghost predicate Counted(s: State, s': State, sub: Subject)
    requires sub in s.clocks && sub.0 in s.preps
  {
    sub in s'.clocks && sub.0 in s'.preps && s.log <= s'.log
    && s'.preps[sub.0].version >= s.preps[sub.0].version
    && (s'.preps[sub.0].version == s.preps[sub.0].version ==>
          s'.clocks[sub].through == s.clocks[sub].through
          && Effective(s', sub) == Effective(s, sub) + CountOf(s'.log[|s.log|..], sub, s.clocks[sub].through))
  }

  lemma {:induction false} CommitCounted(s: State, t: Tx, sub: Subject)
    requires Inv(s) && Enabled(s, CommitWriter(t)) && sub in s.clocks && IsOpen(s, sub.0)
    ensures Counted(s, Next(s, CommitWriter(t)), sub)
  {
    hide Counts, CountOf;
    var w, s' := s.txs[t], Next(s, CommitWriter(t));
    assert Owing(s, w, sub);
    assert s'.log[|s.log|..] == w.done;
  }

  lemma {:induction false} OperatorCounted(s: State, t: Tx, sub: Subject)
    requires Inv(s) && Enabled(s, CommitOperator(t)) && sub in s.clocks && IsOpen(s, sub.0)
    ensures Counted(s, Next(s, CommitOperator(t)), sub)
  {
    hide Counts, Compatible, Needs, Audit;
    var plan := s.txs[t].plan;
    assert Sound(s, s.txs[t]);
    if plan.Create? || plan.Extend? {
      EnrolledElsewhere(s.clocks, plan.p, plan.targets, sub);
    }
    assert s.log[|s.log|..] == [];
  }

  lemma {:induction false} StepCounted(s: State, a: Action, sub: Subject)
    requires Inv(s) && Enabled(s, a) && sub in s.clocks && IsOpen(s, sub.0)
    ensures Counted(s, Next(s, a), sub)
  {
    hide Inv, Counts;
    if a.CommitWriter? {
      CommitCounted(s, a.t, sub);
    } else if a.CommitOperator? {
      OperatorCounted(s, a.t, sub);
    } else {
      assert s.log[|s.log|..] == [];
    }
  }

  ghost predicate Runs(s: State, run: seq<Action>, s': State)
    decreases |run|
  {
    if run == [] then s' == s else Enabled(s, run[0]) && Runs(Next(s, run[0]), run[1..], s')
  }

  lemma {:induction false} RunInv(s: State, run: seq<Action>, s': State)
    requires Inv(s) && Runs(s, run, s')
    ensures Inv(s')
    decreases |run|
  {
    hide Inv, Enabled, Next;
    if run != [] {
      InvKept(s, run[0]);
      RunInv(Next(s, run[0]), run[1..], s');
    }
  }

  lemma {:induction false} PlanReopensNone(s: State, plan: Plan, p: Prep)
    requires Permitted(s, plan) && p in s.preps
    ensures p in Executed(s, plan).preps && (IsOpen(Executed(s, plan), p) ==> IsOpen(s, p))
  {
    hide Audit, Enrolled;
  }

  // A closed preparation never opens again.
  lemma {:induction false} ClosedStays(s: State, a: Action, p: Prep)
    requires Inv(s) && Enabled(s, a) && p in s.preps
    ensures p in Next(s, a).preps && (IsOpen(Next(s, a), p) ==> IsOpen(s, p))
  {
    hide Inv, Permitted, Needs, Tick, Fall, Free, Bumped, Executed;
    if a.CommitOperator? {
      ReadyIsPermitted(s, a.t);
      PlanReopensNone(s, s.txs[a.t].plan, p);
    }
  }

  lemma {:induction false} ReadyIsPermitted(s: State, t: Tx)
    requires Inv(s) && Enabled(s, CommitOperator(t))
    ensures Permitted(s, s.txs[t].plan)
  {
    assert Sound(s, s.txs[t]);
  }

  lemma {:induction false} OpenThroughout(s: State, run: seq<Action>, s': State, p: Prep)
    requires Inv(s) && Runs(s, run, s') && p in s.preps
    ensures p in s'.preps && (IsOpen(s', p) ==> IsOpen(s, p))
    decreases |run|
  {
    hide Inv, Enabled, Next;
    if run != [] {
      InvKept(s, run[0]);
      ClosedStays(s, run[0], p);
      OpenThroughout(Next(s, run[0]), run[1..], s', p);
    }
  }

  // Over any run that leaves the preparation open: unless it is extended, its effective
  // revision rises by exactly the number of committed changes that concern the subject.
  lemma {:induction false} RunCounted(s: State, run: seq<Action>, s': State, sub: Subject)
    requires Inv(s) && Runs(s, run, s') && sub in s.clocks && sub.0 in s.preps && sub.0 in s'.preps && IsOpen(s', sub.0)
    ensures Counted(s, s', sub)
    decreases |run|
  {
    hide Inv, Enabled, Next, Counts;
    if run == [] {
      assert s'.log[|s.log|..] == [];
    } else {
      var m := Next(s, run[0]);
      InvKept(s, run[0]);
      OpenThroughout(s, run, s', sub.0);
      StepCounted(s, run[0], sub);
      RunCounted(m, run[1..], s', sub);
      var a, b := m.log[|s.log|..], s'.log[|m.log|..];
      assert s'.log[|s.log|..] == a + b;
      CountAppend(a, b, sub, s.clocks[sub].through);
    }
  }

  // ------------------------------------------------------------------
  // Promotion
  // ------------------------------------------------------------------

  // A promotion commits only with the audited token, and its check still holds when it commits.
  lemma {:induction false} PromotesWhatWasAudited(s: State, t: Tx)
    requires Inv(s) && Enabled(s, CommitOperator(t)) && s.txs[t].plan.Promote?
    ensures var plan := s.txs[t].plan; IsOpen(s, plan.p) && Audit(s, plan.p) == plan.token
  {
    assert Sound(s, s.txs[t]);
  }

  // What the token says of one subject, read in this state: a token may be refreshed subject by
  // subject, each from a snapshot of its own, as long as the registry row keeps its version.
  ghost predicate ReadFor(s: State, sub: Subject, token: Token) {
    sub in s.clocks && sub.0 in s.preps && token.version == s.preps[sub.0].version
    && sub.1 in token.revisions && token.revisions[sub.1] == (s.clocks[sub].through, Effective(s, sub))
  }

  // If a preparation is promoted on a token that was read for a subject earlier in the run, no change
  // committed in between concerned the subject, and its boundary is the one read.
  lemma {:induction false} PromotionSafe(s: State, run: seq<Action>, s': State, t: Tx, sub: Subject)
    requires Inv(s) && Runs(s, run, s') && Enabled(s', CommitOperator(t)) && s'.txs[t].plan.Promote?
    requires sub.0 == s'.txs[t].plan.p && ReadFor(s, sub, s'.txs[t].plan.token)
    ensures s.log <= s'.log && sub in s'.clocks && s'.clocks[sub].through == s.clocks[sub].through
    ensures forall i | |s.log| <= i < |s'.log| :: !Counts(s'.log[i], sub, s.clocks[sub].through)
  {
    var token := s'.txs[t].plan.token;
    hide Inv, Enabled, Next, Counts, Runs;
    RunInv(s, run, s');
    PromotesWhatWasAudited(s', t);
    RunCounted(s, run, s', sub);
    ReadTwice(s, s', sub, token);
    var through := s.clocks[sub].through;
    CountZero(s'.log[|s.log|..], sub, through);
    forall i | |s.log| <= i < |s'.log| ensures !Counts(s'.log[i], sub, through) {
      assert s'.log[i] == s'.log[|s.log|..][i - |s.log|];
    }
  }

  lemma {:induction false} ReadTwice(s: State, s': State, sub: Subject, token: Token)
    requires ReadFor(s, sub, token) && sub in s'.clocks && sub.0 in s'.preps && Audit(s', sub.0) == token
    ensures s.preps[sub.0].version == s'.preps[sub.0].version && Effective(s', sub) == Effective(s, sub)
  {
    AuditHas(s', sub);
  }

  lemma {:induction false} AuditHas(s: State, sub: Subject)
    requires sub.0 in s.preps
    ensures sub in s.clocks <==> sub.1 in Audit(s, sub.0).revisions
    ensures sub in s.clocks ==> Audit(s, sub.0).revisions[sub.1] == (s.clocks[sub].through, Effective(s, sub))
  {
    assert sub == (sub.0, sub.1);
  }

  // And the subjects promoted are the token's, no more and no fewer.
  lemma {:induction false} PromotesTheTokensSubjects(s: State, t: Tx, sub: Subject)
    requires Inv(s) && Enabled(s, CommitOperator(t)) && s.txs[t].plan.Promote? && sub.0 == s.txs[t].plan.p
    ensures sub in s.clocks <==> sub.1 in s.txs[t].plan.token.revisions
  {
    hide Inv, Enabled;
    PromotesWhatWasAudited(s, t);
    AuditHas(s, sub);
  }

  // A whole audit is read for all its subjects at once.
  lemma {:induction false} AuditReads(s: State, p: Prep, sub: Subject)
    requires p in s.preps && sub in s.clocks && sub.0 == p
    ensures ReadFor(s, sub, Audit(s, p))
  {
    AuditHas(s, sub);
  }

  ghost predicate Undisturbed(s: State, s': State, sub: Subject) {
    (sub in s.clocks <==> sub in s'.clocks)
    && (sub in s.clocks ==>
          s'.clocks[sub].through == s.clocks[sub].through
          && s.log <= s'.log && forall i | |s.log| <= i < |s'.log| :: !Counts(s'.log[i], sub, s.clocks[sub].through))
  }

  // Promotion on the token of one whole audit: the preparation has the audited subjects still, with the
  // audited boundaries, and no change committed in between concerned any of them.
  lemma {:induction false} PromotionOfOneAudit(s: State, run: seq<Action>, s': State, t: Tx, sub: Subject)
    requires Inv(s) && Runs(s, run, s') && Enabled(s', CommitOperator(t)) && s'.txs[t].plan.Promote?
    requires sub.0 == s'.txs[t].plan.p && sub.0 in s.preps && s'.txs[t].plan.token == Audit(s, sub.0)
    ensures Undisturbed(s, s', sub)
  {
    hide Inv, Enabled, Next, Counts, Runs, Audit;
    RunInv(s, run, s');
    AuditHas(s, sub);
    PromotesTheTokensSubjects(s', t, sub);
    if sub in s.clocks {
      AuditReads(s, sub.0, sub);
      PromotionSafe(s, run, s', t, sub);
    }
  }

  // ------------------------------------------------------------------
  // What an operator's commit leaves behind
  // ------------------------------------------------------------------

  // Only this preparation has changed, and nobody's boundaries, revisions or events.
  ghost predicate OnlyStage(s: State, s': State, p: Prep, stage: Stage) {
    p in s.preps && s'.preps.Keys == s.preps.Keys && s'.preps[p].stage == stage && s'.preps[p].version == s.preps[p].version + 1
    && (forall q | q in s.preps && q != p :: s'.preps[q] == s.preps[q])
    && s'.clocks == s.clocks && s'.events == s.events && s'.log == s.log
  }

  // A promotion makes its preparation the active one, and the only one; it was open until then.
  lemma {:induction false} CommitPromotes(s: State, t: Tx)
    requires Inv(s) && Enabled(s, CommitOperator(t)) && s.txs[t].plan.Promote?
    ensures var s', p := Next(s, CommitOperator(t)), s.txs[t].plan.p;
            IsOpen(s, p) && OnlyStage(s, s', p, Active) && s'.txs == s.txs - {t}
            && forall q | q in s'.preps :: s'.preps[q].stage == Active <==> q == p
  {
    hide Audit, Needs, Inv, Compatible;
    ReadyIsPermitted(s, t);
  }

  // An abort leaves its preparation aborted; an active one cannot be aborted.
  lemma {:induction false} CommitAborts(s: State, t: Tx)
    requires Inv(s) && Enabled(s, CommitOperator(t)) && s.txs[t].plan.Abort?
    ensures var s', p := Next(s, CommitOperator(t)), s.txs[t].plan.p;
            p in s.preps && s.preps[p].stage != Active && OnlyStage(s, s', p, Aborted) && s'.txs == s.txs - {t}
  {
    hide Audit, Needs, Inv, Compatible;
    ReadyIsPermitted(s, t);
  }

  // A new preparation is being built, has exactly its targets as subjects, counted from zero, and is the only
  // one not aborted.
  lemma {:induction false} CommitCreates(s: State, t: Tx)
    requires Inv(s) && Enabled(s, CommitOperator(t)) && s.txs[t].plan.Create?
    ensures var s', plan := Next(s, CommitOperator(t)), s.txs[t].plan;
            s'.preps.Keys == s.preps.Keys + {plan.p} && plan.p !in s.preps && s'.preps[plan.p] == Preparation(Building, 0)
            && (forall q | q in s.preps :: s.preps[q].stage == Aborted && s'.preps[q] == s.preps[q])
            && (forall u | u in plan.targets :: (plan.p, u) in s'.clocks && s'.clocks[(plan.p, u)].through == plan.targets[u]
                                                && Effective(s', (plan.p, u)) == 0)
            && (forall sub: Subject | sub.0 == plan.p :: sub in s'.clocks <==> sub.1 in plan.targets)
            && (forall sub: Subject | sub.0 != plan.p :: sub in s'.clocks <==> sub in s.clocks)
            && (forall sub: Subject | sub in s.clocks :: s'.clocks[sub] == s.clocks[sub])
            && s'.events == s.events && s'.log == s.log
  {
    hide Audit, Needs, Compatible, Sound;
    ReadyIsPermitted(s, t);
    var s', plan := Next(s, CommitOperator(t)), s.txs[t].plan;
    forall u | u in plan.targets
      ensures (plan.p, u) in s'.clocks && s'.clocks[(plan.p, u)] == ClockRow(plan.targets[u], 0) && s.events[(plan.p, u)] == 0
    {
      assert (plan.p, u) !in s.clocks;
    }
  }

  lemma {:induction false} EnrolledSubject(clocks: map<Subject, ClockRow>, p: Prep, targets: map<User, nat>, sub: Subject)
    ensures sub in Enrolled(clocks, p, targets) <==> sub in clocks || (sub.0 == p && sub.1 in targets)
    ensures sub in clocks && !(sub.0 == p && sub.1 in targets) ==> Enrolled(clocks, p, targets)[sub] == clocks[sub]
    ensures sub.0 == p && sub.1 in targets ==>
              Enrolled(clocks, p, targets)[sub].through == targets[sub.1]
              && Enrolled(clocks, p, targets)[sub].revision
                 == if sub !in clocks then 0 else clocks[sub].revision + if clocks[sub].through == targets[sub.1] then 0 else 1
  {
    assert sub == (sub.0, sub.1);
  }

  // An extension sends an open preparation back to building under a new version, so that no audit from
  // before is good any more; it registers its targets, raises the revision of exactly the subjects whose
  // boundary it moves, and leaves all others alone.
  lemma {:induction false} CommitExtends(s: State, t: Tx, sub: Subject)
    requires Inv(s) && Enabled(s, CommitOperator(t)) && s.txs[t].plan.Extend?
    ensures var s', plan := Next(s, CommitOperator(t)), s.txs[t].plan;
            IsOpen(s, plan.p) && s'.preps == s.preps[plan.p := Preparation(Building, s.preps[plan.p].version + 1)]
            && s'.events == s.events && s'.log == s.log
            && (if sub.0 == plan.p && sub.1 in plan.targets then
                  sub in s'.clocks && s'.clocks[sub].through == plan.targets[sub.1]
                  && Effective(s', sub) == if sub !in s.clocks then 0
                                           else Effective(s, sub) + if s.clocks[sub].through == plan.targets[sub.1] then 0 else 1
                else (sub in s'.clocks <==> sub in s.clocks) && (sub in s.clocks ==> s'.clocks[sub] == s.clocks[sub]))
  {
    hide Inv, Needs, Audit, Enrolled;
    var plan := s.txs[t].plan;
    ReadyIsPermitted(s, t);
    NoEventsUnknown(s, sub);
    EnrolledSubject(s.clocks, plan.p, plan.targets, sub);
  }

  lemma {:induction false} NoEventsUnknown(s: State, sub: Subject)
    requires Inv(s)
    ensures sub !in s.clocks ==> s.events[sub] == 0
  {
    hide Sound, Compatible;
  }

  ghost predicate OneActive(s: State) {
    forall p, q | p in s.preps && q in s.preps && s.preps[p].stage == Active && s.preps[q].stage == Active :: p == q
  }

  lemma {:induction false} StagePlan(s: State, plan: Plan)
    requires Permitted(s, plan) && OneActive(s)
    ensures OneActive(Executed(s, plan))
    ensures forall p | p in s.preps && s.preps[p].stage == Active :: p in Executed(s, plan).preps && Executed(s, plan).preps[p].stage == Active
  {
    hide Audit, Enrolled;
  }

  lemma {:induction false} StageStep(s: State, a: Action)
    requires Inv(s) && Enabled(s, a) && OneActive(s)
    ensures OneActive(Next(s, a))
    ensures forall p | p in s.preps && s.preps[p].stage == Active :: p in Next(s, a).preps && Next(s, a).preps[p].stage == Active
  {
    hide Inv, Needs, Tick, Fall, Free, Bumped, Permitted, Executed;
    if a.CommitOperator? {
      ReadyIsPermitted(s, a.t);
      StagePlan(s, s.txs[a.t].plan);
    }
  }

  // Over every run at most one preparation is active, and an active one stays so.
  lemma {:induction false} ActiveStays(s: State, run: seq<Action>, s': State)
    requires Inv(s) && OneActive(s) && Runs(s, run, s')
    ensures OneActive(s')
    ensures forall p | p in s.preps && s.preps[p].stage == Active :: p in s'.preps && s'.preps[p].stage == Active
    decreases |run|
  {
    hide Inv, Enabled, Next, OneActive;
    if run != [] {
      InvKept(s, run[0]);
      StageStep(s, run[0]);
      ActiveStays(Next(s, run[0]), run[1..], s');
    }
  }

  lemma {:induction false} OneActiveEver(run: seq<Action>, s: State)
    requires Runs(Start, run, s)
    ensures OneActive(s)
  {
    StartInv();
    ActiveStays(Start, run, s);
  }

  // ------------------------------------------------------------------
  // Users a preparation does not know
  // ------------------------------------------------------------------

  ghost predicate HoldsRow(s: State, t: Tx, p: Prep) {
    AtPc(s, t) && (Lock(Registry(p), KeyShare) in s.txs[t].locks || Lock(Registry(p), Share) in s.txs[t].locks)
  }

  // Neither its row nor its subjects and their boundaries.
  ghost predicate RowUnchanged(s: State, s': State, p: Prep) {
    p in s.preps && p in s'.preps && s'.preps[p] == s.preps[p]
    && forall sub: Subject | sub.0 == p :: (sub in s'.clocks <==> sub in s.clocks)
                                           && (sub in s.clocks ==> s'.clocks[sub].through == s.clocks[sub].through)
  }

  lemma {:induction false} RowNotTaken(s: State, t: Tx, p: Prep, o: Tx)
    requires Inv(s) && HoldsRow(s, t, p) && p in s.preps && Enabled(s, CommitOperator(o))
    ensures s.txs[o].plan.p != p
  {
    hide Audit;
    ReadyIsPermitted(s, o);
    if s.txs[o].plan.p == p {
      assert !s.txs[o].plan.Create? && Registry(p) in Needs(s, s.txs[o].plan);
      VerifiedHolds(s, o, Registry(p));
      assert false;
    }
  }

  lemma {:induction false} CommitElsewhere(s: State, o: Tx, p: Prep)
    requires Enabled(s, CommitOperator(o)) && s.txs[o].plan.p != p && p in s.preps
    ensures RowUnchanged(s, Next(s, CommitOperator(o)), p)
  {
    hide Enrolled;
    var plan, s' := s.txs[o].plan, Next(s, CommitOperator(o));
    forall sub: Subject | sub.0 == p
      ensures (sub in s'.clocks <==> sub in s.clocks) && (sub in s.clocks ==> s'.clocks[sub].through == s.clocks[sub].through)
    {
      if plan.Create? || plan.Extend? {
        EnrolledElsewhere(s.clocks, plan.p, plan.targets, sub);
      }
    }
  }

  lemma {:induction false} LocksStay(s: State, a: Action, t: Tx, p: Prep)
    requires Enabled(s, a) && HoldsRow(s, t, p) && a != CommitWriter(t) && a != Rollback(t) && !a.CommitOperator?
    ensures HoldsRow(Next(s, a), t, p)
  {
    hide Ignored, Mutating, Reaches, Owners, Free, Permitted, Needs, Bumped;
  }

  lemma {:induction false} RowsStay(s: State, a: Action, p: Prep)
    requires Enabled(s, a) && p in s.preps && !a.CommitOperator?
    ensures RowUnchanged(s, Next(s, a), p)
  {
    hide Free, Tick, Fall, Permitted, Needs, Ignored, Reaches, Owners;
  }

  lemma {:induction false} RowStep(s: State, a: Action, t: Tx, p: Prep)
    requires Inv(s) && Enabled(s, a) && HoldsRow(s, t, p) && p in s.preps && a != CommitWriter(t) && a != Rollback(t)
    ensures HoldsRow(Next(s, a), t, p) && RowUnchanged(s, Next(s, a), p)
  {
    hide Inv, Free, Tick, Fall, Permitted, Needs, Bumped, Enrolled, RowUnchanged;
    if a.CommitOperator? {
      RowNotTaken(s, t, p, a.t);
      CommitElsewhere(s, a.t, p);
    } else {
      LocksStay(s, a, t, p);
      RowsStay(s, a, p);
    }
  }

  // While a writer holds a preparation's row, no operator changes it, whatever else runs: it is not promoted,
  // aborted or extended before the writer's transaction has ended.
  lemma {:induction false} HeldRowStays(s: State, run: seq<Action>, s': State, t: Tx, p: Prep)
    requires Inv(s) && Runs(s, run, s') && HoldsRow(s, t, p) && p in s.preps
    requires forall a | a in run :: a != CommitWriter(t) && a != Rollback(t)
    ensures HoldsRow(s', t, p) && RowUnchanged(s, s', p)
    decreases |run|
  {
    hide Inv, Enabled, Next, HoldsRow;
    if run != [] {
      assert run[0] in run;
      InvKept(s, run[0]);
      RowStep(s, run[0], t, p);
      assert forall a | a in run[1..] :: a in run;
      HeldRowStays(Next(s, run[0]), run[1..], s', t, p);
    }
  }

  // So a transaction that reads a preparation's row FOR SHARE finds it as it read it until it ends.
  lemma {:induction false} SharedRowStays(s: State, t: Tx, run: seq<Action>, s': State)
    requires Inv(s) && Enabled(s, GetShare(t)) && s.txs[t].pc.p in s.preps && Runs(Next(s, GetShare(t)), run, s')
    requires forall a | a in run :: a != CommitWriter(t) && a != Rollback(t)
    ensures RowUnchanged(s, s', s.txs[t].pc.p)
  {
    hide Inv, Runs, RowUnchanged, Free;
    var p := s.txs[t].pc.p;
    InvKept(s, GetShare(t));
    assert HoldsRow(Next(s, GetShare(t)), t, p);
    HeldRowStays(Next(s, GetShare(t)), run, s', t, p);
    RowsStay(s, GetShare(t), p);
    UnchangedTwice(s, Next(s, GetShare(t)), s', p);
  }

  lemma {:induction false} UnchangedTwice(a: State, b: State, c: State, p: Prep)
    requires RowUnchanged(a, b, p) && RowUnchanged(b, c, p)
    ensures RowUnchanged(a, c, p)
  {
  }

  // The writer's change reaches an open preparation that does not know the owner it is handling.
  ghost predicate Unknown(s: State, t: Tx, u: User, p: Prep) {
    AtPc(s, t) && s.txs[t].pc.Looping? && IsOpen(s, p) && (p, u) !in s.clocks
    && !Ignored(s.txs[t].pc.ch) && Reaches(s.txs[t].pc.ch, p, u)
  }

  ghost predicate JoinsOrHolds(s: State, t: Tx, p: Prep) {
    AtPc(s, t) && s.txs[t].pc.Joining? && (p in s.txs[t].pc.joins || HoldsRow(s, t, p))
  }

  lemma {:induction false} JoinStep(s: State, a: Action, t: Tx, p: Prep)
    requires Enabled(s, a) && JoinsOrHolds(s, t, p) && a != CommitWriter(t) && a != Rollback(t) && a != Scan(t)
    ensures JoinsOrHolds(Next(s, a), t, p)
  {
    hide Ignored, Mutating, Reaches, Owners, Free, Permitted, Needs, Bumped, Tick, Fall, Executed;
  }

  lemma {:induction false} JoinRun(s: State, run: seq<Action>, s': State, t: Tx, p: Prep)
    requires Runs(s, run, s') && JoinsOrHolds(s, t, p)
    requires forall a | a in run :: a != CommitWriter(t) && a != Rollback(t) && a != Scan(t)
    ensures JoinsOrHolds(s', t, p)
    decreases |run|
  {
    hide Enabled, Next, JoinsOrHolds;
    if run != [] {
      assert run[0] in run;
      JoinStep(s, run[0], t, p);
      assert forall a | a in run[1..] :: a in run;
      JoinRun(Next(s, run[0]), run[1..], s', t, p);
    }
  }

  // Before a writer looks for clocks to tick for an owner, it holds the row of every open preparation its
  // change reaches that does not know the owner.
  lemma {:induction false} UnknownJoined(s: State, run: seq<Action>, s': State, t: Tx, u: User, p: Prep)
    requires Enabled(s, NextOwner(t, u)) && Unknown(s, t, u, p) && Runs(Next(s, NextOwner(t, u)), run, s')
    requires forall a | a in run :: a != CommitWriter(t) && a != Rollback(t) && a != Scan(t)
    requires Enabled(s', Scan(t))
    ensures HoldsRow(s', t, p)
  {
    hide Runs, Reaches, Ignored, Owners;
    JoinRun(Next(s, NextOwner(t, u)), run, s', t, p);
  }

  // ------------------------------------------------------------------
  // What the audit saw is what is promoted
  // ------------------------------------------------------------------

  // The part of a source row that an audit of the subject up to `through` depends on.
  function Seen(row: Row, sub: Subject, through: nat): Option<Row> {
    if Owner(row) != Some(sub.1) then None
    else match row
      case Profile(id, l, z, _) => Some(Profile(id, l, z, ""))
      case ChatContext(u, g, _) => Some(ChatContext(u, g, ""))
      case Pipeline(u, m, b, e, r, _, _, _) => Some(Pipeline(u, m, b, e, r, None, None, None))
      case Barrier(u, st, e, _) => Some(Barrier(u, st, e, ""))
      case Message(_, number, _) => if number <= through then Some(row) else None
      case Artifact(_, prep, _) => if prep == Some(sub.0) then Some(row) else None
      case Derived(_, _) => Some(row)
  }

  predicate SameTable(a: Row, b: Row) {
    a.Profile? == b.Profile? && a.ChatContext? == b.ChatContext? && a.Pipeline? == b.Pipeline? && a.Barrier? == b.Barrier?
    && a.Message? == b.Message? && a.Artifact? == b.Artifact? && a.Derived? == b.Derived?
  }

  type Rows = map<nat, Row>

  predicate Applies(rows: Rows, ch: Change) {
    match ch
    case Insert(key, _) => key !in rows
    case Update(key, was, row) => key in rows && rows[key] == was && SameTable(was, row)
    case Delete(key, was) => key in rows && rows[key] == was
  }

  function Apply(rows: Rows, ch: Change): Rows {
    match ch
    case Insert(key, row) => rows[key := row]
    case Update(key, _, row) => rows[key := row]
    case Delete(key, _) => rows - {key}
  }

  function Replay(rows: Rows, changes: seq<Change>): Rows
    decreases |changes|
  {
    if changes == [] then rows else Replay(Apply(rows, changes[0]), changes[1..])
  }

  predicate AllApply(rows: Rows, changes: seq<Change>)
    decreases |changes|
  {
    changes == [] || (Applies(rows, changes[0]) && AllApply(Apply(rows, changes[0]), changes[1..]))
  }

  function Evidence(rows: Rows, sub: Subject, through: nat): map<nat, Row> {
    map key | key in rows && Seen(rows[key], sub, through).Some? :: Seen(rows[key], sub, through).value
  }

  lemma {:induction false} UncountedUnseen(rows: Rows, ch: Change, sub: Subject, through: nat)
    requires Applies(rows, ch) && !Counts(ch, sub, through)
    ensures Evidence(Apply(rows, ch), sub, through) == Evidence(rows, sub, through)
  {
    match ch
    case Insert(_, row) => assert row in Sides(ch);
    case Update(_, was, row) => assert was in Sides(ch) && row in Sides(ch);
    case Delete(_, was) => assert was in Sides(ch);
  }

  // A change counts for exactly the subjects whose audit sees one of its rows, unless the trigger ignores it:
  // a message behind the boundary, or an artifact of another preparation, does not count.
  lemma {:induction false} CountsExactly(ch: Change, sub: Subject, through: nat)
    requires ch.Update? ==> SameTable(ch.was, ch.row)
    ensures Counts(ch, sub, through) <==> !Ignored(ch) && exists row :: row in Sides(ch) && Seen(row, sub, through).Some?
  {
    match ch
    case Insert(_, row) => assert Sides(ch) == {row};
    case Update(_, was, row) => assert Sides(ch) == {was, row};
    case Delete(_, was) => assert Sides(ch) == {was};
  }

  // No cursor of the pipeline goes back.
  predicate CursorsForward(was: Row, row: Row)
    requires was.Pipeline? && row.Pipeline?
  {
    Cursor(row.source) >= Cursor(was.source) && Cursor(row.ingest) >= Cursor(was.ingest) && Cursor(row.consolidated) >= Cursor(was.consolidated)
  }

  // And it ignores an owner's update of profile, context, pipeline or barrier exactly when the audit sees no
  // difference and no cursor goes back.
  lemma {:induction false} IgnoredExactly(ch: Change, sub: Subject, through: nat)
    requires ch.Update? && SameTable(ch.was, ch.row) && Owner(ch.was) == Owner(ch.row) == Some(sub.1)
    requires ch.was.Profile? || ch.was.ChatContext? || ch.was.Pipeline? || ch.was.Barrier?
    ensures Ignored(ch) <==> Seen(ch.was, sub, through) == Seen(ch.row, sub, through)
                             && (ch.was.Pipeline? ==> CursorsForward(ch.was, ch.row))
  {
  }

  lemma {:induction false} UncountedReplay(rows: Rows, changes: seq<Change>, sub: Subject, through: nat)
    requires AllApply(rows, changes) && forall i | 0 <= i < |changes| :: !Counts(changes[i], sub, through)
    ensures Evidence(Replay(rows, changes), sub, through) == Evidence(rows, sub, through)
    decreases |changes|
  {
    if changes != [] {
      UncountedUnseen(rows, changes[0], sub, through);
      UncountedReplay(Apply(rows, changes[0]), changes[1..], sub, through);
    }
  }

  // The sources of every subject, as far as the audit depends on them, are at promotion what they were at the audit.
  lemma {:induction false} PromotionKeepsEvidence(s: State, run: seq<Action>, s': State, t: Tx, sub: Subject, rows: Rows)
    requires Inv(s) && Runs(s, run, s') && Enabled(s', CommitOperator(t)) && s'.txs[t].plan.Promote?
    requires sub.0 == s'.txs[t].plan.p && ReadFor(s, sub, s'.txs[t].plan.token)
    requires s.log <= s'.log && AllApply(rows, s'.log[|s.log|..])
    ensures Evidence(Replay(rows, s'.log[|s.log|..]), sub, s.clocks[sub].through) == Evidence(rows, sub, s.clocks[sub].through)
  {
    hide Inv, Enabled, Next, Counts, Runs, Evidence;
    PromotionSafe(s, run, s', t, sub);
    var changes := s'.log[|s.log|..];
    forall i | 0 <= i < |changes| ensures !Counts(changes[i], sub, s.clocks[sub].through) {
      assert changes[i] == s'.log[i + |s.log|];
    }
    UncountedReplay(rows, changes, sub, s.clocks[sub].through);
  }

  // ------------------------------------------------------------------
  // No deadlock
  // ------------------------------------------------------------------

  ghost predicate Waits(s: State, a: Tx, b: Tx) {
    a in s.txs && b in s.txs && a != b
    && exists l, k :: Wants(s.txs[a], l) && k in s.txs[b].locks && Clash(l, k)
  }

  // Whoever is waited for is an operator, and it waits for nobody: the wait-for graph has no path of two edges.
  lemma {:induction false} NoWaitChain(s: State, a: Tx, b: Tx, c: Tx)
    requires Inv(s) && Waits(s, a, b)
    ensures s.txs[b].Operator? && !Waits(s, b, c)
  {
    var l, k :| Wants(s.txs[a], l) && k in s.txs[b].locks && Clash(l, k);
    assert Sound(s, s.txs[b]);
  }

  // ------------------------------------------------------------------
  // A promotion that goes through
  // ------------------------------------------------------------------

  lemma {:induction false} OneStep(s: State, a: Action, run: seq<Action>, s': State)
    requires Enabled(s, a) && Runs(Next(s, a), run, s')
    ensures Runs(s, [a] + run, s')
  {
    hide Enabled, Next;
    assert ([a] + run)[1..] == run;
  }

  // A preparation with one subject, audited as it stands.
  const Example := State(map[7 := Preparation(Building, 0)], map[(7, 3) := ClockRow(10, 4)], multiset{(7, 3)}, map[], [])

  const ExampleToken := Token(0, map[3 := (10, 5)])

  lemma {:induction false} AuditOfOne()
    ensures Inv(Example) && Audit(Example, 7) == ExampleToken
  {
    var r := Audit(Example, 7).revisions;
    assert (7, 3) in Example.clocks && r[3] == (10, 5);
    assert forall u | u in r :: u == 3;
  }

  function Held(locks: set<Lock>, verified: bool): State {
    Example.(txs := map[0 := Operator(locks, Promote(7, ExampleToken), false, verified)])
  }

  const ExampleLocks: set<Lock> := {Lock(Activation, Exclusive), Lock(Registry(7), Exclusive), Lock(Clock((7, 3)), Exclusive)}

  // Nobody stands in the way of a lone operator.
  lemma {:induction false} Grabs(locks: set<Lock>, r: Resource, run: seq<Action>, s': State)
    requires Runs(Held(locks + {Lock(r, Exclusive)}, false), run, s')
    ensures Runs(Held(locks, false), [Grab(0, r)] + run, s')
  {
    hide Runs;
    assert Enabled(Held(locks, false), Grab(0, r));
    assert Next(Held(locks, false), Grab(0, r)).txs == Held(locks + {Lock(r, Exclusive)}, false).txs;
    OneStep(Held(locks, false), Grab(0, r), run, s');
  }

  lemma {:induction false} ExamplePermitted()
    ensures Permitted(Example, Promote(7, ExampleToken))
    ensures forall r | r in Needs(Example, Promote(7, ExampleToken)) :: Lock(r, Exclusive) in ExampleLocks
  {
    hide Audit;
    AuditOfOne();
  }

  lemma {:induction false} Verifies()
    ensures Enabled(Held(ExampleLocks, false), Verify(0)) && Next(Held(ExampleLocks, false), Verify(0)) == Held(ExampleLocks, true)
    ensures Enabled(Held(ExampleLocks, true), CommitOperator(0))
  {
    hide Audit, Permitted, Needs, ExampleLocks, ExampleToken;
    ExamplePermitted();
    PlanSame(Example, Held(ExampleLocks, false), Promote(7, ExampleToken));
  }

  lemma {:induction false} LocksOneByOne()
    ensures {} + {Lock(Activation, Exclusive)} + {Lock(Registry(7), Exclusive)} + {Lock(Clock((7, 3)), Exclusive)} == ExampleLocks
  {
  }

  // The promoter takes its locks, finds the audited revisions and commits: the preparation is active.
  lemma {:induction false} PromotionHappens() returns (run: seq<Action>, s': State)
    ensures Runs(Held({}, false), run, s') && s'.preps == map[7 := Preparation(Active, 1)] && s'.txs == map[]
    ensures s'.clocks == Example.clocks && s'.events == Example.events
    ensures Audit(Held({}, false), 7) == ExampleToken && Inv(Held({}, false))
  {
    hide Runs, Enabled, Next, Inv;
    var ready := Held(ExampleLocks, true);
    Verifies();
    Commits();
    s' := Next(ready, CommitOperator(0));
    NoStep(s');
    OneStep(ready, CommitOperator(0), [], s');
    run := [CommitOperator(0)] + [];
    OneStep(Held(ExampleLocks, false), Verify(0), run, s');
    run := [Verify(0)] + run;
    LocksOneByOne();
    Grabs({} + {Lock(Activation, Exclusive)} + {Lock(Registry(7), Exclusive)}, Clock((7, 3)), run, s');
    run := [Grab(0, Clock((7, 3)))] + run;
    Grabs({} + {Lock(Activation, Exclusive)}, Registry(7), run, s');
    run := [Grab(0, Registry(7))] + run;
    Grabs({}, Activation, run, s');
    run := [Grab(0, Activation)] + run;
    HeldAudit();
  }

  lemma {:induction false} Commits()
    requires Enabled(Held(ExampleLocks, true), CommitOperator(0))
    ensures var s' := Next(Held(ExampleLocks, true), CommitOperator(0));
            s'.preps == map[7 := Preparation(Active, 1)] && s'.txs == map[]
            && s'.clocks == Example.clocks && s'.events == Example.events
  {
    hide ExampleLocks, ExampleToken;
  }

  lemma {:induction false} HeldAudit()
    ensures Audit(Held({}, false), 7) == ExampleToken && Inv(Held({}, false))
  {
    hide Audit, Inv;
    AuditOfOne();
    AuditSame(Example, Held({}, false), 7);
    HeldInv();
  }

  lemma {:induction false} HeldInv()
    ensures Inv(Held({}, false))
  {
    hide Permitted, Needs, Audit;
  }

  lemma {:induction false} NoStep(s: State)
    ensures Runs(s, [], s)
  {
  }
}
