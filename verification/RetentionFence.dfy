// The revision fence of a retention release: source writers, whose trigger counts
// every change to an audited subject, run interleaved with the operators that
// create, extend, abort or promote a preparation. One action is one SQL statement;
// row locks are held, and effects stay private, until the transaction ends.
module RetentionFence {
  import opened Wrappers

  type User = nat
  type Prep = nat
  type Tx = nat
  type Subject = (Prep, User)

  // ------------------------------------------------------------------
  // What the trigger sees of a change
  // ------------------------------------------------------------------

  // The watched tables. Artifact stands for conversation_checkpoints and
  // retention_prepared_contracts, Derived for the three mem0 tables.
  datatype Row =
    | Profile(id: User, language: string, timezone: string, rest: string)
    | ChatContext(user: Option<User>, generation: nat, rest: string)
    | Pipeline(user: Option<User>, mode: string, bootstrap: string, epoch: nat, repair: nat,
               source: Option<nat>, ingest: Option<nat>, consolidated: Option<nat>)
    | Barrier(user: Option<User>, state: string, epoch: nat, rest: string)
    | Message(user: Option<User>, number: nat, rest: string)
    | Artifact(user: Option<User>, prep: Option<Prep>, rest: string)
    | Derived(user: Option<User>, rest: string)

  // A row-level change to the source row called `key`.
  datatype Change = Insert(key: nat, row: Row) | Update(key: nat, was: Row, row: Row) | Delete(key: nat, was: Row)

  function Owner(row: Row): Option<User> {
    if row.Profile? then Some(row.id) else row.user
  }

  function Sides(ch: Change): set<Row> {
    match ch
    case Insert(_, row) => {row}
    case Update(_, was, row) => {was, row}
    case Delete(_, was) => {was}
  }

  function Owners(ch: Change): set<User> {
    set row | row in Sides(ch) && Owner(row).Some? :: Owner(row).value
  }

  function Cursor(c: Option<nat>): nat {
    if c.Some? then c.value else 0
  }

  predicate Ignored(ch: Change) {
    ch.Update? && Owner(ch.was) == Owner(ch.row)
    && match (ch.was, ch.row)
       case (Profile(_, l, z, _), Profile(_, l', z', _)) => l == l' && z == z'
       case (ChatContext(_, g, _), ChatContext(_, g', _)) => g == g'
       case (Pipeline(_, m, b, e, r, s, i, k), Pipeline(_, m', b', e', r', s', i', k')) =>
         m == m' && b == b' && e == e' && r == r'
         && Cursor(s') >= Cursor(s) && Cursor(i') >= Cursor(i) && Cursor(k') >= Cursor(k)
       case (Barrier(_, s, e, _), Barrier(_, s', e', _)) => s == s' && e == e'
       case _ => false
  }

  // An artifact change concerns only the preparation it was made for.
  predicate Reaches(ch: Change, p: Prep, u: User) {
    (exists row :: row in Sides(ch) && row.Artifact?)
      ==> exists row :: row in Sides(ch) && row.Artifact? && row.user == Some(u) && row.prep == Some(p)
  }

  predicate Mutating(ch: Change, u: User, through: nat) {
    !Ignored(ch)
    && ((exists row :: row in Sides(ch) && row.Message?)
          ==> exists row :: row in Sides(ch) && row.Message? && row.user == Some(u) && row.number <= through)
  }

  predicate Counts(ch: Change, s: Subject, through: nat) {
    s.1 in Owners(ch) && Reaches(ch, s.0, s.1) && Mutating(ch, s.1, through)
  }

  // ------------------------------------------------------------------
  // Locks and transactions
  // ------------------------------------------------------------------

  // Activation is the advisory lock shared by create, abort and promote.
  datatype Resource = Fence | Registry(p: Prep) | Clock(s: Subject) | Activation

  datatype Mode = KeyShare | Share | Exclusive

  datatype Lock = Lock(resource: Resource, mode: Mode)

  predicate Clash(a: Lock, b: Lock) {
    a.resource == b.resource && (a.mode == Exclusive || b.mode == Exclusive)
  }

  // Where a writer stands in the trigger of its current change.
  datatype Pc =
    | Between
    | Sharing(p: Prep)                                       // wants a registry row FOR SHARE (seal, prepared jobs)
    | Fencing(ch: Change)                                    // wants the fence FOR SHARE
    | Looping(ch: Change, owners: set<User>)                 // owners still to visit
    | Joining(ch: Change, u: User, joins: set<Prep>, owners: set<User>)
    | Ticking(ch: Change, u: User, ticks: map<Prep, nat>, owners: set<User>) // clocks still to tick, with the boundary read
    | Falling(ch: Change, u: User, p: Prep, ticks: map<Prep, nat>, owners: set<User>)

  datatype Token = Token(version: nat, revisions: map<User, (nat, nat)>)

  datatype Plan =
    | Create(p: Prep, targets: map<User, nat>)
    | Extend(p: Prep, targets: map<User, nat>)
    | Abort(p: Prep)
    | Promote(p: Prep, token: Token)

  datatype Work =
    | Writer(locks: set<Lock>, done: seq<Change>, bumps: multiset<Subject>, events: multiset<Subject>, pc: Pc)
    | Operator(locks: set<Lock>, plan: Plan, asking: bool, verified: bool)

  datatype Stage = Building | Prepared | Active | Aborted

  datatype Preparation = Preparation(stage: Stage, version: nat)

  datatype ClockRow = ClockRow(through: nat, revision: nat)

  // Committed rows, the transactions in progress, and the committed changes in commit order.
  datatype State = State(
    preps: map<Prep, Preparation>, clocks: map<Subject, ClockRow>, events: multiset<Subject>,
    txs: map<Tx, Work>, log: seq<Change>)

  predicate IsOpen(s: State, p: Prep) {
    p in s.preps && (s.preps[p].stage == Building || s.preps[p].stage == Prepared)
  }

  // Base revision plus COUNT(events).
  function Effective(s: State, sub: Subject): nat
    requires sub in s.clocks
  {
    s.clocks[sub].revision + s.events[sub]
  }

  function Audit(s: State, p: Prep): Token
    requires p in s.preps
  {
    Token(s.preps[p].version,
          map sub | sub in s.clocks && sub.0 == p :: sub.1 := (s.clocks[sub].through, Effective(s, sub)))
  }

  predicate Free(s: State, t: Tx, l: Lock) {
    forall o | o in s.txs && o != t :: forall k | k in s.txs[o].locks :: !Clash(l, k)
  }

  // ------------------------------------------------------------------
  // Actions
  // ------------------------------------------------------------------

  datatype Action =
    | BeginWriter(t: Tx)
    | AskShare(t: Tx, p: Prep)
    | GetShare(t: Tx)
    | Write(t: Tx, ch: Change)     // the row changes; its AFTER trigger asks for the fence
    | GetFence(t: Tx)
    | NextOwner(t: Tx, u: User)
    | Join(t: Tx, p: Prep)         // an open preparation that does not know the owner
    | Scan(t: Tx)                  // the clock loop's query
    | TryClock(t: Tx, p: Prep)     // NOWAIT
    | FallBack(t: Tx)              // the exception branch, once its registry lock is granted
    | EndOwner(t: Tx)
    | EndTrigger(t: Tx)
    | CommitWriter(t: Tx)
    | BeginOperator(t: Tx, plan: Plan)
    | GetActivation(t: Tx)
    | Grab(t: Tx, r: Resource)     // FOR UPDATE NOWAIT, in any order
    | Verify(t: Tx)
    | CommitOperator(t: Tx)
    | Rollback(t: Tx)

  predicate AtPc(s: State, t: Tx) { t in s.txs && s.txs[t].Writer? }

  predicate AtPlan(s: State, t: Tx) { t in s.txs && s.txs[t].Operator? }

  // The rows a plan locks before it may commit.
  function Needs(s: State, plan: Plan): set<Resource> {
    match plan
    case Create(p, targets) => {Activation, Fence}
    case Extend(p, targets) => {Registry(p), Fence} + (set u | u in targets && (p, u) in s.clocks :: Clock((p, u)))
    case Abort(p) => {Activation, Registry(p)}
    case Promote(p, token) => {Activation, Registry(p)} + (set sub | sub in s.clocks && sub.0 == p :: Clock(sub))
  }

  predicate Holds(w: Work, r: Resource) {
    Lock(r, Exclusive) in w.locks
  }

  // What the plan checks under its locks.
  predicate Permitted(s: State, plan: Plan) {
    match plan
    case Create(p, _) => p !in s.preps && forall q | q in s.preps :: s.preps[q].stage == Aborted
    case Extend(p, _) => IsOpen(s, p)
    case Abort(p) => p in s.preps && s.preps[p].stage != Active
    case Promote(p, token) =>
      IsOpen(s, p) && Audit(s, p) == token && forall q | q in s.preps :: s.preps[q].stage != Active
  }

  // ORDER BY p.id
  predicate First(p: Prep, ps: set<Prep>) {
    p in ps && forall q | q in ps :: p <= q
  }

  // The lock a transaction is waiting for, if any: all other requests are NOWAIT.
  predicate Wants(w: Work, l: Lock) {
    match w
    case Writer(_, _, _, _, Sharing(p)) => l == Lock(Registry(p), Share)
    case Writer(_, _, _, _, Fencing(_)) => l == Lock(Fence, Share)
    case Writer(_, _, _, _, Joining(_, _, joins, _)) =>
      l.resource.Registry? && First(l.resource.p, joins) && l.mode == KeyShare
    case Writer(_, _, _, _, Falling(_, _, p, _, _)) => l == Lock(Registry(p), KeyShare)
    case Operator(_, _, true, _) => l == Lock(Activation, Exclusive)
    case _ => false
  }

  predicate Enabled(s: State, a: Action) {
    match a
    case BeginWriter(t) => t !in s.txs
    case AskShare(t, p) => AtPc(s, t) && s.txs[t].pc.Between?
    case GetShare(t) => AtPc(s, t) && s.txs[t].pc.Sharing? && Free(s, t, Lock(Registry(s.txs[t].pc.p), Share))
    case Write(t, ch) => AtPc(s, t) && s.txs[t].pc.Between?
    case GetFence(t) => AtPc(s, t) && s.txs[t].pc.Fencing? && Free(s, t, Lock(Fence, Share))
    case NextOwner(t, u) => AtPc(s, t) && s.txs[t].pc.Looping? && First(u, s.txs[t].pc.owners)
    case Join(t, p) => AtPc(s, t) && s.txs[t].pc.Joining? && First(p, s.txs[t].pc.joins)
                       && Free(s, t, Lock(Registry(p), KeyShare))
    case Scan(t) => AtPc(s, t) && s.txs[t].pc.Joining? && s.txs[t].pc.joins == {}
    case TryClock(t, p) => AtPc(s, t) && s.txs[t].pc.Ticking? && First(p, s.txs[t].pc.ticks.Keys)
    case FallBack(t) => AtPc(s, t) && s.txs[t].pc.Falling? && Free(s, t, Lock(Registry(s.txs[t].pc.p), KeyShare))
    case EndOwner(t) => AtPc(s, t) && s.txs[t].pc.Ticking? && s.txs[t].pc.ticks == map[]
    case EndTrigger(t) => AtPc(s, t) && s.txs[t].pc.Looping? && s.txs[t].pc.owners == {}
    case CommitWriter(t) => AtPc(s, t) && s.txs[t].pc.Between?
    case BeginOperator(t, plan) => t !in s.txs
    case GetActivation(t) => AtPlan(s, t) && s.txs[t].asking && Free(s, t, Lock(Activation, Exclusive))
    case Grab(t, r) => AtPlan(s, t) && !s.txs[t].asking && Free(s, t, Lock(r, Exclusive))
    case Verify(t) => AtPlan(s, t) && !s.txs[t].asking && Permitted(s, s.txs[t].plan)
                      && forall r | r in Needs(s, s.txs[t].plan) :: Holds(s.txs[t], r)
    case CommitOperator(t) => AtPlan(s, t) && s.txs[t].verified
                              && (s.txs[t].plan.Create? || s.txs[t].plan.p in s.preps)
    case Rollback(t) => t in s.txs
  }

  function Put(s: State, t: Tx, w: Work): State {
    s.(txs := s.txs[t := w])
  }

  function Take(w: Work, l: Lock): Work {
    w.(locks := w.locks + {l})
  }

  // Both lock attempts of one clock, and the bump; a failed attempt leaves the handler to run.
  function Tick(s: State, t: Tx, p: Prep): Work
    requires AtPc(s, t) && s.txs[t].pc.Ticking? && p in s.txs[t].pc.ticks
  {
    var w := s.txs[t];
    var sub := (p, w.pc.u);
    var rest := Ticking(w.pc.ch, w.pc.u, w.pc.ticks - {p}, w.pc.owners);
    var fall := w.(pc := Falling(w.pc.ch, w.pc.u, p, w.pc.ticks - {p}, w.pc.owners));
    var mode := if Mutating(w.pc.ch, w.pc.u, w.pc.ticks[p]) then Exclusive else Share;
    if !Free(s, t, Lock(Clock(sub), mode)) then fall
    else if sub !in s.clocks then w.(pc := rest)
    else if !Mutating(w.pc.ch, w.pc.u, s.clocks[sub].through) then Take(w, Lock(Clock(sub), mode)).(pc := rest)
    else if !Free(s, t, Lock(Clock(sub), Exclusive)) then fall
    else Take(Take(w, Lock(Clock(sub), mode)), Lock(Clock(sub), Exclusive)).(pc := rest, bumps := w.bumps + multiset{sub})
  }

  function Fall(s: State, w: Work): Work
    requires w.Writer? && w.pc.Falling?
  {
    var sub := (w.pc.p, w.pc.u);
    var next := Take(w, Lock(Registry(w.pc.p), KeyShare)).(pc := Ticking(w.pc.ch, w.pc.u, w.pc.ticks, w.pc.owners));
    if IsOpen(s, w.pc.p) && sub in s.clocks && Mutating(w.pc.ch, w.pc.u, s.clocks[sub].through)
    then next.(events := w.events + multiset{sub}) else next
  }

  function Enrolled(clocks: map<Subject, ClockRow>, p: Prep, targets: map<User, nat>): map<Subject, ClockRow> {
    clocks + map u | u in targets :: (p, u) :=
      if (p, u) !in clocks then ClockRow(targets[u], 0)
      else if clocks[(p, u)].through == targets[u] then clocks[(p, u)]
      else ClockRow(targets[u], clocks[(p, u)].revision + 1)
  }

  function Executed(s: State, plan: Plan): State
    requires plan.Create? || plan.p in s.preps
  {
    match plan
    case Create(p, targets) =>
      s.(preps := s.preps[p := Preparation(Building, 0)], clocks := Enrolled(s.clocks, p, targets))
    case Extend(p, targets) =>
      s.(preps := s.preps[p := Preparation(Building, s.preps[p].version + 1)], clocks := Enrolled(s.clocks, p, targets))
    case Abort(p) => s.(preps := s.preps[p := Preparation(Aborted, s.preps[p].version + 1)])
    case Promote(p, _) => s.(preps := s.preps[p := Preparation(Active, s.preps[p].version + 1)])
  }

  function Bumped(clocks: map<Subject, ClockRow>, bumps: multiset<Subject>): map<Subject, ClockRow> {
    map sub | sub in clocks :: clocks[sub].(revision := clocks[sub].revision + bumps[sub])
  }

  function Next(s: State, a: Action): State
    requires Enabled(s, a)
  {
    match a
    case BeginWriter(t) => Put(s, t, Writer({}, [], multiset{}, multiset{}, Between))
    case AskShare(t, p) => Put(s, t, s.txs[t].(pc := Sharing(p)))
    case GetShare(t) => Put(s, t, Take(s.txs[t], Lock(Registry(s.txs[t].pc.p), Share)).(pc := Between))
    case Write(t, ch) => Put(s, t, s.txs[t].(pc := Fencing(ch)))
    case GetFence(t) =>
      var ch := s.txs[t].pc.ch;
      var w := Take(s.txs[t], Lock(Fence, Share));
      if exists p :: p in s.preps && IsOpen(s, p) then Put(s, t, w.(pc := Looping(ch, Owners(ch))))
      else Put(s, t, w.(pc := Between, done := w.done + [ch]))
    case NextOwner(t, u) =>
      var w := s.txs[t];
      var joins := set p | p in s.preps && IsOpen(s, p) && !Ignored(w.pc.ch) && (p, u) !in s.clocks && Reaches(w.pc.ch, p, u);
      Put(s, t, w.(pc := Joining(w.pc.ch, u, joins, w.pc.owners - {u})))
    case Join(t, p) =>
      var w := s.txs[t];
      Put(s, t, Take(w, Lock(Registry(p), KeyShare)).(pc := Joining(w.pc.ch, w.pc.u, w.pc.joins - {p}, w.pc.owners)))
    case Scan(t) =>
      var w := s.txs[t];
      var ticks := map p | p in s.preps && IsOpen(s, p) && (p, w.pc.u) in s.clocks && Reaches(w.pc.ch, p, w.pc.u)
                     :: s.clocks[(p, w.pc.u)].through;
      Put(s, t, w.(pc := Ticking(w.pc.ch, w.pc.u, ticks, w.pc.owners)))
    case TryClock(t, p) => Put(s, t, Tick(s, t, p))
    case FallBack(t) => Put(s, t, Fall(s, s.txs[t]))
    case EndOwner(t) => Put(s, t, s.txs[t].(pc := Looping(s.txs[t].pc.ch, s.txs[t].pc.owners)))
    case EndTrigger(t) =>
      var w := s.txs[t];
      Put(s, t, w.(pc := Between, done := w.done + [w.pc.ch]))
    case CommitWriter(t) =>
      var w := s.txs[t];
      s.(clocks := Bumped(s.clocks, w.bumps), events := s.events + w.events, txs := s.txs - {t}, log := s.log + w.done)
    case BeginOperator(t, plan) => Put(s, t, Operator({}, plan, plan.Create? || plan.Abort?, false))
    case GetActivation(t) => Put(s, t, Take(s.txs[t], Lock(Activation, Exclusive)).(asking := false))
    case Grab(t, r) => Put(s, t, Take(s.txs[t], Lock(r, Exclusive)))
    case Verify(t) => Put(s, t, s.txs[t].(verified := true))
    case CommitOperator(t) => Executed(s, s.txs[t].plan).(txs := s.txs - {t})
    case Rollback(t) => s.(txs := s.txs - {t})
  }
}
