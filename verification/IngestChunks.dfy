// Cutting turns into chunks for memory extraction: the window query against the greedy
// cut it stands for, and the halving of a chunk whose extraction was truncated.
module IngestChunks {
  import opened Wrappers

  // Times in seconds; a turn's activity date may be missing.
  datatype Turn = Turn(number: nat, time: int, day: Option<nat>)

  ghost predicate Ascending(turns: seq<Turn>) {
    forall i, j | 0 <= i < j < |turns| :: turns[i].number < turns[j].number
  }

  // ------------------------------------------------------------------
  // The query
  // ------------------------------------------------------------------

  // a <> b in SQL: not true when either is NULL.
  predicate Differs(a: Option<nat>, b: Option<nat>) {
    a.Some? && b.Some? && a.value != b.value
  }

  // Row number i + 1: another day than the first row, or too long after the row before.
  predicate Breaks(turns: seq<Turn>, i: nat, idle: int)
    requires 0 < i < |turns|
  {
    Differs(turns[i].day, turns[0].day) || turns[i].time - turns[i - 1].time > idle
  }

  // MIN(rn) over the breaking rows, or NULL.
  function FirstBreak(turns: seq<Turn>, from: nat, idle: int): (rn: Option<nat>)
    requires 0 < from
    ensures rn.Some? ==> from < rn.value <= |turns| && Breaks(turns, rn.value - 1, idle)
                         && forall i | from <= i < rn.value - 1 :: !Breaks(turns, i, idle)
    ensures rn.None? ==> forall i | from <= i < |turns| :: !Breaks(turns, i, idle)
    decreases |turns| - from
  {
    if from >= |turns| then None
    else if Breaks(turns, from, idle) then Some(from + 1)
    else FirstBreak(turns, from + 1, idle)
  }

  function Least(a: nat, b: nat): nat { if a < b then a else b }

  // MIN(turn_seq), and MAX(turn_seq) among the rows before the first break and within max_turns.
  function ResolveChunk(turns: seq<Turn>, idle: int, maxTurns: nat): Option<(nat, nat)> {
    var brk := FirstBreak(turns, 1, idle);
    var rows := Least(if brk.Some? then brk.value - 1 else maxTurns, maxTurns);
    if turns == [] || rows == 0 then None
    else Some((turns[0].number, turns[Least(rows, |turns|) - 1].number))
  }

  // ------------------------------------------------------------------
  // The greedy cut
  // ------------------------------------------------------------------

  // One sitting: one date, no gap over idle, at most max_turns.
  predicate Sitting(turns: seq<Turn>, n: nat, idle: int, maxTurns: nat) {
    n <= |turns| && n <= maxTurns && forall i | 0 < i < n :: !Breaks(turns, i, idle)
  }

  method GreedyChunk(turns: seq<Turn>, idle: int, maxTurns: nat) returns (n: nat)
    ensures Sitting(turns, n, idle, maxTurns)
    ensures forall k: nat | Sitting(turns, k, idle, maxTurns) :: k <= n
    ensures ResolveChunk(turns, idle, maxTurns) == if n == 0 then None else Some((turns[0].number, turns[n - 1].number))
  {
    n := 0;
    while n < |turns| && n < maxTurns && (n == 0 || !Breaks(turns, n, idle))
      invariant n <= |turns| && n <= maxTurns && forall i | 0 < i < n :: !Breaks(turns, i, idle)
    {
      n := n + 1;
    }
  }

  function Length(turns: seq<Turn>, idle: int, maxTurns: nat): nat {
    var brk := FirstBreak(turns, 1, idle);
    Least(Least(if brk.Some? then brk.value - 1 else maxTurns, maxTurns), |turns|)
  }

  // The query's chunk is the longest sitting at the front.
  lemma {:induction false} ChunkIsLongestSitting(turns: seq<Turn>, idle: int, maxTurns: nat)
    requires Ascending(turns)
    ensures var n := Length(turns, idle, maxTurns);
            Sitting(turns, n, idle, maxTurns) && (forall k: nat | Sitting(turns, k, idle, maxTurns) :: k <= n)
            && (ResolveChunk(turns, idle, maxTurns).None? <==> turns == [] || maxTurns == 0)
            && (ResolveChunk(turns, idle, maxTurns).Some? ==>
                  ResolveChunk(turns, idle, maxTurns).value == (turns[0].number, turns[n - 1].number)
                  && forall i | 0 <= i < |turns| :: turns[i].number <= turns[n - 1].number <==> i < n)
  {
  }

  // ------------------------------------------------------------------
  // From one cursor to the next
  // ------------------------------------------------------------------

  function After(turns: seq<Turn>, cursor: nat): seq<Turn> {
    if turns == [] then [] else if turns[0].number > cursor then turns else After(turns[1..], cursor)
  }

  lemma {:induction false} AfterDrops(turns: seq<Turn>, n: nat)
    requires Ascending(turns) && 0 < n <= |turns|
    ensures After(turns, turns[n - 1].number) == turns[n..]
  {
    if n > 1 {
      AfterDrops(turns[1..], n - 1);
    } else if |turns| > 1 {
      assert turns[1..][0].number > turns[0].number;
    }
  }

  // Moving the cursor to the last turn of a chunk leaves exactly the turns behind it.
  lemma {:induction false} CursorMoves(turns: seq<Turn>, idle: int, maxTurns: nat)
    requires Ascending(turns) && turns != [] && maxTurns > 0
    ensures ResolveChunk(turns, idle, maxTurns).Some?
    ensures After(turns, ResolveChunk(turns, idle, maxTurns).value.1) == turns[Length(turns, idle, maxTurns)..]
  {
    ChunkIsLongestSitting(turns, idle, maxTurns);
    AfterDrops(turns, Length(turns, idle, maxTurns));
  }

  // Resolve, move the cursor to the chunk's last turn, resolve again.
  function Chunks(turns: seq<Turn>, idle: int, maxTurns: nat): seq<seq<Turn>>
    requires maxTurns > 0
    decreases |turns|
  {
    var n := Length(turns, idle, maxTurns);
    if turns == [] || n == 0 then [] else [turns[..n]] + Chunks(turns[n..], idle, maxTurns)
  }

  function Joined(chunks: seq<seq<Turn>>): seq<Turn> {
    if chunks == [] then [] else chunks[0] + Joined(chunks[1..])
  }

  // What follows a chunk starts another sitting: another date, a pause, or the chunk is full.
  predicate Parts(chunk: seq<Turn>, next: Turn, idle: int, maxTurns: nat)
    requires chunk != []
  {
    |chunk| == maxTurns || Differs(next.day, chunk[0].day) || next.time - chunk[|chunk| - 1].time > idle
  }

  ghost predicate AllPart(chunks: seq<seq<Turn>>, idle: int, maxTurns: nat) {
    forall k | 0 <= k < |chunks| ::
      chunks[k] != [] && Sitting(chunks[k], |chunks[k]|, idle, maxTurns)
      && (k + 1 < |chunks| ==> chunks[k + 1] != [] && Parts(chunks[k], chunks[k + 1][0], idle, maxTurns))
  }

  lemma {:induction false} HeadChunk(turns: seq<Turn>, idle: int, maxTurns: nat)
    requires turns != [] && maxTurns > 0
    ensures var n := Length(turns, idle, maxTurns);
            0 < n <= |turns| && Sitting(turns[..n], n, idle, maxTurns)
            && (n < |turns| ==> Parts(turns[..n], turns[n], idle, maxTurns))
  {
    var n := Length(turns, idle, maxTurns);
    forall i | 0 < i < n ensures !Breaks(turns[..n], i, idle) {
      assert !Breaks(turns, i, idle);
    }
  }

  // Chunk after chunk, every turn is taken once and in order.
  lemma {:induction false} ChunksTile(turns: seq<Turn>, idle: int, maxTurns: nat)
    requires maxTurns > 0
    ensures var cs := Chunks(turns, idle, maxTurns);
            Joined(cs) == turns && AllPart(cs, idle, maxTurns) && (cs != [] ==> turns != [] && cs[0][0] == turns[0])
    decreases |turns|
  {
    hide Sitting, Parts, Length;
    if turns != [] {
      HeadChunk(turns, idle, maxTurns);
      var n := Length(turns, idle, maxTurns);
      var rest := Chunks(turns[n..], idle, maxTurns);
      ChunksTile(turns[n..], idle, maxTurns);
      assert turns[..n] + turns[n..] == turns;
      assert Chunks(turns, idle, maxTurns) == [turns[..n]] + rest;
      assert |turns[..n]| == n;
    }
  }

  // ------------------------------------------------------------------
  // Truncation
  // ------------------------------------------------------------------

  // The frozen chunk of a job, and how often it was claimed.
  datatype Job = Job(first: nat, last: nat, attempt: nat, maxAttempts: nat)

  datatype Outcome = Split(job: Job) | Passed(through: nat, kept: bool) | Died

  // One attempt; truncated says whether the model's output was cut off.
  function Attempt(j: Job, truncated: bool, retention: bool): Outcome
    requires j.first <= j.last
  {
    var next := j.(attempt := j.attempt + 1);
    if !truncated then Passed(j.last, true)
    else if j.last > j.first then
      if next.attempt >= j.maxAttempts then Died else Split(next.(last := j.first + (j.last - j.first) / 2))
    else if retention then if next.attempt >= j.maxAttempts then Died else Split(next)
    else Passed(j.last, false)
  }

  // Splits a width needs: floor(log2 width) + 1.
  function Halvings(width: nat): nat {
    if width == 0 then 0 else 1 + Halvings(width / 2)
  }

  function Power(n: nat): nat {
    if n == 0 then 1 else 2 * Power(n - 1)
  }

  lemma {:induction false} HalvingsAre(width: nat, n: nat)
    ensures Halvings(width) <= n <==> width < Power(n)
  {
    if width > 0 && n > 0 {
      HalvingsAre(width / 2, n - 1);
    } else if width > 0 {
      assert Halvings(width) > 0;
    } else {
      PowerPositive(n);
    }
  }

  lemma {:induction false} PowerPositive(n: nat)
    ensures Power(n) > 0
  {
    if n > 0 {
      PowerPositive(n - 1);
    }
  }

  // The job under answers that may be cut off at any attempt.
  function Run(j: Job, truncated: seq<bool>, retention: bool): Outcome
    requires j.first <= j.last
    decreases |truncated|
  {
    if truncated == [] then Split(j)
    else match Attempt(j, truncated[0], retention)
      case Split(next) => Run(next, truncated[1..], retention)
      case other => other
  }

  // Without retention the job survives any answers when its attempts outnumber the halvings of its width.
  lemma {:induction false} SurvivesTruncation(j: Job, truncated: seq<bool>)
    requires j.first <= j.last && j.attempt + Halvings(j.last - j.first) < j.maxAttempts
    ensures var o := Run(j, truncated, false);
            !o.Died? && (o.Passed? ==> j.first <= o.through <= j.last)
            && (|truncated| > Halvings(j.last - j.first) ==> o.Passed?)
    decreases |truncated|
  {
    if truncated != [] && truncated[0] && j.last > j.first {
      var next := Attempt(j, true, false).job;
      assert next.last - next.first == (j.last - j.first) / 2;
      SurvivesTruncation(next, truncated[1..]);
    }
  }

  function Always(n: nat): seq<bool> {
    if n == 0 then [] else [true] + Always(n - 1)
  }

  // And not otherwise: always cut off, a wider chunk uses up the attempts.
  lemma {:induction false} DiesWhenTooWide(j: Job, n: nat)
    requires j.first <= j.last && j.attempt < j.maxAttempts && j.attempt + Halvings(j.last - j.first) >= j.maxAttempts
    requires n >= j.maxAttempts - j.attempt
    ensures Run(j, Always(n), false).Died?
    decreases n
  {
    assert Always(n)[0] && Always(n)[1..] == Always(n - 1);
    if j.attempt + 1 < j.maxAttempts {
      var next := Attempt(j, true, false).job;
      assert next.last - next.first == (j.last - j.first) / 2;
      DiesWhenTooWide(next, n - 1);
    }
  }

  // A width halved n times.
  function Halved(width: nat, n: nat): (w: nat)
    ensures w <= width
  {
    if n == 0 then width else Halved(width / 2, n - 1)
  }

  lemma {:induction false} SplitHalves(j: Job, retention: bool)
    requires j.first < j.last && j.attempt + 1 < j.maxAttempts
    ensures Attempt(j, true, retention).Split?
    ensures var next := Attempt(j, true, retention).job;
            next.first == j.first && next.last - next.first == (j.last - j.first) / 2
            && next.attempt == j.attempt + 1 && next.maxAttempts == j.maxAttempts
  {
  }

  lemma {:induction false} RunStarts(j: Job, answers: seq<bool>, retention: bool)
    requires j.first <= j.last && answers != []
    ensures Run(j, answers, retention)
            == if Attempt(j, answers[0], retention).Split? then Run(Attempt(j, answers[0], retention).job, answers[1..], retention)
               else Attempt(j, answers[0], retention)
  {
  }

  // A complete answer after n cut off ones takes the turns up to the n times halved width, and keeps what
  // was extracted from them.
  lemma {:induction false} CompleteAnswer(j: Job, n: nat, later: seq<bool>, retention: bool)
    requires j.first <= j.last && j.attempt + n < j.maxAttempts && n <= Halvings(j.last - j.first)
    ensures Run(j, Always(n) + ([false] + later), retention) == Passed(j.first + Halved(j.last - j.first, n), true)
    decreases n
  {
    hide Run;
    var answers := Always(n) + ([false] + later);
    RunStarts(j, answers, retention);
    if n > 0 {
      assert answers[0] && answers[1..] == Always(n - 1) + ([false] + later);
      hide Always, Attempt;
      SplitHalves(j, retention);
      CompleteAnswer(Attempt(j, true, retention).job, n - 1, later, retention);
    }
  }

  // Cut off even when halved down to one turn, that turn is passed without anything kept; only without retention.
  lemma {:induction false} OneTurnSkipped(j: Job, later: seq<bool>)
    requires j.first <= j.last && j.attempt + Halvings(j.last - j.first) < j.maxAttempts
    ensures Run(j, Always(Halvings(j.last - j.first) + 1) + later, false) == Passed(j.first, false)
    decreases j.last - j.first
  {
    hide Run;
    var n := Halvings(j.last - j.first);
    var answers := Always(n + 1) + later;
    RunStarts(j, answers, false);
    assert answers[0] && answers[1..] == Always(n) + later;
    if j.last > j.first {
      hide Attempt, Always;
      SplitHalves(j, false);
      OneTurnSkipped(Attempt(j, true, false).job, later);
    }
  }

  const MAX_ATTEMPTS: nat := 8
  const MAX_TURNS: nat := 20

  // With the configured eight attempts: exactly the chunks spanning fewer than 128 turn numbers are safe.
  lemma {:induction false} SafeWidth(first: nat, last: nat)
    requires first <= last
    ensures (forall truncated :: !Run(Job(first, last, 0, MAX_ATTEMPTS), truncated, false).Died?) <==> last - first < 128
  {
    var j := Job(first, last, 0, MAX_ATTEMPTS);
    HalvingsAre(last - first, 7);
    assert Power(7) == 128;
    if last - first < 128 {
      forall truncated ensures !Run(j, truncated, false).Died? {
        SurvivesTruncation(j, truncated);
      }
    } else {
      DiesWhenTooWide(j, MAX_ATTEMPTS);
    }
  }

  // Densely numbered turns are safe: twenty of them span 19, five halvings.
  lemma {:induction false} DenseIsSafe(turns: seq<Turn>, idle: int, truncated: seq<bool>)
    requires turns != [] && forall i | 0 <= i < |turns| :: turns[i].number == turns[0].number + i
    ensures var c := ResolveChunk(turns, idle, MAX_TURNS);
            c.Some? && c.value.0 <= c.value.1 && Halvings(c.value.1 - c.value.0) <= 5
            && !Run(Job(c.value.0, c.value.1, 0, MAX_ATTEMPTS), truncated, false).Died?
  {
    ChunkIsLongestSitting(turns, idle, MAX_TURNS);
    var c := ResolveChunk(turns, idle, MAX_TURNS).value;
    HalvingsAre(c.1 - c.0, 5);
    assert Power(5) == 32;
    SurvivesTruncation(Job(c.0, c.1, 0, MAX_ATTEMPTS), truncated);
  }

  // Two turns far apart in number are not, although they are one short chunk.
  lemma {:induction false} SparseDies()
    ensures var turns := [Turn(1, 0, Some(1)), Turn(129, 60, Some(1))];
            ResolveChunk(turns, 180, MAX_TURNS) == Some((1, 129))
            && Run(Job(1, 129, 0, MAX_ATTEMPTS), Always(MAX_ATTEMPTS), false).Died?
  {
    var turns := [Turn(1, 0, Some(1)), Turn(129, 60, Some(1))];
    assert FirstBreak(turns, 1, 180) == FirstBreak(turns, 2, 180) == None;
    HalvingsAre(128, 7);
    assert Power(7) == 128;
    DiesWhenTooWide(Job(1, 129, 0, MAX_ATTEMPTS), MAX_ATTEMPTS);
  }

  // With retention a turn whose output is always cut off is never passed.
  lemma {:induction false} RetentionNeverSkips(j: Job, n: nat)
    requires j.first <= j.last && j.attempt < j.maxAttempts
    ensures !Run(j, Always(n), true).Passed?
    ensures n >= j.maxAttempts - j.attempt ==> Run(j, Always(n), true).Died?
    decreases n
  {
    if n > 0 {
      assert Always(n)[0] && Always(n)[1..] == Always(n - 1);
      if j.attempt + 1 < j.maxAttempts {
        RetentionNeverSkips(Attempt(j, true, true).job, n - 1);
      }
    }
  }
}
