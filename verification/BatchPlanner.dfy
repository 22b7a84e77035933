// Cutting a run of messages into batches that fit one model call.
module BatchPlanner {
  import opened Wrappers
  import opened Utf8

  datatype Source = Source(id: nat, text: Text)

  // A message as it enters a batch: all of it, or its bytes start..end.
  datatype Slice = Slice(id: nat, start: nat, end: nat, text: Text, whole: bool)

  datatype Batch = Batch(slices: seq<Slice>, nextIndex: nat, nextOffset: nat)

  datatype Rejection = BadPosition | OutsideSource | CutsCharacter | OverBudget

  // Whether the rendered input stays within the token budget.
  type Fits = seq<Slice> -> bool

  function Whole(m: Source): Slice {
    Slice(m.id, 0, |Encode(m.text)|, m.text, true)
  }

  function Part(m: Source, offset: nat, text: Text): Slice {
    Slice(m.id, offset, offset + |Encode(text)|, text, false)
  }

  function Wholes(messages: seq<Source>): (slices: seq<Slice>)
    ensures |slices| == |messages|
  {
    seq(|messages|, i requires 0 <= i < |messages| => Whole(messages[i]))
  }

  lemma {:induction false} WholesSnoc(messages: seq<Source>, i: nat, j: nat)
    requires i <= j < |messages|
    ensures Wholes(messages[i..j]) + [Whole(messages[j])] == Wholes(messages[i..j + 1])
  {
  }

  // ------------------------------------------------------------------
  // What a cut covers
  // ------------------------------------------------------------------

  // One byte of the history: message, position, value.
  type Place = (nat, nat, byte)

  function Placed(id: nat, start: nat, b: seq<byte>): seq<Place> {
    seq(|b|, i requires 0 <= i < |b| => (id, start + i, b[i]))
  }

  function Covered(slices: seq<Slice>): seq<Place> {
    if slices == [] then []
    else Placed(slices[0].id, slices[0].start, Encode(slices[0].text)) + Covered(slices[1..])
  }

  predicate At(messages: seq<Source>, index: nat, offset: nat) {
    index <= |messages| && if index == |messages| then offset == 0 else offset <= |Encode(messages[index].text)|
  }

  // Every byte not yet read.
  function Unread(messages: seq<Source>, index: nat, offset: nat): seq<Place>
    requires At(messages, index, offset)
    decreases |messages| - index
  {
    if index == |messages| then []
    else Placed(messages[index].id, offset, Encode(messages[index].text)[offset..]) + Unread(messages, index + 1, 0)
  }

  // A cursor a batch may leave behind: a message start, or a character boundary strictly inside one.
  ghost predicate Resumable(messages: seq<Source>, index: nat, offset: nat) {
    At(messages, index, offset)
    && (offset > 0 ==> offset < |Encode(messages[index].text)| && Boundary(messages[index].text, offset))
  }

  // The batch moves the cursor forward and covers exactly the bytes it moves past, in order.
  ghost predicate Tiles(messages: seq<Source>, index: nat, offset: nat, b: Batch) {
    At(messages, index, offset) && Resumable(messages, b.nextIndex, b.nextOffset)
    && (b.nextIndex > index || (b.nextIndex == index && b.nextOffset > offset))
    && (b.nextOffset > 0 ==> b.nextIndex == index)
    && Covered(b.slices) + Unread(messages, b.nextIndex, b.nextOffset) == Unread(messages, index, offset)
  }

  // Nothing more fits: not the next message, and not one more character of a split one.
  ghost predicate Full(messages: seq<Source>, index: nat, offset: nat, fits: Fits, b: Batch)
    requires At(messages, index, offset) && index < |messages|
  {
    var m := messages[index];
    if |b.slices| > 0 && b.slices[0].whole then
      index < b.nextIndex <= |messages| && b.nextOffset == 0 && b.slices == Wholes(messages[index..b.nextIndex])
      && (b.nextIndex < |messages| ==> !fits(b.slices + [Whole(messages[b.nextIndex])]))
    else
      (offset == 0 ==> !fits([Whole(m)]))
      && exists n :: IsSplit(m, offset, fits, n, b)
  }

  ghost predicate IsSplit(m: Source, offset: nat, fits: Fits, n: nat, b: Batch) {
    offset <= |Encode(m.text)| && exists rest ::
      Decode(Encode(m.text)[offset..]) == Some(rest) && 1 <= n <= |rest| && b.slices == [Part(m, offset, rest[..n])]
      && (n < |rest| ==> !fits([Part(m, offset, rest[..n + 1])]))
  }

  // The first message does not fit whole, and not one character of it fits.
  ghost predicate NoRoom(m: Source, offset: nat, fits: Fits) {
    (offset == 0 ==> !fits([Whole(m)]))
    && offset <= |Encode(m.text)|
    && forall rest | Decode(Encode(m.text)[offset..]) == Some(rest) && rest != [] :: !fits([Part(m, offset, rest[..1])])
  }

  // What the planner answers at a cursor; refusing is exact when larger inputs never fit better.
  ghost predicate PlanOf(messages: seq<Source>, index: nat, offset: nat, fits: Fits, r: Result<Batch, Rejection>) {
    if index >= |messages| then r == Err(BadPosition)
    else if offset > |Encode(messages[index].text)| then r == Err(OutsideSource)
    else if !Boundary(messages[index].text, offset) then r == Err(CutsCharacter)
    else
      match r
      case Err(e) => e == OverBudget && NoRoom(messages[index], offset, fits)
      case Ok(b) =>
        fits(b.slices) && Tiles(messages, index, offset, b) && Full(messages, index, offset, fits, b)
        && (Monotone(fits) ==> !NoRoom(messages[index], offset, fits))
  }

  // ------------------------------------------------------------------
  // The planner
  // ------------------------------------------------------------------

  // The longest prefix the binary search can find.
  method LongestPrefix(m: Source, offset: nat, rest: Text, fits: Fits) returns (best: nat)
    ensures best <= |rest|
    ensures best > 0 ==> fits([Part(m, offset, rest[..best])])
    ensures best < |rest| ==> !fits([Part(m, offset, rest[..best + 1])])
  {
    var low, high := 1, |rest|;
    best := 0;
    while low <= high
      invariant 0 <= best == low - 1 <= high <= |rest|
      invariant best > 0 ==> fits([Part(m, offset, rest[..best])])
      invariant high < |rest| ==> !fits([Part(m, offset, rest[..high + 1])])
    {
      var middle := (low + high) / 2;
      if fits([Part(m, offset, rest[..middle])]) {
        best, low := middle, middle + 1;
      } else {
        high := middle - 1;
      }
    }
  }

  method PlanBatch(messages: seq<Source>, index: nat, offset: nat, fits: Fits) returns (r: Result<Batch, Rejection>)
    ensures PlanOf(messages, index, offset, fits, r)
  {
    hide Covered, Unread, Encode, Decode, Boundary, Monotone, Tiles, Full, NoRoom;
    if index >= |messages| {
      return Err(BadPosition);
    }
    FromStart(messages[index].text);
    var chosen: seq<Slice> := [];
    var i := index;
    while i < |messages|
      invariant index <= i <= |messages|
      invariant chosen == Wholes(messages[index..i])
      invariant i > index ==> offset == 0 && fits(chosen) && fits([Whole(messages[index])])
    {
      var m := messages[i];
      var body := Encode(m.text);
      var from := if i == index then offset else 0;
      if from > |body| {
        return Err(OutsideSource);
      }
      SuffixDecodes(m.text, from);
      FromStart(m.text);
      var decoded := Decode(body[from..]);
      if decoded.None? {
        return Err(CutsCharacter);
      }
      var rest := decoded.value;
      assert chosen == [] ==> chosen + [Whole(m)] == [Whole(m)];
      if from == 0 && fits(chosen + [Whole(m)]) {
        WholesSnoc(messages, index, i);
        chosen := chosen + [Whole(m)];
        i := i + 1;
        continue;
      }
      if chosen != [] {
        WholesPlanned(messages, index, i, fits);
        return Ok(Batch(chosen, i, 0));
      }
      r := SplitMessage(messages, i, from, rest, fits);
      return;
    }
    WholesPlanned(messages, index, i, fits);
    return Ok(Batch(chosen, |messages|, 0));
  }

  // The first message does not fit whole: its longest prefix, or a refusal.
  method SplitMessage(messages: seq<Source>, index: nat, offset: nat, rest: Text, fits: Fits) returns (r: Result<Batch, Rejection>)
    requires index < |messages| && offset <= |Encode(messages[index].text)|
    requires Decode(Encode(messages[index].text)[offset..]) == Some(rest)
    requires offset == 0 ==> !fits([Whole(messages[index])])
    ensures PlanOf(messages, index, offset, fits, r)
  {
    hide Covered, Unread, Encode, Decode, Boundary, Tiles;
    SuffixDecodes(messages[index].text, offset);
    var m := messages[index];
    var best := LongestPrefix(m, offset, rest, fits);
    if best == 0 {
      return Err(OverBudget);
    }
    var selected := Part(m, offset, rest[..best]);
    var complete := selected.end == |Encode(m.text)|;
    r := Ok(Batch([selected], if complete then index + 1 else index, if complete then 0 else selected.end));
    SplitTiles(messages, index, offset, rest, best);
    assert IsSplit(m, offset, fits, best, r.value);
    assert rest[..best][..1] == rest[..1];
  }

  // A run of whole messages that fits, with nothing more fitting behind it.
  lemma {:induction false} WholesPlanned(messages: seq<Source>, i: nat, j: nat, fits: Fits)
    requires i < j <= |messages| && fits(Wholes(messages[i..j])) && fits([Whole(messages[i])])
    requires j < |messages| ==> !fits(Wholes(messages[i..j]) + [Whole(messages[j])])
    ensures PlanOf(messages, i, 0, fits, Ok(Batch(Wholes(messages[i..j]), j, 0)))
  {
    hide Encode, Decode, Unread, Covered, Boundary, Monotone;
    FromStart(messages[i].text);
    WholesAdvance(messages, i, j);
  }

  lemma {:induction false} FromStart(t: Text)
    ensures Boundary(t, 0)
  {
    assert |Encode(t[..0])| == 0;
  }

  lemma {:induction false} CoveredAppend(a: seq<Slice>, b: seq<Slice>)
    ensures Covered(a + b) == Covered(a) + Covered(b)
  {
    if a == [] {
      assert a + b == b;
    } else {
      assert (a + b)[1..] == a[1..] + b;
      CoveredAppend(a[1..], b);
    }
  }

  lemma {:induction false} WholesTile(messages: seq<Source>, i: nat, j: nat)
    requires i <= j <= |messages|
    ensures Covered(Wholes(messages[i..j])) + Unread(messages, j, 0) == Unread(messages, i, 0)
    decreases j - i
  {
    hide Encode, Placed;
    if i < j {
      WholesTile(messages, i + 1, j);
      var w := Wholes(messages[i..j]);
      assert w[1..] == Wholes(messages[i + 1..j]);
      assert Encode(messages[i].text)[0..] == Encode(messages[i].text);
    } else {
      assert Wholes(messages[i..j]) == [];
    }
  }

  lemma {:induction false} WholesAdvance(messages: seq<Source>, i: nat, j: nat)
    requires i < j <= |messages|
    ensures Tiles(messages, i, 0, Batch(Wholes(messages[i..j]), j, 0))
  {
    WholesTile(messages, i, j);
    if j < |messages| {
      FromStart(messages[j].text);
    }
  }

  lemma {:induction false} SplitBytes(m: Source, offset: nat, rest: Text, n: nat)
    requires offset <= |Encode(m.text)| && Decode(Encode(m.text)[offset..]) == Some(rest) && n <= |rest|
    ensures var end := offset + |Encode(rest[..n])|;
            end <= |Encode(m.text)| && Encode(m.text)[offset..] == Encode(rest[..n]) + Encode(m.text)[end..]
            && Boundary(m.text, end)
  {
    hide Encode, Decode, Boundary;
    var body, end := Encode(m.text), offset + |Encode(rest[..n])|;
    assert Encode(rest) == body[offset..];
    EncodeAppend(rest[..n], rest[n..]);
    assert rest[..n] + rest[n..] == rest;
    assert body[offset..] == Encode(rest[..n]) + Encode(rest[n..]);
    assert body[end..] == body[offset..][end - offset..];
    assert body[end..] == Encode(rest[n..]);
    DecodeEncode(rest[n..]);
    SuffixDecodes(m.text, end);
  }

  lemma {:induction false} PlacedAppend(id: nat, start: nat, a: seq<byte>, b: seq<byte>)
    ensures Placed(id, start, a + b) == Placed(id, start, a) + Placed(id, start + |a|, b)
  {
  }

  lemma {:induction false} CoveredNone()
    ensures Covered([]) == []
  {
  }

  lemma {:induction false} CoveredOne(s: Slice)
    ensures Covered([s]) == Placed(s.id, s.start, Encode(s.text))
  {
    assert [s][1..] == [];
  }

  // Cutting after n characters leaves exactly the bytes behind the cut.
  lemma {:induction false} SplitTiles(messages: seq<Source>, index: nat, offset: nat, rest: Text, n: nat)
    requires index < |messages| && offset <= |Encode(messages[index].text)|
    requires Decode(Encode(messages[index].text)[offset..]) == Some(rest) && 1 <= n <= |rest|
    ensures var m := messages[index]; var s := Part(m, offset, rest[..n]);
            var complete := s.end == |Encode(m.text)|;
            Tiles(messages, index, offset, Batch([s], if complete then index + 1 else index, if complete then 0 else s.end))
  {
    hide Encode, Decode, Boundary, Placed, Covered;
    var m := messages[index];
    var s := Part(m, offset, rest[..n]);
    var body, piece := Encode(m.text), Encode(rest[..n]);
    SplitBytes(m, offset, rest, n);
    CoveredOne(s);
    PlacedAppend(m.id, offset, piece, body[s.end..]);
    if s.end == |body| {
      assert body[s.end..] == [];
      assert piece + [] == piece;
    } else {
      assert Covered([s]) + (Placed(m.id, s.end, body[s.end..]) + Unread(messages, index + 1, 0))
          == Placed(m.id, offset, body[offset..]) + Unread(messages, index + 1, 0);
    }
  }

  // ------------------------------------------------------------------
  // When larger inputs never fit better
  // ------------------------------------------------------------------

  ghost predicate Monotone(fits: Fits) {
    forall m: Source, offset: nat, t: Text, n: nat, k: nat | n <= k <= |t| ::
      fits([Part(m, offset, t[..k])]) ==> fits([Part(m, offset, t[..n])])
  }

  // A split slice is then the longest that fits.
  lemma {:induction false} SplitIsLongest(m: Source, offset: nat, fits: Fits, n: nat, b: Batch, rest: Text, k: nat)
    requires Monotone(fits) && IsSplit(m, offset, fits, n, b)
    requires Decode(Encode(m.text)[offset..]) == Some(rest) && n < k <= |rest|
    ensures !fits([Part(m, offset, rest[..k])])
  {
  }

  // ------------------------------------------------------------------
  // Iterating the planner
  // ------------------------------------------------------------------

  ghost predicate Planned(messages: seq<Source>, index: nat, offset: nat, fits: Fits, batches: seq<Batch>)
    decreases |batches|
  {
    batches == []
    || (Tiles(messages, index, offset, batches[0]) && fits(batches[0].slices)
        && Planned(messages, batches[0].nextIndex, batches[0].nextOffset, fits, batches[1..]))
  }

  function AllSlices(batches: seq<Batch>): seq<Slice> {
    if batches == [] then [] else batches[0].slices + AllSlices(batches[1..])
  }

  function Reached(index: nat, offset: nat, batches: seq<Batch>): (nat, nat) {
    if batches == [] then (index, offset) else (batches[|batches| - 1].nextIndex, batches[|batches| - 1].nextOffset)
  }

  // Together the batches cover the history up to the cursor they reach, and there are only so many of them.
  lemma {:induction false} PlanTiles(messages: seq<Source>, index: nat, offset: nat, fits: Fits, batches: seq<Batch>)
    requires At(messages, index, offset) && Planned(messages, index, offset, fits, batches)
    ensures var (i, o) := Reached(index, offset, batches);
            At(messages, i, o) && index <= i
            && Covered(AllSlices(batches)) + Unread(messages, i, o) == Unread(messages, index, offset)
            && |batches| + (|messages| - i) + |Unread(messages, i, o)| <= (|messages| - index) + |Unread(messages, index, offset)|
    decreases |batches|
  {
    hide Unread, Encode, Boundary, Covered;
    CoveredNone();
    if batches != [] {
      var b := batches[0];
      PlanTiles(messages, b.nextIndex, b.nextOffset, fits, batches[1..]);
      CoveredAppend(b.slices, AllSlices(batches[1..]));
      Shrinks(messages, index, offset, b);
    }
  }

  lemma {:induction false} Shrinks(messages: seq<Source>, index: nat, offset: nat, b: Batch)
    requires At(messages, index, offset) && Tiles(messages, index, offset, b)
    ensures (|messages| - b.nextIndex) + |Unread(messages, b.nextIndex, b.nextOffset)|
            < (|messages| - index) + |Unread(messages, index, offset)|
  {
  }

  // Single characters and empty messages fit.
  ghost predicate Roomy(fits: Fits) {
    (forall m: Source, offset: nat, t: Text | |t| == 1 :: fits([Part(m, offset, t)]))
    && forall m: Source | m.text == [] :: fits([Whole(m)])
  }

  // A cursor at a message's start, or strictly inside it between two characters.
  ghost predicate Cut(t: Text, offset: nat) {
    Boundary(t, offset) && (offset > 0 ==> offset < |Encode(t)|)
  }

  // Plan the whole history; with room for one character the planner always gets to its end.
  method PlanAll(messages: seq<Source>, fits: Fits) returns (batches: seq<Batch>, refused: Option<Rejection>)
    ensures Planned(messages, 0, 0, fits, batches)
    ensures refused.None? ==> Covered(AllSlices(batches)) == Unread(messages, 0, 0)
    ensures Roomy(fits) ==> refused.None?
  {
    var index: nat, offset: nat := 0, 0;
    batches, refused := [], None;
    while index < |messages|
      invariant Resumable(messages, index, offset) && Planned(messages, 0, 0, fits, batches)
      invariant Reached(0, 0, batches) == (index, offset)
      decreases |messages| - index + |Unread(messages, index, offset)|
    {
      FromStart(messages[index].text);
      var r := PlanBatch(messages, index, offset, fits);
      match r {
        case Err(e) =>
          if Roomy(fits) {
            RoomEverywhere(messages[index], offset, fits);
          }
          refused := Some(e);
          return;
        case Ok(b) =>
          Shrinks(messages, index, offset, b);
          PlannedSnoc(messages, 0, 0, fits, batches, b);
          batches, index, offset := batches + [b], b.nextIndex, b.nextOffset;
      }
    }
    PlanTiles(messages, 0, 0, fits, batches);
    assert Covered(AllSlices(batches)) + [] == Unread(messages, 0, 0);
  }

  // Where one character fits, the planner has something to offer.
  lemma {:induction false} RoomEverywhere(m: Source, offset: nat, fits: Fits)
    requires Roomy(fits) && Cut(m.text, offset)
    ensures !NoRoom(m, offset, fits)
  {
    SuffixDecodes(m.text, offset);
    var rest := Decode(Encode(m.text)[offset..]).value;
    if rest == [] {
      assert Encode(m.text)[offset..] == [];
      assert fits([Whole(m)]);
    } else {
      assert |rest[..1]| == 1;
      assert fits([Part(m, offset, rest[..1])]);
    }
  }

  lemma {:induction false} PlannedSnoc(messages: seq<Source>, index: nat, offset: nat, fits: Fits, batches: seq<Batch>, b: Batch)
    requires Planned(messages, index, offset, fits, batches) && fits(b.slices)
    requires var (i, o) := Reached(index, offset, batches); Tiles(messages, i, o, b)
    ensures Planned(messages, index, offset, fits, batches + [b])
    decreases |batches|
  {
    hide Tiles;
    if batches != [] {
      assert (batches + [b])[1..] == batches[1..] + [b];
      assert Reached(index, offset, batches) == Reached(batches[0].nextIndex, batches[0].nextOffset, batches[1..]);
      PlannedSnoc(messages, batches[0].nextIndex, batches[0].nextOffset, fits, batches[1..], b);
    }
  }

  // ------------------------------------------------------------------
  // The fallback planner: at most SEGMENT source bytes a call
  // ------------------------------------------------------------------

  const SEGMENT: nat := 2048

  function ByteCount(slices: seq<Slice>): nat {
    if slices == [] then 0 else ByteCount(slices[..|slices| - 1]) + |Encode(slices[|slices| - 1].text)|
  }

  lemma {:induction false} ByteCountSnoc(slices: seq<Slice>, s: Slice)
    ensures ByteCount(slices + [s]) == ByteCount(slices) + |Encode(s.text)|
  {
    assert (slices + [s])[..|slices|] == slices;
  }

  lemma {:induction false} ByteCountNone()
    ensures ByteCount([]) == 0
  {
  }

  // The first segment of a text: as many characters as go into `size` bytes.
  function Segment(t: Text, size: nat): (n: nat)
    ensures n <= |t| && |Encode(t[..n])| <= size
    ensures n < |t| ==> |Encode(t[..n + 1])| > size
    ensures t != [] && size >= 4 ==> n > 0
  {
    if t == [] || |EncodeChar(t[0])| > size then
      assert t != [] ==> t[..1][1..] == [];
      0
    else
      var n := Segment(t[1..], size - |EncodeChar(t[0])|);
      assert t[..n + 1][1..] == t[1..][..n];
      assert n + 1 < |t| ==> t[..n + 2][1..] == t[1..][..n + 1];
      n + 1
  }

  // The sizes halving goes through.
  const SIZES: set<nat> := {2048, 1024, 512, 256, 128, 64, 32, 16, 8, 4}

  ghost predicate NoSegmentFits(m: Source, offset: nat, rest: Text, fits: Fits) {
    forall size | size in SIZES :: !fits([Part(m, offset, rest[..Segment(rest, size)])])
  }

  // A message to be split of which no segment fits, or a small one that does not fit whole.
  ghost predicate NoSegmentRoom(m: Source, offset: nat, fits: Fits) {
    if offset > 0 || |Encode(m.text)| > SEGMENT then
      offset <= |Encode(m.text)|
      && forall rest | Decode(Encode(m.text)[offset..]) == Some(rest) :: NoSegmentFits(m, offset, rest, fits)
    else !fits([Whole(m)])
  }

  // It takes as many whole small messages as fit, or of a message to be split the largest segment that fits.
  ghost predicate SegmentFull(messages: seq<Source>, index: nat, offset: nat, fits: Fits, b: Batch)
    requires index < |messages| && offset <= |Encode(messages[index].text)|
  {
    if |b.slices| > 0 && b.slices[0].whole then
      index < b.nextIndex <= |messages| && b.nextOffset == 0 && b.slices == Wholes(messages[index..b.nextIndex])
      && (b.nextIndex < |messages| ==> !JoinsSegment(b.slices, messages[b.nextIndex], fits))
    else
      (offset > 0 || |Encode(messages[index].text)| > SEGMENT) && exists size :: IsSegment(messages[index], offset, fits, size, b)
  }

  predicate JoinsSegment(chosen: seq<Slice>, m: Source, fits: Fits) {
    |Encode(m.text)| <= SEGMENT && fits(chosen + [Whole(m)]) && ByteCount(chosen + [Whole(m)]) <= SEGMENT
  }

  ghost predicate IsSegment(m: Source, offset: nat, fits: Fits, size: nat, b: Batch)
    requires offset <= |Encode(m.text)|
  {
    size in SIZES
    && exists rest :: Decode(Encode(m.text)[offset..]) == Some(rest) && b.slices == [Part(m, offset, rest[..Segment(rest, size)])]
                      && forall larger | larger in SIZES && larger > size :: !fits([Part(m, offset, rest[..Segment(rest, larger)])])
  }

  // What the fallback planner answers at a cursor: it refuses exactly without such room.
  ghost predicate SegmentPlanOf(messages: seq<Source>, index: nat, offset: nat, fits: Fits, r: Result<Batch, Rejection>) {
    if index >= |messages| then r == Err(BadPosition)
    else if offset > |Encode(messages[index].text)| then r == Err(OutsideSource)
    else if !Boundary(messages[index].text, offset) then r == Err(CutsCharacter)
    else if NoSegmentRoom(messages[index], offset, fits) then r == Err(OverBudget)
    else
      r.Ok? && fits(r.value.slices) && Tiles(messages, index, offset, r.value) && ByteCount(r.value.slices) <= SEGMENT
      && SegmentFull(messages, index, offset, fits, r.value)
  }

  lemma {:induction false} SegmentStep(t: Text, size: nat)
    ensures Segment(t, size) == if t == [] || |EncodeChar(t[0])| > size then 0 else Segment(t[1..], size - |EncodeChar(t[0])|) + 1
  {
  }

  lemma {:induction false} SegmentsNest(t: Text, small: nat, large: nat)
    requires small <= large
    ensures Segment(t, small) <= Segment(t, large)
  {
    hide Segment, EncodeChar;
    SegmentStep(t, small);
    SegmentStep(t, large);
    if t != [] && |EncodeChar(t[0])| <= small {
      SegmentsNest(t[1..], small - |EncodeChar(t[0])|, large - |EncodeChar(t[0])|);
    }
  }

  // When larger inputs never fit better, the smallest segment decides.
  lemma {:induction false} SmallestSegmentDecides(m: Source, offset: nat, rest: Text, fits: Fits)
    requires Monotone(fits)
    ensures NoSegmentFits(m, offset, rest, fits) <==> !fits([Part(m, offset, rest[..Segment(rest, 4)])])
  {
    hide Segment;
    if !fits([Part(m, offset, rest[..Segment(rest, 4)])]) {
      forall size | size in SIZES ensures !fits([Part(m, offset, rest[..Segment(rest, size)])]) {
        SegmentsNest(rest, 4, size);
      }
    }
  }

  lemma {:induction false} Halved(size: nat)
    requires size in SIZES
    ensures 4 <= size <= 2048 && (size / 2 == 2 || size / 2 in SIZES)
    ensures forall other | other in SIZES && other > size / 2 :: other >= size
  {
  }

  lemma {:induction false} LargestSize()
    ensures SEGMENT in SIZES && 2 !in SIZES && forall size | size in SIZES :: 4 <= size <= SEGMENT
  {
  }

  // Halve the segment until it fits.
  method SplitSegment(messages: seq<Source>, index: nat, offset: nat, rest: Text, fits: Fits) returns (r: Result<Batch, Rejection>)
    requires index < |messages| && offset <= |Encode(messages[index].text)|
    requires Decode(Encode(messages[index].text)[offset..]) == Some(rest)
    ensures r.Err? ==> r == Err(OverBudget)
    ensures r.Err? <==> NoSegmentFits(messages[index], offset, rest, fits)
    ensures r.Ok? ==> fits(r.value.slices) && Tiles(messages, index, offset, r.value) && ByteCount(r.value.slices) <= SEGMENT
    ensures r.Ok? ==> |r.value.slices| == 1 && !r.value.slices[0].whole
                      && exists size :: IsSegment(messages[index], offset, fits, size, r.value)
  {
    hide Covered, Unread, Encode, Decode, Boundary, Tiles, Segment, SIZES;
    var m := messages[index];
    var size := SEGMENT;
    LargestSize();
    while size >= 4
      invariant size == 2 || size in SIZES
      invariant forall tried | tried in SIZES && tried > size :: !fits([Part(m, offset, rest[..Segment(rest, tried)])])
    {
      Halved(size);
      var n := Segment(rest, size);
      var selected := Part(m, offset, rest[..n]);
      if fits([selected]) {
        var complete := selected.end == |Encode(m.text)|;
        r := Ok(Batch([selected], if complete then index + 1 else index, if complete then 0 else selected.end));
        if n == 0 {
          NothingLeft(messages, index, offset);
        } else {
          SplitTiles(messages, index, offset, rest, n);
        }
        assert [] + [selected] == [selected];
        ByteCountSnoc([], selected);
        assert IsSegment(m, offset, fits, size, r.value);
        return;
      }
      size := size / 2;
    }
    return Err(OverBudget);
  }

  lemma {:induction false} NothingLeft(messages: seq<Source>, index: nat, offset: nat)
    requires index < |messages| && offset <= |Encode(messages[index].text)|
    requires Decode(Encode(messages[index].text)[offset..]) == Some([])
    ensures Encode([]) == [] && offset == |Encode(messages[index].text)|
    ensures Tiles(messages, index, offset, Batch([Part(messages[index], offset, [])], index + 1, 0))
  {
    var m := messages[index];
    CoveredOne(Part(m, offset, []));
    if index + 1 < |messages| {
      FromStart(messages[index + 1].text);
    }
  }

  method PlanSegments(messages: seq<Source>, index: nat, offset: nat, fits: Fits) returns (r: Result<Batch, Rejection>)
    ensures SegmentPlanOf(messages, index, offset, fits, r)
  {
    hide Covered, Unread, Encode, Decode, Boundary, ByteCount, Tiles, Segment, NoSegmentFits, IsSegment;
    if index >= |messages| {
      return Err(BadPosition);
    }
    FromStart(messages[index].text);
    ByteCountNone();
    var chosen: seq<Slice> := [];
    var i := index;
    while i < |messages|
      invariant index <= i <= |messages|
      invariant chosen == Wholes(messages[index..i]) && ByteCount(chosen) <= SEGMENT
      invariant i > index ==> offset == 0 && fits(chosen) && !NoSegmentRoom(messages[index], 0, fits)
    {
      var m := messages[i];
      var body := Encode(m.text);
      var from := if i == index then offset else 0;
      if from > |body| {
        return Err(OutsideSource);
      }
      SuffixDecodes(m.text, from);
      FromStart(m.text);
      var decoded := Decode(body[from..]);
      if decoded.None? {
        return Err(CutsCharacter);
      }
      if from > 0 || |body| > SEGMENT {
        if chosen != [] {
          WholesAdvance(messages, index, i);
          return Ok(Batch(chosen, i, 0));
        }
        r := SplitSegment(messages, i, from, decoded.value, fits);
        return;
      }
      var candidate := chosen + [Whole(m)];
      ByteCountSnoc(chosen, Whole(m));
      assert chosen == [] ==> candidate == [Whole(m)];
      if !(fits(candidate) && ByteCount(candidate) <= SEGMENT) {
        if chosen == [] {
          return Err(OverBudget);
        }
        WholesAdvance(messages, index, i);
        return Ok(Batch(chosen, i, 0));
      }
      WholesSnoc(messages, index, i);
      chosen := candidate;
      i := i + 1;
    }
    WholesAdvance(messages, index, i);
    return Ok(Batch(chosen, |messages|, 0));
  }
}
