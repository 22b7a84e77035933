// A lineage that dies although every single character fits a call: truncated output sends it
// to the fallback, whose planner does not split a message of at most SEGMENT bytes.
module ContractRefusal {
  import opened Wrappers
  import opened Utf8
  import opened BatchPlanner
  import opened ContractLiveness

  // A control character takes six bytes in JSON.
  function CharCost(c: Scalar): nat {
    if c < 32 then 6 else 1
  }

  function Cost(t: Text): nat {
    if t == [] then 0 else CharCost(t[0]) + Cost(t[1..])
  }

  function TotalCost(slices: seq<Slice>): nat {
    if slices == [] then 0 else Cost(slices[0].text) + TotalCost(slices[1..])
  }

  const LIMIT: nat := 4000

  predicate InBudget(slices: seq<Slice>) {
    TotalCost(slices) <= LIMIT
  }

  const Budget: Fits := s => InBudget(s)

  lemma {:induction false} CostOfOne(s: Slice)
    ensures TotalCost([s]) == Cost(s.text)
  {
    assert [s][1..] == [];
  }

  lemma {:induction false} CostOfPrefix(t: Text, n: nat)
    requires n <= |t|
    ensures Cost(t[..n]) <= Cost(t)
  {
    if n > 0 {
      assert t[..n][1..] == t[1..][..n - 1];
      CostOfPrefix(t[1..], n - 1);
    }
  }

  // Every single character fits, and larger inputs never fit better.
  lemma {:induction false} BudgetIsRoomy()
    ensures Roomy(Budget) && Monotone(Budget)
  {
    forall m: Source, offset: nat, t: Text | |t| == 1 ensures Budget([Part(m, offset, t)]) {
      CostOfOne(Part(m, offset, t));
      assert t[1..] == [];
    }
    forall m: Source | m.text == [] ensures Budget([Whole(m)]) {
      CostOfOne(Whole(m));
    }
    forall m: Source, offset: nat, t: Text, n: nat, k: nat | n <= k <= |t| && Budget([Part(m, offset, t[..k])])
      ensures Budget([Part(m, offset, t[..n])])
    {
      CostOfOne(Part(m, offset, t[..n]));
      CostOfOne(Part(m, offset, t[..k]));
      assert t[..k][..n] == t[..n];
      CostOfPrefix(t[..k], n);
    }
  }

  function Repeated(c: Scalar, n: nat): (t: Text)
    ensures |t| == n
  {
    if n == 0 then [] else [c] + Repeated(c, n - 1)
  }

  lemma {:induction false} RepeatedMeasures(c: Scalar, n: nat)
    requires c < 0x80
    ensures Cost(Repeated(c, n)) == n * CharCost(c) && |Encode(Repeated(c, n))| == n
  {
    if n > 0 {
      RepeatedMeasures(c, n - 1);
      assert Repeated(c, n)[1..] == Repeated(c, n - 1);
    }
  }

  // 2048 letters, one more letter, and a thousand control characters.
  function Long(): Source { Source(1, Repeated(97, 2048)) }

  function Short(): Source { Source(2, Repeated(97, 1)) }

  function Control(): Source { Source(3, Repeated(1, 1000)) }

  function History(): seq<Source> {
    [Long(), Short(), Control()]
  }

  lemma {:induction false} Sizes()
    ensures |Encode(Long().text)| == Cost(Long().text) == 2048
    ensures |Encode(Short().text)| == Cost(Short().text) == 1
    ensures |Encode(Control().text)| == 1000 && Cost(Control().text) == 6000
  {
    RepeatedMeasures(97, 2048);
    RepeatedMeasures(97, 1);
    RepeatedMeasures(1, 1000);
  }

  lemma {:induction false} CostOfWholes()
    ensures TotalCost([Whole(Long())]) == 2048 && TotalCost([Whole(Short())]) == 1 && TotalCost([Whole(Control())]) == 6000
    ensures TotalCost([Whole(Long()), Whole(Short())]) == 2049
    ensures TotalCost([Whole(Long()), Whole(Short()), Whole(Control())]) == 8049
  {
    hide Repeated;
    Sizes();
    CostOfOne(Whole(Long()));
    CostOfOne(Whole(Short()));
    CostOfOne(Whole(Control()));
    assert [Whole(Long()), Whole(Short())][1..] == [Whole(Short())];
    assert [Whole(Long()), Whole(Short()), Whole(Control())][1..] == [Whole(Short()), Whole(Control())];
    assert [Whole(Short()), Whole(Control())][1..] == [Whole(Control())];
  }

  // ------------------------------------------------------------------
  // The run
  // ------------------------------------------------------------------

  // The letters go into one call, whose output is cut off; then each letter message is read in the
  // fallback; the control characters are refused until the attempts are used up.
  function Inputs(): seq<Input> {
    [Input(Budget, Ok(Batch([Whole(Long()), Whole(Short())], 2, 0)), true, Length),
     Input(Budget, Ok(Batch([Whole(Long())], 1, 0)), true, Good),
     Input(Budget, Ok(Batch([Whole(Short())], 1, 0)), true, Good),
     Input(Budget, Err(OverBudget), true, Good),
     Input(Budget, Err(OverBudget), true, Good)]
  }

  function Fresh(): Lineage {
    Lineage(0, 0, None, 0, 3, {Key.At(0, 0)}, Working)
  }

  function InFallback(index: nat, attempt: nat, keys: set<Key>): Lineage {
    Lineage(index, 0, Some(2), attempt, 2, keys, Working)
  }

  lemma {:induction false} Windows()
    ensures Window(History(), 0) == History() && Window(History(), 1) == [Short(), Control()] && Window(History(), 2) == [Control()]
  {
    hide Repeated;
  }

  lemma {:induction false} FirstPlan()
    ensures PlanGiven(History(), Fresh(), Inputs()[0])
    ensures ByteCount(Inputs()[0].plan.value.slices) == 2049
  {
    hide Repeated, Encode, TotalCost;
    Windows();
    Sizes();
    CostOfWholes();
    var two := [Whole(Long()), Whole(Short())];
    assert Wholes(History()[0..2]) == two;
    assert two + [Whole(Control())] == [Whole(Long()), Whole(Short()), Whole(Control())];
    WholesPlanned(History(), 0, 2, Budget);
    assert [Whole(Long())] + [Whole(Short())] == two && [] + [Whole(Long())] == [Whole(Long())];
    ByteCountNone();
    ByteCountSnoc([], Whole(Long()));
    ByteCountSnoc([Whole(Long())], Whole(Short()));
  }

  // A small message is taken whole, or refused; the one behind it does not go with it.
  lemma {:induction false} SmallPlan(messages: seq<Source>, l: Lineage, w: seq<Source>)
    requires l.index < |messages| && l.offset == 0 && l.remaining.Some? && w == Window(messages, l.index)
    requires |Encode(w[0].text)| <= SEGMENT && (|w| > 1 ==> !JoinsSegment([Whole(w[0])], w[1], Budget))
    ensures Budget([Whole(w[0])]) ==> PlanGiven(messages, l, Input(Budget, Ok(Batch([Whole(w[0])], 1, 0)), true, Good))
    ensures !Budget([Whole(w[0])]) ==> PlanGiven(messages, l, Input(Budget, Err(OverBudget), true, Good))
  {
    hide SegmentPlanOf, Encode, Budget;
    WholeOrRefused(w, Budget);
  }

  lemma {:induction false} WholeOrRefused(w: seq<Source>, fits: Fits)
    requires w != [] && |Encode(w[0].text)| <= SEGMENT && (|w| > 1 ==> !JoinsSegment([Whole(w[0])], w[1], fits))
    ensures fits([Whole(w[0])]) ==> SegmentPlanOf(w, 0, 0, fits, Ok(Batch([Whole(w[0])], 1, 0)))
    ensures !fits([Whole(w[0])]) ==> SegmentPlanOf(w, 0, 0, fits, Err(OverBudget))
  {
    hide Encode, Tiles, Boundary, NoSegmentFits, ByteCount, JoinsSegment, IsSegment;
    FromStart(w[0].text);
    assert Wholes(w[0..1]) == [Whole(w[0])];
    WholesAdvance(w, 0, 1);
    ByteCountNone();
    assert [] + [Whole(w[0])] == [Whole(w[0])];
    ByteCountSnoc([], Whole(w[0]));
  }

  lemma {:induction false} TooManyBytes(a: Source, b: Source, fits: Fits)
    requires |Encode(a.text)| + |Encode(b.text)| > SEGMENT
    ensures !JoinsSegment([Whole(a)], b, fits)
  {
    hide Encode, ByteCount;
    ByteCountNone();
    assert [] + [Whole(a)] == [Whole(a)];
    ByteCountSnoc([], Whole(a));
    ByteCountSnoc([Whole(a)], Whole(b));
  }

  lemma {:induction false} TooCostly(a: Source, b: Source)
    requires Cost(b.text) > LIMIT
    ensures !JoinsSegment([Whole(a)], b, Budget)
  {
    hide Encode, ByteCount, Cost;
    CostOfOne(Whole(b));
    assert ([Whole(a)] + [Whole(b)])[1..] == [Whole(b)];
  }

  lemma {:induction false} NeighboursApart()
    ensures !JoinsSegment([Whole(Long())], Short(), Budget) && !JoinsSegment([Whole(Short())], Control(), Budget)
  {
    hide Repeated, Encode, JoinsSegment, Cost, Budget;
    Sizes();
    TooManyBytes(Long(), Short(), Budget);
    TooCostly(Short(), Control());
  }

  lemma {:induction false} LaterPlans(keys: set<Key>, attempt: nat)
    ensures PlanGiven(History(), InFallback(0, attempt, keys), Inputs()[1]) && PlanGiven(History(), InFallback(1, attempt, keys), Inputs()[2])
    ensures PlanGiven(History(), InFallback(2, attempt, keys), Inputs()[3])
  {
    hide Repeated, Encode, TotalCost, PlanGiven, JoinsSegment;
    Windows();
    Sizes();
    CostOfWholes();
    NeighboursApart();
    SmallPlan(History(), InFallback(0, attempt, keys), Window(History(), 0));
    SmallPlan(History(), InFallback(1, attempt, keys), Window(History(), 1));
    SmallPlan(History(), InFallback(2, attempt, keys), Window(History(), 2));
  }

  lemma {:induction false} Executions()
    ensures var keys := {Key.At(0, 0), Smaller(0, 0)};
            Execute(History(), Fresh(), Inputs()[0]) == InFallback(0, 0, keys)
            && Execute(History(), InFallback(0, 0, keys), Inputs()[1]) == InFallback(1, 0, keys + {Key.At(1, 0)})
            && Execute(History(), InFallback(1, 0, keys + {Key.At(1, 0)}), Inputs()[2]) == InFallback(2, 0, keys + {Key.At(1, 0)} + {Key.At(2, 0)})
            && Execute(History(), InFallback(2, 0, keys + {Key.At(1, 0)} + {Key.At(2, 0)}), Inputs()[3])
               == InFallback(2, 1, keys + {Key.At(1, 0)} + {Key.At(2, 0)})
            && Execute(History(), InFallback(2, 1, keys + {Key.At(1, 0)} + {Key.At(2, 0)}), Inputs()[4]).status.Dead?
  {
    hide Repeated, Encode, ByteCount;
    FirstPlan();
  }

  lemma {:induction false} OneMore(messages: seq<Source>, l: Lineage, x: Input, xs: seq<Input>)
    requires l.status.Working? && PlanGiven(messages, l, x) && AllGiven(messages, Execute(messages, l, x), xs)
    ensures AllGiven(messages, l, [x] + xs) && Run(messages, l, [x] + xs) == Run(messages, Execute(messages, l, x), xs)
  {
    assert ([x] + xs)[1..] == xs;
  }

  // Every single character fits and larger inputs never fit better; a lineage of three attempts,
  // truncated once and answered well ever after, is dead before its target.
  lemma {:induction false} RoomForOneIsNotEnough()
    ensures Roomy(Budget) && Monotone(Budget) && Healthy(History(), Fresh())
    ensures AllGiven(History(), Fresh(), Inputs()) && Run(History(), Fresh(), Inputs()).status.Dead?
  {
    hide Repeated, Encode, Execute, PlanGiven, Window, Healthy, Roomy, Monotone, Budget, Long, Short, Control;
    BudgetIsRoomy();
    FreshHealthy(History(), 3);
    Executions();
    FirstPlan();
    var keys := {Key.At(0, 0), Smaller(0, 0)};
    LaterPlans(keys, 0);
    LaterPlans(keys + {Key.At(1, 0)}, 0);
    LaterPlans(keys + {Key.At(1, 0)} + {Key.At(2, 0)}, 0);
    LaterPlans(keys + {Key.At(1, 0)} + {Key.At(2, 0)}, 1);
    var xs := Inputs();
    var l1, l2 := InFallback(0, 0, keys), InFallback(1, 0, keys + {Key.At(1, 0)});
    var l3, l4 := InFallback(2, 0, keys + {Key.At(1, 0)} + {Key.At(2, 0)}), InFallback(2, 1, keys + {Key.At(1, 0)} + {Key.At(2, 0)});
    OneMore(History(), l4, xs[4], []);
    OneMore(History(), l3, xs[3], [xs[4]] + []);
    OneMore(History(), l2, xs[2], [xs[3]] + ([xs[4]] + []));
    OneMore(History(), l1, xs[1], [xs[2]] + ([xs[3]] + ([xs[4]] + [])));
    OneMore(History(), Fresh(), xs[0], [xs[1]] + ([xs[2]] + ([xs[3]] + ([xs[4]] + []))));
    assert [xs[0]] + ([xs[1]] + ([xs[2]] + ([xs[3]] + ([xs[4]] + [])))) == xs;
  }
}
