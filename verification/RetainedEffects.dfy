// What each candidate of a merge leaves behind, and when the merge is refused.
module RetainedEffects {
  import opened Wrappers
  import opened RetainedItems

  // ------------------------------------------------------------------
  // Keys
  // ------------------------------------------------------------------

  // Kinds, actions and conditions are names of an enumeration.
  predicate Named(d: Directive) {
    ':' !in d.kind && ':' !in d.action && ':' !in d.condition
  }

  lemma {:induction false} ColonCut(a: string, b: string, x: string, y: string)
    requires ':' !in a && ':' !in b && a + (":" + x) == b + (":" + y)
    ensures a == b && x == y
  {
    var s := a + (":" + x);
    assert s[|a|] == ':' && s[|b|] == ':';
    assert a == s[..|a|] && b == s[..|b|] && x == s[|a| + 1..] && y == s[|b| + 1..];
  }

  function ScopeName(s: Scope): string {
    if s.Conversation? then "conversation" else "persistent"
  }

  function Tail(d: Directive): string {
    d.kind + (":" + (d.action + (":" + (d.condition + (":" + Target(d))))))
  }

  lemma {:induction false} KeyParts(s: Scope, d: Directive)
    ensures KeyOf(s, d) == ScopeName(s) + (":" + Tail(d))
  {
    hide Target;
    var name, t := ScopeName(s), Target(d);
    assert KeyOf(s, d) == name + ":" + d.kind + ":" + d.action + ":" + d.condition + ":" + t;
    Associates(name, d.kind, d.action, d.condition, t);
  }

  lemma {:induction false} Associates(a: string, b: string, c: string, d: string, e: string)
    ensures a + ":" + b + ":" + c + ":" + d + ":" + e == a + (":" + (b + (":" + (c + (":" + (d + (":" + e)))))))
  {
    Regroup(a, b, ":" + c + ":" + d + ":" + e);
    Regroup(b, c, ":" + d + ":" + e);
    Regroup(c, d, ":" + e);
    assert ":" + c + ":" + d + ":" + e == ":" + (c + (":" + d + ":" + e)) && ":" + d + ":" + e == ":" + (d + (":" + e));
    assert a + ":" + b + ":" + c + ":" + d + ":" + e == a + ":" + b + (":" + c + ":" + d + ":" + e);
  }

  lemma {:induction false} Regroup(a: string, b: string, c: string)
    ensures a + ":" + b + c == a + (":" + (b + c))
  {
  }

  // Two directives share a key exactly when they agree in scope, kind, action, condition and target.
  lemma {:induction false} KeysSeparate(s: Scope, d: Directive, s': Scope, d': Directive)
    requires Named(d) && Named(d')
    ensures KeyOf(s, d) == KeyOf(s', d')
            <==> s == s' && d.kind == d'.kind && d.action == d'.action && d.condition == d'.condition && Target(d) == Target(d')
  {
    hide Target, KeyOf, ScopeName;
    KeyParts(s, d);
    KeyParts(s', d');
    ScopeNames(s, s');
    if KeyOf(s, d) == KeyOf(s', d') {
      var z, z' := d.condition + (":" + Target(d)), d'.condition + (":" + Target(d'));
      ColonCut(ScopeName(s), ScopeName(s'), Tail(d), Tail(d'));
      ColonCut(d.kind, d'.kind, d.action + (":" + z), d'.action + (":" + z'));
      ColonCut(d.action, d'.action, z, z');
      ColonCut(d.condition, d'.condition, Target(d), Target(d'));
    }
  }

  lemma {:induction false} ScopeNames(s: Scope, s': Scope)
    ensures ':' !in ScopeName(s) && ':' !in ScopeName(s') && (ScopeName(s) == ScopeName(s') <==> s == s')
  {
    assert ScopeName(s)[0] == (if s.Conversation? then 'c' else 'p') && ScopeName(s')[0] == if s'.Conversation? then 'c' else 'p';
  }

  // ------------------------------------------------------------------
  // What is set is held
  // ------------------------------------------------------------------

  predicate Names(c: Candidate, k: string) {
    match c
    case End(ends, _, _) => ends == k
    case Set(d, s, _, supersedes) => KeyOf(s, d) == k || supersedes == Some(k)
  }

  // The preference as the candidate states it: in force, begun with its message if it is for a conversation.
  predicate Holds(i: Item, c: Candidate, generation: nat)
    requires c.Set?
  {
    i.status == Active && i.directive == c.directive && i.scope == c.scope && i.reference == c.reference
    && i.generation == generation && i.end == None && !i.legacy && i.projection == None
    && (c.scope.Conversation? ==> i.begin == From(c.reference.source))
    && (c.scope.Persistent? ==> i.begin == Null)
  }

  lemma {:induction false} SetStores(items: Items, c: Candidate, generation: nat)
    requires c.Set? && Step(items, c, generation).Ok?
    ensures var after := Step(items, c, generation).value;
            KeyOf(c.scope, c.directive) in after && Holds(after[KeyOf(c.scope, c.directive)], c, generation)
  {
  }

  // Whatever came before: when the last candidate to name a key sets it, the merged items hold it so.
  lemma {:induction false} SetHolds(items: Items, cs: seq<Candidate>, generation: nat, i: nat)
    requires Fold(items, cs, generation).Ok? && i < |cs| && cs[i].Set?
    requires forall j | i < j < |cs| :: !Names(cs[j], KeyOf(cs[i].scope, cs[i].directive))
    ensures var after, k := Fold(items, cs, generation).value, KeyOf(cs[i].scope, cs[i].directive);
            k in after && Holds(after[k], cs[i], generation)
    decreases |cs|
  {
    var next := Step(items, cs[0], generation).value;
    if i == 0 {
      SetStores(items, cs[0], generation);
      var k := KeyOf(cs[0].scope, cs[0].directive);
      forall c | c in cs[1..] ensures !Aims(c, k, next[k]) {
        var j :| 0 <= j < |cs[1..]| && cs[1..][j] == c;
        assert cs[1 + j] == c;
      }
      Untouched(next, cs[1..], generation, k);
    } else {
      SetHolds(next, cs[1..], generation, i - 1);
    }
  }

  // And so does the document.
  lemma {:induction false} MergeHolds(previous: Document, cs: seq<Candidate>, generation: nat, i: nat)
    requires Merge(previous, cs, generation).Ok? && i < |cs| && cs[i].Set?
    requires forall j | i < j < |cs| :: !Names(cs[j], KeyOf(cs[i].scope, cs[i].directive))
    ensures exists e :: e in Merge(previous, cs, generation).value
                        && e.0 == KeyOf(cs[i].scope, cs[i].directive) && Holds(e.1, cs[i], generation)
  {
    hide Holds, Names, Fold, SortedKeys;
    SetHolds(Keyed(previous), cs, generation, i);
    var items, k := Fold(Keyed(previous), cs, generation).value, KeyOf(cs[i].scope, cs[i].directive);
    SortedKeysSort(items.Keys);
    var n :| 0 <= n < |SortedKeys(items.Keys)| && SortedKeys(items.Keys)[n] == k;
    assert Listed(items)[n] == (k, items[k]);
  }

  // ------------------------------------------------------------------
  // What a set changes elsewhere
  // ------------------------------------------------------------------

  // The item is closed in favour of the one that replaces it, and otherwise as it was.
  predicate ReplacedBy(was: Item, now: Item, c: Candidate)
    requires c.Set?
  {
    now.status == Ended && now.projection == Some(Replaced(KeyOf(c.scope, c.directive), c.reference))
    && was == now.(status := was.status, projection := was.projection)
  }

  // Under every other key: a superseded item is gone, or closed if it is a legacy one; an active legacy
  // item that says the same is closed; everything else stays.
  lemma {:induction false} SetLeaves(items: Items, c: Candidate, generation: nat, k: string)
    requires c.Set? && Step(items, c, generation).Ok? && k != KeyOf(c.scope, c.directive)
    ensures var after := Step(items, c, generation).value;
            (k in after <==> k in items && (c.supersedes == Some(k) ==> items[k].legacy))
            && (k in after ==>
                  if c.supersedes == Some(k) || (items[k].legacy && items[k].status == Active && items[k].directive == c.directive)
                  then ReplacedBy(items[k], after[k], c)
                  else after[k] == items[k])
  {
  }

  // ------------------------------------------------------------------
  // Refusals
  // ------------------------------------------------------------------

  // A set is refused when it corrects an item that is not there, or of another scope or kind.
  predicate WrongCorrection(items: Items, c: Candidate) {
    c.Set? && c.supersedes.Some?
    && (c.supersedes.value in items ==> items[c.supersedes.value].scope != c.scope || items[c.supersedes.value].directive.kind != c.directive.kind)
  }

  // An end is refused without an active conversation preference to end,
  predicate NoneToEnd(items: Items, c: Candidate) {
    c.End? && (c.ends in items ==> items[c.ends].scope == Persistent || items[c.ends].status == Ended)
  }

  // or before the message its beginning is known by.
  predicate TooEarly(items: Items, c: Candidate) {
    c.End? && c.ends in items
    && match items[c.ends].begin
       case Missing => c.reference.source < items[c.ends].reference.source
       case Null => true
       case From(m) => c.reference.source < m
  }

  ghost predicate RefusedFor(items: Items, c: Candidate, e: Rejection) {
    match e
    case WrongScope => WrongCorrection(items, c)
    case NothingToEnd => NoneToEnd(items, c)
    case EndsBeforeItStarts => !NoneToEnd(items, c) && TooEarly(items, c)
  }

  // A merge is refused exactly for the first candidate that is refused, with its reason.
  lemma {:induction false} RefusedExactly(items: Items, cs: seq<Candidate>, generation: nat, e: Rejection)
    ensures Fold(items, cs, generation) == Err(e)
            <==> exists i :: 0 <= i < |cs| && Fold(items, cs[..i], generation).Ok? && RefusedFor(Fold(items, cs[..i], generation).value, cs[i], e)
    decreases |cs|
  {
    if cs != [] {
      var step := Step(items, cs[0], generation);
      StepRefused(items, cs[0], generation, e);
      assert cs[..0] == [] && Fold(items, cs[..0], generation) == Ok(items);
      forall i | 0 < i <= |cs|
        ensures Fold(items, cs[..i], generation) == (if step.Ok? then Fold(step.value, cs[1..][..i - 1], generation) else Err(step.error))
      {
        assert cs[..i][0] == cs[0] && cs[..i][1..] == cs[1..][..i - 1];
      }
      if step.Ok? {
        RefusedExactly(step.value, cs[1..], generation, e);
        if Fold(items, cs, generation) == Err(e) {
          var i :| 0 <= i < |cs[1..]| && Fold(step.value, cs[1..][..i], generation).Ok?
                   && RefusedFor(Fold(step.value, cs[1..][..i], generation).value, cs[1..][i], e);
          assert cs[1..][i] == cs[i + 1] && Fold(items, cs[..i + 1], generation).Ok?;
        }
        if i :| 0 <= i < |cs| && Fold(items, cs[..i], generation).Ok? && RefusedFor(Fold(items, cs[..i], generation).value, cs[i], e) {
          if i > 0 {
            assert cs[1..][i - 1] == cs[i];
          }
        }
      }
    }
  }

  lemma {:induction false} StepRefused(items: Items, c: Candidate, generation: nat, e: Rejection)
    ensures Step(items, c, generation) == Err(e) <==> RefusedFor(items, c, e)
  {
  }
}
