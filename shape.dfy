/**
 * The shape of the dispatch trace a traversal makes (parse.go:142-221):
 * dispatches never go shallower than the object being walked, `@context` is
 * never dispatched at any level, and `doApply` brackets each value by its
 * shape: enter, the recursion, exit for an object; one enter/exit pair per
 * element for an array; one apply for anything else.
 */
module TraceShape {
  import opened Wrappers
  import opened Json
  import opened Core
  import opened Context
  import opened Dispatching
  import opened Traversal

  /** The key a call is about. */
  function KeyOf(c: Call): string {
    match c
    case Enter(k) => k
    case Exit(k) => k
    case ApplyTo(k, _) => k
  }

  /** Every dispatch is at depth `d` or deeper, and none of them is about `@context`. */
  predicate Nested(t: seq<Dispatch>, d: nat) {
    forall i :: 0 <= i < |t| ==> t[i].depth >= d && KeyOf(t[i].call) != ContextKey
  }

  lemma NestedAppend(a: seq<Dispatch>, c: seq<Dispatch>, d: nat)
    requires Nested(a, d) && Nested(c, d)
    ensures Nested(a + c, d)
  {
    forall i | 0 <= i < |a + c|
      ensures (a + c)[i].depth >= d && KeyOf((a + c)[i].call) != ContextKey
    {
      if i < |a| {
        assert (a + c)[i] == a[i];
      } else {
        assert (a + c)[i] == c[i - |a|];
      }
    }
  }

  /**
   * Walking an object at depth `d` dispatches only at depth `d` or deeper and
   * never dispatches `@context`, at any nesting level.
   */
  lemma {:induction false} ApplyNested(b: Behaviour, nodes: seq<Handler>, obj: seq<Member>, s: ContextState, d: nat)
    ensures Nested(ApplyRun(b, nodes, obj, s, d).trace, d)
    decreases JMap(obj), 2
  {
    if s.wholeDoc.None? {
      PrePassNested(b, nodes, obj, s, d);
      var pre := PrePassRun(b, nodes, obj, s, d);
      if pre.err.None? {
        MembersNested(b, nodes, obj, 0, pre.state, d);
        NestedAppend(pre.trace, MembersRun(b, nodes, obj, 0, pre.state, d).trace, d);
      }
    }
  }

  lemma {:induction false} PrePassNested(b: Behaviour, nodes: seq<Handler>, obj: seq<Member>, s: ContextState, d: nat)
    ensures Nested(PrePassRun(b, nodes, obj, s, d).trace, d)
    decreases JMap(obj), 1
  {
    match Find(obj, TypeKey)
    case Some(i) => DoApplyNested(b, nodes, TypeKey, obj[i].1, s, d);
    case None =>
      match Find(obj, TypeAsKey)
      case Some(j) => DoApplyNested(b, nodes, TypeAsKey, obj[j].1, s, d);
      case None =>
  }

  lemma {:induction false} MembersNested(b: Behaviour, nodes: seq<Handler>, obj: seq<Member>, i: nat, s: ContextState, d: nat)
    requires i <= |obj|
    ensures Nested(MembersRun(b, nodes, obj, i, s, d).trace, d)
    decreases JMap(obj), 0, |obj| - i
  {
    if i < |obj| {
      if Skipped(obj[i].0) {
        MembersNested(b, nodes, obj, i + 1, s, d);
      } else {
        DoApplyNested(b, nodes, obj[i].0, obj[i].1, s, d);
        var r := DoApplyRun(b, nodes, obj[i].0, obj[i].1, s, d);
        if r.err.None? {
          MembersNested(b, nodes, obj, i + 1, r.state, d);
          NestedAppend(r.trace, MembersRun(b, nodes, obj, i + 1, r.state, d).trace, d);
        }
      }
    }
  }

  lemma {:induction false} DoApplyNested(b: Behaviour, nodes: seq<Handler>, k: string, v: Json, s: ContextState, d: nat)
    requires k != ContextKey
    ensures Nested(DoApplyRun(b, nodes, k, v, s, d).trace, d)
    decreases v, 4
  {
    var (hs, clearFn, s1) := NextNodes(s, nodes);
    ShapeNested(b, nodes, hs, k, v, s1, d);
  }

  lemma {:induction false} ShapeNested(b: Behaviour, nodes: seq<Handler>, hs: seq<Handler>, k: string, v: Json,
                                       s: ContextState, d: nat)
    requires k != ContextKey
    ensures Nested(ShapeRun(b, nodes, hs, k, v, s, d).trace, d)
    decreases v, 3
  {
    match v
    case JMap(m) =>
      var e := DispatchRun(b, hs, Enter(k), s, d);
      if e.err.None? {
        ApplyNested(b, nodes, m, e.state, d + 1);
        var r := ApplyRun(b, nodes, m, e.state, d + 1);
        NestedAppend(e.trace, r.trace, d);
        if r.err.None? {
          NestedAppend(e.trace + r.trace, DispatchRun(b, hs, Exit(k), r.state, d).trace, d);
        }
      }
    case JArr(xs) => ElementsNested(b, nodes, hs, k, xs, 0, s, d);
    case _ =>
  }

  lemma {:induction false} ElementsNested(b: Behaviour, nodes: seq<Handler>, hs: seq<Handler>, k: string, xs: seq<Json>,
                                          i: nat, s: ContextState, d: nat)
    requires k != ContextKey && i <= |xs|
    ensures Nested(ElementsRun(b, nodes, hs, k, xs, i, s, d).trace, d)
    decreases JArr(xs), 2, |xs| - i
  {
    if i < |xs| {
      var e := DispatchRun(b, hs, Enter(k), s, d);
      if e.err.None? {
        ElementNested(b, nodes, hs, k, xs, i, e.state, d);
        var mid := ElementRun(b, nodes, hs, k, xs, i, e.state, d);
        NestedAppend(e.trace, mid.trace, d);
        if mid.err.None? {
          var x := DispatchRun(b, hs, Exit(k), mid.state, d);
          NestedAppend(e.trace + mid.trace, x.trace, d);
          if x.err.None? {
            ElementsNested(b, nodes, hs, k, xs, i + 1, x.state, d);
            NestedAppend(e.trace + mid.trace + x.trace, ElementsRun(b, nodes, hs, k, xs, i + 1, x.state, d).trace, d);
          }
        }
      }
    }
  }

  lemma {:induction false} ElementNested(b: Behaviour, nodes: seq<Handler>, hs: seq<Handler>, k: string, xs: seq<Json>,
                                         i: nat, s: ContextState, d: nat)
    requires k != ContextKey && i < |xs|
    ensures Nested(ElementRun(b, nodes, hs, k, xs, i, s, d).trace, d)
    decreases JArr(xs), 1
  {
    if xs[i].JMap? {
      assert JMap(xs[i].members) == xs[i];
      ApplyNested(b, nodes, xs[i].members, s, d + 1);
    }
  }

  /** The calls of the dispatches made exactly at depth `d`, in order. */
  function Level(t: seq<Dispatch>, d: nat): seq<Call> {
    if t == [] then []
    else (if t[0].depth == d then [t[0].call] else []) + Level(t[1..], d)
  }

  lemma {:induction false} LevelAppend(a: seq<Dispatch>, c: seq<Dispatch>, d: nat)
    ensures Level(a + c, d) == Level(a, d) + Level(c, d)
  {
    if a != [] {
      assert (a + c)[0] == a[0] && (a + c)[1..] == a[1..] + c;
      LevelAppend(a[1..], c, d);
    } else {
      assert a + c == c;
    }
  }

  lemma {:induction false} LevelOfDeeper(t: seq<Dispatch>, d: nat)
    requires Nested(t, d + 1)
    ensures Level(t, d) == []
  {
    if t != [] {
      assert Nested(t[1..], d + 1) by {
        forall i | 0 <= i < |t[1..]| ensures t[1..][i] == t[i + 1] {}
      }
      LevelOfDeeper(t[1..], d);
    }
  }

  lemma LevelSingle(x: Dispatch, d: nat)
    ensures Level([x], d) == if x.depth == d then [x.call] else []
  {
    assert [x][1..] == [];
  }

  /** What the array loop does at its own level for one element: enter, apply unless it is an object, exit. */
  function Bracket(k: string, x: Json): seq<Call> {
    [Enter(k)] + (if x.JMap? then [] else [ApplyTo(k, x)]) + [Exit(k)]
  }

  /** The array loop's calls at its own level, from element `i` on. */
  function Brackets(k: string, xs: seq<Json>, i: nat): seq<Call>
    requires i <= |xs|
    decreases |xs| - i
  {
    if i == |xs| then [] else Bracket(k, xs[i]) + Brackets(k, xs, i + 1)
  }

  /** One element, when it ends without error, makes exactly its bracketed calls at its level. */
  lemma BracketLevel(b: Behaviour, nodes: seq<Handler>, hs: seq<Handler>, k: string, xs: seq<Json>,
                     i: nat, s: ContextState, d: nat)
    requires k != ContextKey && i < |xs|
    ensures var one := BracketRun(b, nodes, hs, k, xs, i, s, d);
      one.err.None? ==> Level(one.trace, d) == Bracket(k, xs[i])
  {
    var e := DispatchRun(b, hs, Enter(k), s, d);
    var mid := ElementRun(b, nodes, hs, k, xs, i, e.state, d);
    var x := DispatchRun(b, hs, Exit(k), mid.state, d);
    if e.err.None? && mid.err.None? && x.err.None? {
      if xs[i].JMap? {
        assert JMap(xs[i].members) == xs[i];
        ApplyNested(b, nodes, xs[i].members, e.state, d + 1);
        LevelOfDeeper(mid.trace, d);
      } else {
        LevelSingle(mid.trace[0], d);
      }
      LevelSingle(e.trace[0], d);
      LevelSingle(x.trace[0], d);
      LevelAppend(e.trace, mid.trace, d);
      LevelAppend(e.trace + mid.trace, x.trace, d);
    }
  }

  /** The array loop, when it runs to the end, makes exactly the bracketed calls at its level. */
  lemma {:induction false} ElementsLevel(b: Behaviour, nodes: seq<Handler>, hs: seq<Handler>, k: string, xs: seq<Json>,
                                         i: nat, s: ContextState, d: nat)
    requires k != ContextKey && i <= |xs|
    ensures var r := ElementsRun(b, nodes, hs, k, xs, i, s, d);
      r.err.None? ==> Level(r.trace, d) == Brackets(k, xs, i)
    decreases |xs| - i
  {
    if i < |xs| {
      ElementsStep(b, nodes, hs, k, xs, i, s, d);
      var one := BracketRun(b, nodes, hs, k, xs, i, s, d);
      if one.err.None? {
        var rest := ElementsRun(b, nodes, hs, k, xs, i + 1, one.state, d);
        ElementsLevel(b, nodes, hs, k, xs, i + 1, one.state, d);
        BracketLevel(b, nodes, hs, k, xs, i, s, d);
        LevelAppend(one.trace, rest.trace, d);
      }
    }
  }

  /** How many times `c` occurs in `cs`. */
  function Occurrences(cs: seq<Call>, c: Call): nat {
    if cs == [] then 0 else (if cs[0] == c then 1 else 0) + Occurrences(cs[1..], c)
  }

  lemma {:induction false} OccurrencesAppend(a: seq<Call>, b: seq<Call>, c: Call)
    ensures Occurrences(a + b, c) == Occurrences(a, c) + Occurrences(b, c)
  {
    if a != [] {
      assert (a + b)[0] == a[0] && (a + b)[1..] == a[1..] + b;
      OccurrencesAppend(a[1..], b, c);
    } else {
      assert a + b == b;
    }
  }

  /** Each element contributes one enter and one exit. */
  lemma {:induction false} BracketsCount(k: string, xs: seq<Json>, i: nat)
    requires i <= |xs|
    ensures Occurrences(Brackets(k, xs, i), Enter(k)) == |xs| - i
    ensures Occurrences(Brackets(k, xs, i), Exit(k)) == |xs| - i
    decreases |xs| - i
  {
    if i < |xs| {
      BracketsCount(k, xs, i + 1);
      var here: seq<Call> := if xs[i].JMap? then [] else [ApplyTo(k, xs[i])];
      var one := Bracket(k, xs[i]);
      assert one == [Enter(k)] + (here + [Exit(k)]);
      assert one[1..] == here + [Exit(k)];
      OccurrencesAppend(here, [Exit(k)], Enter(k));
      OccurrencesAppend(here, [Exit(k)], Exit(k));
      assert [Exit(k)][1..] == [];
      if here != [] {
        assert here[1..] == [];
      }
      OccurrencesAppend(one, Brackets(k, xs, i + 1), Enter(k));
      OccurrencesAppend(one, Brackets(k, xs, i + 1), Exit(k));
    }
  }

  /**
   * Bracketing in `doApply`: an object value gives one enter, the walk of the
   * object with the full node list one level deeper, and one exit; an array of
   * N elements gives N enters and N exits at this level, and no call at all when
   * it is empty; any other value gives exactly one apply.
   */
  lemma DoApplyBrackets(b: Behaviour, nodes: seq<Handler>, k: string, v: Json, s: ContextState, d: nat)
    requires k != ContextKey
    ensures var r := DoApplyRun(b, nodes, k, v, s, d);
      var (hs, clearFn, s1) := NextNodes(s, nodes);
      && (v.JMap? && r.err.None? ==>
            var e := DispatchRun(b, hs, Enter(k), s1, d);
            var inner := ApplyRun(b, nodes, v.members, e.state, d + 1);
            && r.trace == e.trace + inner.trace + [Dispatch(d, Exit(k), FirstMatch(b, hs, Exit(k), inner.state).tries)]
            && Level(r.trace, d) == [Enter(k), Exit(k)])
      && (v.JArr? && r.err.None? ==>
            && Level(r.trace, d) == Brackets(k, v.items, 0)
            && Occurrences(Level(r.trace, d), Enter(k)) == |v.items|
            && Occurrences(Level(r.trace, d), Exit(k)) == |v.items|)
      && (v == JArr([]) ==> r.trace == [] && r.err.None?)
      && (!v.JMap? && !v.JArr? ==> r.trace == [Dispatch(d, ApplyTo(k, v), FirstMatch(b, hs, ApplyTo(k, v), s1).tries)])
  {
    var (hs, clearFn, s1) := NextNodes(s, nodes);
    var r := DoApplyRun(b, nodes, k, v, s, d);
    match v
    case JMap(m) =>
      var e := DispatchRun(b, hs, Enter(k), s1, d);
      if r.err.None? {
        var inner := ApplyRun(b, nodes, m, e.state, d + 1);
        var x := DispatchRun(b, hs, Exit(k), inner.state, d);
        ApplyNested(b, nodes, m, e.state, d + 1);
        LevelOfDeeper(inner.trace, d);
        LevelAppend(e.trace, inner.trace, d);
        LevelAppend(e.trace + inner.trace, x.trace, d);
      }
    case JArr(xs) =>
      ElementsLevel(b, nodes, hs, k, xs, 0, s1, d);
      BracketsCount(k, xs, 0);
    case _ =>
  }
}
