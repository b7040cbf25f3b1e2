/**
 * The order in which `apply` (parse.go:154-176) hands an object's members to
 * `doApply`: the type pre-pass first (`@type`, or `type` when there is no
 * `@type`), then every member the main loop does not skip, in the order Go's
 * `range` visits them. `@context` is never handed over; with distinct keys
 * every other member is handed over exactly once, except `type` when `@type`
 * is present, which never is.
 */
module Schedule {
  import opened Wrappers
  import opened Json
  import opened Core
  import opened Context
  import opened Dispatching
  import opened Traversal

  /** The member the type pre-pass hands over, if any. */
  function PreIndex(obj: seq<Member>): (r: seq<nat>)
    ensures |r| <= 1
    ensures forall p :: 0 <= p < |r| ==> r[p] < |obj| && (obj[r[p]].0 == TypeKey || obj[r[p]].0 == TypeAsKey)
    ensures Find(obj, TypeKey).Some? ==> r == [Find(obj, TypeKey).value]
    ensures Find(obj, TypeKey).None? && Find(obj, TypeAsKey).Some? ==> r == [Find(obj, TypeAsKey).value]
    ensures Find(obj, TypeKey).None? && Find(obj, TypeAsKey).None? ==> r == []
  {
    match Find(obj, TypeKey)
    case Some(i) => [i]
    case None =>
      match Find(obj, TypeAsKey)
      case Some(j) => [j]
      case None => []
  }

  /** The members the main loop hands over, from position `i` on, in visiting order. */
  function Rest(obj: seq<Member>, i: nat): (r: seq<nat>)
    requires i <= |obj|
    ensures forall j :: j in r <==> i <= j < |obj| && !Skipped(obj[j].0)
    ensures forall p, q :: 0 <= p < q < |r| ==> r[p] < r[q]
    decreases |obj| - i
  {
    if i == |obj| then []
    else if Skipped(obj[i].0) then Rest(obj, i + 1)
    else
      var tail := Rest(obj, i + 1);
      assert forall q :: 0 <= q < |tail| ==> tail[q] in tail;
      [i] + tail
  }

  /** Every member `apply` hands to `doApply`, in order. */
  function Order(obj: seq<Member>): seq<nat> {
    PreIndex(obj) + Rest(obj, 0)
  }

  predicate InRange(obj: seq<Member>, idx: seq<nat>) {
    forall p :: 0 <= p < |idx| ==> idx[p] < |obj|
  }

  /** `doApply` on the listed members one after the other, stopping at the first error. */
  function ScheduleRun(b: Behaviour, nodes: seq<Handler>, obj: seq<Member>, idx: seq<nat>, s: ContextState, depth: nat): Run
    requires InRange(obj, idx)
    decreases |idx|
  {
    if idx == [] then Run(None, s, [])
    else
      var r := DoApplyRun(b, nodes, obj[idx[0]].0, obj[idx[0]].1, s, depth);
      if r.err.Some? then r
      else After(r.trace, ScheduleRun(b, nodes, obj, idx[1..], r.state, depth))
  }

  lemma {:induction false} ScheduleConcat(b: Behaviour, nodes: seq<Handler>, obj: seq<Member>, a: seq<nat>, c: seq<nat>,
                                          s: ContextState, depth: nat)
    requires InRange(obj, a) && InRange(obj, c)
    ensures InRange(obj, a + c)
    ensures var ra := ScheduleRun(b, nodes, obj, a, s, depth);
      ScheduleRun(b, nodes, obj, a + c, s, depth)
        == if ra.err.Some? then ra else After(ra.trace, ScheduleRun(b, nodes, obj, c, ra.state, depth))
    decreases |a|
  {
    assert InRange(obj, a + c) by {
      forall p | 0 <= p < |a + c| ensures (a + c)[p] < |obj| {
        if p < |a| {
          assert (a + c)[p] == a[p];
        } else {
          assert (a + c)[p] == c[p - |a|];
        }
      }
    }
    if a == [] {
      assert a + c == c;
    } else {
      assert (a + c)[0] == a[0] && (a + c)[1..] == a[1..] + c;
      var r := DoApplyRun(b, nodes, obj[a[0]].0, obj[a[0]].1, s, depth);
      if r.err.None? {
        ScheduleConcat(b, nodes, obj, a[1..], c, r.state, depth);
        var ra := ScheduleRun(b, nodes, obj, a[1..], r.state, depth);
        if ra.err.None? {
          AfterAfter(r.trace, ra.trace, ScheduleRun(b, nodes, obj, c, ra.state, depth));
        }
      }
    }
  }

  /** The main loop of `apply` is `doApply` over the unskipped members, in visiting order. */
  lemma {:induction false} MembersFollowRest(b: Behaviour, nodes: seq<Handler>, obj: seq<Member>, i: nat, s: ContextState, depth: nat)
    requires i <= |obj|
    ensures InRange(obj, Rest(obj, i))
    ensures MembersRun(b, nodes, obj, i, s, depth) == ScheduleRun(b, nodes, obj, Rest(obj, i), s, depth)
    decreases |obj| - i
  {
    RestInRange(obj, i);
    if i < |obj| {
      if Skipped(obj[i].0) {
        MembersFollowRest(b, nodes, obj, i + 1, s, depth);
      } else {
        var rest := Rest(obj, i);
        assert rest[0] == i && rest[1..] == Rest(obj, i + 1);
        var r := DoApplyRun(b, nodes, obj[i].0, obj[i].1, s, depth);
        if r.err.None? {
          MembersFollowRest(b, nodes, obj, i + 1, r.state, depth);
          assert ScheduleRun(b, nodes, obj, rest, s, depth)
              == After(r.trace, ScheduleRun(b, nodes, obj, Rest(obj, i + 1), r.state, depth));
        }
      }
    }
  }

  lemma RestInRange(obj: seq<Member>, i: nat)
    requires i <= |obj|
    ensures InRange(obj, Rest(obj, i))
  {
    var rest := Rest(obj, i);
    forall p | 0 <= p < |rest| ensures rest[p] < |obj| {
      assert rest[p] in rest;
    }
  }

  /**
   * Without a whole-document override, walking an object is `doApply` over
   * `Order(obj)`: the type pre-pass member first, then the rest in visiting
   * order, stopping at the first error.
   */
  lemma ApplyFollowsOrder(b: Behaviour, nodes: seq<Handler>, obj: seq<Member>, s: ContextState, depth: nat)
    requires s.wholeDoc.None?
    ensures InRange(obj, Order(obj))
    ensures ApplyRun(b, nodes, obj, s, depth) == ScheduleRun(b, nodes, obj, Order(obj), s, depth)
  {
    var pre := PreIndex(obj);
    MembersFollowRest(b, nodes, obj, 0, s, depth);
    var pr := PrePassRun(b, nodes, obj, s, depth);
    assert pr == ScheduleRun(b, nodes, obj, pre, s, depth) by {
      if pre != [] {
        assert pre[1..] == [];
        var r := DoApplyRun(b, nodes, obj[pre[0]].0, obj[pre[0]].1, s, depth);
        assert r.trace + [] == r.trace;
      }
    }
    MembersFollowRest(b, nodes, obj, 0, pr.state, depth);
    ScheduleConcat(b, nodes, obj, pre, Rest(obj, 0), s, depth);
  }

  lemma FindUnique(obj: seq<Member>, key: string, j: nat)
    requires DistinctKeys(obj) && j < |obj| && obj[j].0 == key
    ensures Find(obj, key) == Some(j)
  {
  }

  /** Which members are handed over: all but `@context`, and but `type` when `@type` is present. */
  lemma OrderMembers(obj: seq<Member>)
    requires DistinctKeys(obj)
    ensures forall j :: 0 <= j < |obj| ==>
      (j in Order(obj) <==> obj[j].0 != ContextKey && !(obj[j].0 == TypeAsKey && Find(obj, TypeKey).Some?))
  {
    forall j | 0 <= j < |obj|
      ensures j in Order(obj) <==> obj[j].0 != ContextKey && !(obj[j].0 == TypeAsKey && Find(obj, TypeKey).Some?)
    {
      if obj[j].0 == TypeKey {
        FindUnique(obj, TypeKey, j);
      } else if obj[j].0 == TypeAsKey && Find(obj, TypeKey).None? {
        FindUnique(obj, TypeAsKey, j);
      }
    }
  }

  /** No member is handed over twice. */
  lemma OrderDistinct(obj: seq<Member>)
    ensures var order := Order(obj);
      forall p, q :: 0 <= p < q < |order| ==> order[p] != order[q]
  {
    var pre := PreIndex(obj);
    var rest := Rest(obj, 0);
    var order := Order(obj);
    forall p, q | 0 <= p < q < |order| ensures order[p] != order[q] {
      if p < |pre| {
        assert order[p] == pre[0] && order[q] == rest[q - |pre|];
        assert rest[q - |pre|] in rest;
      } else {
        assert order[p] == rest[p - |pre|] && order[q] == rest[q - |pre|];
      }
    }
  }

  /**
   * Which members are handed over, and how often (Go map keys are distinct):
   * `@type`, when present, goes first; `type` goes first when `@type` is absent
   * and is never handed over when `@type` is present; `@context` never is;
   * every other member is handed over, and no member is handed over twice.
   */
  lemma OrderOnce(obj: seq<Member>)
    requires DistinctKeys(obj)
    ensures var order := Order(obj);
      && (Find(obj, TypeKey).Some? ==> order[0] == Find(obj, TypeKey).value)
      && (Find(obj, TypeKey).None? && Find(obj, TypeAsKey).Some? ==> order[0] == Find(obj, TypeAsKey).value)
      && (forall j :: 0 <= j < |obj| ==>
            (j in order <==> obj[j].0 != ContextKey && !(obj[j].0 == TypeAsKey && Find(obj, TypeKey).Some?)))
      && (forall p, q :: 0 <= p < q < |order| ==> order[p] != order[q])
  {
    OrderMembers(obj);
    OrderDistinct(obj);
  }
}
