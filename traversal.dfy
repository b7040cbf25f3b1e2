/**
 * The traversal engine of tools/exp/rdf/parse.go: `apply` (parse.go:142-178)
 * walks one JSON object, `doApply` (parse.go:181-221) brackets one key/value
 * pair with enter/exit calls according to the value's shape.
 *
 * The functions ending in `Run` are the specification: what a traversal step
 * returns, which context fields it leaves behind, and which dispatches it makes,
 * given the handlers' behaviour. The methods `Apply` and `DoApply` are the
 * imperative code, proved to do exactly that on a ParsingContext object.
 */
module Traversal {
  import opened Wrappers
  import opened Json
  import opened Core
  import opened Context
  import opened Dispatching

  const ContextKey := "@context"   // JSON_LD_CONTEXT
  const TypeKey := "@type"         // JSON_LD_TYPE
  const TypeAsKey := "type"        // JSON_LD_TYPE_AS

  /** The keys the main loop of `apply` skips. */
  predicate Skipped(k: string) {
    k == ContextKey || k == TypeKey || k == TypeAsKey
  }

  /** The outcome of a traversal step: its error, the context it leaves, its dispatches. */
  datatype Run = Run(err: Option<Error>, state: ContextState, trace: seq<Dispatch>)

  /** A run preceded by dispatches that happened earlier. */
  function After(t: seq<Dispatch>, r: Run): Run {
    Run(r.err, r.state, t + r.trace)
  }

  /** One call of enterFirstNode / exitFirstNode / applyFirstNode. */
  function DispatchRun(b: Behaviour, hs: seq<Handler>, call: Call, s: ContextState, depth: nat): Run {
    var m := FirstMatch(b, hs, call, s);
    Run(m.err, m.state, [Dispatch(depth, call, m.tries)])
  }

  /** The call the whole-document override receives: an empty key and the whole object. */
  function OverrideCall(obj: seq<Member>): Call {
    ApplyTo("", JMap(obj))
  }

  /** `apply(nodes, obj, ctx)` at nesting depth `depth`. */
  function ApplyRun(b: Behaviour, nodes: seq<Handler>, obj: seq<Member>, s: ContextState, depth: nat): Run
    decreases JMap(obj), 2
  {
    if s.wholeDoc.Some? then
      var h := s.wholeDoc.value;
      var rep := b(h, OverrideCall(obj), s);
      Run(if !rep.handled then Some(OverrideNotApplied) else rep.err,
          rep.next,
          [Dispatch(depth, OverrideCall(obj), [Try(h, rep.handled, rep.err)])])
    else
      var pre := PrePassRun(b, nodes, obj, s, depth);
      if pre.err.Some? then pre
      else After(pre.trace, MembersRun(b, nodes, obj, 0, pre.state, depth))
  }

  /** The type pre-pass: `@type` if present, else `type` if present. */
  function PrePassRun(b: Behaviour, nodes: seq<Handler>, obj: seq<Member>, s: ContextState, depth: nat): Run
    decreases JMap(obj), 1
  {
    match Find(obj, TypeKey)
    case Some(i) => DoApplyRun(b, nodes, TypeKey, obj[i].1, s, depth)
    case None =>
      match Find(obj, TypeAsKey)
      case Some(j) => DoApplyRun(b, nodes, TypeAsKey, obj[j].1, s, depth)
      case None => Run(None, s, [])
  }

  /** The main loop of `apply`, from member `i` on. */
  function MembersRun(b: Behaviour, nodes: seq<Handler>, obj: seq<Member>, i: nat, s: ContextState, depth: nat): Run
    requires i <= |obj|
    decreases JMap(obj), 0, |obj| - i
  {
    if i == |obj| then Run(None, s, [])
    else if Skipped(obj[i].0) then MembersRun(b, nodes, obj, i + 1, s, depth)
    else
      var r := DoApplyRun(b, nodes, obj[i].0, obj[i].1, s, depth);
      if r.err.Some? then r
      else After(r.trace, MembersRun(b, nodes, obj, i + 1, r.state, depth))
  }

  /** `doApply(nodes, k, v, ctx)`: GetNextNodes, the shape-directed body, then the deferred clearFn. */
  function DoApplyRun(b: Behaviour, nodes: seq<Handler>, k: string, v: Json, s: ContextState, depth: nat): Run
    decreases v, 4
  {
    var (hs, clearFn, s1) := NextNodes(s, nodes);
    var r := ShapeRun(b, nodes, hs, k, v, s1, depth);
    Run(r.err, Cleared(r.state, clearFn), r.trace)
  }

  /**
   * The body of `doApply`: `hs` are the nodes for enter/apply/exit (possibly the
   * next-level override), `nodes` the full list every recursion uses.
   */
  function ShapeRun(b: Behaviour, nodes: seq<Handler>, hs: seq<Handler>, k: string, v: Json, s: ContextState, depth: nat): Run
    decreases v, 3
  {
    match v
    case JMap(m) =>
      var e := DispatchRun(b, hs, Enter(k), s, depth);
      if e.err.Some? then e
      else
        var r := ApplyRun(b, nodes, m, e.state, depth + 1);
        if r.err.Some? then After(e.trace, r)
        else After(e.trace + r.trace, DispatchRun(b, hs, Exit(k), r.state, depth))
    case JArr(xs) => ElementsRun(b, nodes, hs, k, xs, 0, s, depth)
    case _ => DispatchRun(b, hs, ApplyTo(k, v), s, depth)
  }

  /** The array loop of `doApply`, from element `i` on, stopping at the first error. */
  function ElementsRun(b: Behaviour, nodes: seq<Handler>, hs: seq<Handler>, k: string, xs: seq<Json>, i: nat,
                       s: ContextState, depth: nat): Run
    requires i <= |xs|
    decreases JArr(xs), 2, |xs| - i
  {
    if i == |xs| then Run(None, s, [])
    else
      var one := BracketRun(b, nodes, hs, k, xs, i, s, depth);
      if one.err.Some? then one
      else After(one.trace, ElementsRun(b, nodes, hs, k, xs, i + 1, one.state, depth))
  }

  /** Element `i` of the array loop on its own: enter, recurse or apply, exit, stopping at the first error. */
  function BracketRun(b: Behaviour, nodes: seq<Handler>, hs: seq<Handler>, k: string, xs: seq<Json>, i: nat,
                      s: ContextState, depth: nat): Run
    requires i < |xs|
    decreases JArr(xs), 1, 0
  {
    var e := DispatchRun(b, hs, Enter(k), s, depth);
    if e.err.Some? then e
    else
      var mid := ElementRun(b, nodes, hs, k, xs, i, e.state, depth);
      if mid.err.Some? then After(e.trace, mid)
      else
        var x := DispatchRun(b, hs, Exit(k), mid.state, depth);
        if x.err.Some? then After(e.trace + mid.trace, x)
        else Run(None, x.state, e.trace + mid.trace + x.trace)
  }

  /** Between enter and exit of element `i`: an object is walked, anything else (an array too) is applied. */
  function ElementRun(b: Behaviour, nodes: seq<Handler>, hs: seq<Handler>, k: string, xs: seq<Json>, i: nat,
                      s: ContextState, depth: nat): Run
    requires i < |xs|
    decreases JArr(xs), 0, 0
  {
    if xs[i].JMap? then
      assert JMap(xs[i].members) == xs[i];
      ApplyRun(b, nodes, xs[i].members, s, depth + 1)
    else DispatchRun(b, hs, ApplyTo(k, xs[i]), s, depth)
  }

  /**
   * The whole-document override: with `OnlyApplyThisNode` set to `h`, walking
   * an object is exactly one dispatch, Apply("", object) on `h` alone. The
   * result is that call's error when `h` applied, and an error when it did not,
   * even if the call itself returned none.
   */
  lemma WholeDocumentOverride(b: Behaviour, nodes: seq<Handler>, obj: seq<Member>, s: ContextState, d: nat, h: Handler)
    requires s.wholeDoc == Some(h)
    ensures var r := ApplyRun(b, nodes, obj, s, d);
      var rep := b(h, OverrideCall(obj), s);
      && r.trace == [Dispatch(d, ApplyTo("", JMap(obj)), [Try(h, rep.handled, rep.err)])]
      && (rep.handled ==> r.err == rep.err)
      && (!rep.handled ==> r.err == Some(OverrideNotApplied))
      && r.state == rep.next
  {
  }

  /** Appending dispatches to a trace one stretch at a time. */
  lemma Appended(t: seq<Dispatch>, done: seq<Dispatch>, u: seq<Dispatch>)
    ensures (t + done) + u == t + (done + u)
  {
  }

  /** Dispatches made in two stretches, one after the other. */
  lemma AfterAfter(t: seq<Dispatch>, u: seq<Dispatch>, r: Run)
    ensures After(t, After(u, r)) == After(t + u, r)
  {
    assert t + (u + r.trace) == (t + u) + r.trace;
  }

  /** One member of the main loop of `apply`: skipped, or applied and ending the loop on error. */
  lemma MembersStep(b: Behaviour, nodes: seq<Handler>, obj: seq<Member>, i: nat, s: ContextState, depth: nat)
    requires i < |obj|
    ensures var r := MembersRun(b, nodes, obj, i, s, depth);
      var d := DoApplyRun(b, nodes, obj[i].0, obj[i].1, s, depth);
      && (Skipped(obj[i].0) ==> r == MembersRun(b, nodes, obj, i + 1, s, depth))
      && (!Skipped(obj[i].0) && d.err.Some? ==> r == d)
      && (!Skipped(obj[i].0) && d.err.None? ==> r == After(d.trace, MembersRun(b, nodes, obj, i + 1, d.state, depth)))
  {
  }

  /**
   * `apply` (parse.go:142-178): the whole-document override if one is set;
   * otherwise the type pre-pass, then every other member except `@context`.
   */
  method Apply(b: Behaviour, nodes: seq<Handler>, obj: seq<Member>, ctx: ParsingContext, ghost depth: nat)
    returns (err: Option<Error>)
    modifies ctx
    ensures var r := ApplyRun(b, nodes, obj, old(ctx.Snapshot()), depth);
      err == r.err && ctx.Snapshot() == r.state && ctx.Trace == old(ctx.Trace) + r.trace
    ensures ctx.Result == old(ctx.Result)
    decreases JMap(obj), 2
  {
    ghost var whole := ApplyRun(b, nodes, obj, ctx.Snapshot(), depth);
    if ctx.OnlyApplyThisNode.Some? {
      // hijacked processing: the whole object goes to the one node
      var h := ctx.OnlyApplyThisNode.value;
      var applied, e := Invoke(b, h, OverrideCall(obj), ctx);
      ctx.Trace := ctx.Trace + [Dispatch(depth, OverrideCall(obj), [Try(h, applied, e)])];
      if !applied {
        return Some(OverrideNotApplied);
      }
      return e;
    }
    ghost var pre := PrePassRun(b, nodes, obj, ctx.Snapshot(), depth);
    var typed := Find(obj, TypeKey);
    if typed.Some? {
      err := DoApply(b, nodes, TypeKey, obj[typed.value].1, ctx, depth);
      if err.Some? {
        return;
      }
    } else {
      var typedAs := Find(obj, TypeAsKey);
      if typedAs.Some? {
        err := DoApply(b, nodes, TypeAsKey, obj[typedAs.value].1, ctx, depth);
        if err.Some? {
          return;
        }
      }
    }
    ghost var done := pre.trace;
    ghost var st := ctx.Snapshot();
    var i := 0;
    while i < |obj|
      invariant 0 <= i <= |obj|
      invariant st == ctx.Snapshot()
      invariant whole == After(done, MembersRun(b, nodes, obj, i, st, depth))
      invariant ctx.Trace == old(ctx.Trace) + done && ctx.Result == old(ctx.Result)
      decreases |obj| - i
    {
      MembersStep(b, nodes, obj, i, st, depth);
      var (k, v) := obj[i];
      if Skipped(k) {
        // @context is never dispatched; @type and type went first
      } else {
        ghost var r := DoApplyRun(b, nodes, k, v, st, depth);
        err := DoApply(b, nodes, k, v, ctx, depth);
        Appended(old(ctx.Trace), done, r.trace);
        if err.Some? {
          return;
        }
        AfterAfter(done, r.trace, MembersRun(b, nodes, obj, i + 1, r.state, depth));
        done := done + r.trace;
        st := ctx.Snapshot();
      }
      i := i + 1;
    }
    assert done + [] == done;
    return None;
  }

  /**
   * `doApply` (parse.go:181-221): takes the nodes from GetNextNodes, brackets
   * the value with enter/exit by its shape, and runs the clearFn on the way out.
   */
  method DoApply(b: Behaviour, nodes: seq<Handler>, k: string, v: Json, ctx: ParsingContext, ghost depth: nat)
    returns (err: Option<Error>)
    modifies ctx
    ensures var r := DoApplyRun(b, nodes, k, v, old(ctx.Snapshot()), depth);
      err == r.err && ctx.Snapshot() == r.state && ctx.Trace == old(ctx.Trace) + r.trace
    ensures ctx.Result == old(ctx.Result)
    decreases v, 4
  {
    var recurNodes := nodes;
    var enterApplyExitNodes, clearFn := ctx.GetNextNodes(nodes);
    ghost var shape := ShapeRun(b, nodes, enterApplyExitNodes, k, v, ctx.Snapshot(), depth);
    ghost var t0 := ctx.Trace;
    match v {
      case JMap(m) =>
        ghost var e := DispatchRun(b, enterApplyExitNodes, Enter(k), ctx.Snapshot(), depth);
        err := FirstNode(b, enterApplyExitNodes, Enter(k), ctx, depth);
        if err.None? {
          ghost var r := ApplyRun(b, nodes, m, e.state, depth + 1);
          err := Apply(b, recurNodes, m, ctx, depth + 1);
          Appended(t0, e.trace, r.trace);
          if err.None? {
            ghost var x := DispatchRun(b, enterApplyExitNodes, Exit(k), r.state, depth);
            err := FirstNode(b, enterApplyExitNodes, Exit(k), ctx, depth);
            Appended(t0, e.trace + r.trace, x.trace);
          }
        }
      case JArr(xs) =>
        err := ApplyElements(b, recurNodes, enterApplyExitNodes, k, xs, ctx, depth);
      case _ =>
        err := FirstNode(b, enterApplyExitNodes, ApplyTo(k, v), ctx, depth);
    }
    assert err == shape.err && ctx.Snapshot() == shape.state && ctx.Trace == t0 + shape.trace;
    // the deferred clearFn
    ctx.RunClear(clearFn);
  }

  /** The array loop is element `i` followed, when that ends without error, by the rest of the loop. */
  lemma ElementsStep(b: Behaviour, nodes: seq<Handler>, hs: seq<Handler>, k: string, xs: seq<Json>, i: nat,
                     s: ContextState, depth: nat)
    requires i < |xs|
    ensures var r := ElementsRun(b, nodes, hs, k, xs, i, s, depth);
      var one := BracketRun(b, nodes, hs, k, xs, i, s, depth);
      && (one.err.Some? ==> r == one)
      && (one.err.None? ==> r == After(one.trace, ElementsRun(b, nodes, hs, k, xs, i + 1, one.state, depth)))
  {
  }

  /** The array loop's invariant carried over one element. */
  lemma ElementsLoopStep(b: Behaviour, nodes: seq<Handler>, hs: seq<Handler>, k: string, xs: seq<Json>, i: nat,
                         st: ContextState, depth: nat, done: seq<Dispatch>, whole: Run)
    requires i < |xs| && whole == After(done, ElementsRun(b, nodes, hs, k, xs, i, st, depth))
    ensures var one := BracketRun(b, nodes, hs, k, xs, i, st, depth);
      && (one.err.Some? ==> whole == Run(one.err, one.state, done + one.trace))
      && (one.err.None? ==> whole == After(done + one.trace, ElementsRun(b, nodes, hs, k, xs, i + 1, one.state, depth)))
  {
    ElementsStep(b, nodes, hs, k, xs, i, st, depth);
    var one := BracketRun(b, nodes, hs, k, xs, i, st, depth);
    if one.err.None? {
      AfterAfter(done, one.trace, ElementsRun(b, nodes, hs, k, xs, i + 1, one.state, depth));
    }
  }

  /** One element of the array loop of `doApply` (parse.go:200-213). */
  method ApplyElement(b: Behaviour, nodes: seq<Handler>, hs: seq<Handler>, k: string, xs: seq<Json>, i: nat,
                      ctx: ParsingContext, ghost depth: nat)
    returns (err: Option<Error>)
    requires i < |xs|
    modifies ctx
    ensures var r := BracketRun(b, nodes, hs, k, xs, i, old(ctx.Snapshot()), depth);
      err == r.err && ctx.Snapshot() == r.state && ctx.Trace == old(ctx.Trace) + r.trace
    ensures ctx.Result == old(ctx.Result)
    decreases JArr(xs), 2
  {
    ghost var t0 := ctx.Trace;
    // enter for this key
    ghost var e := DispatchRun(b, hs, Enter(k), ctx.Snapshot(), depth);
    err := FirstNode(b, hs, Enter(k), ctx, depth);
    if err.Some? {
      return;
    }
    // recur into an object, apply anything else
    ghost var mid := ElementRun(b, nodes, hs, k, xs, i, e.state, depth);
    if xs[i].JMap? {
      assert JMap(xs[i].members) == xs[i];
      err := Apply(b, nodes, xs[i].members, ctx, depth + 1);
    } else {
      err := FirstNode(b, hs, ApplyTo(k, xs[i]), ctx, depth);
    }
    Appended(t0, e.trace, mid.trace);
    if err.Some? {
      return;
    }
    // exit for this key
    ghost var x := DispatchRun(b, hs, Exit(k), mid.state, depth);
    err := FirstNode(b, hs, Exit(k), ctx, depth);
    Appended(t0, e.trace + mid.trace, x.trace);
  }

  /** The array loop of `doApply` (parse.go:196-215): per element, enter, recurse or apply, exit. */
  method ApplyElements(b: Behaviour, nodes: seq<Handler>, hs: seq<Handler>, k: string, xs: seq<Json>,
                       ctx: ParsingContext, ghost depth: nat)
    returns (err: Option<Error>)
    modifies ctx
    ensures var r := ElementsRun(b, nodes, hs, k, xs, 0, old(ctx.Snapshot()), depth);
      err == r.err && ctx.Snapshot() == r.state && ctx.Trace == old(ctx.Trace) + r.trace
    ensures ctx.Result == old(ctx.Result)
    decreases JArr(xs), 3
  {
    ghost var whole := ElementsRun(b, nodes, hs, k, xs, 0, ctx.Snapshot(), depth);
    err := None;
    ghost var done: seq<Dispatch> := [];
    ghost var st := ctx.Snapshot();
    var i := 0;
    while i < |xs|
      invariant 0 <= i <= |xs|
      invariant st == ctx.Snapshot() && err.None?
      invariant whole == After(done, ElementsRun(b, nodes, hs, k, xs, i, st, depth))
      invariant ctx.Trace == old(ctx.Trace) + done && ctx.Result == old(ctx.Result)
      decreases |xs| - i
    {
      ElementsLoopStep(b, nodes, hs, k, xs, i, st, depth, done, whole);
      ghost var one := BracketRun(b, nodes, hs, k, xs, i, st, depth);
      err := ApplyElement(b, nodes, hs, k, xs, i, ctx, depth);
      Appended(old(ctx.Trace), done, one.trace);
      done := done + one.trace;
      if err.Some? {
        break;
      }
      st := ctx.Snapshot();
      i := i + 1;
    }
    assert whole == Run(err, ctx.Snapshot(), done);
  }
}
