/**
 * First-match-wins dispatch over a priority-ordered RDFNode list
 * (enterFirstNode, exitFirstNode, applyFirstNode: parse.go:223-257).
 *
 * The RDFNode implementations are not part of this model. Their behaviour is
 * an oracle: given the node, the call and the context's fields, it answers
 * (applied, error) and the fields the node leaves behind.
 */
module Dispatching {
  import opened Wrappers
  import opened Core
  import opened Context

  datatype Reply = Reply(handled: bool, err: Option<Error>, next: ContextState)

  /** How every RDFNode answers every call, as a function of the context it sees. */
  type Behaviour = (Handler, Call, ContextState) -> Reply

  /** The outcome of one first-match dispatch. */
  datatype Match = Match(err: Option<Error>, state: ContextState, tries: seq<Try>)

  /** Whether the last try ended the search: it reported "applied" or returned an error. */
  predicate Stopped(tries: seq<Try>) {
    |tries| > 0 && (tries[|tries| - 1].handled || tries[|tries| - 1].err.Some?)
  }

  /** Whether the tries went through `hs` in list order, starting at its head. */
  predicate TriedInOrder(tries: seq<Try>, hs: seq<Handler>) {
    |tries| <= |hs| && forall i :: 0 <= i < |tries| ==> tries[i].handler == hs[i]
  }

  /** The loop of enterFirstNode / exitFirstNode / applyFirstNode, on a snapshot. */
  function FirstMatch(b: Behaviour, nodes: seq<Handler>, call: Call, s: ContextState): Match
    decreases |nodes|
  {
    if |nodes| == 0 then Match(Some(Unrecognized(call)), s, [])
    else
      var rep := b(nodes[0], call, s);
      var t := Try(nodes[0], rep.handled, rep.err);
      if rep.handled || rep.err.Some? then Match(rep.err, rep.next, [t])
      else
        var rest := FirstMatch(b, nodes[1..], call, rep.next);
        Match(rest.err, rest.state, [t] + rest.tries)
  }

  /**
   * What a first-match dispatch does: it tries the nodes in list order from the
   * head, every node before the last one tried neither applied nor erred, and the
   * result is the last node's error when that node applied or erred; otherwise
   * every node was tried and the result is an error naming the call.
   */
  lemma {:induction false} FirstMatchContract(b: Behaviour, nodes: seq<Handler>, call: Call, s: ContextState)
    ensures var m := FirstMatch(b, nodes, call, s);
      && TriedInOrder(m.tries, nodes)
      && (forall i :: 0 <= i < |m.tries| - 1 ==> !m.tries[i].handled && m.tries[i].err.None?)
      && (Stopped(m.tries) ==> m.err == m.tries[|m.tries| - 1].err)
      && (!Stopped(m.tries) ==> |m.tries| == |nodes| && m.err == Some(Unrecognized(call)))
      && (|nodes| > 0 ==> |m.tries| > 0 && m.tries[0].handler == nodes[0])
    decreases |nodes|
  {
    if |nodes| > 0 {
      var rep := b(nodes[0], call, s);
      if !(rep.handled || rep.err.Some?) {
        FirstMatchContract(b, nodes[1..], call, rep.next);
        var rest := FirstMatch(b, nodes[1..], call, rep.next);
        var t := Try(nodes[0], rep.handled, rep.err);
        assert FirstMatch(b, nodes, call, s).tries == [t] + rest.tries;
        assert forall i :: 1 <= i < |rest.tries| + 1 ==> ([t] + rest.tries)[i] == rest.tries[i - 1];
      }
    }
  }

  /**
   * Priority: dispatching over `a + c` is dispatching over `a`, and only when no
   * node of `a` applies and none errs does the search reach `c`. So with
   * `@context: ["A", "B"]`, a key both A and B recognise goes to A's node.
   */
  lemma {:induction false} FirstMatchConcat(b: Behaviour, a: seq<Handler>, c: seq<Handler>, call: Call, s: ContextState)
    ensures var ma := FirstMatch(b, a, call, s);
      if Stopped(ma.tries) then FirstMatch(b, a + c, call, s) == ma
      else
        var mc := FirstMatch(b, c, call, ma.state);
        FirstMatch(b, a + c, call, s) == Match(mc.err, mc.state, ma.tries + mc.tries)
    decreases |a|
  {
    if |a| > 0 {
      var rep := b(a[0], call, s);
      assert (a + c)[0] == a[0];
      if !(rep.handled || rep.err.Some?) {
        assert (a + c)[1..] == a[1..] + c;
        FirstMatchConcat(b, a[1..], c, call, rep.next);
      }
    } else {
      assert a + c == c;
    }
  }

  /** One turn of the dispatch loop, from position `i` of the list. */
  lemma FirstMatchStep(b: Behaviour, nodes: seq<Handler>, i: nat, call: Call, s: ContextState)
    requires i < |nodes|
    ensures var rep := b(nodes[i], call, s);
      var t := Try(nodes[i], rep.handled, rep.err);
      var m := FirstMatch(b, nodes[i..], call, s);
      if rep.handled || rep.err.Some? then m == Match(rep.err, rep.next, [t])
      else
        var rest := FirstMatch(b, nodes[i + 1..], call, rep.next);
        m == Match(rest.err, rest.state, [t] + rest.tries)
  {
    assert nodes[i..][0] == nodes[i] && nodes[i..][1..] == nodes[i + 1..];
  }

  /** The dispatch loop's invariant carried over one node that neither applied nor erred, or closed by one that did. */
  lemma StepOn(b: Behaviour, nodes: seq<Handler>, i: nat, call: Call, st: ContextState, tries: seq<Try>, whole: Match)
    requires i < |nodes|
    requires var m := FirstMatch(b, nodes[i..], call, st); whole == Match(m.err, m.state, tries + m.tries)
    ensures var rep := b(nodes[i], call, st);
      var t := Try(nodes[i], rep.handled, rep.err);
      if rep.handled || rep.err.Some? then whole == Match(rep.err, rep.next, tries + [t])
      else
        var m := FirstMatch(b, nodes[i + 1..], call, rep.next);
        whole == Match(m.err, m.state, (tries + [t]) + m.tries)
  {
    FirstMatchStep(b, nodes, i, call, st);
    var rep := b(nodes[i], call, st);
    var t := Try(nodes[i], rep.handled, rep.err);
    if !(rep.handled || rep.err.Some?) {
      var m := FirstMatch(b, nodes[i + 1..], call, rep.next);
      assert tries + ([t] + m.tries) == (tries + [t]) + m.tries;
    }
  }

  /** The dispatch loop's invariant at the end of the list. */
  lemma Exhausted(b: Behaviour, nodes: seq<Handler>, call: Call, st: ContextState, tries: seq<Try>, whole: Match)
    requires var m := FirstMatch(b, nodes[|nodes|..], call, st); whole == Match(m.err, m.state, tries + m.tries)
    ensures whole == Match(Some(Unrecognized(call)), st, tries)
  {
    assert nodes[|nodes|..] == [] && tries + [] == tries;
  }

  /** Calls one RDFNode: it answers and leaves the context's fields as the oracle says. */
  method Invoke(b: Behaviour, h: Handler, call: Call, ctx: ParsingContext) returns (handled: bool, err: Option<Error>)
    modifies ctx
    ensures var rep := b(h, call, old(ctx.Snapshot()));
      handled == rep.handled && err == rep.err && ctx.Snapshot() == rep.next
    ensures ctx.Result == old(ctx.Result) && ctx.Trace == old(ctx.Trace)
  {
    var rep := b(h, call, ctx.Snapshot());
    ctx.Restore(rep.next);
    handled, err := rep.handled, rep.err;
  }

  /**
   * enterFirstNode, exitFirstNode and applyFirstNode (one loop, the call tells
   * which): the first node that applies, or errs, ends the search. The dispatch
   * is appended to the context's trace.
   */
  method FirstNode(b: Behaviour, nodes: seq<Handler>, call: Call, ctx: ParsingContext, ghost depth: nat)
    returns (err: Option<Error>)
    modifies ctx
    ensures var m := FirstMatch(b, nodes, call, old(ctx.Snapshot()));
      && err == m.err && ctx.Snapshot() == m.state
      && ctx.Trace == old(ctx.Trace) + [Dispatch(depth, call, m.tries)]
    ensures ctx.Result == old(ctx.Result)
  {
    ghost var st := ctx.Snapshot();
    ghost var whole := FirstMatch(b, nodes, call, st);
    ghost var tries: seq<Try> := [];
    err := None;
    var i := 0;
    while i < |nodes|
      invariant 0 <= i <= |nodes|
      invariant st == ctx.Snapshot()
      invariant var m := FirstMatch(b, nodes[i..], call, st);
        whole == Match(m.err, m.state, tries + m.tries)
      invariant ctx.Result == old(ctx.Result) && ctx.Trace == old(ctx.Trace)
    {
      StepOn(b, nodes, i, call, st, tries, whole);
      var node := nodes[i];
      var applied, e := Invoke(b, node, call, ctx);
      st := ctx.Snapshot();
      tries := tries + [Try(node, applied, e)];
      if applied || e.Some? {
        err := e;
        break;
      }
      i := i + 1;
    }
    if i == |nodes| {
      // no node applied and none erred
      Exhausted(b, nodes, call, st, tries, whole);
      err := Some(Unrecognized(call));
    }
    ctx.Trace := ctx.Trace + [Dispatch(depth, call, tries)];
  }
}
