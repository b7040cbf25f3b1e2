/**
 * Which handlers the traversal consults (parse.go:45-66, 181-221): with no
 * override set, every dispatch at every level goes through the full node list;
 * once `SetOnlyApplyThisNodeNextLevel(h)` has armed the next-level override,
 * the enter/apply/exit dispatches of the next `doApply` go to `h` alone while
 * its recursion keeps the full list, and because the clearFn is deferred the
 * override is armed again for the following sibling key.
 *
 * Each lemma assumes only that the RDFNodes leave the override fields alone
 * while those hold the value the lemma is about: `n` and `a` (no override, or
 * a consumed one) for the Plain lemmas, `h` already handed out for the
 * Hijacked ones, which is what every dispatch inside a hijacked `doApply`
 * sees. An RDFNode may arm or clear an override in any other state:
 * `EnterArmsChildren` follows a key whose enter call arms `h` into the object
 * below it, and `ArmDisarm` is a node that also clears `h` again on exit.
 */
module Overrides {
  import opened Wrappers
  import opened Json
  import opened Core
  import opened Context
  import opened Dispatching
  import opened Traversal
  import opened TraceShape

  /** The override fields of a context: OnlyApplyThisNodeNextLevel, OnlyApplied, OnlyApplyThisNode. */
  function Slots(s: ContextState): (Option<Handler>, bool, Option<Handler>) {
    (s.nextLevel, s.onlyApplied, s.wholeDoc)
  }

  /** Every dispatch tried a prefix of `hs`, in order. */
  predicate AllFrom(t: seq<Dispatch>, hs: seq<Handler>) {
    forall i :: 0 <= i < |t| ==> TriedInOrder(t[i].tries, hs)
  }

  /** The dispatches at depth `d` tried a prefix of `hs`; all others a prefix of `nodes`. */
  predicate LevelFrom(t: seq<Dispatch>, d: nat, hs: seq<Handler>, nodes: seq<Handler>) {
    forall i :: 0 <= i < |t| ==> TriedInOrder(t[i].tries, if t[i].depth == d then hs else nodes)
  }

  lemma AllFromAppend(a: seq<Dispatch>, c: seq<Dispatch>, hs: seq<Handler>)
    requires AllFrom(a, hs) && AllFrom(c, hs)
    ensures AllFrom(a + c, hs)
  {
    forall i | 0 <= i < |a + c| ensures TriedInOrder((a + c)[i].tries, hs) {
      if i < |a| {
        assert (a + c)[i] == a[i];
      } else {
        assert (a + c)[i] == c[i - |a|];
      }
    }
  }

  lemma LevelFromAppend(a: seq<Dispatch>, c: seq<Dispatch>, d: nat, hs: seq<Handler>, nodes: seq<Handler>)
    requires LevelFrom(a, d, hs, nodes) && LevelFrom(c, d, hs, nodes)
    ensures LevelFrom(a + c, d, hs, nodes)
  {
    forall i | 0 <= i < |a + c|
      ensures TriedInOrder((a + c)[i].tries, if (a + c)[i].depth == d then hs else nodes)
    {
      if i < |a| {
        assert (a + c)[i] == a[i];
      } else {
        assert (a + c)[i] == c[i - |a|];
      }
    }
  }

  /** A deeper walk that used the full list fits any choice of list at depth `d`. */
  lemma Deeper(t: seq<Dispatch>, d: nat, hs: seq<Handler>, nodes: seq<Handler>)
    requires AllFrom(t, nodes) && Nested(t, d + 1)
    ensures LevelFrom(t, d, hs, nodes)
  {
  }

  /** A dispatch whose RDFNodes keep the override fields, while those are `n` and no whole-document override, keeps them too. */
  lemma {:induction false} FirstMatchKeeps(b: Behaviour, hs: seq<Handler>, call: Call, s: ContextState, n: Option<Handler>, a: bool)
    requires (forall h0: Handler, c: Call, s0: ContextState ::
      s0.nextLevel == n && s0.onlyApplied == a && s0.wholeDoc.None? ==> Slots(b(h0, c, s0).next) == Slots(s0))
    requires s.nextLevel == n && s.onlyApplied == a && s.wholeDoc.None?
    ensures Slots(FirstMatch(b, hs, call, s).state) == Slots(s)
    decreases |hs|
  {
    if |hs| > 0 {
      var rep := b(hs[0], call, s);
      assert Slots(rep.next) == Slots(s);
      if !(rep.handled || rep.err.Some?) {
        FirstMatchKeeps(b, hs[1..], call, rep.next, n, a);
      }
    }
  }

  lemma DispatchKeeps(b: Behaviour, hs: seq<Handler>, nodes: seq<Handler>, call: Call, s: ContextState, d: nat, n: Option<Handler>, a: bool)
    requires (forall h0: Handler, c: Call, s0: ContextState ::
      s0.nextLevel == n && s0.onlyApplied == a && s0.wholeDoc.None? ==> Slots(b(h0, c, s0).next) == Slots(s0))
    requires s.nextLevel == n && s.onlyApplied == a && s.wholeDoc.None?
    ensures var r := DispatchRun(b, hs, call, s, d);
      LevelFrom(r.trace, d, hs, nodes) && Slots(r.state) == Slots(s)
  {
    FirstMatchContract(b, hs, call, s);
    FirstMatchKeeps(b, hs, call, s, n, a);
  }

  /** With no override in force, walking an object consults the full list for every dispatch. */
  lemma {:induction false} ApplyPlain(b: Behaviour, nodes: seq<Handler>, obj: seq<Member>, s: ContextState, d: nat, n: Option<Handler>, a: bool)
    requires (forall h0: Handler, c: Call, s0: ContextState ::
      s0.nextLevel == n && s0.onlyApplied == a && s0.wholeDoc.None? ==> Slots(b(h0, c, s0).next) == Slots(s0))
    requires s.wholeDoc.None? && s.nextLevel == n && s.onlyApplied == a && !Armed(s)
    ensures var r := ApplyRun(b, nodes, obj, s, d);
      AllFrom(r.trace, nodes) && Slots(r.state) == Slots(s)
    decreases JMap(obj), 2
  {
    PrePassPlain(b, nodes, obj, s, d, n, a);
    var pre := PrePassRun(b, nodes, obj, s, d);
    if pre.err.None? {
      MembersPlain(b, nodes, obj, 0, pre.state, d, n, a);
      AllFromAppend(pre.trace, MembersRun(b, nodes, obj, 0, pre.state, d).trace, nodes);
    }
  }

  lemma {:induction false} PrePassPlain(b: Behaviour, nodes: seq<Handler>, obj: seq<Member>, s: ContextState, d: nat, n: Option<Handler>, a: bool)
    requires (forall h0: Handler, c: Call, s0: ContextState ::
      s0.nextLevel == n && s0.onlyApplied == a && s0.wholeDoc.None? ==> Slots(b(h0, c, s0).next) == Slots(s0))
    requires s.wholeDoc.None? && s.nextLevel == n && s.onlyApplied == a && !Armed(s)
    ensures var r := PrePassRun(b, nodes, obj, s, d);
      AllFrom(r.trace, nodes) && Slots(r.state) == Slots(s)
    decreases JMap(obj), 1
  {
    match Find(obj, TypeKey)
    case Some(i) => DoApplyPlain(b, nodes, TypeKey, obj[i].1, s, d, n, a);
    case None =>
      match Find(obj, TypeAsKey)
      case Some(j) => DoApplyPlain(b, nodes, TypeAsKey, obj[j].1, s, d, n, a);
      case None =>
  }

  lemma {:induction false} MembersPlain(b: Behaviour, nodes: seq<Handler>, obj: seq<Member>, i: nat, s: ContextState, d: nat, n: Option<Handler>, a: bool)
    requires (forall h0: Handler, c: Call, s0: ContextState ::
      s0.nextLevel == n && s0.onlyApplied == a && s0.wholeDoc.None? ==> Slots(b(h0, c, s0).next) == Slots(s0))
    requires s.wholeDoc.None? && s.nextLevel == n && s.onlyApplied == a && !Armed(s) && i <= |obj|
    ensures var r := MembersRun(b, nodes, obj, i, s, d);
      AllFrom(r.trace, nodes) && Slots(r.state) == Slots(s)
    decreases JMap(obj), 0, |obj| - i
  {
    if i < |obj| {
      if Skipped(obj[i].0) {
        MembersPlain(b, nodes, obj, i + 1, s, d, n, a);
      } else {
        DoApplyPlain(b, nodes, obj[i].0, obj[i].1, s, d, n, a);
        var r := DoApplyRun(b, nodes, obj[i].0, obj[i].1, s, d);
        if r.err.None? {
          MembersPlain(b, nodes, obj, i + 1, r.state, d, n, a);
          AllFromAppend(r.trace, MembersRun(b, nodes, obj, i + 1, r.state, d).trace, nodes);
        }
      }
    }
  }

  lemma {:induction false} DoApplyPlain(b: Behaviour, nodes: seq<Handler>, k: string, v: Json, s: ContextState, d: nat, n: Option<Handler>, a: bool)
    requires (forall h0: Handler, c: Call, s0: ContextState ::
      s0.nextLevel == n && s0.onlyApplied == a && s0.wholeDoc.None? ==> Slots(b(h0, c, s0).next) == Slots(s0))
    requires s.wholeDoc.None? && s.nextLevel == n && s.onlyApplied == a && !Armed(s)
    ensures var r := DoApplyRun(b, nodes, k, v, s, d);
      AllFrom(r.trace, nodes) && Slots(r.state) == Slots(s)
    decreases v, 4
  {
    ShapePlain(b, nodes, nodes, k, v, s, d, n, a);
  }

  lemma {:induction false} ShapePlain(b: Behaviour, nodes: seq<Handler>, hs: seq<Handler>, k: string, v: Json,
                                      s: ContextState, d: nat, n: Option<Handler>, a: bool)
    requires (forall h0: Handler, c: Call, s0: ContextState ::
      s0.nextLevel == n && s0.onlyApplied == a && s0.wholeDoc.None? ==> Slots(b(h0, c, s0).next) == Slots(s0))
    requires s.wholeDoc.None? && s.nextLevel == n && s.onlyApplied == a && !Armed(s)
    ensures var r := ShapeRun(b, nodes, hs, k, v, s, d);
      LevelFrom(r.trace, d, hs, nodes) && Slots(r.state) == Slots(s)
    decreases v, 3
  {
    match v
    case JMap(m) =>
      DispatchKeeps(b, hs, nodes, Enter(k), s, d, n, a);
      var e := DispatchRun(b, hs, Enter(k), s, d);
      if e.err.None? {
        ApplyPlain(b, nodes, m, e.state, d + 1, n, a);
        ApplyNested(b, nodes, m, e.state, d + 1);
        var r := ApplyRun(b, nodes, m, e.state, d + 1);
        Deeper(r.trace, d, hs, nodes);
        LevelFromAppend(e.trace, r.trace, d, hs, nodes);
        if r.err.None? {
          DispatchKeeps(b, hs, nodes, Exit(k), r.state, d, n, a);
          LevelFromAppend(e.trace + r.trace, DispatchRun(b, hs, Exit(k), r.state, d).trace, d, hs, nodes);
        }
      }
    case JArr(xs) => ElementsPlain(b, nodes, hs, k, xs, 0, s, d, n, a);
    case _ => DispatchKeeps(b, hs, nodes, ApplyTo(k, v), s, d, n, a);
  }

  lemma {:induction false} ElementsPlain(b: Behaviour, nodes: seq<Handler>, hs: seq<Handler>, k: string, xs: seq<Json>,
                                         i: nat, s: ContextState, d: nat, n: Option<Handler>, a: bool)
    requires (forall h0: Handler, c: Call, s0: ContextState ::
      s0.nextLevel == n && s0.onlyApplied == a && s0.wholeDoc.None? ==> Slots(b(h0, c, s0).next) == Slots(s0))
    requires s.wholeDoc.None? && s.nextLevel == n && s.onlyApplied == a && !Armed(s) && i <= |xs|
    ensures var r := ElementsRun(b, nodes, hs, k, xs, i, s, d);
      LevelFrom(r.trace, d, hs, nodes) && Slots(r.state) == Slots(s)
    decreases JArr(xs), 2, |xs| - i
  {
    if i < |xs| {
      DispatchKeeps(b, hs, nodes, Enter(k), s, d, n, a);
      var e := DispatchRun(b, hs, Enter(k), s, d);
      if e.err.None? {
        ElementPlain(b, nodes, hs, k, xs, i, e.state, d, n, a);
        var mid := ElementRun(b, nodes, hs, k, xs, i, e.state, d);
        LevelFromAppend(e.trace, mid.trace, d, hs, nodes);
        if mid.err.None? {
          DispatchKeeps(b, hs, nodes, Exit(k), mid.state, d, n, a);
          var x := DispatchRun(b, hs, Exit(k), mid.state, d);
          LevelFromAppend(e.trace + mid.trace, x.trace, d, hs, nodes);
          if x.err.None? {
            ElementsPlain(b, nodes, hs, k, xs, i + 1, x.state, d, n, a);
            LevelFromAppend(e.trace + mid.trace + x.trace, ElementsRun(b, nodes, hs, k, xs, i + 1, x.state, d).trace,
                            d, hs, nodes);
          }
        }
      }
    }
  }

  lemma {:induction false} ElementPlain(b: Behaviour, nodes: seq<Handler>, hs: seq<Handler>, k: string, xs: seq<Json>,
                                        i: nat, s: ContextState, d: nat, n: Option<Handler>, a: bool)
    requires (forall h0: Handler, c: Call, s0: ContextState ::
      s0.nextLevel == n && s0.onlyApplied == a && s0.wholeDoc.None? ==> Slots(b(h0, c, s0).next) == Slots(s0))
    requires s.wholeDoc.None? && s.nextLevel == n && s.onlyApplied == a && !Armed(s) && i < |xs|
    ensures var r := ElementRun(b, nodes, hs, k, xs, i, s, d);
      LevelFrom(r.trace, d, hs, nodes) && Slots(r.state) == Slots(s)
    decreases JArr(xs), 1
  {
    if xs[i].JMap? {
      assert JMap(xs[i].members) == xs[i];
      ApplyPlain(b, nodes, xs[i].members, s, d + 1, n, a);
      ApplyNested(b, nodes, xs[i].members, s, d + 1);
      Deeper(ApplyRun(b, nodes, xs[i].members, s, d + 1).trace, d, hs, nodes);
    } else {
      DispatchKeeps(b, hs, nodes, ApplyTo(k, xs[i]), s, d, n, a);
    }
  }

  /**
   * The next-level override at work: with `h` armed, the enter/apply/exit
   * dispatches of `doApply` go to `h` alone, the recursion below them consults
   * the full list, and on return the override is armed again, so the next
   * sibling key is hijacked as well.
   */
  lemma DoApplyHijacked(b: Behaviour, nodes: seq<Handler>, k: string, v: Json, s: ContextState, d: nat, h: Handler)
    requires (forall h0: Handler, c: Call, s0: ContextState ::
      s0.nextLevel == Some(h) && s0.onlyApplied && s0.wholeDoc.None? ==> Slots(b(h0, c, s0).next) == Slots(s0))
    requires s.wholeDoc.None? && s.nextLevel == Some(h) && !s.onlyApplied
    ensures var r := DoApplyRun(b, nodes, k, v, s, d);
      LevelFrom(r.trace, d, [h], nodes) && Slots(r.state) == Slots(s) && Armed(r.state)
  {
    var s1 := s.(onlyApplied := true);
    ShapePlain(b, nodes, [h], k, v, s1, d, Some(h), true);
  }

  /**
   * An object walked with `h` armed: every key of it is handed to `h` alone,
   * everything below those keys to the full list, and the override stays armed.
   */
  lemma {:induction false} ApplyHijacked(b: Behaviour, nodes: seq<Handler>, obj: seq<Member>, s: ContextState, d: nat, h: Handler)
    requires (forall h0: Handler, c: Call, s0: ContextState ::
      s0.nextLevel == Some(h) && s0.onlyApplied && s0.wholeDoc.None? ==> Slots(b(h0, c, s0).next) == Slots(s0))
    requires s.wholeDoc.None? && s.nextLevel == Some(h) && !s.onlyApplied
    ensures var r := ApplyRun(b, nodes, obj, s, d);
      LevelFrom(r.trace, d, [h], nodes) && Slots(r.state) == Slots(s)
  {
    var pre := PrePassRun(b, nodes, obj, s, d);
    assert LevelFrom(pre.trace, d, [h], nodes) && Slots(pre.state) == Slots(s) by {
      match Find(obj, TypeKey)
      case Some(i) => DoApplyHijacked(b, nodes, TypeKey, obj[i].1, s, d, h);
      case None =>
        match Find(obj, TypeAsKey)
        case Some(j) => DoApplyHijacked(b, nodes, TypeAsKey, obj[j].1, s, d, h);
        case None =>
    }
    if pre.err.None? {
      MembersHijacked(b, nodes, obj, 0, pre.state, d, h);
      LevelFromAppend(pre.trace, MembersRun(b, nodes, obj, 0, pre.state, d).trace, d, [h], nodes);
    }
  }

  lemma {:induction false} MembersHijacked(b: Behaviour, nodes: seq<Handler>, obj: seq<Member>, i: nat, s: ContextState,
                                           d: nat, h: Handler)
    requires (forall h0: Handler, c: Call, s0: ContextState ::
      s0.nextLevel == Some(h) && s0.onlyApplied && s0.wholeDoc.None? ==> Slots(b(h0, c, s0).next) == Slots(s0))
    requires s.wholeDoc.None? && s.nextLevel == Some(h) && !s.onlyApplied && i <= |obj|
    ensures var r := MembersRun(b, nodes, obj, i, s, d);
      LevelFrom(r.trace, d, [h], nodes) && Slots(r.state) == Slots(s)
    decreases |obj| - i
  {
    if i < |obj| {
      if Skipped(obj[i].0) {
        MembersHijacked(b, nodes, obj, i + 1, s, d, h);
      } else {
        DoApplyHijacked(b, nodes, obj[i].0, obj[i].1, s, d, h);
        var r := DoApplyRun(b, nodes, obj[i].0, obj[i].1, s, d);
        if r.err.None? {
          MembersHijacked(b, nodes, obj, i + 1, r.state, d, h);
          LevelFromAppend(r.trace, MembersRun(b, nodes, obj, i + 1, r.state, d).trace, d, [h], nodes);
        }
      }
    }
  }

  /**
   * A node arms the next-level override while entering a key: when the enter
   * dispatch for an object value leaves `h` armed, every key of that object is
   * dispatched to `h` alone, everything below those keys to the full list, and
   * `h` is still armed when the object is left. The walk of the object comes
   * right after the enter dispatch in the trace of `doApply`.
   */
  lemma EnterArmsChildren(b: Behaviour, nodes: seq<Handler>, k: string, m: seq<Member>, s: ContextState, d: nat,
                          h: Handler)
    requires (forall h0: Handler, c: Call, s0: ContextState ::
      s0.nextLevel == Some(h) && s0.onlyApplied && s0.wholeDoc.None? ==> Slots(b(h0, c, s0).next) == Slots(s0))
    requires s.wholeDoc.None? && !Armed(s)
    requires var e := DispatchRun(b, nodes, Enter(k), s, d);
      e.err.None? && e.state.wholeDoc.None? && e.state.nextLevel == Some(h) && !e.state.onlyApplied
    ensures var e := DispatchRun(b, nodes, Enter(k), s, d);
      var inner := ApplyRun(b, nodes, m, e.state, d + 1);
      var r := DoApplyRun(b, nodes, k, JMap(m), s, d);
      && |r.trace| >= 1 + |inner.trace|
      && r.trace[0] == Dispatch(d, Enter(k), FirstMatch(b, nodes, Enter(k), s).tries)
      && r.trace[1..1 + |inner.trace|] == inner.trace
      && LevelFrom(inner.trace, d + 1, [h], nodes)
      && Armed(inner.state)
  {
    var e := DispatchRun(b, nodes, Enter(k), s, d);
    var inner := ApplyRun(b, nodes, m, e.state, d + 1);
    ApplyHijacked(b, nodes, m, e.state, d + 1, h);
    var r := DoApplyRun(b, nodes, k, JMap(m), s, d);
    assert NextNodes(s, nodes) == (nodes, NoOp, s);
    var shape := ShapeRun(b, nodes, nodes, k, JMap(m), s, d);
    assert r.trace == shape.trace;
    assert |e.trace| == 1;
    if inner.err.Some? {
      assert shape.trace == e.trace + inner.trace;
      assert (e.trace + inner.trace)[1..1 + |inner.trace|] == inner.trace;
    } else {
      var x := DispatchRun(b, nodes, Exit(k), inner.state, d);
      assert shape.trace == e.trace + inner.trace + x.trace;
      assert (e.trace + inner.trace + x.trace)[1..1 + |inner.trace|] == inner.trace;
    }
  }

  /**
   * The usual way a node uses the next-level override: `h` arms it while
   * entering `k` when no override is set and, once the children have consumed
   * it, resets it while exiting `k`; every other call it leaves unhandled, and
   * so do all other nodes.
   */
  function ArmDisarm(h: Handler, k: string): Behaviour {
    (h0: Handler, c: Call, s0: ContextState) =>
      if h0 == h && c == Enter(k) && s0.nextLevel.None? then
        Reply(true, None, s0.(nextLevel := Some(h), onlyApplied := false))
      else if h0 == h && c == Exit(k) && s0.nextLevel == Some(h) && !s0.onlyApplied then
        Reply(true, None, s0.(nextLevel := None, onlyApplied := false))
      else
        Reply(false, None, s0)
  }

  /**
   * That node meets the hypothesis of `EnterArmsChildren` although its exit
   * disarms the override: entering `k` with an object value hands every key
   * of the object to `h` alone, everything deeper to the full list, and the
   * override is gone once `k` is left.
   */
  lemma ArmDisarmHijacksChildren(h: Handler, nodes: seq<Handler>, k: string, m: seq<Member>, s: ContextState, d: nat)
    requires |nodes| > 0 && nodes[0] == h
    requires s.wholeDoc.None? && s.nextLevel.None?
    ensures var b := ArmDisarm(h, k);
      var e := DispatchRun(b, nodes, Enter(k), s, d);
      var r := DoApplyRun(b, nodes, k, JMap(m), s, d);
      && e.err.None? && Armed(e.state)
      && LevelFrom(ApplyRun(b, nodes, m, e.state, d + 1).trace, d + 1, [h], nodes)
      && (r.err.None? ==> r.state.nextLevel.None?)
  {
    var b := ArmDisarm(h, k);
    forall h0: Handler, c: Call, s0: ContextState | s0.nextLevel == Some(h) && s0.onlyApplied && s0.wholeDoc.None?
      ensures Slots(b(h0, c, s0).next) == Slots(s0)
    {
    }
    var e := DispatchRun(b, nodes, Enter(k), s, d);
    assert e.state == s.(nextLevel := Some(h), onlyApplied := false);
    EnterArmsChildren(b, nodes, k, m, s, d, h);
    assert NextNodes(s, nodes) == (nodes, NoOp, s);
    var inner := ApplyRun(b, nodes, m, e.state, d + 1);
    assert DoApplyRun(b, nodes, k, JMap(m), s, d).state == ShapeRun(b, nodes, nodes, k, JMap(m), s, d).state;
    ApplyHijacked(b, nodes, m, e.state, d + 1, h);
    if inner.err.None? {
      assert DispatchRun(b, nodes, Exit(k), inner.state, d).state == b(h, Exit(k), inner.state).next;
    }
  }
}
