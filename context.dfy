/**
 * ParsingContext (tools/exp/rdf/parse.go:19-89): the scratch state the
 * traversal threads through every handler call. `ContextState` is a value
 * snapshot of its fields, used by the handler oracle and by the
 * specification functions of the traversal.
 */
module Context {
  import opened Wrappers
  import opened Core
  import opened Data

  /**
   * A Go `interface{}` as stored in Current and Stack: nil, a pointer to one of
   * the entity structs, or any other dynamic value (for instance a struct stored
   * by value, which implements none of the capability interfaces).
   */
  datatype Dyn = Nil | Pointer(ref: EntityRef) | Other(tag: nat)

  /** The capability interfaces the dynamic value implements (a Go type assertion). */
  function CapabilitiesOf(d: Dyn): set<Capability>
    reads if d.Pointer? then {d.ref} else {}
  {
    if d.Pointer? then Capabilities(d.ref.val) else {}
  }

  datatype ContextState = ContextState(
    current: Dyn,
    name: string,
    stack: seq<Dyn>,
    nextLevel: Option<Handler>,   // OnlyApplyThisNodeNextLevel
    onlyApplied: bool,            // OnlyApplied
    wholeDoc: Option<Handler>)    // OnlyApplyThisNode

  /** The context `ParseVocabulary` creates: every field at its zero value. */
  const Initial := ContextState(Nil, "", [], None, false, None)

  /** The `clearFn` closure GetNextNodes returns: a no-op, or one that resets OnlyApplied. */
  datatype ClearFn = NoOp | ClearOnlyApplied

  /** Whether the next-level override is set and not yet consumed. */
  predicate Armed(s: ContextState) {
    s.nextLevel.Some? && !s.onlyApplied
  }

  /** GetNextNodes (parse.go:50-61) on a snapshot: the nodes to use, the clearFn, the new state. */
  function NextNodes(s: ContextState, nodes: seq<Handler>): (r: (seq<Handler>, ClearFn, ContextState))
    ensures Armed(s) ==> r == ([s.nextLevel.value], ClearOnlyApplied, s.(onlyApplied := true))
    ensures !Armed(s) ==> r == (nodes, NoOp, s)
  {
    if s.nextLevel.None? then (nodes, NoOp, s)
    else if s.onlyApplied then (nodes, NoOp, s)
    else ([s.nextLevel.value], ClearOnlyApplied, s.(onlyApplied := true))
  }

  /** Running a clearFn on a snapshot. */
  function Cleared(s: ContextState, c: ClearFn): ContextState {
    match c
    case NoOp => s
    case ClearOnlyApplied => s.(onlyApplied := false)
  }

  /**
   * The next-level override is consumed exactly once: right after GetNextNodes
   * hands out the override, a second GetNextNodes gives back the full list; once
   * the clearFn has run, the override is handed out again.
   */
  lemma NextLevelConsumedOnce(s: ContextState, nodes: seq<Handler>, h: Handler)
    requires s.nextLevel == Some(h) && !s.onlyApplied
    ensures var (r1, c1, s1) := NextNodes(s, nodes);
      && r1 == [h] && c1 == ClearOnlyApplied
      && NextNodes(s1, nodes) == (nodes, NoOp, s1)
      && Cleared(s1, c1) == s
      && NextNodes(Cleared(s1, c1), nodes).0 == [h]
  {
  }

  /** After ResetOnlyAppliedThisNodeNextLevel the full list is always used and nothing changes. */
  lemma ResetDisarms(s: ContextState, nodes: seq<Handler>)
    ensures var t := s.(nextLevel := None, onlyApplied := false);
      NextNodes(t, nodes) == (nodes, NoOp, t)
  {
  }

  class ParsingContext {
    var Result: ParsedVocabulary
    var Current: Dyn
    var Name: string
    var Stack: seq<Dyn>
    var OnlyApplyThisNodeNextLevel: Option<Handler>
    var OnlyApplied: bool
    var OnlyApplyThisNode: Option<Handler>
    /** Every dispatch the traversal made on this context, oldest first. */
    ghost var Trace: seq<Dispatch>

    function Snapshot(): ContextState
      reads this
    {
      ContextState(Current, Name, Stack, OnlyApplyThisNodeNextLevel, OnlyApplied, OnlyApplyThisNode)
    }

    /** `&ParsingContext{Result: vocabulary}`. */
    constructor (result: ParsedVocabulary)
      ensures Result == result && Snapshot() == Initial && Trace == []
    {
      Result := result;
      Current, Name, Stack := Nil, "", [];
      OnlyApplyThisNodeNextLevel, OnlyApplied, OnlyApplyThisNode := None, false, None;
      Trace := [];
    }

    /** Install the fields a handler left behind (handlers may assign any exported field). */
    method Restore(s: ContextState)
      modifies this
      ensures Snapshot() == s && Result == old(Result) && Trace == old(Trace)
    {
      Current, Name, Stack := s.current, s.name, s.stack;
      OnlyApplyThisNodeNextLevel, OnlyApplied, OnlyApplyThisNode := s.nextLevel, s.onlyApplied, s.wholeDoc;
    }

    method SetOnlyApplyThisNode(n: Handler)
      modifies this
      ensures Snapshot() == old(Snapshot()).(wholeDoc := Some(n))
      ensures Result == old(Result) && Trace == old(Trace)
    {
      OnlyApplyThisNode := Some(n);
    }

    method ResetOnlyApplyThisNode()
      modifies this
      ensures Snapshot() == old(Snapshot()).(wholeDoc := None)
      ensures Result == old(Result) && Trace == old(Trace)
    {
      OnlyApplyThisNode := None;
    }

    /** Stores the override and re-arms it, so the next level is hijacked again. */
    method SetOnlyApplyThisNodeNextLevel(n: Handler)
      modifies this
      ensures Snapshot() == old(Snapshot()).(nextLevel := Some(n), onlyApplied := false)
      ensures Armed(Snapshot())
      ensures Result == old(Result) && Trace == old(Trace)
    {
      OnlyApplyThisNodeNextLevel := Some(n);
      OnlyApplied := false;
    }

    method GetNextNodes(n: seq<Handler>) returns (r: seq<Handler>, clearFn: ClearFn)
      modifies this
      ensures (r, clearFn, Snapshot()) == NextNodes(old(Snapshot()), n)
      ensures Result == old(Result) && Trace == old(Trace)
    {
      if OnlyApplyThisNodeNextLevel.None? {
        return n, NoOp;
      } else if OnlyApplied {
        return n, NoOp;
      } else {
        OnlyApplied := true;
        return [OnlyApplyThisNodeNextLevel.value], ClearOnlyApplied;
      }
    }

    /** Calling the clearFn returned by GetNextNodes (deferred in doApply). */
    method RunClear(clearFn: ClearFn)
      modifies this
      ensures Snapshot() == Cleared(old(Snapshot()), clearFn)
      ensures Result == old(Result) && Trace == old(Trace)
    {
      match clearFn
      case NoOp =>
      case ClearOnlyApplied =>
        OnlyApplied := false;
    }

    method ResetOnlyAppliedThisNodeNextLevel()
      modifies this
      ensures Snapshot() == old(Snapshot()).(nextLevel := None, onlyApplied := false)
      ensures !Armed(Snapshot())
      ensures Result == old(Result) && Trace == old(Trace)
    {
      OnlyApplyThisNodeNextLevel := None;
      OnlyApplied := false;
    }

    /** Push: the current entity goes to the front of the stack and Current becomes nil. */
    method Push()
      modifies this
      ensures Current == Nil && Stack == [old(Current)] + old(Stack)
      ensures Snapshot() == old(Snapshot()).(current := Nil, stack := [old(Current)] + old(Stack))
      ensures Result == old(Result) && Trace == old(Trace)
    {
      Stack := [Current] + Stack;
      Current := Nil;
    }

    /**
     * Pop: the front of the stack becomes Current; Name is refreshed from it only
     * when it implements nameGetter. Go indexes Stack[0], so an empty stack panics.
     */
    method Pop()
      requires |Stack| > 0
      modifies this
      ensures Current == old(Stack[0]) && Stack == old(Stack[1..])
      ensures NameGetter in CapabilitiesOf(Current) ==> Name == Current.ref.GetName()
      ensures NameGetter !in CapabilitiesOf(Current) ==> Name == old(Name)
      ensures OnlyApplyThisNodeNextLevel == old(OnlyApplyThisNodeNextLevel) && OnlyApplied == old(OnlyApplied)
      ensures OnlyApplyThisNode == old(OnlyApplyThisNode)
      ensures Result == old(Result) && Trace == old(Trace)
    {
      Current := Stack[0];
      Stack := Stack[1..];
      if NameGetter in CapabilitiesOf(Current) {
        Name := Current.ref.GetName();
      }
    }

    /** IsReset holds exactly when Reset would leave every field as it is. */
    predicate IsReset()
      reads this
      ensures IsReset() <==> Snapshot().(current := Nil, name := "") == Snapshot()
    {
      Current == Nil && Name == ""
    }

    method Reset()
      modifies this
      ensures IsReset()
      ensures Snapshot() == old(Snapshot()).(current := Nil, name := "")
      ensures Result == old(Result) && Trace == old(Trace)
    {
      Current := Nil;
      Name := "";
    }

    /** Push followed by Pop gives back Current and Stack; Name follows the restored entity. */
    method PushThenPop()
      modifies this
      ensures Current == old(Current) && Stack == old(Stack)
      ensures NameGetter in CapabilitiesOf(Current) ==> Name == Current.ref.GetName()
      ensures NameGetter !in CapabilitiesOf(Current) ==> Name == old(Name)
      ensures Result == old(Result) && Trace == old(Trace)
    {
      Push();
      Pop();
    }
  }
}
