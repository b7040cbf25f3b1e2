/**
 * `ParseVocabulary` (parse.go:120-138): resolve `@context` into RDFNodes, put
 * the registry's well-known JSON-LD nodes in front of them, and walk the whole
 * document with a fresh ParsingContext.
 */
module Parse {
  import opened Wrappers
  import opened Json
  import opened Core
  import opened Data
  import opened Context
  import opened Dispatching
  import opened Traversal
  import opened Resolver
  import TraceShape
  import Overrides

  /** The node list the traversal starts from: the well-known nodes first, then the resolved ones. */
  function StartNodes(reg: Registry, resolved: seq<Handler>): seq<Handler> {
    reg.jsonLDNodes + resolved
  }

  /**
   * On a resolution failure no vocabulary is created and no RDFNode is called.
   * Otherwise a new vocabulary is returned together with the traversal's
   * error, the traversal starting from a context with every field at its zero
   * value; `trace` is every dispatch the traversal made.
   */
  method ParseVocabulary(reg: Registry, input: seq<Member>, b: Behaviour)
    returns (vocabulary: ParsedVocabulary?, err: Option<Error>, ghost trace: seq<Dispatch>)
    ensures var res := ResolveContext(reg, input);
      res.err.Some? ==> vocabulary == null && err == res.err && trace == []
    ensures var res := ResolveContext(reg, input);
      var run := ApplyRun(b, StartNodes(reg, res.nodes), input, Initial, 0);
      res.err.None? ==> vocabulary != null && fresh(vocabulary) && err == run.err && trace == run.trace
  {
    var nodes;
    nodes, err := ParseJSONLDContext(reg, input);
    if err.Some? {
      return null, err, [];
    }
    vocabulary := new ParsedVocabulary();
    var ctx := new ParsingContext(vocabulary);
    // well-known JSON-LD nodes go first so that no other node hijacks them
    nodes := reg.jsonLDNodes + nodes;
    err := Apply(b, nodes, input, ctx, 0);
    trace := ctx.Trace;
  }

  /**
   * A whole parse, once `@context` has resolved: no dispatch anywhere in the
   * document is about `@context`, every dispatch is at depth 0 or deeper, and,
   * when no RDFNode sets an override, every dispatch tries the start list in
   * order (the well-known nodes before the resolved ones).
   */
  lemma WholeParse(reg: Registry, input: seq<Member>, b: Behaviour)
    requires ResolveContext(reg, input).err.None?
    ensures var run := ApplyRun(b, StartNodes(reg, ResolveContext(reg, input).nodes), input, Initial, 0);
      TraceShape.Nested(run.trace, 0)
    ensures (forall h0: Handler, c: Call, s0: ContextState ::
      s0.nextLevel.None? && !s0.onlyApplied && s0.wholeDoc.None? ==> Overrides.Slots(b(h0, c, s0).next) == Overrides.Slots(s0)) ==>
      var run := ApplyRun(b, StartNodes(reg, ResolveContext(reg, input).nodes), input, Initial, 0);
      Overrides.AllFrom(run.trace, StartNodes(reg, ResolveContext(reg, input).nodes))
  {
    var nodes := StartNodes(reg, ResolveContext(reg, input).nodes);
    TraceShape.ApplyNested(b, nodes, input, Initial, 0);
    if forall h0: Handler, c: Call, s0: ContextState ::
        s0.nextLevel.None? && !s0.onlyApplied && s0.wholeDoc.None? ==> Overrides.Slots(b(h0, c, s0).next) == Overrides.Slots(s0)
    {
      Overrides.ApplyPlain(b, nodes, input, Initial, 0, None, false);
    }
  }
}
