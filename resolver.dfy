/**
 * `parseJSONLDContext` (parse.go:259-337): the basic `@context` resolution that
 * turns the `@context` value of a document into the RDFNode list for the rest
 * of the parse. A string names a vocabulary, an object maps aliases to
 * vocabulary names or alias objects, an array lists strings and such objects.
 * The registry is not part of this model: its three lookups are functions the
 * caller supplies.
 */
module Resolver {
  import opened Wrappers
  import opened Json
  import opened Core
  import Traversal

  /** RDFRegistry, as far as the engine uses it. */
  datatype Registry = Registry(
    getFor: string -> Result<seq<Handler>, Error>,
    getAliased: (string, string) -> Result<seq<Handler>, Error>,
    getAliasedObject: (string, seq<Member>) -> Result<seq<Handler>, Error>,
    jsonLDNodes: seq<Handler>)

  /** The named results `(nodes []RDFNode, err error)`: the nodes gathered so far and the error, if any. */
  datatype Resolution = Resolution(nodes: seq<Handler>, err: Option<Error>)

  /** `return registry.getFor(s)`: the registry's answer becomes the result. */
  function FromResult(r: Result<seq<Handler>, Error>): Resolution {
    match r
    case Ok(n) => Resolution(n, None)
    case Err(e) => Resolution([], Some(e))
  }

  /** Appending one registry answer to the nodes gathered so far, or stopping at its error. */
  function Gather(acc: seq<Handler>, r: Result<seq<Handler>, Error>): Resolution {
    match r
    case Ok(n) => Resolution(acc + n, None)
    case Err(e) => Resolution(acc, Some(e))
  }

  /** One alias entry of a `@context` object: a vocabulary name or an alias object. */
  function AliasRun(reg: Registry, acc: seq<Handler>, alias: string, val: Json, site: ContextSite): Resolution {
    match val
    case JStr(s) => Gather(acc, reg.getAliased(alias, s))
    case JMap(m) => Gather(acc, reg.getAliasedObject(alias, m))
    case _ => Resolution(acc, Some(MalformedContext(site)))
  }

  /** The entries of a `@context` object, in visiting order, after the nodes `acc`. */
  function DictRun(reg: Registry, acc: seq<Handler>, m: seq<Member>, site: ContextSite): Resolution
    decreases |m|
  {
    if m == [] then Resolution(acc, None)
    else
      var r := AliasRun(reg, acc, m[0].0, m[0].1, site);
      if r.err.Some? then r else DictRun(reg, r.nodes, m[1..], site)
  }

  /** One element of a `@context` array: an object of aliases or a vocabulary name. */
  function ContextElementRun(reg: Registry, acc: seq<Handler>, x: Json): Resolution {
    match x
    case JMap(m) => DictRun(reg, acc, m, InArrayDict)
    case JStr(s) => Gather(acc, reg.getFor(s))
    case _ => Resolution(acc, Some(MalformedContext(InArray)))
  }

  /** The elements of a `@context` array, in order, after the nodes `acc`. */
  function ArrayRun(reg: Registry, acc: seq<Handler>, xs: seq<Json>): Resolution
    decreases |xs|
  {
    if xs == [] then Resolution(acc, None)
    else
      var r := ContextElementRun(reg, acc, xs[0]);
      if r.err.Some? then r else ArrayRun(reg, r.nodes, xs[1..])
  }

  /** `parseJSONLDContext(registry, input)`. */
  function ResolveContext(reg: Registry, input: seq<Member>): Resolution {
    match Find(input, Traversal.ContextKey)
    case None => Resolution([], Some(MissingContext))
    case Some(i) =>
      match input[i].1
      case JArr(xs) => ArrayRun(reg, [], xs)
      case JMap(m) => DictRun(reg, [], m, InDict)
      case JStr(s) => FromResult(reg.getFor(s))
      // the "single @context value is not a string" error is overwritten by
      // the return that follows it, which looks up the empty name
      case _ => FromResult(reg.getFor(""))
  }

  /**
   * `parseJSONLDContext` (parse.go:262-337): the nested loops append each
   * registry answer in turn and return at the first error or malformed value.
   */
  method ParseJSONLDContext(reg: Registry, input: seq<Member>) returns (nodes: seq<Handler>, err: Option<Error>)
    ensures Resolution(nodes, err) == ResolveContext(reg, input)
  {
    nodes, err := [], None;
    var at := Find(input, Traversal.ContextKey);
    if at.None? {
      err := Some(MissingContext);
      return;
    }
    var i := input[at.value].1;
    if i.JArr? {
      // @context is an array
      var inArray := i.items;
      var k := 0;
      while k < |inArray|
        invariant 0 <= k <= |inArray|
        invariant ArrayRun(reg, nodes, inArray[k..]) == ResolveContext(reg, input)
        invariant err.None?
      {
        assert inArray[k..][0] == inArray[k] && inArray[k..][1..] == inArray[k + 1..];
        var iVal := inArray[k];
        if iVal.JMap? {
          // element is an object of aliases
          var valMap := iVal.members;
          var j := 0;
          while j < |valMap|
            invariant 0 <= j <= |valMap|
            invariant DictRun(reg, nodes, valMap[j..], InArrayDict).err.Some? ==>
              DictRun(reg, nodes, valMap[j..], InArrayDict) == ResolveContext(reg, input)
            invariant DictRun(reg, nodes, valMap[j..], InArrayDict).err.None? ==>
              ArrayRun(reg, DictRun(reg, nodes, valMap[j..], InArrayDict).nodes, inArray[k + 1..]) == ResolveContext(reg, input)
            invariant err.None?
          {
            assert valMap[j..][0] == valMap[j] && valMap[j..][1..] == valMap[j + 1..];
            var (alias, val) := valMap[j];
            if val.JStr? {
              var n := reg.getAliased(alias, val.str);
              if n.Err? {
                err := Some(n.error);
                return;
              }
              nodes := nodes + n.value;
            } else if val.JMap? {
              var n := reg.getAliasedObject(alias, val.members);
              if n.Err? {
                err := Some(n.error);
                return;
              }
              nodes := nodes + n.value;
            } else {
              err := Some(MalformedContext(InArrayDict));
              return;
            }
            j := j + 1;
          }
          assert valMap[j..] == [];
        } else if iVal.JStr? {
          // element is a single vocabulary name
          var n := reg.getFor(iVal.str);
          if n.Err? {
            err := Some(n.error);
            return;
          }
          nodes := nodes + n.value;
        } else {
          err := Some(MalformedContext(InArray));
          return;
        }
        k := k + 1;
      }
      assert inArray[k..] == [];
    } else if i.JMap? {
      // @context is an object of aliases
      var inMap := i.members;
      var j := 0;
      while j < |inMap|
        invariant 0 <= j <= |inMap|
        invariant DictRun(reg, nodes, inMap[j..], InDict) == ResolveContext(reg, input)
        invariant err.None?
      {
        assert inMap[j..][0] == inMap[j] && inMap[j..][1..] == inMap[j + 1..];
        var (alias, iVal) := inMap[j];
        if iVal.JStr? {
          var n := reg.getAliased(alias, iVal.str);
          if n.Err? {
            err := Some(n.error);
            return;
          }
          nodes := nodes + n.value;
        } else if iVal.JMap? {
          var n := reg.getAliasedObject(alias, iVal.members);
          if n.Err? {
            err := Some(n.error);
            return;
          }
          nodes := nodes + n.value;
        } else {
          err := Some(MalformedContext(InDict));
          return;
        }
        j := j + 1;
      }
      assert inMap[j..] == [];
    } else {
      // @context is a single value
      var s := "";
      if i.JStr? {
        s := i.str;
      } else {
        err := Some(MalformedContext(SingleValue));
      }
      var n := reg.getFor(s);
      match n {
        case Ok(v) => nodes, err := v, None;
        case Err(e) => nodes, err := [], Some(e);
      }
    }
  }

  /** The nodes gathered before a resolution step are kept in front of what it adds. */
  lemma {:induction false} DictAccumulates(reg: Registry, acc: seq<Handler>, m: seq<Member>, site: ContextSite)
    ensures var alone := DictRun(reg, [], m, site);
      DictRun(reg, acc, m, site) == Resolution(acc + alone.nodes, alone.err)
    decreases |m|
  {
    if m != [] {
      var r := AliasRun(reg, acc, m[0].0, m[0].1, site);
      var r0 := AliasRun(reg, [], m[0].0, m[0].1, site);
      assert r == Resolution(acc + r0.nodes, r0.err);
      if r.err.None? {
        DictAccumulates(reg, r.nodes, m[1..], site);
        DictAccumulates(reg, r0.nodes, m[1..], site);
        var rest := DictRun(reg, [], m[1..], site);
        assert (acc + r0.nodes) + rest.nodes == acc + (r0.nodes + rest.nodes);
      }
    }
  }

  lemma ContextElementAccumulates(reg: Registry, acc: seq<Handler>, x: Json)
    ensures var alone := ContextElementRun(reg, [], x);
      ContextElementRun(reg, acc, x) == Resolution(acc + alone.nodes, alone.err)
  {
    if x.JMap? {
      DictAccumulates(reg, acc, x.members, InArrayDict);
    }
  }

  lemma {:induction false} ArrayAccumulates(reg: Registry, acc: seq<Handler>, xs: seq<Json>)
    ensures var alone := ArrayRun(reg, [], xs);
      ArrayRun(reg, acc, xs) == Resolution(acc + alone.nodes, alone.err)
    decreases |xs|
  {
    if xs != [] {
      ContextElementAccumulates(reg, acc, xs[0]);
      ContextElementAccumulates(reg, [], xs[0]);
      var r0 := ContextElementRun(reg, [], xs[0]);
      if r0.err.None? {
        ArrayAccumulates(reg, acc + r0.nodes, xs[1..]);
        ArrayAccumulates(reg, r0.nodes, xs[1..]);
        var rest := ArrayRun(reg, [], xs[1..]);
        assert (acc + r0.nodes) + rest.nodes == acc + (r0.nodes + rest.nodes);
      }
    }
  }

  /** The handlers each element of a `@context` array resolves to on its own, concatenated in array order. */
  function Flatten(reg: Registry, xs: seq<Json>): seq<Handler>
    decreases |xs|
  {
    if xs == [] then [] else ContextElementRun(reg, [], xs[0]).nodes + Flatten(reg, xs[1..])
  }

  /**
   * An array `@context` resolves to the concatenation, in array order, of what
   * each element resolves to, and succeeds exactly when every element does.
   */
  lemma {:induction false} ArrayConcatenates(reg: Registry, xs: seq<Json>)
    ensures ArrayRun(reg, [], xs).err.None? <==> forall j :: 0 <= j < |xs| ==> ContextElementRun(reg, [], xs[j]).err.None?
    ensures ArrayRun(reg, [], xs).err.None? ==> ArrayRun(reg, [], xs).nodes == Flatten(reg, xs)
    decreases |xs|
  {
    if xs != [] {
      ContextElementAccumulates(reg, [], xs[0]);
      var r0 := ContextElementRun(reg, [], xs[0]);
      ArrayConcatenates(reg, xs[1..]);
      ArrayAccumulates(reg, r0.nodes, xs[1..]);
      assert forall j :: 1 <= j < |xs| ==> xs[j] == xs[1..][j - 1];
      if r0.err.None? && ArrayRun(reg, [], xs[1..]).err.None? {
        assert forall j :: 0 <= j < |xs| ==> ContextElementRun(reg, [], xs[j]).err.None? by {
          forall j | 0 <= j < |xs| ensures ContextElementRun(reg, [], xs[j]).err.None? {
            if j > 0 {
              assert xs[j] == xs[1..][j - 1];
            }
          }
        }
      }
    }
  }

  /**
   * The first failure aborts: when the elements before `f` resolve and element
   * `f` fails (a registry error or a value that is neither a string nor an
   * object), the result is that failure, with the nodes gathered up to it, and
   * no later element is looked at.
   */
  lemma {:induction false} ArrayFirstFailure(reg: Registry, xs: seq<Json>, f: nat)
    requires f < |xs| && ContextElementRun(reg, [], xs[f]).err.Some?
    requires forall j :: 0 <= j < f ==> ContextElementRun(reg, [], xs[j]).err.None?
    ensures ArrayRun(reg, [], xs)
      == Resolution(Flatten(reg, xs[..f]) + ContextElementRun(reg, [], xs[f]).nodes, ContextElementRun(reg, [], xs[f]).err)
    decreases f
  {
    ContextElementAccumulates(reg, [], xs[0]);
    var r0 := ContextElementRun(reg, [], xs[0]);
    if f > 0 {
      assert forall j :: 0 <= j < f - 1 ==> xs[1..][j] == xs[j + 1];
      ArrayFirstFailure(reg, xs[1..], f - 1);
      ArrayAccumulates(reg, r0.nodes, xs[1..]);
      assert xs[..f][0] == xs[0] && xs[..f][1..] == xs[1..][..f - 1];
      assert xs[1..][f - 1] == xs[f];
      var tail := Flatten(reg, xs[1..][..f - 1]);
      assert r0.nodes + (tail + ContextElementRun(reg, [], xs[f]).nodes) == (r0.nodes + tail) + ContextElementRun(reg, [], xs[f]).nodes;
    } else {
      assert xs[..0] == [];
    }
  }

  /** The handlers each entry of a `@context` object resolves to on its own, concatenated in visiting order. */
  function DictFlatten(reg: Registry, m: seq<Member>, site: ContextSite): seq<Handler>
    decreases |m|
  {
    if m == [] then [] else AliasRun(reg, [], m[0].0, m[0].1, site).nodes + DictFlatten(reg, m[1..], site)
  }

  /**
   * A `@context` object resolves to the concatenation, in visiting order, of
   * what each entry resolves to, and succeeds exactly when every entry does;
   * which entries succeed does not depend on the visiting order.
   */
  lemma {:induction false} DictConcatenates(reg: Registry, m: seq<Member>, site: ContextSite)
    ensures DictRun(reg, [], m, site).err.None? <==>
      forall j :: 0 <= j < |m| ==> AliasRun(reg, [], m[j].0, m[j].1, site).err.None?
    ensures DictRun(reg, [], m, site).err.None? ==> DictRun(reg, [], m, site).nodes == DictFlatten(reg, m, site)
    decreases |m|
  {
    if m != [] {
      var r0 := AliasRun(reg, [], m[0].0, m[0].1, site);
      DictConcatenates(reg, m[1..], site);
      DictAccumulates(reg, r0.nodes, m[1..], site);
      assert forall j :: 1 <= j < |m| ==> m[j] == m[1..][j - 1];
      if r0.err.None? && DictRun(reg, [], m[1..], site).err.None? {
        forall j | 0 <= j < |m| ensures AliasRun(reg, [], m[j].0, m[j].1, site).err.None? {
          if j > 0 {
            assert m[j] == m[1..][j - 1];
          }
        }
      }
    }
  }

  /**
   * The first failing entry of a `@context` object ends resolution with its
   * error and the nodes of the entries visited before it; later entries are
   * not looked at.
   */
  lemma {:induction false} DictFirstFailure(reg: Registry, m: seq<Member>, site: ContextSite, f: nat)
    requires f < |m| && AliasRun(reg, [], m[f].0, m[f].1, site).err.Some?
    requires forall j :: 0 <= j < f ==> AliasRun(reg, [], m[j].0, m[j].1, site).err.None?
    ensures DictRun(reg, [], m, site)
      == Resolution(DictFlatten(reg, m[..f], site), AliasRun(reg, [], m[f].0, m[f].1, site).err)
    decreases f
  {
    var r0 := AliasRun(reg, [], m[0].0, m[0].1, site);
    if f > 0 {
      assert forall j :: 0 <= j < f - 1 ==> m[1..][j] == m[j + 1];
      assert m[1..][f - 1] == m[f];
      DictFirstFailure(reg, m[1..], site, f - 1);
      DictAccumulates(reg, r0.nodes, m[1..], site);
      assert m[..f][0] == m[0] && m[..f][1..] == m[1..][..f - 1];
    } else {
      assert m[..0] == [];
    }
  }

  /**
   * A one-entry `@context` object: a string value is looked up with
   * getAliased, an object value with getAliasedObject, and any other value
   * is a malformed context.
   */
  lemma SingleAlias(reg: Registry, input: seq<Member>, i: nat, alias: string, val: Json)
    requires Find(input, Traversal.ContextKey) == Some(i)
    requires input[i].1 == JMap([(alias, val)])
    ensures val.JStr? ==> ResolveContext(reg, input) == FromResult(reg.getAliased(alias, val.str))
    ensures val.JMap? ==> ResolveContext(reg, input) == FromResult(reg.getAliasedObject(alias, val.members))
    ensures !val.JStr? && !val.JMap? ==> ResolveContext(reg, input) == Resolution([], Some(MalformedContext(InDict)))
  {
    var m := [(alias, val)];
    assert m[0] == (alias, val) && m[1..] == [];
    var r := AliasRun(reg, [], alias, val, InDict);
    assert DictRun(reg, r.nodes, [], InDict) == Resolution(r.nodes, None);
    assert ResolveContext(reg, input) == DictRun(reg, [], m, InDict);
    match val {
      case JStr(str) =>
        if reg.getAliased(alias, str).Ok? {
          assert [] + reg.getAliased(alias, str).value == reg.getAliased(alias, str).value;
        }
      case JMap(o) =>
        if reg.getAliasedObject(alias, o).Ok? {
          assert [] + reg.getAliasedObject(alias, o).value == reg.getAliasedObject(alias, o).value;
        }
      case _ =>
    }
  }

  /**
   * An array `@context` whose element `f` is neither a string nor an object,
   * all earlier elements resolving, fails with a malformed-context error after
   * the nodes of those earlier elements.
   */
  lemma ArrayMalformedFails(reg: Registry, input: seq<Member>, i: nat, f: nat)
    requires Find(input, Traversal.ContextKey) == Some(i) && input[i].1.JArr?
    requires f < |input[i].1.items| && !input[i].1.items[f].JStr? && !input[i].1.items[f].JMap?
    requires forall j :: 0 <= j < f ==> ContextElementRun(reg, [], input[i].1.items[j]).err.None?
    ensures ResolveContext(reg, input)
      == Resolution(Flatten(reg, input[i].1.items[..f]), Some(MalformedContext(InArray)))
  {
    var xs := input[i].1.items;
    ArrayFirstFailure(reg, xs, f);
    assert Flatten(reg, xs[..f]) + [] == Flatten(reg, xs[..f]);
  }

  /**
   * A `@context` object whose entry `f` has a value that is neither a string
   * nor an object, all entries visited earlier resolving, fails with a
   * malformed-context error after the nodes of those earlier entries.
   */
  lemma DictMalformedFails(reg: Registry, input: seq<Member>, i: nat, f: nat)
    requires Find(input, Traversal.ContextKey) == Some(i) && input[i].1.JMap?
    requires f < |input[i].1.members| && !input[i].1.members[f].1.JStr? && !input[i].1.members[f].1.JMap?
    requires forall j :: 0 <= j < f ==> AliasRun(reg, [], input[i].1.members[j].0, input[i].1.members[j].1, InDict).err.None?
    ensures ResolveContext(reg, input)
      == Resolution(DictFlatten(reg, input[i].1.members[..f], InDict), Some(MalformedContext(InDict)))
  {
    DictFirstFailure(reg, input[i].1.members, InDict, f);
  }

  /**
   * With `@context: ["A", "B"]` the node list is A's handlers followed by B's,
   * so A's handlers come first in every dispatch.
   */
  lemma TwoVocabularies(reg: Registry, input: seq<Member>, i: nat, a: string, bName: string,
                        na: seq<Handler>, nb: seq<Handler>)
    requires Find(input, Traversal.ContextKey) == Some(i)
    requires input[i].1 == JArr([JStr(a), JStr(bName)])
    requires reg.getFor(a) == Ok(na) && reg.getFor(bName) == Ok(nb)
    ensures ResolveContext(reg, input) == Resolution(na + nb, None)
  {
    var xs := [JStr(a), JStr(bName)];
    assert xs[1..] == [JStr(bName)] && xs[1..][1..] == [];
    assert [] + na == na;
    assert ArrayRun(reg, na + nb, []) == Resolution(na + nb, None);
    assert ArrayRun(reg, na, [JStr(bName)]) == Resolution(na + nb, None);
    assert ArrayRun(reg, [], xs) == Resolution(na + nb, None);
  }

  /**
   * A `@context` that is neither an array, an object nor a string does not
   * fail on its shape: its "not a string" error is overwritten by the lookup
   * of the empty name that follows it, so the parse goes on whenever the
   * registry knows that name.
   */
  lemma ScalarContextLooksUpEmptyName(reg: Registry, input: seq<Member>, i: nat)
    requires Find(input, Traversal.ContextKey) == Some(i)
    requires input[i].1.JNum? || input[i].1.JBool? || input[i].1.JNull?
    ensures ResolveContext(reg, input) == FromResult(reg.getFor(""))
    ensures reg.getFor("").Ok? ==> ResolveContext(reg, input).err.None?
  {
  }

  /** A document without `@context` cannot be resolved. */
  lemma MissingContextFails(reg: Registry, input: seq<Member>)
    requires forall j :: 0 <= j < |input| ==> input[j].0 != Traversal.ContextKey
    ensures ResolveContext(reg, input) == Resolution([], Some(MissingContext))
  {
  }
}
