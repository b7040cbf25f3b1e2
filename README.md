# RDF vocabulary parsing engine: a Dafny model

This project models the parsing engine of `tools/exp/rdf` of the `activity`
code generator. The engine reads an ActivityStreams vocabulary definition, a
JSON-LD document, into a `ParsedVocabulary`. It works in three steps:

- **Resolve `@context`.** `parseJSONLDContext` turns the document's `@context`
  into an ordered list of RDFNodes (handlers), asking an RDF registry for
  the nodes of each named vocabulary or alias.
- **Prepend the built-in nodes.** The registry's well-known JSON-LD nodes are
  put in front, so that no ontology node hijacks them.
- **Walk the document.** `apply` walks the document depth first with one
  `ParsingContext`.
  - `apply` handles `@type`, or else `type`, before every other key. It never
    hands over `@context`.
  - `doApply` brackets each value according to its shape:
    - an object gives enter, a recursive walk, then exit;
    - an array gives enter, the element, then exit, for each element;
    - any other value gives one apply.
  - Each enter, exit or apply goes to the first RDFNode in list order that
    reports it handled the call or that returns an error.
  - Two overrides in the context can hijack dispatch:
    - `OnlyApplyThisNode` replaces the walk of the whole object with one call;
    - `OnlyApplyThisNodeNextLevel` sends the enter, apply and exit calls of the
      next `doApply` to one node. The `clearFn` that `doApply` defers arms it
      again when that `doApply` returns, so the next sibling key is hijacked
      too (parse.go:187-188).

The vocabulary data model (`data.go`) is modelled too:

- the five entity structs and the capability interfaces each pointer type
  implements;
- the setters that handlers call through those interfaces;
- the three vocabulary maps, which reject a duplicate name when it is inserted.

How the model is built:

- **RDFNodes are an oracle.** `Dispatching.Behaviour` maps a node, a call and
  the context's fields to the node's answer (handled, error) and to the fields
  it leaves behind.
- **The registry is a parameter.** `Resolver.Registry` holds its three lookups
  as functions, plus the list of well-known nodes.
- **Stateful code is imperative.** `ParsingContext`, `Vocabulary` and the entity
  pointers are classes whose methods update their fields. The loops of `apply`,
  `doApply`, the `*FirstNode` functions and `parseJSONLDContext` are methods
  with loop invariants.
- **Each method is proved against a specification function.**
  - `ApplyRun`, `DoApplyRun`, `FirstMatch` and `ResolveContext` give the error
    that is returned and the fields that are left behind.
  - For the traversal they also give the dispatches made. These are recorded in
    the ghost field `ParsingContext.Trace`: one `Dispatch(depth, call, tries)`
    per dispatch, where `tries` lists the nodes asked and their answers.
- **The properties are lemmas about those functions.**
  - Priority order and first match wins.
  - Type pre-pass order, and each member handed over once.
  - No dispatch about `@context`, and nesting depth.
  - Enter/exit bracketing per element.
  - Full list versus override list.
  - How `@context` resolution concatenates and fails.

Files: `wrappers.dfy`, `json.dfy`, `core.dfy`, `data.dfy`, `context.dfy`,
`dispatch.dfy`, `traversal.dfy`, `schedule.dfy`, `shape.dfy`,
`overrides.dfy`, `resolver.dfy`, `parse.dfy`.

Go maps are sequences of members in an arbitrary but fixed order, which stands
for Go's map iteration order. Every lemma that does not say otherwise holds
for every order.

### Behaviour of the code that may surprise

- **A `@context` that is a number, a boolean or null does not fail.** The
  error set at parse.go:332 is overwritten by `return registry.getFor(s)` at
  parse.go:334, with `s` empty. `Resolver.ResolveContext` does the same:
  `Resolver.ScalarContextLooksUpEmptyName`.
- **A failed traversal still returns the vocabulary.** `ParseVocabulary`
  returns the freshly allocated `ParsedVocabulary` together with the
  traversal's error (parse.go:128-137). `Parse.ParseVocabulary` does the
  same. Only a `@context` resolution failure returns nil.
- **A URI that does not parse is stored as nil.** The URI setters store nil
  and return the error, leaving the rest of the entity as it was
  (`Data.EntityRef.SetURI`). Whether that aborts the parse is up to the
  RDFNode that called the setter.
- **The whole-document override fails on "not handled".** When the node does
  not report the call as handled, the result is a fixed error, even if the
  node returned no error (parse.go:146-147).

## Model

| member | source | states |
|---|---|---|
| Json.Find | tools/exp/rdf/parse.go:154-162 | The map lookup `input[key]`. It returns the first position holding the key, and None exactly when no member has that key. |
| Data.Capabilities | tools/exp/rdf/data.go:112-116 | Every entity pointer implements NameSetter, nameGetter and URISetter. NotesSetter and ExampleAdder are implemented exactly by the type and property structs (also data.go:156-162, 205-211, 235-239, 264-268). |
| Data.WithName | tools/exp/rdf/data.go:98-100 | SetName sets the name and keeps the kind, the URI, the notes, the examples and every other field. It does the same in every struct (data.go:134-136, 183-185, 221-223, 250-252). |
| Data.WithURI | tools/exp/rdf/data.go:106-110 | Assigning the URI changes only the URI field. |
| Data.WithNotes | tools/exp/rdf/data.go:148-150 | SetNotes sets the notes and keeps every other field (also data.go:197-199). |
| Data.WithExample | tools/exp/rdf/data.go:152-154 | AddExample appends a copy of the example after the existing ones, which are unchanged. No other field changes (also data.go:201-203). |
| Data.NameRoundTrip | tools/exp/rdf/data.go:98-104 | GetName after SetName(s) gives s. Setting the current name changes nothing. Setting a name and then the old one restores the entity. |
| Data.WithNameDeterminedByRest | tools/exp/rdf/data.go:134-136 | Two entities that agree on everything but the name are equal once both are given the same name. |
| Data.EntityRef.GetName | tools/exp/rdf/data.go:102-104 | GetName returns the entity's name: setting that name again changes nothing, so no other name could be returned (also data.go:138-140, 187-189, 225-227, 254-256). |
| Data.EntityRef.SetName | tools/exp/rdf/data.go:134-140 | Through the pointer the entity becomes WithName of the old value, and GetName returns the new name. |
| Data.EntityRef.SetURI | tools/exp/rdf/data.go:142-146 | The URI becomes the parser's result, or nil when parsing fails. The error is returned exactly when parsing fails, and it names the string. |
| Data.EntityRef.SetNotes | tools/exp/rdf/data.go:148-150 | Available only on type and property entities. The entity becomes WithNotes of the old value. |
| Data.EntityRef.AddExample | tools/exp/rdf/data.go:152-154 | Available only on type and property entities. The example's current value is appended. |
| Data.Insert | tools/exp/rdf/data.go:57-61 | Inserting a name fails exactly when the name is already a key. Otherwise the name is added with its entity and every other entry is kept. |
| Data.DuplicateAlwaysRejected | tools/exp/rdf/data.go:53-84 | Whichever entity is inserted first under a name, inserting the name a second time fails. |
| Data.InsertOrderIrrelevant | tools/exp/rdf/data.go:53-84 | Inserting two distinct new names gives the same map in either order. |
| Data.Vocabulary.SetType | tools/exp/rdf/data.go:53-62 | A nil Types map becomes an empty map. A duplicate name gives DuplicateName and leaves Types unchanged. Otherwise the type is inserted. Properties and Values are untouched. |
| Data.Vocabulary.SetProperty | tools/exp/rdf/data.go:64-73 | The same rule for Properties. Types and Values are untouched. |
| Data.Vocabulary.SetValue | tools/exp/rdf/data.go:75-84 | The same rule for Values. Types and Properties are untouched. |
| Data.Vocabulary.SetTypeTwice | tools/exp/rdf/data.go:57-59 | A two-call example of Data.DuplicateAlwaysRejected on the class: a second SetType with the same name fails. When the first call succeeded, Types holds the first entity. |
| Data.ParsedVocabulary.constructor | tools/exp/rdf/parse.go:128 | `&ParsedVocabulary{}`: a fresh Vocab with three nil maps, and no references. |
| Context.NextNodes | tools/exp/rdf/parse.go:50-61 | When the next-level override is set and not consumed: the list is that node alone, the clearFn resets OnlyApplied, and OnlyApplied becomes true. Otherwise: the full list, a no-op clearFn, and no change. |
| Context.NextLevelConsumedOnce | tools/exp/rdf/parse.go:50-61 | The override is handed out once. A second GetNextNodes gives the full list. After the clearFn the context is as before, and the override is handed out again. |
| Context.ResetDisarms | tools/exp/rdf/parse.go:63-66 | After ResetOnlyAppliedThisNodeNextLevel, GetNextNodes always gives the full list and changes nothing. |
| Context.ParsingContext.constructor | tools/exp/rdf/parse.go:129-131 | The context holds the vocabulary and every other field is at its zero value. |
| Context.ParsingContext.SetOnlyApplyThisNode | tools/exp/rdf/parse.go:37-39 | Only the whole-document override changes; it becomes n. |
| Context.ParsingContext.ResetOnlyApplyThisNode | tools/exp/rdf/parse.go:41-43 | Only the whole-document override changes; it becomes nil. |
| Context.ParsingContext.SetOnlyApplyThisNodeNextLevel | tools/exp/rdf/parse.go:45-48 | The next-level override becomes n and is armed (not consumed). Nothing else changes. |
| Context.ParsingContext.GetNextNodes | tools/exp/rdf/parse.go:50-61 | The nodes, the clearFn and the new fields are exactly NextNodes of the old fields. |
| Context.ParsingContext.RunClear | tools/exp/rdf/parse.go:57-59 | Running the clearFn resets OnlyApplied or does nothing, as Cleared says. |
| Context.ParsingContext.ResetOnlyAppliedThisNodeNextLevel | tools/exp/rdf/parse.go:63-66 | The next-level override is cleared and disarmed. Nothing else changes. |
| Context.ParsingContext.Push | tools/exp/rdf/parse.go:68-71 | Current goes to the front of the stack and becomes nil. Nothing else changes. |
| Context.ParsingContext.Pop | tools/exp/rdf/parse.go:73-79 | The stack's head becomes Current and is removed from the stack. Name is refreshed from it exactly when it implements nameGetter; otherwise Name is kept. |
| Context.ParsingContext.IsReset | tools/exp/rdf/parse.go:81-84 | IsReset holds exactly when Current is nil and Name is empty, that is, exactly when Reset would change nothing. |
| Context.ParsingContext.Reset | tools/exp/rdf/parse.go:86-89 | Current and Name are cleared, so IsReset holds afterwards. Nothing else changes. |
| Context.ParsingContext.PushThenPop | tools/exp/rdf/parse.go:68-79 | A two-call example of Push and Pop together: Pop undoes Push, giving back Current and Stack. Name follows the restored entity when it has a name. |
| Dispatching.FirstMatchContract | tools/exp/rdf/parse.go:223-233 | Nodes are tried in list order from the head, and all but the last tried neither applied nor erred. The result is the last node's error if it applied or erred. Otherwise every node was tried and the result is an error naming the call (also parse.go:235-257). |
| Dispatching.FirstMatchConcat | tools/exp/rdf/parse.go:224-232 | Priority: dispatching over `a + c` is dispatching over `a`, and only reaches `c` when no node of `a` applied or erred. |
| Dispatching.Invoke | tools/exp/rdf/parse.go:226 | One node call returns the oracle's answer and leaves the context's fields as the node left them. |
| Dispatching.FirstNode | tools/exp/rdf/parse.go:224-257 | The loop of enterFirstNode, exitFirstNode and applyFirstNode returns FirstMatch's error and leaves its fields. It appends exactly one dispatch, with FirstMatch's tries, to the trace. |
| Traversal.WholeDocumentOverride | tools/exp/rdf/parse.go:145-152 | With OnlyApplyThisNode set to h, walking an object is exactly one call, apply("", object), on h. Its error is the result when h applied, and a fixed error when it did not. |
| Traversal.Apply | tools/exp/rdf/parse.go:142-178 | `apply` returns ApplyRun's error, leaves its fields and appends its dispatches to the trace. `ctx.Result` still refers to the same vocabulary; what nodes write into it is not modelled. |
| Traversal.DoApply | tools/exp/rdf/parse.go:181-221 | `doApply` returns DoApplyRun's error, leaves its fields and appends its dispatches. This includes running the deferred clearFn on every exit path. |
| Traversal.ApplyElement | tools/exp/rdf/parse.go:200-215 | One array element returns BracketRun's error, leaves its fields and appends its dispatches. |
| Traversal.ApplyElements | tools/exp/rdf/parse.go:198-216 | The array branch of `doApply` returns ElementsRun's error, leaves its fields and appends its dispatches. |
| Schedule.PreIndex | tools/exp/rdf/parse.go:153-162 | The pre-pass hands over the `@type` member if there is one, else the `type` member if there is one, else nothing. |
| Schedule.Rest | tools/exp/rdf/parse.go:164-172 | The main loop hands over exactly the members at or after i whose key is not `@context`, `@type` or `type`, in increasing position. |
| Schedule.MembersFollowRest | tools/exp/rdf/parse.go:164-176 | The main loop is doApply over the members listed by Rest, in order, stopping at the first error. |
| Schedule.ApplyFollowsOrder | tools/exp/rdf/parse.go:153-177 | Without a whole-document override, walking an object is doApply over the pre-pass member followed by the rest, stopping at the first error. |
| Schedule.OrderMembers | tools/exp/rdf/parse.go:153-176 | With distinct keys, a member is handed over exactly when its key is not `@context` and it is not `type` with `@type` present. |
| Schedule.OrderDistinct | tools/exp/rdf/parse.go:153-176 | No member is handed over twice. |
| Schedule.OrderOnce | tools/exp/rdf/parse.go:153-176 | `@type` goes first when present, and `type` goes first when `@type` is absent. It also states the membership and no-repeat facts above. |
| TraceShape.ApplyNested | tools/exp/rdf/parse.go:142-221 | Walking an object at depth d dispatches only at depth d or deeper, and never about `@context`, at any level. |
| TraceShape.DoApplyNested | tools/exp/rdf/parse.go:181-221 | The same for one key/value pair whose key is not `@context`. |
| TraceShape.BracketLevel | tools/exp/rdf/parse.go:200-215 | An array element that ends without error makes, at its level, exactly enter, apply (unless it is an object) and exit. |
| TraceShape.ElementsLevel | tools/exp/rdf/parse.go:199-216 | An array loop that ends without error makes, at its level, exactly those brackets, element by element. |
| TraceShape.BracketsCount | tools/exp/rdf/parse.go:199-216 | An array of N elements gives exactly N enters and N exits for its key. |
| TraceShape.DoApplyBrackets | tools/exp/rdf/parse.go:190-219 | An object gives enter, the walk one level deeper with the full list, and exit. An array gives one bracket per element, and no call at all when it is empty. Any other value gives exactly one apply. |
| Overrides.FirstMatchKeeps | tools/exp/rdf/parse.go:224-232 | A dispatch whose nodes leave the override fields alone, while those hold a given override and OnlyApplied flag, leaves them at those values. |
| Overrides.ApplyPlain | tools/exp/rdf/parse.go:142-221 | With no override armed, and nodes that leave the override fields alone while they hold their current override and OnlyApplied flag, every dispatch anywhere in the walk tries the full list, in order. |
| Overrides.DoApplyPlain | tools/exp/rdf/parse.go:186-188 | The same for one key/value pair. |
| Overrides.DoApplyHijacked | tools/exp/rdf/parse.go:50-61 | With the next-level override h armed, and nodes that leave the override fields alone while h has been handed out (OnlyApplied true), the pair's own dispatches go to h alone and the recursion below uses the full list. When the deferred clearFn has run, the override is armed again (also parse.go:186-193). |
| Overrides.ApplyHijacked | tools/exp/rdf/parse.go:153-176 | With h armed, and nodes that leave the override fields alone while h has been handed out, every key of the object is dispatched to h alone, everything below to the full list, and the override fields are kept. |
| Overrides.EnterArmsChildren | tools/exp/rdf/parse.go:190-197 | A node arms h while entering a key with an object value. Nodes may clear or replace h in any state except while h has been handed out, which is the only state the dispatches of the hijacked keys see. The walk of that object follows the enter dispatch in the trace. Every key of the object goes to h alone, everything below to the full list, and h is still armed afterwards (also parse.go:45-61). |
| Overrides.ArmDisarmHijacksChildren | tools/exp/rdf/parse.go:45-66 | A node that arms h on entering a key and resets it on exiting that key (the pairing SetOnlyApplyThisNodeNextLevel / ResetOnlyAppliedThisNodeNextLevel): every key of the object below goes to h alone, everything deeper to the full list, and once the key is left no override is set (also parse.go:186-219). |
| Resolver.ParseJSONLDContext | tools/exp/rdf/parse.go:262-337 | The nested loops return exactly what ResolveContext gives: the nodes gathered and the error. |
| Resolver.DictAccumulates | tools/exp/rdf/parse.go:308-327 | The loop over a `@context` object keeps the nodes gathered before it in front of what it adds. |
| Resolver.ArrayAccumulates | tools/exp/rdf/parse.go:270-305 | The same for the loop over a `@context` array. |
| Resolver.ArrayConcatenates | tools/exp/rdf/parse.go:270-305 | An array `@context` succeeds exactly when every element resolves on its own. Its nodes are then the elements' nodes concatenated in array order. |
| Resolver.ArrayFirstFailure | tools/exp/rdf/parse.go:296-303 | The first failing element ends resolution with its error and the nodes gathered before it. Later elements are not looked at. |
| Resolver.DictConcatenates | tools/exp/rdf/parse.go:308-327 | A `@context` object succeeds exactly when every entry resolves on its own, whatever the visiting order. Its nodes are then the entries' nodes concatenated in visiting order. |
| Resolver.DictFirstFailure | tools/exp/rdf/parse.go:309-326 | The first failing entry ends resolution with its error and the nodes of the entries visited before it. Later entries are not looked at. |
| Resolver.SingleAlias | tools/exp/rdf/parse.go:308-326 | In a one-entry `@context` object, a string value is looked up with getAliased and an object value with getAliasedObject. Any other value fails with a malformed context. |
| Resolver.ArrayMalformedFails | tools/exp/rdf/parse.go:301-303 | An array element that is neither a string nor an object, after elements that resolved, fails with a malformed context after their nodes. |
| Resolver.DictMalformedFails | tools/exp/rdf/parse.go:323-325 | An object entry whose value is neither a string nor an object, after entries that resolved, fails with a malformed context after their nodes. |
| Resolver.TwoVocabularies | tools/exp/rdf/parse.go:293-300 | `@context: ["A", "B"]` resolves to A's nodes followed by B's. |
| Resolver.ScalarContextLooksUpEmptyName | tools/exp/rdf/parse.go:328-334 | A number, boolean or null `@context` resolves to the registry's answer for the empty name. |
| Resolver.MissingContextFails | tools/exp/rdf/parse.go:263-267 | A document without `@context` fails with MissingContext and no nodes. |
| Parse.ParseVocabulary | tools/exp/rdf/parse.go:122-138 | On a resolution error: no vocabulary, that error, no dispatch. Otherwise: a fresh vocabulary, and the error and dispatches of walking the document with the well-known nodes in front of the resolved ones, from a zeroed context. |
| Parse.WholeParse | tools/exp/rdf/parse.go:132-136 | A whole parse never dispatches `@context`. When no node sets an override, every dispatch tries the well-known nodes before the resolved ones. |

## Left out

- **String methods.** The `String()` methods of data.go (lines 22-29, 39-51, 94-96, 130-132, 179-181) only format text and are not modelled.
- **Error text.** Errors are the `Core.Error` datatype, not formatted strings.
- **RDFNode implementations and the RDF registry.** Both are outside this model and are oracle parameters.
  - A node's effect on the vocabulary's heap objects is not modelled. The oracle only returns the context fields it leaves behind.
  - The contents of the well-known JSON-LD node list are not modelled.
- **net/url.Parse.** It is a parameter of `Data.EntityRef.SetURI`, which returns the parsed URL or None.
- **Example payload.** The `Example interface{}` payload of VocabularyExample is not modelled.
- **JSON numbers.** They are integers; floating point is left out, and the engine never looks at numbers.
- **Go map iteration order.** It is unspecified. The model fixes one order per object, the member sequence, and the lemmas hold for every such order.
- **Aliasing through `Current` and `Stack`.** Pointers into the vocabulary are `EntityRef` objects, but the traversal does not change them. No lemma relates entities reached through `Current` to those in the vocabulary maps. `ParsedVocabulary.References` holds `Vocabulary` references, where the Go map holds `Vocabulary` values that cannot be updated in place through the map; nothing in the modelled code writes it.
- Context.ParsingContext.Pop: requires a non-empty stack, because Go indexes `Stack[0]` and panics on an empty stack; the panic is not modelled.
- Resolver.Registry: a registry lookup returns either nodes or an error. A Go lookup that returns both is not modelled, and on an error the model keeps none of the nodes that lookup returned.
- Data.Vocabulary.SetType: the entity is passed as a pointer and copied into the map, as in Go. Later changes through that pointer are not reflected in the map. The same holds for SetProperty and SetValue.
- **Handlers that change the overrides.** Each Overrides lemma assumes that the RDFNodes leave the override fields alone while they hold the value that lemma is about. So does the second half of Parse.WholeParse. For the Hijacked lemmas that is only the state in which h has been handed out (OnlyApplied true), so a node that arms the next-level override inside an enter call, and may clear it again on exit, is covered by Overrides.EnterArmsChildren; Overrides.ArmDisarmHijacksChildren shows such a node. A node that changes the override fields while h is handed out (inside a hijacked key), or sets the whole-document override, is covered only by the traversal's functional specification.
- **Handler state.** An RDFNode's answer and the fields it leaves are a function of the node, the call and the context fields alone (`Dispatching.Behaviour`). A node cannot keep its own state between calls, and it cannot read or write entities through `Current`, `Stack` or the vocabulary.
