/**
 * What the rdf package's files share: the identity of an RDFNode (a handler),
 * the three calls an RDFNode answers, the record of one first-match dispatch,
 * and the package's failures as tagged values.
 */
module Core {
  import opened Wrappers
  import opened Json

  /** An RDFNode, known to the engine only by its identity. */
  datatype Handler = Handler(id: nat)

  /** One call on an RDFNode: Enter(key), Exit(key) or Apply(key, value). */
  datatype Call =
    | Enter(key: string)
    | Exit(key: string)
    | ApplyTo(key: string, value: Json)

  /** One handler's answer during a dispatch: its "applied" flag and its error. */
  datatype Try = Try(handler: Handler, handled: bool, err: Option<Error>)

  /**
   * One run of enterFirstNode, exitFirstNode or applyFirstNode (or the single
   * call of the whole-document override): the nesting depth of the object
   * being walked, the call, and the handlers tried in order.
   */
  datatype Dispatch = Dispatch(depth: nat, call: Call, tries: seq<Try>)

  /** Which Vocabulary map an insertion targets. */
  datatype Collection = TypesMap | PropertiesMap | ValuesMap

  /** Where in `@context` a value of the wrong shape was found. */
  datatype ContextSite = InArrayDict | InArray | InDict | SingleValue

  datatype Error =
    | MissingContext                          // "no @context in input"
    | MalformedContext(site: ContextSite)     // "@context value ... is neither a dict nor a string", "single @context value is not a string"
    | Unrecognized(call: Call)                // "no RDFNode applicable for ..."
    | OverrideNotApplied                      // "applying requested node failed"
    | DuplicateName(collection: Collection, name: string)
    | MalformedURI(text: string)              // the error returned by url.Parse
    | RegistryFailure(name: string)           // an error returned by the registry
    | HandlerFailure(code: nat)               // an RDFNode's own error, opaque to the engine
}
