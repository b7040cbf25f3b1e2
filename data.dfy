/**
 * The vocabulary model of tools/exp/rdf/data.go: the five entity structs, the
 * capabilities each pointer type exposes, the setters handlers use through
 * those capabilities, and the Vocabulary maps with their unique-name rule.
 *
 * Go's structs are values that are mutated through pointers. Here each struct
 * is a datatype, `Entity` is the union of the five, and `EntityRef` is a
 * pointer to one of them whose methods are the Go pointer-receiver methods.
 */
module Data {
  import opened Wrappers
  import opened Core

  /** The result of net/url.Parse; the core never looks inside it. */
  datatype URL = URL(text: string)

  /** net/url.Parse: the parsed URL, or None when parsing fails. */
  type URIParser = string -> Option<URL>

  datatype VocabularyReference = VocabularyReference(name: string, uri: Option<URL>, vocab: string)

  /** The opaque `Example interface{}` payload is not modelled. */
  datatype VocabularyExample = VocabularyExample(name: string, uri: Option<URL>)

  datatype VocabularyValue = VocabularyValue(name: string, uri: Option<URL>, definitionType: string, zero: string)

  datatype VocabularyType = VocabularyType(
    name: string,
    uri: Option<URL>,
    notes: string,
    disjointWith: seq<VocabularyReference>,
    extendsRefs: seq<VocabularyReference>,
    properties: seq<VocabularyReference>,
    withoutProperties: seq<VocabularyReference>,
    examples: seq<VocabularyExample>)

  datatype VocabularyProperty = VocabularyProperty(
    name: string,
    uri: Option<URL>,
    notes: string,
    domain: seq<VocabularyReference>,
    range: seq<VocabularyReference>,
    examples: seq<VocabularyExample>,
    subpropertyOf: VocabularyReference,
    functional: bool,
    naturalLanguageMap: bool)

  /** A value of one of the five entity structs. */
  datatype Entity =
    | TypeEntity(t: VocabularyType)
    | PropertyEntity(p: VocabularyProperty)
    | ValueEntity(v: VocabularyValue)
    | ExampleEntity(x: VocabularyExample)
    | ReferenceEntity(r: VocabularyReference)

  /** The interfaces NameSetter, nameGetter, URISetter, NotesSetter and ExampleAdder. */
  datatype Capability = NameSetter | NameGetter | URISetter | NotesSetter | ExampleAdder

  /** The capabilities a pointer to the entity implements (the `var _ X = &Y{}` blocks). */
  function Capabilities(e: Entity): (caps: set<Capability>)
    ensures {NameSetter, NameGetter, URISetter} <= caps
    ensures NotesSetter in caps <==> e.TypeEntity? || e.PropertyEntity?
    ensures ExampleAdder in caps <==> NotesSetter in caps
  {
    match e
    case TypeEntity(_) => {NameSetter, NameGetter, URISetter, NotesSetter, ExampleAdder}
    case PropertyEntity(_) => {NameSetter, NameGetter, URISetter, NotesSetter, ExampleAdder}
    case _ => {NameSetter, NameGetter, URISetter}
  }

  /** Whether two entities are values of the same struct. */
  predicate SameKind(a: Entity, b: Entity) {
    && (a.TypeEntity? <==> b.TypeEntity?)
    && (a.PropertyEntity? <==> b.PropertyEntity?)
    && (a.ValueEntity? <==> b.ValueEntity?)
    && (a.ExampleEntity? <==> b.ExampleEntity?)
    && (a.ReferenceEntity? <==> b.ReferenceEntity?)
  }

  // ---- field accessors and the setters' effect on a value ----

  function NameOf(e: Entity): string {
    match e
    case TypeEntity(t) => t.name
    case PropertyEntity(p) => p.name
    case ValueEntity(v) => v.name
    case ExampleEntity(x) => x.name
    case ReferenceEntity(r) => r.name
  }

  function URIOf(e: Entity): Option<URL> {
    match e
    case TypeEntity(t) => t.uri
    case PropertyEntity(p) => p.uri
    case ValueEntity(v) => v.uri
    case ExampleEntity(x) => x.uri
    case ReferenceEntity(r) => r.uri
  }

  function NotesOf(e: Entity): string
    requires NotesSetter in Capabilities(e)
  {
    if e.TypeEntity? then e.t.notes else e.p.notes
  }

  function ExamplesOf(e: Entity): seq<VocabularyExample>
    requires ExampleAdder in Capabilities(e)
  {
    if e.TypeEntity? then e.t.examples else e.p.examples
  }

  /** The fields no setter touches, gathered so that "nothing else changes" can be stated. */
  function Untouched(e: Entity): Entity {
    match e
    case TypeEntity(t) => TypeEntity(t.(name := "", uri := None, notes := "", examples := []))
    case PropertyEntity(p) => PropertyEntity(p.(name := "", uri := None, notes := "", examples := []))
    case ValueEntity(v) => ValueEntity(v.(name := "", uri := None))
    case ExampleEntity(x) => ExampleEntity(x.(name := "", uri := None))
    case ReferenceEntity(r) => ReferenceEntity(r.(name := "", uri := None))
  }

  /** The value after SetName(s) (data.go:98-100, 134-136, 183-185, 221-223, 250-252). */
  function WithName(e: Entity, s: string): (r: Entity)
    ensures NameOf(r) == s
    ensures SameKind(r, e) && URIOf(r) == URIOf(e) && Untouched(r) == Untouched(e)
    ensures NotesSetter in Capabilities(e) ==> NotesOf(r) == NotesOf(e) && ExamplesOf(r) == ExamplesOf(e)
  {
    match e
    case TypeEntity(t) => TypeEntity(t.(name := s))
    case PropertyEntity(p) => PropertyEntity(p.(name := s))
    case ValueEntity(v) => ValueEntity(v.(name := s))
    case ExampleEntity(x) => ExampleEntity(x.(name := s))
    case ReferenceEntity(r) => ReferenceEntity(r.(name := s))
  }

  /** The value after `v.URI = u` inside SetURI. */
  function WithURI(e: Entity, u: Option<URL>): (r: Entity)
    ensures URIOf(r) == u
    ensures SameKind(r, e) && NameOf(r) == NameOf(e) && Untouched(r) == Untouched(e)
    ensures NotesSetter in Capabilities(e) ==> NotesOf(r) == NotesOf(e) && ExamplesOf(r) == ExamplesOf(e)
  {
    match e
    case TypeEntity(t) => TypeEntity(t.(uri := u))
    case PropertyEntity(p) => PropertyEntity(p.(uri := u))
    case ValueEntity(v) => ValueEntity(v.(uri := u))
    case ExampleEntity(x) => ExampleEntity(x.(uri := u))
    case ReferenceEntity(r) => ReferenceEntity(r.(uri := u))
  }

  /** The value after SetNotes(s) (data.go:148-150, 197-199). */
  function WithNotes(e: Entity, s: string): (r: Entity)
    requires NotesSetter in Capabilities(e)
    ensures NotesSetter in Capabilities(r) && NotesOf(r) == s
    ensures SameKind(r, e) && NameOf(r) == NameOf(e) && URIOf(r) == URIOf(e)
    ensures ExamplesOf(r) == ExamplesOf(e) && Untouched(r) == Untouched(e)
  {
    if e.TypeEntity? then TypeEntity(e.t.(notes := s)) else PropertyEntity(e.p.(notes := s))
  }

  /** The value after AddExample(&x) (data.go:152-154, 201-203). */
  function WithExample(e: Entity, x: VocabularyExample): (r: Entity)
    requires ExampleAdder in Capabilities(e)
    ensures ExampleAdder in Capabilities(r)
    ensures |ExamplesOf(r)| == |ExamplesOf(e)| + 1
    ensures ExamplesOf(r)[|ExamplesOf(e)|] == x
    ensures forall i :: 0 <= i < |ExamplesOf(e)| ==> ExamplesOf(r)[i] == ExamplesOf(e)[i]
    ensures SameKind(r, e) && NameOf(r) == NameOf(e) && URIOf(r) == URIOf(e)
    ensures NotesOf(r) == NotesOf(e) && Untouched(r) == Untouched(e)
  {
    if e.TypeEntity? then TypeEntity(e.t.(examples := e.t.examples + [x]))
    else PropertyEntity(e.p.(examples := e.p.examples + [x]))
  }

  /** GetName after SetName gives back what was set; SetName of the current name changes nothing. */
  lemma NameRoundTrip(e: Entity, s: string)
    ensures NameOf(WithName(e, s)) == s
    ensures WithName(e, NameOf(e)) == e
    ensures WithName(WithName(e, s), NameOf(e)) == e
  {
  }

  /**
   * A setter's effect is determined by the field it sets: two entities that agree
   * everywhere but in their names are equal once both are given the same name.
   */
  lemma {:induction false} WithNameDeterminedByRest(a: Entity, b: Entity, s: string)
    requires SameKind(a, b) && URIOf(a) == URIOf(b) && Untouched(a) == Untouched(b)
    requires NotesSetter in Capabilities(a) ==> NotesOf(a) == NotesOf(b) && ExamplesOf(a) == ExamplesOf(b)
    ensures WithName(a, s) == WithName(b, s)
  {
    match a
    case TypeEntity(t) =>
      assert Untouched(a).t == Untouched(b).t;
    case PropertyEntity(p) =>
      assert Untouched(a).p == Untouched(b).p;
    case ValueEntity(v) =>
      assert Untouched(a).v == Untouched(b).v;
    case ExampleEntity(x) =>
    case ReferenceEntity(r) =>
      assert Untouched(a).r == Untouched(b).r;
  }

  /**
   * A pointer to an entity struct (`*VocabularyType`, `*VocabularyProperty`, ...);
   * its methods are the pointer-receiver methods of data.go.
   */
  class EntityRef {
    var val: Entity

    constructor (e: Entity)
      ensures val == e
    {
      val := e;
    }

    /** GetName gives the name SetName last set: setting it again changes nothing. */
    function GetName(): (name: string)
      reads this
      ensures WithName(val, name) == val
    {
      NameOf(val)
    }

    method SetName(s: string)
      modifies this
      ensures val == WithName(old(val), s)
      ensures GetName() == s
    {
      val := WithName(val, s);
    }

    /** `v.URI, e = url.Parse(s); return e`: the URI becomes nil when parsing fails. */
    method SetURI(s: string, parse: URIParser) returns (err: Option<Error>)
      modifies this
      ensures val == WithURI(old(val), parse(s))
      ensures err.Some? <==> parse(s).None?
      ensures err.Some? ==> err.value == MalformedURI(s)
    {
      var u := parse(s);
      val := WithURI(val, u);
      if u.None? {
        err := Some(MalformedURI(s));
      } else {
        err := None;
      }
    }

    method SetNotes(s: string)
      requires NotesSetter in Capabilities(val)
      modifies this
      ensures val == WithNotes(old(val), s)
    {
      val := WithNotes(val, s);
    }

    /** `v.Examples = append(v.Examples, *e)`: the example is copied by value. */
    method AddExample(e: EntityRef)
      requires ExampleAdder in Capabilities(val)
      requires e.val.ExampleEntity?
      modifies this
      ensures val == WithExample(old(val), old(e.val.x))
    {
      val := WithExample(val, e.val.x);
    }
  }

  /** A nil Go map reads as empty. */
  function Contents<V>(m: Option<map<string, V>>): map<string, V> {
    if m.None? then map[] else m.value
  }

  /** The unique-name insertion shared by SetType, SetProperty and SetValue. */
  function Insert<V>(m: map<string, V>, name: string, v: V): (r: Option<map<string, V>>)
    ensures r.None? <==> name in m
    ensures r.Some? ==> r.value.Keys == m.Keys + {name} && r.value[name] == v
    ensures r.Some? ==> forall k :: k in m ==> r.value[k] == m[k]
  {
    if name in m then None else Some(m[name := v])
  }

  /** Inserting the same name twice fails, whichever entity comes first. */
  lemma DuplicateAlwaysRejected<V>(m: map<string, V>, name: string, a: V, b: V)
    requires name !in m
    ensures Insert(m, name, a).Some? && Insert(Insert(m, name, a).value, name, b).None?
    ensures Insert(m, name, b).Some? && Insert(Insert(m, name, b).value, name, a).None?
  {
  }

  /** Insertions of distinct names give the same map in either order. */
  lemma InsertOrderIrrelevant<V>(m: map<string, V>, n1: string, a: V, n2: string, b: V)
    requires n1 != n2 && n1 !in m && n2 !in m
    ensures Insert(m, n1, a).Some? && Insert(Insert(m, n1, a).value, n2, b).Some?
    ensures Insert(m, n2, b).Some? && Insert(Insert(m, n2, b).value, n1, a).Some?
    ensures Insert(Insert(m, n1, a).value, n2, b).value == Insert(Insert(m, n2, b).value, n1, a).value
  {
  }

  /** Vocabulary (data.go:33-37); a nil map field is None until the first insertion. */
  class Vocabulary {
    var Types: Option<map<string, VocabularyType>>
    var Properties: Option<map<string, VocabularyProperty>>
    var Values: Option<map<string, VocabularyValue>>

    constructor ()
      ensures Types.None? && Properties.None? && Values.None?
    {
      Types, Properties, Values := None, None, None;
    }

    method SetType(name: string, a: EntityRef) returns (err: Option<Error>)
      requires a.val.TypeEntity?
      modifies this
      ensures Types.Some?
      ensures Insert(Contents(old(Types)), name, a.val.t).None? ==>
        err == Some(DuplicateName(TypesMap, name)) && Types.value == Contents(old(Types))
      ensures Insert(Contents(old(Types)), name, a.val.t).Some? ==>
        err.None? && Types.value == Insert(Contents(old(Types)), name, a.val.t).value
      ensures Properties == old(Properties) && Values == old(Values)
    {
      if Types.None? {
        Types := Some(map[]);
      }
      if name in Types.value {
        return Some(DuplicateName(TypesMap, name));
      }
      Types := Some(Types.value[name := a.val.t]);
      return None;
    }

    method SetProperty(name: string, a: EntityRef) returns (err: Option<Error>)
      requires a.val.PropertyEntity?
      modifies this
      ensures Properties.Some?
      ensures Insert(Contents(old(Properties)), name, a.val.p).None? ==>
        err == Some(DuplicateName(PropertiesMap, name)) && Properties.value == Contents(old(Properties))
      ensures Insert(Contents(old(Properties)), name, a.val.p).Some? ==>
        err.None? && Properties.value == Insert(Contents(old(Properties)), name, a.val.p).value
      ensures Types == old(Types) && Values == old(Values)
    {
      if Properties.None? {
        Properties := Some(map[]);
      }
      if name in Properties.value {
        return Some(DuplicateName(PropertiesMap, name));
      }
      Properties := Some(Properties.value[name := a.val.p]);
      return None;
    }

    method SetValue(name: string, a: EntityRef) returns (err: Option<Error>)
      requires a.val.ValueEntity?
      modifies this
      ensures Values.Some?
      ensures Insert(Contents(old(Values)), name, a.val.v).None? ==>
        err == Some(DuplicateName(ValuesMap, name)) && Values.value == Contents(old(Values))
      ensures Insert(Contents(old(Values)), name, a.val.v).Some? ==>
        err.None? && Values.value == Insert(Contents(old(Values)), name, a.val.v).value
      ensures Types == old(Types) && Properties == old(Properties)
    {
      if Values.None? {
        Values := Some(map[]);
      }
      if name in Values.value {
        return Some(DuplicateName(ValuesMap, name));
      }
      Values := Some(Values.value[name := a.val.v]);
      return None;
    }

    /** Two SetType calls with the same name: the second always fails and leaves Types as the first left it. */
    method SetTypeTwice(name: string, a: EntityRef, b: EntityRef) returns (first: Option<Error>, second: Option<Error>)
      requires a.val.TypeEntity? && b.val.TypeEntity?
      modifies this
      ensures second == Some(DuplicateName(TypesMap, name))
      ensures first.None? ==> Types == Some(Contents(old(Types))[name := a.val.t])
    {
      first := SetType(name, a);
      second := SetType(name, b);
    }
  }

  /** ParsedVocabulary (data.go:17-20). Nothing in the core writes References. */
  class ParsedVocabulary {
    var Vocab: Vocabulary
    var References: map<string, Vocabulary>

    constructor ()
      ensures fresh(Vocab) && Vocab.Types.None? && Vocab.Properties.None? && Vocab.Values.None?
      ensures References == map[]
    {
      Vocab := new Vocabulary();
      References := map[];
    }
  }
}
