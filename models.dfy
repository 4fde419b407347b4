/**
 * The already-parsed API description the renderers walk: plain records.
 * A .NET reference that may be null is an Option; lists the renderers
 * enumerate without a null check are plain sequences, because the code would
 * throw on null there. Fields no renderer reads are not modelled.
 */
module Models {
  import opened Wrappers
  import opened Strings

  /** A method, constructor, indexed-property or event parameter. */
  datatype Parameter = Parameter(
    name: string,
    optional: bool,
    rawType: Option<string>,
    description: Option<string>)   // part of the schema, never rendered

  /** A property; `rawType` falls back to `returnType` when null. */
  datatype Property = Property(
    name: string,
    readOnly: bool,
    rawType: Option<string>,
    description: Option<string>,
    returnType: Option<string>,
    hasParameters: Option<bool>,          // a nullable bool
    parameters: Option<seq<Parameter>>)

  datatype Function = Function(
    name: string,
    returnType: Option<string>,
    parameters: seq<Parameter>,
    description: Option<string>,
    example: Option<string>)

  datatype Constructor = Constructor(parameters: seq<Parameter>)

  /** A class; a non-blank `instanceOf` makes it an alias. */
  datatype Class = Class(
    className: string,
    hasConstructor: bool,
    properties: seq<Property>,
    functions: seq<Function>,
    description: Option<string>,
    ctor: Option<Constructor>,
    instanceOf: Option<string>)

  datatype Event = Event(
    name: string,
    parameters: seq<Parameter>,
    description: Option<string>)

  /** The root: two ordered lists. */
  datatype ApiDefinition = ApiDefinition(classes: seq<Class>, events: seq<Event>)

  /** What the renderers need in order not to dereference null:
      a class that says it has a constructor carries one. */
  predicate WellFormed(c: Class) {
    c.hasConstructor ==> c.ctor.Some?
  }

  /** A class is rendered as an alias iff its `instanceOf` is not blank. */
  predicate IsAlias(c: Class) {
    !Blank(c.instanceOf)
  }

  /** Only an explicit `true` in the nullable flag, together with a non-null
      list, turns a property into an indexed accessor. */
  predicate IsIndexed(p: Property) {
    p.hasParameters == Some(true) && p.parameters.Some?
  }

  /** The property's effective raw type: `Type ?? ReturnType`. */
  function EffectiveType(p: Property): (t: Option<string>)
    ensures p.rawType.Some? ==> t == p.rawType
    ensures p.rawType.None? ==> t == p.returnType
  {
    if p.rawType.Some? then p.rawType else p.returnType
  }
}
