/**
 * The options a caller passes, the rules the options schema imposes on them,
 * and the defaults filled in once they pass.
 */
module Schema {
  import opened Wrappers
  import opened Conventions

  /**
   * The options object as a caller builds it; `None` is a key left out.
   * The controller maps action keys to opaque handlers of type `H`.
   */
  datatype Options<H> = Options(
    name: Option<string>,
    namePlural: Option<string>,
    controller: Option<map<string, H>>,
    variable: Option<string>,
    namespace: Option<string>,
    methods: Option<seq<string>>)

  /** The keys of the options schema, in their declaration order. */
  datatype Field = NameKey | NamePluralKey | ControllerKey | VariableKey | NamespaceKey | MethodsKey

  /** Position of a key in the schema's declaration order. */
  function Rank(f: Field): nat {
    match f
    case NameKey => 0
    case NamePluralKey => 1
    case ControllerKey => 2
    case VariableKey => 3
    case NamespaceKey => 4
    case MethodsKey => 5
  }

  /** A string schema accepts an absent key or a non-empty string. */
  predicate OptionalString(v: Option<string>) {
    v.None? || v.value != ""
  }

  /** Whether a string option counts as set under JavaScript truthiness. */
  predicate Truthy(v: Option<string>) {
    v.Some? && v.value != ""
  }

  /** The `methods` entry is the key of an action in the conventions table. */
  predicate IsActionName(s: string) {
    Parse(s).Some?
  }

  /** The schema's rule for one key. */
  predicate FieldOk<H>(o: Options<H>, f: Field) {
    match f
    case NameKey => o.name.Some? && o.name.value != ""
    case NamePluralKey => OptionalString(o.namePlural)
    case ControllerKey => o.controller.Some?
    case VariableKey => OptionalString(o.variable)
    case NamespaceKey => OptionalString(o.namespace)
    case MethodsKey =>
      o.methods.None? || forall i :: 0 <= i < |o.methods.value| ==> IsActionName(o.methods.value[i])
  }

  /** The options pass the schema. */
  predicate WellFormed<H>(o: Options<H>) {
    && FieldOk(o, NameKey)
    && FieldOk(o, NamePluralKey)
    && FieldOk(o, ControllerKey)
    && FieldOk(o, VariableKey)
    && FieldOk(o, NamespaceKey)
    && FieldOk(o, MethodsKey)
  }

  /** The first key, in declaration order, whose rule the options break. */
  function SchemaViolation<H>(o: Options<H>): (r: Option<Field>)
    ensures r.None? <==> WellFormed(o)
    ensures r.None? ==> forall f: Field :: FieldOk(o, f)
    ensures r.Some? ==> !FieldOk(o, r.value)
    ensures r.Some? ==> forall f: Field :: Rank(f) < Rank(r.value) ==> FieldOk(o, f)
  {
    if !FieldOk(o, NameKey) then Some(NameKey)
    else if !FieldOk(o, NamePluralKey) then Some(NamePluralKey)
    else if !FieldOk(o, ControllerKey) then Some(ControllerKey)
    else if !FieldOk(o, VariableKey) then Some(VariableKey)
    else if !FieldOk(o, NamespaceKey) then Some(NamespaceKey)
    else if !FieldOk(o, MethodsKey) then Some(MethodsKey)
    else None
  }

  /** The options with every default filled in; what the expansion works from. */
  datatype Config<H> = Config(
    namePlural: string,
    namespace: string,
    variable: Option<string>,
    controller: map<string, H>,
    methods: seq<Action>)

  /** The actions a list of valid keys names, in the same order. */
  function ParseAll(keys: seq<string>): (r: seq<Action>)
    requires forall i :: 0 <= i < |keys| ==> IsActionName(keys[i])
    ensures |r| == |keys|
    ensures forall i :: 0 <= i < |keys| ==> Name(r[i]) == keys[i]
  {
    if keys == [] then []
    else
      assert IsActionName(keys[0]);
      [Parse(keys[0]).value] + ParseAll(keys[1..])
  }

  /**
   * Fills in the defaults of valid options: every action in table order when
   * `methods` is absent, no namespace when `namespace` is absent, and the
   * name with an `s` appended when `namePlural` is absent.
   */
  function WithDefaults<H>(o: Options<H>): (c: Config<H>)
    requires WellFormed(o)
    ensures o.methods.None? ==> c.methods == AllActions()
    ensures o.methods.Some? ==> |c.methods| == |o.methods.value|
    ensures o.methods.Some? ==> forall i :: 0 <= i < |c.methods| ==> Name(c.methods[i]) == o.methods.value[i]
    ensures c.namespace == (match o.namespace case None => "" case Some(ns) => ns)
    ensures c.namePlural == (match o.namePlural case None => o.name.value + "s" case Some(p) => p)
    ensures c.namePlural != ""
    ensures c.variable == o.variable
    ensures c.controller == o.controller.value
  {
    Config(
      if Truthy(o.namePlural) then o.namePlural.value else o.name.value + "s",
      if Truthy(o.namespace) then o.namespace.value else "",
      o.variable,
      o.controller.value,
      if o.methods.None? then AllActions() else ParseAll(o.methods.value))
  }
}
