/**
 * What the generator promises about the route table of a set of options:
 * one route per requested action in request order, the defaults, the shape
 * of paths and ids, and the error cases.
 */
module RouteLaws {
  import opened Wrappers
  import opened Strings
  import opened Conventions
  import opened Schema
  import opened Routes

  /** The key of the `i`-th requested action: the `methods` entry, or the table key by default. */
  function RequestedKey<H>(o: Options<H>, i: nat): string
    requires WellFormed(o) && i < |WithDefaults(o).methods|
  {
    Name(WithDefaults(o).methods[i])
  }

  /** The namespace prefix of an id: `namespace.` when a namespace is set, nothing otherwise. */
  function NamespaceDot<H>(o: Options<H>): string {
    match o.namespace
    case None => ""
    case Some(ns) => ns + "."
  }

  /** The leading path segment: `/namespace` when a namespace is set, nothing otherwise. */
  function NamespaceSegment<H>(o: Options<H>): string {
    match o.namespace
    case None => ""
    case Some(ns) => "/" + ns
  }

  /** The plural name in effect: the given one, or the name with `s` appended. */
  function PluralOf<H>(o: Options<H>): string
    requires o.name.Some?
  {
    match o.namePlural
    case None => o.name.value + "s"
    case Some(p) => p
  }

  /** The text that replaces the placeholder: the given variable, or nothing. */
  function VariableOf<H>(o: Options<H>): string {
    match o.variable
    case None => ""
    case Some(v) => v
  }

  /** A successful table is the expansion of the defaulted options. */
  lemma SuccessIsExpansion<H>(o: Options<H>)
    requires Build(o).Success?
    ensures WellFormed(o)
    ensures |Build(o).value| == |WithDefaults(o).methods|
    ensures forall i :: 0 <= i < |Build(o).value| ==>
      IsRouteOf(WithDefaults(o), WithDefaults(o).methods[i], Build(o).value[i])
  {
    assert WellFormed(o);
    var cfg := WithDefaults(o);
    assert Build(o) == Expand(cfg, cfg.methods);
  }

  /**
   * On success there is one route per requested key, in request order; route
   * `i` carries the table's HTTP method for key `i`, the controller's handler
   * for it unchanged, and an id ending in `.` and the key.
   */
  lemma RoutesFollowMethods<H>(o: Options<H>, keys: seq<string>)
    requires o.methods == Some(keys)
    requires Build(o).Success?
    ensures o.controller.Some?
    ensures |Build(o).value| == |keys|
    ensures forall i :: 0 <= i < |keys| ==>
      && EndsWith(Build(o).value[i].id, "." + keys[i])
      && Lookup(keys[i]).Some?
      && Build(o).value[i].httpMethod == Lookup(keys[i]).value.httpMethod
      && keys[i] in o.controller.value
      && Build(o).value[i].handler == o.controller.value[keys[i]]
  {
    SuccessIsExpansion(o);
    var cfg := WithDefaults(o);
    var routes := Build(o).value;
    forall i | 0 <= i < |keys|
      ensures EndsWith(routes[i].id, "." + keys[i])
      ensures Lookup(keys[i]) == Some(Table(cfg.methods[i]))
    {
      IdsDistinguishActions(cfg, cfg.methods[i], cfg.methods[i]);
    }
  }

  /** Without `methods`, the table covers all seven actions in table order. */
  lemma DefaultMethodsCoverTable<H>(o: Options<H>)
    requires o.methods.None?
    requires Build(o).Success?
    ensures |Build(o).value| == 7
    ensures forall i :: 0 <= i < 7 ==>
      && EndsWith(Build(o).value[i].id, "." + Name(AllActions()[i]))
      && Build(o).value[i].httpMethod == Table(AllActions()[i]).httpMethod
  {
    SuccessIsExpansion(o);
    var cfg := WithDefaults(o);
    forall i | 0 <= i < 7
      ensures EndsWith(Build(o).value[i].id, "." + Name(AllActions()[i]))
    {
      IdsDistinguishActions(cfg, AllActions()[i], AllActions()[i]);
    }
  }

  /** Without `methods`, the requested actions are the seven of the conventions table, in table order. */
  lemma DefaultMethodsInOrder<H>(o: Options<H>)
    requires WellFormed(o) && o.methods.None?
    ensures |WithDefaults(o).methods| == 7
    ensures WithDefaults(o).methods[0] == Index && WithDefaults(o).methods[1] == Show
    ensures WithDefaults(o).methods[2] == Create && WithDefaults(o).methods[3] == Store
    ensures WithDefaults(o).methods[4] == Edit && WithDefaults(o).methods[5] == Update
    ensures WithDefaults(o).methods[6] == Destroy
  {
  }

  /** Without `methods`, the table is built exactly when the controller handles all seven actions. */
  lemma DefaultMethodsNeedEveryHandler<H>(o: Options<H>)
    requires WellFormed(o) && o.methods.None?
    ensures Build(o).Success? <==> forall a: Action :: Name(a) in o.controller.value
  {
    var cfg := WithDefaults(o);
    if Build(o).Success? {
      forall a: Action
        ensures Name(a) in o.controller.value
      {
        AllActionsEnumerates(a);
        var i :| 0 <= i < 7 && AllActions()[i] == a;
        assert HasHandler(cfg, cfg.methods[i]);
      }
    }
  }

  /** An empty `methods` list yields an empty table, whatever the controller holds. */
  lemma EmptyMethodsEmptyTable<H>(o: Options<H>)
    requires WellFormed(o) && o.methods == Some([])
    ensures Build(o) == Success([])
  {
    var cfg := WithDefaults(o);
    assert Build(o) == Expand(cfg, cfg.methods);
  }

  /**
   * Every id is the optional `namespace.` prefix, the plural name in effect
   * (by default the name with `s` appended), a dot, and the requested key.
   */
  lemma IdShape<H>(o: Options<H>, i: nat)
    requires Build(o).Success? && i < |Build(o).value|
    ensures WellFormed(o) && i < |WithDefaults(o).methods|
    ensures Build(o).value[i].id == NamespaceDot(o) + PluralOf(o) + "." + RequestedKey(o, i)
  {
    SuccessIsExpansion(o);
  }

  /**
   * When neither the namespace nor the plural name in effect holds the
   * placeholder, every path is the optional `/namespace` segment, `/` and the
   * plural name, then the action's suffix with the variable (or nothing) in
   * place of the placeholder.
   */
  lemma PathFromOptions<H>(o: Options<H>, i: nat)
    requires Build(o).Success? && i < |Build(o).value|
    requires !Contains(WithDefaults(o).namespace, Placeholder)
    requires !Contains(WithDefaults(o).namePlural, Placeholder)
    ensures WellFormed(o) && i < |WithDefaults(o).methods|
    ensures Build(o).value[i].path ==
      NamespaceSegment(o) + "/" + PluralOf(o) + ExpectedSuffix(WithDefaults(o).methods[i], VariableOf(o))
  {
    SuccessIsExpansion(o);
    var cfg := WithDefaults(o);
    PathShape(cfg, cfg.methods[i]);
    assert Declaration(cfg) == VariableOf(o);
    assert BasePath(cfg.namespace, cfg.namePlural) == NamespaceSegment(o) + "/" + PluralOf(o);
  }

  /** Without `namePlural`, the name with `s` appended is the plural in every id. */
  lemma DefaultPluralInIds<H>(o: Options<H>, i: nat)
    requires o.namePlural.None?
    requires Build(o).Success? && i < |Build(o).value|
    ensures WellFormed(o) && i < |WithDefaults(o).methods|
    ensures Build(o).value[i].id == NamespaceDot(o) + (o.name.value + "s") + "." + RequestedKey(o, i)
  {
    SuccessIsExpansion(o);
    assert PluralOf(o) == WithDefaults(o).namePlural == o.name.value + "s";
    IdShape(o, i);
  }

  /** Without `namePlural`, the name with `s` appended is the plural in every path and every id. */
  lemma DefaultPluralEverywhere<H>(o: Options<H>, i: nat)
    requires o.namePlural.None?
    requires Build(o).Success? && i < |Build(o).value|
    requires !Contains(WithDefaults(o).namespace, Placeholder)
    requires !Contains(o.name.value + "s", Placeholder)
    ensures WellFormed(o) && i < |WithDefaults(o).methods|
    ensures Build(o).value[i].id == NamespaceDot(o) + (o.name.value + "s") + "." + RequestedKey(o, i)
    ensures Build(o).value[i].path ==
      NamespaceSegment(o) + "/" + (o.name.value + "s") + ExpectedSuffix(WithDefaults(o).methods[i], VariableOf(o))
  {
    DefaultPluralInIds(o, i);
    assert PluralOf(o) == o.name.value + "s";
    PathFromOptions(o, i);
  }

  /**
   * The first requested action without a handler fails the whole call with
   * that action, and no routes are returned.
   */
  lemma MissingHandlerFails<H>(o: Options<H>, k: nat)
    requires WellFormed(o)
    requires k < |WithDefaults(o).methods|
    requires RequestedKey(o, k) !in o.controller.value
    requires forall j :: 0 <= j < k ==> RequestedKey(o, j) in o.controller.value
    ensures Build(o) == Failure(MissingHandler(WithDefaults(o).methods[k]))
  {
    var cfg := WithDefaults(o);
    forall j | 0 <= j < k
      ensures HasHandler(cfg, cfg.methods[..k][j])
    {
      assert cfg.methods[..k][j] == cfg.methods[j];
      assert RequestedKey(o, j) in o.controller.value;
    }
    assert FirstMissing(cfg, cfg.methods, k);
    ExpandFailsAt(cfg, cfg.methods, k);
  }

  /** A `methods` entry that names no action is rejected by the schema before any route is built. */
  lemma UnknownMethodRejected<H>(o: Options<H>, keys: seq<string>, i: nat)
    requires o.methods == Some(keys) && i < |keys|
    requires forall a: Action :: Name(a) != keys[i]
    ensures Build(o).Failure? && Build(o).error.ConfigurationError?
    ensures (forall f: Field :: f != MethodsKey ==> FieldOk(o, f)) ==> Build(o) == Failure(ConfigurationError(MethodsKey))
  {
    assert !IsActionName(keys[i]);
    assert !FieldOk(o, MethodsKey);
    if forall f: Field :: f != MethodsKey ==> FieldOk(o, f) {
      assert FieldOk(o, NameKey) && FieldOk(o, NamePluralKey) && FieldOk(o, ControllerKey);
      assert FieldOk(o, VariableKey) && FieldOk(o, NamespaceKey);
    }
  }

  /** Options without a name, or without a controller, are rejected before any route is built. */
  lemma RequiredKeysRejected<H>(o: Options<H>)
    requires o.name.None? || o.controller.None?
    ensures Build(o).Failure? && Build(o).error.ConfigurationError?
    ensures o.name.None? ==> Build(o) == Failure(ConfigurationError(NameKey))
    ensures FieldOk(o, NameKey) && FieldOk(o, NamePluralKey) && o.controller.None? ==>
      Build(o) == Failure(ConfigurationError(ControllerKey))
  {
    assert !WellFormed(o);
  }
}
