/**
 * Expansion of a resource configuration into its ordered table of REST route
 * descriptors.
 */
module Routes {
  import opened Wrappers
  import opened Strings
  import opened Conventions
  import opened Schema

  /** Why no routes were produced. */
  datatype Error =
    | ConfigurationError(field: Field)   // the options schema rejected this key
    | MissingHandler(action: Action)     // the controller has no handler for this action

  /** One route descriptor as handed to the router; `id` is the route's config id. */
  datatype Route<H> = Route(path: string, httpMethod: string, handler: H, id: string)

  /** The collection path: an optional `/namespace` segment, then `/namePlural`. */
  function BasePath(namespace: string, plural: string): string {
    (if namespace != "" then "/" + namespace else "") + "/" + plural
  }

  /** The text that replaces the placeholder: the variable when set, otherwise nothing. */
  function Declaration<H>(cfg: Config<H>): string {
    if Truthy(cfg.variable) then cfg.variable.value else ""
  }

  /**
   * The path of an action: base path and suffix concatenated, then the first
   * occurrence of the placeholder anywhere in that string replaced.
   */
  function PathFor<H>(cfg: Config<H>, a: Action): string {
    ReplaceFirst(BasePath(cfg.namespace, cfg.namePlural) + Suffix(a), Placeholder, Declaration(cfg))
  }

  /** What every id of the resource starts with: `namespace.` when namespaced, then `namePlural.`. */
  function IdPrefix<H>(cfg: Config<H>): string {
    (if cfg.namespace != "" then cfg.namespace + "." else "") + cfg.namePlural + "."
  }

  /** The dotted route id of an action. */
  function IdFor<H>(cfg: Config<H>, a: Action): string {
    IdPrefix(cfg) + Name(a)
  }

  /** The controller has a handler under the action's key. */
  predicate HasHandler<H>(cfg: Config<H>, a: Action) {
    Name(a) in cfg.controller
  }

  /** Every action in `ms` has a handler. */
  predicate AllHandled<H>(cfg: Config<H>, ms: seq<Action>) {
    forall i :: 0 <= i < |ms| ==> HasHandler(cfg, ms[i])
  }

  /** `ms[k]` is the first action in `ms` without a handler. */
  predicate FirstMissing<H>(cfg: Config<H>, ms: seq<Action>, k: int) {
    0 <= k < |ms| && !HasHandler(cfg, ms[k]) && AllHandled(cfg, ms[..k])
  }

  /** The route of one action whose handler exists. */
  function RouteFor<H>(cfg: Config<H>, a: Action): Route<H>
    requires HasHandler(cfg, a)
  {
    Route(PathFor(cfg, a), Table(a).httpMethod, cfg.controller[Name(a)], IdFor(cfg, a))
  }

  /** `r` is the route the action `a` expands to. */
  ghost predicate IsRouteOf<H>(cfg: Config<H>, a: Action, r: Route<H>) {
    HasHandler(cfg, a) && r == RouteFor(cfg, a)
  }

  /**
   * Expands the actions `ms` in order, failing on the first one that has no
   * handler; a failure carries no routes at all.
   */
  function Expand<H>(cfg: Config<H>, ms: seq<Action>): (r: Result<seq<Route<H>>, Error>)
    ensures r.Success? <==> AllHandled(cfg, ms)
    ensures r.Success? ==> |r.value| == |ms|
    ensures r.Success? ==> forall i :: 0 <= i < |ms| ==> IsRouteOf(cfg, ms[i], r.value[i])
    ensures r.Failure? ==> exists k :: FirstMissing(cfg, ms, k) && r.error == MissingHandler(ms[k])
  {
    if ms == [] then Success([])
    else if !HasHandler(cfg, ms[0]) then
      assert FirstMissing(cfg, ms, 0);
      Failure(MissingHandler(ms[0]))
    else
      match Expand(cfg, ms[1..])
      case Failure(e) =>
        var k :| FirstMissing(cfg, ms[1..], k) && e == MissingHandler(ms[1..][k]);
        MissingShifts(cfg, ms, k);
        Failure(e)
      case Success(rest) =>
        RoutesCons(cfg, ms, rest);
        Success([RouteFor(cfg, ms[0])] + rest)
  }

  /** Behind a handled first action, the first missing handler of the rest is one position further. */
  lemma MissingShifts<H>(cfg: Config<H>, ms: seq<Action>, k: int)
    requires |ms| > 0 && HasHandler(cfg, ms[0]) && FirstMissing(cfg, ms[1..], k)
    ensures FirstMissing(cfg, ms, k + 1) && ms[k + 1] == ms[1..][k]
  {
    assert ms[..k + 1] == [ms[0]] + ms[1..][..k];
  }

  /** The route of a handled first action, put before the routes of the rest, gives the routes of all. */
  lemma RoutesCons<H>(cfg: Config<H>, ms: seq<Action>, rest: seq<Route<H>>)
    requires |ms| > 0 && HasHandler(cfg, ms[0]) && |rest| == |ms| - 1
    requires forall i :: 0 <= i < |ms| - 1 ==> IsRouteOf(cfg, ms[1..][i], rest[i])
    ensures forall i :: 0 <= i < |ms| ==> IsRouteOf(cfg, ms[i], ([RouteFor(cfg, ms[0])] + rest)[i])
  {
    var all := [RouteFor(cfg, ms[0])] + rest;
    forall i | 0 <= i < |ms|
      ensures IsRouteOf(cfg, ms[i], all[i])
    {
      if i > 0 {
        assert ms[i] == ms[1..][i - 1] && all[i] == rest[i - 1];
      }
    }
  }

  /** A base path built from placeholder-free parts holds no placeholder. */
  lemma BasePathClear(namespace: string, plural: string)
    requires !Contains(namespace, Placeholder) && !Contains(plural, Placeholder)
    ensures !Contains(BasePath(namespace, plural), Placeholder)
  {
    assert '/' !in Placeholder;
    assert !OccursAt([], Placeholder, 0);
    assert !Contains([], Placeholder);
    var head := if namespace != "" then "/" + namespace else "";
    if namespace != "" {
      assert head == [] + ['/'] + namespace;
      FirstOccurrenceAfterForeign([], '/', namespace, Placeholder);
    }
    assert BasePath(namespace, plural) == head + ['/'] + plural;
    FirstOccurrenceAfterForeign(head, '/', plural, Placeholder);
  }

  /**
   * When neither the namespace nor the plural name holds the placeholder,
   * a path is the base path followed by the action's suffix with the
   * variable (or nothing) in place of the placeholder.
   */
  lemma PathShape<H>(cfg: Config<H>, a: Action)
    requires !Contains(cfg.namespace, Placeholder) && !Contains(cfg.namePlural, Placeholder)
    ensures PathFor(cfg, a) == BasePath(cfg.namespace, cfg.namePlural) + ExpectedSuffix(a, Declaration(cfg))
  {
    BasePathClear(cfg.namespace, cfg.namePlural);
    SuffixStartsSegment(a);
    ReplaceFirstKeepsClearPrefix(BasePath(cfg.namespace, cfg.namePlural), Suffix(a), Placeholder, Declaration(cfg));
    SubstitutedSuffix(a, Declaration(cfg));
  }

  /** The variable fragment sits right after `{id}` in the paths of the member actions. */
  lemma VariableFollowsId<H>(cfg: Config<H>, a: Action)
    requires !Contains(cfg.namespace, Placeholder) && !Contains(cfg.namePlural, Placeholder)
    requires AddressesMember(a)
    ensures PathFor(cfg, a) == BasePath(cfg.namespace, cfg.namePlural) + "/{id}" + Declaration(cfg) + (if a == Edit then "/edit" else "")
  {
    PathShape(cfg, a);
    var base, v := BasePath(cfg.namespace, cfg.namePlural), Declaration(cfg);
    var tail := if a == Edit then "/edit" else "";
    if a == Edit {
      assert ExpectedSuffix(a, v) == "/{id}" + v + tail;
    } else {
      assert ExpectedSuffix(a, v) == "/{id}" + v;
      assert "/{id}" + v + tail == "/{id}" + v;
    }
    Regroup(base, "/{id}", v, tail);
  }

  /** The paths of index, create and store do not depend on the variable fragment. */
  lemma CollectionPathsIgnoreVariable<H>(cfg: Config<H>, a: Action, other: Option<string>)
    requires !Contains(cfg.namespace, Placeholder) && !Contains(cfg.namePlural, Placeholder)
    requires !AddressesMember(a)
    ensures PathFor(cfg, a) == PathFor(cfg.(variable := other), a)
    ensures PathFor(cfg, a) == BasePath(cfg.namespace, cfg.namePlural) + (if a == Create then "/create" else "")
  {
    PathShape(cfg, a);
    PathShape(cfg.(variable := other), a);
  }

  /**
   * The placeholder is looked for in the whole path, so one inside the plural
   * name takes the substitution and the suffix keeps its own.
   */
  lemma PlaceholderInPluralTakesSubstitution<H>(cfg: Config<H>, v: string)
    requires cfg.namePlural == Placeholder && cfg.namespace == "" && cfg.variable == Some(v)
    ensures PathFor(cfg, Show) == "/" + v + "/{id}" + Placeholder
  {
    var plural, t := cfg.namePlural, Suffix(Show);
    assert Declaration(cfg) == v;
    assert t == "/{id}" + Placeholder;
    assert BasePath(cfg.namespace, plural) + t == [] + ['/'] + (plural + t);
    assert '/' !in Placeholder && !OccursAt([], Placeholder, 0);
    ReplaceFirstAfterForeign([], '/', plural + t, Placeholder, v);
    ReplaceFirstAtStart(plural, t, v);
    Regroup("/", v, "/{id}", Placeholder);
  }

  /** Distinct actions of one resource get distinct ids; the id names its action. */
  lemma IdsDistinguishActions<H>(cfg: Config<H>, a: Action, b: Action)
    ensures IdFor(cfg, a) == IdFor(cfg, b) <==> a == b
    ensures EndsWith(IdFor(cfg, a), "." + Name(a))
  {
    var p := IdPrefix(cfg);
    if IdFor(cfg, a) == IdFor(cfg, b) {
      assert Name(a) == IdFor(cfg, a)[|p|..];
      assert Name(b) == IdFor(cfg, b)[|p|..];
      NameRoundTrip(a, Name(b));
    }
    var id := IdFor(cfg, a);
    assert p[|p| - 1] == '.';
    assert id[|id| - |Name(a)| - 1..] == "." + Name(a);
  }

  /** At most one position is the first one without a handler. */
  lemma FirstMissingUnique<H>(cfg: Config<H>, ms: seq<Action>, k: int, k': int)
    requires FirstMissing(cfg, ms, k) && FirstMissing(cfg, ms, k')
    ensures k == k'
  {
  }

  /** The expansion fails exactly with the first action that lacks a handler. */
  lemma ExpandFailsAt<H>(cfg: Config<H>, ms: seq<Action>, k: int)
    requires FirstMissing(cfg, ms, k)
    ensures Expand(cfg, ms) == Failure(MissingHandler(ms[k]))
  {
    var r := Expand(cfg, ms);
    assert !AllHandled(cfg, ms);
    var k' :| FirstMissing(cfg, ms, k') && r.error == MissingHandler(ms[k']);
    FirstMissingUnique(cfg, ms, k, k');
  }

  /** A sequence holding, in order, the route of each action is the expansion. */
  lemma ExpandSucceedsWith<H>(cfg: Config<H>, ms: seq<Action>, routes: seq<Route<H>>)
    requires |routes| == |ms|
    requires forall i :: 0 <= i < |ms| ==> IsRouteOf(cfg, ms[i], routes[i])
    ensures Expand(cfg, ms) == Success(routes)
  {
    var r := Expand(cfg, ms);
    assert AllHandled(cfg, ms);
    assert r.value == routes;
  }

  /** One more handled action adds its route at the end of the expansion. */
  lemma ExpandExtends<H>(cfg: Config<H>, ms: seq<Action>, a: Action, routes: seq<Route<H>>)
    requires Expand(cfg, ms) == Success(routes) && HasHandler(cfg, a)
    ensures Expand(cfg, ms + [a]) == Success(routes + [RouteFor(cfg, a)])
  {
    var ms', routes' := ms + [a], routes + [RouteFor(cfg, a)];
    assert forall i :: 0 <= i < |ms'| ==> IsRouteOf(cfg, ms'[i], routes'[i]) by {
      forall i | 0 <= i < |ms'|
        ensures IsRouteOf(cfg, ms'[i], routes'[i])
      {
        if i < |ms| {
          assert ms'[i] == ms[i] && routes'[i] == routes[i];
        }
      }
    }
    ExpandSucceedsWith(cfg, ms', routes');
  }

  /**
   * Generates the route table of a set of options: the schema is checked
   * first, then the defaults are filled in and the requested actions are
   * expanded in order.
   */
  function Build<H>(o: Options<H>): (r: Result<seq<Route<H>>, Error>)
    ensures r.Failure? && r.error.ConfigurationError? <==> !WellFormed(o)
    ensures r.Failure? && r.error.ConfigurationError? ==> !FieldOk(o, r.error.field)
    ensures WellFormed(o) ==> (r.Success? <==> AllHandled(WithDefaults(o), WithDefaults(o).methods))
  {
    match SchemaViolation(o)
    case Some(f) => Failure(ConfigurationError(f))
    case None =>
      var cfg := WithDefaults(o);
      Expand(cfg, cfg.methods)
  }

  /**
   * The loop of the generator: one pass over the requested actions in order,
   * appending each action's route and stopping at the first missing handler.
   */
  method ExpandInOrder<H>(cfg: Config<H>, ms: seq<Action>) returns (r: Result<seq<Route<H>>, Error>)
    ensures r == Expand(cfg, ms)
  {
    var routes: seq<Route<H>> := [];
    var i := 0;
    while i < |ms|
      invariant 0 <= i <= |ms|
      invariant Expand(cfg, ms[..i]) == Success(routes)
    {
      var a := ms[i];
      if Name(a) !in cfg.controller {
        assert FirstMissing(cfg, ms, i);
        ExpandFailsAt(cfg, ms, i);
        return Failure(MissingHandler(a));
      }
      PrefixGrows(ms, i);
      ExpandExtends(cfg, ms[..i], a, routes);
      routes := routes + [RouteFor(cfg, a)];
      i := i + 1;
    }
    assert ms[..i] == ms;
    return Success(routes);
  }

  /**
   * The generator as the source runs it: validate the options, fill in the
   * defaults, then run the loop over the requested actions.
   */
  method Generate<H>(o: Options<H>) returns (r: Result<seq<Route<H>>, Error>)
    ensures r == Build(o)
  {
    var violation := SchemaViolation(o);
    if violation.Some? {
      return Failure(ConfigurationError(violation.value));
    }
    var cfg := WithDefaults(o);
    r := ExpandInOrder(cfg, cfg.methods);
  }
}
