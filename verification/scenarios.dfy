/**
 * The concrete configurations exercised by the repository's test suite, with
 * the route tables the model produces for them.
 */
module Scenarios {
  import opened Wrappers
  import opened Strings
  import opened Conventions
  import opened Schema
  import opened Routes
  import opened RouteLaws

  /** A controller with a handler for every action. */
  function FullController<H>(h: H): (c: map<string, H>)
    ensures forall a: Action :: Name(a) in c
  {
    map["index" := h, "show" := h, "create" := h, "store" := h, "edit" := h, "update" := h, "destroy" := h]
  }

  /** A controller without handlers and no `methods`: the first default action fails. */
  lemma EmptyControllerFails<H>()
    ensures Build(Options<H>.Options(Some("empty-controller"), None, Some(map[]), None, None, None))
      == Failure(MissingHandler(Index))
  {
    var o := Options<H>.Options(Some("empty-controller"), None, Some(map[]), None, None, None);
    MissingHandlerFails(o, 0);
  }

  /** A controller without handlers and an empty `methods` list: an empty table, no error. */
  lemma EmptyControllerAndMethods<H>()
    ensures Build(Options<H>.Options(Some("empty-controller-methods"), None, Some(map[]), None, None, Some([])))
      == Success([])
  {
    var o := Options<H>.Options(Some("empty-controller-methods"), None, Some(map[]), None, None, Some([]));
    EmptyMethodsEmptyTable(o);
  }

  /** Valid options whose `methods` are the keys of `want`, all handled, request exactly the actions of `want`. */
  lemma RequestedActions<H>(o: Options<H>, want: seq<Action>)
    requires FieldOk(o, NameKey) && FieldOk(o, NamePluralKey) && FieldOk(o, ControllerKey)
    requires FieldOk(o, VariableKey) && FieldOk(o, NamespaceKey)
    requires o.methods.Some? && |o.methods.value| == |want|
    requires forall i :: 0 <= i < |want| ==> o.methods.value[i] == Name(want[i])
    requires forall i :: 0 <= i < |want| ==> Name(want[i]) in o.controller.value
    ensures WellFormed(o) && WithDefaults(o).methods == want
    ensures Build(o).Success? && |Build(o).value| == |want|
  {
    assert FieldOk(o, MethodsKey) by {
      forall i | 0 <= i < |want|
        ensures IsActionName(o.methods.value[i])
      {
        NameRoundTrip(want[i], "");
      }
    }
    var ms := WithDefaults(o).methods;
    forall i | 0 <= i < |want|
      ensures ms[i] == want[i]
    {
      NameInjective(ms[i], want[i]);
    }
    assert ms == want;
    assert AllHandled(WithDefaults(o), ms);
    SuccessIsExpansion(o);
  }

  /** The actions the keys `index`, `show` and `create` request, with handlers for those three keys. */
  lemma ThreeActionsRequested<H>(o: Options<H>)
    requires o.name.Some? && o.name.value != "" && OptionalString(o.namePlural)
    requires o.variable.None? && o.namespace.None?
    requires o.controller.Some?
    requires "index" in o.controller.value && "show" in o.controller.value && "create" in o.controller.value
    requires o.methods == Some(["index", "show", "create"])
    ensures WellFormed(o) && |WithDefaults(o).methods| == 3
    ensures WithDefaults(o).methods[0] == Index && WithDefaults(o).methods[1] == Show && WithDefaults(o).methods[2] == Create
    ensures Build(o).Success? && |Build(o).value| == 3
    ensures RequestedKey(o, 0) == "index" && RequestedKey(o, 1) == "show" && RequestedKey(o, 2) == "create"
  {
    RequestedActions(o, [Index, Show, Create]);
  }

  /** The actions the keys `show`, `edit`, `update` and `destroy` request, with handlers for those four keys. */
  lemma MemberActionsRequested<H>(o: Options<H>)
    requires o.name.Some? && o.name.value != "" && o.namePlural.None?
    requires OptionalString(o.variable) && o.namespace.None?
    requires o.controller.Some?
    requires "show" in o.controller.value && "edit" in o.controller.value
    requires "update" in o.controller.value && "destroy" in o.controller.value
    requires o.methods == Some(["show", "edit", "update", "destroy"])
    ensures WellFormed(o) && |WithDefaults(o).methods| == 4
    ensures WithDefaults(o).methods[0] == Show && WithDefaults(o).methods[1] == Edit
    ensures WithDefaults(o).methods[2] == Update && WithDefaults(o).methods[3] == Destroy
    ensures Build(o).Success? && |Build(o).value| == 4
  {
    RequestedActions(o, [Show, Edit, Update, Destroy]);
  }

  /** The ids of the actions `index`, `show` and `create`, requested in that order. */
  lemma ThreeIds<H>(o: Options<H>)
    requires o.name.Some? && o.name.value != "" && OptionalString(o.namePlural)
    requires o.variable.None? && o.namespace.None?
    requires o.controller.Some?
    requires "index" in o.controller.value && "show" in o.controller.value && "create" in o.controller.value
    requires o.methods == Some(["index", "show", "create"])
    ensures Build(o).Success? && |Build(o).value| == 3
    ensures Build(o).value[0].id == PluralOf(o) + "." + "index"
    ensures Build(o).value[1].id == PluralOf(o) + "." + "show"
    ensures Build(o).value[2].id == PluralOf(o) + "." + "create"
  {
    ThreeActionsRequested(o);
    var routes := Build(o).value;
    forall i | 0 <= i < 3
      ensures routes[i].id == PluralOf(o) + "." + RequestedKey(o, i)
    {
      IdShape(o, i);
      assert NamespaceDot(o) == "";
      assert "" + PluralOf(o) == PluralOf(o);
    }
  }

  /** Ids of three requested actions, plural derived from the name; the controller needs only those three handlers. */
  lemma IdsByName<H>(c: map<string, H>, nameVar: string)
    requires nameVar != ""
    requires "index" in c && "show" in c && "create" in c
    ensures var r := Build(Options(Some(nameVar), None, Some(c), None, None, Some(["index", "show", "create"])));
      && r.Success? && |r.value| == 3
      && r.value[0].id == nameVar + "s" + "." + "index"
      && r.value[1].id == nameVar + "s" + "." + "show"
      && r.value[2].id == nameVar + "s" + "." + "create"
  {
    ThreeIds(Options(Some(nameVar), None, Some(c), None, None, Some(["index", "show", "create"])));
  }

  /** Ids of three requested actions under an explicit plural name; the controller needs only those three handlers. */
  lemma IdsByPlural<H>(c: map<string, H>, namePlural: string)
    requires namePlural != ""
    requires "index" in c && "show" in c && "create" in c
    ensures var r := Build(Options(Some("post"), Some(namePlural), Some(c), None, None, Some(["index", "show", "create"])));
      && r.Success? && |r.value| == 3
      && r.value[0].id == namePlural + "." + "index"
      && r.value[1].id == namePlural + "." + "show"
      && r.value[2].id == namePlural + "." + "create"
  {
    ThreeIds(Options(Some("post"), Some(namePlural), Some(c), None, None, Some(["index", "show", "create"])));
  }

  /** The seven default paths of a table built from `o`, all under `prefix`. */
  lemma DefaultPaths<H>(o: Options<H>, prefix: string)
    requires WellFormed(o) && o.methods.None? && o.variable.None?
    requires forall a: Action :: Name(a) in o.controller.value
    requires !Contains(WithDefaults(o).namespace, Placeholder) && !Contains(WithDefaults(o).namePlural, Placeholder)
    requires prefix == NamespaceSegment(o) + "/" + PluralOf(o)
    ensures var r := Build(o);
      && r.Success? && |r.value| == 7
      && r.value[0].path == prefix
      && r.value[1].path == prefix + "/{id}"
      && r.value[2].path == prefix + "/create"
      && r.value[3].path == prefix
      && r.value[4].path == prefix + "/{id}/edit"
      && r.value[5].path == prefix + "/{id}"
      && r.value[6].path == prefix + "/{id}"
  {
    DefaultMethodsNeedEveryHandler(o);
    DefaultMethodsInOrder(o);
    assert Build(o).value[0].path == prefix by {
      PathFromOptions(o, 0);
      assert prefix + ExpectedSuffix(Index, "") == prefix;
    }
    assert Build(o).value[1].path == prefix + "/{id}" by {
      PathFromOptions(o, 1);
      assert ExpectedSuffix(Show, "") == "/{id}";
    }
    assert Build(o).value[2].path == prefix + "/create" by {
      PathFromOptions(o, 2);
    }
    assert Build(o).value[3].path == prefix by {
      PathFromOptions(o, 3);
      assert prefix + ExpectedSuffix(Store, "") == prefix;
    }
    assert Build(o).value[4].path == prefix + "/{id}/edit" by {
      PathFromOptions(o, 4);
      EditSuffixWithoutVariable();
    }
    assert Build(o).value[5].path == prefix + "/{id}" by {
      PathFromOptions(o, 5);
      assert ExpectedSuffix(Update, "") == "/{id}";
    }
    assert Build(o).value[6].path == prefix + "/{id}" by {
      PathFromOptions(o, 6);
      assert ExpectedSuffix(Destroy, "") == "/{id}";
    }
  }

  /** Without a path variable the edit suffix is `/{id}/edit`. */
  lemma EditSuffixWithoutVariable()
    ensures ExpectedSuffix(Edit, "") == "/{id}/edit"
  {
    assert "/{id}" + "" == "/{id}";
  }

  /** Paths without a namespace: every path starts with `/`, the name and `s`. */
  lemma PathsWithoutNamespace<H>(h: H, nameVar: string)
    requires nameVar != "" && !Contains(nameVar + "s", Placeholder)
    ensures var r := Build(Options(Some(nameVar), None, Some(FullController(h)), None, None, None));
      && r.Success? && |r.value| == 7
      && r.value[0].path == "/" + (nameVar + "s")
      && r.value[1].path == "/" + (nameVar + "s") + "/{id}"
      && r.value[2].path == "/" + (nameVar + "s") + "/create"
      && r.value[3].path == "/" + (nameVar + "s")
      && r.value[4].path == "/" + (nameVar + "s") + "/{id}/edit"
      && r.value[5].path == "/" + (nameVar + "s") + "/{id}"
      && r.value[6].path == "/" + (nameVar + "s") + "/{id}"
  {
    var o := Options(Some(nameVar), None, Some(FullController(h)), None, None, None);
    var prefix := "/" + (nameVar + "s");
    assert prefix == NamespaceSegment(o) + "/" + PluralOf(o);
    DefaultPaths(o, prefix);
  }

  /** Paths under a namespace: every path starts with `/`, the namespace, `/`, the name and `s`. */
  lemma PathsWithNamespace<H>(h: H, nameVar: string, namespace: string)
    requires nameVar != "" && !Contains(nameVar + "s", Placeholder)
    requires namespace != "" && !Contains(namespace, Placeholder)
    ensures var r := Build(Options(Some(nameVar), None, Some(FullController(h)), None, Some(namespace), None));
      && r.Success? && |r.value| == 7
      && r.value[0].path == "/" + namespace + "/" + (nameVar + "s")
      && r.value[1].path == "/" + namespace + "/" + (nameVar + "s") + "/{id}"
      && r.value[2].path == "/" + namespace + "/" + (nameVar + "s") + "/create"
      && r.value[3].path == "/" + namespace + "/" + (nameVar + "s")
      && r.value[4].path == "/" + namespace + "/" + (nameVar + "s") + "/{id}/edit"
      && r.value[5].path == "/" + namespace + "/" + (nameVar + "s") + "/{id}"
      && r.value[6].path == "/" + namespace + "/" + (nameVar + "s") + "/{id}"
  {
    var o := Options(Some(nameVar), None, Some(FullController(h)), None, Some(namespace), None);
    var prefix := "/" + namespace + "/" + (nameVar + "s");
    assert prefix == NamespaceSegment(o) + "/" + PluralOf(o);
    DefaultPaths(o, prefix);
  }

  /** Paths under an explicit plural name. */
  lemma PathsWithPlural<H>(h: H, nameVar: string, namePlural: string)
    requires nameVar != "" && namePlural != "" && !Contains(namePlural, Placeholder)
    ensures var r := Build(Options(Some(nameVar), Some(namePlural), Some(FullController(h)), None, None, None));
      && r.Success? && |r.value| == 7
      && r.value[0].path == "/" + namePlural
      && r.value[1].path == "/" + namePlural + "/{id}"
      && r.value[2].path == "/" + namePlural + "/create"
      && r.value[3].path == "/" + namePlural
      && r.value[4].path == "/" + namePlural + "/{id}/edit"
      && r.value[5].path == "/" + namePlural + "/{id}"
      && r.value[6].path == "/" + namePlural + "/{id}"
  {
    var o := Options(Some(nameVar), Some(namePlural), Some(FullController(h)), None, None, None);
    assert "/" + namePlural == NamespaceSegment(o) + "/" + PluralOf(o);
    DefaultPaths(o, "/" + namePlural);
  }

  /** Paths under both a namespace and an explicit plural name. */
  lemma PathsWithNamespaceAndPlural<H>(h: H, nameVar: string, namePlural: string, namespace: string)
    requires nameVar != "" && namePlural != "" && !Contains(namePlural, Placeholder)
    requires namespace != "" && !Contains(namespace, Placeholder)
    ensures var r := Build(Options(Some(nameVar), Some(namePlural), Some(FullController(h)), None, Some(namespace), None));
      && r.Success? && |r.value| == 7
      && r.value[0].path == "/" + namespace + "/" + namePlural
      && r.value[1].path == "/" + namespace + "/" + namePlural + "/{id}"
      && r.value[2].path == "/" + namespace + "/" + namePlural + "/create"
      && r.value[3].path == "/" + namespace + "/" + namePlural
      && r.value[4].path == "/" + namespace + "/" + namePlural + "/{id}/edit"
      && r.value[5].path == "/" + namespace + "/" + namePlural + "/{id}"
      && r.value[6].path == "/" + namespace + "/" + namePlural + "/{id}"
  {
    var o := Options(Some(nameVar), Some(namePlural), Some(FullController(h)), None, Some(namespace), None);
    assert "/" + namespace + "/" + namePlural == NamespaceSegment(o) + "/" + PluralOf(o);
    DefaultPaths(o, "/" + namespace + "/" + namePlural);
  }

  /** The paths of the actions `show`, `edit`, `update` and `destroy`, requested in that order, under `prefix`. */
  lemma MemberPaths<H>(o: Options<H>, prefix: string, v: string)
    requires Build(o).Success? && WellFormed(o) && |WithDefaults(o).methods| == 4
    requires WithDefaults(o).methods[0] == Show && WithDefaults(o).methods[1] == Edit
    requires WithDefaults(o).methods[2] == Update && WithDefaults(o).methods[3] == Destroy
    requires !Contains(WithDefaults(o).namespace, Placeholder) && !Contains(WithDefaults(o).namePlural, Placeholder)
    requires prefix == NamespaceSegment(o) + "/" + PluralOf(o) && v == VariableOf(o)
    ensures var r := Build(o);
      && r.Success? && |r.value| == 4
      && r.value[0].path == prefix + ("/{id}" + v)
      && r.value[1].path == prefix + ("/{id}" + v + "/edit")
      && r.value[2].path == prefix + ("/{id}" + v)
      && r.value[3].path == prefix + ("/{id}" + v)
  {
    SuccessIsExpansion(o);
    assert Build(o).value[0].path == prefix + ("/{id}" + v) by {
      PathFromOptions(o, 0);
      assert ExpectedSuffix(Show, v) == "/{id}" + v;
    }
    assert Build(o).value[1].path == prefix + ("/{id}" + v + "/edit") by {
      PathFromOptions(o, 1);
      assert ExpectedSuffix(Edit, v) == "/{id}" + v + "/edit";
    }
    assert Build(o).value[2].path == prefix + ("/{id}" + v) by {
      PathFromOptions(o, 2);
      assert ExpectedSuffix(Update, v) == "/{id}" + v;
    }
    assert Build(o).value[3].path == prefix + ("/{id}" + v) by {
      PathFromOptions(o, 3);
      assert ExpectedSuffix(Destroy, v) == "/{id}" + v;
    }
  }

  /** The four member actions with a path variable, which follows `{id}` in each path. */
  lemma PathsWithVariable<H>(h: H, nameVar: string, variable: string)
    requires nameVar != "" && !Contains(nameVar + "s", Placeholder) && variable != ""
    ensures var r := Build(Options(Some(nameVar), None, Some(FullController(h)), Some(variable), None, Some(["show", "edit", "update", "destroy"])));
      && r.Success? && |r.value| == 4
      && r.value[0].path == "/" + (nameVar + "s") + ("/{id}" + variable)
      && r.value[1].path == "/" + (nameVar + "s") + ("/{id}" + variable + "/edit")
      && r.value[2].path == "/" + (nameVar + "s") + ("/{id}" + variable)
      && r.value[3].path == "/" + (nameVar + "s") + ("/{id}" + variable)
  {
    var o := Options(Some(nameVar), None, Some(FullController(h)), Some(variable), None, Some(["show", "edit", "update", "destroy"]));
    var prefix := "/" + (nameVar + "s");
    assert prefix == NamespaceSegment(o) + "/" + PluralOf(o);
    MemberActionsRequested(o);
    MemberPaths(o, prefix, variable);
  }
}
