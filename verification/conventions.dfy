/**
 * The fixed REST conventions: seven actions, each with an HTTP method and an
 * optional path suffix that may hold the `{declaration}` placeholder.
 */
module Conventions {
  import opened Wrappers
  import opened Strings

  /** The seven conventional actions of a resource. */
  datatype Action = Index | Show | Create | Store | Edit | Update | Destroy

  /** The action's key in the conventions table, in a controller and in `methods`. */
  function Name(a: Action): string {
    match a
    case Index => "index"
    case Show => "show"
    case Create => "create"
    case Store => "store"
    case Edit => "edit"
    case Update => "update"
    case Destroy => "destroy"
  }

  /** The action a key names, if it names one. */
  function Parse(s: string): (r: Option<Action>)
    ensures r.Some? ==> Name(r.value) == s
    ensures r.None? ==> forall a: Action :: Name(a) != s
  {
    if s == "index" then Some(Index)
    else if s == "show" then Some(Show)
    else if s == "create" then Some(Create)
    else if s == "store" then Some(Store)
    else if s == "edit" then Some(Edit)
    else if s == "update" then Some(Update)
    else if s == "destroy" then Some(Destroy)
    else None
  }

  /** The keys of the conventions table in their declaration order. */
  function AllActions(): (r: seq<Action>)
    ensures |r| == 7
    ensures forall i, j :: 0 <= i < j < |r| ==> r[i] != r[j]
  {
    [Index, Show, Create, Store, Edit, Update, Destroy]
  }

  /** Every action is in the table, so the default `methods` requests each of them once. */
  lemma AllActionsEnumerates(a: Action)
    ensures a in AllActions()
  {
    var r := AllActions();
    match a
    case Index => assert r[0] == a;
    case Show => assert r[1] == a;
    case Create => assert r[2] == a;
    case Store => assert r[3] == a;
    case Edit => assert r[4] == a;
    case Update => assert r[5] == a;
    case Destroy => assert r[6] == a;
  }

  /** The token in a suffix that the path-variable fragment replaces. */
  const Placeholder: string := "{declaration}"

  /** One row of the conventions table. */
  datatype Convention = Convention(httpMethod: string, suffix: Option<string>)

  /** The conventions table. */
  function Table(a: Action): Convention {
    match a
    case Index => Convention("GET", None)
    case Show => Convention("GET", Some("/{id}" + Placeholder))
    case Create => Convention("GET", Some("/create"))
    case Store => Convention("PUT", None)
    case Edit => Convention("GET", Some("/{id}" + Placeholder + "/edit"))
    case Update => Convention("POST", Some("/{id}" + Placeholder))
    case Destroy => Convention("DELETE", Some("/{id}" + Placeholder))
  }

  /** Looking up the conventions table by key, as the generator does. */
  function Lookup(key: string): (r: Option<Convention>)
    ensures r.Some? <==> exists a: Action :: Name(a) == key
    ensures forall a: Action :: Name(a) == key ==> r == Some(Table(a))
  {
    match Parse(key)
    case None => None
    case Some(a) => Some(Table(a))
  }

  /** The suffix text appended to the base path; an absent suffix appends nothing. */
  function Suffix(a: Action): string {
    match Table(a).suffix
    case None => ""
    case Some(s) => s
  }

  /** The actions that address a single member of the resource. */
  predicate AddressesMember(a: Action) {
    a in {Show, Edit, Update, Destroy}
  }

  /**
   * The suffix of each action once the placeholder has been replaced by
   * the fragment `v`, written out independently of the table.
   */
  function ExpectedSuffix(a: Action, v: string): string {
    match a
    case Index => ""
    case Store => ""
    case Create => "/create"
    case Show => "/{id}" + v
    case Update => "/{id}" + v
    case Destroy => "/{id}" + v
    case Edit => "/{id}" + v + "/edit"
  }

  /** Every key names exactly one action. */
  lemma NameRoundTrip(a: Action, s: string)
    ensures Parse(Name(a)) == Some(a)
    ensures Name(a) == s <==> Parse(s) == Some(a)
  {
    match a
    case Index =>
    case Show =>
    case Create =>
    case Store =>
    case Edit =>
    case Update =>
    case Destroy =>
  }

  /** Distinct actions have distinct keys. */
  lemma NameInjective(a: Action, b: Action)
    ensures Name(a) == Name(b) ==> a == b
  {
    NameRoundTrip(a, Name(b));
    NameRoundTrip(b, Name(b));
  }

  /** A present suffix is a path segment: it starts with a `/`, which the placeholder lacks. */
  lemma SuffixStartsSegment(a: Action)
    ensures Suffix(a) == [] <==> !AddressesMember(a) && a != Create
    ensures Suffix(a) != [] ==> Suffix(a)[0] == '/' && '/' !in Placeholder
    ensures Contains(Suffix(a), Placeholder) <==> AddressesMember(a)
  {
    assert '/' !in Placeholder;
    if AddressesMember(a) {
      var tail := if a == Edit then "/edit" else "";
      assert Suffix(a) == "/{id}" + Placeholder + tail;
      assert Suffix(a)[5..5 + |Placeholder|] == Placeholder;
      assert OccursAt(Suffix(a), Placeholder, 5);
    } else if a == Create {
      assert forall i: nat :: !OccursAt("/create", Placeholder, i);
    }
  }

  /** The placeholder in "{id}{declaration}", the body of every member suffix, is at position 4. */
  lemma PlaceholderAfterId(tail: string, v: string)
    ensures ReplaceFirst("{id}" + Placeholder + tail, Placeholder, v) == "{id}" + v + tail
  {
    var s := "{id}" + Placeholder + tail;
    assert OccursAt(s, Placeholder, 4);
    assert s[1] != Placeholder[1];
    assert s[1] != '{' && s[2] != '{' && s[3] != '{';
    assert forall j: nat :: j < 4 ==> !OccursAt(s, Placeholder, j);
    assert IsFirstOccurrence(s, Placeholder, 4);
    assert s[..4] == "{id}";
    assert s[4 + |Placeholder|..] == tail;
  }

  /** A leading `/` is kept in front of the replacement. */
  lemma ReplaceFirstAfterSlash(rest: string, v: string)
    ensures ReplaceFirst("/" + rest, Placeholder, v) == "/" + ReplaceFirst(rest, Placeholder, v)
  {
    assert !OccursAt([], Placeholder, 0);
    assert !Contains([], Placeholder);
    assert "/" + rest == [] + ['/'] + rest;
    ReplaceFirstAfterForeign([], '/', rest, Placeholder, v);
  }

  /** The suffix of a member action, `/{id}{declaration}` followed by `tail`. */
  lemma MemberSuffix(tail: string, v: string)
    ensures ReplaceFirst("/{id}" + Placeholder + tail, Placeholder, v) == "/{id}" + v + tail
  {
    assert "/{id}" + Placeholder + tail == "/" + ("{id}" + Placeholder + tail);
    assert "/{id}" + v + tail == "/" + ("{id}" + v + tail);
    ReplaceFirstAfterSlash("{id}" + Placeholder + tail, v);
    PlaceholderAfterId(tail, v);
  }

  /**
   * Substituting `v` for the placeholder in an action's suffix gives the
   * suffix written out by hand: `v` lands right after `{id}` in the member
   * actions and nowhere in the others.
   */
  lemma SubstitutedSuffix(a: Action, v: string)
    ensures ReplaceFirst(Suffix(a), Placeholder, v) == ExpectedSuffix(a, v)
  {
    if AddressesMember(a) {
      var tail := if a == Edit then "/edit" else "";
      assert Suffix(a) == "/{id}" + Placeholder + tail;
      assert ExpectedSuffix(a, v) == "/{id}" + v + tail;
      MemberSuffix(tail, v);
    } else {
      SuffixStartsSegment(a);
    }
  }
}
