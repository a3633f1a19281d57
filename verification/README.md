# hapi-rest-routes, modelled in Dafny

hapi-rest-routes turns one resource description into the RESTful route
table of the hapi framework. A caller passes an options object: the
resource `name`, an optional `namePlural`, a `controller` with one handler
per action, an optional path-variable fragment `variable`, an optional
`namespace` and an optional list `methods` of the actions wanted. The
generator checks the options against a schema, fills in the defaults, and
emits one route per requested action, in request order. Each route has a
path, an HTTP method, the controller's handler and a dotted id. A requested
action without a handler aborts the whole call.

The model covers the generator in `index.js`:

- `wrappers.dfy` (`Wrappers`): `Option` and `Result`.
- `strings.dfy` (`Strings`): leftmost occurrence of a pattern and
  replacement of that first occurrence, which is what JavaScript's
  `String.prototype.replace` does with a string pattern. It also holds the
  lemmas that locate the occurrence inside a concatenation.
- `conventions.dfy` (`Conventions`): the seven actions, their keys, and the
  conventions table of HTTP methods and path suffixes (the `baseMethods`
  dictionary).
- `schema.dfy` (`Schema`): the options as a caller writes them, the schema
  rules per key, and the defaults.
- `routes.dfy` (`Routes`): the route of one action, the expansion of a list
  of actions, and the whole generator. `Build` is the functional
  definition. `Generate` and `ExpandInOrder` are the loop the source runs,
  proved equal to it.
- `laws.dfy` (`RouteLaws`): what the generator promises in terms of the
  options: one route per requested key, the defaults, the shape of ids and
  paths, and the error cases.
- `scenarios.dfy` (`Scenarios`): the configurations of the repository's
  test suite, with the route tables the model produces for them. The id
  scenarios take any controller holding handlers for the three keys their
  tests request; the path scenarios use a controller with a handler for
  each of the seven actions, as their tests do.

Handlers are opaque values of a type parameter `H`. The controller is a
map from action keys to handlers. A key left out of the options is `None`.
An aborted call is a `Failure`: `ConfigurationError(field)` when the schema
rejects the options, `MissingHandler(action)` when the loop meets an action
without a handler.

Two behaviours of the code deserve mention:

- The schema declares every string key with Joi's `string()` rule, which
  rejects the empty string. So an empty `name`, `namePlural`, `variable` or
  `namespace` is a configuration error, not a request for the default. The
  defaulting code tests JavaScript truthiness; after the schema has passed,
  "absent" and "falsy" coincide, and the model states the defaults in terms
  of absence. A reading in which an empty `namespace` simply means "no
  namespace" does not match the code, and the model follows the code.
- The placeholder `{declaration}` is replaced once, by its first occurrence
  in the whole path, not in the suffix alone (`index.js:78-80`). A
  namespace or plural name that itself contains `{declaration}` takes the
  substitution, and the suffix keeps its own placeholder.
  `Routes.PlaceholderInPluralTakesSubstitution` states that case. The path
  laws carry the hypothesis that neither the namespace nor the plural name
  contains the placeholder.

## Model

| member | source | states |
|---|---|---|
| Conventions.Parse | index.js:10-39 | a key of the table maps back to the action whose key it is; any other string maps to nothing |
| Conventions.AllActions | index.js:68 | the default action list has seven entries, all distinct |
| Conventions.AllActionsEnumerates | index.js:10-39 | every action of the table occurs in the default action list |
| Conventions.NameRoundTrip | index.js:10-39 | keys and actions are in one-to-one correspondence: a string is the key of an action exactly when it parses to that action |
| Conventions.Lookup | index.js:74 | looking up a key succeeds exactly when some action has that key, and then yields that action's row of the table |
| Conventions.SuffixStartsSegment | index.js:10-39 | index and store have no suffix; every other suffix starts with `/`; the suffix holds the placeholder exactly for show, edit, update and destroy |
| Conventions.SubstitutedSuffix | index.js:10-39 | replacing the placeholder in an action's suffix gives the independently written suffix: `/{id}` then the fragment for show, update and destroy, the same with `/edit` for edit, `/create` for create, nothing for index and store |
| Strings.IndexOf | index.js:80 | the position found is the first occurrence of the pattern; no position is found exactly when the pattern does not occur |
| Strings.ReplaceFirst | index.js:80 | without an occurrence the string is unchanged; otherwise the first occurrence, and only it, is cut out and the replacement put in its place |
| Strings.ReplaceFirstAfterForeign | index.js:78-80 | behind a prefix without the pattern and a character that is not in the pattern, replacing the first occurrence keeps the prefix and acts on the rest alone |
| Schema.SchemaViolation | index.js:44-51 | no key is reported exactly when the options pass every rule of the schema; a reported key breaks its rule and every key declared before it passes |
| Schema.ParseAll | index.js:50 | a list of valid keys becomes a list of actions of the same length whose keys are, position by position, the given keys |
| Schema.WithDefaults | index.js:68-70 | without `methods` all seven actions are requested in table order, otherwise the given keys in the given order; the namespace defaults to empty; the plural name defaults to the name followed by `s` and is never empty; variable and controller pass through |
| Routes.Expand | index.js:72-90 | the expansion succeeds exactly when every requested action has a handler; then route `i` is the route of action `i`; otherwise it fails with the first action that lacks a handler |
| Routes.ExpandFailsAt | index.js:76 | when action `k` is the first without a handler, the expansion fails with exactly that action |
| Routes.ExpandExtends | index.js:72-89 | one more handled action appends exactly its route at the end of the expansion |
| Routes.Build | index.js:60-90 | a configuration error is reported exactly when the options break the schema, and it names a key whose rule is broken; valid options produce a table exactly when every requested action has a handler |
| Routes.ExpandInOrder | index.js:72-90 | the loop, appending one route per action and stopping at the first missing handler, computes the expansion |
| Routes.Generate | index.js:60-91 | validating, filling in defaults and running the loop gives the same result as the generator's definition |
| Routes.PathShape | index.js:78-80 | with a namespace and plural name free of the placeholder, a path is `/namespace` (when set), `/`, the plural name, then the action's suffix with the variable or nothing in place of the placeholder |
| Routes.VariableFollowsId | index.js:78-80 | in the paths of show, edit, update and destroy the variable fragment comes right after `/{id}`, followed by `/edit` for edit and nothing otherwise |
| Routes.CollectionPathsIgnoreVariable | index.js:78-80 | the paths of index, create and store are the base path (followed by `/create` for create) whatever the variable is |
| Routes.PlaceholderInPluralTakesSubstitution | index.js:78-80 | a plural name equal to the placeholder takes the variable, and the show suffix keeps `{declaration}` |
| Routes.IdsDistinguishActions | index.js:87 | two routes of one resource have the same id exactly when they are for the same action, and every id ends in `.` and the action's key |
| RouteLaws.SuccessIsExpansion | index.js:68-90 | a successful table has one route per requested action, each the route of its action under the defaulted options |
| RouteLaws.RoutesFollowMethods | index.js:72-89 | with an explicit `methods` list, route `i` belongs to key `i`: its id ends in `.` and the key, its HTTP method is the table's for that key, and its handler is the controller's entry for that key |
| RouteLaws.DefaultMethodsInOrder | index.js:68 | without `methods`, valid options request the seven actions index, show, create, store, edit, update, destroy, in that order |
| RouteLaws.DefaultMethodsCoverTable | index.js:68 | without `methods` the table has seven routes, route `i` for the `i`-th action of the conventions table, with that action's HTTP method |
| RouteLaws.DefaultMethodsNeedEveryHandler | index.js:68-76 | without `methods` the table is built exactly when the controller has a handler for each of the seven actions |
| RouteLaws.EmptyMethodsEmptyTable | index.js:68-72 | an empty `methods` list yields an empty table whatever the controller holds |
| RouteLaws.IdShape | index.js:87 | every id is `namespace.` when a namespace is set, the plural name in effect, `.`, and the requested key |
| RouteLaws.PathFromOptions | index.js:78-80 | every path is `/namespace` when set, `/`, the plural name in effect, and the action's suffix with the variable or nothing in place of the placeholder |
| RouteLaws.DefaultPluralInIds | index.js:70 | without `namePlural`, the name followed by `s` is the plural in every id, with no condition on the names |
| RouteLaws.DefaultPluralEverywhere | index.js:70 | without `namePlural`, the name followed by `s` is the plural in every id and every path |
| RouteLaws.MissingHandlerFails | index.js:76 | when the `k`-th requested key is the first without a handler, the call fails with that action and returns no routes |
| RouteLaws.UnknownMethodRejected | index.js:50 | a `methods` entry that is not a key of the table makes the call fail with a configuration error, naming `methods` when every other key is valid |
| RouteLaws.RequiredKeysRejected | index.js:45-47 | options without a name or without a controller fail with a configuration error, naming `name` when the name is missing and `controller` when only the controller is missing |
| Scenarios.EmptyControllerFails | test/index.js:5-18 | a resource with an empty controller and no `methods` fails, on the index action |
| Scenarios.EmptyControllerAndMethods | test/index.js:20-28 | an empty controller with an empty `methods` list gives an empty table |
| Scenarios.IdsByName | test/index.js:31-52 | with any controller holding handlers for `index`, `show` and `create`, requesting those three keys gives three routes whose ids are the name followed by `s`, `.`, and the key |
| Scenarios.IdsByPlural | test/index.js:53-74 | with any controller holding handlers for `index`, `show` and `create` and a plural name, requesting those three keys gives three routes whose ids are the plural name, `.`, and the key |
| Scenarios.PathsWithoutNamespace | test/index.js:77-99 | the seven default paths are `/` and the name followed by `s`, then nothing, `/{id}`, `/create`, nothing, `/{id}/edit`, `/{id}`, `/{id}` |
| Scenarios.PathsWithNamespace | test/index.js:100-124 | the same seven paths, each behind `/` and the namespace |
| Scenarios.PathsWithPlural | test/index.js:125-149 | the same seven paths with the plural name in place of the name followed by `s` |
| Scenarios.PathsWithNamespaceAndPlural | test/index.js:150-176 | the same seven paths behind the namespace and with the plural name |
| Scenarios.PathsWithVariable | test/index.js:177-199 | for show, edit, update and destroy the variable follows `/{id}`, with `/edit` after it for edit |

## Left out

- The validation callback and its error object: Joi's error messages and
  details are not modelled. A rejected call is a `ConfigurationError`
  naming one key.
- Schema.SchemaViolation: Joi reports the first error it meets. The model
  names the first broken key in the schema's declaration order, which is a
  choice where several keys are broken.
- Joi's rejection of keys the schema does not declare, and of values of the
  wrong type (a number as `name`, an array as `controller`): the options
  datatype only admits the declared keys with string, map and list values.
- Strings.ReplaceFirst: inserts the replacement literally. JavaScript's
  `replace` expands `$$`, `$&`, `` $` `` and `$'` inside the replacement
  string, so a `variable` holding `$` is not modelled faithfully.
- Routes.PathShape: assumes that neither the namespace nor the plural name
  contains `{declaration}`. With the placeholder there, only the single
  instance in `Routes.PlaceholderInPluralTakesSubstitution` is stated.
- RouteLaws.PathFromOptions: carries the same assumption as
  `Routes.PathShape`, and so do the path lemmas built on it
  (`RouteLaws.DefaultPluralEverywhere` and the path scenarios).
- A controller entry that is present but falsy (`null`, `0`, `''`) fails
  the handler assertion at `index.js:76`. In the model any present entry
  counts as a handler.
- The optional callback (`index.js:93-95`) only receives the returned
  array. It is not modelled.
- The source writes the defaults back into the caller's options object
  (`index.js:68-70`). The model computes a separate configuration instead.
- Registration of the routes with a hapi server, and the handlers'
  behaviour, are outside the generator.
- The `config` wrapper around the id is flattened into the route's `id`
  field.
