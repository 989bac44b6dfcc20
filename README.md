# Sources UI: filter chips, post-wizard notifier and application toggles, in Dafny

This project models two parts of the sources administration UI and proves
properties about them.

- **The helpers of the sources page** (`src/pages/Sources/helpers.js`). These are pure functions:
  - the sorted option lists for the source-type and application-type selects;
  - the filter chips built from the sparse filter state, and their removal;
  - the `loadedTypes` guard;
  - the notifier that runs after the add-source wizard (`checkSubmit`).
- **The applications card** (`src/components/SourceDetail/ApplicationsCard.js`). It holds a per-id in-flight map:
  - true means an add is under way, false a removal, undefined idle;
  - the reducer makes these transitions;
  - the switch state is derived from the map;
  - four handlers toggle an application: the ordinary `addApp`, the super-key `addApp`, `removeApp` and `onChange`.

  Each handler is specified by a pure function. The function returns the effects the handler issues (API calls, reload, navigation) and the map it leaves behind. A `Card` class holds `selectedApps` and an effect log. Its methods follow the source step by step: gate, mark, call, reload, clean. Each method is proved to do what its function says.

Modules:

| file | module | models |
|---|---|---|
| common.dfy | `Common` | `undefined` (`Option`), thrown `TypeError`s (`Result`), JavaScript truthiness of strings, `Array.prototype.find` and `filter` |
| entities.dfy | `Entities` | source types, application types, sources and their attached applications |
| selection.dfy | `Selection` | `prepareSourceTypeSelection`, `prepareApplicationTypeSelection` |
| chips.dfy | `Chips` | `chipsFormatters`, `prepareChips`, `removeChips`, `loadedTypes` |
| notifier.dfy | `Notifier` | `checkSubmit` |
| applications_card.dfy | `ApplicationsCard` | `reducer`, `filteredAppTypes`, `isChecked`/`isDisabled`, `addApp` (both variants), `removeApp`, `onChange` |

Modelling choices:

- The filter state is a JavaScript object. It is modelled as its keys in `Object.keys` order plus a map from key to value. A value is `undefined`, a string (the free-text `name` filter) or an array of ids. A key can be present with the value `undefined`, and removing a chip leaves it that way.
- Expressions that would throw in JavaScript give `TypeError` in the model. Examples: `.map` or `.filter` on a value that is not an array, and `chips[0].key` when `chips` is empty.
- `localeCompare` is replaced by lexicographic order on character codes. `Array.prototype.sort` is modelled as insertion sort, which is stable like the engine's sort.
- Inputs taken as given:
  - the result of `computeSourceStatus`, as a status string;
  - `location.pathname`;
  - the `sourcesNew` route path;
  - the result of `isSuperKey`, as the `superKey` field of `Card`;
  - `filterApps`, as a predicate on application types.
- A message is recorded by its title and description (message id, default text and interpolated value), its variant, whether it carries the time-stamped `customId`, and which action link it shows. For links, only the target of the navigation is recorded.
- `AVAILABLE` is defined in `src/views/formatters`, which is not part of this model. It is taken to be the string `"available"`.

## Model

| member | source | states |
|---|---|---|
| `Selection.PrepareSourceTypeSelection` | src/pages/Sources/helpers.js:22-23 | one option per source type, sorted by label, and a permutation of the `{label: product_name, value: id}` options, so every option comes from an entry of the catalog |
| `Selection.PrepareApplicationTypeSelection` | src/pages/Sources/helpers.js:25-26 | the same for application types, labelled with `display_name` |
| `Selection.SortByLabelCorrect` | src/pages/Sources/helpers.js:23 | sorting by label yields a sorted permutation of its input |
| `Selection.InsertByLabelSorted` | src/pages/Sources/helpers.js:23 | inserting one option into a sorted list keeps it sorted |
| `Selection.InsertByLabelPermutes` | src/pages/Sources/helpers.js:23 | inserting one option adds exactly that option |
| `Selection.LexLeTotal` | src/pages/Sources/helpers.js:23 | the label order is total, so any two labels compare |
| `Selection.LexLeTransitive` | src/pages/Sources/helpers.js:23 | the label order is transitive |
| `Chips.SourceTypeName` | src/pages/Sources/helpers.js:42-44 | the chip name of an id is the product name of the first source type with that id, or the id itself when no entry matches |
| `Chips.AppTypeName` | src/pages/Sources/helpers.js:51-53 | the chip name of an id is the display name of the first application type with that id, or the id itself |
| `Chips.SourceTypeChips` | src/pages/Sources/helpers.js:41-45 | one chip per filtered id, in filter order, valued with the id and named from the source-type catalog |
| `Chips.AppTypeChips` | src/pages/Sources/helpers.js:50-54 | one chip per filtered id, in filter order, named from the application-type catalog |
| `Chips.FirstValue` | src/pages/Sources/helpers.js:61 | `filterValue[key][0]`: the first id of an array, or the first character of a string |
| `Chips.ChipsFormatters` | src/pages/Sources/helpers.js:35-75 | `name` gives `{name: value, key}`. The id filters give one chip per id with the catalog name, or a TypeError iff the value is not an array. `availability_status` gives exactly one chip: its value is the first filter value, and its name is "Available" iff that value is `AVAILABLE`, else "Unavailable". Any other key gives `{name: key}` |
| `Chips.PrepareChips` | src/pages/Sources/helpers.js:77-84 | exactly one descriptor per key whose value is present and non-empty, in key order, each the formatter's descriptor for that key. Absent and empty keys produce nothing. The result is a TypeError iff formatting one of those keys throws |
| `Chips.ChipsForCorrect` | src/pages/Sources/helpers.js:78-84 | mapping the formatter over a list of keys gives one descriptor per key, in order, or fails iff one of them fails |
| `Chips.PresentKeysInOrder` | src/pages/Sources/helpers.js:78-84 | the keys that produce chips are an order-preserving subsequence of the filter's keys. They hold every present key exactly as often as the filter does |
| `Chips.FilterState.Set` | src/pages/Sources/helpers.js:99-102 | `{...filterValue, [k]: v}` sets `k` to `v`, leaves every other key's value unchanged, keeps the key order, and appends `k` when it is new |
| `Chips.RemoveChipValue` | src/pages/Sources/helpers.js:101 | filtering out the first chip's value keeps, in order, exactly the other values, each as often as it occurs. It throws iff the stored value is not an array, or the array is non-empty and the group has no chips |
| `Chips.RemoveChips` | src/pages/Sources/helpers.js:86-103 | With `deleteAll`, the result has exactly the input's keys, all undefined, whatever the chips are. Otherwise only `chips[0].key` changes: it loses the chip value if the group has sub-chips and becomes undefined if not. An empty `chips` throws. Every other key is unchanged |
| `Chips.NoChipsAfterDeleteAll` | src/pages/Sources/helpers.js:86-95 | after clearing all filters, `prepareChips` builds no chips |
| `Chips.RemoveOnlyChip` | src/pages/Sources/helpers.js:97-102 | removing the only chip of a one-id filter leaves it empty, so it produces no chip |
| `Chips.LoadedTypes` | src/pages/Sources/helpers.js:105 | the types are returned iff `loaded` holds and they are non-empty; otherwise undefined |
| `Notifier.JoinSplit` | src/pages/Sources/helpers.js:110 | `split('/')` loses nothing: joining its pieces with `/` gives the path back |
| `Notifier.Split` | src/pages/Sources/helpers.js:110 | `split('/')` gives at least one piece and no piece contains a slash |
| `Notifier.CurrentSegment` | src/pages/Sources/helpers.js:110 | the last non-empty path segment: a non-empty, slash-free piece of the path after which every piece is empty. It is undefined iff every piece is empty |
| `Notifier.RouteSegment` | src/pages/Sources/helpers.js:110 | the route's last segment is everything after the route path's last slash: a slash-free suffix that is either the whole path or preceded by a slash |
| `Notifier.UnavailableDescription` | src/pages/Sources/helpers.js:150-157 | the description falls back in order: the first application's error, then the first endpoint's error (empty strings count as missing), then "Unknown error" |
| `Notifier.Notification` | src/pages/Sources/helpers.js:111-229 | a failed submission gives the error message. Otherwise the status picks the message: `unavailable`, `timeout`, or the success message for any other status |
| `Notifier.CheckSubmit` | src/pages/Sources/helpers.js:107-232 | nothing is dispatched iff the last non-empty path segment equals the last segment of the `sourcesNew` route. Otherwise exactly the one notification is dispatched |
| `Notifier.NotificationClassification` | src/pages/Sources/helpers.js:111-229 | the variant is `danger` iff the submission failed or the status is `unavailable`, and `info` iff the status is `timeout`. `info` is exactly the message with no `customId` and no action link. Retry appears iff the submission failed. Edit-source appears iff the status is `unavailable`. View-details appears otherwise, and both navigating links point at the created source |
| `Notifier.NoMessageOnWizardRoute` | src/pages/Sources/helpers.js:110 | on any page path ending in `/` and the wizard route's last segment (for any prefix of either path), nothing is dispatched |
| `ApplicationsCard.Reduce` | src/components/SourceDetail/ApplicationsCard.js:22-31 | `addApp` sets the id to true, `removeApp` to false and `clean` to undefined (idle). Every other entry is unchanged |
| `ApplicationsCard.MarkThenClean` | src/components/SourceDetail/ApplicationsCard.js:25-29 | marking an id and then cleaning it leaves it idle and the rest of the map as it was |
| `ApplicationsCard.FilteredAppTypes` | src/components/SourceDetail/ApplicationsCard.js:55-57 | an order-preserving subsequence of the application types: exactly those that support the source type's name and that `filterApps` keeps. It is empty when the source's type is not in the catalog |
| `ApplicationsCard.ConnectedApp` | src/components/SourceDetail/ApplicationsCard.js:118 | the attached application of a type is the first of the source's applications with that type id. It is undefined iff there is none |
| `ApplicationsCard.IsChecked` | src/components/SourceDetail/ApplicationsCard.js:121-126 | an id in flight shows its pending boolean. Otherwise the switch is on iff an application is attached and not paused |
| `ApplicationsCard.IsDisabled` | src/components/SourceDetail/ApplicationsCard.js:134 | disabled iff the attached application is being deleted or write access is missing |
| `ApplicationsCard.RemoveAppStep` | src/components/SourceDetail/ApplicationsCard.js:72-79 | a no-op while the type is in flight. Otherwise exactly one pause of the attached application, then one reload, then the type is left idle and nothing else changes |
| `ApplicationsCard.SuperKeyAddAppStep` | src/components/SourceDetail/ApplicationsCard.js:81-95 | a no-op while the id is in flight. Otherwise one call then one reload, leaving the id idle. The call is an unpause when an application is attached, and a create with `{source_id, application_type_id: id}` when none is |
| `ApplicationsCard.AddAppStep` | src/components/SourceDetail/ApplicationsCard.js:59-70 | The ordinary `addApp` as written. With no attached application it only navigates: no call and no state change. With one, it gates on the entry of the attached application's id, marks and cleans the type id, and unpauses once |
| `ApplicationsCard.AddAppStepIgnoresInFlightType` | src/components/SourceDetail/ApplicationsCard.js:63-67 | a concrete state: type "7" is in flight, yet the ordinary `addApp("7", "42")` issues an unpause |
| `ApplicationsCard.IntendedAddAppStep` | src/components/SourceDetail/ApplicationsCard.js:59-70 | the ordinary `addApp` with the gate on the type id it marks: a no-op while that id is in flight |
| `ApplicationsCard.SecondToggleMakesNoCall` | src/components/SourceDetail/ApplicationsCard.js:72-95 | While a type is marked in flight, a further `removeApp` makes no remote call. The same holds for the super-key `addApp` and the intended ordinary `addApp` |
| `ApplicationsCard.OneCallThenReload` | src/components/SourceDetail/ApplicationsCard.js:72-95 | every handler that passes its gate makes exactly one remote call. It ends with a reload and leaves the marked type idle |
| `ApplicationsCard.SuperKeyNeverCreatesAttached` | src/components/SourceDetail/ApplicationsCard.js:86-90 | the super-key `addApp` never creates an application that is already attached |
| `ApplicationsCard.Card.constructor` | src/components/SourceDetail/ApplicationsCard.js:18-20 | the card starts with an empty in-flight map and nothing issued |
| `ApplicationsCard.Card.Dispatch` | src/components/SourceDetail/ApplicationsCard.js:53 | `stateDispatch` replaces the map with the reducer's result |
| `ApplicationsCard.Card.RemoveApp` | src/components/SourceDetail/ApplicationsCard.js:72-79 | the step-by-step handler leaves the map and appends to the log exactly what `RemoveAppStep` says |
| `ApplicationsCard.Card.AddAppOrdinary` | src/components/SourceDetail/ApplicationsCard.js:59-70 | the step-by-step handler does exactly what `AddAppStep` says |
| `ApplicationsCard.Card.AddAppSuperKey` | src/components/SourceDetail/ApplicationsCard.js:81-95 | the step-by-step handler does exactly what `SuperKeyAddAppStep` says |
| `ApplicationsCard.Card.AddApp` | src/components/SourceDetail/ApplicationsCard.js:59-96 | `addApp` is the super-key variant iff the source is a super-key source, and the ordinary one otherwise |
| `ApplicationsCard.Card.OnChange` | src/components/SourceDetail/ApplicationsCard.js:135 | Switching off calls `removeApp(connectedApp.id, app.id)`. Switching on calls `addApp(app.id, connectedApp?.id)`. Switching off with no attached application throws and changes nothing |
| `ApplicationsCard.SuperKeyDoubleToggle` | src/components/SourceDetail/ApplicationsCard.js:81-95 | on a super-key card with an attached application, toggling on while a removal of the type is outstanding issues no effect, and the switch stays off |

The four message builders `Notifier.ErrorMessage`, `Notifier.UnavailableMessage`, `Notifier.TimeoutMessage` and `Notifier.SuccessMessage` (src/pages/Sources/helpers.js:111-229) have no contract of their own. Which one is sent is stated by `Notifier.Notification`, and their variants and links by `Notifier.NotificationClassification`. `Notifier.Join` is stated by `Notifier.JoinSplit`.

## Findings

| source | as written | input that shows it | evidently intended | confidence | as-written member | corrected member |
|---|---|---|---|---|---|---|
| src/components/SourceDetail/ApplicationsCard.js:63-67 | The ordinary `addApp` checks `selectedApps[isPaused]`, but `isPaused` holds the attached application's id. It then marks and cleans `selectedApps[id]`, keyed by the application type id, so the gate never looks at the entry it sets. | A removal of type "7" is under way, so `selectedApps` is `{"7": false}` and the switch shows off. Toggling it on calls `addApp("7", "42")`. That issues `unpauseApplication("42")` while the pause is still outstanding. | The gate checks `selectedApps[id]`, as `removeApp` and the super-key `addApp` do. | medium, not executed | `ApplicationsCard.AddAppStep` (with `ApplicationsCard.AddAppStepIgnoresInFlightType`) | `ApplicationsCard.IntendedAddAppStep` |

The card class follows the source, so `Card.AddAppOrdinary` uses the gate as written. The lemmas about the in-flight invariant (`SecondToggleMakesNoCall`, `OneCallThenReload`) are stated for the corrected function.

## Left out

- Rendering is not modelled: JSX, PatternFly components, React hooks, `descriptionMapper` and the permission notice. react-intl formatting is recorded as message id, default text and interpolated value.
- The `onClick` closures of the action links are recorded only as the source id they navigate to. The closures also remove the message.
- The network, the store and the router (`getSourcesApi`, `doCreateApplication`, `loadEntities`, `dispatch`, `push`) are recorded as entries of an effect log.
- Awaits are taken as sequential steps that always succeed. In the source, a rejected call skips the clean step, so the id stays in flight. That outcome is not modelled.
- React closures capture the `selectedApps` of the render they belong to. The model reads the current map.
- Interleaving of two handlers between their awaits is not modelled. An outstanding call is represented by dispatching its mark action (`Card.Dispatch`) before the second handler runs.
- `awesomeDebounce` and `debouncedFiltering` are timer- and promise-based, so they are not modelled.
- `setFilter`, `afterSuccess` and `afterSuccessLoadParameters` are one-line dispatch wrappers and are not modelled.
- `computeSourceStatus`, `isSuperKey`, `filterApps`, `replaceRouteId` and the route table are code outside the two files. Their results are inputs.
- `Date.now()`, used in the message id, becomes the flag `hasCustomId`.
- The global `location` is not modelled; the pathname is an input.
- `localeCompare` collation depends on the locale. It is replaced by lexicographic order on character codes.
- Selection.PrepareSourceTypeSelection: the order of options with equal labels (the sort's stability) is not stated, and neither is it for `Selection.PrepareApplicationTypeSelection`.
- Chips.ChipsFormatters: requires the key's value to be present and non-empty, which its one caller, `prepareChips`, guarantees. Its behaviour on a missing or empty value is not modelled.
- JavaScript object behaviours not modelled:
  - `Object.keys` puts integer-like keys first in ascending order. The model uses insertion order throughout.
  - A filter key that names an `Object.prototype` member, such as `toString`, would be found by the formatter table lookup.
- Filter values other than undefined, a string or an array of strings are not modelled.
- Catalog ids are compared as strings.
- A `createdSource` that is missing when the submission did not fail is not modelled. The source would throw on reading its name.
