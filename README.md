# Activity-log update task list, modelled in Dafny

This project models the bulk-update task list on the activity-log stats page. It covers three pieces:

- **The update queue and dismissal controller** (`ActivityLogTasklist`). The component keeps two lists in its state: `queued`, the items waiting to be updated, and `dismissed`, the slugs hidden from the list.
  - Items are added with lodash `union`.
  - The head item is started only when no plugin reports `inProgress`.
  - The component reacts to plugin status changes. A new `error` status fires an error notice whose "Try again" action enqueues the plugin again, then dequeues. A new `completed` status fires a success notice, then dismisses the slug and dequeues.
  - `render` computes the list of items it presents.
- **The `WithItemsToUpdate` wrapper.** It accumulates the plugins that have updates with `unionBy(next, prev, 'slug')`. It rewrites each store plugin in place, setting its version to the new version and its type to `plugin`. It serves a fixed list of two themes.
- **The ESLint aggregate formatter.** It counts the messages per rule id in a `Map` and counts all messages in a running total. It then sorts the `[rule, count]` pairs by count, largest first, and breaks ties by rule id.

Modules, one file each:

- `Wrappers`: `Option`.
- `Lists`: lodash `uniqBy`, `union`, `unionBy`.
- `UpdateItems`: the plugin or theme record and the status constants.
- `ToUpdate`: the wrapper.
- `Tasklist`: the component.
- `EslintAggregate`: the formatter.

How the component is modelled:

- Each operation is specified by a function on a `State` value. The value holds `queued`, `dismissed` and a ghost log of the effects fired: updater calls and notices.
- The class `Tasklist.ActivityLogTasklist` holds those fields. Each of its methods is proved to land on the matching function of its old state.
- The lemmas beside the functions state what each operation promises.
- `setState(update, callback)` is read as "apply the update, then run the callback".
- The props the component reads (`pluginsWithUpdate`, each plugin with its current `updateStatus`) are parameters of each method.
- An `updateStatus` of `false` is `None`. Otherwise it is `Some(status)`.
- Calling `dismiss` with a non-string (the click event of "Dismiss all") is `None`.

The formatter is imperative:

- Nested loops fill a `map<string, nat>`. A sequence `order` stands for the `Map`'s insertion order.
- The pairs are sorted in place in an `array`.
- The result is proved equal, as a multiset, to `Tally`: one pair per rule id, holding its number of occurrences.

Some behaviours of the code are easy to miss. The model follows the code:

- Dismissing an item does not remove it from `queued`. Dismissal only changes `dismissed`.
- "Update all" queues `pluginsWithUpdate` only, never themes.
- A completed plugin leaves the queue only if it was the head: both status reactions drop whatever is at the head.
- `enqueue` accepts an item that has already completed or is being updated; nothing checks its status. While no plugin is in progress, enqueueing an item that is already queued starts the head again (`Tasklist.EnqueueQueuedRestartsHead`).
- A theme at the head is started again by every `continueQueue`, because its status is never `inProgress` among the plugins. It leaves the queue only when some plugin's status changes, because `componentDidUpdate` walks `pluginsWithUpdate` alone.
- As written, `render` hides no dismissed item unless a slug is a string of digits (see "## Findings"). `Tasklist.ActivityLogTasklist.VisibleItems` presents what the code presents; `Tasklist.ItemsToUpdate` is the corrected list.

## Model

| member | source | states |
|---|---|---|
| Lists.UniqBy | client/my-sites/stats/activity-log-tasklist/to-update.jsx:55 | `unionBy`'s deduplication keeps no two elements with the same key. It invents no element and loses no key: a key occurs in the result iff it occurs in the input. |
| Lists.Union | client/my-sites/stats/activity-log-tasklist/index.jsx:112 | `union(a, b)` holds exactly the values that are in `a` or in `b`, each once. |
| Lists.UniqByAppend | client/my-sites/stats/activity-log-tasklist/to-update.jsx:55 | Deduplicating `a + b` gives the deduplicated `a`, then the deduplicated elements of `b` whose key `a` lacks. The first occurrence wins. |
| Lists.UnionExtends | client/my-sites/stats/activity-log-tasklist/index.jsx:186 | `union(a, b)` of a duplicate-free `a` is `a` unchanged, followed by the new values of `b` in input order, each once. |
| Lists.UnionSingle | client/my-sites/stats/activity-log-tasklist/index.jsx:160 | `union(a, [x])` is `a` when `x` is already in it, else `a + [x]`. |
| ToUpdate.GetThemesWithUpdates | client/my-sites/stats/activity-log-tasklist/to-update.jsx:17-30 | Always the same two themes. Both have type `theme` and no status, and their slugs differ. |
| ToUpdate.MapUpdateNewVersionToVersion | client/my-sites/stats/activity-log-tasklist/to-update.jsx:32-36 | Mutates the plugin it is given and returns that same object. `version` becomes the old `update.new_version` and `type` becomes `plugin`; the other fields keep their values. The record the task list then receives is a plugin carrying the new version. |
| ToUpdate.GetDerivedStateFromProps | client/my-sites/stats/activity-log-tasklist/to-update.jsx:53-57 | The accumulated list has no two plugins with one slug, and each of its plugins comes from the new props or the previous state. |
| ToUpdate.DerivedStateKeepsPrevious | client/my-sites/stats/activity-log-tasklist/to-update.jsx:49-55 | A slug is in the accumulated list iff it is in the new props or in the previous state, so no plugin is ever lost. |
| ToUpdate.DerivedStateNextWins | client/my-sites/stats/activity-log-tasklist/to-update.jsx:55 | When the new props hold a slug, the entry kept for it comes from the new props. |
| ToUpdate.DerivedStateOrder | client/my-sites/stats/activity-log-tasklist/to-update.jsx:55 | For slug-unique inputs, the result is the new props in their order, then the previously held plugins whose slug the new props lack, in their prior order. |
| Tasklist.SomeInProgress | client/my-sites/stats/activity-log-tasklist/index.jsx:38 | `some` is true iff some element is `inProgress`. |
| Tasklist.IsPluginUpdating | client/my-sites/stats/activity-log-tasklist/index.jsx:37-38 | True iff some plugin of the list is `inProgress`. A single plugin counts as a one-element list. |
| Tasklist.FindBySlug | client/my-sites/stats/activity-log-tasklist/index.jsx:261 | `find(list, { slug })` returns nothing iff no element has the slug. Otherwise it returns the first element with that slug. |
| Tasklist.IsItemEnqueued | client/my-sites/stats/activity-log-tasklist/index.jsx:48 | True iff some queued item has the slug. |
| Tasklist.UpdateItemDispatch | client/my-sites/stats/activity-log-tasklist/index.jsx:202-228 | `updateItem` calls the plugin updater iff the type is `plugin` and the theme updater otherwise. Either way it starts exactly that item and shows exactly one info notice, whose id is the item's slug. |
| Tasklist.ContinueQueueStartsHeadWhenIdle | client/my-sites/stats/activity-log-tasklist/index.jsx:137-144 | `continueQueue` starts `queued[0]` iff the queue is non-empty and no plugin is in progress. Otherwise it does nothing. It never changes `queued` or `dismissed`. |
| Tasklist.EnqueueAppendsOnce | client/my-sites/stats/activity-log-tasklist/index.jsx:152-164 | `enqueue(p)` leaves the queue as it is when `p` is queued, else appends `p` at the tail. It then starts the head when nothing is updating. `dismissed` is unchanged and both lists stay duplicate-free. |
| Tasklist.EnqueueQueuedRestartsHead | client/my-sites/stats/activity-log-tasklist/index.jsx:152-164 | Enqueueing an already queued item while nothing is updating leaves the queue as it is and starts its head once more. |
| Tasklist.EnqueueTwiceQueuesOnce | client/my-sites/stats/activity-log-tasklist/index.jsx:160 | Enqueueing the same item twice queues it as once. |
| Tasklist.DequeueDropsHead | client/my-sites/stats/activity-log-tasklist/index.jsx:171-177 | `dequeue` removes exactly the head and keeps the rest in order. It changes nothing on an empty queue. It then starts the new head when one is left and nothing is updating. |
| Tasklist.DequeuedEffects | client/my-sites/stats/activity-log-tasklist/index.jsx:171-177 | `dequeue` equals dropping the head, then firing the start effects of `queued[1]` when it exists and nothing is updating. |
| Tasklist.UpdateAllAppendsNew | client/my-sites/stats/activity-log-tasklist/index.jsx:182-190 | `updateAll` keeps the queued items in place and appends, in input order, each plugin not yet queued, once. Every plugin ends up queued. The head then starts when nothing is updating. |
| Tasklist.DismissGrows | client/my-sites/stats/activity-log-tasklist/index.jsx:98-114 | A string adds only that slug; anything else adds every plugin's slug. What was dismissed stays, in place, and the result has no duplicates. The queue and the effects are untouched. |
| Tasklist.StatusReaction | client/my-sites/stats/activity-log-tasklist/index.jsx:259-308 | The component reports an error iff the previous entry had a status other than `error` and the plugin's status is now `error`. It reports success iff the same holds for `completed`. |
| Tasklist.SkippedTransition | client/my-sites/stats/activity-log-tasklist/index.jsx:263-273 | A plugin with no previous entry, no previous status, an unchanged status, or an `inProgress` status leaves the state unchanged. |
| Tasklist.ErrorTransition | client/my-sites/stats/activity-log-tasklist/index.jsx:283-296 | A new `error` status fires one error notice, then drops the head of the queue, whichever item it is, and starts the next. `dismissed` is unchanged. |
| Tasklist.ErrorRetryRequeues | client/my-sites/stats/activity-log-tasklist/index.jsx:285-295 | The "Try again" action of that error notice puts the failed plugin back on the queue. |
| Tasklist.SuccessTransition | client/my-sites/stats/activity-log-tasklist/index.jsx:297-307 | A new `completed` status fires one success notice and adds the slug to `dismissed` once. It then drops the head of the queue and starts the next. |
| Tasklist.ReactConsistent | client/my-sites/stats/activity-log-tasklist/index.jsx:283-307 | One status reaction keeps both lists duplicate-free and never un-dismisses a slug. |
| Tasklist.ReactAllConsistent | client/my-sites/stats/activity-log-tasklist/index.jsx:259-309 | Reacting to every plugin in turn keeps both lists duplicate-free and never un-dismisses a slug. |
| Tasklist.ReactAllKeepsDismissed | client/my-sites/stats/activity-log-tasklist/index.jsx:259-309 | What is dismissed after the first `n` plugins stays dismissed after all of them. |
| Tasklist.DidUpdateDismissesCompleted | client/my-sites/stats/activity-log-tasklist/index.jsx:246-310 | After `componentDidUpdate`, the slug of every plugin whose status changed to `completed` is dismissed. |
| Tasklist.ItemsToUpdateAsWritten | client/my-sites/stats/activity-log-tasklist/index.jsx:313-316 | As written, an item is presented iff it sits in the plugins or the themes at an index whose decimal string is not a dismissed slug. Each item appears once. |
| Tasklist.OmitKeepsAllWithoutIndexKeys | client/my-sites/stats/activity-log-tasklist/index.jsx:314-315 | `omit` on an array drops nothing while no dismissed slug is a string of digits, because its keys are the indices. |
| Tasklist.DismissedItemStillListed | client/my-sites/stats/activity-log-tasklist/index.jsx:313-316 | As written, a dismissed plugin is still presented when no dismissed slug is a digit string. |
| Tasklist.ItemsToUpdate | client/my-sites/stats/activity-log-tasklist/index.jsx:313-316 | As intended, an item is presented iff it is a plugin or theme whose slug is not dismissed. Each item appears once. |
| Tasklist.CompletedPluginHidden | client/my-sites/stats/activity-log-tasklist/index.jsx:365-367 | As intended, after a plugin's status turns `completed`, the corrected list presents no item with its slug. |
| Tasklist.ActivityLogTasklist.constructor | client/my-sites/stats/activity-log-tasklist/index.jsx:86-89 | The component starts with both lists empty and no effects. |
| Tasklist.OmitByIndexKey | client/my-sites/stats/activity-log-tasklist/index.jsx:314-315 | `omit` on an array keeps every element whose index string is not among the keys, and each element it keeps sits at such an index. |
| Tasklist.ActivityLogTasklist.VisibleItems | client/my-sites/stats/activity-log-tasklist/index.jsx:313-316 | The items `render` presents for the current `dismissed`, as written: exactly those at an index whose decimal string is not a dismissed slug. |
| Tasklist.ActivityLogTasklist.Dismiss | client/my-sites/stats/activity-log-tasklist/index.jsx:98-114 | Updates `dismissed` in place to `Dismissed` of the old state, keeping the lists duplicate-free. |
| Tasklist.ActivityLogTasklist.UpdateItem | client/my-sites/stats/activity-log-tasklist/index.jsx:202-228 | Appends to the log the updater call for the item's type and one info notice. |
| Tasklist.ActivityLogTasklist.ContinueQueue | client/my-sites/stats/activity-log-tasklist/index.jsx:137-144 | Changes only the log, to `Continued` of the old state. |
| Tasklist.ActivityLogTasklist.Enqueue | client/my-sites/stats/activity-log-tasklist/index.jsx:152-164 | The new state is `Enqueued` of the old one. |
| Tasklist.ActivityLogTasklist.Dequeue | client/my-sites/stats/activity-log-tasklist/index.jsx:171-177 | The new state is `Dequeued` of the old one. |
| Tasklist.ActivityLogTasklist.UpdateAll | client/my-sites/stats/activity-log-tasklist/index.jsx:182-190 | The new state is `UpdatedAll` of the old one. |
| Tasklist.ActivityLogTasklist.ReactTo | client/my-sites/stats/activity-log-tasklist/index.jsx:259-309 | The loop body for one plugin: the new state is `React` of the old one. |
| Tasklist.ActivityLogTasklist.ComponentDidUpdate | client/my-sites/stats/activity-log-tasklist/index.jsx:246-310 | Returns at once for an empty plugin list. Otherwise it reacts to each plugin in order, landing on `DidUpdate` of the old state. |
| EslintAggregate.OccurrencesPositive | bin/eslint-aggregate-formatter.js:9 | A rule's count is positive iff some message carries that rule id. |
| EslintAggregate.TallySum | bin/eslint-aggregate-formatter.js:6-13 | The per-rule counts add up to the number of messages. |
| EslintAggregate.TallyEntries | bin/eslint-aggregate-formatter.js:9-15 | `Array.from` of the filled `Map` has one pair per rule id that occurs and no rule twice. Each pair holds its rule's number of occurrences, at least 1. |
| EslintAggregate.LocaleCompare | bin/eslint-aggregate-formatter.js:21 | The result is -1, 0 or 1. |
| EslintAggregate.LocaleCompareAntisymmetric | bin/eslint-aggregate-formatter.js:21 | Swapping the operands negates the result, and it is 0 only on equal strings. |
| EslintAggregate.LocaleCompareTransitive | bin/eslint-aggregate-formatter.js:21 | The string order is transitive. |
| EslintAggregate.CompareTotal | bin/eslint-aggregate-formatter.js:16-22 | The comparator orders any two pairs, and orders two pairs both ways only when they are equal. |
| EslintAggregate.CompareTransitive | bin/eslint-aggregate-formatter.js:16-22 | The comparator is transitive. |
| EslintAggregate.Swap | bin/eslint-aggregate-formatter.js:16 | Exchanges two entries of the array and keeps its multiset. |
| EslintAggregate.InsertLast | bin/eslint-aggregate-formatter.js:16-22 | Inserts `a[i]` into the sorted prefix, extending it by one. It keeps the multiset and leaves the entries after `i` alone. |
| EslintAggregate.SortPairs | bin/eslint-aggregate-formatter.js:16-22 | Sorts the array in place into comparator order, as a permutation of its entries. |
| EslintAggregate.SumCountsPermutation | bin/eslint-aggregate-formatter.js:15-22 | Reordering the pairs does not change the sum of their counts. |
| EslintAggregate.PermutationOfTallyDistinct | bin/eslint-aggregate-formatter.js:15-22 | A reordering of the pairs still has no rule id twice. |
| EslintAggregate.SortedPermutationUnique | bin/eslint-aggregate-formatter.js:16-22 | Two comparator-sorted arrangements of the same pairs are equal, so the engine's sorting algorithm cannot change the result. |
| EslintAggregate.CountedStep | bin/eslint-aggregate-formatter.js:9-10 | Counting one more message keeps the invariant. The total is the number of messages so far. The `Map`'s keys in insertion order are the distinct rule ids in first-occurrence order, and each maps to its number of occurrences. |
| EslintAggregate.CountMessage | bin/eslint-aggregate-formatter.js:8-11 | One message: `set(ruleId, 1 + (get(ruleId) \|\| 0))` and `totalErrors++` keep that invariant over the messages seen plus this one. |
| EslintAggregate.CountMessages | bin/eslint-aggregate-formatter.js:8-11 | The inner loop over one result's messages keeps the invariant, extended by those messages' rule ids. |
| EslintAggregate.CountPerRule | bin/eslint-aggregate-formatter.js:6-13 | After the outer loop over all results, the invariant holds for all messages. |
| EslintAggregate.PermutationOfTallyEntries | bin/eslint-aggregate-formatter.js:15 | Any reordering of the pairs holds each occurring rule id with its count, at least 1. |
| EslintAggregate.SortedDistinctOrder | bin/eslint-aggregate-formatter.js:16-21 | In comparator order with distinct rule ids, counts never increase, and equal counts come in ascending rule-id order. |
| EslintAggregate.SortedTallyFacts | bin/eslint-aggregate-formatter.js:15-22 | The sorted pairs hold one pair per occurring rule id, each with its count of at least 1. The counts sum to the number of messages, never increase, and equal counts come by rule id. |
| EslintAggregate.AggregateFormatter | bin/eslint-aggregate-formatter.js:5-29 | `totalErrors` is the number of messages. The pairs are a permutation of the tally and in comparator order. The counts sum to the total. One pair per rule id, each counting its occurrences (at least 1). Counts are non-increasing, with ties in ascending rule-id order. |

## Left out

- Rendering is not modelled: JSX markup, class names, the heading's plural text, the "Update all" and "Dismiss all" buttons, `translate`, the `PluginNotices` message texts, `TrackComponentView` and every `track*` analytics call. It is presentation and tracking. Only the list of presented items is modelled.
- `enqueue`'s `from` argument is not modelled. It only chooses which analytics event to record.
- The `componentDidMount` navigation guard (`page.exit`, `window.confirm`, `setTimeout`) is not modelled. It is router and browser I/O.
- `goManagePlugins` and `goToPage` are not modelled. They are navigation only.
- The theme update request (`updateTheme`), `mapStateToProps`, `mapDispatchToProps`, `makePluginsList`, `getStatusForPlugin` and `getPluginsWithUpdates` are store and network layers. The plugins with their current statuses are parameters instead.
- Notices and updater calls are recorded as entries of a ghost log, not performed.
- React's batching of `setState` is not modelled. Updates apply one after another, so several dequeues in one `componentDidUpdate` each see the previous one's result.
- Lists.Union: `union` compares plugin objects by identity; the model compares records by value. Two distinct objects with the same fields count as one here.
- Tasklist.OmitByIndexKey: lodash `omit` treats a key containing `.` or `[` as a deep path. Slugs are taken as plain keys.
- Tasklist.StatusReaction: only `updateStatus.status` is modelled. The rest of the status object (the error passed to the notice) is not.
- EslintAggregate.LocaleCompare: plain lexicographic order on characters, not the locale's collation.
- EslintAggregate.SortPairs: `Array.prototype.sort`'s algorithm is not specified. Insertion sort stands for it, and `EslintAggregate.SortedPermutationUnique` shows that every correct sort gives the same array here.
- A message's `ruleId` is always a string. ESLint's `null` rule id for fatal parse errors is not modelled.
- The `console.log` output of the pairs and the total is left out. The method returns them.

## Findings

| source | as written | input that shows it | evidently intended | confidence | as-written member | corrected member |
|---|---|---|---|---|---|---|
| client/my-sites/stats/activity-log-tasklist/index.jsx:313-316 | `omit` is given the plugin and theme arrays and the dismissed slugs. An array's keys are its index strings, so an element is dropped only when a dismissed slug equals its index. | Take `pluginsWithUpdate = [p]` with `p.slug = "hello-dolly"` and `dismissed = ["hello-dolly"]`. As written, `p` is still presented. | The comment at index.jsx:365-366 says a successfully updated plugin is hidden, so dismissed slugs should hide their items. | not executed | Tasklist.DismissedItemStillListed | Tasklist.ItemsToUpdate |
