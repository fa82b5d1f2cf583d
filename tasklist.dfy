/**
 * The activity-log task list (`ActivityLogTasklist`): a single-consumer
 * update queue that starts its head item only when no plugin is updating,
 * a list of dismissed slugs, and a status-transition rule run whenever the
 * store's plugin statuses change.
 *
 * The pure rules are functions over a `State` value (the component's two
 * state lists plus a log of the effects it has fired); the component itself
 * is the class `ActivityLogTasklist` at the end, whose methods change its
 * fields step by step and are proved to land on those functions.
 */
module Tasklist {
  import opened Wrappers
  import opened Lists
  import opened UpdateItems

  // ---------------------------------------------------------------------
  // Queries
  // ---------------------------------------------------------------------

  /** What `isPluginUpdating` accepts: a list, or one plugin it wraps in a list. */
  datatype PluginArg = Single(plugin: Item) | Many(plugins: seq<Item>)

  function AsList(s: PluginArg): seq<Item> {
    match s
    case Single(p) => [p]
    case Many(ps) => ps
  }

  /** `'inProgress' === get(p, 'updateStatus.status')`. */
  predicate InProgress(p: Item) {
    p.updateStatus == Some(IN_PROGRESS)
  }

  /** `Array.prototype.some` with the in-progress test, scanning from the front. */
  function SomeInProgress(ps: seq<Item>): (r: bool)
    ensures r <==> exists i :: 0 <= i < |ps| && InProgress(ps[i])
  {
    if ps == [] then false
    else
      assert forall i :: 0 < i < |ps| ==> ps[i] == ps[1..][i - 1];
      InProgress(ps[0]) || SomeInProgress(ps[1..])
  }

  /** `isPluginUpdating`: some plugin of the argument is in progress. */
  function IsPluginUpdating(s: PluginArg): (r: bool)
    ensures r <==> exists p :: p in AsList(s) && InProgress(p)
    ensures s.Single? ==> (r <==> InProgress(s.plugin))
  {
    SomeInProgress(AsList(s))
  }

  /** lodash `find(list, { slug })`: the first element carrying that slug. */
  function FindBySlug(list: seq<Item>, slug: string): (r: Option<Item>)
    ensures r.None? <==> !HasKey(list, SlugOf, slug)
    ensures r.Some? ==> exists i :: 0 <= i < |list| && list[i] == r.value && r.value.slug == slug
                                    && forall j :: 0 <= j < i ==> list[j].slug != slug
  {
    if list == [] then None
    else if list[0].slug == slug then Some(list[0])
    else
      var r := FindBySlug(list[1..], slug);
      assert forall i :: 0 < i < |list| ==> list[i] == list[1..][i - 1];
      assert HasKey(list, SlugOf, slug) ==> HasKey(list[1..], SlugOf, slug) by {
        if HasKey(list, SlugOf, slug) {
          var i :| 0 <= i < |list| && SlugOf(list[i]) == slug;
          assert SlugOf(list[1..][i - 1]) == slug;
        }
      }
      r
  }

  /** `isItemEnqueued`: some queued item has the slug. */
  function IsItemEnqueued(slug: string, queued: seq<Item>): (r: bool)
    ensures r <==> exists i :: 0 <= i < |queued| && queued[i].slug == slug
  {
    FindBySlug(queued, slug).Some?
  }

  /** `pluginsWithUpdate.map(p => p.slug)`. */
  function Slugs(plugins: seq<Item>): (r: seq<string>)
    ensures |r| == |plugins|
    ensures forall i :: 0 <= i < |plugins| ==> r[i] == plugins[i].slug
  {
    seq(|plugins|, i requires 0 <= i < |plugins| => plugins[i].slug)
  }

  // ---------------------------------------------------------------------
  // Effects and state
  // ---------------------------------------------------------------------

  /** What the component asks of the world; the log records them in order. */
  datatype Effect =
    | UpdatePlugin(item: Item)              // `updateSinglePlugin(item)`
    | UpdateTheme(item: Item)               // `updateSingleTheme(item)`
    | InfoNotice(id: string)                // "updating" notice
    | ErrorNotice(id: string, retry: Item)  // "update failed", "Try again" enqueues `retry`
    | SuccessNotice(id: string)             // "updated" notice

  /** The component's state lists, and the effects fired so far. */
  datatype State = State(queued: seq<Item>, dismissed: seq<string>, log: seq<Effect>)

  /** Both lists are built only by `union` and `slice`, so neither holds a value twice. */
  ghost predicate Consistent(st: State) {
    DistinctKeys(st.queued, Id) && DistinctKeys(st.dismissed, Id)
  }

  /** The items whose update was started, in order. */
  ghost function Started(log: seq<Effect>): seq<Item> {
    if log == [] then []
    else
      var rest := Started(log[..|log| - 1]);
      match log[|log| - 1]
      case UpdatePlugin(item) => rest + [item]
      case UpdateTheme(item) => rest + [item]
      case _ => rest
  }

  /** The ids of the info notices shown, in order. */
  ghost function InfoNoticeIds(log: seq<Effect>): seq<string> {
    if log == [] then []
    else
      var rest := InfoNoticeIds(log[..|log| - 1]);
      match log[|log| - 1]
      case InfoNotice(id) => rest + [id]
      case _ => rest
  }

  lemma {:induction false} StartedAppend(a: seq<Effect>, b: seq<Effect>)
    ensures Started(a + b) == Started(a) + Started(b)
    ensures InfoNoticeIds(a + b) == InfoNoticeIds(a) + InfoNoticeIds(b)
  {
    StartedConcat(a, b);
    InfoNoticeIdsConcat(a, b);
  }

  lemma {:induction false} StartedConcat(a: seq<Effect>, b: seq<Effect>)
    ensures Started(a + b) == Started(a) + Started(b)
    decreases |b|
  {
    if b == [] {
      assert a + b == a;
    } else {
      StartedConcat(a, b[..|b| - 1]);
      assert (a + b)[..|a + b| - 1] == a + b[..|b| - 1];
    }
  }

  lemma {:induction false} InfoNoticeIdsConcat(a: seq<Effect>, b: seq<Effect>)
    ensures InfoNoticeIds(a + b) == InfoNoticeIds(a) + InfoNoticeIds(b)
    decreases |b|
  {
    if b == [] {
      assert a + b == a;
    } else {
      InfoNoticeIdsConcat(a, b[..|b| - 1]);
      assert (a + b)[..|a + b| - 1] == a + b[..|b| - 1];
    }
  }

  // ---------------------------------------------------------------------
  // Queue operations, as functions of the state
  // ---------------------------------------------------------------------

  /** `updateItem`: the updater for the item's type, then one info notice keyed by its slug. */
  function UpdateItemEffects(item: Item): seq<Effect> {
    [if PLUGIN == item.kind then UpdatePlugin(item) else UpdateTheme(item), InfoNotice(item.slug)]
  }

  /** `continueQueue`: start the head item when there is one and no plugin is updating. */
  function Continued(st: State, pluginsWithUpdate: seq<Item>): State {
    if 0 < |st.queued| && !IsPluginUpdating(Many(pluginsWithUpdate))
    then st.(log := st.log + UpdateItemEffects(st.queued[0]))
    else st
  }

  /** `queued.slice(1)`. */
  function DropHead(queued: seq<Item>): seq<Item> {
    if queued == [] then [] else queued[1..]
  }

  /** `enqueue`: `union(queued, [plugin])`, then `continueQueue`. */
  function Enqueued(st: State, plugin: Item, pluginsWithUpdate: seq<Item>): State {
    Continued(st.(queued := Union(st.queued, [plugin])), pluginsWithUpdate)
  }

  /** `dequeue`: drop the head, then `continueQueue`. */
  function Dequeued(st: State, pluginsWithUpdate: seq<Item>): State {
    Continued(st.(queued := DropHead(st.queued)), pluginsWithUpdate)
  }

  /** `updateAll`: `union(queued, pluginsWithUpdate)`, then `continueQueue`. */
  function UpdatedAll(st: State, pluginsWithUpdate: seq<Item>): State {
    Continued(st.(queued := Union(st.queued, pluginsWithUpdate)), pluginsWithUpdate)
  }

  /** The slugs `dismiss` adds: the one it is given, or, given no string, every plugin's. */
  function DismissTargets(slug: Option<string>, pluginsWithUpdate: seq<Item>): seq<string> {
    if slug.Some? then [slug.value] else Slugs(pluginsWithUpdate)
  }

  /** `dismiss`: `union(dismissed, slugs)`. */
  function Dismissed(st: State, slug: Option<string>, pluginsWithUpdate: seq<Item>): State {
    st.(dismissed := Union(st.dismissed, DismissTargets(slug, pluginsWithUpdate)))
  }

  // ---------------------------------------------------------------------
  // The status-transition rule of componentDidUpdate
  // ---------------------------------------------------------------------

  datatype Reaction = Ignore | ReportError | ReportSuccess

  /**
   * What `componentDidUpdate` does for one plugin, given the entry with its
   * slug in the previous props: nothing when that entry is missing or had no
   * status, when the status did not change or the plugin is in progress;
   * otherwise it reacts to a new `error` or `completed` status.
   */
  function StatusReaction(prev: Option<Item>, plugin: Item): (r: Reaction)
    ensures r == ReportError <==>
              prev.Some? && prev.value.updateStatus.Some? &&
              prev.value.updateStatus != Some(ERROR) && plugin.updateStatus == Some(ERROR)
    ensures r == ReportSuccess <==>
              prev.Some? && prev.value.updateStatus.Some? &&
              prev.value.updateStatus != Some(COMPLETED) && plugin.updateStatus == Some(COMPLETED)
  {
    if prev.None? || prev.value.updateStatus.None? then Ignore
    else if prev.value.updateStatus == plugin.updateStatus || IsPluginUpdating(Single(plugin)) then Ignore
    else if plugin.updateStatus == Some(ERROR) then ReportError
    else if plugin.updateStatus == Some(COMPLETED) then ReportSuccess
    else Ignore
  }

  /** The effect of the rule for one plugin on the state. */
  function React(st: State, plugin: Item, prevPlugins: seq<Item>, pluginsWithUpdate: seq<Item>): State {
    match StatusReaction(FindBySlug(prevPlugins, plugin.slug), plugin)
    case Ignore => st
    case ReportError =>
      Dequeued(st.(log := st.log + [ErrorNotice(plugin.slug, plugin)]), pluginsWithUpdate)
    case ReportSuccess =>
      Dequeued(Dismissed(st.(log := st.log + [SuccessNotice(plugin.slug)]), Some(plugin.slug), pluginsWithUpdate),
               pluginsWithUpdate)
  }

  /** The rule applied to each plugin of `todo` in turn. */
  function ReactAll(st: State, todo: seq<Item>, prevPlugins: seq<Item>, pluginsWithUpdate: seq<Item>): State
    decreases |todo|
  {
    if todo == [] then st
    else React(ReactAll(st, todo[..|todo| - 1], prevPlugins, pluginsWithUpdate), todo[|todo| - 1],
               prevPlugins, pluginsWithUpdate)
  }

  /** `componentDidUpdate`: nothing for an empty plugin list, else the rule for each plugin. */
  function DidUpdate(st: State, prevPlugins: seq<Item>, pluginsWithUpdate: seq<Item>): State {
    if |pluginsWithUpdate| == 0 then st else ReactAll(st, pluginsWithUpdate, prevPlugins, pluginsWithUpdate)
  }

  // ---------------------------------------------------------------------
  // Properties of the queue operations
  // ---------------------------------------------------------------------

  /** `updateItem` starts the plugin updater exactly for plugins and shows one info notice. */
  lemma UpdateItemDispatch(item: Item)
    ensures Started(UpdateItemEffects(item)) == [item]
    ensures InfoNoticeIds(UpdateItemEffects(item)) == [item.slug]
    ensures UpdatePlugin(item) in UpdateItemEffects(item) <==> item.kind == PLUGIN
    ensures UpdateTheme(item) in UpdateItemEffects(item) <==> item.kind != PLUGIN
  {
    var e := UpdateItemEffects(item);
    var first := e[..1];
    assert first[..|first| - 1] == [];
    assert Started(first) == [item] && InfoNoticeIds(first) == [];
    assert e[..|e| - 1] == first;
  }

  /**
   * `continueQueue` starts the head item exactly when the queue is non-empty
   * and no plugin is in progress, and never removes it.
   */
  lemma ContinueQueueStartsHeadWhenIdle(st: State, pluginsWithUpdate: seq<Item>)
    ensures Continued(st, pluginsWithUpdate).queued == st.queued
    ensures Continued(st, pluginsWithUpdate).dismissed == st.dismissed
    ensures Started(Continued(st, pluginsWithUpdate).log)
            == Started(st.log) + (if 0 < |st.queued| && !IsPluginUpdating(Many(pluginsWithUpdate)) then [st.queued[0]] else [])
    ensures !(0 < |st.queued| && !IsPluginUpdating(Many(pluginsWithUpdate))) ==> Continued(st, pluginsWithUpdate).log == st.log
  {
    if 0 < |st.queued| && !IsPluginUpdating(Many(pluginsWithUpdate)) {
      StartedAppend(st.log, UpdateItemEffects(st.queued[0]));
      UpdateItemDispatch(st.queued[0]);
    }
  }

  lemma DropHeadDistinct(queued: seq<Item>)
    requires DistinctKeys(queued, Id)
    ensures DistinctKeys(DropHead(queued), Id)
  {
    if queued != [] {
      forall i, j | 0 <= i < j < |queued| - 1
        ensures Id(queued[1..][i]) != Id(queued[1..][j])
      {
        assert Id(queued[i + 1]) != Id(queued[j + 1]);
      }
    }
  }

  /**
   * `enqueue` appends an item not yet queued at the tail and leaves a queued
   * one where it is; then the head starts if nothing is updating.
   */
  lemma EnqueueAppendsOnce(st: State, plugin: Item, pluginsWithUpdate: seq<Item>)
    requires Consistent(st)
    ensures Enqueued(st, plugin, pluginsWithUpdate).queued
            == if plugin in st.queued then st.queued else st.queued + [plugin]
    ensures Enqueued(st, plugin, pluginsWithUpdate).dismissed == st.dismissed
    ensures Started(Enqueued(st, plugin, pluginsWithUpdate).log)
            == Started(st.log) + (if !IsPluginUpdating(Many(pluginsWithUpdate)) then [Enqueued(st, plugin, pluginsWithUpdate).queued[0]] else [])
    ensures Consistent(Enqueued(st, plugin, pluginsWithUpdate))
  {
    UnionSingle(st.queued, plugin);
    ContinueQueueStartsHeadWhenIdle(st.(queued := Union(st.queued, [plugin])), pluginsWithUpdate);
  }

  /**
   * Nothing guards `enqueue` against an item already queued or being
   * updated: while no plugin is in progress, enqueueing a queued item
   * leaves the queue as it is but starts its head once more.
   */
  lemma EnqueueQueuedRestartsHead(st: State, plugin: Item, pluginsWithUpdate: seq<Item>)
    requires Consistent(st)
    requires plugin in st.queued && !IsPluginUpdating(Many(pluginsWithUpdate))
    ensures Enqueued(st, plugin, pluginsWithUpdate).queued == st.queued
    ensures Started(Enqueued(st, plugin, pluginsWithUpdate).log) == Started(st.log) + [st.queued[0]]
  {
    EnqueueAppendsOnce(st, plugin, pluginsWithUpdate);
  }

  /** Enqueueing the same item twice in a row leaves the queue as enqueueing it once. */
  lemma EnqueueTwiceQueuesOnce(st: State, plugin: Item, pluginsWithUpdate: seq<Item>)
    requires Consistent(st)
    ensures Enqueued(Enqueued(st, plugin, pluginsWithUpdate), plugin, pluginsWithUpdate).queued
            == Enqueued(st, plugin, pluginsWithUpdate).queued
  {
    EnqueueAppendsOnce(st, plugin, pluginsWithUpdate);
    EnqueueAppendsOnce(Enqueued(st, plugin, pluginsWithUpdate), plugin, pluginsWithUpdate);
  }

  /**
   * `dequeue` removes exactly the head (nothing on an empty queue), keeps
   * the rest in order, and starts the new head if nothing is updating.
   */
  lemma DequeueDropsHead(st: State, pluginsWithUpdate: seq<Item>)
    requires Consistent(st)
    ensures 0 < |st.queued| ==> Dequeued(st, pluginsWithUpdate).queued == st.queued[1..]
    ensures st.queued == [] ==> Dequeued(st, pluginsWithUpdate) == st
    ensures Dequeued(st, pluginsWithUpdate).dismissed == st.dismissed
    ensures Started(Dequeued(st, pluginsWithUpdate).log)
            == Started(st.log) + (if 1 < |st.queued| && !IsPluginUpdating(Many(pluginsWithUpdate)) then [st.queued[1]] else [])
    ensures Consistent(Dequeued(st, pluginsWithUpdate))
  {
    DropHeadDistinct(st.queued);
    ContinueQueueStartsHeadWhenIdle(st.(queued := DropHead(st.queued)), pluginsWithUpdate);
  }

  /**
   * `updateAll` keeps the queued items in place and appends, in input
   * order, each plugin not already queued, once.
   */
  lemma UpdateAllAppendsNew(st: State, pluginsWithUpdate: seq<Item>)
    requires Consistent(st)
    ensures UpdatedAll(st, pluginsWithUpdate).queued
            == st.queued + UniqBy(WithoutKeysOf(pluginsWithUpdate, st.queued, Id), Id)
    ensures forall p :: p in pluginsWithUpdate ==> p in UpdatedAll(st, pluginsWithUpdate).queued
    ensures UpdatedAll(st, pluginsWithUpdate).dismissed == st.dismissed
    ensures Started(UpdatedAll(st, pluginsWithUpdate).log)
            == Started(st.log)
               + (if 0 < |UpdatedAll(st, pluginsWithUpdate).queued| && !IsPluginUpdating(Many(pluginsWithUpdate))
                  then [UpdatedAll(st, pluginsWithUpdate).queued[0]] else [])
    ensures Consistent(UpdatedAll(st, pluginsWithUpdate))
  {
    UnionExtends(st.queued, pluginsWithUpdate);
    ContinueQueueStartsHeadWhenIdle(st.(queued := Union(st.queued, pluginsWithUpdate)), pluginsWithUpdate);
  }

  /**
   * `dismiss` adds the given slug, or every plugin's slug when given no
   * string; what was dismissed stays dismissed, in place, and the queue is
   * not touched.
   */
  lemma DismissGrows(st: State, slug: Option<string>, pluginsWithUpdate: seq<Item>)
    requires Consistent(st)
    ensures Dismissed(st, slug, pluginsWithUpdate).queued == st.queued
    ensures Dismissed(st, slug, pluginsWithUpdate).log == st.log
    ensures Dismissed(st, slug, pluginsWithUpdate).dismissed
            == st.dismissed + UniqBy(WithoutKeysOf(DismissTargets(slug, pluginsWithUpdate), st.dismissed, Id), Id)
    ensures forall s :: s in Dismissed(st, slug, pluginsWithUpdate).dismissed <==>
              s in st.dismissed ||
              (if slug.Some? then s == slug.value else exists p :: p in pluginsWithUpdate && p.slug == s)
    ensures Consistent(Dismissed(st, slug, pluginsWithUpdate))
  {
    var targets := DismissTargets(slug, pluginsWithUpdate);
    UnionExtends(st.dismissed, targets);
    if slug.None? {
      forall s ensures s in targets <==> exists p :: p in pluginsWithUpdate && p.slug == s {
        if s in targets {
          var i :| 0 <= i < |targets| && targets[i] == s;
          assert pluginsWithUpdate[i] in pluginsWithUpdate;
        }
      }
    }
  }

  // ---------------------------------------------------------------------
  // Properties of the status-transition rule
  // ---------------------------------------------------------------------

  /** The start effects `continueQueue` fires after the head of `queued` was dropped. */
  function NextStart(queued: seq<Item>, pluginsWithUpdate: seq<Item>): seq<Effect> {
    if 1 < |queued| && !IsPluginUpdating(Many(pluginsWithUpdate)) then UpdateItemEffects(queued[1]) else []
  }

  /**
   * A change to `error`: one error notice whose retry re-enqueues the
   * plugin, then the head of the queue is dropped, whichever item it is.
   */
  lemma ErrorTransition(st: State, plugin: Item, prevPlugins: seq<Item>, pluginsWithUpdate: seq<Item>)
    requires StatusReaction(FindBySlug(prevPlugins, plugin.slug), plugin) == ReportError
    ensures React(st, plugin, prevPlugins, pluginsWithUpdate).queued == DropHead(st.queued)
    ensures React(st, plugin, prevPlugins, pluginsWithUpdate).dismissed == st.dismissed
    ensures React(st, plugin, prevPlugins, pluginsWithUpdate).log
            == st.log + [ErrorNotice(plugin.slug, plugin)] + NextStart(st.queued, pluginsWithUpdate)
  {
  }

  /**
   * A change to `completed`: one success notice, the slug joins the
   * dismissed list, then the head of the queue is dropped.
   */
  lemma SuccessTransition(st: State, plugin: Item, prevPlugins: seq<Item>, pluginsWithUpdate: seq<Item>)
    requires Consistent(st)
    requires StatusReaction(FindBySlug(prevPlugins, plugin.slug), plugin) == ReportSuccess
    ensures React(st, plugin, prevPlugins, pluginsWithUpdate).queued == DropHead(st.queued)
    ensures React(st, plugin, prevPlugins, pluginsWithUpdate).dismissed
            == if plugin.slug in st.dismissed then st.dismissed else st.dismissed + [plugin.slug]
    ensures React(st, plugin, prevPlugins, pluginsWithUpdate).log
            == st.log + [SuccessNotice(plugin.slug)] + NextStart(st.queued, pluginsWithUpdate)
  {
    var noticed := st.(log := st.log + [SuccessNotice(plugin.slug)]);
    var dismissed := Dismissed(noticed, Some(plugin.slug), pluginsWithUpdate);
    assert React(st, plugin, prevPlugins, pluginsWithUpdate) == Dequeued(dismissed, pluginsWithUpdate);
    UnionSingle(st.dismissed, plugin.slug);
    assert dismissed == noticed.(dismissed := if plugin.slug in st.dismissed then st.dismissed else st.dismissed + [plugin.slug]);
    DequeuedEffects(dismissed, pluginsWithUpdate);
  }

  /** `dequeue` drops the head and starts the next item when one is left and nothing is updating. */
  lemma DequeuedEffects(st: State, pluginsWithUpdate: seq<Item>)
    ensures Dequeued(st, pluginsWithUpdate) == st.(queued := DropHead(st.queued), log := st.log + NextStart(st.queued, pluginsWithUpdate))
  {
    if 1 < |st.queued| {
      assert DropHead(st.queued)[0] == st.queued[1];
    } else {
      assert st.log + [] == st.log;
    }
  }

  /**
   * A plugin that is missing from the previous props, had no status there,
   * kept its status, or is in progress changes nothing.
   */
  lemma SkippedTransition(st: State, plugin: Item, prevPlugins: seq<Item>, pluginsWithUpdate: seq<Item>)
    requires var prev := FindBySlug(prevPlugins, plugin.slug);
             prev.None? || prev.value.updateStatus.None? || prev.value.updateStatus == plugin.updateStatus
             || InProgress(plugin)
    ensures React(st, plugin, prevPlugins, pluginsWithUpdate) == st
  {
  }

  /** "Try again" on the error notice puts the failed plugin back on the queue. */
  lemma ErrorRetryRequeues(st: State, plugin: Item, prevPlugins: seq<Item>, pluginsWithUpdate: seq<Item>)
    requires Consistent(st)
    requires StatusReaction(FindBySlug(prevPlugins, plugin.slug), plugin) == ReportError
    ensures var r := React(st, plugin, prevPlugins, pluginsWithUpdate);
            r.log[|st.log|].ErrorNotice? && plugin in Enqueued(r, r.log[|st.log|].retry, pluginsWithUpdate).queued
  {
    ErrorTransition(st, plugin, prevPlugins, pluginsWithUpdate);
    var r := React(st, plugin, prevPlugins, pluginsWithUpdate);
    assert r.log[|st.log|] == ErrorNotice(plugin.slug, plugin);
    DropHeadDistinct(st.queued);
    EnqueueAppendsOnce(r, plugin, pluginsWithUpdate);
  }

  lemma ReactConsistent(st: State, plugin: Item, prevPlugins: seq<Item>, pluginsWithUpdate: seq<Item>)
    requires Consistent(st)
    ensures Consistent(React(st, plugin, prevPlugins, pluginsWithUpdate))
    ensures forall s :: s in st.dismissed ==> s in React(st, plugin, prevPlugins, pluginsWithUpdate).dismissed
  {
    DropHeadDistinct(st.queued);
  }

  /** The rule keeps both lists duplicate-free and never un-dismisses a slug. */
  lemma {:induction false} ReactAllConsistent(st: State, todo: seq<Item>, prevPlugins: seq<Item>, pluginsWithUpdate: seq<Item>)
    requires Consistent(st)
    ensures Consistent(ReactAll(st, todo, prevPlugins, pluginsWithUpdate))
    ensures forall s :: s in st.dismissed ==> s in ReactAll(st, todo, prevPlugins, pluginsWithUpdate).dismissed
    decreases |todo|
  {
    if todo != [] {
      ReactAllConsistent(st, todo[..|todo| - 1], prevPlugins, pluginsWithUpdate);
      ReactConsistent(ReactAll(st, todo[..|todo| - 1], prevPlugins, pluginsWithUpdate), todo[|todo| - 1],
                      prevPlugins, pluginsWithUpdate);
    }
  }

  /** After `componentDidUpdate`, every plugin whose status turned `completed` is dismissed. */
  lemma {:induction false} DidUpdateDismissesCompleted(st: State, prevPlugins: seq<Item>, pluginsWithUpdate: seq<Item>, k: nat)
    requires Consistent(st)
    requires k < |pluginsWithUpdate|
    requires StatusReaction(FindBySlug(prevPlugins, pluginsWithUpdate[k].slug), pluginsWithUpdate[k]) == ReportSuccess
    ensures pluginsWithUpdate[k].slug in DidUpdate(st, prevPlugins, pluginsWithUpdate).dismissed
  {
    ReactAllDismissesAt(st, prevPlugins, pluginsWithUpdate, k);
    ReactAllKeepsDismissed(st, pluginsWithUpdate, k + 1, prevPlugins, pluginsWithUpdate);
    assert pluginsWithUpdate[..|pluginsWithUpdate|] == pluginsWithUpdate;
  }

  lemma ReactAllDismissesAt(st: State, prevPlugins: seq<Item>, ps: seq<Item>, k: nat)
    requires Consistent(st)
    requires k < |ps|
    requires StatusReaction(FindBySlug(prevPlugins, ps[k].slug), ps[k]) == ReportSuccess
    ensures ps[k].slug in ReactAll(st, ps[..k + 1], prevPlugins, ps).dismissed
  {
    var before := ReactAll(st, ps[..k], prevPlugins, ps);
    assert ps[..k + 1][..k] == ps[..k];
    assert ReactAll(st, ps[..k + 1], prevPlugins, ps) == React(before, ps[k], prevPlugins, ps);
    ReactAllConsistent(st, ps[..k], prevPlugins, ps);
    SuccessTransition(before, ps[k], prevPlugins, ps);
  }

  /** Applying the rule to more plugins only adds to the dismissed list. */
  lemma {:induction false} ReactAllKeepsDismissed(st: State, todo: seq<Item>, n: nat, prevPlugins: seq<Item>, pluginsWithUpdate: seq<Item>)
    requires Consistent(st)
    requires n <= |todo|
    ensures forall s :: s in ReactAll(st, todo[..n], prevPlugins, pluginsWithUpdate).dismissed ==>
                          s in ReactAll(st, todo, prevPlugins, pluginsWithUpdate).dismissed
    decreases |todo| - n
  {
    if n < |todo| {
      ReactAllKeepsDismissed(st, todo, n + 1, prevPlugins, pluginsWithUpdate);
      assert todo[..n + 1][..n] == todo[..n];
      ReactAllConsistent(st, todo[..n], prevPlugins, pluginsWithUpdate);
      ReactConsistent(ReactAll(st, todo[..n], prevPlugins, pluginsWithUpdate), todo[n], prevPlugins, pluginsWithUpdate);
    } else {
      assert todo[..n] == todo;
    }
  }

  // ---------------------------------------------------------------------
  // The list `render` presents
  // ---------------------------------------------------------------------

  /** The string is non-empty and made of decimal digits only. */
  predicate AllDigits(s: string) {
    0 < |s| && forall i :: 0 <= i < |s| ==> '0' <= s[i] <= '9'
  }

  /** The decimal string of an array index: the property key `omit` sees for it. */
  function IndexKey(n: nat): (key: string)
    ensures AllDigits(key)
    decreases n
  {
    var digit := ('0' as int + n % 10) as char;
    if n < 10 then [digit] else IndexKey(n / 10) + [digit]
  }

  /** Some element of `list` is `x` and sits at an index whose key is not among `keys`. */
  ghost predicate KeptByOmit(list: seq<Item>, keys: seq<string>, x: Item) {
    exists i :: 0 <= i < |list| && list[i] == x && IndexKey(i) !in keys
  }

  /**
   * `Object.values(omit(list, keys))` on an array: the array's keys are its
   * indices, so an element is dropped exactly when the decimal string of
   * its index is one of `keys`; the rest keep their order.
   */
  function OmitByIndexKey(list: seq<Item>, keys: seq<string>): (r: seq<Item>)
    ensures forall i :: 0 <= i < |list| && IndexKey(i) !in keys ==> list[i] in r
    ensures forall x :: x in r ==> KeptByOmit(list, keys, x)
    decreases |list|
  {
    if list == [] then []
    else
      var init := list[..|list| - 1];
      var last := list[|list| - 1];
      var rest := OmitByIndexKey(init, keys);
      KeptByOmitGrows(list, keys);
      if IndexKey(|list| - 1) in keys then rest
      else
        assert KeptByOmit(list, keys, last) by {
          assert list[|list| - 1] == last;
        }
        rest + [last]
  }

  /** What `omit` keeps of a prefix of `list` it keeps of `list`, at the same indices. */
  lemma KeptByOmitGrows(list: seq<Item>, keys: seq<string>)
    requires list != []
    ensures forall i :: 0 <= i < |list| - 1 ==> list[..|list| - 1][i] == list[i]
    ensures forall x :: KeptByOmit(list[..|list| - 1], keys, x) ==> KeptByOmit(list, keys, x)
  {
    var init := list[..|list| - 1];
    forall x | KeptByOmit(init, keys, x) ensures KeptByOmit(list, keys, x) {
      var i :| 0 <= i < |init| && init[i] == x && IndexKey(i) !in keys;
      assert list[i] == x;
    }
  }

  /**
   * `itemsToUpdate` in `render`, as written: dismissed slugs are matched
   * against array indices, so an item is presented iff it sits in the
   * plugins or the themes at an index whose decimal string is not dismissed.
   */
  function ItemsToUpdateAsWritten(pluginsWithUpdate: seq<Item>, themes: seq<Item>, dismissed: seq<string>): (items: seq<Item>)
    ensures forall x :: x in items <==> KeptByOmit(pluginsWithUpdate, dismissed, x) || KeptByOmit(themes, dismissed, x)
    ensures DistinctKeys(items, Id)
  {
    var plugins := OmitByIndexKey(pluginsWithUpdate, dismissed);
    var kept := OmitByIndexKey(themes, dismissed);
    assert forall x :: KeptByOmit(pluginsWithUpdate, dismissed, x) ==> x in plugins by {
      forall x | KeptByOmit(pluginsWithUpdate, dismissed, x) ensures x in plugins {
        var i :| 0 <= i < |pluginsWithUpdate| && pluginsWithUpdate[i] == x && IndexKey(i) !in dismissed;
      }
    }
    assert forall x :: KeptByOmit(themes, dismissed, x) ==> x in kept by {
      forall x | KeptByOmit(themes, dismissed, x) ensures x in kept {
        var i :| 0 <= i < |themes| && themes[i] == x && IndexKey(i) !in dismissed;
      }
    }
    Union(plugins, kept)
  }

  /** As written, `omit` removes nothing while no dismissed slug is a string of digits. */
  lemma {:induction false} OmitKeepsAllWithoutIndexKeys(list: seq<Item>, keys: seq<string>)
    requires forall k :: k in keys ==> !AllDigits(k)
    ensures OmitByIndexKey(list, keys) == list
    decreases |list|
  {
    if list != [] {
      var init := list[..|list| - 1];
      OmitKeepsAllWithoutIndexKeys(init, keys);
      assert IndexKey(|list| - 1) !in keys;
      assert OmitByIndexKey(list, keys) == OmitByIndexKey(init, keys) + [list[|list| - 1]];
      assert init + [list[|list| - 1]] == list;
    }
  }

  /**
   * The discrepancy: as written, a dismissed plugin (one that completed its
   * update, say) is still presented, whenever slugs are not plain numbers.
   */
  lemma DismissedItemStillListed(pluginsWithUpdate: seq<Item>, themes: seq<Item>, dismissed: seq<string>, p: Item)
    requires p in pluginsWithUpdate && p.slug in dismissed
    requires forall k :: k in dismissed ==> !AllDigits(k)
    ensures p in ItemsToUpdateAsWritten(pluginsWithUpdate, themes, dismissed)
  {
    OmitKeepsAllWithoutIndexKeys(pluginsWithUpdate, dismissed);
  }

  /** The items of `list` whose slug was not dismissed, in order. */
  function Undismissed(list: seq<Item>, dismissed: seq<string>): (r: seq<Item>)
    ensures forall x :: x in r <==> x in list && x.slug !in dismissed
    decreases |list|
  {
    if list == [] then []
    else
      var rest := Undismissed(list[..|list| - 1], dismissed);
      var x := list[|list| - 1];
      assert list == list[..|list| - 1] + [x];
      if x.slug in dismissed then rest else rest + [x]
  }

  /**
   * `itemsToUpdate` as evidently intended: the plugins and then the themes,
   * without the dismissed slugs, each item once.
   */
  function ItemsToUpdate(pluginsWithUpdate: seq<Item>, themes: seq<Item>, dismissed: seq<string>): (items: seq<Item>)
    ensures forall x :: x in items <==> (x in pluginsWithUpdate || x in themes) && x.slug !in dismissed
    ensures DistinctKeys(items, Id)
  {
    Union(Undismissed(pluginsWithUpdate, dismissed), Undismissed(themes, dismissed))
  }

  /** A plugin whose update completed disappears from the presented list. */
  lemma CompletedPluginHidden(st: State, plugin: Item, prevPlugins: seq<Item>, pluginsWithUpdate: seq<Item>, themes: seq<Item>)
    requires Consistent(st)
    requires StatusReaction(FindBySlug(prevPlugins, plugin.slug), plugin) == ReportSuccess
    ensures forall x :: x in ItemsToUpdate(pluginsWithUpdate, themes, React(st, plugin, prevPlugins, pluginsWithUpdate).dismissed)
                        ==> x.slug != plugin.slug
  {
    SuccessTransition(st, plugin, prevPlugins, pluginsWithUpdate);
  }

  // ---------------------------------------------------------------------
  // The component
  // ---------------------------------------------------------------------

  /**
   * `ActivityLogTasklist`: its state is `queued` and `dismissed`; `log`
   * records the effects it fires (updater calls and notices). The props it
   * reads (`pluginsWithUpdate`, with each plugin's current status) are
   * passed to each method.
   */
  class ActivityLogTasklist {
    var queued: seq<Item>
    var dismissed: seq<string>
    ghost var log: seq<Effect>

    ghost function Snapshot(): State
      reads this
    {
      State(queued, dismissed, log)
    }

    ghost predicate Valid()
      reads this
    {
      Consistent(Snapshot())
    }

    /** The initial state: `{ dismissed: [], queued: [] }`. */
    constructor ()
      ensures Valid() && Snapshot() == State([], [], [])
    {
      queued := [];
      dismissed := [];
      log := [];
    }

    /**
     * The items `render` presents for the current `dismissed`, as written:
     * those at an index whose decimal string is not a dismissed slug.
     */
    function VisibleItems(pluginsWithUpdate: seq<Item>, themes: seq<Item>): (items: seq<Item>)
      reads this
      ensures forall x :: x in items <==> KeptByOmit(pluginsWithUpdate, dismissed, x) || KeptByOmit(themes, dismissed, x)
    {
      ItemsToUpdateAsWritten(pluginsWithUpdate, themes, dismissed)
    }

    method Dismiss(slug: Option<string>, pluginsWithUpdate: seq<Item>)
      requires Valid()
      modifies this
      ensures Valid()
      ensures Snapshot() == Dismissed(old(Snapshot()), slug, pluginsWithUpdate)
    {
      var plugins: seq<string>;
      if slug.Some? {
        plugins := [slug.value];
      } else {
        plugins := Slugs(pluginsWithUpdate);
      }
      dismissed := Union(dismissed, plugins);
    }

    method UpdateItem(item: Item)
      modifies this`log
      ensures log == old(log) + UpdateItemEffects(item)
    {
      if PLUGIN == item.kind {
        log := log + [UpdatePlugin(item)];
      } else {
        log := log + [UpdateTheme(item)];
      }
      log := log + [InfoNotice(item.slug)];
    }

    method ContinueQueue(pluginsWithUpdate: seq<Item>)
      modifies this`log
      ensures Snapshot() == Continued(old(Snapshot()), pluginsWithUpdate)
    {
      if 0 < |queued| && !IsPluginUpdating(Many(pluginsWithUpdate)) {
        UpdateItem(queued[0]);
      }
    }

    method Enqueue(plugin: Item, pluginsWithUpdate: seq<Item>)
      requires Valid()
      modifies this
      ensures Valid()
      ensures Snapshot() == Enqueued(old(Snapshot()), plugin, pluginsWithUpdate)
    {
      queued := Union(queued, [plugin]);
      ContinueQueue(pluginsWithUpdate);
    }

    method Dequeue(pluginsWithUpdate: seq<Item>)
      requires Valid()
      modifies this
      ensures Valid()
      ensures Snapshot() == Dequeued(old(Snapshot()), pluginsWithUpdate)
    {
      DropHeadDistinct(queued);
      queued := if |queued| == 0 then [] else queued[1..];
      ContinueQueue(pluginsWithUpdate);
    }

    method UpdateAll(pluginsWithUpdate: seq<Item>)
      requires Valid()
      modifies this
      ensures Valid()
      ensures Snapshot() == UpdatedAll(old(Snapshot()), pluginsWithUpdate)
    {
      queued := Union(queued, pluginsWithUpdate);
      ContinueQueue(pluginsWithUpdate);
    }

    /** The body of the `forEach` in `componentDidUpdate`, for one plugin of the new props. */
    method ReactTo(plugin: Item, prevPluginsWithUpdate: seq<Item>, pluginsWithUpdate: seq<Item>)
      requires Valid()
      modifies this
      ensures Valid()
      ensures Snapshot() == React(old(Snapshot()), plugin, prevPluginsWithUpdate, pluginsWithUpdate)
    {
      var prev := FindBySlug(prevPluginsWithUpdate, plugin.slug);
      if prev.Some? && prev.value.updateStatus.Some?
         && prev.value.updateStatus != plugin.updateStatus && !IsPluginUpdating(Single(plugin))
      {
        if plugin.updateStatus == Some(ERROR) {
          log := log + [ErrorNotice(plugin.slug, plugin)];
          Dequeue(pluginsWithUpdate);
        } else if plugin.updateStatus == Some(COMPLETED) {
          log := log + [SuccessNotice(plugin.slug)];
          Dismiss(Some(plugin.slug), pluginsWithUpdate);
          Dequeue(pluginsWithUpdate);
        }
      }
    }

    /**
     * For each plugin of the new props, compared with its entry in the
     * previous props: a new `error` status gets an error notice and a
     * dequeue, a new `completed` status a success notice, a dismissal and a
     * dequeue.
     */
    method ComponentDidUpdate(prevPluginsWithUpdate: seq<Item>, pluginsWithUpdate: seq<Item>)
      requires Valid()
      modifies this
      ensures Valid()
      ensures Snapshot() == DidUpdate(old(Snapshot()), prevPluginsWithUpdate, pluginsWithUpdate)
    {
      if |pluginsWithUpdate| == 0 {
        return;
      }
      var i := 0;
      while i < |pluginsWithUpdate|
        invariant 0 <= i <= |pluginsWithUpdate|
        invariant Valid()
        invariant Snapshot() == ReactAll(old(Snapshot()), pluginsWithUpdate[..i], prevPluginsWithUpdate, pluginsWithUpdate)
      {
        assert pluginsWithUpdate[..i + 1][..i] == pluginsWithUpdate[..i];
        ReactTo(pluginsWithUpdate[i], prevPluginsWithUpdate, pluginsWithUpdate);
        i := i + 1;
      }
      assert pluginsWithUpdate[..i] == pluginsWithUpdate;
    }
  }
}
