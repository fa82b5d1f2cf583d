/**
 * The `WithItemsToUpdate` wrapper of the task list: it accumulates the
 * plugins the store reports as having updates, so that a plugin that has
 * finished updating (and so drops out of the store's list) stays on the
 * list the task list receives.
 */
module ToUpdate {
  import opened Wrappers
  import opened Lists
  import opened UpdateItems

  /** The fixed theme list the wrapper serves while the themes API does not exist. */
  function GetThemesWithUpdates(): (themes: seq<Item>)
    ensures |themes| == 2
    ensures forall t :: t in themes ==> t.kind == THEME && t.updateStatus == None
    ensures themes[0].slug != themes[1].slug
  {
    [ Item("dara-wpcom", "Dara", "1.7", THEME, None),
      Item("twentyfourteen", "TwentyFourteen", "2.1", THEME, None) ]
  }

  /**
   * A plugin object as the installed-plugins store hands it out; the
   * wrapper mutates it in place. `newVersion` is `update.new_version`.
   */
  class InstalledPlugin {
    var slug: string
    var name: string
    var version: string
    var kind: string
    var newVersion: string

    constructor (slug: string, name: string, version: string, kind: string, newVersion: string)
      ensures this.slug == slug && this.name == name && this.version == version
      ensures this.kind == kind && this.newVersion == newVersion
    {
      this.slug, this.name, this.version := slug, name, version;
      this.kind, this.newVersion := kind, newVersion;
    }

    /** The record as the task list sees it; the store has no update status for it yet. */
    function AsItem(): (item: Item)
      reads this
      ensures item.slug == slug && item.version == version && item.kind == kind
      ensures item.updateStatus == None
    {
      Item(slug, name, version, kind, None)
    }
  }

  /**
   * `extend(plugin, { version: plugin.update.new_version, type: 'plugin' })`:
   * overwrites two fields of the object it is given and returns that same object.
   */
  method MapUpdateNewVersionToVersion(plugin: InstalledPlugin) returns (r: InstalledPlugin)
    modifies plugin
    ensures r == plugin
    ensures plugin.version == old(plugin.newVersion) && plugin.kind == PLUGIN
    ensures plugin.slug == old(plugin.slug) && plugin.name == old(plugin.name)
    ensures plugin.newVersion == old(plugin.newVersion)
    ensures r.AsItem() == Item(old(plugin.slug), old(plugin.name), old(plugin.newVersion), PLUGIN, None)
  {
    plugin.version := plugin.newVersion;
    plugin.kind := PLUGIN;
    r := plugin;
  }

  /**
   * `getDerivedStateFromProps`: `unionBy(next.plugins, prev.plugins, 'slug')`,
   * the plugins reported now followed by the ones held before, one per slug.
   */
  function GetDerivedStateFromProps(nextPlugins: seq<Item>, prevPlugins: seq<Item>): (plugins: seq<Item>)
    ensures DistinctKeys(plugins, SlugOf)
    ensures forall p :: p in plugins ==> p in nextPlugins || p in prevPlugins
  {
    UniqBy(nextPlugins + prevPlugins, SlugOf)
  }

  /** Every slug held before is still held: the accumulated list never loses a plugin. */
  lemma DerivedStateKeepsPrevious(nextPlugins: seq<Item>, prevPlugins: seq<Item>, slug: string)
    ensures HasKey(prevPlugins, SlugOf, slug) || HasKey(nextPlugins, SlugOf, slug)
            <==> HasKey(GetDerivedStateFromProps(nextPlugins, prevPlugins), SlugOf, slug)
  {
    HasKeyAppend(nextPlugins, prevPlugins, SlugOf, slug);
  }

  /** When both lists hold a slug, the entry from the new props is the one kept. */
  lemma DerivedStateNextWins(nextPlugins: seq<Item>, prevPlugins: seq<Item>, p: Item)
    requires p in GetDerivedStateFromProps(nextPlugins, prevPlugins)
    requires HasKey(nextPlugins, SlugOf, p.slug)
    ensures p in nextPlugins
  {
    UniqByAppend(nextPlugins, prevPlugins, SlugOf);
  }

  /**
   * The order of the accumulated list: the new props' plugins in their own
   * order, then the previously held plugins whose slug they lack, in their
   * prior order. Both inputs are slug-unique when the new props are, since
   * the previous state is itself an output of this function.
   */
  lemma DerivedStateOrder(nextPlugins: seq<Item>, prevPlugins: seq<Item>)
    requires DistinctKeys(nextPlugins, SlugOf) && DistinctKeys(prevPlugins, SlugOf)
    ensures GetDerivedStateFromProps(nextPlugins, prevPlugins)
            == nextPlugins + WithoutKeysOf(prevPlugins, nextPlugins, SlugOf)
  {
    UniqByAppend(nextPlugins, prevPlugins, SlugOf);
    UniqByDistinct(nextPlugins, SlugOf);
    var rest := WithoutKeysOf(prevPlugins, nextPlugins, SlugOf);
    WithoutKeysOfDistinct(prevPlugins, nextPlugins, SlugOf);
    UniqByDistinct(rest, SlugOf);
  }
}
