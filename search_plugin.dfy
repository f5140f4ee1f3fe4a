/**
 * The search plugin's configuration transformer: it merges the plugin's
 * defaults into its settings, appends one `afterChange` and one
 * `afterDelete` hook to every collection the settings enable, and appends
 * the generated search collection to the configuration's collections.
 */
module SearchPlugin {
  import opened Wrappers

  /** The plugin's settings; the ones this transformer does not read are `otherSettings`. */
  datatype SearchPluginConfig = SearchPluginConfig(
    collections: Option<seq<string>>,
    deleteDrafts: Option<bool>,
    syncDrafts: Option<bool>,
    otherSettings: Json)

  /**
   * A collection hook. The two the plugin adds are closures over the
   * effective settings (and, for `afterChange`, the collection's slug).
   */
  datatype Hook =
    | UserHook(id: nat)
    | SyncWithSearch(collection: string, pluginConfig: SearchPluginConfig)
    | DeleteFromSearch(pluginConfig: SearchPluginConfig)

  datatype CollectionHooks = CollectionHooks(
    afterChange: Option<seq<Hook>>,
    afterDelete: Option<seq<Hook>>,
    otherHooks: map<string, seq<Hook>>)

  datatype CollectionConfig = CollectionConfig(slug: string, hooks: Option<CollectionHooks>, otherProperties: Json)

  datatype Config = Config(collections: Option<seq<CollectionConfig>>, otherProperties: Json)

  /** The plugin's defaults, each overridden by the incoming setting when one is given. */
  function WithDefaults(incoming: SearchPluginConfig): (pluginConfig: SearchPluginConfig)
    ensures incoming.deleteDrafts.Some? ==> pluginConfig.deleteDrafts == incoming.deleteDrafts
    ensures incoming.deleteDrafts.None? ==> pluginConfig.deleteDrafts == Some(true)
    ensures incoming.syncDrafts.Some? ==> pluginConfig.syncDrafts == incoming.syncDrafts
    ensures incoming.syncDrafts.None? ==> pluginConfig.syncDrafts == Some(false)
    ensures pluginConfig.collections == incoming.collections
    ensures pluginConfig.otherSettings == incoming.otherSettings
  {
    incoming.(deleteDrafts := Some(incoming.deleteDrafts.GetOr(true)),
              syncDrafts := Some(incoming.syncDrafts.GetOr(false)))
  }

  /** A collection is enabled when the plugin's settings list its slug. */
  predicate IsEnabled(pluginConfig: SearchPluginConfig, slug: string) {
    slug in pluginConfig.collections.GetOr([])
  }

  /** The collection's existing `afterChange` hooks; none when it declares no hooks. */
  function AfterChangeHooks(c: CollectionConfig): seq<Hook> {
    if c.hooks.Some? then c.hooks.value.afterChange.GetOr([]) else []
  }

  /** The collection's existing `afterDelete` hooks; none when it declares no hooks. */
  function AfterDeleteHooks(c: CollectionConfig): seq<Hook> {
    if c.hooks.Some? then c.hooks.value.afterDelete.GetOr([]) else []
  }

  /** The hook kinds other than `afterChange` and `afterDelete`. */
  function OtherHooks(c: CollectionConfig): map<string, seq<Hook>> {
    if c.hooks.Some? then c.hooks.value.otherHooks else map[]
  }

  /** The callback of `collections.map`: adds the two search hooks to an enabled collection. */
  function AddSearchHooks(c: CollectionConfig, pluginConfig: SearchPluginConfig): (r: CollectionConfig)
    ensures !IsEnabled(pluginConfig, c.slug) ==> r == c
    ensures IsEnabled(pluginConfig, c.slug) ==>
              && r.slug == c.slug
              && r.otherProperties == c.otherProperties
              && AfterChangeHooks(r) == AfterChangeHooks(c) + [SyncWithSearch(c.slug, pluginConfig)]
              && AfterDeleteHooks(r) == AfterDeleteHooks(c) + [DeleteFromSearch(pluginConfig)]
              && OtherHooks(r) == OtherHooks(c)
  {
    if IsEnabled(pluginConfig, c.slug) then
      c.(hooks := Some(CollectionHooks(
        Some(AfterChangeHooks(c) + [SyncWithSearch(c.slug, pluginConfig)]),
        Some(AfterDeleteHooks(c) + [DeleteFromSearch(pluginConfig)]),
        OtherHooks(c))))
    else c
  }

  /** `collections.map(...)`: the same collections in the same order, each passed through `AddSearchHooks`. */
  function AddSearchHooksToAll(cs: seq<CollectionConfig>, pluginConfig: SearchPluginConfig): (r: seq<CollectionConfig>)
    ensures |r| == |cs|
    ensures forall i :: 0 <= i < |cs| ==> r[i] == AddSearchHooks(cs[i], pluginConfig)
  {
    if cs == [] then [] else [AddSearchHooks(cs[0], pluginConfig)] + AddSearchHooksToAll(cs[1..], pluginConfig)
  }

  /**
   * `searchPlugin(incomingPluginConfig)(config)`. The search collection is
   * built by `generateSearchCollection`, which is not part of this model.
   */
  function SearchPlugin(incoming: SearchPluginConfig, config: Config,
                        generateSearchCollection: SearchPluginConfig -> CollectionConfig): (r: Config)
    ensures config.collections.None? ==> r == config
    ensures config.collections.Some? ==>
              var cs := config.collections.value;
              && r.otherProperties == config.otherProperties
              && r.collections.Some?
              && |r.collections.value| == |cs| + 1
              && r.collections.value[|cs|] == generateSearchCollection(WithDefaults(incoming))
              && forall i :: 0 <= i < |cs| ==> r.collections.value[i] == AddSearchHooks(cs[i], WithDefaults(incoming))
  {
    match config.collections
    case None => config
    case Some(cs) =>
      var pluginConfig := WithDefaults(incoming);
      config.(collections := Some(AddSearchHooksToAll(cs, pluginConfig) + [generateSearchCollection(pluginConfig)]))
  }

  /** With no collections, the output holds exactly the search collection. */
  lemma NoCollectionsGivesOnlySearch(incoming: SearchPluginConfig, config: Config,
                                     generateSearchCollection: SearchPluginConfig -> CollectionConfig)
    requires config.collections == Some([])
    ensures SearchPlugin(incoming, config, generateSearchCollection).collections
         == Some([generateSearchCollection(WithDefaults(incoming))])
  {
    var r := SearchPlugin(incoming, config, generateSearchCollection);
    assert r.collections.value == [r.collections.value[0]];
  }

  // ---------------------------------------------------------------------
  // Exactly one hook of each kind per enabled collection
  // ---------------------------------------------------------------------

  function CountEnabled(cs: seq<CollectionConfig>, pluginConfig: SearchPluginConfig): nat {
    if cs == [] then 0
    else (if IsEnabled(pluginConfig, cs[0].slug) then 1 else 0) + CountEnabled(cs[1..], pluginConfig)
  }

  function TotalAfterChange(cs: seq<CollectionConfig>): nat {
    if cs == [] then 0 else |AfterChangeHooks(cs[0])| + TotalAfterChange(cs[1..])
  }

  function TotalAfterDelete(cs: seq<CollectionConfig>): nat {
    if cs == [] then 0 else |AfterDeleteHooks(cs[0])| + TotalAfterDelete(cs[1..])
  }

  /** Across all collections, the plugin adds one `afterChange` and one `afterDelete` hook per enabled collection. */
  lemma {:induction false} HooksAddedPerEnabledCollection(cs: seq<CollectionConfig>, pluginConfig: SearchPluginConfig)
    ensures TotalAfterChange(AddSearchHooksToAll(cs, pluginConfig)) == TotalAfterChange(cs) + CountEnabled(cs, pluginConfig)
    ensures TotalAfterDelete(AddSearchHooksToAll(cs, pluginConfig)) == TotalAfterDelete(cs) + CountEnabled(cs, pluginConfig)
  {
    if cs != [] {
      var r := AddSearchHooksToAll(cs, pluginConfig);
      assert r[1..] == AddSearchHooksToAll(cs[1..], pluginConfig);
      HooksAddedPerEnabledCollection(cs[1..], pluginConfig);
    }
  }
}
