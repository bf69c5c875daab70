/** src/steps/site-assets.ts: site MONITORS asset relationships, and account
    HAS asset relationships for the assets no site listed. */
module SiteAssets {
  import opened Text
  import opened Seqs
  import opened Resources
  import opened Graph
  import Assets

  /** site MONITORS asset, by key. */
  function Monitors(site: Entity, assetKey: string): Relationship
  {
    Relationship(MONITORS, SITE_TYPE, site.key, ASSET_TYPE, assetKey)
  }

  /** The relationships of one callback: one per asset whose key is in the
      job state, in order. */
  function MonitorsOf(keys: set<string>, site: Entity, assets: seq<AssetResource>): (r: seq<Relationship>)
    ensures |r| <= |assets|
  {
    if assets == [] then []
    else
      var last := assets[|assets| - 1];
      var assetKey := Assets.AssetKey(last.id);
      MonitorsOf(keys, site, assets[..|assets| - 1]) + (if assetKey in keys then [Monitors(site, assetKey)] else [])
  }

  /** Every relationship of a callback is the site MONITORS a listed asset
      whose key is present. */
  lemma {:induction false} MonitorsArePresentAssets(keys: set<string>, site: Entity, assets: seq<AssetResource>)
    ensures forall r: Relationship :: r in MonitorsOf(keys, site, assets) ==>
              r.cls == MONITORS && r.fromType == SITE_TYPE && r.fromKey == site.key
              && r.toType == ASSET_TYPE && r.toKey in keys
              && exists i :: 0 <= i < |assets| && r.toKey == Assets.AssetKey(assets[i].id)
  {
    if assets != [] {
      var init := assets[..|assets| - 1];
      MonitorsArePresentAssets(keys, site, init);
      assert forall i :: 0 <= i < |init| ==> init[i] == assets[i];
    }
  }

  /** Every listed asset whose key is present is monitored. */
  lemma {:induction false} PresentAssetMonitored(keys: set<string>, site: Entity, assets: seq<AssetResource>, k: nat)
    requires k < |assets| && Assets.AssetKey(assets[k].id) in keys
    ensures Monitors(site, Assets.AssetKey(assets[k].id)) in MonitorsOf(keys, site, assets)
  {
    var init := assets[..|assets| - 1];
    if k < |init| {
      PresentAssetMonitored(keys, site, init, k);
      assert init[k] == assets[k];
    }
  }

  /** `${asset.id}` of every listed asset. */
  function IdsOf(assets: seq<AssetResource>): (ids: set<string>)
    ensures forall i :: 0 <= i < |assets| ==> DecimalString(assets[i].id) in ids
  {
    if assets == [] then {}
    else IdsOf(assets[..|assets| - 1]) + {DecimalString(assets[|assets| - 1].id)}
  }

  /** Conversely, only listed ids are recorded. */
  lemma {:induction false} IdsOfAreListed(assets: seq<AssetResource>, id: string)
    requires id in IdsOf(assets)
    ensures exists i :: 0 <= i < |assets| && id == DecimalString(assets[i].id)
  {
    var init := assets[..|assets| - 1];
    if id in IdsOf(init) {
      IdsOfAreListed(init, id);
      var i :| 0 <= i < |init| && id == DecimalString(init[i].id);
      assert init[i] == assets[i];
    } else {
      assert id == DecimalString(assets[|assets| - 1].id);
    }
  }

  /** One batch per callback of a site, possibly empty. */
  function CallbackBatches(keys: set<string>, site: Entity, callbacks: seq<seq<AssetResource>>): (r: seq<seq<Relationship>>)
    ensures |r| == |callbacks|
  {
    if callbacks == [] then []
    else CallbackBatches(keys, site, callbacks[..|callbacks| - 1]) + [MonitorsOf(keys, site, callbacks[|callbacks| - 1])]
  }

  /** The ids of every callback of a site. */
  function CallbackIds(callbacks: seq<seq<AssetResource>>): (ids: set<string>)
    ensures forall i :: 0 <= i < |callbacks| ==> IdsOf(callbacks[i]) <= ids
  {
    if callbacks == [] then {}
    else CallbackIds(callbacks[..|callbacks| - 1]) + IdsOf(callbacks[|callbacks| - 1])
  }

  /** Conversely, only ids some callback listed are recorded. */
  lemma {:induction false} CallbackIdsAreListed(callbacks: seq<seq<AssetResource>>, id: string)
    requires id in CallbackIds(callbacks)
    ensures exists i, a :: 0 <= i < |callbacks| && 0 <= a < |callbacks[i]| && id == DecimalString(callbacks[i][a].id)
  {
    var init, last := callbacks[..|callbacks| - 1], callbacks[|callbacks| - 1];
    if id in CallbackIds(init) {
      CallbackIdsAreListed(init, id);
      var i, a :| 0 <= i < |init| && 0 <= a < |init[i]| && id == DecimalString(init[i][a].id);
      assert init[i] == callbacks[i];
    } else {
      IdsOfAreListed(last, id);
      var a :| 0 <= a < |last| && id == DecimalString(last[a].id);
      assert callbacks[|callbacks| - 1] == last;
    }
  }

  function AllSiteBatches(keys: set<string>, sites: seq<Entity>, assetsOf: string -> seq<seq<AssetResource>>)
    : seq<seq<Relationship>>
    requires forall k :: 0 <= k < |sites| ==> sites[k].Site?
  {
    if sites == [] then []
    else
      var last := sites[|sites| - 1];
      AllSiteBatches(keys, sites[..|sites| - 1], assetsOf) + CallbackBatches(keys, last, assetsOf(last.id))
  }

  /** connectedAssets after the first loop. */
  function Connected(sites: seq<Entity>, assetsOf: string -> seq<seq<AssetResource>>): set<string>
    requires forall k :: 0 <= k < |sites| ==> sites[k].Site?
  {
    if sites == [] then {}
    else
      var last := sites[|sites| - 1];
      Connected(sites[..|sites| - 1], assetsOf) + CallbackIds(assetsOf(last.id))
  }

  /** Every asset id listed under any site is connected, whether or not its
      key is in the job state. */
  lemma {:induction false} ListedAssetIsConnected(sites: seq<Entity>, assetsOf: string -> seq<seq<AssetResource>>,
                                                  k: nat, c: nat, a: nat)
    requires forall j :: 0 <= j < |sites| ==> sites[j].Site?
    requires k < |sites| && c < |assetsOf(sites[k].id)| && a < |assetsOf(sites[k].id)[c]|
    ensures DecimalString(assetsOf(sites[k].id)[c][a].id) in Connected(sites, assetsOf)
  {
    var init, last := sites[..|sites| - 1], sites[|sites| - 1];
    var id := DecimalString(assetsOf(sites[k].id)[c][a].id);
    assert Connected(sites, assetsOf) == Connected(init, assetsOf) + CallbackIds(assetsOf(last.id));
    if k < |init| {
      assert init[k] == sites[k];
      ListedAssetIsConnected(init, assetsOf, k, c, a);
    } else {
      var callbacks: seq<seq<AssetResource>> := assetsOf(last.id);
      assert id in IdsOf(callbacks[c]);
      assert IdsOf(callbacks[c]) <= CallbackIds(callbacks);
    }
  }

  /** Conversely, only listed ids are connected: every connected id was
      listed by some callback of some site. */
  lemma {:induction false} ConnectedAssetWasListed(sites: seq<Entity>, assetsOf: string -> seq<seq<AssetResource>>,
                                                   id: string)
    requires forall j :: 0 <= j < |sites| ==> sites[j].Site?
    requires id in Connected(sites, assetsOf)
    ensures exists k, c, a :: 0 <= k < |sites| && 0 <= c < |assetsOf(sites[k].id)| && 0 <= a < |assetsOf(sites[k].id)[c]|
                              && id == DecimalString(assetsOf(sites[k].id)[c][a].id)
  {
    var init, last := sites[..|sites| - 1], sites[|sites| - 1];
    if id in Connected(init, assetsOf) {
      ConnectedAssetWasListed(init, assetsOf, id);
      var k, c, a :| 0 <= k < |init| && 0 <= c < |assetsOf(init[k].id)| && 0 <= a < |assetsOf(init[k].id)[c]|
                     && id == DecimalString(assetsOf(init[k].id)[c][a].id);
      assert init[k] == sites[k];
    } else {
      var callbacks: seq<seq<AssetResource>> := assetsOf(last.id);
      CallbackIdsAreListed(callbacks, id);
      var c, a :| 0 <= c < |callbacks| && 0 <= a < |callbacks[c]| && id == DecimalString(callbacks[c][a].id);
      assert sites[|sites| - 1] == last;
    }
  }

  /** The asset entities whose id is not connected, in order. */
  function UnconnectedAssets(assets: seq<Entity>, connected: set<string>): (r: seq<Entity>)
    requires forall k :: 0 <= k < |assets| ==> assets[k].Asset?
    ensures forall e :: e in r ==> e.Asset? && e in assets && e.id !in connected
    ensures forall e :: e in assets && e.Asset? && e.id !in connected ==> e in r
  {
    if assets == [] then []
    else
      var last := assets[|assets| - 1];
      UnconnectedAssets(assets[..|assets| - 1], connected) + (if last.id in connected then [] else [last])
  }

  /** The positions of the asset entities whose id is not connected. */
  function UnconnectedAt(assets: seq<Entity>, connected: set<string>): nat -> bool
  {
    (i: nat) => i < |assets| && assets[i].Asset? && assets[i].id !in connected
  }

  /** The unconnected assets keep their order and appear once per entity:
      they are the entities at the increasing positions whose id is not
      connected, and at no others. */
  lemma {:induction false} UnconnectedAssetsInOrder(assets: seq<Entity>, connected: set<string>)
    requires forall k :: 0 <= k < |assets| ==> assets[k].Asset?
    ensures var idx := IndicesWhere(|assets|, UnconnectedAt(assets, connected));
            Selects(idx, |assets|, UnconnectedAt(assets, connected)) && |UnconnectedAssets(assets, connected)| == |idx|
            && forall j :: 0 <= j < |idx| ==> idx[j] < |assets| && UnconnectedAssets(assets, connected)[j] == assets[idx[j]]
  {
    IndicesWhereSelects(|assets|, UnconnectedAt(assets, connected));
    UnconnectedPrefixInOrder(assets, connected, |assets|);
    assert assets[..|assets|] == assets;
  }

  lemma {:induction false} UnconnectedPrefixInOrder(assets: seq<Entity>, connected: set<string>, m: nat)
    requires forall k :: 0 <= k < |assets| ==> assets[k].Asset?
    requires m <= |assets|
    ensures var idx := IndicesWhere(m, UnconnectedAt(assets, connected));
            |UnconnectedAssets(assets[..m], connected)| == |idx|
            && forall j :: 0 <= j < |idx| ==> idx[j] < |assets| && UnconnectedAssets(assets[..m], connected)[j] == assets[idx[j]]
  {
    if m > 0 {
      UnconnectedPrefixInOrder(assets, connected, m - 1);
      var p := UnconnectedAt(assets, connected);
      var idx0, r0 := IndicesWhere(m - 1, p), UnconnectedAssets(assets[..m - 1], connected);
      assert assets[..m][..m - 1] == assets[..m - 1] && assets[..m][m - 1] == assets[m - 1];
      var idx, r := IndicesWhere(m, p), UnconnectedAssets(assets[..m], connected);
      assert idx == idx0 + (if p(m - 1) then [m - 1] else []);
      assert r == r0 + (if assets[m - 1].id in connected then [] else [assets[m - 1]]);
      if assets[m - 1].id !in connected {
        assert p(m - 1);
        forall j | 0 <= j < |idx|
          ensures idx[j] < |assets| && r[j] == assets[idx[j]]
        {
          if j < |idx0| {
            assert idx[j] == idx0[j] && r[j] == r0[j];
          }
        }
      } else {
        assert !p(m - 1);
      }
    } else {
      assert assets[..m] == [];
    }
  }

  /** account HAS asset for each asset, by key. */
  function AccountAssetEdges(accountKey: string, assets: seq<Entity>): (r: seq<Relationship>)
    ensures |r| == |assets|
    ensures forall i :: 0 <= i < |assets| ==> r[i] == Relationship(HAS, ACCOUNT_TYPE, accountKey, ASSET_TYPE, assets[i].key)
  {
    if assets == [] then []
    else AccountAssetEdges(accountKey, assets[..|assets| - 1])
         + [Relationship(HAS, ACCOUNT_TYPE, accountKey, ASSET_TYPE, assets[|assets| - 1].key)]
  }

  /** The iterateSiteAssets callback: every asset is marked connected, the
      present ones are monitored, and the callback's relationships go out as
      one batch, possibly empty. */
  method MonitorCallback(js: JobState, site: Entity, assets: seq<AssetResource>, connected: set<string>)
    returns (connected': set<string>)
    requires js.Valid()
    modifies js
    ensures js.Valid()
    ensures js.entities == old(js.entities) && js.keys == old(js.keys) && js.data == old(js.data)
    ensures js.batches == old(js.batches) + [MonitorsOf(js.keys, site, assets)]
    ensures connected' == connected + IdsOf(assets)
  {
    connected' := connected;
    var rels: seq<Relationship> := [];
    var i := 0;
    while i < |assets|
      invariant 0 <= i <= |assets|
      invariant connected' == connected + IdsOf(assets[..i])
      invariant rels == MonitorsOf(js.keys, site, assets[..i])
    {
      assert assets[..i + 1][..i] == assets[..i];
      connected' := connected' + {DecimalString(assets[i].id)};
      var assetKey := Assets.AssetKey(assets[i].id);
      if js.HasKey(assetKey) {
        rels := rels + [Monitors(site, assetKey)];
      }
      i := i + 1;
    }
    assert assets[..i] == assets;
    js.AddRelationships(rels);
  }

  lemma CallbackStep(keys: set<string>, site: Entity, callbacks: seq<seq<AssetResource>>, c: nat)
    requires c < |callbacks|
    ensures CallbackBatches(keys, site, callbacks[..c + 1]) == CallbackBatches(keys, site, callbacks[..c]) + [MonitorsOf(keys, site, callbacks[c])]
    ensures CallbackIds(callbacks[..c + 1]) == CallbackIds(callbacks[..c]) + IdsOf(callbacks[c])
  {
    assert callbacks[..c + 1][..c] == callbacks[..c];
  }

  /** All callbacks of one site. */
  method MonitorSite(js: JobState, site: Entity, callbacks: seq<seq<AssetResource>>, connected: set<string>)
    returns (connected': set<string>)
    requires js.Valid()
    modifies js
    ensures js.Valid()
    ensures js.entities == old(js.entities) && js.keys == old(js.keys) && js.data == old(js.data)
    ensures js.batches == old(js.batches) + CallbackBatches(js.keys, site, callbacks)
    ensures connected' == connected + CallbackIds(callbacks)
  {
    connected' := connected;
    var c := 0;
    while c < |callbacks|
      invariant 0 <= c <= |callbacks|
      invariant js.Valid()
      invariant js.entities == old(js.entities) && js.keys == old(js.keys) && js.data == old(js.data)
      invariant js.batches == old(js.batches) + CallbackBatches(js.keys, site, callbacks[..c])
      invariant connected' == connected + CallbackIds(callbacks[..c])
    {
      CallbackStep(js.keys, site, callbacks, c);
      AppendSnoc(old(js.batches), CallbackBatches(js.keys, site, callbacks[..c]), MonitorsOf(js.keys, site, callbacks[c]));
      connected' := MonitorCallback(js, site, callbacks[c], connected');
      c := c + 1;
    }
    assert callbacks[..c] == callbacks;
  }

  /** The relationships the second loop pushes. */
  function UnconnectedEdges(accountKey: string, assets: seq<Entity>, connected: set<string>): seq<Relationship>
    requires forall k :: 0 <= k < |assets| ==> assets[k].Asset?
  {
    AccountAssetEdges(accountKey, UnconnectedAssets(assets, connected))
  }

  lemma UnconnectedStep(accountKey: string, assets: seq<Entity>, connected: set<string>, i: nat)
    requires forall k :: 0 <= k < |assets| ==> assets[k].Asset?
    requires i < |assets|
    ensures UnconnectedEdges(accountKey, assets[..i + 1], connected)
            == UnconnectedEdges(accountKey, assets[..i], connected)
               + (if assets[i].id in connected then []
                  else [Relationship(HAS, ACCOUNT_TYPE, accountKey, ASSET_TYPE, assets[i].key)])
  {
    assert assets[..i + 1][..i] == assets[..i];
    var u := UnconnectedAssets(assets[..i], connected);
    if assets[i].id !in connected {
      assert UnconnectedAssets(assets[..i + 1], connected) == u + [assets[i]];
      assert (u + [assets[i]])[..|u|] == u;
    }
  }

  /** The second loop: account HAS each unconnected asset, through the batch
      buffer and a final flush. */
  method LinkUnconnectedAssets(js: JobState, accountKey: string, assets: seq<Entity>, connected: set<string>)
    requires js.Valid()
    requires forall k :: 0 <= k < |assets| ==> assets[k].Asset?
    modifies js
    ensures js.Valid()
    ensures js.entities == old(js.entities) && js.keys == old(js.keys) && js.data == old(js.data)
    ensures js.batches == old(js.batches)
                          + Chunks(UnconnectedEdges(accountKey, assets, connected), BATCH_SIZE)
  {
    var buffer: seq<Relationship> := [];
    ghost var full: seq<seq<Relationship>> := [];
    var i := 0;
    while i < |assets|
      invariant 0 <= i <= |assets|
      invariant js.Valid()
      invariant js.entities == old(js.entities) && js.keys == old(js.keys) && js.data == old(js.data)
      invariant js.batches == old(js.batches) + full
      invariant forall j :: 0 <= j < |full| ==> |full[j]| == BATCH_SIZE
      invariant |buffer| < BATCH_SIZE
      invariant Flatten(full) + buffer == UnconnectedEdges(accountKey, assets[..i], connected)
    {
      UnconnectedStep(accountKey, assets, connected, i);
      if assets[i].id !in connected {
        var r := Relationship(HAS, ACCOUNT_TYPE, accountKey, ASSET_TYPE, assets[i].key);
        var prev := buffer;
        ghost var sent;
        buffer, sent := PushRelationship(js, buffer, r);
        BufferStep(full, prev, sent, buffer, UnconnectedEdges(accountKey, assets[..i], connected), [r], BATCH_SIZE);
        AppendAssoc(old(js.batches), full, sent);
        full := full + sent;
      }
      i := i + 1;
    }
    assert assets[..i] == assets;
    FlushRemainder(js, buffer);
    BatchesAfterFlush(old(js.batches), full, buffer);
  }

  lemma SiteStep(bs: seq<seq<Relationship>>, keys: set<string>, sites: seq<Entity>,
                 assetsOf: string -> seq<seq<AssetResource>>, k: nat)
    requires forall j :: 0 <= j < |sites| ==> sites[j].Site?
    requires k < |sites|
    ensures bs + AllSiteBatches(keys, sites[..k + 1], assetsOf)
            == bs + AllSiteBatches(keys, sites[..k], assetsOf) + CallbackBatches(keys, sites[k], assetsOf(sites[k].id))
    ensures Connected(sites[..k + 1], assetsOf) == Connected(sites[..k], assetsOf) + CallbackIds(assetsOf(sites[k].id))
  {
    assert sites[..k + 1][..k] == sites[..k];
    AppendAssoc(bs, AllSiteBatches(keys, sites[..k], assetsOf), CallbackBatches(keys, sites[k], assetsOf(sites[k].id)));
  }

  /** fetchSiteAssets: for every site entity and every callback of its asset
      listing, one batch of site MONITORS asset relationships for the assets
      whose key is present; then one account HAS asset relationship for every
      asset entity whose id no site listed, in batches of at most five. No
      asset is both connected and given an account relationship. */
  method FetchSiteAssets(js: JobState, assetsOf: string -> seq<seq<AssetResource>>)
    requires js.Valid() && js.HasAccount()
    modifies js
    ensures js.Valid()
    ensures js.entities == old(js.entities) && js.keys == old(js.keys) && js.data == old(js.data)
    ensures forall k :: 0 <= k < |old(js.EntitiesOfType(SITE_TYPE))| ==> old(js.EntitiesOfType(SITE_TYPE))[k].Site?
    ensures forall k :: 0 <= k < |old(js.EntitiesOfType(ASSET_TYPE))| ==> old(js.EntitiesOfType(ASSET_TYPE))[k].Asset?
    ensures js.batches == old(js.batches)
              + AllSiteBatches(old(js.keys), old(js.EntitiesOfType(SITE_TYPE)), assetsOf)
              + Chunks(UnconnectedEdges(old(js.AccountEntity()).key, old(js.EntitiesOfType(ASSET_TYPE)),
                                        Connected(old(js.EntitiesOfType(SITE_TYPE)), assetsOf)),
                       BATCH_SIZE)
  {
    var sites := js.EntitiesOfType(SITE_TYPE);
    OfTypeSitesAreSites(js.entities);
    OfTypeAssetsAreAssets(js.entities);
    var connected: set<string> := {};
    var k := 0;
    while k < |sites|
      invariant 0 <= k <= |sites|
      invariant js.Valid()
      invariant js.entities == old(js.entities) && js.keys == old(js.keys) && js.data == old(js.data)
      invariant js.batches == old(js.batches) + AllSiteBatches(js.keys, sites[..k], assetsOf)
      invariant connected == Connected(sites[..k], assetsOf)
    {
      SiteStep(old(js.batches), js.keys, sites, assetsOf, k);
      connected := MonitorSite(js, sites[k], assetsOf(sites[k].id), connected);
      k := k + 1;
    }
    assert sites[..k] == sites;
    var account := js.AccountEntity();
    LinkUnconnectedAssets(js, account.key, js.EntitiesOfType(ASSET_TYPE), connected);
  }
}
