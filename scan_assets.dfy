/** src/steps/scan-assets.ts: scan MONITORS asset relationships for the
    assets of each scan's site, in batches of at most five per scan. */
module ScanAssets {
  import opened Wrappers
  import opened Seqs
  import opened Resources
  import opened Graph
  import Sites
  import Scans

  /** A site-has-asset relationship as iterateRelationships yields it; either
      key may be missing. */
  datatype RelationshipRecord = RelationshipRecord(fromKey: Option<string>, toKey: Option<string>)

  predicate Truthy(s: Option<string>)
  {
    s.Some? && s.value != ""
  }

  /** A JavaScript Map from site key to asset keys: its keys in insertion
      order and its entries. */
  datatype SiteAssetsMap = SiteAssetsMap(order: seq<string>, groups: map<string, seq<string>>)

  /** The map after one more relationship: a relationship with both keys
      appends its asset key to its site key's list, creating the list at the
      end of the key order when the site key is new. */
  function Insert(g: SiteAssetsMap, rel: RelationshipRecord): SiteAssetsMap
  {
    if Truthy(rel.fromKey) && Truthy(rel.toKey) then
      var siteKey, assetKey := rel.fromKey.value, rel.toKey.value;
      if siteKey in g.groups then SiteAssetsMap(g.order, g.groups[siteKey := g.groups[siteKey] + [assetKey]])
      else SiteAssetsMap(g.order + [siteKey], g.groups[siteKey := [assetKey]])
    else g
  }

  /** The map after the given relationships. */
  function Group(rels: seq<RelationshipRecord>): SiteAssetsMap
  {
    if rels == [] then SiteAssetsMap([], map[])
    else Insert(Group(rels[..|rels| - 1]), rels[|rels| - 1])
  }

  /** The map's key order lists each of its keys exactly once. */
  lemma {:induction false} GroupOrderIsKeys(rels: seq<RelationshipRecord>)
    ensures forall k :: k in Group(rels).groups <==> k in Group(rels).order
    ensures forall i, j :: 0 <= i < j < |Group(rels).order| ==> Group(rels).order[i] != Group(rels).order[j]
  {
    if rels != [] {
      GroupOrderIsKeys(rels[..|rels| - 1]);
    }
  }

  lemma GroupStep(rels: seq<RelationshipRecord>, i: nat)
    requires i < |rels|
    ensures Group(rels[..i + 1]) == Insert(Group(rels[..i]), rels[i])
  {
    assert rels[..i + 1][..i] == rels[..i];
  }

  /** The reference definition: the asset keys of the relationships from
      siteKey that carry both keys, in iteration order. */
  function AssetKeysFrom(rels: seq<RelationshipRecord>, siteKey: string): seq<string>
  {
    if rels == [] then []
    else
      var rel := rels[|rels| - 1];
      AssetKeysFrom(rels[..|rels| - 1], siteKey)
      + (if Truthy(rel.fromKey) && Truthy(rel.toKey) && rel.fromKey.value == siteKey then [rel.toKey.value] else [])
  }

  /** buildSiteAssetsMap groups the relationships by site key, keeping the
      asset keys in iteration order; relationships missing either key are
      ignored, and a site key appears exactly when it has an asset key. */
  lemma {:induction false} GroupIsByFromKey(rels: seq<RelationshipRecord>, siteKey: string)
    ensures siteKey in Group(rels).groups <==> AssetKeysFrom(rels, siteKey) != []
    ensures siteKey in Group(rels).groups ==> Group(rels).groups[siteKey] == AssetKeysFrom(rels, siteKey)
  {
    if rels != [] {
      GroupIsByFromKey(rels[..|rels| - 1], siteKey);
    }
  }

  /** buildSiteAssetsMap. */
  method BuildSiteAssetsMap(rels: seq<RelationshipRecord>) returns (m: SiteAssetsMap)
    ensures m == Group(rels)
  {
    var order: seq<string> := [];
    var groups: map<string, seq<string>> := map[];
    var i := 0;
    while i < |rels|
      invariant 0 <= i <= |rels|
      invariant SiteAssetsMap(order, groups) == Group(rels[..i])
    {
      GroupStep(rels, i);
      var rel := rels[i];
      if Truthy(rel.fromKey) && Truthy(rel.toKey) {
        var siteKey, assetKey := rel.fromKey.value, rel.toKey.value;
        ghost var before := groups;
        if siteKey !in groups {
          order := order + [siteKey];
          groups := groups[siteKey := []];
        }
        groups := groups[siteKey := groups[siteKey] + [assetKey]];
        assert siteKey !in before ==> groups == before[siteKey := [assetKey]] by {
          assert [] + [assetKey] == [assetKey];
        }
      }
      i := i + 1;
    }
    assert rels[..i] == rels;
    m := SiteAssetsMap(order, groups);
  }

  /** scan MONITORS asset for each asset key in the job state, in order. */
  function ScanMonitors(keys: set<string>, scanKey: string, assetKeys: seq<string>): (r: seq<Relationship>)
    ensures |r| <= |assetKeys|
  {
    if assetKeys == [] then []
    else
      var assetKey := assetKeys[|assetKeys| - 1];
      ScanMonitors(keys, scanKey, assetKeys[..|assetKeys| - 1])
      + (if assetKey in keys then [Relationship(MONITORS, SCAN_TYPE, scanKey, ASSET_TYPE, assetKey)] else [])
  }

  /** Every relationship is the scan MONITORS one of the site's asset keys
      that is in the job state. */
  lemma {:induction false} ScanMonitorsArePresentAssets(keys: set<string>, scanKey: string, assetKeys: seq<string>)
    ensures forall r: Relationship :: r in ScanMonitors(keys, scanKey, assetKeys) ==>
              r.cls == MONITORS && r.fromType == SCAN_TYPE && r.fromKey == scanKey
              && r.toType == ASSET_TYPE && r.toKey in keys && r.toKey in assetKeys
  {
    if assetKeys != [] {
      ScanMonitorsArePresentAssets(keys, scanKey, assetKeys[..|assetKeys| - 1]);
    }
  }

  /** Every asset key in the job state gets its relationship. */
  lemma {:induction false} PresentAssetKeyMonitored(keys: set<string>, scanKey: string, assetKeys: seq<string>, k: nat)
    requires k < |assetKeys| && assetKeys[k] in keys
    ensures Relationship(MONITORS, SCAN_TYPE, scanKey, ASSET_TYPE, assetKeys[k]) in ScanMonitors(keys, scanKey, assetKeys)
  {
    var init := assetKeys[..|assetKeys| - 1];
    if k < |init| {
      PresentAssetKeyMonitored(keys, scanKey, init, k);
      assert init[k] == assetKeys[k];
    }
  }

  /** The batches of one site's scans: nothing for a scan whose key is not in
      the job state, Chunks of its relationships otherwise. */
  function ScanListBatches(keys: set<string>, assetKeys: seq<string>, scans: seq<ScanResource>): seq<seq<Relationship>>
  {
    if scans == [] then []
    else
      var scanKey := Scans.ScanKey(scans[|scans| - 1].id);
      ScanListBatches(keys, assetKeys, scans[..|scans| - 1])
      + (if scanKey in keys then Chunks(ScanMonitors(keys, scanKey, assetKeys), BATCH_SIZE) else [])
  }

  /** `getSiteIdFromSiteKey(siteKey)` when it is truthy. */
  function SiteIdOf(siteKey: string): Option<string>
  {
    var id := Sites.SiteIdFromSiteKey(siteKey);
    if Truthy(id) then id else None
  }

  /** The batches of one map entry: nothing when the site id cannot be
      derived from the key. */
  function SiteBatches(keys: set<string>, siteKey: string, assetKeys: seq<string>,
                       scansOf: string -> seq<ScanResource>): seq<seq<Relationship>>
  {
    match SiteIdOf(siteKey)
    case None => []
    case Some(siteId) => ScanListBatches(keys, assetKeys, scansOf(siteId))
  }

  /** The batches of all map entries, in the map's key order. */
  function AllBatches(keys: set<string>, m: SiteAssetsMap, order: seq<string>,
                      scansOf: string -> seq<ScanResource>): seq<seq<Relationship>>
    requires forall k :: k in order ==> k in m.groups
  {
    if order == [] then []
    else
      var siteKey := order[|order| - 1];
      AllBatches(keys, m, order[..|order| - 1], scansOf) + SiteBatches(keys, siteKey, m.groups[siteKey], scansOf)
  }

  /** All batches fetchScanAssets sends for the given relationships. */
  function ScanAssetBatches(keys: set<string>, rels: seq<RelationshipRecord>, scansOf: string -> seq<ScanResource>)
    : seq<seq<Relationship>>
  {
    GroupOrderIsKeys(rels);
    AllBatches(keys, Group(rels), Group(rels).order, scansOf)
  }

  /** Every batch fetchScanAssets sends holds between one and five
      relationships. */
  lemma {:induction false} ScanListBatchesBounded(keys: set<string>, assetKeys: seq<string>, scans: seq<ScanResource>)
    ensures forall i :: 0 <= i < |ScanListBatches(keys, assetKeys, scans)| ==>
              0 < |ScanListBatches(keys, assetKeys, scans)[i]| <= BATCH_SIZE
  {
    if scans != [] {
      var init := scans[..|scans| - 1];
      ScanListBatchesBounded(keys, assetKeys, init);
      var scanKey := Scans.ScanKey(scans[|scans| - 1].id);
      var tail := if scanKey in keys then Chunks(ScanMonitors(keys, scanKey, assetKeys), BATCH_SIZE) else [];
      var r := ScanListBatches(keys, assetKeys, init);
      assert ScanListBatches(keys, assetKeys, scans) == r + tail;
      forall i | 0 <= i < |r + tail|
        ensures 0 < |(r + tail)[i]| <= BATCH_SIZE
      {
        if i >= |r| {
          assert (r + tail)[i] == tail[i - |r|];
        }
      }
    }
  }

  lemma MonitorsStep(keys: set<string>, scanKey: string, assetKeys: seq<string>, i: nat)
    requires i < |assetKeys|
    ensures ScanMonitors(keys, scanKey, assetKeys[..i + 1])
            == ScanMonitors(keys, scanKey, assetKeys[..i])
               + (if assetKeys[i] in keys then [Relationship(MONITORS, SCAN_TYPE, scanKey, ASSET_TYPE, assetKeys[i])] else [])
  {
    assert assetKeys[..i + 1][..i] == assetKeys[..i];
  }

  /** The body of the scan callback for a scan whose key is present: the
      relationships to present assets through the buffer, then the final
      flush. */
  method MonitorScan(js: JobState, scanKey: string, assetKeys: seq<string>)
    requires js.Valid()
    modifies js
    ensures js.Valid()
    ensures js.entities == old(js.entities) && js.keys == old(js.keys) && js.data == old(js.data)
    ensures js.batches == old(js.batches) + Chunks(ScanMonitors(js.keys, scanKey, assetKeys), BATCH_SIZE)
  {
    var buffer: seq<Relationship> := [];
    ghost var full: seq<seq<Relationship>> := [];
    var i := 0;
    while i < |assetKeys|
      invariant 0 <= i <= |assetKeys|
      invariant js.Valid()
      invariant js.entities == old(js.entities) && js.keys == old(js.keys) && js.data == old(js.data)
      invariant js.batches == old(js.batches) + full
      invariant forall j :: 0 <= j < |full| ==> |full[j]| == BATCH_SIZE
      invariant |buffer| < BATCH_SIZE
      invariant Flatten(full) + buffer == ScanMonitors(js.keys, scanKey, assetKeys[..i])
    {
      MonitorsStep(js.keys, scanKey, assetKeys, i);
      if js.HasKey(assetKeys[i]) {
        var r := Relationship(MONITORS, SCAN_TYPE, scanKey, ASSET_TYPE, assetKeys[i]);
        var prev := buffer;
        ghost var sent;
        buffer, sent := PushRelationship(js, buffer, r);
        BufferStep(full, prev, sent, buffer, ScanMonitors(js.keys, scanKey, assetKeys[..i]), [r], BATCH_SIZE);
        AppendAssoc(old(js.batches), full, sent);
        full := full + sent;
      }
      i := i + 1;
    }
    assert assetKeys[..i] == assetKeys;
    FlushRemainder(js, buffer);
    BatchesAfterFlush(old(js.batches), full, buffer);
  }

  /** iterateSiteScans for one site: scans whose key is not in the job state
      are skipped. */
  method MonitorSiteScans(js: JobState, assetKeys: seq<string>, scans: seq<ScanResource>)
    requires js.Valid()
    modifies js
    ensures js.Valid()
    ensures js.entities == old(js.entities) && js.keys == old(js.keys) && js.data == old(js.data)
    ensures js.batches == old(js.batches) + ScanListBatches(js.keys, assetKeys, scans)
  {
    var i := 0;
    while i < |scans|
      invariant 0 <= i <= |scans|
      invariant js.Valid()
      invariant js.entities == old(js.entities) && js.keys == old(js.keys) && js.data == old(js.data)
      invariant js.batches == old(js.batches) + ScanListBatches(js.keys, assetKeys, scans[..i])
    {
      assert scans[..i + 1][..i] == scans[..i];
      var scanKey := Scans.ScanKey(scans[i].id);
      if js.HasKey(scanKey) {
        AppendAssoc(old(js.batches), ScanListBatches(js.keys, assetKeys, scans[..i]),
                    Chunks(ScanMonitors(js.keys, scanKey, assetKeys), BATCH_SIZE));
        MonitorScan(js, scanKey, assetKeys);
      }
      i := i + 1;
    }
    assert scans[..i] == scans;
  }

  /** fetchScanAssets: the map entries, in key order, each handled by the
      mapper: a key with no site id is skipped; otherwise each listed scan of
      the site that is in the job state sends Chunks of its relationships. */
  method FetchScanAssets(js: JobState, rels: seq<RelationshipRecord>, scansOf: string -> seq<ScanResource>)
    requires js.Valid()
    modifies js
    ensures js.Valid()
    ensures js.entities == old(js.entities) && js.keys == old(js.keys) && js.data == old(js.data)
    ensures js.batches == old(js.batches) + ScanAssetBatches(old(js.keys), rels, scansOf)
  {
    var m := BuildSiteAssetsMap(rels);
    GroupOrderIsKeys(rels);
    var k := 0;
    while k < |m.order|
      invariant 0 <= k <= |m.order|
      invariant js.Valid()
      invariant js.entities == old(js.entities) && js.keys == old(js.keys) && js.data == old(js.data)
      invariant js.batches == old(js.batches) + AllBatches(js.keys, m, m.order[..k], scansOf)
    {
      assert m.order[..k + 1][..k] == m.order[..k];
      var siteKey := m.order[k];
      var assetKeys := m.groups[siteKey];
      AppendAssoc(old(js.batches), AllBatches(js.keys, m, m.order[..k], scansOf),
                  SiteBatches(js.keys, siteKey, assetKeys, scansOf));
      var siteId := Sites.SiteIdFromSiteKey(siteKey);
      if Truthy(siteId) {
        MonitorSiteScans(js, assetKeys, scansOf(siteId.value));
      }
      k := k + 1;
    }
    assert m.order[..k] == m.order;
  }
}
