/** src/steps/assets.ts: asset entities and the per-asset vulnerability
    count map stored for later steps. */
module Assets {
  import opened Wrappers
  import opened Text
  import opened Seqs
  import opened Resources
  import opened Graph

  /** getAssetKey: `insightvm_asset:<id>`. */
  function AssetKey(id: nat): (k: string)
    ensures KeyId(ASSET_TYPE, k) == Some(DecimalString(id))
  {
    KeyIdOfEntityKey(ASSET_TYPE, DecimalString(id));
    EntityKey(ASSET_TYPE, DecimalString(id))
  }

  const PLATFORMS: seq<string> := ["darwin", "linux", "unix", "windows", "android", "ios", "embedded", "other"]

  /** A JavaScript string that is neither undefined nor empty. */
  predicate Truthy(s: Option<string>)
  {
    s.Some? && s.value != ""
  }

  /** getPlatform: the lower-cased OS family when it names one of the listed
      platforms, otherwise 'other'. */
  function GetPlatform(a: AssetResource): (p: string)
    ensures p in PLATFORMS
    ensures Truthy(a.family) && Lower(a.family.value) in PLATFORMS ==> p == Lower(a.family.value)
    ensures p != "other" ==> a.family.Some? && p == Lower(a.family.value)
  {
    if Truthy(a.family) && Lower(a.family.value) in PLATFORMS then Lower(a.family.value) else "other"
  }

  /** The family is matched without regard to case: two families that agree
      once lower-cased give the same platform. */
  lemma PlatformIgnoresCase(a: AssetResource, b: AssetResource)
    requires a.family.Some? && b.family.Some? && Lower(a.family.value) == Lower(b.family.value)
    ensures GetPlatform(a) == GetPlatform(b)
  {
    assert |a.family.value| == |Lower(a.family.value)| == |b.family.value|;
  }

  /** In particular a family gives the platform of its lower-case spelling. */
  lemma PlatformOfLowerFamily(a: AssetResource)
    requires a.family.Some?
    ensures GetPlatform(a) == GetPlatform(a.(family := Some(Lower(a.family.value))))
  {
    LowerIdempotent(a.family.value);
    PlatformIgnoresCase(a, a.(family := Some(Lower(a.family.value))));
  }

  /** The entity name `hostName || ip || id`. */
  function AssetNameOf(a: AssetResource): (n: AssetName)
    ensures Truthy(a.hostName) ==> n == NameText(a.hostName.value)
    ensures n.NameText? ==> n.text != "" && (a.hostName == Some(n.text) || a.ip == Some(n.text))
    ensures n.NameNumber? <==> !Truthy(a.hostName) && !Truthy(a.ip)
    ensures n.NameNumber? ==> n.number == a.id
  {
    if Truthy(a.hostName) then NameText(a.hostName.value)
    else if Truthy(a.ip) then NameText(a.ip.value)
    else NameNumber(a.id)
  }

  /** `asset.history[asset.history.length - 1]?.date`. */
  function LastHistoryDate(history: seq<HistoryEntry>): Option<string>
  {
    if history == [] then None else history[|history| - 1].date
  }

  /** The asset entity. Reading `asset.vulnerabilities.critical` throws when
      the asset has no vulnerability summary. */
  function CreateAssetEntity(a: AssetResource): (r: Result<Entity, StepError>)
    ensures r.Err? <==> a.vulnerabilities.None?
    ensures r.Ok? ==> var e := r.value;
      && e.Asset? && e.Type() == ASSET_TYPE
      && e.key == AssetKey(a.id) && e.id == DecimalString(a.id)
      && e.displayName == AssetNameOf(a) && e.platform == GetPlatform(a)
      && e.ipAddress == a.ip && e.webLink == SelfHref(a.links)
      && e.numCriticalVulnerabilities == a.vulnerabilities.value.critical
      && e.lastScanDate == e.lastSeenOn == LastHistoryDate(a.history)
  {
    if a.vulnerabilities.None? then Err(MissingValue("asset.vulnerabilities.critical"))
    else
      var date := LastHistoryDate(a.history);
      Ok(Asset(AssetKey(a.id), DecimalString(a.id), AssetNameOf(a), GetPlatform(a), a.ip,
               SelfHref(a.links), a.vulnerabilities.value.critical, date, date))
  }

  /** `count || 0`. */
  function OrZero(count: Option<nat>): nat
  {
    if count.Some? then count.value else 0
  }

  /** The count-map entry of an asset, every missing count read as 0. */
  function CountsOf(a: AssetResource): (c: VulnCounts)
    ensures a.vulnerabilities.None? ==> c == VulnCounts(0, 0, 0)
    ensures a.vulnerabilities.Some? ==>
              c.critical == OrZero(a.vulnerabilities.value.critical)
              && c.severe == OrZero(a.vulnerabilities.value.severe)
              && c.moderate == OrZero(a.vulnerabilities.value.moderate)
  {
    if a.vulnerabilities.None? then VulnCounts(0, 0, 0)
    else
      var v := a.vulnerabilities.value;
      VulnCounts(OrZero(v.critical), OrZero(v.severe), OrZero(v.moderate))
  }

  /** assetVulnCountMap after the given assets: one set per asset, under
      String(asset.id). */
  function CountMap(assets: seq<AssetResource>): (m: map<string, VulnCounts>)
    ensures forall i :: 0 <= i < |assets| ==> DecimalString(assets[i].id) in m
  {
    if assets == [] then map[]
    else
      var last := assets[|assets| - 1];
      CountMap(assets[..|assets| - 1])[DecimalString(last.id) := CountsOf(last)]
  }

  /** The map holds, for each id, the counts of the last asset with that id. */
  lemma {:induction false} CountMapLastWins(assets: seq<AssetResource>, k: nat)
    requires k < |assets|
    requires forall j :: k < j < |assets| ==> assets[j].id != assets[k].id
    ensures CountMap(assets)[DecimalString(assets[k].id)] == CountsOf(assets[k])
  {
    var n := |assets| - 1;
    if k < n {
      var init := assets[..n];
      CountMapLastWins(init, k);
      if DecimalString(assets[n].id) == DecimalString(assets[k].id) {
        DecimalStringInjective(assets[n].id, assets[k].id);
      }
    }
  }

  /** Every key of the map is the id of some asset. */
  lemma {:induction false} CountMapKeysAreAssetIds(assets: seq<AssetResource>, key: string)
    requires key in CountMap(assets)
    ensures exists i :: 0 <= i < |assets| && DecimalString(assets[i].id) == key
  {
    var n := |assets| - 1;
    if DecimalString(assets[n].id) != key {
      CountMapKeysAreAssetIds(assets[..n], key);
      var i :| 0 <= i < n && DecimalString(assets[..n][i].id) == key;
      assert assets[i] == assets[..n][i];
    }
  }

  /** The index of the first asset without a vulnerability summary, where
      fetchAssets stops with a TypeError; |assets| when there is none. */
  function FirstMissingSummary(assets: seq<AssetResource>): (n: nat)
    ensures n <= |assets|
    ensures forall i :: 0 <= i < n ==> assets[i].vulnerabilities.Some?
    ensures n < |assets| ==> assets[n].vulnerabilities.None?
  {
    if assets == [] || assets[0].vulnerabilities.None? then 0
    else
      var n := FirstMissingSummary(assets[1..]);
      assert forall i :: 0 < i < |assets| ==> assets[i] == assets[1..][i - 1];
      1 + n
  }

  /** The asset entities of assets that all carry a summary, in order. */
  function AssetEntities(assets: seq<AssetResource>): (r: seq<Entity>)
    requires forall i :: 0 <= i < |assets| ==> assets[i].vulnerabilities.Some?
    ensures |r| == |assets|
    ensures forall i :: 0 <= i < |assets| ==> Ok(r[i]) == CreateAssetEntity(assets[i])
  {
    if assets == [] then []
    else AssetEntities(assets[..|assets| - 1]) + [CreateAssetEntity(assets[|assets| - 1]).value]
  }

  /** One iteration of fetchAssets: both the map and the entities grow by
      this asset's share. */
  lemma AssetsStep(es: seq<Entity>, assets: seq<AssetResource>, i: nat)
    requires i < |assets|
    requires forall j :: 0 <= j <= i ==> assets[j].vulnerabilities.Some?
    ensures CountMap(assets[..i + 1]) == CountMap(assets[..i])[DecimalString(assets[i].id) := CountsOf(assets[i])]
    ensures es + AssetEntities(assets[..i + 1]) == es + AssetEntities(assets[..i]) + [CreateAssetEntity(assets[i]).value]
  {
    assert assets[..i + 1][..i] == assets[..i];
    AppendSnoc(es, AssetEntities(assets[..i]), CreateAssetEntity(assets[i]).value);
  }

  /** The first asset without a summary is where the step stops. */
  lemma StopsAtFirstMissing(assets: seq<AssetResource>, i: nat)
    requires i < |assets| && assets[i].vulnerabilities.None?
    requires forall j :: 0 <= j < i ==> assets[j].vulnerabilities.Some?
    ensures FirstMissingSummary(assets) == i
  {
  }

  /** fetchAssets: one entity per asset in listing order, then the count map
      stored once under ASSET_VULN_COUNT_MAP. An asset without a summary ends
      the step after its count-map entry is made: the assets before it stay
      added and the map is never stored. */
  method FetchAssets(js: JobState, assets: seq<AssetResource>) returns (r: Result<(), StepError>)
    requires js.Valid()
    modifies js
    ensures js.Valid() && js.batches == old(js.batches)
    ensures r.Ok? <==> FirstMissingSummary(assets) == |assets|
    ensures js.entities == old(js.entities) + AssetEntities(assets[..FirstMissingSummary(assets)])
    ensures r.Ok? ==> js.data == old(js.data)[ASSET_VULN_COUNT_MAP := VulnCountMap(CountMap(assets))]
    ensures r.Err? ==> js.data == old(js.data)
  {
    var counts: map<string, VulnCounts> := map[];
    var i := 0;
    while i < |assets|
      invariant 0 <= i <= |assets|
      invariant forall j :: 0 <= j < i ==> assets[j].vulnerabilities.Some?
      invariant counts == CountMap(assets[..i])
      invariant js.Valid() && js.batches == old(js.batches) && js.data == old(js.data)
      invariant js.entities == old(js.entities) + AssetEntities(assets[..i])
    {
      var asset := assets[i];
      counts := counts[DecimalString(asset.id) := CountsOf(asset)];
      var created := CreateAssetEntity(asset);
      if created.Err? {
        StopsAtFirstMissing(assets, i);
        return Err(created.error);
      }
      AssetsStep(old(js.entities), assets, i);
      js.AddEntity(created.value);
      i := i + 1;
    }
    assert assets[..i] == assets;
    js.SetData(ASSET_VULN_COUNT_MAP, VulnCountMap(counts));
    r := Ok(());
  }
}
