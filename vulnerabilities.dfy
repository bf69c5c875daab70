/** src/steps/vulnerabilities.ts: one finding entity per vulnerability
    finding of each asset, owned by that asset. */
module Vulnerabilities {
  import opened Wrappers
  import opened Text
  import opened Seqs
  import opened Resources
  import opened Graph

  const ASSET_VULNERABILITY_TYPE := "insightvm_asset_vulnerability"
  const VULNERABILITY_TYPE := "insightvm_vulnerability"

  /** getAssetVulnerabilityKey:
      `insightvm_asset_vulnerability:<assetId>:<findingId>`. */
  function FindingKey(assetId: string, findingId: string): (k: string)
    ensures KeyId(ASSET_VULNERABILITY_TYPE, k) == Some(assetId + ":" + findingId)
  {
    KeyIdOfEntityKey(ASSET_VULNERABILITY_TYPE, assetId + ":" + findingId);
    EntityKey(ASSET_VULNERABILITY_TYPE, assetId + ":" + findingId)
  }

  /** Finding keys of assets whose ids have no colon (decimal ids never do)
      determine both the asset and the finding. */
  lemma FindingKeyInjective(a1: string, f1: string, a2: string, f2: string)
    requires NoColon(a1) && NoColon(a2)
    requires FindingKey(a1, f1) == FindingKey(a2, f2)
    ensures a1 == a2 && f1 == f2
  {
    var s1, s2 := a1 + ":" + f1, a2 + ":" + f2;
    assert s1 == s2 by {
      assert Some(s1) == KeyId(ASSET_VULNERABILITY_TYPE, FindingKey(a1, f1));
    }
    var m := if |a1| <= |a2| then |a1| else |a2|;
    assert s1[m] == s2[m];
    assert s1[m] == ':' <==> m == |a1|;
    assert s2[m] == ':' <==> m == |a2|;
    assert a1 == s1[..|a1|] && a2 == s2[..|a2|];
    assert f1 == s1[|a1| + 1..] && f2 == s2[|a2| + 1..];
  }

  /** getVulnerabilityKey: `insightvm_vulnerability:<id>`. */
  function VulnerabilityKey(id: string): (k: string)
    ensures KeyId(VULNERABILITY_TYPE, k) == Some(id)
  {
    KeyIdOfEntityKey(VULNERABILITY_TYPE, id);
    EntityKey(VULNERABILITY_TYPE, id)
  }

  /** `open`: true for a finding whose status is 'vulnerable', otherwise left
      undefined (never false). */
  function Open(status: string): (o: Option<bool>)
    ensures o != Some(false)
    ensures o == Some(true) <==> status == "vulnerable"
  {
    if status == "vulnerable" then Some(true) else None
  }

  /** createAssetVulnerabilityEntity: keyed by asset and finding, named after
      the finding, with fixed category, severity and numeric severity. */
  function CreateFindingEntity(f: AssetFinding, assetId: string): (e: Entity)
    ensures e.Finding? && e.Type() == FINDING_TYPE
    ensures e.key == FindingKey(assetId, f.id) && e.id == f.id && e.name == f.id
    ensures e.category == "host" && e.severity == "unknown" && e.numericSeverity == 5
    ensures e.open == Open(f.status)
  {
    Finding(FindingKey(assetId, f.id), f.id, f.id, "host", Open(f.status), "unknown", 5)
  }

  /** The finding entities of one asset, in listing order. */
  function FindingsOf(asset: Entity, fs: seq<AssetFinding>): (r: seq<Entity>)
    requires asset.Asset?
    ensures |r| == |fs|
    ensures forall j :: 0 <= j < |fs| ==> r[j] == CreateFindingEntity(fs[j], asset.id)
  {
    if fs == [] then []
    else FindingsOf(asset, fs[..|fs| - 1]) + [CreateFindingEntity(fs[|fs| - 1], asset.id)]
  }

  /** All finding entities, asset by asset. */
  function AllFindings(assets: seq<Entity>, findingsOf: string -> seq<AssetFinding>): seq<Entity>
    requires forall k :: 0 <= k < |assets| ==> assets[k].Asset?
  {
    if assets == [] then []
    else
      var last := assets[|assets| - 1];
      AllFindings(assets[..|assets| - 1], findingsOf) + FindingsOf(last, findingsOf(last.id))
  }

  /** All asset HAS finding relationships, asset by asset, one per batch. */
  function AllFindingBatches(assets: seq<Entity>, findingsOf: string -> seq<AssetFinding>): seq<seq<Relationship>>
    requires forall k :: 0 <= k < |assets| ==> assets[k].Asset?
  {
    if assets == [] then []
    else
      var last := assets[|assets| - 1];
      AllFindingBatches(assets[..|assets| - 1], findingsOf)
      + EdgeBatches(HAS, last, FindingsOf(last, findingsOf(last.id)))
  }

  /** Each relationship is the asset that listed the finding HAS the matching
      finding entity: exactly one HAS per finding entity, in the same order. */
  lemma {:induction false} FindingEdgesMatchFindings(assets: seq<Entity>, findingsOf: string -> seq<AssetFinding>)
    requires forall k :: 0 <= k < |assets| ==> assets[k].Asset?
    ensures |AllFindingBatches(assets, findingsOf)| == |AllFindings(assets, findingsOf)|
    ensures forall i :: 0 <= i < |AllFindings(assets, findingsOf)| ==>
              var b := AllFindingBatches(assets, findingsOf)[i];
              var f := AllFindings(assets, findingsOf)[i];
              |b| == 1 && b[0].cls == HAS && b[0].fromType == ASSET_TYPE
              && b[0].toType == FINDING_TYPE && b[0].toKey == f.key
              && exists k :: 0 <= k < |assets| && f in FindingsOf(assets[k], findingsOf(assets[k].id))
                             && b[0].fromKey == assets[k].key
  {
    if assets != [] {
      var init := assets[..|assets| - 1];
      var last := assets[|assets| - 1];
      FindingEdgesMatchFindings(init, findingsOf);
      var mine := FindingsOf(last, findingsOf(last.id));
      EdgeBatchesAreSingletons(HAS, last, mine);
      var fs, bs := AllFindings(init, findingsOf), AllFindingBatches(init, findingsOf);
      forall i | 0 <= i < |fs + mine|
        ensures var b := (bs + EdgeBatches(HAS, last, mine))[i];
                var f := (fs + mine)[i];
                |b| == 1 && b[0].cls == HAS && b[0].fromType == ASSET_TYPE
                && b[0].toType == FINDING_TYPE && b[0].toKey == f.key
                && exists k :: 0 <= k < |assets| && f in FindingsOf(assets[k], findingsOf(assets[k].id))
                               && b[0].fromKey == assets[k].key
      {
        if i >= |fs| {
          assert (bs + EdgeBatches(HAS, last, mine))[i] == [Edge(HAS, last, mine[i - |fs|])];
          assert (fs + mine)[i] == mine[i - |fs|];
          assert assets[|assets| - 1] == last;
        } else {
          assert (bs + EdgeBatches(HAS, last, mine))[i] == bs[i];
          assert (fs + mine)[i] == fs[i];
          var k :| 0 <= k < |init| && fs[i] in FindingsOf(init[k], findingsOf(init[k].id))
                   && bs[i][0].fromKey == init[k].key;
          assert init[k] == assets[k];
        }
      }
    }
  }

  /** One inner iteration: a finding of the current asset. */
  lemma FindingStep(es: seq<Entity>, bs: seq<seq<Relationship>>, asset: Entity, fs: seq<AssetFinding>, j: nat)
    requires asset.Asset? && j < |fs|
    ensures es + FindingsOf(asset, fs[..j + 1]) == es + FindingsOf(asset, fs[..j]) + [CreateFindingEntity(fs[j], asset.id)]
    ensures bs + EdgeBatches(HAS, asset, FindingsOf(asset, fs[..j + 1]))
            == bs + EdgeBatches(HAS, asset, FindingsOf(asset, fs[..j])) + [[Edge(HAS, asset, CreateFindingEntity(fs[j], asset.id))]]
  {
    var e := CreateFindingEntity(fs[j], asset.id);
    assert fs[..j + 1][..j] == fs[..j];
    EdgeBatchesSnoc(HAS, asset, FindingsOf(asset, fs[..j]), e);
    AppendSnoc(es, FindingsOf(asset, fs[..j]), e);
    AppendSnoc(bs, EdgeBatches(HAS, asset, FindingsOf(asset, fs[..j])), [Edge(HAS, asset, e)]);
  }

  /** One outer iteration: all findings of the current asset. */
  lemma AssetStep(es: seq<Entity>, bs: seq<seq<Relationship>>, assets: seq<Entity>,
                  findingsOf: string -> seq<AssetFinding>, k: nat)
    requires forall i :: 0 <= i < |assets| ==> assets[i].Asset?
    requires k < |assets|
    ensures es + AllFindings(assets[..k + 1], findingsOf)
            == es + AllFindings(assets[..k], findingsOf) + FindingsOf(assets[k], findingsOf(assets[k].id))
    ensures bs + AllFindingBatches(assets[..k + 1], findingsOf)
            == bs + AllFindingBatches(assets[..k], findingsOf)
               + EdgeBatches(HAS, assets[k], FindingsOf(assets[k], findingsOf(assets[k].id)))
  {
    assert assets[..k + 1][..k] == assets[..k];
  }

  /** The iterateVulnerabilities callback for one asset: each listed
      finding becomes an entity, then an asset HAS finding relationship. */
  method AddAssetFindings(js: JobState, asset: Entity, fs: seq<AssetFinding>)
    requires js.Valid() && asset.Asset?
    modifies js
    ensures js.Valid() && js.data == old(js.data)
    ensures js.entities == old(js.entities) + FindingsOf(asset, fs)
    ensures js.batches == old(js.batches) + EdgeBatches(HAS, asset, FindingsOf(asset, fs))
  {
    var j := 0;
    while j < |fs|
      invariant 0 <= j <= |fs|
      invariant js.Valid() && js.data == old(js.data)
      invariant js.entities == old(js.entities) + FindingsOf(asset, fs[..j])
      invariant js.batches == old(js.batches) + EdgeBatches(HAS, asset, FindingsOf(asset, fs[..j]))
    {
      var finding := CreateFindingEntity(fs[j], asset.id);
      FindingStep(old(js.entities), old(js.batches), asset, fs, j);
      js.AddEntity(finding);
      js.AddRelationship(Edge(HAS, asset, finding));
      j := j + 1;
    }
    assert fs[..j] == fs;
  }

  /** fetchAssetVulnerabilities: for every asset entity, in order, and every
      finding the listing returns for its id, in order, one finding entity and
      then one asset HAS finding relationship. No key check guards the add,
      so a finding listed twice is added twice. */
  method FetchAssetVulnerabilities(js: JobState, findingsOf: string -> seq<AssetFinding>)
    requires js.Valid()
    modifies js
    ensures js.Valid() && js.data == old(js.data)
    ensures forall k :: 0 <= k < |old(js.EntitiesOfType(ASSET_TYPE))| ==> old(js.EntitiesOfType(ASSET_TYPE))[k].Asset?
    ensures js.entities == old(js.entities) + AllFindings(old(js.EntitiesOfType(ASSET_TYPE)), findingsOf)
    ensures js.batches == old(js.batches) + AllFindingBatches(old(js.EntitiesOfType(ASSET_TYPE)), findingsOf)
  {
    var assets := js.EntitiesOfType(ASSET_TYPE);
    OfTypeAssetsAreAssets(js.entities);
    var k := 0;
    while k < |assets|
      invariant 0 <= k <= |assets|
      invariant js.Valid() && js.data == old(js.data)
      invariant js.entities == old(js.entities) + AllFindings(assets[..k], findingsOf)
      invariant js.batches == old(js.batches) + AllFindingBatches(assets[..k], findingsOf)
    {
      AssetStep(old(js.entities), old(js.batches), assets, findingsOf, k);
      AddAssetFindings(js, assets[k], findingsOf(assets[k].id));
      k := k + 1;
    }
    assert assets[..k] == assets;
  }
}
