/** src/steps/scans.ts: scan entities, each performed by a site that is
    already in the job state. */
module Scans {
  import opened Wrappers
  import opened Text
  import opened Resources
  import opened Graph
  import Seqs
  import Sites

  /** getScanKey: `insightvm_scan:<id>`. */
  function ScanKey(id: nat): (k: string)
    ensures KeyId(SCAN_TYPE, k) == Some(DecimalString(id))
  {
    KeyIdOfEntityKey(SCAN_TYPE, DecimalString(id));
    EntityKey(SCAN_TYPE, DecimalString(id))
  }

  /** The `active` property: false for a finished scan, otherwise left
      undefined (never true). */
  function Active(status: string): (a: Option<bool>)
    ensures a != Some(true)
    ensures a == Some(false) <==> status == "finished"
  {
    if status == "finished" then Some(false) else None
  }

  /** The scan entity: keyed by the id, with its decimal id, site id, name,
      `active` flag, status as state and first self link. */
  function CreateScanEntity(s: ScanResource): (e: Entity)
    ensures e.Scan? && e.Type() == SCAN_TYPE
    ensures e.key == ScanKey(s.id) && e.id == DecimalString(s.id) && e.siteId == s.siteId
    ensures e.name == s.scanName && e.active == Active(s.status) && e.state == s.status
    ensures e.webLink == SelfHref(s.links)
  {
    Scan(ScanKey(s.id), DecimalString(s.id), s.siteId, s.scanName, Active(s.status), s.status, SelfHref(s.links))
  }

  /** findEntity(getSiteKey(scan.siteId)) against the given entities. */
  function SiteOf(es: seq<Entity>, s: ScanResource): Option<Entity>
  {
    FindIn(es, Sites.SiteKey(s.siteId))
  }

  /** The scan entities fetchScans adds: those of the listed scans whose site
      is among the entities, in listing order. */
  function ScanEntities(es: seq<Entity>, scans: seq<ScanResource>): (r: seq<Entity>)
    ensures forall e :: e in r ==> e.Scan? && KeyId(SCAN_TYPE, e.key).Some?
    ensures forall e :: e in r ==> e.Scan? && FindIn(es, Sites.SiteKey(e.siteId)).Some?
  {
    if scans == [] then []
    else
      var last := scans[|scans| - 1];
      ScanEntities(es, scans[..|scans| - 1]) + (if SiteOf(es, last).Some? then [CreateScanEntity(last)] else [])
  }

  /** The relationships fetchScans adds: site PERFORMED scan for each scan
      whose site was found, each in a batch of its own. */
  function ScanBatches(es: seq<Entity>, scans: seq<ScanResource>): (r: seq<seq<Relationship>>)
    ensures |r| == |ScanEntities(es, scans)|
  {
    if scans == [] then []
    else
      var last := scans[|scans| - 1];
      ScanBatches(es, scans[..|scans| - 1])
      + (match SiteOf(es, last)
         case Some(site) => [[Edge(PERFORMED, site, CreateScanEntity(last))]]
         case None => [])
  }

  /** A scan key is never a site key. */
  lemma ScanKeyIsNotSiteKey(key: string, siteId: nat)
    requires KeyId(SCAN_TYPE, key).Some?
    ensures key != Sites.SiteKey(siteId)
  {
    EntityKeysOfDistinctTypes(SCAN_TYPE, SITE_TYPE, KeyId(SCAN_TYPE, key).value, DecimalString(siteId));
  }

  /** The scans added so far do not disturb the next scan's site lookup. */
  lemma SiteLookupUnaffected(es: seq<Entity>, scans: seq<ScanResource>, i: nat)
    requires i < |scans|
    ensures FindIn(es + ScanEntities(es, scans[..i]), Sites.SiteKey(scans[i].siteId)) == SiteOf(es, scans[i])
  {
    var added := ScanEntities(es, scans[..i]);
    var siteKey := Sites.SiteKey(scans[i].siteId);
    forall y | y in added
      ensures y.key != siteKey
    {
      ScanKeyIsNotSiteKey(y.key, scans[i].siteId);
    }
    FindInUnaffected(es, added, siteKey);
  }

  /** One iteration of fetchScans: the site lookup is not disturbed by the
      scans added so far, and both specifications grow by this scan's share. */
  lemma ScansStep(es: seq<Entity>, bs: seq<seq<Relationship>>, scans: seq<ScanResource>, i: nat)
    requires i < |scans|
    ensures FindIn(es + ScanEntities(es, scans[..i]), Sites.SiteKey(scans[i].siteId)) == SiteOf(es, scans[i])
    ensures es + ScanEntities(es, scans[..i + 1])
            == es + ScanEntities(es, scans[..i])
               + (if SiteOf(es, scans[i]).Some? then [CreateScanEntity(scans[i])] else [])
    ensures bs + ScanBatches(es, scans[..i + 1])
            == bs + ScanBatches(es, scans[..i])
               + (match SiteOf(es, scans[i])
                  case Some(site) => [[Edge(PERFORMED, site, CreateScanEntity(scans[i]))]]
                  case None => [])
  {
    SiteLookupUnaffected(es, scans, i);
    assert scans[..i + 1][..i] == scans[..i];
    Seqs.AppendAssoc(es, ScanEntities(es, scans[..i]),
                if SiteOf(es, scans[i]).Some? then [CreateScanEntity(scans[i])] else []);
    Seqs.AppendAssoc(bs, ScanBatches(es, scans[..i]),
                match SiteOf(es, scans[i])
                case Some(site) => [[Edge(PERFORMED, site, CreateScanEntity(scans[i]))]]
                case None => []);
  }

  /** fetchScans: a scan is added, together with one PERFORMED relationship
      from its site, exactly when its site is already in the job state. */
  method FetchScans(js: JobState, scans: seq<ScanResource>)
    requires js.Valid()
    modifies js
    ensures js.Valid() && js.data == old(js.data)
    ensures js.entities == old(js.entities) + ScanEntities(old(js.entities), scans)
    ensures js.batches == old(js.batches) + ScanBatches(old(js.entities), scans)
  {
    var i := 0;
    while i < |scans|
      invariant 0 <= i <= |scans|
      invariant js.Valid() && js.data == old(js.data)
      invariant js.entities == old(js.entities) + ScanEntities(old(js.entities), scans[..i])
      invariant js.batches == old(js.batches) + ScanBatches(old(js.entities), scans[..i])
    {
      ScansStep(old(js.entities), old(js.batches), scans, i);
      var site := js.FindEntity(Sites.SiteKey(scans[i].siteId));
      if site.Some? {
        var scan := CreateScanEntity(scans[i]);
        js.AddEntity(scan);
        js.AddRelationship(Edge(PERFORMED, site.value, scan));
      }
      i := i + 1;
    }
    assert scans[..i] == scans;
  }

  /** The k-th relationship is the PERFORMED edge from the k-th added scan's
      site to that scan. */
  lemma {:induction false} ScanPerformedBySite(es: seq<Entity>, scans: seq<ScanResource>, k: nat)
    requires k < |ScanEntities(es, scans)|
    ensures ScanEntities(es, scans)[k].Scan?
    ensures FindIn(es, Sites.SiteKey(ScanEntities(es, scans)[k].siteId)).Some?
    ensures ScanBatches(es, scans)[k]
            == [Edge(PERFORMED, FindIn(es, Sites.SiteKey(ScanEntities(es, scans)[k].siteId)).value,
                     ScanEntities(es, scans)[k])]
  {
    var init := scans[..|scans| - 1];
    var last := scans[|scans| - 1];
    if k < |ScanEntities(es, init)| {
      ScanPerformedBySite(es, init, k);
      assert ScanEntities(es, scans)[k] == ScanEntities(es, init)[k];
      assert ScanBatches(es, scans)[k] == ScanBatches(es, init)[k];
    } else {
      assert SiteOf(es, last).Some?;
      assert ScanEntities(es, scans)[k] == CreateScanEntity(last);
    }
  }

  /** The positions of the listed scans whose site is found. */
  function SiteFoundAt(es: seq<Entity>, scans: seq<ScanResource>): nat -> bool
  {
    (i: nat) => i < |scans| && SiteOf(es, scans[i]).Some?
  }

  /** One scan entity per listed scan whose site is found, in listing order:
      the entities added are those of the scans at the increasing positions
      whose site is found, and of no others. */
  lemma {:induction false} ScanEntitiesFollowListing(es: seq<Entity>, scans: seq<ScanResource>)
    ensures var idx := Seqs.IndicesWhere(|scans|, SiteFoundAt(es, scans));
            Seqs.Selects(idx, |scans|, SiteFoundAt(es, scans)) && |ScanEntities(es, scans)| == |idx|
            && forall j :: 0 <= j < |idx| ==>
                 idx[j] < |scans| && SiteOf(es, scans[idx[j]]).Some?
                 && ScanEntities(es, scans)[j] == CreateScanEntity(scans[idx[j]])
  {
    var idx := Seqs.IndicesWhere(|scans|, SiteFoundAt(es, scans));
    Seqs.IndicesWhereSelects(|scans|, SiteFoundAt(es, scans));
    ScanPrefixFollowsListing(es, scans, |scans|);
    assert scans[..|scans|] == scans;
    forall j | 0 <= j < |idx|
      ensures idx[j] < |scans| && SiteOf(es, scans[idx[j]]).Some?
    {
      assert SiteFoundAt(es, scans)(idx[j]);
    }
  }

  lemma {:induction false} ScanPrefixFollowsListing(es: seq<Entity>, scans: seq<ScanResource>, m: nat)
    requires m <= |scans|
    ensures var idx := Seqs.IndicesWhere(m, SiteFoundAt(es, scans));
            |ScanEntities(es, scans[..m])| == |idx|
            && forall j :: 0 <= j < |idx| ==>
                 idx[j] < |scans| && ScanEntities(es, scans[..m])[j] == CreateScanEntity(scans[idx[j]])
  {
    if m > 0 {
      ScanPrefixFollowsListing(es, scans, m - 1);
      var p := SiteFoundAt(es, scans);
      var idx0, r0 := Seqs.IndicesWhere(m - 1, p), ScanEntities(es, scans[..m - 1]);
      assert scans[..m][..m - 1] == scans[..m - 1] && scans[..m][m - 1] == scans[m - 1];
      var idx, r := Seqs.IndicesWhere(m, p), ScanEntities(es, scans[..m]);
      assert idx == idx0 + (if p(m - 1) then [m - 1] else []);
      assert r == r0 + (if SiteOf(es, scans[m - 1]).Some? then [CreateScanEntity(scans[m - 1])] else []);
      if SiteOf(es, scans[m - 1]).Some? {
        assert p(m - 1);
        forall j | 0 <= j < |idx|
          ensures idx[j] < |scans| && r[j] == CreateScanEntity(scans[idx[j]])
        {
          if j < |idx0| {
            assert idx[j] == idx0[j] && r[j] == r0[j];
          }
        }
      } else {
        assert !p(m - 1);
      }
    } else {
      assert scans[..m] == [];
    }
  }

  /** Conversely, every listed scan whose site is found is added. */
  lemma {:induction false} ScanOfFoundSiteIsAdded(es: seq<Entity>, scans: seq<ScanResource>, k: nat)
    requires k < |scans| && SiteOf(es, scans[k]).Some?
    ensures CreateScanEntity(scans[k]) in ScanEntities(es, scans)
  {
    var init := scans[..|scans| - 1];
    if k < |init| {
      ScanOfFoundSiteIsAdded(es, init, k);
      assert init[k] == scans[k];
    }
  }
}
