/** src/steps/sites.ts: site entities, each owned by the account. */
module Sites {
  import opened Wrappers
  import opened Text
  import opened Seqs
  import opened Resources
  import opened Graph

  /** getSiteKey: `insightvm_site:<id>`. */
  function SiteKey(id: nat): (k: string)
    ensures KeyId(SITE_TYPE, k) == Some(DecimalString(id))
  {
    KeyIdOfEntityKey(SITE_TYPE, DecimalString(id));
    EntityKey(SITE_TYPE, DecimalString(id))
  }

  /** getSiteIdFromSiteKey, which the scan-assets step imports from this file
      but which the file does not define: the part after `insightvm_site:`, or
      nothing for a key of another form. */
  function SiteIdFromSiteKey(key: string): (id: Option<string>)
    ensures id.Some? ==> key == EntityKey(SITE_TYPE, id.value)
  {
    KeyId(SITE_TYPE, key)
  }

  /** Reading the id back out of a site key gives the site's decimal id. */
  lemma SiteIdOfSiteKey(id: nat)
    ensures SiteIdFromSiteKey(SiteKey(id)) == Some(DecimalString(id))
    ensures SiteIdFromSiteKey(SiteKey(id)).value != ""
  {
  }

  /** The site entity: keyed by the id, its decimal id, name, type, importance,
      asset count and first self link. */
  function CreateSiteEntity(s: SiteResource): (e: Entity)
    ensures e.Site? && e.Type() == SITE_TYPE
    ensures e.key == SiteKey(s.id) && e.id == DecimalString(s.id)
    ensures e.name == s.name && e.siteType == s.siteType && e.importance == s.importance
    ensures e.assets == s.assets && e.webLink == SelfHref(s.links)
  {
    Site(SiteKey(s.id), DecimalString(s.id), s.name, s.siteType, s.importance, s.assets, SelfHref(s.links))
  }

  /** fetchSites: one site entity and one account HAS site relationship per
      listed site, in listing order. */
  method FetchSites(js: JobState, sites: seq<SiteResource>)
    requires js.Valid() && js.HasAccount()
    modifies js
    ensures js.Valid() && js.data == old(js.data)
    ensures js.entities == old(js.entities) + Map(sites, CreateSiteEntity)
    ensures js.batches == old(js.batches) + EdgeBatches(HAS, old(js.AccountEntity()), Map(sites, CreateSiteEntity))
  {
    var account := js.AccountEntity();
    var i := 0;
    while i < |sites|
      invariant 0 <= i <= |sites|
      invariant js.Valid() && js.data == old(js.data)
      invariant js.entities == old(js.entities) + Map(sites[..i], CreateSiteEntity)
      invariant js.batches == old(js.batches) + EdgeBatches(HAS, account, Map(sites[..i], CreateSiteEntity))
    {
      var site := CreateSiteEntity(sites[i]);
      js.AddEntity(site);
      js.AddRelationship(Edge(HAS, account, site));
      EntityAndEdgeStep(HAS, account, sites, CreateSiteEntity, i, old(js.entities), old(js.batches));
      i := i + 1;
    }
    assert sites[..i] == sites;
  }

  /** The k-th relationship fetchSites adds is the account HAS the site whose
      key is built from the k-th listed site's id. */
  lemma SiteRelationshipAt(account: Entity, sites: seq<SiteResource>, k: nat)
    requires account.Account? && k < |sites|
    ensures EdgeBatches(HAS, account, Map(sites, CreateSiteEntity))[k]
            == [Relationship(HAS, ACCOUNT_TYPE, account.key, SITE_TYPE, SiteKey(sites[k].id))]
  {
    EdgeBatchesAreSingletons(HAS, account, Map(sites, CreateSiteEntity));
  }
}
