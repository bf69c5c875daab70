/** src/steps/account-sites.ts: the account HAS every site entity. */
module AccountSites {
  import opened Seqs
  import opened Graph

  /** fetchAccountSiteRelationships: without a stored account nothing is
      added; otherwise one account HAS site relationship per site entity, in
      the order the sites were added. No entities are created. */
  method FetchAccountSiteRelationships(js: JobState)
    requires js.Valid()
    modifies js
    ensures js.Valid()
    ensures js.entities == old(js.entities) && js.keys == old(js.keys) && js.data == old(js.data)
    ensures !old(js.HasAccount()) ==> js.batches == old(js.batches)
    ensures old(js.HasAccount()) ==>
              js.batches == old(js.batches) + EdgeBatches(HAS, old(js.AccountEntity()), old(js.EntitiesOfType(SITE_TYPE)))
  {
    if !js.HasAccount() {
      return;
    }
    var account := js.AccountEntity();
    var sites := js.EntitiesOfType(SITE_TYPE);
    var i := 0;
    while i < |sites|
      invariant 0 <= i <= |sites|
      invariant js.Valid()
      invariant js.entities == old(js.entities) && js.keys == old(js.keys) && js.data == old(js.data)
      invariant js.batches == old(js.batches) + EdgeBatches(HAS, account, sites[..i])
    {
      PrefixSnoc(sites, i);
      EdgeBatchesSnoc(HAS, account, sites[..i], sites[i]);
      AppendSnoc(old(js.batches), EdgeBatches(HAS, account, sites[..i]), [Edge(HAS, account, sites[i])]);
      js.AddRelationship(Edge(HAS, account, sites[i]));
      i := i + 1;
    }
    assert sites[..i] == sites;
  }

  /** The k-th relationship is account HAS the k-th site entity. */
  lemma AccountSiteRelationshipAt(account: Entity, es: seq<Entity>, k: nat)
    requires account.Account? && k < |OfType(es, SITE_TYPE)|
    ensures |EdgeBatches(HAS, account, OfType(es, SITE_TYPE))| == |OfType(es, SITE_TYPE)|
    ensures EdgeBatches(HAS, account, OfType(es, SITE_TYPE))[k]
            == [Relationship(HAS, ACCOUNT_TYPE, account.key, SITE_TYPE, OfType(es, SITE_TYPE)[k].key)]
  {
    EdgeBatchesAreSingletons(HAS, account, OfType(es, SITE_TYPE));
  }
}
