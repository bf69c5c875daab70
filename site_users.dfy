/** src/steps/site-users.ts: each site HAS the users listed for it that are
    already in the job state. */
module SiteUsers {
  import opened Wrappers
  import opened Seqs
  import opened Resources
  import opened Graph
  import Access

  /** findEntity(getUserKey(user.id)) against the given entities. */
  function UserOf(es: seq<Entity>, u: UserResource): Option<Entity>
  {
    FindIn(es, Access.UserKey(u.id))
  }

  /** The relationships added for one site: site HAS user for each listed
      user that is found, each in a batch of its own. */
  function SiteUserBatches(es: seq<Entity>, site: Entity, users: seq<UserResource>): (r: seq<seq<Relationship>>)
    ensures |r| <= |users|
  {
    if users == [] then []
    else
      var last := users[|users| - 1];
      SiteUserBatches(es, site, users[..|users| - 1])
      + (match UserOf(es, last) case Some(u) => [[Edge(HAS, site, u)]] case None => [])
  }

  /** Every batch is a single site HAS user relationship whose target is the
      entity found for a listed user. */
  lemma {:induction false} SiteUserBatchesAreFoundUsers(es: seq<Entity>, site: Entity, users: seq<UserResource>)
    ensures forall r: seq<Relationship> :: r in SiteUserBatches(es, site, users) ==>
              |r| == 1 && r[0].cls == HAS && r[0].fromKey == site.key && r[0].toKey in KeysOf(es)
              && exists i :: 0 <= i < |users| && UserOf(es, users[i]).Some?
                             && r == [Edge(HAS, site, UserOf(es, users[i]).value)]
  {
    if users != [] {
      var init := users[..|users| - 1];
      SiteUserBatchesAreFoundUsers(es, site, init);
      assert forall i :: 0 <= i < |init| ==> init[i] == users[i];
    }
  }

  /** The positions of the listed users that are found. */
  function FoundAt(es: seq<Entity>, users: seq<UserResource>): nat -> bool
  {
    (i: nat) => i < |users| && UserOf(es, users[i]).Some?
  }

  /** One batch per found listed user, in listing order: the batches are
      those of the users at the increasing positions that are found, and of
      no others, so there are exactly as many batches as found listings. */
  lemma {:induction false} SiteUserBatchesFollowListing(es: seq<Entity>, site: Entity, users: seq<UserResource>)
    ensures var idx := IndicesWhere(|users|, FoundAt(es, users));
            Selects(idx, |users|, FoundAt(es, users)) && |SiteUserBatches(es, site, users)| == |idx|
            && forall j :: 0 <= j < |idx| ==>
                 idx[j] < |users| && UserOf(es, users[idx[j]]).Some? &&
                 SiteUserBatches(es, site, users)[j] == [Edge(HAS, site, UserOf(es, users[idx[j]]).value)]
  {
    var idx := IndicesWhere(|users|, FoundAt(es, users));
    IndicesWhereSelects(|users|, FoundAt(es, users));
    SiteUserPrefixFollowsListing(es, site, users, |users|);
    assert users[..|users|] == users;
    forall j | 0 <= j < |idx|
      ensures idx[j] < |users| && UserOf(es, users[idx[j]]).Some?
              && SiteUserBatches(es, site, users)[j] == [Edge(HAS, site, UserOf(es, users[idx[j]]).value)]
    {
      assert FoundAt(es, users)(idx[j]);
    }
  }

  /** The batch of the user at position i, when that user is found. */
  function BatchOfFoundAt(es: seq<Entity>, site: Entity, users: seq<UserResource>, i: nat): seq<Relationship>
  {
    if i < |users| && UserOf(es, users[i]).Some? then [Edge(HAS, site, UserOf(es, users[i]).value)] else []
  }

  lemma {:induction false} SiteUserPrefixFollowsListing(es: seq<Entity>, site: Entity, users: seq<UserResource>, m: nat)
    requires m <= |users|
    ensures var idx := IndicesWhere(m, FoundAt(es, users));
            |SiteUserBatches(es, site, users[..m])| == |idx|
            && forall j :: 0 <= j < |idx| ==> SiteUserBatches(es, site, users[..m])[j] == BatchOfFoundAt(es, site, users, idx[j])
  {
    if m > 0 {
      SiteUserPrefixFollowsListing(es, site, users, m - 1);
      var p := FoundAt(es, users);
      var idx0, r0 := IndicesWhere(m - 1, p), SiteUserBatches(es, site, users[..m - 1]);
      assert users[..m][..m - 1] == users[..m - 1] && users[..m][m - 1] == users[m - 1];
      var idx, r := IndicesWhere(m, p), SiteUserBatches(es, site, users[..m]);
      var found := UserOf(es, users[m - 1]);
      assert idx == idx0 + (if p(m - 1) then [m - 1] else []);
      assert r == r0 + (match found case Some(u) => [[Edge(HAS, site, u)]] case None => []);
      if found.Some? {
        assert p(m - 1);
        assert BatchOfFoundAt(es, site, users, m - 1) == [Edge(HAS, site, found.value)];
        forall j | 0 <= j < |idx|
          ensures r[j] == BatchOfFoundAt(es, site, users, idx[j])
        {
          if j < |idx0| {
            assert idx[j] == idx0[j] && r[j] == r0[j];
          }
        }
      } else {
        assert !p(m - 1);
      }
    } else {
      assert users[..m] == [];
    }
  }

  /** Conversely, every listed user that is found gets its relationship. */
  lemma {:induction false} FoundUserIsLinked(es: seq<Entity>, site: Entity, users: seq<UserResource>, k: nat)
    requires k < |users| && UserOf(es, users[k]).Some?
    ensures [Edge(HAS, site, UserOf(es, users[k]).value)] in SiteUserBatches(es, site, users)
  {
    var init := users[..|users| - 1];
    if k < |init| {
      FoundUserIsLinked(es, site, init, k);
      assert init[k] == users[k];
    }
  }

  /** The relationships added over all sites, site by site. */
  function AllSiteUserBatches(es: seq<Entity>, sites: seq<Entity>, usersOf: string -> seq<UserResource>)
    : seq<seq<Relationship>>
    requires forall k :: 0 <= k < |sites| ==> sites[k].Site?
  {
    if sites == [] then []
    else
      var last := sites[|sites| - 1];
      AllSiteUserBatches(es, sites[..|sites| - 1], usersOf) + SiteUserBatches(es, last, usersOf(last.id))
  }

  lemma UserStep(bs: seq<seq<Relationship>>, es: seq<Entity>, site: Entity, users: seq<UserResource>, i: nat)
    requires i < |users|
    ensures bs + SiteUserBatches(es, site, users[..i + 1])
            == bs + SiteUserBatches(es, site, users[..i])
               + (match UserOf(es, users[i]) case Some(u) => [[Edge(HAS, site, u)]] case None => [])
  {
    assert users[..i + 1][..i] == users[..i];
    AppendAssoc(bs, SiteUserBatches(es, site, users[..i]),
                match UserOf(es, users[i]) case Some(u) => [[Edge(HAS, site, u)]] case None => []);
  }

  lemma SiteStep(bs: seq<seq<Relationship>>, es: seq<Entity>, sites: seq<Entity>,
                 usersOf: string -> seq<UserResource>, k: nat)
    requires forall j :: 0 <= j < |sites| ==> sites[j].Site?
    requires k < |sites|
    ensures bs + AllSiteUserBatches(es, sites[..k + 1], usersOf)
            == bs + AllSiteUserBatches(es, sites[..k], usersOf) + SiteUserBatches(es, sites[k], usersOf(sites[k].id))
  {
    assert sites[..k + 1][..k] == sites[..k];
    AppendAssoc(bs, AllSiteUserBatches(es, sites[..k], usersOf), SiteUserBatches(es, sites[k], usersOf(sites[k].id)));
  }

  /** One listed user: the site HAS the user's entity when it is found. */
  method LinkSiteUser(js: JobState, site: Entity, user: UserResource)
    requires js.Valid()
    modifies js
    ensures js.Valid()
    ensures js.entities == old(js.entities) && js.keys == old(js.keys) && js.data == old(js.data)
    ensures js.batches == old(js.batches)
                          + (match UserOf(js.entities, user) case Some(u) => [[Edge(HAS, site, u)]] case None => [])
  {
    var found := js.FindEntity(Access.UserKey(user.id));
    if found.Some? {
      js.AddRelationship(Edge(HAS, site, found.value));
    }
  }

  /** The iterateSiteUsers callback for one site. */
  method LinkSiteUsers(js: JobState, site: Entity, users: seq<UserResource>)
    requires js.Valid()
    modifies js
    ensures js.Valid()
    ensures js.entities == old(js.entities) && js.keys == old(js.keys) && js.data == old(js.data)
    ensures js.batches == old(js.batches) + SiteUserBatches(old(js.entities), site, users)
  {
    var i := 0;
    while i < |users|
      invariant 0 <= i <= |users|
      invariant js.Valid()
      invariant js.entities == old(js.entities) && js.keys == old(js.keys) && js.data == old(js.data)
      invariant js.batches == old(js.batches) + SiteUserBatches(old(js.entities), site, users[..i])
    {
      UserStep(old(js.batches), old(js.entities), site, users, i);
      LinkSiteUser(js, site, users[i]);
      i := i + 1;
    }
    assert users[..i] == users;
  }

  /** fetchSiteUsers: for every site entity, in order, the users listed for
      its id that are found, each linked once per listing occurrence; users
      that are not found are skipped without an error. No entities are
      created. */
  method FetchSiteUsers(js: JobState, usersOf: string -> seq<UserResource>)
    requires js.Valid()
    modifies js
    ensures js.Valid()
    ensures js.entities == old(js.entities) && js.keys == old(js.keys) && js.data == old(js.data)
    ensures forall k :: 0 <= k < |old(js.EntitiesOfType(SITE_TYPE))| ==> old(js.EntitiesOfType(SITE_TYPE))[k].Site?
    ensures js.batches == old(js.batches)
                          + AllSiteUserBatches(old(js.entities), old(js.EntitiesOfType(SITE_TYPE)), usersOf)
  {
    var sites := js.EntitiesOfType(SITE_TYPE);
    OfTypeSitesAreSites(js.entities);
    var k := 0;
    while k < |sites|
      invariant 0 <= k <= |sites|
      invariant js.Valid()
      invariant js.entities == old(js.entities) && js.keys == old(js.keys) && js.data == old(js.data)
      invariant js.batches == old(js.batches) + AllSiteUserBatches(old(js.entities), sites[..k], usersOf)
    {
      SiteStep(old(js.batches), old(js.entities), sites, usersOf, k);
      LinkSiteUsers(js, sites[k], usersOf(sites[k].id));
      k := k + 1;
    }
    assert sites[..k] == sites;
  }
}
