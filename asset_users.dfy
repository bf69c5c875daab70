/** src/steps/asset-users.ts: user OWNS asset relationships, sent through one
    buffer shared by all assets. */
module AssetUsers {
  import opened Seqs
  import opened Resources
  import opened Graph
  import Access

  /** user OWNS asset, by key. */
  function Owns(userKey: string, asset: Entity): Relationship
  {
    Relationship(OWNS, USER_TYPE, userKey, ASSET_TYPE, asset.key)
  }

  /** The relationships pushed for one asset: one per listed user whose key is
      in the job state, in listing order. */
  function OwnersOf(keys: set<string>, asset: Entity, users: seq<UserResource>): (r: seq<Relationship>)
    ensures |r| <= |users|
  {
    if users == [] then []
    else
      var last := users[|users| - 1];
      var userKey := Access.UserKey(last.id);
      OwnersOf(keys, asset, users[..|users| - 1]) + (if userKey in keys then [Owns(userKey, asset)] else [])
  }

  /** Every relationship pushed is a listed user, whose key is present, OWNS
      the asset. */
  lemma {:induction false} OwnersArePresentUsers(keys: set<string>, asset: Entity, users: seq<UserResource>)
    ensures forall r: Relationship :: r in OwnersOf(keys, asset, users) ==>
              r.cls == OWNS && r.fromType == USER_TYPE && r.fromKey in keys
              && r.toType == ASSET_TYPE && r.toKey == asset.key
              && exists i :: 0 <= i < |users| && r.fromKey == Access.UserKey(users[i].id)
  {
    if users != [] {
      var init := users[..|users| - 1];
      OwnersArePresentUsers(keys, asset, init);
      assert forall i :: 0 <= i < |init| ==> init[i] == users[i];
    }
  }

  /** Every listed user whose key is present is pushed. */
  lemma {:induction false} PresentUserOwns(keys: set<string>, asset: Entity, users: seq<UserResource>, k: nat)
    requires k < |users| && Access.UserKey(users[k].id) in keys
    ensures Owns(Access.UserKey(users[k].id), asset) in OwnersOf(keys, asset, users)
  {
    var init := users[..|users| - 1];
    if k < |init| {
      PresentUserOwns(keys, asset, init, k);
      assert init[k] == users[k];
    }
  }

  lemma OwnersStep(keys: set<string>, asset: Entity, users: seq<UserResource>, i: nat, buffer: seq<Relationship>)
    requires i < |users|
    ensures var userKey := Access.UserKey(users[i].id);
            buffer + OwnersOf(keys, asset, users[..i + 1])
            == buffer + OwnersOf(keys, asset, users[..i]) + (if userKey in keys then [Owns(userKey, asset)] else [])
  {
    assert users[..i + 1][..i] == users[..i];
  }

  /** The relationships pushed over all assets, asset by asset. */
  function AllOwners(keys: set<string>, assets: seq<Entity>, usersOf: string -> seq<UserResource>): seq<Relationship>
    requires forall k :: 0 <= k < |assets| ==> assets[k].Asset?
  {
    if assets == [] then []
    else
      var last := assets[|assets| - 1];
      AllOwners(keys, assets[..|assets| - 1], usersOf) + OwnersOf(keys, last, usersOf(last.id))
  }

  lemma AllOwnersStep(keys: set<string>, assets: seq<Entity>, usersOf: string -> seq<UserResource>, k: nat)
    requires forall j :: 0 <= j < |assets| ==> assets[j].Asset?
    requires k < |assets|
    ensures AllOwners(keys, assets[..k + 1], usersOf)
            == AllOwners(keys, assets[..k], usersOf) + OwnersOf(keys, assets[k], usersOf(assets[k].id))
  {
    assert assets[..k + 1][..k] == assets[..k];
  }

  /** The iterateAssetUsers callback for one asset: the present users are
      pushed onto the shared buffer, which is flushed whenever it is full. */
  method PushOwners(js: JobState, asset: Entity, users: seq<UserResource>, buffer: seq<Relationship>)
    returns (rest: seq<Relationship>, ghost flushed: seq<seq<Relationship>>)
    requires js.Valid() && |buffer| < BATCH_SIZE
    modifies js
    ensures js.Valid()
    ensures js.entities == old(js.entities) && js.keys == old(js.keys) && js.data == old(js.data)
    ensures js.batches == old(js.batches) + flushed
    ensures forall i :: 0 <= i < |flushed| ==> |flushed[i]| == BATCH_SIZE
    ensures |rest| < BATCH_SIZE
    ensures Flatten(flushed) + rest == buffer + OwnersOf(js.keys, asset, users)
  {
    rest, flushed := buffer, [];
    var i := 0;
    while i < |users|
      invariant 0 <= i <= |users|
      invariant js.Valid()
      invariant js.entities == old(js.entities) && js.keys == old(js.keys) && js.data == old(js.data)
      invariant js.batches == old(js.batches) + flushed
      invariant forall j :: 0 <= j < |flushed| ==> |flushed[j]| == BATCH_SIZE
      invariant |rest| < BATCH_SIZE
      invariant Flatten(flushed) + rest == buffer + OwnersOf(js.keys, asset, users[..i])
    {
      OwnersStep(js.keys, asset, users, i, buffer);
      var userKey := Access.UserKey(users[i].id);
      if js.HasKey(userKey) {
        ghost var pushed := buffer + OwnersOf(js.keys, asset, users[..i]);
        var prev := rest;
        ghost var sent;
        rest, sent := PushRelationship(js, rest, Owns(userKey, asset));
        BufferStep(flushed, prev, sent, rest, pushed, [Owns(userKey, asset)], BATCH_SIZE);
        AppendAssoc(old(js.batches), flushed, sent);
        flushed := flushed + sent;
      }
      i := i + 1;
    }
    assert users[..i] == users;
  }

  /** One iteration of fetchAssetUsers' asset loop: the asset's owners go
      through the shared buffer, extending what was sent and what is left by
      exactly those relationships. */
  method PushAssetOwners(js: JobState, assets: seq<Entity>, usersOf: string -> seq<UserResource>, k: nat,
                         buffer: seq<Relationship>, ghost bs: seq<seq<Relationship>>, ghost full: seq<seq<Relationship>>)
    returns (rest: seq<Relationship>, ghost full': seq<seq<Relationship>>)
    requires js.Valid() && k < |assets|
    requires forall j :: 0 <= j < |assets| ==> assets[j].Asset?
    requires js.batches == bs + full
    requires forall j :: 0 <= j < |full| ==> |full[j]| == BATCH_SIZE
    requires |buffer| < BATCH_SIZE
    requires Flatten(full) + buffer == AllOwners(js.keys, assets[..k], usersOf)
    modifies js
    ensures js.Valid()
    ensures js.entities == old(js.entities) && js.keys == old(js.keys) && js.data == old(js.data)
    ensures js.batches == bs + full'
    ensures forall j :: 0 <= j < |full'| ==> |full'[j]| == BATCH_SIZE
    ensures |rest| < BATCH_SIZE
    ensures Flatten(full') + rest == AllOwners(js.keys, assets[..k + 1], usersOf)
  {
    AllOwnersStep(js.keys, assets, usersOf, k);
    ghost var sent;
    rest, sent := PushOwners(js, assets[k], usersOf(assets[k].id), buffer);
    BufferStep(full, buffer, sent, rest, AllOwners(js.keys, assets[..k], usersOf),
               OwnersOf(js.keys, assets[k], usersOf(assets[k].id)), BATCH_SIZE);
    AppendAssoc(bs, full, sent);
    full' := full + sent;
  }

  /** fetchAssetUsers: for every asset entity, in order, each listed user
      whose key is in the job state gives one user OWNS asset relationship;
      the shared buffer sends them in batches of five and a final shorter
      batch, so the batches added are exactly Chunks of all of them. No
      entities are created. */
  method FetchAssetUsers(js: JobState, usersOf: string -> seq<UserResource>)
    requires js.Valid()
    modifies js
    ensures js.Valid()
    ensures js.entities == old(js.entities) && js.keys == old(js.keys) && js.data == old(js.data)
    ensures forall k :: 0 <= k < |old(js.EntitiesOfType(ASSET_TYPE))| ==> old(js.EntitiesOfType(ASSET_TYPE))[k].Asset?
    ensures js.batches == old(js.batches)
                          + Chunks(AllOwners(old(js.keys), old(js.EntitiesOfType(ASSET_TYPE)), usersOf), BATCH_SIZE)
  {
    var assets := js.EntitiesOfType(ASSET_TYPE);
    OfTypeAssetsAreAssets(js.entities);
    var buffer: seq<Relationship> := [];
    ghost var full: seq<seq<Relationship>> := [];
    var k := 0;
    while k < |assets|
      invariant 0 <= k <= |assets|
      invariant js.Valid()
      invariant js.entities == old(js.entities) && js.keys == old(js.keys) && js.data == old(js.data)
      invariant js.batches == old(js.batches) + full
      invariant forall j :: 0 <= j < |full| ==> |full[j]| == BATCH_SIZE
      invariant |buffer| < BATCH_SIZE
      invariant Flatten(full) + buffer == AllOwners(js.keys, assets[..k], usersOf)
    {
      buffer, full := PushAssetOwners(js, assets, usersOf, k, buffer, old(js.batches), full);
      k := k + 1;
    }
    assert assets[..k] == assets;
    FlushRemainder(js, buffer);
    BatchesAfterFlush(old(js.batches), full, buffer);
  }
}
