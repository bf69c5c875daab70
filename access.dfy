/** src/steps/access.ts: user entities, each owned by the account. */
module Access {
  import opened Wrappers
  import opened Text
  import opened Seqs
  import opened Resources
  import opened Graph

  /** getUserKey: `insightvm_user:<id>`. */
  function UserKey(id: nat): (k: string)
    ensures KeyId(USER_TYPE, k) == Some(DecimalString(id))
  {
    KeyIdOfEntityKey(USER_TYPE, DecimalString(id));
    EntityKey(USER_TYPE, DecimalString(id))
  }

  /** Distinct user ids give distinct user keys. */
  lemma UserKeyInjective(a: nat, b: nat)
    requires UserKey(a) == UserKey(b)
    ensures a == b
  {
    DecimalStringInjective(a, b);
  }

  /** The user entity: keyed by the id, its decimal id, login as username,
      the email, and the first self link. */
  function CreateUserEntity(u: UserResource): (e: Entity)
    ensures e.User? && e.Type() == USER_TYPE
    ensures e.key == UserKey(u.id) && e.id == DecimalString(u.id)
    ensures e.username == u.login && e.email == u.email && e.webLink == SelfHref(u.links)
  {
    User(UserKey(u.id), DecimalString(u.id), u.login, u.email, SelfHref(u.links))
  }

  /** fetchUsers: one user entity and one account HAS user relationship per
      listed user, in listing order. The account was stored by the account
      step, on which this step depends. */
  method FetchUsers(js: JobState, users: seq<UserResource>)
    requires js.Valid() && js.HasAccount()
    modifies js
    ensures js.Valid() && js.data == old(js.data)
    ensures js.entities == old(js.entities) + Map(users, CreateUserEntity)
    ensures js.batches == old(js.batches)
                          + EdgeBatches(HAS, old(js.AccountEntity()), Map(users, CreateUserEntity))
  {
    var account := js.AccountEntity();
    var i := 0;
    while i < |users|
      invariant 0 <= i <= |users|
      invariant js.Valid() && js.data == old(js.data)
      invariant js.entities == old(js.entities) + Map(users[..i], CreateUserEntity)
      invariant js.batches == old(js.batches)
                              + EdgeBatches(HAS, account, Map(users[..i], CreateUserEntity))
    {
      var user := CreateUserEntity(users[i]);
      js.AddEntity(user);
      js.AddRelationship(Edge(HAS, account, user));
      EntityAndEdgeStep(HAS, account, users, CreateUserEntity, i, old(js.entities), old(js.batches));
      i := i + 1;
    }
    assert users[..i] == users;
  }

  /** The k-th relationship fetchUsers adds is the account HAS the user whose
      key is built from the k-th listed user's id. */
  lemma UserRelationshipAt(account: Entity, users: seq<UserResource>, k: nat)
    requires account.Account? && k < |users|
    ensures EdgeBatches(HAS, account, Map(users, CreateUserEntity))[k]
            == [Relationship(HAS, ACCOUNT_TYPE, account.key, USER_TYPE, UserKey(users[k].id))]
  {
    EdgeBatchesAreSingletons(HAS, account, Map(users, CreateUserEntity));
  }
}
