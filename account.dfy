/** src/steps/account.ts: the account entity. */
module Account {
  import opened Wrappers
  import opened Resources
  import opened Graph
  import Errors

  /** getAccountKey: `insightvm_account:<user>`. */
  function AccountKey(user: string): (k: string)
    ensures KeyId(ACCOUNT_TYPE, k) == Some(user)
  {
    KeyIdOfEntityKey(ACCOUNT_TYPE, user);
    EntityKey(ACCOUNT_TYPE, user)
  }

  /** The account entity: named after the account user, linked to the href of
      the first link (a TypeError when there is none), reachable at the
      configured host. */
  function CreateAccountEntity(account: AccountResource, host: string): (r: Result<Entity, StepError>)
    ensures r.Ok? <==> |account.links| > 0
    ensures r.Ok? ==> r.value == Account(AccountKey(account.user), account.user, Some(account.links[0].href), host)
  {
    if |account.links| == 0 then Err(MissingValue("account.links[0].href"))
    else Ok(Account(AccountKey(account.user), account.user, Some(account.links[0].href), host))
  }

  /** fetchAccountDetails: the same entity is added to the job state and stored
      under ACCOUNT_ENTITY_DATA_KEY; on a failed request or a link-less account
      nothing is written. */
  method FetchAccountDetails(js: JobState, account: Result<AccountResource, Errors.ApiError>, host: string)
    returns (r: Result<(), StepError>)
    requires js.Valid()
    modifies js
    ensures js.Valid() && js.batches == old(js.batches)
    ensures account.Err? ==> r == Err(ApiFailure(account.error))
    ensures r.Ok? <==> account.Ok? && CreateAccountEntity(account.value, host).Ok?
    ensures r.Ok? ==>
              var e := CreateAccountEntity(account.value, host).value;
              && js.entities == old(js.entities) + [e]
              && js.data == old(js.data)[ACCOUNT_ENTITY_DATA_KEY := AccountData(e)]
              && js.HasAccount() && js.AccountEntity() == e
    ensures r.Err? ==> js.entities == old(js.entities) && js.data == old(js.data)
  {
    if account.Err? {
      return Err(ApiFailure(account.error));
    }
    var created := CreateAccountEntity(account.value, host);
    if created.Err? {
      return Err(created.error);
    }
    js.AddEntity(created.value);
    js.SetData(ACCOUNT_ENTITY_DATA_KEY, AccountData(created.value));
    r := Ok(());
  }
}
