/** The part of the uniques pallet that the marketplace uses. Deposits are zero in this runtime;
    approvals, freezing, locking and supply limits are not modelled. */
module Uniques {
  import opened Types

  datatype Error = InUse | UnknownCollection | UnknownItem | AlreadyExists | NoPermission | WrongOwner | Overflow

  /** `items` counts the items that exist. */
  datatype Collection = Collection(owner: Account, issuer: Account, admin: Account, items: nat)

  datatype ItemKey = ItemKey(collection: U32, item: U32)

  datatype Ledger = Ledger(collections: map<U32, Collection>, items: map<ItemKey, Account>)

  function HolderOf(u: Ledger, collection: U32, item: U32): Option<Account> {
    var key := ItemKey(collection, item);
    if key in u.items then Some(u.items[key]) else None
  }

  /** The admin of a new collection is also its issuer. */
  function Create(u: Ledger, signer: Account, collection: U32, admin: Account): Result<Ledger, Error> {
    if collection in u.collections then
      Failure(InUse)
    else
      Success(u.(collections := u.collections[collection := Collection(signer, admin, admin, 0)]))
  }

  function Mint(u: Ledger, signer: Account, collection: U32, item: U32, owner: Account): Result<Ledger, Error> {
    if ItemKey(collection, item) in u.items then
      Failure(AlreadyExists)
    else if collection !in u.collections then
      Failure(UnknownCollection)
    else
      var details := u.collections[collection];
      if details.issuer != signer then
        Failure(NoPermission)
      else if details.items >= U32_MAX then
        Failure(Overflow)
      else
        Success(Ledger(u.collections[collection := details.(items := details.items + 1)],
                       u.items[ItemKey(collection, item) := owner]))
  }

  function Transfer(u: Ledger, signer: Account, collection: U32, item: U32, dest: Account): Result<Ledger, Error> {
    if collection !in u.collections then
      Failure(UnknownCollection)
    else if ItemKey(collection, item) !in u.items then
      Failure(UnknownItem)
    else if u.items[ItemKey(collection, item)] != signer && u.collections[collection].admin != signer then
      Failure(NoPermission)
    else
      Success(u.(items := u.items[ItemKey(collection, item) := dest]))
  }

  function Burn(u: Ledger, signer: Account, collection: U32, item: U32, checkOwner: Option<Account>)
    : Result<Ledger, Error>
  {
    if collection !in u.collections then
      Failure(UnknownCollection)
    else if ItemKey(collection, item) !in u.items then
      Failure(UnknownItem)
    else
      var details := u.collections[collection];
      var owner := u.items[ItemKey(collection, item)];
      if details.admin != signer && owner != signer then
        Failure(NoPermission)
      else if checkOwner.Some? && checkOwner.value != owner then
        Failure(WrongOwner)
      else
        var left := if details.items == 0 then 0 else details.items - 1;
        Success(Ledger(u.collections[collection := details.(items := left)],
                       u.items - {ItemKey(collection, item)}))
  }
}
