/**
 * The account table, keyed by the owning user's id, and the repository that
 * reads and creates its rows.
 *
 * The booking handler reads each account's phone number and reminder lead time,
 * so the row carries those two optional columns beside the ones the account
 * entity exposes.
 */
module AccountRepository {
  import opened Wrappers
  import opened AppErrors

  /** A row of the account table. `expiresAt` is an instant in milliseconds. */
  datatype Account = Account(
    id: string,
    userId: string,
    kind: string,
    tokensLeft: int,
    expiresAt: Option<int>,
    phoneNumber: Option<string>,
    remindBeforeMinutes: Option<int>)

  /** The account entity the repository hands out. */
  datatype AccountEntity = AccountEntity(id: string, userId: string, kind: string, tokensLeft: int, expiresAt: Option<int>)

  /** What `getMe` returns: the caller's account, or the placeholder for a user who has none yet. */
  datatype Me = Existing(entity: AccountEntity) | NotCreatedYet(userId: string) {
    function Kind(): string {
      match this
      case Existing(e) => e.kind
      case NotCreatedYet(_) => PlaceholderKind
    }
  }

  const PlaceholderKind := "not_created_yet"
  const DefaultKind := "standard"
  const DefaultTokens := 100

  /** Every failure other than a duplicate, including the 400 for an empty user id, is rewrapped into this. */
  const DatabaseError := AppError(500, "Database error")
  const AlreadyExists := AppError(409, "Account already exists")

  function ToEntity(a: Account): AccountEntity {
    AccountEntity(a.id, a.userId, a.kind, a.tokensLeft, a.expiresAt)
  }

  /** The row a new user's account starts as. */
  function NewAccount(id: string, userId: string): Account {
    Account(id, userId, DefaultKind, DefaultTokens, None, None, None)
  }

  /** The table: account rows by user id. */
  class AccountTable {
    var accounts: map<string, Account>

    /** Each row sits under its own user id, and account ids are unique. */
    ghost predicate Valid()
      reads this
    {
      && (forall u :: u in accounts ==> accounts[u].userId == u)
      && (forall u, v :: u in accounts && v in accounts && u != v ==> accounts[u].id != accounts[v].id)
    }

    /** True when `id` is not the id of any account; new rows get such an id. */
    predicate FreshId(id: string)
      reads this
    {
      forall u :: u in accounts ==> accounts[u].id != id
    }

    constructor ()
      ensures Valid() && accounts == map[]
    {
      accounts := map[];
    }

    /** `getMe`: the caller's account, or the placeholder; an empty user id is a database error. */
    function GetMe(userId: string): (r: Result<Me, AppError>)
      reads this
      ensures userId == "" <==> r == Failure(DatabaseError)
      ensures r.Failure? ==> userId == ""
      ensures userId != "" && userId !in accounts ==> r == Success(NotCreatedYet(userId)) && r.value.Kind() == "not_created_yet"
      ensures userId != "" && userId in accounts ==>
        r.Success? && r.value.Existing? && r.value.entity.userId == accounts[userId].userId
        && r.value.entity.id == accounts[userId].id && r.value.entity.kind == accounts[userId].kind
        && r.value.entity.tokensLeft == accounts[userId].tokensLeft
    {
      if userId == "" then Failure(DatabaseError)
      else if userId !in accounts then Success(NotCreatedYet(userId))
      else Success(Existing(ToEntity(accounts[userId])))
    }

    /**
     * `createAccount`: inserts a standard account with 100 tokens and no expiry.
     * `newId` is the id the database generates for the row.
     */
    method CreateAccount(userId: string, newId: string) returns (r: Result<AccountEntity, AppError>)
      requires Valid() && FreshId(newId)
      modifies this
      ensures Valid()
      ensures userId == "" ==> r == Failure(DatabaseError) && accounts == old(accounts)
      ensures userId != "" && userId in old(accounts) ==> r == Failure(AlreadyExists) && accounts == old(accounts)
      ensures userId != "" && userId !in old(accounts) ==>
        && accounts == old(accounts)[userId := NewAccount(newId, userId)]
        && r == Success(AccountEntity(newId, userId, "standard", 100, None))
        && GetMe(userId) == Success(Existing(r.value))
    {
      if userId == "" {
        return Failure(DatabaseError);
      }
      if userId in accounts {
        return Failure(AlreadyExists);
      }
      var row := NewAccount(newId, userId);
      accounts := accounts[userId := row];
      r := Success(ToEntity(row));
    }
  }
}
