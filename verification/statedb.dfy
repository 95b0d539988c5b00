/** The persistent world state the dispatcher works on. The StateDB
    implementation is an external collaborator (core/state is not part of
    this model); this module gives the few accessors the dispatcher calls
    the meaning go-ethereum's `StateDB` gives them. A snapshot is a saved
    `World` value and reverting to it is returning that value. */
module StateDb {
  import opened Types

  datatype Account = Account(
    balance: int,
    nonce: U64,
    code: Bytes,
    storage: map<Hash, Hash>)

  datatype World = World(accounts: map<Address, Account>)

  const EmptyAccount: Account := Account(0, 0, [], map[])

  predicate Exist(w: World, a: Address)
  {
    a in w.accounts
  }

  /** The account at `a`, or a fresh empty one (`GetOrNewStateObject`). */
  function AccountOf(w: World, a: Address): Account
  {
    if a in w.accounts then w.accounts[a] else EmptyAccount
  }

  function GetBalance(w: World, a: Address): int
  {
    AccountOf(w, a).balance
  }

  function GetNonce(w: World, a: Address): U64
  {
    AccountOf(w, a).nonce
  }

  function GetCode(w: World, a: Address): Bytes
  {
    AccountOf(w, a).code
  }

  /** Code hash of an account; the zero hash for an account that does not
      exist. */
  function GetCodeHash(w: World, a: Address, keccak: Bytes -> Hash): Hash
  {
    if Exist(w, a) then keccak(GetCode(w, a)) else ZeroHash
  }

  /** Replace the account at `a`, leaving every other account as it was. */
  function Put(w: World, a: Address, acct: Account): (r: World)
    ensures Exist(r, a) && AccountOf(r, a) == acct
    ensures forall b :: b != a ==> (Exist(r, b) <==> Exist(w, b))
    ensures forall b :: b != a ==> AccountOf(r, b) == AccountOf(w, b)
  {
    World(w.accounts[a := acct])
  }

  /** `CreateAccount`: a fresh account whose only inheritance from a
      previous account at the same address is its balance. */
  function CreateAccount(w: World, a: Address): (r: World)
    ensures Exist(r, a)
    ensures AccountOf(r, a) == EmptyAccount.(balance := GetBalance(w, a))
  {
    Put(w, a, EmptyAccount.(balance := GetBalance(w, a)))
  }

  function SetNonce(w: World, a: Address, n: U64): (r: World)
    ensures Exist(r, a)
    ensures AccountOf(r, a) == AccountOf(w, a).(nonce := n)
  {
    Put(w, a, AccountOf(w, a).(nonce := n))
  }

  function SetCode(w: World, a: Address, code: Bytes): (r: World)
    ensures Exist(r, a)
    ensures AccountOf(r, a) == AccountOf(w, a).(code := code)
  {
    Put(w, a, AccountOf(w, a).(code := code))
  }

  function AddBalance(w: World, a: Address, v: nat): (r: World)
    ensures Exist(r, a)
    ensures AccountOf(r, a) == AccountOf(w, a).(balance := GetBalance(w, a) + v)
  {
    Put(w, a, AccountOf(w, a).(balance := GetBalance(w, a) + v))
  }

  function SubBalance(w: World, a: Address, v: nat): (r: World)
    ensures Exist(r, a)
    ensures AccountOf(r, a) == AccountOf(w, a).(balance := GetBalance(w, a) - v)
  {
    Put(w, a, AccountOf(w, a).(balance := GetBalance(w, a) - v))
  }
}
