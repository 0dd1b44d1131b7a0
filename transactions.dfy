/**
 * Transaction records and the in-memory transaction store: `FiatTransactionData`,
 * `InMemoryTransactionGateway` and its `InMemoryTransaction` records.
 */
module TransactionStore {
  import opened Wrappers
  import opened Entities
  import opened AccountStore

  /**
   * `FiatTransactionData`: the immutable payload of a transaction record. The account
   * fields are references to the caller's account objects and may be `null`.
   */
  datatype FiatTransactionData = FiatTransactionData(
    accountA: InMemoryAccount?,
    accountB: InMemoryAccount?,
    amount: Money,
    operationType: OperationType)
  {
    /** `getAccountA()`: empty exactly when the record was built with `null`. */
    function GetAccountA(): (r: Option<InMemoryAccount>)
      ensures r.None? <==> accountA == null
      ensures r.Some? ==> r.value == accountA
    {
      if accountA == null then None else Some(accountA)
    }

    /** `getAccountB()`: empty exactly when the record was built with `null`. */
    function GetAccountB(): (r: Option<InMemoryAccount>)
      ensures r.None? <==> accountB == null
      ensures r.Some? ==> r.value == accountB
    {
      if accountB == null then None else Some(accountB)
    }

    /** `getState()`: the payload itself always reports STARTED. */
    function GetState(): (s: TransactionState)
      ensures s == Started
    {
      Started
    }
  }

  /** `InMemoryTransaction`: an identity, the payload and a state that is `null` until first set. */
  class InMemoryTransaction {
    const id: int
    const data: FiatTransactionData
    var currentState: Option<TransactionState>

    constructor (id: int, data: FiatTransactionData)
      ensures this.id == id && this.data == data && currentState == None
    {
      this.id := id;
      this.data := data;
      currentState := None;
    }

    /** `getState()`: the payload's STARTED until a state is set, then the state last set. */
    function GetState(): (s: TransactionState)
      reads this
      ensures currentState.None? ==> s == Started
      ensures currentState.Some? ==> s == currentState.value
    {
      if currentState.None? then data.GetState() else currentState.value
    }

    /**
     * `test(account)`: the account is the record's `from` or `to` account. `Account`
     * does not override `equals`, so this is reference identity.
     */
    predicate Test(account: InMemoryAccount?)
      ensures Test(account) <==> account != null && (account == data.accountA || account == data.accountB)
    {
      if account == null then false
      else if data.GetAccountA().Some? && account == data.GetAccountA().value then true
      else data.GetAccountB().Some? && account == data.GetAccountB().value
    }
  }

  class InMemoryTransactionGateway {
    /** `transactionStorage` */
    var storage: map<int, InMemoryTransaction>
    /** `ID_SEQUENCE`: the last identity handed out. */
    var idSequence: int

    ghost predicate Valid()
      reads this
    {
      0 <= idSequence &&
      forall id :: id in storage ==> storage[id].id == id && 1 <= id <= idSequence
    }

    constructor ()
      ensures Valid() && storage == map[] && idSequence == 0
    {
      storage := map[];
      idSequence := 0;
    }

    /** `get(id)` */
    function Get(id: int): (r: Option<InMemoryTransaction>)
      reads this
      ensures r.Some? <==> id in storage
      ensures r.Some? ==> r.value == storage[id]
    {
      if id in storage then Some(storage[id]) else None
    }

    /** `getAll(account)`: every stored record whose `from` or `to` is that account object. */
    function GetAll(account: InMemoryAccount?): (r: set<InMemoryTransaction>)
      reads this
      ensures account == null ==> r == {}
      ensures forall t :: t in r ==> t in storage.Values && (t.data.accountA == account || t.data.accountB == account)
      ensures forall id ::
        (id in storage && account != null && (storage[id].data.accountA == account || storage[id].data.accountB == account))
        ==> storage[id] in r
    {
      set id | id in storage && storage[id].Test(account) :: storage[id]
    }

    /** `create(data)`: `null` throws; otherwise the next identity names a new record that reports STARTED. */
    method Create(data: Option<FiatTransactionData>) returns (r: Result<InMemoryTransaction, Error>)
      requires Valid()
      modifies this
      ensures Valid()
      ensures data.None? ==> r == Failure(NullPointer) && unchanged(this)
      ensures data.Some? ==> r.Success? && fresh(r.value)
      ensures data.Some? ==> idSequence == old(idSequence) + 1 && r.value.id == idSequence && r.value.id !in old(storage)
      ensures data.Some? ==> r.value.data == data.value && r.value.currentState == None && r.value.GetState() == Started
      ensures data.Some? ==> storage == old(storage)[r.value.id := r.value]
    {
      if data.None? {
        return Failure(NullPointer);
      }
      idSequence := idSequence + 1;
      var transaction := new InMemoryTransaction(idSequence, data.value);
      storage := storage[idSequence := transaction];
      r := Success(transaction);
    }

    /**
     * `updateTransactionState(id, newState)`: a `null` id throws `NullPointerException`,
     * an unknown id `IllegalStateException`; otherwise the state is overwritten, whatever it was.
     */
    method UpdateTransactionState(id: Option<int>, newState: TransactionState) returns (r: Outcome<Error>)
      requires Valid()
      modifies if id.Some? && id.value in storage then {storage[id.value]} else {}
      ensures Valid() && storage == old(storage) && idSequence == old(idSequence)
      ensures id.None? ==> r == Fail(NullPointer)
      ensures id.Some? && id.value !in storage ==> r == Fail(IllegalState)
      ensures id.Some? && id.value in storage ==> r == Pass && storage[id.value].GetState() == newState
    {
      if id.None? {
        return Fail(NullPointer);
      }
      if id.value !in storage {
        return Fail(IllegalState);
      }
      storage[id.value].currentState := Some(newState);
      r := Pass;
    }
  }
}
