/**
 * `BankUseCases`: the client, account and money operations the bank offers, written
 * against the client, account and transaction stores and the transaction service.
 */
module UseCases {
  import opened Wrappers
  import opened Entities
  import opened Locks
  import opened ClientStore
  import opened AccountStore
  import opened TransactionStore
  import opened Commands
  import opened TransactionService

  /** No two active clients were registered with equal data. */
  ghost predicate ActiveClientsDistinct(g: InMemoryClientGateway)
    reads g, g.storage.Values
  {
    forall i, j :: i in g.storage && j in g.storage && i != j && g.storage[i].isActive && g.storage[j].isActive ==>
      g.storage[i].data != g.storage[j].data
  }

  /** While active clients carry distinct data, a search by data finds at most one client. */
  lemma {:induction false} SearchFindsAtMostOne(g: InMemoryClientGateway, search: UniversalBankClientData)
    requires g.Valid() && ActiveClientsDistinct(g)
    ensures |g.GetAll(search)| <= 1
  {
    var found := g.GetAll(search);
    if |found| > 1 {
      var c1 :| c1 in found;
      RemovingOneLeavesOthers(found, c1);
      assert false;
    }
  }

  /** Taking a member out of a set shrinks it by one; the counting step of `SearchFindsAtMostOne`. */
  lemma RemovingOneLeavesOthers<T>(s: set<T>, x: T)
    ensures x in s ==> |s - {x}| == |s| - 1
  {
  }

  /** A set of one element is that element alone; `GetClient` uses it to name the only match. */
  lemma {:induction false} SingletonIs<T>(s: set<T>, x: T)
    requires |s| == 1 && x in s
    ensures s == {x}
  {
    assert |s - {x}| == 0;
  }

  /** `AccountException(cause)` around a `TransactionException`; any other failure passes through unchanged. */
  function WrapTransactionError<T>(r: Result<T, Error>): (w: Result<T, Error>)
    ensures r.Failure? && r.error.TransactionError? ==> w == Failure(AccountError(Some(r.error)))
    ensures !(r.Failure? && r.error.TransactionError?) ==> w == r
  {
    if r.Failure? && r.error.TransactionError? then Failure(AccountError(Some(r.error))) else r
  }

  class BankUseCases {
    const clients: InMemoryClientGateway
    const accounts: InMemoryAccountGateway
    const transactions: InMemoryTransactionGateway
    const service: LockBasedFiatTransactionService

    /** The stores are consistent, and the service works on the same stores. */
    ghost predicate Valid()
      reads clients, accounts, transactions
    {
      clients.Valid() && accounts.Valid() && transactions.Valid() &&
      service.accounts == accounts && service.transactions == transactions && accounts.clients == clients
    }

    constructor (clients: InMemoryClientGateway, accounts: InMemoryAccountGateway,
                 transactions: InMemoryTransactionGateway, service: LockBasedFiatTransactionService)
      ensures this.clients == clients && this.accounts == accounts
      ensures this.transactions == transactions && this.service == service
    {
      this.clients := clients;
      this.accounts := accounts;
      this.transactions := transactions;
      this.service := service;
    }

    /**
     * `registerNewClient`: `null` throws; data equal to an active client's is refused
     * with that client; otherwise a new active client is stored. Registration never
     * gives two active clients equal data.
     */
    method RegisterNewClient(data: Option<UniversalBankClientData>) returns (r: Result<InMemoryClient, Error>)
      requires Valid()
      modifies clients
      ensures Valid()
      ensures data.None? ==> r == Failure(NullPointer) && unchanged(clients)
      ensures data.Some? && old(clients.GetAll(data.value)) != {} ==>
        && r.Failure? && r.error.ClientAlreadyExist? && unchanged(clients)
        && var id := r.error.existingId;
           id in clients.storage && clients.storage[id].isActive && clients.storage[id].data == data.value
      ensures data.Some? && old(clients.GetAll(data.value)) == {} ==>
        && r.Success? && fresh(r.value) && r.value.isActive && r.value.data == data.value
        && r.value.id !in old(clients.storage) && clients.storage == old(clients.storage)[r.value.id := r.value]
      ensures old(ActiveClientsDistinct(clients)) ==> ActiveClientsDistinct(clients)
    {
      if data.None? {
        return Failure(NullPointer);
      }
      var found := clients.GetAll(data.value);
      if found != {} {
        var existing :| existing in found;
        assert existing.id in clients.storage && clients.storage[existing.id] == existing by {
          var i :| i in clients.storage && clients.storage[i] == existing;
        }
        return Failure(ClientAlreadyExist(existing.id));
      }
      r := clients.Create(data);
    }

    /** `getClients`: `null` throws; no active client with equal data throws `ClientNotExist`. */
    method GetClients(data: Option<UniversalBankClientData>) returns (r: Result<set<InMemoryClient>, Error>)
      requires Valid()
      ensures data.None? ==> r == Failure(NullPointer)
      ensures data.Some? && clients.GetAll(data.value) == {} ==> r == Failure(ClientNotExist)
      ensures data.Some? && clients.GetAll(data.value) != {} ==> r == Success(clients.GetAll(data.value))
      ensures r.Failure? ==> r.error == NullPointer || r.error == ClientNotExist
      ensures r.Success? ==>
        && data.Some? && r.value != {}
        && (forall c :: c in r.value ==> c in clients.storage.Values && c.isActive && c.data == data.value)
        && (forall id :: id in clients.storage && clients.storage[id].isActive && clients.storage[id].data == data.value ==>
              clients.storage[id] in r.value)
    {
      if data.None? {
        return Failure(NullPointer);
      }
      var found := clients.GetAll(data.value);
      if found == {} {
        return Failure(ClientNotExist);
      }
      r := Success(found);
    }

    /**
     * `getClient`: `null` throws; no match throws `ClientNotExist`, several throw
     * `ClientDuplicatesFound`; otherwise the one active client with equal data.
     */
    method GetClient(data: Option<UniversalBankClientData>) returns (r: Result<InMemoryClient, Error>)
      requires Valid()
      ensures data.None? ==> r == Failure(NullPointer)
      ensures data.Some? && clients.GetAll(data.value) == {} ==> r == Failure(ClientNotExist)
      ensures data.Some? && |clients.GetAll(data.value)| > 1 ==> r == Failure(ClientDuplicatesFound)
      ensures data.Some? && |clients.GetAll(data.value)| == 1 ==> r.Success?
      ensures r.Success? ==> data.Some? && clients.GetAll(data.value) == {r.value}
      ensures data.Some? && ActiveClientsDistinct(clients) ==> r != Failure(ClientDuplicatesFound)
    {
      if data.None? {
        return Failure(NullPointer);
      }
      var found := clients.GetAll(data.value);
      if found == {} {
        return Failure(ClientNotExist);
      }
      if |found| > 1 {
        assert !ActiveClientsDistinct(clients) by {
          if ActiveClientsDistinct(clients) {
            SearchFindsAtMostOne(clients, data.value);
          }
        }
        return Failure(ClientDuplicatesFound);
      }
      var client :| client in found;
      SingletonIs(found, client);
      r := Success(client);
    }

    /** `deleteClient`: `null` throws; a client that is not active throws `ClientNotExist`; otherwise it is deactivated. */
    method DeleteClient(id: Option<int>) returns (r: Outcome<Error>)
      requires Valid()
      modifies clients.storage.Values
      ensures Valid() && clients.storage == old(clients.storage)
      ensures id.None? ==> r == Fail(NullPointer)
      ensures id.Some? && old(clients.Get(id.value)).None? ==> r == Fail(ClientNotExist) && unchanged(clients.storage.Values)
      ensures id.Some? && old(clients.Get(id.value)).Some? ==>
        && r == Pass && !clients.storage[id.value].isActive && clients.Get(id.value).None?
        && forall other :: other in clients.storage && other != id.value ==>
             clients.storage[other].isActive == old(clients.storage[other].isActive)
    {
      if id.None? {
        return Fail(NullPointer);
      }
      var client := clients.Get(id.value);
      if client.None? {
        return Fail(ClientNotExist);
      }
      r := clients.Delete(id.value);
    }

    /**
     * `createAccount`: `null` arguments throw; an inactive client throws
     * `ClientNotActive`; an account of the client whose data is the same (owner and
     * money) throws `AccountAlreadyExists`; otherwise the data is stored as a new account.
     */
    method CreateAccount(client: InMemoryClient?, data: AccountData?) returns (r: Result<InMemoryAccount, Error>)
      requires Valid()
      modifies accounts
      ensures Valid()
      ensures client == null || data == null ==> r == Failure(NullPointer) && unchanged(accounts)
      ensures client != null && data != null && !client.isActive ==> r == Failure(ClientNotActive) && unchanged(accounts)
      ensures client != null && data != null && client.isActive &&
              (exists a :: a in old(accounts.GetAll(client)) && a.data.IsSameData(data)) ==>
        r == Failure(AccountAlreadyExists) && unchanged(accounts)
      ensures r.Success? ==>
        && client != null && data != null && client.isActive
        && (forall a :: a in old(accounts.GetAll(client)) ==> !a.data.IsSameData(data))
        && fresh(r.value) && r.value.data == data && r.value.active && r.value.id !in old(accounts.storage)
        && accounts.storage == old(accounts.storage)[r.value.id := r.value]
      ensures client != null && data != null && client.isActive ==>
        (forall a :: a in old(accounts.GetAll(client)) ==> !a.data.IsSameData(data)) ==> r.Success?
    {
      if client == null || data == null {
        return Failure(NullPointer);
      }
      if !client.isActive {
        return Failure(ClientNotActive);
      }
      var owned := accounts.GetAll(client);
      if exists a :: a in owned && a.data.IsSameData(data) {
        return Failure(AccountAlreadyExists);
      }
      r := accounts.Create(data);
    }

    /** `getAccountData`: `null` throws; an id with no stored account throws `AccountNotFound`. */
    method GetAccountData(id: Option<int>) returns (r: Result<AccountData, Error>)
      requires Valid()
      ensures id.None? ==> r == Failure(NullPointer)
      ensures id.Some? && id.value !in accounts.storage ==> r == Failure(AccountNotFound)
      ensures id.Some? && id.value in accounts.storage ==> r == Success(accounts.storage[id.value].data)
    {
      if id.None? {
        return Failure(NullPointer);
      }
      var account := accounts.Get(id.value);
      if account.None? {
        return Failure(AccountNotFound);
      }
      r := Success(account.value.data);
    }

    /**
     * `replenishAccount`: `null` throws; an inactive account (or an inactive owner)
     * throws `AccountNotFound`; otherwise the service adds the money, and a
     * `TransactionException` from it is rethrown inside an `AccountException`.
     */
    method ReplenishAccount(caller: Caller, account: InMemoryAccount?, money: Money)
      returns (r: Result<InMemoryTransaction, Error>)
      requires Valid() && (account != null ==> account in accounts.issued)
      modifies transactions, accounts, if account != null then {account.lock, account.data} else {}
      ensures Valid() && old(accounts.issued) <= accounts.issued && accounts.idSequence == old(accounts.idSequence)
      ensures account == null ==> r == Failure(NullPointer) && unchanged(transactions, accounts)
      ensures account != null && !old(account.IsActive()) ==>
        r == Failure(AccountNotFound) && unchanged(transactions, accounts, account.data, account.lock)
      ensures account != null && old(account.IsActive()) ==>
        && account.lock.state == old(account.lock.state)
        && (CheckMoney(money) != Pass ==>
              r == Failure(IllegalArgument) && unchanged(transactions, accounts, account.data))
        && (CheckMoney(money) == Pass && old(account.data.money).currency != money.currency ==>
              r == Failure(AccountError(Some(TransactionError(None)))) && unchanged(transactions, accounts, account.data))
        && (CheckMoney(money) == Pass && old(account.data.money).currency == money.currency ==>
              && transactions.idSequence == old(transactions.idSequence) + 1
              && transactions.idSequence in transactions.storage
              && var record := transactions.storage[transactions.idSequence];
              && transactions.storage == old(transactions.storage)[record.id := record]
              && record.data == FiatTransactionData(account, null, money, Replenish)
              && (!Available(old(account.lock.state), caller) ==>
                    && r == Failure(Locked) && record.GetState() == Started
                    && account.data.money == old(account.data.money) && accounts.storage == old(accounts.storage))
              && (Available(old(account.lock.state), caller) && old(account.data.money).amount.None? ==>
                    && r == Failure(CommandError(Some(NullPointer))) && record.GetState() == Started
                    && account.data.money == old(account.data.money) && accounts.storage == old(accounts.storage))
              && (Available(old(account.lock.state), caller) && old(account.data.money).amount.Some? ==>
                    && r == Success(record) && record.GetState() == Committed
                    && account.data.money ==
                       Money(money.currency, Some(old(account.data.money).amount.value + money.amount.value))
                    && Rewritten(old(accounts.storage), accounts.storage, [account])))
    {
      if account == null {
        return Failure(NullPointer);
      }
      if !account.IsActive() {
        return Failure(AccountNotFound);
      }
      var made, record := service.MakeSingle(caller, account, money, Replenish);
      r := WrapTransactionError(made);
    }

    /**
     * `withdrawFromAccount`: an inactive account (or an inactive owner) throws
     * `InactiveAccount`; otherwise the service subtracts the money, which never takes
     * the balance below zero, and a `TransactionException` is rethrown inside an
     * `AccountException`.
     */
    method WithdrawFromAccount(caller: Caller, account: InMemoryAccount?, money: Money)
      returns (r: Result<InMemoryTransaction, Error>)
      requires Valid() && (account != null ==> account in accounts.issued)
      modifies transactions, accounts, if account != null then {account.lock, account.data} else {}
      ensures Valid() && old(accounts.issued) <= accounts.issued && accounts.idSequence == old(accounts.idSequence)
      ensures account == null ==> r == Failure(NullPointer) && unchanged(transactions, accounts)
      ensures account != null && !old(account.IsActive()) ==>
        r == Failure(InactiveAccount(account.id)) && unchanged(transactions, accounts, account.data, account.lock)
      ensures account != null && old(account.IsActive()) ==>
        && account.lock.state == old(account.lock.state)
        && (CheckMoney(money) != Pass ==>
              r == Failure(IllegalArgument) && unchanged(transactions, accounts, account.data))
        && (CheckMoney(money) == Pass && old(account.data.money).currency != money.currency ==>
              r == Failure(AccountError(Some(TransactionError(None)))) && unchanged(transactions, accounts, account.data))
        && (CheckMoney(money) == Pass && old(account.data.money).currency == money.currency ==>
              && transactions.idSequence == old(transactions.idSequence) + 1
              && transactions.idSequence in transactions.storage
              && var record := transactions.storage[transactions.idSequence];
              && transactions.storage == old(transactions.storage)[record.id := record]
              && record.data == FiatTransactionData(account, null, money, Withdraw)
              && (!Available(old(account.lock.state), caller) ==>
                    && r == Failure(Locked) && record.GetState() == Started
                    && account.data.money == old(account.data.money) && accounts.storage == old(accounts.storage))
              && (Available(old(account.lock.state), caller) ==>
                    var outcome := SubtractOperation(money.amount.value, old(account.data.money).amount);
                    && (outcome.Failure? ==>
                          && r == Failure(CommandError(Some(outcome.error))) && record.GetState() == Started
                          && account.data.money == old(account.data.money) && accounts.storage == old(accounts.storage))
                    && (outcome.Success? ==>
                          && r == Success(record) && record.GetState() == Committed
                          && account.data.money ==
                             Money(old(account.data.money).currency, Some(old(account.data.money).amount.value - money.amount.value))
                          && 0 <= account.data.money.amount.value
                          && Rewritten(old(accounts.storage), accounts.storage, [account]))))
    {
      if account == null {
        return Failure(NullPointer);
      }
      if !account.IsActive() {
        return Failure(InactiveAccount(account.id));
      }
      var made, record := service.MakeSingle(caller, account, money, Withdraw);
      r := WrapTransactionError(made);
    }

    /**
     * `transferMoney`: an inactive source, then an inactive target, throws
     * `InactiveAccount`; otherwise the service moves the money with both accounts
     * locked, and a `TransactionException` is rethrown inside an `AccountException`.
     * A transfer that cannot be made is still recorded as COMMITTED.
     */
    method TransferMoney(caller: Caller, from: InMemoryAccount?, to: InMemoryAccount?, money: Money)
      returns (r: Result<InMemoryTransaction, Error>)
      requires Valid() && (from != null ==> from in accounts.issued) && (to != null ==> to in accounts.issued)
      modifies transactions, accounts
      modifies if from != null then {from.lock, from.data} else {}, if to != null then {to.lock, to.data} else {}
      ensures Valid() && old(accounts.issued) <= accounts.issued && accounts.idSequence == old(accounts.idSequence)
      ensures from == null ==> r == Failure(NullPointer) && unchanged(transactions, accounts)
      ensures from != null && !old(from.IsActive()) ==> r == Failure(InactiveAccount(from.id)) && unchanged(transactions, accounts)
      ensures from != null && old(from.IsActive()) && to == null ==> r == Failure(NullPointer) && unchanged(transactions, accounts)
      ensures from != null && old(from.IsActive()) && to != null && !old(to.IsActive()) ==>
        r == Failure(InactiveAccount(to.id)) && unchanged(transactions, accounts)
      ensures from != null && to != null && old(from.IsActive()) && old(to.IsActive()) ==>
        && (CheckMoney(money) != Pass ==>
              r == Failure(IllegalArgument) && unchanged(transactions, accounts, from.data, to.data, from.lock, to.lock))
        && (CheckMoney(money) == Pass &&
            CheckCurrencyUniform(old(from.data.money), old(to.data.money), Some(money)) != Pass ==>
              && r == Failure(AccountError(Some(TransactionError(None))))
              && unchanged(transactions, accounts, from.data, to.data, from.lock, to.lock))
        && (CheckMoney(money) == Pass &&
            CheckCurrencyUniform(old(from.data.money), old(to.data.money), Some(money)) == Pass ==>
              && transactions.idSequence == old(transactions.idSequence) + 1
              && transactions.idSequence in transactions.storage
              && var record := transactions.storage[transactions.idSequence];
              && transactions.storage == old(transactions.storage)[record.id := record]
              && record.data == FiatTransactionData(from, to, money, Transfer)
              && (!CanLock(caller, from, to, old(from.lock.state), old(to.lock.state)) ==>
                    && r == Failure(Locked) && record.GetState() == Started
                    && SortLocked(caller, from, to, old(from.lock.state), old(to.lock.state))
                    && from.data.money == old(from.data.money) && to.data.money == old(to.data.money)
                    && accounts.storage == old(accounts.storage))
              && (CanLock(caller, from, to, old(from.lock.state), old(to.lock.state)) ==>
                    && r == Success(record) && record.GetState() == Committed
                    && from.lock.state == old(from.lock.state) && to.lock.state == old(to.lock.state)
                    && (from.data.money, to.data.money) ==
                       TransactionService.TransferMoney(old(from.data.money), old(to.data.money), money.amount.value, from.data == to.data)
                    && Rewritten(old(accounts.storage), accounts.storage,
                                 TransferWrites(from, to, old(from.data.money), old(to.data.money), money.amount.value))))
    {
      if from == null {
        return Failure(NullPointer);
      }
      if !from.IsActive() {
        return Failure(InactiveAccount(from.id));
      }
      if to == null {
        return Failure(NullPointer);
      }
      if !to.IsActive() {
        return Failure(InactiveAccount(to.id));
      }
      var made, record := service.MakePair(caller, from, to, money, Transfer);
      r := WrapTransactionError(made);
    }

    /** `getAllAccounts`: every stored account of the client, active or not, and no other. */
    function GetAllAccounts(client: InMemoryClient?): (r: set<InMemoryAccount>)
      reads accounts
      ensures client == null ==> r == {}
      ensures forall a :: a in r ==> a in accounts.storage.Values && client != null && a.clientId == client.id
      ensures forall id :: id in accounts.storage && client != null && accounts.storage[id].clientId == client.id ==>
        accounts.storage[id] in r
    {
      accounts.GetAll(client)
    }

    /** `getAllTransactions`: every stored record whose source or target is that account object. */
    function GetAllTransactions(account: InMemoryAccount?): (r: set<InMemoryTransaction>)
      reads transactions
      ensures account == null ==> r == {}
      ensures forall t :: t in r ==>
        t in transactions.storage.Values && account != null && (t.data.accountA == account || t.data.accountB == account)
      ensures forall id :: id in transactions.storage && account != null && transactions.storage[id].Test(account) ==>
        transactions.storage[id] in r
    {
      transactions.GetAll(account)
    }
  }
}
