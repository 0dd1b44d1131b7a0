# In-process bank ledger: a Dafny model

This project models the ledger core of a small Java bank, split into three layers.

- **Use cases** (`BankUseCases`): the operations the bank offers.
  - Clients: register, search, fetch and delete a client.
  - Accounts: open an account and read its data.
  - Money: replenish, withdraw and transfer, and list accounts and transactions.
- **Transaction service** (`LockBasedFiatTransactionService`):
  - turns REPLENISH, WITHDRAW and TRANSFER into reversible balance commands;
  - runs them with the accounts' locks taken in id order;
  - records each run as a transaction whose state starts STARTED and is set to COMMITTED.
- **In-memory stores**: client, account and transaction gateways keyed by a counter-issued `long` id.
  - Client and account records are soft-deleted by clearing an active flag.
  - Each account record carries a `ReentrantLock` that survives every `update`.

Java objects that the code shares and mutates are Dafny classes, so aliasing stays visible:
- account data (whose money is replaced in place);
- account, client and transaction records;
- locks, commands and the three stores.

Thrown exceptions are `Failure`/`Fail` values of one `Error` datatype, and a `null` is `None` or a nullable reference.

Threads are replaced by an explicit `caller` identity. `tryLock` succeeds exactly when the lock is free or already held by that caller. Lock states record owner and hold count.

## What a failed operation leaves behind

The service's `catch` at `LockBasedFiatTransactionService.java:143-146` rolls the command back and records the transaction as ROLLBACKED. Nothing the commands throw reaches it, so neither happens:

- **A failed single operation stays STARTED.** A withdrawal over the balance throws `CommandException`. The service's `catch` names only `AccountException` and `TransactionException`, so:
  - the record stays STARTED;
  - nothing is rolled back;
  - the caller gets the `CommandException`.

  `LockAndRun` proves the catch clause is never entered.
- **A failed transfer is COMMITTED.** The two-step composite catches its own failure, rolls back the completed step and returns normally. The record is then marked COMMITTED with both balances unchanged (`TransferEffect`, `TransferAllOrNothing`).
- **Balances come from a snapshot.** The balance supplier reads the money object captured when the command was built.
  - On a self-transfer (the same account data on both sides), the credit overwrites the debit.
  - The account then gains the amount (`SelfTransferCredits`).
- **A refused second lock leaks the first.** `sortAndLockAccounts` throws on the first refused `tryLock`, before the `try`. A lock taken before the refusal stays held (`SortLocked`).
- **Updating re-activates.** `update` stores a fresh, active record, so every balance write re-activates a soft-deleted account record.
- **`LockedException` is outside the catch.** It is not a `TransactionException`, so the use cases let it through unwrapped.

## Model

| member | source | states |
|---|---|---|
| Locks.Acquired | bank-spring-impl/src/main/java/org/vmikhailov/java/cleanarchitecture/impl/gateway/InMemoryAccountGateway.java:131-135 | taking an available lock makes the caller its owner with one more hold, and releasing it once gives back the earlier state |
| Locks.Released | bank-spring-impl/src/main/java/org/vmikhailov/java/cleanarchitecture/impl/gateway/InMemoryAccountGateway.java:137-140 | a release succeeds exactly when the caller holds the lock, and drops the hold count by one |
| Locks.ReentrantLock.TryLock | bank-spring-impl/src/main/java/org/vmikhailov/java/cleanarchitecture/impl/gateway/InMemoryAccountGateway.java:132 | never waits; succeeds iff the lock is free or already the caller's; a refusal changes nothing |
| Locks.ReentrantLock.Lock | bank-spring-impl/src/main/java/org/vmikhailov/java/cleanarchitecture/impl/gateway/InMemoryAccountGateway.java:61 | the blocking lock, for the calls that need not wait: one more hold for the caller |
| Locks.ReentrantLock.Unlock | bank-spring-impl/src/main/java/org/vmikhailov/java/cleanarchitecture/impl/gateway/InMemoryAccountGateway.java:139 | releases one hold exactly when the caller owns the lock, otherwise reports the monitor error and changes nothing |
| ClientStore.ClientDataEquality | bank-spring-impl/src/main/java/org/vmikhailov/java/cleanarchitecture/impl/entities/client/UniversalBankClientData.java:31-40 | client-data `equals` is false for `null` and is field-wise equality otherwise (reflexive) |
| ClientStore.TestMatchesData | bank-spring-impl/src/main/java/org/vmikhailov/java/cleanarchitecture/impl/entities/client/UniversalBankClientData.java:22-29 | a search matches a client iff the client exists and carries equal data |
| ClientStore.InMemoryClient.Equals | bank-spring-impl/src/main/java/org/vmikhailov/java/cleanarchitecture/impl/gateway/InMemoryClientGateway.java:76-85 | two clients are equal exactly when the other is not `null` and is the same object, has the same id, or has equal data |
| ClientStore.ClientEqualsSymmetric | bank-spring-impl/src/main/java/org/vmikhailov/java/cleanarchitecture/impl/gateway/InMemoryClientGateway.java:76-85 | client equality is symmetric |
| ClientStore.InMemoryClientGateway.Get | bank-spring-impl/src/main/java/org/vmikhailov/java/cleanarchitecture/impl/gateway/InMemoryClientGateway.java:45-52 | finds a client exactly when it is stored under the id and active |
| ClientStore.InMemoryClientGateway.GetAll | bank-spring-impl/src/main/java/org/vmikhailov/java/cleanarchitecture/impl/gateway/InMemoryClientGateway.java:54-57 | exactly the active stored clients whose data equal the search |
| ClientStore.InMemoryClientGateway.Create | bank-spring-impl/src/main/java/org/vmikhailov/java/cleanarchitecture/impl/gateway/InMemoryClientGateway.java:25-34 | `null` throws and stores nothing; otherwise the next id names a new active client and nothing else changes |
| ClientStore.InMemoryClientGateway.Delete | bank-spring-impl/src/main/java/org/vmikhailov/java/cleanarchitecture/impl/gateway/InMemoryClientGateway.java:36-43 | an unknown id throws; otherwise the record stays stored but is no longer found |
| AccountStore.AccountData.IsSameData | bank-core/src/main/java/org/vmikhailov/java/cleanarchitecture/entities/account/AccountData.java:31-39 | same data iff the other is present, has the same owner id, and equal currency and amount |
| AccountStore.InMemoryAccount.IsActive | bank-spring-impl/src/main/java/org/vmikhailov/java/cleanarchitecture/impl/gateway/InMemoryAccountGateway.java:120-123 | active iff the record's flag is set and its owner is a stored active client |
| AccountStore.InMemoryAccount.Lock | bank-spring-impl/src/main/java/org/vmikhailov/java/cleanarchitecture/impl/gateway/InMemoryAccountGateway.java:130-135 | succeeds iff the lock is available to the caller; otherwise `LockedException` and the lock is as it was |
| AccountStore.InMemoryAccount.Unlock | bank-spring-impl/src/main/java/org/vmikhailov/java/cleanarchitecture/impl/gateway/InMemoryAccountGateway.java:137-140 | releases one hold iff the caller holds the lock |
| AccountStore.InMemoryAccountGateway.SameLockIffSameId | bank-spring-impl/src/main/java/org/vmikhailov/java/cleanarchitecture/impl/gateway/InMemoryAccountGateway.java:60-64 | two records the store issued share a lock exactly when they have the same id, because `update` passes the old lock on |
| AccountStore.InMemoryAccountGateway.Get | bank-spring-impl/src/main/java/org/vmikhailov/java/cleanarchitecture/impl/gateway/InMemoryAccountGateway.java:89-92 | the record stored under the id, active or not |
| AccountStore.InMemoryAccountGateway.GetAll | bank-spring-impl/src/main/java/org/vmikhailov/java/cleanarchitecture/impl/gateway/InMemoryAccountGateway.java:94-97 | exactly the stored records whose owner id is the client's; `null` matches none |
| AccountStore.InMemoryAccountGateway.Create | bank-spring-impl/src/main/java/org/vmikhailov/java/cleanarchitecture/impl/gateway/InMemoryAccountGateway.java:36-45 | `null` throws; otherwise the next id names a new active record with the caller's data object and a fresh free lock, and the store invariant holds |
| AccountStore.InMemoryAccountGateway.Update | bank-spring-impl/src/main/java/org/vmikhailov/java/cleanarchitecture/impl/gateway/InMemoryAccountGateway.java:47-73 | `null` id or unknown id throws `AccountNotFound`, `null` data throws `AccountException`; otherwise a fresh active record with the same id and lock replaces the old one, and the lock ends as it began |
| AccountStore.RewrittenNothing | bank-spring-impl/src/main/java/org/vmikhailov/java/cleanarchitecture/impl/gateway/InMemoryAccountGateway.java:47-73 | a run that writes no account leaves every stored record as it was |
| AccountStore.RewrittenOne | bank-spring-impl/src/main/java/org/vmikhailov/java/cleanarchitecture/impl/gateway/InMemoryAccountGateway.java:47-73 | after one `update` of an account its id holds a fresh active record with that account's data and the old lock, and every other id keeps its record |
| AccountStore.RewrittenTwo | bank-spring-impl/src/main/java/org/vmikhailov/java/cleanarchitecture/impl/gateway/InMemoryAccountGateway.java:47-73 | after `update` of `a` then of `b`, `b`'s id holds `b`'s data, `a`'s id (when different) holds `a`'s data, both records active, every other id untouched |
| AccountStore.RewrittenThen | bank-spring-impl/src/main/java/org/vmikhailov/java/cleanarchitecture/impl/gateway/InMemoryAccountGateway.java:47-73 | one more `update` after a run of writes is the same as the longer run of writes |
| AccountStore.RewrittenAgain | bank-spring-impl/src/main/java/org/vmikhailov/java/cleanarchitecture/impl/gateway/InMemoryAccountGateway.java:47-73 | writing the same records again over a store already so rewritten gives the store the second run left |
| AccountStore.InMemoryAccountGateway.Delete | bank-spring-impl/src/main/java/org/vmikhailov/java/cleanarchitecture/impl/gateway/InMemoryAccountGateway.java:75-87 | unknown id throws; a lock held by another caller throws `LockedException` and leaves the flag; otherwise only the flag is cleared and the lock ends as it began |
| TransactionStore.FiatTransactionData.GetAccountA | bank-spring-impl/src/main/java/org/vmikhailov/java/cleanarchitecture/impl/entities/transactions/FiatTransactionData.java:23-25 | empty exactly when the source account is `null` |
| TransactionStore.FiatTransactionData.GetAccountB | bank-spring-impl/src/main/java/org/vmikhailov/java/cleanarchitecture/impl/entities/transactions/FiatTransactionData.java:27-29 | empty exactly when the target account is `null` |
| TransactionStore.FiatTransactionData.GetState | bank-spring-impl/src/main/java/org/vmikhailov/java/cleanarchitecture/impl/entities/transactions/FiatTransactionData.java:39-41 | the payload always reports STARTED |
| TransactionStore.InMemoryTransaction.GetState | bank-spring-impl/src/main/java/org/vmikhailov/java/cleanarchitecture/impl/gateway/InMemoryTransactionGateway.java:95-101 | STARTED until a state is set, then the last state set |
| TransactionStore.InMemoryTransaction.Test | bank-spring-impl/src/main/java/org/vmikhailov/java/cleanarchitecture/impl/gateway/InMemoryTransactionGateway.java:103-114 | a record matches an account iff that account object is its source or its target; `null` matches none |
| TransactionStore.InMemoryTransactionGateway.Get | bank-spring-impl/src/main/java/org/vmikhailov/java/cleanarchitecture/impl/gateway/InMemoryTransactionGateway.java:49-52 | the record stored under the id |
| TransactionStore.InMemoryTransactionGateway.GetAll | bank-spring-impl/src/main/java/org/vmikhailov/java/cleanarchitecture/impl/gateway/InMemoryTransactionGateway.java:54-57 | exactly the stored records whose source or target is the account |
| TransactionStore.InMemoryTransactionGateway.Create | bank-spring-impl/src/main/java/org/vmikhailov/java/cleanarchitecture/impl/gateway/InMemoryTransactionGateway.java:25-34 | `null` throws; otherwise the next id names a new STARTED record and nothing else changes |
| TransactionStore.InMemoryTransactionGateway.UpdateTransactionState | bank-spring-impl/src/main/java/org/vmikhailov/java/cleanarchitecture/impl/gateway/InMemoryTransactionGateway.java:36-47 | `null` id throws `NullPointerException`, unknown id `IllegalStateException`; otherwise the record reports the new state, whatever it was before |
| Commands.AddOperation | bank-spring-impl/src/main/java/org/vmikhailov/java/cleanarchitecture/impl/transactions/AddAbstractIndependentFiatTransactionCommand.java:18-21 | fails (`null` balance) iff there is no balance; otherwise the result exceeds the balance by exactly the amount |
| Commands.SubtractOperation | bank-spring-impl/src/main/java/org/vmikhailov/java/cleanarchitecture/impl/transactions/SubtractAbstractIndependentFiatTransactionCommand.java:25-33 | an empty balance and a balance below the amount fail with their own errors; otherwise the result is non-negative and adds back up to the balance |
| Commands.SubtractUndoesAdd | bank-spring-impl/src/main/java/org/vmikhailov/java/cleanarchitecture/impl/transactions/SubtractAbstractIndependentFiatTransactionCommand.java:25-33 | subtracting an amount undoes adding it to a non-negative balance |
| Commands.IndependentCommand.Receive | bank-spring-impl/src/main/java/org/vmikhailov/java/cleanarchitecture/impl/transactions/LockBasedFiatTransactionService.java:124-131 | the receiver writes the new money (captured currency) into the account data and stores it under the account's id as a fresh active record with that data and the old lock; every other id keeps its record, no id is added; the lock ends as it began |
| Commands.IndependentCommand.Execute | bank-spring-impl/src/main/java/org/vmikhailov/java/cleanarchitecture/impl/transactions/AbstractIndependentFiatTransactionCommand.java:24-33 | caches the supplier's value; succeeds iff the operator does, then writes its result, stores the account's record as `Receive` does and arms rollback; a failure is wrapped in `CommandException` before anything is written, and the store is unchanged |
| Commands.IndependentCommand.Rollback | bank-spring-impl/src/main/java/org/vmikhailov/java/cleanarchitecture/impl/transactions/AbstractIndependentFiatTransactionCommand.java:35-40 | an armed command writes back its cached value once, stores the account's record as `Receive` does, and disarms; an unarmed one changes nothing |
| Commands.FirstFailure | bank-spring-impl/src/main/java/org/vmikhailov/java/cleanarchitecture/impl/transactions/IndependentSequentialTransaction.java:20-24 | the first sub-command whose operator fails: every earlier one succeeds |
| Commands.ExecutedUntouched | bank-spring-impl/src/main/java/org/vmikhailov/java/cleanarchitecture/impl/transactions/IndependentSequentialTransaction.java:20-24 | a balance no executed sub-command targets keeps its value |
| Commands.RolledBackAgrees | bank-spring-impl/src/main/java/org/vmikhailov/java/cleanarchitecture/impl/transactions/IndependentSequentialTransaction.java:33-41 | a rollback depends only on the flags of the sub-commands it reverts |
| Commands.RollbackRestores | bank-spring-impl/src/main/java/org/vmikhailov/java/cleanarchitecture/impl/transactions/IndependentSequentialTransaction.java:33-41 | rolling back every executed sub-command restores a balance whose commands all cached it, in any order and however many share it |
| Commands.RevertingAll | bank-spring-impl/src/main/java/org/vmikhailov/java/cleanarchitecture/impl/transactions/IndependentSequentialTransaction.java:33-41 | when every completed sub-command is armed, the records a rollback writes are those the completed prefix wrote, in the same order |
| Commands.IndependentSequentialTransaction.constructor | bank-spring-impl/src/main/java/org/vmikhailov/java/cleanarchitecture/impl/transactions/IndependentSequentialTransaction.java:13-15 | the sub-commands in argument order, nothing executed, nothing current |
| Commands.IndependentSequentialTransaction.Rollback | bank-spring-impl/src/main/java/org/vmikhailov/java/cleanarchitecture/impl/transactions/IndependentSequentialTransaction.java:32-41 | while a command is current only the completed sub-commands are rolled back, otherwise all; each balance is the specified rollback of the old flags; the store holds the records the armed sub-commands' accounts wrote, in order, every other id keeps its record; locks are as they were |
| Commands.IndependentSequentialTransaction.RollbackFirst | bank-spring-impl/src/main/java/org/vmikhailov/java/cleanarchitecture/impl/transactions/IndependentSequentialTransaction.java:40 | rolls back the first `count` sub-commands in order: each one's balance is reverted as its flag says, and the store holds the records the armed ones wrote, in order |
| Commands.IndependentSequentialTransaction.RunInOrder | bank-spring-impl/src/main/java/org/vmikhailov/java/cleanarchitecture/impl/transactions/IndependentSequentialTransaction.java:19-26 | runs sub-commands in order up to the first failure, which is left current with the completed prefix listed; all balances are the specified execution of that prefix, and the store holds the records the prefix wrote, in order, with every other id untouched |
| Commands.IndependentSequentialTransaction.RunUntilFailure | bank-spring-impl/src/main/java/org/vmikhailov/java/cleanarchitecture/impl/transactions/IndependentSequentialTransaction.java:20-26 | the `for` loop: stops at the first failing sub-command (left current, with the completed prefix listed) or runs all and clears both; the store holds the records the completed prefix wrote |
| Commands.IndependentSequentialTransaction.Execute | bank-spring-impl/src/main/java/org/vmikhailov/java/cleanarchitecture/impl/transactions/IndependentSequentialTransaction.java:17-30 | without a failure every sub-command ran and the bookkeeping is cleared; with one, the completed prefix is rolled back, the call returns normally, and balances are the rollback of that execution; either way the store holds active records with the data of the accounts the completed prefix wrote, and every other id keeps its record |
| TransactionService.CheckMoney | bank-spring-impl/src/main/java/org/vmikhailov/java/cleanarchitecture/impl/transactions/LockBasedFiatTransactionService.java:52-59 | passes iff the amount is present and positive; otherwise `IllegalArgumentException` |
| TransactionService.CheckCurrencyUniform | bank-spring-impl/src/main/java/org/vmikhailov/java/cleanarchitecture/impl/transactions/LockBasedFiatTransactionService.java:65-70 | passes iff the second money, and the third when present, share the first one's currency; otherwise `TransactionException` |
| TransactionService.UniformCurrencies | bank-spring-impl/src/main/java/org/vmikhailov/java/cleanarchitecture/impl/transactions/LockBasedFiatTransactionService.java:65-70 | a passed three-way check puts all three moneys in one currency |
| TransactionService.TransferConserves | bank-spring-impl/src/main/java/org/vmikhailov/java/cleanarchitecture/impl/transactions/LockBasedFiatTransactionService.java:114-118 | between two distinct balances a transfer keeps the total |
| TransactionService.TransferAllOrNothing | bank-spring-impl/src/main/java/org/vmikhailov/java/cleanarchitecture/impl/transactions/LockBasedFiatTransactionService.java:114-118 | a transfer between distinct balances leaves both untouched or moves the whole amount, and never takes the source below zero |
| TransactionService.TransferKeepsCurrencies | bank-spring-impl/src/main/java/org/vmikhailov/java/cleanarchitecture/impl/transactions/LockBasedFiatTransactionService.java:124-131 | both currencies stay as they were |
| TransactionService.SelfTransferCredits | bank-spring-impl/src/main/java/org/vmikhailov/java/cleanarchitecture/impl/transactions/LockBasedFiatTransactionService.java:72-75 | a covered transfer from a balance to itself raises it by the amount, because the credit reads the snapshot |
| TransactionService.TransferEffect | bank-spring-impl/src/main/java/org/vmikhailov/java/cleanarchitecture/impl/transactions/LockBasedFiatTransactionService.java:114-118 | the debit-then-credit composite leaves both balances as `TransferMoney` says: all of it, or (after a failing step and its rollback) nothing |
| TransactionService.LockOrder | bank-spring-impl/src/main/java/org/vmikhailov/java/cleanarchitecture/impl/transactions/LockBasedFiatTransactionService.java:78-80 | the non-null accounts, a permutation of the arguments, sorted by id; equal ids keep argument order |
| TransactionService.LockPair | bank-spring-impl/src/main/java/org/vmikhailov/java/cleanarchitecture/impl/transactions/LockBasedFiatTransactionService.java:79 | two locks in order: a refused first lock stops before the second, a refused second keeps the first held |
| TransactionService.LockBasedFiatTransactionService.GetCommand | bank-spring-impl/src/main/java/org/vmikhailov/java/cleanarchitecture/impl/transactions/LockBasedFiatTransactionService.java:104-122 | REPLENISH and WITHDRAW build one add or subtract on the first account from its current money; TRANSFER throws on a `null` second account, otherwise builds the debit then the credit |
| TransactionService.LockBasedFiatTransactionService.TransferCommand | bank-spring-impl/src/main/java/org/vmikhailov/java/cleanarchitecture/impl/transactions/LockBasedFiatTransactionService.java:114-118 | a fresh composite of a subtract on the first account and an add on the second, each bound to its account's money now |
| TransactionService.LockBasedFiatTransactionService.SortAndLock | bank-spring-impl/src/main/java/org/vmikhailov/java/cleanarchitecture/impl/transactions/LockBasedFiatTransactionService.java:77-80 | takes every lock iff each is available in id order (a shared lock twice); a refusal throws `LockedException` and keeps the locks taken before it |
| TransactionService.LockBasedFiatTransactionService.UnlockAccounts | bank-spring-impl/src/main/java/org/vmikhailov/java/cleanarchitecture/impl/transactions/LockBasedFiatTransactionService.java:82-84 | releases the accounts' locks in argument order and stops at the first one the caller does not hold |
| TransactionService.LockBasedFiatTransactionService.RunCommand | bank-spring-impl/src/main/java/org/vmikhailov/java/cleanarchitecture/impl/transactions/LockBasedFiatTransactionService.java:141 | a single command throws iff its operator fails; the composite never throws; both balances end as the command's specified effect, and the store changes only at the ids the command wrote (`CommandWrites`), each now an active record with that account's data |
| TransactionService.LockBasedFiatTransactionService.TryExecute | bank-spring-impl/src/main/java/org/vmikhailov/java/cleanarchitecture/impl/transactions/LockBasedFiatTransactionService.java:140-142 | a command that returns normally leaves its record COMMITTED; one that throws leaves the record's state and throws on; the account store changes only as `RunCommand` says |
| TransactionService.LockBasedFiatTransactionService.Commit | bank-spring-impl/src/main/java/org/vmikhailov/java/cleanarchitecture/impl/transactions/LockBasedFiatTransactionService.java:142 | the stored record reports COMMITTED, and the store rewrite the command made still holds (its written records stay active) |
| TransactionService.LockBasedFiatTransactionService.ReleaseHeld | bank-spring-impl/src/main/java/org/vmikhailov/java/cleanarchitecture/impl/transactions/LockBasedFiatTransactionService.java:147-149 | the `finally` block gives back every lock `sortAndLockAccounts` took, never hits the monitor error, and the store rewrite the command made still holds |
| TransactionService.LockBasedFiatTransactionService.LockAndRun | bank-spring-impl/src/main/java/org/vmikhailov/java/cleanarchitecture/impl/transactions/LockBasedFiatTransactionService.java:139-150 | a refused lock throws with balances and store unchanged; otherwise the command runs, the `catch` is never entered, every lock ends as it began, the store changes only at the ids the command wrote, and the record is returned COMMITTED or the `CommandException` propagates |
| TransactionService.LockBasedFiatTransactionService.CommandInvoker | bank-spring-impl/src/main/java/org/vmikhailov/java/cleanarchitecture/impl/transactions/LockBasedFiatTransactionService.java:133-158 | records a new STARTED transaction, then as `LockAndRun`: COMMITTED on a normal return, STARTED on a refused lock or a failing single command; the account store as `LockAndRun` says |
| TransactionService.LockBasedFiatTransactionService.MakeSingle | bank-spring-impl/src/main/java/org/vmikhailov/java/cleanarchitecture/impl/transactions/LockBasedFiatTransactionService.java:86-92 | a bad amount or a foreign currency throws with nothing recorded; TRANSFER throws; otherwise one record is added, and the balance becomes the operator's result (COMMITTED, the account's id now an active record with its data, every other id untouched) or stays (STARTED, store unchanged) |
| TransactionService.LockBasedFiatTransactionService.MakePair | bank-spring-impl/src/main/java/org/vmikhailov/java/cleanarchitecture/impl/transactions/LockBasedFiatTransactionService.java:94-102 | as `MakeSingle` with both accounts locked; TRANSFER always commits and leaves the balances as `TransferMoney` says and the store rewritten at exactly the accounts `TransferWrites` names; once both locks are taken they end as they began |
| UseCases.SearchFindsAtMostOne | bank-core/src/main/java/org/vmikhailov/java/cleanarchitecture/usecases/BankUseCases.java:79-89 | while active clients carry distinct data, a search finds at most one client |
| UseCases.WrapTransactionError | bank-core/src/main/java/org/vmikhailov/java/cleanarchitecture/usecases/BankUseCases.java:152-156 | a `TransactionException` is rethrown inside an `AccountException`; every other outcome passes through unchanged |
| UseCases.BankUseCases.RegisterNewClient | bank-core/src/main/java/org/vmikhailov/java/cleanarchitecture/usecases/BankUseCases.java:49-56 | `null` throws; data equal to an active client's throws `ClientAlreadyExist` naming that client; otherwise one new active client; registration keeps active clients' data distinct |
| UseCases.BankUseCases.GetClients | bank-core/src/main/java/org/vmikhailov/java/cleanarchitecture/usecases/BankUseCases.java:64-71 | `null` throws; no match throws `ClientNotExist`; any match succeeds with exactly the active clients with equal data |
| UseCases.BankUseCases.GetClient | bank-core/src/main/java/org/vmikhailov/java/cleanarchitecture/usecases/BankUseCases.java:79-89 | `null` throws; no match throws `ClientNotExist`, several throw `ClientDuplicatesFound`; exactly one match succeeds with that client; no duplicates while registration kept data distinct |
| UseCases.BankUseCases.DeleteClient | bank-core/src/main/java/org/vmikhailov/java/cleanarchitecture/usecases/BankUseCases.java:96-103 | `null` throws; a client that is not active throws `ClientNotExist`; otherwise only that client is deactivated |
| UseCases.BankUseCases.CreateAccount | bank-core/src/main/java/org/vmikhailov/java/cleanarchitecture/usecases/BankUseCases.java:111-124 | `null` throws, an inactive client throws `ClientNotActive`, an account of the client with the same data throws `AccountAlreadyExists`; creation happens iff none of these apply |
| UseCases.BankUseCases.GetAccountData | bank-core/src/main/java/org/vmikhailov/java/cleanarchitecture/usecases/BankUseCases.java:131-138 | `null` throws, an unknown id throws `AccountNotFound`; otherwise the stored record's data |
| UseCases.BankUseCases.ReplenishAccount | bank-core/src/main/java/org/vmikhailov/java/cleanarchitecture/usecases/BankUseCases.java:146-157 | `null` throws, an inactive account throws `AccountNotFound`; otherwise the amount is added and committed with the account's id holding an active record with its data and every other id untouched; a currency mismatch surfaces wrapped in `AccountException`; a refused lock or a missing balance leaves the store unchanged |
| UseCases.BankUseCases.WithdrawFromAccount | bank-core/src/main/java/org/vmikhailov/java/cleanarchitecture/usecases/BankUseCases.java:165-174 | an inactive account throws `InactiveAccount`; otherwise the amount is subtracted and committed only when covered, in the account's own currency and never leaving a negative balance, with the account's id holding an active record with its data and every other id untouched; an uncovered amount leaves the record STARTED and the store unchanged |
| UseCases.BankUseCases.TransferMoney | bank-core/src/main/java/org/vmikhailov/java/cleanarchitecture/usecases/BankUseCases.java:183-195 | an inactive source, then target, throws `InactiveAccount`; otherwise the transfer is recorded COMMITTED whether or not it moved money, with balances as `TransferMoney` says and the store rewritten at exactly the accounts `TransferWrites` names; a refused lock leaves the store unchanged |
| UseCases.BankUseCases.GetAllAccounts | bank-core/src/main/java/org/vmikhailov/java/cleanarchitecture/usecases/BankUseCases.java:203-205 | every stored account of the client, active or not, and no other |
| UseCases.BankUseCases.GetAllTransactions | bank-core/src/main/java/org/vmikhailov/java/cleanarchitecture/usecases/BankUseCases.java:213-215 | every stored transaction whose source or target is the account, and no other |

## Left out

- Threads and blocking: a `caller` identity stands in for the thread, and no interleaving is modelled.
- Blocking `lock()` in `update` is modelled only for a lock that is free or already the caller's. Waiting for another thread is not modelled.
- Amounts: `BigDecimal` amounts are integers in minor units, so scale and rounding are not modelled. `Currency.isSame` is read as equality.
- Null arguments: a `null` `Money` argument is not modelled; a `null` amount inside one is.
- Id counters: the static, process-wide `AtomicLong` id counters are per-store counters, and `long` overflow is not modelled.
- Client data: only `UniversalBankClientData` is modelled. Document objects are compared by identity.
- Operation types: `UnsupportedOperationException` for other operation types cannot arise, because the three operation types are a closed datatype.
- Commands.IndependentSequentialTransaction.Execute: re-running a composite left mid-failure (its `currentCommand` still set) is not modelled. The service always builds a fresh one.
- TransactionService.LockBasedFiatTransactionService.GetCommand: requires the amount to be present, which `checkMoney` guarantees at both call sites.
- UseCases.BankUseCases.RegisterNewClient: names some matching client where Java names the first in the map's iteration order.
- Dependency injection: the Spring wiring and the `FiatCurrencyBankUseCases` subclass are left out, because they add no behaviour.
