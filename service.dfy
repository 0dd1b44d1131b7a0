/**
 * `LockBasedFiatTransactionService`: validates a request, builds the balance command
 * for it, records a STARTED transaction, locks the accounts in id order, runs the
 * command, marks the record COMMITTED and unlocks.
 */
module TransactionService {
  import opened Wrappers
  import opened Entities
  import opened Locks
  import opened AccountStore
  import opened TransactionStore
  import opened Commands

  /** `checkMoney`: the amount must be present and strictly positive. */
  function CheckMoney(money: Money): (r: Outcome<Error>)
    ensures r == Pass <==> money.amount.Some? && money.amount.value > 0
    ensures r != Pass ==> r == Fail(IllegalArgument)
  {
    if money.amount.None? then Fail(IllegalArgument)
    else if money.amount.value <= 0 then Fail(IllegalArgument)
    else Pass
  }

  /** `checkCurrencyUniform`: the second money, and the third when there is one, are in the first one's currency. */
  function CheckCurrencyUniform(a: Money, b: Money, c: Option<Money>): (r: Outcome<Error>)
    ensures r == Pass <==> IsSame(a.currency, b.currency) && (c.Some? ==> IsSame(a.currency, c.value.currency))
    ensures r != Pass ==> r == Fail(TransactionError(None))
  {
    if !IsSame(a.currency, b.currency) || (c.Some? && !IsSame(a.currency, c.value.currency)) then
      Fail(TransactionError(None))
    else Pass
  }

  /** A passed three-way check puts all three moneys in one currency. */
  lemma {:induction false} UniformCurrencies(a: Money, b: Money, c: Money)
    requires CheckCurrencyUniform(a, b, Some(c)) == Pass
    ensures a.currency == b.currency == c.currency
  {
    assert IsSame(a.currency, b.currency) && IsSame(a.currency, c.currency);
  }

  /** The commands `getCommand` builds: one balance command, or a sequence of them. */
  datatype Command = Single(command: IndependentCommand) | Sequence(transaction: IndependentSequentialTransaction)

  /** The operator of a single-account operation. */
  function SingleOperator(operation: OperationType): Operator
    requires operation != Transfer
  {
    if operation == Replenish then Add else Subtract
  }

  /**
   * `c` applies `op` by `amount` to `account`; its balance supplier and its receiver
   * were bound when the account held the money `m`.
   */
  predicate BuiltFor(c: IndependentCommand, op: Operator, amount: int, account: InMemoryAccount, m: Money,
                     store: InMemoryAccountGateway)
  {
    c.operator == op && c.amount == amount && c.account == account &&
    c.initialState == m.amount && c.currency == m.currency && c.store == store
  }

  /** The objects a command's run changes besides the accounts and the store. */
  ghost function CommandFrame(command: Command): set<object>
  {
    match command
    case Single(c) => {c}
    case Sequence(t) => {t} + t.Repr
  }

  /** The command objects themselves: what a command's own bookkeeping reads. */
  ghost function CommandObjects(command: Command): set<object>
  {
    match command
    case Single(c) => {c}
    case Sequence(t) => {t} + set j | 0 <= j < |t.subCommands| :: t.subCommands[j] as object
  }

  /** Whether `command.execute()` returns normally. The sequence catches every failure itself. */
  predicate CommandPasses(command: Command)
  {
    match command
    case Single(c) => c.Outcome().Success?
    case Sequence(_) => true
  }

  /** The money of `d` after the sequence `cmds` ran from `m`: all executed, or the completed prefix rolled back. */
  ghost function SequenceEffect(cmds: seq<IndependentCommand>, d: AccountData, m: Money): Money
  {
    var k := FirstFailure(cmds, 0);
    if k == |cmds| then Executed(cmds, k, d, m)
    else RolledBack(cmds, AllArmed(|cmds|), k, d, Executed(cmds, k, d, m))
  }

  /** The money of `d` after `command` ran from `m`. */
  ghost function CommandEffect(command: Command, d: AccountData, m: Money): Money
  {
    match command
    case Single(c) => Executed([c], 1, d, m)
    case Sequence(t) => SequenceEffect(t.subCommands, d, m)
  }

  /**
   * The account records `command`'s run leaves rewritten, in order: a single command's
   * record when its operator succeeds; for a sequence, the records of the sub-commands
   * before the first failing one, each written on execution and, on a failure, written
   * back in the same order.
   */
  ghost function CommandWrites(command: Command): seq<InMemoryAccount>
  {
    match command
    case Single(c) => if c.Outcome().Success? then [c.account] else []
    case Sequence(t) => AccountsOf(t.subCommands[..FirstFailure(t.subCommands, 0)])
  }

  /**
   * What a transfer of `amount` leaves on the source and the target balance, `shared`
   * when both accounts hold the same data object. A failing debit or credit leaves both
   * as they were. The credit adds to the target's balance as it was when the command
   * was built, so on a shared balance the credit overwrites the debit.
   */
  function TransferMoney(from: Money, to: Money, amount: int, shared: bool): (Money, Money)
  {
    var debit := SubtractOperation(amount, from.amount);
    var credit := AddOperation(amount, to.amount);
    if debit.Failure? || credit.Failure? then (from, to)
    else if shared then (Money(to.currency, Some(credit.value)), Money(to.currency, Some(credit.value)))
    else (Money(from.currency, Some(debit.value)), Money(to.currency, Some(credit.value)))
  }

  /**
   * The account records a transfer of `amount` leaves rewritten, from the balances
   * `fromMoney` and `toMoney`: none when the debit fails; the source's alone when the
   * credit fails, since the debit is written and then written back; both otherwise.
   */
  function TransferWrites(from: InMemoryAccount, to: InMemoryAccount, fromMoney: Money, toMoney: Money,
                          amount: int): seq<InMemoryAccount>
  {
    if SubtractOperation(amount, fromMoney.amount).Failure? then []
    else if AddOperation(amount, toMoney.amount).Failure? then [from]
    else [from, to]
  }

  /** Between two balances, a transfer never changes the total. */
  lemma TransferConserves(from: Money, to: Money, amount: int)
    requires from.amount.Some? && to.amount.Some?
    ensures var r := TransferMoney(from, to, amount, false);
      r.0.amount.Some? && r.1.amount.Some? &&
      r.0.amount.value + r.1.amount.value == from.amount.value + to.amount.value
  {
  }

  /**
   * Between two balances, a transfer either leaves both untouched or moves the whole
   * amount, and it never takes the source below zero.
   */
  lemma TransferAllOrNothing(from: Money, to: Money, amount: int)
    requires from.amount.Some? && 0 <= from.amount.value
    ensures var r := TransferMoney(from, to, amount, false);
      (r.0 == from && r.1 == to) ||
      (r.0 == Money(from.currency, Some(from.amount.value - amount)) &&
       to.amount.Some? && r.1 == Money(to.currency, Some(to.amount.value + amount)))
    ensures 0 <= TransferMoney(from, to, amount, false).0.amount.value
  {
  }

  /** The currencies stay as they were. */
  lemma TransferKeepsCurrencies(from: Money, to: Money, amount: int, shared: bool)
    requires shared ==> from == to
    ensures TransferMoney(from, to, amount, shared).0.currency == from.currency
    ensures TransferMoney(from, to, amount, shared).1.currency == to.currency
  {
  }

  /** A transfer of a covered amount from a balance to itself raises that balance by the amount. */
  lemma SelfTransferCredits(m: Money, amount: int)
    requires m.amount.Some? && amount <= m.amount.value
    ensures TransferMoney(m, m, amount, true).0 == Money(m.currency, Some(m.amount.value + amount))
    ensures TransferMoney(m, m, amount, true).1 == TransferMoney(m, m, amount, true).0
  {
  }

  /**
   * The sequence `getCommand` builds for TRANSFER (a debit of `from`'s account, then a
   * credit of `to`'s) leaves both balances as `TransferMoney` says, and rewrites the
   * records `TransferWrites` lists.
   */
  lemma {:induction false} TransferEffect(cmds: seq<IndependentCommand>, amount: int, from: Money, to: Money)
    requires |cmds| == 2
    requires cmds[0].operator == Subtract && cmds[0].amount == amount
    requires cmds[0].initialState == from.amount && cmds[0].currency == from.currency
    requires cmds[1].operator == Add && cmds[1].amount == amount
    requires cmds[1].initialState == to.amount && cmds[1].currency == to.currency
    requires cmds[0].account.data == cmds[1].account.data ==> from == to
    ensures var shared := cmds[0].account.data == cmds[1].account.data;
      && SequenceEffect(cmds, cmds[0].account.data, from) == TransferMoney(from, to, amount, shared).0
      && SequenceEffect(cmds, cmds[1].account.data, to) == TransferMoney(from, to, amount, shared).1
    ensures AccountsOf(cmds[..FirstFailure(cmds, 0)]) == TransferWrites(cmds[0].account, cmds[1].account, from, to, amount)
  {
    var debit, credit := cmds[0], cmds[1];
    var dA, dB := debit.account.data, credit.account.data;
    assert debit.Outcome() == SubtractOperation(amount, from.amount);
    assert credit.Outcome() == AddOperation(amount, to.amount);
    if debit.Outcome().Failure? {
      assert FirstFailure(cmds, 0) == 0;
      assert AccountsOf(cmds[..0]) == [];
    } else if credit.Outcome().Failure? {
      assert FirstFailure(cmds, 0) == 1 by {
        assert FirstFailure(cmds, 1) == 1;
      }
      assert Executed(cmds, 1, dA, from) == Money(from.currency, Some(debit.Outcome().value));
      assert RolledBack(cmds, AllArmed(2), 1, dA, Money(from.currency, Some(debit.Outcome().value))) == from;
      assert AccountsOf(cmds[..1]) == [debit.account];
      if dA != dB {
        assert Executed(cmds, 1, dB, to) == to;
        assert RolledBack(cmds, AllArmed(2), 1, dB, to) == to;
      }
    } else {
      assert FirstFailure(cmds, 0) == 2 by {
        assert FirstFailure(cmds, 1) == 2 by {
          assert FirstFailure(cmds, 2) == 2;
        }
      }
      assert Executed(cmds, 2, dB, to) == Money(to.currency, Some(credit.Outcome().value));
      assert AccountsOf(cmds[..2]) == [debit.account, credit.account];
      if dA != dB {
        assert Executed(cmds, 2, dA, from) == Executed(cmds, 1, dA, from);
      }
    }
  }

  /** The accounts in the order `sortAndLockAccounts` locks them: non-null ones, by ascending id, stably. */
  function LockOrder(a: InMemoryAccount, b: InMemoryAccount?): (s: seq<InMemoryAccount>)
    ensures b == null ==> s == [a]
    ensures b != null ==> |s| == 2 && multiset(s) == multiset{a, b} && s[0].id <= s[1].id
    ensures b != null && a.id == b.id ==> s == [a, b]
  {
    if b == null then [a]
    else if b.id < a.id then [b, a]
    else [a, b]
  }

  /** A lock's state, `Free` standing in for a missing account. */
  ghost function LockStateOf(x: InMemoryAccount?): LockState
    reads if x != null then {x.lock} else {}
  {
    if x == null then Free else x.lock.state
  }

  /** Whether `sortAndLockAccounts` takes every lock, from the states `sa` of `a`'s lock and `sb` of `b`'s. */
  predicate CanLock(caller: Caller, a: InMemoryAccount, b: InMemoryAccount?, sa: LockState, sb: LockState)
  {
    if b == null || a.lock == b.lock then Available(sa, caller)
    else Available(sa, caller) && Available(sb, caller)
  }

  /** Two distinct locks taken one after the other: a refused first lock stops before the second. */
  function LockPair(caller: Caller, first: LockState, second: LockState): (r: (LockState, LockState))
    ensures !Available(first, caller) ==> r == (first, second)
    ensures Available(first, caller) ==> r.0 == Acquired(first, caller)
    ensures Available(first, caller) && Available(second, caller) ==> r.1 == Acquired(second, caller)
    ensures !Available(second, caller) ==> r.1 == second
  {
    if !Available(first, caller) then (first, second)
    else if !Available(second, caller) then (Acquired(first, caller), second)
    else (Acquired(first, caller), Acquired(second, caller))
  }

  /**
   * The lock states after `sortAndLockAccounts` from `sa` and `sb`: a shared lock is
   * taken twice, distinct locks in id order; a refusal keeps the locks taken before it.
   */
  ghost predicate SortLocked(caller: Caller, a: InMemoryAccount, b: InMemoryAccount?, sa: LockState, sb: LockState)
    reads a.lock, if b != null then {b.lock} else {}
  {
    if b == null then
      a.lock.state == (if Available(sa, caller) then Acquired(sa, caller) else sa)
    else if a.lock == b.lock then
      a.lock.state == (if Available(sa, caller) then Acquired(Acquired(sa, caller), caller) else sa)
    else if b.id < a.id then
      (b.lock.state, a.lock.state) == LockPair(caller, sb, sa)
    else
      (a.lock.state, b.lock.state) == LockPair(caller, sa, sb)
  }

  /** Every lock `sortAndLockAccounts` took from `sa` and `sb` is held once more by `caller`. */
  ghost predicate HeldFrom(caller: Caller, a: InMemoryAccount, b: InMemoryAccount?, sa: LockState, sb: LockState)
    reads a.lock, if b != null then {b.lock} else {}
  {
    if b == null then Available(sa, caller) && a.lock.state == Acquired(sa, caller)
    else if a.lock == b.lock then Available(sa, caller) && a.lock.state == Acquired(Acquired(sa, caller), caller)
    else
      && Available(sa, caller) && a.lock.state == Acquired(sa, caller)
      && Available(sb, caller) && b.lock.state == Acquired(sb, caller)
  }

  class LockBasedFiatTransactionService {
    const transactions: InMemoryTransactionGateway
    const accounts: InMemoryAccountGateway

    ghost predicate Valid()
      reads transactions, accounts
    {
      transactions.Valid() && accounts.Valid()
    }

    constructor (transactions: InMemoryTransactionGateway, accounts: InMemoryAccountGateway)
      ensures this.transactions == transactions && this.accounts == accounts
    {
      this.transactions := transactions;
      this.accounts := accounts;
    }

    /**
     * `command` is what `getCommand` built for `a` (and `b`): fresh commands that write
     * through this service's account store to those accounts only.
     */
    ghost predicate Runnable(command: Command, a: InMemoryAccount, b: InMemoryAccount?)
      reads accounts, CommandObjects(command)
    {
      match command
      case Single(c) => c.account == a && c.store == accounts
      case Sequence(t) =>
        && t.store == accounts && transactions !in t.Repr
        && t.CommandsValid() && t.Bookkeeping() && t.currentCommand.None?
        && |t.subCommands| == 2 && t.subCommands[0].account == a && b != null && t.subCommands[1].account == b
    }

    /**
     * `getCommand`: REPLENISH and WITHDRAW build one command on `a`; TRANSFER builds the
     * debit of `a` followed by the credit of `b`, and throws when `b` is `null`. Each
     * command captures its account's money as it is now.
     */
    method GetCommand(operation: OperationType, money: Money, a: InMemoryAccount, b: InMemoryAccount?)
      returns (r: Result<Command, Error>)
      requires Valid() && a in accounts.issued && (b != null ==> b in accounts.issued)
      requires money.amount.Some?
      ensures operation == Transfer && b == null ==> r == Failure(NullPointer)
      ensures operation != Transfer ==>
        && r.Success? && r.value.Single? && fresh(r.value.command)
        && BuiltFor(r.value.command, SingleOperator(operation), money.amount.value, a, a.data.money, accounts)
      ensures operation == Transfer && b != null ==>
        && r.Success? && r.value.Sequence? && fresh(r.value.transaction)
        && var cmds := r.value.transaction.subCommands;
        && |cmds| == 2 && fresh(cmds[0]) && fresh(cmds[1])
        && BuiltFor(cmds[0], Subtract, money.amount.value, a, a.data.money, accounts)
        && BuiltFor(cmds[1], Add, money.amount.value, b, b.data.money, accounts)
        && r.value.transaction.Repr <= {cmds[0], cmds[1], a.data, a.lock, b.data, b.lock}
      ensures r.Success? ==> Runnable(r.value, a, b)
    {
      var amount := money.amount.value;
      match operation
      case Replenish =>
        var c := new IndependentCommand(Add, amount, a.data.money.amount, a, a.data.money.currency, accounts);
        r := Success(Single(c));
      case Withdraw =>
        var c := new IndependentCommand(Subtract, amount, a.data.money.amount, a, a.data.money.currency, accounts);
        r := Success(Single(c));
      case Transfer =>
        if b == null {
          return Failure(NullPointer);
        }
        var t := TransferCommand(amount, a, b);
        r := Success(Sequence(t));
    }

    /** The TRANSFER branch of `getCommand`: a composite of the debit of `a` and then the credit of `b`. */
    method TransferCommand(amount: int, a: InMemoryAccount, b: InMemoryAccount)
      returns (t: IndependentSequentialTransaction)
      requires Valid() && a in accounts.issued && b in accounts.issued
      ensures fresh(t) && t.store == accounts && |t.subCommands| == 2
      ensures fresh(t.subCommands[0]) && fresh(t.subCommands[1])
      ensures BuiltFor(t.subCommands[0], Subtract, amount, a, a.data.money, accounts)
      ensures BuiltFor(t.subCommands[1], Add, amount, b, b.data.money, accounts)
      ensures t.Repr <= {t.subCommands[0], t.subCommands[1], a.data, a.lock, b.data, b.lock}
      ensures t.CommandsValid() && t.Bookkeeping() && t.currentCommand.None?
    {
      var debit := new IndependentCommand(Subtract, amount, a.data.money.amount, a, a.data.money.currency, accounts);
      var credit := new IndependentCommand(Add, amount, b.data.money.amount, b, b.data.money.currency, accounts);
      t := new IndependentSequentialTransaction([debit, credit], accounts);
    }

    /**
     * `sortAndLockAccounts(a, b)`: `tryLock` on each non-null account in id order; the
     * first refusal throws `LockedException` and leaves the locks taken before it held.
     */
    method SortAndLock(caller: Caller, a: InMemoryAccount, b: InMemoryAccount?) returns (r: Outcome<Error>)
      modifies a.lock, if b != null then {b.lock} else {}
      ensures r.Pass? <==> CanLock(caller, a, b, old(a.lock.state), old(LockStateOf(b)))
      ensures r.Fail? ==> r.error == Locked
      ensures SortLocked(caller, a, b, old(a.lock.state), old(LockStateOf(b)))
      ensures r.Pass? ==> HeldFrom(caller, a, b, old(a.lock.state), old(LockStateOf(b)))
    {
      var order := LockOrder(a, b);
      r := order[0].Lock(caller);
      if r.Pass? && |order| == 2 {
        r := order[1].Lock(caller);
      }
    }

    /**
     * `unlockAccounts(a, b)`: `unlock` on each non-null account in argument order; a lock
     * the caller does not hold throws `IllegalMonitorStateException` and stops there.
     */
    method UnlockAccounts(caller: Caller, a: InMemoryAccount, b: InMemoryAccount?) returns (r: Outcome<Error>)
      modifies a.lock, if b != null then {b.lock} else {}
      ensures Released(old(a.lock.state), caller).None? ==>
        r == Fail(IllegalMonitorState) && a.lock.state == old(a.lock.state) && LockStateOf(b) == old(LockStateOf(b))
      ensures Released(old(a.lock.state), caller).Some? && b == null ==>
        r == Pass && Some(a.lock.state) == Released(old(a.lock.state), caller)
      ensures Released(old(a.lock.state), caller).Some? && b != null && a.lock == b.lock ==>
        var once := Released(old(a.lock.state), caller).value;
        && (r.Pass? <==> Released(once, caller).Some?)
        && (r.Pass? ==> Some(a.lock.state) == Released(once, caller))
        && (r.Fail? ==> r.error == IllegalMonitorState && a.lock.state == once)
      ensures Released(old(a.lock.state), caller).Some? && b != null && a.lock != b.lock ==>
        && Some(a.lock.state) == Released(old(a.lock.state), caller)
        && (r.Pass? <==> Released(old(b.lock.state), caller).Some?)
        && (r.Pass? ==> Some(b.lock.state) == Released(old(b.lock.state), caller))
        && (r.Fail? ==> r.error == IllegalMonitorState && b.lock.state == old(b.lock.state))
    {
      var released := a.Unlock(caller);
      if !released {
        return Fail(IllegalMonitorState);
      }
      if b != null {
        released := b.Unlock(caller);
        if !released {
          return Fail(IllegalMonitorState);
        }
      }
      r := Pass;
    }

    /** `command.execute()`: the single command, or the sequence, which catches every failure itself. */
    method RunCommand(caller: Caller, command: Command, a: InMemoryAccount, b: InMemoryAccount?)
      returns (r: Outcome<Error>)
      requires accounts.Valid() && a in accounts.issued && (b != null ==> b in accounts.issued)
      requires Runnable(command, a, b)
      requires Available(a.lock.state, caller) && (b != null ==> Available(b.lock.state, caller))
      modifies accounts, a.lock, a.data, (if b != null then {b.lock, b.data} else {}), CommandFrame(command)
      ensures accounts.Valid() && old(accounts.issued) <= accounts.issued && accounts.idSequence == old(accounts.idSequence)
      ensures Rewritten(old(accounts.storage), accounts.storage, CommandWrites(command))
      ensures a.lock.state == old(a.lock.state) && LockStateOf(b) == old(LockStateOf(b))
      ensures r.Pass? <==> CommandPasses(command)
      ensures r.Fail? ==> command.Single? && r.error == CommandError(Some(command.command.Outcome().error))
      ensures a.data.money == CommandEffect(command, a.data, old(a.data.money))
      ensures b != null ==> b.data.money == CommandEffect(command, b.data, old(b.data.money))
    {
      match command
      case Single(c) =>
        r := c.Execute(caller);
        assert Executed([c], 0, a.data, old(a.data.money)) == old(a.data.money);
        assert b != null ==> Executed([c], 0, b.data, old(b.data.money)) == old(b.data.money);
      case Sequence(t) =>
        t.Execute(caller);
        assert t.subCommands[0].account == a && t.subCommands[1].account == b;
        r := Pass;
    }

    /**
     * The `try` block of `commandInvoker`: `command.execute()`, then the record is marked
     * COMMITTED. A failing command throws past the update.
     */
    method TryExecute(caller: Caller, command: Command, a: InMemoryAccount, b: InMemoryAccount?,
                      record: InMemoryTransaction) returns (r: Outcome<Error>)
      requires Valid() && a in accounts.issued && (b != null ==> b in accounts.issued)
      requires Runnable(command, a, b) && record !in CommandFrame(command)
      requires record.id in transactions.storage && transactions.storage[record.id] == record
      requires Available(a.lock.state, caller) && (b != null ==> Available(b.lock.state, caller))
      modifies record, accounts, a.lock, a.data, (if b != null then {b.lock, b.data} else {}), CommandFrame(command)
      ensures Valid() && old(accounts.issued) <= accounts.issued && accounts.idSequence == old(accounts.idSequence)
      ensures Rewritten(old(accounts.storage), accounts.storage, CommandWrites(command))
      ensures unchanged(transactions)
      ensures a.lock.state == old(a.lock.state) && LockStateOf(b) == old(LockStateOf(b))
      ensures a.data.money == CommandEffect(command, a.data, old(a.data.money))
      ensures b != null ==> b.data.money == CommandEffect(command, b.data, old(b.data.money))
      ensures CommandPasses(command) ==> r == Pass && record.GetState() == Committed
      ensures !CommandPasses(command) ==>
        r == Fail(CommandError(Some(command.command.Outcome().error))) && record.GetState() == old(record.GetState())
    {
      r := RunCommand(caller, command, a, b);
      if r.Pass? {
        r := Commit(record, old(accounts.storage), CommandWrites(command));
      }
    }

    /** Marks `record` COMMITTED; the account store and its records are left as they are. */
    method Commit(record: InMemoryTransaction, ghost before: map<int, InMemoryAccount>, ghost writes: seq<InMemoryAccount>)
      returns (r: Outcome<Error>)
      requires transactions.Valid() && record.id in transactions.storage && transactions.storage[record.id] == record
      requires Rewritten(before, accounts.storage, writes)
      modifies record
      ensures transactions.Valid() && r == Pass && record.GetState() == Committed
      ensures Rewritten(before, accounts.storage, writes)
    {
      r := transactions.UpdateTransactionState(Some(record.id), Committed);
    }

    /**
     * The `finally` block: `unlockAccounts` gives back each lock `sortAndLockAccounts` took,
     * and touches neither the account store nor its records.
     */
    method ReleaseHeld(caller: Caller, a: InMemoryAccount, b: InMemoryAccount?, ghost sa: LockState, ghost sb: LockState,
                       ghost before: map<int, InMemoryAccount>, ghost writes: seq<InMemoryAccount>)
      returns (r: Outcome<Error>)
      requires HeldFrom(caller, a, b, sa, sb)
      requires Rewritten(before, accounts.storage, writes)
      modifies a.lock, if b != null then {b.lock} else {}
      ensures r == Pass && a.lock.state == sa && (b != null ==> b.lock.state == if a.lock == b.lock then sa else sb)
      ensures Rewritten(before, accounts.storage, writes)
    {
      r := UnlockAccounts(caller, a, b);
    }

    /**
     * `commandInvoker` once the record exists: locks, runs the `try` block and unlocks
     * in `finally`. A refused lock throws before the `try`, so nothing is unlocked.
     */
    method LockAndRun(caller: Caller, command: Command, a: InMemoryAccount, b: InMemoryAccount?,
                      record: InMemoryTransaction) returns (r: Result<InMemoryTransaction, Error>)
      requires Valid() && a in accounts.issued && (b != null ==> b in accounts.issued)
      requires Runnable(command, a, b) && record !in CommandFrame(command)
      requires record.id in transactions.storage && transactions.storage[record.id] == record
      modifies record, accounts, a.lock, a.data, (if b != null then {b.lock, b.data} else {}), CommandFrame(command)
      ensures Valid() && old(accounts.issued) <= accounts.issued && accounts.idSequence == old(accounts.idSequence)
      ensures unchanged(transactions)
      ensures !CanLock(caller, a, b, old(a.lock.state), old(LockStateOf(b))) ==>
        && r == Failure(Locked) && record.GetState() == old(record.GetState()) && accounts.storage == old(accounts.storage)
        && SortLocked(caller, a, b, old(a.lock.state), old(LockStateOf(b)))
        && a.data.money == old(a.data.money) && (b != null ==> b.data.money == old(b.data.money))
      ensures CanLock(caller, a, b, old(a.lock.state), old(LockStateOf(b))) ==>
        && a.lock.state == old(a.lock.state) && LockStateOf(b) == old(LockStateOf(b))
        && Rewritten(old(accounts.storage), accounts.storage, CommandWrites(command))
        && a.data.money == CommandEffect(command, a.data, old(a.data.money))
        && (b != null ==> b.data.money == CommandEffect(command, b.data, old(b.data.money)))
        && (CommandPasses(command) ==> r == Success(record) && record.GetState() == Committed)
        && (!CommandPasses(command) ==>
              r == Failure(CommandError(Some(command.command.Outcome().error))) && record.GetState() == old(record.GetState()))
    {
      ghost var sa, sb := a.lock.state, LockStateOf(b);
      var locked := SortAndLock(caller, a, b);
      if locked.Fail? {
        return Failure(locked.error);
      }
      assert HeldFrom(caller, a, b, sa, sb);
      var executed := TryExecute(caller, command, a, b, record);
      // The `catch (AccountException | TransactionException)` clause is never entered.
      assert !(executed.Fail? && IsAccountOrTransactionError(executed.error));
      var unlocked := ReleaseHeld(caller, a, b, sa, sb, old(accounts.storage), CommandWrites(command));
      r := if executed.Pass? then Success(record) else Failure(executed.error);
    }

    /**
     * `commandInvoker`: records the transaction as STARTED, then locks, runs the command,
     * marks the record COMMITTED and unlocks. A refused lock leaves the record STARTED;
     * a failing command throws `CommandException`, which the `catch` does not name, so
     * the record stays STARTED and nothing is rolled back.
     */
    method CommandInvoker(caller: Caller, command: Command, money: Money, operation: OperationType,
                          a: InMemoryAccount, b: InMemoryAccount?)
      returns (r: Result<InMemoryTransaction, Error>, ghost record: InMemoryTransaction)
      requires Valid() && a in accounts.issued && (b != null ==> b in accounts.issued)
      requires Runnable(command, a, b)
      modifies transactions, accounts, a.lock, a.data, (if b != null then {b.lock, b.data} else {}), CommandFrame(command)
      ensures Valid() && old(accounts.issued) <= accounts.issued && accounts.idSequence == old(accounts.idSequence)
      ensures fresh(record) && record.id == transactions.idSequence == old(transactions.idSequence) + 1
      ensures transactions.storage == old(transactions.storage)[record.id := record]
      ensures record.data == FiatTransactionData(a, b, money, operation)
      ensures !CanLock(caller, a, b, old(a.lock.state), old(LockStateOf(b))) ==>
        && r == Failure(Locked) && record.GetState() == Started && accounts.storage == old(accounts.storage)
        && SortLocked(caller, a, b, old(a.lock.state), old(LockStateOf(b)))
        && a.data.money == old(a.data.money) && (b != null ==> b.data.money == old(b.data.money))
      ensures CanLock(caller, a, b, old(a.lock.state), old(LockStateOf(b))) ==>
        && a.lock.state == old(a.lock.state) && LockStateOf(b) == old(LockStateOf(b))
        && Rewritten(old(accounts.storage), accounts.storage, CommandWrites(command))
        && a.data.money == CommandEffect(command, a.data, old(a.data.money))
        && (b != null ==> b.data.money == CommandEffect(command, b.data, old(b.data.money)))
        && (CommandPasses(command) ==> r == Success(record) && record.GetState() == Committed)
        && (!CommandPasses(command) ==>
              r == Failure(CommandError(Some(command.command.Outcome().error))) && record.GetState() == Started)
    {
      var created := transactions.Create(Some(FiatTransactionData(a, b, money, operation)));
      record := created.value;
      r := LockAndRun(caller, command, a, b, created.value);
    }

    /**
     * `make(account, money, type)`: checks the amount, then that the money is in the
     * account's currency, builds the command (TRANSFER has no second account and throws)
     * and invokes it. A rejected request changes nothing and records nothing.
     */
    method MakeSingle(caller: Caller, account: InMemoryAccount, money: Money, operation: OperationType)
      returns (r: Result<InMemoryTransaction, Error>, ghost record: Option<InMemoryTransaction>)
      requires Valid() && account in accounts.issued
      modifies transactions, accounts, account.lock, account.data
      ensures Valid() && old(accounts.issued) <= accounts.issued && accounts.idSequence == old(accounts.idSequence)
      ensures account.lock.state == old(account.lock.state)
      ensures CheckMoney(money) != Pass ==>
        r == Failure(IllegalArgument) && record.None? && unchanged(transactions, accounts, account.data)
      ensures CheckMoney(money) == Pass && CheckCurrencyUniform(old(account.data.money), money, None) != Pass ==>
        r == Failure(TransactionError(None)) && record.None? && unchanged(transactions, accounts, account.data)
      ensures CheckMoney(money) == Pass && CheckCurrencyUniform(old(account.data.money), money, None) == Pass &&
              operation == Transfer ==>
        r == Failure(NullPointer) && record.None? && unchanged(transactions, accounts, account.data)
      ensures CheckMoney(money) == Pass && CheckCurrencyUniform(old(account.data.money), money, None) == Pass &&
              operation != Transfer ==>
        && record.Some? && fresh(record.value)
        && transactions.storage == old(transactions.storage)[record.value.id := record.value]
        && record.value.id == transactions.idSequence == old(transactions.idSequence) + 1
        && record.value.data == FiatTransactionData(account, null, money, operation)
        && (!Available(old(account.lock.state), caller) ==>
              && r == Failure(Locked) && record.value.GetState() == Started
              && account.data.money == old(account.data.money) && accounts.storage == old(accounts.storage))
        && (Available(old(account.lock.state), caller) ==>
              var outcome := Apply(SingleOperator(operation), money.amount.value, old(account.data.money).amount);
              && (outcome.Success? ==>
                    && r == Success(record.value) && record.value.GetState() == Committed
                    && account.data.money == Money(old(account.data.money).currency, Some(outcome.value))
                    && Rewritten(old(accounts.storage), accounts.storage, [account]))
              && (outcome.Failure? ==>
                    && r == Failure(CommandError(Some(outcome.error))) && record.value.GetState() == Started
                    && account.data.money == old(account.data.money) && accounts.storage == old(accounts.storage)))
    {
      record := None;
      var checked := CheckMoney(money);
      if checked.Fail? {
        return Failure(checked.error), record;
      }
      checked := CheckCurrencyUniform(account.data.money, money, None);
      if checked.Fail? {
        return Failure(checked.error), record;
      }
      var command := GetCommand(operation, money, account, null);
      if command.Failure? {
        return Failure(command.error), record;
      }
      ghost var m := account.data.money;
      ghost var created;
      r, created := CommandInvoker(caller, command.value, money, operation, account, null);
      record := Some(created);
      assert Executed([command.value.command], 0, account.data, m) == m;
      if Available(old(account.lock.state), caller) && CommandWrites(command.value) == [] {
        RewrittenNothing(old(accounts.storage), accounts.storage);
      }
    }

    /**
     * `make(from, to, money, type)`: checks the amount, then that both accounts and the
     * money share one currency, builds the command and invokes it with both accounts
     * locked. TRANSFER debits `from` and credits `to`; the other types act on `from` only.
     */
    method MakePair(caller: Caller, from: InMemoryAccount, to: InMemoryAccount, money: Money, operation: OperationType)
      returns (r: Result<InMemoryTransaction, Error>, ghost record: Option<InMemoryTransaction>)
      requires Valid() && from in accounts.issued && to in accounts.issued
      modifies transactions, accounts, from.lock, from.data, to.lock, to.data
      ensures Valid() && old(accounts.issued) <= accounts.issued && accounts.idSequence == old(accounts.idSequence)
      ensures CheckMoney(money) != Pass ==>
        r == Failure(IllegalArgument) && record.None? && unchanged(transactions, accounts, from.data, to.data, from.lock, to.lock)
      ensures CheckMoney(money) == Pass && CheckCurrencyUniform(old(from.data.money), old(to.data.money), Some(money)) != Pass ==>
        r == Failure(TransactionError(None)) && record.None? && unchanged(transactions, accounts, from.data, to.data, from.lock, to.lock)
      ensures CheckMoney(money) == Pass && CheckCurrencyUniform(old(from.data.money), old(to.data.money), Some(money)) == Pass ==>
        && record.Some? && fresh(record.value)
        && transactions.storage == old(transactions.storage)[record.value.id := record.value]
        && record.value.id == transactions.idSequence == old(transactions.idSequence) + 1
        && record.value.data == FiatTransactionData(from, to, money, operation)
        && (!CanLock(caller, from, to, old(from.lock.state), old(to.lock.state)) ==>
              && r == Failure(Locked) && record.value.GetState() == Started && accounts.storage == old(accounts.storage)
              && SortLocked(caller, from, to, old(from.lock.state), old(to.lock.state))
              && from.data.money == old(from.data.money) && to.data.money == old(to.data.money))
        && (CanLock(caller, from, to, old(from.lock.state), old(to.lock.state)) ==>
              && from.lock.state == old(from.lock.state) && to.lock.state == old(to.lock.state)
              && (operation == Transfer ==>
                    && r == Success(record.value) && record.value.GetState() == Committed
                    && (from.data.money, to.data.money) ==
                       TransferMoney(old(from.data.money), old(to.data.money), money.amount.value, from.data == to.data)
                    && Rewritten(old(accounts.storage), accounts.storage,
                                 TransferWrites(from, to, old(from.data.money), old(to.data.money), money.amount.value)))
              && (operation != Transfer ==>
                    var outcome := Apply(SingleOperator(operation), money.amount.value, old(from.data.money).amount);
                    && (outcome.Success? ==>
                          && r == Success(record.value) && record.value.GetState() == Committed
                          && from.data.money == Money(old(from.data.money).currency, Some(outcome.value))
                          && Rewritten(old(accounts.storage), accounts.storage, [from]))
                    && (outcome.Failure? ==>
                          && r == Failure(CommandError(Some(outcome.error))) && record.value.GetState() == Started
                          && from.data.money == old(from.data.money) && accounts.storage == old(accounts.storage))
                    && (to.data != from.data ==> to.data.money == old(to.data.money))))
    {
      record := None;
      var checked := CheckMoney(money);
      if checked.Fail? {
        return Failure(checked.error), record;
      }
      checked := CheckCurrencyUniform(from.data.money, to.data.money, Some(money));
      if checked.Fail? {
        return Failure(checked.error), record;
      }
      var command := GetCommand(operation, money, from, to);
      ghost var mFrom, mTo := from.data.money, to.data.money;
      if command.value.Sequence? {
        TransferEffect(command.value.transaction.subCommands, money.amount.value, mFrom, mTo);
      } else {
        assert Executed([command.value.command], 0, from.data, mFrom) == mFrom;
        assert Executed([command.value.command], 0, to.data, mTo) == mTo;
      }
      ghost var created;
      r, created := CommandInvoker(caller, command.value, money, operation, from, to);
      record := Some(created);
      if CanLock(caller, from, to, old(from.lock.state), old(to.lock.state)) && CommandWrites(command.value) == [] {
        RewrittenNothing(old(accounts.storage), accounts.storage);
      }
    }
  }
}
