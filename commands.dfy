/**
 * The reversible balance commands of the transaction service: one command class
 * (the abstract command with its additive and subtractive operators folded in as an
 * operator tag) and the composite that runs several of them in order.
 */
module Commands {
  import opened Wrappers
  import opened Entities
  import opened Locks
  import opened AccountStore

  datatype Operator = Add | Subtract

  /** The additive operator `addend -> addend.add(augend)`: only a `null` balance makes it throw. */
  function AddOperation(augend: int, addend: Option<int>): (r: Result<int, Error>)
    ensures r.Success? <==> addend.Some?
    ensures r.Failure? ==> r.error == NullPointer
    ensures r.Success? ==> r.value - augend == addend.value
  {
    match addend
    case None => Failure(NullPointer)
    case Some(a) => Success(a + augend)
  }

  /**
   * `subtractOperation`: a `null` balance and a balance below the subtrahend throw
   * before anything is computed; an equal balance is allowed and leaves zero.
   */
  function SubtractOperation(subtrahend: int, initialAmount: Option<int>): (r: Result<int, Error>)
    ensures initialAmount.None? ==> r == Failure(EmptyInitialAmount)
    ensures initialAmount.Some? && initialAmount.value < subtrahend ==>
      r == Failure(InsufficientAmount(initialAmount.value, subtrahend))
    ensures r.Success? <==> initialAmount.Some? && subtrahend <= initialAmount.value
    ensures r.Success? ==> 0 <= r.value && r.value + subtrahend == initialAmount.value
    ensures initialAmount == Some(subtrahend) ==> r == Success(0)
  {
    if initialAmount.None? then Failure(EmptyInitialAmount)
    else if initialAmount.value < subtrahend then Failure(InsufficientAmount(initialAmount.value, subtrahend))
    else Success(initialAmount.value - subtrahend)
  }

  /** `getCommandOperator().apply(current)` */
  function Apply(operator: Operator, amount: int, current: Option<int>): Result<int, Error>
  {
    match operator
    case Add => AddOperation(amount, current)
    case Subtract => SubtractOperation(amount, current)
  }

  /** Subtracting an amount undoes adding it to a non-negative balance. */
  lemma SubtractUndoesAdd(amount: int, balance: int)
    requires 0 <= balance
    ensures AddOperation(amount, Some(balance)).Success?
    ensures SubtractOperation(amount, Some(AddOperation(amount, Some(balance)).value)) == Success(balance)
  {
  }

  /**
   * One reversible command. `initialState` is the value the balance supplier returns:
   * the source captures the account's money object when the command is built, so it
   * is a snapshot of the amount at build time. The receiver writes
   * `Money(currency, value)` into `account.data` and pushes it through `store.update`.
   */
  class IndependentCommand {
    const operator: Operator
    const amount: int
    const initialState: Option<int>
    const account: InMemoryAccount
    const currency: Currency
    const store: InMemoryAccountGateway
    /** `canRevert` */
    var canRevert: bool
    /** `beforeExecute` */
    var beforeExecute: Option<int>

    /** Only a successful `execute` arms a rollback, and it caches the supplier's value. */
    ghost predicate Valid()
      reads this
    {
      canRevert ==> beforeExecute == initialState
    }

    constructor (operator: Operator, amount: int, initialState: Option<int>, account: InMemoryAccount,
                 currency: Currency, store: InMemoryAccountGateway)
      ensures this.operator == operator && this.amount == amount && this.initialState == initialState
      ensures this.account == account && this.currency == currency && this.store == store
      ensures Valid() && !canRevert && beforeExecute == None
    {
      this.operator := operator;
      this.amount := amount;
      this.initialState := initialState;
      this.account := account;
      this.currency := currency;
      this.store := store;
      canRevert := false;
      beforeExecute := None;
    }

    /** What the operator makes of the supplier's value. */
    function Outcome(): Result<int, Error>
    {
      Apply(operator, amount, initialState)
    }

    /** What `rollback` writes back after a successful `execute`. */
    function RevertValue(): Money
    {
      Money(currency, initialState)
    }

    /** The command's account record can be written by `caller` without waiting. */
    ghost predicate Ready(caller: Caller)
      reads store, account.lock
    {
      store.Valid() && account in store.issued && Available(account.lock.state, caller)
    }

    /** The receiver: `setMoney(new FiatMoney(currency, value))`, then `update(id, data)`. */
    method Receive(caller: Caller, value: Option<int>)
      requires Ready(caller)
      modifies account.data, store, account.lock
      ensures Ready(caller) && account.lock.state == old(account.lock.state)
      ensures account.data.money == Money(currency, value)
      ensures old(store.issued) <= store.issued && store.idSequence == old(store.idSequence)
      ensures Rewritten(old(store.storage), store.storage, [account]) && fresh(store.storage[account.id])
    {
      account.data.money := Money(currency, value);
      var updated := store.Update(caller, Some(account.id), account.data);
    }

    /**
     * `execute()`: caches the supplier's value, applies the operator and hands the
     * result to the receiver; an operator failure is rethrown as `CommandException`
     * before anything is written, and leaves `canRevert` as it was.
     */
    method Execute(caller: Caller) returns (r: Outcome<Error>)
      requires Ready(caller)
      modifies this, account.data, store, account.lock
      ensures Ready(caller) && account.lock.state == old(account.lock.state)
      ensures old(store.issued) <= store.issued && store.storage.Keys == old(store.storage.Keys)
      ensures Valid() && beforeExecute == initialState
      ensures r.Pass? <==> Outcome().Success?
      ensures r.Pass? ==> canRevert && account.data.money == Money(currency, Some(Outcome().value))
      ensures r.Fail? ==> r.error == CommandError(Some(Outcome().error)) && canRevert == old(canRevert)
      ensures r.Fail? ==> account.data.money == old(account.data.money) && unchanged(store)
      ensures r.Pass? ==> Rewritten(old(store.storage), store.storage, [account]) && store.idSequence == old(store.idSequence)
    {
      beforeExecute := initialState;
      var afterExecute := Apply(operator, amount, beforeExecute);
      if afterExecute.Failure? {
        return Fail(CommandError(Some(afterExecute.error)));
      }
      Receive(caller, Some(afterExecute.value));
      canRevert := true;
      r := Pass;
    }

    /** `rollback()`: writes the cached value back once; a command that cannot revert does nothing. */
    method Rollback(caller: Caller)
      requires Ready(caller)
      modifies this, account.data, store, account.lock
      ensures Ready(caller) && account.lock.state == old(account.lock.state)
      ensures old(store.issued) <= store.issued && store.storage.Keys == old(store.storage.Keys)
      ensures !canRevert && beforeExecute == old(beforeExecute)
      ensures old(canRevert) ==> account.data.money == Money(currency, old(beforeExecute))
      ensures !old(canRevert) ==> account.data.money == old(account.data.money) && unchanged(store)
      ensures old(canRevert) ==> Rewritten(old(store.storage), store.storage, [account]) && store.idSequence == old(store.idSequence)
    {
      if canRevert {
        Receive(caller, beforeExecute);
        canRevert := false;
      }
    }
  }

  /** The index of the first command at or after `from` whose operator fails, or the length when none does. */
  function FirstFailure(cmds: seq<IndependentCommand>, from: nat): (k: nat)
    requires from <= |cmds|
    ensures from <= k <= |cmds|
    ensures forall i :: from <= i < k ==> cmds[i].Outcome().Success?
    ensures k < |cmds| ==> cmds[k].Outcome().Failure?
    decreases |cmds| - from
  {
    if from == |cmds| then from
    else if cmds[from].Outcome().Failure? then from
    else FirstFailure(cmds, from + 1)
  }

  /** The money of `d` after the first `n` commands executed in order from `initial`; a failing command writes nothing. */
  function Executed(cmds: seq<IndependentCommand>, n: nat, d: AccountData, initial: Money): Money
    requires n <= |cmds|
  {
    if n == 0 then initial
    else
      var c := cmds[n - 1];
      if c.account.data == d && c.Outcome().Success? then Money(c.currency, Some(c.Outcome().value))
      else Executed(cmds, n - 1, d, initial)
  }

  /**
   * The money of `d` after the first `n` commands were rolled back in order from
   * `initial`; only a command flagged in `armed` writes, and it writes its cached value.
   */
  function RolledBack(cmds: seq<IndependentCommand>, armed: seq<bool>, n: nat, d: AccountData, initial: Money): Money
    requires n <= |cmds| && n <= |armed|
  {
    if n == 0 then initial
    else
      var c := cmds[n - 1];
      if armed[n - 1] && c.account.data == d then c.RevertValue()
      else RolledBack(cmds, armed, n - 1, d, initial)
  }

  /** A balance none of the first `n` commands targets is left as it was by execution. */
  lemma {:induction false} ExecutedUntouched(cmds: seq<IndependentCommand>, n: nat, d: AccountData, initial: Money)
    requires n <= |cmds|
    requires forall i :: 0 <= i < n ==> cmds[i].account.data != d
    ensures Executed(cmds, n, d, initial) == initial
  {
    if n != 0 {
      ExecutedUntouched(cmds, n - 1, d, initial);
    }
  }

  /** Only the flags of the rolled-back commands matter. */
  lemma {:induction false} RolledBackAgrees(cmds: seq<IndependentCommand>, armed: seq<bool>, armed': seq<bool>,
                                            n: nat, d: AccountData, initial: Money)
    requires n <= |cmds| && n <= |armed| && n <= |armed'|
    requires forall i :: 0 <= i < n ==> armed[i] == armed'[i]
    ensures RolledBack(cmds, armed, n, d, initial) == RolledBack(cmds, armed', n, d, initial)
  {
    if n != 0 {
      RolledBackAgrees(cmds, armed, armed', n - 1, d, initial);
    }
  }

  /**
   * Rolling back every executed command restores a balance whenever each command on
   * it cached that balance: whatever the order, and however many commands share it.
   */
  lemma {:induction false} RollbackRestores(cmds: seq<IndependentCommand>, armed: seq<bool>, n: nat,
                                            d: AccountData, initial: Money)
    requires n <= |cmds| && n <= |armed|
    requires forall i :: 0 <= i < n ==> armed[i]
    requires forall i :: 0 <= i < n && cmds[i].account.data == d ==> cmds[i].RevertValue() == initial
    ensures RolledBack(cmds, armed, n, d, Executed(cmds, n, d, initial)) == initial
  {
    if n != 0 && cmds[n - 1].account.data != d {
      RollbackRestores(cmds, armed, n - 1, d, initial);
    }
  }

  /** `n` flags, all set: every command armed. */
  function AllArmed(n: nat): (flags: seq<bool>)
    ensures |flags| == n && forall i :: 0 <= i < n ==> flags[i]
  {
    seq(n, _ => true)
  }

  /** The accounts of `cmds`, in order: the records their receivers push to the store. */
  function AccountsOf(cmds: seq<IndependentCommand>): (accounts: seq<InMemoryAccount>)
    ensures |accounts| == |cmds| && forall i :: 0 <= i < |cmds| ==> accounts[i] == cmds[i].account
  {
    seq(|cmds|, i requires 0 <= i < |cmds| => cmds[i].account)
  }

  /** One more command in the prefix adds its account at the end. */
  lemma AccountsOfLonger(cmds: seq<IndependentCommand>, n: nat)
    requires n < |cmds|
    ensures AccountsOf(cmds[..n + 1]) == AccountsOf(cmds[..n]) + [cmds[n].account]
  {
    assert AccountsOf(cmds[..n + 1])[n] == cmds[n].account;
  }

  /** The store after the first `n` commands wrote, then the `n`-th: the store after the first `n + 1` wrote. */
  lemma RewrittenByPrefix(s0: map<int, InMemoryAccount>, s1: map<int, InMemoryAccount>, s2: map<int, InMemoryAccount>,
                          cmds: seq<IndependentCommand>, n: nat)
    requires n < |cmds|
    requires Rewritten(s0, s1, AccountsOf(cmds[..n])) && Rewritten(s1, s2, [cmds[n].account])
    ensures Rewritten(s0, s2, AccountsOf(cmds[..n + 1]))
  {
    AccountsOfLonger(cmds, n);
    RewrittenThen(s0, s1, s2, AccountsOf(cmds[..n]), cmds[n].account);
  }

  /** The records written back when the first `n` commands are rolled back: those of the commands flagged in `armed`, in order. */
  function Reverting(cmds: seq<IndependentCommand>, armed: seq<bool>, n: nat): seq<InMemoryAccount>
    requires n <= |cmds| && n <= |armed|
  {
    if n == 0 then []
    else Reverting(cmds, armed, n - 1) + (if armed[n - 1] then [cmds[n - 1].account] else [])
  }

  /** Rolling back commands that all executed writes their records again, in the order they were executed. */
  lemma {:induction false} RevertingAll(cmds: seq<IndependentCommand>, armed: seq<bool>, n: nat)
    requires n <= |cmds| && n <= |armed|
    requires forall i :: 0 <= i < n ==> armed[i]
    ensures Reverting(cmds, armed, n) == AccountsOf(cmds[..n])
  {
    if n != 0 {
      RevertingAll(cmds, armed, n - 1);
      AccountsOfLonger(cmds, n - 1);
    }
  }

  /** The sub-commands, their accounts' data objects and their accounts' locks. */
  function Footprint(cmds: seq<IndependentCommand>): (fp: set<object>)
    ensures forall j :: 0 <= j < |cmds| ==> cmds[j] in fp && cmds[j].account.data in fp && cmds[j].account.lock in fp
  {
    (set j | 0 <= j < |cmds| :: cmds[j] as object)
    + (set j | 0 <= j < |cmds| :: cmds[j].account.data as object)
    + (set j | 0 <= j < |cmds| :: cmds[j].account.lock as object)
  }

  /** No command is listed twice. */
  predicate Distinct(cmds: seq<IndependentCommand>)
  {
    forall i, j :: 0 <= i < j < |cmds| ==> cmds[i] != cmds[j]
  }

  /** What one sub-command's run can change: its flag, its account's balance and its account's lock. */
  datatype CommandSnapshot = CommandSnapshot(canRevert: bool, money: Money, lockState: LockState)

  /**
   * `IndependentSequentialTransaction`: sub-commands run in constructor order;
   * `executedCommands` lists the ones that completed, `currentCommand` the one running.
   */
  class IndependentSequentialTransaction {
    const subCommands: seq<IndependentCommand>
    var executedCommands: seq<IndependentCommand>
    var currentCommand: Option<IndependentCommand>
    /** The account store every sub-command writes through. */
    ghost const store: InMemoryAccountGateway
    /** The sub-commands, their accounts' data objects and their accounts' locks. */
    ghost const Repr: set<object>

    /** The parts of the invariant that only involve constant fields: no run changes them. */
    ghost predicate Shape()
    {
      this !in Repr && Distinct(subCommands) &&
      forall j :: 0 <= j < |subCommands| ==>
        && subCommands[j] in Repr && subCommands[j].account.data in Repr && subCommands[j].account.lock in Repr
        && subCommands[j].store == store
    }

    /** The shared store is consistent, every account was issued by it, and each sub-command keeps its own invariant. */
    ghost predicate CommandsValid()
      reads store, subCommands
    {
      Shape() && store.Valid() &&
      forall j :: 0 <= j < |subCommands| ==>
        subCommands[j].account in store.issued && (subCommands[j].canRevert ==> subCommands[j].beforeExecute == subCommands[j].initialState)
    }

    /** The completed list is a prefix of the sub-commands, and a current command is the one right after it. */
    ghost predicate Bookkeeping()
      reads this
    {
      |executedCommands| <= |subCommands| && executedCommands == subCommands[..|executedCommands|] &&
      (currentCommand.Some? ==>
        |executedCommands| < |subCommands| && currentCommand.value == subCommands[|executedCommands|]) &&
      (currentCommand.None? ==> executedCommands == [])
    }

    ghost predicate Valid()
      reads this, store, subCommands, Repr
    {
      CommandsValid() && Bookkeeping()
    }

    /** Every sub-command's account can be written by `caller` without waiting. */
    ghost predicate LocksAvailable(caller: Caller)
      reads Footprint(subCommands)
    {
      forall j :: 0 <= j < |subCommands| ==> Available(subCommands[j].account.lock.state, caller)
    }

    /** Each sub-command's flag, balance and lock state. */
    ghost function Snapshot(): (s: seq<CommandSnapshot>)
      reads Footprint(subCommands)
      ensures |s| == |subCommands|
      ensures forall j :: 0 <= j < |subCommands| ==>
        s[j] == CommandSnapshot(subCommands[j].canRevert, subCommands[j].account.data.money, subCommands[j].account.lock.state)
    {
      seq(|subCommands|, j reads Footprint(subCommands) =>
        if 0 <= j < |subCommands| then
          CommandSnapshot(subCommands[j].canRevert, subCommands[j].account.data.money, subCommands[j].account.lock.state)
        else CommandSnapshot(false, Money(0, None), Free))
    }

    /** Which sub-commands can revert. */
    ghost function ArmedFlags(): (flags: seq<bool>)
      reads Footprint(subCommands)
      ensures |flags| == |subCommands|
      ensures forall j :: 0 <= j < |subCommands| ==> flags[j] == subCommands[j].canRevert
    {
      seq(|subCommands|, j reads Footprint(subCommands) => 0 <= j < |subCommands| && subCommands[j].canRevert)
    }

    /**
     * Sub-command `j` after the first `n` sub-commands executed, starting from `before`:
     * its lock is as it was, it is armed if it ran (or already was), an armed command
     * cached the supplier's value, and its balance is the last successful write.
     */
    ghost predicate Ran(j: int, n: int, before: seq<CommandSnapshot>)
      requires 0 <= j < |subCommands| == |before| && 0 <= n <= |subCommands|
      reads subCommands[j], subCommands[j].account.data, subCommands[j].account.lock
    {
      var c := subCommands[j];
      && c.account.lock.state == before[j].lockState
      && c.canRevert == (j < n || before[j].canRevert)
      && (c.canRevert ==> c.beforeExecute == c.initialState)
      && c.account.data.money == Executed(subCommands, n, c.account.data, before[j].money)
    }

    /**
     * Sub-command `j` after the first `n` sub-commands were rolled back, starting from
     * `before` with the flags `armed`.
     */
    ghost predicate Reverted(j: int, n: int, armed: seq<bool>, before: seq<CommandSnapshot>)
      requires 0 <= j < |subCommands| == |before| == |armed| && 0 <= n <= |subCommands|
      reads subCommands[j], subCommands[j].account.data, subCommands[j].account.lock
    {
      var c := subCommands[j];
      && c.account.lock.state == before[j].lockState
      && c.canRevert == (j >= n && armed[j])
      && (c.canRevert ==> c.beforeExecute == c.initialState)
      && (armed[j] ==> c.beforeExecute == c.initialState)
      && c.account.data.money == RolledBack(subCommands, armed, n, c.account.data, before[j].money)
    }

    /** How many sub-commands `rollback` reverts: the completed ones while a command is current, else all. */
    function RevertingCount(): nat
      reads this
    {
      if currentCommand.Some? then |executedCommands| else |subCommands|
    }

    constructor (subCommands: seq<IndependentCommand>, ghost store: InMemoryAccountGateway)
      requires Distinct(subCommands)
      requires forall j :: 0 <= j < |subCommands| ==>
        subCommands[j].store == store && subCommands[j].account in store.issued && subCommands[j].Valid()
      requires store.Valid()
      ensures Valid() && this.subCommands == subCommands && this.store == store
      ensures Repr == Footprint(subCommands)
      ensures executedCommands == [] && currentCommand == None
    {
      this.subCommands := subCommands;
      this.store := store;
      Repr := Footprint(subCommands);
      executedCommands := [];
      currentCommand := None;
    }

    /**
     * What holds throughout a run: the sub-commands are distinct, each writes through
     * the shared store to an account in `issued`, and each lock was available to
     * `caller` in `before`.
     */
    ghost predicate Prepared(caller: Caller, before: seq<CommandSnapshot>, issued: set<InMemoryAccount>)
    {
      && Shape() && |before| == |subCommands|
      && forall j :: 0 <= j < |subCommands| ==> subCommands[j].account in issued && Available(before[j].lockState, caller)
    }

    /** `Valid` and `LocksAvailable` hold, so a run can start from the current state. */
    lemma PreparedNow(caller: Caller)
      requires Valid() && LocksAvailable(caller)
      ensures Prepared(caller, Snapshot(), store.issued)
    {
    }

    /** One pass of the `rollback()` loop: the `n`-th sub-command's `rollback()`. */
    method RollbackStep(caller: Caller, n: int, ghost armed: seq<bool>, ghost before: seq<CommandSnapshot>,
                        ghost issued: set<InMemoryAccount>, ghost records: map<int, InMemoryAccount>) returns (next: int)
      requires 0 <= n < |subCommands| == |armed| && Prepared(caller, before, issued)
      requires store.Valid() && issued <= store.issued
      requires forall j :: 0 <= j < |subCommands| ==> Reverted(j, n, armed, before)
      requires Rewritten(records, store.storage, Reverting(subCommands, armed, n))
      modifies store, subCommands[n], subCommands[n].account.data, subCommands[n].account.lock
      ensures store.Valid() && old(store.issued) <= store.issued && store.idSequence == old(store.idSequence)
      ensures next == n + 1
      ensures forall j :: 0 <= j < |subCommands| ==> Reverted(j, next, armed, before)
      ensures Rewritten(records, store.storage, Reverting(subCommands, armed, next))
    {
      next := n + 1;
      var command := subCommands[n];
      assert Reverted(n, n, armed, before);
      command.Rollback(caller);
      if armed[n] {
        RewrittenThen(records, old(store.storage), store.storage, Reverting(subCommands, armed, n), command.account);
      } else {
        assert Reverting(subCommands, armed, next) == Reverting(subCommands, armed, n);
      }
      forall j | 0 <= j < |subCommands|
        ensures Reverted(j, next, armed, before)
      {
        assert old(Reverted(j, n, armed, before));
      }
    }

    /**
     * `rollback()`: while a command is current (the failure path) only the completed
     * ones are rolled back, otherwise every sub-command is; each in list order.
     */
    method Rollback(caller: Caller)
      requires Valid() && LocksAvailable(caller)
      modifies store, Repr
      ensures Valid() && LocksAvailable(caller)
      ensures old(store.issued) <= store.issued && store.idSequence == old(store.idSequence)
      ensures Rewritten(old(store.storage), store.storage, Reverting(subCommands, old(ArmedFlags()), RevertingCount()))
      ensures forall j :: 0 <= j < |subCommands| ==>
        && subCommands[j].account.lock.state == old(subCommands[j].account.lock.state)
        && subCommands[j].canRevert == (j >= RevertingCount() && old(subCommands[j].canRevert))
        && subCommands[j].account.data.money ==
           RolledBack(subCommands, old(ArmedFlags()), RevertingCount(), subCommands[j].account.data,
                      old(subCommands[j].account.data.money))
    {
      var reverting := if currentCommand.Some? then executedCommands else subCommands;
      assert reverting == subCommands[..RevertingCount()];
      ghost var armed := ArmedFlags();
      ghost var before := Snapshot();
      ghost var issued := store.issued;
      PreparedNow(caller);
      RollbackFirst(caller, |reverting|, armed, before, issued);
      RevertedSettled(caller, armed, before, issued, |reverting|);
    }

    /** The `for` loop of `rollback()` over the first `count` sub-commands. */
    method RollbackFirst(caller: Caller, count: int, ghost armed: seq<bool>, ghost before: seq<CommandSnapshot>,
                         ghost issued: set<InMemoryAccount>)
      requires 0 <= count <= |subCommands| == |armed| && Prepared(caller, before, issued)
      requires store.Valid() && issued <= store.issued
      requires forall j :: 0 <= j < |subCommands| ==> Reverted(j, 0, armed, before)
      modifies store, Repr
      ensures store.Valid() && issued <= store.issued && store.idSequence == old(store.idSequence)
      ensures forall j :: 0 <= j < |subCommands| ==> Reverted(j, count, armed, before)
      ensures Rewritten(old(store.storage), store.storage, Reverting(subCommands, armed, count))
    {
      var n := 0;
      while n < count
        invariant 0 <= n <= count
        invariant store.Valid() && issued <= store.issued && store.idSequence == old(store.idSequence)
        invariant forall j :: 0 <= j < |subCommands| ==> Reverted(j, n, armed, before)
        invariant Rewritten(old(store.storage), store.storage, Reverting(subCommands, armed, n))
      {
        n := RollbackStep(caller, n, armed, before, issued, old(store.storage));
      }
    }

    /** One pass of the `execute()` loop: the `i`-th sub-command's `execute()`. */
    method ExecuteStep(caller: Caller, i: int, ghost before: seq<CommandSnapshot>, ghost issued: set<InMemoryAccount>,
                       ghost records: map<int, InMemoryAccount>)
      returns (r: Outcome<Error>, next: int)
      requires 0 <= i < |subCommands| && Prepared(caller, before, issued)
      requires store.Valid() && issued <= store.issued
      requires forall j :: 0 <= j < |subCommands| ==> Ran(j, i, before)
      requires Rewritten(records, store.storage, AccountsOf(subCommands[..i]))
      modifies store, subCommands[i], subCommands[i].account.data, subCommands[i].account.lock
      ensures store.Valid() && old(store.issued) <= store.issued && store.idSequence == old(store.idSequence)
      ensures r.Pass? <==> subCommands[i].Outcome().Success?
      ensures next == if r.Pass? then i + 1 else i
      ensures forall j :: 0 <= j < |subCommands| ==> Ran(j, next, before)
      ensures Rewritten(records, store.storage, AccountsOf(subCommands[..next]))
    {
      var command := subCommands[i];
      assert Ran(i, i, before);
      r := command.Execute(caller);
      next := if r.Pass? then i + 1 else i;
      if r.Pass? {
        RewrittenByPrefix(records, old(store.storage), store.storage, subCommands, i);
      }
      forall j | 0 <= j < |subCommands|
        ensures Ran(j, next, before)
      {
        assert old(Ran(j, i, before));
      }
    }

    /** One pass of the `for` loop in `execute()`: the sub-command becomes current, runs, and is listed once it completes. */
    method RunStep(caller: Caller, i: int, ghost before: seq<CommandSnapshot>, ghost issued: set<InMemoryAccount>,
                   ghost records: map<int, InMemoryAccount>, ghost lastId: int) returns (r: Outcome<Error>, next: int)
      requires 0 <= i < |subCommands| && Prepared(caller, before, issued)
      requires store.Valid() && issued <= store.issued && store.idSequence == lastId
      requires forall j :: 0 <= j < |subCommands| ==> Ran(j, i, before)
      requires executedCommands == subCommands[..i]
      requires Rewritten(records, store.storage, AccountsOf(subCommands[..i]))
      modifies this, store, subCommands[i], subCommands[i].account.data, subCommands[i].account.lock
      ensures next == if r.Pass? then i + 1 else i
      ensures r.Pass? <==> subCommands[i].Outcome().Success?
      ensures currentCommand == Some(subCommands[i])
      ensures store.Valid() && issued <= store.issued && store.idSequence == lastId
      ensures forall j :: 0 <= j < |subCommands| ==> Ran(j, next, before)
      ensures executedCommands == subCommands[..next]
      ensures Rewritten(records, store.storage, AccountsOf(subCommands[..next]))
    {
      var command := subCommands[i];
      currentCommand := Some(command);
      r, next := ExecuteStep(caller, i, before, issued, records);
      if r.Pass? {
        executedCommands := executedCommands + [command];
      }
    }

    /**
     * The `try` block of `execute()`: runs the sub-commands in order and stops at the
     * first one that throws, which is left as `currentCommand`. When all complete, both
     * bookkeeping fields are cleared.
     */
    method RunInOrder(caller: Caller) returns (failed: bool)
      requires Valid() && currentCommand.None? && LocksAvailable(caller)
      modifies this, store, Repr
      ensures Valid() && LocksAvailable(caller)
      ensures old(store.issued) <= store.issued && store.idSequence == old(store.idSequence)
      ensures Rewritten(old(store.storage), store.storage, AccountsOf(subCommands[..FirstFailure(subCommands, 0)]))
      ensures var k := FirstFailure(subCommands, 0);
        && (failed <==> k < |subCommands|)
        && (failed ==> currentCommand.Some? && executedCommands == subCommands[..k])
        && (!failed ==> currentCommand.None? && executedCommands == [])
      ensures forall j :: 0 <= j < |subCommands| ==>
        && subCommands[j].account.lock.state == old(subCommands[j].account.lock.state)
        && subCommands[j].canRevert == (j < FirstFailure(subCommands, 0) || old(subCommands[j].canRevert))
        && subCommands[j].account.data.money ==
           Executed(subCommands, FirstFailure(subCommands, 0), subCommands[j].account.data, old(subCommands[j].account.data.money))
    {
      ghost var before := Snapshot();
      ghost var issued := store.issued;
      PreparedNow(caller);
      var i;
      failed, i := RunUntilFailure(caller, before, issued);
      RanSettled(caller, before, issued, i);
    }

    /**
     * The `for` loop of `execute()`: stops after the first sub-command that throws, which
     * stays current; when none throws, both bookkeeping fields are cleared.
     */
    method RunUntilFailure(caller: Caller, ghost before: seq<CommandSnapshot>, ghost issued: set<InMemoryAccount>)
      returns (failed: bool, i: int)
      requires Prepared(caller, before, issued) && store.Valid() && issued <= store.issued
      requires forall j :: 0 <= j < |subCommands| ==> Ran(j, 0, before)
      requires currentCommand.None? && executedCommands == []
      modifies this, store, Repr
      ensures Prepared(caller, before, issued) && store.Valid() && issued <= store.issued
      ensures store.idSequence == old(store.idSequence) && i == FirstFailure(subCommands, 0)
      ensures forall j :: 0 <= j < |subCommands| ==> Ran(j, i, before)
      ensures Rewritten(old(store.storage), store.storage, AccountsOf(subCommands[..i]))
      ensures failed <==> i < |subCommands|
      ensures failed ==> currentCommand == Some(subCommands[i]) && executedCommands == subCommands[..i]
      ensures !failed ==> currentCommand.None? && executedCommands == []
    {
      ghost var k := FirstFailure(subCommands, 0);
      ghost var records, lastId := store.storage, store.idSequence;
      failed := false;
      i := 0;
      while i < |subCommands|
        invariant i <= k && !failed
        invariant 0 <= i && store.Valid() && issued <= store.issued && store.idSequence == lastId
        invariant forall j :: 0 <= j < |subCommands| ==> Ran(j, i, before)
        invariant executedCommands == subCommands[..i]
        invariant Rewritten(records, store.storage, AccountsOf(subCommands[..i]))
      {
        var r, next := RunStep(caller, i, before, issued, records, lastId);
        if r.Fail? {
          assert i == k;
          failed := true;
          return;
        }
        i := next;
      }
      executedCommands := [];
      currentCommand := None;
    }

    /** After `n` steps of `execute()`: the invariant holds again and `Ran` unfolds for every sub-command. */
    lemma RanSettled(caller: Caller, before: seq<CommandSnapshot>, issued: set<InMemoryAccount>, n: int)
      requires Prepared(caller, before, issued) && store.Valid() && issued <= store.issued && 0 <= n <= |subCommands|
      requires forall j :: 0 <= j < |subCommands| ==> Ran(j, n, before)
      ensures CommandsValid() && LocksAvailable(caller)
      ensures forall j :: 0 <= j < |subCommands| ==>
        && subCommands[j].account.lock.state == before[j].lockState
        && subCommands[j].canRevert == (j < n || before[j].canRevert)
        && subCommands[j].account.data.money == Executed(subCommands, n, subCommands[j].account.data, before[j].money)
    {
      forall j | 0 <= j < |subCommands|
        ensures subCommands[j].account.lock.state == before[j].lockState
        ensures subCommands[j].canRevert == (j < n || before[j].canRevert)
        ensures subCommands[j].canRevert ==> subCommands[j].beforeExecute == subCommands[j].initialState
        ensures subCommands[j].account.data.money == Executed(subCommands, n, subCommands[j].account.data, before[j].money)
      {
        assert Ran(j, n, before);
      }
    }

    /** After `n` steps of `rollback()`: the invariant holds again and `Reverted` unfolds for every sub-command. */
    lemma RevertedSettled(caller: Caller, armed: seq<bool>, before: seq<CommandSnapshot>, issued: set<InMemoryAccount>, n: int)
      requires Prepared(caller, before, issued) && store.Valid() && issued <= store.issued
      requires |armed| == |subCommands| && 0 <= n <= |subCommands|
      requires forall j :: 0 <= j < |subCommands| ==> Reverted(j, n, armed, before)
      ensures CommandsValid() && LocksAvailable(caller)
      ensures forall j :: 0 <= j < |subCommands| ==>
        && subCommands[j].account.lock.state == before[j].lockState
        && subCommands[j].canRevert == (j >= n && armed[j])
        && subCommands[j].account.data.money == RolledBack(subCommands, armed, n, subCommands[j].account.data, before[j].money)
    {
      forall j | 0 <= j < |subCommands|
        ensures subCommands[j].account.lock.state == before[j].lockState
        ensures subCommands[j].canRevert == (j >= n && armed[j])
        ensures subCommands[j].canRevert ==> subCommands[j].beforeExecute == subCommands[j].initialState
        ensures subCommands[j].account.data.money == RolledBack(subCommands, armed, n, subCommands[j].account.data, before[j].money)
      {
        assert Reverted(j, n, armed, before);
      }
    }

    /**
     * `execute()`: runs the sub-commands in order; the first failure is caught, the
     * completed sub-commands are rolled back, and the call returns normally.
     */
    method Execute(caller: Caller)
      requires Valid() && currentCommand.None? && LocksAvailable(caller)
      modifies this, store, Repr
      ensures Valid() && LocksAvailable(caller)
      ensures old(store.issued) <= store.issued && store.storage.Keys == old(store.storage.Keys)
      ensures forall j :: 0 <= j < |subCommands| ==>
        subCommands[j].account.lock.state == old(subCommands[j].account.lock.state)
      ensures store.idSequence == old(store.idSequence)
      ensures Rewritten(old(store.storage), store.storage, AccountsOf(subCommands[..FirstFailure(subCommands, 0)]))
      ensures FirstFailure(subCommands, 0) == |subCommands| ==>
        && executedCommands == [] && currentCommand == None
        && forall j :: 0 <= j < |subCommands| ==>
             && subCommands[j].canRevert
             && subCommands[j].account.data.money ==
                Executed(subCommands, |subCommands|, subCommands[j].account.data, old(subCommands[j].account.data.money))
      ensures var k := FirstFailure(subCommands, 0);
        k < |subCommands| ==>
        && executedCommands == subCommands[..k] && currentCommand == Some(subCommands[k])
        && forall j :: 0 <= j < |subCommands| ==>
             && subCommands[j].canRevert == (k <= j && old(subCommands[j].canRevert))
             && subCommands[j].account.data.money ==
                RolledBack(subCommands, AllArmed(|subCommands|), k, subCommands[j].account.data,
                           Executed(subCommands, k, subCommands[j].account.data, old(subCommands[j].account.data.money)))
    {
      var failed := RunInOrder(caller);
      if failed {
        ghost var k := FirstFailure(subCommands, 0);
        ghost var armed := ArmedFlags();
        ghost var ran := store.storage;
        assert Replaced(old(store.storage), ran, AccountsOf(subCommands[..k]));
        Rollback(caller);
        RevertingAll(subCommands, armed, k);
        RewrittenAgain(old(store.storage), ran, store.storage, AccountsOf(subCommands[..k]));
        forall j | 0 <= j < |subCommands|
          ensures subCommands[j].account.data.money ==
            RolledBack(subCommands, AllArmed(|subCommands|), k, subCommands[j].account.data,
                       Executed(subCommands, k, subCommands[j].account.data, old(subCommands[j].account.data.money)))
        {
          RolledBackAgrees(subCommands, armed, AllArmed(|subCommands|), k, subCommands[j].account.data,
                           Executed(subCommands, k, subCommands[j].account.data, old(subCommands[j].account.data.money)));
        }
      }
    }
  }
}
