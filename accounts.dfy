/**
 * Account data and the in-memory account store: `AccountData`,
 * `InMemoryAccountGateway` and its `InMemoryAccount` records, each guarded by a
 * reentrant lock that survives every `update` of the record.
 */
module AccountStore {
  import opened Wrappers
  import opened Entities
  import opened Locks
  import opened ClientStore

  /**
   * `AccountData`: the owning client (only its id is read) is final, the money is
   * replaced through `setMoney`. One object is shared by the caller and the store.
   */
  class AccountData {
    const clientId: int
    var money: Money

    constructor (money: Money, clientId: int)
      ensures this.money == money && this.clientId == clientId
    {
      this.money := money;
      this.clientId := clientId;
    }

    /** `isSameData(other)`: same client id and equal money (currency and amount). */
    predicate IsSameData(other: AccountData?)
      reads this, other
      ensures IsSameData(other) ==> other != null
      ensures other != null && other.clientId != clientId ==> !IsSameData(other)
      ensures other != null && other.clientId == clientId ==>
        (IsSameData(other) <==> other.money.currency == money.currency && other.money.amount == money.amount)
    {
      if other == null then false
      else if clientId == other.clientId then money == other.money
      else false
    }
  }

  /** `InMemoryAccount`: a stored account record. `active` is the Java field `isActive`. */
  class InMemoryAccount {
    const id: int
    const data: AccountData
    const clientId: int
    const lock: ReentrantLock
    const clients: InMemoryClientGateway
    var active: bool

    constructor (id: int, data: AccountData, clientId: int, lock: ReentrantLock, clients: InMemoryClientGateway)
      ensures this.id == id && this.data == data && this.clientId == clientId
      ensures this.lock == lock && this.clients == clients && active
    {
      this.id := id;
      this.data := data;
      this.clientId := clientId;
      this.lock := lock;
      this.clients := clients;
      active := true;
    }

    /** `isActive()`: the record's own flag and an active owning client. */
    predicate IsActive()
      reads this, clients, clients.storage.Values
      ensures IsActive() <==> active && clientId in clients.storage && clients.storage[clientId].isActive
    {
      active && clients.Get(clientId).Some?
    }

    /** `test(client)`: the account belongs to that client; `null` matches nothing. */
    predicate Test(client: InMemoryClient?)
    {
      client != null && client.id == clientId
    }

    /** `lock()`: a non-blocking attempt that throws `LockedException` instead of waiting. */
    method Lock(caller: Caller) returns (r: Outcome<Error>)
      modifies lock
      ensures r.Pass? <==> Available(old(lock.state), caller)
      ensures r.Fail? ==> r.error == Locked && lock.state == old(lock.state)
      ensures r.Pass? ==> lock.state == Acquired(old(lock.state), caller)
    {
      var acquired := lock.TryLock(caller);
      r := if acquired then Pass else Fail(Locked);
    }

    /** `unlock()`: `released` is false where Java throws `IllegalMonitorStateException`. */
    method Unlock(caller: Caller) returns (released: bool)
      modifies lock
      ensures released == (old(lock.state).Held? && old(lock.state).owner == caller)
      ensures released ==> Some(lock.state) == Released(old(lock.state), caller)
      ensures !released ==> lock.state == old(lock.state)
    {
      released := lock.Unlock(caller);
    }
  }

  /** The index of the last record in `writes` stored under `id`, or -1 when none is. */
  function LastWriteOf(writes: seq<InMemoryAccount>, id: int): (w: int)
    ensures -1 <= w < |writes| && (w >= 0 ==> writes[w].id == id)
  {
    if writes == [] then -1
    else if writes[|writes| - 1].id == id then |writes| - 1
    else LastWriteOf(writes[..|writes| - 1], id)
  }

  /**
   * The ids and records of `after` are those of the store `before` once each record of
   * `writes` was pushed through `update(id, data)` in order: the same ids are stored, an
   * id no write names keeps its record, and a written id holds a record, under the same
   * lock, with the data of the last write to it.
   */
  ghost predicate Replaced(before: map<int, InMemoryAccount>, after: map<int, InMemoryAccount>,
                           writes: seq<InMemoryAccount>)
  {
    && after.Keys == before.Keys
    && forall id {:trigger LastWriteOf(writes, id)} :: id in before ==>
         var w := LastWriteOf(writes, id);
         if w < 0 then after[id] == before[id]
         else after[id].data == writes[w].data && after[id].lock == before[id].lock
  }

  /** `Replaced`, and every record a write put in place is active. */
  ghost predicate Rewritten(before: map<int, InMemoryAccount>, after: map<int, InMemoryAccount>,
                            writes: seq<InMemoryAccount>)
    reads after.Values
  {
    && Replaced(before, after, writes)
    && forall id {:trigger LastWriteOf(writes, id)} :: id in before && LastWriteOf(writes, id) >= 0 ==> after[id].active
  }

  /** Writing nothing leaves every stored record as it was. */
  lemma RewrittenNothing(before: map<int, InMemoryAccount>, after: map<int, InMemoryAccount>)
    requires Rewritten(before, after, [])
    ensures after == before
  {
    forall id | id in before
      ensures after[id] == before[id]
    {
      assert LastWriteOf([], id) == -1;
    }
  }

  /** Writing the same records a second time leaves the store as the second writes left it. */
  lemma {:induction false} RewrittenAgain(s0: map<int, InMemoryAccount>, s1: map<int, InMemoryAccount>,
                                          s2: map<int, InMemoryAccount>, writes: seq<InMemoryAccount>)
    requires Replaced(s0, s1, writes) && Rewritten(s1, s2, writes)
    ensures Rewritten(s0, s2, writes)
  {
    forall id | id in s0
      ensures var w := LastWriteOf(writes, id);
        if w < 0 then s2[id] == s0[id]
        else s2[id].data == writes[w].data && s2[id].lock == s0[id].lock && s2[id].active
    {
      assert id in s1;
      var w := LastWriteOf(writes, id);
      if w >= 0 {
        assert s2[id].lock == s1[id].lock && s1[id].lock == s0[id].lock;
      }
    }
  }

  /** Writing one more record after `writes` is the same as writing `writes + [a]`. */
  lemma {:induction false} RewrittenThen(s0: map<int, InMemoryAccount>, s1: map<int, InMemoryAccount>,
                                         s2: map<int, InMemoryAccount>, writes: seq<InMemoryAccount>, a: InMemoryAccount)
    requires Rewritten(s0, s1, writes) && Rewritten(s1, s2, [a])
    ensures Rewritten(s0, s2, writes + [a])
  {
    var all := writes + [a];
    assert all[..|all| - 1] == writes;
    forall id | id in s0
      ensures var w := LastWriteOf(all, id);
        if w < 0 then s2[id] == s0[id]
        else s2[id].data == all[w].data && s2[id].lock == s0[id].lock && s2[id].active
    {
      var w0 := LastWriteOf(writes, id);
      assert LastWriteOf([a], id) == (if a.id == id then 0 else -1);
      assert LastWriteOf(all, id) == if a.id == id then |writes| else w0;
      assert id in s1;
      if a.id == id {
        assert s2[id].lock == s1[id].lock;
        assert s1[id].lock == s0[id].lock by {
          if w0 < 0 {
            assert s1[id] == s0[id];
          }
        }
      }
    }
  }

  /** One `update` of a stored account: its id now holds an active record with its data, every other id is untouched. */
  lemma RewrittenOne(before: map<int, InMemoryAccount>, after: map<int, InMemoryAccount>, a: InMemoryAccount)
    requires Rewritten(before, after, [a]) && a.id in before
    ensures after.Keys == before.Keys
    ensures after[a.id].data == a.data && after[a.id].lock == before[a.id].lock && after[a.id].active
    ensures forall id :: id in before && id != a.id ==> after[id] == before[id]
  {
    assert LastWriteOf([a], a.id) == 0;
    forall id | id in before && id != a.id
      ensures after[id] == before[id]
    {
      assert LastWriteOf([a], id) == -1;
    }
  }

  /**
   * `update` of `a`, then of `b`: `b`'s id holds an active record with `b`'s data, `a`'s
   * id (when it is another one) an active record with `a`'s data; every other id is untouched.
   */
  lemma RewrittenTwo(before: map<int, InMemoryAccount>, after: map<int, InMemoryAccount>, a: InMemoryAccount,
                     b: InMemoryAccount)
    requires Rewritten(before, after, [a, b]) && a.id in before && b.id in before
    ensures after.Keys == before.Keys
    ensures after[b.id].data == b.data && after[b.id].active
    ensures a.id != b.id ==> after[a.id].data == a.data && after[a.id].active
    ensures forall id :: id in before && id != a.id && id != b.id ==> after[id] == before[id]
  {
    assert [a, b][..1] == [a];
    assert LastWriteOf([a, b], b.id) == 1;
    if a.id != b.id {
      assert LastWriteOf([a, b], a.id) == 0;
    }
    forall id | id in before && id != a.id && id != b.id
      ensures after[id] == before[id]
    {
      assert LastWriteOf([a, b], id) == -1;
    }
  }

  class InMemoryAccountGateway {
    /** `clientStorage`: the client store that decides whether an owner is active. */
    const clients: InMemoryClientGateway
    /** `accountStorage` */
    var storage: map<int, InMemoryAccount>
    /** `ID_SEQUENCE`: the last identity handed out. */
    var idSequence: int
    /** Every record object this store has ever created, by `create` or by `update`. */
    ghost var issued: set<InMemoryAccount>
    /** The id each lock was created for. */
    ghost var lockIds: map<ReentrantLock, int>

    /**
     * Records are stored under their own id; ids come from the counter; every record
     * ever handed out shares its lock with the record now stored under its id; each
     * stored lock was created for its id, so two ids never share a lock.
     */
    ghost predicate Valid()
      reads this
    {
      0 <= idSequence &&
      (forall id :: id in storage ==>
        && storage[id].id == id && 1 <= id <= idSequence && storage[id] in issued && storage[id].clients == clients
        && storage[id].lock in lockIds && lockIds[storage[id].lock] == id) &&
      (forall a :: a in issued ==> a.id in storage && a.lock == storage[a.id].lock)
    }

    constructor (clients: InMemoryClientGateway)
      ensures Valid() && this.clients == clients && storage == map[] && idSequence == 0 && issued == {}
    {
      this.clients := clients;
      storage := map[];
      idSequence := 0;
      issued := {};
      lockIds := map[];
    }

    /** Two records this store handed out share a lock exactly when they have the same id. */
    lemma SameLockIffSameId(a: InMemoryAccount, b: InMemoryAccount)
      requires Valid() && a in issued && b in issued
      ensures a.lock == b.lock <==> a.id == b.id
    {
      assert lockIds[a.lock] == a.id && lockIds[b.lock] == b.id;
    }

    /** `get(id)` */
    function Get(id: int): (r: Option<InMemoryAccount>)
      reads this
      ensures r.Some? <==> id in storage
      ensures r.Some? ==> r.value == storage[id]
    {
      if id in storage then Some(storage[id]) else None
    }

    /** `getAll(client)`: every stored record, active or not, whose owner id is the client's. */
    function GetAll(client: InMemoryClient?): (r: set<InMemoryAccount>)
      reads this
      ensures client == null ==> r == {}
      ensures forall a :: a in r ==> a in storage.Values && client != null && a.clientId == client.id
      ensures forall id :: id in storage && client != null && storage[id].clientId == client.id ==> storage[id] in r
    {
      set id | id in storage && storage[id].Test(client) :: storage[id]
    }

    /**
     * `create(data)`: `null` throws; otherwise the next identity names a new active
     * record holding the caller's data object and a fresh, free lock.
     */
    method Create(data: AccountData?) returns (r: Result<InMemoryAccount, Error>)
      requires Valid()
      modifies this
      ensures Valid()
      ensures data == null ==> r == Failure(NullPointer) && unchanged(this)
      ensures data != null ==> r.Success? && fresh(r.value) && fresh(r.value.lock) && r.value.lock.state == Free
      ensures data != null ==> idSequence == old(idSequence) + 1 && r.value.id == idSequence && r.value.id !in old(storage)
      ensures data != null ==> r.value.data == data && r.value.clientId == data.clientId && r.value.active
      ensures data != null ==> storage == old(storage)[r.value.id := r.value] && issued == old(issued) + {r.value}
    {
      if data == null {
        return Failure(NullPointer);
      }
      idSequence := idSequence + 1;
      var lock := new ReentrantLock();
      var account := new InMemoryAccount(idSequence, data, data.clientId, lock, clients);
      storage := storage[idSequence := account];
      issued := issued + {account};
      lockIds := lockIds[lock := idSequence];
      r := Success(account);
    }

    /**
     * `update(id, data)`: replaces the stored record by a new, active record with the
     * same id and the same lock object. The lock is taken with the blocking, reentrant
     * `lock()` (so only a lock that is free or already the caller's is modelled) and
     * released again.
     */
    method Update(caller: Caller, id: Option<int>, data: AccountData?) returns (r: Outcome<Error>)
      requires Valid()
      requires id.Some? && id.value in storage ==> Available(storage[id.value].lock.state, caller)
      modifies this, if id.Some? && id.value in storage then {storage[id.value].lock} else {}
      ensures Valid() && idSequence == old(idSequence) && old(issued) <= issued
      ensures id.None? ==> r == Fail(AccountNotFound) && unchanged(this)
      ensures id.Some? && data == null ==> r == Fail(AccountError(None)) && unchanged(this)
      ensures id.Some? && data != null && id.value !in old(storage) ==> r == Fail(AccountNotFound) && unchanged(this)
      ensures id.Some? && data != null && id.value in old(storage) ==>
        && r == Pass
        && storage.Keys == old(storage.Keys)
        && fresh(storage[id.value])
        && storage == old(storage)[id.value := storage[id.value]]
        && storage[id.value].data == data && storage[id.value].clientId == data.clientId
        && storage[id.value].lock == old(storage[id.value].lock)
        && storage[id.value].active
        && issued == old(issued) + {storage[id.value]}
      ensures id.Some? && id.value in old(storage) ==>
        id.value in storage && storage[id.value].lock == old(storage[id.value].lock) &&
        storage[id.value].lock.state == old(storage[id.value].lock.state)
    {
      if id.None? {
        return Fail(AccountNotFound);
      }
      if data == null {
        return Fail(AccountError(None));
      }
      if id.value !in storage {
        return Fail(AccountNotFound);
      }
      var account := storage[id.value];
      var lock := account.lock;
      lock.Lock(caller);
      var replacement := new InMemoryAccount(id.value, data, data.clientId, lock, clients);
      storage := storage[id.value := replacement];
      issued := issued + {replacement};
      var released := lock.Unlock(caller);
      r := Pass;
    }

    /**
     * `delete(id)`: an unknown id throws `AccountNotFound`; a lock another caller holds
     * throws `LockedException`; otherwise only the stored record's flag is cleared.
     */
    method Delete(caller: Caller, id: int) returns (r: Outcome<Error>)
      requires Valid()
      modifies if id in storage then {storage[id], storage[id].lock} else {}
      ensures Valid() && storage == old(storage) && idSequence == old(idSequence) && issued == old(issued)
      ensures id !in storage ==> r == Fail(AccountNotFound)
      ensures id in storage && !Available(old(storage[id].lock.state), caller) ==>
        r == Fail(Locked) && storage[id].active == old(storage[id].active)
      ensures id in storage && Available(old(storage[id].lock.state), caller) ==>
        r == Pass && !storage[id].active
      ensures id in storage ==> storage[id].lock.state == old(storage[id].lock.state)
    {
      if id !in storage {
        return Fail(AccountNotFound);
      }
      var account := storage[id];
      r := account.Lock(caller);
      if r.Fail? {
        return;
      }
      account.active := false;
      var released := account.Unlock(caller);
    }
  }
}
