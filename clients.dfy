/**
 * Client data and the in-memory client store: `UniversalBankClientData`,
 * `InMemoryClientGateway` and its `InMemoryClient` records.
 */
module ClientStore {
  import opened Wrappers
  import opened Entities

  /** The identity of a `ClientDocument` object; that class does not override `equals`. */
  type DocumentRef = nat

  /**
   * `UniversalBankClientData`: every field is a nullable reference. The birth date is a
   * day number; `List.equals` compares documents element by element by identity.
   */
  datatype UniversalBankClientData = UniversalBankClientData(
    name: Option<string>,
    surname: Option<string>,
    birthDate: Option<int>,
    documents: Option<seq<DocumentRef>>)
  {
    /** `equals(Object)` against another client data reference (`None` is `null`). */
    predicate Equals(o: Option<UniversalBankClientData>)
    {
      o.Some? &&
      name == o.value.name && surname == o.value.surname &&
      birthDate == o.value.birthDate && documents == o.value.documents
    }

    /** `test(Client)`: the client's data equals this search data. */
    predicate Test(other: InMemoryClient?)
    {
      other != null && Equals(Some(other.data))
    }
  }

  /** `equals` never holds for `null` and is the field-wise equality otherwise. */
  lemma ClientDataEquality(d: UniversalBankClientData, o: Option<UniversalBankClientData>)
    ensures d.Equals(o) <==> o == Some(d)
    ensures !d.Equals(None)
    ensures d.Equals(Some(d))
  {
  }

  /** `test` of a client holds iff that client is there and carries equal data. */
  lemma TestMatchesData(d: UniversalBankClientData, c: InMemoryClient?)
    ensures d.Test(c) <==> c != null && c.data == d
    ensures !d.Test(null)
  {
  }

  /** `InMemoryClient`: an identity, the client data it was registered with and an active flag. */
  class InMemoryClient {
    const id: int
    const data: UniversalBankClientData
    var isActive: bool

    constructor (id: int, data: UniversalBankClientData)
      ensures this.id == id && this.data == data && isActive
    {
      this.id := id;
      this.data := data;
      isActive := true;
    }

    /** `equals(Object)`: the same object, the same id, or equal client data. */
    predicate Equals(o: InMemoryClient?)
      ensures Equals(o) <==> o != null && (o == this || o.id == id || o.data == data)
    {
      if o == null then false
      else if o == this then true
      else if id == o.id then true
      else data.Equals(Some(o.data))
    }
  }

  /** `equals` of two clients is symmetric. */
  lemma ClientEqualsSymmetric(a: InMemoryClient, b: InMemoryClient)
    ensures a.Equals(b) <==> b.Equals(a)
  {
  }

  class InMemoryClientGateway {
    /** `clientStorage` */
    var storage: map<int, InMemoryClient>
    /** `ID_SEQUENCE`: the last identity handed out. */
    var idSequence: int

    ghost predicate Valid()
      reads this
    {
      0 <= idSequence &&
      forall id :: id in storage ==> storage[id].id == id && 1 <= id <= idSequence
    }

    constructor ()
      ensures Valid() && storage == map[] && idSequence == 0
    {
      storage := map[];
      idSequence := 0;
    }

    /** `get(id)`: the stored client, only while it is active. */
    function Get(id: int): (r: Option<InMemoryClient>)
      reads this, storage.Values
      ensures r.Some? <==> id in storage && storage[id].isActive
      ensures r.Some? ==> r.value == storage[id]
    {
      if id in storage && storage[id].isActive then Some(storage[id]) else None
    }

    /** `getAll(search)`: the active stored clients whose data equal `search`. */
    function GetAll(search: UniversalBankClientData): (r: set<InMemoryClient>)
      reads this, storage.Values
      ensures forall c :: c in r ==> c in storage.Values && c.isActive && c.data == search
      ensures forall id :: id in storage && storage[id].isActive && storage[id].data == search ==> storage[id] in r
    {
      set id | id in storage && storage[id].isActive && search.Test(storage[id]) :: storage[id]
    }

    /** `create(data)`: `null` throws; otherwise the next identity names a new active client. */
    method Create(data: Option<UniversalBankClientData>) returns (r: Result<InMemoryClient, Error>)
      requires Valid()
      modifies this
      ensures Valid()
      ensures data.None? ==> r == Failure(NullPointer) && storage == old(storage) && idSequence == old(idSequence)
      ensures data.Some? ==> r.Success? && fresh(r.value)
      ensures data.Some? ==> idSequence == old(idSequence) + 1 && r.value.id == idSequence
      ensures data.Some? ==> r.value.data == data.value && r.value.isActive
      ensures data.Some? ==> storage == old(storage)[r.value.id := r.value] && r.value.id !in old(storage)
    {
      if data.None? {
        return Failure(NullPointer);
      }
      idSequence := idSequence + 1;
      var client := new InMemoryClient(idSequence, data.value);
      storage := storage[idSequence := client];
      r := Success(client);
    }

    /** `delete(id)`: an unknown id throws `ClientNotExist`; otherwise the record stays, inactive. */
    method Delete(id: int) returns (r: Outcome<Error>)
      requires Valid()
      modifies if id in storage then {storage[id]} else {}
      ensures Valid() && storage == old(storage) && idSequence == old(idSequence)
      ensures id !in storage ==> r == Fail(ClientNotExist)
      ensures id in storage ==> r == Pass && !storage[id].isActive && Get(id) == None
    {
      if id !in storage {
        return Fail(ClientNotExist);
      }
      storage[id].isActive := false;
      r := Pass;
    }
  }
}
