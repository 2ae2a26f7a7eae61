/**
 * The client registry (`ClientService`): creation that hands back the
 * existing client when the e-mail address is already registered, update,
 * delete, existence and lookup by e-mail.
 *
 * The table is a sequence in store order, since lookups by e-mail take the
 * first match.
 */
module Clients {
  import opened Common
  import opened Domain

  datatype ClientError = ClientNotFound(id: int)

  /** `CreateClientDto`. */
  datatype CreateClientDto = CreateClientDto(
    name: string,
    email: string,
    phone: string,
    address: Option<string>,
    age: Option<int>)

  /** `UpdateClientDto`. */
  datatype UpdateClientDto = UpdateClientDto(
    id: int,
    name: string,
    email: string,
    phone: string,
    address: Option<string>,
    age: Option<int>)

  /** `GetByEmailAsync`: the first client whose e-mail equals `email` exactly (case-sensitive). */
  function FindByEmail(clients: seq<Client>, email: string): (r: Option<Client>)
    ensures r.None? <==> forall j :: 0 <= j < |clients| ==> clients[j].email != email
    ensures r.Some? ==> r.value.email == email && r.value in clients
    ensures forall j ::
      (0 <= j < |clients| && clients[j].email == email
       && forall k :: 0 <= k < j ==> clients[k].email != email) ==> r == Some(clients[j])
  {
    FirstOrNone(clients, (c: Client) => c.email == email)
  }

  /** Position of the client with the given id. */
  function IndexOfId(clients: seq<Client>, id: int): (r: Option<nat>)
    ensures r.Some? ==> r.value < |clients| && clients[r.value].id == id
    ensures r.None? <==> forall j :: 0 <= j < |clients| ==> clients[j].id != id
  {
    FirstIndex(clients, (c: Client) => c.id == id)
  }

  predicate UniqueIds(clients: seq<Client>)
  {
    forall i, j :: 0 <= i < j < |clients| ==> clients[i].id != clients[j].id
  }

  /** The record a new registration creates: the given fields, active, created now. */
  function NewClient(id: int, dto: CreateClientDto, now: int): (c: Client)
    ensures c.id == id && c.isActive && c.createdAt == now && c.updatedAt.None?
    ensures c.name == dto.name && c.email == dto.email && c.phone == dto.phone
    ensures c.address == dto.address && c.age == dto.age
  {
    Client(id, dto.name, dto.email, dto.phone, dto.address, dto.age, now, None, true)
  }

  /** `UpdateAsync` on the stored record: contact fields and age overwritten, id, creation and activity kept. */
  function ApplyClientUpdate(c: Client, dto: UpdateClientDto, now: int): (u: Client)
    ensures u.id == c.id && u.createdAt == c.createdAt && u.isActive == c.isActive
    ensures u.name == dto.name && u.email == dto.email && u.phone == dto.phone
    ensures u.address == dto.address && u.age == dto.age && u.updatedAt == Some(now)
  {
    c.(name := dto.name, email := dto.email, phone := dto.phone, address := dto.address,
       age := dto.age, updatedAt := Some(now))
  }

  /** A client appended under an e-mail nobody holds is the one found for that e-mail. */
  lemma FoundAfterAppend(clients: seq<Client>, c: Client)
    requires FindByEmail(clients, c.email).None?
    ensures FindByEmail(clients + [c], c.email) == Some(c)
  {
    var s := clients + [c];
    assert forall j :: 0 <= j < |clients| ==> s[j].email != c.email;
    assert s[|clients|] == c;
  }

  class ClientStore {
    var clients: seq<Client>
    var nextId: int

    ghost predicate Valid()
      reads this
    {
      UniqueIds(clients) && forall i :: 0 <= i < |clients| ==> clients[i].id < nextId
    }

    constructor ()
      ensures Valid() && clients == []
    {
      clients := [];
      nextId := 1;
    }

    /**
     * `CreateAsync`: an e-mail already registered gives back that client and
     * adds nothing; otherwise one active client with the given fields is
     * appended. Either way the client returned is the one a later lookup by
     * that e-mail finds, so creating again with the same e-mail returns it.
     */
    method Create(dto: CreateClientDto, now: int) returns (res: Client)
      requires Valid()
      modifies this
      ensures Valid()
      ensures FindByEmail(old(clients), dto.email).Some? ==>
        res == FindByEmail(old(clients), dto.email).value && clients == old(clients) && nextId == old(nextId)
      ensures FindByEmail(old(clients), dto.email).None? ==>
        res == NewClient(old(nextId), dto, now) && clients == old(clients) + [res]
      ensures FindByEmail(clients, dto.email) == Some(res)
    {
      var existing := FindByEmail(clients, dto.email);
      if existing.Some? {
        return existing.value;
      }
      var c := NewClient(nextId, dto, now);
      FoundAfterAppend(clients, c);
      clients := clients + [c];
      nextId := nextId + 1;
      res := c;
    }

    /** `UpdateAsync`: fails on an unknown id; otherwise overwrites the client, with no e-mail uniqueness check. */
    method Update(dto: UpdateClientDto, now: int) returns (res: Result<Client, ClientError>)
      requires Valid()
      modifies this
      ensures Valid() && nextId == old(nextId)
      ensures IndexOfId(old(clients), dto.id).None? ==>
        res == Failure(ClientNotFound(dto.id)) && clients == old(clients)
      ensures IndexOfId(old(clients), dto.id).Some? ==>
        var i := IndexOfId(old(clients), dto.id).value;
        res == Success(ApplyClientUpdate(old(clients)[i], dto, now)) && clients == old(clients)[i := res.value]
    {
      var k := IndexOfId(clients, dto.id);
      if k.None? {
        return Failure(ClientNotFound(dto.id));
      }
      var u := ApplyClientUpdate(clients[k.value], dto, now);
      clients := clients[k.value := u];
      res := Success(u);
    }

    /** `DeleteAsync`: false and nothing removed for an unknown id, else that client removed. */
    method Delete(id: int) returns (deleted: bool)
      requires Valid()
      modifies this
      ensures Valid() && nextId == old(nextId)
      ensures deleted <==> IndexOfId(old(clients), id).Some?
      ensures !deleted ==> clients == old(clients)
      ensures deleted ==>
        var i := IndexOfId(old(clients), id).value;
        clients == old(clients)[..i] + old(clients)[i + 1..]
      ensures forall i :: 0 <= i < |clients| ==> clients[i].id != id
    {
      var k := IndexOfId(clients, id);
      if k.None? {
        return false;
      }
      var i := k.value;
      ghost var before := clients;
      clients := clients[..i] + clients[i + 1..];
      forall a, b | 0 <= a < b < |clients| ensures clients[a].id != clients[b].id {
        var a', b' := if a < i then a else a + 1, if b < i then b else b + 1;
        assert clients[a] == before[a'] && clients[b] == before[b'];
      }
      forall j | 0 <= j < |clients| ensures clients[j].id != id && clients[j].id < nextId {
        var j' := if j < i then j else j + 1;
        assert clients[j] == before[j'];
      }
      deleted := true;
    }

    /** `ExistsAsync`: some stored client has the id. */
    predicate Exists(id: int)
      reads this
      ensures Exists(id) <==> exists j :: 0 <= j < |clients| && clients[j].id == id
    {
      IndexOfId(clients, id).Some?
    }
  }
}
