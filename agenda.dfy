/**
  The in-memory contact directory of the agenda API: the shape of a
  creation request, the stored contact record, the process-wide store and
  the handlers that create, list, look up and count contacts.
 */
module Agenda {
  import opened Wrappers

  /** An instant read from the server clock when a contact is created. */
  type DateTime = int

  /** The body of a creation request; `email` and `endereco` default to absent. */
  datatype ContactCreate = ContactCreate(
    nome: string,
    telefone: string,
    email: Option<string> := None,
    endereco: Option<string> := None)

  /** A stored contact: the request fields plus a generated id and timestamp. */
  datatype Contact = Contact(
    id: string,
    nome: string,
    telefone: string,
    email: Option<string>,
    endereco: Option<string>,
    createdAt: DateTime)

  /** An HTTP error response: status code and detail message. */
  datatype HttpError = HttpError(statusCode: nat, detail: string)

  /** The one error the lookup handler raises. */
  const NotFound: HttpError := HttpError(404, "Contato não encontrado")

  /** The body of the health endpoint. */
  datatype HealthReport = HealthReport(status: string, service: string, totalContatos: nat)

  // ---------------------------------------------------------------------
  // Record construction

  /** The request fields a contact record carries. */
  function InputOf(c: Contact): ContactCreate
  {
    ContactCreate(c.nome, c.telefone, c.email, c.endereco)
  }

  /**
    The record built from a request, a generated id and the current time.
    Together with `InputOf` it fixes every field, so each record is
    `MakeContact` of its own request fields, id and timestamp.
   */
  function MakeContact(input: ContactCreate, id: string, now: DateTime): (c: Contact)
    ensures InputOf(c) == input
    ensures c.id == id && c.createdAt == now
  {
    Contact(id, input.nome, input.telefone, input.email, input.endereco, now)
  }

  // ---------------------------------------------------------------------
  // Identifiers and lookup, as specifications on the store's contents

  /** The set of ids in use in a store. */
  function Ids(s: seq<Contact>): set<string>
  {
    set i | 0 <= i < |s| :: s[i].id
  }

  /** No two records of the store share an id. */
  predicate IdsDistinct(s: seq<Contact>)
  {
    forall i, j :: 0 <= i < j < |s| ==> s[i].id != s[j].id
  }

  /** The ids of a non-empty store are its first id and the ids of the rest. */
  lemma IdsOfTail(s: seq<Contact>)
    requires s != []
    ensures Ids(s) == {s[0].id} + Ids(s[1..])
  {
  }

  /** Position `i` holds the first record of `s` whose id is `id`. */
  predicate FirstMatch(s: seq<Contact>, id: string, i: int)
  {
    0 <= i < |s| && s[i].id == id && forall j :: 0 <= j < i ==> s[j].id != id
  }

  /** Reference lookup: the first record in store order with the given id. */
  function Lookup(s: seq<Contact>, id: string): Result<Contact, HttpError>
  {
    if s == [] then Err(NotFound)
    else if s[0].id == id then Ok(s[0])
    else Lookup(s[1..], id)
  }

  /** The record at the first matching position is the one lookup returns. */
  lemma {:induction false} LookupFirstMatch(s: seq<Contact>, id: string, i: int)
    requires FirstMatch(s, id, i)
    ensures Lookup(s, id) == Ok(s[i])
  {
    if i > 0 {
      assert FirstMatch(s[1..], id, i - 1) by {
        forall j | 0 <= j < i - 1 ensures s[1..][j].id != id {
          assert s[1..][j] == s[j + 1];
        }
      }
      LookupFirstMatch(s[1..], id, i - 1);
    }
  }

  /** An id that no record carries is not found, with status 404. */
  lemma {:induction false} LookupMissing(s: seq<Contact>, id: string)
    requires id !in Ids(s)
    ensures Lookup(s, id) == Err(NotFound)
  {
    if s != [] {
      IdsOfTail(s);
      LookupMissing(s[1..], id);
    }
  }

  /** Lookup succeeds exactly on the ids in use, with the first match; otherwise it is a 404. */
  lemma {:induction false} LookupCorrect(s: seq<Contact>, id: string)
    ensures match Lookup(s, id)
      case Ok(c) => c.id == id && exists i :: FirstMatch(s, id, i) && c == s[i]
      case Err(e) => e == NotFound && id !in Ids(s)
  {
    if id in Ids(s) {
      var k :| 0 <= k < |s| && s[k].id == id;
      FirstIndexOfExists(s, id, k);
      var i :| 0 <= i <= k && FirstMatch(s, id, i);
      LookupFirstMatch(s, id, i);
    } else {
      LookupMissing(s, id);
    }
  }

  /** Some first match exists at or before any position that carries the id. */
  lemma {:induction false} FirstIndexOfExists(s: seq<Contact>, id: string, k: int)
    requires 0 <= k < |s| && s[k].id == id
    ensures exists i :: 0 <= i <= k && FirstMatch(s, id, i)
  {
    if forall j :: 0 <= j < k ==> s[j].id != id {
      assert FirstMatch(s, id, k);
    } else {
      var j :| 0 <= j < k && s[j].id == id;
      FirstIndexOfExists(s, id, j);
    }
  }

  /** In a store with distinct ids, every record is found by its own id. */
  lemma {:induction false} LookupOwnId(s: seq<Contact>, i: int)
    requires IdsDistinct(s) && 0 <= i < |s|
    ensures Lookup(s, s[i].id) == Ok(s[i])
  {
    LookupFirstMatch(s, s[i].id, i);
  }

  /** Appending a record with a fresh id keeps the ids distinct and adds exactly that id. */
  lemma AppendFresh(s: seq<Contact>, c: Contact)
    requires IdsDistinct(s) && c.id !in Ids(s)
    ensures IdsDistinct(s + [c])
    ensures Ids(s + [c]) == Ids(s) + {c.id}
  {
    var t := s + [c];
    forall i, j | 0 <= i < j < |t| ensures t[i].id != t[j].id {
      if j == |s| {
        assert t[i].id in Ids(s);
      }
    }
    assert Ids(t) == Ids(s) + {c.id} by {
      forall x | x in Ids(t) ensures x in Ids(s) + {c.id} {
        var k :| 0 <= k < |t| && t[k].id == x;
        if k < |s| { assert s[k].id == x; }
      }
      forall x | x in Ids(s) ensures x in Ids(t) {
        var k :| 0 <= k < |s| && s[k].id == x;
        assert t[k].id == x;
      }
      assert t[|s|].id == c.id;
    }
  }

  /**
    Appending a record with a fresh id makes that id resolve to the new record
    and leaves the lookup of every other id as it was.
   */
  lemma {:induction false} LookupAfterAppend(s: seq<Contact>, c: Contact, id: string)
    requires c.id !in Ids(s)
    ensures Lookup(s + [c], id) == if id == c.id then Ok(c) else Lookup(s, id)
  {
    if s == [] {
      assert s + [c] == [c];
      assert [c][1..] == [];
    } else {
      assert (s + [c])[1..] == s[1..] + [c];
      IdsOfTail(s);
      LookupAfterAppend(s[1..], c, id);
    }
  }

  // ---------------------------------------------------------------------
  // The store and its handlers

  /** The process-wide, append-only list of contacts. */
  class ContactDirectory {
    /** The stored contacts, in creation order. */
    var contacts: seq<Contact>

    /** The directory invariant: every id is used by at most one contact. */
    ghost predicate Valid()
      reads this
    {
      IdsDistinct(contacts)
    }

    /** The store starts empty. */
    constructor ()
      ensures Valid() && contacts == []
    {
      contacts := [];
    }

    /** Reports the service as healthy together with the number of stored contacts. */
    method HealthCheck() returns (h: HealthReport)
      ensures h.status == "healthy" && h.service == "agenda-api"
      ensures h.totalContatos == |contacts|
    {
      var n := Count();
      h := HealthReport("healthy", "agenda-api", n);
    }

    /** The number of stored contacts. */
    method Count() returns (n: nat)
      ensures n == |contacts|
    {
      n := |contacts|;
    }

    /**
      Builds a contact from the request, the generated id and the current time,
      appends it at the end of the store and returns it.
     */
    method Create(input: ContactCreate, freshId: string, now: DateTime) returns (c: Contact)
      requires Valid()
      requires freshId !in Ids(contacts)
      modifies this
      ensures Valid()
      ensures InputOf(c) == input && c.id == freshId && c.createdAt == now
      ensures contacts == old(contacts) + [c]
      ensures |contacts| == |old(contacts)| + 1
      ensures Ids(contacts) == old(Ids(contacts)) + {freshId}
      ensures Lookup(contacts, freshId) == Ok(c)
      ensures forall id :: id != freshId ==> Lookup(contacts, id) == Lookup(old(contacts), id)
    {
      c := MakeContact(input, freshId, now);
      AppendFresh(contacts, c);
      forall id ensures Lookup(contacts + [c], id) == if id == c.id then Ok(c) else Lookup(contacts, id) {
        LookupAfterAppend(contacts, c, id);
      }
      contacts := contacts + [c];
    }

    /** Returns every stored contact, in creation order. */
    method List() returns (r: seq<Contact>)
      ensures r == contacts
    {
      r := contacts;
    }

    /**
      Scans the store in order and returns the first contact whose id is `id`;
      when none matches, fails with 404 "Contato não encontrado".
     */
    method Find(id: string) returns (r: Result<Contact, HttpError>)
      ensures r == Lookup(contacts, id)
      ensures match r
        case Ok(c) => exists i :: FirstMatch(contacts, id, i) && c == contacts[i]
        case Err(e) => e == NotFound && id !in Ids(contacts)
    {
      var i := 0;
      while i < |contacts|
        invariant 0 <= i <= |contacts|
        invariant forall j :: 0 <= j < i ==> contacts[j].id != id
      {
        if contacts[i].id == id {
          assert FirstMatch(contacts, id, i);
          LookupFirstMatch(contacts, id, i);
          return Ok(contacts[i]);
        }
        i := i + 1;
      }
      assert id !in Ids(contacts);
      LookupMissing(contacts, id);
      return Err(NotFound);
    }
  }

  /**
    Creating a contact and then looking up its id yields exactly the record
    the create returned.
   */
  method CreateThenFind(d: ContactDirectory, input: ContactCreate, freshId: string, now: DateTime)
    returns (created: Contact, found: Result<Contact, HttpError>)
    requires d.Valid() && freshId !in Ids(d.contacts)
    modifies d
    ensures d.Valid() && d.contacts == old(d.contacts) + [created]
    ensures created.id == freshId && InputOf(created) == input && created.createdAt == now
    ensures found == Lookup(d.contacts, freshId)
    ensures found == Ok(created)
  {
    created := d.Create(input, freshId, now);
    found := d.Find(freshId);
  }

  /** The request/response walk-through for a contact with only a name and a phone. */
  method ExampleScenario()
  {
    var d := new ContactDirectory();
    var id := "5f0c6d2e-8a1b-4c3d-9e7f-0a1b2c3d4e5f";
    var c := d.Create(ContactCreate("Ana", "123"), id, 0);
    assert c.nome == "Ana" && c.telefone == "123";
    assert c.email == None && c.endereco == None;
    var all := d.List();
    assert all == [c];
    var found := d.Find(id);
    assert found == Ok(c);
    var missing := d.Find("does-not-exist");
    assert "does-not-exist" !in Ids([c]);
    assert missing == Err(NotFound);
    var health := d.HealthCheck();
    assert health.totalContatos == 1;
  }
}
