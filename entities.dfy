/**
 * The records the ticket form keeps in its state: departments, clients and
 * client users (all loose objects with an `id` and a `name`; session
 * departments also carry the `isFranchising` flag), and the form draft.
 */
module Entities {
  import opened Wrappers

  /** A department, client or client-user record. `isFranchising` abstracts the
      loose test `isFranchising == 1` and is false for records that lack the key. */
  datatype Entry = Entry(id: string, name: string, isFranchising: bool)

  /** The `form` object of the component's state. `other` holds any further keys
      the form object carries (such as a leftover `clientId`). */
  datatype Form = Form(
    title: string,
    content: string,
    email: string,
    name: string,
    language: Option<string>,
    departmentIndex: nat,
    clientIndex: nat,
    clientUserIndex: nat,
    other: map<string, string>)

  /** The form keys `getClients` deletes before it reloads the clients. */
  const ClientKeys: set<string> := {"staffClientId", "clientUserId", "clientId"}

  /** `list[index]`: the entry at a selection index, or `undefined` past the end. */
  function At(list: seq<Entry>, index: nat): (r: Option<Entry>)
    ensures r.Some? <==> index < |list|
    ensures r.Some? ==> r.value == list[index] && r.value in list
  {
    if index < |list| then Some(list[index]) else None
  }

  /** `_.filter(departments, item => item.isFranchising == 1)`. */
  function Franchising(departments: seq<Entry>): (r: seq<Entry>)
    ensures |r| <= |departments|
    ensures forall i :: 0 <= i < |r| ==> r[i].isFranchising
    ensures forall e :: e in r <==> e in departments && e.isFranchising
  {
    if departments == [] then []
    else
      var rest := Franchising(departments[1..]);
      if departments[0].isFranchising then [departments[0]] + rest else rest
  }

  /** The filter keeps the original order: it distributes over concatenation. */
  lemma {:induction false} FranchisingAppend(a: seq<Entry>, b: seq<Entry>)
    ensures Franchising(a + b) == Franchising(a) + Franchising(b)
  {
    if a == [] {
      assert a + b == b;
    } else {
      assert (a + b)[0] == a[0] && (a + b)[1..] == a[1..] + b;
      FranchisingAppend(a[1..], b);
    }
  }

  /** Filtering an already filtered list changes nothing. */
  lemma {:induction false} FranchisingIdempotent(departments: seq<Entry>)
    ensures Franchising(Franchising(departments)) == Franchising(departments)
  {
    if departments != [] {
      var rest := Franchising(departments[1..]);
      FranchisingIdempotent(departments[1..]);
      if departments[0].isFranchising {
        assert ([departments[0]] + rest)[1..] == rest;
      }
    }
  }

  /** A list whose every entry is a franchising department passes the filter unchanged. */
  lemma {:induction false} FranchisingKeepsAll(departments: seq<Entry>)
    requires forall i :: 0 <= i < |departments| ==> departments[i].isFranchising
    ensures Franchising(departments) == departments
  {
    if departments != [] {
      FranchisingKeepsAll(departments[1..]);
    }
  }
}
