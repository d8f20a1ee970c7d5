/**
 * The two Mongoose collections (temporary users and persistent users) as
 * sequences of documents, with the two queries the source runs on them:
 * `findOne({field: value})` and `remove({field: value})`.
 */
module Store {
  import opened Wrappers

  /** A stored document: its fields and their values. */
  type Record = map<string, string>

  const EmailField: string := "email"

  /** `rec[field]`, `None` standing for `undefined`. */
  function Lookup(rec: Record, field: string): Option<string> {
    if field in rec then Some(rec[field]) else None
  }

  /**
   * Whether `rec` satisfies the query `{field: value}`. A query value of
   * `undefined` is assumed to be sent as null, which matches the documents
   * that lack the field; some driver versions drop the condition instead.
   */
  predicate Matches(rec: Record, field: string, value: Option<string>) {
    Lookup(rec, field) == value
  }

  /** `findOne({field: value})`: the position of the first matching document, if any. */
  function FindOne(store: seq<Record>, field: string, value: Option<string>): (r: Option<nat>)
    ensures r.Some? ==> r.value < |store| && Matches(store[r.value], field, value)
    ensures r.Some? ==> forall j :: 0 <= j < r.value ==> !Matches(store[j], field, value)
    ensures r.None? ==> forall j :: 0 <= j < |store| ==> !Matches(store[j], field, value)
    decreases |store|
  {
    if store == [] then None
    else if Matches(store[0], field, value) then Some(0)
    else
      match FindOne(store[1..], field, value)
      case None => None
      case Some(i) => Some(i + 1)
  }

  /** `remove({field: value})`: every matching document goes, the others stay in order. */
  function RemoveAll(store: seq<Record>, field: string, value: Option<string>): (r: seq<Record>)
    ensures forall x :: x in r <==> x in store && !Matches(x, field, value)
    decreases |store|
  {
    if store == [] then []
    else if Matches(store[0], field, value) then RemoveAll(store[1..], field, value)
    else [store[0]] + RemoveAll(store[1..], field, value)
  }

  /** `RemoveAll` takes out every copy of a matching document and no copy of any other. */
  lemma {:induction false} RemoveAllCounts(store: seq<Record>, field: string, value: Option<string>, x: Record)
    ensures multiset(RemoveAll(store, field, value))[x] == if Matches(x, field, value) then 0 else multiset(store)[x]
    decreases |store|
  {
    if store != [] {
      RemoveAllCounts(store[1..], field, value, x);
      assert store == [store[0]] + store[1..];
    }
  }

  /** Looking up in a collection with one more document at the end. */
  lemma {:induction false} FindOneAppend(store: seq<Record>, x: Record, field: string, value: Option<string>)
    ensures FindOne(store + [x], field, value)
         == if FindOne(store, field, value).Some? then FindOne(store, field, value)
            else if Matches(x, field, value) then Some(|store|)
            else None
    decreases |store|
  {
    if store == [] {
      assert store + [x] == [x];
      assert [x][1..] == [];
    } else {
      assert (store + [x])[0] == store[0];
      assert (store + [x])[1..] == store[1..] + [x];
      FindOneAppend(store[1..], x, field, value);
    }
  }

  /** After removing, the query finds nothing. */
  lemma RemoveAllRemoves(store: seq<Record>, field: string, value: Option<string>)
    ensures FindOne(RemoveAll(store, field, value), field, value).None?
  {
  }

  /** Removing with a query that nothing matches leaves the collection as it is. */
  lemma {:induction false} RemoveAllNoMatch(store: seq<Record>, field: string, value: Option<string>)
    requires FindOne(store, field, value).None?
    ensures RemoveAll(store, field, value) == store
    decreases |store|
  {
    if store != [] {
      RemoveAllNoMatch(store[1..], field, value);
      assert store == [store[0]] + store[1..];
    }
  }

  /** Removing from a collection with one more document at the end. */
  lemma {:induction false} RemoveAllAppend(store: seq<Record>, x: Record, field: string, value: Option<string>)
    ensures RemoveAll(store + [x], field, value)
         == RemoveAll(store, field, value) + (if Matches(x, field, value) then [] else [x])
    decreases |store|
  {
    if store == [] {
      assert store + [x] == [x];
    } else {
      assert (store + [x])[1..] == store[1..] + [x];
      RemoveAllAppend(store[1..], x, field, value);
    }
  }

  /** The intended invariant of the temporary collection: no two pending users share an email. */
  predicate UniqueEmails(store: seq<Record>) {
    forall i, j :: 0 <= i < j < |store| ==> Lookup(store[i], EmailField) != Lookup(store[j], EmailField)
  }

  /** Appending a document whose email no document has keeps the emails unique. */
  lemma AppendKeepsUnique(store: seq<Record>, x: Record)
    requires UniqueEmails(store)
    requires FindOne(store, EmailField, Lookup(x, EmailField)).None?
    ensures UniqueEmails(store + [x])
  {
  }

  /** Removing documents keeps the emails unique. */
  lemma {:induction false} RemoveAllKeepsUnique(store: seq<Record>, field: string, value: Option<string>)
    requires UniqueEmails(store)
    ensures UniqueEmails(RemoveAll(store, field, value))
    decreases |store|
  {
    if store != [] {
      var tail := store[1..];
      assert UniqueEmails(tail) by {
        forall i, j | 0 <= i < j < |tail|
          ensures Lookup(tail[i], EmailField) != Lookup(tail[j], EmailField)
        {
          assert tail[i] == store[i + 1] && tail[j] == store[j + 1];
        }
      }
      RemoveAllKeepsUnique(tail, field, value);
      if !Matches(store[0], field, value) {
        var rest := RemoveAll(tail, field, value);
        var r := [store[0]] + rest;
        forall i, j | 0 <= i < j < |r|
          ensures Lookup(r[i], EmailField) != Lookup(r[j], EmailField)
        {
          if i == 0 {
            assert r[j] in tail;
            var k :| 0 <= k < |tail| && tail[k] == r[j];
            assert store[k + 1] == r[j];
          } else {
            assert r[i] == rest[i - 1] && r[j] == rest[j - 1];
          }
        }
      }
    }
  }
}
