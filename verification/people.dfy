/**
 * The in-memory person registry of the `/people` service: one process-wide
 * ordered list of records, read and changed by four endpoints.
 */
module People {
  import opened Wrappers

  datatype Address = Address(city: string, country: string)

  /** A person record; `address` is None where the record holds a nil address pointer. */
  datatype Person = Person(id: string, firstname: string, lastname: string, address: Option<Address>)

  /** The zero value of a person record. */
  const Nobody := Person("", "", "", None)

  /** The records the service starts with. */
  const TestPeople: seq<Person> := [
    Person("1", "Michael", "Leimenmeier", Some(Address("Dortmund", "Germany"))),
    Person("2", "Sascha Mario", "Klein", Some(Address("Bochum", "Germany"))),
    Person("3", "Taran", "", None),
    Person("4", "Anju", "", None)
  ]

  /** Some record in `s` has identifier `id`. */
  ghost predicate Has(s: seq<Person>, id: string) {
    exists i :: 0 <= i < |s| && s[i].id == id
  }

  /** `i` is the position of the first record in `s` whose identifier is `id`. */
  ghost predicate IsFirstMatch(s: seq<Person>, id: string, i: int) {
    0 <= i < |s| && s[i].id == id && forall j :: 0 <= j < i ==> s[j].id != id
  }

  /** The position of the first record with identifier `id`, in list order. */
  function FindFirst(s: seq<Person>, id: string): (r: Option<nat>)
    ensures r.Some? <==> Has(s, id)
    ensures r.Some? ==> IsFirstMatch(s, id, r.value)
  {
    if s == [] then None
    else if s[0].id == id then Some(0)
    else match FindFirst(s[1..], id)
      case None =>
        assert forall i :: 1 <= i < |s| ==> s[i] == s[1..][i - 1];
        None
      case Some(k) =>
        assert s[k + 1] == s[1..][k];
        assert forall j :: 1 <= j < k + 1 ==> s[j] == s[1..][j - 1];
        Some(k + 1)
  }

  /** The record a lookup answers with: the first match, or the zero value when there is none. */
  function Lookup(s: seq<Person>, id: string): (p: Person)
    ensures Has(s, id) ==> exists i :: IsFirstMatch(s, id, i) && p == s[i]
    ensures !Has(s, id) ==> p == Nobody
  {
    match FindFirst(s, id)
    case Some(i) => s[i]
    case None => Nobody
  }

  /**
   * The record a create appends, with its identifier replaced by the path
   * identifier. `decoded` is the value the decoder left behind: Some, even
   * when it is only partly filled (the decode error is discarded), or None
   * when the decoder left the zero value.
   */
  function NewRecord(decoded: Option<Person>, id: string): (p: Person)
    ensures p.id == id
    ensures decoded.Some? ==>
      p.firstname == decoded.value.firstname && p.lastname == decoded.value.lastname &&
      p.address == decoded.value.address
    ensures decoded.None? ==> p.firstname == "" && p.lastname == "" && p.address == None
  {
    decoded.GetOr(Nobody).(id := id)
  }

  /** The list after a delete: the first match cut out, or the list unchanged when there is none. */
  function Removed(s: seq<Person>, id: string): (r: seq<Person>)
    ensures Has(s, id) ==> exists i :: IsFirstMatch(s, id, i) && r == s[..i] + s[i + 1..]
    ensures !Has(s, id) ==> r == s
    ensures |r| == if Has(s, id) then |s| - 1 else |s|
  {
    match FindFirst(s, id)
    case Some(i) => s[..i] + s[i + 1..]
    case None => s
  }

  /** The number of records in `s` whose identifier is `id`. */
  function Count(s: seq<Person>, id: string): nat {
    if s == [] then 0 else (if s[0].id == id then 1 else 0) + Count(s[1..], id)
  }

  lemma {:induction false} CountConcat(a: seq<Person>, b: seq<Person>, id: string)
    ensures Count(a + b, id) == Count(a, id) + Count(b, id)
  {
    if a != [] {
      assert (a + b)[1..] == a[1..] + b;
      CountConcat(a[1..], b, id);
    } else {
      assert a + b == b;
    }
  }

  /** Counting agrees with membership. */
  lemma {:induction false} CountPositive(s: seq<Person>, id: string)
    ensures Count(s, id) > 0 <==> Has(s, id)
  {
    if s != [] {
      CountPositive(s[1..], id);
      if Has(s[1..], id) {
        var i :| 0 <= i < |s[1..]| && s[1..][i].id == id;
        assert s[i + 1].id == id;
      }
      if Has(s, id) && s[0].id != id {
        var i :| 0 <= i < |s| && s[i].id == id;
        assert s[1..][i - 1].id == id;
      }
    }
  }

  /** Only one position can be the first match. */
  lemma FirstMatchUnique(s: seq<Person>, id: string, i: int, k: int)
    requires IsFirstMatch(s, id, i) && IsFirstMatch(s, id, k)
    ensures i == k
  {
  }

  /** Delete takes away exactly one record with the identifier; any later ones stay. */
  lemma {:induction false} RemovedDropsOneMatch(s: seq<Person>, id: string)
    ensures Count(Removed(s, id), id) == if Has(s, id) then Count(s, id) - 1 else Count(s, id)
  {
    if Has(s, id) {
      var i := FindFirst(s, id).value;
      assert s == s[..i] + [s[i]] + s[i + 1..];
      CountConcat(s[..i] + [s[i]], s[i + 1..], id);
      CountConcat(s[..i], [s[i]], id);
      CountConcat(s[..i], s[i + 1..], id);
      assert Count([s[i]], id) == 1 by { assert [s[i]][1..] == []; }
    }
  }

  /** When two or more records hold the identifier, one still holds it after a delete. */
  lemma LaterMatchesSurvive(s: seq<Person>, id: string)
    requires Count(s, id) >= 2
    ensures Has(Removed(s, id), id)
  {
    CountPositive(s, id);
    RemovedDropsOneMatch(s, id);
    CountPositive(Removed(s, id), id);
  }

  /** What delete takes away is exactly the record a lookup of the same identifier answers with. */
  lemma RemovedIsLookupTakenOut(s: seq<Person>, id: string)
    requires Has(s, id)
    ensures multiset(Removed(s, id)) + multiset{Lookup(s, id)} == multiset(s)
  {
    var i := FindFirst(s, id).value;
    assert s == s[..i] + [s[i]] + s[i + 1..];
  }

  /** Create never checks uniqueness: the new record adds one more holder of the identifier. */
  lemma CreateAllowsDuplicates(s: seq<Person>, id: string, decoded: Option<Person>)
    ensures Count(s + [NewRecord(decoded, id)], id) == Count(s, id) + 1
  {
    CountConcat(s, [NewRecord(decoded, id)], id);
    assert [NewRecord(decoded, id)][1..] == [];
  }

  /**
   * A lookup after a create finds the new record only when no earlier record
   * holds the identifier; otherwise the earlier record shadows it.
   */
  lemma LookupAfterCreate(s: seq<Person>, id: string, decoded: Option<Person>)
    ensures Lookup(s + [NewRecord(decoded, id)], id) ==
      if Has(s, id) then Lookup(s, id) else NewRecord(decoded, id)
  {
    var t := s + [NewRecord(decoded, id)];
    assert t[|s|].id == id;
    if Has(s, id) {
      var i := FindFirst(s, id).value;
      assert t[..|s|] == s;
      assert IsFirstMatch(t, id, i);
      var k :| IsFirstMatch(t, id, k) && Lookup(t, id) == t[k];
      FirstMatchUnique(t, id, i, k);
    } else {
      assert IsFirstMatch(t, id, |s|);
      var k :| IsFirstMatch(t, id, k) && Lookup(t, id) == t[k];
      FirstMatchUnique(t, id, |s|, k);
    }
  }

  /** Deleting an identifier that only the just-created record holds restores the list. */
  lemma DeleteUndoesCreate(s: seq<Person>, id: string, decoded: Option<Person>)
    requires !Has(s, id)
    ensures Removed(s + [NewRecord(decoded, id)], id) == s
  {
    var t := s + [NewRecord(decoded, id)];
    assert IsFirstMatch(t, id, |s|);
    var k :| IsFirstMatch(t, id, k) && Removed(t, id) == t[..k] + t[k + 1..];
    FirstMatchUnique(t, id, |s|, k);
    assert t[..|s|] == s;
  }

  /** The process-wide list of people and its four endpoints. */
  class Registry {
    var people: seq<Person>

    /** The list before anything is added: empty. */
    constructor ()
      ensures people == []
    {
      people := [];
    }

    /** The list as the service seeds it at start-up. */
    constructor WithTestData()
      ensures people == TestPeople
    {
      people := [];
      people := people + [TestPeople[0]];
      people := people + [TestPeople[1]];
      people := people + [TestPeople[2]];
      people := people + [TestPeople[3]];
    }

    /** GET /people/{id}: the first record with the identifier, or the zero value. */
    method GetPerson(id: string) returns (p: Person)
      ensures p == Lookup(people, id)
      ensures Has(people, id) ==> p.id == id
    {
      var i := 0;
      while i < |people|
        invariant 0 <= i <= |people|
        invariant forall j :: 0 <= j < i ==> people[j].id != id
      {
        if people[i].id == id {
          FirstMatchUnique(people, id, i, FindFirst(people, id).value);
          return people[i];
        }
        i := i + 1;
      }
      return Nobody;
    }

    /** GET /people: the whole list, in order. */
    method GetPeople() returns (all: seq<Person>)
      ensures all == people
    {
      all := people;
    }

    /** POST /people/{id}: appends the new record and answers with the whole list. */
    method CreatePerson(id: string, decoded: Option<Person>) returns (listed: seq<Person>)
      modifies this
      ensures people == old(people) + [NewRecord(decoded, id)]
      ensures |people| == |old(people)| + 1 && people[..|old(people)|] == old(people)
      ensures listed == people
    {
      var person := decoded.GetOr(Nobody);
      person := person.(id := id);
      people := people + [person];
      listed := people;
    }

    /** DELETE /people/{id}: cuts out the first record with the identifier and answers with the whole list. */
    method DeletePerson(id: string) returns (listed: seq<Person>)
      modifies this
      ensures people == Removed(old(people), id)
      ensures !Has(old(people), id) ==> people == old(people)
      ensures listed == people
    {
      var i := 0;
      while i < |people|
        invariant 0 <= i <= |people|
        invariant people == old(people)
        invariant forall j :: 0 <= j < i ==> people[j].id != id
      {
        if people[i].id == id {
          FirstMatchUnique(people, id, i, FindFirst(people, id).value);
          people := people[..i] + people[i + 1..];
          break;
        }
        i := i + 1;
      }
      listed := people;
    }
  }
}
