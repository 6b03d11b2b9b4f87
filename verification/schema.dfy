/**
 * The mock GraphQL backend of src/schema.js: the in-memory people store, the
 * `people` query resolver and the `addPerson` mutation resolver.
 */
module Schema {
  import opened Wrappers

  /**
   * One person record. The seed records carry an `age`; records built by
   * `addPerson` have none. `name` is the optional GraphQL `String` argument,
   * kept exactly as given (None when it was absent or null).
   */
  datatype Person = Person(id: int, name: Option<string>, age: Option<int>)

  /** The three records the store starts with. */
  function SeedPeople(): seq<Person>
  {
    [ Person(1, Some("John Smith"), Some(30)),
      Person(2, Some("Sara Smith"), Some(31)),
      Person(3, Some("Budd Deey"), Some(999)) ]
  }

  /** Ids strictly increase in store order. */
  ghost predicate IdsIncreasing(s: seq<Person>)
  {
    forall i, j :: 0 <= i < j < |s| ==> s[i].id < s[j].id
  }

  /** Ids are pairwise distinct. */
  ghost predicate IdsUnique(s: seq<Person>)
  {
    forall i, j :: 0 <= i < |s| && 0 <= j < |s| && i != j ==> s[i].id != s[j].id
  }

  /** The id of the store's last record. */
  function LastId(s: seq<Person>): int
    requires |s| > 0
  {
    s[|s| - 1].id
  }

  /**
   * The id `addPerson` assigns: the last record's id plus one. In a store
   * whose ids increase it is larger than every id already present.
   */
  function NextId(s: seq<Person>): (r: int)
    requires |s| > 0
    ensures IdsIncreasing(s) ==> forall i :: 0 <= i < |s| ==> s[i].id < r
  {
    LastId(s) + 1
  }

  /**
   * The record `addPerson` builds: a fresh id, the given name unchanged and
   * no age. Appending it keeps the ids increasing.
   */
  function NewPerson(s: seq<Person>, name: Option<string>): (p: Person)
    requires |s| > 0
    ensures IdsIncreasing(s) ==> IdsIncreasing(s + [p])
  {
    Person(NextId(s), name, None)
  }

  /**
   * The largest id in the store, by an independent recursive definition:
   * an upper bound of every id that is itself the id of some record.
   */
  function MaxId(s: seq<Person>): (m: int)
    requires |s| > 0
    ensures forall i :: 0 <= i < |s| ==> s[i].id <= m
    ensures exists p :: p in s && p.id == m
  {
    if |s| == 1 then s[0].id
    else
      var rest := MaxId(s[1..]);
      if s[0].id >= rest then s[0].id else rest
  }

  /** The store after `addPerson` has been called once per name, in order. */
  function AfterAdds(s: seq<Person>, names: seq<Option<string>>): seq<Person>
    requires |s| > 0
    decreases |names|
  {
    if names == [] then s
    else AfterAdds(s + [NewPerson(s, names[0])], names[1..])
  }

  /** The seeded store holds three people with ids 1, 2, 3 in that order, and its ids increase. */
  lemma SeedPeopleShape()
    ensures |SeedPeople()| == 3
    ensures SeedPeople()[0].id == 1 && SeedPeople()[1].id == 2 && SeedPeople()[2].id == 3
    ensures IdsIncreasing(SeedPeople())
  {
  }

  /** Strictly increasing ids are unique ids. */
  lemma IncreasingIdsAreUnique(s: seq<Person>)
    requires IdsIncreasing(s)
    ensures IdsUnique(s)
  {
    forall i, j | 0 <= i < |s| && 0 <= j < |s| && i != j
      ensures s[i].id != s[j].id
    {
      if i < j { assert s[i].id < s[j].id; } else { assert s[j].id < s[i].id; }
    }
  }

  /**
   * In a store whose ids increase, "last id plus one" is "largest id plus
   * one": the code's rule and the max-plus-one rule assign the same id.
   */
  lemma NextIdIsMaxPlusOne(s: seq<Person>)
    requires |s| > 0 && IdsIncreasing(s)
    ensures NextId(s) == MaxId(s) + 1
  {
    var m := MaxId(s);
    var p :| p in s && p.id == m;
    var i :| 0 <= i < |s| && s[i] == p;
    assert i == |s| - 1 || s[i].id < s[|s| - 1].id;
  }

  /** Adding "Zoe" to any store that ends with id 3 (the seeded one among them) yields the record with id 4 and that name. */
  lemma AddZoeAfterIdThree(s: seq<Person>)
    requires |s| > 0 && LastId(s) == 3
    ensures NewPerson(s, Some("Zoe")) == Person(4, Some("Zoe"), None)
    ensures NewPerson(SeedPeople(), Some("Zoe")) == Person(4, Some("Zoe"), None)
  {
  }

  /** Adding the names of `first` and then those of `second` is adding the names of `first + second`. */
  lemma {:induction false} AfterAddsConcat(s: seq<Person>, first: seq<Option<string>>, second: seq<Option<string>>)
    requires |s| > 0
    ensures |AfterAdds(s, first)| > 0
    ensures AfterAdds(AfterAdds(s, first), second) == AfterAdds(s, first + second)
    decreases |first|
  {
    AfterAddsShape(s, first);
    if first != [] {
      AfterAddsConcat(s + [NewPerson(s, first[0])], first[1..], second);
      assert (first + second)[1..] == first[1..] + second;
    } else {
      assert first + second == second;
    }
  }

  /**
   * Any sequence of `addPerson` calls grows the store by exactly one record
   * per call, leaves the earlier records in place, numbers the new records
   * consecutively after the old last id, and keeps the ids increasing.
   */
  lemma {:induction false} AfterAddsShape(s: seq<Person>, names: seq<Option<string>>)
    requires |s| > 0
    ensures |AfterAdds(s, names)| == |s| + |names|
    ensures AfterAdds(s, names)[..|s|] == s
    ensures forall k :: 0 <= k < |names| ==>
              AfterAdds(s, names)[|s| + k] == Person(LastId(s) + 1 + k, names[k], None)
    ensures IdsIncreasing(s) ==> IdsIncreasing(AfterAdds(s, names))
    decreases |names|
  {
    if names != [] {
      var s' := s + [NewPerson(s, names[0])];
      var names' := names[1..];
      AfterAddsShape(s', names');
      var r := AfterAdds(s, names);
      assert r == AfterAdds(s', names');
      assert r[..|s|] == r[..|s'|][..|s|];
      forall k | 0 <= k < |names|
        ensures r[|s| + k] == Person(LastId(s) + 1 + k, names[k], None)
      {
        if k == 0 {
          assert r[|s|] == r[..|s'|][|s|];
        } else {
          assert r[|s'| + (k - 1)] == Person(LastId(s') + 1 + (k - 1), names'[k - 1], None);
        }
      }
    }
  }

  /**
   * The store. In the source it is a module-level array created once with
   * the seed records; here the constructor stands for that initialisation.
   */
  class PeopleStore {
    var people: seq<Person>

    /** The seed records stay at the front (the store never shrinks) and ids strictly increase. */
    ghost predicate Valid()
      reads this
    {
      SeedPeople() <= people && IdsIncreasing(people)
    }

    constructor ()
      ensures Valid()
      ensures people == SeedPeople()
    {
      people := SeedPeople();
    }

    /** The `people` resolver: the current records, read without changing the store. */
    method People() returns (r: seq<Person>)
      requires Valid()
      ensures r == people
      ensures SeedPeople() <= r && IdsIncreasing(r) && IdsUnique(r)
    {
      r := people;
      IncreasingIdsAreUnique(r);
    }

    /**
     * The `addPerson` resolver: builds the record with the last id plus one
     * and the given name, appends it, and returns it.
     */
    method AddPerson(name: Option<string>) returns (p: Person)
      requires Valid()
      modifies this
      ensures Valid()
      ensures p == NewPerson(old(people), name)
      ensures p.id == LastId(old(people)) + 1 && p.name == name && p.age == None
      ensures people == old(people) + [p]
      ensures people == AfterAdds(old(people), [name])
    {
      p := Person(people[|people| - 1].id + 1, name, None);
      people := people + [p];
      assert [name][1..] == [];
    }
  }

  /**
   * `addPerson` called on one store once per name, in order: the store is
   * then the pure `AfterAdds` of the names, so the facts of `AfterAddsShape`
   * hold of the object.
   */
  method AddPeopleInOrder(store: PeopleStore, names: seq<Option<string>>)
    requires store.Valid()
    modifies store
    ensures store.Valid()
    ensures store.people == AfterAdds(old(store.people), names)
  {
    ghost var s0 := store.people;
    var i := 0;
    while i < |names|
      invariant 0 <= i <= |names|
      invariant store.Valid()
      invariant store.people == AfterAdds(s0, names[..i])
    {
      var _ := store.AddPerson(names[i]);
      AfterAddsConcat(s0, names[..i], [names[i]]);
      assert names[..i] + [names[i]] == names[..i + 1];
      i := i + 1;
    }
    assert names[..i] == names;
  }
}
