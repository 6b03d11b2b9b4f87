/**
 * The `update` callback that src/index.jsx passes to the `addPerson`
 * mutation: it reads the cached `AllPeople` result and writes back a copy
 * whose `people` list has the newly added person appended. Reading and
 * writing the cache are the client library's; the model covers the value
 * written, as a function of the value read.
 */
module CacheUpdate {
  import opened Wrappers
  import Schema

  /** A person as the `AllPeople` query and the `AddPerson` mutation select it: `id` and `name`. */
  datatype CachedPerson = CachedPerson(id: int, name: Option<string>)

  /**
   * A cached `AllPeople` result: its `people` list and every other field of
   * the result object, by field name.
   */
  datatype AllPeopleData<V> = AllPeopleData(people: seq<CachedPerson>, otherFields: map<string, V>)

  /** What the callback raises: reading `people` of a missing cached result. */
  datatype UpdateError = PeopleOfNull

  /**
   * The value the callback writes back. With no cached result (`readQuery`
   * gives null) reading its `people` field throws. Otherwise the result is
   * copied, every other field kept, and `people` replaced by the old list
   * with `added` at its end.
   */
  function SpliceAddedPerson<V>(cached: Option<AllPeopleData<V>>, added: CachedPerson): (r: Result<AllPeopleData<V>, UpdateError>)
    ensures cached.None? <==> r.Failure?
    ensures r.Failure? ==> r.error == PeopleOfNull
    ensures r.Success? ==>
              var before := cached.value.people;
              && |r.value.people| == |before| + 1
              && r.value.people[..|before|] == before
              && r.value.people[|before|] == added
              && r.value.otherFields == cached.value.otherFields
  {
    match cached
    case None => Failure(PeopleOfNull)
    case Some(data) => Success(data.(people := data.people + [added]))
  }

  /** The fields of a store record that `AllPeople` and `AddPerson` select. */
  function Selected(p: Schema.Person): CachedPerson
  {
    CachedPerson(p.id, p.name)
  }

  /** The `people` list the `AllPeople` query yields for a store. */
  function SelectAll(s: seq<Schema.Person>): seq<CachedPerson>
  {
    seq(|s|, i requires 0 <= i < |s| => Selected(s[i]))
  }

  /** The cached result after a sequence of `addPerson` mutations, each followed by the callback. */
  function SpliceAfterAdds<V>(data: AllPeopleData<V>, store: seq<Schema.Person>, names: seq<Option<string>>): AllPeopleData<V>
    requires |store| > 0
    decreases |names|
  {
    if names == [] then data
    else
      var p := Schema.NewPerson(store, names[0]);
      SpliceAfterAdds(SpliceAddedPerson(Some(data), Selected(p)).value, store + [p], names[1..])
  }

  /**
   * If the cached list shows the store, then after `addPerson` and the
   * callback it shows the grown store: the splice reproduces what a
   * refetch of `AllPeople` would give, and keeps the other fields.
   */
  lemma SpliceTracksStore<V>(data: AllPeopleData<V>, store: seq<Schema.Person>, name: Option<string>)
    requires |store| > 0 && data.people == SelectAll(store)
    ensures var p := Schema.NewPerson(store, name);
            SpliceAddedPerson(Some(data), Selected(p))
              == Success(AllPeopleData(SelectAll(store + [p]), data.otherFields))
  {
    var p := Schema.NewPerson(store, name);
    assert SelectAll(store + [p]) == SelectAll(store) + [Selected(p)];
  }

  /**
   * The same across any number of mutations: the cached list stays the
   * selection of the store, and the other fields never change.
   */
  lemma {:induction false} SpliceTracksStoreAcrossAdds<V>(data: AllPeopleData<V>, store: seq<Schema.Person>, names: seq<Option<string>>)
    requires |store| > 0 && data.people == SelectAll(store)
    ensures SpliceAfterAdds(data, store, names) == AllPeopleData(SelectAll(Schema.AfterAdds(store, names)), data.otherFields)
    decreases |names|
  {
    if names != [] {
      var p := Schema.NewPerson(store, names[0]);
      SpliceTracksStore(data, store, names[0]);
      SpliceTracksStoreAcrossAdds(AllPeopleData(SelectAll(store + [p]), data.otherFields), store + [p], names[1..]);
    }
  }
}
