# People store, fetch-policy rule and cache splice

A Dafny model of the logic in a small GraphQL client demonstration app: the
mock backend's in-memory people store with its `people` query resolver and
`addPerson` mutation resolver (src/schema.js), the `nextFetchPolicy` rule in
the client's watch-query defaults, and the `update` callback that splices a
newly added person into the cached `AllPeople` result (src/index.jsx).

- `wrappers.dfy` — `Option` (an absent or null value) and `Result` (a value or the error an operation throws).
- `schema.dfy` — module `Schema`: the `Person` record, the seed records, the
  specification functions of the id rule (`NextId`, `NewPerson`, `AfterAdds`,
  and `MaxId`, an independent "largest id" definition), and the class
  `PeopleStore`, whose `people` field is the module-level array of the source.
  Its invariant `Valid()` says the seed records stay at the front, because the
  store never shrinks, and that ids strictly increase. This invariant is what
  makes "read the last record" safe in `AddPerson`.
- `fetch_policy.dfy` — module `FetchPolicy`: the six watch-query fetch
  policies, their names, and `NextFetchPolicy`.
- `cache_update.dfy` — module `CacheUpdate`: the value the mutation's
  `update` callback writes back as a function of the value it read. It also
  proves a conditional fact about any sequence of `addPerson` mutations. If
  the cached `people` list starts out equal to the store's `id`/`name`
  selection, and nothing else writes that list between a mutation and its
  callback, then after every callback the cached list is the selection of
  the grown store. That is what a refetch would give.

The new id is the last record's id plus one. `Schema.NextIdIsMaxPlusOne`
proves that this equals the largest id plus one while ids increase.

## Model

| member | source | states |
|---|---|---|
| `Schema.SeedPeopleShape` | src/schema.js:20-24 | the seeded store holds exactly three people, with ids 1, 2, 3 in that order, and its ids strictly increase |
| `Schema.PeopleStore.constructor` | src/schema.js:20-24 | a new store holds exactly the seed records and satisfies the store invariant |
| `Schema.NextId` | src/schema.js:46 | the assigned id, last id plus one, is larger than every id in a store whose ids increase, so it is fresh |
| `Schema.NewPerson` | src/schema.js:45-48 | appending the built record to a store with increasing ids keeps them increasing |
| `Schema.NextIdIsMaxPlusOne` | src/schema.js:46 | under increasing ids, last-id-plus-one equals largest-id-plus-one (the largest id defined independently by `MaxId`) |
| `Schema.IncreasingIdsAreUnique` | src/schema.js:20-24 | strictly increasing ids are pairwise distinct |
| `Schema.PeopleStore.People` | src/schema.js:29-31 | the `people` resolver returns the current records, changes nothing, and what it returns starts with the seed records and has increasing, unique ids |
| `Schema.PeopleStore.AddPerson` | src/schema.js:44-51 | the returned record has the old last id plus one, the given name unchanged (absent included) and no age; the store becomes the old store with that record appended; the invariant (seed prefix, increasing ids) is preserved; the new store is `AfterAdds` of the old one and the single name |
| `Schema.AddZoeAfterIdThree` | src/schema.js:44-51 | adding "Zoe" to any store whose last id is 3, the seeded store included, yields the record with id 4, name "Zoe" and no age |
| `Schema.AfterAddsShape` | src/schema.js:44-51 | any sequence of `addPerson` calls grows the store by one record per call, leaves earlier records in place, numbers the new records consecutively after the old last id with the given names, and keeps the ids increasing |
| `Schema.AfterAddsConcat` | src/schema.js:44-51 | adding one batch of names and then another gives the same store as adding both batches in one sequence, so the effects of consecutive `addPerson` calls compose |
| `Schema.AddPeopleInOrder` | src/schema.js:44-51 | calling `addPerson` on the store object once per name, in order, for any sequence of names, leaves it equal to `AfterAdds` of those names and keeps the invariant, so `AfterAddsShape` holds of the object |
| `FetchPolicy.NextFetchPolicy` | src/index.jsx:124-129 | the next policy is never "cache-and-network" or "network-only", and is either the last policy or "cache-first" |
| `FetchPolicy.NameInjective` | src/index.jsx:125 | two policies have the same name exactly when they are the same policy, so the string comparisons decide the policy |
| `FetchPolicy.NetworkPoliciesBecomeCacheFirst` | src/index.jsx:125-126 | "cache-and-network" and "network-only" both map to "cache-first" |
| `FetchPolicy.NextFetchPolicyCases` | src/index.jsx:124-129 | a policy is changed exactly when it is "cache-and-network" or "network-only"; every other policy is returned unchanged |
| `FetchPolicy.NextFetchPolicyIdempotent` | src/index.jsx:124-129 | applying the rule twice gives the same policy as applying it once |
| `FetchPolicy.PolicySettlesAfterFirstRun` | src/index.jsx:118-129 | applying the rule n ≥ 1 times in a row equals applying it once, from any starting policy (the configured default "cache-and-network" included); a consequence of idempotence |
| `CacheUpdate.SpliceAddedPerson` | src/index.jsx:60-70 | with no cached result, reading `people` fails; otherwise the written `people` list is the cached list with the added person at the end (length plus one, earlier entries in order), and every other field of the cached result is kept |
| `CacheUpdate.SpliceTracksStore` | src/index.jsx:60-70 | provided the cached list is the store's `id`/`name` selection, then after `addPerson` the splice gives exactly the selection of the grown store |
| `CacheUpdate.SpliceTracksStoreAcrossAdds` | src/index.jsx:59-71 | provided the cached list starts equal to the store's `id`/`name` selection, after any sequence of `addPerson` mutations, each followed by the callback, the cached list is still the selection of the store and the other fields are unchanged |

## Left out

- Module initialisation: the store is a module-level singleton in the source. Here it is an object built by `PeopleStore`'s constructor.
- The `TypeError` that reading the last record of an empty store would raise is not modelled. `Valid()` keeps the seed records in the store, so it cannot occur. `NextId` and `NewPerson` therefore require a non-empty store.
- Number width: ids are unbounded integers. JavaScript numbers lose exactness above 2^53, which the model does not capture.
- Serialisation: `GraphQLID` sends ids to the client as strings. The model keeps them as integers on both sides.
- Aliasing: the `people` resolver returns the live array itself. The model returns a snapshot value, which is what the GraphQL executor serialises.
- `name`: an absent argument and a null argument are both `None`. The source keeps `undefined` and `null` distinct, but both reach the client as null.
- The GraphQL type and schema objects, query documents, parsing and execution are left out. Only the resolver bodies are modelled.
- The client cache's `readQuery` and `writeQuery` are not modelled. `SpliceAddedPerson` takes the value read and gives the value written. A cache round trip of the seed data is therefore not modelled.
- Interleaved cache writes: the splice lemmas assume that the cached `people` list equals the store's selection beforehand. They also assume that nothing else writes that list between the server-side push and the callback. The polling query selects the same root `people` field and can write it in between. If the cached list already holds the added person, the splice appends it a second time. Such interleavings are not modelled.
- FetchPolicy.PolicySettlesAfterFirstRun: the rule is applied by the client library, not by this program. The lemma only holds for the running program if the library feeds the rule its own last output after every run and never sets the policy another way. Polling and refetches are runs whose policy the library picks, so this is not modelled.
- The `__typename` field that the cache adds is not modelled.
- Fetch policies: `NextFetchPolicy` is defined on the client's six watch-query policies. The source function would also pass any other value through unchanged, but the client never calls it with one.
- The latency/forced-error link, the subscriptions page and the layout are not part of this model. They live in files outside it and are timer- and async-driven.
- The React components, form state, polling (`pollInterval`, `onCompleted` logging), the router and the DOM bootstrap are UI and library behaviour, and are left out.
- The construction of the Apollo client and its in-memory cache are left out.
