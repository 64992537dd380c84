/**
 * Query keys of the dashboard's data cache. A key is an ordered list of
 * primitive parts (here all strings) and two keys name the same cache entry
 * exactly when they are structurally equal.
 */
module QueryKeys {

  type QueryKey = seq<string>

  /**
   * Partial matching used by the cache library's `invalidateQueries`: a
   * filter key selects every cached key that it is a prefix of. This is the
   * library's documented behaviour, assumed here, not code of the dashboard.
   */
  predicate Matches(filter: QueryKey, key: QueryKey)
  {
    filter <= key
  }

  /** Two keys whose first parts differ can never be matched by one another. */
  lemma DifferentTagsNeverMatch(filter: QueryKey, key: QueryKey)
    requires |filter| > 0 && |key| > 0 && filter[0] != key[0]
    ensures !Matches(filter, key) && !Matches(key, filter)
  {
  }
}
